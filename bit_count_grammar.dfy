/** The two line grammars of `hevc_bitrate_count.py`, `cabac_regex` and
    `cavlc_regex`: each turns one line of the bit-count decoder's output into
    a syntax-element name and its total bit count, or into nothing. Both
    regexes are written below as concatenations of the same few fragments. */
module BitCountGrammar {
  import opened PyRegex
  import opened PyInt

  /** `^\s(\S+)\s+:\s+`: a space, the element name (group 1) and a colon. */
  const Lead: Pattern :=
    [Term(Space, false), Term(NonSpaces, true), Term(Spaces, false), Term(Char(':'), false), Term(Spaces, false)]

  /** `\s\(\s+(-?\d+)\)\s$`: the total bit count in parentheses, last group. */
  const Trailer: Pattern :=
    [Term(Space, false), Term(Char('('), false), Term(Spaces, false), Term(Integer, true), Term(Char(')'), false),
     Term(Space, false), Term(End, false)]

  /** `(\S+)\s+(\S+)\s+`: two non-numeric columns of a CABAC line. */
  const CabacColumns: Pattern :=
    [Term(NonSpaces, true), Term(Spaces, false), Term(NonSpaces, true), Term(Spaces, false)]

  /** `(-?\d+)\s+` three times: three counts, each followed by blanks. */
  const ThreeCounts: Pattern :=
    [Term(Integer, true), Term(Spaces, false), Term(Integer, true), Term(Spaces, false), Term(Integer, true),
     Term(Spaces, false)]

  /** Seven `(-?\d+)` separated by `\s+`. */
  const CabacCounts: Pattern := ThreeCounts + ThreeCounts + [Term(Integer, true)]

  /** `cabac_regex`. */
  const CabacPattern: Pattern := Lead + CabacColumns + CabacCounts + Trailer

  /** Positions in CabacPattern of its groups 1..11. */
  const CabacGroups: seq<nat> := [1, 5, 7, 9, 11, 13, 15, 17, 19, 21, 25]

  /** `-\s+-\s+`: the two columns a CAVLC line leaves empty. */
  const CavlcColumns: Pattern :=
    [Term(Char('-'), false), Term(Spaces, false), Term(Char('-'), false), Term(Spaces, false)]

  /** Four `(-?\d+)` separated by `\s+`. */
  const CavlcCounts: Pattern := ThreeCounts + [Term(Integer, true)]

  /** `cavlc_regex`. */
  const CavlcPattern: Pattern := Lead + CavlcColumns + CavlcCounts + Trailer

  /** Positions in CavlcPattern of its groups 1..6. */
  const CavlcGroups: seq<nat> := [1, 9, 11, 13, 15, 19]

  // The facts below about the three patterns are checked position by position,
  // a few positions per lemma.

  lemma CabacSeparated18()
    ensures SeparatedFrom(CabacPattern, 18)
  {
    assert SeparatedFrom(CabacPattern, 27);
    assert SeparatedFrom(CabacPattern, 26);
    assert SeparatedFrom(CabacPattern, 25);
    assert SeparatedFrom(CabacPattern, 24);
    assert SeparatedFrom(CabacPattern, 23);
    assert SeparatedFrom(CabacPattern, 22);
    assert SeparatedFrom(CabacPattern, 21);
    assert SeparatedFrom(CabacPattern, 20);
    assert SeparatedFrom(CabacPattern, 19);
    assert SeparatedFrom(CabacPattern, 18);
  }

  lemma CabacSeparated9()
    ensures SeparatedFrom(CabacPattern, 9)
  {
    CabacSeparated18();
    assert SeparatedFrom(CabacPattern, 17);
    assert SeparatedFrom(CabacPattern, 16);
    assert SeparatedFrom(CabacPattern, 15);
    assert SeparatedFrom(CabacPattern, 14);
    assert SeparatedFrom(CabacPattern, 13);
    assert SeparatedFrom(CabacPattern, 12);
    assert SeparatedFrom(CabacPattern, 11);
    assert SeparatedFrom(CabacPattern, 10);
    assert SeparatedFrom(CabacPattern, 9);
  }

  lemma CabacDeterministic()
    ensures Deterministic(CabacPattern)
  {
    CabacSeparated9();
    assert SeparatedFrom(CabacPattern, 8);
    assert SeparatedFrom(CabacPattern, 7);
    assert SeparatedFrom(CabacPattern, 6);
    assert SeparatedFrom(CabacPattern, 5);
    assert SeparatedFrom(CabacPattern, 4);
    assert SeparatedFrom(CabacPattern, 3);
    assert SeparatedFrom(CabacPattern, 2);
    assert SeparatedFrom(CabacPattern, 1);
    assert SeparatedFrom(CabacPattern, 0);
    SeparatedScan(CabacPattern, 0);
  }

  lemma CabacCaptures20()
    ensures CapturesFrom(CabacPattern, 20, CabacGroups, 9)
  {
    assert CapturesFrom(CabacPattern, 29, CabacGroups, 11);
    assert CapturesFrom(CabacPattern, 28, CabacGroups, 11);
    assert CapturesFrom(CabacPattern, 27, CabacGroups, 11);
    assert CapturesFrom(CabacPattern, 26, CabacGroups, 11);
    assert CapturesFrom(CabacPattern, 25, CabacGroups, 10);
    assert CapturesFrom(CabacPattern, 24, CabacGroups, 10);
    assert CapturesFrom(CabacPattern, 23, CabacGroups, 10);
    assert CapturesFrom(CabacPattern, 22, CabacGroups, 10);
    assert CapturesFrom(CabacPattern, 21, CabacGroups, 9);
    assert CapturesFrom(CabacPattern, 20, CabacGroups, 9);
  }

  lemma CabacCaptures10()
    ensures CapturesFrom(CabacPattern, 10, CabacGroups, 4)
  {
    CabacCaptures20();
    assert CapturesFrom(CabacPattern, 19, CabacGroups, 8);
    assert CapturesFrom(CabacPattern, 18, CabacGroups, 8);
    assert CapturesFrom(CabacPattern, 17, CabacGroups, 7);
    assert CapturesFrom(CabacPattern, 16, CabacGroups, 7);
    assert CapturesFrom(CabacPattern, 15, CabacGroups, 6);
    assert CapturesFrom(CabacPattern, 14, CabacGroups, 6);
    assert CapturesFrom(CabacPattern, 13, CabacGroups, 5);
    assert CapturesFrom(CabacPattern, 12, CabacGroups, 5);
    assert CapturesFrom(CabacPattern, 11, CabacGroups, 4);
    assert CapturesFrom(CabacPattern, 10, CabacGroups, 4);
  }

  /** CabacGroups numbers the groups of the regex as the regex engine does. */
  lemma CabacCaptures()
    ensures CapturesFrom(CabacPattern, 0, CabacGroups, 0)
  {
    CabacCaptures10();
    assert CapturesFrom(CabacPattern, 9, CabacGroups, 3);
    assert CapturesFrom(CabacPattern, 8, CabacGroups, 3);
    assert CapturesFrom(CabacPattern, 7, CabacGroups, 2);
    assert CapturesFrom(CabacPattern, 6, CabacGroups, 2);
    assert CapturesFrom(CabacPattern, 5, CabacGroups, 1);
    assert CapturesFrom(CabacPattern, 4, CabacGroups, 1);
    assert CapturesFrom(CabacPattern, 3, CabacGroups, 1);
    assert CapturesFrom(CabacPattern, 2, CabacGroups, 1);
    assert CapturesFrom(CabacPattern, 1, CabacGroups, 0);
    assert CapturesFrom(CabacPattern, 0, CabacGroups, 0);
  }

  lemma CavlcSeparated11()
    ensures SeparatedFrom(CavlcPattern, 11)
  {
    assert SeparatedFrom(CavlcPattern, 21);
    assert SeparatedFrom(CavlcPattern, 20);
    assert SeparatedFrom(CavlcPattern, 19);
    assert SeparatedFrom(CavlcPattern, 18);
    assert SeparatedFrom(CavlcPattern, 17);
    assert SeparatedFrom(CavlcPattern, 16);
    assert SeparatedFrom(CavlcPattern, 15);
    assert SeparatedFrom(CavlcPattern, 14);
    assert SeparatedFrom(CavlcPattern, 13);
    assert SeparatedFrom(CavlcPattern, 12);
    assert SeparatedFrom(CavlcPattern, 11);
  }

  lemma CavlcDeterministic()
    ensures Deterministic(CavlcPattern)
  {
    CavlcSeparated11();
    assert SeparatedFrom(CavlcPattern, 10);
    assert SeparatedFrom(CavlcPattern, 9);
    assert SeparatedFrom(CavlcPattern, 8);
    assert SeparatedFrom(CavlcPattern, 7);
    assert SeparatedFrom(CavlcPattern, 6);
    assert SeparatedFrom(CavlcPattern, 5);
    assert SeparatedFrom(CavlcPattern, 4);
    assert SeparatedFrom(CavlcPattern, 3);
    assert SeparatedFrom(CavlcPattern, 2);
    assert SeparatedFrom(CavlcPattern, 1);
    assert SeparatedFrom(CavlcPattern, 0);
    SeparatedScan(CavlcPattern, 0);
  }

  lemma CavlcCaptures12()
    ensures CapturesFrom(CavlcPattern, 12, CavlcGroups, 3)
  {
    assert CapturesFrom(CavlcPattern, 23, CavlcGroups, 6);
    assert CapturesFrom(CavlcPattern, 22, CavlcGroups, 6);
    assert CapturesFrom(CavlcPattern, 21, CavlcGroups, 6);
    assert CapturesFrom(CavlcPattern, 20, CavlcGroups, 6);
    assert CapturesFrom(CavlcPattern, 19, CavlcGroups, 5);
    assert CapturesFrom(CavlcPattern, 18, CavlcGroups, 5);
    assert CapturesFrom(CavlcPattern, 17, CavlcGroups, 5);
    assert CapturesFrom(CavlcPattern, 16, CavlcGroups, 5);
    assert CapturesFrom(CavlcPattern, 15, CavlcGroups, 4);
    assert CapturesFrom(CavlcPattern, 14, CavlcGroups, 4);
    assert CapturesFrom(CavlcPattern, 13, CavlcGroups, 3);
    assert CapturesFrom(CavlcPattern, 12, CavlcGroups, 3);
  }

  /** CavlcGroups numbers the groups of the regex as the regex engine does. */
  lemma CavlcCaptures()
    ensures CapturesFrom(CavlcPattern, 0, CavlcGroups, 0)
  {
    CavlcCaptures12();
    assert CapturesFrom(CavlcPattern, 11, CavlcGroups, 2);
    assert CapturesFrom(CavlcPattern, 10, CavlcGroups, 2);
    assert CapturesFrom(CavlcPattern, 9, CavlcGroups, 1);
    assert CapturesFrom(CavlcPattern, 8, CavlcGroups, 1);
    assert CapturesFrom(CavlcPattern, 7, CavlcGroups, 1);
    assert CapturesFrom(CavlcPattern, 6, CavlcGroups, 1);
    assert CapturesFrom(CavlcPattern, 5, CavlcGroups, 1);
    assert CapturesFrom(CavlcPattern, 4, CavlcGroups, 1);
    assert CapturesFrom(CavlcPattern, 3, CavlcGroups, 1);
    assert CapturesFrom(CavlcPattern, 2, CavlcGroups, 1);
    assert CapturesFrom(CavlcPattern, 1, CavlcGroups, 0);
    assert CapturesFrom(CavlcPattern, 0, CavlcGroups, 0);
  }

  /** What group 1 and group 10 of a CABAC split hold. */
  lemma CabacPieces(pieces: seq<string>, line: string)
    requires Decomposes(CabacPattern, pieces, line)
    ensures |CabacGroups| == 11 && CabacGroups[0] < |pieces| && CabacGroups[9] < |pieces|
    ensures Accepts(NonSpaces, Group(pieces, CabacGroups, 1)) && Accepts(Integer, Group(pieces, CabacGroups, 10))
  {
    assert CabacGroups[0] == 1 && CabacGroups[9] == 21;
    assert CabacPattern[1].atom == NonSpaces && CabacPattern[21].atom == Integer;
  }

  /** What group 1 and group 5 of a CAVLC split hold. */
  lemma CavlcPieces(pieces: seq<string>, line: string)
    requires Decomposes(CavlcPattern, pieces, line)
    ensures |CavlcGroups| == 6 && CavlcGroups[0] < |pieces| && CavlcGroups[4] < |pieces|
    ensures Accepts(NonSpaces, Group(pieces, CavlcGroups, 1)) && Accepts(Integer, Group(pieces, CavlcGroups, 5))
  {
    assert CavlcGroups[0] == 1 && CavlcGroups[4] == 15;
    assert CavlcPattern[1].atom == NonSpaces && CavlcPattern[15].atom == Integer;
  }

  /** A matched syntax-element line: group 1 and the integer value of the
      total-bits group. */
  datatype Entry = Entry(name: string, total: int)

  /** `cabac_regex.match(line)`, reduced to (group(1), int(group(10))). */
  function CabacLine(line: string): (r: Option<Entry>)
    ensures r.Some? ==> |r.value.name| > 0 && NoSpace(r.value.name)
  {
    match Match(CabacPattern, line)
    case None => None
    case Some(m) =>
      CabacPieces(m, line);
      Some(Entry(Group(m, CabacGroups, 1), IntOf(Group(m, CabacGroups, 10))))
  }

  /** `cavlc_regex.match(line)`, reduced to (group(1), int(group(5))). */
  function CavlcLine(line: string): (r: Option<Entry>)
    ensures r.Some? ==> |r.value.name| > 0 && NoSpace(r.value.name)
  {
    match Match(CavlcPattern, line)
    case None => None
    case Some(m) =>
      CavlcPieces(m, line);
      Some(Entry(Group(m, CavlcGroups, 1), IntOf(Group(m, CavlcGroups, 5))))
  }

  /** Every split of a line along cabac_regex makes it a CABAC line, whose
      entry is that split's group 1 and the integer in its group 10. With the
      postcondition of Match, CabacLine(line) is Some exactly when such a split
      exists. */
  lemma CabacGrammar(line: string, pieces: seq<string>)
    requires Decomposes(CabacPattern, pieces, line)
    ensures Accepts(Integer, Group(pieces, CabacGroups, 10))
    ensures CabacLine(line) == Some(Entry(Group(pieces, CabacGroups, 1), IntOf(Group(pieces, CabacGroups, 10))))
  {
    CabacPieces(pieces, line);
    CabacDeterministic();
    MatchComplete(CabacPattern, pieces, line);
  }

  /** Every split of a line along cavlc_regex makes it a CAVLC line, whose
      entry is that split's group 1 and the integer in its group 5. */
  lemma CavlcGrammar(line: string, pieces: seq<string>)
    requires Decomposes(CavlcPattern, pieces, line)
    ensures Accepts(Integer, Group(pieces, CavlcGroups, 5))
    ensures CavlcLine(line) == Some(Entry(Group(pieces, CavlcGroups, 1), IntOf(Group(pieces, CavlcGroups, 5))))
  {
    CavlcPieces(pieces, line);
    CavlcDeterministic();
    MatchComplete(CavlcPattern, pieces, line);
  }

  // A line as the decoder prints it, field by field, one field per term of
  // the pattern, with single spaces between the fields.

  /** A name or column as the decoder prints it: a non-empty word without
      whitespace. */
  predicate Word(w: string) {
    |w| > 0 && NoSpace(w)
  }

  function LeadFields(name: string): seq<string> {
    [" ", name, " ", ":", " "]
  }

  function TrailerFields(bracketed: int): seq<string> {
    [" ", "(", " ", Numeral(bracketed), ")", " ", ""]
  }

  function ThreeCountFields(a: int, b: int, c: int): seq<string> {
    [Numeral(a), " ", Numeral(b), " ", Numeral(c), " "]
  }

  function CabacCountFields(counts: seq<int>): seq<string>
    requires |counts| == 7
  {
    ThreeCountFields(counts[0], counts[1], counts[2]) + ThreeCountFields(counts[3], counts[4], counts[5]) +
    [Numeral(counts[6])]
  }

  function CavlcCountFields(counts: seq<int>): seq<string>
    requires |counts| == 4
  {
    ThreeCountFields(counts[0], counts[1], counts[2]) + [Numeral(counts[3])]
  }

  /** A CABAC line: the name, two columns, seven counts (the last is the
      total) and a bracketed count. */
  function CabacFields(name: string, first: string, second: string, counts: seq<int>, bracketed: int): seq<string>
    requires |counts| == 7
  {
    LeadFields(name) + [first, " ", second, " "] + CabacCountFields(counts) + TrailerFields(bracketed)
  }

  /** A CAVLC line: the name, two `-`, four counts (the last is the total)
      and a bracketed count. */
  function CavlcFields(name: string, counts: seq<int>, bracketed: int): seq<string>
    requires |counts| == 4
  {
    LeadFields(name) + ["-", " ", "-", " "] + CavlcCountFields(counts) + TrailerFields(bracketed)
  }

  lemma LeadSplits(name: string)
    requires Word(name)
    ensures Decomposes(Lead, LeadFields(name), Concat(LeadFields(name)))
  {
  }

  lemma TrailerSplits(bracketed: int)
    ensures Decomposes(Trailer, TrailerFields(bracketed), Concat(TrailerFields(bracketed)))
  {
  }

  lemma ThreeCountsSplit(a: int, b: int, c: int)
    ensures Decomposes(ThreeCounts, ThreeCountFields(a, b, c), Concat(ThreeCountFields(a, b, c)))
  {
  }

  lemma LastCountSplit(n: int)
    ensures Decomposes([Term(Integer, true)], [Numeral(n)], Concat([Numeral(n)]))
  {
  }

  lemma CabacCountsSplit(counts: seq<int>)
    requires |counts| == 7
    ensures Decomposes(CabacCounts, CabacCountFields(counts), Concat(CabacCountFields(counts)))
  {
    var first := ThreeCountFields(counts[0], counts[1], counts[2]);
    var second := ThreeCountFields(counts[3], counts[4], counts[5]);
    var last := [Numeral(counts[6])];
    ThreeCountsSplit(counts[0], counts[1], counts[2]);
    ThreeCountsSplit(counts[3], counts[4], counts[5]);
    LastCountSplit(counts[6]);
    DecomposesAppend(ThreeCounts, ThreeCounts, first, second, Concat(first), Concat(second));
    DecomposesAppend(ThreeCounts + ThreeCounts, [Term(Integer, true)], first + second, last,
                     Concat(first) + Concat(second), Concat(last));
    ConcatAppend(first, second);
    ConcatAppend(first + second, last);
  }

  lemma CavlcCountsSplit(counts: seq<int>)
    requires |counts| == 4
    ensures Decomposes(CavlcCounts, CavlcCountFields(counts), Concat(CavlcCountFields(counts)))
  {
    var first := ThreeCountFields(counts[0], counts[1], counts[2]);
    var last := [Numeral(counts[3])];
    ThreeCountsSplit(counts[0], counts[1], counts[2]);
    LastCountSplit(counts[3]);
    DecomposesAppend(ThreeCounts, [Term(Integer, true)], first, last, Concat(first), Concat(last));
    ConcatAppend(first, last);
  }

  /** Where the name and the total sit among a CABAC line's fields. */
  lemma CabacFieldsGroups(name: string, first: string, second: string, counts: seq<int>, bracketed: int)
    requires |counts| == 7
    ensures |CabacFields(name, first, second, counts, bracketed)| == 29
    ensures Group(CabacFields(name, first, second, counts, bracketed), CabacGroups, 1) == name
    ensures Group(CabacFields(name, first, second, counts, bracketed), CabacGroups, 10) == Numeral(counts[6])
  {
    var numbers := CabacCountFields(counts);
    assert |numbers| == 13 && numbers[12] == Numeral(counts[6]);
  }

  /** Where the name and the total sit among a CAVLC line's fields. */
  lemma CavlcFieldsGroups(name: string, counts: seq<int>, bracketed: int)
    requires |counts| == 4
    ensures |CavlcFields(name, counts, bracketed)| == 23
    ensures Group(CavlcFields(name, counts, bracketed), CavlcGroups, 1) == name
    ensures Group(CavlcFields(name, counts, bracketed), CavlcGroups, 5) == Numeral(counts[3])
  {
    var numbers := CavlcCountFields(counts);
    assert |numbers| == 7 && numbers[6] == Numeral(counts[3]);
  }

  /** A printed CABAC line splits along cabac_regex into its fields. */
  lemma CabacFieldsSplit(name: string, first: string, second: string, counts: seq<int>, bracketed: int)
    requires Word(name) && Word(first) && Word(second) && |counts| == 7
    ensures Decomposes(CabacPattern, CabacFields(name, first, second, counts, bracketed),
                       Concat(CabacFields(name, first, second, counts, bracketed)))
  {
    var lead, columns, numbers, trailer :=
      LeadFields(name), [first, " ", second, " "], CabacCountFields(counts), TrailerFields(bracketed);
    LeadSplits(name);
    assert Decomposes(CabacColumns, columns, Concat(columns));
    CabacCountsSplit(counts);
    TrailerSplits(bracketed);
    DecomposesAppend(Lead, CabacColumns, lead, columns, Concat(lead), Concat(columns));
    DecomposesAppend(Lead + CabacColumns, CabacCounts, lead + columns, numbers,
                     Concat(lead) + Concat(columns), Concat(numbers));
    DecomposesAppend(Lead + CabacColumns + CabacCounts, Trailer, lead + columns + numbers, trailer,
                     Concat(lead) + Concat(columns) + Concat(numbers), Concat(trailer));
    ConcatAppend(lead, columns);
    ConcatAppend(lead + columns, numbers);
    ConcatAppend(lead + columns + numbers, trailer);
  }

  /** A printed CAVLC line splits along cavlc_regex into its fields. */
  lemma CavlcFieldsSplit(name: string, counts: seq<int>, bracketed: int)
    requires Word(name) && |counts| == 4
    ensures Decomposes(CavlcPattern, CavlcFields(name, counts, bracketed),
                       Concat(CavlcFields(name, counts, bracketed)))
  {
    var lead, columns, numbers, trailer :=
      LeadFields(name), ["-", " ", "-", " "], CavlcCountFields(counts), TrailerFields(bracketed);
    LeadSplits(name);
    assert Decomposes(CavlcColumns, columns, Concat(columns));
    CavlcCountsSplit(counts);
    TrailerSplits(bracketed);
    DecomposesAppend(Lead, CavlcColumns, lead, columns, Concat(lead), Concat(columns));
    DecomposesAppend(Lead + CavlcColumns, CavlcCounts, lead + columns, numbers,
                     Concat(lead) + Concat(columns), Concat(numbers));
    DecomposesAppend(Lead + CavlcColumns + CavlcCounts, Trailer, lead + columns + numbers, trailer,
                     Concat(lead) + Concat(columns) + Concat(numbers), Concat(trailer));
    ConcatAppend(lead, columns);
    ConcatAppend(lead + columns, numbers);
    ConcatAppend(lead + columns + numbers, trailer);
  }

  /** Printing then parsing a CABAC line gives back its name and its total:
      the value read from group 10 is the count printed in that column. */
  lemma CabacRoundTrip(name: string, first: string, second: string, counts: seq<int>, bracketed: int)
    requires Word(name) && Word(first) && Word(second) && |counts| == 7
    ensures CabacLine(Concat(CabacFields(name, first, second, counts, bracketed))) == Some(Entry(name, counts[6]))
  {
    var pieces := CabacFields(name, first, second, counts, bracketed);
    CabacFieldsSplit(name, first, second, counts, bracketed);
    CabacFieldsGroups(name, first, second, counts, bracketed);
    CabacGrammar(Concat(pieces), pieces);
    NumeralRoundTrip(counts[6]);
  }

  /** Printing then parsing a CAVLC line gives back its name and its total:
      the value read from group 5 is the count printed in that column. */
  lemma CavlcRoundTrip(name: string, counts: seq<int>, bracketed: int)
    requires Word(name) && |counts| == 4
    ensures CavlcLine(Concat(CavlcFields(name, counts, bracketed))) == Some(Entry(name, counts[3]))
  {
    var pieces := CavlcFields(name, counts, bracketed);
    CavlcFieldsSplit(name, counts, bracketed);
    CavlcFieldsGroups(name, counts, bracketed);
    CavlcGrammar(Concat(pieces), pieces);
    NumeralRoundTrip(counts[3]);
  }

  /** cavlc_regex with its two `-` loosened to `\S+` and the `\s` before `\(`
      loosened to `\s+`: a proof device whose first 17 atoms are those of
      cabac_regex. */
  const CavlcLoosened: Pattern :=
    Lead + [Term(NonSpaces, false), Term(Spaces, false), Term(NonSpaces, false), Term(Spaces, false)] + CavlcCounts +
    [Term(Spaces, false)] + Trailer[1..]

  lemma LoosenedSeparated11()
    ensures SeparatedFrom(CavlcLoosened, 11)
  {
    assert SeparatedFrom(CavlcLoosened, 21);
    assert SeparatedFrom(CavlcLoosened, 20);
    assert SeparatedFrom(CavlcLoosened, 19);
    assert SeparatedFrom(CavlcLoosened, 18);
    assert SeparatedFrom(CavlcLoosened, 17);
    assert SeparatedFrom(CavlcLoosened, 16);
    assert SeparatedFrom(CavlcLoosened, 15);
    assert SeparatedFrom(CavlcLoosened, 14);
    assert SeparatedFrom(CavlcLoosened, 13);
    assert SeparatedFrom(CavlcLoosened, 12);
    assert SeparatedFrom(CavlcLoosened, 11);
  }

  lemma LoosenedDeterministic()
    ensures Deterministic(CavlcLoosened)
  {
    LoosenedSeparated11();
    assert SeparatedFrom(CavlcLoosened, 10);
    assert SeparatedFrom(CavlcLoosened, 9);
    assert SeparatedFrom(CavlcLoosened, 8);
    assert SeparatedFrom(CavlcLoosened, 7);
    assert SeparatedFrom(CavlcLoosened, 6);
    assert SeparatedFrom(CavlcLoosened, 5);
    assert SeparatedFrom(CavlcLoosened, 4);
    assert SeparatedFrom(CavlcLoosened, 3);
    assert SeparatedFrom(CavlcLoosened, 2);
    assert SeparatedFrom(CavlcLoosened, 1);
    assert SeparatedFrom(CavlcLoosened, 0);
    SeparatedScan(CavlcLoosened, 0);
  }

  lemma LoosenedSubsumes12()
    ensures SubsumedFrom(CavlcLoosened, CavlcPattern, 12)
  {
    assert SubsumedFrom(CavlcLoosened, CavlcPattern, 23);
    assert SubsumedFrom(CavlcLoosened, CavlcPattern, 22);
    assert SubsumedFrom(CavlcLoosened, CavlcPattern, 21);
    assert SubsumedFrom(CavlcLoosened, CavlcPattern, 20);
    assert SubsumedFrom(CavlcLoosened, CavlcPattern, 19);
    assert SubsumedFrom(CavlcLoosened, CavlcPattern, 18);
    assert SubsumedFrom(CavlcLoosened, CavlcPattern, 17);
    assert SubsumedFrom(CavlcLoosened, CavlcPattern, 16);
    assert SubsumedFrom(CavlcLoosened, CavlcPattern, 15);
    assert SubsumedFrom(CavlcLoosened, CavlcPattern, 14);
    assert SubsumedFrom(CavlcLoosened, CavlcPattern, 13);
    assert SubsumedFrom(CavlcLoosened, CavlcPattern, 12);
  }

  lemma LoosenedSubsumes()
    ensures |CavlcLoosened| == |CavlcPattern|
    ensures forall i :: 0 <= i < |CavlcPattern| ==> Subsumes(CavlcLoosened[i].atom, CavlcPattern[i].atom)
  {
    LoosenedSubsumes12();
    assert SubsumedFrom(CavlcLoosened, CavlcPattern, 11);
    assert SubsumedFrom(CavlcLoosened, CavlcPattern, 10);
    assert SubsumedFrom(CavlcLoosened, CavlcPattern, 9);
    assert SubsumedFrom(CavlcLoosened, CavlcPattern, 8);
    assert SubsumedFrom(CavlcLoosened, CavlcPattern, 7);
    assert SubsumedFrom(CavlcLoosened, CavlcPattern, 6);
    assert SubsumedFrom(CavlcLoosened, CavlcPattern, 5);
    assert SubsumedFrom(CavlcLoosened, CavlcPattern, 4);
    assert SubsumedFrom(CavlcLoosened, CavlcPattern, 3);
    assert SubsumedFrom(CavlcLoosened, CavlcPattern, 2);
    assert SubsumedFrom(CavlcLoosened, CavlcPattern, 1);
    assert SubsumedFrom(CavlcLoosened, CavlcPattern, 0);
    SubsumedScan(CavlcLoosened, CavlcPattern, 0);
  }

  lemma LoosenedPrefix9()
    ensures AgreeBelow(CabacPattern, CavlcLoosened, 9)
  {
    assert AgreeBelow(CabacPattern, CavlcLoosened, 1);
    assert AgreeBelow(CabacPattern, CavlcLoosened, 2);
    assert AgreeBelow(CabacPattern, CavlcLoosened, 3);
    assert AgreeBelow(CabacPattern, CavlcLoosened, 4);
    assert AgreeBelow(CabacPattern, CavlcLoosened, 5);
    assert AgreeBelow(CabacPattern, CavlcLoosened, 6);
    assert AgreeBelow(CabacPattern, CavlcLoosened, 7);
    assert AgreeBelow(CabacPattern, CavlcLoosened, 8);
    assert AgreeBelow(CabacPattern, CavlcLoosened, 9);
  }

  /** The first 17 atoms of cabac_regex and of the loosened cavlc_regex
      agree, and the next ones cannot both start a match. */
  lemma LoosenedPrefix()
    ensures 17 < |CabacPattern| && 17 < |CavlcLoosened|
    ensures forall i :: 0 <= i < 17 ==> CabacPattern[i].atom == CavlcLoosened[i].atom
    ensures Exclusive(CabacPattern[17].atom, CavlcLoosened[17].atom)
  {
    LoosenedPrefix9();
    assert AgreeBelow(CabacPattern, CavlcLoosened, 10);
    assert AgreeBelow(CabacPattern, CavlcLoosened, 11);
    assert AgreeBelow(CabacPattern, CavlcLoosened, 12);
    assert AgreeBelow(CabacPattern, CavlcLoosened, 13);
    assert AgreeBelow(CabacPattern, CavlcLoosened, 14);
    assert AgreeBelow(CabacPattern, CavlcLoosened, 15);
    assert AgreeBelow(CabacPattern, CavlcLoosened, 16);
    assert AgreeBelow(CabacPattern, CavlcLoosened, 17);
    AgreeScan(CabacPattern, CavlcLoosened, 17);
  }

  /** Every CAVLC line also matches the loosened pattern. */
  lemma LoosenedMatches(line: string)
    requires Match(CavlcPattern, line).Some?
    ensures Match(CavlcLoosened, line).Some?
  {
    var pieces := Match(CavlcPattern, line).value;
    LoosenedSubsumes();
    Loosen(CavlcPattern, CavlcLoosened, pieces, line);
    LoosenedDeterministic();
    MatchComplete(CavlcLoosened, pieces, line);
  }

  /** No line matches both grammars: where cabac_regex needs its fifth integer,
      cavlc_regex needs `(`. So the order in which the two are tried does not
      change which one a line is counted under. */
  lemma GrammarsDisjoint(line: string)
    ensures CabacLine(line).Some? ==> CavlcLine(line) == None
  {
    if Match(CavlcPattern, line).Some? {
      LoosenedMatches(line);
      LoosenedPrefix();
      DivergeAt(CabacPattern, CavlcLoosened, line, 17);
    }
  }
}
