/** The fragment of Python's `re` module that the two bit-count line grammars use:
    a pattern anchored at the start of the line (`re.match`), built from the
    atoms `\s`, `\s+`, `\S+`, `-?\d+`, single literal characters and `$`, some of
    them inside capturing parentheses.

    Character classes are modelled over ASCII: `\s` is CPython's ASCII whitespace
    (U+0009..U+000D, U+001C..U+001F and U+0020), `\S` is every other character and
    `\d` is '0'..'9'. */
module PyRegex {

  datatype Option<+T> = None | Some(value: T)

  /** `\s` (ASCII part of Python's str.isspace). */
  predicate IsSpace(c: char) {
    (9 <= c as int <= 13) || (28 <= c as int <= 32)
  }

  /** `\d` (ASCII digits). */
  predicate IsDigit(c: char) {
    '0' <= c <= '9'
  }

  predicate AllSpace(w: string) {
    forall i :: 0 <= i < |w| ==> IsSpace(w[i])
  }

  predicate NoSpace(w: string) {
    forall i :: 0 <= i < |w| ==> !IsSpace(w[i])
  }

  predicate AllDigits(w: string) {
    forall i :: 0 <= i < |w| ==> IsDigit(w[i])
  }

  /** One item of a pattern. */
  datatype Atom =
    | Space          // \s
    | Spaces         // \s+
    | NonSpaces      // \S+
    | Integer        // -?\d+
    | Char(c: char)  // a literal character such as `:`, `-`, `\(` or `\)`
    | End            // $ (no MULTILINE flag)

  /** An atom and whether a capturing group `( )` surrounds it. */
  datatype Term = Term(atom: Atom, captured: bool)

  type Pattern = seq<Term>

  /** The digits of a `-?\d+` piece, without its sign. */
  function Magnitude(w: string): string {
    if |w| > 0 && w[0] == '-' then w[1..] else w
  }

  /** The strings an atom matches. `$` matches the empty rest of a line or a
      single final line feed, as Python's `$` does without MULTILINE. */
  predicate Accepts(a: Atom, w: string) {
    match a
    case Space => |w| == 1 && IsSpace(w[0])
    case Spaces => |w| >= 1 && AllSpace(w)
    case NonSpaces => |w| >= 1 && NoSpace(w)
    case Integer => |Magnitude(w)| >= 1 && AllDigits(Magnitude(w))
    case Char(c) => w == [c]
    case End => w == [] || w == "\n"
  }

  /** The characters that can begin a non-empty string the atom accepts. */
  predicate Starts(a: Atom, c: char) {
    match a
    case Space => IsSpace(c)
    case Spaces => IsSpace(c)
    case NonSpaces => !IsSpace(c)
    case Integer => c == '-' || IsDigit(c)
    case Char(x) => c == x
    case End => c == '\n'
  }

  /** The characters that extend a string the atom accepts into a longer one
      it also accepts: the characters a greedy repetition goes on consuming. */
  predicate Continues(a: Atom, c: char) {
    match a
    case Spaces => IsSpace(c)
    case NonSpaces => !IsSpace(c)
    case Integer => IsDigit(c)
    case _ => false
  }

  datatype Class = SpaceClass | NonSpaceClass | DigitClass

  predicate InClass(k: Class, c: char) {
    match k
    case SpaceClass => IsSpace(c)
    case NonSpaceClass => !IsSpace(c)
    case DigitClass => IsDigit(c)
  }

  /** The length of the longest prefix of `s` inside the class: what a greedy
      `\s+`, `\S+` or `\d+` consumes. */
  function Run(k: Class, s: string): (n: nat)
    ensures n <= |s|
    ensures forall i :: 0 <= i < n ==> InClass(k, s[i])
    ensures n < |s| ==> !InClass(k, s[n])
  {
    if |s| > 0 && InClass(k, s[0]) then 1 + Run(k, s[1..]) else 0
  }

  /** How many characters at the start of `s` the atom consumes, or None when it
      does not match there. */
  function Munch(a: Atom, s: string): (r: Option<nat>)
    ensures r.Some? ==> r.value <= |s| && Accepts(a, s[..r.value])
  {
    match a
    case Space => if |s| > 0 && IsSpace(s[0]) then Some(1) else None
    case Spaces => var n := Run(SpaceClass, s); if n > 0 then Some(n) else None
    case NonSpaces => var n := Run(NonSpaceClass, s); if n > 0 then Some(n) else None
    case Integer =>
      var sign := if |s| > 0 && s[0] == '-' then 1 else 0;
      var n := Run(DigitClass, s[sign..]);
      assert s[..sign + n][sign..] == s[sign..][..n];
      if n > 0 then Some(sign + n) else None
    case Char(c) => if |s| > 0 && s[0] == c then Some(1) else None
    case End => if s == [] then Some(0) else if s == "\n" then Some(1) else None
  }

  function Concat(pieces: seq<string>): string {
    if pieces == [] then [] else pieces[0] + Concat(pieces[1..])
  }

  /** `line` splits into `pieces`, one per term of the pattern, each accepted by
      its atom: the pattern matches the line with these captures. */
  predicate Decomposes(pat: Pattern, pieces: seq<string>, line: string) {
    |pieces| == |pat| &&
    Concat(pieces) == line &&
    forall i :: 0 <= i < |pat| ==> Accepts(pat[i].atom, pieces[i])
  }

  lemma {:induction false} ConcatAppend(a: seq<string>, b: seq<string>)
    ensures Concat(a + b) == Concat(a) + Concat(b)
  {
    if a == [] {
      assert a + b == b;
    } else {
      assert (a + b)[1..] == a[1..] + b;
      ConcatAppend(a[1..], b);
      assert a[0] + (Concat(a[1..]) + Concat(b)) == (a[0] + Concat(a[1..])) + Concat(b);
    }
  }

  /** Splits along two patterns put side by side make a split along the
      concatenated pattern. */
  lemma DecomposesAppend(p: Pattern, q: Pattern, a: seq<string>, b: seq<string>, l: string, m: string)
    requires Decomposes(p, a, l) && Decomposes(q, b, m)
    ensures Decomposes(p + q, a + b, l + m)
  {
    ConcatAppend(a, b);
    forall i | 0 <= i < |p + q|
      ensures Accepts((p + q)[i].atom, (a + b)[i])
    {
      if i >= |p| {
        assert (p + q)[i] == q[i - |p|] && (a + b)[i] == b[i - |p|];
      }
    }
  }

  /** The first `n` characters matched by the first term, in front of a split
      of the rest of the line along the remaining terms, make a split of the
      whole line. */
  lemma DecomposesCons(pat: Pattern, line: string, n: nat, rest: seq<string>)
    requires 0 < |pat| && n <= |line|
    requires Accepts(pat[0].atom, line[..n]) && Decomposes(pat[1..], rest, line[n..])
    ensures Decomposes(pat, [line[..n]] + rest, line)
  {
    var pieces := [line[..n]] + rest;
    assert pieces[1..] == rest;
    assert line[..n] + line[n..] == line;
    forall i | 0 <= i < |pat|
      ensures Accepts(pat[i].atom, pieces[i])
    {
      if i > 0 {
        assert pat[i] == pat[1..][i - 1];
      }
    }
  }

  /** Matches the pattern at the start of `line`, greedily and without
      backtracking, and returns the text each term matched. */
  function Match(pat: Pattern, line: string): (r: Option<seq<string>>)
    ensures r.Some? ==> Decomposes(pat, r.value, line)
    decreases |pat|
  {
    if pat == [] then
      (if line == [] then Some([]) else None)
    else
      var head := Munch(pat[0].atom, line);
      if head.None? then None
      else
        var tail := Match(pat[1..], line[head.value..]);
        if tail.None? then None
        else
          DecomposesCons(pat, line, head.value, tail.value);
          Some([line[..head.value]] + tail.value)
  }

  /** No character that extends a piece of `a` can begin a piece of `b`, so a
      greedy `a` never eats into what `b` needs. */
  predicate Separated(a: Atom, b: Atom) {
    match a
    case Spaces => b == NonSpaces || b == Integer || (b.Char? && !IsSpace(b.c))
    case NonSpaces => b == Space || b == Spaces || b == End || (b.Char? && IsSpace(b.c))
    case Integer => b == Space || b == Spaces || b == End || (b.Char? && !IsDigit(b.c))
    case _ => true
  }

  lemma SeparatedSound(a: Atom, b: Atom, c: char)
    requires Separated(a, b) && Continues(a, c)
    ensures !Starts(b, c)
  {
  }

  /** A pattern for which greedy matching cannot miss a match: it ends with `$`,
      has no `$` elsewhere, and each atom is separated from the next. */
  predicate Deterministic(pat: Pattern) {
    |pat| > 0 && pat[|pat| - 1].atom == End &&
    forall i :: 0 <= i < |pat| - 1 ==> pat[i].atom != End && Separated(pat[i].atom, pat[i + 1].atom)
  }

  /** Checks Deterministic position by position, from position `i` on. */
  predicate SeparatedFrom(pat: Pattern, i: nat)
    decreases |pat| - i
  {
    i + 1 >= |pat| || (pat[i].atom != End && Separated(pat[i].atom, pat[i + 1].atom) && SeparatedFrom(pat, i + 1))
  }

  lemma {:induction false} SeparatedScan(pat: Pattern, i: nat)
    requires SeparatedFrom(pat, i)
    ensures forall j :: i <= j < |pat| - 1 ==> pat[j].atom != End && Separated(pat[j].atom, pat[j + 1].atom)
    decreases |pat| - i
  {
    if i + 1 < |pat| {
      SeparatedScan(pat, i + 1);
    }
  }

  /** `groups[j..]` lists, in order, the positions from `i` on of the terms of
      `pat` that capture: so `groups[k - 1]` is the position of the k-th
      capturing group, counted as the regex engine numbers them. */
  predicate CapturesFrom(pat: Pattern, i: nat, groups: seq<nat>, j: nat)
    decreases |pat| - i
  {
    if i >= |pat| then j == |groups|
    else if pat[i].captured then j < |groups| && groups[j] == i && CapturesFrom(pat, i + 1, groups, j + 1)
    else CapturesFrom(pat, i + 1, groups, j)
  }

  /** `match.group(k)`: the text captured by the k-th group. */
  function Group(pieces: seq<string>, groups: seq<nat>, k: nat): string
    requires 1 <= k <= |groups| && groups[k - 1] < |pieces|
  {
    pieces[groups[k - 1]]
  }

  lemma {:induction false} RunExact(k: Class, w: string, t: string)
    requires forall i :: 0 <= i < |w| ==> InClass(k, w[i])
    requires t == [] || !InClass(k, t[0])
    ensures Run(k, w + t) == |w|
  {
    if w != [] {
      assert (w + t)[1..] == w[1..] + t;
      RunExact(k, w[1..], t);
    }
  }

  /** A piece the atom accepts, followed by a character that cannot extend it,
      is exactly what the atom consumes. */
  lemma MunchExact(a: Atom, w: string, t: string)
    requires a != End && Accepts(a, w)
    requires t == [] || !Continues(a, t[0])
    ensures Munch(a, w + t) == Some(|w|)
  {
    match a
    case Spaces => RunExact(SpaceClass, w, t);
    case NonSpaces => RunExact(NonSpaceClass, w, t);
    case Integer =>
      if w[0] == '-' {
        assert (w + t)[1..] == w[1..] + t;
        RunExact(DigitClass, w[1..], t);
      } else {
        RunExact(DigitClass, w, t);
      }
    case _ =>
  }

  lemma StartsFirst(a: Atom, w: string)
    requires Accepts(a, w) && w != []
    ensures Starts(a, w[0])
  {
    if a == Integer && w[0] != '-' {
      assert Magnitude(w) == w;
    }
  }

  lemma ConcatFirst(pieces: seq<string>)
    requires |pieces| > 0 && pieces[0] != []
    ensures Concat(pieces) != [] && Concat(pieces)[0] == pieces[0][0]
  {
  }

  /** Completeness: for a deterministic pattern, every way of splitting the line
      into accepted pieces is the one greedy matching finds. Together with the
      ensures of Match this says Match(pat, line) == Some(pieces) exactly when
      Decomposes(pat, pieces, line), so the greedy matcher agrees with the
      backtracking regex engine, captures included. */
  lemma {:induction false} MatchComplete(pat: Pattern, pieces: seq<string>, line: string)
    requires Deterministic(pat)
    requires Decomposes(pat, pieces, line)
    ensures Match(pat, line) == Some(pieces)
  {
    var a := pat[0].atom;
    var w := pieces[0];
    var t := Concat(pieces[1..]);
    assert line == w + t;
    if a == End {
      assert |pat| == 1 && pieces[1..] == [] && pat[1..] == [];
      assert line == w;
      assert Munch(End, line) == Some(|w|);
      assert line[|w|..] == [];
      assert Match(pat[1..], line[|w|..]) == Some([]);
      assert [line[..|w|]] + [] == pieces;
    } else {
      assert |pat| > 1;
      // only `$` accepts the empty string, and nothing follows it
      assert pieces[1] == [] ==> t == [] by {
        if pieces[1] == [] {
          assert pat[1].atom == End;
          assert |pat| == 2 && pieces[1..][1..] == [];
          assert t == pieces[1] + Concat(pieces[1..][1..]);
        }
      }
      if t != [] {
        ConcatFirst(pieces[1..]);
        StartsFirst(pat[1].atom, pieces[1]);
        if Continues(a, t[0]) {
          SeparatedSound(a, pat[1].atom, t[0]);
        }
      }
      MunchExact(a, w, t);
      assert line[..|w|] == w && line[|w|..] == t;
      assert Decomposes(pat[1..], pieces[1..], t);
      MatchComplete(pat[1..], pieces[1..], t);
      assert [w] + pieces[1..] == pieces;
    }
  }

  /** Atom `b` accepts everything atom `a` accepts. */
  predicate Subsumes(b: Atom, a: Atom) {
    a == b ||
    (a.Char? && b == NonSpaces && !IsSpace(a.c)) ||
    (a == Space && b == Spaces)
  }

  /** Checks, from position `i` on, that `q` loosens `p` atom by atom. */
  predicate SubsumedFrom(q: Pattern, p: Pattern, i: nat)
    decreases |p| - i
  {
    if i >= |p| then |q| == |p| else i < |q| && Subsumes(q[i].atom, p[i].atom) && SubsumedFrom(q, p, i + 1)
  }

  lemma {:induction false} SubsumedScan(q: Pattern, p: Pattern, i: nat)
    requires SubsumedFrom(q, p, i)
    ensures |q| == |p| && forall j :: i <= j < |p| ==> Subsumes(q[j].atom, p[j].atom)
    decreases |p| - i
  {
    if i < |p| {
      SubsumedScan(q, p, i + 1);
    }
  }

  /** A match of `p` is a split for any pattern that loosens `p` atom by atom. */
  lemma Loosen(p: Pattern, q: Pattern, pieces: seq<string>, line: string)
    requires Decomposes(p, pieces, line)
    requires |q| == |p| && forall i :: 0 <= i < |p| ==> Subsumes(q[i].atom, p[i].atom)
    ensures Decomposes(q, pieces, line)
  {
    forall i | 0 <= i < |q|
      ensures Accepts(q[i].atom, pieces[i])
    {
      assert Subsumes(q[i].atom, p[i].atom);
    }
  }

  /** Checks that the first `k` atoms of `p` and `q` agree. */
  predicate AgreeBelow(p: Pattern, q: Pattern, k: nat) {
    k == 0 || (k <= |p| && k <= |q| && p[k - 1].atom == q[k - 1].atom && AgreeBelow(p, q, k - 1))
  }

  lemma {:induction false} AgreeScan(p: Pattern, q: Pattern, k: nat)
    requires AgreeBelow(p, q, k)
    ensures k <= |p| && k <= |q| && forall i :: 0 <= i < k ==> p[i].atom == q[i].atom
  {
    if k > 0 {
      AgreeScan(p, q, k - 1);
    }
  }

  /** No string starts with a piece of both `a` and `b`. */
  predicate Exclusive(a: Atom, b: Atom) {
    match (a, b)
    case (Char(x), Char(y)) => x != y
    case (Integer, Char(y)) => y != '-' && !IsDigit(y)
    case (Char(x), Integer) => x != '-' && !IsDigit(x)
    case _ => false
  }

  lemma ExclusiveHeads(a: Atom, b: Atom, s: string)
    requires Exclusive(a, b)
    ensures Munch(a, s) == None || Munch(b, s) == None
  {
    if a == Integer || b == Integer {
      assert s == [] || s[0] == '-' || !IsDigit(s[0]) || Run(DigitClass, s) > 0;
    }
  }

  /** Two patterns whose first `k` atoms agree and whose atoms at position `k`
      are exclusive never both match the same line. */
  lemma {:induction false} DivergeAt(p: Pattern, q: Pattern, line: string, k: nat)
    requires k < |p| && k < |q|
    requires forall i :: 0 <= i < k ==> p[i].atom == q[i].atom
    requires Exclusive(p[k].atom, q[k].atom)
    ensures Match(p, line) == None || Match(q, line) == None
  {
    if k == 0 {
      ExclusiveHeads(p[0].atom, q[0].atom, line);
    } else if Munch(p[0].atom, line).Some? {
      var n := Munch(p[0].atom, line).value;
      assert p[1..][k - 1] == p[k] && q[1..][k - 1] == q[k];
      DivergeAt(p[1..], q[1..], line[n..], k - 1);
    }
  }
}
