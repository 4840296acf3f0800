# Bit-count classification of `hevc_bitrate_count.py`, in Dafny

`hevc_bitrate_count.py` re-encodes one video at a list of target bitrates. For
each bitrate it runs an HEVC bit-count decoder and splits the bits the decoder
reports per syntax element into three buckets: prediction, residual and other.
This project models the core of that script:

- the three key tables: `prediction_keys`, `residual_keys` and `excluded_keys`;
- the two line grammars `cabac_regex` and `cavlc_regex`, over a model of the
  part of Python's `re` they use. That part is `re.match` anchored at the start
  of the line, `\s`, `\s+`, `\S+`, `-?\d+`, literal characters, `$` and
  capturing groups. It comes with a model of `int()` on the captured text;
- the per-bitrate record, which starts at zero for every trial;
- the loop over the decoder's output lines. It tries the CABAC grammar first
  and the CAVLC grammar second. It classifies the element name and adds the
  element's total bits to one bucket.

Modules:

- `PyRegex` (`py_regex.dfy`): patterns are sequences of atoms, each of which may
  be captured.
  - `Match` is the greedy matcher; its contract says that every result splits
    the line, one piece per atom.
  - `MatchComplete` proves the converse for patterns in which no greedy atom can
    eat into its successor: every such split is the one `Match` finds. Python's
    backtracking therefore has nothing else to find, and the greedy matcher
    agrees with `re.match`.
- `PyInt` (`py_int.dfy`): `int()` of a `-?\d+` capture, and the decimal numeral
  Python prints for an integer. Reading back a printed numeral gives the integer
  (`NumeralRoundTrip`); leading zeros do not change the value (`LeadingZero`).
- `BitCountGrammar` (`bit_count_grammar.dfy`): the two regexes written as
  patterns, and the functions `CabacLine` and `CavlcLine`. Each returns the
  element name (group 1) and the total (group 10 for CABAC, group 5 for CAVLC)
  read with `int()`.
  - Both patterns are proved deterministic, and their group numbering is
    checked term by term.
  - A line built from any name, columns and counts parses back to that name and
    that count (`CabacRoundTrip`, `CavlcRoundTrip`).
  - No line matches both grammars (`GrammarsDisjoint`).
- `KeyTables` (`key_tables.dfy`): the three tables, their disjointness, and the
  bucket a name falls in.
- `HevcBitrateCount` (`hevc_bitrate_count.dfy`):
  - `Step` is one iteration of the line loop and `Fold` the whole loop, as
    functions. The lemmas about them state what each kind of line adds and the
    sum invariant.
  - The class `Results` holds `results` as a map from bitrate to record. Its
    methods `StartTrial`, `CountLine` and `CountLines` are the script's
    statements, proved against `Step` and `Fold`.
  - `RunTrials` is the bitrate loop, proved against `Tally`.

Consequences of the code as written:

- In the CAVLC branch, the exclusion test (`if ... in excluded_keys: pass`) is a
  statement of its own, not the head of the `elif` chain. So an excluded name on
  a CAVLC line still lands in `other`, while on a CABAC line it adds nothing
  (`StepCabac`, `StepCavlc`, `PrintedCavlcRow`).
- The sum invariant therefore counts the totals of CABAC lines with a
  non-excluded name plus the totals of all CAVLC lines (`FoldSum`).
- A row matches only when it has exactly seven counts (CABAC) or four (CAVLC)
  and a single whitespace character after `)` at the end of the line. Any other
  row adds nothing (`StepUnmatched`).

## Model

| member | source | states |
|---|---|---|
| PyRegex.Run | python/hevc_bitrate_count.py:127-135 | a greedy `\s+`, `\S+` or `\d+` consumes the longest prefix of the line inside its class: every character consumed is in the class and the next one is not |
| PyRegex.Munch | python/hevc_bitrate_count.py:127-135 | the text one atom consumes at the start of the rest of the line is text that atom accepts |
| PyRegex.Match | python/hevc_bitrate_count.py:225-226 | when `re.match` succeeds, the line splits into consecutive pieces, one per atom, each accepted by its atom, and the pieces are the captures |
| PyRegex.MatchComplete | python/hevc_bitrate_count.py:225-226 | for a pattern where no greedy atom can extend into its successor, any split of the line along the pattern is exactly the one the matcher returns, so a line matches if and only if it splits |
| PyRegex.DivergeAt | python/hevc_bitrate_count.py:225-226 | two patterns that agree up to a position and need incompatible first characters there cannot both match the same line |
| PyInt.IntOf | python/hevc_bitrate_count.py:231 | `int()` of a `-?\d+` capture: a minus sign gives a value at most 0, no sign a value at least 0, and the value is 0 exactly when every digit is '0' |
| PyInt.NumeralRoundTrip | python/hevc_bitrate_count.py:231 | `int()` of the numeral printed for any integer, negative ones included, gives that integer back |
| PyInt.LeadingZero | python/hevc_bitrate_count.py:231 | a leading zero in a captured count does not change the value `int()` reads |
| BitCountGrammar.CabacDeterministic | python/hevc_bitrate_count.py:127-129 | in `cabac_regex`, each greedy atom stops before anything its successor must start with, and `$` comes last |
| BitCountGrammar.CabacCaptures | python/hevc_bitrate_count.py:127-129 | the eleven capturing groups of `cabac_regex` sit at the pattern positions the model reads: group 1 is the name and group 10 the seventh count |
| BitCountGrammar.CavlcDeterministic | python/hevc_bitrate_count.py:133-135 | in `cavlc_regex`, each greedy atom stops before anything its successor must start with, and `$` comes last |
| BitCountGrammar.CavlcCaptures | python/hevc_bitrate_count.py:133-135 | the six capturing groups of `cavlc_regex` sit at the pattern positions the model reads: group 1 is the name and group 5 the fourth count |
| BitCountGrammar.CabacLine | python/hevc_bitrate_count.py:225-231 | a CABAC match yields a non-empty element name free of whitespace |
| BitCountGrammar.CavlcLine | python/hevc_bitrate_count.py:226-240 | a CAVLC match yields a non-empty element name free of whitespace |
| BitCountGrammar.CabacGrammar | python/hevc_bitrate_count.py:127-129 | any split of a line along `cabac_regex` is a match whose entry is group 1 and `int()` of group 10 |
| BitCountGrammar.CavlcGrammar | python/hevc_bitrate_count.py:133-135 | any split of a line along `cavlc_regex` is a match whose entry is group 1 and `int()` of group 5 |
| BitCountGrammar.CabacRoundTrip | python/hevc_bitrate_count.py:127-129 | a CABAC row printed from any name, two columns, seven counts and a bracketed count parses back to that name and the seventh count |
| BitCountGrammar.CavlcRoundTrip | python/hevc_bitrate_count.py:133-135 | a CAVLC row printed from any name, four counts and a bracketed count parses back to that name and the fourth count |
| BitCountGrammar.GrammarsDisjoint | python/hevc_bitrate_count.py:225-236 | no line matches both regexes, so the order of the two tests does not change which branch runs |
| KeyTables.KeyTablesDisjoint | python/hevc_bitrate_count.py:53-94 | no name is in two of the three tables |
| KeyTables.Classify | python/hevc_bitrate_count.py:230-235 | a name is prediction exactly when it is in `prediction_keys`, residual exactly when it is in `residual_keys`, and other exactly when it is in neither |
| KeyTables.ExcludedIsOther | python/hevc_bitrate_count.py:237-244 | an excluded name that reaches the classification chain falls into `other` |
| HevcBitrateCount.Add | python/hevc_bitrate_count.py:231-235 | `+=` on one bucket changes that counter by the value, leaves the other two alone, and raises the record's sum by the value |
| HevcBitrateCount.Step | python/hevc_bitrate_count.py:225-244 | one pass of the loop body changes at most one of the three counters, and the record's sum grows by the line's CABAC total (unless its name is excluded) or its CAVLC total |
| HevcBitrateCount.StepCabac | python/hevc_bitrate_count.py:227-235 | a CABAC line with an excluded name changes nothing; otherwise its total goes to prediction, residual or other according to the tables, and nowhere else |
| HevcBitrateCount.StepCavlc | python/hevc_bitrate_count.py:236-244 | a CAVLC line's total goes to prediction, residual or other according to the tables, and an excluded name's total goes to other |
| HevcBitrateCount.StepUnmatched | python/hevc_bitrate_count.py:224-244 | a line neither regex matches leaves the record unchanged |
| HevcBitrateCount.PrintedCabacRow | python/hevc_bitrate_count.py:225-235 | a printed CABAC row adds its seventh count to its name's bucket, and nothing at all when the name is excluded |
| HevcBitrateCount.PrintedCavlcRow | python/hevc_bitrate_count.py:236-244 | a printed CAVLC row adds its fourth count to its name's bucket, and to other when the name is excluded |
| HevcBitrateCount.Fold | python/hevc_bitrate_count.py:224-244 | the line loop as a function over the lines, one `Step` per line in order; what it computes is stated by `FoldSum`, `FoldAppend` and the `Step` lemmas, and `Results.CountLines` is proved to compute it |
| HevcBitrateCount.FoldSum | python/hevc_bitrate_count.py:224-244 | after the loop, prediction + residual + other has grown by the totals of the CABAC lines with non-excluded names plus the totals of all CAVLC lines |
| HevcBitrateCount.FoldAppend | python/hevc_bitrate_count.py:224-244 | the loop over two batches of lines, one after the other, leaves the same record as the loop over both together |
| HevcBitrateCount.Tally | python/hevc_bitrate_count.py:147-161 | `results` after the bitrate loop has a record for exactly the bitrates of the loop |
| HevcBitrateCount.TallyOwnTrial | python/hevc_bitrate_count.py:155-161 | each bitrate's record holds the counts of its own last trial, counted from zero, and nothing from another trial |
| HevcBitrateCount.Results.constructor | python/hevc_bitrate_count.py:147 | `results` starts empty |
| HevcBitrateCount.Results.StartTrial | python/hevc_bitrate_count.py:157-161 | a trial sets the bitrate's record to zero in all three buckets and leaves other bitrates' records alone |
| HevcBitrateCount.Results.CountLine | python/hevc_bitrate_count.py:225-244 | one pass of the loop body updates only the bitrate's record, by one `Step` |
| HevcBitrateCount.Results.CountLines | python/hevc_bitrate_count.py:224-244 | the line loop leaves the bitrate's record at the `Fold` of its lines, and other records alone |
| HevcBitrateCount.Results.RunTrial | python/hevc_bitrate_count.py:157-244 | one pass of the bitrate loop sets the bitrate's record to the loop over its lines from zero, and leaves other records alone |
| HevcBitrateCount.RunTrials | python/hevc_bitrate_count.py:155-244 | after the bitrate loop, `results` is the `Tally` of the trials: every bitrate is mapped to the fold of its own output from zero |

## Left out

- Running ffmpeg, the bitstream extractor and the bit-count decoder, and removing or renaming files, are external processes. The decoder's output lines are a parameter instead.
- `os.path.getsize` and the `hevc_bistream_size` entry are file-system I/O and are not part of the bucket counts.
- Decoding the decoder's output as UTF-8 and `splitlines()` are left out. The input is the sequence of lines, already split.
- IntOf: does not model CPython's limit on the number of digits `int()` converts (4300 by default), past which `int()` raises `ValueError` and the run stops; the decoder's counts are far below it.
- The division of each bucket by 8 is left out: it turns integer bit counts into floats.
- The printed header and result rows are output only.
- `\s` and `\d` are modelled over ASCII. Python also treats non-ASCII whitespace and non-ASCII decimal digits as matching them, and the decoder prints neither.
- `re.match`'s backtracking is not modelled step by step. The greedy matcher is proved to find a match exactly when one exists, for patterns like the two regexes, whose neighbouring atoms are separated.
- The CABAC and CAVLC columns other than the name and the total are parsed but not kept, since the loop reads only groups 1 and 10 (CABAC) and 1 and 5 (CAVLC).
