/** The classification and aggregation pass of `hevc_bitrate_count.py`: each
    bitrate's record of prediction, residual and other bits, and the loop that
    adds the total of every matched line of the bit-count decoder's output to
    one of them. */
module HevcBitrateCount {
  import opened PyRegex
  import opened BitCountGrammar
  import opened KeyTables

  /** One bitrate's record: `results[bitrate]`, before the division by 8. */
  datatype Totals = Totals(prediction: int, residual: int, other: int)

  /** The record a trial starts from. */
  const Zero := Totals(0, 0, 0)

  function Counter(t: Totals, b: Bucket): int {
    match b
    case Prediction => t.prediction
    case Residual => t.residual
    case Other => t.other
  }

  function Sum(t: Totals): int {
    t.prediction + t.residual + t.other
  }

  /** `results[bitrate][b] += v`. */
  function Add(t: Totals, b: Bucket, v: int): (r: Totals)
    ensures forall c :: Counter(r, c) == Counter(t, c) + (if c == b then v else 0)
    ensures Sum(r) == Sum(t) + v
  {
    match b
    case Prediction => t.(prediction := t.prediction + v)
    case Residual => t.(residual := t.residual + v)
    case Other => t.(other := t.other + v)
  }

  /** One iteration of the line loop. A CABAC line with an excluded name is
      skipped; on a CAVLC line the exclusion test is a statement of its own
      whose branch does nothing, so the name is classified anyway. At most one
      counter changes, and the record's sum grows by the bits the line
      contributes through either grammar. */
  function Step(t: Totals, line: string): (r: Totals)
    ensures (r.prediction == t.prediction && r.residual == t.residual) ||
            (r.prediction == t.prediction && r.other == t.other) ||
            (r.residual == t.residual && r.other == t.other)
    ensures Sum(r) == Sum(t) + CabacBits(line) + CavlcBits(line)
  {
    GrammarsDisjoint(line);
    match CabacLine(line)
    case Some(e) => if e.name in ExcludedKeys then t else Add(t, Classify(e.name), e.total)
    case None =>
      match CavlcLine(line)
      case Some(e) => Add(t, Classify(e.name), e.total)
      case None => t
  }

  /** The record after the loop has run over `lines`, starting from `t`. */
  function Fold(t: Totals, lines: seq<string>): Totals {
    if lines == [] then t else Step(Fold(t, lines[..|lines| - 1]), lines[|lines| - 1])
  }

  /** What a CABAC line adds to the record: its total unless its name is
      excluded. */
  lemma StepCabac(t: Totals, line: string, e: Entry)
    requires CabacLine(line) == Some(e)
    ensures e.name in ExcludedKeys ==> Step(t, line) == t
    ensures e.name in PredictionKeys ==> Step(t, line) == t.(prediction := t.prediction + e.total)
    ensures e.name in ResidualKeys ==> Step(t, line) == t.(residual := t.residual + e.total)
    ensures e.name !in ExcludedKeys && e.name !in PredictionKeys && e.name !in ResidualKeys ==>
              Step(t, line) == t.(other := t.other + e.total)
  {
    KeyTablesDisjoint(e.name);
  }

  /** What a CAVLC line adds to the record: its total, always, and to `other`
      even when its name is excluded. */
  lemma StepCavlc(t: Totals, line: string, e: Entry)
    requires CavlcLine(line) == Some(e)
    ensures e.name in PredictionKeys ==> Step(t, line) == t.(prediction := t.prediction + e.total)
    ensures e.name in ResidualKeys ==> Step(t, line) == t.(residual := t.residual + e.total)
    ensures e.name !in PredictionKeys && e.name !in ResidualKeys ==>
              Step(t, line) == t.(other := t.other + e.total)
    ensures e.name in ExcludedKeys ==> Step(t, line) == t.(other := t.other + e.total)
  {
    GrammarsDisjoint(line);
    KeyTablesDisjoint(e.name);
  }

  /** A line neither grammar matches leaves the record as it was. */
  lemma StepUnmatched(t: Totals, line: string)
    requires CabacLine(line) == None && CavlcLine(line) == None
    ensures Step(t, line) == t
  {
  }

  /** A printed CABAC row adds its last count to its name's counter, unless
      the name is excluded, in which case it adds nothing. */
  lemma PrintedCabacRow(t: Totals, name: string, first: string, second: string, counts: seq<int>, bracketed: int)
    requires Word(name) && Word(first) && Word(second) && |counts| == 7
    ensures name in ExcludedKeys ==> Step(t, Concat(CabacFields(name, first, second, counts, bracketed))) == t
    ensures name !in ExcludedKeys ==>
              Step(t, Concat(CabacFields(name, first, second, counts, bracketed))) == Add(t, Classify(name), counts[6])
  {
    CabacRoundTrip(name, first, second, counts, bracketed);
  }

  /** A printed CAVLC row adds its last count to its name's counter even when
      the name is excluded: an excluded name lands in `other`. */
  lemma PrintedCavlcRow(t: Totals, name: string, counts: seq<int>, bracketed: int)
    requires Word(name) && |counts| == 4
    ensures Step(t, Concat(CavlcFields(name, counts, bracketed))) == Add(t, Classify(name), counts[3])
    ensures name in ExcludedKeys ==>
              Step(t, Concat(CavlcFields(name, counts, bracketed))) == t.(other := t.other + counts[3])
  {
    var line := Concat(CavlcFields(name, counts, bracketed));
    CavlcRoundTrip(name, counts, bracketed);
    GrammarsDisjoint(line);
    if name in ExcludedKeys {
      ExcludedIsOther(name);
    }
  }

  /** Bits a line contributes through the CABAC grammar. */
  function CabacBits(line: string): int {
    match CabacLine(line)
    case Some(e) => if e.name in ExcludedKeys then 0 else e.total
    case None => 0
  }

  /** Bits a line contributes through the CAVLC grammar. */
  function CavlcBits(line: string): int {
    match CavlcLine(line)
    case Some(e) => e.total
    case None => 0
  }

  /** The CABAC bits of all the lines. */
  function CabacTotal(lines: seq<string>): int {
    if lines == [] then 0 else CabacTotal(lines[..|lines| - 1]) + CabacBits(lines[|lines| - 1])
  }

  /** The CAVLC bits of all the lines. */
  function CavlcTotal(lines: seq<string>): int {
    if lines == [] then 0 else CavlcTotal(lines[..|lines| - 1]) + CavlcBits(lines[|lines| - 1])
  }

  /** Sum invariant: after the loop, prediction + residual + other has grown by
      the totals of the CABAC lines with non-excluded names plus the totals of
      all CAVLC lines. */
  lemma {:induction false} FoldSum(t: Totals, lines: seq<string>)
    ensures Sum(Fold(t, lines)) == Sum(t) + CabacTotal(lines) + CavlcTotal(lines)
  {
    if lines != [] {
      FoldSum(t, lines[..|lines| - 1]);
    }
  }

  /** Running the loop over two batches of lines one after the other gives the
      record of running it over both at once. */
  lemma {:induction false} FoldAppend(t: Totals, first: seq<string>, second: seq<string>)
    ensures Fold(t, first + second) == Fold(Fold(t, first), second)
  {
    if second == [] {
      assert first + second == first;
    } else {
      var init := second[..|second| - 1];
      FoldAppend(t, first, init);
      assert (first + second)[..|first + second| - 1] == first + init;
    }
  }

  /** `results`: the record of every bitrate whose trial has started. */
  function Tally(bitrates: seq<string>, outputs: seq<seq<string>>): (r: map<string, Totals>)
    requires |outputs| == |bitrates|
    ensures forall b :: b in r <==> b in bitrates
  {
    if bitrates == [] then map[]
    else
      var n := |bitrates| - 1;
      assert bitrates == bitrates[..n] + [bitrates[n]];
      Tally(bitrates[..n], outputs[..n])[bitrates[n] := Fold(Zero, outputs[n])]
  }

  /** Every bitrate's record holds the counts of its own (last) trial alone,
      counted from zero; nothing carries over from another trial. */
  lemma {:induction false} TallyOwnTrial(bitrates: seq<string>, outputs: seq<seq<string>>, i: nat)
    requires |outputs| == |bitrates| && i < |bitrates|
    requires forall j :: i < j < |bitrates| ==> bitrates[j] != bitrates[i]
    ensures bitrates[i] in Tally(bitrates, outputs)
    ensures Tally(bitrates, outputs)[bitrates[i]] == Fold(Zero, outputs[i])
  {
    var n := |bitrates| - 1;
    var earlier, earlierOutputs := bitrates[..n], outputs[..n];
    assert Tally(bitrates, outputs) == Tally(earlier, earlierOutputs)[bitrates[n] := Fold(Zero, outputs[n])];
    if i < n {
      assert earlier[i] == bitrates[i] && earlierOutputs[i] == outputs[i];
      assert forall j :: i < j < |earlier| ==> earlier[j] != earlier[i] by {
        forall j | i < j < |earlier|
          ensures earlier[j] != earlier[i]
        {
          assert earlier[j] == bitrates[j];
        }
      }
      TallyOwnTrial(earlier, earlierOutputs, i);
    }
  }

  /** The records kept while the script runs: `results`. */
  class Results {
    var records: map<string, Totals>

    /** `results = {}` */
    constructor ()
      ensures records == map[]
    {
      records := map[];
    }

    /** Starts a bitrate's trial with prediction, residual and other at 0. */
    method StartTrial(bitrate: string)
      modifies this
      ensures records == old(records)[bitrate := Zero]
    {
      records := records[bitrate := Zero];
    }

    /** One pass of the line loop: matches `line` against both grammars and
        adds its total to the bucket its name selects. */
    method CountLine(bitrate: string, line: string)
      requires bitrate in records
      modifies this
      ensures records == old(records)[bitrate := Step(old(records)[bitrate], line)]
    {
      var cabacMatch := CabacLine(line);
      var cavlcMatch := CavlcLine(line);
      var r := records[bitrate];
      if cabacMatch.Some? {
        var e := cabacMatch.value;
        StepCabac(r, line, e);
        if e.name in ExcludedKeys {
        } else if e.name in PredictionKeys {
          records := records[bitrate := r.(prediction := r.prediction + e.total)];
        } else if e.name in ResidualKeys {
          records := records[bitrate := r.(residual := r.residual + e.total)];
        } else {
          records := records[bitrate := r.(other := r.other + e.total)];
        }
      } else if cavlcMatch.Some? {
        var e := cavlcMatch.value;
        StepCavlc(r, line, e);
        if e.name in ExcludedKeys {
        }
        if e.name in PredictionKeys {
          records := records[bitrate := r.(prediction := r.prediction + e.total)];
        } else if e.name in ResidualKeys {
          records := records[bitrate := r.(residual := r.residual + e.total)];
        } else {
          records := records[bitrate := r.(other := r.other + e.total)];
        }
      } else {
        StepUnmatched(r, line);
      }
    }

    /** The loop over the decoder's output lines. */
    method CountLines(bitrate: string, lines: seq<string>)
      requires bitrate in records
      modifies this
      ensures records == old(records)[bitrate := Fold(old(records)[bitrate], lines)]
    {
      var i := 0;
      while i < |lines|
        invariant 0 <= i <= |lines|
        invariant records == old(records)[bitrate := Fold(old(records)[bitrate], lines[..i])]
      {
        CountLine(bitrate, lines[i]);
        assert lines[..i + 1][..i] == lines[..i];
        i := i + 1;
      }
      assert lines[..i] == lines;
    }

    /** One pass of the bitrate loop: a fresh record for `bitrate`, then the
        line loop over the decoder's output for it. */
    method RunTrial(bitrate: string, lines: seq<string>)
      modifies this
      ensures records == old(records)[bitrate := Fold(Zero, lines)]
    {
      StartTrial(bitrate);
      CountLines(bitrate, lines);
      assert old(records)[bitrate := Zero][bitrate := Fold(Zero, lines)] == old(records)[bitrate := Fold(Zero, lines)];
    }
  }

  /** The bitrate loop, with the decoder's output for the i-th bitrate given as
      `outputs[i]`: each trial starts a fresh record and counts its lines. */
  method RunTrials(bitrates: seq<string>, outputs: seq<seq<string>>) returns (results: Results)
    requires |outputs| == |bitrates|
    ensures fresh(results)
    ensures results.records == Tally(bitrates, outputs)
  {
    results := new Results();
    var i := 0;
    while i < |bitrates|
      invariant 0 <= i <= |bitrates|
      invariant results.records == Tally(bitrates[..i], outputs[..i])
    {
      ghost var done, doneOutputs := bitrates[..i + 1], outputs[..i + 1];
      assert done[..i] == bitrates[..i] && doneOutputs[..i] == outputs[..i];
      assert done[i] == bitrates[i] && doneOutputs[i] == outputs[i];
      assert Tally(done, doneOutputs) == Tally(bitrates[..i], outputs[..i])[bitrates[i] := Fold(Zero, outputs[i])];
      results.RunTrial(bitrates[i], outputs[i]);
      i := i + 1;
    }
    assert bitrates[..i] == bitrates && outputs[..i] == outputs;
  }
}
