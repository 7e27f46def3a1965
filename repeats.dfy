/** Repeat expansion: the sealed measures are rebuilt into the order in which they are
    played, each repeated section copied once more per extra play. */
module RepeatPass {
  import opened Wrappers
  import opened Score
  import opened Seqs

  /** `s` written `n` times in a row. */
  function Repeated(s: seq<Measure>, n: nat): seq<Measure> {
    if n == 0 then [] else Repeated(s, n - 1) + s
  }

  lemma {:induction false} RepeatedLength(s: seq<Measure>, n: nat)
    ensures |Repeated(s, n)| == n * |s|
  {
    if n > 0 {
      RepeatedLength(s, n - 1);
      assert n * |s| == (n - 1) * |s| + |s|;
    }
  }

  /** `prefix` put in front of a successful result; a failure stays a failure. */
  function Prepend(prefix: seq<Measure>, r: Result<seq<Measure>, BuildError>): Result<seq<Measure>, BuildError> {
    match r
    case Ok(s) => Ok(prefix + s)
    case Err(e) => Err(e)
  }

  /** Measures `lo` up to `hi` (exclusive), read one by one with `List.get`: an empty range
      reads nothing, otherwise an index outside the list fails. */
  function CopyRange(ms: seq<Measure>, lo: int, hi: int): (r: Result<seq<Measure>, BuildError>)
    ensures r.Ok? ==> |r.value| == if lo < hi then hi - lo else 0
  {
    if lo >= hi then Ok([])
    else if 0 <= lo && hi <= |ms| then Ok(ms[lo..hi])
    else Err(MeasureIndexOutOfRange)
  }

  /** The measures of one repeat section, `times + 1` times over. */
  function Section(ms: seq<Measure>, rep: RepeatMarker): Result<seq<Measure>, BuildError> {
    if rep.times < 0 then Ok([])
    else match CopyRange(ms, rep.startMeasure, rep.endMeasure + 1)
      case Ok(s) => Ok(Repeated(s, rep.times + 1))
      case Err(e) => Err(e)
  }

  /** The played order of `ms` from measure `pos` on, for the repeat sections `reps`:
      the measures before each section, the section `times + 1` times, and after the last
      section every remaining measure. */
  function Expand(ms: seq<Measure>, reps: seq<RepeatMarker>, pos: int): Result<seq<Measure>, BuildError>
    decreases |reps|
  {
    if reps == [] then CopyRange(ms, pos, |ms|)
    else match CopyRange(ms, pos, reps[0].startMeasure)
      case Err(e) => Err(e)
      case Ok(before) =>
        match Section(ms, reps[0])
        case Err(e) => Err(e)
        case Ok(sec) => Prepend(before + sec, Expand(ms, reps[1..], reps[0].endMeasure + 1))
  }

  /** Every section lies inside the measure list. */
  predicate InRange(reps: seq<RepeatMarker>, n: int) {
    forall k :: 0 <= k < |reps| ==> 0 <= reps[k].startMeasure <= reps[k].endMeasure < n
  }

  /** The sections are in order and do not overlap. */
  predicate Ordered(reps: seq<RepeatMarker>) {
    forall k :: 0 <= k < |reps| - 1 ==> reps[k].endMeasure < reps[k + 1].startMeasure
  }

  /** Measures added by the repeats: `times` extra copies of each section. */
  function ExtraMeasures(reps: seq<RepeatMarker>): int {
    if reps == [] then 0
    else reps[0].times * (reps[0].endMeasure - reps[0].startMeasure + 1) + ExtraMeasures(reps[1..])
  }

  /** Without repeat sections the measures come back as they are. */
  lemma NoRepeatsIdentity(ms: seq<Measure>)
    ensures Expand(ms, [], 0) == Ok(ms)
  {
    assert ms[0..|ms|] == ms;
  }

  /** Sections inside the measure list never make the expansion fail. */
  lemma {:induction false} InRangeSucceeds(ms: seq<Measure>, reps: seq<RepeatMarker>, pos: int)
    requires InRange(reps, |ms|)
    requires 0 <= pos
    ensures Expand(ms, reps, pos).Ok?
    decreases |reps|
  {
    if reps != [] {
      assert InRange(reps[1..], |ms|) by {
        forall k | 0 <= k < |reps[1..]| ensures 0 <= reps[1..][k].startMeasure <= reps[1..][k].endMeasure < |ms| {
          assert reps[1..][k] == reps[k + 1];
        }
      }
      InRangeSucceeds(ms, reps[1..], reps[0].endMeasure + 1);
    }
  }

  /** Every measure of the expansion is one of the original measures. */
  lemma {:induction false} ExpandDrawsFromInput(ms: seq<Measure>, reps: seq<RepeatMarker>, pos: int)
    requires Expand(ms, reps, pos).Ok?
    ensures forall x :: x in Expand(ms, reps, pos).value ==> x in ms
    decreases |reps|
  {
    if reps != [] {
      var before := CopyRange(ms, pos, reps[0].startMeasure).value;
      var sec := Section(ms, reps[0]).value;
      ExpandDrawsFromInput(ms, reps[1..], reps[0].endMeasure + 1);
      SectionDrawsFromInput(ms, reps[0]);
    }
  }

  lemma SectionDrawsFromInput(ms: seq<Measure>, rep: RepeatMarker)
    requires Section(ms, rep).Ok?
    ensures forall x :: x in Section(ms, rep).value ==> x in ms
  {
    if rep.times >= 0 {
      var s := CopyRange(ms, rep.startMeasure, rep.endMeasure + 1).value;
      RepeatedDrawsFrom(s, rep.times + 1);
    }
  }

  lemma {:induction false} RepeatedDrawsFrom(s: seq<Measure>, n: nat)
    ensures forall x :: x in Repeated(s, n) ==> x in s
  {
    if n > 0 {
      RepeatedDrawsFrom(s, n - 1);
    }
  }

  /** One section [s..e] played `t + 1` times: the measures before it, the section over and
      over, then the rest. */
  lemma {:induction false} SingleSection(ms: seq<Measure>, s: int, e: int, t: int)
    requires 0 <= s <= e < |ms| && t >= 0
    ensures Expand(ms, [RepeatMarker(s, e, t)], 0)
      == Ok(ms[..s] + Repeated(ms[s..e + 1], t + 1) + ms[e + 1..])
  {
    var rep := RepeatMarker(s, e, t);
    var reps := [rep];
    assert reps[0] == rep && reps[1..] == [];
    var pre := ms[..s];
    var sec := Repeated(ms[s..e + 1], t + 1);
    var post := ms[e + 1..];
    assert CopyRange(ms, 0, s) == Ok(pre) by {
      if s == 0 { assert pre == []; }
    }
    assert CopyRange(ms, s, e + 1) == Ok(ms[s..e + 1]);
    assert Section(ms, rep) == Ok(sec);
    assert Expand(ms, [], e + 1) == Ok(post) by {
      if e + 1 == |ms| { assert post == []; } else { assert ms[e + 1..|ms|] == post; }
    }
    assert Expand(ms, reps, 0) == Prepend(pre + sec, Expand(ms, [], e + 1));
  }

  /** Measures m0..m3 with the section (1, 2, 1) play as m0 m1 m2 m1 m2 m3. */
  lemma {:induction false} RepeatExample(m0: Measure, m1: Measure, m2: Measure, m3: Measure)
    ensures Expand([m0, m1, m2, m3], [RepeatMarker(1, 2, 1)], 0) == Ok([m0, m1, m2, m1, m2, m3])
  {
    var ms := [m0, m1, m2, m3];
    SingleSection(ms, 1, 2, 1);
    assert ms[1..3] == [m1, m2];
    assert Repeated([m1, m2], 0) == [];
    assert Repeated([m1, m2], 1) == [] + [m1, m2] == [m1, m2];
    assert Repeated([m1, m2], 2) == [m1, m2, m1, m2];
    assert ms[..1] == [m0] && ms[3..] == [m3];
    assert [m0] + [m1, m2, m1, m2] + [m3] == [m0, m1, m2, m1, m2, m3];
  }

  /** The sections after the first are still inside the list and in order, and the
      second section begins after the first one ends. */
  lemma TailInOrder(reps: seq<RepeatMarker>, n: int)
    requires reps != [] && InRange(reps, n) && Ordered(reps)
    ensures InRange(reps[1..], n) && Ordered(reps[1..])
    ensures reps[1..] != [] ==> reps[0].endMeasure < reps[1..][0].startMeasure
    ensures (forall k :: 0 <= k < |reps| ==> reps[k].times >= 0) ==>
      forall k :: 0 <= k < |reps[1..]| ==> reps[1..][k].times >= 0
  {
    var tail := reps[1..];
    forall k | 0 <= k < |tail| ensures tail[k] == reps[k + 1] { }
  }

  /** A section inside the list played `times + 1` times: its length once, plus `times`
      more copies. */
  lemma SectionLength(ms: seq<Measure>, r: RepeatMarker)
    requires 0 <= r.startMeasure <= r.endMeasure < |ms| && r.times >= 0
    ensures Section(ms, r).Ok?
    ensures |Section(ms, r).value| == (r.endMeasure - r.startMeasure + 1) + r.times * (r.endMeasure - r.startMeasure + 1)
  {
    var sec := ms[r.startMeasure..r.endMeasure + 1];
    RepeatedLength(sec, r.times + 1);
    assert (r.times + 1) * |sec| == r.times * |sec| + |sec|;
  }

  /** With ordered sections inside the list, the expansion adds `times` copies of each
      section and nothing else. */
  lemma {:induction false} ExpandLength(ms: seq<Measure>, reps: seq<RepeatMarker>, pos: int)
    requires InRange(reps, |ms|) && Ordered(reps)
    requires 0 <= pos <= |ms|
    requires reps != [] ==> pos <= reps[0].startMeasure
    requires forall k :: 0 <= k < |reps| ==> reps[k].times >= 0
    ensures Expand(ms, reps, pos).Ok?
    ensures |Expand(ms, reps, pos).value| == |ms| - pos + ExtraMeasures(reps)
    decreases |reps|
  {
    InRangeSucceeds(ms, reps, pos);
    if reps != [] {
      var r := reps[0];
      TailInOrder(reps, |ms|);
      ExpandLength(ms, reps[1..], r.endMeasure + 1);
      SectionLength(ms, r);
      var before := CopyRange(ms, pos, r.startMeasure).value;
      var sec := Section(ms, r).value;
      var rest := Expand(ms, reps[1..], r.endMeasure + 1).value;
      assert Expand(ms, reps, pos).value == before + sec + rest;
    }
  }

  lemma PrependPrepend(a: seq<Measure>, b: seq<Measure>, r: Result<seq<Measure>, BuildError>)
    ensures Prepend(a, Prepend(b, r)) == Prepend(a + b, r)
  {
    if r.Ok? {
      assert a + (b + r.value) == (a + b) + r.value;
    }
  }

  lemma SliceExtend(ms: seq<Measure>, lo: int, i: int)
    requires 0 <= lo <= i < |ms|
    ensures ms[lo..i + 1] == ms[lo..i] + [ms[i]]
  {
  }

  /** Appends measures `lo` up to `hi` of `ms` to `result`, one `get` at a time. */
  method AppendRange(result: seq<Measure>, ms: seq<Measure>, lo: int, hi: int)
    returns (r: Result<seq<Measure>, BuildError>)
    ensures r == Prepend(result, CopyRange(ms, lo, hi))
  {
    var acc := result;
    var i := lo;
    while i < hi
      invariant lo <= i
      invariant i > lo ==> 0 <= lo && i <= |ms| && i <= hi
      invariant i > lo ==> acc == result + ms[lo..i]
      invariant i == lo ==> acc == result
      decreases hi - i
    {
      if i < 0 || i >= |ms| {
        return Err(MeasureIndexOutOfRange);
      }
      SliceExtend(ms, lo, i);
      acc := acc + [ms[i]];
      i := i + 1;
    }
    if lo >= hi {
      assert result + [] == result;
    }
    return Ok(acc);
  }

  /** Appends one repeat section, `times + 1` copies of its measures, to `result`. */
  method AppendSection(result: seq<Measure>, ms: seq<Measure>, rep: RepeatMarker)
    returns (r: Result<seq<Measure>, BuildError>)
    ensures r == Prepend(result, Section(ms, rep))
  {
    var acc := result;
    var count := 0;
    ghost var copy := CopyRange(ms, rep.startMeasure, rep.endMeasure + 1);
    assert result + [] == result;
    while count <= rep.times
      invariant 0 <= count && (rep.times >= 0 ==> count <= rep.times + 1)
      invariant rep.times < 0 ==> count == 0
      invariant count == 0 ==> acc == result
      invariant count > 0 ==> copy.Ok?
      invariant copy.Ok? ==> acc == result + Repeated(copy.value, count)
      decreases rep.times + 1 - count
    {
      var once := AppendRange(acc, ms, rep.startMeasure, rep.endMeasure + 1);
      if once.Err? {
        return once;
      }
      AppendAssoc(result, Repeated(copy.value, count), copy.value);
      acc := once.value;
      count := count + 1;
    }
    if rep.times < 0 {
      assert acc == result + [];
    }
    return Ok(acc);
  }

  /** `applyRepeats`: the measures before each section, the section `times + 1` times, then
      the measures after the last section. */
  method ExpandMeasures(ms: seq<Measure>, reps: seq<RepeatMarker>)
    returns (r: Result<seq<Measure>, BuildError>)
    ensures r == Expand(ms, reps, 0)
  {
    var result: seq<Measure> := [];
    var measurePosition := 0;
    var k := 0;
    assert reps[0..] == reps;
    assert Prepend([], Expand(ms, reps, 0)) == Expand(ms, reps, 0) by {
      if Expand(ms, reps, 0).Ok? {
        assert [] + Expand(ms, reps, 0).value == Expand(ms, reps, 0).value;
      }
    }
    while k < |reps|
      invariant 0 <= k <= |reps|
      invariant Prepend(result, Expand(ms, reps[k..], measurePosition)) == Expand(ms, reps, 0)
    {
      var rep := reps[k];
      assert reps[k..][0] == rep && reps[k..][1..] == reps[k + 1..];
      ghost var res0 := result;
      var before := AppendRange(result, ms, measurePosition, rep.startMeasure);
      if before.Err? {
        return before;
      }
      ghost var pre := CopyRange(ms, measurePosition, rep.startMeasure).value;
      var section := AppendSection(before.value, ms, rep);
      if section.Err? {
        return section;
      }
      ghost var sec := Section(ms, rep).value;
      result := section.value;
      ghost var tailExp := Expand(ms, reps[k + 1..], rep.endMeasure + 1);
      assert Expand(ms, reps[k..], measurePosition) == Prepend(pre + sec, tailExp);
      PrependPrepend(res0, pre + sec, tailExp);
      assert res0 + (pre + sec) == result;
      measurePosition := rep.endMeasure + 1;
      k := k + 1;
    }
    assert reps[k..] == [];
    r := AppendRange(result, ms, measurePosition, |ms|);
  }
}
