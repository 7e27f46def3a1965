/** The swing pass: aligned pairs of plain eighth notes in track 1 are retimed long-short,
    the long one split into a tied triplet pair. */
module SwingPass {
  import opened Tables
  import opened Score
  import opened Seqs

  /** The tally advance of one note: half its ticks, half again when dotted. */
  function BeatTallyChange(n: Note): int {
    var half := Multiplier(n.noteType) / 2;
    if n.isDotted then half + half / 2 else half
  }

  /** An undotted eighth note that is not a rest. */
  predicate IsPlainEighth(n: Note) {
    !n.isDotted && !n.isRest && n.noteType == Eighth
  }

  /** The pair (l, r) is swung when it starts on a multiple of 8 in the tally and both are
      plain eighths. */
  predicate Qualifies(tally: int, l: Note, r: Note) {
    tally % 8 == 0 && !l.isDotted && !r.isDotted && !l.isRest && !r.isRest
      && l.noteType == Eighth && r.noteType == Eighth
  }

  /** The long half of a swung pair: `l` itself, now a tied-start triplet. */
  function SwingLong(l: Note): Note {
    l.(isSwing := true, tieStart := true, isTriplet := true,
       swingIndexOverride := 5, swingDurationMultiplier := 1.25)
  }

  /** The copy of `l` (taken before `l` is changed) inserted after it, tied-end. */
  function SwingEcho(l: Note): Note {
    l.(isSwing := true, tieEnd := true, swingIndexOverride := 5, swingDurationMultiplier := 0.625)
  }

  /** The short note of a swung pair. */
  function SwingShort(r: Note): Note {
    r.(isSwing := true, swingIndexOverride := 6, swingDurationMultiplier := 0.75)
  }

  /** The swung form of `notes` when the tally before its first note is `tally`. */
  function SwingFrom(notes: seq<Note>, tally: int): seq<Note>
    decreases |notes|
  {
    if |notes| <= 1 then notes
    else if Qualifies(tally, notes[0], notes[1]) then
      [SwingLong(notes[0]), SwingEcho(notes[0]), SwingShort(notes[1])]
        + SwingFrom(notes[2..], tally + 2 * BeatTallyChange(notes[0]))
    else
      [notes[0]] + SwingFrom(notes[1..], tally + BeatTallyChange(notes[0]))
  }

  /** How many pairs SwingFrom swings. */
  function SwungPairs(notes: seq<Note>, tally: int): nat
    decreases |notes|
  {
    if |notes| <= 1 then 0
    else if Qualifies(tally, notes[0], notes[1]) then
      1 + SwungPairs(notes[2..], tally + 2 * BeatTallyChange(notes[0]))
    else
      SwungPairs(notes[1..], tally + BeatTallyChange(notes[0]))
  }

  /** Swinging inserts exactly one note per swung pair. */
  lemma {:induction false} SwingLength(notes: seq<Note>, tally: int)
    ensures |SwingFrom(notes, tally)| == |notes| + SwungPairs(notes, tally)
    decreases |notes|
  {
    if |notes| > 1 {
      if Qualifies(tally, notes[0], notes[1]) {
        SwingLength(notes[2..], tally + 2 * BeatTallyChange(notes[0]));
      } else {
        SwingLength(notes[1..], tally + BeatTallyChange(notes[0]));
      }
    }
  }

  /** When no pair is swung the notes come back unchanged, in the same order. */
  lemma {:induction false} NoSwungPairUnchanged(notes: seq<Note>, tally: int)
    requires SwungPairs(notes, tally) == 0
    ensures SwingFrom(notes, tally) == notes
    decreases |notes|
  {
    if |notes| > 1 {
      assert !Qualifies(tally, notes[0], notes[1]);
      NoSwungPairUnchanged(notes[1..], tally + BeatTallyChange(notes[0]));
      assert [notes[0]] + notes[1..] == notes;
    }
  }

  /** A track with no two adjacent plain eighth notes is left unchanged, whatever the tally. */
  lemma {:induction false} NoEighthPairUnchanged(notes: seq<Note>, tally: int)
    requires forall k :: 0 <= k < |notes| - 1 ==> !(IsPlainEighth(notes[k]) && IsPlainEighth(notes[k + 1]))
    ensures SwingFrom(notes, tally) == notes
    decreases |notes|
  {
    if |notes| > 1 {
      assert !(IsPlainEighth(notes[0]) && IsPlainEighth(notes[1]));
      var rest := notes[1..];
      forall k | 0 <= k < |rest| - 1 ensures !(IsPlainEighth(rest[k]) && IsPlainEighth(rest[k + 1])) {
        assert rest[k] == notes[k + 1] && rest[k + 1] == notes[k + 2];
      }
      NoEighthPairUnchanged(rest, tally + BeatTallyChange(notes[0]));
      assert [notes[0]] + rest == notes;
    }
  }

  /** Two plain eighth notes at the start of a measure become three notes with index
      advances 5, 5, 6 and duration factors 1.25, 0.625, 0.75, tie-start on the first and
      tie-end on the second. */
  lemma SwingPairScenario(l: Note, r: Note)
    requires IsPlainEighth(l) && IsPlainEighth(r)
    ensures var s := SwingFrom([l, r], 0);
      |s| == 3
      && s[0].swingIndexOverride == 5 && s[1].swingIndexOverride == 5 && s[2].swingIndexOverride == 6
      && s[0].swingDurationMultiplier == 1.25 && s[1].swingDurationMultiplier == 0.625
      && s[2].swingDurationMultiplier == 0.75
      && s[0].isSwing && s[1].isSwing && s[2].isSwing
      && s[0].tieStart && s[0].isTriplet && s[1].tieEnd
      && s[0].pitches == l.pitches && s[1].pitches == l.pitches && s[2].pitches == r.pitches
  {
    assert [l, r][2..] == [];
  }

  /** The stamp-index advance of a note in the written output. */
  function Advance(n: Note): int {
    if n.isSwing then n.swingIndexOverride else Multiplier(n.noteType)
  }

  /** The stamp index reached after `notes`: the sum of their advances. */
  function StampAfter(notes: seq<Note>): int {
    if notes == [] then 0 else StampAfter(notes[..|notes| - 1]) + Advance(notes[|notes| - 1])
  }

  lemma {:induction false} StampAfterAppend(a: seq<Note>, b: seq<Note>)
    ensures StampAfter(a + b) == StampAfter(a) + StampAfter(b)
    decreases |b|
  {
    if b == [] {
      assert a + b == a;
    } else {
      StampAfterAppend(a, b[..|b| - 1]);
      assert (a + b)[..|a + b| - 1] == a + b[..|b| - 1];
    }
  }

  lemma StampOfPair(x: Note, y: Note)
    ensures StampAfter([x, y]) == Advance(x) + Advance(y)
  {
    assert [x, y][..1] == [x] && [x][..0] == [];
    assert StampAfter([x]) == StampAfter([]) + Advance(x);
  }

  lemma StampOfTriple(x: Note, y: Note, z: Note)
    ensures StampAfter([x, y, z]) == Advance(x) + Advance(y) + Advance(z)
  {
    assert [x, y, z][..2] == [x, y];
    StampOfPair(x, y);
  }

  /** The stamp after a note and then more notes. */
  lemma StampAfterCons(x: Note, rest: seq<Note>)
    ensures StampAfter([x] + rest) == Advance(x) + StampAfter(rest)
  {
    StampAfterAppend([x], rest);
    assert [x][..0] == [];
  }

  /** A qualifying pair at the front becomes its three swung notes. */
  lemma SwingFromPair(notes: seq<Note>, tally: int)
    requires |notes| > 1 && Qualifies(tally, notes[0], notes[1])
    ensures SwingFrom(notes, tally) == [SwingLong(notes[0]), SwingEcho(notes[0]), SwingShort(notes[1])]
      + SwingFrom(notes[2..], tally + 2 * BeatTallyChange(notes[0]))
  {
  }

  /** A swung pair advances 5 + 5 + 6 = 16, as the two plain eighths it replaces did. */
  lemma SwungPairStamp(notes: seq<Note>, tally: int)
    requires |notes| > 1 && Qualifies(tally, notes[0], notes[1])
    requires !notes[0].isSwing && !notes[1].isSwing
    requires StampAfter(SwingFrom(notes[2..], tally + 2 * BeatTallyChange(notes[0]))) == StampAfter(notes[2..])
    ensures StampAfter(SwingFrom(notes, tally)) == StampAfter(notes)
  {
    var l, r, tail := notes[0], notes[1], notes[2..];
    var swung := [SwingLong(l), SwingEcho(l), SwingShort(r)];
    var swungTail := SwingFrom(tail, tally + 2 * BeatTallyChange(l));
    calc {
      StampAfter(SwingFrom(notes, tally));
    == { SwingFromPair(notes, tally); }
      StampAfter(swung + swungTail);
    == { StampAfterAppend(swung, swungTail); }
      StampAfter(swung) + StampAfter(swungTail);
    == { StampOfTriple(SwingLong(l), SwingEcho(l), SwingShort(r)); }
      16 + StampAfter(tail);
    == { StampOfPair(l, r); }
      StampAfter([l, r]) + StampAfter(tail);
    == { StampAfterAppend([l, r], tail); }
      StampAfter([l, r] + tail);
    == { assert notes == [l, r] + tail; }
      StampAfter(notes);
    }
  }

  /** A note kept as it is advances the stamp as before. */
  lemma KeptNoteStamp(notes: seq<Note>, tally: int)
    requires |notes| > 1 && !Qualifies(tally, notes[0], notes[1])
    requires StampAfter(SwingFrom(notes[1..], tally + BeatTallyChange(notes[0]))) == StampAfter(notes[1..])
    ensures StampAfter(SwingFrom(notes, tally)) == StampAfter(notes)
  {
    var l, tail := notes[0], notes[1..];
    var swungTail := SwingFrom(tail, tally + BeatTallyChange(l));
    calc {
      StampAfter(SwingFrom(notes, tally));
    == { assert SwingFrom(notes, tally) == [l] + swungTail; }
      StampAfter([l] + swungTail);
    == { StampAfterCons(l, swungTail); }
      Advance(l) + StampAfter(tail);
    == { StampAfterCons(l, tail); }
      StampAfter([l] + tail);
    == { assert notes == [l] + tail; }
      StampAfter(notes);
    }
  }

  /** Swinging keeps the length of a measure: for notes not yet swung, the stamp index
      reached after the swung notes equals the one reached after the original notes. */
  lemma {:induction false} SwingKeepsStamp(notes: seq<Note>, tally: int)
    requires forall k :: 0 <= k < |notes| ==> !notes[k].isSwing
    ensures StampAfter(SwingFrom(notes, tally)) == StampAfter(notes)
    decreases |notes|
  {
    if |notes| <= 1 {
      assert SwingFrom(notes, tally) == notes;
    } else if Qualifies(tally, notes[0], notes[1]) {
      SwingKeepsStamp(notes[2..], tally + 2 * BeatTallyChange(notes[0]));
      SwungPairStamp(notes, tally);
    } else {
      SwingKeepsStamp(notes[1..], tally + BeatTallyChange(notes[0]));
      KeptNoteStamp(notes, tally);
    }
  }

  /** The last note of a track is kept as it is. */
  lemma SwingLastNote(notes: seq<Note>, i: nat, tally: int)
    requires i + 1 == |notes|
    ensures SwingFrom(notes[i..], tally) == [notes[i]]
  {
    assert notes[i..] == [notes[i]];
  }

  /** A note that does not open a qualifying pair is kept, and the walk goes on after it. */
  lemma SwingKeepStep(notes: seq<Note>, i: nat, tally: int)
    requires i + 1 < |notes| && !Qualifies(tally, notes[i], notes[i + 1])
    ensures SwingFrom(notes[i..], tally)
      == [notes[i]] + SwingFrom(notes[i + 1..], tally + BeatTallyChange(notes[i]))
  {
    assert notes[i..][1..] == notes[i + 1..];
  }

  /** A qualifying pair becomes its three swung notes, and the walk goes on after it. */
  lemma SwingPairStep(notes: seq<Note>, i: nat, tally: int)
    requires i + 1 < |notes| && Qualifies(tally, notes[i], notes[i + 1])
    ensures SwingFrom(notes[i..], tally)
      == [SwingLong(notes[i]), SwingEcho(notes[i]), SwingShort(notes[i + 1])]
         + SwingFrom(notes[i + 2..], tally + 2 * BeatTallyChange(notes[i]))
  {
    assert notes[i..][2..] == notes[i + 2..];
  }

  /** `swingTrack`: walks the track with a running tally and swings each qualifying pair. */
  method SwingTrack(notes: seq<Note>) returns (result: seq<Note>)
    ensures result == SwingFrom(notes, 0)
  {
    ghost var target := SwingFrom(notes, 0);
    result := [];
    var currentBeatTally := 0;
    var i := 0;
    while i < |notes|
      invariant 0 <= i <= |notes|
      invariant result + SwingFrom(notes[i..], currentBeatTally) == target
    {
      var lNote := notes[i];
      if i + 1 == |notes| {
        SwingLastNote(notes, i, currentBeatTally);
        result := result + [lNote];
        i := i + 1;
        break;
      }
      var rNote := notes[i + 1];
      var beatTally := currentBeatTally;
      var beatTallyChange := Multiplier(lNote.noteType) / 2;
      if lNote.isDotted {
        beatTallyChange := beatTallyChange + beatTallyChange / 2;
      }
      assert beatTallyChange == BeatTallyChange(lNote);
      currentBeatTally := currentBeatTally + beatTallyChange;
      if !Qualifies(beatTally, lNote, rNote) {
        ghost var rest := SwingFrom(notes[i + 1..], currentBeatTally);
        SwingKeepStep(notes, i, beatTally);
        AppendAssoc(result, [lNote], rest);
        result := result + [lNote];
        i := i + 1;
        assert result + rest == target;
        continue;
      }
      var l2Note := lNote;
      var swungL := SwingLong(lNote);
      var swungPair := [swungL, SwingEcho(l2Note), SwingShort(rNote)];
      currentBeatTally := currentBeatTally + beatTallyChange;
      assert currentBeatTally == beatTally + 2 * BeatTallyChange(notes[i]);
      ghost var rest := SwingFrom(notes[i + 2..], currentBeatTally);
      SwingPairStep(notes, i, beatTally);
      AppendAssoc(result, swungPair, rest);
      result := result + swungPair;
      i := i + 2;
      assert result + rest == target;
    }
    assert notes[i..] == [];
  }

  /** `applySwing`: the track-1 notes of every measure swung, each measure from tally 0;
      track 2 is left as it is. */
  function SwingMeasures(ms: seq<Measure>): seq<Measure> {
    seq(|ms|, i requires 0 <= i < |ms| => ms[i].(notes1 := SwingFrom(ms[i].notes1, 0)))
  }

  /** Swinging the measures keeps their number, leaves track 2 alone, and keeps the stamp
      length of every track-1 measure that was not swung before. */
  lemma SwingMeasuresKeepLength(ms: seq<Measure>)
    requires forall i, k :: 0 <= i < |ms| && 0 <= k < |ms[i].notes1| ==> !ms[i].notes1[k].isSwing
    ensures |SwingMeasures(ms)| == |ms|
    ensures forall i :: 0 <= i < |ms| ==>
      && SwingMeasures(ms)[i].notes2 == ms[i].notes2
      && StampAfter(SwingMeasures(ms)[i].notes1) == StampAfter(ms[i].notes1)
  {
    forall i | 0 <= i < |ms|
      ensures StampAfter(SwingMeasures(ms)[i].notes1) == StampAfter(ms[i].notes1)
    {
      SwingKeepsStamp(ms[i].notes1, 0);
    }
  }
}
