/** What each ingestion call does to the builder's state, as functions: reading a note
    (validation, staccato, pitch, ties), placing it in its track (append or chord merge),
    attributes, and repeat barlines. */
module Ingest {
  import opened Wrappers
  import opened Tables
  import opened Score
  import opened StaccatoPass
  import opened RepeatPass

  /** `_Accidental.fromMxl`: flat, natural and sharp are supported, any other fails. */
  function AccidentalFromMxl(a: MxlAccidental): (r: Option<Accidental>)
    ensures r.None? <==> a == AccOther
    ensures r == Some(Flat) <==> a == AccFlat
    ensures r == Some(Natural) <==> a == AccNatural
    ensures r == Some(Sharp) <==> a == AccSharp
  {
    match a
    case AccFlat => Some(Flat)
    case AccNatural => Some(Natural)
    case AccSharp => Some(Sharp)
    case AccOther => None
  }

  /** A note after reading, before it is placed: its staff (1 or 2), the new note, its
      pitch, the staccato padding, and whether it joins the previous note's chord. */
  datatype ParsedNote = ParsedNote(staff: int, note: Note, pitch: Option<Pitch>, rests: seq<Note>, isChord: bool)

  /** The class named by `<type>`; a note without one is a whole note. */
  function NoteTypeOf(typeName: Option<string>): Result<NoteType, BuildError> {
    match typeName
    case None => Ok(Whole)
    case Some(s) =>
      match FromMxl(s)
      case None => Err(UnsupportedNoteType)
      case Some(t) => Ok(t)
  }

  /** The pitch of a note: none without `<pitch>`; a rest must not have one, a fractional
      alteration is refused, and an explicit accidental must be supported. */
  function ReadPitch(n: NoteIn, octaveOffset: int): Result<Option<Pitch>, BuildError> {
    match n.pitch
    case None => Ok(None)
    case Some(p) =>
      if n.isRest then Err(RestWithPitch)
      else if p.alter.Some? && p.alter.value.hasFraction then Err(Microtone)
      else
        var alter := if p.alter.Some? then p.alter.value.intValue else 0;
        match n.accidental
        case None => Ok(Some(Pitch(p.octave + octaveOffset, p.step, alter, None)))
        case Some(a) =>
          match AccidentalFromMxl(a)
          case None => Err(UnsupportedAccidental)
          case Some(acc) => Ok(Some(Pitch(p.octave + octaveOffset, p.step, alter, Some(acc))))
  }

  /** Whether a note is cut short by a staccato: marked staccato, not a rest. */
  predicate IsStaccato(n: NoteIn) {
    n.hasStaccato && !n.isRest
  }

  /** Everything `parseNote` does before it touches the current measure, in its order of
      checks. */
  function ReadNote(n: NoteIn, octaveOffset1: int, octaveOffset2: int): Result<ParsedNote, BuildError> {
    if n.hasUnsupportedFeature then Err(UnsupportedNoteFeature)
    else if n.dots > 1 then Err(MultipleDots)
    else if n.dots == 1 && n.dotHasPlacement then Err(DotPlacement)
    else if n.staff.None? then Err(MissingStaff)
    else if n.staff.value > 2 || n.staff.value < 1 then Err(UnsupportedStaff)
    else
      var staff := n.staff.value;
      match NoteTypeOf(n.typeName)
      case Err(e) => Err(e)
      case Ok(t) =>
        match ReadPitch(n, if staff == 1 then octaveOffset1 else octaveOffset2)
        case Err(e) => Err(e)
        case Ok(pitch) => Ok(ParsedNote(staff, NoteOf(n, t), pitch, PaddingOf(n, t), n.isChord))
  }

  /** Whether a note of class `t` is cut to a 32nd: it is staccato and not already a
      32nd. */
  predicate IsCut(n: NoteIn, t: NoteType) {
    IsStaccato(n) && t != ThirtySecond
  }

  /** The note read from `n` with class `t`, before its pitch: a cut note becomes a 32nd;
      rest, dot, arpeggio and tie flags come from the input. */
  function NoteOf(n: NoteIn, t: NoteType): Note {
    NewNote(if IsCut(n, t) then ThirtySecond else t).(
      isRest := n.isRest, isDotted := n.dots > 0, isArpeggiate := n.hasArpeggiate,
      tieStart := TieStart in n.ties, tieEnd := TieStop in n.ties)
  }

  /** The rests padding a cut note back to the length of class `t`. */
  function PaddingOf(n: NoteIn, t: NoteType): seq<Note> {
    if IsCut(n, t) then StaccatoRests(t) else []
  }

  /** A note is accepted exactly when it uses no unsupported feature, has at most one dot
      and no dot placement, is on staff 1 or 2, has a known class, and, when pitched, is
      not a rest and has an integral alteration and a supported accidental. */
  lemma ReadNoteAccepts(n: NoteIn, octaveOffset1: int, octaveOffset2: int)
    ensures ReadNote(n, octaveOffset1, octaveOffset2).Ok? <==>
      && !n.hasUnsupportedFeature
      && n.dots <= 1
      && !(n.dots == 1 && n.dotHasPlacement)
      && n.staff.Some? && 1 <= n.staff.value <= 2
      && (n.typeName.Some? ==> FromMxl(n.typeName.value).Some?)
      && (n.pitch.Some? ==>
            && !n.isRest
            && !(n.pitch.value.alter.Some? && n.pitch.value.alter.value.hasFraction)
            && (n.accidental.Some? ==> n.accidental.value != AccOther))
  {
  }

  /** What reading keeps and changes: the staff, the rest flag, ties as the union of the
      tie elements; a rest never carries a pitch or padding; a staccato note becomes a 32nd
      whose padding fills exactly the ticks of the written class; any other note keeps
      its class. */
  lemma {:induction false} ReadNoteShape(n: NoteIn, octaveOffset1: int, octaveOffset2: int)
    requires ReadNote(n, octaveOffset1, octaveOffset2).Ok?
    ensures var p := ReadNote(n, octaveOffset1, octaveOffset2).value;
      var t := NoteTypeOf(n.typeName).value;
      && p.staff == n.staff.value
      && p.isChord == n.isChord
      && p.note.isRest == n.isRest
      && p.note.pitches == []
      && (p.note.tieStart <==> TieStart in n.ties)
      && (p.note.tieEnd <==> TieStop in n.ties)
      && (n.isRest ==> p.pitch.None? && p.rests == [])
      && (n.pitch.Some? <==> p.pitch.Some?)
      && (IsStaccato(n) ==> p.note.noteType == ThirtySecond)
      && (!IsStaccato(n) ==> p.note.noteType == t && p.rests == [])
      && Multiplier(p.note.noteType) + TotalTicks(p.rests) == Multiplier(t)
  {
    var t := NoteTypeOf(n.typeName).value;
    if IsCut(n, t) {
      StaccatoKeepsLength(t);
    } else {
      assert TotalTicks([]) == 0;
    }
  }

  /** A staccato quarter on staff 1 becomes a 32nd followed by a 32nd, a 16th and an
      eighth rest. */
  lemma StaccatoQuarterExample(n: NoteIn)
    requires n == NoteIn(false, 0, false, Some(1), Some("quarter"), true, false,
                         Some(PitchIn(C, 4, None)), None, [], false, false)
    ensures ReadNote(n, 0, 0) == Ok(ParsedNote(1, NewNote(ThirtySecond), Some(Pitch(4, C, 0, None)),
      [RestOf(ThirtySecond), RestOf(Sixteenth), RestOf(Eighth)], false))
  {
    assert NoteTypeOf(n.typeName) == Ok(Quarter) by {
      LookupsRoundTrip(Quarter);
    }
    assert ReadPitch(n, 0) == Ok(Some(Pitch(4, C, 0, None)));
    var rests := StaccatoRests(Quarter);
    assert |rests| == 3;
    assert rests == [RestOf(ThirtySecond), RestOf(Sixteenth), RestOf(Eighth)] by {
      assert rests[0] == RestOf(AllNoteTypes[0]) && rests[1] == RestOf(AllNoteTypes[1]) && rests[2] == RestOf(AllNoteTypes[2]);
    }
  }

  /** The index the backward chord scan settles on: the last note that is not a rest, or
      the first note when every note is a rest. */
  function ChordTarget(track: seq<Note>): (k: nat)
    requires track != []
    ensures k < |track|
    ensures !track[k].isRest ==> forall j :: k < j < |track| ==> track[j].isRest
    ensures track[k].isRest ==> k == 0 && forall j :: 0 <= j < |track| ==> track[j].isRest
  {
    var last := |track| - 1;
    if !track[last].isRest || last == 0 then last else ChordTarget(track[..last])
  }

  /** A chorded note's pitch added to the target note, whose ties absorb the chorded
      note's. */
  function Merge(target: Note, pitch: Pitch, chorded: Note): Note {
    target.(pitches := target.pitches + [pitch],
            tieStart := target.tieStart || chorded.tieStart,
            tieEnd := target.tieEnd || chorded.tieEnd)
  }

  /** A new note with its pitch, if it has one. */
  function WithPitch(note: Note, pitch: Option<Pitch>): Note {
    match pitch
    case None => note
    case Some(q) => note.(pitches := note.pitches + [q])
  }

  /** The track after placing `p`: a chorded note is merged into the chord target, any
      other note is appended; the staccato padding is appended in both cases. */
  function Place(track: seq<Note>, p: ParsedNote): Result<seq<Note>, BuildError> {
    if p.isChord then
      if p.note.isRest then Err(ChordOnRest)
      else if track == [] then Err(ChordOnEmptyTrack)
      else if p.pitch.None? then Err(ChordWithoutPitch)
      else
        var k := ChordTarget(track);
        Ok(track[k := Merge(track[k], p.pitch.value, p.note)] + p.rests)
    else Ok(track + [WithPitch(p.note, p.pitch)] + p.rests)
  }

  /** The notes of `staff` in measure `m`. */
  function TrackOf(m: Measure, staff: int): seq<Note> {
    if staff == 1 then m.notes1 else m.notes2
  }

  /** `m` with the notes of `staff` replaced. */
  function WithTrack(m: Measure, staff: int, notes: seq<Note>): Measure {
    if staff == 1 then m.(notes1 := notes) else m.(notes2 := notes)
  }

  /** The current measure after `parseNote`. */
  function NoteStep(m: Measure, n: NoteIn, octaveOffset1: int, octaveOffset2: int): Result<Measure, BuildError> {
    match ReadNote(n, octaveOffset1, octaveOffset2)
    case Err(e) => Err(e)
    case Ok(p) =>
      match Place(TrackOf(m, p.staff), p)
      case Err(e) => Err(e)
      case Ok(notes) => Ok(WithTrack(m, p.staff, notes))
  }

  lemma {:induction false} TotalTicksAppend(a: seq<Note>, b: seq<Note>)
    ensures TotalTicks(a + b) == TotalTicks(a) + TotalTicks(b)
    decreases |b|
  {
    if b == [] {
      assert a + b == a;
    } else {
      TotalTicksAppend(a, b[..|b| - 1]);
      assert (a + b)[..|a + b| - 1] == a + b[..|b| - 1];
    }
  }

  lemma {:induction false} TotalTicksUpdate(track: seq<Note>, k: nat, x: Note)
    requires k < |track| && x.noteType == track[k].noteType
    ensures TotalTicks(track[k := x]) == TotalTicks(track)
    decreases |track|
  {
    var last := |track| - 1;
    assert track[k := x][..last] == if k == last then track[..last] else track[..last][k := x];
    if k < last {
      TotalTicksUpdate(track[..last], k, x);
    }
  }

  /** Placing a note that is not chorded appends it and its padding and nothing else: the
      track grows by the written class's ticks, and every earlier note stays. */
  lemma {:induction false} AppendedNoteFillsItsTime(track: seq<Note>, n: NoteIn, octaveOffset1: int, octaveOffset2: int)
    requires ReadNote(n, octaveOffset1, octaveOffset2).Ok?
    requires !n.isChord
    ensures var p := ReadNote(n, octaveOffset1, octaveOffset2).value;
      && Place(track, p).Ok?
      && |Place(track, p).value| == |track| + 1 + |p.rests|
      && Place(track, p).value[..|track|] == track
      && TotalTicks(Place(track, p).value) == TotalTicks(track) + Multiplier(NoteTypeOf(n.typeName).value)
  {
    var p := ReadNote(n, octaveOffset1, octaveOffset2).value;
    ReadNoteShape(n, octaveOffset1, octaveOffset2);
    var placed := track + [WithPitch(p.note, p.pitch)] + p.rests;
    assert placed[..|track|] == track;
    TotalTicksAppend(track + [WithPitch(p.note, p.pitch)], p.rests);
    TotalTicksAppend(track, [WithPitch(p.note, p.pitch)]);
    assert [WithPitch(p.note, p.pitch)][..0] == [];
  }

  /** A chorded note adds its pitch to the chord target and ORs in its ties; no other note
      changes and no note is added, except the staccato padding, which is appended even
      though the chorded note itself takes no time. */
  lemma {:induction false} ChordJoinsTarget(track: seq<Note>, n: NoteIn, octaveOffset1: int, octaveOffset2: int)
    requires ReadNote(n, octaveOffset1, octaveOffset2).Ok?
    requires n.isChord && Place(track, ReadNote(n, octaveOffset1, octaveOffset2).value).Ok?
    ensures var p := ReadNote(n, octaveOffset1, octaveOffset2).value;
      var placed := Place(track, p).value;
      var k := ChordTarget(track);
      && p.pitch.Some? && !n.isRest && track != []
      && |placed| == |track| + |p.rests|
      && placed[|track|..] == p.rests
      && placed[k] == track[k].(pitches := track[k].pitches + [p.pitch.value],
                                tieStart := track[k].tieStart || TieStart in n.ties,
                                tieEnd := track[k].tieEnd || TieStop in n.ties)
      && placed[k].pitches == track[k].pitches + [p.pitch.value]
      && placed[k].noteType == track[k].noteType
      && (placed[k].tieStart <==> track[k].tieStart || TieStart in n.ties)
      && (placed[k].tieEnd <==> track[k].tieEnd || TieStop in n.ties)
      && (forall j :: 0 <= j < |track| && j != k ==> placed[j] == track[j])
      && TotalTicks(placed) == TotalTicks(track) + TotalTicks(p.rests)
  {
    var p := ReadNote(n, octaveOffset1, octaveOffset2).value;
    ReadNoteShape(n, octaveOffset1, octaveOffset2);
    var k := ChordTarget(track);
    var merged := track[k := Merge(track[k], p.pitch.value, p.note)];
    TotalTicksAppend(merged, p.rests);
    TotalTicksUpdate(track, k, Merge(track[k], p.pitch.value, p.note));
    assert Place(track, p).value == merged + p.rests;
    assert (merged + p.rests)[|track|..] == p.rests;
  }

  /** When every note of the track is a rest, a chorded pitch lands on the first rest. */
  lemma ChordOnRestsLandsOnFirst(track: seq<Note>)
    requires track != [] && forall j :: 0 <= j < |track| ==> track[j].isRest
    ensures ChordTarget(track) == 0
  {
  }

  // ---------------------------------------------------------------------------------------
  // Attributes.

  /** The clef of a `<clef>` sign: G is treble (L2G), any other sign bass (L4F). */
  function ClefOfSign(sign: string): (r: Clef)
    ensures r == L2G <==> sign == "G"
  {
    if sign == "G" then L2G else L4F
  }

  /** The clef of track 0: the first clef's, or treble when no clef is given. */
  function FirstClef(signs: seq<string>): (r: Clef)
    ensures r == L4F <==> signs != [] && signs[0] != "G"
  {
    if signs == [] then L2G else ClefOfSign(signs[0])
  }

  /** The clef of track 1: the second clef's, or bass when fewer than two are given. */
  function SecondClef(signs: seq<string>): (r: Clef)
    ensures r == L2G <==> |signs| >= 2 && signs[1] == "G"
  {
    if |signs| < 2 then L4F else ClefOfSign(signs[1])
  }

  /** Whether `<attributes>` brings a time signature the builder refuses: a second one
      (one was already read, or several are given at once). */
  predicate RefusesTime(a: AttributesIn, beatsPerMeasure: int) {
    a.times != [] && (beatsPerMeasure >= 0 || |a.times| > 1)
  }

  // ---------------------------------------------------------------------------------------
  // Repeats.

  /** The repeat sections recorded so far and the one still open. */
  datatype RepeatState = RepeatState(closed: seq<RepeatMarker>, open: Option<RepeatMarker>)

  /** The repeat state after a `<barline>` in measure `id`: a forward repeat opens a
      section there (unless one is open), a backward repeat closes the open section there
      (and fails when none is open); `times` overrides the play count of the section. */
  function BarlineStep(s: RepeatState, id: int, b: BarlineIn): Result<RepeatState, BuildError> {
    match b.repeat
    case None => Ok(s)
    case Some(rep) =>
      match rep.direction
      case Forward =>
        if s.open.Some? then Err(NestedRepeat)
        else Ok(RepeatState(s.closed, Some(RepeatMarker(id, -1, rep.times.GetOr(1)))))
      case Backward =>
        if s.open.None? then Err(RepeatWithoutStart)
        else
          var r := s.open.value.(endMeasure := id);
          Ok(RepeatState(s.closed + [r.(times := rep.times.GetOr(r.times))], None))
  }

  /** The repeat state the builder keeps while measures `0..id` are read: every section
      lies within them, in order (a section may end in the measure where the next begins),
      and an open section started at or before `id` and has no end yet. */
  predicate WellFormed(s: RepeatState, id: int) {
    && 0 <= id
    && (forall k :: 0 <= k < |s.closed| ==> 0 <= s.closed[k].startMeasure <= s.closed[k].endMeasure <= id)
    && (forall k :: 0 < k < |s.closed| ==> s.closed[k - 1].endMeasure <= s.closed[k].startMeasure)
    && (s.open.Some? ==>
          && 0 <= s.open.value.startMeasure <= id
          && s.open.value.endMeasure == -1
          && (s.closed != [] ==> s.closed[|s.closed| - 1].endMeasure <= s.open.value.startMeasure))
  }

  /** Barlines keep the repeat state well formed. */
  lemma BarlineKeepsWellFormed(s: RepeatState, id: int, b: BarlineIn)
    requires WellFormed(s, id)
    requires BarlineStep(s, id, b).Ok?
    ensures WellFormed(BarlineStep(s, id, b).value, id)
  {
    var s' := BarlineStep(s, id, b).value;
    if b.repeat.Some? && b.repeat.value.direction == Backward {
      var current := s.open.value;
      var last := |s.closed|;
      assert s'.closed == s.closed + [s'.closed[last]];
      assert s'.closed[last].startMeasure == current.startMeasure;
      assert s'.closed[last].endMeasure == id;
      forall k | 0 <= k < |s'.closed|
        ensures 0 <= s'.closed[k].startMeasure <= s'.closed[k].endMeasure <= id
      {
        if k < last {
          assert s'.closed[k] == s.closed[k];
        }
      }
      forall k | 0 < k < |s'.closed|
        ensures s'.closed[k - 1].endMeasure <= s'.closed[k].startMeasure
      {
        assert s'.closed[k - 1] == s.closed[k - 1];
        if k < last {
          assert s'.closed[k] == s.closed[k];
        }
      }
    }
  }

  /** Every recorded section ends before measure `id`. */
  predicate Sealed(s: RepeatState, id: int) {
    forall k :: 0 <= k < |s.closed| ==> s.closed[k].endMeasure < id
  }

  /** Closing a measure keeps the repeat state well formed for the next measure id, and
      seals every section recorded so far. */
  lemma NextMeasureSeals(s: RepeatState, id: int)
    requires WellFormed(s, id)
    ensures WellFormed(s, id + 1) && Sealed(s, id + 1)
  {
  }

  /** Sections that are sealed when the measures are expanded lie inside the measure
      list, so expanding the repeats cannot fail (an open section is ignored). */
  lemma {:induction false} SealedRepeatsExpand(s: RepeatState, ms: seq<Measure>)
    requires WellFormed(s, |ms|) && Sealed(s, |ms|)
    ensures InRange(s.closed, |ms|)
    ensures Expand(ms, s.closed, 0).Ok?
  {
    InRangeSucceeds(ms, s.closed, 0);
  }
}
