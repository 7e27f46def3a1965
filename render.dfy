/** What the serializer writes, as functions of the model: pitch indices and accidental
    tags, stamp indices, note durations in milliseconds, and the GJM text itself. */
module Render {
  import opened Wrappers
  import opened Indenting
  import opened Tables
  import opened Score
  import opened SwingPass
  import opened StaccatoPass

  /** Milliseconds of a 64th note at 60 bpm. */
  const BaseDuration: int := 125
  /** Pitch index of C in octave 1. */
  const GjmPitchOffset: int := 4

  /** A tempo in beats per minute. */
  type Bpm = x: int | x > 0 witness 60

  /** The duration of one tick at `bpm`: 125 * 60 / bpm = 7500 / bpm, rounded half up. */
  function UnitMs(bpm: Bpm): int {
    (2 * 7500 + bpm) / (2 * bpm)
  }

  /** The tick duration is the integer nearest to 7500 / bpm, halves rounded up. */
  lemma UnitMsIsNearest(bpm: Bpm)
    ensures UnitMs(bpm) >= 0
    ensures 2 * UnitMs(bpm) * bpm <= 2 * 7500 + bpm < 2 * (UnitMs(bpm) + 1) * bpm
  {
  }

  /** `Math.round` of a double: halves rounded up. */
  function Round(x: real): int {
    (x + 0.5).Floor
  }

  /** Rounding gives the nearest integer. */
  lemma RoundIsNearest(x: real)
    ensures x - 0.5 < Round(x) as real <= x + 0.5
  {
  }

  /** `PlayingDurationTimeMs` of a note: the tick duration times its ticks, scaled by the
      swing factor when the note was swung. */
  function DurationMs(bpm: Bpm, n: Note): int {
    var duration := UnitMs(bpm) * Multiplier(n.noteType);
    if n.isSwing then Round(duration as real * n.swingDurationMultiplier) else duration
  }

  /** At a fixed tempo an unswung note's duration is proportional to its ticks, so a longer
      class never plays shorter (and plays strictly longer when a tick lasts at least 1 ms). */
  lemma DurationGrowsWithMultiplier(bpm: Bpm, n1: Note, n2: Note)
    requires !n1.isSwing && !n2.isSwing
    requires Multiplier(n1.noteType) < Multiplier(n2.noteType)
    ensures DurationMs(bpm, n1) <= DurationMs(bpm, n2)
    ensures bpm <= 15000 ==> DurationMs(bpm, n1) < DurationMs(bpm, n2)
  {
    var u := UnitMs(bpm);
    UnitMsIsNearest(bpm);
    if bpm <= 15000 {
      assert u >= 1;
    }
    assert u * Multiplier(n1.noteType) <= u * Multiplier(n2.noteType) by {
      MulMonotone(u, Multiplier(n1.noteType), Multiplier(n2.noteType));
    }
  }

  lemma MulMonotone(u: int, a: int, b: int)
    requires u >= 0 && a <= b
    ensures u * a <= u * b
    ensures u > 0 && a < b ==> u * a < u * b
  {
  }

  /** A swung pair of eighths plays 10, 5 and 6 tick-durations (1.25, 0.625 and 0.75 of an
      eighth, which is 8 ticks). */
  lemma SwingDurations(bpm: Bpm, l: Note, r: Note)
    requires IsPlainEighth(l) && IsPlainEighth(r)
    ensures DurationMs(bpm, SwingLong(l)) == 10 * UnitMs(bpm)
    ensures DurationMs(bpm, SwingEcho(l)) == 5 * UnitMs(bpm)
    ensures DurationMs(bpm, SwingShort(r)) == 6 * UnitMs(bpm)
  {
    var u := UnitMs(bpm);
    assert (u * 8) as real * 1.25 == (10 * u) as real;
    assert (u * 8) as real * 0.625 == (5 * u) as real;
    assert (u * 8) as real * 0.75 == (6 * u) as real;
  }

  /** The `TieType` tag of a note, if it has one. */
  function TieTag(n: Note): (r: Option<string>)
    ensures r.None? <==> !n.tieStart && !n.tieEnd
    ensures r == Some("Both") <==> n.tieStart && n.tieEnd
    ensures r == Some("Start") <==> n.tieStart && !n.tieEnd
    ensures r == Some("End") <==> !n.tieStart && n.tieEnd
  {
    if n.tieStart && n.tieEnd then Some("Both")
    else if n.tieStart then Some("Start")
    else if n.tieEnd then Some("End")
    else None
  }

  /** Pitch index of the unaltered step: C1 is 4, twelve per octave. */
  function NoteIndex(p: Pitch): int {
    (p.octave - 1) * 12 + GjmPitchOffset + PitchOffset(p.step)
  }

  function Abs(x: int): int {
    if x < 0 then -x else x
  }

  /** The alteration a key signature of `key` fifths implies for `step`. */
  function KeyOffset(step: Step, key: int): int {
    if key < 0 && FlatScale(step) <= Abs(key) then -1
    else if key > 0 && SharpScale(step) <= key then 1
    else 0
  }

  /** The alteration applied to a pitch: its explicit accidental, else the key's. */
  function AccidentalOffset(p: Pitch, key: int): int {
    match p.accidental
    case None => KeyOffset(p.step, key)
    case Some(Flat) => -1
    case Some(Sharp) => 1
    case Some(Natural) => 0
  }

  /** The `AlterantType` tag: the explicit accidental's, else "NoControl". */
  function AlterTag(p: Pitch): string {
    match p.accidental
    case None => "NoControl"
    case Some(a) => GjmString(a)
  }

  /** `PlayingPitchIndex`. */
  function PitchIndex(p: Pitch, key: int): int {
    NoteIndex(p) + AccidentalOffset(p, key)
  }

  /** An explicit accidental decides the alteration whatever the key: flat lowers, sharp
      raises, natural leaves the step, and its own tag is written. */
  lemma ExplicitAccidentalWins(p: Pitch, key: int, otherKey: int)
    requires p.accidental.Some?
    ensures PitchIndex(p, key) == PitchIndex(p, otherKey)
    ensures PitchIndex(p, key) - NoteIndex(p) == (match p.accidental.value
      case Flat => -1 case Sharp => 1 case Natural => 0)
    ensures AlterTag(p) == GjmString(p.accidental.value)
  {
  }

  /** Without an explicit accidental the key decides: a flat key lowers the steps whose
      flat rank is within its count, a sharp key raises those whose sharp rank is, and
      the tag is "NoControl". */
  lemma KeySignatureInference(p: Pitch, key: int)
    requires p.accidental.None?
    ensures PitchIndex(p, key) == NoteIndex(p) - 1 <==> key < 0 && FlatScale(p.step) <= -key
    ensures PitchIndex(p, key) == NoteIndex(p) + 1 <==> key > 0 && SharpScale(p.step) <= key
    ensures PitchIndex(p, key) == NoteIndex(p) <==>
      !(key < 0 && FlatScale(p.step) <= -key) && !(key > 0 && SharpScale(p.step) <= key)
    ensures AlterTag(p) == "NoControl"
  {
  }

  /** Middle C in C major is pitch index 40. */
  lemma MiddleC()
    ensures PitchIndex(Pitch(4, C, 0, None), 0) == 40
  {
  }

  /** A score that never states a key is written in key -1, one flat: every B without an
      explicit accidental is lowered and no other step is. */
  lemma DefaultKeyLowersOnlyB(p: Pitch)
    requires p.accidental.None?
    ensures PitchIndex(p, -1) == NoteIndex(p) - (if p.step == B then 1 else 0)
  {
  }

  /** One octave up is twelve pitch indices up, for every key and accidental. */
  lemma OctaveIsTwelve(p: Pitch, key: int)
    ensures PitchIndex(p.(octave := p.octave + 1), key) == PitchIndex(p, key) + 12
  {
  }

  /** For notes never swung, the stamp index is the running sum of their ticks. */
  lemma {:induction false} UnswungStampIsTicks(notes: seq<Note>)
    requires forall k :: 0 <= k < |notes| ==> !notes[k].isSwing
    ensures StampAfter(notes) == TotalTicks(notes)
  {
    if notes != [] {
      UnswungStampIsTicks(notes[..|notes| - 1]);
    }
  }

  /** Stamp indices start at 0 and strictly increase along a measure whose notes all
      advance the index. */
  lemma {:induction false} StampsIncrease(notes: seq<Note>, j: nat, k: nat)
    requires j < k <= |notes|
    requires forall i :: 0 <= i < |notes| ==> Advance(notes[i]) > 0
    ensures StampAfter(notes[..0]) == 0
    ensures StampAfter(notes[..j]) < StampAfter(notes[..k])
    decreases k
  {
    assert notes[..0] == [];
    assert notes[..k][..k - 1] == notes[..k - 1];
    if j < k - 1 {
      StampsIncrease(notes, j, k - 1);
    }
  }

  // ---------------------------------------------------------------------------------------
  // The text, as the lines written in order, each with its indentation depth; the
  // document's characters are their concatenation with a tab as the indentation unit.

  /** A line written only when `cond` holds. */
  function OptLine(level: nat, cond: bool, s: string): seq<Piece> {
    if cond then [Line(level, s)] else []
  }

  /** The entry of the `k`-th pitch of note `n`. */
  function PitchLine(p: Pitch, key: int, n: Note, k: int): string {
    "[" + IntToString(NoteIndex(p)) + "] = { "
      + "NumberedSign = " + IntToString(Sign(p.step)) + ", "
      + "PlayingPitchIndex = " + IntToString(PitchIndex(p, key)) + ", "
      + "AlterantType = '" + AlterTag(p) + "', "
      + "RawAlterantType = '" + AlterTag(p) + "', "
      + "Volume = " + (if n.tieEnd then "0.00" else "0.50") + ", "
      + (if n.isArpeggiate && k > 0 then IntToString(k * 100) else "") + " },"
  }

  /** The pitch entries of `ps`, the pitches of note `n`, one line each. */
  function PitchesLines(level: nat, key: int, n: Note, ps: seq<Pitch>): (r: seq<Piece>)
    ensures |r| == |ps|
  {
    if ps == [] then []
    else
      PitchesLines(level, key, n, ps[..|ps| - 1])
        + [Line(level, PitchLine(ps[|ps| - 1], key, n, |ps| - 1))]
  }

  /** The `TieType` line, when the note is tied. */
  function TieLines(level: nat, n: Note): seq<Piece> {
    match TieTag(n)
    case None => []
    case Some(t) => [Line(level, "TieType = '" + t + "',")]
  }

  /** The `DurationType` line, written for every class but the quarter. */
  function DurationTypeLines(level: nat, n: Note): seq<Piece> {
    match GjmId(n.noteType)
    case None => []
    case Some(id) => [Line(level, "DurationType = '" + id + "',")]
  }

  /** The optional lines of a note block: tie, triplet, rest, dotted, class, arpeggio. */
  function FlagLines(level: nat, n: Note): seq<Piece> {
    TieLines(level, n)
      + OptLine(level, n.isTriplet, "Triplet = true,")
      + OptLine(level, n.isRest, "IsRest = true,")
      + OptLine(level, n.isDotted, "IsDotted = true,")
      + DurationTypeLines(level, n)
      + OptLine(level, n.isArpeggiate, "ArpeggioMode ='Upward',")
  }

  /** The stamp index, playing duration and pitch count lines closing the note fields. */
  function TimingLines(level: nat, bpm: Bpm, n: Note, stamp: int): seq<Piece> {
    [Line(level, "StampIndex = " + IntToString(stamp) + ","),
     Line(level, "PlayingDurationTimeMs = " + IntToString(DurationMs(bpm, n)) + ","),
     Line(level, "ClassicPitchSignCount = " + (if n.isRest then "0" else IntToString(|n.pitches|)) + ",")]
  }

  /** The lines of a note block before its pitch list. */
  function NoteFields(level: nat, bpm: Bpm, n: Note, stamp: int): seq<Piece> {
    FlagLines(level, n) + TimingLines(level, bpm, n, stamp)
  }

  /** The `ClassicPitchSign` table of a note: one entry per pitch. */
  function PitchSection(level: nat, key: int, n: Note): seq<Piece> {
    [Line(level, "ClassicPitchSign = {")] + PitchesLines(level + 1, key, n, n.pitches) + [Line(level, "},")]
  }

  /** The block of the `j`-th note of a measure, whose stamp index is `stamp`. */
  function NoteLines(level: nat, key: int, bpm: Bpm, n: Note, j: int, stamp: int): seq<Piece> {
    [Line(level, "[" + IntToString(j) + "] = {")]
      + NoteFields(level + 1, bpm, n, stamp)
      + PitchSection(level + 1, key, n)
      + [Line(level, "},")]
  }

  /** The note blocks of one measure of one track, each with the stamp index reached
      after the notes before it. */
  function NotesLines(level: nat, key: int, bpm: Bpm, notes: seq<Note>): seq<Piece> {
    if notes == [] then []
    else
      var j := |notes| - 1;
      NotesLines(level, key, bpm, notes[..j])
        + NoteLines(level, key, bpm, notes[j], j, StampAfter(notes[..j]))
  }

  /** A measure block of track 0 or 1. */
  function MeasureLines(level: nat, key: int, bpm: Bpm, notes: seq<Note>, tag: int): seq<Piece> {
    [Line(level, "[" + IntToString(tag) + "] = {"),
     Line(level + 1, "DurationStampMax = 63,"),
     Line(level + 1, "NotePackCount = " + IntToString(|notes|) + ",")]
      + NotesLines(level + 1, key, bpm, notes)
      + [Line(level, "},")]
  }

  /** A measure block of track 2, which never holds notes. */
  function EmptyMeasureLines(level: nat, tag: int): seq<Piece> {
    [Line(level, "[" + IntToString(tag) + "] = {"),
     Line(level + 1, "NotePackCount = 0"),
     Line(level, "},")]
  }

  /** The notes of measure `m` that track `track` writes. */
  function TrackNotes(m: Measure, track: int): seq<Note> {
    if track == 0 then m.notes1 else m.notes2
  }

  /** The label of the `k`-th measure block: its position, except in track 2, where the
      measure counter is never advanced. */
  function Label(track: int, k: int): int {
    if track == 2 then 0 else k
  }

  function MeasureBlock(level: nat, track: int, key: int, bpm: Bpm, m: Measure, tag: int): seq<Piece> {
    if track == 2 then EmptyMeasureLines(level, tag)
    else MeasureLines(level, key, bpm, TrackNotes(m, track), tag)
  }

  /** The measure blocks of one track. */
  function MeasuresLines(level: nat, track: int, key: int, bpm: Bpm, ms: seq<Measure>): seq<Piece> {
    if ms == [] then []
    else
      var k := |ms| - 1;
      MeasuresLines(level, track, key, bpm, ms[..k])
        + MeasureBlock(level, track, key, bpm, ms[k], Label(track, k))
  }

  /** `s` written `n` times. */
  function RepeatLines(s: seq<Piece>, n: nat): seq<Piece> {
    if n == 0 then [] else RepeatLines(s, n - 1) + s
  }

  /** Track 2 writes one identical empty block per measure, every one labelled [0]. */
  lemma {:induction false} ThirdTrackBlocks(level: nat, key: int, bpm: Bpm, ms: seq<Measure>)
    ensures MeasuresLines(level, 2, key, bpm, ms) == RepeatLines(EmptyMeasureLines(level, 0), |ms|)
    decreases |ms|
  {
    if ms != [] {
      ThirdTrackBlocks(level, key, bpm, ms[..|ms| - 1]);
    }
  }

  /** Tracks 0 and 1 write, per measure, a block labelled with its position holding the
      track's notes; the first block is labelled [0]. */
  lemma {:induction false} NoteTrackBlocks(level: nat, track: int, key: int, bpm: Bpm, ms: seq<Measure>, k: nat)
    requires track == 0 || track == 1
    requires k < |ms|
    ensures MeasuresLines(level, track, key, bpm, ms[..k + 1])
      == MeasuresLines(level, track, key, bpm, ms[..k]) + MeasureLines(level, key, bpm, TrackNotes(ms[k], track), k)
  {
    assert ms[..k + 1][..k] == ms[..k];
  }

  /** A note block has one line per field written, one per pitch, and four for its
      braces. */
  lemma NoteBlockSize(level: nat, key: int, bpm: Bpm, n: Note, j: int, stamp: int)
    ensures |NoteLines(level, key, bpm, n, j, stamp)| == 4 + |n.pitches| + |NoteFields(level + 1, bpm, n, stamp)|
    ensures 3 <= |NoteFields(level + 1, bpm, n, stamp)| <= 9
  {
  }

  /** The volume text of a track: 100 is "1.00", any other percentage v is "0." then v. */
  function VolumeText(v: int): string {
    if v == 100 then "1.00" else "0." + IntToString(v)
  }

  /** A map block holding one entry: its opening line, the entry one level deeper, and its
      closing line. */
  function MapLines(level: nat, name: string, entry: string): seq<Piece> {
    [Line(level, name + " = {"), Line(level + 1, entry), Line(level, "},")]
  }

  /** The five single-entry maps opening a track: key signature, clef, instrument, volume
      curve and volume, each keyed by measure 0. */
  function TrackMaps(level: nat, key: int, clef: Clef, volume: string): seq<Piece> {
    MapLines(level, "MeasureKeySignatureMap", "{ 0, " + IntToString(key) + " },")
      + MapLines(level, "MeasureClefTypeMap", "{ 0, '" + ClefName(clef) + "' },")
      + MapLines(level, "MeasureInstrumentTypeMap", "{ 0, 'Piano' },")
      + MapLines(level, "MeasureVolumeCurveMap", "{ 0, { 0.8, 0.7, 0.5, 0.5, 0.7, 0.6, 0.5, 0.4, } },")
      + MapLines(level, "MeasureVolumeMap", "{ 0, " + volume + " },")
  }

  /** One track block: its maps, then its measure blocks. */
  function TrackLines(level: nat, track: int, key: int, clef: Clef, volume: string,
                      bpm: Bpm, ms: seq<Measure>): seq<Piece>
  {
    [Line(level, "[" + IntToString(track) + "] = {")]
      + TrackMaps(level + 1, key, clef, volume)
      + MeasuresLines(level + 1, track, key, bpm, ms)
      + [Line(level, "},")]
  }

  /** The indentation unit of the document. */
  const Tab: string := "\t"

  /** The song metadata of the header, one line each. */
  function MetadataLines(name: string, author: string, beatsPerMeasure: int): seq<Piece> {
    [Line(1, "Version = '1.1.0.0',"),
     Line(1, "NotationName = '" + name + "',"),
     Line(1, "NotationAuthor = '" + author + "',"),
     Line(1, "NotationTranslater = 'SoloGJM',"),
     Line(1, "NotationCreator = 'Miuna (kieve)',"),
     Line(1, "Volume = 1,"),
     Line(1, "BeatsPerMeasure = " + IntToString(beatsPerMeasure) + ","),
     Line(1, "BeatDurationType = 'Quarter',"),
     Line(1, "NumberedKeySignature = 'C',")]
  }

  /** The header block: format version, song metadata, beats per measure, the tempo map
      and the measure count. */
  function HeaderLines(name: string, author: string, beatsPerMeasure: int, bpm: Bpm, count: int): seq<Piece> {
    [Line(0, "Version = '1.1.0.0'"), Line(0, "Notation = {")]
      + MetadataLines(name, author, beatsPerMeasure)
      + MapLines(1, "MeasureBeatsPerMinuteMap", "{ 0, " + IntToString(bpm) + " },")
      + [Line(1, "MeasureAlignedCount = " + IntToString(count) + ","), Line(0, "}")]
  }

  /** The whole GJM document, line by line: header, then tracks 0, 1 and 2. Track 1 uses
      the second clef and volume; tracks 0 and 2 the first clef, and track 2 the second
      volume. */
  function GjmLines(name: string, author: string, beatsPerMeasure: int, bpm: Bpm, key: int,
                    clef1: Clef, clef2: Clef, volume1: int, volume2: int, ms: seq<Measure>): seq<Piece>
  {
    HeaderLines(name, author, beatsPerMeasure, bpm, |ms|)
      + [Line(0, "Notation.RegularTracks = {")]
      + TrackLines(1, 0, key, clef1, VolumeText(volume1), bpm, ms)
      + TrackLines(1, 1, key, clef2, VolumeText(volume2), bpm, ms)
      + TrackLines(1, 2, key, clef1, VolumeText(volume2), bpm, ms)
      + [Line(0, "}")]
  }
}
