/** The transcoder's internal score model and the already-parsed MusicXML elements it
    consumes. */
module Score {
  import opened Wrappers
  import opened Tables

  /** A pitch: octave (offset by the track's configured shift), diatonic step, the MusicXML
      alteration in semitones, and an explicit accidental when the score prints one. */
  datatype Pitch = Pitch(octave: int, step: Step, alterPitch: int, accidental: Option<Accidental>)

  /** A note or rest of one track. The last three fields are set by the swing pass. */
  datatype Note = Note(
    noteType: NoteType,
    isRest: bool,
    pitches: seq<Pitch>,
    isDotted: bool,
    isTriplet: bool,
    isArpeggiate: bool,
    tieStart: bool,
    tieEnd: bool,
    isSwing: bool,
    swingIndexOverride: int,
    swingDurationMultiplier: real)

  /** A freshly created note of class `t`: every other field at its Java default. */
  function NewNote(t: NoteType): Note {
    Note(t, false, [], false, false, false, false, false, false, 0, 0.0)
  }

  /** A measure: the notes of track 1 and of track 2 in document order. */
  datatype Measure = Measure(notes1: seq<Note>, notes2: seq<Note>)

  const EmptyMeasure: Measure := Measure([], [])

  /** A repeat section: inclusive start and end measure ids and how many extra times it
      plays. A repeat opened but not yet closed has end -1. */
  datatype RepeatMarker = RepeatMarker(startMeasure: int, endMeasure: int, times: int)

  /** The failures that abort a conversion. */
  datatype BuildError =
    | UnsupportedNoteFeature   // grace, cue, font, position, ... or an unknown notation
    | MultipleDots
    | DotPlacement
    | MissingStaff
    | UnsupportedStaff
    | UnsupportedNoteType
    | RestWithPitch
    | Microtone
    | UnsupportedAccidental
    | ChordOnRest
    | ChordOnEmptyTrack
    | ChordWithoutPitch
    | ForwardUnsupported
    | MultipleTimeSignatures
    | UnsupportedBeatUnit
    | NestedRepeat
    | RepeatWithoutStart
    | MeasureIndexOutOfRange
    | MissingClef

  // ---------------------------------------------------------------------------------------
  // Parsed MusicXML input, reduced to what the transcoder reads.

  /** The value of a MusicXML `<accidental>`; only flat, natural and sharp are supported. */
  datatype MxlAccidental = AccFlat | AccNatural | AccSharp | AccOther

  /** A MusicXML `<alter>`: whether it has a fractional part, and its integer part. */
  datatype AlterIn = AlterIn(hasFraction: bool, intValue: int)

  datatype PitchIn = PitchIn(step: Step, octave: int, alter: Option<AlterIn>)

  datatype TieType = TieStart | TieStop

  /** A MusicXML `<note>`. `hasUnsupportedFeature` stands for every feature the transcoder
      rejects outright (grace, cue, unpitched, instrument, font and position attributes,
      notations other than tie, articulations, arpeggiate, slur, slide and fermata, and
      articulations other than staccato and accent). */
  datatype NoteIn = NoteIn(
    hasUnsupportedFeature: bool,
    dots: nat,
    dotHasPlacement: bool,
    staff: Option<int>,
    typeName: Option<string>,
    hasStaccato: bool,
    isRest: bool,
    pitch: Option<PitchIn>,
    accidental: Option<MxlAccidental>,
    ties: seq<TieType>,
    hasArpeggiate: bool,
    isChord: bool)

  /** The first `<beats>`/`<beat-type>` pair of a `<time>`, already read as integers. */
  datatype TimeIn = TimeIn(beats: int, beatType: int)

  /** A MusicXML `<attributes>`: the fifths of each `<key>`, each `<time>`, and the sign of
      each `<clef>`. */
  datatype AttributesIn = AttributesIn(keys: seq<int>, times: seq<TimeIn>, clefSigns: seq<string>)

  datatype RepeatDirection = Forward | Backward

  datatype RepeatIn = RepeatIn(direction: RepeatDirection, times: Option<int>)

  datatype BarlineIn = BarlineIn(repeat: Option<RepeatIn>)

  /** One element of a measure, in document order. */
  datatype Element =
    | PrintElement
    | AttributesElement(attributes: AttributesIn)
    | NoteElement(note: NoteIn)
    | DirectionElement
    | BackupElement
    | ForwardElement
    | BarlineElement(barline: BarlineIn)
    | OtherElement
}
