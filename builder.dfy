/** The transcoder's state machine: a builder fed one MusicXML element at a time, which
    records the open measure, the sealed measures and the repeat sections, rewrites the
    measures (swing, repeats) and writes the GJM document. */
module Builder {
  import opened Wrappers
  import opened Tables
  import opened Score
  import opened StaccatoPass
  import opened SwingPass
  import opened RepeatPass
  import opened Ingest
  import opened Indenting
  import opened Render
  import opened Writer
  import opened Seqs

  /** The tie flags of a note: each `<tie>` of type start sets the start flag, any other
      tie sets the end flag. */
  method ReadTies(ties: seq<TieType>) returns (tieStart: bool, tieEnd: bool)
    ensures tieStart <==> TieStart in ties
    ensures tieEnd <==> TieStop in ties
  {
    tieStart, tieEnd := false, false;
    var i := 0;
    while i < |ties|
      invariant 0 <= i <= |ties|
      invariant tieStart <==> TieStart in ties[..i]
      invariant tieEnd <==> TieStop in ties[..i]
    {
      assert ties[..i + 1] == ties[..i] + [ties[i]];
      if ties[i] == TieStart {
        tieStart := true;
      } else {
        tieEnd := true;
      }
      i := i + 1;
    }
    assert ties[..i] == ties;
  }

  /** The pitch of a pitched note that is not a rest: octave shifted by the staff's offset,
      integral alteration, supported accidental. */
  method ReadPitchIn(n: NoteIn, octaveOffset: int) returns (r: Result<Option<Pitch>, BuildError>)
    ensures r == ReadPitch(n, octaveOffset)
  {
    if n.pitch.None? {
      return Ok(None);
    }
    if n.isRest {
      return Err(RestWithPitch);
    }
    var p := n.pitch.value;
    var alterPitch := 0;
    if p.alter.Some? {
      if p.alter.value.hasFraction {
        return Err(Microtone);
      }
      alterPitch := p.alter.value.intValue;
    }
    var accidental: Option<Accidental> := None;
    if n.accidental.Some? {
      accidental := AccidentalFromMxl(n.accidental.value);
      if accidental.None? {
        return Err(UnsupportedAccidental);
      }
    }
    return Ok(Some(Pitch(p.octave + octaveOffset, p.step, alterPitch, accidental)));
  }

  /** The note `parseNote` builds for class `t`: marked a rest, cut short by a staccato
      (a rest is never cut), then dotted, tied and arpeggiated as the input says. */
  method ShapeNote(n: NoteIn, t: NoteType) returns (note: Note, rests: seq<Note>)
    ensures note == NoteOf(n, t) && rests == PaddingOf(n, t)
  {
    note := NewNote(t);
    var staccato := n.hasStaccato;
    if n.isRest {
      note := note.(isRest := true);
      staccato := false;
    }
    rests := [];
    if staccato {
      note, rests := Staccato(note);
    }
    if n.dots != 0 {
      note := note.(isDotted := true);
    }
    var tieStart, tieEnd := ReadTies(n.ties);
    note := note.(tieStart := tieStart, tieEnd := tieEnd, isArpeggiate := n.hasArpeggiate);
  }

  /** The checks and reading of `parseNote`, in its order, up to the point where the note
      is placed in its track. */
  method ReadNoteIn(n: NoteIn, octaveOffset1: int, octaveOffset2: int)
    returns (r: Result<ParsedNote, BuildError>)
    ensures r == ReadNote(n, octaveOffset1, octaveOffset2)
  {
    if n.hasUnsupportedFeature {
      return Err(UnsupportedNoteFeature);
    }
    if n.dots > 1 {
      return Err(MultipleDots);
    }
    if n.dots == 1 && n.dotHasPlacement {
      return Err(DotPlacement);
    }
    if n.staff.None? {
      return Err(MissingStaff);
    }
    var staff := n.staff.value;
    if staff > 2 || staff < 1 {
      return Err(UnsupportedStaff);
    }
    var noteType := Whole;
    if n.typeName.Some? {
      var t := FromMxl(n.typeName.value);
      if t.None? {
        return Err(UnsupportedNoteType);
      }
      noteType := t.value;
    }
    var parsed, rests := ShapeNote(n, noteType);
    var pitch := ReadPitchIn(n, if staff == 1 then octaveOffset1 else octaveOffset2);
    if pitch.Err? {
      return Err(pitch.error);
    }
    return Ok(ParsedNote(staff, parsed, pitch.value, rests, n.isChord));
  }

  /** The backward scan for the note a chord joins: from the end of the track, the first
      note that is not a rest, or the first note when all are rests; -1 on an empty
      track. */
  method FindChordTarget(track: seq<Note>) returns (k: int)
    ensures track == [] ==> k == -1
    ensures track != [] ==> k == ChordTarget(track)
  {
    k := -1;
    var i := |track| - 1;
    while i >= 0
      invariant -1 <= i < |track|
      invariant forall j :: i < j < |track| ==> track[j].isRest
      invariant k == (if i == |track| - 1 then -1 else i + 1)
    {
      k := i;
      if !track[i].isRest {
        break;
      }
      i := i - 1;
    }
  }

  /** Placing a read note in its track: a chorded note joins the chord target (after the
      rest and empty-track checks), any other note is appended with its pitch; the
      staccato padding follows in both cases. */
  method PlaceNote(track: seq<Note>, p: ParsedNote) returns (r: Result<seq<Note>, BuildError>)
    ensures r == Place(track, p)
  {
    var notes := track;
    if p.isChord {
      if p.note.isRest {
        return Err(ChordOnRest);
      }
      var k := FindChordTarget(notes);
      if k < 0 {
        return Err(ChordOnEmptyTrack);
      }
      if p.pitch.None? {
        return Err(ChordWithoutPitch);
      }
      notes := notes[k := Merge(notes[k], p.pitch.value, p.note)];
    } else {
      notes := notes + [WithPitch(p.note, p.pitch)];
    }
    return Ok(notes + p.rests);
  }

  class GjmBuilder {
    const notationName: string
    const notationAuthor: string
    const bpm: Bpm
    const trackVolume1: int
    const trackVolume2: int
    const swingBeat: bool
    const octaveOffset1: int
    const octaveOffset2: int

    /** The key's fifths; -1 until a key is read. */
    var key: int
    /** The time signature's beats; -1 until one is read. */
    var beatsPerMeasure: int
    /** The clefs of tracks 0 and 1; unset until `<attributes>` is read. */
    var clef1: Option<Clef>
    var clef2: Option<Clef>

    /** The sealed measures, the id of the open one, and the open one. */
    var measures: seq<Measure>
    var currentMeasureId: int
    var currentMeasure: Measure

    /** The closed repeat sections, and the one a forward repeat opened. */
    var repeats: seq<RepeatMarker>
    var currentRepeat: Option<RepeatMarker>

    /** The invariant of ingestion: the open measure's id is the number of sealed
        measures, the repeat state is well formed for it, and the two clefs are set
        together. */
    ghost predicate Valid()
      reads this`currentMeasureId, this`measures, this`repeats, this`currentRepeat, this`clef1, this`clef2
    {
      && currentMeasureId == |measures|
      && WellFormed(RepeatState(repeats, currentRepeat), currentMeasureId)
      && (clef1.Some? <==> clef2.Some?)
    }

    constructor (notationName: string, notationAuthor: string, bpm: Bpm, trackVolume1: int,
                 trackVolume2: int, swingBeat: bool, octaveOffset1: int, octaveOffset2: int)
      ensures this.notationName == notationName && this.notationAuthor == notationAuthor
      ensures this.bpm == bpm && this.swingBeat == swingBeat
      ensures this.trackVolume1 == trackVolume1 && this.trackVolume2 == trackVolume2
      ensures this.octaveOffset1 == octaveOffset1 && this.octaveOffset2 == octaveOffset2
      ensures key == -1 && beatsPerMeasure == -1 && clef1 == None && clef2 == None
      ensures measures == [] && currentMeasureId == 0 && currentMeasure == EmptyMeasure
      ensures repeats == [] && currentRepeat == None
      ensures Valid()
    {
      this.notationName := notationName;
      this.notationAuthor := notationAuthor;
      this.bpm := bpm;
      this.trackVolume1 := trackVolume1;
      this.trackVolume2 := trackVolume2;
      this.swingBeat := swingBeat;
      this.octaveOffset1 := octaveOffset1;
      this.octaveOffset2 := octaveOffset2;
      key := -1;
      beatsPerMeasure := -1;
      clef1 := None;
      clef2 := None;
      measures := [];
      currentMeasureId := 0;
      currentMeasure := EmptyMeasure;
      repeats := [];
      currentRepeat := None;
    }

    /** Seals the open measure and opens an empty one: the id keeps counting the sealed
        measures, and every closed section now ends before the open measure. */
    method NextMeasure()
      requires Valid()
      modifies this`currentMeasureId, this`measures, this`currentMeasure
      ensures currentMeasureId == old(currentMeasureId) + 1
      ensures measures == old(measures) + [old(currentMeasure)]
      ensures currentMeasure == EmptyMeasure
      ensures Valid() && Sealed(RepeatState(repeats, currentRepeat), currentMeasureId)
    {
      NextMeasureSeals(RepeatState(repeats, currentRepeat), currentMeasureId);
      currentMeasureId := currentMeasureId + 1;
      measures := measures + [currentMeasure];
      currentMeasure := EmptyMeasure;
    }

    /** `<attributes>`: the first key overwrites the key (a second key only warns); a
        time signature is refused when one was already read or several come at once, and
        its beat unit must be 4, though its beats are recorded first; the clefs are set
        last. A failure leaves whatever was set before it. */
    method ParseAttributes(a: AttributesIn) returns (outcome: Outcome<BuildError>)
      requires Valid()
      modifies this`key, this`beatsPerMeasure, this`clef1, this`clef2
      ensures Valid()
      ensures key == (if a.keys != [] then a.keys[0] else old(key))
      ensures RefusesTime(a, old(beatsPerMeasure)) ==>
        && outcome == Fail(MultipleTimeSignatures)
        && beatsPerMeasure == old(beatsPerMeasure) && clef1 == old(clef1) && clef2 == old(clef2)
      ensures !RefusesTime(a, old(beatsPerMeasure)) ==>
        beatsPerMeasure == (if a.times != [] then a.times[0].beats else old(beatsPerMeasure))
      ensures !RefusesTime(a, old(beatsPerMeasure)) && a.times != [] && a.times[0].beatType != 4 ==>
        outcome == Fail(UnsupportedBeatUnit) && clef1 == old(clef1) && clef2 == old(clef2)
      ensures !RefusesTime(a, old(beatsPerMeasure)) && (a.times == [] || a.times[0].beatType == 4) ==>
        && outcome == Pass
        && clef1 == Some(FirstClef(a.clefSigns)) && clef2 == Some(SecondClef(a.clefSigns))
    {
      if a.keys != [] {
        key := a.keys[0];
      }
      if a.times != [] {
        if beatsPerMeasure >= 0 || |a.times| > 1 {
          return Fail(MultipleTimeSignatures);
        }
        var time := a.times[0];
        beatsPerMeasure := time.beats;
        if time.beatType != 4 {
          return Fail(UnsupportedBeatUnit);
        }
      }
      if a.clefSigns == [] {
        clef1 := Some(L2G);
        clef2 := Some(L4F);
      } else {
        clef1 := Some(ClefOfSign(a.clefSigns[0]));
        if |a.clefSigns| < 2 {
          clef2 := Some(L4F);
        } else {
          clef2 := Some(ClefOfSign(a.clefSigns[1]));
        }
      }
      return Pass;
    }

    /** `<forward>` is not supported. */
    method ParseForward() returns (outcome: Outcome<BuildError>)
      ensures outcome == Fail(ForwardUnsupported)
    {
      return Fail(ForwardUnsupported);
    }

    /** `<barline>`: a repeat sign opens or closes a section, as `BarlineStep` says; the
        ingestion invariant is kept, and a refused barline changes nothing. */
    method ParseBarline(b: BarlineIn) returns (outcome: Outcome<BuildError>)
      requires Valid()
      modifies this`repeats, this`currentRepeat
      ensures Valid()
      ensures match BarlineStep(old(RepeatState(repeats, currentRepeat)), currentMeasureId, b)
        case Ok(s) => outcome == Pass && repeats == s.closed && currentRepeat == s.open
        case Err(e) => outcome == Fail(e) && repeats == old(repeats) && currentRepeat == old(currentRepeat)
    {
      ghost var s0 := RepeatState(repeats, currentRepeat);
      if b.repeat.None? {
        return Pass;
      }
      var repeat := b.repeat.value;
      var isEnd := false;
      if repeat.direction == Forward {
        if currentRepeat.Some? {
          return Fail(NestedRepeat);
        }
        currentRepeat := Some(RepeatMarker(currentMeasureId, -1, 1));
      } else {
        isEnd := true;
        if currentRepeat.None? {
          return Fail(RepeatWithoutStart);
        }
        currentRepeat := Some(currentRepeat.value.(endMeasure := currentMeasureId));
      }
      if repeat.times.Some? {
        currentRepeat := Some(currentRepeat.value.(times := repeat.times.value));
      }
      if isEnd {
        repeats := repeats + [currentRepeat.value];
        currentRepeat := None;
      }
      BarlineKeepsWellFormed(s0, currentMeasureId, b);
      return Pass;
    }

    /** `<note>`: read the note, then place it in its staff's track of the open measure, as
        `NoteStep` says; a refused note leaves the measure as it was. */
    method ParseNote(n: NoteIn) returns (outcome: Outcome<BuildError>)
      modifies this`currentMeasure
      ensures match NoteStep(old(currentMeasure), n, octaveOffset1, octaveOffset2)
        case Ok(m) => outcome == Pass && currentMeasure == m
        case Err(e) => outcome == Fail(e) && currentMeasure == old(currentMeasure)
    {
      var parsed := ReadNoteIn(n, octaveOffset1, octaveOffset2);
      if parsed.Err? {
        return Fail(parsed.error);
      }
      var p := parsed.value;
      var currentTrack := if p.staff == 1 then currentMeasure.notes1 else currentMeasure.notes2;
      var placed := PlaceNote(currentTrack, p);
      if placed.Err? {
        return Fail(placed.error);
      }
      if p.staff == 1 {
        currentMeasure := currentMeasure.(notes1 := placed.value);
      } else {
        currentMeasure := currentMeasure.(notes2 := placed.value);
      }
      return Pass;
    }

    /** Swings the first track of every sealed measure. */
    method ApplySwing()
      modifies this`measures
      ensures measures == SwingMeasures(old(measures))
    {
      ghost var ms0 := measures;
      var k := 0;
      while k < |measures|
        invariant |measures| == |ms0| && 0 <= k <= |ms0|
        invariant forall i :: 0 <= i < k ==> measures[i] == SwingMeasures(ms0)[i]
        invariant forall i :: k <= i < |ms0| ==> measures[i] == ms0[i]
      {
        var swung := SwingTrack(measures[k].notes1);
        measures := measures[k := measures[k].(notes1 := swung)];
        k := k + 1;
      }
    }

    /** Replaces the measures by their expansion through the closed repeat sections; an
        open section is ignored. A section outside the measures fails and changes
        nothing. */
    method ApplyRepeats() returns (outcome: Outcome<BuildError>)
      modifies this`measures
      ensures match Expand(old(measures), repeats, 0)
        case Ok(ms) => outcome == Pass && measures == ms
        case Err(e) => outcome == Fail(e) && measures == old(measures)
    {
      var result := ExpandMeasures(measures, repeats);
      if result.Err? {
        return Fail(result.error);
      }
      measures := result.value;
      return Pass;
    }

    /** Swing (when enabled), then the repeats. */
    method PostProcess() returns (outcome: Outcome<BuildError>)
      modifies this`measures
      ensures var swung := if swingBeat then SwingMeasures(old(measures)) else old(measures);
        match Expand(swung, repeats, 0)
        case Ok(ms) => outcome == Pass && measures == ms
        case Err(e) => outcome == Fail(e) && measures == swung
    {
      if swingBeat {
        ApplySwing();
      }
      outcome := ApplyRepeats();
    }

    /** The GJM document. Without clefs (no `<attributes>` was read) there is no
        document. */
    method WriteGjm() returns (r: Result<string, BuildError>)
      ensures r.Ok? <==> clef1.Some? && clef2.Some?
      ensures clef1.None? || clef2.None? ==> r == Err(MissingClef)
      ensures clef1.Some? && clef2.Some? ==>
        r == Ok(Concat(Tab, GjmLines(notationName, notationAuthor, beatsPerMeasure, bpm, key,
                                     clef1.value, clef2.value, trackVolume1, trackVolume2, measures)))
    {
      if clef1.None? || clef2.None? {
        return Err(MissingClef);
      }
      var sb := new IndentingStringBuilder(Tab);
      WriteDocument(sb, notationName, notationAuthor, beatsPerMeasure, bpm, key,
                    clef1.value, clef2.value, trackVolume1, trackVolume2, measures);
      return Ok(sb.ToString());
    }
  }
}
