/** The inner loops of `writeTrack`: the note blocks of one measure and the pitch entries
    of one note, written through the indenting line writer. */
module Writer {
  import opened Wrappers
  import opened Indenting
  import opened Tables
  import opened Score
  import opened SwingPass
  import opened Render
  import opened Seqs

  lemma PitchesStep(level: nat, key: int, n: Note, k: nat)
    requires k < |n.pitches|
    ensures PitchesLines(level, key, n, n.pitches[..k + 1])
      == PitchesLines(level, key, n, n.pitches[..k]) + [Line(level, PitchLine(n.pitches[k], key, n, k))]
  {
    assert n.pitches[..k + 1][..k] == n.pitches[..k];
  }

  lemma NotesStep(level: nat, key: int, bpm: Bpm, notes: seq<Note>, j: nat)
    requires j < |notes|
    ensures NotesLines(level, key, bpm, notes[..j + 1])
      == NotesLines(level, key, bpm, notes[..j]) + NoteLines(level, key, bpm, notes[j], j, StampAfter(notes[..j]))
  {
    assert notes[..j + 1][..j] == notes[..j];
  }

  lemma StampStep(notes: seq<Note>, j: nat)
    requires j < |notes|
    ensures StampAfter(notes[..j + 1]) == StampAfter(notes[..j]) + Advance(notes[j])
  {
    assert notes[..j + 1][..j] == notes[..j];
  }

  /** The entry of the `k`-th pitch of `note`: its index, sign, played index (the explicit
      accidental, else the key, decides the alteration), tags, volume and arpeggio offset. */
  method PitchEntry(pitch: Pitch, key: int, note: Note, k: int) returns (entry: string)
    ensures entry == PitchLine(pitch, key, note, k)
  {
    var noteIndex := (pitch.octave - 1) * 12 + GjmPitchOffset + PitchOffset(pitch.step);
    var offset := 0;
    var alter := "NoControl";
    if pitch.accidental.None? {
      if key < 0 && FlatScale(pitch.step) <= Abs(key) {
        offset := offset - 1;
      } else if key > 0 && SharpScale(pitch.step) <= key {
        offset := offset + 1;
      }
    } else {
      match pitch.accidental.value {
        case Flat => offset := offset - 1;
        case Sharp => offset := offset + 1;
        case Natural =>
      }
      alter := GjmString(pitch.accidental.value);
    }
    var pitchIndex := noteIndex + offset;
    assert noteIndex == NoteIndex(pitch) && pitchIndex == PitchIndex(pitch, key) && alter == AlterTag(pitch);
    entry := "[" + IntToString(noteIndex) + "] = { "
      + "NumberedSign = " + IntToString(Sign(pitch.step)) + ", "
      + "PlayingPitchIndex = " + IntToString(pitchIndex) + ", "
      + "AlterantType = '" + alter + "', "
      + "RawAlterantType = '" + alter + "', "
      + "Volume = " + (if note.tieEnd then "0.00" else "0.50") + ", "
      + (if note.isArpeggiate && k > 0 then IntToString(k * 100) else "") + " },";
  }

  /** The pitch entries of `note`, one line each, in the order of its pitches. */
  method WritePitches(sb: IndentingStringBuilder, key: int, note: Note)
    requires sb.level >= 0
    modifies sb
    ensures sb.level == old(sb.level)
    ensures sb.parts == old(sb.parts) + PitchesLines(sb.level, key, note, note.pitches)
  {
    ghost var p0 := sb.parts;
    ghost var level: nat := sb.level;
    var pitchCount := 0;
    while pitchCount < |note.pitches|
      invariant 0 <= pitchCount <= |note.pitches|
      invariant sb.level == level
      invariant sb.parts == p0 + PitchesLines(level, key, note, note.pitches[..pitchCount])
    {
      var entry := PitchEntry(note.pitches[pitchCount], key, note, pitchCount);
      sb.Li(entry);
      PitchesStep(level, key, note, pitchCount);
      AppendAssoc(p0, PitchesLines(level, key, note, note.pitches[..pitchCount]), [Line(level, entry)]);
      pitchCount := pitchCount + 1;
    }
    assert note.pitches[..pitchCount] == note.pitches;
  }

  /** The playing duration of a note in milliseconds: the rounded tick duration times
      its ticks, then, for a swung note, scaled by its swing factor and rounded again. */
  method PlayingDuration(bpm: Bpm, note: Note) returns (duration: int)
    ensures duration == DurationMs(bpm, note)
  {
    duration := UnitMs(bpm) * Multiplier(note.noteType);
    if note.isSwing {
      duration := Round(duration as real * note.swingDurationMultiplier);
    }
  }

  /** A line written only when `cond` holds. */
  method WriteOptional(sb: IndentingStringBuilder, cond: bool, s: string)
    requires sb.level >= 0
    modifies sb
    ensures sb.level == old(sb.level)
    ensures sb.parts == old(sb.parts) + OptLine(sb.level, cond, s)
  {
    if cond {
      sb.Li(s);
    }
  }

  /** The `TieType` line of a note that starts or ends a tie (or both). */
  method WriteTie(sb: IndentingStringBuilder, note: Note)
    requires sb.level >= 0
    modifies sb
    ensures sb.level == old(sb.level)
    ensures sb.parts == old(sb.parts) + TieLines(sb.level, note)
  {
    if note.tieStart || note.tieEnd {
      var tieValue;
      if note.tieStart && note.tieEnd {
        tieValue := "Both";
      } else if note.tieStart {
        tieValue := "Start";
      } else {
        tieValue := "End";
      }
      sb.Li("TieType = '" + tieValue + "',");
    }
  }

  /** The `DurationType` line, left out for a quarter note. */
  method WriteDurationType(sb: IndentingStringBuilder, note: Note)
    requires sb.level >= 0
    modifies sb
    ensures sb.level == old(sb.level)
    ensures sb.parts == old(sb.parts) + DurationTypeLines(sb.level, note)
  {
    if GjmId(note.noteType).Some? {
      sb.Li("DurationType = '" + GjmId(note.noteType).value + "',");
    }
  }

  /** The optional lines of a note block, in the order the format lists them. */
  method WriteFlags(sb: IndentingStringBuilder, note: Note)
    requires sb.level >= 0
    modifies sb
    ensures sb.level == old(sb.level)
    ensures sb.parts == old(sb.parts) + FlagLines(sb.level, note)
  {
    ghost var level: nat := sb.level;
    ghost var start := sb.parts;
    WriteTie(sb, note);
    ghost var acc := TieLines(level, note);
    WriteOptional(sb, note.isTriplet, "Triplet = true,");
    AppendAssoc(start, acc, OptLine(level, note.isTriplet, "Triplet = true,"));
    acc := acc + OptLine(level, note.isTriplet, "Triplet = true,");
    WriteOptional(sb, note.isRest, "IsRest = true,");
    AppendAssoc(start, acc, OptLine(level, note.isRest, "IsRest = true,"));
    acc := acc + OptLine(level, note.isRest, "IsRest = true,");
    WriteOptional(sb, note.isDotted, "IsDotted = true,");
    AppendAssoc(start, acc, OptLine(level, note.isDotted, "IsDotted = true,"));
    acc := acc + OptLine(level, note.isDotted, "IsDotted = true,");
    WriteDurationType(sb, note);
    AppendAssoc(start, acc, DurationTypeLines(level, note));
    acc := acc + DurationTypeLines(level, note);
    WriteOptional(sb, note.isArpeggiate, "ArpeggioMode ='Upward',");
    AppendAssoc(start, acc, OptLine(level, note.isArpeggiate, "ArpeggioMode ='Upward',"));
  }

  /** The stamp index, the playing duration and the number of pitches (0 for a rest). */
  method WriteTiming(sb: IndentingStringBuilder, bpm: Bpm, note: Note, stampIndex: int)
    requires sb.level >= 0
    modifies sb
    ensures sb.level == old(sb.level)
    ensures sb.parts == old(sb.parts) + TimingLines(sb.level, bpm, note, stampIndex)
  {
    sb.Li("StampIndex = " + IntToString(stampIndex) + ",");
    var duration := PlayingDuration(bpm, note);
    sb.Li("PlayingDurationTimeMs = " + IntToString(duration) + ",");
    var count := if note.isRest then "0" else IntToString(|note.pitches|);
    sb.Li("ClassicPitchSignCount = " + count + ",");
  }

  /** The lines of a note block before its pitch list. */
  method WriteNoteFields(sb: IndentingStringBuilder, bpm: Bpm, note: Note, stampIndex: int)
    requires sb.level >= 0
    modifies sb
    ensures sb.level == old(sb.level)
    ensures sb.parts == old(sb.parts) + NoteFields(sb.level, bpm, note, stampIndex)
  {
    ghost var start := sb.parts;
    WriteFlags(sb, note);
    WriteTiming(sb, bpm, note, stampIndex);
    AppendAssoc(start, FlagLines(sb.level, note), TimingLines(sb.level, bpm, note, stampIndex));
  }

  /** The pitch table of a note, one level deeper than its opening line. */
  method WritePitchSection(sb: IndentingStringBuilder, key: int, note: Note)
    requires sb.level >= 0
    modifies sb
    ensures sb.level == old(sb.level)
    ensures sb.parts == old(sb.parts) + PitchSection(sb.level, key, note)
  {
    ghost var level: nat := sb.level;
    ghost var p0 := sb.parts;
    sb.Push("ClassicPitchSign = {");
    ghost var p1 := sb.parts;
    WritePitches(sb, key, note);
    ghost var p2 := sb.parts;
    sb.Pop("},");
    assert p2 == p0 + [Line(level, "ClassicPitchSign = {")] + PitchesLines(level + 1, key, note, note.pitches);
    AppendAssoc(p0, [Line(level, "ClassicPitchSign = {")] + PitchesLines(level + 1, key, note, note.pitches), [Line(level, "},")]);
  }

  /** The block of the `j`-th note of a measure, at stamp index `stampIndex`. */
  method WriteNote(sb: IndentingStringBuilder, key: int, bpm: Bpm, note: Note, j: int, stampIndex: int)
    requires sb.level >= 0
    modifies sb
    ensures sb.level == old(sb.level)
    ensures sb.parts == old(sb.parts) + NoteLines(sb.level, key, bpm, note, j, stampIndex)
  {
    ghost var level: nat := sb.level;
    ghost var p0 := sb.parts;
    sb.Push("[" + IntToString(j) + "] = {");
    ghost var head := [Line(level, "[" + IntToString(j) + "] = {")];
    WriteNoteFields(sb, bpm, note, stampIndex);
    ghost var fields := NoteFields(level + 1, bpm, note, stampIndex);
    AppendAssoc(p0, head, fields);
    WritePitchSection(sb, key, note);
    ghost var section := PitchSection(level + 1, key, note);
    AppendAssoc(p0, head + fields, section);
    sb.Pop("},");
    AppendAssoc(p0, head + fields + section, [Line(level, "},")]);
  }

  /** The note blocks of one measure, each stamped with the sum of the advances of the
      notes before it (a swung note advances by its override, any other by its ticks). */
  method WriteNotes(sb: IndentingStringBuilder, key: int, bpm: Bpm, notes: seq<Note>)
    requires sb.level >= 0
    modifies sb
    ensures sb.level == old(sb.level)
    ensures sb.parts == old(sb.parts) + NotesLines(sb.level, key, bpm, notes)
  {
    ghost var p0 := sb.parts;
    ghost var level: nat := sb.level;
    var j := 0;
    var stampIndex := 0;
    while j < |notes|
      invariant 0 <= j <= |notes|
      invariant sb.level == level
      invariant stampIndex == StampAfter(notes[..j])
      invariant sb.parts == p0 + NotesLines(level, key, bpm, notes[..j])
    {
      var note := notes[j];
      WriteNote(sb, key, bpm, note, j, stampIndex);
      stampIndex := stampIndex + Advance(note);
      StampStep(notes, j);
      NotesStep(level, key, bpm, notes, j);
      AppendAssoc(p0, NotesLines(level, key, bpm, notes[..j]), NoteLines(level, key, bpm, note, j, StampAfter(notes[..j])));
      j := j + 1;
    }
    assert notes[..j] == notes;
  }

  lemma MeasuresStep(level: nat, track: int, key: int, bpm: Bpm, ms: seq<Measure>, k: nat)
    requires k < |ms|
    ensures MeasuresLines(level, track, key, bpm, ms[..k + 1])
      == MeasuresLines(level, track, key, bpm, ms[..k]) + MeasureBlock(level, track, key, bpm, ms[k], Label(track, k))
  {
    assert ms[..k + 1][..k] == ms[..k];
  }

  /** A measure block of track 0 or 1: its label, the stamp bound, the note count and the
      note blocks. */
  method WriteMeasure(sb: IndentingStringBuilder, key: int, bpm: Bpm, notes: seq<Note>, tag: int)
    requires sb.level >= 0
    modifies sb
    ensures sb.level == old(sb.level)
    ensures sb.parts == old(sb.parts) + MeasureLines(sb.level, key, bpm, notes, tag)
  {
    ghost var level: nat := sb.level;
    ghost var p0 := sb.parts;
    sb.Push("[" + IntToString(tag) + "] = {");
    sb.Li("DurationStampMax = 63,");
    sb.Li("NotePackCount = " + IntToString(|notes|) + ",");
    ghost var head := [Line(level, "[" + IntToString(tag) + "] = {"),
                       Line(level + 1, "DurationStampMax = 63,"),
                       Line(level + 1, "NotePackCount = " + IntToString(|notes|) + ",")];
    assert sb.parts == p0 + head;
    WriteNotes(sb, key, bpm, notes);
    AppendAssoc(p0, head, NotesLines(level + 1, key, bpm, notes));
    sb.Pop("},");
    AppendAssoc(p0, head + NotesLines(level + 1, key, bpm, notes), [Line(level, "},")]);
  }

  /** A measure block of track 2: its label and a zero note count. */
  method WriteEmptyMeasure(sb: IndentingStringBuilder, tag: int)
    requires sb.level >= 0
    modifies sb
    ensures sb.level == old(sb.level)
    ensures sb.parts == old(sb.parts) + EmptyMeasureLines(sb.level, tag)
  {
    sb.Push("[" + IntToString(tag) + "] = {");
    sb.Li("NotePackCount = 0");
    sb.Pop("},");
  }

  /** The measure blocks of track `track`. The label counter advances after each block of
      tracks 0 and 1 only: the block of track 2 skips the increment, so each of its blocks
      is labelled 0. */
  method WriteMeasures(sb: IndentingStringBuilder, track: int, key: int, bpm: Bpm, measures: seq<Measure>)
    requires sb.level >= 0
    modifies sb
    ensures sb.level == old(sb.level)
    ensures sb.parts == old(sb.parts) + MeasuresLines(sb.level, track, key, bpm, measures)
  {
    ghost var p0 := sb.parts;
    ghost var level: nat := sb.level;
    var i := 0;
    var k := 0;
    while k < |measures|
      invariant 0 <= k <= |measures|
      invariant i == Label(track, k)
      invariant sb.level == level
      invariant sb.parts == p0 + MeasuresLines(level, track, key, bpm, measures[..k])
    {
      var measure := measures[k];
      if track == 2 {
        WriteEmptyMeasure(sb, i);
      } else {
        var notes := if track == 0 then measure.notes1 else measure.notes2;
        WriteMeasure(sb, key, bpm, notes, i);
        i := i + 1;
      }
      MeasuresStep(level, track, key, bpm, measures, k);
      AppendAssoc(p0, MeasuresLines(level, track, key, bpm, measures[..k]),
                  MeasureBlock(level, track, key, bpm, measure, Label(track, k)));
      k := k + 1;
    }
    assert measures[..k] == measures;
  }

  /** A map block holding one entry. */
  method WriteMap(sb: IndentingStringBuilder, name: string, entry: string)
    requires sb.level >= 0
    modifies sb
    ensures sb.level == old(sb.level)
    ensures sb.parts == old(sb.parts) + MapLines(sb.level, name, entry)
  {
    sb.Push(name + " = {");
    sb.Li(entry);
    sb.Pop("},");
  }

  /** The five maps opening a track. */
  method WriteTrackMaps(sb: IndentingStringBuilder, key: int, clef: Clef, volume: string)
    requires sb.level >= 0
    modifies sb
    ensures sb.level == old(sb.level)
    ensures sb.parts == old(sb.parts) + TrackMaps(sb.level, key, clef, volume)
  {
    ghost var level: nat := sb.level;
    ghost var p0 := sb.parts;
    ghost var m1 := MapLines(level, "MeasureKeySignatureMap", "{ 0, " + IntToString(key) + " },");
    ghost var m2 := MapLines(level, "MeasureClefTypeMap", "{ 0, '" + ClefName(clef) + "' },");
    ghost var m3 := MapLines(level, "MeasureInstrumentTypeMap", "{ 0, 'Piano' },");
    ghost var m4 := MapLines(level, "MeasureVolumeCurveMap", "{ 0, { 0.8, 0.7, 0.5, 0.5, 0.7, 0.6, 0.5, 0.4, } },");
    ghost var m5 := MapLines(level, "MeasureVolumeMap", "{ 0, " + volume + " },");
    WriteMap(sb, "MeasureKeySignatureMap", "{ 0, " + IntToString(key) + " },");
    WriteMap(sb, "MeasureClefTypeMap", "{ 0, '" + ClefName(clef) + "' },");
    AppendAssoc(p0, m1, m2);
    WriteMap(sb, "MeasureInstrumentTypeMap", "{ 0, 'Piano' },");
    AppendAssoc(p0, m1 + m2, m3);
    WriteMap(sb, "MeasureVolumeCurveMap", "{ 0, { 0.8, 0.7, 0.5, 0.5, 0.7, 0.6, 0.5, 0.4, } },");
    AppendAssoc(p0, m1 + m2 + m3, m4);
    WriteMap(sb, "MeasureVolumeMap", "{ 0, " + volume + " },");
    AppendAssoc(p0, m1 + m2 + m3 + m4, m5);
  }

  /** One track block: its opening line, the five maps and the measure blocks one level
      deeper, and its closing line. */
  method WriteTrackBlock(sb: IndentingStringBuilder, track: int, key: int, clef: Clef, volume: string,
                         bpm: Bpm, measures: seq<Measure>)
    requires sb.level >= 0
    modifies sb
    ensures sb.level == old(sb.level)
    ensures sb.parts == old(sb.parts) + TrackLines(sb.level, track, key, clef, volume, bpm, measures)
  {
    ghost var level: nat := sb.level;
    ghost var p0 := sb.parts;
    sb.Push("[" + IntToString(track) + "] = {");
    ghost var head := [Line(level, "[" + IntToString(track) + "] = {")];
    WriteTrackMaps(sb, key, clef, volume);
    ghost var maps := TrackMaps(level + 1, key, clef, volume);
    AppendAssoc(p0, head, maps);
    WriteMeasures(sb, track, key, bpm, measures);
    ghost var blocks := MeasuresLines(level + 1, track, key, bpm, measures);
    AppendAssoc(p0, head + maps, blocks);
    sb.Pop("},");
    AppendAssoc(p0, head + maps + blocks, [Line(level, "},")]);
  }

  /** The header block, written at the outermost level. */
  method WriteHeader(sb: IndentingStringBuilder, name: string, author: string, beatsPerMeasure: int,
                     bpm: Bpm, count: int)
    requires sb.level == 0
    modifies sb
    ensures sb.level == 0
    ensures sb.parts == old(sb.parts) + HeaderLines(name, author, beatsPerMeasure, bpm, count)
  {
    ghost var p0 := sb.parts;
    sb.Li("Version = '1.1.0.0'");
    sb.Push("Notation = {");
    ghost var opening := [Line(0, "Version = '1.1.0.0'"), Line(0, "Notation = {")];
    assert sb.parts == p0 + opening;
    WriteMetadata(sb, name, author, beatsPerMeasure);
    ghost var metadata := MetadataLines(name, author, beatsPerMeasure);
    AppendAssoc(p0, opening, metadata);
    WriteMap(sb, "MeasureBeatsPerMinuteMap", "{ 0, " + IntToString(bpm) + " },");
    ghost var tempo := MapLines(1, "MeasureBeatsPerMinuteMap", "{ 0, " + IntToString(bpm) + " },");
    AppendAssoc(p0, opening + metadata, tempo);
    sb.Li("MeasureAlignedCount = " + IntToString(count) + ",");
    sb.Pop("}");
    ghost var closing := [Line(1, "MeasureAlignedCount = " + IntToString(count) + ","), Line(0, "}")];
    assert sb.parts == p0 + (opening + metadata + tempo) + closing;
    AppendAssoc(p0, opening + metadata + tempo, closing);
  }

  /** The metadata lines of the header, inside the `Notation` block. */
  method WriteMetadata(sb: IndentingStringBuilder, name: string, author: string, beatsPerMeasure: int)
    requires sb.level == 1
    modifies sb
    ensures sb.level == 1
    ensures sb.parts == old(sb.parts) + MetadataLines(name, author, beatsPerMeasure)
  {
    sb.Li("Version = '1.1.0.0',");
    sb.Li("NotationName = '" + name + "',");
    sb.Li("NotationAuthor = '" + author + "',");
    sb.Li("NotationTranslater = 'SoloGJM',");
    sb.Li("NotationCreator = 'Miuna (kieve)',");
    sb.Li("Volume = 1,");
    sb.Li("BeatsPerMeasure = " + IntToString(beatsPerMeasure) + ",");
    sb.Li("BeatDurationType = 'Quarter',");
    sb.Li("NumberedKeySignature = 'C',");
  }

  /** The whole document, from an empty buffer: the header, then the blocks of tracks 0, 1
      and 2 inside `Notation.RegularTracks`. Track 1 takes the second clef and tracks 0
      and 2 the first; track 0 takes the first volume and tracks 1 and 2 the second. */
  method WriteDocument(sb: IndentingStringBuilder, name: string, author: string, beatsPerMeasure: int,
                       bpm: Bpm, key: int, clef1: Clef, clef2: Clef, volume1: int, volume2: int,
                       measures: seq<Measure>)
    requires sb.level == 0 && sb.parts == []
    modifies sb
    ensures sb.level == 0
    ensures sb.parts == GjmLines(name, author, beatsPerMeasure, bpm, key, clef1, clef2, volume1, volume2, measures)
  {
    WriteHeader(sb, name, author, beatsPerMeasure, bpm, |measures|);
    sb.Push("Notation.RegularTracks = {");
    ghost var opening := HeaderLines(name, author, beatsPerMeasure, bpm, |measures|)
      + [Line(0, "Notation.RegularTracks = {")];
    assert sb.parts == opening;
    ghost var inner: nat := sb.level;
    var trackVolume1 := VolumeText(volume1);
    var trackVolume2 := VolumeText(volume2);
    WriteTrackBlock(sb, 0, key, clef1, trackVolume1, bpm, measures);
    ghost var t0 := TrackLines(inner, 0, key, clef1, trackVolume1, bpm, measures);
    assert sb.parts == opening + t0;
    WriteTrackBlock(sb, 1, key, clef2, trackVolume2, bpm, measures);
    ghost var t1 := TrackLines(inner, 1, key, clef2, trackVolume2, bpm, measures);
    assert sb.parts == opening + t0 + t1;
    WriteTrackBlock(sb, 2, key, clef1, trackVolume2, bpm, measures);
    ghost var t2 := TrackLines(inner, 2, key, clef1, trackVolume2, bpm, measures);
    assert sb.parts == opening + t0 + t1 + t2;
    sb.Pop("}");
    assert sb.parts == opening + t0 + t1 + t2 + [Line(0, "}")];
  }
}
