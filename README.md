# solo-gjm transcoder core, modelled in Dafny

solo-gjm converts a MusicXML score into a GJM document. GJM is the Lua-table text format the
SOLO piano game reads. The core of the converter is a builder:

- The builder is fed the elements of every measure of every part, one at a time. Each
  `<attributes>`, `<note>` and `<barline>` updates its state:
  - the key, the time signature and the clefs;
  - the open measure with its two tracks (staff 1 and staff 2);
  - the sealed measures;
  - the repeat sections.
- After the last measure it rewrites the measures in two passes:
  - swing, which retimes aligned eighth pairs long-short;
  - repeat expansion, which unrolls each repeat section `times + 1` times.
- It then writes the document through a small indenting line writer.

The model keeps that shape:

- **Values.** Notes, pitches, measures and repeat markers are datatypes. The Java objects
  are never shared between two lists, so value semantics loses nothing.
- **The builder.** `Builder.GjmBuilder` is a class with the builder's own fields. Its
  ingestion methods return an `Outcome` (`Pass` or `Fail(error)`), which stands for the
  exceptions the Java code throws.
- **Specification functions.** Each step is proved against a function:
  - `Ingest.NoteStep`, `Ingest.BarlineStep`, `SwingPass.SwingFrom`, `RepeatPass.Expand`;
  - `Render.GjmLines`, which gives the document line by line.
- **Properties of those functions.** They are proved as lemmas: what reading a note keeps,
  that staccato padding fills the note's time, that swing keeps every stamp length, that
  repeat expansion succeeds and how long its result is, and how pitch indices follow from
  the key.
- **The line writer.** `Indenting.IndentingStringBuilder` records the pieces it appends.
  Its text is their concatenation with the indentation unit.
- **The driver.** `Driver.Convert` drives the builder in the converter's own order: every
  element of every measure of every part, a measure break after each measure, then the
  passes, then the document.

Behaviour of the code as written that the model keeps on purpose:

- **Chords.** A chorded note whose track holds only rests joins the first rest
  (`Ingest.ChordOnRestsLandsOnFirst`). Its staccato padding is still appended
  (`Ingest.ChordJoinsTarget`).
- **Track 2.** Every measure block of track 2 is labelled `[0]`, because its measure counter
  never advances (`Render.ThirdTrackBlocks`).
- **Default key.** A score that never states a key is written in key -1, so every B without
  an accidental is lowered (`Render.DefaultKeyLowersOnlyB`).
- **Failed attributes.** When `<attributes>` fails, what it set before the failure stays
  set: a rejected beat unit still records its beats.

## Model

Source paths are relative to the repository root.

| member | source | states |
|---|---|---|
| `Tables.GjmId` | gjm-converter/src/main/java/ca/kieve/sologjm/GjmBuilder.java:47-53 | only the quarter note has no GJM duration tag |
| `Tables.MultiplierIsPowerOfTwo` | gjm-converter/src/main/java/ca/kieve/sologjm/GjmBuilder.java:47-53 | the ticks of the k-th duration class are 2^(k+1): each class doubles the previous one |
| `Tables.MultiplierStrictlyIncreasing` | gjm-converter/src/main/java/ca/kieve/sologjm/GjmBuilder.java:47-53 | ticks increase strictly in declaration order, so a tick count names at most one class |
| `Tables.FindMxl` | gjm-converter/src/main/java/ca/kieve/sologjm/GjmBuilder.java:65-72 | the in-order search returns a listed class with that MusicXML name, and fails only when no listed class has it |
| `Tables.FromMxl` | gjm-converter/src/main/java/ca/kieve/sologjm/GjmBuilder.java:65-72 | the lookup succeeds exactly for the names of the six classes, and returns the named class |
| `Tables.FindMultiplier` | gjm-converter/src/main/java/ca/kieve/sologjm/GjmBuilder.java:74-81 | the in-order search returns a listed class with that tick count, and fails only when none has it |
| `Tables.FromDurationMultiplier` | gjm-converter/src/main/java/ca/kieve/sologjm/GjmBuilder.java:74-81 | the lookup succeeds exactly for the six tick counts, and returns the class with that count |
| `Tables.LookupsRoundTrip` | gjm-converter/src/main/java/ca/kieve/sologjm/GjmBuilder.java:47-81 | both lookups invert their table: name to class and tick count to class give back the class |
| `Tables.ScaleRanks` | gjm-converter/src/main/java/ca/kieve/sologjm/GjmBuilder.java:84-106 | flat rank is 8 minus sharp rank; each sharp rank 1..7 and each scale sign belongs to one step; pitch offsets lie in 0..11 |
| `Tables.SharpKeyAltersKSteps` | gjm-converter/src/main/java/ca/kieve/sologjm/GjmBuilder.java:84-98 | a key of k sharps (0..7) alters exactly k of the seven steps |
| `Tables.FlatKeyAltersKSteps` | gjm-converter/src/main/java/ca/kieve/sologjm/GjmBuilder.java:84-98 | a key of k flats (0..7) alters exactly k of the seven steps |
| `Indenting.Indentation` | gjm-converter/src/main/java/ca/kieve/sologjm/IndentingStringBuilder.java:33-38 | the indentation of a line is the unit written `level` times: `level * |unit|` characters, starting with the unit |
| `Indenting.LineText` | gjm-converter/src/main/java/ca/kieve/sologjm/IndentingStringBuilder.java:33-38 | a written line is its indentation, its text and a newline, and has that many characters |
| `Indenting.NatTextDigits` | gjm-converter/src/main/java/ca/kieve/sologjm/IndentingStringBuilder.java:51-54 | the text of a non-negative int is a non-empty digit run without a leading zero that reads back as the int |
| `Indenting.IntTextRoundTrip` | gjm-converter/src/main/java/ca/kieve/sologjm/IndentingStringBuilder.java:51-54 | printing an int and parsing the text gives the int back; the text starts with '-' exactly for a negative int |
| `Indenting.ConcatAppend` | gjm-converter/src/main/java/ca/kieve/sologjm/IndentingStringBuilder.java:62-65 | the text of two runs of pieces is the text of the first followed by the text of the second |
| `Indenting.IndentingStringBuilder.constructor` | gjm-converter/src/main/java/ca/kieve/sologjm/IndentingStringBuilder.java:8-12 | a new writer has the given indent unit, an empty buffer and level 0 |
| `Indenting.IndentingStringBuilder.Push` | gjm-converter/src/main/java/ca/kieve/sologjm/IndentingStringBuilder.java:14-18 | appends the line at the old level, then the level goes up by one |
| `Indenting.IndentingStringBuilder.Pop` | gjm-converter/src/main/java/ca/kieve/sologjm/IndentingStringBuilder.java:20-24 | the level goes down by one, then the line is appended at the new level |
| `Indenting.IndentingStringBuilder.Li` | gjm-converter/src/main/java/ca/kieve/sologjm/IndentingStringBuilder.java:33-38 | appends one whole line at the current level; the level is unchanged |
| `Indenting.IndentingStringBuilder.S` | gjm-converter/src/main/java/ca/kieve/sologjm/IndentingStringBuilder.java:40-44 | appends indentation and text, leaving the line open |
| `Indenting.IndentingStringBuilder.A` | gjm-converter/src/main/java/ca/kieve/sologjm/IndentingStringBuilder.java:46-49 | appends the text with no indentation and no newline |
| `Indenting.IndentingStringBuilder.AInt` | gjm-converter/src/main/java/ca/kieve/sologjm/IndentingStringBuilder.java:51-54 | appends the decimal text of the int |
| `Indenting.IndentingStringBuilder.E` | gjm-converter/src/main/java/ca/kieve/sologjm/IndentingStringBuilder.java:56-60 | appends the text and ends the line |
| `Indenting.Bracket` | gjm-converter/src/main/java/ca/kieve/sologjm/IndentingStringBuilder.java:14-24 | a push followed by a pop writes both lines at the same level and restores the level |
| `StaccatoPass.StaccatoKeepsLength` | gjm-converter/src/main/java/ca/kieve/sologjm/GjmBuilder.java:708-710 | a 32nd plus the padding rests lasts exactly as many ticks as the original note |
| `StaccatoPass.StaccatoRestClasses` | gjm-converter/src/main/java/ca/kieve/sologjm/GjmBuilder.java:696-706 | the padding is rests only, their classes strictly increase, and they are exactly the classes shorter than the note's |
| `StaccatoPass.Staccato` | gjm-converter/src/main/java/ca/kieve/sologjm/GjmBuilder.java:690-713 | a 32nd is left alone with no padding; any other note becomes a 32nd padded with `StaccatoRests` of its class (doubling loop proved against it) |
| `SwingPass.SwingLength` | gjm-converter/src/main/java/ca/kieve/sologjm/GjmBuilder.java:722-788 | swinging adds exactly one note per swung pair |
| `SwingPass.NoSwungPairUnchanged` | gjm-converter/src/main/java/ca/kieve/sologjm/GjmBuilder.java:741-757 | when no pair qualifies, the track comes back unchanged |
| `SwingPass.NoEighthPairUnchanged` | gjm-converter/src/main/java/ca/kieve/sologjm/GjmBuilder.java:745-757 | a track with no two adjacent plain eighths is unchanged, whatever the tally |
| `SwingPass.SwingPairScenario` | gjm-converter/src/main/java/ca/kieve/sologjm/GjmBuilder.java:759-778 | two plain eighths at the start become three swung notes: index advances 5, 5, 6, factors 1.25, 0.625, 0.75, tie start then tie end, pitches kept |
| `SwingPass.SwingKeepsStamp` | gjm-converter/src/main/java/ca/kieve/sologjm/GjmBuilder.java:759-784 | for unswung notes, the stamp index reached after the swung track equals the one after the original (5 + 5 + 6 = 8 + 8) |
| `SwingPass.SwingTrack` | gjm-converter/src/main/java/ca/kieve/sologjm/GjmBuilder.java:722-788 | the tally loop, including skipping the right note of a swung pair, computes exactly `SwingFrom(notes, 0)` |
| `SwingPass.SwingMeasuresKeepLength` | gjm-converter/src/main/java/ca/kieve/sologjm/GjmBuilder.java:715-720 | applying swing keeps the number of measures, leaves track 2 as it is and keeps every track-1 stamp length |
| `Ingest.AccidentalFromMxl` | gjm-converter/src/main/java/ca/kieve/sologjm/GjmBuilder.java:119-126 | flat, natural and sharp map to themselves; any other accidental is refused |
| `Ingest.ReadNoteAccepts` | gjm-converter/src/main/java/ca/kieve/sologjm/GjmBuilder.java:393-551 | a note is read successfully exactly when every check `parseNote` makes passes (both directions) |
| `Ingest.ReadNoteShape` | gjm-converter/src/main/java/ca/kieve/sologjm/GjmBuilder.java:485-573 | reading keeps staff, rest flag and chord flag; ties are the union of the tie elements; rests carry no pitch or padding; the note plus its padding lasts as long as the written class |
| `Ingest.StaccatoQuarterExample` | gjm-converter/src/main/java/ca/kieve/sologjm/GjmBuilder.java:493-520 | a staccato quarter becomes a 32nd followed by 32nd, 16th and eighth rests |
| `Ingest.ChordTarget` | gjm-converter/src/main/java/ca/kieve/sologjm/GjmBuilder.java:584-590 | the chord target is the last non-rest note, with only rests after it, or the first note when all are rests |
| `Ingest.AppendedNoteFillsItsTime` | gjm-converter/src/main/java/ca/kieve/sologjm/GjmBuilder.java:599-605 | a note that is not chorded is appended with its padding: earlier notes stay and the track grows by the written class's ticks |
| `Ingest.ChordJoinsTarget` | gjm-converter/src/main/java/ca/kieve/sologjm/GjmBuilder.java:579-605 | a chorded note adds its pitch to the target and ORs in its ties, and every other field of the target stays; no other note changes; the notes appended after the track are exactly the staccato padding, so the track grows by the padding's ticks alone |
| `Ingest.ChordOnRestsLandsOnFirst` | gjm-converter/src/main/java/ca/kieve/sologjm/GjmBuilder.java:584-590 | on a track of rests only, the chorded pitch lands on the first rest |
| `Ingest.ClefOfSign` | gjm-converter/src/main/java/ca/kieve/sologjm/GjmBuilder.java:314-318 | a clef is treble exactly when its sign is G |
| `Ingest.FirstClef` | gjm-converter/src/main/java/ca/kieve/sologjm/GjmBuilder.java:309-318 | track 0 is bass exactly when a first clef is given and its sign is not G |
| `Ingest.SecondClef` | gjm-converter/src/main/java/ca/kieve/sologjm/GjmBuilder.java:319-325 | track 1 is treble exactly when a second clef is given and its sign is G |
| `Ingest.BarlineKeepsWellFormed` | gjm-converter/src/main/java/ca/kieve/sologjm/GjmBuilder.java:355-391 | a barline that is accepted keeps the repeat sections in order, inside the measures read, with at most one open |
| `Ingest.NextMeasureSeals` | gjm-converter/src/main/java/ca/kieve/sologjm/GjmBuilder.java:261-266 | after a measure break every closed section ends before the open measure |
| `Ingest.SealedRepeatsExpand` | gjm-converter/src/main/java/ca/kieve/sologjm/GjmBuilder.java:790-819 | sections recorded during ingestion lie inside the measure list, so repeat expansion cannot fail |
| `RepeatPass.RepeatedLength` | gjm-converter/src/main/java/ca/kieve/sologjm/GjmBuilder.java:804-808 | n copies of a section have n times its length |
| `RepeatPass.CopyRange` | gjm-converter/src/main/java/ca/kieve/sologjm/GjmBuilder.java:795-797 | a copied range that succeeds has `hi - lo` measures, or none when the range is empty |
| `RepeatPass.NoRepeatsIdentity` | gjm-converter/src/main/java/ca/kieve/sologjm/GjmBuilder.java:812-818 | without repeat sections the measures come back unchanged |
| `RepeatPass.InRangeSucceeds` | gjm-converter/src/main/java/ca/kieve/sologjm/GjmBuilder.java:790-819 | sections inside the list never make the expansion fail |
| `RepeatPass.ExpandDrawsFromInput` | gjm-converter/src/main/java/ca/kieve/sologjm/GjmBuilder.java:790-819 | every measure of the expansion is one of the original measures |
| `RepeatPass.SingleSection` | gjm-converter/src/main/java/ca/kieve/sologjm/GjmBuilder.java:794-815 | one section [s..e] played t + 1 times: the measures before it, the section repeated, then the rest |
| `RepeatPass.RepeatExample` | gjm-converter/src/main/java/ca/kieve/sologjm/GjmBuilder.java:799-808 | m0..m3 with section (1, 2, times 1) play as m0 m1 m2 m1 m2 m3 |
| `RepeatPass.SectionLength` | gjm-converter/src/main/java/ca/kieve/sologjm/GjmBuilder.java:804-808 | a section inside the list adds its length once, plus `times` more copies |
| `RepeatPass.ExpandLength` | gjm-converter/src/main/java/ca/kieve/sologjm/GjmBuilder.java:790-819 | with ordered sections inside the list, the expansion has the original measures plus `times` copies of each section |
| `RepeatPass.AppendRange` | gjm-converter/src/main/java/ca/kieve/sologjm/GjmBuilder.java:795-797 | the copy loop appends measures lo..hi-1 in order, or fails on an index outside the list |
| `RepeatPass.AppendSection` | gjm-converter/src/main/java/ca/kieve/sologjm/GjmBuilder.java:804-808 | the count loop appends the section `times + 1` times (none for negative times) |
| `RepeatPass.ExpandMeasures` | gjm-converter/src/main/java/ca/kieve/sologjm/GjmBuilder.java:790-819 | the loops of `applyRepeats` compute exactly `Expand(ms, reps, 0)`, failures included |
| `Render.UnitMsIsNearest` | gjm-converter/src/main/java/ca/kieve/sologjm/GjmBuilder.java:947-948 | the tick duration is 7500 / bpm rounded to the nearest integer, halves up |
| `Render.RoundIsNearest` | gjm-converter/src/main/java/ca/kieve/sologjm/GjmBuilder.java:947-951 | rounding gives the nearest integer |
| `Render.DurationGrowsWithMultiplier` | gjm-converter/src/main/java/ca/kieve/sologjm/GjmBuilder.java:947-948 | an unswung longer class never plays shorter, and plays strictly longer when a tick lasts at least 1 ms |
| `Render.SwingDurations` | gjm-converter/src/main/java/ca/kieve/sologjm/GjmBuilder.java:947-951 | a swung eighth pair plays 10, 5 and 6 tick durations |
| `Render.TieTag` | gjm-converter/src/main/java/ca/kieve/sologjm/GjmBuilder.java:913-923 | the tie tag is Both, Start, End or absent, each exactly in its case |
| `Render.ExplicitAccidentalWins` | gjm-converter/src/main/java/ca/kieve/sologjm/GjmBuilder.java:968-982 | an explicit accidental decides the pitch index whatever the key, and its tag is written |
| `Render.KeySignatureInference` | gjm-converter/src/main/java/ca/kieve/sologjm/GjmBuilder.java:968-973 | without an accidental the key lowers, raises or keeps the step, each in exactly its case; the tag is NoControl |
| `Render.MiddleC` | gjm-converter/src/main/java/ca/kieve/sologjm/GjmBuilder.java:962-963 | C4 in C major is pitch index 40 |
| `Render.DefaultKeyLowersOnlyB` | gjm-converter/src/main/java/ca/kieve/sologjm/GjmBuilder.java:968-973 | in the default key -1 only B is lowered |
| `Render.OctaveIsTwelve` | gjm-converter/src/main/java/ca/kieve/sologjm/GjmBuilder.java:962-982 | one octave up is twelve pitch indices up |
| `Render.UnswungStampIsTicks` | gjm-converter/src/main/java/ca/kieve/sologjm/GjmBuilder.java:1013-1017 | for unswung notes the stamp index is the running sum of their ticks |
| `Render.StampsIncrease` | gjm-converter/src/main/java/ca/kieve/sologjm/GjmBuilder.java:909-1017 | stamp indices start at 0 and strictly increase when every note advances |
| `Render.PitchesLines` | gjm-converter/src/main/java/ca/kieve/sologjm/GjmBuilder.java:961-1008 | one pitch entry line per pitch |
| `Render.ThirdTrackBlocks` | gjm-converter/src/main/java/ca/kieve/sologjm/GjmBuilder.java:891-899 | track 2 writes one identical empty block per measure, every one labelled [0] |
| `Render.NoteTrackBlocks` | gjm-converter/src/main/java/ca/kieve/sologjm/GjmBuilder.java:891-906 | tracks 0 and 1 write one block per measure, labelled with its position, holding that track's notes |
| `Render.NoteBlockSize` | gjm-converter/src/main/java/ca/kieve/sologjm/GjmBuilder.java:910-1012 | a note block has 3 to 9 field lines, one line per pitch and four brace lines |
| `Writer.WritePitches` | gjm-converter/src/main/java/ca/kieve/sologjm/GjmBuilder.java:960-1008 | the pitch loop appends exactly `PitchesLines` of the note's pitches |
| `Writer.WriteOptional` | gjm-converter/src/main/java/ca/kieve/sologjm/GjmBuilder.java:925-935 | a flag line is written exactly when its flag is set |
| `Writer.WriteTie` | gjm-converter/src/main/java/ca/kieve/sologjm/GjmBuilder.java:913-923 | appends the tie line, if any |
| `Writer.WriteDurationType` | gjm-converter/src/main/java/ca/kieve/sologjm/GjmBuilder.java:937-939 | appends the duration-type line for every class but the quarter |
| `Writer.WriteFlags` | gjm-converter/src/main/java/ca/kieve/sologjm/GjmBuilder.java:913-943 | appends the tie, triplet, rest, dotted, class and arpeggio lines in order |
| `Writer.WriteTiming` | gjm-converter/src/main/java/ca/kieve/sologjm/GjmBuilder.java:945-958 | appends the stamp index, playing duration and pitch count lines |
| `Writer.WriteNoteFields` | gjm-converter/src/main/java/ca/kieve/sologjm/GjmBuilder.java:913-958 | appends the note's fields before its pitch table |
| `Writer.WritePitchSection` | gjm-converter/src/main/java/ca/kieve/sologjm/GjmBuilder.java:959-1009 | appends the `ClassicPitchSign` table |
| `Writer.WriteNote` | gjm-converter/src/main/java/ca/kieve/sologjm/GjmBuilder.java:911-1012 | appends one note block |
| `Writer.WriteNotes` | gjm-converter/src/main/java/ca/kieve/sologjm/GjmBuilder.java:908-1019 | the note loop appends the note blocks, each stamped with the advances of the notes before it |
| `Writer.WriteMeasure` | gjm-converter/src/main/java/ca/kieve/sologjm/GjmBuilder.java:893-906 | appends one measure block of track 0 or 1 |
| `Writer.WriteEmptyMeasure` | gjm-converter/src/main/java/ca/kieve/sologjm/GjmBuilder.java:893-898 | appends one measure block of track 2 |
| `Writer.WriteMeasures` | gjm-converter/src/main/java/ca/kieve/sologjm/GjmBuilder.java:891-1023 | the measure loop appends the blocks of one track, with labels that track 2 never advances |
| `Writer.WriteMap` | gjm-converter/src/main/java/ca/kieve/sologjm/GjmBuilder.java:875-877 | appends a single-entry map block |
| `Writer.WriteTrackMaps` | gjm-converter/src/main/java/ca/kieve/sologjm/GjmBuilder.java:874-889 | appends the five maps opening a track |
| `Writer.WriteTrackBlock` | gjm-converter/src/main/java/ca/kieve/sologjm/GjmBuilder.java:865-1026 | appends one whole track block |
| `Writer.WriteHeader` | gjm-converter/src/main/java/ca/kieve/sologjm/GjmBuilder.java:833-850 | appends the header block |
| `Writer.WriteMetadata` | gjm-converter/src/main/java/ca/kieve/sologjm/GjmBuilder.java:836-844 | appends the metadata lines |
| `Writer.WriteDocument` | gjm-converter/src/main/java/ca/kieve/sologjm/GjmBuilder.java:831-862 | from an empty writer, writes exactly `GjmLines`: the header, then tracks 0, 1 and 2 with their clefs and volumes |
| `Builder.ReadTies` | gjm-converter/src/main/java/ca/kieve/sologjm/GjmBuilder.java:557-564 | tie start is set exactly when a start tie occurs, tie end exactly when a stop tie occurs |
| `Builder.ShapeNote` | gjm-converter/src/main/java/ca/kieve/sologjm/GjmBuilder.java:485-573 | builds the note and its padding as `NoteOf` and `PaddingOf` say |
| `Builder.FindChordTarget` | gjm-converter/src/main/java/ca/kieve/sologjm/GjmBuilder.java:584-593 | the backward scan finds `ChordTarget`, or -1 on an empty track |
| `Builder.PlaceNote` | gjm-converter/src/main/java/ca/kieve/sologjm/GjmBuilder.java:575-605 | places the note as `Place` says: chord merge or append, then the padding |
| `Builder.GjmBuilder.constructor` | gjm-converter/src/main/java/ca/kieve/sologjm/GjmBuilder.java:223-248 | stores the settings; key and beats are -1, no clefs, no measures, no repeats |
| `Builder.GjmBuilder.NextMeasure` | gjm-converter/src/main/java/ca/kieve/sologjm/GjmBuilder.java:261-266 | seals the open measure and opens an empty one; the id counts the sealed measures and every closed section is sealed |
| `Builder.GjmBuilder.ParseAttributes` | gjm-converter/src/main/java/ca/kieve/sologjm/GjmBuilder.java:268-327 | key overwrite; a second time signature refused with nothing else changed; beats recorded before the beat-unit check; clefs set only on success |
| `Builder.GjmBuilder.ParseForward` | gjm-converter/src/main/java/ca/kieve/sologjm/GjmBuilder.java:351-353 | a forward element is refused |
| `Builder.GjmBuilder.ParseBarline` | gjm-converter/src/main/java/ca/kieve/sologjm/GjmBuilder.java:355-391 | the repeat state moves as `BarlineStep` says; a refused barline changes nothing; the ingestion invariant is kept |
| `Builder.GjmBuilder.ParseNote` | gjm-converter/src/main/java/ca/kieve/sologjm/GjmBuilder.java:393-606 | the open measure moves as `NoteStep` says; a refused note leaves it unchanged |
| `Builder.GjmBuilder.ApplySwing` | gjm-converter/src/main/java/ca/kieve/sologjm/GjmBuilder.java:715-720 | the measures become `SwingMeasures` of the old measures |
| `Builder.GjmBuilder.ApplyRepeats` | gjm-converter/src/main/java/ca/kieve/sologjm/GjmBuilder.java:790-819 | the measures become their expansion, or a failure leaves them as they were |
| `Builder.GjmBuilder.PostProcess` | gjm-converter/src/main/java/ca/kieve/sologjm/GjmBuilder.java:821-829 | swing when enabled, then repeat expansion |
| `Builder.GjmBuilder.WriteGjm` | gjm-converter/src/main/java/ca/kieve/sologjm/GjmBuilder.java:831-863 | with both clefs set, the document is the text of `GjmLines` with a tab indent; otherwise `MissingClef` |
| `Driver.ParseElement` | gjm-converter/src/main/java/ca/kieve/sologjm/MxlParser.java:100-119 | dispatches an element to the builder; keeps the ingestion invariant; refuses forward; only attributes set clefs |
| `Driver.ParseMeasure` | gjm-converter/src/main/java/ca/kieve/sologjm/MxlParser.java:100-121 | the elements of one measure, then the break; on success the measure is sealed and held no forward element |
| `Driver.ParsePart` | gjm-converter/src/main/java/ca/kieve/sologjm/MxlParser.java:90-123 | the measures of one part in order, with the same guarantees |
| `Driver.PostProcessAndWrite` | gjm-converter/src/main/java/ca/kieve/sologjm/MxlParser.java:125-127 | after ingestion the passes never fail; a document is written exactly when the clefs are set |
| `Driver.Convert` | gjm-converter/src/main/java/ca/kieve/sologjm/MxlParser.java:87-127 | repeat expansion never runs out of measures; a document needs no forward element and some attributes element |

## Left out

- Console output is not modelled: the `p` debug dumps, warnings and progress lines. So
  `parseDirection` and `parseBackup` do nothing in the model; they only print.
- The many `uo` checks and the unknown-notation and articulation checks of `parseNote` are
  folded into one input flag, `hasUnsupportedFeature`. They all throw the same kind of
  exception before anything is changed.
- The MusicXML (JAXB) object tree, the zip reading and unmarshalling of `MxlParser`, and
  `MainController` are not part of this model. The parts, measures and elements arrive as
  already-parsed datatypes.
- `BigInteger` and `BigDecimal` values are taken as already-read ints. The fifths, the
  repeat times and the integer part of `<alter>` are treated this way. `Integer.parseInt`
  of the time signature is assumed to succeed, and the model does not wrap int overflow.
- A MusicXML accidental other than flat, natural and sharp is one value, `AccOther`.
- `Builder.GjmBuilder.constructor`: takes the tempo as `Bpm`, a positive int. The source
  accepts any int and divides by it in floating point.
- The playing duration is computed on doubles in the source. The model uses exact rationals
  with the same half-up rounding, so a double rounding error at an exact half is not
  modelled.
- The source adds a null pitch to a chord when a chorded note has no `<pitch>`. That null
  fails later, in the writer. The model refuses such a note at once (`ChordWithoutPitch`).
- A missing `<staff>` makes the source throw a NullPointerException. The model reports it
  as `MissingStaff`.
- A `<repeat>` without a direction is not modelled. Its times would be applied to whatever
  repeat is open, or throw when none is open.
- `Builder.GjmBuilder.WriteGjm`: without clefs the source throws part-way through writing
  track 0. The model reports `MissingClef` and writes nothing.
- The `StringBuilder` is modelled as the list of pieces appended. `String.format` calls are
  written out as string concatenation with the same text. `"0." + volume` uses the int's
  decimal text.
- `m_beatsUnit` is never read by the source and is not modelled.
- `deepClone` is not a separate operation. Values are never shared, so each copy is the
  same value.
- `Driver.ParseElement`, `Driver.ParseMeasure` and `Driver.ParsePart` state the ingestion
  invariant and what refuses. They do not restate the builder's per-element effects, which
  the builder methods' own contracts give.
- `Driver.PostProcessAndWrite`: states that the passes cannot fail and when a document is
  produced. The document itself is given by `Builder.GjmBuilder.WriteGjm`.
- `Driver.Convert`: states when a conversion can succeed. It does not state the exact
  document as a function of the parts.
