/** The order in which the converter drives the builder: every element of every measure
    of every part, a measure break after each measure, then the rewriting passes and the
    document. */
module Driver {
  import opened Wrappers
  import opened Score
  import opened SwingPass
  import opened Ingest
  import opened Render
  import opened Builder

  /** The settings the converter is started with. */
  datatype Settings = Settings(name: string, author: string, bpm: Bpm, trackVolume1: int,
                               trackVolume2: int, swingBeat: bool, octaveOffset1: int, octaveOffset2: int)

  /** One element dispatched to the builder. Print, direction, backup and unknown
      elements change nothing; a forward element is refused. */
  method ParseElement(b: GjmBuilder, e: Element) returns (outcome: Outcome<BuildError>)
    requires b.Valid()
    modifies b`key, b`beatsPerMeasure, b`clef1, b`clef2, b`currentMeasure, b`repeats, b`currentRepeat
    ensures b.Valid()
    ensures e.ForwardElement? ==> outcome.Fail?
    ensures outcome != Fail(MeasureIndexOutOfRange)
    ensures !e.AttributesElement? ==> b.clef1 == old(b.clef1)
  {
    match e
    case AttributesElement(a) =>
      outcome := b.ParseAttributes(a);
    case NoteElement(n) =>
      outcome := b.ParseNote(n);
    case ForwardElement =>
      outcome := b.ParseForward();
    case BarlineElement(barline) =>
      outcome := b.ParseBarline(barline);
    case _ =>
      outcome := Pass;
  }

  /** Whether a forward element occurs in some measure of some part. */
  ghost predicate SomeForward(parts: seq<seq<seq<Element>>>) {
    exists p, m, e :: 0 <= p < |parts| && 0 <= m < |parts[p]| && 0 <= e < |parts[p][m]| && parts[p][m][e].ForwardElement?
  }

  /** Whether an attributes element occurs in some measure of some part. */
  ghost predicate SomeAttributes(parts: seq<seq<seq<Element>>>) {
    exists p, m, e :: 0 <= p < |parts| && 0 <= m < |parts[p]| && 0 <= e < |parts[p][m]| && parts[p][m][e].AttributesElement?
  }

  /** The elements of one measure, then the measure break. A refused element stops the
      measure; otherwise the measure is sealed, and neither a forward element was met nor
      a clef set without an attributes element. */
  method ParseMeasure(b: GjmBuilder, elements: seq<Element>) returns (outcome: Outcome<BuildError>)
    requires b.Valid() && Sealed(RepeatState(b.repeats, b.currentRepeat), b.currentMeasureId)
    modifies b`key, b`beatsPerMeasure, b`clef1, b`clef2, b`currentMeasure, b`repeats, b`currentRepeat
    modifies b`currentMeasureId, b`measures
    ensures b.Valid()
    ensures outcome != Fail(MeasureIndexOutOfRange)
    ensures outcome.Pass? ==> Sealed(RepeatState(b.repeats, b.currentRepeat), b.currentMeasureId)
    ensures outcome.Pass? ==> forall e :: 0 <= e < |elements| ==> !elements[e].ForwardElement?
    ensures b.clef1.Some? ==> old(b.clef1).Some? || exists e :: 0 <= e < |elements| && elements[e].AttributesElement?
  {
    var k := 0;
    while k < |elements|
      invariant 0 <= k <= |elements|
      invariant b.Valid()
      invariant b.currentMeasureId == old(b.currentMeasureId) && b.measures == old(b.measures)
      invariant forall e :: 0 <= e < k ==> !elements[e].ForwardElement?
      invariant b.clef1.Some? ==> old(b.clef1).Some? || exists e :: 0 <= e < k && elements[e].AttributesElement?
    {
      outcome := ParseElement(b, elements[k]);
      if outcome.Fail? {
        return;
      }
      k := k + 1;
    }
    b.NextMeasure();
    outcome := Pass;
  }

  /** The measures of one part, in order. */
  method ParsePart(b: GjmBuilder, measures: seq<seq<Element>>) returns (outcome: Outcome<BuildError>)
    requires b.Valid() && Sealed(RepeatState(b.repeats, b.currentRepeat), b.currentMeasureId)
    modifies b`key, b`beatsPerMeasure, b`clef1, b`clef2, b`currentMeasure, b`repeats, b`currentRepeat
    modifies b`currentMeasureId, b`measures
    ensures b.Valid()
    ensures outcome != Fail(MeasureIndexOutOfRange)
    ensures outcome.Pass? ==> Sealed(RepeatState(b.repeats, b.currentRepeat), b.currentMeasureId)
    ensures outcome.Pass? ==>
      forall m, e :: 0 <= m < |measures| && 0 <= e < |measures[m]| ==> !measures[m][e].ForwardElement?
    ensures b.clef1.Some? ==> (old(b.clef1).Some? ||
      exists m, e :: 0 <= m < |measures| && 0 <= e < |measures[m]| && measures[m][e].AttributesElement?)
  {
    var m := 0;
    while m < |measures|
      invariant 0 <= m <= |measures|
      invariant b.Valid() && Sealed(RepeatState(b.repeats, b.currentRepeat), b.currentMeasureId)
      invariant forall m', e :: 0 <= m' < m && 0 <= e < |measures[m']| ==> !measures[m'][e].ForwardElement?
      invariant b.clef1.Some? ==> (old(b.clef1).Some? ||
        exists m', e :: 0 <= m' < m && 0 <= e < |measures[m']| && measures[m'][e].AttributesElement?)
    {
      outcome := ParseMeasure(b, measures[m]);
      if outcome.Fail? {
        return;
      }
      m := m + 1;
    }
    outcome := Pass;
  }

  /** After the last measure: the rewriting passes, then the document. Since every
      closed repeat section lies inside the sealed measures, the passes cannot fail; the
      document needs the clefs. */
  method PostProcessAndWrite(b: GjmBuilder) returns (r: Result<string, BuildError>)
    requires b.Valid() && Sealed(RepeatState(b.repeats, b.currentRepeat), b.currentMeasureId)
    modifies b`measures
    ensures r != Err(MeasureIndexOutOfRange)
    ensures r.Ok? <==> b.clef1.Some?
  {
    ghost var swung := if b.swingBeat then SwingMeasures(b.measures) else b.measures;
    assert |swung| == |b.measures|;
    SealedRepeatsExpand(RepeatState(b.repeats, b.currentRepeat), swung);
    var post := b.PostProcess();
    if post.Fail? {
      // The sealed repeat sections lie inside the measures, so expansion cannot fail.
      assert false;
    }
    r := b.WriteGjm();
  }

  /** The whole conversion: every measure of every part, then swing and repeats, then the
      document. The repeat expansion never runs out of measures; a document is produced
      only when no forward element occurs and some attributes element sets the clefs. */
  method Convert(s: Settings, parts: seq<seq<seq<Element>>>) returns (r: Result<string, BuildError>)
    ensures r != Err(MeasureIndexOutOfRange)
    ensures r.Ok? ==> !SomeForward(parts)
    ensures r.Ok? ==> SomeAttributes(parts)
  {
    var b := new GjmBuilder(s.name, s.author, s.bpm, s.trackVolume1, s.trackVolume2,
                            s.swingBeat, s.octaveOffset1, s.octaveOffset2);
    var p := 0;
    while p < |parts|
      invariant 0 <= p <= |parts|
      invariant b.Valid() && Sealed(RepeatState(b.repeats, b.currentRepeat), b.currentMeasureId)
      invariant forall q, m, e :: 0 <= q < p && 0 <= m < |parts[q]| && 0 <= e < |parts[q][m]| ==> !parts[q][m][e].ForwardElement?
      invariant b.clef1.Some? ==> SomeAttributes(parts)
    {
      var outcome := ParsePart(b, parts[p]);
      if outcome.Fail? {
        return Err(outcome.error);
      }
      p := p + 1;
    }
    assert !SomeForward(parts);
    r := PostProcessAndWrite(b);
  }
}
