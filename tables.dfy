/** The closed lookup tables of the transcoder: note durations, diatonic steps, explicit
    accidentals and clefs. */
module Tables {
  import opened Wrappers

  /** Duration classes, in declaration order (shortest first). */
  datatype NoteType = ThirtySecond | Sixteenth | Eighth | Quarter | Half | Whole

  /** `_NoteType.values()`: the order in which the lookups search. */
  const AllNoteTypes: seq<NoteType> := [ThirtySecond, Sixteenth, Eighth, Quarter, Half, Whole]

  /** The MusicXML name of a duration class. */
  function MxlId(t: NoteType): string {
    match t
    case ThirtySecond => "32nd"
    case Sixteenth => "16th"
    case Eighth => "eighth"
    case Quarter => "quarter"
    case Half => "half"
    case Whole => "whole"
  }

  /** The GJM duration tag; the quarter note has none (it is the format's default). */
  function GjmId(t: NoteType): (r: Option<string>)
    ensures r.None? <==> t == Quarter
  {
    match t
    case ThirtySecond => Some("The32nd")
    case Sixteenth => Some("The16th")
    case Eighth => Some("Eighth")
    case Quarter => None
    case Half => Some("Half")
    case Whole => Some("Whole")
  }

  /** Length in ticks, where a 64th note is one tick. */
  function Multiplier(t: NoteType): int {
    match t
    case ThirtySecond => 2
    case Sixteenth => 4
    case Eighth => 8
    case Quarter => 16
    case Half => 32
    case Whole => 64
  }

  function Pow2(k: nat): (r: nat)
    ensures r >= 1
  {
    if k == 0 then 1 else 2 * Pow2(k - 1)
  }

  /** Position of a duration class in declaration order. */
  function Rank(t: NoteType): (k: nat)
    ensures k < |AllNoteTypes| && AllNoteTypes[k] == t
  {
    match t
    case ThirtySecond => 0
    case Sixteenth => 1
    case Eighth => 2
    case Quarter => 3
    case Half => 4
    case Whole => 5
  }

  /** Rank and the listing invert each other. */
  lemma RankOfListed(k: nat)
    requires k < |AllNoteTypes|
    ensures Rank(AllNoteTypes[k]) == k
  {
  }

  /** Each duration class is twice the previous one, starting at 2 ticks: the binary
      subdivision staccato relies on. */
  lemma MultiplierIsPowerOfTwo(t: NoteType)
    ensures Multiplier(t) == Pow2(Rank(t) + 1)
  {
    assert Pow2(1) == 2 && Pow2(2) == 4 && Pow2(3) == 8;
    assert Pow2(4) == 16 && Pow2(5) == 32 && Pow2(6) == 64;
  }

  /** A longer class in declaration order has more ticks, so a multiplier names one class. */
  lemma MultiplierStrictlyIncreasing(t: NoteType, u: NoteType)
    ensures Rank(t) < Rank(u) <==> Multiplier(t) < Multiplier(u)
    ensures Multiplier(t) == Multiplier(u) ==> t == u
  {
  }

  lemma AllNoteTypesListed()
    ensures forall t :: t in AllNoteTypes
  {
    forall t ensures t in AllNoteTypes {
      assert AllNoteTypes[Rank(t)] == t;
    }
  }

  /** Searches `types` in order for the class named `mxlId`, as `_NoteType.fromMxl` walks
      `values()`; None stands for its UnsupportedOperationException. */
  function FindMxl(types: seq<NoteType>, mxlId: string): (r: Option<NoteType>)
    ensures r.Some? ==> r.value in types && MxlId(r.value) == mxlId
    ensures r.None? ==> forall t :: t in types ==> MxlId(t) != mxlId
  {
    if types == [] then None
    else if MxlId(types[0]) == mxlId then Some(types[0])
    else FindMxl(types[1..], mxlId)
  }

  function FromMxl(mxlId: string): (r: Option<NoteType>)
    ensures r.Some? <==> exists t :: MxlId(t) == mxlId
    ensures r.Some? ==> MxlId(r.value) == mxlId
  {
    AllNoteTypesListed();
    FindMxl(AllNoteTypes, mxlId)
  }

  /** Searches `types` in order for the class of `ticks` ticks, as
      `_NoteType.fromDurationMultiplier` does. */
  function FindMultiplier(types: seq<NoteType>, ticks: int): (r: Option<NoteType>)
    ensures r.Some? ==> r.value in types && Multiplier(r.value) == ticks
    ensures r.None? ==> forall t :: t in types ==> Multiplier(t) != ticks
  {
    if types == [] then None
    else if Multiplier(types[0]) == ticks then Some(types[0])
    else FindMultiplier(types[1..], ticks)
  }

  function FromDurationMultiplier(ticks: int): (r: Option<NoteType>)
    ensures r.Some? <==> exists t :: Multiplier(t) == ticks
    ensures r.Some? ==> Multiplier(r.value) == ticks
  {
    AllNoteTypesListed();
    FindMultiplier(AllNoteTypes, ticks)
  }

  /** Both lookups invert their table. */
  lemma LookupsRoundTrip(t: NoteType)
    ensures FromMxl(MxlId(t)) == Some(t)
    ensures FromDurationMultiplier(Multiplier(t)) == Some(t)
  {
    var a := FromMxl(MxlId(t));
    var b := FromDurationMultiplier(Multiplier(t));
    MultiplierStrictlyIncreasing(t, b.value);
  }

  /** The seven diatonic steps. */
  datatype Step = C | D | E | F | G | A | B

  /** Scale-degree number written as `NumberedSign`. */
  function Sign(s: Step): int {
    match s
    case C => 1 case D => 2 case E => 3 case F => 4 case G => 5 case A => 6 case B => 7
  }

  /** Semitones above C. */
  function PitchOffset(s: Step): int {
    match s
    case C => 0 case D => 2 case E => 4 case F => 5 case G => 7 case A => 9 case B => 11
  }

  /** Position of the step in the order in which sharps are added to a key signature. */
  function SharpScale(s: Step): int {
    match s
    case C => 2 case D => 4 case E => 6 case F => 1 case G => 3 case A => 5 case B => 7
  }

  /** Position of the step in the order in which flats are added to a key signature. */
  function FlatScale(s: Step): int {
    match s
    case C => 6 case D => 4 case E => 2 case F => 7 case G => 5 case A => 3 case B => 1
  }

  const AllSteps: seq<Step> := [C, D, E, F, G, A, B]

  /** The flats are added in the reverse order of the sharps (F C G D A E B against
      B E A D G C F), and each rank 1..7 belongs to exactly one step. */
  lemma ScaleRanks(s: Step, u: Step)
    ensures FlatScale(s) == 8 - SharpScale(s)
    ensures 1 <= SharpScale(s) <= 7
    ensures SharpScale(s) == SharpScale(u) ==> s == u
    ensures Sign(s) == Sign(u) ==> s == u
    ensures 0 <= PitchOffset(s) < 12
  {
  }

  /** How many of `steps` a key of `k` sharps alters. */
  function CountSharpened(steps: seq<Step>, k: int): nat {
    if steps == [] then 0
    else (if SharpScale(steps[0]) <= k then 1 else 0) + CountSharpened(steps[1..], k)
  }

  /** How many of `steps` a key of `k` flats alters. */
  function CountFlattened(steps: seq<Step>, k: int): nat {
    if steps == [] then 0
    else (if FlatScale(steps[0]) <= k then 1 else 0) + CountFlattened(steps[1..], k)
  }

  /** Circle of fifths: a key signature of k sharps, 0 <= k <= 7, alters exactly k of the
      seven steps. */
  lemma SharpKeyAltersKSteps(k: int)
    requires 0 <= k <= 7
    ensures CountSharpened(AllSteps, k) == k
  {
    var s := AllSteps;
    assert CountSharpened(s[6..], k) == (if 7 <= k then 1 else 0) by { assert s[6..][1..] == []; }
    assert CountSharpened(s[5..], k) == (if 5 <= k then 1 else 0) + CountSharpened(s[6..], k) by { assert s[5..][1..] == s[6..]; }
    assert CountSharpened(s[4..], k) == (if 3 <= k then 1 else 0) + CountSharpened(s[5..], k) by { assert s[4..][1..] == s[5..]; }
    assert CountSharpened(s[3..], k) == (if 1 <= k then 1 else 0) + CountSharpened(s[4..], k) by { assert s[3..][1..] == s[4..]; }
    assert CountSharpened(s[2..], k) == (if 6 <= k then 1 else 0) + CountSharpened(s[3..], k) by { assert s[2..][1..] == s[3..]; }
    assert CountSharpened(s[1..], k) == (if 4 <= k then 1 else 0) + CountSharpened(s[2..], k) by { assert s[1..][1..] == s[2..]; }
    assert CountSharpened(s, k) == (if 2 <= k then 1 else 0) + CountSharpened(s[1..], k);
  }

  /** A key signature of k flats, 0 <= k <= 7, alters exactly k of the seven steps. */
  lemma FlatKeyAltersKSteps(k: int)
    requires 0 <= k <= 7
    ensures CountFlattened(AllSteps, k) == k
  {
    var s := AllSteps;
    assert CountFlattened(s[6..], k) == (if 1 <= k then 1 else 0) by { assert s[6..][1..] == []; }
    assert CountFlattened(s[5..], k) == (if 3 <= k then 1 else 0) + CountFlattened(s[6..], k) by { assert s[5..][1..] == s[6..]; }
    assert CountFlattened(s[4..], k) == (if 5 <= k then 1 else 0) + CountFlattened(s[5..], k) by { assert s[4..][1..] == s[5..]; }
    assert CountFlattened(s[3..], k) == (if 7 <= k then 1 else 0) + CountFlattened(s[4..], k) by { assert s[3..][1..] == s[4..]; }
    assert CountFlattened(s[2..], k) == (if 2 <= k then 1 else 0) + CountFlattened(s[3..], k) by { assert s[2..][1..] == s[3..]; }
    assert CountFlattened(s[1..], k) == (if 4 <= k then 1 else 0) + CountFlattened(s[2..], k) by { assert s[1..][1..] == s[2..]; }
    assert CountFlattened(s, k) == (if 6 <= k then 1 else 0) + CountFlattened(s[1..], k);
  }

  /** Explicit accidentals the transcoder accepts, with their GJM tags. */
  datatype Accidental = Flat | Natural | Sharp

  function GjmString(a: Accidental): string {
    match a
    case Flat => "Flat"
    case Natural => "Natural"
    case Sharp => "Sharp"
  }

  /** Clef types as GJM names them (`_Clef.toString()`). */
  datatype Clef = L2G | L4F

  function ClefName(c: Clef): string {
    match c
    case L2G => "L2G"
    case L4F => "L4F"
  }
}
