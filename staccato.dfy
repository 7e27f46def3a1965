/** Staccato emulation: the note is cut to a 32nd and the rest of its time is padded with
    rests, one of each shorter class. */
module StaccatoPass {
  import opened Wrappers
  import opened Tables
  import opened Score

  /** A new rest of class `t`. */
  function RestOf(t: NoteType): Note {
    NewNote(t).(isRest := true)
  }

  /** The padding for a note of class `t`: one rest of every class shorter than `t`,
      shortest first. */
  function StaccatoRests(t: NoteType): (r: seq<Note>)
    ensures |r| == Rank(t)
    ensures forall k :: 0 <= k < |r| ==> r[k] == RestOf(AllNoteTypes[k])
  {
    seq(Rank(t), k requires 0 <= k < Rank(t) => RestOf(AllNoteTypes[k]))
  }

  /** Total ticks of a list of notes. */
  function TotalTicks(notes: seq<Note>): int {
    if notes == [] then 0 else TotalTicks(notes[..|notes| - 1]) + Multiplier(notes[|notes| - 1].noteType)
  }

  lemma Pow2Increasing(a: nat, b: nat)
    ensures a < b <==> Pow2(a) < Pow2(b)
    decreases a + b
  {
    if a > 0 && b > 0 {
      Pow2Increasing(a - 1, b - 1);
    } else if a == 0 && b > 0 {
      Pow2Increasing(0, b - 1);
    } else if b == 0 && a > 0 {
      Pow2Increasing(a - 1, 0);
    }
  }

  lemma {:induction false} PrefixTicks(t: NoteType, n: nat)
    requires n <= Rank(t)
    ensures 2 + TotalTicks(StaccatoRests(t)[..n]) == Pow2(n + 1)
  {
    var rests := StaccatoRests(t);
    if n > 0 {
      PrefixTicks(t, n - 1);
      assert rests[..n][..n - 1] == rests[..n - 1];
      RankOfListed(n - 1);
      MultiplierIsPowerOfTwo(AllNoteTypes[n - 1]);
    }
  }

  /** The padding completes the note: a 32nd plus the rests last exactly as long as the
      original note. */
  lemma StaccatoKeepsLength(t: NoteType)
    ensures Multiplier(ThirtySecond) + TotalTicks(StaccatoRests(t)) == Multiplier(t)
  {
    PrefixTicks(t, Rank(t));
    assert StaccatoRests(t)[..Rank(t)] == StaccatoRests(t);
    MultiplierIsPowerOfTwo(t);
  }

  /** The padding holds rests only, their classes strictly increase, and they are exactly
      the classes shorter than the note's, each once. */
  lemma StaccatoRestClasses(t: NoteType)
    ensures forall k :: 0 <= k < |StaccatoRests(t)| ==> StaccatoRests(t)[k].isRest
    ensures forall j, k :: 0 <= j < k < |StaccatoRests(t)| ==>
      Multiplier(StaccatoRests(t)[j].noteType) < Multiplier(StaccatoRests(t)[k].noteType)
    ensures forall u :: Rank(u) < Rank(t) <==> exists k :: 0 <= k < |StaccatoRests(t)| && StaccatoRests(t)[k].noteType == u
  {
    var rests := StaccatoRests(t);
    forall j, k | 0 <= j < k < |rests|
      ensures Multiplier(rests[j].noteType) < Multiplier(rests[k].noteType)
    {
      RankOfListed(j);
      RankOfListed(k);
      MultiplierStrictlyIncreasing(AllNoteTypes[j], AllNoteTypes[k]);
    }
    forall u ensures Rank(u) < Rank(t) <==> exists k :: 0 <= k < |rests| && rests[k].noteType == u {
      if Rank(u) < Rank(t) {
        assert rests[Rank(u)].noteType == u;
      }
    }
  }

  /** While the doubled multiplier is still below the note's, it names the next shorter
      class in order. */
  lemma StaccatoStep(t: NoteType, n: nat)
    requires Pow2(n + 1) < Multiplier(t)
    ensures n < Rank(t)
    ensures FromDurationMultiplier(Pow2(n + 1)) == Some(AllNoteTypes[n])
  {
    MultiplierIsPowerOfTwo(t);
    Pow2Increasing(n + 1, Rank(t) + 1);
    RankOfListed(n);
    MultiplierIsPowerOfTwo(AllNoteTypes[n]);
    LookupsRoundTrip(AllNoteTypes[n]);
  }

  /** The padding grows one rest at a time, in order. */
  lemma StaccatoRestsExtend(t: NoteType, n: nat)
    requires n < Rank(t)
    ensures StaccatoRests(t)[..n + 1] == StaccatoRests(t)[..n] + [RestOf(AllNoteTypes[n])]
  {
  }

  /** The doubling stops exactly when one rest per shorter class has been added. */
  lemma StaccatoStops(t: NoteType, n: nat)
    requires n <= Rank(t) && Pow2(n + 1) >= Multiplier(t)
    ensures n == Rank(t)
  {
    MultiplierIsPowerOfTwo(t);
    Pow2Increasing(n + 1, Rank(t) + 1);
  }

  /** Shortens `note` to a 32nd and returns the rests that pad it back to its length; a
      32nd note is left as it is with no padding. */
  method Staccato(note: Note) returns (shortened: Note, rests: seq<Note>)
    ensures note.noteType == ThirtySecond ==> shortened == note && rests == []
    ensures note.noteType != ThirtySecond ==>
      shortened == note.(noteType := ThirtySecond) && rests == StaccatoRests(note.noteType)
  {
    if Multiplier(note.noteType) == 2 {
      return note, [];
    }
    rests := [];
    var durationMultiplier := Multiplier(ThirtySecond);
    while durationMultiplier < Multiplier(note.noteType)
      invariant |rests| <= Rank(note.noteType)
      invariant durationMultiplier == Pow2(|rests| + 1)
      invariant rests == StaccatoRests(note.noteType)[..|rests|]
      decreases Multiplier(note.noteType) - durationMultiplier
    {
      StaccatoStep(note.noteType, |rests|);
      StaccatoRestsExtend(note.noteType, |rests|);
      var t := FromDurationMultiplier(durationMultiplier);
      rests := rests + [RestOf(t.value)];
      durationMultiplier := durationMultiplier * 2;
    }
    StaccatoStops(note.noteType, |rests|);
    shortened := note.(noteType := ThirtySecond);
  }
}
