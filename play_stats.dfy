/**
 The scoring economy of terminal-hero (terminal-hero/play-stats.go).

 A `PlayStats` object is the accumulator that the note-judging loop feeds with
 three kinds of events: a completed note or chord (`HitNote`), an expired note
 or chord (`MissNote`) and a spurious press (`OverhitNote`). From them it keeps
 grouped counters (a chord counts once), individual counters (every note of a
 chord counts), the best grouped streak, a score with a streak multiplier, and
 a health meter ("rock meter") that is capped at 1.0 and latches `failed` once
 it drops below 0.0. The pure part rates a finished play with 3 to 9 stars and
 counts the chords of a note list.
 */
module Scoring {

  /** Meter gained by a hit of one note, before the note-size multiplier. */
  const RockMeterIncrement: real := 0.02
  /** Meter lost by a miss of one note, before the note-size multiplier. */
  const RockMeterDecrement: real := 0.025
  /** Points for one note at multiplier 1. */
  const PointsPerNote: int := 50

  function Min(a: real, b: real): real { if a <= b then a else b }

  function MaxInt(a: int, b: int): int { if a >= b then a else b }

  function MinInt(a: int, b: int): int { if a <= b then a else b }

  // ---------------------------------------------------------------------------
  // Step functions
  // ---------------------------------------------------------------------------

  /**
   The score multiplier for a grouped streak: 1 below 10, then one more for
   every further 10 notes, up to 4 from 30 on.
   */
  function Multiplier(streak: int): (m: int)
    ensures 1 <= m <= 4
    ensures streak < 10 ==> m == 1
    ensures 0 <= streak ==> m == MinInt(streak / 10, 3) + 1
  {
    if streak < 10 then 1
    else if streak < 20 then 2
    else if streak < 30 then 3
    else 4
  }

  /** A longer streak never earns a smaller multiplier. */
  lemma MultiplierMonotone(a: int, b: int)
    requires a <= b
    ensures Multiplier(a) <= Multiplier(b)
  {
  }

  /**
   How much more a chord of `noteSize` notes moves the rock meter than a single
   note. Sizes outside 1..5 weigh like a single note.
   */
  function NoteSizeRockMeterMultiplier(noteSize: int): (r: real)
    ensures 1.0 <= r <= 2.0
    ensures r == 1.0 <==> !(2 <= noteSize <= 5)
  {
    match noteSize
    case 1 => 1.0
    case 2 => 1.2
    case 3 => 1.4
    case 4 => 1.7
    case 5 => 2.0
    case _ => 1.0
  }

  /** On chord sizes 1..5 a larger chord always weighs strictly more. */
  lemma NoteSizeRockMeterMultiplierIncreasing(a: int, b: int)
    requires 1 <= a < b <= 5
    ensures NoteSizeRockMeterMultiplier(a) < NoteSizeRockMeterMultiplier(b)
  {
  }

  // ---------------------------------------------------------------------------
  // Star rating
  // ---------------------------------------------------------------------------

  /**
   The average multiplier a play must exceed to earn `stars` stars, for
   4 <= stars <= 9: 2.0, 2.8, 3.6, 4.4, 5.2 and 6.0.
   */
  function StarThreshold(stars: int): real
  {
    (stars - 4) as real * 0.8 + 2.0
  }

  /**
   The star rating of `score` on a track of `totalNotes` notes: the average
   multiplier `score / (totalNotes * PointsPerNote)` is compared against the
   thresholds 6, 5.2, 4.4, 3.6, 2.8 and 2, from 9 stars down to a floor of 3.
   A zero total makes the floating-point quotient +Inf, NaN or -Inf for a
   positive, zero or negative score, which rates 9, 3 and 3 stars.
   */
  function CalcStarCount(score: int, totalNotes: int): (stars: int)
    ensures 3 <= stars <= 9
    ensures totalNotes > 0 ==>
      forall k :: 4 <= k <= 9 ==>
        (stars >= k <==> score as real > StarThreshold(k) * (totalNotes * PointsPerNote) as real)
    ensures totalNotes == 0 ==> stars == (if score > 0 then 9 else 3)
  {
    var baseScore := totalNotes * PointsPerNote;
    if baseScore == 0 then
      if score > 0 then 9 else 3
    else
      var averageMultiplier := score as real / baseScore as real;
      assert totalNotes > 0 ==> forall k :: 4 <= k <= 9 ==>
        (averageMultiplier > StarThreshold(k) <==> score as real > StarThreshold(k) * baseScore as real) by {
        if totalNotes > 0 {
          forall k | 4 <= k <= 9
            ensures averageMultiplier > StarThreshold(k) <==> score as real > StarThreshold(k) * baseScore as real
          {
            QuotientAbove(score as real, baseScore as real, StarThreshold(k));
          }
        }
      }
      if averageMultiplier > 6.0 then 9
      else if averageMultiplier > 5.2 then 8
      else if averageMultiplier > 4.4 then 7
      else if averageMultiplier > 3.6 then 6
      else if averageMultiplier > 2.8 then 5
      else if averageMultiplier > 2.0 then 4
      else 3
  }

  /** Comparing a quotient with a threshold is comparing the dividend with a product. */
  lemma QuotientAbove(x: real, b: real, t: real)
    requires b > 0.0
    ensures x / b > t <==> x > t * b
  {
    assert x == (x / b) * b;
  }

  /** On a track with notes, a higher score never rates fewer stars. */
  lemma StarCountMonotone(lower: int, higher: int, totalNotes: int)
    requires lower <= higher
    requires totalNotes >= 0
    ensures CalcStarCount(lower, totalNotes) <= CalcStarCount(higher, totalNotes)
  {
    var k := CalcStarCount(lower, totalNotes);
    if totalNotes > 0 && k >= 4 {
      var base := (totalNotes * PointsPerNote) as real;
      assert lower as real > StarThreshold(k) * base;
      assert higher as real > StarThreshold(k) * base;
    }
  }

  // ---------------------------------------------------------------------------
  // The accumulator
  // ---------------------------------------------------------------------------

  class PlayStats {
    var lastPlayedNoteIndex: int
    var totalNotes: int
    var notesHitGrouped: int
    var noteStreakGrouped: int
    var notesHitIndividials: int
    var noteStreakIndividuals: int
    /** Health: capped at 1.0 from above; a value below 0.0 fails the play. */
    var rockMeter: real
    var score: int
    var bestNoteStreakGrouped: int
    var failed: bool

    /**
     The bookkeeping every event keeps: the best streak bounds the current one,
     counters and score are not negative, the meter never exceeds 1.0, and a
     meter below 0.0 has failed the play.
     */
    ghost predicate Valid()
      reads this
    {
      && 0 <= noteStreakGrouped <= bestNoteStreakGrouped
      && 0 <= noteStreakIndividuals
      && 0 <= notesHitGrouped
      && 0 <= notesHitIndividials
      && 0 <= score
      && rockMeter <= 1.0
      && (rockMeter < 0.0 ==> failed)
    }

    /** A fresh play: no hits, no streak, no score, not failed. */
    constructor (lastPlayedNoteIndex: int, totalNotes: int, rockMeter: real)
      ensures this.lastPlayedNoteIndex == lastPlayedNoteIndex
      ensures this.totalNotes == totalNotes
      ensures this.rockMeter == rockMeter
      ensures notesHitGrouped == noteStreakGrouped == bestNoteStreakGrouped == 0
      ensures notesHitIndividials == noteStreakIndividuals == 0
      ensures score == 0 && !failed
      ensures 0.0 <= rockMeter <= 1.0 ==> Valid()
    {
      this.lastPlayedNoteIndex := lastPlayedNoteIndex;
      this.totalNotes := totalNotes;
      this.rockMeter := rockMeter;
      notesHitGrouped, noteStreakGrouped, bestNoteStreakGrouped := 0, 0, 0;
      notesHitIndividials, noteStreakIndividuals := 0, 0;
      score := 0;
      failed := false;
    }

    /** The score multiplier earned by the current grouped streak. */
    function GetMultiplier(): int
      reads this
    {
      Multiplier(noteStreakGrouped)
    }

    /** Note `j` of the track is still to be played. */
    ghost predicate NotePending(j: int)
      reads this
    {
      lastPlayedNoteIndex < j < totalNotes
    }

    /**
     True when the last note of the track has been played. While the index is
     on the track, that is exactly when no note remains to be played; an index
     past the end does not read as finished.
     */
    function Finished(): (done: bool)
      reads this
      ensures -1 <= lastPlayedNoteIndex < totalNotes ==> (done <==> forall j :: !NotePending(j))
      ensures lastPlayedNoteIndex >= totalNotes ==> !done
    {
      assert lastPlayedNoteIndex < totalNotes - 1 ==> NotePending(totalNotes - 1);

      lastPlayedNoteIndex == totalNotes - 1
    }

    /** The star rating of the current score on this track. */
    function StarCount(): (stars: int)
      reads this
      ensures 3 <= stars <= 9
      ensures totalNotes > 0 ==>
        (stars >= 4 <==> score as real > 2.0 * (totalNotes * PointsPerNote) as real)
    {
      assert StarThreshold(4) == 2.0;
      CalcStarCount(score, totalNotes)
    }

    /** Raise the meter by `amount`, capped at 1.0. */
    method IncreaseRockMeter(amount: real)
      modifies this`rockMeter
      ensures rockMeter == Min(1.0, old(rockMeter) + amount)
      ensures rockMeter <= 1.0
      ensures 0.0 <= amount && old(rockMeter) <= 1.0 ==> old(rockMeter) <= rockMeter
      ensures old(Valid()) && 0.0 <= amount ==> Valid()
    {
      rockMeter := Min(1.0, rockMeter + amount);
    }

    /** Lower the meter by `amount`; a meter that ends below 0.0 fails the play. */
    method DecreaseRockMeter(amount: real)
      modifies this`rockMeter, this`failed
      ensures rockMeter == old(rockMeter) - amount
      ensures failed <==> old(failed) || rockMeter < 0.0
      ensures old(Valid()) && 0.0 <= amount ==> Valid()
    {
      rockMeter := rockMeter - amount;
      if rockMeter < 0.0 {
        failed := true;
      }
    }

    /**
     A note or chord of `noteSize` notes was hit: one more grouped hit, `noteSize`
     more individual hits, the meter rises and the score grows by the note's
     points times the multiplier of the already-extended streak.
     */
    method HitNote(noteSize: int)
      modifies this`notesHitGrouped, this`noteStreakGrouped, this`notesHitIndividials,
        this`noteStreakIndividuals, this`bestNoteStreakGrouped, this`rockMeter, this`score
      ensures notesHitGrouped == old(notesHitGrouped) + 1
      ensures noteStreakGrouped == old(noteStreakGrouped) + 1
      ensures notesHitIndividials == old(notesHitIndividials) + noteSize
      ensures noteStreakIndividuals == old(noteStreakIndividuals) + noteSize
      ensures bestNoteStreakGrouped == MaxInt(old(bestNoteStreakGrouped), noteStreakGrouped)
      ensures rockMeter == Min(1.0, old(rockMeter) + RockMeterIncrement * NoteSizeRockMeterMultiplier(noteSize))
      ensures score == old(score) + PointsPerNote * noteSize * Multiplier(noteStreakGrouped)
      ensures old(rockMeter) <= 1.0 ==> old(rockMeter) < rockMeter || rockMeter == 1.0
      ensures 0 <= noteSize ==> old(score) <= score
      ensures old(Valid()) && 0 <= noteSize ==> Valid()
    {
      notesHitGrouped := notesHitGrouped + 1;
      noteStreakGrouped := noteStreakGrouped + 1;

      notesHitIndividials := notesHitIndividials + noteSize;
      noteStreakIndividuals := noteStreakIndividuals + noteSize;

      if noteStreakGrouped > bestNoteStreakGrouped {
        bestNoteStreakGrouped := noteStreakGrouped;
      }
      IncreaseRockMeter(RockMeterIncrement * NoteSizeRockMeterMultiplier(noteSize));
      score := score + PointsPerNote * noteSize * GetMultiplier();
    }

    /**
     A note or chord of `noteSize` notes expired unplayed: the meter drops by the
     size-weighted decrement and both streaks end. Hits, score and best streak
     stay as they were.
     */
    method MissNote(noteSize: int)
      modifies this`rockMeter, this`failed, this`noteStreakGrouped, this`noteStreakIndividuals
      ensures rockMeter == old(rockMeter) - RockMeterDecrement * NoteSizeRockMeterMultiplier(noteSize)
      ensures rockMeter < old(rockMeter)
      ensures failed <==> old(failed) || rockMeter < 0.0
      ensures noteStreakGrouped == 0 && noteStreakIndividuals == 0
      ensures old(Valid()) ==> Valid()
    {
      DecreaseRockMeter(RockMeterDecrement * NoteSizeRockMeterMultiplier(noteSize));
      noteStreakGrouped := 0;
      noteStreakIndividuals := 0;
    }

    /**
     A press that matched no note: the same as missing a single note, the meter
     drops by one unweighted decrement and both streaks end.
     */
    method OverhitNote()
      modifies this`rockMeter, this`failed, this`noteStreakGrouped, this`noteStreakIndividuals
      ensures rockMeter == old(rockMeter) - RockMeterDecrement * NoteSizeRockMeterMultiplier(1)
      ensures rockMeter == old(rockMeter) - RockMeterDecrement
      ensures failed <==> old(failed) || rockMeter < 0.0
      ensures noteStreakGrouped == 0 && noteStreakIndividuals == 0
      ensures old(Valid()) ==> Valid()
    {
      DecreaseRockMeter(RockMeterDecrement * NoteSizeRockMeterMultiplier(1));
      noteStreakGrouped := 0;
      noteStreakIndividuals := 0;
    }
  }

  /**
   A client of the contracts above: a chord of three notes hit at an individual
   streak of 10 leaves it at 13, and a following double tap ends both streaks
   without touching the hits already counted.
   */
  method ChordThenDoubleTap()
  {
    var stats := new PlayStats(-1, 4, 0.5);
    stats.noteStreakIndividuals := 10;
    stats.HitNote(3);
    assert stats.noteStreakIndividuals == 13 && stats.notesHitIndividials == 3;
    assert stats.score == 150 && stats.bestNoteStreakGrouped == 1;
    stats.OverhitNote();
    assert stats.noteStreakIndividuals == 0 && stats.noteStreakGrouped == 0;
    assert stats.notesHitIndividials == 3 && stats.score == 150 && !stats.failed;
  }

  // ---------------------------------------------------------------------------
  // Chord counting
  // ---------------------------------------------------------------------------

  /** A chart note; the chord count reads only its time stamp. */
  datatype PlayableNote = PlayableNote(TimeStamp: int)

  /** The notes of `cs` one chord after another. */
  function Concat(cs: seq<seq<PlayableNote>>): seq<PlayableNote>
  {
    if cs == [] then [] else Concat(cs[..|cs| - 1]) + cs[|cs| - 1]
  }

  /** `c` is a non-empty group of notes that all share one time stamp. */
  ghost predicate IsChord(c: seq<PlayableNote>)
  {
    c != [] && forall i :: 0 <= i < |c| ==> c[i].TimeStamp == c[0].TimeStamp
  }

  /** Every group is a chord and neighbouring chords sound at different times. */
  ghost predicate MaximalChords(cs: seq<seq<PlayableNote>>)
  {
    && (forall k :: 0 <= k < |cs| ==> IsChord(cs[k]))
    && (forall j, k :: 0 <= j && k == j + 1 < |cs| ==> cs[j][0].TimeStamp != cs[k][0].TimeStamp)
  }

  /**
   The notes split into chords: each run of neighbouring notes with one time
   stamp is one chord.
   */
  function Chords(notes: seq<PlayableNote>): (cs: seq<seq<PlayableNote>>)
    ensures |cs| <= |notes|
    ensures notes != [] ==> cs != [] && cs[|cs| - 1] != []
  {
    if notes == [] then []
    else
      var init := Chords(notes[..|notes| - 1]);
      var last := notes[|notes| - 1];
      if |notes| >= 2 && notes[|notes| - 2].TimeStamp == last.TimeStamp then
        init[..|init| - 1] + [init[|init| - 1] + [last]]
      else
        init + [[last]]
  }

  /** Appending a note either extends the last chord or starts a new one. */
  lemma ChordsAppend(front: seq<PlayableNote>, x: PlayableNote)
    ensures var cs := Chords(front);
      Chords(front + [x]) ==
        if front != [] && front[|front| - 1].TimeStamp == x.TimeStamp
        then cs[..|cs| - 1] + [cs[|cs| - 1] + [x]]
        else cs + [[x]]
  {
    var notes := front + [x];
    assert notes[..|notes| - 1] == front && notes[|notes| - 1] == x;
    if front != [] && front[|front| - 1].TimeStamp == x.TimeStamp {
      assert |notes| >= 2 && notes[|notes| - 2].TimeStamp == x.TimeStamp;
    } else if front != [] {
      assert notes[|notes| - 2].TimeStamp != x.TimeStamp;
    }
  }

  /**
   One step of counting: the prefix of `i + 1` notes has one chord more than the
   prefix of `i` notes exactly when note `i` sounds at a new time.
   */
  lemma ChordCountStep(notes: seq<PlayableNote>, i: int)
    requires 1 <= i < |notes|
    ensures |Chords(notes[..i + 1])| ==
      if notes[i - 1].TimeStamp == notes[i].TimeStamp then |Chords(notes[..i])| else |Chords(notes[..i])| + 1
  {
    assert notes[..i + 1] == notes[..i] + [notes[i]];
    ChordsAppend(notes[..i], notes[i]);
  }

  /** A note at the time of the last chord extends it and keeps the chords maximal. */
  lemma {:induction false} ExtendLastChord(cs: seq<seq<PlayableNote>>, x: PlayableNote)
    requires cs != [] && MaximalChords(cs) && cs[|cs| - 1][0].TimeStamp == x.TimeStamp
    ensures var cs' := cs[..|cs| - 1] + [cs[|cs| - 1] + [x]];
      MaximalChords(cs') && Concat(cs') == Concat(cs) + [x]
  {
    var pre := cs[..|cs| - 1];
    var c := cs[|cs| - 1];
    var cs' := pre + [c + [x]];
    assert cs'[..|cs'| - 1] == pre;
    assert Concat(cs) == Concat(pre) + c;
    assert IsChord(c) && IsChord(c + [x]);
    forall j, k | 0 <= j && k == j + 1 < |cs'|
      ensures cs'[j][0].TimeStamp != cs'[k][0].TimeStamp
    {
      assert cs'[j][0] == cs[j][0] && cs'[k][0] == cs[k][0];
    }
  }

  /** A note at a new time after the last chord starts a chord of its own. */
  lemma {:induction false} StartNewChord(cs: seq<seq<PlayableNote>>, x: PlayableNote)
    requires MaximalChords(cs)
    requires cs != [] ==> cs[|cs| - 1][0].TimeStamp != x.TimeStamp
    ensures MaximalChords(cs + [[x]]) && Concat(cs + [[x]]) == Concat(cs) + [x]
  {
    var cs' := cs + [[x]];
    assert cs'[..|cs'| - 1] == cs;
    assert IsChord([x]);
  }

  /** `Chords` cuts the note list into maximal runs of one time stamp. */
  lemma {:induction false} ChordsPartition(notes: seq<PlayableNote>)
    ensures Concat(Chords(notes)) == notes
    ensures MaximalChords(Chords(notes))
    ensures notes != [] ==> Chords(notes)[|Chords(notes)| - 1][0].TimeStamp == notes[|notes| - 1].TimeStamp
  {
    if notes != [] {
      var front := notes[..|notes| - 1];
      var x := notes[|notes| - 1];
      assert notes == front + [x];
      ChordsPartition(front);
      ChordsAppend(front, x);
      var cs := Chords(front);
      if front != [] && front[|front| - 1].TimeStamp == x.TimeStamp {
        ExtendLastChord(cs, x);
      } else {
        StartNewChord(cs, x);
      }
    }
  }

  /** The last note of a list of chords belongs to its last chord. */
  lemma ConcatLast(cs: seq<seq<PlayableNote>>)
    requires cs != [] && cs[|cs| - 1] != []
    ensures Concat(cs) != []
    ensures Concat(cs)[|Concat(cs)| - 1] == cs[|cs| - 1][|cs[|cs| - 1]| - 1]
  {
  }

  /** Dropping the last chord of maximal chords leaves maximal chords. */
  lemma {:induction false} DropLastChord(cs: seq<seq<PlayableNote>>)
    requires cs != [] && MaximalChords(cs)
    ensures MaximalChords(cs[..|cs| - 1])
    ensures Concat(cs) == Concat(cs[..|cs| - 1]) + cs[|cs| - 1]
  {
  }

  /** Dropping the last note of a chord of two or more leaves maximal chords. */
  lemma {:induction false} DropLastNote(cs: seq<seq<PlayableNote>>)
    requires cs != [] && MaximalChords(cs) && |cs[|cs| - 1]| >= 2
    ensures var c := cs[|cs| - 1];
      && MaximalChords(cs[..|cs| - 1] + [c[..|c| - 1]])
      && Concat(cs[..|cs| - 1] + [c[..|c| - 1]]) + [c[|c| - 1]] == Concat(cs)
  {
    var pre := cs[..|cs| - 1];
    var c := cs[|cs| - 1];
    var cs' := pre + [c[..|c| - 1]];
    assert cs'[..|cs'| - 1] == pre;
    assert c[..|c| - 1] + [c[|c| - 1]] == c;
    forall j, k | 0 <= j && k == j + 1 < |cs'|
      ensures cs'[j][0].TimeStamp != cs'[k][0].TimeStamp
    {
      assert cs'[j][0] == cs[j][0] && cs'[k][0] == cs[k][0];
    }
    assert Concat(cs') == Concat(pre) + c[..|c| - 1];
  }

  /** Step of ChordsUnique for a last chord of one note. */
  lemma SingleNoteChordStep(notes: seq<PlayableNote>, pre: seq<seq<PlayableNote>>, x: PlayableNote)
    requires notes == Concat(pre) + [x]
    requires pre == Chords(Concat(pre))
    requires pre != [] ==> IsChord(pre[|pre| - 1]) && pre[|pre| - 1][0].TimeStamp != x.TimeStamp
    ensures pre + [[x]] == Chords(notes)
  {
    var front := Concat(pre);
    ChordsAppend(front, x);
    if pre != [] {
      var c := pre[|pre| - 1];
      ConcatLast(pre);
      assert front[|front| - 1] == c[|c| - 1];
    }
  }

  /** Step of ChordsUnique for a last chord of two or more notes. */
  lemma LongChordStep(notes: seq<PlayableNote>, pre: seq<seq<PlayableNote>>, c: seq<PlayableNote>)
    requires |c| >= 2 && IsChord(c)
    requires var cs' := pre + [c[..|c| - 1]];
      && notes == Concat(cs') + [c[|c| - 1]]
      && cs' == Chords(Concat(cs'))
    ensures pre + [c] == Chords(notes)
  {
    var x := c[|c| - 1];
    var cs' := pre + [c[..|c| - 1]];
    var front := Concat(cs');
    ConcatLast(cs');
    assert front[|front| - 1] == c[|c| - 2];
    ChordsAppend(front, x);
    assert cs'[..|cs'| - 1] == pre && c[..|c| - 1] + [x] == c;
  }

  /**
   The split into maximal runs is unique: any list of chords that spells out
   `notes` with neighbouring chords at different times is `Chords(notes)`.
   */
  lemma {:induction false} ChordsUnique(notes: seq<PlayableNote>, cs: seq<seq<PlayableNote>>)
    requires Concat(cs) == notes
    requires MaximalChords(cs)
    ensures cs == Chords(notes)
    decreases |notes|
  {
    if cs != [] {
      var pre := cs[..|cs| - 1];
      var c := cs[|cs| - 1];
      assert cs == pre + [c];
      assert IsChord(c);
      var front := notes[..|notes| - 1];
      if |c| == 1 {
        DropLastChord(cs);
        assert c == [c[0]] && notes == Concat(pre) + [c[0]];
        assert front == Concat(pre);
        ChordsUnique(front, pre);
        if pre != [] {
          assert cs[|cs| - 2] == pre[|pre| - 1];
          assert IsChord(cs[|cs| - 2]);
          assert cs[|cs| - 2][0].TimeStamp != cs[|cs| - 1][0].TimeStamp;
        }
        SingleNoteChordStep(notes, pre, c[0]);
      } else {
        var cs' := pre + [c[..|c| - 1]];
        DropLastNote(cs);
        assert notes == Concat(cs') + [c[|c| - 1]];
        assert front == Concat(cs');
        ChordsUnique(front, cs');
        LongChordStep(notes, pre, c);
      }
    }
  }

  /** When no two neighbouring notes share a time stamp, every note is its own chord. */
  lemma {:induction false} DistinctTimesAreSingleNotes(notes: seq<PlayableNote>)
    requires forall i :: 1 <= i < |notes| ==> notes[i - 1].TimeStamp != notes[i].TimeStamp
    ensures |Chords(notes)| == |notes|
  {
    if notes != [] {
      DistinctTimesAreSingleNotes(notes[..|notes| - 1]);
    }
  }

  /** Notes that all share one time stamp form a single chord. */
  lemma {:induction false} OneTimeIsOneChord(notes: seq<PlayableNote>)
    requires notes != []
    requires forall i :: 0 <= i < |notes| ==> notes[i].TimeStamp == notes[0].TimeStamp
    ensures |Chords(notes)| == 1
  {
    if |notes| >= 2 {
      OneTimeIsOneChord(notes[..|notes| - 1]);
    }
  }

  /**
   The number of chords in `notes`: 0 for no notes, otherwise one more than the
   number of neighbouring pairs whose time stamps differ.
   */
  method CountNotes(notes: seq<PlayableNote>) returns (count: int)
    ensures count == |Chords(notes)|
    ensures notes != [] ==> 1 <= count <= |notes|
  {
    if |notes| == 0 {
      return 0;
    }

    count := 0;
    // every chord adds one, however many notes it has
    var prevTime := notes[0].TimeStamp;

    for i := 1 to |notes|
      invariant prevTime == notes[i - 1].TimeStamp
      invariant count + 1 == |Chords(notes[..i])|
    {
      ChordCountStep(notes, i);
      if notes[i].TimeStamp != prevTime {
        count := count + 1;
        prevTime := notes[i].TimeStamp;
      }
    }
    assert notes[..|notes|] == notes;
    return count + 1;
  }
}
