# terminal-hero scoring economy, in Dafny

This project models the scoring economy of the terminal rhythm game
terminal-hero, from `terminal-hero/play-stats.go`. The note-judging loop classifies
every note or chord of a track as hit, missed or over-hit. It feeds those events to a
`playStats` accumulator, which keeps:

- grouped counters, where a chord counts once (`notesHitGrouped`, `noteStreakGrouped`);
- individual counters, where every note of a chord counts (`notesHitIndividials`,
  `noteStreakIndividuals`; the field names keep the source's spelling);
- the best grouped streak;
- a score, with a 1x to 4x multiplier that steps up every 10 grouped notes;
- a health meter (the "rock meter"), capped at 1.0, that latches `failed` once it
  drops below 0.0.

The pure part rates a play with 3 to 9 stars and counts the chords of a note list.

Everything is in one module, `Scoring` (`play_stats.dfy`), following the one source file:

- `playStats` is the class `Scoring.PlayStats`. Its mutating methods name exactly the
  fields they may change in their `modifies` clauses (`this`score` and so on). That
  frame is what states that a miss leaves the score, the hit counters, the best streak,
  `totalNotes` and `lastPlayedNoteIndex` alone.
- `Valid()` is the bookkeeping invariant:
  - the best streak bounds the current streak;
  - counters and score are not negative;
  - the meter is at most 1.0;
  - a meter below 0.0 implies `failed`.

  The Go methods accept any input, so no method requires `Valid()`. Instead each
  mutating method promises to keep it: `old(Valid()) ==> Valid()`. A hit also needs a
  chord size of at least 0, and the two meter methods need an amount of at least 0.
- `rockMeter` is a `real`, so the meter arithmetic is exact. The cap at 1.0 and the
  one-way `failed` latch hold under any rounding. The step at which the latch fires
  can differ from float64; see "## Left out".
- `GetMultiplier` applies `Multiplier` to the grouped streak, and `Multiplier`
  carries the contract.
- `countNotes` is a method with the source's loop. It is proved equal to the number of
  groups in `Chords(notes)`. Lemmas show that `Chords(notes)` is the one and only split
  of the list into maximal runs of notes sharing a time stamp.
- `ChordThenDoubleTap` is a client of the contracts. A chord of three notes takes the
  individual streak from 10 to 13. A following spurious press resets both streaks and
  keeps the hits.

Two edge cases of the Go code:

- The meter is only capped above. A miss can take it below 0.0, which sets `failed`.
- With a zero note total, the star rating divides a float64 by zero. That gives +Inf,
  NaN or -Inf for a positive, zero or negative score, which rate 9, 3 and 3 stars.
  `CalcStarCount` models exactly that, with no precondition. A negative total is
  handled by the same division.

## Model

| member | source | states |
|---|---|---|
| `Scoring.PlayStats.constructor` | terminal-hero/play-stats.go:5-16 | A fresh `playStats` has no hits, streaks or score and is not failed; with a meter in [0, 1] it satisfies the bookkeeping invariant |
| `Scoring.PlayStats.HitNote` | terminal-hero/play-stats.go:22-35 | Grouped hits and streak grow by exactly 1 and individual ones by exactly `noteSize`; best streak becomes max(old best, new streak); meter rises by 0.02 times the size weight, capped at 1.0, and never drops from a meter at most 1.0; score grows by exactly 50 * noteSize * multiplier of the already-incremented streak, so never drops for noteSize >= 0; `failed`, `totalNotes` and the note index are outside its frame; keeps the invariant for noteSize >= 0 |
| `Scoring.PlayStats.MissNote` | terminal-hero/play-stats.go:37-41 | Meter drops by exactly 0.025 times the size weight (strictly); `failed` becomes true exactly when the meter ends below 0 and never returns to false; both streaks become 0; hits, score, best streak, total and note index are outside its frame; keeps the invariant |
| `Scoring.PlayStats.OverhitNote` | terminal-hero/play-stats.go:43-47 | Same frame and effect as `MissNote(1)`: meter drops by exactly 0.025, failure latch as for a miss, both streaks become 0; keeps the invariant |
| `Scoring.PlayStats.IncreaseRockMeter` | terminal-hero/play-stats.go:53-55 | New meter is min(1.0, old + amount), so it is never above 1.0, and a non-negative amount never lowers a meter at most 1.0; only the meter changes; keeps the invariant for a non-negative amount |
| `Scoring.PlayStats.DecreaseRockMeter` | terminal-hero/play-stats.go:57-62 | Meter loses exactly `amount`; `failed` is set exactly when it was already set or the meter ends below 0.0, so once true it stays true; keeps the invariant for a non-negative amount |
| `Scoring.PlayStats.Finished` | terminal-hero/play-stats.go:49-51 | With the index on the track (from -1 up to the last note), finished exactly when no note index remains to be played; an index past the end reads as not finished |
| `Scoring.PlayStats.StarCount` | terminal-hero/play-stats.go:68-70 | The rating of the current score is between 3 and 9 stars, and on a track with notes it is 4 or more exactly when the score exceeds twice the base score |
| `Scoring.Multiplier` | terminal-hero/play-stats.go:119-130 | Multiplier is in 1..4, is 1 below a streak of 10, and for streaks >= 0 equals min(streak / 10, 3) + 1 (steps at 10, 20 and 30) |
| `Scoring.MultiplierMonotone` | terminal-hero/play-stats.go:120-130 | A longer streak never yields a smaller multiplier |
| `Scoring.NoteSizeRockMeterMultiplier` | terminal-hero/play-stats.go:132-148 | Size weight lies in [1.0, 2.0] and equals 1.0 exactly for sizes outside 2..5 |
| `Scoring.NoteSizeRockMeterMultiplierIncreasing` | terminal-hero/play-stats.go:133-148 | On sizes 1..5 a larger chord weighs strictly more |
| `Scoring.CalcStarCount` | terminal-hero/play-stats.go:72-92 | Rating is in 3..9. For a positive total, the rating is at least k (k = 4..9) exactly when score > t(k) * 50 * totalNotes, with t = 2, 2.8, 3.6, 4.4, 5.2, 6. For a zero total, the rating is 9 for a positive score and 3 otherwise |
| `Scoring.StarCountMonotone` | terminal-hero/play-stats.go:72-92 | For a non-negative total, a higher score never rates fewer stars |
| `Scoring.Chords` | terminal-hero/play-stats.go:150-166 | Splitting notes into chords gives at most one chord per note (so between 1 and len(notes) for a non-empty list), at least one chord for a non-empty list, and a non-empty last chord |
| `Scoring.ChordsPartition` | terminal-hero/play-stats.go:155-164 | The chords spell out the note list in order; each is a non-empty run sharing one time stamp; neighbouring chords have different time stamps |
| `Scoring.ChordsUnique` | terminal-hero/play-stats.go:155-164 | Any split of the notes into non-empty same-time runs with neighbours at different times is exactly `Chords(notes)`, so the chord count is well defined |
| `Scoring.DistinctTimesAreSingleNotes` | terminal-hero/play-stats.go:159-165 | When no two neighbouring notes share a time stamp the chord count equals the number of notes |
| `Scoring.OneTimeIsOneChord` | terminal-hero/play-stats.go:159-165 | Non-empty notes that all share one time stamp form exactly one chord |
| `Scoring.CountNotes` | terminal-hero/play-stats.go:150-166 | Returns 0 for no notes and otherwise the number of chords (maximal same-time runs), which lies in 1..len(notes) |

## Left out

- The judging engine (`PlayNote`, `ProcessNoNotePlayed`, `getNextNoteOrChord`,
  `playLastHitNote`), the view model and the chart parser are not part of this model.
  The engine decides which event to send and with which chord size. Only the event
  handlers are modelled.
- The code that creates a `playStats` is not part of this model. The class constructor
  stands in for it: it takes the note index, the total and the initial meter, and zeroes
  everything else as a Go struct literal does.
- The `playableNote` record is not part of this model. Only its `TimeStamp`, the one
  field `countNotes` reads, is modelled.
- `percentage()` (a float64 display ratio) and `smallStarString` (star glyphs) are
  display-only and not modelled.
- Integers are unbounded. Go's 64-bit `int` wrap-around on the counters and the score is
  not modelled, because a game cannot reach it.
- Scoring.CalcStarCount: compares exact rationals, so float64 rounding of the quotient
  near the 5.2, 4.4, 3.6 and 2.8 thresholds is not modelled.
- Scoring.PlayStats.IncreaseRockMeter: the meter is an exact `real`, so float64 rounding
  of the meter arithmetic (for example 0.02 * 1.4) is not modelled.
- Scoring.PlayStats.DecreaseRockMeter: with the exact meter, the step at which `failed`
  latches can differ from float64. The same holds for `MissNote` and `OverhitNote`,
  which call it. For example, from a meter of 0.5 the float64 meter goes below 0.0 on
  the 20th single-note miss, about -1.6e-16. The exact meter reaches 0.0 there and fails
  only on the 21st.
