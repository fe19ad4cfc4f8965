# BPMCalculator tempo search, in Dafny

BPMCalculator estimates the tempo (beats per minute) and the phase offset of a recording from
its detected onsets. This project models the part of `main.py` that does the estimating, once
the onsets are known:

- `score_match` (the grid matcher). It walks a beat grid anchored at one onset over the later
  onsets. It keeps a signed residual for every onset within 0.03 s of a grid line. It scores the
  grid as the number of matches times (beat length + boost). It returns the anchor moved by the
  median residual, brought down to at most one beat, as the offset.
- The arithmetic and selection part of `find_bpm` (the tempo estimator). It takes the median gap
  between onset frames and turns it into a rough tempo, halved once above 300. It scores 100
  integer-step candidates (with a 0.05 boost) and then 100 swing candidates (steps of 2/3). It
  keeps the first strictly best candidate. An integer-step winner is stored halved. A tempo below
  100 is doubled at the end. The offset is rounded to three decimals.

Files and modules:

- `numeric.dfy`, module `Numeric`: Python's `int()` truncation, `round()` (half to even) and
  `round(x, 3)`, all on exact reals, and a ceiling helper (the program calls no ceiling) that gives
  the grid walk its closed form.
- `stats.dfy`, module `Stats`: `statistics.median` as the middle of an insertion-sorted
  permutation of the data, and the facts about it the rest relies on.
- `grid_matcher.dfy`, module `GridMatcher`: `score_match` as imperative methods. `ScoreMatch` is
  proved equal to the specification function `ScoreMatchSpec`. Its parts are proved against
  their own specification functions: the collecting loop `CollectResiduals` against `Residuals`,
  the inner grid walk `AdvanceGrid` against `GridLine`, and the subtraction loop `ReduceLoop`
  against `ReduceOffset`. Lemmas about these functions follow.
- `tempo_estimator.dfy`, module `TempoEstimator`: the search as methods that thread the running
  best `(score, bpm, offset)` through the two loops. `SearchIntegerPool` and `SearchSwingPool`
  are proved to leave the running best at the first maximum (`Leads`) of the first 100 and of
  all 200 candidates. `SearchTempo` is proved equal to the specification `SearchSpec`: the
  stored tempo of the first candidate with the highest score, corrected, and that candidate's
  offset. `FindBpm` returns `SearchSpec` for the rough estimate, with the offset rounded by
  `RoundThousandths`.

Times, beat lengths, scores and tempos are reals. The running grid time of `score_match` is
specified in closed form: after walking up to onset `t` it is the first grid line
`anchor + k * beat_len` at or after `t`. `GridIndexIsCeiling` shows `k` is
`ceil((t - anchor) / beat_len)`. This holds because the grid time is never reset. The offset
reduction `while offset > beat_len: offset -= beat_len` is specified by the number of
subtractions that leave the offset in `(0, beat_len]`.

Two details of the code are easy to misread:

- A reader might expect `score_match` to bring the offset into `[0, beat_len)`. The loop at
  `main.py:71` subtracts only while `offset > beat_len`. So an offset of exactly one beat is kept
  (`OffsetOfOneFullBeatIsKept`), and an offset already at most one beat, a negative one included,
  is returned unchanged (the `offset <= beatLen ==> r == offset` clause of `ReduceOffset`).
- The two branches at `main.py:44` look asymmetric (`bpm // 2` for an even tempo, `bpm / 2` for
  an odd one). Both store exactly half the tempo (`HalveIsHalf`); only the Python type of the
  value differs.

## Model

| member | source | states |
|---|---|---|
| Numeric.Truncate | main.py:29 | `int()` of a float truncates toward zero: for x >= 0 the result is the largest integer not above x, for x < 0 the smallest not below it |
| Numeric.RoundHalfEven | main.py:30 | `round()` gives an integer within 0.5 of x, and on a tie (distance exactly 0.5) the even one |
| Numeric.RoundHalfEvenUnique | main.py:30 | any integer within 0.5 of x that is even on a tie is `RoundHalfEven(x)`: the two properties determine Python's rounding |
| Numeric.RoundThousandths | main.py:56 | `round(best_offset, 3)` is within 0.0005 of the offset and is a whole number of thousandths |
| Stats.Insert | main.py:70 | inserting into sorted data keeps it sorted, adds exactly the new element to the multiset, and puts the smaller of the new element and the old first element in front |
| Stats.Sort | main.py:70 | the sort under `statistics.median` returns a sorted permutation of its input |
| Stats.MedianBetween | main.py:29 | the median lies between two elements of the data |
| Stats.MedianWithin | main.py:70 | strict bounds on every element hold for the median |
| Stats.MedianOfPermutation | main.py:70 | the median depends only on the multiset of the data, not on the order in which residuals were appended |
| Stats.MedianOfSorted | main.py:70 | on sorted data the median is the middle element (odd length) or the mean of the two middle ones (even length) |
| Stats.SortedUnique | main.py:70 | two sorted sequences with the same elements are equal, so the sorted permutation is unique |
| Stats.MedianOfTwo | main.py:70 | the median of two values is their mean, in either order |
| GridMatcher.GridTimeNext | main.py:64 | one step `time += beat_len` moves the grid time from line k to line k + 1 |
| GridMatcher.GridTimeMonotone | main.py:63-64 | grid lines are ordered like their beat counts |
| GridMatcher.FirstAtOrAfterUnique | main.py:63-64 | at most one grid line is at or after an onset while the line one beat earlier is below it |
| GridMatcher.GridIndex | main.py:60-64 | the number of steps from the anchor to where the inner `while` stops: its grid line is at or after t and one beat earlier is below t |
| GridMatcher.GridIndexIsCeiling | main.py:60-64 | that number of steps is `ceil((t - anchor) / beat_len)` |
| GridMatcher.GridLine | main.py:63-64 | after the inner `while`, the grid time is at or after the onset and less than one beat past it |
| GridMatcher.OnGridIsGridLine | main.py:63-64 | a grid time at or after t, whose previous line is below t, is t's grid line |
| GridMatcher.BelowGridLine | main.py:63-64 | a grid time still below the onset has not reached its grid line, so the inner `while` makes progress and stops |
| GridMatcher.GridLineMonotone | main.py:60-64 | the running grid time never decreases from one onset to a later one |
| GridMatcher.Distance | main.py:65 | the distance to the nearer of the two surrounding grid lines is between 0 and half a beat |
| GridMatcher.SignedResidual | main.py:66-67 | a recorded residual is below 0.03 in absolute value. It is non-negative exactly when the forward gap is below 0.03. Otherwise it is minus the backward gap |
| GridMatcher.Residuals | main.py:62-67 | there are at most as many residuals as onsets after the anchor, and each lies in (-0.03, 0.03) |
| GridMatcher.ResidualsSnoc | main.py:62-67 | one more onset appends its own residual if it is in tolerance and nothing otherwise |
| GridMatcher.ResidualsEmpty | main.py:66-69 | no residual is recorded exactly when no onset is within tolerance of the grid |
| GridMatcher.ResidualsIffEvidence | main.py:66-69 | residuals exist exactly when some onset after the anchor is within tolerance |
| GridMatcher.ReduceCount | main.py:71 | the loop subtracts nothing from an offset of at most one beat; otherwise it subtracts the positive count of beats that leaves the offset in (0, beat_len] |
| GridMatcher.ReduceOffset | main.py:71 | the reduced offset is at most one beat. It is unchanged when already at most one beat, negative values included. It is positive when it was reduced |
| GridMatcher.ReduceCountUnique | main.py:71 | any count of subtractions that leaves the offset in (0, beat_len], or zero for an offset of at most one beat, is the loop's count |
| GridMatcher.ScoreMatchNoEvidence | main.py:69 | with no onset in tolerance the result is exactly (0, 0) |
| GridMatcher.ScoreMonotone | main.py:72 | with a non-negative weight per match, more matches never score less and no score is negative |
| GridMatcher.ScoreMatchScore | main.py:69-72 | with a non-negative boost the score is non-negative, positive exactly when some onset is in tolerance, and at most `(len(times) - index - 1) * (beat_len + boost)` |
| GridMatcher.ScoreMatchOffset | main.py:70-71 | the offset is at most one beat; with evidence it is positive or within 0.03 of the anchor, and whenever the anchor plus the median residual is at most one beat (a negative value included) the offset is exactly that value, never lifted |
| GridMatcher.ScoreMatchBoostMonotone | main.py:72 | a larger boost never lowers the score and never changes the offset |
| GridMatcher.OffsetOfOneFullBeatIsKept | main.py:70-71 | onsets at 1, 2 and 3 beats, anchored at the first: score `2 * (beat_len + boost)` and offset exactly one beat (kept, not reduced to 0) |
| GridMatcher.OnGridResiduals | main.py:62-67 | onsets exactly one and two beats after the anchor both record residual 0 |
| GridMatcher.ScoreMatch | main.py:58-72 | the method returns what `ScoreMatchSpec` specifies, for every strictly increasing input and positive beat length |
| GridMatcher.CollectResiduals | main.py:59-67 | the walking loop appends exactly the residuals of the onsets after the anchor, in order |
| GridMatcher.AdvanceGrid | main.py:63-64 | the inner `while` stops at the onset's grid line, at or after it and less than a beat past it |
| GridMatcher.CollectStep | main.py:65-67 | the loop body's `min` is `Distance`, and appending the signed distance under tolerance extends the residuals by those of the new onset |
| GridMatcher.ReduceLoop | main.py:71 | the subtraction loop terminates with `ReduceOffset` of its input |
| GridMatcher.ReduceCountBound | main.py:71 | while the loop still runs, fewer subtractions than the final count have been made (its termination measure) |
| TempoEstimator.Gaps | main.py:27 | there are no gaps exactly when there are fewer than 2 frames; with strictly increasing frames every gap is at least one frame |
| TempoEstimator.BeatEstimatePositive | main.py:27-29 | with at least 2 strictly increasing frames the truncated median gap is at least 1, so `60 / beat_estimate` is defined |
| TempoEstimator.RoughEstimateHalvedOnce | main.py:30-31 | the estimate is halved (floor) once and only above 300, giving at least 150; otherwise it is the rounded estimate |
| TempoEstimator.HalveIsHalf | main.py:44 | both branches of `bpm // 2 if bpm % 2 == 0 else bpm / 2` store exactly half the tempo |
| TempoEstimator.CandidatesPositive | main.py:37-38 | 200 candidates, 100 per pool, and above an estimate of 50 every candidate tempo is positive |
| TempoEstimator.BeatLength | main.py:40 | `60 / bpm` is positive, and bpm beats of that length make 60 s |
| TempoEstimator.FirstMax | main.py:42-43 | the running best updated only on a strictly greater score is an index with the maximum, and every earlier index scores strictly less |
| TempoEstimator.ScoresNonNegative | main.py:34-43 | every score is non-negative, hence above the initial -1000000, so the first integer candidate always replaces the initial `bpm_estimate // 2` |
| TempoEstimator.Winner | main.py:39-52 | the winner is one of the 200 candidates |
| TempoEstimator.CorrectedRange | main.py:53-54 | the correction doubles exactly the tempos below 100, at most doubles a positive tempo, and lands at 100 or more exactly from 50 up |
| TempoEstimator.LeadsNext | main.py:42-45 | replacing the running best exactly on a strictly greater score keeps it the first maximum of the candidates seen so far |
| TempoEstimator.IntegerCandidateAt | main.py:37-44 | integer candidate j is scored at `60 / bpm` with the boost and stored halved |
| TempoEstimator.SwingCandidateAt | main.py:38-51 | swing candidate j is scored at `60 / bpm` without a boost and stored unchanged |
| TempoEstimator.SearchIntegerPool | main.py:34-45 | after the first loop the running best is the first maximum of the integer pool |
| TempoEstimator.SearchSwingPool | main.py:46-52 | after the second loop the running best is the first maximum of all 200 candidates |
| TempoEstimator.SearchComplete | main.py:39-54 | a running best that is the first maximum of all candidates, corrected, is the search result |
| TempoEstimator.SearchTempo | main.py:33-54 | the two loops and the doubling return `SearchSpec`: the corrected stored tempo and the offset of the first candidate with the highest score |
| TempoEstimator.WinnerIsFirstMaximum | main.py:39-52 | no candidate scores more than the winner, and every candidate searched before it scores strictly less |
| TempoEstimator.KeptIsStoredTempo | main.py:44-51 | an integer-step candidate is stored as half its tempo, a swing candidate as itself |
| TempoEstimator.SearchTempoOfWinner | main.py:39-54 | the returned tempo is the winner's stored tempo, corrected |
| TempoEstimator.SearchTempoPositive | main.py:39-54 | the returned tempo is positive and between the stored tempo and twice it |
| TempoEstimator.FirstMaxNotLater | main.py:42-50 | a candidate that an earlier candidate matches or beats never becomes the running best |
| TempoEstimator.SwingTwinNeverWins | main.py:37-52 | a swing candidate with the same tempo as an integer candidate (r a multiple of 3) never wins, since its twin comes first and scores at least as much |
| TempoEstimator.FindBpm | main.py:27-56 | fewer than 2 frames give the median error; otherwise the result is the search result for the rough estimate, with the offset rounded to 3 decimals |

## Left out

- `get_onsets` (main.py:8-19): file caching and librosa onset detection are I/O and a foreign
  library. `FindBpm` takes the onset frames as a parameter.
- `librosa.get_samplerate` and `librosa.frames_to_time` (main.py:23, 32) are foreign calls. The
  sample rate is a parameter. The onset times are a parameter, required to be strictly increasing
  and as many as the frames.
- The `print` calls, `play_onsets`, `play_beat`, `run_tests` and `main` (main.py:22, 26, 74-132)
  are console output, audio playback, sleeping and a harness over local audio files.
- The unused `test = score_match(...)` (main.py:55) has no effect on the result.
- Floating point: every value is an exact real, so IEEE rounding in `60 / bpm`, in the running
  grid time and in the subtraction loop is not modelled.
- Python's int/float distinction: `bpm // 2` and `bpm / 2` are both the real half of the tempo.
- FindBpm: requires a rough estimate above 50. Below that, a candidate tempo is 0 or negative, and
  the source fails with a division by zero at main.py:40 or loops forever at main.py:63-64. The
  model states this as a precondition and does not model the failure.
- GridMatcher.ScoreMatch: requires strictly increasing times. The source also runs on other input,
  but its grid time then no longer stands at the first grid line at or after each onset.
