/** The tempo estimator, find_bpm in main.py: a rough tempo from the median gap between onset
    frames, then a search over integer-step and swing-step candidate tempos around it, scored by
    the grid matcher, keeping the first strictly best one, with its octave corrections. */
module TempoEstimator {
  import opened Numeric
  import opened Stats
  import opened GridMatcher

  /** Frames per second are taken as sampleRate / FrameDivisor in the rough estimate. */
  const FrameDivisor: real := 1024.0
  /** A rough estimate above this many BPM is halved once. */
  const HalvingThreshold: int := 300
  /** A selected tempo below this many BPM is doubled once. */
  const DoublingThreshold: real := 100.0
  /** Candidates are the estimate plus r, or plus r * 2 / 3, for r in [-SearchRadius, SearchRadius). */
  const SearchRadius: int := 50
  const PoolSize: nat := 100
  /** Added per match to the weight of integer-step candidates only. */
  const IntegerBoost: real := 0.05
  /** The running best score before any candidate is scored. */
  const InitialBestScore: real := -1000000.0

  predicate StrictlyIncreasingFrames(frames: seq<int>)
  {
    forall i, j :: 0 <= i < j < |frames| ==> frames[i] < frames[j]
  }

  /** The gaps between consecutive onset frames, as numbers. */
  function Gaps(frames: seq<int>): (gaps: seq<real>)
    ensures |frames| < 2 <==> gaps == []
    ensures StrictlyIncreasingFrames(frames) ==> forall i :: 0 <= i < |gaps| ==> 1.0 <= gaps[i]
  {
    if |frames| < 2 then []
    else seq(|frames| - 1, i requires 0 <= i < |frames| - 1 => (frames[i + 1] - frames[i]) as real)
  }

  /** `int(statistics.median(gaps))`: the median gap in frames, truncated. */
  function BeatEstimate(frames: seq<int>): (frameGap: int)
    requires |frames| >= 2
  {
    Truncate(Median(Gaps(frames)))
  }

  /** With strictly increasing frames every gap is at least one frame, and so is the estimate. */
  lemma BeatEstimatePositive(frames: seq<int>)
    requires |frames| >= 2 && StrictlyIncreasingFrames(frames)
    ensures BeatEstimate(frames) >= 1
  {
    var gaps := Gaps(frames);
    MedianBetween(gaps);
    var i, j :| 0 <= i < |gaps| && 0 <= j < |gaps| && gaps[i] <= Median(gaps) <= gaps[j];
  }

  /** `round(60 / beat_estimate * sr / 1024)`. */
  function RawEstimate(beatEstimate: int, sampleRate: int): (bpm: int)
    requires beatEstimate >= 1
  {
    RoundHalfEven(60.0 / beatEstimate as real * sampleRate as real / FrameDivisor)
  }

  /** The rough tempo the search is centred on: the raw estimate, floor-halved once above 300. */
  function RoughEstimate(frames: seq<int>, sampleRate: int): (bpm: int)
    requires |frames| >= 2 && StrictlyIncreasingFrames(frames)
  {
    BeatEstimatePositive(frames);
    var raw := RawEstimate(BeatEstimate(frames), sampleRate);
    if raw > HalvingThreshold then raw / 2 else raw
  }

  /** The estimate is halved at most once and only above the threshold: above it the result is
      the floor of half the raw estimate (so at least 150), otherwise the raw estimate itself. */
  lemma RoughEstimateHalvedOnce(frames: seq<int>, sampleRate: int)
    requires |frames| >= 2 && StrictlyIncreasingFrames(frames)
    ensures BeatEstimate(frames) >= 1
    ensures var raw, est := RawEstimate(BeatEstimate(frames), sampleRate), RoughEstimate(frames, sampleRate);
            (raw > HalvingThreshold ==> 2 * est <= raw <= 2 * est + 1 && est >= 150)
            && (raw <= HalvingThreshold ==> est == raw)
  {
    BeatEstimatePositive(frames);
  }

  /** `[bpm_estimate + r for r in range(-50, 50)]`. */
  function IntegerTests(bpmEstimate: int): (tests: seq<int>)
  {
    seq(PoolSize, j => bpmEstimate + (j - SearchRadius))
  }

  /** `[bpm_estimate + r*2/3 for r in range(-50, 50)]`. */
  function SwingTests(bpmEstimate: int): (tests: seq<real>)
  {
    seq(PoolSize, j => bpmEstimate as real + ((j - SearchRadius) * 2) as real / 3.0)
  }

  /** `bpm // 2 if bpm % 2 == 0 else bpm / 2`: how an integer-step winner is stored. (With a
      divisor of 2, Python's floor // and % agree with Dafny's / and % for every integer.) */
  function Halve(bpm: int): (half: real)
  {
    if bpm % 2 == 0 then (bpm / 2) as real else bpm as real / 2.0
  }

  /** The two branches of the integer-step halving agree: both store exactly half the tempo. */
  lemma HalveIsHalf(bpm: int)
    ensures Halve(bpm) == bpm as real / 2.0
  {
  }

  /** A candidate tempo, the boost its matches get, and the tempo stored if it wins. */
  datatype Candidate = Candidate(bpm: real, scoreBoost: real, kept: real)

  /** Every candidate in search order: the integer-step pool, then the swing pool. */
  function Candidates(bpmEstimate: int): (cs: seq<Candidate>)
  {
    var tests, swingTests := IntegerTests(bpmEstimate), SwingTests(bpmEstimate);
    seq(PoolSize, j requires 0 <= j < PoolSize => Candidate(tests[j] as real, IntegerBoost, Halve(tests[j])))
    + seq(PoolSize, j requires 0 <= j < PoolSize => Candidate(swingTests[j], 0.0, swingTests[j]))
  }

  predicate PositiveTempos(cs: seq<Candidate>)
  {
    forall j :: 0 <= j < |cs| ==> cs[j].bpm > 0.0
  }

  /** Each pool has 100 candidates, and above an estimate of 50 every candidate tempo is positive,
      so every beat length 60 / bpm exists and is positive. */
  lemma CandidatesPositive(bpmEstimate: int)
    requires bpmEstimate > SearchRadius
    ensures |Candidates(bpmEstimate)| == 2 * PoolSize
    ensures PositiveTempos(Candidates(bpmEstimate))
  {
    var cs := Candidates(bpmEstimate);
    forall j | 0 <= j < |cs| ensures cs[j].bpm > 0.0 {
      if j >= PoolSize {
        assert cs[j].bpm == bpmEstimate as real + ((j - PoolSize - SearchRadius) * 2) as real / 3.0;
      }
    }
  }

  /** `60 / bpm`: the beat length in seconds of a tempo in beats per minute; bpm beats of that
      length make one minute. */
  function BeatLength(bpm: real): (beatLen: real)
    requires bpm > 0.0
    ensures beatLen > 0.0 && beatLen * bpm == 60.0
  {
    60.0 / bpm
  }

  /** score_match of the whole onset sequence against a candidate's beat length and boost. */
  ghost function Evaluate(times: seq<real>, c: Candidate): (result: (real, real))
    requires |times| > 0 && c.bpm > 0.0
  {
    ScoreMatchSpec(times, BeatLength(c.bpm), c.scoreBoost, 0)
  }

  /** The score of each candidate, in search order. */
  ghost function Scores(times: seq<real>, cs: seq<Candidate>): (scores: seq<real>)
    requires |times| > 0 && PositiveTempos(cs)
    ensures |scores| == |cs|
  {
    seq(|cs|, j requires 0 <= j < |cs| => Evaluate(times, cs[j]).0)
  }

  /** The running best updated only on a strictly greater score: the first index holding the
      maximum. */
  function FirstMax(s: seq<real>): (k: nat)
    requires |s| > 0
    ensures k < |s|
    ensures forall j :: 0 <= j < |s| ==> s[j] <= s[k]
    ensures forall j :: 0 <= j < k ==> s[j] < s[k]
  {
    if |s| == 1 then 0
    else
      var k := FirstMax(s[..|s| - 1]);
      if s[|s| - 1] > s[k] then |s| - 1 else k
  }

  /** Every score is non-negative, so above the initial best score: the first integer-step
      candidate always replaces the initial placeholder. */
  lemma ScoresNonNegative(times: seq<real>, bpmEstimate: int)
    requires |times| > 0 && bpmEstimate > SearchRadius
    ensures PositiveTempos(Candidates(bpmEstimate))
    ensures var scores := Scores(times, Candidates(bpmEstimate));
            forall j :: 0 <= j < |scores| ==> InitialBestScore < 0.0 <= scores[j]
  {
    CandidatesPositive(bpmEstimate);
    var cs := Candidates(bpmEstimate);
    forall j | 0 <= j < |cs| ensures 0.0 <= Evaluate(times, cs[j]).0 {
      ScoreMatchScore(times, BeatLength(cs[j].bpm), cs[j].scoreBoost, 0);
    }
  }

  /** The offset score_match finds for each candidate, in search order. */
  ghost function Offsets(times: seq<real>, cs: seq<Candidate>): (offsets: seq<real>)
    requires |times| > 0 && PositiveTempos(cs)
    ensures |offsets| == |cs|
  {
    seq(|cs|, j requires 0 <= j < |cs| => Evaluate(times, cs[j]).1)
  }

  /** The tempo each candidate would be stored as, in search order. */
  function Kept(cs: seq<Candidate>): (kept: seq<real>)
    ensures |kept| == |cs|
  {
    seq(|cs|, j requires 0 <= j < |cs| => cs[j].kept)
  }

  /** The index of the winning candidate. */
  ghost function Winner(times: seq<real>, bpmEstimate: int): (w: nat)
    requires |times| > 0 && bpmEstimate > SearchRadius
    ensures w < 2 * PoolSize
  {
    CandidatesPositive(bpmEstimate);
    FirstMax(Scores(times, Candidates(bpmEstimate)))
  }

  /** `if best_bpm < 100: best_bpm *= 2`. */
  function Corrected(bpm: real): (corrected: real)
  {
    if bpm < DoublingThreshold then bpm * 2.0 else bpm
  }

  /** The correction doubles exactly when the tempo is below 100 and leaves it otherwise; it
      lands at 100 or above exactly for tempos of at least 50. */
  lemma CorrectedRange(bpm: real)
    ensures Corrected(bpm) == bpm <==> bpm >= DoublingThreshold || bpm == 0.0
    ensures bpm > 0.0 ==> bpm <= Corrected(bpm) <= 2.0 * bpm
    ensures 50.0 <= bpm <==> DoublingThreshold <= Corrected(bpm)
  {
  }

  /** What the tempo search returns for a rough estimate: the winner's stored tempo, corrected,
      and the offset score_match found for it. */
  ghost function SearchSpec(times: seq<real>, bpmEstimate: int): (result: (real, real))
    requires |times| > 0 && bpmEstimate > SearchRadius
  {
    CandidatesPositive(bpmEstimate);
    var cs := Candidates(bpmEstimate);
    var w := Winner(times, bpmEstimate);
    (Corrected(Kept(cs)[w]), Offsets(times, cs)[w])
  }

  /** After the first n candidates, the running best is the first strict maximum among them. */
  ghost predicate Leads(scores: seq<real>, kept: seq<real>, offsets: seq<real>,
                        n: nat, score: real, bpm: real, offset: real)
    requires 0 < n <= |scores| == |kept| == |offsets|
  {
    var w := FirstMax(scores[..n]);
    score == scores[w] && bpm == kept[w] && offset == offsets[w]
  }

  /** One step of the running best: replacing it exactly on a strictly greater score keeps it the
      first strict maximum; the first step always replaces a best score below every score. */
  lemma LeadsNext(scores: seq<real>, kept: seq<real>, offsets: seq<real>,
                  n: nat, score: real, bpm: real, offset: real)
    requires n < |scores| == |kept| == |offsets|
    requires n == 0 ==> score < scores[0]
    requires n > 0 ==> Leads(scores, kept, offsets, n, score, bpm, offset)
    ensures scores[n] > score ==> Leads(scores, kept, offsets, n + 1, scores[n], kept[n], offsets[n])
    ensures scores[n] <= score ==> Leads(scores, kept, offsets, n + 1, score, bpm, offset)
  {
    assert scores[..n + 1][..n] == scores[..n];
  }

  /** Integer-step candidate j is scored by score_match at beat length 60 / bpm with the boost,
      and stored halved. */
  lemma IntegerCandidateAt(times: seq<real>, bpmEstimate: int, j: nat)
    requires |times| > 0 && bpmEstimate > SearchRadius && j < PoolSize
    ensures PositiveTempos(Candidates(bpmEstimate))
    ensures var bpm := IntegerTests(bpmEstimate)[j];
            var cs := Candidates(bpmEstimate);
            bpm > 0
            && ScoreMatchSpec(times, BeatLength(bpm as real), IntegerBoost, 0)
               == (Scores(times, cs)[j], Offsets(times, cs)[j])
            && Kept(cs)[j] == Halve(bpm)
  {
    CandidatesPositive(bpmEstimate);
  }

  /** Swing candidate j is scored by score_match at beat length 60 / bpm without a boost, and
      stored unchanged. */
  lemma SwingCandidateAt(times: seq<real>, bpmEstimate: int, j: nat)
    requires |times| > 0 && bpmEstimate > SearchRadius && j < PoolSize
    ensures PositiveTempos(Candidates(bpmEstimate))
    ensures var bpm := SwingTests(bpmEstimate)[j];
            var cs := Candidates(bpmEstimate);
            bpm > 0.0
            && ScoreMatchSpec(times, BeatLength(bpm), 0.0, 0)
               == (Scores(times, cs)[PoolSize + j], Offsets(times, cs)[PoolSize + j])
            && Kept(cs)[PoolSize + j] == bpm
  {
    CandidatesPositive(bpmEstimate);
    assert Candidates(bpmEstimate)[PoolSize + j].bpm == SwingTests(bpmEstimate)[j];
  }

  /** Lines 33-54 of find_bpm: score every integer-step candidate (with the boost) and then every
      swing candidate (without), replace the running best only on a strictly greater score, store
      an integer-step winner halved, and double a final tempo below 100. */
  method SearchTempo(times: seq<real>, bpmEstimate: int) returns (bestBpm: real, bestOffset: real)
    requires StrictlyIncreasing(times) && |times| > 0
    requires bpmEstimate > SearchRadius
    ensures (bestBpm, bestOffset) == SearchSpec(times, bpmEstimate)
  {
    var bestScore;
    bestScore, bestBpm, bestOffset := SearchIntegerPool(times, bpmEstimate);
    bestScore, bestBpm, bestOffset := SearchSwingPool(times, bpmEstimate, bestScore, bestBpm, bestOffset);
    SearchComplete(times, bpmEstimate, bestScore, bestBpm, bestOffset);
    ghost var stored := bestBpm;
    if bestBpm < DoublingThreshold {
      bestBpm := bestBpm * 2.0;
    }
    assert bestBpm == Corrected(stored);
  }

  /** Once every candidate has been scored, the running best is the winner. */
  lemma SearchComplete(times: seq<real>, bpmEstimate: int, score: real, bpm: real, offset: real)
    requires |times| > 0 && bpmEstimate > SearchRadius
    requires PositiveTempos(Candidates(bpmEstimate))
    requires var cs := Candidates(bpmEstimate);
             Leads(Scores(times, cs), Kept(cs), Offsets(times, cs), 2 * PoolSize, score, bpm, offset)
    ensures SearchSpec(times, bpmEstimate).0 == Corrected(bpm)
    ensures SearchSpec(times, bpmEstimate).1 == offset
  {
    CandidatesPositive(bpmEstimate);
    var scores := Scores(times, Candidates(bpmEstimate));
    assert scores[..2 * PoolSize] == scores;
  }

  /** The first loop of the search, from the initial running best (score -1000000, tempo
      bpm_estimate // 2, offset 0): integer-step candidates, scored with the boost, a winner
      stored halved. */
  method SearchIntegerPool(times: seq<real>, bpmEstimate: int)
    returns (bestScore: real, bestBpm: real, bestOffset: real)
    requires StrictlyIncreasing(times) && |times| > 0
    requires bpmEstimate > SearchRadius
    ensures PositiveTempos(Candidates(bpmEstimate))
    ensures var cs := Candidates(bpmEstimate);
            Leads(Scores(times, cs), Kept(cs), Offsets(times, cs), PoolSize, bestScore, bestBpm, bestOffset)
  {
    CandidatesPositive(bpmEstimate);
    ScoresNonNegative(times, bpmEstimate);
    ghost var cs := Candidates(bpmEstimate);
    ghost var scores, kept, offsets := Scores(times, cs), Kept(cs), Offsets(times, cs);
    bestScore := InitialBestScore;
    bestBpm := (bpmEstimate / 2) as real;
    bestOffset := 0.0;
    var tests := IntegerTests(bpmEstimate);
    for j := 0 to |tests|
      invariant j == 0 ==> bestScore == InitialBestScore
      invariant 0 < j ==> Leads(scores, kept, offsets, j, bestScore, bestBpm, bestOffset)
    {
      var bpm := tests[j];
      IntegerCandidateAt(times, bpmEstimate, j);
      var beatLen := BeatLength(bpm as real);
      var score, offset := ScoreMatch(times, beatLen, IntegerBoost, 0);
      assert score == scores[j] && offset == offsets[j] && Halve(bpm) == kept[j];
      LeadsNext(scores, kept, offsets, j, bestScore, bestBpm, bestOffset);
      if score > bestScore {
        bestScore := score;
        bestBpm := Halve(bpm);
        bestOffset := offset;
      }
    }
  }

  /** The second loop of the search, continuing from the running best of the first: swing
      candidates, scored without the boost, a winner stored unchanged. */
  method SearchSwingPool(times: seq<real>, bpmEstimate: int, score0: real, bpm0: real, offset0: real)
    returns (bestScore: real, bestBpm: real, bestOffset: real)
    requires StrictlyIncreasing(times) && |times| > 0
    requires bpmEstimate > SearchRadius
    requires PositiveTempos(Candidates(bpmEstimate))
    requires var cs := Candidates(bpmEstimate);
             Leads(Scores(times, cs), Kept(cs), Offsets(times, cs), PoolSize, score0, bpm0, offset0)
    ensures var cs := Candidates(bpmEstimate);
            Leads(Scores(times, cs), Kept(cs), Offsets(times, cs), 2 * PoolSize, bestScore, bestBpm, bestOffset)
  {
    CandidatesPositive(bpmEstimate);
    ghost var cs := Candidates(bpmEstimate);
    ghost var scores, kept, offsets := Scores(times, cs), Kept(cs), Offsets(times, cs);
    bestScore, bestBpm, bestOffset := score0, bpm0, offset0;
    var swingTests := SwingTests(bpmEstimate);
    for n := PoolSize to 2 * PoolSize
      invariant Leads(scores, kept, offsets, n, bestScore, bestBpm, bestOffset)
    {
      var bpm := swingTests[n - PoolSize];
      SwingCandidateAt(times, bpmEstimate, n - PoolSize);
      var beatLen := BeatLength(bpm);
      var score, offset := ScoreMatch(times, beatLen, 0.0, 0);
      assert score == scores[n] && offset == offsets[n] && bpm == kept[n];
      LeadsNext(scores, kept, offsets, n, bestScore, bestBpm, bestOffset);
      if score > bestScore {
        bestScore := score;
        bestBpm := bpm;
        bestOffset := offset;
      }
    }
  }

  /** The search keeps the first candidate with the highest score: no candidate scores more, and
      every candidate searched before it scores strictly less. */
  lemma WinnerIsFirstMaximum(times: seq<real>, bpmEstimate: int)
    requires |times| > 0 && bpmEstimate > SearchRadius
    ensures PositiveTempos(Candidates(bpmEstimate))
    ensures var scores, w := Scores(times, Candidates(bpmEstimate)), Winner(times, bpmEstimate);
            (forall j :: 0 <= j < |scores| ==> scores[j] <= scores[w])
            && (forall j :: 0 <= j < w ==> scores[j] < scores[w])
  {
    CandidatesPositive(bpmEstimate);
  }

  /** The tempo stored for candidate w if it wins: half of it for the integer-step pool (both
      parity branches), the candidate itself for the swing pool. */
  function StoredTempo(bpmEstimate: int, w: nat): (bpm: real)
  {
    if w < PoolSize then (bpmEstimate + w - SearchRadius) as real / 2.0
    else bpmEstimate as real + ((w - PoolSize - SearchRadius) * 2) as real / 3.0
  }

  /** Candidate w is stored as StoredTempo. */
  lemma KeptIsStoredTempo(bpmEstimate: int, w: nat)
    requires w < 2 * PoolSize
    ensures |Candidates(bpmEstimate)| == 2 * PoolSize
    ensures Kept(Candidates(bpmEstimate))[w] == StoredTempo(bpmEstimate, w)
  {
    var cs := Candidates(bpmEstimate);
    if w < PoolSize {
      assert cs[w].kept == Halve(IntegerTests(bpmEstimate)[w]);
      HalveIsHalf(IntegerTests(bpmEstimate)[w]);
    } else {
      assert cs[w].kept == SwingTests(bpmEstimate)[w - PoolSize];
    }
  }

  /** The tempo the search returns is the winner's, stored halved when it comes from the
      integer-step pool and unchanged when it comes from the swing pool, then corrected. */
  lemma SearchTempoOfWinner(times: seq<real>, bpmEstimate: int)
    requires |times| > 0 && bpmEstimate > SearchRadius
    ensures SearchSpec(times, bpmEstimate).0 == Corrected(StoredTempo(bpmEstimate, Winner(times, bpmEstimate)))
  {
    KeptIsStoredTempo(bpmEstimate, Winner(times, bpmEstimate));
  }

  /** The tempo returned is positive, and lies between the stored tempo and twice it. */
  lemma SearchTempoPositive(times: seq<real>, bpmEstimate: int)
    requires |times| > 0 && bpmEstimate > SearchRadius
    ensures var stored := StoredTempo(bpmEstimate, Winner(times, bpmEstimate));
            0.0 < stored <= SearchSpec(times, bpmEstimate).0 <= 2.0 * stored
  {
    SearchTempoOfWinner(times, bpmEstimate);
    CorrectedRange(StoredTempo(bpmEstimate, Winner(times, bpmEstimate)));
  }

  /** A swing candidate whose tempo equals an integer-step candidate's (r a multiple of 3) never
      wins: the integer twin comes earlier and scores at least as much, thanks to the boost. */
  lemma SwingTwinNeverWins(times: seq<real>, bpmEstimate: int, m: int)
    requires |times| > 0 && bpmEstimate > SearchRadius && -16 <= m <= 16
    ensures Winner(times, bpmEstimate) != PoolSize + SearchRadius + 3 * m
  {
    var i, j := SearchRadius + 2 * m, SearchRadius + 3 * m;
    CandidatesPositive(bpmEstimate);
    var scores := Scores(times, Candidates(bpmEstimate));
    assert scores[PoolSize + j] <= scores[i] by {
      IntegerCandidateAt(times, bpmEstimate, i);
      SwingCandidateAt(times, bpmEstimate, j);
      var bpm := IntegerTests(bpmEstimate)[i];
      assert SwingTests(bpmEstimate)[j] == bpm as real;
      ScoreMatchBoostMonotone(times, BeatLength(bpm as real), 0.0, IntegerBoost, 0);
    }
    FirstMaxNotLater(scores, i, PoolSize + j);
  }

  /** An index that an earlier index matches or beats is not the first maximum. */
  lemma FirstMaxNotLater(s: seq<real>, i: nat, w: nat)
    requires i < w < |s| && s[w] <= s[i]
    ensures FirstMax(s) != w
  {
  }

  /** The result of find_bpm: a tempo and offset, or the error statistics.median raises when
      there are no gaps. */
  datatype Estimate = Estimate(bpm: real, offset: real) | NoMedianForEmptyData

  /** find_bpm after the onsets are known: `frames` are the onset frames and `times` the same
      onsets in seconds. */
  method FindBpm(frames: seq<int>, sampleRate: int, times: seq<real>) returns (result: Estimate)
    requires StrictlyIncreasingFrames(frames)
    requires StrictlyIncreasing(times) && |times| == |frames|
    requires |frames| >= 2 ==> RoughEstimate(frames, sampleRate) > SearchRadius
    ensures result.NoMedianForEmptyData? <==> |frames| < 2
    ensures |frames| >= 2 ==>
              var (bpm, offset) := SearchSpec(times, RoughEstimate(frames, sampleRate));
              result == Estimate(bpm, RoundThousandths(offset))
  {
    var gaps := Gaps(frames);
    if |gaps| == 0 {
      return NoMedianForEmptyData;
    }
    BeatEstimatePositive(frames);
    var beatEstimate := Truncate(Median(gaps));
    var bpmEstimate := RawEstimate(beatEstimate, sampleRate);
    if bpmEstimate > HalvingThreshold {
      bpmEstimate := bpmEstimate / 2;
    }
    assert bpmEstimate == RoughEstimate(frames, sampleRate);
    var bpm, offset := SearchTempo(times, bpmEstimate);
    return Estimate(bpm, RoundThousandths(offset));
  }
}
