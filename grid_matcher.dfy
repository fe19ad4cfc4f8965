/** The grid matcher, score_match in main.py: how well a beat grid of a given length,
    anchored at one onset, explains the later onsets, and the phase offset it implies. */
module GridMatcher {
  import opened Numeric
  import opened Stats

  /** An onset counts as on the grid when it is closer than this (seconds) to a grid line. */
  const Precision: real := 0.03

  predicate StrictlyIncreasing(s: seq<real>)
  {
    forall i, j :: 0 <= i < j < |s| ==> s[i] < s[j]
  }

  /** The grid line k beats after the anchor. */
  function GridTime(anchor: real, beatLen: real, k: int): (g: real)
  {
    anchor + k as real * beatLen
  }

  /** One more beat moves the grid time by one beat length. */
  lemma GridTimeNext(anchor: real, beatLen: real, k: int)
    ensures GridTime(anchor, beatLen, k + 1) == GridTime(anchor, beatLen, k) + beatLen
  {
    assert (k + 1) as real * beatLen == k as real * beatLen + beatLen;
  }

  /** Grid times are ordered like their beat counts. */
  lemma GridTimeMonotone(anchor: real, beatLen: real, j: int, k: int)
    requires beatLen > 0.0 && j <= k
    ensures GridTime(anchor, beatLen, j) <= GridTime(anchor, beatLen, k)
  {
    assert k as real * beatLen - j as real * beatLen == (k - j) as real * beatLen;
  }

  /** Grid line k is the first one at or after t: one beat earlier it was still below t. */
  predicate FirstAtOrAfter(anchor: real, beatLen: real, t: real, k: int)
  {
    GridTime(anchor, beatLen, k) - beatLen < t <= GridTime(anchor, beatLen, k)
  }

  /** At most one grid line is the first at or after t. */
  lemma FirstAtOrAfterUnique(anchor: real, beatLen: real, t: real, j: int, k: int)
    requires beatLen > 0.0
    requires FirstAtOrAfter(anchor, beatLen, t, j) && FirstAtOrAfter(anchor, beatLen, t, k)
    ensures j == k
  {
    if j < k {
      GridTimeMonotone(anchor, beatLen, j, k - 1);
      GridTimeNext(anchor, beatLen, k - 1);
    } else if k < j {
      GridTimeMonotone(anchor, beatLen, k, j - 1);
      GridTimeNext(anchor, beatLen, j - 1);
    }
  }

  /** How many beats the running grid time has advanced from the anchor once it reaches t: the
      count of the first grid line at or after t, which is the ceiling of (t - anchor) / beatLen. */
  ghost function GridIndex(anchor: real, beatLen: real, t: real): (k: int)
    requires beatLen > 0.0
    ensures FirstAtOrAfter(anchor, beatLen, t, k)
  {
    var c := Ceil((t - anchor) / beatLen);
    MulVersusDiv(c as real, beatLen, t - anchor);
    MulVersusDiv(c as real - 1.0, beatLen, t - anchor);
    assert (c as real - 1.0) * beatLen == c as real * beatLen - beatLen;
    assert FirstAtOrAfter(anchor, beatLen, t, c);
    var k :| FirstAtOrAfter(anchor, beatLen, t, k);
    k
  }

  /** The grid index is the ceiling of the distance from the anchor counted in beats. */
  lemma GridIndexIsCeiling(anchor: real, beatLen: real, t: real)
    requires beatLen > 0.0
    ensures GridIndex(anchor, beatLen, t) == Ceil((t - anchor) / beatLen)
  {
    var c := Ceil((t - anchor) / beatLen);
    MulVersusDiv(c as real, beatLen, t - anchor);
    MulVersusDiv(c as real - 1.0, beatLen, t - anchor);
    assert (c as real - 1.0) * beatLen == c as real * beatLen - beatLen;
    FirstAtOrAfterUnique(anchor, beatLen, t, c, GridIndex(anchor, beatLen, t));
  }

  /** The first grid line at or after t: where the running grid time stands after the
      inner loop has walked it up to onset t. */
  ghost function GridLine(anchor: real, beatLen: real, t: real): (g: real)
    requires beatLen > 0.0
    ensures t <= g < t + beatLen
  {
    GridTime(anchor, beatLen, GridIndex(anchor, beatLen, t))
  }

  /** A grid time that has reached t, while one beat earlier it had not, is the grid line of t. */
  lemma OnGridIsGridLine(anchor: real, beatLen: real, t: real, k: int)
    requires beatLen > 0.0
    requires t <= GridTime(anchor, beatLen, k)
    requires GridTime(anchor, beatLen, k) - beatLen < t
    ensures GridIndex(anchor, beatLen, t) == k
    ensures GridLine(anchor, beatLen, t) == GridTime(anchor, beatLen, k)
  {
    FirstAtOrAfterUnique(anchor, beatLen, t, k, GridIndex(anchor, beatLen, t));
  }

  /** A grid time still below t has not yet reached the grid line of t. */
  lemma BelowGridLine(anchor: real, beatLen: real, t: real, k: int)
    requires beatLen > 0.0
    requires GridTime(anchor, beatLen, k) < t
    ensures k < GridIndex(anchor, beatLen, t)
  {
    var g := GridIndex(anchor, beatLen, t);
    if g <= k {
      GridTimeMonotone(anchor, beatLen, g, k);
    }
  }

  /** The running grid time never decreases: a later onset has a grid line no earlier. */
  lemma GridLineMonotone(anchor: real, beatLen: real, t1: real, t2: real)
    requires beatLen > 0.0 && t1 <= t2
    ensures GridLine(anchor, beatLen, t1) <= GridLine(anchor, beatLen, t2)
  {
    var k1, k2 := GridIndex(anchor, beatLen, t1), GridIndex(anchor, beatLen, t2);
    if k2 < k1 {
      GridTimeMonotone(anchor, beatLen, k2, k1 - 1);
      GridTimeNext(anchor, beatLen, k1 - 1);
    } else {
      GridTimeMonotone(anchor, beatLen, k1, k2);
    }
  }

  /** Distance from onset t forward to its grid line. */
  ghost function Forward(anchor: real, beatLen: real, t: real): (gap: real)
    requires beatLen > 0.0
  {
    GridLine(anchor, beatLen, t) - t
  }

  /** Distance from onset t back to the grid line one beat before its grid line. */
  ghost function Backward(anchor: real, beatLen: real, t: real): (gap: real)
    requires beatLen > 0.0
  {
    t - (GridLine(anchor, beatLen, t) - beatLen)
  }

  /** Distance from onset t to the nearer of the two grid lines around it (Python's min). */
  ghost function Distance(anchor: real, beatLen: real, t: real): (d: real)
    requires beatLen > 0.0
    ensures 0.0 <= d <= beatLen / 2.0
  {
    var f, b := Forward(anchor, beatLen, t), Backward(anchor, beatLen, t);
    assert 0.0 <= f && 0.0 < b && f + b == beatLen;
    if b < f then b else f
  }

  /** Onset t is within tolerance of the grid. */
  ghost predicate OnGrid(anchor: real, beatLen: real, t: real)
    requires beatLen > 0.0
  {
    Distance(anchor, beatLen, t) < Precision
  }

  /** The residual recorded for an on-grid onset: the distance, counted positive when the forward
      gap is under tolerance and negative otherwise. */
  ghost function SignedResidual(anchor: real, beatLen: real, t: real): (r: real)
    requires beatLen > 0.0 && OnGrid(anchor, beatLen, t)
    ensures -Precision < r < Precision
    ensures 0.0 <= r <==> Forward(anchor, beatLen, t) < Precision
    ensures r < 0.0 ==> r == -Backward(anchor, beatLen, t)
  {
    Distance(anchor, beatLen, t) * (if Forward(anchor, beatLen, t) < Precision then 1.0 else -1.0)
  }

  /** The residuals score_match appends, in order, for the given onsets. */
  ghost function Residuals(anchor: real, beatLen: real, onsets: seq<real>): (rs: seq<real>)
    requires beatLen > 0.0
    ensures |rs| <= |onsets|
    ensures forall i :: 0 <= i < |rs| ==> -Precision < rs[i] < Precision
  {
    if onsets == [] then []
    else
      var last := onsets[|onsets| - 1];
      Residuals(anchor, beatLen, onsets[..|onsets| - 1])
        + (if OnGrid(anchor, beatLen, last) then [SignedResidual(anchor, beatLen, last)] else [])
  }

  /** Appending one onset appends at most its own residual. */
  lemma ResidualsSnoc(anchor: real, beatLen: real, onsets: seq<real>, t: real)
    requires beatLen > 0.0
    ensures Residuals(anchor, beatLen, onsets + [t])
            == Residuals(anchor, beatLen, onsets)
               + (if OnGrid(anchor, beatLen, t) then [SignedResidual(anchor, beatLen, t)] else [])
  {
    assert (onsets + [t])[..|onsets|] == onsets;
  }

  /** No residual is recorded exactly when no onset is within tolerance. */
  lemma {:induction false} ResidualsEmpty(anchor: real, beatLen: real, onsets: seq<real>)
    requires beatLen > 0.0
    ensures Residuals(anchor, beatLen, onsets) == []
            <==> forall i :: 0 <= i < |onsets| ==> !OnGrid(anchor, beatLen, onsets[i])
  {
    if onsets != [] {
      var init := onsets[..|onsets| - 1];
      ResidualsEmpty(anchor, beatLen, init);
      assert forall i :: 0 <= i < |init| ==> init[i] == onsets[i];
    }
  }

  /** Subtracting n beats from offset leaves it in (0, beatLen]. */
  predicate ReducedBy(offset: real, beatLen: real, n: nat)
  {
    0.0 < offset - n as real * beatLen <= beatLen
  }

  /** How many times `offset -= beat_len` runs in `while offset > beat_len`: none when the offset
      is at most one beat, otherwise the count that brings it into (0, beatLen]. */
  ghost function ReduceCount(offset: real, beatLen: real): (n: nat)
    requires beatLen > 0.0
    ensures offset <= beatLen ==> n == 0
    ensures offset > beatLen ==> n > 0 && ReducedBy(offset, beatLen, n)
  {
    if offset <= beatLen then 0
    else
      var c := Ceil(offset / beatLen) - 1;
      MulVersusDiv(c as real, beatLen, offset);
      MulVersusDiv(c as real + 1.0, beatLen, offset);
      MulVersusDiv(1.0, beatLen, offset);
      assert (c as real + 1.0) * beatLen == c as real * beatLen + beatLen;
      assert c > 0 && ReducedBy(offset, beatLen, c);
      var n: nat :| n > 0 && ReducedBy(offset, beatLen, n);
      n
  }

  /** The offset after repeatedly subtracting the beat length while it exceeds it. */
  ghost function ReduceOffset(offset: real, beatLen: real): (r: real)
    requires beatLen > 0.0
    ensures r <= beatLen
    ensures offset <= beatLen ==> r == offset
    ensures offset > beatLen ==> 0.0 < r
  {
    offset - ReduceCount(offset, beatLen) as real * beatLen
  }

  /** Subtracting n beats that leaves the offset in (0, beatLen], or no beat at all when it was
      already at most beatLen, is the count the reduction loop performs. */
  lemma ReduceCountUnique(offset: real, beatLen: real, n: nat)
    requires beatLen > 0.0
    requires offset - n as real * beatLen <= beatLen
    requires n == 0 || 0.0 < offset - n as real * beatLen
    ensures ReduceCount(offset, beatLen) == n
  {
    var m := ReduceCount(offset, beatLen);
    if n > 0 && m < n {
      GridTimeMonotone(0.0, beatLen, m, n - 1);
      GridTimeNext(0.0, beatLen, n - 1);
    } else if n > 0 && n < m {
      GridTimeMonotone(0.0, beatLen, n, m - 1);
      GridTimeNext(0.0, beatLen, m - 1);
    } else if n == 0 && m > 0 {
      GridTimeMonotone(0.0, beatLen, 0, m);
    }
  }

  /** What score_match returns: (score, offset). */
  ghost function ScoreMatchSpec(times: seq<real>, beatLen: real, scoreBoost: real, index: nat): (result: (real, real))
    requires beatLen > 0.0 && index < |times|
  {
    var rs := Residuals(times[index], beatLen, times[index + 1..]);
    if |rs| == 0 then (0.0, 0.0)
    else (Score(|rs|, beatLen, scoreBoost), ReduceOffset(times[index] + Median(rs), beatLen))
  }

  /** The score of a grid with matchCount onsets in tolerance: each match weighs one beat length
      plus the boost. */
  function Score(matchCount: nat, beatLen: real, scoreBoost: real): (score: real)
  {
    matchCount as real * (beatLen + scoreBoost)
  }

  /** Some onset after the anchor lies within tolerance of the grid. */
  ghost predicate HasEvidence(times: seq<real>, beatLen: real, index: nat)
    requires beatLen > 0.0 && index < |times|
  {
    exists i :: index < i < |times| && OnGrid(times[index], beatLen, times[i])
  }

  /** Residuals are recorded exactly when there is evidence. */
  lemma ResidualsIffEvidence(times: seq<real>, beatLen: real, index: nat)
    requires beatLen > 0.0 && index < |times|
    ensures Residuals(times[index], beatLen, times[index + 1..]) != [] <==> HasEvidence(times, beatLen, index)
  {
    var onsets := times[index + 1..];
    ResidualsEmpty(times[index], beatLen, onsets);
    if HasEvidence(times, beatLen, index) {
      var i :| index < i < |times| && OnGrid(times[index], beatLen, times[i]);
      assert onsets[i - index - 1] == times[i];
    }
  }

  /** With no onset in tolerance the result is the degenerate (0, 0). */
  lemma ScoreMatchNoEvidence(times: seq<real>, beatLen: real, scoreBoost: real, index: nat)
    requires beatLen > 0.0 && index < |times|
    requires !HasEvidence(times, beatLen, index)
    ensures ScoreMatchSpec(times, beatLen, scoreBoost, index) == (0.0, 0.0)
  {
    ResidualsIffEvidence(times, beatLen, index);
  }

  /** More matches never score less when the weight per match is non-negative. */
  lemma ScoreMonotone(m: nat, n: nat, beatLen: real, scoreBoost: real)
    requires m <= n && beatLen + scoreBoost >= 0.0
    ensures 0.0 <= Score(m, beatLen, scoreBoost) <= Score(n, beatLen, scoreBoost)
  {
    var w := beatLen + scoreBoost;
    NonNegativeProduct(m as real, w);
    NonNegativeProduct((n - m) as real, w);
    assert n as real * w == m as real * w + (n - m) as real * w;
  }

  lemma NonNegativeProduct(a: real, b: real)
    requires 0.0 <= a && 0.0 <= b
    ensures 0.0 <= a * b
  {
  }

  /** With a non-negative boost the score is non-negative, positive exactly when some onset is in
      tolerance, and at most one weighted match per onset after the anchor. */
  lemma ScoreMatchScore(times: seq<real>, beatLen: real, scoreBoost: real, index: nat)
    requires beatLen > 0.0 && index < |times| && scoreBoost >= 0.0
    ensures 0.0 <= ScoreMatchSpec(times, beatLen, scoreBoost, index).0
    ensures 0.0 < ScoreMatchSpec(times, beatLen, scoreBoost, index).0 <==> HasEvidence(times, beatLen, index)
    ensures ScoreMatchSpec(times, beatLen, scoreBoost, index).0 <= Score(|times| - index - 1, beatLen, scoreBoost)
  {
    ResidualsIffEvidence(times, beatLen, index);
    var rs := Residuals(times[index], beatLen, times[index + 1..]);
    ScoreMonotone(|rs|, |times| - index - 1, beatLen, scoreBoost);
    if rs != [] {
      assert Score(|rs|, beatLen, scoreBoost) >= Score(1, beatLen, scoreBoost) by {
        ScoreMonotone(1, |rs|, beatLen, scoreBoost);
      }
    }
  }

  /** The offset never exceeds one beat; when it was reduced it is positive, and otherwise (a
      negative one included) it is the anchor moved by the median residual, so within tolerance
      of the anchor. */
  lemma ScoreMatchOffset(times: seq<real>, beatLen: real, scoreBoost: real, index: nat)
    requires beatLen > 0.0 && index < |times|
    ensures ScoreMatchSpec(times, beatLen, scoreBoost, index).1 <= beatLen
    ensures HasEvidence(times, beatLen, index) ==>
              var offset := ScoreMatchSpec(times, beatLen, scoreBoost, index).1;
              0.0 < offset || times[index] - Precision < offset < times[index] + Precision
    ensures HasEvidence(times, beatLen, index) ==>
              var rs := Residuals(times[index], beatLen, times[index + 1..]);
              rs != [] && (times[index] + Median(rs) <= beatLen ==>
                ScoreMatchSpec(times, beatLen, scoreBoost, index).1 == times[index] + Median(rs))
  {
    ResidualsIffEvidence(times, beatLen, index);
    var rs := Residuals(times[index], beatLen, times[index + 1..]);
    if rs != [] {
      MedianWithin(rs, -Precision, Precision);
    }
  }

  /** A larger boost never lowers the score: the matches do not depend on the boost. */
  lemma ScoreMatchBoostMonotone(times: seq<real>, beatLen: real, boost1: real, boost2: real, index: nat)
    requires beatLen > 0.0 && index < |times| && boost1 <= boost2
    ensures ScoreMatchSpec(times, beatLen, boost1, index).0 <= ScoreMatchSpec(times, beatLen, boost2, index).0
    ensures ScoreMatchSpec(times, beatLen, boost1, index).1 == ScoreMatchSpec(times, beatLen, boost2, index).1
  {
    var n := |Residuals(times[index], beatLen, times[index + 1..])|;
    assert Score(n, beatLen, boost2) - Score(n, beatLen, boost1) == n as real * (boost2 - boost1);
    assert 0.0 <= n as real * (boost2 - boost1);
  }

  /** Onsets exactly on a grid whose anchor lies one beat after time zero: both later onsets
      match with residual 0, and the offset is a whole beat rather than 0, since the reduction
      loop only subtracts while the offset is strictly greater than one beat. */
  lemma OffsetOfOneFullBeatIsKept(beatLen: real, scoreBoost: real)
    requires beatLen > 0.0
    ensures ScoreMatchSpec([beatLen, beatLen + beatLen, beatLen + beatLen + beatLen], beatLen, scoreBoost, 0)
            == (Score(2, beatLen, scoreBoost), beatLen)
  {
    var times := [beatLen, beatLen + beatLen, beatLen + beatLen + beatLen];
    var rs := Residuals(times[0], beatLen, times[1..]);
    assert rs == [0.0, 0.0] by {
      assert times[0] == beatLen && times[1..] == [beatLen + beatLen, beatLen + beatLen + beatLen];
      OnGridResiduals(beatLen);
    }
    assert Median(rs) == 0.0 by {
      MedianOfTwo(0.0, 0.0);
    }
    assert ScoreMatchSpec(times, beatLen, scoreBoost, 0)
           == (Score(|rs|, beatLen, scoreBoost), ReduceOffset(beatLen + Median(rs), beatLen));
  }

  /** The two onsets one and two beats after the anchor lie exactly on its grid. */
  lemma OnGridResiduals(beatLen: real)
    requires beatLen > 0.0
    ensures Residuals(beatLen, beatLen, [beatLen + beatLen, beatLen + beatLen + beatLen]) == [0.0, 0.0]
  {
    var t1, t2 := beatLen + beatLen, beatLen + beatLen + beatLen;
    OnGridIsGridLine(beatLen, beatLen, t1, 1);
    OnGridIsGridLine(beatLen, beatLen, t2, 2);
    assert Distance(beatLen, beatLen, t1) == 0.0 && Forward(beatLen, beatLen, t1) == 0.0;
    assert Distance(beatLen, beatLen, t2) == 0.0 && Forward(beatLen, beatLen, t2) == 0.0;
    ResidualsSnoc(beatLen, beatLen, [], t1);
    ResidualsSnoc(beatLen, beatLen, [t1], t2);
  }

  /** score_match: walk the grid anchored at times[index] over the later onsets, collect the
      residuals of the onsets within tolerance, and score them. */
  method ScoreMatch(times: seq<real>, beatLen: real, scoreBoost: real, index: nat)
    returns (score: real, offset: real)
    requires StrictlyIncreasing(times)
    requires beatLen > 0.0 && index < |times|
    ensures (score, offset) == ScoreMatchSpec(times, beatLen, scoreBoost, index)
  {
    var matches := CollectResiduals(times, beatLen, index);
    if |matches| == 0 {
      return 0.0, 0.0;
    }
    offset := ReduceLoop(times[index] + Median(matches), beatLen);
    score := Score(|matches|, beatLen, scoreBoost);
  }

  /** The loop of score_match: a running grid time that starts at the anchor and only ever moves
      forward by whole beats is walked up to each later onset in turn, and the signed residual of
      every onset within tolerance is appended. */
  method CollectResiduals(times: seq<real>, beatLen: real, index: nat) returns (matches: seq<real>)
    requires StrictlyIncreasing(times)
    requires beatLen > 0.0 && index < |times|
    ensures matches == Residuals(times[index], beatLen, times[index + 1..])
  {
    var anchor := times[index];
    var time := anchor;
    ghost var k: int := 0;
    matches := [];
    assert time == GridTime(anchor, beatLen, k) && times[index + 1..index + 1] == [];
    for i := index + 1 to |times|
      invariant time == GridTime(anchor, beatLen, k)
      invariant times[i - 1] <= time && time - beatLen < times[i - 1]
      invariant matches == Residuals(anchor, beatLen, times[index + 1..i])
    {
      assert times[i - 1] < times[i];
      time, k := AdvanceGrid(anchor, beatLen, times[i], time, k);
      var dist := if times[i] - (time - beatLen) < time - times[i]
                  then times[i] - (time - beatLen) else time - times[i];
      CollectStep(times, beatLen, index, i, time, dist, matches);
      if dist < Precision {
        matches := matches + [dist * (if time - times[i] < Precision then 1.0 else -1.0)];
      }
    }
    assert times[index + 1..|times|] == times[index + 1..];
  }

  /** `while time < t: time += beat_len`: a grid time less than one beat below onset t is
      walked forward by whole beats up to the grid line of t. */
  method AdvanceGrid(anchor: real, beatLen: real, t: real, time0: real, ghost k0: int)
    returns (time: real, ghost k: int)
    requires beatLen > 0.0
    requires time0 == GridTime(anchor, beatLen, k0) && time0 - beatLen < t
    ensures time == GridTime(anchor, beatLen, k) == GridLine(anchor, beatLen, t)
    ensures t <= time && time - beatLen < t
  {
    time, k := time0, k0;
    while time < t
      invariant time == GridTime(anchor, beatLen, k)
      invariant time - beatLen < t
      decreases GridIndex(anchor, beatLen, t) - k
    {
      BelowGridLine(anchor, beatLen, t, k);
      GridTimeNext(anchor, beatLen, k);
      time := time + beatLen;
      k := k + 1;
    }
    OnGridIsGridLine(anchor, beatLen, t, k);
  }

  /** One pass of the loop body: with the running grid time at the grid line of onset t, the
      distance it computes is Distance, and appending the signed distance exactly when it is
      under tolerance extends the residuals by those of t. */
  lemma CollectStep(times: seq<real>, beatLen: real, index: nat, i: nat, time: real, dist: real,
                    matches: seq<real>)
    requires beatLen > 0.0 && index < i < |times|
    requires time == GridLine(times[index], beatLen, times[i])
    requires dist == if times[i] - (time - beatLen) < time - times[i]
                     then times[i] - (time - beatLen) else time - times[i]
    requires matches == Residuals(times[index], beatLen, times[index + 1..i])
    ensures dist == Distance(times[index], beatLen, times[i])
    ensures Residuals(times[index], beatLen, times[index + 1..i + 1])
            == if dist < Precision then matches + [dist * (if time - times[i] < Precision then 1.0 else -1.0)]
               else matches
  {
    var anchor, t := times[index], times[i];
    assert dist == Distance(anchor, beatLen, t) && (OnGrid(anchor, beatLen, t) <==> dist < Precision);
    assert OnGrid(anchor, beatLen, t) ==>
             SignedResidual(anchor, beatLen, t) == dist * (if time - t < Precision then 1.0 else -1.0);
    assert Residuals(anchor, beatLen, times[index + 1..i + 1])
           == matches + (if OnGrid(anchor, beatLen, t) then [SignedResidual(anchor, beatLen, t)] else []) by {
      assert times[index + 1..i + 1] == times[index + 1..i] + [t];
      ResidualsSnoc(anchor, beatLen, times[index + 1..i], t);
    }
  }

  /** `while offset > beat_len: offset -= beat_len`: the offset is brought to at most one beat,
      and a value already at most one beat, negative ones included, is kept. */
  method ReduceLoop(start: real, beatLen: real) returns (offset: real)
    requires beatLen > 0.0
    ensures offset == ReduceOffset(start, beatLen)
  {
    offset := start;
    ghost var n: nat := 0;
    while offset > beatLen
      invariant offset == start - n as real * beatLen
      invariant n == 0 || 0.0 < offset
      decreases ReduceCount(start, beatLen) - n
    {
      ReduceCountBound(start, beatLen, n);
      offset := offset - beatLen;
      n := n + 1;
    }
    ReduceCountUnique(start, beatLen, n);
  }

  /** While the loop still subtracts, fewer than ReduceCount subtractions have been made. */
  lemma ReduceCountBound(offset: real, beatLen: real, n: nat)
    requires beatLen > 0.0
    requires offset - n as real * beatLen > beatLen
    ensures n < ReduceCount(offset, beatLen)
  {
    var m := ReduceCount(offset, beatLen);
    GridTimeMonotone(0.0, beatLen, 0, n);
    if m <= n {
      GridTimeMonotone(0.0, beatLen, m, n);
    }
  }
}
