/** Frame aggregation, bonus propagation and the running totals, stated in
    closed form over the pin counts and the number of slots the pass wrote. */
module Frames {
  import opened Slots

  /** Twenty-one pin counts, each between zero and ten. */
  predicate ValidShots(shots: seq<int>) {
    |shots| == SlotCount && forall i :: 0 <= i < |shots| ==> 0 <= shots[i] <= 10
  }

  /** How many slots a pass writes into the frames: every slot up to and
      including the focused one, or all of them when no slot is focused. */
  function Reach(focus: Option<SlotIndex>): (w: nat)
    ensures 1 <= w <= SlotCount
    ensures focus.Some? ==> w == focus.value + 1
  {
    match focus
    case None => SlotCount
    case Some(c) => c + 1
  }

  /** Frames created once `w` slots are written: one per first throw
      written, never more than ten. */
  function FramesFor(w: nat): (n: nat)
    ensures n <= FrameCount
    ensures 2 * n <= w + 1
    ensures w >= 2 * FrameCount - 1 ==> n == FrameCount
    ensures w < 2 * FrameCount - 1 ==> 2 * n >= w
  {
    if (w + 1) / 2 < FrameCount then (w + 1) / 2 else FrameCount
  }

  /** Raw value of frame `k` once `w` slots are written: the sum of its
      written slots, where the tenth frame adds its third throw only when its
      first two reach ten. */
  function RawValue(shots: seq<int>, w: nat, k: nat): (v: int)
    requires ValidShots(shots) && w <= SlotCount && k < FramesFor(w)
    ensures 0 <= v <= 30
    ensures k < FrameCount - 1 ==> v <= 20
  {
    if k < FrameCount - 1 then
      if 2 * k + 1 < w then shots[2 * k] + shots[2 * k + 1] else shots[2 * k]
    else if w <= 19 then shots[18]
    else
      var pair := shots[18] + shots[19];
      if w == 20 || pair < 10 then pair else pair + shots[20]
  }

  function RawValues(shots: seq<int>, w: nat): (values: seq<int>)
    requires ValidShots(shots) && w <= SlotCount
    ensures |values| == FramesFor(w)
    ensures forall k :: 0 <= k < |values| ==> values[k] == RawValue(shots, w, k)
  {
    seq(FramesFor(w), k requires 0 <= k < FramesFor(w) => RawValue(shots, w, k))
  }

  /** Legality flags raised while aggregating: the second throw of a pair
      summing strictly between ten and twenty, and a non-zero third throw in
      the tenth frame when its first two fall short of ten. */
  predicate AggregateFlagged(shots: seq<int>, w: nat, j: nat)
    requires ValidShots(shots) && j < SlotCount
  {
    && j < w
    && if j == 20 then shots[18] + shots[19] < 10 && shots[20] > 0
       else j % 2 == 1 && 10 < shots[j - 1] + shots[j] < 20
  }

  /** A regular frame opened with ten pins. */
  predicate IsStrikeFrame(shots: seq<int>, k: nat)
    requires ValidShots(shots)
  {
    k < FrameCount - 1 && shots[2 * k] == 10
  }

  /** Bonus frame `k` gains when frame `k + 1` is reached: that frame's first
      throw when frame `k` totals ten or more; for frame 9 also the tenth
      frame's second throw, when frame 8 was a strike too and the tenth frame
      reaches ten (or its second throw is ten). */
  function NextBallBonus(shots: seq<int>, w: nat, k: nat): (b: int)
    requires ValidShots(shots) && w <= SlotCount && k < FramesFor(w)
    ensures 0 <= b <= 20
    ensures b > 0 ==> k + 1 < FramesFor(w) && RawValue(shots, w, k) >= 10
  {
    if k + 1 < FramesFor(w) && RawValue(shots, w, k) >= 10 then
      shots[2 * k + 2]
        + (if k == 8 && IsStrikeFrame(shots, 7) && (RawValue(shots, w, 9) >= 10 || shots[19] == 10)
           then shots[19] else 0)
    else 0
  }

  /** Bonus a strike frame `k` gains when frame `k + 2` is reached: that
      frame's first throw, provided frame `k + 1` totals ten or more. */
  function SecondBallBonus(shots: seq<int>, w: nat, k: nat): (b: int)
    requires ValidShots(shots) && w <= SlotCount && k < FramesFor(w)
    ensures 0 <= b <= 10
    ensures b > 0 ==> IsStrikeFrame(shots, k) && k + 2 < FramesFor(w)
  {
    if k + 2 < FramesFor(w) && RawValue(shots, w, k + 1) >= 10 && IsStrikeFrame(shots, k)
    then shots[2 * k + 4]
    else 0
  }

  /** Frame `k`'s score: its raw value plus its bonuses. */
  function FrameTotal(shots: seq<int>, w: nat, k: nat): (t: int)
    requires ValidShots(shots) && w <= SlotCount && k < FramesFor(w)
    ensures RawValue(shots, w, k) <= t
    ensures RawValue(shots, w, k) < 10 ==> t == RawValue(shots, w, k)
    ensures k == FrameCount - 1 ==> t == RawValue(shots, w, k)
  {
    RawValue(shots, w, k) + NextBallBonus(shots, w, k) + SecondBallBonus(shots, w, k)
  }

  function FrameTotals(shots: seq<int>, w: nat): (totals: seq<int>)
    requires ValidShots(shots) && w <= SlotCount
    ensures |totals| == FramesFor(w)
    ensures forall k :: 0 <= k < |totals| ==> totals[k] == FrameTotal(shots, w, k)
    ensures forall k :: 0 <= k < |totals| ==> totals[k] >= 0
  {
    seq(FramesFor(w), k requires 0 <= k < FramesFor(w) => FrameTotal(shots, w, k))
  }

  /** Sum of the first `n` elements of `s`. */
  function SumTo(s: seq<int>, n: nat): int
    requires n <= |s|
  {
    if n == 0 then 0 else SumTo(s, n - 1) + s[n - 1]
  }

  /** The cumulative score of every frame: the sum of the totals up to and
      including it. */
  function RunningTotals(totals: seq<int>): (finals: seq<int>)
    ensures |finals| == |totals|
    ensures forall k :: 0 <= k < |finals| ==> finals[k] == SumTo(totals, k + 1)
  {
    seq(|totals|, k requires 0 <= k < |totals| => SumTo(totals, k + 1))
  }

  /** With non-negative elements, a longer prefix never sums to less. */
  lemma {:induction false} SumToMonotone(s: seq<int>, m: nat, n: nat)
    requires m <= n <= |s|
    requires forall i :: 0 <= i < |s| ==> s[i] >= 0
    ensures 0 <= SumTo(s, m) <= SumTo(s, n)
    decreases n
  {
    if m < n {
      SumToMonotone(s, m, n - 1);
    } else if n > 0 {
      SumToMonotone(s, n - 1, n - 1);
    }
  }

  /** Each cumulative score is the previous one plus the frame's total, and
      with non-negative totals the cumulative score never decreases. */
  lemma RunningTotalsNonDecreasing(totals: seq<int>)
    requires forall i :: 0 <= i < |totals| ==> totals[i] >= 0
    ensures |totals| > 0 ==> RunningTotals(totals)[0] == totals[0]
    ensures forall k :: 0 < k < |totals| ==>
      RunningTotals(totals)[k] == RunningTotals(totals)[k - 1] + totals[k]
    ensures forall k, l :: 0 <= k <= l < |totals| ==>
      0 <= RunningTotals(totals)[k] <= RunningTotals(totals)[l]
  {
    var finals := RunningTotals(totals);
    if |totals| > 0 {
      assert SumTo(totals, 1) == SumTo(totals, 0) + totals[0];
    }
    forall k, l | 0 <= k <= l < |totals|
      ensures 0 <= finals[k] <= finals[l]
    {
      SumToMonotone(totals, k + 1, l + 1);
    }
  }

  /** Sum of `n` copies of `v`. */
  lemma {:induction false} SumToConstant(s: seq<int>, n: nat, v: int)
    requires n <= |s|
    requires forall i :: 0 <= i < n ==> s[i] == v
    ensures SumTo(s, n) == n * v
    decreases n
  {
    if n > 0 {
      SumToConstant(s, n - 1, v);
    }
  }

  /** A sheet of zero pins scores zero everywhere and raises no aggregate
      flag. */
  lemma ZeroPinsScoreZero(shots: seq<int>, w: nat)
    requires ValidShots(shots) && w <= SlotCount
    requires forall j :: 0 <= j < SlotCount ==> shots[j] == 0
    ensures forall k :: 0 <= k < FramesFor(w) ==> FrameTotals(shots, w)[k] == 0
    ensures forall k :: 0 <= k < FramesFor(w) ==> RunningTotals(FrameTotals(shots, w))[k] == 0
    ensures forall j :: 0 <= j < SlotCount ==> !AggregateFlagged(shots, w, j)
  {
    var totals := FrameTotals(shots, w);
    forall k | 0 <= k < FramesFor(w)
      ensures totals[k] == 0
    {
      assert RawValue(shots, w, k) == 0;
    }
    forall k | 0 <= k < FramesFor(w)
      ensures RunningTotals(totals)[k] == 0
    {
      SumToConstant(totals, k + 1, 0);
    }
  }
}
