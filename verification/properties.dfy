/** What a recomputation pass guarantees, for every sheet and focus. */
module Properties {
  import opened Slots
  import opened Tokenizer
  import opened Frames
  import opened Focus
  import opened Engine

  /** Slot `j` is summed into the frames by a pass with this focus. */
  predicate Written(focus: Option<SlotIndex>, j: nat) {
    focus.None? || j <= focus.value
  }

  /** The pass creates one frame per first throw up to the focused slot
      (all ten without a focused slot), and a frame sums only its slots up
      to the focused one: the tenth frame under the cursor on slot 18 or 19
      holds only slot 18, or slots 18 and 19. */
  lemma CursorCutOff(stored: seq<Entry>, focus: Option<SlotIndex>, p: Entry)
    requires |stored| == SlotCount
    ensures var b := Calculate(stored, focus, p);
      && (focus.None? ==> |b.frameValues| == FrameCount)
      && (focus.Some? && focus.value / 2 + 1 < FrameCount ==> |b.frameValues| == focus.value / 2 + 1)
      && (focus.Some? && focus.value / 2 + 1 >= FrameCount ==> |b.frameValues| == FrameCount)
      && (forall k :: 0 <= k < |b.frameValues| && k < FrameCount - 1 ==>
            b.frameValues[k] == b.shots[2 * k] + (if Written(focus, 2 * k + 1) then b.shots[2 * k + 1] else 0))
      && (focus == Some(18) ==> b.frameValues[9] == b.shots[18])
      && (focus == Some(19) ==> b.frameValues[9] == b.shots[18] + b.shots[19])
  {
    if focus.Some? {
      var c: int := focus.value;
      assert (c + 1 + 1) / 2 == c / 2 + 1;
    }
  }

  /** The tenth frame (once its third slot is written): the third throw
      counts only when the first two reach ten; otherwise a non-zero third
      throw is flagged and left out. */
  lemma ThirdThrowRule(stored: seq<Entry>, focus: Option<SlotIndex>, p: Entry)
    requires |stored| == SlotCount
    requires Written(focus, SlotCount - 1)
    ensures var b := Calculate(stored, focus, p);
      var pair := b.shots[18] + b.shots[19];
      && |b.frameValues| == FrameCount
      && (pair >= 10 ==> b.frameValues[9] == pair + b.shots[20])
      && (pair < 10 ==> b.frameValues[9] == pair)
      && (pair < 10 && b.shots[20] > 0 ==> b.flags[20])
  {
  }

  /** The pair check: the second slot of a written pair (frames one to nine,
      and slots 18 and 19 of the tenth) is flagged when the pair sums strictly
      between ten and twenty. So a strike followed by a digit is flagged, in
      the tenth frame too. */
  lemma PairFlag(stored: seq<Entry>, focus: Option<SlotIndex>, p: Entry, j: nat)
    requires |stored| == SlotCount
    requires j < SlotCount - 1 && j % 2 == 1 && Written(focus, j)
    ensures var b := Calculate(stored, focus, p);
      10 < b.shots[j - 1] + b.shots[j] < 20 ==> b.flags[j]
    ensures var slots := Snapshot(stored, focus, p);
      (IsStrikeMark(slots[j - 1]) && |slots[j]| == 1 && IsDigit(slots[j][0]) && slots[j] != "0")
      ==> Calculate(stored, focus, p).flags[j]
  {
    var slots := Snapshot(stored, focus, p);
    var b := Calculate(stored, focus, p);
    if IsStrikeMark(slots[j - 1]) && |slots[j]| == 1 && IsDigit(slots[j][0]) && slots[j] != "0" {
      assert b.shots[j - 1] == 10;
      assert b.shots[j] == DigitValue(slots[j][0]);
      assert slots[j] == [slots[j][0]];
    }
  }

  /** An empty slot is never flagged: not by the character check, and it
      adds no pins that a pair or third-throw check could object to. */
  lemma EmptySlotNeverFlagged(stored: seq<Entry>, focus: Option<SlotIndex>, p: Entry, j: nat)
    requires |stored| == SlotCount && j < SlotCount
    requires Snapshot(stored, focus, p)[j] == ""
    ensures !Calculate(stored, focus, p).flags[j]
  {
    var b := Calculate(stored, focus, p);
    assert b.shots[j] == 0;
  }

  /** A "/" typed as the first throw of a frame (or into slot 18 or 20) is
      flagged and scores no pins; a "/" in an odd slot completes the pair
      to ten. */
  lemma SparePlacement(stored: seq<Entry>, focus: Option<SlotIndex>, p: Entry, j: nat)
    requires |stored| == SlotCount && j < SlotCount
    requires Snapshot(stored, focus, p)[j] == "/"
    ensures var b := Calculate(stored, focus, p);
      j % 2 == 0 ==> b.flags[j] && b.shots[j] == 0
    ensures var b := Calculate(stored, focus, p);
      j % 2 == 1 ==> b.shots[j - 1] + b.shots[j] == 10
  {
  }

  /** When a slot is shown in the error colour: it holds one character
      outside `[0-9xX/]`; or it holds "/" as a frame's first throw (or in
      slot 18 or 20); or it is written, is the second slot of a pair (slot 19
      included), and the pair sums strictly between ten and twenty; or it is
      the written third throw of a tenth frame whose first two throws fall
      short of ten, and is not zero. */
  lemma FlagRule(stored: seq<Entry>, focus: Option<SlotIndex>, p: Entry, j: nat)
    requires |stored| == SlotCount && j < SlotCount
    ensures var slots := Snapshot(stored, focus, p);
      var b := Calculate(stored, focus, p);
      b.flags[j] <==>
        || (|slots[j]| == 1 && !IsMarkChar(slots[j][0]))
        || (j % 2 == 0 && slots[j] == "/")
        || (Written(focus, j) && j % 2 == 1 && 10 < b.shots[j - 1] + b.shots[j] < 20)
        || (Written(focus, j) && j == SlotCount - 1 && b.shots[18] + b.shots[19] < 10 && b.shots[20] > 0)
  {
  }

  /** Cumulative scores are running sums of the frame totals, never
      negative and never decreasing from frame to frame. */
  lemma CumulativeNonDecreasing(stored: seq<Entry>, focus: Option<SlotIndex>, p: Entry)
    requires |stored| == SlotCount
    ensures var b := Calculate(stored, focus, p);
      && b.frameFinals[0] == b.frameTotals[0]
      && (forall k :: 0 < k < |b.frameFinals| ==> b.frameFinals[k] == b.frameFinals[k - 1] + b.frameTotals[k])
      && (forall k, l :: 0 <= k <= l < |b.frameFinals| ==> 0 <= b.frameFinals[k] <= b.frameFinals[l])
  {
    var b := Calculate(stored, focus, p);
    RunningTotalsNonDecreasing(b.frameTotals);
  }

  /** The bonus rules over pin counts (see BonusRules). */
  lemma BonusRulesOnShots(shots: seq<int>, w: nat, k: nat)
    requires ValidShots(shots) && w <= SlotCount && k < FramesFor(w)
    ensures var raw := RawValue(shots, w, k);
      && (raw < 10 ==> FrameTotal(shots, w, k) == raw)
      && (k == FrameCount - 1 ==> FrameTotal(shots, w, k) == raw)
      && (k + 1 >= FramesFor(w) ==> FrameTotal(shots, w, k) == raw)
      && (k + 1 < FramesFor(w) && raw >= 10 ==> FrameTotal(shots, w, k) >= raw + shots[2 * k + 2])
      && (k + 1 < FramesFor(w) && k < FrameCount - 2 && raw >= 10 && shots[2 * k] != 10 ==>
            FrameTotal(shots, w, k) == raw + shots[2 * k + 2])
      && (k + 1 < FramesFor(w) && k + 2 >= FramesFor(w) && k < FrameCount - 2 && raw >= 10 ==>
            FrameTotal(shots, w, k) == raw + shots[2 * k + 2])
      && (k + 2 < FramesFor(w) && shots[2 * k] == 10 && RawValue(shots, w, k + 1) >= 10 ==>
            FrameTotal(shots, w, k) == raw + shots[2 * k + 2] + shots[2 * k + 4])
  {
    if k + 2 < FramesFor(w) && shots[2 * k] == 10 {
      assert RawValue(shots, w, k) >= 10;
    }
  }

  /** The bonus rules as the pass applies them, frame by frame: a frame
      below ten, the tenth frame and a frame whose next frame is not reached
      gain nothing; a frame of ten or more gains the next frame's first throw
      once that frame is reached, and exactly that for a spare (or any
      non-strike) in frames one to eight and for a strike in frames one to
      eight whose frame two on is not reached yet; a strike whose next frame
      reaches ten gains exactly the first throws of the two frames after
      it. */
  lemma BonusRules(stored: seq<Entry>, focus: Option<SlotIndex>, p: Entry, k: nat)
    requires |stored| == SlotCount
    requires k < |Calculate(stored, focus, p).frameTotals|
    ensures var b := Calculate(stored, focus, p);
      && (b.frameValues[k] < 10 ==> b.frameTotals[k] == b.frameValues[k])
      && (k == FrameCount - 1 ==> b.frameTotals[k] == b.frameValues[k])
      && (k + 1 >= |b.frameTotals| ==> b.frameTotals[k] == b.frameValues[k])
      && (k + 1 < |b.frameTotals| && b.frameValues[k] >= 10 ==>
            b.frameTotals[k] >= b.frameValues[k] + b.shots[2 * k + 2])
      && (k + 1 < |b.frameTotals| && k < FrameCount - 2 && b.frameValues[k] >= 10 && b.shots[2 * k] != 10 ==>
            b.frameTotals[k] == b.frameValues[k] + b.shots[2 * k + 2])
      && (k + 1 < |b.frameTotals| && k + 2 >= |b.frameTotals| && k < FrameCount - 2 && b.frameValues[k] >= 10 ==>
            b.frameTotals[k] == b.frameValues[k] + b.shots[2 * k + 2])
      && (k + 2 < |b.frameTotals| && b.shots[2 * k] == 10 && b.frameValues[k + 1] >= 10 ==>
            b.frameTotals[k] == b.frameValues[k] + b.shots[2 * k + 2] + b.shots[2 * k + 4])
  {
    var b := Calculate(stored, focus, p);
    BonusRulesOnShots(b.shots, Reach(focus), k);
  }

  /** A strike followed by a frame below ten gets one bonus ball only: the
      first throw of the next frame, not the second. */
  lemma StrikeBeforeOpenFrameGetsOneBall(stored: seq<Entry>, focus: Option<SlotIndex>, p: Entry, k: nat)
    requires |stored| == SlotCount
    requires k + 2 < |Calculate(stored, focus, p).frameTotals| && k < FrameCount - 2
    requires IsStrikeMark(Snapshot(stored, focus, p)[2 * k])
    requires Calculate(stored, focus, p).frameValues[k + 1] < 10
    ensures var b := Calculate(stored, focus, p);
      b.frameTotals[k] == b.frameValues[k] + b.shots[2 * k + 2]
  {
  }

  /** Frame 9's second bonus ball (the tenth frame's second throw) is
      added only when frame 8 was a strike as well and the tenth frame
      reaches ten or its second throw is ten; otherwise frame 9, even a
      strike, gains only the tenth frame's first throw. Frame 9 need not be a
      strike itself, so a spare there after a strike gains two balls. */
  lemma NinthFrameSecondBall(stored: seq<Entry>, focus: Option<SlotIndex>, p: Entry)
    requires |stored| == SlotCount
    requires |Calculate(stored, focus, p).frameTotals| == FrameCount
    requires Calculate(stored, focus, p).frameValues[8] >= 10
    ensures var b := Calculate(stored, focus, p);
      b.shots[14] != 10 ==> b.frameTotals[8] == b.frameValues[8] + b.shots[18]
    ensures var b := Calculate(stored, focus, p);
      b.shots[14] == 10 && (b.frameValues[9] >= 10 || b.shots[19] == 10) ==>
        b.frameTotals[8] == b.frameValues[8] + b.shots[18] + b.shots[19]
    ensures var b := Calculate(stored, focus, p);
      b.shots[14] == 10 && b.frameValues[9] < 10 && b.shots[19] != 10 ==>
        b.frameTotals[8] == b.frameValues[8] + b.shots[18]
  {
  }

  /** Two sheets that agree up to the focused slot have the same pin counts
      up to it. */
  lemma ShotsAgreeUpToFocus(stored1: seq<Entry>, stored2: seq<Entry>, c: SlotIndex, p: Entry)
    requires |stored1| == SlotCount && |stored2| == SlotCount
    requires forall j :: 0 <= j < c ==> stored1[j] == stored2[j]
    ensures forall j :: 0 <= j <= c ==>
      Calculate(stored1, Some(c), p).shots[j] == Calculate(stored2, Some(c), p).shots[j]
  {
    var s1 := Snapshot(stored1, Some(c), p);
    var s2 := Snapshot(stored2, Some(c), p);
    forall j | 0 <= j <= c
      ensures PinAt(s1, j) == PinAt(s2, j)
    {
      PinAtDependsOnPrefix(s1, s2, j);
    }
  }

  /** Frame results depend only on pin counts of written slots, except
      that with exactly 19 slots written the tenth frame's second slot is
      read too. */
  lemma {:induction false} FramesReadOnlyWritten(shots1: seq<int>, shots2: seq<int>, w: nat)
    requires ValidShots(shots1) && ValidShots(shots2) && 1 <= w <= SlotCount && w != 19
    requires forall j :: 0 <= j < w ==> shots1[j] == shots2[j]
    ensures RawValues(shots1, w) == RawValues(shots2, w)
    ensures FrameTotals(shots1, w) == FrameTotals(shots2, w)
  {
    var n := FramesFor(w);
    forall k | 0 <= k < n
      ensures RawValue(shots1, w, k) == RawValue(shots2, w, k)
    {
    }
    forall k | 0 <= k < n
      ensures FrameTotal(shots1, w, k) == FrameTotal(shots2, w, k)
    {
      if k + 1 < n {
        assert RawValue(shots1, w, k + 1) == RawValue(shots2, w, k + 1);
      }
      if n == FrameCount {
        assert RawValue(shots1, w, 9) == RawValue(shots2, w, 9);
      }
    }
  }

  /** Text left over in slots past the focused one never changes a frame
      value, total or cumulative score, unless the focus is on slot 18. */
  lemma StaleSlotsIgnored(stored1: seq<Entry>, stored2: seq<Entry>, c: SlotIndex, p: Entry)
    requires |stored1| == SlotCount && |stored2| == SlotCount && c != 18
    requires forall j :: 0 <= j < c ==> stored1[j] == stored2[j]
    ensures var b1 := Calculate(stored1, Some(c), p);
      var b2 := Calculate(stored2, Some(c), p);
      b1.frameValues == b2.frameValues && b1.frameTotals == b2.frameTotals && b1.frameFinals == b2.frameFinals
  {
    ShotsAgreeUpToFocus(stored1, stored2, c, p);
    var b1 := Calculate(stored1, Some(c), p);
    var b2 := Calculate(stored2, Some(c), p);
    FramesReadOnlyWritten(b1.shots, b2.shots, c + 1);
  }

  /** A pass over an empty sheet, whatever the focus, scores zero
      everywhere and flags nothing. */
  lemma EmptySheetScoresNothing(focus: Option<SlotIndex>)
    ensures var b := Calculate(EmptySheet(), focus, "");
      && (forall k :: 0 <= k < |b.frameFinals| ==> b.frameTotals[k] == 0 && b.frameFinals[k] == 0)
      && (forall j :: 0 <= j < SlotCount ==> !b.flags[j])
  {
    var slots := Snapshot(EmptySheet(), focus, "");
    assert forall j :: 0 <= j < SlotCount ==> slots[j] == "";
    var shots := Pins(slots);
    forall j | 0 <= j < SlotCount
      ensures shots[j] == 0 && !TokenFlagged(slots, j)
    {
      FlaggedEntryScoresZero(slots, j);
    }
    ZeroPinsScoreZero(shots, Reach(focus));
  }
}
