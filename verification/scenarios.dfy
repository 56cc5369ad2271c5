/** Concrete score sheets and what a pass makes of them. Frames are
    numbered from one in the comments and indexed from zero in the code. */
module Scenarios {
  import opened Slots
  import opened Tokenizer
  import opened Frames
  import opened Focus
  import opened Engine
  import opened Properties

  /** Strikes in the first slot of frames one to nine, three in the tenth. */
  function PerfectSheet(): seq<Entry> {
    seq(SlotCount, i requires 0 <= i < SlotCount => if i % 2 == 0 || i >= 18 then "X" else "")
  }

  /** Zero in every slot. */
  function GutterSheet(): seq<Entry> {
    seq(SlotCount, _ => "0")
  }

  /** strikes opening frames eight, nine and ten; every other slot empty. */
  function LateStrikesSheet(): seq<Entry> {
    ["", "", "", "", "", "", "", "", "", "", "", "", "", "", "X", "", "X", "", "X", "", ""]
  }

  /** the same with a stale "5" in slot 19; every other slot empty. */
  function LateStrikesStaleSheet(): seq<Entry> {
    ["", "", "", "", "", "", "", "", "", "", "", "", "", "", "X", "", "X", "", "X", "5", ""]
  }

  /** Pin counts of the perfect sheet: ten in every strike slot. */
  lemma PerfectPins()
    ensures forall j :: 0 <= j < SlotCount ==>
      PinAt(PerfectSheet(), j) == if j % 2 == 0 || j >= 18 then 10 else 0
  {
    var stored := PerfectSheet();
    forall j | 0 <= j < SlotCount
      ensures PinAt(stored, j) == if j % 2 == 0 || j >= 18 then 10 else 0
    {
      if j % 2 == 0 || j >= 18 {
        assert stored[j] == "X";
      } else {
        assert stored[j] == "";
      }
    }
  }

  /** With every strike slot at ten and all slots written, every frame
      totals 30. */
  lemma PerfectTotals(shots: seq<int>)
    requires ValidShots(shots)
    requires forall j :: 0 <= j < SlotCount ==> shots[j] == if j % 2 == 0 || j >= 18 then 10 else 0
    ensures forall k :: 0 <= k < FrameCount ==> FrameTotal(shots, SlotCount, k) == 30
  {
    forall k | 0 <= k < FrameCount
      ensures FrameTotal(shots, SlotCount, k) == 30
    {
      assert shots[2 * k] == 10;
      if k < FrameCount - 1 {
        assert shots[2 * k + 1] == 0;
        assert RawValue(shots, SlotCount, k) == 10;
        assert shots[2 * k + 2] == 10;
        if k + 1 < FrameCount - 1 {
          assert shots[2 * k + 3] == 0;
          assert RawValue(shots, SlotCount, k + 1) == 10;
          assert shots[2 * k + 4] == 10;
        } else {
          assert RawValue(shots, SlotCount, 9) == 30;
        }
      }
    }
  }

  /** A perfect game scores 300, whether the pass runs with no slot focused
      or with the last strike just typed. */
  lemma PerfectGame(focus: Option<SlotIndex>)
    requires focus.None? || focus == Some(20)
    ensures var b := Calculate(PerfectSheet(), focus, "X");
      && |b.frameFinals| == FrameCount
      && b.frameFinals[FrameCount - 1] == 300
  {
    var stored := PerfectSheet();
    SettledSnapshot(stored, focus, "X");
    PerfectPins();
    var b := Calculate(stored, focus, "X");
    PerfectTotals(b.shots);
    assert forall k :: 0 <= k < FrameCount ==> b.frameTotals[k] == 30;
    SumToConstant(b.frameTotals, FrameCount, 30);
  }

  /** A sheet of zeros scores zero in every frame reached, wherever the
      focus is. */
  lemma GutterGame(focus: Option<SlotIndex>)
    ensures var b := Calculate(GutterSheet(), focus, "0");
      && (forall k :: 0 <= k < |b.frameFinals| ==> b.frameFinals[k] == 0)
      && (forall j :: 0 <= j < SlotCount ==> !b.flags[j])
  {
    var slots := Snapshot(GutterSheet(), focus, "0");
    assert forall j :: 0 <= j < SlotCount ==> slots[j] == "0";
    var shots := Pins(slots);
    forall j | 0 <= j < SlotCount
      ensures shots[j] == 0 && !TokenFlagged(slots, j)
    {
      assert slots[j] == "0";
    }
    ZeroPinsScoreZero(shots, Reach(focus));
  }

  /** "5", "4": frame one is an open frame of nine. */
  lemma OpenFrame(stored: seq<Entry>, focus: Option<SlotIndex>, p: Entry)
    requires |stored| == SlotCount && Settled(stored, focus, p) && Written(focus, 1)
    requires stored[0] == "5" && stored[1] == "4"
    ensures Calculate(stored, focus, p).frameFinals[0] == 9
  {
    SettledSnapshot(stored, focus, p);
    CumulativeNonDecreasing(stored, focus, p);
    var b := Calculate(stored, focus, p);
    assert b.shots[0] == PinAt(stored, 0) == 5;
    assert b.shots[1] == PinAt(stored, 1) == 4;
  }

  /** "5", "/" then "3": the spare scores 13. */
  lemma SpareThenThree(stored: seq<Entry>, focus: Option<SlotIndex>, p: Entry)
    requires |stored| == SlotCount && Settled(stored, focus, p) && Written(focus, 2)
    requires stored[0] == "5" && stored[1] == "/" && stored[2] == "3"
    ensures Calculate(stored, focus, p).frameFinals[0] == 13
  {
    SettledSnapshot(stored, focus, p);
    CumulativeNonDecreasing(stored, focus, p);
    var b := Calculate(stored, focus, p);
    assert b.shots[0] == PinAt(stored, 0) == 5;
    assert b.shots[1] == PinAt(stored, 1) == 5;
    assert b.shots[2] == PinAt(stored, 2) == 3;
    BonusRules(stored, focus, p, 0);
  }

  /** Three strikes in a row: frame one scores 30. */
  lemma ThreeStrikes(stored: seq<Entry>, focus: Option<SlotIndex>, p: Entry)
    requires |stored| == SlotCount && Settled(stored, focus, p) && Written(focus, 4)
    requires IsStrikeMark(stored[0]) && IsStrikeMark(stored[2]) && IsStrikeMark(stored[4])
    requires stored[1] == "" && stored[3] == ""
    ensures Calculate(stored, focus, p).frameFinals[0] == 30
  {
    SettledSnapshot(stored, focus, p);
    CumulativeNonDecreasing(stored, focus, p);
    var b := Calculate(stored, focus, p);
    assert b.shots[0] == PinAt(stored, 0) == 10;
    assert b.shots[1] == PinAt(stored, 1) == 0;
    assert b.shots[2] == PinAt(stored, 2) == 10;
    assert b.shots[3] == PinAt(stored, 3) == 0;
    assert b.shots[4] == PinAt(stored, 4) == 10;
    BonusRules(stored, focus, p, 0);
  }

  /** A tenth frame of "X", "5", "3" has the raw value 18 and gains no
      bonus, yet its "5" is flagged: the pair check sees 15. */
  lemma TenthFrameStrikeFiveThree(stored: seq<Entry>, focus: Option<SlotIndex>, p: Entry)
    requires |stored| == SlotCount && Settled(stored, focus, p) && Written(focus, 20)
    requires stored[18] == "X" && stored[19] == "5" && stored[20] == "3"
    ensures var b := Calculate(stored, focus, p);
      && |b.frameTotals| == FrameCount
      && b.frameValues[9] == 18 && b.frameTotals[9] == 18
      && b.flags[19] && !b.flags[20]
  {
    SettledSnapshot(stored, focus, p);
    var b := Calculate(stored, focus, p);
    assert b.shots[18] == PinAt(stored, 18) == 10;
    assert b.shots[19] == PinAt(stored, 19) == 5;
    assert b.shots[20] == PinAt(stored, 20) == 3;
    ThirdThrowRule(stored, focus, p);
    BonusRules(stored, focus, p, 9);
  }

  /** A "/" as the first throw of frame one is flagged and scores nothing. */
  lemma SpareAsFirstThrow(stored: seq<Entry>, focus: Option<SlotIndex>, p: Entry)
    requires |stored| == SlotCount && Settled(stored, focus, p) && Written(focus, 1)
    requires stored[0] == "/" && stored[1] == "4"
    ensures var b := Calculate(stored, focus, p);
      b.flags[0] && b.shots[0] == 0 && b.frameFinals[0] == 4
  {
    SettledSnapshot(stored, focus, p);
    CumulativeNonDecreasing(stored, focus, p);
    SparePlacement(stored, focus, p, 0);
    var b := Calculate(stored, focus, p);
    assert b.shots[1] == PinAt(stored, 1) == 4;
  }

  /** A strike followed by "3", "4" scores 13, not the 17 of ten-pin rules:
      the strike gains only the next frame's first throw. */
  lemma StrikeThenOpenFrame(stored: seq<Entry>, focus: Option<SlotIndex>, p: Entry)
    requires |stored| == SlotCount && Settled(stored, focus, p) && Written(focus, 4)
    requires stored[0] == "X" && stored[1] == "" && stored[2] == "3" && stored[3] == "4"
    ensures Calculate(stored, focus, p).frameTotals[0] == 13
  {
    SettledSnapshot(stored, focus, p);
    var b := Calculate(stored, focus, p);
    assert b.shots[0] == PinAt(stored, 0) == 10;
    assert b.shots[1] == PinAt(stored, 1) == 0;
    assert b.shots[2] == PinAt(stored, 2) == 3;
    assert b.shots[3] == PinAt(stored, 3) == 4;
    StrikeBeforeOpenFrameGetsOneBall(stored, focus, p, 0);
  }

  /** A strike followed by "3", "/" and then "5" scores 18, not 20: the
      strike's second bonus ball is the "5" of the frame after the spare. */
  lemma StrikeThenSpare(stored: seq<Entry>, focus: Option<SlotIndex>, p: Entry)
    requires |stored| == SlotCount && Settled(stored, focus, p) && Written(focus, 4)
    requires stored[0] == "X" && stored[1] == "" && stored[2] == "3" && stored[3] == "/" && stored[4] == "5"
    ensures Calculate(stored, focus, p).frameTotals[0] == 18
  {
    SettledSnapshot(stored, focus, p);
    var b := Calculate(stored, focus, p);
    assert b.shots[0] == PinAt(stored, 0) == 10;
    assert b.shots[1] == PinAt(stored, 1) == 0;
    assert b.shots[2] == PinAt(stored, 2) == 3;
    assert b.shots[3] == PinAt(stored, 3) == 7;
    assert b.shots[4] == PinAt(stored, 4) == 5;
    BonusRules(stored, focus, p, 0);
  }

  /** A strike in frame eight, then "5", "/" in frame nine and three
      strikes in the tenth: the spare in frame nine gains two balls and is
      worth 30, not the 20 of ten-pin rules. */
  lemma SpareNineAfterStrikeEight(stored: seq<Entry>, focus: Option<SlotIndex>, p: Entry)
    requires |stored| == SlotCount && Settled(stored, focus, p) && Written(focus, 20)
    requires stored[14] == "X" && stored[15] == "" && stored[16] == "5" && stored[17] == "/"
    requires stored[18] == "X" && stored[19] == "X" && stored[20] == "X"
    ensures Calculate(stored, focus, p).frameTotals[8] == 30
  {
    SettledSnapshot(stored, focus, p);
    var b := Calculate(stored, focus, p);
    assert b.shots[14] == PinAt(stored, 14) == 10;
    assert b.shots[15] == PinAt(stored, 15) == 0;
    assert b.shots[16] == PinAt(stored, 16) == 5;
    assert b.shots[17] == PinAt(stored, 17) == 5;
    assert b.shots[18] == PinAt(stored, 18) == 10;
    assert b.shots[19] == PinAt(stored, 19) == 10;
    assert b.frameValues[7] == 10 && b.frameValues[8] == 10;
    NinthFrameSecondBall(stored, focus, p);
  }

  /** With the focus on slot 18 and strikes opening frames eight, nine and
      ten, frame nine's total reads slot 19, which lies past the focus. */
  lemma LateStrikeTotal(stored: seq<Entry>)
    requires |stored| == SlotCount
    requires stored[14] == "X" && stored[15] == "" && stored[16] == "X" && stored[17] == "" && stored[18] == "X"
    ensures Calculate(stored, Some(18), "X").frameTotals[8] == 20 + PinAt(stored, 19)
  {
    SettledSnapshot(stored, Some(18), "X");
    var b := Calculate(stored, Some(18), "X");
    assert b.shots[14] == PinAt(stored, 14) == 10;
    assert b.shots[15] == PinAt(stored, 15) == 0;
    assert b.shots[16] == PinAt(stored, 16) == 10;
    assert b.shots[17] == PinAt(stored, 17) == 0;
    assert b.shots[18] == PinAt(stored, 18) == 10;
    assert b.shots[19] == PinAt(stored, 19);
    assert b.frameValues[7] == 10 && b.frameValues[8] == 10 && b.frameValues[9] == 10;
    NinthFrameSecondBall(stored, Some(18), "X");
  }

  /** Two sheets differing only in slot 19, past the focus on slot 18, give
      frame nine different totals: stale text leaks into the score. */
  lemma StaleNineteenLeaks()
    ensures Calculate(LateStrikesSheet(), Some(18), "X").frameTotals[8] == 20
    ensures Calculate(LateStrikesStaleSheet(), Some(18), "X").frameTotals[8] == 25
  {
    var clean := LateStrikesSheet();
    var stale := LateStrikesStaleSheet();
    LateStrikeTotal(clean);
    LateStrikeTotal(stale);
    assert PinAt(clean, 19) == 0;
    assert PinAt(stale, 19) == 5;
  }
}
