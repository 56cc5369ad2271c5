/** One recomputation pass over the score sheet, run on every keystroke:
    tokenize, mark strikes, aggregate frames up to the focused slot, add the
    bonuses, accumulate, and decide where the focus goes next. */
module Engine {
  import opened Slots
  import opened Tokenizer
  import opened Frames
  import opened Focus

  /** Everything a pass produces. `flags[i]` is true when slot `i` is shown
      in the error colour. The frame sequences hold one element per frame the
      pass reached; labels of other frames are not touched. */
  datatype Scoreboard = Scoreboard(
    shots: seq<int>,
    frameValues: seq<int>,
    frameTotals: seq<int>,
    frameFinals: seq<int>,
    flags: seq<bool>,
    nextFocus: Option<SlotIndex>)

  /** The flags of a pass: token checks on every slot, aggregate checks on
      the written ones. */
  function Flags(slots: seq<Entry>, shots: seq<int>, w: nat): (flags: seq<bool>)
    requires |slots| == SlotCount && ValidShots(shots)
    ensures |flags| == SlotCount
    ensures forall j :: 0 <= j < SlotCount ==>
      (flags[j] <==> TokenFlagged(slots, j) || AggregateFlagged(shots, w, j))
  {
    seq(SlotCount, j requires 0 <= j < SlotCount =>
      TokenFlagged(slots, j) || AggregateFlagged(shots, w, j))
  }

  /** The result of a pass, stated stage by stage. */
  function Calculate(stored: seq<Entry>, focus: Option<SlotIndex>, p: Entry): (b: Scoreboard)
    requires |stored| == SlotCount
    ensures ValidShots(b.shots) && |b.flags| == SlotCount
    ensures |b.frameValues| == |b.frameTotals| == |b.frameFinals| == FramesFor(Reach(focus))
  {
    var slots := Snapshot(stored, focus, p);
    var shots := Pins(slots);
    var w := Reach(focus);
    var totals := FrameTotals(shots, w);
    Scoreboard(shots, RawValues(shots, w), totals, RunningTotals(totals),
               Flags(slots, shots, w), NextFocus(focus, p))
  }

  /** One step of the tokenizing loop: the pin count and token flag of
      slot `i`, given the pin counts before it. */
  method TokenizeSlot(slots: seq<Entry>, i: nat, shots: seq<int>) returns (v: int, flag: bool)
    requires i < |slots| && |shots| == i
    requires forall j :: 0 <= j < i ==> shots[j] == PinAt(slots, j)
    ensures v == PinAt(slots, i)
    ensures flag == TokenFlagged(slots, i)
  {
    var s := slots[i];
    // A slot starts flagged and is cleared when empty or when it holds a
    // character of [0-9xX/].
    flag := true;
    if s != "" {
      if IsMarkChar(s[0]) {
        flag := false;
      }
    } else {
      flag := false;
    }
    if |s| == 1 && IsDigit(s[0]) {
      v := DigitValue(s[0]);
    } else if IsStrikeMark(s) {
      v := 10;
    } else if i % 2 == 1 && s == "/" {
      v := 10 - shots[i - 1];
    } else {
      v := 0;
      if s == "/" {
        flag := true;
      }
    }
  }

  /** The tokenizing loop: pin counts, token flags, and whether a strike
      was typed into the focused first slot of frames one to nine. */
  method TokenizeSlots(slots: seq<Entry>, focus: Option<SlotIndex>, p: Entry)
    returns (shots: seq<int>, flags: seq<bool>, skipTwice: bool)
    requires |slots| == SlotCount
    ensures shots == Pins(slots)
    ensures |flags| == SlotCount
    ensures forall j :: 0 <= j < SlotCount ==> flags[j] == TokenFlagged(slots, j)
    ensures skipTwice <==> focus.Some? && SkipsTwice(focus.value, p)
  {
    shots := [];
    flags := [];
    skipTwice := false;
    var i := 0;
    while i < SlotCount
      invariant 0 <= i <= SlotCount
      invariant |shots| == i && |flags| == i
      invariant forall j :: 0 <= j < i ==> shots[j] == PinAt(slots, j)
      invariant forall j :: 0 <= j < i ==> flags[j] == TokenFlagged(slots, j)
      invariant skipTwice <==> focus.Some? && focus.value < i && SkipsTwice(focus.value, p)
    {
      if focus == Some(i) {
        if IsStrikeMark(p) && i % 2 == 0 && i / 2 < FrameCount - 1 {
          skipTwice := true;
        }
      }
      var v, flag := TokenizeSlot(slots, i, shots);
      shots := shots + [v];
      flags := flags + [flag];
      i := i + 1;
    }
  }

  /** The strike marker of slot `j`. */
  function MarkOf(shots: seq<int>, j: nat): int
    requires ValidShots(shots) && j < SlotCount
  {
    if j % 2 == 1 && j / 2 < FrameCount - 1 && shots[j - 1] == 10 then -1 else shots[j]
  }

  /** The strike-marking loop: the second slot of a strike frame among
      frames one to nine reads -1, every other slot its pin count. */
  method MarkStrikes(shots: seq<int>) returns (marks: seq<int>)
    requires ValidShots(shots)
    ensures |marks| == SlotCount
    ensures forall k :: 0 <= k < FrameCount - 1 ==> (marks[2 * k + 1] == -1 <==> IsStrikeFrame(shots, k))
    ensures marks[2 * FrameCount - 1] == shots[2 * FrameCount - 1]
    ensures forall j :: 0 <= j < SlotCount && !(j % 2 == 1 && j < 2 * FrameCount - 2 && shots[j - 1] == 10) ==>
      marks[j] == shots[j]
  {
    marks := [];
    var i := 0;
    while i < SlotCount
      invariant 0 <= i <= SlotCount
      invariant |marks| == i
      invariant forall j :: 0 <= j < i ==>
        marks[j] == MarkOf(shots, j)
    {
      marks := marks + [shots[i]];
      if i % 2 == 1 && i / 2 < FrameCount - 1 {
        if shots[i - 1] == 10 {
          marks := marks[i := -1];
        }
      }
      i := i + 1;
    }
    forall k | 0 <= k < FrameCount - 1
      ensures marks[2 * k + 1] == -1 <==> IsStrikeFrame(shots, k)
    {
      assert (2 * k + 1) / 2 == k;
    }
    assert marks[19] == MarkOf(shots, 19);
  }

  /** One step of the frame-building loop while scores are still being
      written: slot `i` opens a frame, completes a pair, or is the tenth
      frame's third throw. */
  method WriteSlot(shots: seq<int>, i: nat, values: seq<int>, totals: seq<int>, finals: seq<int>, flags: seq<bool>)
    returns (values': seq<int>, totals': seq<int>, finals': seq<int>, flags': seq<bool>)
    requires ValidShots(shots) && i < SlotCount
    requires values == RawValues(shots, i) && totals == values
    requires |finals| == |values| && forall k :: 0 <= k < |finals| ==> finals[k] == 0
    requires |flags| == SlotCount
    ensures values' == RawValues(shots, i + 1) && totals' == values'
    ensures |finals'| == |values'| && forall k :: 0 <= k < |finals'| ==> finals'[k] == 0
    ensures flags' == flags[i := flags[i] || AggregateFlagged(shots, i + 1, i)]
  {
    values', totals', finals', flags' := values, totals, finals, flags;
    if |values'| < FrameCount {
      if i % 2 == 0 && i / 2 <= |values'| {
        values' := values' + [0];
        totals' := totals' + [0];
        finals' := finals' + [0];
      }
    }
    var k := i / 2;
    if k >= |values'| {
      k := k - 1;
      if values'[k] >= 10 {
        values' := values'[k := values'[k] + shots[i]];
      } else if values'[k] < 10 && shots[i] > 0 {
        flags' := flags'[i := true];
      }
    } else if i % 2 == 1 {
      values' := values'[k := shots[i] + shots[i - 1]];
      if values'[k] > 10 && values'[k] < 20 {
        flags' := flags'[i := true];
      }
    } else {
      values' := values'[k := shots[i]];
    }
    totals' := totals'[k := values'[k]];
    forall m | 0 <= m < |values'|
      ensures values'[m] == RawValue(shots, i + 1, m)
    {
    }
  }

  /** The frame-building loop: frames are created and summed only up to
      the focused slot, and the aggregate legality flags are raised there. */
  method AggregateFrames(slots: seq<Entry>, shots: seq<int>, tokenFlags: seq<bool>, focus: Option<SlotIndex>)
    returns (values: seq<int>, totals: seq<int>, finals: seq<int>, flags: seq<bool>)
    requires |slots| == SlotCount && ValidShots(shots)
    requires |tokenFlags| == SlotCount
    requires forall j :: 0 <= j < SlotCount ==> tokenFlags[j] == TokenFlagged(slots, j)
    ensures values == RawValues(shots, Reach(focus))
    ensures totals == values
    ensures |finals| == |values| && forall k :: 0 <= k < |finals| ==> finals[k] == 0
    ensures flags == Flags(slots, shots, Reach(focus))
  {
    var w := Reach(focus);
    values := [];
    totals := [];
    finals := [];
    flags := tokenFlags;
    var writeScore := true;
    var i := 0;
    while i < SlotCount
      invariant 0 <= i <= SlotCount
      invariant writeScore <==> focus.None? || i <= focus.value
      invariant values == RawValues(shots, if i < w then i else w) && totals == values
      invariant |finals| == |values| && forall k :: 0 <= k < |finals| ==> finals[k] == 0
      invariant |flags| == SlotCount
      invariant forall j :: 0 <= j < SlotCount ==>
        flags[j] == (TokenFlagged(slots, j) || (j < i && AggregateFlagged(shots, w, j)))
    {
      if writeScore {
        values, totals, finals, flags := WriteSlot(shots, i, values, totals, finals, flags);
      }
      if focus == Some(i) {
        writeScore := false;
      }
      i := i + 1;
    }
  }

  /** What the bonus loop's step `i` adds, in terms of the loop's own data:
      to frame `i - 1` its spare/strike ball (and, at step 9, the tenth
      frame's second ball), to frame `i - 2` its second strike ball. */
  lemma BonusStep(shots: seq<int>, marks: seq<int>, values: seq<int>, w: nat, i: nat)
    requires ValidShots(shots) && w <= SlotCount
    requires |marks| == SlotCount
    requires forall k :: 0 <= k < FrameCount - 1 ==> (marks[2 * k + 1] == -1 <==> IsStrikeFrame(shots, k))
    requires marks[2 * FrameCount - 1] == shots[2 * FrameCount - 1]
    requires values == RawValues(shots, w)
    requires 0 < i < |values|
    ensures NextBallBonus(shots, w, i - 1) ==
      if values[i - 1] >= 10 then
        shots[i * 2]
          + (if i > 1 && marks[(i - 2) * 2 + 1] == -1 && i == 9 && (values[i] >= 10 || marks[i * 2 + 1] == 10)
             then shots[i * 2 + 1] else 0)
      else 0
    ensures i > 1 ==>
      SecondBallBonus(shots, w, i - 2) ==
        if values[i - 1] >= 10 && marks[(i - 2) * 2 + 1] == -1 then shots[i * 2] else 0
  {
  }

  /** The bonus loop over the frames reached. */
  method AddBonuses(shots: seq<int>, marks: seq<int>, values: seq<int>, w: nat) returns (totals: seq<int>)
    requires ValidShots(shots) && w <= SlotCount
    requires |marks| == SlotCount
    requires forall k :: 0 <= k < FrameCount - 1 ==> (marks[2 * k + 1] == -1 <==> IsStrikeFrame(shots, k))
    requires marks[2 * FrameCount - 1] == shots[2 * FrameCount - 1]
    requires values == RawValues(shots, w)
    ensures totals == FrameTotals(shots, w)
  {
    totals := values;
    var i := 0;
    while i < |totals|
      invariant 0 <= i <= |totals|
      invariant |totals| == |values|
      invariant forall k :: 0 <= k < |totals| ==>
        totals[k] == values[k]
          + (if k + 1 < i then NextBallBonus(shots, w, k) else 0)
          + (if k + 2 < i then SecondBallBonus(shots, w, k) else 0)
    {
      if 0 < i {
        BonusStep(shots, marks, values, w, i);
      }
      if i > 0 && values[i - 1] >= 10 {
        totals := totals[i - 1 := totals[i - 1] + shots[i * 2]];
        if i > 1 && marks[(i - 2) * 2 + 1] == -1 {
          totals := totals[i - 2 := totals[i - 2] + shots[i * 2]];
          if i == 9 && (values[i] >= 10 || marks[i * 2 + 1] == 10) {
            totals := totals[i - 1 := totals[i - 1] + shots[i * 2 + 1]];
          }
        }
      }
      i := i + 1;
    }
  }

  /** The accumulation loop: each label gets the sum of the totals up to
      its frame. */
  method Accumulate(totals: seq<int>, zeros: seq<int>) returns (finals: seq<int>)
    requires |zeros| == |totals| && forall k :: 0 <= k < |zeros| ==> zeros[k] == 0
    ensures finals == RunningTotals(totals)
  {
    finals := zeros;
    var i := 0;
    while i < |totals|
      invariant 0 <= i <= |totals|
      invariant |finals| == |totals|
      invariant forall k :: 0 <= k < i ==> finals[k] == SumTo(totals, k + 1)
      invariant forall k :: i <= k < |finals| ==> finals[k] == 0
    {
      var j := 0;
      while j < i + 1
        invariant 0 <= j <= i + 1
        invariant |finals| == |totals|
        invariant finals[i] == SumTo(totals, j)
        invariant forall k :: 0 <= k < i ==> finals[k] == SumTo(totals, k + 1)
        invariant forall k :: i < k < |finals| ==> finals[k] == 0
      {
        finals := finals[i := finals[i] + totals[j]];
        j := j + 1;
      }
      i := i + 1;
    }
  }

  /** The focus step after a pass. */
  method AdvanceFocus(focus: Option<SlotIndex>, skipTwice: bool, p: Entry) returns (next: Option<SlotIndex>)
    requires skipTwice <==> focus.Some? && SkipsTwice(focus.value, p)
    ensures next == NextFocus(focus, p)
  {
    next := focus;
    if focus.Some? {
      var c := focus.value;
      if c < SlotCount - 1 {
        next := Some(c + 1);
        if skipTwice {
          if c + 1 < SlotCount - 1 {
            next := Some(c + 2);
          }
        }
      }
    }
  }

  /** The pass as the program runs it, stage by stage; it computes exactly
      the stated result. */
  method CalculateEntries(stored: seq<Entry>, focus: Option<SlotIndex>, p: Entry) returns (b: Scoreboard)
    requires |stored| == SlotCount
    ensures b == Calculate(stored, focus, p)
  {
    var slots := Snapshot(stored, focus, p);
    var shots, tokenFlags, skipTwice := TokenizeSlots(slots, focus, p);
    var marks := MarkStrikes(shots);
    var values, written, zeros, flags := AggregateFrames(slots, shots, tokenFlags, focus);
    var totals := AddBonuses(shots, marks, values, Reach(focus));
    var finals := Accumulate(totals, zeros);
    var next := AdvanceFocus(focus, skipTwice, p);
    b := Scoreboard(shots, values, totals, finals, flags, next);
  }

  /** The text of an entry after `removed` characters at `index` are
      replaced by `text`: the provisional value the validation hook is shown.
      An insertion removes nothing; a deletion inserts nothing. */
  function Edited(before: string, index: nat, removed: nat, text: string): (after: string)
    requires index + removed <= |before|
    ensures |after| == |before| - removed + |text|
    ensures after[..index] == before[..index]
    ensures after[index..index + |text|] == text
    ensures after[index + |text|..] == before[index + removed..]
  {
    before[..index] + text + before[index + removed..]
  }

  /** The hook's guard: an edit at a character index above zero is refused. */
  predicate Accepts(index: int) {
    !(index > 0)
  }

  /** What the guard does to a keystroke: every one-character insertion it
      refuses would have made the entry longer than one character, and one
      it accepts keeps the entry to one character exactly when the entry was
      empty. */
  lemma GuardOnInsertion(before: string, index: nat, text: string)
    requires index <= |before| && |text| == 1
    ensures !Accepts(index) ==> |Edited(before, index, 0, text)| >= 2
    ensures Accepts(index) ==> (|Edited(before, index, 0, text)| == 1 <==> before == "")
  {
  }

  /** The guard does not keep an entry to one character: typing "3" in front
      of a "5" is accepted and gives the two-character entry "35". */
  lemma GuardAdmitsSecondCharacter()
    ensures Accepts(0)
    ensures Edited("5", 0, 0, "3") == "35"
    ensures |Edited("5", 0, 0, "3")| == 2
  {
  }

  /** The entry validation hook for an edit of the focused slot `c`: an
      edit at a character index above zero (which needs a non-empty entry)
      is refused and recomputes nothing; any other edit triggers a pass over
      the sheet with the edited text in slot `c`. Within the one-character
      model, an accepted one-character insertion was typed into an empty
      entry. */
  function OnValidate(stored: seq<Entry>, c: SlotIndex, index: nat, removed: nat, text: string): (r: Option<Scoreboard>)
    requires |stored| == SlotCount
    requires index + removed <= |stored[c]|
    requires |Edited(stored[c], index, removed, text)| <= 1
    ensures r.Some? <==> Accepts(index)
    ensures r.None? ==> stored[c] != ""
    ensures r.Some? ==> r.value == Calculate(stored, Some(c), Edited(stored[c], index, removed, text))
    ensures r.Some? && removed == 0 && |text| == 1 ==> stored[c] == ""
  {
    var p: Entry := Edited(stored[c], index, removed, text);
    if Accepts(index) then Some(Calculate(stored, Some(c), p)) else None
  }
}
