/** Where the keyboard focus goes after a validated edit. */
module Focus {
  import opened Slots

  /** A strike typed into the first slot of frames one to nine moves the
      focus past the frame's (unused) second slot. */
  predicate SkipsTwice(c: SlotIndex, p: Entry) {
    IsStrikeMark(p) && c % 2 == 0 && c / 2 < FrameCount - 1
  }

  /** The slot focused after the edit: the next slot, or the first slot of
      the next frame after a strike; the last slot keeps the focus, and
      nothing moves when no slot is focused. */
  function NextFocus(focus: Option<SlotIndex>, p: Entry): (next: Option<SlotIndex>)
    ensures focus.None? <==> next.None?
    ensures focus == Some(SlotCount - 1) ==> next == focus
    ensures focus.Some? && focus.value < SlotCount - 1 ==>
      next.value == focus.value + 1 || next.value == focus.value + 2
    ensures focus.Some? && focus.value < SlotCount - 1 ==>
      (next.value == focus.value + 2 <==> IsStrikeMark(p) && focus.value % 2 == 0 && focus.value <= 16)
    ensures focus.Some? && next.value == focus.value + 2 ==>
      next.value % 2 == 0 && next.value / 2 == focus.value / 2 + 1
  {
    match focus
    case None => None
    case Some(c) =>
      if c < SlotCount - 1 then
        if SkipsTwice(c, p) && c + 1 < SlotCount - 1 then Some(c + 2) else Some(c + 1)
      else focus
  }
}
