/** The score sheet's input: 21 one-character entry slots (nine two-slot
    frames followed by a three-slot tenth frame) and which slot, if any,
    holds the keyboard focus while an edit is being validated. */
module Slots {

  datatype Option<+T> = None | Some(value: T)

  /** Number of throw entries on the sheet. */
  const SlotCount: nat := 21

  /** Number of frames, i.e. of cumulative score labels. */
  const FrameCount: nat := 10

  /** Index of an entry slot. */
  type SlotIndex = i: nat | i < 21

  /** The text of one entry, taken to hold at most one character. The
      validation hook does not guarantee this: it refuses an insertion at a
      character index above zero but lets through one at index zero into an
      entry that already holds a character. */
  type Entry = s: string | |s| <= 1

  predicate IsDigit(c: char) {
    '0' <= c <= '9'
  }

  /** A character that keeps an entry from being flagged: `[0-9xX/]`. */
  predicate IsMarkChar(c: char) {
    IsDigit(c) || c == 'x' || c == 'X' || c == '/'
  }

  /** An entry whose lower-case form is "x". */
  predicate IsStrikeMark(s: string) {
    s == "x" || s == "X"
  }

  /** The entries as one recomputation reads them: the focused slot shows
      the provisional value `p` of the edit being validated, every other
      slot its stored text. */
  function Snapshot(stored: seq<Entry>, focus: Option<SlotIndex>, p: Entry): (slots: seq<Entry>)
    ensures |slots| == |stored|
    ensures focus.Some? && focus.value < |stored| ==> slots[focus.value] == p
    ensures forall i :: 0 <= i < |stored| && focus != Some(i) ==> slots[i] == stored[i]
  {
    seq(|stored|, i requires 0 <= i < |stored| => if focus == Some(i) then p else stored[i])
  }

  /** The edit being validated is already the stored text of the focused
      slot (or no slot is focused), so the snapshot is the stored sheet. */
  predicate Settled(stored: seq<Entry>, focus: Option<SlotIndex>, p: Entry) {
    focus.None? || (focus.value < |stored| && stored[focus.value] == p)
  }

  lemma SettledSnapshot(stored: seq<Entry>, focus: Option<SlotIndex>, p: Entry)
    requires Settled(stored, focus, p)
    ensures Snapshot(stored, focus, p) == stored
  {
  }

  /** A sheet with every entry empty. */
  function EmptySheet(): (stored: seq<Entry>)
    ensures |stored| == SlotCount
    ensures forall i :: 0 <= i < |stored| ==> stored[i] == ""
  {
    seq(SlotCount, _ => "")
  }
}
