/** Turning entry text into pin counts, and the per-entry legality checks
    that look only at an entry's own text and position. */
module Tokenizer {
  import opened Slots

  function DigitValue(c: char): (d: int)
    requires IsDigit(c)
    ensures 0 <= d <= 9
  {
    c as int - '0' as int
  }

  /** The pin count of slot `i`: a digit is its value, x/X is ten, a "/" in
      an odd slot is what the previous slot left standing, anything else
      (empty text included) is zero. */
  function PinAt(slots: seq<Entry>, i: nat): (v: int)
    requires i < |slots|
    ensures 0 <= v <= 10
    ensures v == 10 && i % 2 == 0 <==> IsStrikeMark(slots[i]) && i % 2 == 0
    ensures v > 0 ==> |slots[i]| == 1 && IsMarkChar(slots[i][0])
    decreases i
  {
    var s := slots[i];
    if |s| == 1 && IsDigit(s[0]) then DigitValue(s[0])
    else if IsStrikeMark(s) then 10
    else if i % 2 == 1 && s == "/" then 10 - PinAt(slots, i - 1)
    else 0
  }

  /** Pin counts of the whole sheet. */
  function Pins(slots: seq<Entry>): (shots: seq<int>)
    ensures |shots| == |slots|
    ensures forall i :: 0 <= i < |slots| ==> shots[i] == PinAt(slots, i)
  {
    seq(|slots|, i requires 0 <= i < |slots| => PinAt(slots, i))
  }

  /** A non-empty entry with no character of `[0-9xX/]`. */
  predicate CharFlagged(s: Entry) {
    |s| == 1 && !IsMarkChar(s[0])
  }

  /** A "/" in an even slot: the first throw of a frame, or slot 18 or 20. */
  predicate SpareMisplaced(slots: seq<Entry>, i: nat)
    requires i < |slots|
  {
    i % 2 == 0 && slots[i] == "/"
  }

  /** Flagged by the tokenizing pass alone. */
  predicate TokenFlagged(slots: seq<Entry>, i: nat)
    requires i < |slots|
  {
    CharFlagged(slots[i]) || SpareMisplaced(slots, i)
  }

  /** An entry flagged by the tokenizing pass contributes no pins, and an
      empty entry is never flagged by it. */
  lemma FlaggedEntryScoresZero(slots: seq<Entry>, i: nat)
    requires i < |slots|
    ensures TokenFlagged(slots, i) ==> PinAt(slots, i) == 0
    ensures slots[i] == "" ==> !TokenFlagged(slots, i) && PinAt(slots, i) == 0
  {
  }

  /** A slot's pin count depends only on the slots up to it. */
  lemma {:induction false} PinAtDependsOnPrefix(a: seq<Entry>, b: seq<Entry>, i: nat)
    requires i < |a| && i < |b|
    requires forall j :: 0 <= j <= i ==> a[j] == b[j]
    ensures PinAt(a, i) == PinAt(b, i)
    decreases i
  {
    assert a[i] == b[i];
    if i % 2 == 1 && a[i] == "/" {
      PinAtDependsOnPrefix(a, b, i - 1);
    }
  }
}
