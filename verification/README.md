# Bowling score sheet — recomputation pass

The program is a small tkinter score sheet for one ten-pin game: 21
one-character entry slots (two for each of frames one to nine, three for the
tenth frame) and ten score labels. Every keystroke in a slot runs the
validation hook, which refuses an insertion past the first character and
otherwise re-runs `calculateEntries` from scratch. That pass:

1. reads every slot, the focused one showing the provisional value `P` of the
   edit;
2. turns each slot into a pin count (digit → its value, `x`/`X` → 10, `/` in
   an odd slot → what the previous slot left standing, anything else → 0);
3. marks the second slot of each strike frame among frames one to nine;
4. builds frame values only for frames reached by the focused slot, raising
   legality flags on pairs that sum strictly between ten and twenty and on a
   third throw the tenth frame does not allow;
5. adds spare and strike bonuses;
6. accumulates the totals into the cumulative score of each frame;
7. moves the focus to the next slot, or past an unused second slot after a
   strike.

The model is pure. The sheet is a `seq<Entry>` of 21 strings of length at
most one; the focus is an `Option<SlotIndex>` (`None` when no slot is
focused); the colour of a slot is a boolean flag (error
colour = `true`). `Engine.Calculate` states each stage in closed form (modules
`Tokenizer`, `Frames`, `Focus`), and `Engine.CalculateEntries` runs the
program's loops one by one (`TokenizeSlots`, `MarkStrikes`,
`AggregateFrames`, `AddBonuses`, `Accumulate`, `AdvanceFocus`), with the
same branches and constants, and is proved to compute exactly
`Calculate`. `Properties` and `Scenarios` prove what a pass guarantees.

Frames are numbered from one in prose and indexed from zero in the code
(`frameValues[8]` is frame nine).

The code, not ten-pin rules, is modelled. Where the two differ, the model
follows the code and states the difference as a lemma:

- the second slot of a strike frame is still summed, so a strike followed by
  a non-zero digit has a raw value above ten and is flagged, in the tenth frame too
  (`PairFlag`, `TenthFrameStrikeFiveThree`);
- a strike followed by an open frame gains one bonus ball only
  (`StrikeBeforeOpenFrameGetsOneBall`, `StrikeThenOpenFrame`), and a strike
  followed by a spare gains the first throw of the frame after the spare
  instead of the spare's second ball (`StrikeThenSpare`);
- frame nine gains the tenth frame's second throw only when frame eight was
  a strike too (`NinthFrameSecondBall`), and then even when frame nine is a
  spare, so a spare in frame nine after a strike in frame eight gains two
  balls (`SpareNineAfterStrikeEight`);
- a frame whose bonus throws are not yet entered is not withheld: every frame
  reached shows the sum computed so far, and frames past the focused slot are
  simply not computed (`CursorCutOff`);
- with the focus on slot 18, frame nine's bonus may read slot 19, which is
  past the focus and may hold stale text (`StaleNineteenLeaks`); for every
  other focus, slots past the focus never change a score
  (`StaleSlotsIgnored`).

The validation hook's guard refuses an insertion at a character index above
zero, which keeps a keystroke into an empty slot to one character
(`GuardOnInsertion`), but it lets a character be inserted at index zero in
front of an existing one: "3" typed before a "5" gives "35"
(`GuardAdmitsSecondCharacter`). The model takes every entry to hold at most
one character; see "Left out".

## Model

| member | source | states |
|---|---|---|
| `Slots.Snapshot` | bowling.py:220-224 | the pass reads the provisional value in the focused slot and the stored text everywhere else |
| `Tokenizer.PinAt` | bowling.py:243-251 | every pin count lies in 0..10; an even slot reads ten exactly when it holds x/X; a non-zero count comes from a character of `[0-9xX/]` |
| `Tokenizer.FlaggedEntryScoresZero` | bowling.py:226-255 | an entry flagged by the character or misplaced-spare check scores zero pins; an empty entry is never flagged by those checks and scores zero |
| `Tokenizer.PinAtDependsOnPrefix` | bowling.py:243-251 | a slot's pin count depends only on the slots up to it |
| `Frames.FramesFor` | bowling.py:268-273 | a pass creates one frame per first throw written, never more than ten, all ten once slot 18 is written |
| `Frames.RawValue` | bowling.py:277-292 | a frame's raw value lies in 0..30, and in 0..20 for frames one to nine |
| `Frames.NextBallBonus` | bowling.py:299-309 | the bonus collected when the next frame is reached lies in 0..20 and is paid only to a frame of ten or more whose next frame is reached |
| `Frames.SecondBallBonus` | bowling.py:305-307 | the second bonus ball lies in 0..10 and is paid only to a strike frame whose frame two on is reached |
| `Frames.FrameTotal` | bowling.py:299-309 | a frame's total is at least its raw value; a frame below ten and the tenth frame gain nothing |
| `Frames.RunningTotalsNonDecreasing` | bowling.py:311-314 | each cumulative score is the previous one plus the frame's total, and with non-negative totals cumulative scores never decrease |
| `Focus.NextFocus` | bowling.py:321-329 | focus moves one slot on, or two after x/X in an even slot up to 16, landing on the next frame's first slot; slot 20 keeps the focus; no focused slot, no move |
| `Engine.Calculate` | bowling.py:195-329 | the reference pass, stated stage by stage: pin counts lie in 0..10, one flag per slot, and one value, total and cumulative score per frame reached |
| `Engine.TokenizeSlot` | bowling.py:226-255 | one step of the tokenizing loop gives exactly the slot's closed-form pin count and token flag, given the counts before it |
| `Engine.TokenizeSlots` | bowling.py:215-255 | the tokenizing loop yields exactly the closed-form pin counts and token flags, and requests a double step exactly for a strike typed into the focused first slot of frames one to nine |
| `Engine.MarkStrikes` | bowling.py:257-262 | the second slot of frame k (k up to 8) is marked -1 exactly when frame k opens with ten; every other slot, slot 19 included, keeps its pin count |
| `Engine.WriteSlot` | bowling.py:264-292 | one step of the frame loop while scores are written extends the frame values to exactly those of one more written slot, and raises exactly that slot's pair or third-throw flag |
| `Engine.AggregateFrames` | bowling.py:264-296 | the frame loop creates and sums frames only up to the focused slot, and raises exactly the pair and third-throw flags on written slots, on top of the token flags |
| `Engine.BonusStep` | bowling.py:299-309 | what one step of the bonus loop adds to the two frames before it equals the closed-form bonuses |
| `Engine.AddBonuses` | bowling.py:298-309 | the bonus loop turns raw values into exactly the closed-form frame totals |
| `Engine.Accumulate` | bowling.py:311-314 | the nested accumulation loop yields every frame's sum of totals up to it |
| `Engine.AdvanceFocus` | bowling.py:320-329 | the focus step after the pass selects exactly the next-focus rule |
| `Engine.CalculateEntries` | bowling.py:195-329 | the whole pass, run loop by loop, computes exactly the stage-by-stage scoreboard |
| `Engine.OnValidate` | bowling.py:178-187 | an edit of the focused slot is accepted exactly when its character index is not above zero, and a refused one needs a non-empty entry; an accepted edit produces the pass over the sheet with the edited text in that slot; an accepted one-character insertion (within the one-character model) was typed into an empty entry |
| `Engine.GuardOnInsertion` | bowling.py:180-183 | every one-character insertion the guard refuses would make the entry longer than one character; one it accepts leaves exactly one character exactly when the entry was empty |
| `Engine.GuardAdmitsSecondCharacter` | bowling.py:180-187 | the guard accepts "3" inserted at index zero before a "5", giving the two-character entry "35" |
| `Properties.CursorCutOff` | bowling.py:265-296 | with focus on slot c, exactly min(10, c div 2 + 1) frames are created (ten without focus), and a frame sums only its slots up to c: the tenth frame holds slot 18 alone with focus on 18, slots 18 and 19 with focus on 19 |
| `Properties.ThirdThrowRule` | bowling.py:278-284 | the third throw counts only when the tenth frame's first two throws reach ten; otherwise a non-zero third throw is flagged and left out |
| `Properties.PairFlag` | bowling.py:285-288 | the second slot of a written pair is flagged when the pair sums strictly between ten and twenty; so x/X followed by a digit 1..9 is flagged |
| `Properties.FlagRule` | bowling.py:218-288 | a slot is shown in the error colour exactly when it holds a character outside `[0-9xX/]`, or a "/" in an even slot, or is a written second slot whose pair sums strictly between ten and twenty, or is a written non-zero third throw after a tenth-frame pair below ten |
| `Properties.EmptySlotNeverFlagged` | bowling.py:226-232 | an empty slot is never flagged by any check |
| `Properties.SparePlacement` | bowling.py:248-255 | a `/` in an even slot is flagged and scores zero; in an odd slot it completes the pair to ten |
| `Properties.CumulativeNonDecreasing` | bowling.py:311-314 | the first cumulative score is frame one's total, each later one adds the frame's total, and they are non-negative and never decrease |
| `Properties.BonusRulesOnShots` | bowling.py:299-309 | the bonus rules over pin counts, as listed for BonusRules |
| `Properties.BonusRules` | bowling.py:299-309 | a frame below ten, the tenth frame and a frame whose next frame is not reached gain nothing; a frame of ten or more gains at least the next frame's first throw, and exactly that when it lies in frames one to eight and is not a strike or its frame two on is not reached; a strike before a frame of ten or more gains exactly the first throws of the next two frames |
| `Properties.StrikeBeforeOpenFrameGetsOneBall` | bowling.py:300-307 | a strike followed by a frame below ten gains only the next frame's first throw |
| `Properties.NinthFrameSecondBall` | bowling.py:306-309 | a frame nine of ten or more gains the tenth frame's first and second throws after a strike in frame eight when the tenth frame reaches ten or its second throw is ten; without the strike, or when neither holds, only the first throw |
| `Properties.ShotsAgreeUpToFocus` | bowling.py:243-251 | sheets that agree before the focused slot (with the same provisional value) have the same pin counts up to it |
| `Properties.FramesReadOnlyWritten` | bowling.py:264-309 | unless exactly 19 slots are written, frame values and totals depend only on pin counts of written slots |
| `Properties.StaleSlotsIgnored` | bowling.py:294-296 | for every focus except slot 18, text past the focused slot never changes a frame value, total or cumulative score |
| `Properties.EmptySheetScoresNothing` | bowling.py:226-251 | a pass over an empty sheet, whatever the focus, scores zero in every frame reached and flags no slot |
| `Scenarios.PerfectPins` | bowling.py:243-251 | the perfect sheet's strike slots read ten, all others zero |
| `Scenarios.PerfectTotals` | bowling.py:299-309 | with those pin counts every frame totals 30 |
| `Scenarios.PerfectGame` | bowling.py:299-314 | strikes in slots 0, 2, …, 16 and 18, 19, 20 score 300 |
| `Scenarios.GutterGame` | bowling.py:299-314 | a sheet of zeros scores zero in every frame reached |
| `Scenarios.OpenFrame` | bowling.py:285-314 | any sheet opening with "5", "4" gives frame one 9, once slot 1 is written |
| `Scenarios.SpareThenThree` | bowling.py:299-314 | any sheet opening with "5", "/", "3" gives frame one 13, once slot 2 is written |
| `Scenarios.ThreeStrikes` | bowling.py:299-314 | strikes opening frames one to three (second slots empty) give frame one 30, once slot 4 is written |
| `Scenarios.TenthFrameStrikeFiveThree` | bowling.py:279-288 | a tenth frame of "X", "5", "3" is worth 18 with no bonus, its "5" is flagged and its "3" is not |
| `Scenarios.SpareAsFirstThrow` | bowling.py:248-255 | "/", "4" in frame one: the "/" is flagged and scores nothing, so frame one is 4 |
| `Scenarios.StrikeThenOpenFrame` | bowling.py:300-307 | a strike then "3", "4" gives frame one 13, not the 17 of ten-pin rules |
| `Scenarios.StrikeThenSpare` | bowling.py:300-307 | a strike then "3", "/", "5" gives frame one 18, not the 20 of ten-pin rules |
| `Scenarios.SpareNineAfterStrikeEight` | bowling.py:300-309 | a strike in frame eight, "5", "/" in frame nine and three strikes in the tenth give frame nine 30, not the 20 of ten-pin rules |
| `Scenarios.LateStrikeTotal` | bowling.py:306-309 | with focus on slot 18 and strikes opening frames eight to ten, frame nine totals 20 plus slot 19's pins |
| `Scenarios.StaleNineteenLeaks` | bowling.py:306-309 | two sheets differing only in slot 19, past the focus on slot 18, give frame nine 20 and 25 |

## Left out

- Widget construction and layout (`displayWindow`, `normalFrame`, `longFrame`): tkinter presentation.
- `exitFrame` and `mainloop`: process lifecycle.
- The bell and the actual colours: a slot's colour is the boolean flag; the bell only accompanies a refused edit, which `OnValidate` returns as `None`.
- Writing the cumulative scores into the labels, including labels past the focus keeping stale text: presentation. The model returns the cumulative scores of the frames reached.
- `resetFrame`: not modelled. It deletes every entry, each deletion being validated (and recomputed) before its text goes, so its last pass still reads the old text of the last non-empty slot unless that slot is focused; it does not recolour the slots, so a reset keeps the colours of its last deletion pass. Resetting labels and value lists is presentation, and the next pass rebuilds the lists. `EmptySheetScoresNothing` states only what a pass makes of an empty sheet.
- Slots of more than one character: the hook refuses insertions past index zero, but inserting at index zero in a non-empty slot gives a two-character `P` (`GuardAdmitsSecondCharacter`). The program then converts any text holding a digit with `int()`, which accepts a sign and surrounding blanks: "35" becomes a pin count of 35 and "-5" one of -5, outside the 0..10 that `PinAt` states, while " 5" and "+5" give 5; a digit next to another character `int()` does not accept, such as "x5", raises. A negative count makes frame values and cumulative scores negative and lets them decrease, so `CumulativeNonDecreasing` holds only within the one-character model. Text of two characters without a digit, such as "xx" or "/x", scores zero and is not flagged when one character is in `[0-9xX/]`. The model keeps every entry to at most one character.
- Real focus and event handling: the focused slot is an explicit optional index, and which slot's `P` is being validated is taken to be the focused one.
- `Engine.OnValidate`: takes the edit as a character index, a number of removed characters and the inserted text, and ignores the action code (insert or delete), as the program does. It requires the edited text to hold at most one character, so it does not model the two-character entries described above.
