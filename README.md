# Hand-gesture command launcher: a Dafny model

The program watches a hand-tracking sensor. A user records static hand
poses ("hand signals") and gives each a name and a shell command. In run
mode, each sensor frame's first hand is compared with the stored signals in
order, and the command of the first acceptable match is run. A command
beginning with `$` is a *modifier*: it is not run but remembered as a
prefix (`$foo` followed by `bar` runs `foo_bar`). Timing rules keep a held
pose from firing on every frame.

The model has five modules:

- `HandModel` (`hand.dfy`): plain values for the sensor's hand, finger,
  bone and vector objects, plus moving a hand bodily (`Translate`).
- `HandSignals` (`signal.dfy`): a recorded signal.
  - `BuildSignal` is the constructor, written over fixed-size arrays as the
    source fills them. It is proved equal to the specification function
    `Built`.
  - `MatchesSignal` is the comparison, with its nested loops, its `continue`
    and its early returns. It is proved to return `MatchCode`, a
    first-failure cascade giving the source's error codes 0–7.
- `SignalProperties` (`signal_properties.dfy`): what the comparison
  guarantees.
  - A declarative characterisation of a match.
  - Which failure gives which code.
  - The rule for retracted fingers.
  - Invariance under moving the hand.
  - A recorded hand matches its own signal.
- `SignalCollection` (`collection.dfy`): the ordered gesture store, a class
  with three parallel sequences, viewed through `Entries()`.
- `Listener` (`listener.dfy`): the per-frame dispatcher.
  - `Scan`/`Dispatch` are the pure state machine. `FirstAccepted`/`Outcome`
    are an independent "first accepted entry, then its response" definition.
  - The `EventListener` class keeps the dispatcher's state between frames.
    Its `OnFrame` is proved equal to `Dispatch` in run mode, and to
    recording a new entry in training mode.
  - `HandleCommand` is the console's mode switch.

## Model

| member | source | states |
|---|---|---|
| HandSignals.Built | code/HandSignal.cc:15-78 | Invalid hands and hands with more than 20 fingers give a 0-finger signal; otherwise it has one slot per finger with that finger's length and extended flag. Every bone's start joint is stored relative to the finger's metacarpal start, which is therefore at the origin; every bone keeps its start-to-end vector and its raw direction; the settings are the given tolerances |
| HandSignals.BuildSignal | code/HandSignal.cc:15-78 | The array-based constructor produces exactly `Built(hand, config)` |
| HandSignals.ZeroFill | code/HandSignal.cc:32-42 | For the first `fingers` slots, lengths and every start, end and direction coordinate become 0 and flags become false; all five arrays keep their contents from slot `fingers` on |
| HandSignals.ZeroBones | code/HandSignal.cc:35-41 | Every start, end and direction coordinate of one finger's row becomes 0; other rows are unchanged |
| HandSignals.CopyFingers | code/HandSignal.cc:44-61 | Each finger's flag, its length (added onto the zeroed slot) and its raw joints and directions are copied in order; all five arrays keep their contents from slot `|hand.fingers|` on |
| HandSignals.CopyBones | code/HandSignal.cc:51-60 | Row i of the start, end and direction arrays is set to finger i's raw bone data; other rows are unchanged |
| HandSignals.FillOffsets | code/HandSignal.cc:63-68 | The offset of finger j is its metacarpal start joint |
| HandSignals.SubtractOffsets | code/HandSignal.cc:70-77 | Every start and end joint is moved by its finger's offset, directions are untouched |
| HandSignals.SubtractOffset | code/HandSignal.cc:71-76 | One finger's joints are made relative to its offset; other rows are unchanged |
| HandSignals.SignalData.IsValid | code/HandSignal.cc:117-119 | Defined as having at least one finger; its partner is `SignalProperties.InvalidNeverMatches`, which shows code 1 occurs exactly for signals that are not valid |
| HandSignals.ValueDiff | code/HandSignal.cc:121-123 | The absolute difference: non-negative and equal to `val - base` or `base - val` |
| HandSignals.AllFalse | code/HandSignal.cc:125-133 | Returns true exactly when no flag in the array is set |
| HandSignals.AxisCode | code/HandSignal.cc:169-179 | One coordinate's code is 0 exactly when start, end and direction are all within tolerance; 4 exactly when the start is off; 5 exactly when the start is within and the end is off; 6 exactly when start and end are within and the direction is off |
| HandSignals.AxesCode | code/HandSignal.cc:167-186 | The axis loop's code is 0, 4, 5 or 6 |
| HandSignals.BonesCode | code/HandSignal.cc:163-187 | The bone loop's code is 0, 4, 5 or 6 |
| HandSignals.FingerCode | code/HandSignal.cc:150-187 | One finger's code is 0 or one of 3–7 |
| HandSignals.FingersCode | code/HandSignal.cc:149-188 | The finger loop's code is 0 or one of 3–7 |
| HandSignals.MatchCodeWith | code/HandSignal.cc:135-190 | The code is within 0–7; it is 1 exactly when the signal has no fingers, and 2 exactly when it has fingers but the counts differ |
| HandSignals.MatchCode | code/HandSignal.cc:135-190 | Defined as the cascade with the skip rule's "every finger retracted" decided over the recorded fingers; `SignalProperties.MatchesIff` characterises its zero value |
| HandSignals.Matches | code/HandSignal.cc:135-190 | Defined as a zero `MatchCode`, which is what `matchesSignal` returns true for (see `MatchesSignal`) |
| HandSignals.MatchesSignal | code/HandSignal.cc:135-190 | The loop method returns the cascade's error code, and true exactly when that code is 0 |
| SignalProperties.AxesCodeZeroIff | code/HandSignal.cc:167-186 | The axis loop passes exactly when every remaining axis is within the start, end and direction tolerances |
| SignalProperties.BonesCodeZeroIff | code/HandSignal.cc:163-187 | The bone loop passes exactly when every remaining bone and axis is within tolerance |
| SignalProperties.FingerCodeZeroIff | code/HandSignal.cc:150-187 | A finger passes exactly when its flag agrees and, if it is checked, its length and geometry are within tolerance |
| SignalProperties.FingersCodeZeroIff | code/HandSignal.cc:149-188 | The finger loop passes exactly when every remaining finger agrees |
| SignalProperties.MatchesIff | code/HandSignal.cc:135-190 | A hand matches exactly when the signal has fingers, the counts agree and every finger agrees |
| SignalProperties.InvalidNeverMatches | code/HandSignal.cc:138-141 | Code 1 exactly for a signal with no fingers, and such a signal matches no hand |
| SignalProperties.CountMismatchNeverMatches | code/HandSignal.cc:142-145 | A valid signal and a hand with a different finger count give code 2 |
| SignalProperties.FingersFirstFailure | code/HandSignal.cc:149-188 | The finger loop's code is that of the first failing finger |
| SignalProperties.AxesFirstFailure | code/HandSignal.cc:167-186 | The axis loop's code is that of the first failing axis |
| SignalProperties.BonesFirstFailure | code/HandSignal.cc:163-187 | The bone loop's code is that of the first failing (bone, axis) pair |
| SignalProperties.FirstFailingFingerDecides | code/HandSignal.cc:149-188 | When all fingers before j agree and finger j does not, the match code is finger j's code and there is no match |
| SignalProperties.ExtensionMismatchCode | code/HandSignal.cc:152-155 | A flag mismatch on the first disagreeing finger gives code 7 |
| SignalProperties.LengthMismatchCode | code/HandSignal.cc:158-161 | A checked finger whose length is out of tolerance, after agreeing fingers, gives code 3 |
| SignalProperties.GeometryMismatchCode | code/HandSignal.cc:163-187 | At the first out-of-tolerance coordinate, the code is 4 for the start joint, 5 for the end joint and 6 for the direction, in that priority |
| SignalProperties.AxesCongruent | code/HandSignal.cc:167-186 | Axis loops agreeing axis by axis give the same code |
| SignalProperties.BonesCongruent | code/HandSignal.cc:163-187 | Bone loops agreeing coordinate by coordinate give the same code |
| SignalProperties.FingersCongruent | code/HandSignal.cc:149-188 | Finger loops agreeing finger by finger give the same code |
| SignalProperties.RetractedGeometryIgnored | code/HandSignal.cc:156 | Unless every recorded finger is retracted, the length and bones of retracted live fingers do not affect the code |
| SignalProperties.TranslatedAxisCode | code/HandSignal.cc:169-177 | Shifting a finger's joints leaves every axis comparison unchanged, since joints are compared relative to the metacarpal start |
| SignalProperties.MatchTranslationInvariant | code/HandSignal.cc:135-190 | Moving the whole live hand leaves the match code unchanged |
| SignalProperties.BuildTranslationInvariant | code/HandSignal.cc:63-77 | Moving the whole hand before recording it gives the identical signal |
| SignalProperties.SelfMatch | code/HandSignal.cc:17-78 | With non-negative tolerances, a valid hand of 1 to 20 fingers matches the signal recorded from it |
| SignalProperties.MatchCodeAsWritten | code/HandSignal.cc:125-133 | The comparison with the all-retracted test over all 20 slots; when the slots past the recorded fingers hold false, it agrees with `MatchCode` |
| SignalProperties.UnwrittenSlotSkipsFistCheck | code/HandSignal.cc:125-133 | A stale true in an unwritten slot makes a 10 mm one-finger fist match a 90 mm fist (code 0), where the recorded fingers alone give code 3 |
| SignalProperties.AllRetractedTemplateComparesEveryFinger | code/HandSignal.cc:156-187 | With the test over the recorded fingers, a template with every finger retracted matches only hands whose every finger is within the length and geometry tolerances |
| SignalCollection.Zip | code/HandSignalCollection.h:20-22 | Entry i of the store is (signals[i], names[i], commands[i]) |
| SignalCollection.Removed | code/HandSignalCollection.h:9 | Removing index i keeps earlier entries in place and moves later ones down by one |
| SignalCollection.FirstIndex | code/HandSignalCollection.h:10 | The index of the first entry with that name, or -1 exactly when there is none |
| SignalCollection.HandSignalCollection.constructor | code/HandSignalCollection.h:6 | The store starts empty |
| SignalCollection.HandSignalCollection.Add | code/HandSignalCollection.h:8 | Adding appends one entry at the end and reports success |
| SignalCollection.HandSignalCollection.RemoveAt | code/HandSignalCollection.h:9 | Succeeds exactly for an index in range and then removes that entry; otherwise nothing changes |
| SignalCollection.HandSignalCollection.RemoveByName | code/HandSignalCollection.h:10 | Succeeds exactly when the name is stored, then removes its first entry; otherwise nothing changes |
| SignalCollection.HandSignalCollection.GetName | code/HandSignalCollection.h:11 | The name of entry i |
| SignalCollection.HandSignalCollection.GetCommand | code/HandSignalCollection.h:12 | The command of entry i |
| Listener.FirstChar | code/main.cc:126 | Defined as the first character of a command, `'\0'` for the empty command, as indexing position 0 of an empty string reads the terminator |
| Listener.IsModifier | code/main.cc:126-135 | A command is a modifier exactly when it is non-empty and starts with `$` |
| Listener.Eligible | code/main.cc:126 | Defined as the timing rule: more than 500 ms since the last accepted gesture and a different entry, or more than 2000 ms |
| Listener.Scan | code/main.cc:117-152 | The literal scan of the entries in store order. When it yields a command line, the prefix is left empty, the clock is set 1000 ms past now, and the last entry is a non-modifier entry at or after the start index; `ScanIsFirstAccepted` gives its full meaning |
| Listener.Dispatch | code/main.cc:109-152 | Defined as expiring the prefix, then scanning from entry 0; `DispatchOutcomes` lists its three possible results and `EventListener.OnFrame` is proved equal to it in run mode |
| Listener.ClearTimedOut | code/main.cc:109-113 | The prefix is dropped exactly when it is non-empty and more than 4000 ms passed since the last accepted gesture; the clock and the last entry are kept |
| Listener.FirstAccepted | code/main.cc:118-152 | The first index from i on whose entry matches and passes the timing and modifier rules, or the end of the store |
| Listener.ScanQuiet | code/main.cc:126 | Within 500 ms of the last accepted gesture the scan accepts nothing and changes nothing |
| Listener.ScanIsFirstAccepted | code/main.cc:118-152 | The scan equals the response to the first accepted entry. At most one entry acts per frame, because accepting a modifier resets the clock |
| Listener.DispatchOutcomes | code/main.cc:109-152 | A frame does nothing, takes a modifier while none is pending, or runs a plain command behind the pending prefix. After running, the prefix is emptied and the clock moves 1000 ms past now |
| Listener.DebounceWindow | code/main.cc:109-152 | A frame within 500 ms of the last accepted gesture only expires the prefix |
| Listener.SameGestureDebounce | code/main.cc:126 | Within 2000 ms the last accepted entry is not accepted again |
| Listener.PendingModifierBlocksModifiers | code/main.cc:126-149 | With a live prefix, no modifier is taken; the frame either does nothing or runs a plain command behind the prefix |
| Listener.TimedOutModifierDropped | code/main.cc:109-113 | After the 4000 ms timeout, a command runs without any prefix |
| Listener.HeldGestureRefire | code/main.cc:126-149 | A held pose whose command has run fires again exactly when more than 3000 ms have passed; within 1500 ms the frame does nothing |
| Listener.ModifierThenTerminal | code/main.cc:109-149 | `$foo` then `bar` runs `foo_bar` when the second pose comes within 4000 ms, and `bar` alone after that |
| Listener.EventListener.constructor | code/main.cc:88-90 | The listener starts with the three frame statics' initial values and paused (the mode's initial 0 is at `main.cc:17`), with no gesture accepted yet (time 0, entry -1) and an empty prefix |
| Listener.EventListener.OnFrame | code/main.cc:87-170 | The frame handler. Paused, or with no hand: nothing changes. Running: the state and the command line are those of `Dispatch`. Training: the hand is recorded under the 50/60/0.55 tolerances, appended to the store, and the mode returns to paused |
| Listener.EventListener.HandleCommand | code/main.cc:213-245 | `run`/`pause`/`train` set the mode to 1/0/2, `exit` stops the console loop, and `remove` deletes the first entry with the name exactly when it exists; the dispatcher state is untouched |

## Left out

- Sensor API: the tracking SDK's hand, finger and bone objects are plain values; finger types (`HandSignal.cc:48`) are not recorded.
- Shell: the `system()` call, the `./… >& /dev/null` wrapping and its status are not modelled; `OnFrame` returns the command line it would run.
- Console: prompts, reading the name and command during training, and the DEBUG printers are not modelled; training takes the name and command as parameters.
- Threads: the console and the listener thread run concurrently in the source, and `train` busy-waits for the mode to go back to 0. The model runs the two as separate steps and leaves the wait out.
- Clock: the wall clock becomes the parameter `now`, the same for the whole frame; the source reads it afresh at each comparison.
- Number types: `float` becomes `real`, so rounding is not modelled. The millisecond `long` becomes an unbounded `int`, so overflow is not modelled.
- ValueDiff: models the floating-point absolute value; whether the unqualified `abs` in `HandSignal.cc:122` resolves to an integer overload depends on which standard headers declare it, and is not modelled.
- Storage: `save()`, the copy constructor (`HandSignal.cc:80-97`) and the printing operators are left out; signals are values, so copying is implicit.
- SignalCollection.HandSignalCollection.GetName: requires an index in range, because the implementation file for the store is not part of this model; likewise `GetCommand`. `Add` always reports success for the same reason.
- Built: does not state that the slots past the recorded fingers are zero. The source never writes them; the model does not hold them at all (see Findings).
- Tolerances: `HandSignal.h` is not part of this model. The order of the tolerance record's fields, and so the reading of `{50, 60, 0.55}` as length 50 mm, position 60 mm and direction 0.55, is assumed.
- Single-argument constructor: it leaves the tolerances unset; the model always takes them as a parameter.
- Refire timing: the code adds a 1000 ms cool-down after a command runs, so a held pose refires after more than 3000 ms rather than 2000 ms. The model follows the code.
- Scan order: a matching but ineligible entry does not stop the scan; later entries are still tried. The model follows the code.
- Other console commands: `list`, `help` and unknown ones only print and are not modelled.

## Findings

| source | as written | input that shows it | evidently intended | confidence | as-written member | corrected member |
|---|---|---|---|---|---|---|
| code/HandSignal.cc:125-133 | The all-retracted test scans all 20 flag slots, but the constructor only writes the first `fingers` of them, so the rest hold whatever the object was created with | A one-finger fist recorded at 10 mm with a stale true in slot 1, compared with a one-finger fist of 90 mm: the length check is skipped and the hand matches (code 0) | Decide "every recorded finger is retracted" over the recorded fingers only, which gives code 3 here | low: not executed; depends on how `HandSignal.h` initialises the arrays, which is not part of this model | SignalProperties.MatchCodeAsWritten, SignalProperties.UnwrittenSlotSkipsFistCheck | SignalProperties.AllRetractedTemplateComparesEveryFinger, HandSignals.MatchCode |
