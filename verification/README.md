# Step sequencer editor: note store and playback scheduler

A Dafny model of the logic in `main.js` of a browser step sequencer. The user
keeps a list of notes `{time, frequency, duration}` in an editable table, adds
notes through a form, and plays the list back as sine oscillators on the Web
Audio clock, optionally looping.

The model has six modules:

- `Wrappers`: `Option` and `Result`. A parsed number is an `Option<real>`,
  with `None` standing for NaN.
- `NoteStore`: the `Note` record, the store as a `seq<Note>`, and the three
  edit operations.
  - `addNote` refuses a note with a NaN field and otherwise appends it.
  - `removeNote` is `splice(index, 1)`, including its handling of negative
    and out-of-range indices.
  - `setNoteValue` ignores NaN. Otherwise it writes one field, and it throws
    when `notes[index]` does not exist.
- `AddNoteForm`: `handleAddNoteForm`. The time falls back to 0 when it does
  not parse (`parseFloat(...) || 0`). The next default time is
  `time + duration`, which is NaN when the duration is NaN.
- `EditHistory`: histories of edits applied in turn, with length accounting.
- `Playback`: the session `(activeNodes, loopTimerId)`, `stopSequence` and
  `playSequence`.
  - Each transition reports the oscillators it stops, the timer it clears,
    the tones it started but no longer holds, and the exception it throws.
  - `playSequence` can throw part-way through its `notes.map`.
    `osc.frequency.value = f` throws a TypeError when `f` does not fit a
    single-precision float (`AudioParam.value` is a WebIDL `float`).
    `osc.start(when)` and `osc.stop(when)` throw a RangeError for a negative
    `when`. Neither `addNote` nor `setNoteValue` rules out such values. Then `activeNodes` keeps the empty list that
    `stopSequence` left, the tones already started play on unheld, and no
    loop timer is armed.
  - `totalDuration` is `Math.max` over the note end times. It is `None`
    when the store is empty, where JavaScript yields `-Infinity`.
- `LoopTimers`: the session together with the browser's set of pending
  timers. This module states the "at most one pending loop timer" invariant
  and what a firing timer does.

Inputs the code takes from the platform are parameters of the model:
`audioContext.currentTime` (`startTime`), `loopCheckbox.checked` (`loop`) and
the handle `setTimeout` returns (`freshId`).

`Math.max()` of no values is `-Infinity`. The loop timer is armed whenever
the loop box is checked and no note throws (main.js:139, 141-159), whatever
the total duration is. So `Playback.EmptyLoopStillArmsTimer` states that an empty store
with looping on still arms the timer, with the "no maximum" delay `None`.

## Model

| member | source | states |
|---|---|---|
| NoteStore.WithField | main.js:125 | Writing property `prop` of a note sets that property to the value and leaves the other two properties as they were. |
| NoteStore.AddNote | main.js:76-87 | The add is refused (`InvalidNumber`) exactly when some field is NaN. Otherwise the store grows by exactly one note, the earlier notes form an unchanged prefix, and the last note is `{time, frequency, duration}`. |
| NoteStore.AddNoteRejectedKeepsStore | main.js:79-82 | An add with any NaN field leaves the store unchanged. |
| NoteStore.SpliceStart | main.js:118 | The position `splice(index, 1)` works at. It is the index when the index is in `0..len`. A negative index counts back from the end and is clamped at 0. An index above the length is clamped to the length. |
| NoteStore.RemoveNote | main.js:117-118 | When the splice position holds a note, the length drops by one, the notes before that position are unchanged, and the notes after it shift down by one. Otherwise (empty store, or index at or past the end) the store is unchanged. |
| NoteStore.RemoveInRange | main.js:117-118 | For `0 <= i < len`, removal equals `notes[..i] + notes[i+1..]`. As multisets, exactly `notes[i]` is lost. |
| NoteStore.RemoveUndoesInsert | main.js:117-118 | Removing index `i` undoes inserting a note at `i`, so the other notes keep their relative order. |
| NoteStore.RemoveUndoesAdd | main.js:117-118 | Removing the last index right after a successful `addNote` gives back the earlier store. |
| NoteStore.SetNoteValue | main.js:122-127 | A NaN value changes nothing. A number with an index in range sets only field `prop` of note `index`. The length, the other fields and the other notes stay the same. A number with an index out of range throws (`NoNoteAtIndex`). |
| NoteStore.SetNoteValueRestore | main.js:122-127 | Writing a field and then writing its old value back restores the store exactly. |
| NoteStore.SetFrequencyExample | main.js:122-127 | A frequency cell holding unparsable text leaves the note unchanged. A cell holding 660 sets the frequency to 660 and nothing else. |
| AddNoteForm.TimeOrZero | main.js:64 | An unparsable time becomes 0. A parsed time is kept. |
| AddNoteForm.SubmitForm | main.js:56-73 | The form calls `addNote` with the fallback time. The add fails exactly when frequency or duration is NaN. The next default time is a number exactly when the duration parsed, and then it equals time plus duration. |
| AddNoteForm.NextTimeIsEndOfAddedNote | main.js:69-72 | After a successful submission, the proposed next time, before the `toFixed(2)` rounding, is the end of the note just appended. |
| AddNoteForm.ConsecutiveSubmissionsAbut | main.js:64-72 | A second submission that keeps the proposed time, before the `toFixed(2)` rounding, starts its note where the previous note ended. |
| EditHistory.ApplyEdit | main.js:76-127 | An accepted add grows the store by one. A rejected add leaves the length unchanged. A remove shrinks the store by one exactly when splice finds a note. A cell edit never changes the length. |
| EditHistory.LengthBounds | main.js:76-127 | For any history of edits, the final length lies between the start length minus the removes and the start length plus the accepted adds. |
| EditHistory.LengthCount | main.js:76-127 | When every remove hits a note, the final length is exactly the start length plus the accepted adds minus the removes. |
| EditHistory.ApplyEditsAppend | main.js:76-127 | Applying two histories one after the other is the same as applying their concatenation. |
| Playback.StopSequence | main.js:164-171 | Stop ends idle, with no active nodes and no timer. It stops exactly the held oscillators and clears exactly the held timer. |
| Playback.StopIdempotent | main.js:164-171 | Stopping twice gives the same state as stopping once. The second stop stops no oscillator and clears no timer. |
| Playback.EndTimes | main.js:136 | One end time per note, in order: `time + duration`. |
| Playback.Max | main.js:139 | `Math.max` over a list is missing exactly when the list is empty. Otherwise it is at least every element and equal to some element. |
| Playback.TotalDuration | main.js:136-139 | `totalDuration` is missing exactly when the store is empty. Otherwise it is at least every note's `time + duration` and equal to that of some note. |
| Playback.TotalDurationExample | main.js:136-139 | Notes ending at 1 s and 1.5 s give a total duration of 1.5 s. |
| Playback.DelayMs | main.js:158 | The timer delay is the total duration times 1000, and it is missing when the total is missing. |
| Playback.ToneFor | main.js:141-154 | A note's oscillator has the note's frequency. It starts at `startTime + time` and stops at that start plus the duration. |
| Playback.Schedule | main.js:141-154 | One oscillator per note, in store order, with the frequency, start and stop of its note. |
| Playback.ScheduleAppend | main.js:141-154 | The schedule of a concatenated store is the concatenation of the schedules, so appending a note appends only its tone. |
| Playback.FirstUnplayable | main.js:141-154 | The index of the first note whose frequency does not fit a `float` or whose start or stop time is negative, or the store length when there is none. Every earlier note is playable. |
| Playback.PlaySequence | main.js:130-161 | Play first stops exactly the previous session's oscillators and timer. It throws exactly when some note's frequency does not fit a single-precision float or its start or stop time is negative. Otherwise it holds one oscillator per note in store order, each with `start = startTime + time` and `stop = start + duration`. A timer is armed exactly when the loop box is checked and nothing threw, under the fresh handle. The delay is missing exactly when the store is empty. Otherwise the delay is at least every note end times 1000 and equal to some note end times 1000. When it throws, the error names the first offending note and says which of the frequency assignment, `start` or `stop` failed, checked in that order. Nothing is held, no timer is armed, and the tones of the earlier notes are reported as orphaned. |
| Playback.NegativeStartEndsLoop | main.js:146-159 | A note at time -1 on a clock at 0 makes `osc.start` throw. Nothing is held and no timer is armed, even with the loop box checked. |
| Playback.NegativeStopOrphansEarlierTones | main.js:146-154 | A negative duration makes `osc.stop` throw. The tone of the earlier note keeps playing without being held. |
| Playback.HugeFrequencyEndsLoop | main.js:142-159 | A frequency of 1e39 Hz passes `addNote` but does not fit a `float`. Setting `osc.frequency.value` throws before `osc.start`, so nothing is held and no timer is armed. |
| Playback.PlayThenStopIsIdle | main.js:130-171 | Play followed by stop leaves no oscillator and no timer held. |
| Playback.PlayReplacesSession | main.js:133 | The session play leaves does not depend on the session it replaced. A second play stops exactly the first play's oscillators and clears exactly its timer. |
| Playback.DelayReachesLastStop | main.js:136-159 | With looping on a non-empty store that schedules without throwing, every scheduled tone stops by `startTime + delay/1000`, and some tone stops exactly then. |
| Playback.EmptyLoopStillArmsTimer | main.js:139-159 | An empty store with looping on schedules no tones and still arms a timer, with no maximum as its delay. |
| LoopTimers.Stop | main.js:164-171 | Stop leaves no pending timer in the browser. It applies the `clearTimeout` of main.js:168 to the browser's timer table through `Commit`. |
| LoopTimers.Play | main.js:130-160 | From a world where every pending timer is the session's own, play leaves at most one pending timer. The fresh timer is pending exactly when the loop box is checked and no note threw; otherwise none is. It applies the `clearTimeout` of main.js:168 and the `setTimeout` of main.js:159 through `Commit`. |
| LoopTimers.Fire | main.js:159 | A firing loop timer re-runs play on the current store and loop box and keeps at most one timer pending. The new timer is pending exactly when the loop box is checked and the replay did not throw. Otherwise nothing is pending, so unchecking the box or a throwing replay ends the loop. |
| LoopTimers.AtMostOnePending | main.js:157-170 | When every pending timer is the session's own, at most one timer is pending. |
| LoopTimers.InitiallyTracked | main.js:2-8 | The start state (no nodes, `loopTimerId = null`, no pending timers) satisfies the invariant. |
| LoopTimers.LoopOffAfterArming | main.js:157-159 | Unchecking the loop box does not cancel an armed timer. When it fires, the current store is played once more and no new timer is armed. |
| LoopTimers.ThrowingReplayEndsLoop | main.js:146-159 | A replay that throws leaves no timer pending and nothing held, even with the loop box checked, so looping stops. |

## Left out

- `updateTable` and the `alert` calls are presentation only. A rejected add is the `InvalidNumber` error.
- `handleImport` and `handleExport` are left out. They consist of `FileReader`, `JSON.parse`/`JSON.stringify`, `Blob` and an anchor-click download, which are foreign browser calls. (Import also assigns `.notes` of any payload, which can be `undefined`.)
- Audio emission is left out: `createOscillator`, `osc.type`, `connect`, and the actual sounding and silencing of tones. An oscillator is the record of its frequency and its start and stop times.
- Playback.PlaySequence: when the frequency assignment throws for note `k`, that note's oscillator has been created but never started. It is not reported.
- Playback.PlaySequence: when `osc.stop` throws for note `k`, that note's own oscillator has been started but is never connected to the destination, so it makes no sound. It is not listed among the orphaned tones.
- What the browser does with the exception after it leaves the click handler or the timer callback is not modelled.
- The timing of `setTimeout` is left out. A firing timer is the `LoopTimers.Fire` event, and delay clamping is not modelled.
- IEEE-754 doubles are modelled as Dafny `real`. The model claims nothing about rounding, infinities or `-0`.
- `parseFloat` is not modelled. Its result is an input of type `Option<real>`, so an input like "Infinity" is outside the model.
- `removeNote` indices are Dafny integers. A fractional or non-numeric index, which `splice` would truncate or coerce, is not modelled.
- `setNoteValue` properties are the three table fields. An arbitrary property name, which JavaScript would add as a new key, is not modelled.
- AddNoteForm.NextTimeIsEndOfAddedNote and AddNoteForm.ConsecutiveSubmissionsAbut hold for the exact sum only: `toFixed(2)` can move the proposed time off the previous note's end (0.125 becomes "0.13").
- AddNoteForm.SubmitForm: the next default time is the exact sum `time + duration`. The `toFixed(2)` rounding to two decimals, and its string round trip back through the form, are not modelled.
