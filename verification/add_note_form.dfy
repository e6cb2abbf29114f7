/** The "add note" form: reads its three inputs, hands them to `addNote`,
    and proposes the end of the entered note as the next default time. */
module AddNoteForm {
  import opened Wrappers
  import opened NoteStore

  /** What one submission of the form produces: the outcome of the add, and
      the value written back into the time input (`None` when it is NaN). */
  datatype Submission = Submission(added: Result<Notes, EditError>, nextTime: Num)

  /** `parseFloat(timeInput.value) || 0`: NaN (and zero) become 0. */
  function TimeOrZero(time: Num): (t: real)
    ensures time.None? ==> t == 0.0
    ensures time.Some? ==> t == time.value
  {
    time.GetOr(0.0)
  }

  /** `handleAddNoteForm()`, with the three inputs already parsed. */
  function SubmitForm(notes: Notes, time: Num, frequency: Num, duration: Num): (r: Submission)
    ensures r.added == AddNote(notes, Some(TimeOrZero(time)), frequency, duration)
    // the time field never blocks the add: only frequency and duration can
    ensures r.added.Failure? <==> frequency.None? || duration.None?
    // the next default time is a number exactly when the duration parsed
    ensures r.nextTime.Some? <==> duration.Some?
    ensures r.nextTime.Some? ==> r.nextTime.value == TimeOrZero(time) + duration.value
  {
    var t := TimeOrZero(time);
    var nextTime := if duration.Some? then Some(t + duration.value) else None;
    Submission(AddNote(notes, Some(t), frequency, duration), nextTime)
  }

  /** After a successful submission, the proposed next time is the end of the
      note just appended, so consecutive submissions lay notes end to end. */
  lemma NextTimeIsEndOfAddedNote(notes: Notes, time: Num, frequency: Num, duration: Num)
    requires SubmitForm(notes, time, frequency, duration).added.Success?
    ensures var r := SubmitForm(notes, time, frequency, duration);
      r.nextTime == Some(End(r.added.value[|notes|]))
  {
  }

  /** Submitting again with the proposed time starts the new note where the
      previous one ended. */
  lemma ConsecutiveSubmissionsAbut(notes: Notes, time: Num, f1: Num, d1: Num, f2: Num, d2: Num)
    requires SubmitForm(notes, time, f1, d1).added.Success?
    requires var first := SubmitForm(notes, time, f1, d1);
      SubmitForm(first.added.value, first.nextTime, f2, d2).added.Success?
    ensures var first := SubmitForm(notes, time, f1, d1);
      var second := SubmitForm(first.added.value, first.nextTime, f2, d2);
      second.added.value[|notes| + 1].time == End(second.added.value[|notes|])
  {
  }
}
