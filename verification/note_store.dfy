/** The note store: the ordered list of `{time, frequency, duration}` records
    the editor table shows, and its three edit operations. */
module NoteStore {
  import opened Wrappers

  /** The result of `parseFloat` on user input (or a number handed to
      `addNote`): `Some(x)` for a number, `None` for NaN. */
  type Num = Option<real>

  /** One timed tone event: offset from sequence start (seconds), pitch (Hz)
      and length (seconds). */
  datatype Note = Note(time: real, frequency: real, duration: real)

  /** The store itself, in insertion (= display) order. */
  type Notes = seq<Note>

  /** The three editable properties of a note, as named by the table cells. */
  datatype Field = Time | Frequency | Duration

  /** Why an edit left the store as it was. */
  datatype EditError =
    | InvalidNumber   // addNote: some field is NaN; the user gets an alert
    | NoNoteAtIndex   // setNoteValue: `notes[index]` is undefined, the assignment throws

  /** The instant a note stops sounding, relative to sequence start. */
  function End(n: Note): real {
    n.time + n.duration
  }

  /** Reads one property of a note. */
  function FieldValue(n: Note, f: Field): real {
    match f
    case Time => n.time
    case Frequency => n.frequency
    case Duration => n.duration
  }

  /** `n[f] = v`: the note with property `f` set to `v`. */
  function WithField(n: Note, f: Field, v: real): (r: Note)
    ensures FieldValue(r, f) == v
    ensures forall g :: g != f ==> FieldValue(r, g) == FieldValue(n, g)
  {
    match f
    case Time => n.(time := v)
    case Frequency => n.(frequency := v)
    case Duration => n.(duration := v)
  }

  /** `addNote(time, frequency, duration)`: refuses the note when any field
      is NaN, otherwise pushes it onto the end of the store. */
  function AddNote(notes: Notes, time: Num, frequency: Num, duration: Num): (r: Result<Notes, EditError>)
    ensures r.Failure? <==> time.None? || frequency.None? || duration.None?
    ensures r.Failure? ==> r.error == InvalidNumber
    ensures r.Success? ==>
      && |r.value| == |notes| + 1
      && r.value[..|notes|] == notes
      && r.value[|notes|] == Note(time.value, frequency.value, duration.value)
  {
    if time.None? || frequency.None? || duration.None? then
      Failure(InvalidNumber)
    else
      Success(notes + [Note(time.value, frequency.value, duration.value)])
  }

  /** The position `Array.prototype.splice(index, 1)` starts at: a negative
      index counts back from the end (clamped at 0), a large one is clamped
      to the length. */
  function SpliceStart(len: nat, index: int): (k: nat)
    ensures k <= len
    ensures 0 <= index <= len ==> k == index
    ensures index < 0 <= len + index ==> k == len + index
    ensures len + index < 0 ==> k == 0
    ensures len < index ==> k == len
  {
    if index < 0 then
      if len + index < 0 then 0 else len + index
    else if index > len then len
    else index
  }

  /** `removeNote(index)`, i.e. `notes.splice(index, 1)`: drops the note at
      the splice position when there is one. */
  function RemoveNote(notes: Notes, index: int): (r: Notes)
    ensures var k := SpliceStart(|notes|, index);
      if k < |notes| then
        && |r| == |notes| - 1
        && (forall j :: 0 <= j < k ==> r[j] == notes[j])
        && (forall j :: k <= j < |r| ==> r[j] == notes[j + 1])
      else r == notes
  {
    var k := SpliceStart(|notes|, index);
    if k < |notes| then notes[..k] + notes[k + 1..] else notes
  }

  /** `setNoteValue(index, prop, value)` once `value` has gone through
      `parseFloat`: NaN changes nothing; a number overwrites the one property
      of note `index`, and throws when there is no such note. */
  function SetNoteValue(notes: Notes, index: int, prop: Field, value: Num): (r: Result<Notes, EditError>)
    ensures value.None? ==> r == Success(notes)
    ensures value.Some? && !(0 <= index < |notes|) ==> r == Failure(NoNoteAtIndex)
    ensures r.Success? ==>
      && |r.value| == |notes|
      && (forall j :: 0 <= j < |notes| && j != index ==> r.value[j] == notes[j])
    ensures value.Some? && 0 <= index < |notes| ==>
      && r.Success?
      && FieldValue(r.value[index], prop) == value.value
      && (forall g :: g != prop ==> FieldValue(r.value[index], g) == FieldValue(notes[index], g))
  {
    if value.None? then
      Success(notes)
    else if 0 <= index < |notes| then
      Success(notes[index := WithField(notes[index], prop, value.value)])
    else
      Failure(NoNoteAtIndex)
  }

  /** The store an edit leaves behind: a refused or throwing edit keeps the
      old one. */
  function StoreAfter(notes: Notes, r: Result<Notes, EditError>): Notes {
    r.GetOr(notes)
  }

  /** A refused `addNote` leaves the store exactly as it was. */
  lemma AddNoteRejectedKeepsStore(notes: Notes, time: Num, frequency: Num, duration: Num)
    requires time.None? || frequency.None? || duration.None?
    ensures StoreAfter(notes, AddNote(notes, time, frequency, duration)) == notes
  {
  }

  /** Removing the note just added gives back the store from before the add. */
  lemma RemoveUndoesAdd(notes: Notes, time: real, frequency: real, duration: real)
    ensures RemoveNote(AddNote(notes, Some(time), Some(frequency), Some(duration)).value, |notes|) == notes
  {
  }

  /** Removing an in-range index is exactly cutting that note out, and the
      removed note is the only thing lost. */
  lemma RemoveInRange(notes: Notes, index: int)
    requires 0 <= index < |notes|
    ensures RemoveNote(notes, index) == notes[..index] + notes[index + 1..]
    ensures multiset(RemoveNote(notes, index)) + multiset{notes[index]} == multiset(notes)
  {
    var r := RemoveNote(notes, index);
    assert r == notes[..index] + notes[index + 1..];
    assert notes == notes[..index] + [notes[index]] + notes[index + 1..];
  }

  /** Removal is the inverse of inserting a note at that index. */
  lemma RemoveUndoesInsert(notes: Notes, index: nat, n: Note)
    requires index <= |notes|
    ensures RemoveNote(notes[..index] + [n] + notes[index..], index) == notes
  {
  }

  /** A parsable value written into a field and then the old value written
      back restores the store. */
  lemma SetNoteValueRestore(notes: Notes, index: int, prop: Field, v: real)
    requires 0 <= index < |notes|
    ensures var changed := SetNoteValue(notes, index, prop, Some(v)).value;
      SetNoteValue(changed, index, prop, Some(FieldValue(notes[index], prop))) == Success(notes)
  {
    var changed := SetNoteValue(notes, index, prop, Some(v)).value;
    var back := SetNoteValue(changed, index, prop, Some(FieldValue(notes[index], prop))).value;
    assert back[index] == notes[index] by {
      assert forall g: Field :: FieldValue(back[index], g) == FieldValue(notes[index], g);
      assert back[index].time == FieldValue(back[index], Time);
      assert back[index].frequency == FieldValue(back[index], Frequency);
      assert back[index].duration == FieldValue(back[index], Duration);
    }
    assert back == notes;
  }

  /** A frequency cell's `onchange` whose text does not parse (say "abc")
      changes nothing; one holding "660" sets that note's frequency to 660. */
  lemma SetFrequencyExample(notes: Notes, index: int)
    requires 0 <= index < |notes|
    ensures SetNoteValue(notes, index, Frequency, None) == Success(notes)
    ensures SetNoteValue(notes, index, Frequency, Some(660.0)).value[index]
         == notes[index].(frequency := 660.0)
  {
  }
}
