/** Sequences of table edits applied one after another, as the event handlers
    of the editor apply them to the global store. */
module EditHistory {
  import opened Wrappers
  import opened NoteStore

  /** One user edit: the add form, a Delete button, or a changed cell. */
  datatype Edit =
    | Add(time: Num, frequency: Num, duration: Num)
    | Remove(index: int)
    | Set(index: int, prop: Field, value: Num)

  /** The store after one edit; a refused or throwing edit keeps the store. */
  function ApplyEdit(notes: Notes, e: Edit): (r: Notes)
    ensures e.Add? ==> |r| == |notes| + (if Accepted(e) then 1 else 0)
    ensures e.Remove? ==> |r| == |notes| - (if Hits(notes, e.index) then 1 else 0)
    ensures e.Set? ==> |r| == |notes|
  {
    match e
    case Add(t, f, d) => StoreAfter(notes, AddNote(notes, t, f, d))
    case Remove(i) => RemoveNote(notes, i)
    case Set(i, p, v) => StoreAfter(notes, SetNoteValue(notes, i, p, v))
  }

  /** An add whose three fields all parse. */
  predicate Accepted(e: Edit) {
    e.Add? && e.time.Some? && e.frequency.Some? && e.duration.Some?
  }

  /** A remove index for which `splice` finds a note to drop. */
  predicate Hits(notes: Notes, index: int) {
    SpliceStart(|notes|, index) < |notes|
  }

  /** The store after a whole history of edits, oldest first. */
  function ApplyEdits(notes: Notes, es: seq<Edit>): Notes
    decreases |es|
  {
    if es == [] then notes else ApplyEdits(ApplyEdit(notes, es[0]), es[1..])
  }

  /** The number of accepted adds in a history. */
  function Adds(es: seq<Edit>): nat
    decreases |es|
  {
    if es == [] then 0 else (if Accepted(es[0]) then 1 else 0) + Adds(es[1..])
  }

  /** The number of removes in a history. */
  function Removes(es: seq<Edit>): nat
    decreases |es|
  {
    if es == [] then 0 else (if es[0].Remove? then 1 else 0) + Removes(es[1..])
  }

  /** Every remove of the history finds a note at the moment it is applied. */
  predicate RemovesHit(notes: Notes, es: seq<Edit>)
    decreases |es|
  {
    es == [] ||
    ((es[0].Remove? ==> Hits(notes, es[0].index)) && RemovesHit(ApplyEdit(notes, es[0]), es[1..]))
  }

  /** Whatever the history, the store never grows by more than the accepted
      adds nor shrinks by more than the removes. */
  lemma {:induction false} LengthBounds(notes: Notes, es: seq<Edit>)
    ensures |notes| - Removes(es) <= |ApplyEdits(notes, es)| <= |notes| + Adds(es)
    decreases |es|
  {
    if es != [] {
      LengthBounds(ApplyEdit(notes, es[0]), es[1..]);
    }
  }

  /** When every remove hits a note, the final length is exactly the starting
      length plus the accepted adds minus the removes; cell edits never change it. */
  lemma {:induction false} LengthCount(notes: Notes, es: seq<Edit>)
    requires RemovesHit(notes, es)
    ensures |ApplyEdits(notes, es)| == |notes| + Adds(es) - Removes(es)
    decreases |es|
  {
    if es != [] {
      LengthCount(ApplyEdit(notes, es[0]), es[1..]);
    }
  }

  /** Histories compose: applying two histories in turn is applying their
      concatenation. */
  lemma {:induction false} ApplyEditsAppend(notes: Notes, es: seq<Edit>, more: seq<Edit>)
    ensures ApplyEdits(notes, es + more) == ApplyEdits(ApplyEdits(notes, es), more)
    decreases |es|
  {
    if es == [] {
      assert es + more == more;
    } else {
      assert (es + more)[0] == es[0];
      assert (es + more)[1..] == es[1..] + more;
      ApplyEditsAppend(ApplyEdit(notes, es[0]), es[1..], more);
    }
  }
}
