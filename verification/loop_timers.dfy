/** The scheduler seen together with the browser's table of pending timers,
    to state that `playSequence`/`stopSequence` never leave more than one
    loop timer pending, and what happens when that timer fires. */
module LoopTimers {
  import opened Wrappers
  import opened NoteStore
  import opened Playback

  /** The scheduler's session plus the handles of the timers the platform
      will still fire. */
  datatype World = World(session: Session, pending: set<TimerId>)

  /** The handles an optional timer stands for. */
  function Ids(t: Option<Timer>): (ids: set<TimerId>)
    ensures t.None? ==> ids == {}
    ensures t.Some? ==> ids == {t.value.id}
  {
    match t
    case None => {}
    case Some(timer) => {timer.id}
  }

  /** Every pending timer is the one the session holds, so no timer escapes
      `stopSequence`. */
  predicate Tracked(w: World) {
    w.pending <= Ids(w.session.loopTimer)
  }

  /** Applies a transition to the browser's timer table: `clearTimeout` on
      the cancelled timer (main.js:168), then `setTimeout` for the timer the
      new session holds (main.js:159). */
  function Commit(w: World, t: Transition): World {
    World(t.next, (w.pending - Ids(t.cancelled)) + Ids(t.next.loopTimer))
  }

  /** The Stop button. */
  function Stop(w: World): (r: World)
    requires Tracked(w)
    ensures Tracked(r)
    ensures r.pending == {}
  {
    Commit(w, StopSequence(w.session))
  }

  /** The Play button, with the clock reading, the loop box and the handle
      `setTimeout` would return. A play that throws arms nothing. */
  function Play(w: World, notes: Notes, startTime: real, loop: bool, freshId: TimerId): (r: World)
    requires Tracked(w)
    ensures Tracked(r)
    ensures |r.pending| <= 1
    ensures r.pending == {freshId} <==> loop && AllPlayable(notes, startTime)
    ensures r.pending == {} <==> !(loop && AllPlayable(notes, startTime))
  {
    Commit(w, PlaySequence(w.session, notes, startTime, loop, freshId))
  }

  /** The loop timer `id` fires: the platform drops it from its table and
      runs `playSequence` again on the store as it is now, with the loop box
      as it is now. */
  function Fire(w: World, id: TimerId, notes: Notes, startTime: real, loop: bool, freshId: TimerId): (r: World)
    requires Tracked(w)
    requires id in w.pending
    ensures Tracked(r)
    ensures |r.pending| <= 1
    ensures r.pending == {freshId} <==> loop && AllPlayable(notes, startTime)
    ensures r.pending == {} <==> !(loop && AllPlayable(notes, startTime))
  {
    Play(World(w.session, w.pending - {id}), notes, startTime, loop, freshId)
  }

  /** A tracked world has at most one pending timer. */
  lemma AtMostOnePending(w: World)
    requires Tracked(w)
    ensures |w.pending| <= 1
  {
    if w.session.loopTimer.Some? {
      var id := w.session.loopTimer.value.id;
      if id in w.pending {
        assert w.pending == {id};
      } else {
        assert w.pending == {};
      }
    }
  }

  /** The app's start state: nothing playing, no timer. */
  lemma InitiallyTracked()
    ensures Tracked(World(Session([], None), {}))
  {
  }

  /** Turning the loop box off while a timer is pending does not cancel it:
      the timer still fires, plays the current store once more, and then
      arms nothing. */
  lemma LoopOffAfterArming(w: World, notes: Notes, t0: real, id: TimerId, notes': Notes, t1: real, freshId: TimerId)
    requires Tracked(w)
    requires AllPlayable(notes, t0)
    ensures var armed := Play(w, notes, t0, true, id);
      && armed.pending == {id}
      && var after := Fire(armed, id, notes', t1, false, freshId);
         && after.pending == {}
         && (AllPlayable(notes', t1) ==> |after.session.activeNodes| == |notes'|)
         && (!AllPlayable(notes', t1) ==> after.session.activeNodes == [])
  {
  }

  /** A replay that throws ends looping: even with the loop box checked, no
      timer is left pending, so the sequence is not played again. */
  lemma ThrowingReplayEndsLoop(w: World, id: TimerId, notes: Notes, startTime: real, freshId: TimerId)
    requires Tracked(w)
    requires id in w.pending
    requires !AllPlayable(notes, startTime)
    ensures Fire(w, id, notes, startTime, true, freshId).pending == {}
    ensures Idle(Fire(w, id, notes, startTime, true, freshId).session)
  {
  }
}
