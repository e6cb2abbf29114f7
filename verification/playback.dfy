/** The playback scheduler: `playSequence` turns the current store into one
    oscillator per note and, when looping, arms a timer that replays the
    sequence; `stopSequence` silences the session and cancels the timer. */
module Playback {
  import opened Wrappers
  import opened NoteStore

  /** A scheduled sine oscillator, reduced to what `playSequence` gives it:
      its frequency and the audio-clock times passed to `start` and `stop`. */
  datatype Oscillator = Oscillator(frequency: real, start: real, stop: real)

  /** A `setTimeout` handle; browsers hand out handles greater than zero, so
      the truthiness test on `loopTimerId` is the same as "a timer is held". */
  type TimerId = x: int | x > 0 witness 1

  /** The pending loop timer: its handle and the delay it was armed with in
      milliseconds (`None` when the delay is `-Infinity * 1000`, the store
      having been empty). */
  datatype Timer = Timer(id: TimerId, delayMs: Option<real>)

  /** The module-level playback state `(activeNodes, loopTimerId)`. */
  datatype Session = Session(activeNodes: seq<Oscillator>, loopTimer: Option<Timer>)

  /** The exception raised inside the `notes.map` of `playSequence` for the
      note at `index`, in the order the calls are made: the TypeError of
      `osc.frequency.value = f` when `f` does not fit a single-precision
      float, then the RangeError of `osc.start(when)` or `osc.stop(when)`
      with a negative `when`. */
  datatype PlayError =
    | FrequencyTooLarge(index: nat)
    | StartBeforeZero(index: nat)
    | StopBeforeZero(index: nat)

  /** A state change together with its effects on the platform: the
      oscillators it calls `stop()` on, the timer it passes to
      `clearTimeout`, the tones it started but no longer holds (so no later
      `stopSequence` reaches them), and the exception it throws, if any. */
  datatype Transition = Transition(
    next: Session,
    silenced: seq<Oscillator>,
    cancelled: Option<Timer>,
    orphaned: seq<Oscillator>,
    thrown: Option<PlayError>)

  /** No tones held and no timer pending. */
  predicate Idle(s: Session) {
    s.activeNodes == [] && s.loopTimer.None?
  }

  /** `stopSequence()`: stops every held oscillator, clears the timer if one
      is held, and forgets both. */
  function StopSequence(s: Session): (r: Transition)
    ensures Idle(r.next)
    ensures r.silenced == s.activeNodes
    ensures r.cancelled == s.loopTimer
    ensures r.orphaned == [] && r.thrown.None?
  {
    Transition(Session([], None), s.activeNodes, s.loopTimer, [], None)
  }

  /** `notes.map(note => note.time + note.duration)`. */
  function EndTimes(notes: Notes): (ends: seq<real>)
    ensures |ends| == |notes|
    ensures forall i :: 0 <= i < |notes| ==> ends[i] == notes[i].time + notes[i].duration
    decreases |notes|
  {
    if notes == [] then [] else [End(notes[0])] + EndTimes(notes[1..])
  }

  /** `Math.max(...xs)`, with `None` for the empty list (where JavaScript
      answers `-Infinity`). */
  function Max(xs: seq<real>): (m: Option<real>)
    ensures m.None? <==> xs == []
    ensures m.Some? ==> forall i :: 0 <= i < |xs| ==> xs[i] <= m.value
    ensures m.Some? ==> exists i :: 0 <= i < |xs| && xs[i] == m.value
    decreases |xs|
  {
    if xs == [] then None
    else
      match Max(xs[1..])
      case None => Some(xs[0])
      case Some(rest) => Some(if xs[0] >= rest then xs[0] else rest)
  }

  /** `totalDuration`: the latest end of any note, if there is a note. */
  function TotalDuration(notes: Notes): (total: Option<real>)
    ensures total.None? <==> notes == []
    ensures total.Some? ==> forall i :: 0 <= i < |notes| ==> End(notes[i]) <= total.value
    ensures total.Some? ==> exists i :: 0 <= i < |notes| && End(notes[i]) == total.value
  {
    Max(EndTimes(notes))
  }

  /** `totalDuration * 1000`, the timer delay in milliseconds. */
  function DelayMs(total: Option<real>): (d: Option<real>)
    ensures d.None? <==> total.None?
    ensures d.Some? ==> d.value == total.value * 1000.0
  {
    match total
    case None => None
    case Some(t) => Some(t * 1000.0)
  }

  /** The oscillator created for one note, relative to the clock reading `startTime`. */
  function ToneFor(n: Note, startTime: real): (o: Oscillator)
    ensures o.frequency == n.frequency
    ensures o.start == startTime + n.time
    ensures o.stop == o.start + n.duration
  {
    Oscillator(n.frequency, startTime + n.time, startTime + n.time + n.duration)
  }

  /** `notes.map(...)` in `playSequence`: one oscillator per note, in store order. */
  function Schedule(notes: Notes, startTime: real): (osc: seq<Oscillator>)
    ensures |osc| == |notes|
    ensures forall i :: 0 <= i < |notes| ==>
      && osc[i].frequency == notes[i].frequency
      && osc[i].start == startTime + notes[i].time
      && osc[i].stop == osc[i].start + notes[i].duration
    decreases |notes|
  {
    if notes == [] then [] else [ToneFor(notes[0], startTime)] + Schedule(notes[1..], startTime)
  }

  /** `2^128 - 2^103`, half-way between the largest finite single-precision
      float and `2^128`: a value at least this large in magnitude rounds to
      `2^128` when converted to a WebIDL `float`, and the conversion throws. */
  const FloatOverflow: real := 340282356779733661637539395458142568448.0

  /** The frequency can be stored in the `float` attribute `AudioParam.value`. */
  predicate FitsFloat(f: real) {
    -FloatOverflow < f < FloatOverflow
  }

  /** Nothing the `notes.map` does for note `n` throws: its frequency fits a
      `float`, and both times handed to `osc.start` and `osc.stop` are
      non-negative. */
  predicate Playable(n: Note, startTime: real) {
    FitsFloat(n.frequency) && startTime + n.time >= 0.0 && startTime + n.time + n.duration >= 0.0
  }

  /** Every note of the store can be scheduled against `startTime`. */
  predicate AllPlayable(notes: Notes, startTime: real) {
    forall i :: 0 <= i < |notes| ==> Playable(notes[i], startTime)
  }

  /** The index of the first note whose oscillator throws, or `|notes|` when
      none does: the point where the `notes.map` is cut short. */
  function FirstUnplayable(notes: Notes, startTime: real): (k: nat)
    ensures k <= |notes|
    ensures forall j :: 0 <= j < k ==> Playable(notes[j], startTime)
    ensures k < |notes| ==> !Playable(notes[k], startTime)
    decreases |notes|
  {
    if notes == [] || !Playable(notes[0], startTime) then 0
    else 1 + FirstUnplayable(notes[1..], startTime)
  }

  /** `playSequence()`: stops the previous session, schedules the current
      store against the audio clock reading `startTime`, and arms the loop
      timer under the handle `freshId` when the loop box is checked. When a
      note's frequency does not fit a `float` or its start or stop time is
      negative, the map throws at that note:
      the tones already started keep playing unheld, `activeNodes` keeps the
      empty list `stopSequence` left, and no timer is armed. */
  function PlaySequence(s: Session, notes: Notes, startTime: real, loop: bool, freshId: TimerId): (r: Transition)
    // the previous session is torn down completely
    ensures r.silenced == s.activeNodes
    ensures r.cancelled == s.loopTimer
    // the call throws exactly when some note is not playable
    ensures r.thrown.None? <==> AllPlayable(notes, startTime)
    // normal path: one oscillator per note, in store order, all of them held
    ensures r.thrown.None? ==>
      && r.orphaned == []
      && |r.next.activeNodes| == |notes|
      && (forall i :: 0 <= i < |notes| ==>
        && r.next.activeNodes[i].frequency == notes[i].frequency
        && r.next.activeNodes[i].start == startTime + notes[i].time
        && r.next.activeNodes[i].stop == startTime + notes[i].time + notes[i].duration)
    // a timer is armed exactly when looping and nothing threw, under the fresh handle
    ensures r.next.loopTimer.Some? <==> loop && AllPlayable(notes, startTime)
    ensures r.next.loopTimer.Some? ==> r.next.loopTimer.value.id == freshId
    // its delay is the latest note end in milliseconds, or none for an empty store
    ensures r.next.loopTimer.Some? ==> (r.next.loopTimer.value.delayMs.None? <==> notes == [])
    ensures r.next.loopTimer.Some? && notes != [] ==>
      && (forall i :: 0 <= i < |notes| ==> End(notes[i]) * 1000.0 <= r.next.loopTimer.value.delayMs.value)
      && (exists i :: 0 <= i < |notes| && End(notes[i]) * 1000.0 == r.next.loopTimer.value.delayMs.value)
    // throwing path: the first offending note, the tones before it orphaned
    ensures r.thrown.Some? ==>
      var k := r.thrown.value.index;
      && k < |notes|
      && Idle(r.next)
      && (forall j :: 0 <= j < k ==> Playable(notes[j], startTime))
      && !Playable(notes[k], startTime)
      && (r.thrown.value.FrequencyTooLarge? <==> !FitsFloat(notes[k].frequency))
      && (r.thrown.value.StartBeforeZero? <==> FitsFloat(notes[k].frequency) && startTime + notes[k].time < 0.0)
      && |r.orphaned| == k
      && (forall j :: 0 <= j < k ==> r.orphaned[j] == ToneFor(notes[j], startTime))
  {
    var stopped := StopSequence(s);
    var k := FirstUnplayable(notes, startTime);
    if k < |notes| then
      var err :=
        if !FitsFloat(notes[k].frequency) then FrequencyTooLarge(k)
        else if startTime + notes[k].time < 0.0 then StartBeforeZero(k)
        else StopBeforeZero(k);
      Transition(stopped.next, stopped.silenced, stopped.cancelled, Schedule(notes[..k], startTime), Some(err))
    else
      var total := TotalDuration(notes);
      var timer := if loop then Some(Timer(freshId, DelayMs(total))) else stopped.next.loopTimer;
      Transition(Session(Schedule(notes, startTime), timer), stopped.silenced, stopped.cancelled, [], None)
  }

  /** Stopping twice is stopping once, and the second stop silences and
      cancels nothing. */
  lemma StopIdempotent(s: Session)
    ensures StopSequence(StopSequence(s).next).next == StopSequence(s).next
    ensures StopSequence(StopSequence(s).next).silenced == []
    ensures StopSequence(StopSequence(s).next).cancelled.None?
  {
  }

  /** Stopping right after playing leaves no tone and no timer held. */
  lemma PlayThenStopIsIdle(s: Session, notes: Notes, startTime: real, loop: bool, freshId: TimerId)
    ensures Idle(StopSequence(PlaySequence(s, notes, startTime, loop, freshId).next).next)
  {
  }

  /** Restart exclusivity: what `playSequence` leaves behind does not depend
      on the session it replaced, and a second play tears down exactly the
      tones and timer of the first. */
  lemma PlayReplacesSession(s1: Session, s2: Session, notes: Notes, startTime: real, loop: bool, freshId: TimerId,
                            notes': Notes, startTime': real, loop': bool, freshId': TimerId)
    ensures PlaySequence(s1, notes, startTime, loop, freshId).next
         == PlaySequence(s2, notes, startTime, loop, freshId).next
    ensures var first := PlaySequence(s1, notes, startTime, loop, freshId).next;
      var second := PlaySequence(first, notes', startTime', loop', freshId');
      second.silenced == first.activeNodes && second.cancelled == first.loopTimer
  {
  }

  /** With the loop on and a non-empty store that schedules without throwing,
      the armed delay, read in audio-clock seconds from `startTime`, reaches
      exactly the latest stop time: every tone stops by
      `startTime + delay / 1000`, and some tone stops right then. */
  lemma DelayReachesLastStop(s: Session, notes: Notes, startTime: real, freshId: TimerId)
    requires notes != []
    requires AllPlayable(notes, startTime)
    ensures var next := PlaySequence(s, notes, startTime, true, freshId).next;
      var restart := startTime + next.loopTimer.value.delayMs.value / 1000.0;
      && (forall i :: 0 <= i < |next.activeNodes| ==> next.activeNodes[i].stop <= restart)
      && (exists i :: 0 <= i < |next.activeNodes| && next.activeNodes[i].stop == restart)
  {
  }

  /** The code path for an empty store with the loop on: no tone is
      scheduled, yet a timer is still armed, with the `-Infinity` delay. */
  lemma EmptyLoopStillArmsTimer(s: Session, startTime: real, freshId: TimerId)
    ensures var next := PlaySequence(s, [], startTime, true, freshId).next;
      next.activeNodes == [] && next.loopTimer == Some(Timer(freshId, None))
  {
  }

  /** Notes `(0, 440, 1)` and `(0.5, 550, 1)` end at 1 and 1.5 seconds, so
      the total duration is 1.5 seconds. */
  lemma TotalDurationExample()
    ensures TotalDuration([Note(0.0, 440.0, 1.0), Note(0.5, 550.0, 1.0)]) == Some(1.5)
  {
  }

  /** Scheduling distributes over the store: appending a note appends
      exactly its tone, and the earlier tones are untouched. */
  lemma ScheduleAppend(notes: Notes, more: Notes, startTime: real)
    ensures Schedule(notes + more, startTime) == Schedule(notes, startTime) + Schedule(more, startTime)
  {
  }

  /** A note starting before the audio clock's zero makes `osc.start` throw:
      nothing is held, and the loop timer is not armed although the loop box
      is checked, so looping ends. */
  lemma NegativeStartEndsLoop(s: Session, freshId: TimerId)
    ensures var r := PlaySequence(s, [Note(-1.0, 440.0, 1.0)], 0.0, true, freshId);
      && r.thrown == Some(StartBeforeZero(0))
      && Idle(r.next)
      && r.orphaned == []
  {
  }

  /** A negative duration makes `osc.stop` throw after a good `osc.start`;
      the tones scheduled before the offending note are orphaned. */
  lemma NegativeStopOrphansEarlierTones(s: Session, freshId: TimerId)
    ensures var r := PlaySequence(s, [Note(0.0, 440.0, 1.0), Note(0.0, 440.0, -1.0)], 0.0, true, freshId);
      && r.thrown == Some(StopBeforeZero(1))
      && Idle(r.next)
      && r.orphaned == [Oscillator(440.0, 0.0, 1.0)]
  {
  }

  /** A frequency of 1e39 Hz passes `addNote`, but does not fit a `float`:
      setting `osc.frequency.value` throws before `osc.start`, so nothing is
      held and no loop timer is armed. */
  lemma HugeFrequencyEndsLoop(s: Session, freshId: TimerId)
    ensures var r := PlaySequence(s, [Note(0.0, 1000000000000000000000000000000000000000.0, 1.0)], 0.0, true, freshId);
      && r.thrown == Some(FrequencyTooLarge(0))
      && Idle(r.next)
      && r.orphaned == []
  {
  }
}
