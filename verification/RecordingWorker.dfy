/** The recording worker of `recording_worker_v138.py` over the event queue.

    What `RecordingWorker` does between two awaits runs undisturbed. The class holds
    those pieces; `WorkerMachine` and `StartupMachine` interleave them. */
module RecordingWorker {
  import opened Basics
  import opened Events

  const MAX_ATTEMPTS_PER_TRIGGER: nat := 3

  /** The worker's three id sets and its trigger. */
  datatype Flags = Flags(activated: set<string>, manual: set<string>, credit: set<string>, trigger: bool)

  const NO_FLAGS: Flags := Flags({}, {}, {}, false)

  // What `_process_once` leaves in `last_failure_stage`, as far as the retry policy reads it.
  datatype Stage = MatchError | IncompleteStream | OtherFailure

  /** Work the worker may start at `now`. */
  predicate Selectable(f: Flags, q: Queue, now: int, e: CloudEvent) {
    && e.source == AndroidNotification
    && !IsDeferred(q, e.eventId)
    && (e.eventId in f.manual || e.eventId in f.credit || (e.eventId in f.activated && IsFresh(e, now)))
  }

  /** `max(candidates, key=event_time, default=None)`: the newest selectable
      event, the earliest listed among equally new ones. */
  function NextOf(f: Flags, q: Queue, now: int, pending: seq<CloudEvent>): Option<CloudEvent> {
    if pending == [] then None
    else
      var before := NextOf(f, q, now, pending[..|pending| - 1]);
      var e := pending[|pending| - 1];
      if Selectable(f, q, now, e) && (before.None? || EventTime(before.value) < EventTime(e)) then Some(e) else before
  }

  function NextEvent(f: Flags, q: Queue, now: int): Option<CloudEvent> {
    NextOf(f, q, now, q.pending)
  }

  /** Place `i` holds the newest event of `ok`, the earliest listed among equally new
      ones. */
  ghost predicate FirstNewest(events: seq<CloudEvent>, ok: iset<CloudEvent>, i: nat) {
    && i < |events| && events[i] in ok
    && forall j :: 0 <= j < |events| && events[j] in ok ==>
         EventTime(events[j]) < EventTime(events[i]) || (i <= j && EventTime(events[j]) == EventTime(events[i]))
  }

  ghost function SelectableEvents(f: Flags, q: Queue, now: int): iset<CloudEvent> {
    iset e | Selectable(f, q, now, e)
  }

  /** `r` is the choice of `max` among the events of `ok`. */
  ghost predicate IsChoice(events: seq<CloudEvent>, ok: iset<CloudEvent>, r: Option<CloudEvent>) {
    match r
    case None => forall e :: e in events ==> e !in ok
    case Some(e) => exists i: nat :: FirstNewest(events, ok, i) && events[i] == e
  }

  lemma ChooseOneMore(events: seq<CloudEvent>, ok: iset<CloudEvent>, before: Option<CloudEvent>, e: CloudEvent)
    requires IsChoice(events, ok, before)
    ensures IsChoice(
      events + [e], ok,
      if e in ok && (before.None? || EventTime(before.value) < EventTime(e)) then Some(e) else before)
  {
    hide EventTime;
    var all := events + [e];
    assert forall n :: 0 <= n < |events| ==> all[n] == events[n];
    if before.Some? {
      var i: nat :| FirstNewest(events, ok, i) && events[i] == before.value;
      if e in ok && EventTime(before.value) < EventTime(e) {
        assert FirstNewest(all, ok, |events|);
      } else {
        assert FirstNewest(all, ok, i);
      }
    } else if e in ok {
      assert FirstNewest(all, ok, |events|);
    }
  }

  lemma {:induction false} NextOfIsNewest(f: Flags, q: Queue, now: int, pending: seq<CloudEvent>)
    ensures IsChoice(pending, SelectableEvents(f, q, now), NextOf(f, q, now, pending))
    ensures var r := NextOf(f, q, now, pending);
            && (r.Some? ==> r.value in pending && Selectable(f, q, now, r.value))
            && (forall e :: e in pending && Selectable(f, q, now, e) ==> r.Some? && EventTime(e) <= EventTime(r.value))
    decreases |pending|
  {
    hide Selectable;
    if pending != [] {
      var n := |pending| - 1;
      NextOfIsNewest(f, q, now, pending[..n]);
      assert pending == pending[..n] + [pending[n]];
      ChooseOneMore(pending[..n], SelectableEvents(f, q, now), NextOf(f, q, now, pending[..n]), pending[n]);
      hide IsChoice;
    }
  }

  /** `_newer_pending_event` */
  function Newer(f: Flags, q: Queue, now: int, e: CloudEvent): Option<CloudEvent> {
    var newest := NextEvent(f, q, now);
    if newest.None? || newest.value.eventId == e.eventId || EventTime(newest.value) <= EventTime(e) then None
    else newest
  }

  function FindPending(pending: seq<CloudEvent>, id: string): Option<CloudEvent> {
    if pending == [] then None
    else if pending[0].eventId == id && pending[0].source == AndroidNotification then Some(pending[0])
    else FindPending(pending[1..], id)
  }

  predicate EarnsCredit(q: Queue, id: string, now: int) {
    var event := FindPending(q.pending, id);
    event.Some? && !IsDeferred(q, id) && IsFresh(event.value, now)
  }

  function Notified(f: Flags, q: Queue, id: string, now: int): Flags {
    Flags(f.activated + {id}, f.manual, if EarnsCredit(q, id, now) then f.credit + {id} else f.credit, true)
  }

  /** The synchronous end of `async_request_manual_recovery`. */
  function Recovered(f: Flags, ids: set<string>): Flags {
    Flags(f.activated + ids, f.manual + ids, f.credit, true)
  }

  function Forgotten(f: Flags, ids: set<string>): Flags {
    f.(activated := f.activated - ids, manual := f.manual - ids, credit := f.credit - ids)
  }

  /** Automatic work without first-attempt credit that was stale at `now`. */
  predicate MustDefer(f: Flags, e: CloudEvent, now: int) {
    e.eventId in f.activated && e.eventId !in f.manual && e.eventId !in f.credit && !IsFresh(e, now)
  }

  predicate TerminalMatch(f: Flags, e: CloudEvent, now: int, stage: Stage) {
    e.eventId in f.manual && !IsFresh(e, now) && stage == MatchError
  }

  // ---- startup recovery ----

  predicate IsStaleAtStart(e: CloudEvent, now: int) {
    e.source == AndroidNotification && !IsFresh(e, now)
  }

  predicate IsEligible(q: Queue, now: int, e: CloudEvent) {
    e.source == AndroidNotification && !IsDeferred(q, e.eventId) && IsFresh(e, now)
  }

  /** One turn of the loop over the stale events. */
  function RetireOne(q: Queue, e: CloudEvent, clock: int): Queue {
    if IsStaleAtStart(e, clock) && !IsDeferred(q, e.eventId)
    then Defer(q, e.eventId, "startup_event_stale", clock).0 else q
  }

  /** The newest eligible event, the earliest listed among equally new ones. */
  function NewestEligible(q: Queue, clock: int, events: seq<CloudEvent>): Option<CloudEvent> {
    if events == [] then None
    else
      var before := NewestEligible(q, clock, events[..|events| - 1]);
      var e := events[|events| - 1];
      if IsEligible(q, clock, e) && (before.None? || EventTime(before.value) < EventTime(e)) then Some(e) else before
  }

  function Candidate(start: Queue, clock: int): Option<CloudEvent> {
    NewestEligible(start, clock, start.pending)
  }

  /** One turn of the loop over the events that were not selected; who is eligible
      was settled in the queue `start`. */
  function BenchOne(q: Queue, start: Queue, e: CloudEvent, clock: int): Queue {
    var chosen := Candidate(start, clock);
    if chosen.Some? && IsEligible(start, clock, e) && e.eventId != chosen.value.eventId
    then Defer(q, e.eventId, "startup_not_selected", clock).0 else q
  }

  function RetireAll(q: Queue, events: seq<CloudEvent>, clock: int): Queue {
    if events == [] then q
    else RetireOne(RetireAll(q, events[..|events| - 1], clock), events[|events| - 1], clock)
  }

  function BenchAll(q: Queue, start: Queue, events: seq<CloudEvent>, clock: int): Queue {
    if events == [] then q
    else BenchOne(BenchAll(q, start, events[..|events| - 1], clock), start, events[|events| - 1], clock)
  }

  /** Startup recovery when nothing else happens at its awaits. */
  function StartupQueue(q: Queue, clock: int): (Queue, Option<CloudEvent>) {
    var swept := RetireAll(q, q.pending, clock);
    (BenchAll(swept, swept, swept.pending, clock), Candidate(swept, clock))
  }

  class Worker {
    const queue: EventQueue
    var activated: set<string>
    var manual: set<string>
    var credit: set<string>
    var trigger: bool

    constructor (queue: EventQueue)
      ensures this.queue == queue && State() == NO_FLAGS
    {
      this.queue := queue;
      activated, manual, credit, trigger := {}, {}, {}, false;
    }

    function State(): Flags
      reads this
    {
      Flags(activated, manual, credit, trigger)
    }

    /** `notify` */
    method Notify(id: string, now: int)
      modifies this
      ensures State() == Notified(old(State()), queue.State(), id, now)
    {
      activated := activated + {id};
      trigger := true;
      var event := FindPending(queue.pending, id);
      if event.Some? {
        FindPendingHasId(queue.pending, id);
        if !IsDeferred(queue.State(), event.value.eventId) && IsFresh(event.value, now) {
          credit := credit + {event.value.eventId};
        }
      }
    }

    method FinishManualRecovery(ids: set<string>)
      modifies this
      ensures State() == Recovered(old(State()), ids)
    {
      manual := manual + ids;
      activated := activated + ids;
      trigger := true;
    }

    /** The three discards after a deferral, a completion or a deferred clear. */
    method Forget(ids: set<string>)
      modifies this
      ensures State() == Forgotten(old(State()), ids)
    {
      activated := activated - ids;
      manual := manual - ids;
      credit := credit - ids;
    }

    /** `_next_android_event` */
    method NextAndroidEvent(now: int) returns (newest: Option<CloudEvent>)
      ensures newest == NextEvent(State(), queue.State(), now)
      ensures IsChoice(queue.pending, SelectableEvents(State(), queue.State(), now), newest)
      ensures newest.Some? ==> newest.value in queue.pending && Selectable(State(), queue.State(), now, newest.value)
      ensures forall e :: e in queue.pending && Selectable(State(), queue.State(), now, e) ==>
                newest.Some? && EventTime(e) <= EventTime(newest.value)
    {
      var f, q := State(), queue.State();
      newest := None;
      for i := 0 to |q.pending|
        invariant newest == NextOf(f, q, now, q.pending[..i])
      {
        assert q.pending[..i + 1][..i] == q.pending[..i];
        var e := q.pending[i];
        if Selectable(f, q, now, e) && (newest.None? || EventTime(newest.value) < EventTime(e)) {
          newest := Some(e);
        }
      }
      assert q.pending[..|q.pending|] == q.pending;
      NextOfIsNewest(f, q, now, q.pending);
    }

    /** One turn of `_defer_stale_activated_events`, up to its save. */
    method DeferIfStale(e: CloudEvent, clock: int, now: int) returns (deferred: bool)
      modifies queue
      ensures deferred == MustDefer(State(), e, clock)
      ensures queue.State() == if deferred then Defer(old(queue.State()), e.eventId, "automatic_event_stale", now).0
                               else old(queue.State())
    {
      deferred := e.eventId in activated && e.eventId !in manual && e.eventId !in credit && !IsFresh(e, clock);
      if deferred {
        var _ := queue.DeferEvent(e.eventId, "automatic_event_stale", now);
      }
    }

    /** One turn of the first loop of `async_prepare_startup_recovery`, up to its save. */
    method RetireIfStale(e: CloudEvent, clock: int)
      modifies queue
      ensures queue.State() == RetireOne(old(queue.State()), e, clock)
    {
      if e.source == AndroidNotification && !IsFresh(e, clock) && !IsDeferred(queue.State(), e.eventId) {
        var _ := queue.DeferEvent(e.eventId, "startup_event_stale", clock);
      }
    }

    /** `max(eligible, key=event_time, default=None)` in `async_prepare_startup_recovery` */
    method ChooseCandidate(clock: int) returns (chosen: Option<CloudEvent>)
      ensures chosen == Candidate(queue.State(), clock)
      ensures IsChoice(queue.pending, EligibleEvents(queue.State(), clock), chosen)
      ensures chosen.Some? ==> chosen.value in queue.pending && IsEligible(queue.State(), clock, chosen.value)
      ensures forall e :: e in queue.pending && IsEligible(queue.State(), clock, e) ==>
                chosen.Some? && EventTime(e) <= EventTime(chosen.value)
    {
      var q := queue.State();
      chosen := None;
      for i := 0 to |q.pending|
        invariant chosen == NewestEligible(q, clock, q.pending[..i])
      {
        assert q.pending[..i + 1][..i] == q.pending[..i];
        if IsEligible(q, clock, q.pending[i]) && (chosen.None? || EventTime(chosen.value) < EventTime(q.pending[i])) {
          chosen := Some(q.pending[i]);
        }
      }
      assert q.pending[..|q.pending|] == q.pending;
      NewestEligibleFacts(q, clock, q.pending);
    }

    /** One turn of the second loop of `async_prepare_startup_recovery`, up to its save. */
    method BenchIfUnselected(e: CloudEvent, start: Queue, clock: int)
      modifies queue
      ensures queue.State() == BenchOne(old(queue.State()), start, e, clock)
    {
      var chosen := Candidate(start, clock);
      if chosen.Some? && IsEligible(start, clock, e) && e.eventId != chosen.value.eventId {
        var _ := queue.DeferEvent(e.eventId, "startup_not_selected", clock);
      }
    }

    /** `async_prepare_startup_recovery` when nothing else happens at its awaits. */
    method PrepareStartup(clock: int, now: int) returns (chosen: Option<CloudEvent>)
      modifies this, queue
      ensures (queue.State(), chosen) == StartupQueue(old(queue.State()), clock)
      ensures State() == if chosen.None? then old(State())
                         else Notified(old(State()), queue.State(), chosen.value.eventId, now)
    {
      hide RetireOne, BenchOne, NewestEligible;
      ghost var before := queue.State();
      var pending := queue.pending;
      for i := 0 to |pending|
        invariant queue.State() == RetireAll(before, pending[..i], clock)
        invariant State() == old(State())
      {
        assert pending[..i + 1][..i] == pending[..i];
        RetireIfStale(pending[i], clock);
      }
      assert pending[..|pending|] == pending;
      var start := queue.State();
      chosen := ChooseCandidate(clock);
      pending := queue.pending;
      for i := 0 to |pending|
        invariant queue.State() == BenchAll(start, start, pending[..i], clock)
        invariant State() == old(State())
      {
        assert pending[..i + 1][..i] == pending[..i];
        BenchIfUnselected(pending[i], start, clock);
      }
      assert pending[..|pending|] == pending;
      if chosen.Some? {
        Notify(chosen.value.eventId, now);
      }
    }

    /** `_consume_automatic_first_attempt_credit`, called before a first attempt. */
    method ConsumeCredit(id: string) returns (granted: bool)
      modifies this
      ensures granted == (id in old(credit))
      ensures State() == old(State()).(credit := old(credit) - {id})
    {
      granted := id in credit;
      if granted {
        credit := credit - {id};
      }
    }
  }

  ghost function EligibleEvents(q: Queue, clock: int): iset<CloudEvent> {
    iset e | IsEligible(q, clock, e)
  }

  lemma {:induction false} NewestEligibleFacts(q: Queue, clock: int, events: seq<CloudEvent>)
    ensures IsChoice(events, EligibleEvents(q, clock), NewestEligible(q, clock, events))
    ensures var r := NewestEligible(q, clock, events);
            && (r.Some? ==> r.value in events && IsEligible(q, clock, r.value))
            && (forall e :: e in events && IsEligible(q, clock, e) ==> r.Some? && EventTime(e) <= EventTime(r.value))
    decreases |events|
  {
    hide IsEligible;
    if events != [] {
      var n := |events| - 1;
      NewestEligibleFacts(q, clock, events[..n]);
      assert events == events[..n] + [events[n]];
      ChooseOneMore(events[..n], EligibleEvents(q, clock), NewestEligible(q, clock, events[..n]), events[n]);
      hide IsChoice;
    }
  }

  lemma {:induction false} FindPendingHasId(pending: seq<CloudEvent>, id: string)
    requires FindPending(pending, id).Some?
    ensures FindPending(pending, id).value.eventId == id && FindPending(pending, id).value in pending
    decreases |pending|
  {
    if !(pending[0].eventId == id && pending[0].source == AndroidNotification) {
      FindPendingHasId(pending[1..], id);
    }
  }
}
