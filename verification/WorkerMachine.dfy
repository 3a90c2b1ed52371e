/** The worker's program, cut at its awaits, interleaved with everything that can
    happen at an await: ingest, notify, manual recovery, deferred clear, clock.

    One clock, which never goes back, serves every reading; two readings in a row
    may differ because a Tick can come between them. */
module WorkerMachine {
  import opened Basics
  import opened Events
  import opened QueueTheorems
  import opened RecordingWorker

  datatype Pc =
    | Parked                                                // waiting for the trigger
    | Sweeping(clock: int, rest: seq<CloudEvent>)           // `_defer_stale_activated_events`
    | Discarding(clock: int, id: string, rest: seq<CloudEvent>)  // a sweep's deferral is being saved
    | Settling(event: CloudEvent)
    | Ready(event: CloudEvent, attempt: nat)                // an attempt is about to start
    | InSession(event: CloudEvent, attempt: nat)
    | Gated(event: CloudEvent, attempt: nat, completed: set<string>)  // past the fingerprint gate
    | Waiting(event: CloudEvent, attempt: nat)              // entering the wait before a retry
    | Blocked(event: CloudEvent, attempt: nat)              // inside that wait
    | Ending(id: string)                                    // completed or deferred, being saved

  /** `owed` holds ids that some caller has made pending or rearmed and whose wake
      (notify, or the end of the manual recovery) is still to come; `ingesting` holds
      ids that an ingest has just accepted and will notify or defer; `clearing` holds
      ids that a deferred clear has removed and not yet discarded from the sets.
      `attempts`, `novel` and `log` are history: session attempts so far, wake-ups
      since the last selection, and every notify with its time. */
  datatype World = World(
    queue: Queue,
    flags: Flags,
    now: int,
    pc: Pc,
    owed: set<string>,
    ingesting: set<string>,
    clearing: set<string>,
    attempts: nat,
    novel: nat,
    log: set<(string, int)>)

  datatype Label =
    | Tick(to: int)
    | Accept(event: CloudEvent)          // the queue part of an ingest
    | Notify(id: string)                 // the end of an ingest with wake permission
    | DeferIngested(id: string)          // the end of an ingest without it
    | RearmDeferred(id: string)          // one step of a manual recovery
    | FinishRecovery(ids: set<string>)   // its end
    | ClearQueue                         // the queue part of a deferred clear
    | ForgetCleared(ids: set<string>)    // its end
    | Wake
    | Sweep
    | Discard
    | Select
    | Settle
    | Start
    | Gate
    | Fail(stage: Stage)
    | Duplicate
    | Save(recording: CompletedRecording)
    | CheckNewer
    | TimerEnds
    | Triggered
    | Finish

  predicate IsEnvironment(l: Label) {
    || l.Tick? || l.Accept? || l.Notify? || l.DeferIngested?
    || l.RearmDeferred? || l.FinishRecovery? || l.ClearQueue? || l.ForgetCleared?
  }

  predicate HasEvent(pc: Pc) {
    pc.Settling? || pc.Ready? || pc.InSession? || pc.Gated? || pc.Waiting? || pc.Blocked?
  }

  predicate Enabled(w: World, l: Label) {
    match l
    case Tick(to) => w.now <= to
    case Notify(id) => id in w.ingesting
    case DeferIngested(id) => id in w.ingesting
    case FinishRecovery(ids) => ids != {}
    case ForgetCleared(ids) => ids <= w.clearing
    case Wake => w.pc.Parked? && w.flags.trigger
    case Sweep => w.pc.Sweeping? && w.pc.rest != []
    case Discard => w.pc.Discarding?
    case Select => w.pc.Sweeping? && w.pc.rest == []
    case Settle => w.pc.Settling?
    case Start => w.pc.Ready?
    case Gate => w.pc.InSession?
    case Fail(_) => w.pc.InSession? || w.pc.Gated?
    case Duplicate => w.pc.Gated?
    case Save(r) => w.pc.Gated? && r.fingerprint !in w.pc.completed
    case CheckNewer => w.pc.Waiting?
    case TimerEnds => w.pc.Blocked?
    case Triggered => w.pc.Blocked? && w.flags.trigger
    case Finish => w.pc.Ending?
    case _ => true
  }

  /** How many ids a label may newly make selectable. */
  function Wakes(l: Label): nat {
    match l
    case Accept(_) => 1
    case Notify(_) => 1
    case RearmDeferred(_) => 1
    case FinishRecovery(ids) => |ids|
    case _ => 0
  }

  function ClearRequest(q: Queue): set<string> {
    set e | e in q.pending && e.source == AndroidNotification && IsDeferred(q, e.eventId) :: e.eventId
  }

  /** One call of the worker's `notify`. */
  function NotifyNow(w: World, id: string): World {
    w.(flags := Notified(w.flags, w.queue, id, w.now), log := w.log + {(id, w.now)})
  }

  function Environment(w: World, l: Label): World
    requires IsEnvironment(l)
  {
    match l
    case Tick(to) => w.(now := to)
    case Accept(e) =>
      var (q, accepted) := Enqueue(w.queue, e);
      var ids := if accepted && e.source == AndroidNotification then {e.eventId} else {};
      w.(queue := q, owed := w.owed + ids, ingesting := w.ingesting + ids)
    case Notify(id) =>
      NotifyNow(w, id).(owed := w.owed - {id}, ingesting := w.ingesting - {id})
    case DeferIngested(id) =>
      w.(queue := Defer(w.queue, id, "initial_state_stale", w.now).0,
         owed := w.owed - {id}, ingesting := w.ingesting - {id})
    case RearmDeferred(id) =>
      var (q, changed) := Rearm(w.queue, id);
      w.(queue := q, owed := if changed then w.owed + {id} else w.owed)
    case FinishRecovery(ids) =>
      w.(flags := Recovered(w.flags, ids), owed := w.owed - ids)
    case ClearQueue =>
      w.(queue := DiscardDeferred(w.queue, ClearRequest(w.queue)),
         clearing := w.clearing + Discarded(w.queue, ClearRequest(w.queue)))
    case ForgetCleared(ids) =>
      w.(flags := Forgotten(w.flags, ids), clearing := w.clearing - ids)
    case _ => w
  }

  function StartSweep(w: World): World {
    w.(pc := Sweeping(w.now, w.queue.pending))
  }

  /** `_wait_retry_or_newer_event` yields to a newer event, or goes on waiting. */
  function YieldOrBlock(w: World): World
    requires w.pc.Waiting? || w.pc.Blocked?
  {
    if Newer(w.flags, w.queue, w.now, w.pc.event).Some? then StartSweep(w)
    else w.(pc := Blocked(w.pc.event, w.pc.attempt))
  }

  function DeferFinally(w: World, id: string, reason: string): World {
    w.(queue := Defer(w.queue, id, reason, w.now).0, pc := Ending(id))
  }

  function AfterFailure(w: World, stage: Stage): World
    requires w.pc.InSession? || w.pc.Gated?
  {
    var e := w.pc.event;
    if TerminalMatch(w.flags, e, w.now, stage) then DeferFinally(w, e.eventId, "manual_stale_recording_match_miss")
    else if w.pc.attempt + 1 >= MAX_ATTEMPTS_PER_TRIGGER then DeferFinally(w, e.eventId, "automatic_retries_exhausted")
    else w.(pc := Waiting(e, w.pc.attempt + 1))
  }

  function WorkerStep(w: World, l: Label): World
    requires !IsEnvironment(l) && Enabled(w, l)
  {
    match l
    case Wake => StartSweep(w.(flags := w.flags.(trigger := false)))
    case Sweep =>
      var e, rest := w.pc.rest[0], w.pc.rest[1..];
      if MustDefer(w.flags, e, w.pc.clock)
      then w.(queue := Defer(w.queue, e.eventId, "automatic_event_stale", w.now).0,
              pc := Discarding(w.pc.clock, e.eventId, rest))
      else w.(pc := Sweeping(w.pc.clock, rest))
    case Discard => w.(flags := Forgotten(w.flags, {w.pc.id}), pc := Sweeping(w.pc.clock, w.pc.rest))
    case Select =>
      var next := NextEvent(w.flags, w.queue, w.now);
      w.(pc := if next.None? then Parked else Settling(next.value), novel := 0)
    case Settle => w.(pc := Ready(w.pc.event, 0))
    case Start =>
      w.(flags := if w.pc.attempt == 0 then w.flags.(credit := w.flags.credit - {w.pc.event.eventId}) else w.flags,
         attempts := w.attempts + 1, pc := InSession(w.pc.event, w.pc.attempt))
    case Gate => w.(pc := Gated(w.pc.event, w.pc.attempt, Fingerprints(w.queue.completed)))
    case Fail(stage) => AfterFailure(w, stage)
    case Duplicate => w.(queue := Remove(w.queue, w.pc.event.eventId).0, pc := Ending(w.pc.event.eventId))
    case Save(r) =>
      w.(queue := Remember(Remove(w.queue, w.pc.event.eventId).0, r).0, pc := Ending(w.pc.event.eventId))
    case CheckNewer => YieldOrBlock(w)
    case TimerEnds => w.(pc := Ready(w.pc.event, w.pc.attempt))
    case Triggered => YieldOrBlock(w.(flags := w.flags.(trigger := false)))
    case Finish => StartSweep(w.(flags := Forgotten(w.flags, {w.pc.id})))
    case _ => w
  }

  function Next(w: World, l: Label): World
    requires Enabled(w, l)
  {
    if IsEnvironment(l) then Environment(w, l).(novel := w.novel + Wakes(l)) else WorkerStep(w, l)
  }

  predicate Feasible(w: World, run: seq<Label>)
    decreases |run|
  {
    run == [] || (Enabled(w, run[0]) && Feasible(Next(w, run[0]), run[1..]))
  }

  function After(w: World, run: seq<Label>): World
    requires Feasible(w, run)
    decreases |run|
  {
    if run == [] then w else After(Next(w, run[0]), run[1..])
  }

  // ---- the basic invariant ----

  predicate AttemptsInRange(pc: Pc) {
    && (pc.Ready? || pc.InSession? || pc.Gated? ==> pc.attempt < MAX_ATTEMPTS_PER_TRIGGER)
    && (pc.Waiting? || pc.Blocked? ==> 1 <= pc.attempt < MAX_ATTEMPTS_PER_TRIGGER)
    && (pc.Sweeping? || pc.Discarding? ==> |pc.rest| <= MAX_PENDING_EVENTS)
  }

  ghost predicate WorldInv(w: World) {
    && QueueInv(w.queue)
    && w.flags.manual <= w.flags.activated && w.flags.credit <= w.flags.activated
    && AttemptsInRange(w.pc)
  }

  /** What happens outside leaves the worker where it is. */
  lemma SamePc(w: World, l: Label)
    requires IsEnvironment(l)
    ensures var w' := Environment(w, l); w'.pc == w.pc && w'.attempts == w.attempts && w'.novel == w.novel
    ensures Environment(w, l).flags.trigger ==> w.flags.trigger || l.Notify? || l.FinishRecovery?
  {
    hide Enqueue, Defer, Rearm, DiscardDeferred, Discarded, ClearRequest, EarnsCredit;
  }

  lemma EnvironmentKeepsQueue(w: World, l: Label)
    requires QueueInv(w.queue) && IsEnvironment(l)
    ensures QueueInv(Environment(w, l).queue)
  {
    hide QueueInv, Enqueue, Defer, Rearm, DiscardDeferred, Discarded, ClearRequest;
    match l
    case Accept(e) => EnqueueKeepsInv(w.queue, e);
    case DeferIngested(id) => DeferKeepsInv(w.queue, id, "initial_state_stale", w.now);
    case RearmDeferred(id) => DropKeepsInv(w.queue, {}, {}, id);
    case ClearQueue => DropKeepsInv(w.queue, {}, ClearRequest(w.queue), "");
    case _ =>
  }

  lemma WorkerKeepsQueue(w: World, l: Label)
    requires QueueInv(w.queue) && !IsEnvironment(l) && Enabled(w, l)
    ensures QueueInv(WorkerStep(w, l).queue)
  {
    hide QueueInv, Defer, Remove, Remember, MustDefer, TerminalMatch, Newer, NextEvent;
    match l
    case Sweep => DeferKeepsInv(w.queue, w.pc.rest[0].eventId, "automatic_event_stale", w.now);
    case Fail(_) =>
      DeferKeepsInv(w.queue, w.pc.event.eventId, "manual_stale_recording_match_miss", w.now);
      DeferKeepsInv(w.queue, w.pc.event.eventId, "automatic_retries_exhausted", w.now);
    case Duplicate => DropKeepsInv(w.queue, {}, {}, w.pc.event.eventId);
    case Save(r) =>
      DropKeepsInv(w.queue, {}, {}, w.pc.event.eventId);
      RememberKeepsInv(Remove(w.queue, w.pc.event.eventId).0, r);
    case _ =>
  }

  lemma EnvironmentKeepsInv(w: World, l: Label)
    requires WorldInv(w) && IsEnvironment(l)
    ensures WorldInv(Environment(w, l))
  {
    hide QueueInv, Enqueue, Defer, Rearm, DiscardDeferred, Discarded, ClearRequest, EarnsCredit;
    EnvironmentKeepsQueue(w, l);
    FlagsStayNested(w, l);
  }

  lemma FlagsStayNested(w: World, l: Label)
    requires w.flags.manual <= w.flags.activated && w.flags.credit <= w.flags.activated && IsEnvironment(l)
    ensures var f := Environment(w, l).flags; f.manual <= f.activated && f.credit <= f.activated
  {
    hide Enqueue, Defer, Rearm, DiscardDeferred, Discarded, ClearRequest, EarnsCredit;
  }

  lemma WorkerFlagsStayNested(w: World, l: Label)
    requires w.flags.manual <= w.flags.activated && w.flags.credit <= w.flags.activated
    requires !IsEnvironment(l) && Enabled(w, l)
    ensures var f := WorkerStep(w, l).flags; f.manual <= f.activated && f.credit <= f.activated
  {
    hide Defer, Remove, Remember, MustDefer, TerminalMatch, Newer, NextEvent, Fingerprints;
  }

  lemma AttemptsStayInRange(w: World, l: Label)
    requires AttemptsInRange(w.pc) && |w.queue.pending| <= MAX_PENDING_EVENTS && !IsEnvironment(l) && Enabled(w, l)
    ensures AttemptsInRange(WorkerStep(w, l).pc)
  {
    hide Defer, Remove, Remember, MustDefer, TerminalMatch, Newer, NextEvent, Fingerprints, Forgotten;
  }

  lemma WorkerKeepsInv(w: World, l: Label)
    requires WorldInv(w) && !IsEnvironment(l) && Enabled(w, l)
    ensures WorldInv(WorkerStep(w, l))
  {
    WorkerKeepsQueue(w, l);
    WorkerFlagsStayNested(w, l);
    assert |w.queue.pending| <= MAX_PENDING_EVENTS;
    AttemptsStayInRange(w, l);
    hide QueueInv, WorkerStep, AttemptsInRange;
  }

  lemma NextKeepsInv(w: World, l: Label)
    requires WorldInv(w) && Enabled(w, l)
    ensures WorldInv(Next(w, l))
  {
    if IsEnvironment(l) {
      EnvironmentKeepsInv(w, l);
    } else {
      WorkerKeepsInv(w, l);
    }
    hide QueueInv, Environment, WorkerStep;
  }

  lemma {:induction false} RunKeepsInv(w: World, run: seq<Label>)
    requires WorldInv(w) && Feasible(w, run)
    ensures WorldInv(After(w, run))
    decreases |run|
  {
    hide WorldInv, Next, Enabled;
    if run != [] {
      NextKeepsInv(w, run[0]);
      RunKeepsInv(Next(w, run[0]), run[1..]);
    }
  }

  // ---- short runs ----

  lemma ThreeSteps(w: World, a: Label, b: Label, c: Label)
    requires Enabled(w, a) && Enabled(Next(w, a), b) && Enabled(Next(Next(w, a), b), c)
    ensures Feasible(w, [a, b, c]) && After(w, [a, b, c]) == Next(Next(Next(w, a), b), c)
  {
    hide Enabled, Next;
    assert [a, b, c][1..] == [b, c] && [b, c][1..] == [c] && [c][1..] == [];
    var w2 := Next(Next(w, a), b);
    assert Feasible(w2, [c]) && After(w2, [c]) == Next(w2, c);
    assert Feasible(Next(w, a), [b, c]) && After(Next(w, a), [b, c]) == Next(w2, c);
  }

  lemma FirstThen(w: World, l: Label, rest: seq<Label>)
    requires Enabled(w, l) && Feasible(Next(w, l), rest)
    ensures Feasible(w, [l] + rest) && After(w, [l] + rest) == After(Next(w, l), rest)
  {
    hide Enabled, Next;
    assert ([l] + rest)[0] == l && ([l] + rest)[1..] == rest;
  }
}
