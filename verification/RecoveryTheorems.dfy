/** What a manual recovery can promise: the counterpart of the first-attempt promise
    for events that `async_request_manual_recovery` queues. */
module RecoveryTheorems {
  import opened Basics
  import opened Events
  import opened QueueTheorems
  import opened RecordingWorker
  import opened WorkerMachine
  import opened WorkerSafety

  /** A session for `id` is under way, or its marks are about to be discarded. */
  predicate AtWork(pc: Pc, id: string) {
    || ((pc.InSession? || pc.Gated?) && pc.event.eventId == id)
    || ((pc.Ending? || pc.Discarding?) && pc.id == id)
  }

  /** Nothing that is already under way will defer `e` or take its mark. */
  ghost predicate Undisturbed(w: World, e: CloudEvent) {
    && Live(w.queue, e)
    && e.eventId !in w.clearing && e.eventId !in w.ingesting && !AtWork(w.pc, e.eventId)
  }

  /** `e` is marked for recovery, and its attempt is still to come. */
  ghost predicate Recovering(w: World, e: CloudEvent) {
    e.source == AndroidNotification && e.eventId in w.flags.manual && Undisturbed(w, e)
  }

  lemma OutsideKeepsRecovering(w: World, l: Label, e: CloudEvent)
    requires WorldInv(w) && IsEnvironment(l) && Enabled(w, l) && Recovering(w, e)
    requires e in Environment(w, l).queue.pending
    ensures Recovering(Environment(w, l), e)
  {
    OutsideKeepsLive(w, l, e);
    hide Enqueue, Defer, Rearm, DiscardDeferred, Discarded, ClearRequest, EarnsCredit, IsDeferred, Live, QueueInv;
    match l
    case Accept(other) =>
      LiveIsPending(w.queue, e);
      NotAcceptedAgain(w.queue, e, other);
    case ClearQueue => ClearKeepsLive(w.queue, e, ClearRequest(w.queue));
    case _ =>
  }

  lemma WorkerKeepsRecovering(w: World, l: Label, e: CloudEvent)
    requires !IsEnvironment(l) && Enabled(w, l) && Recovering(w, e) && !StartsAttempt(w, l, e.eventId)
    ensures Recovering(WorkerStep(w, l), e)
  {
    hide Defer, Newer, NextEvent, IsDeferred, TerminalMatch, KeepEvents, KeepDeferred, Fingerprints, IsFresh;
    match l
    case Sweep =>
      if w.pc.rest[0].eventId != e.eventId {
        DeferOtherKeepsLive(w.queue, e, w.pc.rest[0].eventId, "automatic_event_stale", w.now);
      }
    case Fail(_) =>
      DeferOtherKeepsLive(w.queue, e, w.pc.event.eventId, "manual_stale_recording_match_miss", w.now);
      DeferOtherKeepsLive(w.queue, e, w.pc.event.eventId, "automatic_retries_exhausted", w.now);
    case Duplicate => CompletionKeepsLive(w.queue, e, w.pc.event.eventId, None);
    case Save(r) => CompletionKeepsLive(w.queue, e, w.pc.event.eventId, Some(r));
    case _ =>
  }

  /** A recovered event keeps its mark, is not deferred and stays selectable, until
      an attempt of it starts or it leaves the queue. */
  lemma {:induction false} RecoveredStaysSelectable(w: World, run: seq<Label>, e: CloudEvent)
    requires WorldInv(w) && Recovering(w, e) && Feasible(w, run) && Unattempted(w, run, e)
    ensures Recovering(After(w, run), e)
    ensures Selectable(After(w, run).flags, After(w, run).queue, After(w, run).now, e)
    decreases |run|
  {
    hide Enabled;
    if run != [] {
      var l := run[0];
      NextKeepsInv(w, l);
      assert e in Next(w, l).queue.pending;
      if IsEnvironment(l) {
        OutsideKeepsRecovering(w, l, e);
      } else {
        WorkerKeepsRecovering(w, l, e);
      }
      hide Environment, WorkerStep, WorldInv;
      RecoveredStaysSelectable(Next(w, l), run[1..], e);
    }
  }

  /** What a recovery does for a deferred event that nothing else has under way: the
      deferral is lifted, and at its end the event is up for its attempt. */
  lemma RecoveryLifts(w: World, e: CloudEvent)
    requires WorldInv(w) && e in w.queue.pending && e.source == AndroidNotification && IsDeferred(w.queue, e.eventId)
    requires e.eventId !in w.clearing && e.eventId !in w.ingesting && !AtWork(w.pc, e.eventId)
    ensures var run := [RearmDeferred(e.eventId), FinishRecovery({e.eventId})];
      && Feasible(w, run)
      && var end := After(w, run);
         && Recovering(end, e) && Selectable(end.flags, end.queue, end.now, e) && end.flags.trigger
         && end.queue.pending == w.queue.pending
  {
    KeepDeferredFacts(w.queue.deferred, {e.eventId});
    hide QueueInv, KeepDeferred, DeferredIds, IsFresh;
    var w1 := Next(w, RearmDeferred(e.eventId));
    FirstThen(w1, FinishRecovery({e.eventId}), []);
    FirstThen(w, RearmDeferred(e.eventId), [FinishRecovery({e.eventId})] + []);
    assert [RearmDeferred(e.eventId)] + ([FinishRecovery({e.eventId})] + [])
        == [RearmDeferred(e.eventId), FinishRecovery({e.eventId})];
  }

  /** A run in which `e` stays pending and unattempted, and then is not selectable. */
  ghost predicate Loses(w: World, run: seq<Label>, e: CloudEvent) {
    && Feasible(w, run) && Unattempted(w, run, e)
    && !Selectable(After(w, run).flags, After(w, run).queue, After(w, run).now, e)
  }

  lemma OneStepLoses(w: World, l: Label, e: CloudEvent)
    requires Enabled(w, l) && e in w.queue.pending && e in Next(w, l).queue.pending
    requires !StartsAttempt(w, l, e.eventId) && !Selectable(Next(w, l).flags, Next(w, l).queue, Next(w, l).now, e)
    ensures Loses(w, [l], e)
  {
    hide Enabled, Next, Selectable;
    var w' := Next(w, l);
    assert [l][0] == l && [l][1..] == [];
    assert Feasible(w', []) && Unattempted(w', [], e) && After(w', []) == w';
    assert Feasible(w, [l]) && After(w, [l]) == w';
  }

  lemma EarlierLoses(w: World, l: Label, rest: seq<Label>, e: CloudEvent)
    requires Enabled(w, l) && e in w.queue.pending && !StartsAttempt(w, l, e.eventId) && Loses(Next(w, l), rest, e)
    ensures Loses(w, [l] + rest, e)
  {
    hide Enabled, Next, Selectable;
    assert ([l] + rest)[0] == l && ([l] + rest)[1..] == rest;
  }

  /** The time at which `e` has gone stale. */
  function LaterThanFresh(now: int, e: CloudEvent): (to: int)
    ensures to >= now && !IsFresh(e, to)
  {
    var limit := EventTime(e) + AUTOMATIC_RECORDING_EVENT_MAX_AGE + 1;
    if now > limit then now else limit
  }

  lemma SessionLoses(w: World, e: CloudEvent)
    requires WorldInv(w) && e in w.queue.pending && e.eventId in w.flags.manual
    requires (w.pc.InSession? || w.pc.Gated?) && w.pc.event.eventId == e.eventId
    ensures exists run :: Loses(w, run, e)
  {
    var to := LaterThanFresh(w.now, w.pc.event);
    var w1 := Next(w, Tick(to));
    assert w1.queue == w.queue && w1.flags == w.flags && w1.pc == w.pc && w1.now == to;
    var l := Fail(MatchError);
    PutDeferredIds(w.queue.deferred, DeferredEvent(e.eventId, "manual_stale_recording_match_miss", to));
    hide WorldInv, PutDeferred, PendingIds, EventTime;
    assert Held(Next(w1, l).queue, e);
    hide Defer, IsDeferred, Next;
    HeldLoses(w1, l, e);
    EarlierLoses(w, Tick(to), [l], e);
  }

  lemma HeldLoses(w: World, l: Label, e: CloudEvent)
    requires Enabled(w, l) && e in w.queue.pending && !l.Start? && Held(Next(w, l).queue, e)
    ensures Loses(w, [l], e)
  {
    hide Enabled, Next;
    OneStepLoses(w, l, e);
  }

  lemma MarkLoses(w: World, e: CloudEvent)
    requires WorldInv(w) && e in w.queue.pending && e.source == AndroidNotification
    requires e.eventId in w.clearing || e.eventId in w.ingesting
             || ((w.pc.Ending? || w.pc.Discarding?) && w.pc.id == e.eventId)
    ensures exists run :: Loses(w, run, e)
  {
    var id := e.eventId;
    var l := if id in w.clearing then ForgetCleared({id})
             else if id in w.ingesting then DeferIngested(id)
             else if w.pc.Ending? then Finish else Discard;
    PutDeferredIds(w.queue.deferred, DeferredEvent(id, "initial_state_stale", w.now));
    hide QueueInv, PutDeferred;
    assert !Selectable(Next(w, l).flags, Next(w, l).queue, Next(w, l).now, e);
    OneStepLoses(w, l, e);
    assert Loses(w, [l], e);
  }

  /** The exact condition for the promise of a manual recovery, read when it ends: of
      the events it marks, one stays selectable over every run until an attempt of it
      starts or it leaves the queue if and only if it is then neither deferred nor at
      work, and neither an ingest nor a clear has still to come to it. The recovery
      counts the others as queued all the same. */
  lemma RecoveryPromiseIff(w: World, ids: set<string>, e: CloudEvent)
    requires WorldInv(w) && e in w.queue.pending && e.source == AndroidNotification && e.eventId in ids
    ensures var w' := Next(w, FinishRecovery(ids));
      (forall run :: !Loses(w', run, e)) <==> Undisturbed(w, e)
  {
    var w' := Next(w, FinishRecovery(ids));
    NextKeepsInv(w, FinishRecovery(ids));
    assert w'.queue == w.queue && w'.pc == w.pc && w'.clearing == w.clearing && w'.ingesting == w.ingesting;
    assert e.eventId in w'.flags.manual;
    hide WorldInv, Next, Loses;
    if Undisturbed(w, e) {
      forall run
        ensures !Loses(w', run, e)
      {
        NeverLost(w', run, e);
      }
    } else if IsDeferred(w.queue, e.eventId) {
      DeferredLoses(w', e);
    } else if (w.pc.InSession? || w.pc.Gated?) && w.pc.event.eventId == e.eventId {
      SessionLoses(w', e);
    } else {
      MarkLoses(w', e);
    }
  }

  lemma NeverLost(w: World, run: seq<Label>, e: CloudEvent)
    requires WorldInv(w) && Recovering(w, e)
    ensures !Loses(w, run, e)
  {
    hide WorldInv, Recovering, Selectable;
    if Feasible(w, run) && Unattempted(w, run, e) {
      RecoveredStaysSelectable(w, run, e);
    }
  }

  lemma DeferredLoses(w: World, e: CloudEvent)
    requires e in w.queue.pending && IsDeferred(w.queue, e.eventId)
    ensures exists run :: Loses(w, run, e)
  {
    assert Loses(w, [], e);
  }

  /** It does happen: a sweep defers an event that the recovery has already passed,
      the recovery marks it while that deferral is being saved, and the sweep then
      discards the mark. The event ends deferred and unmarked, never attempted. */
  lemma SweepTakesTheMark(w: World, ids: set<string>, e: CloudEvent)
    requires w.pc.Sweeping? && w.pc.rest != [] && w.pc.rest[0] == e && e in w.queue.pending
    requires MustDefer(w.flags, e, w.pc.clock) && e.eventId in ids
    ensures var run := [Sweep, FinishRecovery(ids), Discard];
      && Feasible(w, run)
      && Held(After(w, run).queue, e) && e.eventId !in After(w, run).flags.manual
      && e.eventId !in After(w, run).flags.activated && After(w, run).attempts == w.attempts
  {
    PutDeferredIds(w.queue.deferred, DeferredEvent(e.eventId, "automatic_event_stale", w.now));
    var w1 := Next(w, Sweep);
    var w2 := Next(w1, FinishRecovery(ids));
    var w3 := Next(w2, Discard);
    assert w3.queue == w1.queue && w3.attempts == w.attempts && Held(w3.queue, e);
    assert e.eventId !in w3.flags.manual && e.eventId !in w3.flags.activated;
    assert Enabled(w, Sweep) && Enabled(w1, FinishRecovery(ids)) && Enabled(w2, Discard);
    hide Next, Enabled, MustDefer, Defer, Held, PutDeferred;
    ThreeSteps(w, Sweep, FinishRecovery(ids), Discard);
  }
}
