/** Safety of the recording worker over all its runs. */
module WorkerSafety {
  import opened Basics
  import opened Events
  import opened QueueTheorems
  import opened RecordingWorker
  import opened WorkerMachine

  // ---- what the queue operations do to one pending event ----

  /** `e` is the pending event with its id, and not deferred. */
  ghost predicate Live(q: Queue, e: CloudEvent) {
    e in q.pending && !IsDeferred(q, e.eventId)
  }

  lemma DeferOtherKeepsLive(q: Queue, e: CloudEvent, id: string, reason: string, at: int)
    requires Live(q, e) && id != e.eventId
    ensures Live(Defer(q, id, reason, at).0, e)
  {
    PutDeferredIds(q.deferred, DeferredEvent(id, reason, at));
  }

  lemma DropOtherKeepsLive(q: Queue, e: CloudEvent, ids: set<string>)
    requires Live(q, e) && e.eventId !in ids
    ensures e in KeepEvents(q.pending, ids) && e.eventId !in DeferredIds(KeepDeferred(q.deferred, ids))
  {
    KeepEventsFacts(q.pending, ids);
    KeepDeferredFacts(q.deferred, ids);
  }

  lemma RearmKeepsLive(q: Queue, e: CloudEvent, id: string)
    requires Live(q, e)
    ensures Live(Rearm(q, id).0, e)
  {
    KeepDeferredFacts(q.deferred, {id});
  }

  lemma ClearKeepsLive(q: Queue, e: CloudEvent, requested: set<string>)
    requires Live(q, e)
    ensures Live(DiscardDeferred(q, requested), e) && e.eventId !in Discarded(q, requested)
  {
    DropOtherKeepsLive(q, e, Discarded(q, requested));
  }

  lemma EnqueueKeepsUndeferred(q: Queue, e: CloudEvent, id: string)
    requires !IsDeferred(q, id)
    ensures !IsDeferred(Enqueue(q, e).0, id)
  {
    hide PendingIds, Fingerprints;
    if e.eventId !in q.known {
      KeepDeferredFacts(q.deferred, {(q.pending + [e])[0].eventId});
    }
  }

  lemma NotAcceptedAgain(q: Queue, e: CloudEvent, other: CloudEvent)
    requires QueueInv(q) && e in q.pending
    ensures Enqueue(q, other).1 ==> other.eventId != e.eventId
  {
    assert e.eventId in PendingIds(q.pending);
  }

  // ---- no lost first attempt ----

  /** The worker has begun an attempt for `id` in the current selection, or is
      about to discard it from its sets. */
  predicate Busy(pc: Pc, id: string) {
    || ((pc.InSession? || pc.Gated? || pc.Waiting? || pc.Blocked?) && pc.event.eventId == id)
    || (pc.Ready? && pc.event.eventId == id && pc.attempt > 0)
    || ((pc.Ending? || pc.Discarding?) && pc.id == id)
  }

  /** `e` still has its first attempt coming. */
  ghost predicate Promised(w: World, e: CloudEvent) {
    && e.source == AndroidNotification && Live(w.queue, e) && e.eventId in w.flags.credit
    && e.eventId !in w.clearing && e.eventId !in w.ingesting && !Busy(w.pc, e.eventId)
  }

  predicate StartsAttempt(w: World, l: Label, id: string) {
    l.Start? && w.pc.Ready? && w.pc.event.eventId == id
  }

  /** No outside step defers a pending event but the ingest that accepted it. */
  lemma OutsideKeepsLive(w: World, l: Label, e: CloudEvent)
    requires WorldInv(w) && IsEnvironment(l) && Enabled(w, l) && Live(w.queue, e)
    requires l != DeferIngested(e.eventId) && e in Environment(w, l).queue.pending
    ensures Live(Environment(w, l).queue, e)
  {
    hide Enqueue, Defer, Rearm, DiscardDeferred, Discarded, ClearRequest, EarnsCredit, IsDeferred;
    match l
    case Accept(other) => EnqueueKeepsUndeferred(w.queue, other, e.eventId);
    case DeferIngested(id) => DeferOtherKeepsLive(w.queue, e, id, "initial_state_stale", w.now);
    case RearmDeferred(id) => RearmKeepsLive(w.queue, e, id);
    case ClearQueue => ClearKeepsLive(w.queue, e, ClearRequest(w.queue));
    case _ =>
  }

  lemma EnvironmentKeepsPromise(w: World, l: Label, e: CloudEvent)
    requires WorldInv(w) && IsEnvironment(l) && Enabled(w, l) && Promised(w, e)
    requires e in Environment(w, l).queue.pending
    ensures Promised(Environment(w, l), e)
  {
    OutsideKeepsLive(w, l, e);
    hide Enqueue, Defer, Rearm, DiscardDeferred, Discarded, ClearRequest, EarnsCredit, IsDeferred, Live, QueueInv;
    match l
    case Accept(other) =>
      LiveIsPending(w.queue, e);
      NotAcceptedAgain(w.queue, e, other);
    case ClearQueue =>
      ClearKeepsLive(w.queue, e, ClearRequest(w.queue));
    case _ =>
  }

  lemma LiveIsPending(q: Queue, e: CloudEvent)
    requires Live(q, e)
    ensures e in q.pending
  {
  }

  lemma WorkerKeepsPromise(w: World, l: Label, e: CloudEvent)
    requires !IsEnvironment(l) && Enabled(w, l) && Promised(w, e) && !StartsAttempt(w, l, e.eventId)
    ensures Promised(WorkerStep(w, l), e)
  {
    hide Defer, Newer, NextEvent, IsDeferred, TerminalMatch, KeepEvents, KeepDeferred, Fingerprints, IsFresh;
    match l
    case Sweep =>
      if w.pc.rest[0].eventId != e.eventId {
        DeferOtherKeepsLive(w.queue, e, w.pc.rest[0].eventId, "automatic_event_stale", w.now);
      }
    case Fail(_) =>
      DeferOtherKeepsLive(w.queue, e, w.pc.event.eventId, "manual_stale_recording_match_miss", w.now);
      DeferOtherKeepsLive(w.queue, e, w.pc.event.eventId, "automatic_retries_exhausted", w.now);
    case Duplicate => CompletionKeepsLive(w.queue, e, w.pc.event.eventId, None);
    case Save(r) => CompletionKeepsLive(w.queue, e, w.pc.event.eventId, Some(r));
    case _ =>
  }

  lemma CompletionKeepsLive(q: Queue, e: CloudEvent, id: string, r: Option<CompletedRecording>)
    requires Live(q, e) && id != e.eventId
    ensures Live(Remove(q, id).0, e)
    ensures r.Some? ==> Live(Remember(Remove(q, id).0, r.value).0, e)
  {
    DropOtherKeepsLive(q, e, {id});
  }

  /** `e` stays pending and no attempt of it starts. */
  ghost predicate Unattempted(w: World, run: seq<Label>, e: CloudEvent)
    requires Feasible(w, run)
    decreases |run|
  {
    e in w.queue.pending
    && (run != [] ==>
          && !StartsAttempt(w, run[0], e.eventId)
          && Unattempted(Next(w, run[0]), run[1..], e))
  }

  /** First-attempt credit is never lost: until an attempt of the event starts or
      the event leaves the queue, no interleaving takes its credit or defers it. */
  lemma {:induction false} FirstAttemptIsNotLost(w: World, run: seq<Label>, e: CloudEvent)
    requires WorldInv(w) && Promised(w, e) && Feasible(w, run) && Unattempted(w, run, e)
    ensures Promised(After(w, run), e)
    ensures Selectable(After(w, run).flags, After(w, run).queue, After(w, run).now, e)
    decreases |run|
  {
    hide Enabled;
    if run != [] {
      var l := run[0];
      var w' := Next(w, l);
      NextKeepsInv(w, l);
      assert e in w'.queue.pending;
      if IsEnvironment(l) {
        EnvironmentKeepsPromise(w, l, e);
      } else {
        WorkerKeepsPromise(w, l, e);
      }
      hide Environment, WorkerStep, WorldInv;
      FirstAttemptIsNotLost(w', run[1..], e);
    }
  }

  lemma {:induction false} FoundIfPending(pending: seq<CloudEvent>, e: CloudEvent)
    requires e in pending && e.source == AndroidNotification && DistinctEvents(pending)
    ensures FindPending(pending, e.eventId) == Some(e)
    decreases |pending|
  {
    assert pending == [pending[0]] + pending[1..];
    if pending[0] != e {
      assert e in pending[1..];
      var i :| 0 <= i < |pending[1..]| && pending[1..][i] == e;
      assert pending[i + 1] == e;
      FoundIfPending(pending[1..], e);
    }
  }

  /** Notifying an event that is pending, fresh and not deferred makes the promise. */
  lemma NotifyPromises(w: World, e: CloudEvent)
    requires WorldInv(w) && e.source == AndroidNotification && Live(w.queue, e) && IsFresh(e, w.now)
    requires e.eventId !in w.clearing && !Busy(w.pc, e.eventId) && Enabled(w, Notify(e.eventId))
    ensures Promised(Next(w, Notify(e.eventId)), e)
  {
    FoundIfPending(w.queue.pending, e);
  }

  // ---- parking leaves nothing behind ----

  /** A worker parked on a clear trigger leaves no selectable event, other than
      those whose wake-up call is still on its way. */
  ghost predicate ParkedClean(w: World) {
    w.pc.Parked? && !w.flags.trigger ==>
      forall e :: e in w.queue.pending && Selectable(w.flags, w.queue, w.now, e) ==> e.eventId in w.owed
  }

  lemma FreshnessDecays(f: Flags, q: Queue, now: int, later: int, e: CloudEvent)
    requires now <= later && Selectable(f, q, later, e)
    ensures Selectable(f, q, now, e)
  {
  }

  lemma EnqueueAdds(q: Queue, e: CloudEvent, x: CloudEvent)
    requires QueueInv(q) && x in Enqueue(q, e).0.pending
    ensures x in q.pending || (x == e && Enqueue(q, e).1)
    ensures x in q.pending && !IsDeferred(Enqueue(q, e).0, x.eventId) ==> !IsDeferred(q, x.eventId)
  {
    if e.eventId !in q.known {
      var pending := q.pending + [e];
      KeepDeferredFacts(q.deferred, {pending[0].eventId});
      if |pending| > MAX_PENDING_EVENTS && x in pending[1..] && x in q.pending {
        var i :| 0 <= i < |pending[1..]| && pending[1..][i] == x;
        assert pending[i + 1] == x;
        NotYetListed(q, e);
      }
    }
  }

  lemma DropOnly(q: Queue, ids: set<string>, x: CloudEvent)
    requires x in KeepEvents(q.pending, ids)
    ensures x in q.pending && x.eventId !in ids
    ensures x.eventId in DeferredIds(KeepDeferred(q.deferred, ids)) <==> IsDeferred(q, x.eventId)
  {
    KeepEventsFacts(q.pending, ids);
    KeepDeferredFacts(q.deferred, ids);
  }

  lemma EnvironmentKeepsParkedClean(w: World, l: Label)
    requires WorldInv(w) && ParkedClean(w) && IsEnvironment(l) && Enabled(w, l)
    ensures ParkedClean(Environment(w, l))
  {
    var w' := Environment(w, l);
    if w'.pc.Parked? && !w'.flags.trigger {
      forall x | x in w'.queue.pending && Selectable(w'.flags, w'.queue, w'.now, x)
        ensures x.eventId in w'.owed
      {
        NewlySelectable(w, l, x);
      }
    }
  }

  /** The ids that an environment step may wake. */
  function WokenIds(l: Label): set<string> {
    match l
    case Accept(e) => {e.eventId}
    case Notify(id) => {id}
    case RearmDeferred(id) => {id}
    case FinishRecovery(ids) => ids
    case _ => {}
  }

  /** Only the woken ids can become selectable by an environment step; those it
      does not itself trigger the worker for, it owes a wake. */
  lemma NewlySelectable(w: World, l: Label, x: CloudEvent)
    requires WorldInv(w) && IsEnvironment(l) && Enabled(w, l)
    requires var w' := Environment(w, l); x in w'.queue.pending && Selectable(w'.flags, w'.queue, w'.now, x)
    ensures x.eventId in WokenIds(l) || (x in w.queue.pending && Selectable(w.flags, w.queue, w.now, x))
    ensures !Environment(w, l).flags.trigger ==>
              x.eventId in Environment(w, l).owed
              || (x in w.queue.pending && Selectable(w.flags, w.queue, w.now, x)
                  && (x.eventId in w.owed ==> x.eventId in Environment(w, l).owed))
  {
    hide Enqueue, Discarded, ClearRequest, EarnsCredit, PendingIds, DeferredIds, KeepEvents, KeepDeferred, PutDeferred;
    match l
    case Tick(to) => FreshnessDecays(w.flags, w.queue, w.now, to, x);
    case Accept(e) => EnqueueAdds(w.queue, e, x);
    case DeferIngested(id) => DeferOnly(w.queue, id, "initial_state_stale", w.now, x);
    case RearmDeferred(id) => KeepDeferredFacts(w.queue.deferred, {id});
    case ClearQueue => DropOnly(w.queue, Discarded(w.queue, ClearRequest(w.queue)), x);
    case _ =>
  }

  lemma DeferOnly(q: Queue, id: string, reason: string, at: int, x: CloudEvent)
    requires x in q.pending && !IsDeferred(Defer(q, id, reason, at).0, x.eventId)
    ensures !IsDeferred(q, x.eventId) && (QueueInv(q) ==> x.eventId != id)
  {
    PutDeferredIds(q.deferred, DeferredEvent(id, reason, at));
    if DeferredEvent(id, reason, at) in q.deferred {
      assert id in DeferredIds(q.deferred);
    }
  }

  lemma SelectKeepsParkedClean(w: World)
    requires Enabled(w, Select)
    ensures ParkedClean(WorkerStep(w, Select))
  {
    hide Selectable;
    NextOfIsNewest(w.flags, w.queue, w.now, w.queue.pending);
  }

  lemma WorkerKeepsParkedClean(w: World, l: Label)
    requires !IsEnvironment(l) && Enabled(w, l)
    ensures ParkedClean(WorkerStep(w, l))
  {
    if l.Select? {
      SelectKeepsParkedClean(w);
    } else {
      hide Defer, Remove, Remember, MustDefer, TerminalMatch, Newer, NextEvent, Selectable;
      assert !WorkerStep(w, l).pc.Parked?;
    }
  }

  lemma {:induction false} ParkingLeavesNothing(w: World, run: seq<Label>)
    requires WorldInv(w) && ParkedClean(w) && Feasible(w, run)
    ensures ParkedClean(After(w, run))
    decreases |run|
  {
    hide WorldInv, Enabled, Environment, WorkerStep, Selectable;
    if run != [] {
      NextKeepsInv(w, run[0]);
      if IsEnvironment(run[0]) {
        EnvironmentKeepsParkedClean(w, run[0]);
      } else {
        WorkerKeepsParkedClean(w, run[0]);
      }
      ParkingLeavesNothing(Next(w, run[0]), run[1..]);
    }
  }

  // ---- automatic work only wakes the camera for events that were fresh ----

  /** `e` was notified at some time at which it was fresh. */
  ghost predicate FreshWhenNotified(log: set<(string, int)>, e: CloudEvent) {
    exists t :: (e.eventId, t) in log && IsFresh(e, t)
  }

  ghost predicate NotifiedBy(log: set<(string, int)>, id: string, now: int) {
    exists t :: (id, t) in log && t <= now
  }

  /** With no manual recovery so far; `named` is the event an id stands for (an
      id is a digest of the event's own fields). */
  ghost predicate Vouched(w: World, named: string -> CloudEvent) {
    && w.flags.manual == {}
    && (forall e :: e in w.queue.pending ==> named(e.eventId) == e)
    && (forall id :: id in w.flags.activated ==> NotifiedBy(w.log, id, w.now))
    && (forall id :: id in w.flags.credit ==> named(id).eventId == id && FreshWhenNotified(w.log, named(id)))
    && (HasEvent(w.pc) ==> FreshWhenNotified(w.log, w.pc.event))
  }

  predicate Automatic(l: Label, named: string -> CloudEvent) {
    !l.RearmDeferred? && !l.FinishRecovery? && (l.Accept? ==> named(l.event.eventId) == l.event)
  }

  lemma LogGrows(log: set<(string, int)>, more: set<(string, int)>, e: CloudEvent)
    requires log <= more && FreshWhenNotified(log, e)
    ensures FreshWhenNotified(more, e)
  {
    var t :| (e.eventId, t) in log && IsFresh(e, t);
    assert (e.eventId, t) in more;
  }

  lemma NotifyKeepsVouched(w: World, id: string, named: string -> CloudEvent)
    requires Vouched(w, named)
    ensures Vouched(NotifyNow(w, id), named)
  {
    var w' := NotifyNow(w, id);
    assert (id, w.now) in w'.log;
    forall x | x in w'.flags.activated
      ensures NotifiedBy(w'.log, x, w'.now)
    {
      if x in w.flags.activated {
        var t :| (x, t) in w.log && t <= w.now;
        assert (x, t) in w'.log;
      }
    }
    if EarnsCredit(w.queue, id, w.now) {
      FindPendingHasId(w.queue.pending, id);
      assert named(id) == FindPending(w.queue.pending, id).value;
      assert FreshWhenNotified(w'.log, named(id));
    }
    forall x | x in w.flags.credit
      ensures FreshWhenNotified(w'.log, named(x))
    {
      LogGrows(w.log, w'.log, named(x));
    }
    if HasEvent(w.pc) {
      LogGrows(w.log, w'.log, w.pc.event);
    }
  }

  lemma EnvironmentKeepsVouched(w: World, l: Label, named: string -> CloudEvent)
    requires WorldInv(w) && Vouched(w, named) && IsEnvironment(l) && Enabled(w, l) && Automatic(l, named)
    ensures Vouched(Environment(w, l), named)
  {
    hide Enqueue, Discarded, ClearRequest, EarnsCredit, KeepEvents, KeepDeferred, PutDeferred, FreshWhenNotified,
      QueueInv;
    match l
    case Notify(id) => NotifyKeepsVouched(w, id, named);
    case Accept(e) =>
      forall x | x in Enqueue(w.queue, e).0.pending
        ensures x in w.queue.pending || x == e
      {
        EnqueueAdds(w.queue, e, x);
      }
    case ClearQueue => KeepEventsFacts(w.queue.pending, Discarded(w.queue, ClearRequest(w.queue)));
    case _ =>
  }

  lemma SelectedWasFresh(w: World, named: string -> CloudEvent)
    requires Vouched(w, named) && NextEvent(w.flags, w.queue, w.now).Some?
    ensures FreshWhenNotified(w.log, NextEvent(w.flags, w.queue, w.now).value)
  {
    NextOfIsNewest(w.flags, w.queue, w.now, w.queue.pending);
    var e := NextEvent(w.flags, w.queue, w.now).value;
    if e.eventId !in w.flags.credit {
      var t :| (e.eventId, t) in w.log && t <= w.now;
      assert IsFresh(e, t);
    }
  }

  lemma WorkerKeepsVouched(w: World, l: Label, named: string -> CloudEvent)
    requires Vouched(w, named) && !IsEnvironment(l) && Enabled(w, l)
    ensures Vouched(WorkerStep(w, l), named)
  {
    hide Newer, NextEvent, TerminalMatch, MustDefer, KeepEvents, KeepDeferred, PutDeferred, Fingerprints,
      FreshWhenNotified, NotifiedBy, IsDeferred, PendingIds, DeferredIds;
    match l
    case Select =>
      if NextEvent(w.flags, w.queue, w.now).Some? {
        SelectedWasFresh(w, named);
      }
    case Duplicate => KeepEventsFacts(w.queue.pending, {w.pc.event.eventId});
    case Save(_) => KeepEventsFacts(w.queue.pending, {w.pc.event.eventId});
    case _ =>
  }

  ghost predicate AutomaticRun(run: seq<Label>, named: string -> CloudEvent) {
    forall i :: 0 <= i < |run| ==> Automatic(run[i], named)
  }

  lemma {:induction false} AutomaticRunsStayVouched(w: World, run: seq<Label>, named: string -> CloudEvent)
    requires WorldInv(w) && Vouched(w, named) && Feasible(w, run) && AutomaticRun(run, named)
    ensures Vouched(After(w, run), named)
    decreases |run|
  {
    hide WorldInv, Enabled, Vouched;
    if run != [] {
      NextKeepsInv(w, run[0]);
      if IsEnvironment(run[0]) {
        EnvironmentKeepsVouched(w, run[0], named);
        NovelIsHistory(w, run[0], named);
      } else {
        WorkerKeepsVouched(w, run[0], named);
      }
      hide Environment, WorkerStep;
      AutomaticRunsStayVouched(Next(w, run[0]), run[1..], named);
    }
  }

  lemma NovelIsHistory(w: World, l: Label, named: string -> CloudEvent)
    requires IsEnvironment(l) && Enabled(w, l) && Vouched(Environment(w, l), named)
    ensures Vouched(Next(w, l), named)
  {
    hide Environment;
  }

  /** In every run without manual recovery, each event for which an attempt starts
      was fresh when it was notified. */
  lemma AutomaticWakesWereFresh(w: World, run: seq<Label>, named: string -> CloudEvent)
    requires WorldInv(w) && Vouched(w, named) && Feasible(w, run) && AutomaticRun(run, named)
    requires Enabled(After(w, run), Start)
    ensures FreshWhenNotified(After(w, run).log, After(w, run).pc.event)
  {
    hide WorldInv, After, Feasible, FreshWhenNotified;
    AutomaticRunsStayVouched(w, run, named);
  }

  // ---- a deferral lasts as long as the event is pending ----

  ghost predicate Held(q: Queue, e: CloudEvent) {
    e in q.pending && IsDeferred(q, e.eventId)
  }

  lemma EnqueueKeepsHeld(q: Queue, e: CloudEvent, x: CloudEvent)
    requires QueueInv(q) && Held(q, x) && x in Enqueue(q, e).0.pending
    ensures Held(Enqueue(q, e).0, x)
  {
    if e.eventId !in q.known {
      var pending := q.pending + [e];
      KeepDeferredFacts(q.deferred, {pending[0].eventId});
      if |pending| > MAX_PENDING_EVENTS {
        NotYetListed(q, e);
        var i :| 0 <= i < |pending[1..]| && pending[1..][i] == x;
        assert pending[i + 1] == x;
      }
    }
  }

  lemma DropKeepsHeld(q: Queue, ids: set<string>, x: CloudEvent)
    requires Held(q, x) && x in KeepEvents(q.pending, ids)
    ensures x.eventId in DeferredIds(KeepDeferred(q.deferred, ids))
  {
    KeepEventsFacts(q.pending, ids);
    KeepDeferredFacts(q.deferred, ids);
  }

  lemma DeferKeepsHeld(q: Queue, x: CloudEvent, id: string, reason: string, at: int)
    requires Held(q, x)
    ensures Held(Defer(q, id, reason, at).0, x)
  {
    PutDeferredIds(q.deferred, DeferredEvent(id, reason, at));
  }

  lemma NextKeepsHeld(w: World, l: Label, x: CloudEvent)
    requires WorldInv(w) && Enabled(w, l) && Held(w.queue, x)
    requires l != RearmDeferred(x.eventId) && x in Next(w, l).queue.pending
    ensures Held(Next(w, l).queue, x)
  {
    hide Enqueue, Defer, Discarded, ClearRequest, EarnsCredit, MustDefer, TerminalMatch, Newer, NextEvent,
      DeferredIds, KeepEvents, KeepDeferred, Fingerprints;
    match l
    case Accept(e) => EnqueueKeepsHeld(w.queue, e, x);
    case DeferIngested(id) => DeferKeepsHeld(w.queue, x, id, "initial_state_stale", w.now);
    case RearmDeferred(id) => KeepDeferredFacts(w.queue.deferred, {id});
    case ClearQueue => DropKeepsHeld(w.queue, Discarded(w.queue, ClearRequest(w.queue)), x);
    case Sweep => DeferKeepsHeld(w.queue, x, w.pc.rest[0].eventId, "automatic_event_stale", w.now);
    case Fail(_) =>
      DeferKeepsHeld(w.queue, x, w.pc.event.eventId, "manual_stale_recording_match_miss", w.now);
      DeferKeepsHeld(w.queue, x, w.pc.event.eventId, "automatic_retries_exhausted", w.now);
    case Duplicate => DropKeepsHeld(w.queue, {w.pc.event.eventId}, x);
    case Save(_) => DropKeepsHeld(w.queue, {w.pc.event.eventId}, x);
    case _ =>
  }

  ghost predicate PendingThroughout(w: World, run: seq<Label>, x: CloudEvent)
    requires Feasible(w, run)
    decreases |run|
  {
    x in w.queue.pending && (run != [] ==> PendingThroughout(Next(w, run[0]), run[1..], x))
  }

  /** Only a manual recovery that names it ends a deferral while the event is
      pending; until then the worker cannot select it. */
  lemma {:induction false} DeferralLasts(w: World, run: seq<Label>, x: CloudEvent)
    requires WorldInv(w) && Held(w.queue, x) && Feasible(w, run) && PendingThroughout(w, run, x)
    requires forall i :: 0 <= i < |run| ==> run[i] != RearmDeferred(x.eventId)
    ensures Held(After(w, run).queue, x)
    ensures !Selectable(After(w, run).flags, After(w, run).queue, After(w, run).now, x)
    decreases |run|
  {
    hide WorldInv, Enabled, Next;
    if run != [] {
      NextKeepsInv(w, run[0]);
      assert x in Next(w, run[0]).queue.pending;
      NextKeepsHeld(w, run[0], x);
      DeferralLasts(Next(w, run[0]), run[1..], x);
    }
  }
}
