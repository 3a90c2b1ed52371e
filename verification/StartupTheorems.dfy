/** What startup recovery does to the backlog, and to promises that were made
    before it ran. */
module StartupTheorems {
  import opened Basics
  import opened Events
  import opened QueueTheorems
  import opened RecordingWorker
  import opened WorkerMachine
  import opened WorkerProgress
  import opened WorkerSafety
  import opened StartupMachine

  /** `e` stays pending, and no manual recovery rearms it. */
  ghost predicate Remains(b: Boot, run: seq<BootLabel>, e: CloudEvent)
    requires Possible(b, run)
    decreases |run|
  {
    && e in b.w.queue.pending
    && (run != [] ==> run[0] != Outside(RearmDeferred(e.eventId)) && Remains(Happens(b, run[0]), run[1..], e))
  }

  // ---- whoever is not chosen is deferred ----

  /** `e`, pending since before the recovery, is deferred or may still be chosen. */
  ghost predicate Sorted(b: Boot, e: CloudEvent) {
    match b.stage
    case Setup => true
    case Retiring(clock, rest) => e in rest || IsFresh(e, clock) || Held(b.w.queue, e)
    case Benching(clock, start, rest) =>
      || Candidate(start, clock) == Some(e) || Held(b.w.queue, e)
      || (Candidate(start, clock).Some? && IsEligible(start, clock, e) && e in rest)
    case LoopRuns(clock, start) => Candidate(start, clock) == Some(e) || Held(b.w.queue, e)
  }

  lemma DeferAdds(q: Queue, e: CloudEvent, reason: string, at: int)
    requires e in q.pending
    ensures Held(Defer(q, e.eventId, reason, at).0, e)
  {
    PutDeferredIds(q.deferred, DeferredEvent(e.eventId, reason, at));
  }

  lemma StartupKeepsHeld(q: Queue, start: Queue, x: CloudEvent, clock: int, e: CloudEvent)
    requires Held(q, e)
    ensures Held(RetireOne(q, x, clock), e) && Held(BenchOne(q, start, x, clock), e)
  {
    hide Candidate, IsEligible, Held;
    DeferKeepsHeld(q, e, x.eventId, "startup_event_stale", clock);
    DeferKeepsHeld(q, e, x.eventId, "startup_not_selected", clock);
  }

  lemma RetireTurn(b: Boot, e: CloudEvent)
    requires BootInv(b) && CanHappen(b, Retire) && Sorted(b, e)
    requires e.source == AndroidNotification && e in b.w.queue.pending
    ensures Sorted(Happens(b, Retire), e)
  {
    var x := b.stage.rest[0];
    hide QueueInv, IsFresh;
    if Held(b.w.queue, e) {
      StartupKeepsHeld(b.w.queue, b.w.queue, x, b.stage.clock, e);
    } else if x == e {
      DeferAdds(b.w.queue, e, "startup_event_stale", b.stage.clock);
    } else {
      assert b.stage.rest == [x] + b.stage.rest[1..];
    }
  }

  lemma ChooseTurn(b: Boot, e: CloudEvent)
    requires CanHappen(b, Choose) && Sorted(b, e)
    requires e.source == AndroidNotification && e in b.w.queue.pending
    ensures Sorted(Happens(b, Choose), e)
  {
    NewestEligibleFacts(b.w.queue, b.stage.clock, b.w.queue.pending);
  }

  lemma BenchTurn(b: Boot, e: CloudEvent)
    requires BootInv(b) && CanHappen(b, Bench) && Sorted(b, e) && e in b.w.queue.pending
    requires SoleBearer(b, e)
    ensures Sorted(Happens(b, Bench), e)
  {
    var x := b.stage.rest[0];
    hide QueueInv, IsEligible, Candidate;
    if Held(b.w.queue, e) {
      StartupKeepsHeld(b.w.queue, b.stage.start, x, b.stage.clock, e);
    } else if x == e {
      DeferAdds(b.w.queue, e, "startup_not_selected", b.stage.clock);
    } else {
      assert b.stage.rest == [x] + b.stage.rest[1..];
    }
  }

  /** The lists startup works through hold no second event with the id of `e`. */
  ghost predicate SoleBearer(b: Boot, e: CloudEvent) {
    match b.stage
    case Setup => true
    case Retiring(_, rest) => forall x :: x in rest && x.eventId == e.eventId ==> x == e
    case Benching(clock, start, rest) =>
      && (forall x :: x in rest && x.eventId == e.eventId ==> x == e)
      && (Candidate(start, clock).Some? && Candidate(start, clock).value.eventId == e.eventId ==>
            Candidate(start, clock) == Some(e))
    case LoopRuns(_, _) => true
  }

  lemma SameIdSameEvent(q: Queue, e: CloudEvent, x: CloudEvent)
    requires QueueInv(q) && e in q.pending && x in q.pending && e.eventId == x.eventId
    ensures e == x
  {
    var i :| 0 <= i < |q.pending| && q.pending[i] == e;
    var j :| 0 <= j < |q.pending| && q.pending[j] == x;
    assert i == j;
  }

  lemma StaysSoleBearer(b: Boot, l: BootLabel, e: CloudEvent)
    requires BootInv(b) && CanHappen(b, l) && SoleBearer(b, e) && e in b.w.queue.pending
    ensures SoleBearer(Happens(b, l), e)
  {
    hide QueueInv, NewestEligible, RetireOne, BenchOne, IsEnvironment, Enabled;
    if l.Recover? || l.Choose? {
      NewestEligibleFacts(b.w.queue, if l.Choose? then b.stage.clock else b.w.now, b.w.queue.pending);
      forall x | x in b.w.queue.pending && x.eventId == e.eventId
        ensures x == e
      {
        SameIdSameEvent(b.w.queue, e, x);
      }
    }
  }

  lemma StaysSorted(b: Boot, l: BootLabel, e: CloudEvent)
    requires BootInv(b) && CanHappen(b, l) && Sorted(b, e) && SoleBearer(b, e)
    requires e.source == AndroidNotification && e in b.w.queue.pending
    requires l != Outside(RearmDeferred(e.eventId)) && e in Happens(b, l).w.queue.pending
    ensures Sorted(Happens(b, l), e)
  {
    match l
    case Outside(outer) =>
      if Held(b.w.queue, e) {
        NextKeepsHeld(b.w, outer, e);
      }
    case Retire => RetireTurn(b, e);
    case Choose => ChooseTurn(b, e);
    case Bench => BenchTurn(b, e);
    case _ =>
    hide BootInv, Held, Candidate, IsEligible, IsFresh, Next, EarnsCredit;
  }

  /** Every Android event that is pending before startup recovery and remains so is
      deferred at its end, unless it is the newest eligible one; whatever happens at
      the awaits of setup and of the recovery itself. */
  lemma {:induction false} StartupKeepsOnlyTheNewest(b: Boot, run: seq<BootLabel>, e: CloudEvent)
    requires BootInv(b) && Possible(b, run) && Sorted(b, e) && SoleBearer(b, e)
    requires e.source == AndroidNotification && Remains(b, run, e)
    ensures BootInv(Boots(b, run)) && Sorted(Boots(b, run), e)
    ensures var end := Boots(b, run);
      end.stage.LoopRuns? ==>
        || Candidate(end.stage.start, end.stage.clock) == Some(e)
        || (Held(end.w.queue, e) && !Selectable(end.w.flags, end.w.queue, end.w.now, e))
    decreases |run|
  {
    hide BootInv, Candidate, CanHappen, Happens, SoleBearer;
    if run != [] {
      var b1 := Happens(b, run[0]);
      assert e in b1.w.queue.pending;
      HappensKeepsInv(b, run[0]);
      StaysSorted(b, run[0], e);
      StaysSoleBearer(b, run[0], e);
      hide Sorted;
      StartupKeepsOnlyTheNewest(b1, run[1..], e);
    }
  }

  // ---- promises made before startup recovery ----

  /** A promise lasts as long as `e` can still be chosen. */
  ghost predicate PromiseLasts(b: Boot, e: CloudEvent) {
    match b.stage
    case Setup => Promised(b.w, e)
    case Retiring(clock, _) => IsFresh(e, clock) ==> Promised(b.w, e)
    case Benching(clock, start, _) => Candidate(start, clock) == Some(e) ==> Promised(b.w, e)
    case LoopRuns(clock, start) => Candidate(start, clock) == Some(e) ==> Promised(b.w, e)
  }

  lemma OthersRetired(w: World, x: CloudEvent, clock: int, e: CloudEvent)
    requires Promised(w, e) && (x.eventId == e.eventId ==> x == e) && IsFresh(e, clock)
    ensures Promised(w.(queue := RetireOne(w.queue, x, clock)), e)
  {
    hide IsFresh;
    if x.eventId != e.eventId {
      DeferOtherKeepsLive(w.queue, e, x.eventId, "startup_event_stale", clock);
    }
  }

  lemma OthersBenched(w: World, start: Queue, x: CloudEvent, clock: int, e: CloudEvent)
    requires Promised(w, e) && Candidate(start, clock) == Some(e)
    ensures Promised(w.(queue := BenchOne(w.queue, start, x, clock)), e)
  {
    hide Candidate, IsEligible;
    if x.eventId != e.eventId {
      DeferOtherKeepsLive(w.queue, e, x.eventId, "startup_not_selected", clock);
    }
  }

  lemma StaysPromised(b: Boot, l: BootLabel, e: CloudEvent)
    requires BootInv(b) && CanHappen(b, l) && PromiseLasts(b, e) && SoleBearer(b, e)
    requires e in b.w.queue.pending && e in Happens(b, l).w.queue.pending
    ensures PromiseLasts(Happens(b, l), e)
  {
    hide NewestEligible, RetireOne, BenchOne, IsFresh, EarnsCredit, Live, IsDeferred, Busy;
    match l
    case Outside(outer) =>
      if Promised(b.w, e) {
        EnvironmentKeepsPromise(b.w, outer, e);
        HistoryIsNotPromise(b.w, outer, e);
      }
      hide BootInv, Next, Promised;
    case Retire =>
      if IsFresh(e, b.stage.clock) {
        OthersRetired(b.w, b.stage.rest[0], b.stage.clock, e);
      }
    case Choose =>
      NewestEligibleFacts(b.w.queue, b.stage.clock, b.w.queue.pending);
    case Bench =>
      if Candidate(b.stage.start, b.stage.clock) == Some(e) {
        OthersBenched(b.w, b.stage.start, b.stage.rest[0], b.stage.clock, e);
      }
    case _ =>
  }

  lemma HistoryIsNotPromise(w: World, l: Label, e: CloudEvent)
    requires IsEnvironment(l) && Enabled(w, l) && Promised(Environment(w, l), e)
    ensures Promised(Next(w, l), e)
  {
    hide Environment, Live, IsDeferred;
  }

  lemma {:induction false} PromiseOfTheChosen(b: Boot, run: seq<BootLabel>, e: CloudEvent)
    requires BootInv(b) && Possible(b, run) && PromiseLasts(b, e) && SoleBearer(b, e) && Remains(b, run, e)
    ensures PromiseLasts(Boots(b, run), e)
    decreases |run|
  {
    hide BootInv, CanHappen, Happens, SoleBearer, PromiseLasts;
    if run != [] {
      var b1 := Happens(b, run[0]);
      assert e in b1.w.queue.pending;
      HappensKeepsInv(b, run[0]);
      StaysPromised(b, run[0], e);
      StaysSoleBearer(b, run[0], e);
      PromiseOfTheChosen(b1, run[1..], e);
    }
  }

  /** The first-attempt promise across startup: an event that was promised before
      startup recovery is promised after it if and only if it is the newest eligible
      event when the recovery chooses; otherwise it ends deferred, credit or not. */
  lemma PromiseSurvivesIff(b: Boot, run: seq<BootLabel>, e: CloudEvent)
    requires BootInv(b) && b.stage.Setup? && Promised(b.w, e)
    requires Possible(b, run) && Remains(b, run, e) && Boots(b, run).stage.LoopRuns?
    ensures var end := Boots(b, run);
      && (Promised(end.w, e) <==> Candidate(end.stage.start, end.stage.clock) == Some(e))
      && (!Promised(end.w, e) ==> Held(end.w.queue, e) && !Selectable(end.w.flags, end.w.queue, end.w.now, e))
  {
    hide BootInv, Boots, Possible, Remains, Candidate;
    StartupKeepsOnlyTheNewest(b, run, e);
    PromiseOfTheChosen(b, run, e);
  }

  /** In terms of the queue before an undisturbed recovery: the promise survives if
      and only if no fresh, undeferred Android event is newer, or as new and listed
      earlier. */
  lemma UndisturbedPromiseIff(b: Boot, e: CloudEvent) returns (run: seq<BootLabel>)
    requires BootInv(b) && b.stage.Setup? && Promised(b.w, e)
    ensures Possible(b, run) && Boots(b, run).stage.LoopRuns? && (forall i :: 0 <= i < |run| ==> !run[i].Outside?)
    ensures Promised(Boots(b, run).w, e) <==> Candidate(b.w.queue, b.w.now) == Some(e)
    ensures !Promised(Boots(b, run).w, e) ==> Held(Boots(b, run).w.queue, e)
  {
    assert e in b.w.queue.pending && QueueInv(b.w.queue);
    hide BootInv, Candidate, Promised, Held;
    run := UndisturbedRecovery(b);
    QuietRunsKeepPending(b, run, e);
    PromiseSurvivesIff(b, run, e);
    RetiringChoosesTheSame(b.w.queue, b.w.now);
  }

  lemma {:induction false} QuietRunsKeepPending(b: Boot, run: seq<BootLabel>, e: CloudEvent)
    requires BootInv(b) && Possible(b, run) && e in b.w.queue.pending && forall i :: 0 <= i < |run| ==> !run[i].Outside?
    ensures Remains(b, run, e)
    decreases |run|
  {
    hide QueueInv, RetireOne, BenchOne, Candidate, EarnsCredit;
    if run != [] {
      HappensKeepsInv(b, run[0]);
      if run[0].Retire? || run[0].Bench? {
        var start := if run[0].Bench? then b.stage.start else b.w.queue;
        StartupDefersOrNot(b.w.queue, start, b.stage.rest[0], b.stage.clock);
      }
      QuietRunsKeepPending(Happens(b, run[0]), run[1..], e);
    }
  }

  lemma {:induction false} RetiringKeepsPending(q: Queue, events: seq<CloudEvent>, clock: int)
    requires QueueInv(q)
    ensures QueueInv(RetireAll(q, events, clock)) && RetireAll(q, events, clock).pending == q.pending
    decreases |events|
  {
    hide QueueInv, RetireOne;
    if events != [] {
      var before := RetireAll(q, events[..|events| - 1], clock);
      RetiringKeepsPending(q, events[..|events| - 1], clock);
      StartupDefersOrNot(before, before, events[|events| - 1], clock);
    }
  }

  /** Deferring stale events changes nobody's eligibility. */
  lemma {:induction false} RetiringKeepsEligible(q: Queue, events: seq<CloudEvent>, clock: int, x: CloudEvent)
    requires QueueInv(q) && x in q.pending && forall e :: e in events ==> e in q.pending
    ensures IsEligible(RetireAll(q, events, clock), clock, x) <==> IsEligible(q, clock, x)
    decreases |events|
  {
    if events != [] {
      var n := |events| - 1;
      var e := events[n];
      assert events == events[..n] + [e];
      RetiringKeepsEligible(q, events[..n], clock, x);
      var before := RetireAll(q, events[..n], clock);
      PutDeferredIds(before.deferred, DeferredEvent(e.eventId, "startup_event_stale", clock));
      if e.eventId == x.eventId {
        SameIdSameEvent(q, e, x);
      }
      hide QueueInv;
    }
  }

  lemma {:induction false} SameChoice(q: Queue, r: Queue, clock: int, events: seq<CloudEvent>)
    requires forall x :: x in events ==> (IsEligible(q, clock, x) <==> IsEligible(r, clock, x))
    ensures NewestEligible(q, clock, events) == NewestEligible(r, clock, events)
    decreases |events|
  {
    hide IsEligible;
    if events != [] {
      assert events == events[..|events| - 1] + [events[|events| - 1]];
      SameChoice(q, r, clock, events[..|events| - 1]);
    }
  }

  lemma RetiringChoosesTheSame(q: Queue, clock: int)
    requires QueueInv(q)
    ensures Candidate(RetireAll(q, q.pending, clock), clock) == Candidate(q, clock)
  {
    hide IsEligible, NewestEligible, QueueInv, RetireAll;
    forall x | x in q.pending
      ensures IsEligible(RetireAll(q, q.pending, clock), clock, x) <==> IsEligible(q, clock, x)
    {
      RetiringKeepsEligible(q, q.pending, clock, x);
    }
    RetiringKeepsPending(q, q.pending, clock);
    SameChoice(RetireAll(q, q.pending, clock), q, clock, q.pending);
  }

  /** Of two events promised before startup at most one is promised after it. */
  lemma OnePromiseSurvives(b: Boot, run: seq<BootLabel>, e: CloudEvent, f: CloudEvent)
    requires BootInv(b) && b.stage.Setup? && Promised(b.w, e) && Promised(b.w, f) && e != f
    requires Possible(b, run) && Remains(b, run, e) && Remains(b, run, f) && Boots(b, run).stage.LoopRuns?
    ensures !(Promised(Boots(b, run).w, e) && Promised(Boots(b, run).w, f))
  {
    hide BootInv, Boots, Possible, Remains, Candidate, Promised;
    PromiseSurvivesIff(b, run, e);
    PromiseSurvivesIff(b, run, f);
  }

  /** A new Android event that an ingest accepts. */
  ghost predicate CanArrive(b: Boot, e: CloudEvent) {
    && e.source == AndroidNotification && IsFresh(e, b.w.now)
    && e.eventId !in b.w.queue.known && e.eventId !in b.w.clearing && |b.w.queue.pending| < MAX_PENDING_EVENTS
  }

  lemma AcceptedArrival(b: Boot, e: CloudEvent)
    requires BootInv(b) && b.stage.Setup? && CanArrive(b, e)
    ensures CanHappen(b, Outside(Accept(e)))
    ensures var b1 := Happens(b, Outside(Accept(e)));
      && BootInv(b1) && b1.stage.Setup? && b1.w.now == b.w.now && b1.w.clearing == b.w.clearing
      && b1.w.queue.pending == b.w.queue.pending + [e] && b1.w.queue.known <= b.w.queue.known + {e.eventId}
      && Live(b1.w.queue, e) && e.eventId in b1.w.ingesting
  {
    HappensKeepsInv(b, Outside(Accept(e)));
    hide RetireOne, BenchOne;
    assert e.eventId !in DeferredIds(b.w.queue.deferred);
    EnqueueKeepsUndeferred(b.w.queue, e, e.eventId);
  }

  /** An event that arrives during setup and is notified while fresh is promised,
      and breaks no earlier promise. */
  lemma NotifiedArrival(b: Boot, e: CloudEvent, d: CloudEvent) returns (b2: Boot)
    requires BootInv(b) && b.stage.Setup? && CanArrive(b, e)
    ensures Possible(b, [Outside(Accept(e)), Outside(Notify(e.eventId))])
    ensures b2 == Boots(b, [Outside(Accept(e)), Outside(Notify(e.eventId))])
    ensures BootInv(b2) && b2.stage.Setup? && b2.w.now == b.w.now && b2.w.clearing == b.w.clearing
    ensures b2.w.queue.pending == b.w.queue.pending + [e] && b2.w.queue.known <= b.w.queue.known + {e.eventId}
    ensures Promised(b2.w, e) && (Promised(b.w, d) ==> Promised(b2.w, d))
  {
    AcceptedArrival(b, e);
    var b1 := Happens(b, Outside(Accept(e)));
    var l := Notify(e.eventId);
    b2 := Happens(b1, Outside(l));
    HappensKeepsInv(b1, Outside(l));
    NotifyPromises(b1.w, e);
    assert d in b.w.queue.pending ==> d in b1.w.queue.pending;
    hide QueueInv, Enqueue, EarnsCredit, Live, IsDeferred, IsFresh;
    if Promised(b.w, d) {
      EnvironmentKeepsPromise(b.w, Accept(e), d);
      HistoryIsNotPromise(b.w, Accept(e), d);
      EnvironmentKeepsPromise(b1.w, l, d);
      HistoryIsNotPromise(b1.w, l, d);
    }
    hide Promised, BootInv, Happens;
    TwoSteps(b, Outside(Accept(e)), Outside(l));
  }

  lemma TwoSteps(b: Boot, l: BootLabel, m: BootLabel)
    requires CanHappen(b, l) && CanHappen(Happens(b, l), m)
    ensures Possible(b, [l, m]) && Boots(b, [l, m]) == Happens(Happens(b, l), m)
  {
    OneStep(Happens(b, l), m);
    OneStep(b, l);
    Joined(b, [l], [m]);
    assert [l] + [m] == [l, m];
  }

  /** It does happen: of two events that arrive during setup and are both notified
      while fresh, the older one is deferred by the recovery with its credit unused. */
  lemma StartupLosesACredit(b: Boot, e: CloudEvent, f: CloudEvent) returns (run: seq<BootLabel>)
    requires BootInv(b) && b.stage.Setup? && CanArrive(b, e) && CanArrive(b, f)
    requires e.eventId != f.eventId && EventTime(e) < EventTime(f) && |b.w.queue.pending| + 2 <= MAX_PENDING_EVENTS
    ensures Possible(b, run)
    ensures var end := Boots(b, run);
      && end.stage.LoopRuns? && e.eventId in end.w.flags.credit
      && Held(end.w.queue, e) && !Selectable(end.w.flags, end.w.queue, end.w.now, e)
  {
    hide QueueInv, NewestEligible, Boots, Possible, Live;
    var b2 := NotifiedArrival(b, e, e);
    var b4 := NotifiedArrival(b2, f, e);
    var first := [Outside(Accept(e)), Outside(Notify(e.eventId))];
    var second := [Outside(Accept(f)), Outside(Notify(f.eventId))];
    assert Candidate(b4.w.queue, b4.w.now) != Some(e) by {
      NewestEligibleFacts(b4.w.queue, b4.w.now, b4.w.queue.pending);
      NotDeferredIfPromised(b4.w, f);
      assert IsEligible(b4.w.queue, b4.w.now, f);
    }
    assert e.eventId in b4.w.flags.credit;
    hide Candidate, Promised, BootInv, CanArrive, IsEligible, IsFresh, Held;
    var recovery := UndisturbedPromiseIff(b4, e);
    CreditStays(b4, recovery, e.eventId);
    Joined(b2, second, recovery);
    Joined(b, first, second + recovery);
    run := first + (second + recovery);
    HeldIsNotSelectable(Boots(b, run).w, e);
  }

  lemma NotDeferredIfPromised(w: World, e: CloudEvent)
    requires Promised(w, e)
    ensures e in w.queue.pending && !IsDeferred(w.queue, e.eventId)
  {
  }

  lemma HeldIsNotSelectable(w: World, e: CloudEvent)
    requires Held(w.queue, e)
    ensures !Selectable(w.flags, w.queue, w.now, e)
  {
  }

  lemma {:induction false} CreditStays(b: Boot, run: seq<BootLabel>, id: string)
    requires Possible(b, run) && (forall i :: 0 <= i < |run| ==> !run[i].Outside?) && id in b.w.flags.credit
    ensures id in Boots(b, run).w.flags.credit
    decreases |run|
  {
    hide RetireOne, BenchOne, Candidate, EarnsCredit;
    if run != [] {
      CreditStays(Happens(b, run[0]), run[1..], id);
    }
  }

  // ---- whole runs ----

  /** No more can be selected than the wake-ups so far, and the candidate. */
  ghost predicate FewSelectable(b: Boot, wakes: nat) {
    && BootInv(b) && ParkedClean(b.w) && b.w.attempts == 0
    && |SelectableIds(b.w)| <= wakes + if b.stage.LoopRuns? then 1 else 0
  }

  lemma StartupOnlyDefers(q: Queue, start: Queue, x: CloudEvent, clock: int, e: CloudEvent)
    requires QueueInv(q) && e in q.pending
    ensures !IsDeferred(RetireOne(q, x, clock), e.eventId) ==> !IsDeferred(q, e.eventId)
    ensures !IsDeferred(BenchOne(q, start, x, clock), e.eventId) ==> !IsDeferred(q, e.eventId)
  {
    if IsDeferred(q, e.eventId) {
      StartupKeepsHeld(q, start, x, clock, e);
    }
  }

  lemma DeferringShrinks(w: World, start: Queue, x: CloudEvent, clock: int, q: Queue)
    requires WorldInv(w) && (q == RetireOne(w.queue, x, clock) || q == BenchOne(w.queue, start, x, clock))
    ensures SelectableIds(w.(queue := q)) <= SelectableIds(w)
    ensures ParkedClean(w) ==> ParkedClean(w.(queue := q))
  {
    hide RetireOne, BenchOne, IsDeferred, QueueInv, IsFresh;
    StartupDefersOrNot(w.queue, start, x, clock);
    forall e | e in w.queue.pending
      ensures !IsDeferred(q, e.eventId) ==> !IsDeferred(w.queue, e.eventId)
    {
      StartupOnlyDefers(w.queue, start, x, clock, e);
    }
  }

  lemma NotifyingWakesOne(w: World, id: string)
    ensures |SelectableIds(NotifyNow(w, id))| <= |SelectableIds(w)| + 1
  {
    hide IsDeferred, IsFresh, EarnsCredit;
    assert SelectableIds(NotifyNow(w, id)) - {id} <= SelectableIds(w);
    SubsetCount(SelectableIds(NotifyNow(w, id)) - {id}, SelectableIds(w));
    BacklogOfRest(SelectableIds(NotifyNow(w, id)), id);
  }

  lemma StaysFew(b: Boot, l: BootLabel, wakes: nat)
    requires FewSelectable(b, wakes) && CanHappen(b, l)
    ensures FewSelectable(Happens(b, l), wakes + if l.Outside? then Wakes(l.l) else 0)
  {
    HappensKeepsInv(b, l);
    var w := b.w;
    hide QueueInv, Selectable, RetireOne, BenchOne, Candidate, EarnsCredit, Environment, Enabled;
    match l
    case Outside(outer) =>
      EnvironmentKeepsParkedClean(w, outer);
      EnvironmentBacklog(w, outer);
      SamePc(w, outer);
    case Retire =>
      DeferringShrinks(w, w.queue, b.stage.rest[0], b.stage.clock, RetireOne(w.queue, b.stage.rest[0], b.stage.clock));
      SubsetCount(SelectableIds(Happens(b, l).w), SelectableIds(w));
    case Bench =>
      DeferringShrinks(w, b.stage.start, b.stage.rest[0], b.stage.clock,
                       BenchOne(w.queue, b.stage.start, b.stage.rest[0], b.stage.clock));
      SubsetCount(SelectableIds(Happens(b, l).w), SelectableIds(w));
    case Activate =>
      if Candidate(b.stage.start, b.stage.clock).Some? {
        NotifyingWakesOne(w, Candidate(b.stage.start, b.stage.clock).value.eventId);
      }
    case _ =>
  }

  lemma {:induction false} StartupStaysFew(b: Boot, run: seq<BootLabel>, wakes: nat)
    requires FewSelectable(b, wakes) && Possible(b, run)
    ensures FewSelectable(Boots(b, run), wakes + BootWakes(run))
    decreases |run|
  {
    hide FewSelectable, CanHappen, Happens, Wakes;
    if run != [] {
      StaysFew(b, run[0], wakes);
      StartupStaysFew(Happens(b, run[0]), run[1..], wakes + if run[0].Outside? then Wakes(run[0].l) else 0);
    }
  }

  // ---- automatic startups ----

  ghost predicate AutomaticBoot(run: seq<BootLabel>, named: string -> CloudEvent) {
    forall i :: 0 <= i < |run| && run[i].Outside? ==> Automatic(run[i].l, named)
  }

  lemma StaysVouched(b: Boot, l: BootLabel, named: string -> CloudEvent)
    requires BootInv(b) && CanHappen(b, l) && Vouched(b.w, named) && (l.Outside? ==> Automatic(l.l, named))
    ensures Vouched(Happens(b, l).w, named)
  {
    var w := b.w;
    match l
    case Outside(outer) =>
      EnvironmentKeepsVouched(w, outer, named);
      NovelIsHistory(w, outer, named);
    case Retire => StartupDefersOrNot(w.queue, w.queue, b.stage.rest[0], b.stage.clock);
    case Bench => StartupDefersOrNot(w.queue, b.stage.start, b.stage.rest[0], b.stage.clock);
    case Activate =>
      if Candidate(b.stage.start, b.stage.clock).Some? {
        NotifyKeepsVouched(w, Candidate(b.stage.start, b.stage.clock).value.eventId, named);
      }
    case _ =>
    hide QueueInv, RetireOne, BenchOne, Candidate, Next, FreshWhenNotified, NotifiedBy, EarnsCredit;
  }

  lemma {:induction false} StartupStaysVouched(b: Boot, run: seq<BootLabel>, named: string -> CloudEvent)
    requires BootInv(b) && Possible(b, run) && Vouched(b.w, named) && AutomaticBoot(run, named)
    ensures Vouched(Boots(b, run).w, named)
    decreases |run|
  {
    hide BootInv, CanHappen, Happens, Vouched, Automatic;
    if run != [] {
      HappensKeepsInv(b, run[0]);
      StaysVouched(b, run[0], named);
      StartupStaysVouched(Happens(b, run[0]), run[1..], named);
    }
  }

  /** No manual recovery in the session; `named` is the event an id stands for. */
  ghost predicate Unaided(q: Queue, boot: seq<BootLabel>, run: seq<Label>, named: string -> CloudEvent) {
    && AutomaticBoot(boot, named) && AutomaticRun(run, named)
    && forall e :: e in q.pending ==> named(e.eventId) == e
  }

  lemma CreatedFacts(q: Queue, now: int)
    requires QueueInv(q)
    ensures FewSelectable(Created(q, now), 0)
  {
    assert SelectableIds(Created(q, now).w) == {};
  }

  /** The loop starts from a world that the bounds and safety theorems apply to. */
  lemma LoopStarts(q: Queue, now: int, boot: seq<BootLabel>)
    requires QueueInv(q) && Possible(Created(q, now), boot) && Boots(Created(q, now), boot).stage.LoopRuns?
    ensures var w := Boots(Created(q, now), boot).w;
      && ProgressInv(w) && w.pc.Parked? && ParkedClean(w) && w.attempts == 0
      && |SelectableIds(w)| <= BootWakes(boot) + 1
  {
    CreatedFacts(q, now);
    hide Created, Boots, Possible, SelectableIds, QueueInv, ParkedClean;
    StartupStaysFew(Created(q, now), boot, 0);
  }

  lemma CreatedIsVouched(q: Queue, now: int, named: string -> CloudEvent)
    requires QueueInv(q) && forall e :: e in q.pending ==> named(e.eventId) == e
    ensures BootInv(Created(q, now)) && Vouched(Created(q, now).w, named)
  {
  }

  /** Every session from the creation of the worker on, over every saved queue and
      whatever comes at the awaits of setup and recovery: the number of attempts is
      bounded by the wake-ups and the one recovered event; the worker never parks on
      selectable work; and without manual recovery every event that is attempted was
      fresh when it was notified. */
  lemma RunsFromStartup(q: Queue, now: int, boot: seq<BootLabel>, run: seq<Label>, named: string -> CloudEvent)
    requires QueueInv(q) && Possible(Created(q, now), boot) && Boots(Created(q, now), boot).stage.LoopRuns?
    requires Feasible(Boots(Created(q, now), boot).w, run)
    ensures var end := After(Boots(Created(q, now), boot).w, run);
      && end.attempts <= 3 + 3 * BootWakes(boot) + 6 * WakesIn(run)
      && ParkedClean(end)
      && (Unaided(q, boot, run, named) && Enabled(end, Start) ==> FreshWhenNotified(end.log, end.pc.event))
  {
    hide QueueInv, Feasible, After, Boots, Possible, Vouched, FreshWhenNotified, AutomaticRun, AutomaticBoot,
      SelectableIds, WakesIn, BootWakes, Created, ParkedClean, BootInv, Enabled;
    LoopStarts(q, now, boot);
    var w := Boots(Created(q, now), boot).w;
    AttemptsFromParked(w, run);
    ParkingLeavesNothing(w, run);
    if Unaided(q, boot, run, named) && Enabled(After(w, run), Start) {
      CreatedIsVouched(q, now, named);
      StartupStaysVouched(Created(q, now), boot, named);
      AutomaticWakesWereFresh(w, run, named);
    }
  }
}
