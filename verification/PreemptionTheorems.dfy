/** What becomes of an activated event while it is fresh, and of one that yields to a
    newer event in its wait for a retry. */
module PreemptionTheorems {
  import opened Basics
  import opened Events
  import opened QueueTheorems
  import opened RecordingWorker
  import opened WorkerMachine
  import opened WorkerSafety
  import opened RecoveryTheorems
  import WorkerProgress
  import opened RetryTheorems

  /** A sweep under way began in the past, and finds `e` as it is. */
  ghost predicate SweepKnows(w: World, e: CloudEvent) {
    w.pc.Sweeping? || w.pc.Discarding? ==>
      w.pc.clock <= w.now && forall x :: x in w.pc.rest && x.eventId == e.eventId ==> x == e
  }

  /** `e` is activated, and nothing under way will defer it or take its mark. */
  ghost predicate Awake(w: World, e: CloudEvent) {
    && e.source == AndroidNotification && e.eventId in w.flags.activated
    && Undisturbed(w, e) && SweepKnows(w, e)
  }

  lemma OutsideKeepsAwake(w: World, l: Label, e: CloudEvent)
    requires WorldInv(w) && IsEnvironment(l) && Enabled(w, l) && Awake(w, e)
    requires e in Environment(w, l).queue.pending
    ensures Awake(Environment(w, l), e)
  {
    OutsideKeepsLive(w, l, e);
    hide Enqueue, Defer, Rearm, DiscardDeferred, Discarded, ClearRequest, EarnsCredit, IsDeferred, Live, QueueInv;
    match l
    case Accept(other) =>
      LiveIsPending(w.queue, e);
      NotAcceptedAgain(w.queue, e, other);
    case ClearQueue => ClearKeepsLive(w.queue, e, ClearRequest(w.queue));
    case _ =>
  }

  lemma NewSweepKnows(w: World, e: CloudEvent)
    requires QueueInv(w.queue) && e in w.queue.pending
    ensures SweepKnows(StartSweep(w), e)
  {
  }

  lemma WorkerKeepsAwake(w: World, l: Label, e: CloudEvent)
    requires WorldInv(w) && !IsEnvironment(l) && Enabled(w, l) && Awake(w, e) && !StartsAttempt(w, l, e.eventId)
    requires IsFresh(e, w.now)
    ensures Undisturbed(WorkerStep(w, l), e) && e.eventId in WorkerStep(w, l).flags.activated
  {
    hide Defer, Newer, NextEvent, IsDeferred, TerminalMatch, KeepEvents, KeepDeferred, Fingerprints, QueueInv;
    match l
    case Sweep =>
      assert w.pc.rest[0] in w.pc.rest;
      if w.pc.rest[0].eventId != e.eventId {
        DeferOtherKeepsLive(w.queue, e, w.pc.rest[0].eventId, "automatic_event_stale", w.now);
      }
    case Fail(_) =>
      DeferOtherKeepsLive(w.queue, e, w.pc.event.eventId, "manual_stale_recording_match_miss", w.now);
      DeferOtherKeepsLive(w.queue, e, w.pc.event.eventId, "automatic_retries_exhausted", w.now);
    case Duplicate => CompletionKeepsLive(w.queue, e, w.pc.event.eventId, None);
    case Save(r) => CompletionKeepsLive(w.queue, e, w.pc.event.eventId, Some(r));
    case _ =>
  }

  lemma SweepStillKnows(w: World, l: Label, e: CloudEvent)
    requires WorldInv(w) && !IsEnvironment(l) && Enabled(w, l) && e in w.queue.pending && SweepKnows(w, e)
    ensures SweepKnows(WorkerStep(w, l), e)
  {
    NewSweepKnows(w, e);
    hide Defer, Newer, NextEvent, TerminalMatch, Remove, Remember, MustDefer, Fingerprints, Forgotten, QueueInv;
  }

  /** An activated event stays selectable as long as it is fresh, whatever else
      happens, until an attempt of it starts or it leaves the queue. */
  lemma {:induction false} FreshStaysSelectable(w: World, run: seq<Label>, e: CloudEvent)
    requires WorldInv(w) && Awake(w, e) && Feasible(w, run) && Unattempted(w, run, e)
    requires After(w, run).now - EventTime(e) <= AUTOMATIC_RECORDING_EVENT_MAX_AGE
    ensures Awake(After(w, run), e)
    ensures Selectable(After(w, run).flags, After(w, run).queue, After(w, run).now, e)
    decreases |run|
  {
    hide Enabled;
    if run != [] {
      var l := run[0];
      NextKeepsInv(w, l);
      TimeGoesOn(Next(w, l), run[1..]);
      assert e in Next(w, l).queue.pending;
      if IsEnvironment(l) {
        OutsideKeepsAwake(w, l, e);
      } else {
        TimeStands(w, l);
        WorkerKeepsAwake(w, l, e);
        SweepStillKnows(w, l, e);
      }
      hide Environment, WorkerStep, WorldInv;
      FreshStaysSelectable(Next(w, l), run[1..], e);
    }
  }

  lemma TimeStands(w: World, l: Label)
    requires Enabled(w, l)
    ensures Next(w, l).now >= w.now && (!IsEnvironment(l) ==> Next(w, l).now == w.now)
  {
    hide Enqueue, Defer, Rearm, DiscardDeferred, Discarded, ClearRequest, EarnsCredit, Newer, NextEvent, TerminalMatch,
      Remove, Remember, MustDefer, Fingerprints;
  }

  lemma {:induction false} TimeGoesOn(w: World, run: seq<Label>)
    requires Feasible(w, run)
    ensures w.now <= After(w, run).now
    decreases |run|
  {
    hide Enabled, Next;
    if run != [] {
      TimeStands(w, run[0]);
      TimeGoesOn(Next(w, run[0]), run[1..]);
    }
  }

  /** An event that yields to a newer one is not lost: its retries are over for now,
      but while it is fresh it stays selectable until it is attempted again. */
  lemma YieldedComesBack(w: World, l: Label, run: seq<Label>)
    requires WorldInv(w) && (w.pc.Waiting? || w.pc.Blocked?) && Enabled(w, l) && Yields(w, l)
    requires var e := w.pc.event;
      && e.source == AndroidNotification && Live(w.queue, e) && e.eventId in w.flags.activated
      && e.eventId !in w.clearing && e.eventId !in w.ingesting
    requires Feasible(Next(w, l), run) && Unattempted(Next(w, l), run, w.pc.event)
    requires After(Next(w, l), run).now - EventTime(w.pc.event) <= AUTOMATIC_RECORDING_EVENT_MAX_AGE
    ensures var end := After(Next(w, l), run); Selectable(end.flags, end.queue, end.now, w.pc.event)
  {
    NewerIff(w);
    WorkerProgress.TriggerIsNotRead(w);
    NextKeepsInv(w, l);
    NewSweepKnows(w, w.pc.event);
    hide WorldInv, Newer, NewerSelectable, Selectable, Feasible, Unattempted, After, Live;
    assert Awake(Next(w, l), w.pc.event);
    FreshStaysSelectable(Next(w, l), run, w.pc.event);
  }
}
