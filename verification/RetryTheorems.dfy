/** The lower half of the retry policy: what a selected event is given before the
    worker gives it up. */
module RetryTheorems {
  import opened Basics
  import opened Events
  import opened QueueTheorems
  import opened RecordingWorker
  import opened WorkerMachine
  import opened WorkerSafety
  import opened WorkerProgress

  /** The newest selectable event is another one than the event at hand, and newer. */
  ghost predicate NewerSelectable(w: World)
    requires HasEvent(w.pc)
  {
    exists i: nat ::
      && FirstNewest(w.queue.pending, SelectableEvents(w.flags, w.queue, w.now), i)
      && w.queue.pending[i].eventId != w.pc.event.eventId
      && EventTime(w.queue.pending[i]) > EventTime(w.pc.event)
  }

  lemma NewerIff(w: World)
    requires HasEvent(w.pc)
    ensures Newer(w.flags, w.queue, w.now, w.pc.event).Some? <==> NewerSelectable(w)
  {
    hide Selectable, EventTime;
    NextOfIsNewest(w.flags, w.queue, w.now, w.queue.pending);
  }

  /** Every selectable event that is newer will do, as long as the pending event with
      the id at hand is the one at hand. */
  lemma NewerPreempts(w: World, x: CloudEvent)
    requires HasEvent(w.pc) && x in w.queue.pending && Selectable(w.flags, w.queue, w.now, x)
    requires EventTime(x) > EventTime(w.pc.event)
    requires forall y :: y in w.queue.pending && y.eventId == w.pc.event.eventId ==> y == w.pc.event
    ensures NewerSelectable(w)
  {
    hide Selectable, EventTime;
    NextOfIsNewest(w.flags, w.queue, w.now, w.queue.pending);
  }

  /** The step finds a newer event to yield to. */
  ghost predicate Yields(w: World, l: Label)
    requires HasEvent(w.pc)
  {
    (l.CheckNewer? || l.Triggered?) && NewerSelectable(w)
  }

  /** The event is an old manual recovery, and its session found no recording. */
  predicate OldMiss(w: World, stage: Stage)
    requires HasEvent(w.pc)
  {
    && w.pc.event.eventId in w.flags.manual && stage == MatchError
    && w.now - EventTime(w.pc.event) > AUTOMATIC_RECORDING_EVENT_MAX_AGE
  }

  lemma OldMissIff(w: World, stage: Stage)
    requires HasEvent(w.pc)
    ensures TerminalMatch(w.flags, w.pc.event, w.now, stage) <==> OldMiss(w, stage)
  {
  }

  predicate Completes(l: Label) {
    l.Duplicate? || l.Save?
  }

  /** The failure is the third, or that of an old recovery without a recording. */
  predicate GivesUp(w: World, l: Label)
    requires HasEvent(w.pc) && Enabled(w, l)
  {
    l.Fail? && (w.pc.attempt == MAX_ATTEMPTS_PER_TRIGGER - 1 || OldMiss(w, l.stage))
  }

  /** A selection ends if and only if its event is completed or given up, or the wait
      before a retry finds a newer event: in particular a newer selectable event does
      preempt, and no first or second failure that may still come right ends it. */
  lemma SelectionEndsIff(w: World, l: Label)
    requires WorldInv(w) && HasEvent(w.pc) && Enabled(w, l)
    ensures !HasEvent(Next(w, l).pc) <==> Completes(l) || GivesUp(w, l) || Yields(w, l)
  {
    if IsEnvironment(l) {
      SamePc(w, l);
      hide Environment, Enabled, WorldInv;
    } else if l.CheckNewer? || l.Triggered? {
      TriggerIsNotRead(w);
      NewerIff(w);
      hide WorldInv, Newer, NewerSelectable;
    } else {
      StepEndsIff(w, l);
    }
  }

  lemma StepEndsIff(w: World, l: Label)
    requires WorldInv(w) && HasEvent(w.pc) && Enabled(w, l) && !IsEnvironment(l) && !l.CheckNewer? && !l.Triggered?
    ensures !HasEvent(WorkerStep(w, l).pc) <==> Completes(l) || GivesUp(w, l)
  {
    if l.Fail? {
      OldMissIff(w, l.stage);
    }
    hide QueueInv, Defer, Remove, Remember, TerminalMatch, OldMiss, Newer, NextEvent, Fingerprints, YieldOrBlock;
  }

  /** How many sessions the current selection has opened. */
  function Made(pc: Pc): nat
    requires HasEvent(pc)
  {
    match pc
    case Settling(_) => 0
    case Ready(_, k) => k
    case InSession(_, k) => k + 1
    case Gated(_, k, _) => k + 1
    case Waiting(_, k) => k
    case Blocked(_, k) => k
  }

  lemma SessionsAreCounted(w: World, l: Label)
    requires HasEvent(w.pc) && Enabled(w, l) && HasEvent(Next(w, l).pc)
    ensures Next(w, l).pc.event == w.pc.event
    ensures Next(w, l).attempts - w.attempts == Made(Next(w, l).pc) - Made(w.pc)
  {
    if IsEnvironment(l) {
      SamePc(w, l);
    } else {
      SelectLeaves(w, l);
    }
    hide Environment, Defer, Remove, Remember, TerminalMatch, Newer, Fingerprints;
  }

  /** Over every run that works on one selection, whatever else happens: the number of
      sessions is the number the program counter shows. */
  lemma {:induction false} SelectionIsCounted(w: World, run: seq<Label>)
    requires Feasible(w, run) && SameSelection(w, run)
    ensures HasEvent(After(w, run).pc) && After(w, run).pc.event == w.pc.event
    ensures After(w, run).attempts - w.attempts == Made(After(w, run).pc) - Made(w.pc)
    decreases |run|
  {
    hide Enabled, Next, Made;
    if run != [] {
      assert HasEvent(Next(w, run[0]).pc);
      SessionsAreCounted(w, run[0]);
      SelectionIsCounted(Next(w, run[0]), run[1..]);
    }
  }

  /** No event is given up early: over every run, a selection that has just started
      and ends with its event given up has opened three sessions for it, unless the
      last failure was that of an old recovery without a recording. */
  lemma GivenUpAfterThree(w: World, run: seq<Label>, l: Label)
    requires WorldInv(w) && w.pc.Settling? && Feasible(w, run) && SameSelection(w, run)
    requires Enabled(After(w, run), l) && HasEvent(After(w, run).pc) && !HasEvent(Next(After(w, run), l).pc)
    requires !Completes(l) && !Yields(After(w, run), l)
    ensures var last := After(w, run);
      && l.Fail? && (last.attempts == w.attempts + 3 || OldMiss(last, l.stage))
  {
    hide WorldInv, Next, OldMiss, Newer, SameSelection, Feasible, After;
    WorkerMachine.RunKeepsInv(w, run);
    SelectionIsCounted(w, run);
    SelectionEndsIff(After(w, run), l);
  }

  // ---- a camera that never answers ----

  /** Only the worker moves, every session fails, and no failure is that of an old
      recovery without a recording. */
  ghost predicate OnlyFails(w: World, run: seq<Label>)
    requires Feasible(w, run)
    decreases |run|
  {
    run != [] ==>
      && HasEvent(w.pc) && !IsEnvironment(run[0]) && !Completes(run[0])
      && (run[0].Fail? ==> !OldMiss(w, run[0].stage))
      && OnlyFails(Next(w, run[0]), run[1..])
  }

  ghost predicate NothingNewer(w: World, e: CloudEvent) {
    forall x :: x in w.queue.pending && Selectable(w.flags, w.queue, w.now, x) ==> EventTime(x) <= EventTime(e)
  }

  /** The world while the event is retried: the queue is as it was when it was
      selected, and nothing is newer. */
  ghost predicate Retrying(start: World, w: World) {
    && WorldInv(w) && HasEvent(w.pc) && start.pc.Settling? && w.pc.event == start.pc.event
    && w.queue == start.queue && w.now == start.now && w.attempts == start.attempts + Made(w.pc)
    && NothingNewer(w, w.pc.event)
  }

  /** The world after the third failure. */
  ghost predicate Exhausted(start: World, w: World) {
    && start.pc.Settling? && w.pc == Ending(start.pc.event.eventId)
    && w.attempts == start.attempts + 3
    && w.queue == Defer(start.queue, start.pc.event.eventId, "automatic_retries_exhausted", start.now).0
  }

  lemma NothingNewerIsNone(w: World)
    requires HasEvent(w.pc) && NothingNewer(w, w.pc.event)
    ensures Newer(w.flags, w.queue, w.now, w.pc.event).None?
  {
    hide Selectable;
    NextOfIsNewest(w.flags, w.queue, w.now, w.queue.pending);
  }

  lemma StillNothingNewer(w: World, l: Label, e: CloudEvent)
    requires WorldInv(w) && !IsEnvironment(l) && Enabled(w, l) && NothingNewer(w, e)
    ensures NothingNewer(WorkerStep(w, l), e)
  {
    hide WorldInv, Selectable, WorkerStep, Enabled;
    var w' := WorkerStep(w, l);
    forall x | x in w'.queue.pending && Selectable(w'.flags, w'.queue, w'.now, x)
      ensures EventTime(x) <= EventTime(e)
    {
      WorkerOnlyShrinks(w, l, x);
    }
  }

  lemma QueueIsLeft(w: World, l: Label)
    requires WorldInv(w) && HasEvent(w.pc) && !IsEnvironment(l) && Enabled(w, l) && !Completes(l)
    requires l.Fail? ==> !OldMiss(w, l.stage)
    ensures WorkerStep(w, l).now == w.now
    ensures HasEvent(WorkerStep(w, l).pc) ==> WorkerStep(w, l).queue == w.queue
    ensures l.Fail? && w.pc.attempt == 2 ==>
              && WorkerStep(w, l).pc == Ending(w.pc.event.eventId)
              && WorkerStep(w, l).queue == Defer(w.queue, w.pc.event.eventId, "automatic_retries_exhausted", w.now).0
    ensures l.Fail? && w.pc.attempt < 2 ==> WorkerStep(w, l) == w.(pc := Waiting(w.pc.event, w.pc.attempt + 1))
  {
    if l.Fail? {
      OldMissIff(w, l.stage);
    }
    hide QueueInv, Defer, Remove, Remember, TerminalMatch, OldMiss, Newer, Fingerprints;
  }

  lemma FailingStep(start: World, w: World, l: Label)
    requires Retrying(start, w) && !IsEnvironment(l) && Enabled(w, l) && !Completes(l)
    requires l.Fail? ==> !OldMiss(w, l.stage)
    ensures Retrying(start, Next(w, l)) || Exhausted(start, Next(w, l))
    ensures Exhausted(start, Next(w, l)) ==> l.Fail?
  {
    NextKeepsInv(w, l);
    SelectionEndsIff(w, l);
    NothingNewerIsNone(w);
    StillNothingNewer(w, l, w.pc.event);
    QueueIsLeft(w, l);
    hide WorldInv, WorkerStep, OldMiss, Newer, Defer, NothingNewer;
    if HasEvent(Next(w, l).pc) {
      SessionsAreCounted(w, l);
    }
  }

  /** A camera that never answers: over every run in which just the worker moves and
      every session fails, with nothing newer selectable, the event is retried with
      the queue left alone, until after the third session, and no earlier, it is
      deferred as exhausted. */
  lemma {:induction false} FailuresAreRetried(start: World, w: World, run: seq<Label>)
    requires Retrying(start, w) && Feasible(w, run) && OnlyFails(w, run)
    ensures Retrying(start, After(w, run)) || Exhausted(start, After(w, run))
    decreases |run|
  {
    hide Retrying, Exhausted, Enabled, Next, OldMiss;
    if run != [] {
      FailingStep(start, w, run[0]);
      if run[1..] == [] {
        assert After(w, run) == Next(w, run[0]);
      } else {
        OnlyGoesOn(start, Next(w, run[0]), run[1..]);
        FailuresAreRetried(start, Next(w, run[0]), run[1..]);
      }
    }
  }

  lemma OnlyGoesOn(start: World, w: World, run: seq<Label>)
    requires (Retrying(start, w) || Exhausted(start, w)) && Feasible(w, run) && OnlyFails(w, run) && run != []
    ensures Retrying(start, w)
  {
    hide WorldInv, Defer;
  }

  /** The step that brings the next failure nearer. */
  function NextTry(w: World, stage: Stage): (l: Label)
    requires HasEvent(w.pc)
    ensures Enabled(w, l) && !IsEnvironment(l) && !Completes(l) && (l.Fail? ==> l.stage == stage)
  {
    match w.pc
    case Settling(_) => Settle
    case Ready(_, _) => Start
    case InSession(_, _) => Fail(stage)
    case Gated(_, _, _) => Fail(stage)
    case Waiting(_, _) => CheckNewer
    case Blocked(_, _) => TimerEnds
  }

  /** And it gets there: after any such run that has not come to its end, the worker
      alone can go on to the third failure, whatever the failures are; after a first or
      second one it opens another session. */
  lemma {:induction false} AllThreeAreTried(start: World, w: World) returns (run: seq<Label>)
    requires Retrying(start, w)
    ensures Feasible(w, run) && OnlyFails(w, run) && Exhausted(start, After(w, run))
    decreases Fuel(w)
  {
    hide QueueInv, Fuel, OldMiss, NothingNewer, Newer, Defer;
    var l := NextTry(w, OtherFailure);
    NotTerminal(w);
    FailingStep(start, w, l);
    var w' := Next(w, l);
    if Exhausted(start, w') {
      run := [l];
      assert [l][1..] == [];
      assert Feasible(w', []) && OnlyFails(w', []) && After(w', []) == w';
    } else {
      FuelShrinks(w, l);
      hide Retrying, Exhausted, Enabled, Next, NextTry;
      var rest := AllThreeAreTried(start, w');
      run := [l] + rest;
      assert run[1..] == rest;
    }
  }

  lemma NotTerminal(w: World)
    requires HasEvent(w.pc)
    ensures !OldMiss(w, OtherFailure)
  {
  }

  lemma FuelShrinks(w: World, l: Label)
    requires WorldInv(w) && HasEvent(w.pc) && NothingNewer(w, w.pc.event) && Enabled(w, l) && !IsEnvironment(l)
    requires WorldInv(Next(w, l))
    ensures Fuel(Next(w, l)) < Fuel(w)
  {
    FuelStep(w, l);
  }

  /** In terms of the event: it is pending and undeferred as long as it is retried, at
      most three sessions are opened, and it is deferred when and only when the third
      one has failed. */
  lemma UnansweredIsTriedThrice(w: World, run: seq<Label>)
    requires WorldInv(w) && w.pc.Settling? && Live(w.queue, w.pc.event) && NothingNewer(w, w.pc.event)
    requires Feasible(w, run) && OnlyFails(w, run)
    ensures var e, end := w.pc.event, After(w, run);
      if HasEvent(end.pc) then Live(end.queue, e) && end.attempts <= w.attempts + 3
      else Held(end.queue, e) && end.attempts == w.attempts + 3
  {
    var e := w.pc.event;
    FailuresAreRetried(w, w, run);
    PutDeferredIds(w.queue.deferred, DeferredEvent(e.eventId, "automatic_retries_exhausted", w.now));
    hide QueueInv, Feasible, OnlyFails, After, NothingNewer;
  }

  /** A first or second failure that may still come right leads to another session for
      the same event, with the queue as it was. */
  lemma FailureIsTriedAgain(w: World, stage: Stage)
    requires WorldInv(w) && (w.pc.InSession? || w.pc.Gated?) && w.pc.attempt < 2 && NothingNewer(w, w.pc.event)
    requires !OldMiss(w, stage)
    ensures var run := [Fail(stage)] + [CheckNewer, TimerEnds, Start];
      && Feasible(w, run)
      && var end := After(w, run);
         end.pc == InSession(w.pc.event, w.pc.attempt + 1) && end.queue == w.queue && end.attempts == w.attempts + 1
  {
    QueueIsLeft(w, Fail(stage));
    var w1 := Next(w, Fail(stage));
    assert w1 == w.(pc := Waiting(w.pc.event, w.pc.attempt + 1));
    WaitLeadsToSession(w1);
    hide WorldInv, WorkerStep, NothingNewer, OldMiss;
    FirstThen(w, Fail(stage), [CheckNewer, TimerEnds, Start]);
  }

  lemma WaitLeadsToSession(w: World)
    requires w.pc.Waiting? && NothingNewer(w, w.pc.event)
    ensures Feasible(w, [CheckNewer, TimerEnds, Start])
    ensures var end := After(w, [CheckNewer, TimerEnds, Start]);
      end.pc == InSession(w.pc.event, w.pc.attempt) && end.queue == w.queue && end.attempts == w.attempts + 1
  {
    NothingNewerIsNone(w);
    hide Newer, NothingNewer;
    var w1 := Next(w, CheckNewer);
    assert w1 == w.(pc := Blocked(w.pc.event, w.pc.attempt));
    var w2 := Next(w1, TimerEnds);
    assert w2 == w.(pc := Ready(w.pc.event, w.pc.attempt));
    var w3 := Next(w2, Start);
    assert w3.pc == InSession(w.pc.event, w.pc.attempt) && w3.queue == w.queue && w3.attempts == w.attempts + 1;
    hide Next;
    ThreeSteps(w, CheckNewer, TimerEnds, Start);
  }
}
