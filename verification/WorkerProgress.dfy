/** How much work the worker can be made to do.

    Two potentials bound it over every run: `Budget` pays for session attempts and
    `Fuel` for worker steps. Only a wake-up (an accepted, notified, rearmed or
    recovered id) adds to either, so finitely many wake-ups mean finitely many
    attempts and steps, and then the worker parks. */
module WorkerProgress {
  import opened Basics
  import opened Events
  import opened QueueTheorems
  import opened RecordingWorker
  import opened WorkerMachine
  import opened WorkerSafety

  ghost function SelectableIds(w: World): set<string> {
    set e | e in w.queue.pending && Selectable(w.flags, w.queue, w.now, e) :: e.eventId
  }

  /** The selectable ids other than the one being worked on. */
  ghost function Backlog(w: World): set<string> {
    if HasEvent(w.pc) then SelectableIds(w) - {w.pc.event.eventId} else SelectableIds(w)
  }

  /** Attempts that the current selection may still make. */
  function Remaining(pc: Pc): nat
    requires AttemptsInRange(pc)
  {
    match pc
    case Settling(_) => 3
    case Ready(_, k) => 3 - k
    case InSession(_, k) => 2 - k
    case Gated(_, k, _) => 2 - k
    case Waiting(_, k) => 3 - k
    case Blocked(_, k) => 3 - k
    case _ => 0
  }

  /** Three attempts for everything selectable; three more for each wake-up during
      the current selection, which may preempt it; and what it has left. */
  ghost function Budget(w: World): nat
    requires AttemptsInRange(w.pc)
  {
    3 * |Backlog(w)| + (if HasEvent(w.pc) then 3 * w.novel else 0) + Remaining(w.pc)
  }

  function Rank(pc: Pc): nat
    requires AttemptsInRange(pc)
  {
    match pc
    case Parked => 0
    case Sweeping(_, rest) => 2 * |rest| + 1
    case Discarding(_, _, rest) => 2 * |rest| + 2
    case Ending(_) => 202
    case Settling(_) => 219
    case Ready(_, k) => 218 - 5 * k
    case InSession(_, k) => 217 - 5 * k
    case Gated(_, k, _) => 216 - 5 * k
    case Waiting(_, k) => 220 - 5 * k
    case Blocked(_, k) => 219 - 5 * k
  }

  ghost function Fuel(w: World): nat
    requires AttemptsInRange(w.pc)
  {
    300 * |Backlog(w)| + (if HasEvent(w.pc) then 300 * w.novel else 0)
    + Rank(w.pc) + (if w.flags.trigger then 250 else 0)
  }

  /** Without a wake-up since the selection, nothing selectable is newer than the
      selected event. */
  ghost predicate SelectionIsNewest(w: World) {
    HasEvent(w.pc) && w.novel == 0 ==>
      forall e :: e in w.queue.pending && Selectable(w.flags, w.queue, w.now, e) ==>
        EventTime(e) <= EventTime(w.pc.event)
  }

  ghost predicate ProgressInv(w: World) {
    WorldInv(w) && SelectionIsNewest(w)
  }

  // ---- only wake-ups make ids selectable ----

  lemma UnionCount(a: set<string>, b: set<string>)
    ensures |a + b| <= |a| + |b|
  {
    assert |a + b| == |a| + |b - a| by {
      assert a + b == a + (b - a);
    }
    SubsetCount(b - a, b);
  }

  lemma WokenCount(l: Label)
    ensures |WokenIds(l)| == Wakes(l)
  {
  }

  lemma EnvironmentBacklog(w: World, l: Label)
    requires WorldInv(w) && IsEnvironment(l) && Enabled(w, l)
    ensures |Backlog(Next(w, l))| <= |Backlog(w)| + Wakes(l)
  {
    hide WorldInv, Selectable, Environment, Enabled, Wakes, WokenIds;
    var w' := Next(w, l);
    SamePc(w, l);
    forall id | id in Backlog(w')
      ensures id in Backlog(w) + WokenIds(l)
    {
      var x :| x in w'.queue.pending && Selectable(w'.flags, w'.queue, w'.now, x) && x.eventId == id;
      NewlySelectable(w, l, x);
    }
    SubsetCount(Backlog(w'), Backlog(w) + WokenIds(l));
    UnionCount(Backlog(w), WokenIds(l));
    WokenCount(l);
  }

  lemma EnvironmentKeepsSelection(w: World, l: Label)
    requires ProgressInv(w) && IsEnvironment(l) && Enabled(w, l)
    ensures SelectionIsNewest(Next(w, l))
  {
    hide WorldInv, Selectable, Environment, Enabled;
    var w' := Next(w, l);
    SamePc(w, l);
    if HasEvent(w'.pc) && w'.novel == 0 {
      NoWakes(w, l);
      forall x | x in w'.queue.pending && Selectable(w'.flags, w'.queue, w'.now, x)
        ensures EventTime(x) <= EventTime(w'.pc.event)
      {
        NewlySelectable(w, l, x);
      }
    }
  }

  lemma NoWakes(w: World, l: Label)
    requires Wakes(l) == 0 && IsEnvironment(l) && Enabled(w, l)
    ensures WokenIds(l) == {}
  {
  }

  // ---- the worker only ever shrinks what is selectable ----

  lemma WorkerOnlyShrinks(w: World, l: Label, x: CloudEvent)
    requires WorldInv(w) && !IsEnvironment(l) && Enabled(w, l)
    requires var w' := WorkerStep(w, l); x in w'.queue.pending && Selectable(w'.flags, w'.queue, w'.now, x)
    ensures x in w.queue.pending && Selectable(w.flags, w.queue, w.now, x)
    ensures var w' := WorkerStep(w, l); w'.pc.Ending? && HasEvent(w.pc) ==> x.eventId != w.pc.event.eventId
  {
    hide DeferredIds, PendingIds, KeepEvents, KeepDeferred, MustDefer, TerminalMatch, Newer, NextEvent, IsFresh,
      QueueInv, Defer, Fingerprints;
    match l
    case Sweep => StillUndeferred(w.queue, w.pc.rest[0].eventId, "automatic_event_stale", w.now, x);
    case Fail(_) =>
      StillUndeferred(w.queue, w.pc.event.eventId, "manual_stale_recording_match_miss", w.now, x);
      StillUndeferred(w.queue, w.pc.event.eventId, "automatic_retries_exhausted", w.now, x);
    case Duplicate => DropOnly(w.queue, {w.pc.event.eventId}, x);
    case Save(_) => DropOnly(w.queue, {w.pc.event.eventId}, x);
    case _ =>
  }

  lemma StillUndeferred(q: Queue, id: string, reason: string, at: int, x: CloudEvent)
    requires QueueInv(q)
    ensures Defer(q, id, reason, at).0.pending == q.pending
    ensures x in q.pending && !IsDeferred(Defer(q, id, reason, at).0, x.eventId) ==>
              !IsDeferred(q, x.eventId) && x.eventId != id
  {
    if x in q.pending && !IsDeferred(Defer(q, id, reason, at).0, x.eventId) {
      DeferOnly(q, id, reason, at, x);
    }
  }

  lemma WorkerSelectable(w: World, l: Label)
    requires WorldInv(w) && !IsEnvironment(l) && Enabled(w, l)
    ensures SelectableIds(WorkerStep(w, l)) <= SelectableIds(w)
    ensures WorkerStep(w, l).pc.Ending? && HasEvent(w.pc) ==>
              SelectableIds(WorkerStep(w, l)) <= SelectableIds(w) - {w.pc.event.eventId}
  {
    hide WorldInv, Selectable, WorkerStep, Enabled;
    var w' := WorkerStep(w, l);
    forall id | id in SelectableIds(w')
      ensures id in SelectableIds(w) && (w'.pc.Ending? && HasEvent(w.pc) ==> id != w.pc.event.eventId)
    {
      var x :| x in w'.queue.pending && Selectable(w'.flags, w'.queue, w'.now, x) && x.eventId == id;
      WorkerOnlyShrinks(w, l, x);
    }
  }

  // ---- preemption needs a wake-up ----

  /** The event at hand is preempted only if some id was woken since it was selected. */
  lemma PreemptionNeedsAWake(w: World)
    requires SelectionIsNewest(w) && HasEvent(w.pc) && Newer(w.flags, w.queue, w.now, w.pc.event).Some?
    ensures w.novel > 0
  {
    hide Selectable;
    NextOfIsNewest(w.flags, w.queue, w.now, w.queue.pending);
  }

  lemma SelectionStarts(w: World)
    requires Enabled(w, Select)
    ensures SelectionIsNewest(WorkerStep(w, Select))
    ensures HasEvent(WorkerStep(w, Select).pc) ==> WorkerStep(w, Select).pc.event.eventId in SelectableIds(w)
  {
    hide Selectable;
    NextOfIsNewest(w.flags, w.queue, w.now, w.queue.pending);
  }

  lemma WorkerKeepsSelection(w: World, l: Label)
    requires ProgressInv(w) && !IsEnvironment(l) && Enabled(w, l)
    ensures SelectionIsNewest(WorkerStep(w, l))
  {
    if l.Select? {
      SelectionStarts(w);
    } else {
      var w' := WorkerStep(w, l);
      PcFollows(w, l);
      HistoryFollows(w, l);
      hide WorldInv, Selectable, WorkerStep, Enabled;
      if HasEvent(w'.pc) && w'.novel == 0 {
        forall x | x in w'.queue.pending && Selectable(w'.flags, w'.queue, w'.now, x)
          ensures EventTime(x) <= EventTime(w'.pc.event)
        {
          WorkerOnlyShrinks(w, l, x);
        }
      }
    }
  }

  /** How a worker step other than Select moves the program counter. */
  lemma PcFollows(w: World, l: Label)
    requires WorldInv(w) && !IsEnvironment(l) && Enabled(w, l) && !l.Select?
    ensures AttemptsInRange(WorkerStep(w, l).pc)
    ensures var pc, pc' := w.pc, WorkerStep(w, l).pc;
            && (HasEvent(pc') ==> HasEvent(pc) && pc'.event == pc.event)
            && (HasEvent(pc') ==> Remaining(pc') + (if l.Start? then 1 else 0) <= Remaining(pc))
            && (HasEvent(pc') ==>
                  Rank(pc') + (if l.Triggered? then 0 else 1) <= Rank(pc) + (if l.Triggered? then 6 else 0))
            && (!HasEvent(pc') ==> Rank(pc') <= 202 && !l.Start?)
            && (!HasEvent(pc') && !HasEvent(pc) ==> Rank(pc') < Rank(pc) || l.Wake?)
            && (HasEvent(pc) && !HasEvent(pc') ==> Rank(pc) >= 203)
    ensures HasEvent(w.pc) && !HasEvent(WorkerStep(w, l).pc) && !WorkerStep(w, l).pc.Ending? ==>
              Rank(WorkerStep(w, l).pc) <= 201 && Newer(w.flags, w.queue, w.now, w.pc.event).Some?
  {
    assert |w.queue.pending| <= MAX_PENDING_EVENTS;
    AttemptsStayInRange(w, l);
    if w.pc.Waiting? || w.pc.Blocked? {
      TriggerIsNotRead(w);
    }
    hide QueueInv, Defer, Remove, Remember, MustDefer, TerminalMatch, Newer, NextEvent, Fingerprints, Forgotten, NextOf;
  }

  lemma HistoryFollows(w: World, l: Label)
    requires !IsEnvironment(l) && Enabled(w, l) && !l.Select?
    ensures var w' := WorkerStep(w, l);
            && w'.novel == w.novel && w'.attempts == w.attempts + (if l.Start? then 1 else 0)
            && (if l.Wake? || l.Triggered? then w.flags.trigger && !w'.flags.trigger
                else w'.flags.trigger == w.flags.trigger)
  {
    hide Defer, Remove, Remember, MustDefer, TerminalMatch, Newer, NextEvent, Fingerprints;
  }

  lemma {:induction false} NextOfIgnoresTrigger(f: Flags, q: Queue, now: int, pending: seq<CloudEvent>)
    ensures NextOf(f.(trigger := false), q, now, pending) == NextOf(f, q, now, pending)
    decreases |pending|
  {
    if pending != [] {
      NextOfIgnoresTrigger(f, q, now, pending[..|pending| - 1]);
    }
  }

  lemma TriggerIsNotRead(w: World)
    ensures HasEvent(w.pc) ==>
              Newer(w.flags.(trigger := false), w.queue, w.now, w.pc.event)
              == Newer(w.flags, w.queue, w.now, w.pc.event)
  {
    NextOfIgnoresTrigger(w.flags, w.queue, w.now, w.queue.pending);
  }

  // ---- one step of each potential ----

  lemma BacklogOfRest(ids: set<string>, id: string)
    ensures |ids| <= |ids - {id}| + 1
    ensures id in ids ==> |ids| == |ids - {id}| + 1
  {
    if id in ids {
      assert ids == (ids - {id}) + {id};
    } else {
      assert ids - {id} == ids;
    }
  }

  lemma WorkerBacklog(w: World, l: Label)
    requires WorldInv(w) && !IsEnvironment(l) && Enabled(w, l) && !l.Select?
    ensures var w' := WorkerStep(w, l);
            && (HasEvent(w'.pc) || w'.pc.Ending? || !HasEvent(w.pc) ==> |Backlog(w')| <= |Backlog(w)|)
            && |Backlog(w')| <= |Backlog(w)| + 1
  {
    hide WorldInv, WorkerStep, Enabled, SelectableIds, Newer;
    var w' := WorkerStep(w, l);
    PcFollows(w, l);
    WorkerSelectable(w, l);
    if HasEvent(w.pc) {
      BacklogOfRest(SelectableIds(w), w.pc.event.eventId);
      SubsetCount(SelectableIds(w'), SelectableIds(w));
      if HasEvent(w'.pc) {
        SubsetCount(SelectableIds(w') - {w.pc.event.eventId}, SelectableIds(w) - {w.pc.event.eventId});
      } else if w'.pc.Ending? {
        SubsetCount(SelectableIds(w'), SelectableIds(w) - {w.pc.event.eventId});
      }
    } else {
      SubsetCount(SelectableIds(w'), SelectableIds(w));
    }
  }

  lemma SelectBacklog(w: World)
    requires WorldInv(w) && Enabled(w, Select)
    ensures var w' := WorkerStep(w, Select);
            && w'.attempts == w.attempts && w'.flags == w.flags && AttemptsInRange(w'.pc)
            && if HasEvent(w'.pc) then w'.pc.Settling? && w'.novel == 0 && |Backlog(w')| + 1 == |Backlog(w)|
               else w'.pc.Parked? && |Backlog(w')| == |Backlog(w)|
  {
    var w' := WorkerStep(w, Select);
    SelectionStarts(w);
    hide WorldInv, NextEvent, Selectable;
    assert SelectableIds(w') == SelectableIds(w);
    hide SelectableIds;
    if HasEvent(w'.pc) {
      BacklogOfRest(SelectableIds(w), w'.pc.event.eventId);
    }
  }

  lemma BudgetStep(w: World, l: Label)
    requires ProgressInv(w) && Enabled(w, l) && WorldInv(Next(w, l))
    ensures Next(w, l).attempts + Budget(Next(w, l)) <= w.attempts + Budget(w) + 6 * Wakes(l)
  {
    hide QueueInv, Environment, WorkerStep, Backlog, Enabled, Selectable, Newer, Wakes;
    if IsEnvironment(l) {
      SamePc(w, l);
      EnvironmentBacklog(w, l);
    } else if l.Select? {
      SelectBacklog(w);
    } else {
      PcFollows(w, l);
      HistoryFollows(w, l);
      WorkerBacklog(w, l);
      PreemptionIsPaid(w, l);
    }
  }

  lemma PreemptionIsPaid(w: World, l: Label)
    requires ProgressInv(w) && !IsEnvironment(l) && Enabled(w, l) && !l.Select?
    ensures HasEvent(w.pc) && !HasEvent(WorkerStep(w, l).pc) && !WorkerStep(w, l).pc.Ending? ==> w.novel > 0
  {
    PcFollows(w, l);
    hide WorkerStep, Newer, Enabled, SelectionIsNewest, WorldInv;
    if HasEvent(w.pc) && !HasEvent(WorkerStep(w, l).pc) && !WorkerStep(w, l).pc.Ending? {
      PreemptionNeedsAWake(w);
    }
  }

  lemma FuelStep(w: World, l: Label)
    requires ProgressInv(w) && Enabled(w, l) && WorldInv(Next(w, l))
    ensures Fuel(Next(w, l)) + (if IsEnvironment(l) then 0 else 1) <= Fuel(w) + 850 * Wakes(l)
  {
    hide QueueInv, Environment, WorkerStep, Backlog, Selectable, Newer;
    if IsEnvironment(l) {
      SamePc(w, l);
      EnvironmentBacklog(w, l);
      if l.Notify? || l.FinishRecovery? {
        RecoveryWakes(w, l);
      }
    } else if l.Select? {
      SelectBacklog(w);
    } else {
      PcFollows(w, l);
      HistoryFollows(w, l);
      WorkerBacklog(w, l);
      PreemptionIsPaid(w, l);
    }
  }

  lemma RecoveryWakes(w: World, l: Label)
    requires Enabled(w, l) && (l.Notify? || l.FinishRecovery?)
    ensures Wakes(l) >= 1
  {
  }

  lemma NextKeepsProgressInv(w: World, l: Label)
    requires ProgressInv(w) && Enabled(w, l)
    ensures ProgressInv(Next(w, l))
  {
    NextKeepsInv(w, l);
    if IsEnvironment(l) {
      EnvironmentKeepsSelection(w, l);
    } else {
      WorkerKeepsSelection(w, l);
    }
  }

  // ---- whole runs ----

  function WakesIn(run: seq<Label>): nat {
    if run == [] then 0 else Wakes(run[0]) + WakesIn(run[1..])
  }

  function WorkerStepsIn(run: seq<Label>): nat {
    if run == [] then 0 else (if IsEnvironment(run[0]) then 0 else 1) + WorkerStepsIn(run[1..])
  }

  /** The attempt bound: whatever the environment does, every wake-up buys at most
      six session attempts on top of what the start already owed. */
  lemma {:induction false} AttemptsAreBounded(w: World, run: seq<Label>)
    requires ProgressInv(w) && Feasible(w, run)
    ensures ProgressInv(After(w, run))
    ensures After(w, run).attempts + Budget(After(w, run)) <= w.attempts + Budget(w) + 6 * WakesIn(run)
    decreases |run|
  {
    hide WorldInv, SelectionIsNewest, Enabled, Next, Budget, Wakes;
    if run != [] {
      NextKeepsProgressInv(w, run[0]);
      BudgetStep(w, run[0]);
      AttemptsAreBounded(Next(w, run[0]), run[1..]);
    }
  }

  lemma AttemptsFromParked(w: World, run: seq<Label>)
    requires ProgressInv(w) && w.pc.Parked? && Feasible(w, run)
    ensures After(w, run).attempts - w.attempts <= 3 * |SelectableIds(w)| + 6 * WakesIn(run)
  {
    hide WorldInv, SelectionIsNewest, After, Feasible, SelectableIds, WakesIn;
    AttemptsAreBounded(w, run);
    assert Budget(w) == 3 * |SelectableIds(w)|;
  }

  /** The step bound: the worker's own steps are limited by its fuel and by the
      wake-ups, so its loop cannot run on by itself. */
  lemma {:induction false} StepsAreBounded(w: World, run: seq<Label>)
    requires ProgressInv(w) && Feasible(w, run)
    ensures ProgressInv(After(w, run))
    ensures WorkerStepsIn(run) + Fuel(After(w, run)) <= Fuel(w) + 850 * WakesIn(run)
    decreases |run|
  {
    hide WorldInv, SelectionIsNewest, Enabled, Next, Fuel, Wakes;
    if run != [] {
      NextKeepsProgressInv(w, run[0]);
      FuelStep(w, run[0]);
      StepsAreBounded(Next(w, run[0]), run[1..]);
    }
  }

  /** Unless it is parked on a clear trigger, the worker has a step to take. */
  function Move(w: World): (l: Label)
    requires !(w.pc.Parked? && !w.flags.trigger)
    ensures Enabled(w, l) && !IsEnvironment(l)
  {
    match w.pc
    case Parked => Wake
    case Sweeping(_, rest) => if rest == [] then Select else Sweep
    case Discarding(_, _, _) => Discard
    case Settling(_) => Settle
    case Ready(_, _) => Start
    case InSession(_, _) => Gate
    case Gated(_, _, _) => Fail(OtherFailure)
    case Waiting(_, _) => CheckNewer
    case Blocked(_, _) => TimerEnds
    case Ending(_) => Finish
  }

  /** Nothing is left to do but what a caller still owes a wake for. */
  ghost predicate Drained(w: World) {
    && w.pc.Parked? && !w.flags.trigger
    && forall e :: e in w.queue.pending && Selectable(w.flags, w.queue, w.now, e) ==> e.eventId in w.owed
  }

  /** The worker cannot take a step. */
  ghost predicate Stuck(w: World) {
    forall l: Label :: !IsEnvironment(l) ==> !Enabled(w, l)
  }

  /** Draining terminates: without wake-ups a run takes at most the fuel at its
      start in worker steps, and it gets stuck nowhere but where all is drained. */
  lemma DrainingTerminates(w: World, run: seq<Label>)
    requires ProgressInv(w) && ParkedClean(w) && Feasible(w, run) && WakesIn(run) == 0
    ensures WorkerStepsIn(run) <= Fuel(w)
    ensures Stuck(After(w, run)) <==> After(w, run).pc.Parked? && !After(w, run).flags.trigger
    ensures Stuck(After(w, run)) ==> Drained(After(w, run))
  {
    hide QueueInv, SelectionIsNewest, Feasible, After, WakesIn, WorkerStepsIn, Fuel;
    StepsAreBounded(w, run);
    ParkingLeavesNothing(w, run);
    var end := After(w, run);
    if !(end.pc.Parked? && !end.flags.trigger) {
      var l := Move(end);
      assert Enabled(end, l);
    }
  }

  /** And the end can always be reached: from every world the worker's own steps, at
      most the fuel of them, drain all there is. */
  lemma {:induction false} WorkerCanDrain(w: World) returns (run: seq<Label>)
    requires ProgressInv(w) && ParkedClean(w)
    ensures Feasible(w, run) && Drained(After(w, run))
    ensures |run| <= Fuel(w) && forall i :: 0 <= i < |run| ==> !IsEnvironment(run[i])
    decreases Fuel(w)
  {
    hide QueueInv, SelectionIsNewest, Fuel, WorkerStep, Selectable;
    if w.pc.Parked? && !w.flags.trigger {
      run := [];
    } else {
      var l := Move(w);
      NextKeepsProgressInv(w, l);
      FuelStep(w, l);
      WorkerKeepsParkedClean(w, l);
      hide Move, Enabled, ParkedClean;
      var rest := WorkerCanDrain(Next(w, l));
      run := [l] + rest;
      assert run[1..] == rest;
    }
  }

  /** How a selection ends: the event is completed or deferred, and then no longer
      selectable, or it is preempted by a newer event that was woken since. */
  lemma SelectionEnds(w: World, l: Label)
    requires ProgressInv(w) && Enabled(w, l) && HasEvent(w.pc) && !HasEvent(Next(w, l).pc)
    ensures var w' := Next(w, l);
            || (w'.pc == Ending(w.pc.event.eventId) && w.pc.event.eventId !in SelectableIds(w'))
            || (w'.pc.Sweeping? && w.novel > 0 && Newer(w.flags, w.queue, w.now, w.pc.event).Some?)
  {
    hide WorldInv, SelectionIsNewest, SelectableIds, Newer, Environment;
    if IsEnvironment(l) {
      SamePc(w, l);
    } else {
      EndsOrSweeps(w, l);
      PcFollows(w, l);
      hide WorkerStep;
      WorkerSelectable(w, l);
      PreemptionIsPaid(w, l);
    }
  }

  lemma EndsOrSweeps(w: World, l: Label)
    requires !IsEnvironment(l) && Enabled(w, l) && HasEvent(w.pc) && !HasEvent(WorkerStep(w, l).pc)
    ensures WorkerStep(w, l).pc == Ending(w.pc.event.eventId) || WorkerStep(w, l).pc.Sweeping?
  {
    hide Defer, Remove, Remember, MustDefer, TerminalMatch, Newer, NextEvent, Fingerprints;
  }

  /** The run keeps working on one selection. */
  ghost predicate SameSelection(w: World, run: seq<Label>)
    requires Feasible(w, run)
    decreases |run|
  {
    HasEvent(w.pc) && (run != [] ==> SameSelection(Next(w, run[0]), run[1..]))
  }

  /** One selection makes at most three attempts. */
  lemma {:induction false} SelectionAttempts(w: World, run: seq<Label>)
    requires WorldInv(w) && Feasible(w, run) && SameSelection(w, run)
    ensures WorldInv(After(w, run))
    ensures After(w, run).attempts + Remaining(After(w, run).pc) <= w.attempts + Remaining(w.pc) <= w.attempts + 3
    decreases |run|
  {
    hide Enabled, Environment, WorkerStep, Newer, QueueInv;
    if run != [] {
      var l := run[0];
      NextKeepsInv(w, l);
      assert HasEvent(Next(w, l).pc);
      if IsEnvironment(l) {
        SamePc(w, l);
      } else {
        SelectLeaves(w, l);
        PcFollows(w, l);
        HistoryFollows(w, l);
      }
      SelectionAttempts(Next(w, l), run[1..]);
    }
  }

  lemma SelectLeaves(w: World, l: Label)
    requires Enabled(w, l) && HasEvent(w.pc)
    ensures !l.Select?
  {
  }
}
