/** The worker's marks over its runs: which ids are activated, up for a manual
    recovery or owed a first attempt, what the trigger stands for, and what a
    completion and a clear leave. */
module MarkTheorems {
  import opened Basics
  import opened Events
  import opened QueueTheorems
  import opened RecordingWorker
  import opened WorkerMachine
  import opened WorkerSafety

  datatype Mark = Activated | Manual | Credit

  function Marked(f: Flags, mark: Mark): set<string> {
    match mark
    case Activated => f.activated
    case Manual => f.manual
    case Credit => f.credit
  }

  /** A pending Android event with this id is fresh and not deferred. */
  predicate FreshPending(w: World, id: string) {
    && !IsDeferred(w.queue, id)
    && exists e :: e in w.queue.pending && e.eventId == id && e.source == AndroidNotification
                   && w.now - EventTime(e) <= AUTOMATIC_RECORDING_EVENT_MAX_AGE
  }

  predicate Sets(w: World, l: Label, mark: Mark, id: string) {
    || (l == Notify(id) && (mark == Activated || (mark == Credit && FreshPending(w, id))))
    || (l.FinishRecovery? && id in l.ids && mark != Credit)
  }

  /** The id is discarded from all three sets, or its first attempt begins. */
  predicate Unsets(w: World, l: Label, mark: Mark, id: string) {
    || (l.ForgetCleared? && id in l.ids)
    || (l.Discard? && w.pc.Discarding? && w.pc.id == id)
    || (l.Finish? && w.pc.Ending? && w.pc.id == id)
    || (mark == Credit && l.Start? && w.pc.Ready? && w.pc.attempt == 0 && w.pc.event.eventId == id)
  }

  lemma {:induction false} FoundIfPending(pending: seq<CloudEvent>, e: CloudEvent)
    requires e in pending && e.source == AndroidNotification
    ensures FindPending(pending, e.eventId).Some?
    decreases |pending|
  {
    if !(pending[0].eventId == e.eventId && pending[0].source == AndroidNotification) {
      FoundIfPending(pending[1..], e);
    }
  }

  lemma {:induction false} FoundIsAndroid(pending: seq<CloudEvent>, id: string)
    ensures FindPending(pending, id).Some? ==> FindPending(pending, id).value.source == AndroidNotification
    decreases |pending|
  {
    if pending != [] && !(pending[0].eventId == id && pending[0].source == AndroidNotification) {
      FoundIsAndroid(pending[1..], id);
    }
  }

  lemma EarnsIff(w: World, id: string)
    requires QueueInv(w.queue)
    ensures EarnsCredit(w.queue, id, w.now) <==> FreshPending(w, id)
  {
    hide EventTime, FindPending;
    var found := FindPending(w.queue.pending, id);
    FoundIsAndroid(w.queue.pending, id);
    if found.Some? {
      FindPendingHasId(w.queue.pending, id);
    }
    if e :| e in w.queue.pending && e.eventId == id && e.source == AndroidNotification {
      FoundIfPending(w.queue.pending, e);
      assert found.value == e;
    }
  }

  lemma OutsideMarks(w: World, l: Label, mark: Mark, id: string)
    requires WorldInv(w) && IsEnvironment(l) && Enabled(w, l)
    ensures id in Marked(Environment(w, l).flags, mark)
            <==> Sets(w, l, mark, id) || (id in Marked(w.flags, mark) && !Unsets(w, l, mark, id))
  {
    EarnsIff(w, id);
    hide QueueInv, FreshPending, EarnsCredit, Enqueue, Defer, Rearm, DiscardDeferred, Discarded, ClearRequest;
  }

  lemma WorkerMarks(w: World, l: Label, mark: Mark, id: string)
    requires !IsEnvironment(l) && Enabled(w, l)
    ensures id in Marked(WorkerStep(w, l).flags, mark)
            <==> Sets(w, l, mark, id) || (id in Marked(w.flags, mark) && !Unsets(w, l, mark, id))
  {
    hide FreshPending, Defer, Remove, Remember, MustDefer, TerminalMatch, Newer, NextEvent, Fingerprints;
  }

  lemma MarkStep(w: World, l: Label, mark: Mark, id: string)
    requires WorldInv(w) && Enabled(w, l)
    ensures id in Marked(Next(w, l).flags, mark)
            <==> Sets(w, l, mark, id) || (id in Marked(w.flags, mark) && !Unsets(w, l, mark, id))
  {
    if IsEnvironment(l) {
      OutsideMarks(w, l, mark, id);
    } else {
      WorkerMarks(w, l, mark, id);
    }
    hide WorldInv, Sets, Unsets, Environment, WorkerStep, Marked;
  }

  /** Whether the id bears the mark after `run`, by what set and what unset it. */
  ghost function MarkAfter(before: bool, w: World, run: seq<Label>, mark: Mark, id: string): bool
    requires Feasible(w, run)
    decreases |run|
  {
    if run == [] then before
    else
      var now := Sets(w, run[0], mark, id) || (before && !Unsets(w, run[0], mark, id));
      MarkAfter(now, Next(w, run[0]), run[1..], mark, id)
  }

  /** Over every run, the marks are exact. An id is activated by a notification or a
      recovery and up for recovery by the latter, until it is discarded; it has credit
      from a notification that finds it pending, fresh and undeferred, until its first
      attempt begins or it is discarded. Nothing else sets or takes a mark. */
  lemma {:induction false} MarksAreExact(w: World, run: seq<Label>, mark: Mark, id: string)
    requires WorldInv(w) && Feasible(w, run)
    ensures id in Marked(After(w, run).flags, mark)
            <==> MarkAfter(id in Marked(w.flags, mark), w, run, mark, id)
    decreases |run|
  {
    hide WorldInv, Enabled, Next, Sets, Unsets, Marked;
    if run != [] {
      WorkerMachine.NextKeepsInv(w, run[0]);
      MarkStep(w, run[0], mark, id);
      MarksAreExact(Next(w, run[0]), run[1..], mark, id);
    }
  }

  predicate Pulls(l: Label) {
    l.Notify? || l.FinishRecovery?
  }

  predicate Resets(l: Label) {
    l.Wake? || l.Triggered?
  }

  ghost predicate NeverReset(run: seq<Label>) {
    forall i :: 0 <= i < |run| ==> !Resets(run[i])
  }

  ghost predicate PulledLast(run: seq<Label>) {
    exists i :: 0 <= i < |run| && Pulls(run[i]) && NeverReset(run[i + 1..])
  }

  /** The trigger is up if and only if some notification or recovery came after the
      worker last took it down. */
  lemma {:induction false} TriggerIsExact(w: World, run: seq<Label>)
    requires Feasible(w, run)
    ensures After(w, run).flags.trigger <==> (w.flags.trigger && NeverReset(run)) || PulledLast(run)
    decreases |run|
  {
    hide Enabled, Next;
    if run != [] {
      TriggerStep(w, run[0]);
      TriggerIsExact(Next(w, run[0]), run[1..]);
      assert run == [run[0]] + run[1..];
      LaterPull(run);
    }
  }

  lemma LaterPull(run: seq<Label>)
    requires run != []
    ensures PulledLast(run) <==> PulledLast(run[1..]) || (Pulls(run[0]) && NeverReset(run[1..]))
  {
    var rest := run[1..];
    if i :| 0 <= i < |run| && Pulls(run[i]) && NeverReset(run[i + 1..]) {
      if i > 0 {
        assert rest[i - 1] == run[i] && rest[i..] == run[i + 1..];
      }
    }
    if i :| 0 <= i < |rest| && Pulls(rest[i]) && NeverReset(rest[i + 1..]) {
      assert run[i + 1] == rest[i] && run[i + 2..] == rest[i + 1..];
    }
  }

  lemma TriggerStep(w: World, l: Label)
    requires Enabled(w, l)
    ensures Next(w, l).flags.trigger <==> Pulls(l) || (w.flags.trigger && !Resets(l))
  {
    hide Enqueue, Defer, Remove, Remember, Rearm, DiscardDeferred, Discarded, ClearRequest, MustDefer, TerminalMatch,
      Newer, NextEvent, Fingerprints, EarnsCredit;
  }

  // ---- completions ----

  /** Past the gate, the fingerprints that were read there are those of the queue. */
  predicate GateHolds(w: World) {
    w.pc.Gated? ==> w.pc.completed == Fingerprints(w.queue.completed)
  }

  lemma GateStep(w: World, l: Label)
    requires GateHolds(w) && Enabled(w, l)
    ensures GateHolds(Next(w, l))
  {
    hide PendingIds, KeepEvents, KeepDeferred, PutDeferred, Fingerprints, MustDefer, TerminalMatch, Newer, NextEvent,
      EarnsCredit;
  }

  lemma {:induction false} GateRun(w: World, run: seq<Label>)
    requires GateHolds(w) && Feasible(w, run)
    ensures GateHolds(After(w, run))
    decreases |run|
  {
    hide GateHolds, Enabled, Next;
    if run != [] {
      GateStep(w, run[0]);
      GateRun(Next(w, run[0]), run[1..]);
    }
  }

  /** Over every run of a worker that starts outside the gate: a recording that is
      saved was not among the completed ones; it becomes the newest of them, and its
      event leaves the queue. A duplicate just leaves it. */
  lemma CompletionsAreNew(w: World, run: seq<Label>, l: Label)
    requires WorldInv(w) && !w.pc.Gated? && Feasible(w, run) && Enabled(After(w, run), l) && (l.Save? || l.Duplicate?)
    ensures var last := After(w, run);
      var end, id := Next(last, l), last.pc.event.eventId;
      && id !in PendingIds(end.queue.pending) && !IsDeferred(end.queue, id)
      && (forall x: CloudEvent :: x.eventId != id ==> (x in end.queue.pending <==> x in last.queue.pending))
      && (l.Duplicate? ==> end.queue.completed == last.queue.completed)
      && (l.Save? ==>
            && l.recording.fingerprint !in Fingerprints(last.queue.completed)
            && end.queue.completed == Last(last.queue.completed + [l.recording], MAX_COMPLETED_RECORDINGS))
  {
    GateRun(w, run);
    var last := After(w, run);
    KeepEventsFacts(last.queue.pending, {last.pc.event.eventId});
    KeepDeferredFacts(last.queue.deferred, {last.pc.event.eventId});
    hide Feasible, After, WorldInv, KeepEvents, KeepDeferred;
  }

  /** A clear takes the deferred Android events from the queue, and no other. */
  lemma ClearedIff(w: World, e: CloudEvent)
    requires WorldInv(w) && e in w.queue.pending
    ensures e !in Next(w, ClearQueue).queue.pending
            <==> e.source == AndroidNotification && IsDeferred(w.queue, e.eventId)
    ensures e.eventId in Next(w, ClearQueue).clearing
            <==> e.eventId in w.clearing || e !in Next(w, ClearQueue).queue.pending
  {
    KeepEventsFacts(w.queue.pending, Discarded(w.queue, ClearRequest(w.queue)));
    assert DistinctEvents(w.queue.pending);
    hide IsDeferred;
  }
}
