/** Which events one sweep of `_defer_stale_activated_events` defers.

    The sweep tests every event against the one clock reading it began with;
    `_next_android_event` then takes its own reading. */
module SweepTheorems {
  import opened Basics
  import opened Events
  import opened QueueTheorems
  import opened RecordingWorker
  import opened WorkerMachine
  import opened WorkerSafety

  /** Automatic work: no manual recovery asked for it and its credit is used up. */
  predicate AutomaticWork(f: Flags, id: string) {
    id in f.activated && id !in f.manual && id !in f.credit
  }

  /** The step names `id`: it notifies, defers, rearms, recovers or forgets it. */
  predicate Names(l: Label, id: string) {
    match l
    case Notify(other) => other == id
    case DeferIngested(other) => other == id
    case RearmDeferred(other) => other == id
    case FinishRecovery(ids) => id in ids
    case ForgetCleared(ids) => id in ids
    case _ => false
  }

  /** The run stays within one sweep, `e` stays pending, and nobody else names it. */
  ghost predicate WithinSweep(w: World, run: seq<Label>, e: CloudEvent)
    requires Feasible(w, run)
    decreases |run|
  {
    && (w.pc.Sweeping? || w.pc.Discarding?) && e in w.queue.pending
    && (run != [] ==> !Names(run[0], e.eventId) && WithinSweep(Next(w, run[0]), run[1..], e))
  }

  /** Before the turn of `e` it is untouched; after it, it is deferred exactly if it
      was stale at the clock of the sweep. */
  ghost predicate SweptSoFar(w: World, e: CloudEvent, clock: int) {
    && (w.pc.Sweeping? || w.pc.Discarding?) && w.pc.clock == clock && e in w.queue.pending
    && (forall x :: x in w.pc.rest && x.eventId == e.eventId ==> x == e) && DistinctEvents(w.pc.rest)
    && (e in w.pc.rest ==> !IsDeferred(w.queue, e.eventId))
    && (e in w.pc.rest || IsFresh(e, clock) ==>
          AutomaticWork(w.flags, e.eventId) && (w.pc.Discarding? ==> w.pc.id != e.eventId))
    && (e !in w.pc.rest ==> (IsDeferred(w.queue, e.eventId) <==> !IsFresh(e, clock)))
  }

  lemma OutsideKeepsDeferral(w: World, l: Label, e: CloudEvent)
    requires WorldInv(w) && IsEnvironment(l) && Enabled(w, l) && !Names(l, e.eventId)
    requires e in w.queue.pending && e in Next(w, l).queue.pending
    ensures IsDeferred(Next(w, l).queue, e.eventId) <==> IsDeferred(w.queue, e.eventId)
  {
    if IsDeferred(w.queue, e.eventId) {
      NextKeepsHeld(w, l, e);
    } else {
      OutsideKeepsLive(w, l, e);
    }
    hide Environment, WorldInv, IsDeferred;
  }

  lemma OutsideKeepsFlags(w: World, l: Label, id: string)
    requires IsEnvironment(l) && Enabled(w, l) && !Names(l, id) && AutomaticWork(w.flags, id)
    ensures AutomaticWork(Next(w, l).flags, id) && Next(w, l).pc == w.pc
  {
    hide Enqueue, Defer, Rearm, DiscardDeferred, Discarded, ClearRequest, EarnsCredit;
  }

  lemma SweepTurn(w: World, e: CloudEvent, clock: int)
    requires WorldInv(w) && SweptSoFar(w, e, clock) && Enabled(w, Sweep)
    ensures SweptSoFar(Next(w, Sweep), e, clock)
  {
    hide QueueInv, IsFresh;
    var x := w.pc.rest[0];
    assert w.pc.rest == [x] + w.pc.rest[1..];
    PutDeferredIds(w.queue.deferred, DeferredEvent(x.eventId, "automatic_event_stale", w.now));
    assert x.eventId == e.eventId ==> x == e;
    assert x == e ==> e !in w.pc.rest[1..];
  }

  lemma SweptStep(w: World, l: Label, e: CloudEvent, clock: int)
    requires WorldInv(w) && SweptSoFar(w, e, clock) && Enabled(w, l) && !Names(l, e.eventId)
    requires (Next(w, l).pc.Sweeping? || Next(w, l).pc.Discarding?) && e in Next(w, l).queue.pending
    ensures SweptSoFar(Next(w, l), e, clock)
  {
    if IsEnvironment(l) {
      OutsideKeepsDeferral(w, l, e);
      SamePc(w, l);
      if AutomaticWork(w.flags, e.eventId) {
        OutsideKeepsFlags(w, l, e.eventId);
      }
      hide Environment, WorldInv, IsDeferred, IsFresh;
    } else if l.Sweep? {
      SweepTurn(w, e, clock);
    } else {
      hide QueueInv, IsFresh, IsDeferred, NextEvent, Newer;
    }
  }

  lemma {:induction false} SweepGoesOn(w: World, run: seq<Label>, e: CloudEvent, clock: int)
    requires WorldInv(w) && SweptSoFar(w, e, clock) && Feasible(w, run) && WithinSweep(w, run, e)
    ensures WorldInv(After(w, run)) && SweptSoFar(After(w, run), e, clock)
    decreases |run|
  {
    hide WorldInv, Enabled, Next, IsDeferred, IsFresh, Names;
    if run != [] {
      NextKeepsInv(w, run[0]);
      assert WithinSweep(Next(w, run[0]), run[1..], e);
      SweptStep(w, run[0], e, clock);
      hide SweptSoFar;
      SweepGoesOn(Next(w, run[0]), run[1..], e, clock);
    }
  }

  /** Every sweep starts with its turns still to come. */
  lemma SweepStarts(w: World, e: CloudEvent)
    requires WorldInv(w) && Live(w.queue, e) && AutomaticWork(w.flags, e.eventId)
    ensures WorldInv(StartSweep(w)) && SweptSoFar(StartSweep(w), e, w.now)
  {
    forall x | x in w.queue.pending && x.eventId == e.eventId
      ensures x == e
    {
      var i :| 0 <= i < |w.queue.pending| && w.queue.pending[i] == e;
      var j :| 0 <= j < |w.queue.pending| && w.queue.pending[j] == x;
      assert i == j;
    }
  }

  /** A sweep defers, of the automatic work it finds, exactly what was stale when it
      began, whatever else happens meanwhile. What is fresh then is left to the
      selection. */
  lemma SweepDefersTheStale(w: World, run: seq<Label>, e: CloudEvent)
    requires WorldInv(w) && Live(w.queue, e) && AutomaticWork(w.flags, e.eventId)
    requires Feasible(StartSweep(w), run) && WithinSweep(StartSweep(w), run, e)
    requires Enabled(After(StartSweep(w), run), Select)
    ensures IsDeferred(After(StartSweep(w), run).queue, e.eventId) <==> !IsFresh(e, w.now)
  {
    SweepStarts(w, e);
    hide WorldInv, StartSweep, Feasible, After, WithinSweep, IsDeferred, IsFresh;
    SweepGoesOn(StartSweep(w), run, e, w.now);
  }

  /** The left-over event: a sweep runs to its end, the clock ticks, the selection
      reads it. Automatic work is then stale without being deferred or selectable,
      and the worker may park over it, if and only if it was fresh when the sweep
      began and is stale at the reading of the selection. */
  lemma LeftOver(w: World, run: seq<Label>, e: CloudEvent, to: int)
    requires WorldInv(w) && Live(w.queue, e) && AutomaticWork(w.flags, e.eventId)
    requires Feasible(StartSweep(w), run) && WithinSweep(StartSweep(w), run, e)
    requires Enabled(After(StartSweep(w), run), Select) && After(StartSweep(w), run).now <= to
    ensures var end := Next(Next(After(StartSweep(w), run), Tick(to)), Select);
            IsFresh(e, w.now) && !IsFresh(e, to)
            <==> Live(end.queue, e) && !IsFresh(e, end.now) && !Selectable(end.flags, end.queue, end.now, e)
    ensures var end := Next(Next(After(StartSweep(w), run), Tick(to)), Select);
            !IsFresh(e, to) ==> !(HasEvent(end.pc) && end.pc.event == e)
  {
    SweepStarts(w, e);
    var swept := After(StartSweep(w), run);
    hide WorldInv, StartSweep, Feasible, After, WithinSweep;
    SweepGoesOn(StartSweep(w), run, e, w.now);
    SelectionAfter(swept, e, w.now, to);
  }

  lemma SelectionAfter(w: World, e: CloudEvent, clock: int, to: int)
    requires SweptSoFar(w, e, clock) && Enabled(w, Select) && w.now <= to
    ensures var end := Next(Next(w, Tick(to)), Select);
            IsFresh(e, clock) && !IsFresh(e, to)
            <==> Live(end.queue, e) && !IsFresh(e, end.now) && !Selectable(end.flags, end.queue, end.now, e)
    ensures var end := Next(Next(w, Tick(to)), Select);
            !IsFresh(e, to) ==> !(HasEvent(end.pc) && end.pc.event == e)
  {
    var w1 := Next(w, Tick(to));
    assert w1.queue == w.queue && w1.flags == w.flags && w1.now == to;
    hide IsDeferred;
    NextOfIsNewest(w1.flags, w1.queue, w1.now, w1.queue.pending);
  }
}
