/** The part of a session before the worker's loop runs.

    Setup creates the worker with empty sets, starts the notification bridge, and
    has awaits of its own before it calls `async_prepare_startup_recovery`, which
    awaits a save at each deferral. Ingests, notifications, recoveries and clears
    can come at any of these awaits. The loop starts after the last one. */
module StartupMachine {
  import opened Basics
  import opened Events
  import opened QueueTheorems
  import opened RecordingWorker
  import opened WorkerMachine

  /** `clock` is the one reading startup recovery works with, `start` the queue in
      which it settled who is eligible. */
  datatype Stage =
    | Setup
    | Retiring(clock: int, rest: seq<CloudEvent>)
    | Benching(clock: int, start: Queue, rest: seq<CloudEvent>)
    | LoopRuns(clock: int, start: Queue)

  datatype Boot = Boot(w: World, stage: Stage)

  datatype BootLabel =
    | Outside(l: Label)
    | Recover   // `async_prepare_startup_recovery` begins
    | Retire    // one turn over the stale events
    | Choose
    | Bench     // one turn over the events not selected
    | Activate  // its end: the candidate is notified, and the loop starts

  predicate CanHappen(b: Boot, l: BootLabel) {
    match l
    case Outside(l) => !b.stage.LoopRuns? && IsEnvironment(l) && Enabled(b.w, l)
    case Recover => b.stage.Setup?
    case Retire => b.stage.Retiring? && b.stage.rest != []
    case Choose => b.stage.Retiring? && b.stage.rest == []
    case Bench => b.stage.Benching? && b.stage.rest != []
    case Activate => b.stage.Benching? && b.stage.rest == []
  }

  function NotifyCandidate(w: World, chosen: Option<CloudEvent>): World {
    if chosen.None? then w else NotifyNow(w, chosen.value.eventId)
  }

  function Happens(b: Boot, l: BootLabel): Boot
    requires CanHappen(b, l)
  {
    match l
    case Outside(l) => b.(w := Next(b.w, l))
    case Recover => b.(stage := Retiring(b.w.now, b.w.queue.pending))
    case Retire =>
      Boot(b.w.(queue := RetireOne(b.w.queue, b.stage.rest[0], b.stage.clock)),
           Retiring(b.stage.clock, b.stage.rest[1..]))
    case Choose => b.(stage := Benching(b.stage.clock, b.w.queue, b.w.queue.pending))
    case Bench =>
      Boot(b.w.(queue := BenchOne(b.w.queue, b.stage.start, b.stage.rest[0], b.stage.clock)),
           Benching(b.stage.clock, b.stage.start, b.stage.rest[1..]))
    case Activate =>
      Boot(NotifyCandidate(b.w, Candidate(b.stage.start, b.stage.clock)), LoopRuns(b.stage.clock, b.stage.start))
  }

  predicate Possible(b: Boot, run: seq<BootLabel>)
    decreases |run|
  {
    run == [] || (CanHappen(b, run[0]) && Possible(Happens(b, run[0]), run[1..]))
  }

  function Boots(b: Boot, run: seq<BootLabel>): Boot
    requires Possible(b, run)
    decreases |run|
  {
    if run == [] then b else Boots(Happens(b, run[0]), run[1..])
  }

  /** The world in which setup creates the worker. */
  function Created(q: Queue, now: int): Boot {
    Boot(World(q, NO_FLAGS, now, Parked, {}, {}, {}, 0, 0, {}), Setup)
  }

  function BootWakes(run: seq<BootLabel>): nat {
    if run == [] then 0 else (if run[0].Outside? then Wakes(run[0].l) else 0) + BootWakes(run[1..])
  }

  // ---- what every step keeps ----

  ghost predicate BootInv(b: Boot) {
    WorldInv(b.w) && b.w.pc.Parked?
  }

  lemma StartupDefersOrNot(q: Queue, start: Queue, e: CloudEvent, clock: int)
    requires QueueInv(q)
    ensures QueueInv(RetireOne(q, e, clock)) && RetireOne(q, e, clock).pending == q.pending
    ensures QueueInv(BenchOne(q, start, e, clock)) && BenchOne(q, start, e, clock).pending == q.pending
  {
    hide QueueInv, Candidate, IsEligible, IsStaleAtStart;
    DeferKeepsInv(q, e.eventId, "startup_event_stale", clock);
    DeferKeepsInv(q, e.eventId, "startup_not_selected", clock);
  }

  lemma HappensKeepsInv(b: Boot, l: BootLabel)
    requires BootInv(b) && CanHappen(b, l)
    ensures BootInv(Happens(b, l))
  {
    hide QueueInv, RetireOne, BenchOne, Candidate, EarnsCredit, Environment, Enabled, IsEnvironment;
    match l
    case Outside(outer) =>
      NextKeepsInv(b.w, outer);
      SamePc(b.w, outer);
    case Retire => StartupDefersOrNot(b.w.queue, b.w.queue, b.stage.rest[0], b.stage.clock);
    case Bench => StartupDefersOrNot(b.w.queue, b.stage.start, b.stage.rest[0], b.stage.clock);
    case _ =>
  }

  // ---- with nothing in between, startup recovery is one function of the queue ----

  lemma {:induction false} RetiresAll(b: Boot, q: Queue, snapshot: seq<CloudEvent>, i: nat)
    returns (run: seq<BootLabel>)
    requires i <= |snapshot| && b.stage.Retiring? && b.stage.rest == snapshot[i..]
    requires b.w.queue == RetireAll(q, snapshot[..i], b.stage.clock)
    ensures Possible(b, run) && (forall k :: 0 <= k < |run| ==> !run[k].Outside?)
    ensures Boots(b, run)
         == Boot(b.w.(queue := RetireAll(q, snapshot, b.stage.clock)), Retiring(b.stage.clock, []))
    decreases |snapshot| - i
  {
    hide RetireOne;
    if i == |snapshot| {
      assert snapshot[..i] == snapshot && snapshot[i..] == [];
      run := [];
    } else {
      assert snapshot[..i + 1][..i] == snapshot[..i] && snapshot[i..][1..] == snapshot[i + 1..];
      var rest := RetiresAll(Happens(b, Retire), q, snapshot, i + 1);
      run := [Retire] + rest;
      assert run[1..] == rest;
    }
  }

  lemma {:induction false} BenchesAll(b: Boot, q: Queue, snapshot: seq<CloudEvent>, i: nat)
    returns (run: seq<BootLabel>)
    requires i <= |snapshot| && b.stage.Benching? && b.stage.rest == snapshot[i..]
    requires b.w.queue == BenchAll(q, b.stage.start, snapshot[..i], b.stage.clock)
    ensures Possible(b, run) && (forall k :: 0 <= k < |run| ==> !run[k].Outside?)
    ensures Boots(b, run)
         == Boot(b.w.(queue := BenchAll(q, b.stage.start, snapshot, b.stage.clock)),
                 Benching(b.stage.clock, b.stage.start, []))
    decreases |snapshot| - i
  {
    hide BenchOne;
    if i == |snapshot| {
      assert snapshot[..i] == snapshot && snapshot[i..] == [];
      run := [];
    } else {
      assert snapshot[..i + 1][..i] == snapshot[..i] && snapshot[i..][1..] == snapshot[i + 1..];
      var rest := BenchesAll(Happens(b, Bench), q, snapshot, i + 1);
      run := [Bench] + rest;
      assert run[1..] == rest;
    }
  }

  lemma {:induction false} Joined(b: Boot, first: seq<BootLabel>, second: seq<BootLabel>)
    requires Possible(b, first) && Possible(Boots(b, first), second)
    ensures Possible(b, first + second) && Boots(b, first + second) == Boots(Boots(b, first), second)
    decreases |first|
  {
    hide CanHappen, Happens;
    if first == [] {
      assert first + second == second;
    } else {
      Joined(Happens(b, first[0]), first[1..], second);
      assert (first + second)[1..] == first[1..] + second;
    }
  }

  lemma OneStep(b: Boot, l: BootLabel)
    requires CanHappen(b, l)
    ensures Possible(b, [l]) && Boots(b, [l]) == Happens(b, l)
  {
    hide CanHappen, Happens;
    assert [l][1..] == [];
  }

  /** From every world setup may have reached, the recovery can run undisturbed to
      its end, and then does to queue and sets what `Worker.PrepareStartup` does. */
  lemma UndisturbedRecovery(b: Boot) returns (run: seq<BootLabel>)
    requires BootInv(b) && b.stage.Setup?
    ensures Possible(b, run) && forall i :: 0 <= i < |run| ==> !run[i].Outside?
    ensures var (queue, chosen) := StartupQueue(b.w.queue, b.w.now);
      && Boots(b, run).w == NotifyCandidate(b.w.(queue := queue), chosen)
      && Boots(b, run).stage.LoopRuns? && Candidate(Boots(b, run).stage.start, Boots(b, run).stage.clock) == chosen
  {
    hide RetireAll, BenchAll, Candidate, NotifyCandidate, BootInv;
    var b1 := Happens(b, Recover);
    assert RetireAll(b.w.queue, [], b.w.now) == b.w.queue by { NoneRetired(b.w.queue, b.w.now); }
    var pending := b.w.queue.pending;
    assert pending[..0] == [] && pending[0..] == pending;
    var r2 := RetiresAll(b1, b.w.queue, pending, 0);
    var b2 := Boots(b1, r2);
    var b3 := Happens(b2, Choose);
    NoneRetired(b3.stage.start, b.w.now);
    var later := b3.stage.rest;
    assert later[..0] == [] && later[0..] == later;
    var r4 := BenchesAll(b3, b3.w.queue, later, 0);
    var b4 := Boots(b3, r4);
    OneStep(b, Recover);
    OneStep(b2, Choose);
    OneStep(b4, Activate);
    Joined(b3, r4, [Activate]);
    Joined(b2, [Choose], r4 + [Activate]);
    Joined(b1, r2, [Choose] + (r4 + [Activate]));
    Joined(b, [Recover], r2 + ([Choose] + (r4 + [Activate])));
    run := [Recover] + (r2 + ([Choose] + (r4 + [Activate])));
  }

  lemma NoneRetired(q: Queue, clock: int)
    ensures RetireAll(q, [], clock) == q && BenchAll(q, q, [], clock) == q
  {
  }
}
