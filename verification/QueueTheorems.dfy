/** What the event queue keeps over every run, and what a save and load keeps. */
module QueueTheorems {
  import opened Basics
  import opened Events

  ghost predicate DistinctIds(s: seq<string>) {
    forall i, j :: 0 <= i < j < |s| ==> s[i] != s[j]
  }

  ghost predicate DistinctEvents(p: seq<CloudEvent>) {
    forall i, j :: 0 <= i < j < |p| ==> p[i].eventId != p[j].eventId
  }

  ghost predicate DistinctDeferred(d: seq<DeferredEvent>) {
    forall i, j :: 0 <= i < j < |d| ==> d[i].eventId != d[j].eventId
  }

  ghost predicate DistinctRecordings(c: seq<CompletedRecording>) {
    forall i, j :: 0 <= i < j < |c| ==> c[i].fingerprint != c[j].fingerprint
  }

  /** The queue invariant. The processed list may exceed its nominal 512 entries
      by the pending ids that a load appends to it. */
  ghost predicate QueueInv(q: Queue) {
    && DistinctEvents(q.pending) && |q.pending| <= MAX_PENDING_EVENTS
    && DistinctIds(q.processed) && |q.processed| <= MAX_PROCESSED_EVENT_IDS + MAX_PENDING_EVENTS
    && SetOf(q.processed) <= q.known && PendingIds(q.pending) <= q.known
    && DistinctDeferred(q.deferred) && DeferredIds(q.deferred) <= PendingIds(q.pending)
    && DistinctRecordings(q.completed) && |q.completed| <= MAX_COMPLETED_RECORDINGS
  }

  // ---- filtering and updating keep distinctness ----

  lemma {:induction false} KeepEventsFacts(p: seq<CloudEvent>, drop: set<string>)
    ensures var k := KeepEvents(p, drop);
            && (forall e :: e in k <==> e in p && e.eventId !in drop)
            && PendingIds(k) == PendingIds(p) - drop && |k| <= |p|
    decreases |p|
  {
    if p != [] {
      KeepEventsFacts(p[1..], drop);
      assert p == [p[0]] + p[1..];
    }
  }

  lemma {:induction false} KeepEventsDistinct(p: seq<CloudEvent>, drop: set<string>)
    requires DistinctEvents(p)
    ensures DistinctEvents(KeepEvents(p, drop))
    decreases |p|
  {
    hide PendingIds;
    if p != [] {
      KeepEventsDistinct(p[1..], drop);
      KeepEventsFacts(p[1..], drop);
      var k := KeepEvents(p[1..], drop);
      forall i | 0 <= i < |k|
        ensures k[i].eventId != p[0].eventId
      {
        assert k[i] in p[1..];
      }
    }
  }

  lemma {:induction false} KeepDeferredFacts(p: seq<DeferredEvent>, drop: set<string>)
    ensures var k := KeepDeferred(p, drop);
            && (forall e :: e in k <==> e in p && e.eventId !in drop)
            && DeferredIds(k) == DeferredIds(p) - drop
    decreases |p|
  {
    if p != [] {
      KeepDeferredFacts(p[1..], drop);
      assert p == [p[0]] + p[1..];
    }
  }

  lemma {:induction false} KeepDeferredDistinct(p: seq<DeferredEvent>, drop: set<string>)
    requires DistinctDeferred(p)
    ensures DistinctDeferred(KeepDeferred(p, drop))
    decreases |p|
  {
    hide DeferredIds;
    if p != [] {
      KeepDeferredDistinct(p[1..], drop);
      KeepDeferredFacts(p[1..], drop);
      var k := KeepDeferred(p[1..], drop);
      forall i | 0 <= i < |k|
        ensures k[i].eventId != p[0].eventId
      {
        assert k[i] in p[1..];
      }
    }
  }

  lemma {:induction false} PutDeferredIds(p: seq<DeferredEvent>, d: DeferredEvent)
    ensures var k := PutDeferred(p, d);
            DeferredIds(k) == DeferredIds(p) + {d.eventId} && d in k
    decreases |p|
  {
    if p != [] {
      DeferredIdsOfCons(p[0], p[1..]);
      assert p == [p[0]] + p[1..];
      if p[0].eventId == d.eventId {
        DeferredIdsOfCons(d, p[1..]);
      } else {
        PutDeferredIds(p[1..], d);
        DeferredIdsOfCons(p[0], PutDeferred(p[1..], d));
      }
    }
  }

  lemma DeferredIdsOfCons(d: DeferredEvent, rest: seq<DeferredEvent>)
    ensures DeferredIds([d] + rest) == {d.eventId} + DeferredIds(rest)
  {
    assert d in [d] + rest;
    assert forall x :: x in rest ==> x in [d] + rest;
  }

  lemma {:induction false} PutDeferredDistinct(p: seq<DeferredEvent>, d: DeferredEvent)
    requires DistinctDeferred(p)
    ensures DistinctDeferred(PutDeferred(p, d))
    decreases |p|
  {
    hide DeferredIds;
    if p != [] && p[0].eventId != d.eventId {
      PutDeferredDistinct(p[1..], d);
      PutDeferredIds(p[1..], d);
      var k := PutDeferred(p[1..], d);
      NotAmong(p[0].eventId, p[1..]);
      forall i | 0 <= i < |k|
        ensures k[i].eventId != p[0].eventId
      {
        Among(k, i);
      }
    }
  }

  lemma NotAmong(id: string, p: seq<DeferredEvent>)
    requires forall i :: 0 <= i < |p| ==> p[i].eventId != id
    ensures id !in DeferredIds(p)
  {
  }

  lemma Among(p: seq<DeferredEvent>, i: nat)
    requires i < |p|
    ensures p[i].eventId in DeferredIds(p)
  {
    assert p[i] in p;
  }

  lemma {:induction false} PutAbsent(p: seq<DeferredEvent>, d: DeferredEvent)
    requires forall i :: 0 <= i < |p| ==> p[i].eventId != d.eventId
    ensures PutDeferred(p, d) == p + [d]
    decreases |p|
  {
    if p != [] {
      PutAbsent(p[1..], d);
      assert [p[0]] + (p[1..] + [d]) == p + [d];
    }
  }

  lemma {:induction false} DistinctCount(s: seq<string>)
    requires DistinctIds(s)
    ensures |SetOf(s)| == |s|
    decreases |s|
  {
    if s != [] {
      var n := |s| - 1;
      DistinctCount(s[..n]);
      assert SetOf(s) == SetOf(s[..n]) + {s[n]};
      assert s[n] !in SetOf(s[..n]);
    }
  }

  function EventIds(p: seq<CloudEvent>): (ids: seq<string>)
    ensures |ids| == |p| && forall i :: 0 <= i < |p| ==> ids[i] == p[i].eventId
  {
    if p == [] then [] else [p[0].eventId] + EventIds(p[1..])
  }

  function IdsOfDeferred(p: seq<DeferredEvent>): (ids: seq<string>)
    ensures |ids| == |p| && forall i :: 0 <= i < |p| ==> ids[i] == p[i].eventId
  {
    if p == [] then [] else [p[0].eventId] + IdsOfDeferred(p[1..])
  }

  lemma SubsetCount(a: set<string>, b: set<string>)
    requires a <= b
    ensures |a| <= |b|
  {
    assert b == a + (b - a);
  }

  /** Deferred entries never outnumber pending ones. */
  lemma DeferredFitsPending(q: Queue)
    requires QueueInv(q)
    ensures |q.deferred| <= |q.pending| <= MAX_PENDING_EVENTS
    ensures |PendingIds(q.pending)| == |q.pending|
  {
    var p, d := EventIds(q.pending), IdsOfDeferred(q.deferred);
    DistinctCount(p);
    DistinctCount(d);
    assert forall e :: e in q.pending ==> e.eventId in SetOf(p);
    assert SetOf(p) == PendingIds(q.pending);
    assert SetOf(d) == DeferredIds(q.deferred);
    SubsetCount(SetOf(d), SetOf(p));
  }

  // ---- every operation keeps the invariant ----

  lemma SetOfSnoc(s: seq<string>, x: string)
    ensures SetOf(s + [x]) == SetOf(s) + {x}
  {
  }

  lemma SetOfTail(s: seq<string>)
    requires s != [] && DistinctIds(s)
    ensures SetOf(s[1..]) == SetOf(s) - {s[0]} && DistinctIds(s[1..])
  {
    assert s == [s[0]] + s[1..];
  }

  lemma PendingIdsSnoc(p: seq<CloudEvent>, e: CloudEvent)
    ensures PendingIds(p + [e]) == PendingIds(p) + {e.eventId}
  {
    assert e in p + [e];
    assert forall x :: x in p ==> x in p + [e];
  }

  lemma PendingIdsTail(p: seq<CloudEvent>)
    requires p != [] && DistinctEvents(p)
    ensures PendingIds(p[1..]) == PendingIds(p) - {p[0].eventId} && DistinctEvents(p[1..])
  {
    assert p == [p[0]] + p[1..];
    assert forall x :: x in p[1..] ==> x in p;
  }

  lemma EnqueueKeepsInv(q: Queue, e: CloudEvent)
    requires QueueInv(q)
    ensures QueueInv(Enqueue(q, e).0)
  {
    hide SetOf, PendingIds, DeferredIds, KeepDeferred, DistinctIds, DistinctEvents, DistinctDeferred,
      DistinctRecordings;
    if e.eventId !in q.known {
      var pending := q.pending + [e];
      var processed := q.processed + [e.eventId];
      PendingIdsSnoc(q.pending, e);
      SetOfSnoc(q.processed, e.eventId);
      NotYetListed(q, e);
      SetOfTail(processed);
      PendingIdsTail(pending);
      KeepDeferredFacts(q.deferred, {pending[0].eventId});
      KeepDeferredDistinct(q.deferred, {pending[0].eventId});
    }
  }

  lemma NotYetListed(q: Queue, e: CloudEvent)
    requires QueueInv(q) && e.eventId !in q.known
    ensures DistinctEvents(q.pending + [e]) && DistinctIds(q.processed + [e.eventId])
  {
    forall i | 0 <= i < |q.pending|
      ensures q.pending[i].eventId != e.eventId
    {
      assert q.pending[i].eventId in PendingIds(q.pending);
    }
    forall i | 0 <= i < |q.processed|
      ensures q.processed[i] != e.eventId
    {
      assert q.processed[i] in SetOf(q.processed);
    }
  }

  lemma DeferKeepsInv(q: Queue, id: string, reason: string, at: int)
    requires QueueInv(q)
    ensures QueueInv(Defer(q, id, reason, at).0)
  {
    PutDeferredIds(q.deferred, DeferredEvent(id, reason, at));
    PutDeferredDistinct(q.deferred, DeferredEvent(id, reason, at));
  }

  lemma DropKeepsInv(q: Queue, ids: set<string>, requested: set<string>, id: string)
    requires QueueInv(q)
    ensures QueueInv(q.(pending := KeepEvents(q.pending, ids), deferred := KeepDeferred(q.deferred, ids)))
    ensures QueueInv(Remove(q, id).0) && QueueInv(Rearm(q, id).0) && QueueInv(DiscardDeferred(q, requested))
  {
    forall drop
      ensures QueueInv(q.(pending := KeepEvents(q.pending, drop), deferred := KeepDeferred(q.deferred, drop)))
    {
      KeepEventsFacts(q.pending, drop);
      KeepEventsDistinct(q.pending, drop);
      KeepDeferredFacts(q.deferred, drop);
      KeepDeferredDistinct(q.deferred, drop);
    }
    KeepDeferredFacts(q.deferred, {id});
    KeepDeferredDistinct(q.deferred, {id});
  }

  lemma RememberKeepsInv(q: Queue, r: CompletedRecording)
    requires QueueInv(q)
    ensures QueueInv(Remember(q, r).0)
  {
    if r.fingerprint !in Fingerprints(q.completed) {
      forall i | 0 <= i < |q.completed|
        ensures q.completed[i].fingerprint != r.fingerprint
      {
        assert q.completed[i].fingerprint in Fingerprints(q.completed);
      }
    }
  }

  // ---- runs ----

  datatype Op =
    | Add(event: CloudEvent)
    | Drop(id: string)
    | Postpone(id: string, reason: string, at: int)
    | Restore(id: string)
    | Clear(ids: set<string>)
    | Complete(recording: CompletedRecording)

  function Apply(q: Queue, op: Op): Queue {
    match op
    case Add(e) => Enqueue(q, e).0
    case Drop(id) => Remove(q, id).0
    case Postpone(id, reason, at) => Defer(q, id, reason, at).0
    case Restore(id) => Rearm(q, id).0
    case Clear(ids) => DiscardDeferred(q, ids)
    case Complete(r) => Remember(q, r).0
  }

  function Run(q: Queue, ops: seq<Op>): Queue
    decreases |ops|
  {
    if ops == [] then q else Run(Apply(q, ops[0]), ops[1..])
  }

  predicate Accepts(q: Queue, op: Op) {
    op.Add? && Enqueue(q, op.event).1
  }

  function AcceptedIn(q: Queue, ops: seq<Op>): nat
    decreases |ops|
  {
    if ops == [] then 0
    else (if Accepts(q, ops[0]) then 1 else 0) + AcceptedIn(Apply(q, ops[0]), ops[1..])
  }

  lemma ApplyKeepsInv(q: Queue, op: Op)
    requires QueueInv(q)
    ensures QueueInv(Apply(q, op))
  {
    hide QueueInv, Enqueue, Defer, Remember, Remove, Rearm, DiscardDeferred;
    match op
    case Add(e) => EnqueueKeepsInv(q, e);
    case Postpone(id, reason, at) => DeferKeepsInv(q, id, reason, at);
    case Complete(r) => RememberKeepsInv(q, r);
    case Drop(id) => DropKeepsInv(q, {}, {}, id);
    case Restore(id) => DropKeepsInv(q, {}, {}, id);
    case Clear(ids) => DropKeepsInv(q, {}, ids, "");
  }

  lemma {:induction false} RunKeepsInv(q: Queue, ops: seq<Op>)
    requires QueueInv(q)
    ensures QueueInv(Run(q, ops))
    decreases |ops|
  {
    hide QueueInv, Apply;
    if ops != [] {
      ApplyKeepsInv(q, ops[0]);
      RunKeepsInv(Apply(q, ops[0]), ops[1..]);
    }
  }

  // ---- the dedupe window ----

  /** `id` is listed with exactly `further` ids accepted after it. */
  ghost predicate ListedBehind(q: Queue, id: string, further: nat) {
    further < |q.processed| && q.processed[|q.processed| - 1 - further] == id
  }

  lemma WindowStep(q: Queue, op: Op, id: string, further: nat)
    requires ListedBehind(q, id, further)
    requires further + (if Accepts(q, op) then 1 else 0) < MAX_PROCESSED_EVENT_IDS
    ensures ListedBehind(Apply(q, op), id, further + (if Accepts(q, op) then 1 else 0))
  {
    hide PendingIds, DeferredIds, Fingerprints, KeepEvents, KeepDeferred, PutDeferred;
  }

  lemma {:induction false} WindowRun(q: Queue, ops: seq<Op>, id: string, further: nat)
    requires QueueInv(q) && ListedBehind(q, id, further)
    requires further + AcceptedIn(q, ops) < MAX_PROCESSED_EVENT_IDS
    ensures ListedBehind(Run(q, ops), id, further + AcceptedIn(q, ops))
    decreases |ops|
  {
    hide QueueInv, Apply, ListedBehind, Accepts;
    if ops != [] {
      ApplyKeepsInv(q, ops[0]);
      WindowStep(q, ops[0], id, further);
      WindowRun(Apply(q, ops[0]), ops[1..], id, further + (if Accepts(q, ops[0]) then 1 else 0));
    }
  }

  lemma AcceptedIsListed(q: Queue, e: CloudEvent)
    requires QueueInv(q) && Accepts(q, Add(e))
    ensures ListedBehind(Apply(q, Add(e)), e.eventId, 0)
  {
  }

  /** An accepted id is rejected again while it is pending and until at least
      512 further ids have been accepted, whatever else happens to the queue. */
  lemma DedupeWindow(q: Queue, e: CloudEvent, ops: seq<Op>, again: CloudEvent)
    requires QueueInv(q) && Accepts(q, Add(e)) && again.eventId == e.eventId
    requires var q1 := Apply(q, Add(e));
             AcceptedIn(q1, ops) < MAX_PROCESSED_EVENT_IDS || e.eventId in PendingIds(Run(q1, ops).pending)
    ensures var q2 := Run(Apply(q, Add(e)), ops); Enqueue(q2, again) == (q2, false)
  {
    hide Apply, Run, AcceptedIn, Accepts;
    var q1 := Apply(q, Add(e));
    ApplyKeepsInv(q, Add(e));
    RunKeepsInv(q1, ops);
    var q2 := Run(q1, ops);
    if AcceptedIn(q1, ops) < MAX_PROCESSED_EVENT_IDS {
      AcceptedIsListed(q, e);
      WindowRun(q1, ops, e.eventId, 0);
      assert e.eventId in SetOf(q2.processed);
    }
  }

  /** The window is no longer than that: with a full list that no load has
      lengthened, the 512th acceptance after it makes a non-pending id new again. */
  lemma DedupeWindowIsTight(q: Queue, id: string, next: CloudEvent, again: CloudEvent)
    requires QueueInv(q) && |q.processed| == MAX_PROCESSED_EVENT_IDS
    requires ListedBehind(q, id, MAX_PROCESSED_EVENT_IDS - 1) && id !in PendingIds(q.pending)
    requires Accepts(q, Add(next)) && again.eventId == id
    ensures Accepts(Apply(q, Add(next)), Add(again))
  {
    assert id in SetOf(q.processed);
    assert PendingIds(q.pending + [next]) == PendingIds(q.pending) + {next.eventId};
  }

  // ---- after the window ----

  /** Known, but no longer listed: nothing but a load will forget this id. */
  ghost predicate Stuck(q: Queue, id: string) {
    id in q.known && id !in q.processed
  }

  lemma StaysStuck(q: Queue, op: Op, id: string)
    requires Stuck(q, id)
    ensures Stuck(Apply(q, op), id)
  {
    hide PendingIds, DeferredIds, Fingerprints, KeepEvents, KeepDeferred, PutDeferred;
    if op.Add? && Accepts(q, op) {
      var listed := q.processed + [op.event.eventId];
      assert id !in listed && (q.processed != [] ==> listed[0] in q.processed);
    }
  }

  lemma {:induction false} StuckForever(q: Queue, ops: seq<Op>, id: string)
    requires Stuck(q, id)
    ensures Stuck(Run(q, ops), id)
    decreases |ops|
  {
    hide Apply, Stuck;
    if ops != [] {
      StaysStuck(q, ops[0], id);
      StuckForever(Apply(q, ops[0]), ops[1..], id);
    }
  }

  /** `next` is accepted and drops the oldest listed id from the full list. */
  ghost predicate Drops(q: Queue, next: CloudEvent, id: string) {
    Accepts(q, Add(next)) && |q.processed| >= MAX_PROCESSED_EVENT_IDS && q.processed[0] == id
  }

  lemma DroppedWhilePending(q: Queue, next: CloudEvent, id: string)
    requires QueueInv(q) && Drops(q, next, id)
    ensures id in PendingIds(q.pending) ==> Stuck(Apply(q, Add(next)), id)
    ensures id !in PendingIds(q.pending) ==> id !in Apply(q, Add(next)).known
  {
    assert id in SetOf(q.processed);
    assert PendingIds(q.pending + [next]) == PendingIds(q.pending) + {next.eventId};
    assert forall i :: 0 < i < |q.processed| ==> q.processed[i] != q.processed[0];
  }

  /** What the window leaves: an id that the list drops can be accepted again, some
      time before the next load, if and only if its event was not pending when it was
      dropped. Otherwise it is rejected for good, even when its event is gone. */
  lemma AcceptedAgainIff(q: Queue, next: CloudEvent, again: CloudEvent)
    requires QueueInv(q) && Drops(q, next, again.eventId)
    ensures (exists ops :: Accepts(Run(Apply(q, Add(next)), ops), Add(again)))
            <==> again.eventId !in PendingIds(q.pending)
  {
    var q1 := Apply(q, Add(next));
    DroppedWhilePending(q, next, again.eventId);
    hide Apply, Drops, QueueInv;
    if again.eventId in PendingIds(q.pending) {
      forall ops
        ensures !Accepts(Run(q1, ops), Add(again))
      {
        StuckForever(q1, ops, again.eventId);
      }
    } else {
      assert Accepts(Run(q1, []), Add(again));
    }
  }

  function Named(n: nat): CloudEvent {
    CloudEvent(seq(n, _ => 'x'), AndroidNotification, 0, None, Detail("", "", [], "", "", ""))
  }

  /** One event waits while others come and are completed. */
  ghost predicate Waiting(q: Queue, n: nat) {
    && q.pending == [Named(0)] && q.deferred == [] && QueueInv(q)
    && |q.processed| == n + 1 && q.processed[0] == Named(0).eventId
    && (forall id :: id in q.known ==> |id| <= n)
  }

  lemma TwoOps(q: Queue, a: Op, b: Op)
    ensures Run(q, [a, b]) == Apply(Apply(q, a), b)
  {
    hide Apply;
    assert [a, b][1..] == [b] && [b][1..] == [];
    assert Run(Apply(q, a), [b]) == Apply(Apply(q, a), b);
  }

  lemma OneComesAndGoes(q: Queue, n: nat)
    requires Waiting(q, n) && n + 2 <= MAX_PROCESSED_EVENT_IDS
    ensures Waiting(Run(q, [Add(Named(n + 1)), Drop(Named(n + 1).eventId)]), n + 1)
  {
    var id := Named(n + 1).eventId;
    assert |id| == n + 1 && |Named(0).eventId| == 0;
    var q1 := Apply(q, Add(Named(n + 1)));
    var q2 := Apply(q1, Drop(id));
    ApplyKeepsInv(q, Add(Named(n + 1)));
    ApplyKeepsInv(q1, Drop(id));
    assert q1.pending == [Named(0), Named(n + 1)];
    hide QueueInv, Named;
    assert KeepEvents(q1.pending[1..], {id}) == [];
    assert q2.pending == [Named(0)];
    TwoOps(q, Add(Named(n + 1)), Drop(id));
  }

  lemma {:induction false} RunJoined(q: Queue, first: seq<Op>, second: seq<Op>)
    ensures Run(q, first + second) == Run(Run(q, first), second)
    decreases |first|
  {
    hide Apply;
    if first == [] {
      assert first + second == second;
    } else {
      RunJoined(Apply(q, first[0]), first[1..], second);
      assert (first + second)[1..] == first[1..] + second;
    }
  }

  lemma {:induction false} ManyComeAndGo(n: nat) returns (ops: seq<Op>)
    requires n < MAX_PROCESSED_EVENT_IDS
    ensures Waiting(Run(EMPTY_QUEUE, ops), n)
  {
    if n == 0 {
      ops := [Add(Named(0))];
      ApplyKeepsInv(EMPTY_QUEUE, Add(Named(0)));
      assert [Add(Named(0))][1..] == [];
    } else {
      var before := ManyComeAndGo(n - 1);
      OneComesAndGoes(Run(EMPTY_QUEUE, before), n - 1);
      hide Waiting;
      ops := before + [Add(Named(n)), Drop(Named(n).eventId)];
      RunJoined(EMPTY_QUEUE, before, [Add(Named(n)), Drop(Named(n).eventId)]);
    }
  }

  /** It does happen: from an empty queue, an event that waits through 512 further
      acceptances leaves an id that is rejected for good after the event is gone. */
  lemma AnIdGetsStuck() returns (ops: seq<Op>)
    ensures var q := Run(EMPTY_QUEUE, ops);
            q.pending == [] && Stuck(q, Named(0).eventId)
            && forall more :: !Accepts(Run(q, more), Add(Named(0)))
  {
    var before := ManyComeAndGo(MAX_PROCESSED_EVENT_IDS - 1);
    var q := Run(EMPTY_QUEUE, before);
    var next := Named(MAX_PROCESSED_EVENT_IDS);
    assert |next.eventId| == MAX_PROCESSED_EVENT_IDS && |Named(0).eventId| == 0;
    assert Named(0) in q.pending;
    DroppedWhilePending(q, next, Named(0).eventId);
    var q1 := Apply(q, Add(next));
    assert q1.pending == [Named(0), next];
    var rest := [Drop(Named(0).eventId), Drop(next.eventId)];
    ops := before + ([Add(next)] + rest);
    RunJoined(EMPTY_QUEUE, before, [Add(next)] + rest);
    RunJoined(q, [Add(next)], rest);
    assert [Add(next)][1..] == [];
    StuckForever(q1, rest, Named(0).eventId);
    BothGone(q1, Named(0), next);
    hide Apply, Waiting, QueueInv, Named;
    var end := Run(EMPTY_QUEUE, ops);
    forall more
      ensures !Accepts(Run(end, more), Add(Named(0)))
    {
      StuckForever(end, more, Named(0).eventId);
    }
  }

  lemma BothGone(q: Queue, e: CloudEvent, f: CloudEvent)
    requires q.pending == [e, f]
    ensures Run(q, [Drop(e.eventId), Drop(f.eventId)]).pending == []
  {
    TwoOps(q, Drop(e.eventId), Drop(f.eventId));
    assert [e, f][1..] == [f] && [f][1..] == [];
    var left := KeepEvents([f], {e.eventId});
    assert KeepEvents([f][1..], {e.eventId}) == [] && KeepEvents([f][1..], {f.eventId}) == [];
    assert left == [] || left == [f];
    assert KeepEvents([e, f], {e.eventId}) == left && KeepEvents(left, {f.eventId}) == [];
  }

  // ---- save and load ----

  function ReadAll(p: seq<CloudEvent>): (r: seq<CloudEvent>)
    ensures |r| == |p| && forall i :: 0 <= i < |p| ==> r[i] == ReadEvent(p[i])
  {
    if p == [] then [] else ReadAll(p[..|p| - 1]) + [ReadEvent(p[|p| - 1])]
  }

  function ReadAllDeferred(p: seq<DeferredEvent>): (r: seq<DeferredEvent>)
    ensures |r| == |p| && forall i :: 0 <= i < |p| ==> r[i] == ReadDeferred(p[i])
  {
    if p == [] then [] else ReadAllDeferred(p[..|p| - 1]) + [ReadDeferred(p[|p| - 1])]
  }

  lemma WrittenPrefix<T>(p: seq<T>, n: nat)
    requires n <= |p|
    ensures Written(p)[..n] == Written(p[..n])
  {
    hide Written;
    assert forall i :: 0 <= i < n ==> Written(p)[..n][i] == Written(p[..n])[i];
  }

  lemma {:induction false} EventsReadBack(p: seq<CloudEvent>)
    ensures ReadEvents(Written(p)) == ReadAll(p)
    decreases |p|
  {
    if p != [] {
      var n := |p| - 1;
      EventsReadBack(p[..n]);
      WrittenPrefix(p, n);
    }
  }

  lemma {:induction false} RecordingsReadBack(p: seq<CompletedRecording>)
    ensures ReadRecordings(Written(p)) == p
    decreases |p|
  {
    if p != [] {
      var n := |p| - 1;
      RecordingsReadBack(p[..n]);
      WrittenPrefix(p, n);
      assert p == p[..n] + [p[n]];
    }
  }

  lemma {:induction false} DeferralsReadBack(p: seq<DeferredEvent>, ids: set<string>)
    requires DistinctDeferred(p) && forall i :: 0 <= i < |p| ==> p[i].eventId in ids
    ensures ReadDeferrals(Written(p), ids) == ReadAllDeferred(p)
    decreases |p|
  {
    hide Written, PutDeferred;
    if p != [] {
      var n := |p| - 1;
      DeferralsReadBack(p[..n], ids);
      WrittenPrefix(p, n);
      var before := ReadAllDeferred(p[..n]);
      assert forall i :: 0 <= i < n ==> before[i] == ReadDeferred(p[..n][i]);
      PutAbsent(before, ReadDeferred(p[n]));
    }
  }

  lemma {:induction false} AppendUnknownFacts(p: seq<string>, events: seq<CloudEvent>)
    requires DistinctIds(p)
    ensures var (p', k') := AppendUnknown(p, SetOf(p), events);
            && k' == SetOf(p) + PendingIds(events) && k' == SetOf(p')
            && DistinctIds(p') && |p'| <= |p| + |events|
    decreases |events|
  {
    if events != [] {
      var n := |events| - 1;
      AppendUnknownFacts(p, events[..n]);
      var (p1, k1) := AppendUnknown(p, SetOf(p), events[..n]);
      assert events == events[..n] + [events[n]];
      assert PendingIds(events) == PendingIds(events[..n]) + {events[n].eventId};
      var id := events[n].eventId;
      if id !in k1 {
        assert SetOf(p1 + [id]) == SetOf(p1) + {id};
        forall i | 0 <= i < |p1|
          ensures p1[i] != id
        {
          assert p1[i] in SetOf(p1);
        }
      }
    }
  }

  lemma LastDistinct(s: seq<string>, n: nat)
    requires DistinctIds(s)
    ensures DistinctIds(Last(s, n)) && SetOf(Last(s, n)) <= SetOf(s)
  {
  }

  /** Loading what was saved restores the pending, completed and deferred parts
      up to the codec's defaults; the truncations drop nothing. The restored
      dedupe set is the newest 512 listed ids and the pending ids. */
  lemma LoadAfterSave(q: Queue)
    requires QueueInv(q)
    ensures var r := Load(EMPTY_QUEUE, Some(AsStorage(q)));
            && r.pending == ReadAll(q.pending)
            && r.completed == q.completed
            && r.deferred == ReadAllDeferred(q.deferred)
            && r.known == SetOf(Last(q.processed, MAX_PROCESSED_EVENT_IDS)) + PendingIds(q.pending)
            && QueueInv(r)
  {
    hide ReadAll, ReadAllDeferred, ReadEvents, ReadRecordings, ReadDeferrals, AppendUnknown, PendingIds, DeferredIds,
      SetOf, Written;
    DeferredFitsPending(q);
    LastDistinct(q.processed, MAX_PROCESSED_EVENT_IDS);
    EventsReadBack(q.pending);
    RecordingsReadBack(q.completed);
    AppendUnknownFacts(Last(q.processed, MAX_PROCESSED_EVENT_IDS), ReadAll(q.pending));
    SameIds(q.pending);
    forall i | 0 <= i < |q.deferred|
      ensures q.deferred[i].eventId in PendingIds(q.pending)
    {
      Among(q.deferred, i);
    }
    DeferralsReadBack(q.deferred, PendingIds(q.pending));
    SameDeferredIds(q.deferred);
    assert DistinctEvents(ReadAll(q.pending)) && DistinctDeferred(ReadAllDeferred(q.deferred));
  }

  lemma SameIds(p: seq<CloudEvent>)
    ensures PendingIds(ReadAll(p)) == PendingIds(p)
  {
    var r := ReadAll(p);
    forall id | id in PendingIds(p)
      ensures id in PendingIds(r)
    {
      var i :| 0 <= i < |p| && p[i].eventId == id;
      assert r[i].eventId == id;
    }
    forall id | id in PendingIds(r)
      ensures id in PendingIds(p)
    {
      var i :| 0 <= i < |r| && r[i].eventId == id;
      assert p[i].eventId == id;
    }
  }

  lemma SameDeferredIds(p: seq<DeferredEvent>)
    ensures DeferredIds(ReadAllDeferred(p)) == DeferredIds(p)
  {
    var r := ReadAllDeferred(p);
    forall id | id in DeferredIds(p)
      ensures id in DeferredIds(r)
    {
      var i :| 0 <= i < |p| && p[i].eventId == id;
      assert r[i].eventId == id;
    }
    forall id | id in DeferredIds(r)
      ensures id in DeferredIds(p)
    {
      var i :| 0 <= i < |r| && r[i].eventId == id;
      assert p[i].eventId == id;
    }
  }

  lemma EventsExact(p: seq<CloudEvent>)
    ensures ReadAll(p) == p <==> forall e :: e in p ==> e.source != Unnamed
  {
    hide ReadAll;
    if ReadAll(p) == p {
      forall i | 0 <= i < |p|
        ensures p[i].source != Unnamed
      {
        assert ReadAll(p)[i] == ReadEvent(p[i]);
      }
    }
    if forall e :: e in p ==> e.source != Unnamed {
      forall i | 0 <= i < |p|
        ensures ReadAll(p)[i] == p[i]
      {
        assert p[i] in p;
      }
    }
  }

  lemma DeferralsExact(p: seq<DeferredEvent>)
    ensures ReadAllDeferred(p) == p <==> forall d :: d in p ==> d.reason != ""
  {
    hide ReadAllDeferred;
    if ReadAllDeferred(p) == p {
      forall i | 0 <= i < |p|
        ensures p[i].reason != ""
      {
        assert ReadAllDeferred(p)[i] == ReadDeferred(p[i]);
      }
    }
    if forall d :: d in p ==> d.reason != "" {
      forall i | 0 <= i < |p|
        ensures ReadAllDeferred(p)[i] == p[i]
      {
        assert p[i] in p;
      }
    }
  }

  /** The parts are restored exactly if and only if no stored field is one that
      the codec replaces by a default. */
  lemma RoundTripIsExact(q: Queue)
    requires QueueInv(q)
    ensures var r := Load(EMPTY_QUEUE, Some(AsStorage(q)));
            (r.pending == q.pending && r.completed == q.completed && r.deferred == q.deferred)
            <==> && (forall e :: e in q.pending ==> e.source != Unnamed)
                 && (forall d :: d in q.deferred ==> d.reason != "")
  {
    hide *;
    LoadAfterSave(q);
    EventsExact(q.pending);
    DeferralsExact(q.deferred);
  }
}
