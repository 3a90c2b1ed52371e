/** The order of the event queue: which event an overflow evicts, how long an
    accepted event stays, and the dedupe window across a restart. */
module QueueOrder {
  import opened Basics
  import opened Events
  import opened QueueTheorems

  // ---- what leaves the queue ----

  /** The operation asks for the removal of this event. */
  predicate Removes(q: Queue, op: Op, id: string) {
    op == Drop(id) || (op.Clear? && id in op.ids && IsDeferred(q, id))
  }

  predicate Evicts(q: Queue, op: Op, e: CloudEvent) {
    Accepts(q, op) && |q.pending| == MAX_PENDING_EVENTS && q.pending[0] == e
  }

  lemma {:induction false} KeptInOrder(p: seq<CloudEvent>, drop: set<string>, i: nat) returns (j: nat)
    requires i < |p| && p[i].eventId !in drop
    ensures var k := KeepEvents(p, drop); j < |k| && k[j] == p[i] && |k| - j <= |p| - i
    decreases |p|
  {
    var rest := KeepEvents(p[1..], drop);
    if i == 0 {
      j := 0;
      KeepEventsShrinks(p[1..], drop);
    } else {
      var n := KeptInOrder(p[1..], drop, i - 1);
      j := if p[0].eventId in drop then n else n + 1;
    }
  }

  lemma {:induction false} KeepEventsShrinks(p: seq<CloudEvent>, drop: set<string>)
    ensures |KeepEvents(p, drop)| <= |p|
    decreases |p|
  {
    if p != [] {
      KeepEventsShrinks(p[1..], drop);
    }
  }

  lemma DiscardedIff(q: Queue, ids: set<string>, e: CloudEvent)
    requires e in q.pending
    ensures e.eventId in Discarded(q, ids) <==> e.eventId in ids && IsDeferred(q, e.eventId)
  {
  }

  /** A pending event leaves the queue if and only if it is removed by its id, is
      discarded while deferred, or is the oldest of 100 when one more is accepted. */
  lemma LeavesIff(q: Queue, op: Op, e: CloudEvent)
    requires QueueInv(q) && e in q.pending
    ensures e !in Apply(q, op).pending <==> Removes(q, op, e.eventId) || Evicts(q, op, e)
  {
    match op
    case Drop(id) => KeepEventsFacts(q.pending, {id});
    case Clear(ids) =>
      KeepEventsFacts(q.pending, Discarded(q, ids));
      DiscardedIff(q, ids, e);
    case Add(f) =>
      hide PendingIds, DeferredIds, KeepDeferred, Fingerprints;
      var pending := q.pending + [f];
      assert forall i :: 0 < i < |pending| ==> pending[1..][i - 1] == pending[i];
    case _ =>
  }

  /** Nothing enters but by being accepted. */
  lemma EntersIff(q: Queue, op: Op, e: CloudEvent)
    requires QueueInv(q) && e !in q.pending
    ensures e in Apply(q, op).pending <==> op == Add(e) && Accepts(q, op)
  {
    match op
    case Drop(id) => KeepEventsFacts(q.pending, {id});
    case Clear(ids) => KeepEventsFacts(q.pending, Discarded(q, ids));
    case Add(f) =>
      hide PendingIds, DeferredIds, KeepDeferred, Fingerprints, QueueInv;
      var pending := q.pending + [f];
      assert |q.pending| == 0 ==> pending == [f];
      assert pending[|q.pending|] == f;
    case _ =>
  }

  /** `e` is pending with at most `behind` events behind it. */
  ghost predicate PendingBefore(q: Queue, e: CloudEvent, behind: nat) {
    exists i :: 0 <= i < |q.pending| && q.pending[i] == e && |q.pending| - 1 - i <= behind
  }

  lemma StaysStep(q: Queue, op: Op, e: CloudEvent, behind: nat)
    requires QueueInv(q) && PendingBefore(q, e, behind) && !Removes(q, op, e.eventId)
    requires behind + (if Accepts(q, op) then 1 else 0) < MAX_PENDING_EVENTS
    ensures PendingBefore(Apply(q, op), e, behind + if Accepts(q, op) then 1 else 0)
  {
    var i :| 0 <= i < |q.pending| && q.pending[i] == e && |q.pending| - 1 - i <= behind;
    match op
    case Drop(id) => var j := KeptInOrder(q.pending, {id}, i);
    case Clear(ids) =>
      DiscardedIff(q, ids, e);
      var j := KeptInOrder(q.pending, Discarded(q, ids), i);
    case Add(f) =>
      hide PendingIds, DeferredIds, KeepDeferred, Fingerprints;
      var pending := q.pending + [f];
      assert pending[i] == e;
      assert i > 0 ==> pending[1..][i - 1] == e;
    case _ =>
  }

  ghost predicate NeverRemoved(q: Queue, ops: seq<Op>, id: string)
    decreases |ops|
  {
    ops != [] ==> !Removes(q, ops[0], id) && NeverRemoved(Apply(q, ops[0]), ops[1..], id)
  }

  lemma {:induction false} StaysRun(q: Queue, ops: seq<Op>, e: CloudEvent, behind: nat)
    requires QueueInv(q) && PendingBefore(q, e, behind) && NeverRemoved(q, ops, e.eventId)
    requires behind + AcceptedIn(q, ops) < MAX_PENDING_EVENTS
    ensures PendingBefore(Run(q, ops), e, behind + AcceptedIn(q, ops))
    decreases |ops|
  {
    hide QueueInv, Apply, PendingBefore, Accepts, Removes;
    if ops != [] {
      ApplyKeepsInv(q, ops[0]);
      StaysStep(q, ops[0], e, behind);
      StaysRun(Apply(q, ops[0]), ops[1..], e, behind + if Accepts(q, ops[0]) then 1 else 0);
    }
  }

  /** An accepted event stays pending through 99 further acceptances, whatever else
      happens to the queue, unless its own removal is asked for. */
  lemma AcceptedStaysPending(q: Queue, e: CloudEvent, ops: seq<Op>)
    requires QueueInv(q) && Accepts(q, Add(e))
    requires NeverRemoved(Apply(q, Add(e)), ops, e.eventId)
    requires AcceptedIn(Apply(q, Add(e)), ops) < MAX_PENDING_EVENTS
    ensures e in Run(Apply(q, Add(e)), ops).pending
  {
    var q1 := Apply(q, Add(e));
    ApplyKeepsInv(q, Add(e));
    assert q1.pending[|q1.pending| - 1] == e;
    hide QueueInv, Apply, Run, AcceptedIn, NeverRemoved;
    assert PendingBefore(q1, e, 0);
    StaysRun(q1, ops, e, 0);
  }

  // ---- deferrals ----

  lemma {:induction false} PutKeepsOthers(p: seq<DeferredEvent>, d: DeferredEvent, x: DeferredEvent)
    requires x.eventId != d.eventId
    ensures x in PutDeferred(p, d) <==> x in p
    decreases |p|
  {
    if p != [] {
      assert p == [p[0]] + p[1..];
      if p[0].eventId != d.eventId {
        PutKeepsOthers(p[1..], d, x);
      }
    }
  }

  lemma IsListed(p: seq<DeferredEvent>, d: DeferredEvent)
    requires d in p
    ensures d.eventId in DeferredIds(p)
  {
  }

  /** An event that stays pending is deferred afterwards if and only if it was and is
      not rearmed, or is deferred now; a new deferral replaces the old one. */
  lemma DeferredIff(q: Queue, op: Op, e: CloudEvent)
    requires QueueInv(q) && e in q.pending && e in Apply(q, op).pending
    ensures IsDeferred(Apply(q, op), e.eventId)
            <==> (IsDeferred(q, e.eventId) && op != Restore(e.eventId)) || (op.Postpone? && op.id == e.eventId)
    ensures op.Postpone? && op.id == e.eventId ==>
              DeferredEvent(op.id, op.reason, op.at) in Apply(q, op).deferred
  {
    LeavesIff(q, op, e);
    match op
    case Drop(id) => KeepDeferredFacts(q.deferred, {id});
    case Restore(id) => KeepDeferredFacts(q.deferred, {id});
    case Clear(ids) =>
      DiscardedIff(q, ids, e);
      KeepDeferredFacts(q.deferred, Discarded(q, ids));
    case Add(f) => EvictionKeepsDeferral(q, f, e);
    case Postpone(id, reason, at) =>
      assert e.eventId in PendingIds(q.pending);
      var d := DeferredEvent(id, reason, at);
      PutDeferredIds(q.deferred, d);
      if d in q.deferred {
        IsListed(q.deferred, d);
      }
      hide DeferredIds, PutDeferred, PendingIds, QueueInv;
    case _ =>
  }

  lemma EvictionKeepsDeferral(q: Queue, f: CloudEvent, e: CloudEvent)
    requires QueueInv(q) && e in q.pending && !Evicts(q, Add(f), e)
    ensures IsDeferred(Enqueue(q, f).0, e.eventId) <==> IsDeferred(q, e.eventId)
  {
    var pending := q.pending + [f];
    KeepDeferredFacts(q.deferred, {pending[0].eventId});
    var i :| 0 <= i < |q.pending| && q.pending[i] == e;
    assert |pending| > MAX_PENDING_EVENTS ==> pending[0] == q.pending[0];
  }

  // ---- what the operations report ----

  lemma {:induction false} NothingDropped(p: seq<CloudEvent>, drop: set<string>)
    requires forall e :: e in p ==> e.eventId !in drop
    ensures KeepEvents(p, drop) == p
    decreases |p|
  {
    if p != [] {
      NothingDropped(p[1..], drop);
    }
  }

  lemma {:induction false} NothingRearmed(p: seq<DeferredEvent>, drop: set<string>)
    requires DeferredIds(p) !! drop
    ensures KeepDeferred(p, drop) == p
    decreases |p|
  {
    if p != [] {
      DeferredIdsOfCons(p[0], p[1..]);
      assert p == [p[0]] + p[1..];
      NothingRearmed(p[1..], drop);
    }
  }

  lemma RemovalIsReported(q: Queue, id: string)
    requires QueueInv(q)
    ensures Remove(q, id).1 <==> Remove(q, id).0 != q
    ensures Remove(q, id).1 <==> id in PendingIds(q.pending)
  {
    KeepEventsFacts(q.pending, {id});
    if id in PendingIds(q.pending) {
      var e :| e in q.pending && e.eventId == id;
      assert e !in KeepEvents(q.pending, {id});
    } else {
      NothingDropped(q.pending, {id});
      NothingRearmed(q.deferred, {id});
    }
    hide KeepEvents, KeepDeferred, DeferredIds;
    if |KeepEvents(q.pending, {id})| == |q.pending| && id in PendingIds(q.pending) {
      LengthTells(q.pending, id);
    }
  }

  lemma {:induction false} LengthTells(p: seq<CloudEvent>, id: string)
    requires exists e :: e in p && e.eventId == id
    ensures |KeepEvents(p, {id})| < |p|
    decreases |p|
  {
    KeepEventsShrinks(p[1..], {id});
    if p[0].eventId != id {
      LengthTells(p[1..], id);
    }
  }

  /** Each operation reports exactly whether it changed the queue. */
  lemma ReportsAreExact(q: Queue, e: CloudEvent, id: string, reason: string, at: int, r: CompletedRecording)
    requires QueueInv(q)
    ensures Enqueue(q, e).1 <==> Enqueue(q, e).0 != q
    ensures Remove(q, id).1 <==> Remove(q, id).0 != q
    ensures Defer(q, id, reason, at).1 <==> Defer(q, id, reason, at).0 != q
    ensures Rearm(q, id).1 <==> Rearm(q, id).0 != q
    ensures Remember(q, r).1 <==> Remember(q, r).0 != q
  {
    RemovalIsReported(q, id);
    AcceptanceChanges(q, e);
    PutDeferredIds(q.deferred, DeferredEvent(id, reason, at));
    KeepDeferredFacts(q.deferred, {id});
    if !IsDeferred(q, id) {
      NothingRearmed(q.deferred, {id});
    }
    RememberChanges(q, r);
    hide Enqueue, Remove, Remember, PutDeferred, KeepDeferred, DeferredIds, PendingIds, QueueInv;
  }

  lemma AcceptanceChanges(q: Queue, e: CloudEvent)
    requires QueueInv(q)
    ensures Enqueue(q, e).1 <==> Enqueue(q, e).0 != q
  {
    hide KeepDeferred, DeferredIds, PendingIds;
    if Enqueue(q, e).1 {
      AcceptedIsListed(q, e);
      assert e.eventId !in SetOf(q.processed);
    }
  }

  lemma RememberChanges(q: Queue, r: CompletedRecording)
    ensures Remember(q, r).1 <==> Remember(q, r).0 != q
    ensures Remember(q, r).1 <==> r.fingerprint !in Fingerprints(q.completed)
  {
    if Remember(q, r).1 {
      var kept := Remember(q, r).0.completed;
      assert kept[|kept| - 1] == r;
    }
  }

  // ---- the dedupe list across a restart ----

  /** The ids of `events` that are not listed, in order. */
  function Unlisted(events: seq<CloudEvent>, listed: set<string>): seq<string> {
    if events == [] then []
    else
      Unlisted(events[..|events| - 1], listed)
      + if events[|events| - 1].eventId in listed then [] else [events[|events| - 1].eventId]
  }

  lemma {:induction false} AppendsUnlisted(p: seq<string>, known: set<string>, events: seq<CloudEvent>)
    requires DistinctEvents(events)
    ensures AppendUnknown(p, known, events) == (p + Unlisted(events, known), known + PendingIds(events))
    decreases |events|
  {
    if events != [] {
      var n := |events| - 1;
      AppendsUnlisted(p, known, events[..n]);
      assert events == events[..n] + [events[n]];
      var id := events[n].eventId;
      assert PendingIds(events) == PendingIds(events[..n]) + {id};
      assert id !in PendingIds(events[..n]);
      hide PendingIds, DistinctEvents;
      var before := Unlisted(events[..n], known);
      var (p1, k1) := AppendUnknown(p, known, events[..n]);
      assert p1 == p + before && k1 == known + PendingIds(events[..n]);
      assert id in k1 <==> id in known;
      assert AppendUnknown(p, known, events) == if id in k1 then (p1, k1) else (p1 + [id], k1 + {id});
      assert Unlisted(events, known) == if id in known then before + [] else before + [id];
      assert before + [] == before;
      if id in known {
        assert known + PendingIds(events) == k1;
      } else {
        assert known + PendingIds(events) == k1 + {id};
        assert p1 + [id] == p + (before + [id]);
      }
    } else {
      assert p + [] == p && PendingIds(events) == {};
      assert known + {} == known;
    }
  }

  function Restarted(q: Queue): Queue {
    Load(EMPTY_QUEUE, Some(AsStorage(q)))
  }

  /** The pending ids that the saved part of the list does not hold. */
  function Appended(q: Queue): seq<string> {
    Unlisted(ReadAll(q.pending), SetOf(Last(q.processed, MAX_PROCESSED_EVENT_IDS)))
  }

  /** The list after a restart: its newest 512 entries in their order, and then the
      pending ids that are not among them, in the order of their acceptance. */
  lemma RestartedList(q: Queue)
    requires QueueInv(q)
    ensures Restarted(q).processed == Last(q.processed, MAX_PROCESSED_EVENT_IDS) + Appended(q)
  {
    hide ReadAll, AppendUnknown, ReadEvents, ReadRecordings, ReadDeferrals, SetOf, Written, PendingIds, Unlisted;
    EventsReadBack(q.pending);
    SameEvents(q.pending);
    AppendsUnlisted(Last(q.processed, MAX_PROCESSED_EVENT_IDS), SetOf(Last(q.processed, MAX_PROCESSED_EVENT_IDS)),
                    ReadAll(q.pending));
  }

  lemma SameEvents(p: seq<CloudEvent>)
    requires DistinctEvents(p)
    ensures DistinctEvents(ReadAll(p)) && |ReadAll(p)| == |p|
  {
  }

  /** Ids leave the list only when it is full. */
  ghost predicate FullOrListed(q: Queue) {
    |q.processed| >= MAX_PROCESSED_EVENT_IDS || PendingIds(q.pending) <= SetOf(q.processed)
  }

  lemma {:induction false} AllListed(events: seq<CloudEvent>, listed: set<string>)
    requires PendingIds(events) <= listed
    ensures Unlisted(events, listed) == []
    decreases |events|
  {
    if events != [] {
      var n := |events| - 1;
      assert events[n].eventId in PendingIds(events);
      assert forall e :: e in events[..n] ==> e in events;
      AllListed(events[..n], listed);
    }
  }

  lemma FullOrListedStep(q: Queue, op: Op)
    requires FullOrListed(q)
    ensures FullOrListed(Apply(q, op))
  {
    match op
    case Add(f) =>
      PendingIdsSnoc(q.pending, f);
      SetOfSnoc(q.processed, f.eventId);
      hide KeepDeferred, DeferredIds, Fingerprints;
      var pending := q.pending + [f];
      assert forall e :: e in pending[1..] ==> e in pending;
    case Drop(id) => KeepEventsFacts(q.pending, {id});
    case Clear(ids) => KeepEventsFacts(q.pending, Discarded(q, ids));
    case _ =>
  }

  lemma {:induction false} FullOrListedRun(q: Queue, ops: seq<Op>)
    requires FullOrListed(q)
    ensures FullOrListed(Run(q, ops))
    decreases |ops|
  {
    hide FullOrListed, Apply;
    if ops != [] {
      FullOrListedStep(q, ops[0]);
      FullOrListedRun(Apply(q, ops[0]), ops[1..]);
    }
  }

  function Window(q: Queue): nat {
    if |q.processed| > MAX_PROCESSED_EVENT_IDS then |q.processed| else MAX_PROCESSED_EVENT_IDS
  }

  lemma LongWindowStep(q: Queue, op: Op, id: string, further: nat)
    requires ListedBehind(q, id, further) && further + (if Accepts(q, op) then 1 else 0) < Window(q)
    ensures ListedBehind(Apply(q, op), id, further + (if Accepts(q, op) then 1 else 0))
    ensures Window(Apply(q, op)) == Window(q)
  {
    hide PendingIds, DeferredIds, Fingerprints, KeepEvents, KeepDeferred, PutDeferred;
  }

  lemma {:induction false} LongWindowRun(q: Queue, ops: seq<Op>, id: string, further: nat)
    requires ListedBehind(q, id, further) && further + AcceptedIn(q, ops) < Window(q)
    ensures ListedBehind(Run(q, ops), id, further + AcceptedIn(q, ops))
    decreases |ops|
  {
    hide Apply, ListedBehind, Accepts, Window;
    if ops != [] {
      LongWindowStep(q, ops[0], id, further);
      LongWindowRun(Apply(q, ops[0]), ops[1..], id, further + (if Accepts(q, ops[0]) then 1 else 0));
    }
  }

  lemma RestartedBehind(q: Queue, id: string, further: nat)
    requires QueueInv(q) && FullOrListed(q)
    requires ListedBehind(q, id, further) && further < MAX_PROCESSED_EVENT_IDS
    ensures ListedBehind(Restarted(q), id, further + |Appended(q)|)
    ensures further + |Appended(q)| < Window(Restarted(q))
    ensures Window(Restarted(q)) - |Appended(q)| == MAX_PROCESSED_EVENT_IDS
  {
    hide Restarted, Appended, QueueInv, SetOf, PendingIds;
    RestartedList(q);
    if |q.processed| < MAX_PROCESSED_EVENT_IDS {
      NothingAppended(q);
    }
  }

  lemma NothingAppended(q: Queue)
    requires |q.processed| < MAX_PROCESSED_EVENT_IDS && FullOrListed(q)
    ensures Appended(q) == []
  {
    hide SetOf, PendingIds, Unlisted, ReadAll;
    SameIds(q.pending);
    AllListed(ReadAll(q.pending), SetOf(q.processed));
  }

  lemma ListedIsRejected(q: Queue, id: string, further: nat, again: CloudEvent)
    requires QueueInv(q) && ListedBehind(q, id, further) && again.eventId == id
    ensures Enqueue(q, again) == (q, false)
  {
    assert id in SetOf(q.processed);
  }

  lemma RestartedRejects(q: Queue, id: string, further: nat, ops: seq<Op>, again: CloudEvent)
    requires QueueInv(q) && FullOrListed(q) && ListedBehind(q, id, further) && again.eventId == id
    requires further + AcceptedIn(Restarted(q), ops) < MAX_PROCESSED_EVENT_IDS
    ensures var end := Run(Restarted(q), ops); Enqueue(end, again) == (end, false)
  {
    hide FullOrListed, Run, AcceptedIn, Restarted, Appended, Window, QueueInv, ListedBehind, Enqueue;
    var r, behind := Restarted(q), further + |Appended(q)|;
    RestartedBehind(q, id, further);
    RestartedKeepsInv(q);
    LongWindowRun(r, ops, id, behind);
    RunKeepsInv(r, ops);
    ListedIsRejected(Run(r, ops), id, behind + AcceptedIn(r, ops), again);
  }

  /** A restart does not shorten the dedupe window: an accepted id is rejected until
      512 further ids have been accepted, those before a save and load and those after
      it together. */
  lemma WindowAcrossRestart(q: Queue, e: CloudEvent, before: seq<Op>, after: seq<Op>, again: CloudEvent)
    requires QueueInv(q) && FullOrListed(q) && Accepts(q, Add(e)) && again.eventId == e.eventId
    requires var saved := Run(Apply(q, Add(e)), before);
      AcceptedIn(Apply(q, Add(e)), before) + AcceptedIn(Restarted(saved), after) < MAX_PROCESSED_EVENT_IDS
    ensures var end := Run(Restarted(Run(Apply(q, Add(e)), before)), after); Enqueue(end, again) == (end, false)
  {
    hide FullOrListed, Apply, Run, AcceptedIn, Accepts, Restarted, QueueInv, ListedBehind, Enqueue;
    var q1 := Apply(q, Add(e));
    ApplyKeepsInv(q, Add(e));
    FullOrListedStep(q, Add(e));
    AcceptedIsListed(q, e);
    RunKeepsInv(q1, before);
    FullOrListedRun(q1, before);
    WindowRun(q1, before, e.eventId, 0);
    RestartedRejects(Run(q1, before), e.eventId, AcceptedIn(q1, before), after, again);
  }

  lemma RestartedKeepsInv(q: Queue)
    requires QueueInv(q)
    ensures QueueInv(Restarted(q)) && FullOrListed(Restarted(q)) && FullOrListed(EMPTY_QUEUE)
  {
    var kept := Last(q.processed, MAX_PROCESSED_EVENT_IDS);
    LoadAfterSave(q);
    RestartedList(q);
    LastDistinct(q.processed, MAX_PROCESSED_EVENT_IDS);
    SameEvents(q.pending);
    hide Load, AsStorage, QueueInv, SetOf, ReadAll, Unlisted, PendingIds;
    AppendUnknownFacts(kept, ReadAll(q.pending));
    AppendsUnlisted(kept, SetOf(kept), ReadAll(q.pending));
    assert PendingIds(EMPTY_QUEUE.pending) == {};
  }

  lemma KeptIff(processed: seq<string>, id: string)
    ensures id in SetOf(Last(processed, MAX_PROCESSED_EVENT_IDS))
            <==> exists i :: 0 <= i < |processed| && |processed| - MAX_PROCESSED_EVENT_IDS <= i && processed[i] == id
  {
    var kept := Last(processed, MAX_PROCESSED_EVENT_IDS);
    var cut := |processed| - |kept|;
    assert forall i :: cut <= i < |processed| ==> kept[i - cut] == processed[i];
    assert forall i :: 0 <= i < |kept| ==> kept[i] == processed[cut + i];
  }

  /** What a restart forgets: the ids that are neither pending nor among the newest
      512 of the list. */
  lemma KnownAfterRestartIff(q: Queue, id: string)
    requires QueueInv(q)
    ensures id in Restarted(q).known
            <==> id in PendingIds(q.pending)
                 || exists i :: 0 <= i < |q.processed| && |q.processed| - MAX_PROCESSED_EVENT_IDS <= i
                                && q.processed[i] == id
  {
    LoadAfterSave(q);
    hide Load, AsStorage, QueueInv, PendingIds, SetOf;
    KeptIff(q.processed, id);
  }
}
