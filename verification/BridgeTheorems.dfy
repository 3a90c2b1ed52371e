/** What wakes the worker: the exact outcome of every state change, one at a time,
    along chains, and for interleaved handlers. */
module BridgeTheorems {
  import opened Basics
  import opened Events
  import opened QueueTheorems
  import opened NotificationBridge
  import Handlers = BridgeHandlers

  // Times are in microseconds; rounding to milliseconds brings the five minutes
  // half a millisecond forward.
  const STALE_AGE := 299_999_500

  /** The state shows again what it showed before. */
  predicate Reposts(c: Change) {
    c.oldState.Some? && Notification(c).Some? && c.oldState.value.eventId == Notification(c).value.eventId
  }

  /** How long ago the notification of a change was posted, or, without a post time,
      its alarm raised. */
  function Age(c: Change): int
    requires Notification(c).Some?
  {
    var e := Notification(c).value;
    c.observedAt - match e.notificationPostTime case Some(posted) => posted case None => e.alarmTime
  }

  /** Such a repost, at least five minutes after the notification was posted. */
  predicate LateRepost(c: Change) {
    Reposts(c) && Age(c) >= STALE_AGE
  }

  /** The notification itself may wake the worker: it is at most ten minutes old and
      not a late repost. */
  predicate MayWake(c: Change) {
    && Notification(c).Some? && !LateRepost(c)
    && Age(c) <= AUTOMATIC_RECORDING_EVENT_MAX_AGE
  }

  /** The update before this one, of the same notification, is less than 15 seconds
      back. */
  predicate JustSeen(m: Memory, c: Change) {
    && Notification(c).Some? && m.sourceId == Notification(c).value.eventId
    && m.observedAt.Some? && c.observedAt - m.observedAt.value < 15_000_000
  }

  lemma StaleIff(c: Change)
    ensures Notification(c).Some? ==> (IsStaleRepost(UpdateOf(c)) <==> LateRepost(c))
  {
  }

  lemma PromotesIff(m: Memory, c: Change)
    ensures Promotes(m, UpdateOf(c)) <==> LateRepost(c) && !JustSeen(m, c)
  {
    StaleIff(c);
    hide RoundMs;
  }

  lemma CanWakeIff(c: Change)
    requires Notification(c).Some?
    ensures Handlers.CanWake(c) <==> MayWake(c)
  {
    StaleIff(c);
    hide IsStaleRepost;
  }

  /** What a change leaves behind. */
  function Handled(names: Names, m: Memory, b: Inbox, c: Change): Inbox {
    IngestAll(b, Ingests(names, m, UpdateOf(c)), c.observedAt)
  }

  function Promoted(names: Names, c: Change): CloudEvent
    requires Notification(c).Some?
  {
    Promote(names, Notification(c).value, c.observedAt)
  }

  lemma HandledIs(names: Names, m: Memory, b: Inbox, c: Change)
    requires Notification(c).Some?
    ensures var source := Ingest(Notification(c).value, MayWake(c));
            var first := IngestInto(b, source, c.observedAt).0;
            Handled(names, m, b, c)
            == if LateRepost(c) && !JustSeen(m, c)
               then IngestInto(first, Ingest(Promoted(names, c), true), c.observedAt).0 else first
  {
    StaleIff(c);
    PromotesIff(m, c);
    hide IsStaleRepost, Promotes, JustSeen, LateRepost, IngestInto, IngestAll, Promote;
    var first, second := Ingest(Notification(c).value, MayWake(c)), Ingest(Promoted(names, c), true);
    IngestOneOrTwo(b, first, second, c.observedAt);
    assert Ingests(names, m, UpdateOf(c)) == if LateRepost(c) && !JustSeen(m, c) then [first, second] else [first];
  }

  /** The event is in the queue, and the worker may take it. */
  predicate Ready(q: Queue, e: CloudEvent) {
    e in q.pending && !IsDeferred(q, e.eventId)
  }

  predicate IsKnown(q: Queue, id: string) {
    id in q.known
  }

  lemma EnqueueReadies(q: Queue, e: CloudEvent)
    requires QueueInv(q)
    ensures var (q', added) := Enqueue(q, e);
      && QueueInv(q') && added == !IsKnown(q, e.eventId)
      && (added ==> Ready(q', e) && JustAdded(q', e))
  {
    EnqueueKeepsInv(q, e);
    var (q', added) := Enqueue(q, e);
    if added {
      var pending := q.pending + [e];
      assert q'.pending[|q'.pending| - 1] == e;
      KeepDeferredFacts(q.deferred, {pending[0].eventId});
    }
  }

  /** An ingested event that is new becomes known, and is notified or deferred. */
  lemma IngestOne(b: Inbox, i: Ingest, at: int)
    requires QueueInv(b.queue)
    ensures var (after, added) := IngestInto(b, i, at);
      && QueueInv(after.queue) && added == !IsKnown(b.queue, i.event.eventId)
      && after.notified == b.notified + (if added && i.canWake then [i.event] else [])
      && after.queue.known == Enqueue(b.queue, i.event).0.known
      && (!added ==> after == b)
      && (added ==> JustAdded(after.queue, i.event) && (IsDeferred(after.queue, i.event.eventId) <==> !i.canWake))
  {
    EnqueueReadies(b.queue, i.event);
    var (queue, added) := Enqueue(b.queue, i.event);
    if added && !i.canWake {
      DeferKeepsInv(queue, i.event.eventId, "initial_state_stale", at);
      PutDeferredIds(queue.deferred, DeferredEvent(i.event.eventId, "initial_state_stale", at));
      Ids(queue, i.event);
    }
    hide QueueInv, Enqueue, PendingIds;
  }

  lemma Ids(q: Queue, e: CloudEvent)
    requires e in q.pending
    ensures e.eventId in PendingIds(q.pending)
  {
  }

  predicate JustAdded(q: Queue, e: CloudEvent) {
    q.pending != [] && q.pending[|q.pending| - 1] == e
  }

  /** An event that was just added outlives the next one, deferred or not. */
  lemma NextKeepsIt(q: Queue, e: CloudEvent, next: CloudEvent)
    requires QueueInv(q) && JustAdded(q, e) && !IsKnown(q, next.eventId)
    ensures var q' := Enqueue(q, next).0;
            e in q'.pending && (IsDeferred(q', e.eventId) <==> IsDeferred(q, e.eventId))
  {
    var pending, n := q.pending + [next], |q.pending|;
    assert pending[n - 1] == e;
    assert |pending| > MAX_PENDING_EVENTS ==> pending[1..][n - 2] == e && pending[0].eventId != e.eventId;
    KeepDeferredFacts(q.deferred, {pending[0].eventId});
  }

  /** Exactly what one state change wakes the worker for, and what it leaves in the
      queue: a notification that may wake and is new is handed over, ready to be
      taken; one that is new and may not wake stays deferred; and a late repost that
      was not just seen is handed over under its new name, unless the queue then
      knows that name. */
  lemma OneChange(names: Names, m: Memory, b: Inbox, c: Change)
    requires QueueInv(b.queue) && Notification(c).Some?
    ensures var e, after := Notification(c).value, Handled(names, m, b, c);
      var isNew := !IsKnown(b.queue, e.eventId);
      var again := LateRepost(c) && !JustSeen(m, c) && !IsKnown(Enqueue(b.queue, e).0, Promoted(names, c).eventId);
      && QueueInv(after.queue)
      && after.notified
         == b.notified + (if isNew && MayWake(c) then [e] else []) + (if again then [Promoted(names, c)] else [])
      && (isNew ==> e in after.queue.pending && (IsDeferred(after.queue, e.eventId) <==> !MayWake(c)))
      && (again ==> Ready(after.queue, Promoted(names, c)))
  {
    var e, p := Notification(c).value, Promoted(names, c);
    HandledIs(names, m, b, c);
    var first := IngestInto(b, Ingest(e, MayWake(c)), c.observedAt).0;
    IngestOne(b, Ingest(e, MayWake(c)), c.observedAt);
    IngestOne(first, Ingest(p, true), c.observedAt);
    hide IngestInto, QueueInv, Promote, JustSeen, EventTime, Handled;
    if !IsKnown(b.queue, e.eventId) && !IsKnown(first.queue, p.eventId) {
      NextKeepsIt(first.queue, e, p);
    }
    assert b.notified + [] == b.notified;
  }

  // ---- chains ----

  /** After the changes the memory holds the last notification they showed. */
  lemma {:induction false} MemoryIsTheLastShown(m: Memory, cs: seq<Change>, j: nat)
    requires j <= |cs| && forall i :: j <= i < |cs| ==> Notification(cs[i]).None?
    requires j > 0 ==> Notification(cs[j - 1]).Some?
    ensures After(m, cs)
         == if j == 0 then m else Memory(Notification(cs[j - 1]).value.eventId, Some(cs[j - 1].observedAt))
    decreases |cs|
  {
    if j < |cs| {
      MemoryIsTheLastShown(m, cs[..|cs| - 1], j);
    }
  }

  /** In a chain a change is promoted if and only if it is a late repost, and the
      change before it, which showed the same, lies at least 15 seconds back. */
  lemma PromotedIff(m: Memory, cs: seq<Change>, k: nat)
    requires Chain(cs) && 0 < k < |cs|
    ensures PromotedAt(m, cs, k)
            <==> LateRepost(cs[k]) && cs[k].observedAt - cs[k - 1].observedAt >= 15_000_000
  {
    PromotesIff(After(m, cs[..k]), cs[k]);
    assert cs[k].oldState == Notification(cs[k - 1]);
    if Notification(cs[k - 1]).Some? {
      MemoryIsTheLastShown(m, cs[..k], k);
    }
    hide Promotes, UpdateOf, After;
  }

  lemma {:induction false} ChainsKeepInv(names: Names, m: Memory, b: Inbox, cs: seq<Change>)
    requires QueueInv(b.queue)
    ensures QueueInv(InboxAfter(names, m, b, cs).queue)
    decreases |cs|
  {
    if cs != [] {
      var last := |cs| - 1;
      ChainsKeepInv(names, m, b, cs[..last]);
      HandledKeepsInv(names, After(m, cs[..last]), InboxAfter(names, m, b, cs[..last]), cs[last]);
    }
  }

  lemma HandledKeepsInv(names: Names, m: Memory, b: Inbox, c: Change)
    requires QueueInv(b.queue)
    ensures QueueInv(Handled(names, m, b, c).queue)
    ensures Notification(c).None? ==> Handled(names, m, b, c) == b
  {
    if Notification(c).None? {
      IngestNone(b, c.observedAt);
    } else {
      OneChange(names, m, b, c);
    }
  }

  lemma InboxStep(names: Names, m: Memory, b: Inbox, cs: seq<Change>)
    requires cs != []
    ensures var last := |cs| - 1;
            InboxAfter(names, m, b, cs)
            == Handled(names, After(m, cs[..last]), InboxAfter(names, m, b, cs[..last]), cs[last])
  {
  }

  lemma {:induction false} NotifiedGrows(names: Names, m: Memory, b: Inbox, cs: seq<Change>, k: nat)
    requires QueueInv(b.queue) && k <= |cs|
    ensures InboxAfter(names, m, b, cs[..k]).notified <= InboxAfter(names, m, b, cs).notified
    decreases |cs|
  {
    hide QueueInv, InboxAfter, After, Handled;
    if k == |cs| {
      assert cs[..k] == cs;
    } else {
      var last := |cs| - 1;
      assert cs[..last][..k] == cs[..k];
      NotifiedGrows(names, m, b, cs[..last], k);
      ChainsKeepInv(names, m, b, cs[..last]);
      HandledKeepsInv(names, After(m, cs[..last]), InboxAfter(names, m, b, cs[..last]), cs[last]);
      InboxStep(names, m, b, cs);
      if Notification(cs[last]).Some? {
        OneChange(names, After(m, cs[..last]), InboxAfter(names, m, b, cs[..last]), cs[last]);
      }
    }
  }

  /** An id comes to be known by being shown, or as the name of a promotion. */
  lemma {:induction false} NotYetKnown(names: Names, m: Memory, b: Inbox, cs: seq<Change>, id: string)
    requires QueueInv(b.queue) && !IsKnown(b.queue, id)
    requires forall i :: 0 <= i < |cs| ==> !ShowsSource(cs[i], id)
    requires forall source, ms :: names(source, ms) != id
    ensures !IsKnown(InboxAfter(names, m, b, cs).queue, id)
    decreases |cs|
  {
    hide QueueInv, InboxAfter, After, Handled, IsKnown;
    if cs != [] {
      var last := |cs| - 1;
      NotYetKnown(names, m, b, cs[..last], id);
      ChainsKeepInv(names, m, b, cs[..last]);
      InboxStep(names, m, b, cs);
      assert !ShowsSource(cs[last], id);
      HandledKnows(names, After(m, cs[..last]), InboxAfter(names, m, b, cs[..last]), cs[last], id);
    } else {
      InboxNone(names, m, b);
    }
  }

  lemma InboxNone(names: Names, m: Memory, b: Inbox)
    ensures InboxAfter(names, m, b, []) == b
  {
  }

  lemma HandledKnows(names: Names, m: Memory, b: Inbox, c: Change, id: string)
    requires QueueInv(b.queue) && !IsKnown(b.queue, id) && !ShowsSource(c, id)
    requires forall source, ms :: names(source, ms) != id
    ensures !IsKnown(Handled(names, m, b, c).queue, id)
  {
    if Notification(c).None? {
      HandledKeepsInv(names, m, b, c);
    } else {
      HandledIs(names, m, b, c);
      var source, at := Ingest(Notification(c).value, MayWake(c)), c.observedAt;
      IngestOne(b, source, at);
      IngestOne(IngestInto(b, source, at).0, Ingest(Promoted(names, c), true), at);
      hide IngestInto, QueueInv;
    }
  }

  /** Over every chain, the ordinary alarm: a notification that is shown for the first
      time, while it is at most ten minutes old, wakes the worker, whatever came
      before and comes after. */
  lemma FirstShowingWakes(names: Names, m: Memory, b: Inbox, cs: seq<Change>, k: nat)
    requires QueueInv(b.queue) && Chain(cs) && k < |cs| && Notification(cs[k]).Some?
    requires var e := Notification(cs[k]).value;
      && IsFresh(e, cs[k].observedAt) && !IsKnown(b.queue, e.eventId)
      && (forall i :: 0 <= i < k ==> !ShowsSource(cs[i], e.eventId)) && !Reposts(cs[0])
      && forall source, ms :: names(source, ms) != e.eventId
    ensures var e, before := Notification(cs[k]).value, InboxAfter(names, m, b, cs[..k]);
      && before.notified + [e] == InboxAfter(names, m, b, cs[..k + 1]).notified
      && before.notified + [e] <= InboxAfter(names, m, b, cs).notified
      && Ready(InboxAfter(names, m, b, cs[..k + 1]).queue, e)
  {
    var e := Notification(cs[k]).value;
    assert MayWake(cs[k]) by {
      if k > 0 {
        assert cs[k].oldState == Notification(cs[k - 1]) && !ShowsSource(cs[k - 1], e.eventId);
      }
    }
    hide QueueInv, InboxAfter, After, Handled, IsKnown, MayWake;
    ChainsKeepInv(names, m, b, cs[..k]);
    NotYetKnown(names, m, b, cs[..k], e.eventId);
    InboxStep(names, m, b, cs[..k + 1]);
    assert cs[..k + 1][..k] == cs[..k];
    OneChange(names, After(m, cs[..k]), InboxAfter(names, m, b, cs[..k]), cs[k]);
    NotifiedGrows(names, m, b, cs, k + 1);
  }

  /** The change wakes the worker for `e`: the notification itself, while it may wake,
      or the promotion of a late repost. */
  predicate WakesFor(names: Names, c: Change, e: CloudEvent) {
    && Notification(c).Some?
    && ((MayWake(c) && e == Notification(c).value) || (LateRepost(c) && e == Promoted(names, c)))
  }

  /** And nothing else does: whatever the worker is woken for over a chain is a
      notification that could wake when it was observed, or the promotion of a late
      repost. */
  lemma {:induction false} WokenFor(names: Names, m: Memory, b: Inbox, cs: seq<Change>, k: nat)
    requires QueueInv(b.queue) && |b.notified| <= k < |InboxAfter(names, m, b, cs).notified|
    ensures exists n :: 0 <= n < |cs| && WakesFor(names, cs[n], InboxAfter(names, m, b, cs).notified[k])
    decreases |cs|
  {
    hide QueueInv, InboxAfter, After, Handled, WakesFor;
    if cs == [] {
      InboxNone(names, m, b);
    } else {
      var last := |cs| - 1;
      var before := InboxAfter(names, m, b, cs[..last]);
      InboxStep(names, m, b, cs);
      ChainsKeepInv(names, m, b, cs[..last]);
      NotifiedGrows(names, m, b, cs, last);
      if k < |before.notified| {
        WokenFor(names, m, b, cs[..last], k);
        var n :| 0 <= n < last && WakesFor(names, cs[..last][n], before.notified[k]);
        assert cs[n] == cs[..last][n];
      } else {
        NewlyWoken(names, After(m, cs[..last]), before, cs[last], k);
      }
    }
  }

  lemma NewlyWoken(names: Names, m: Memory, b: Inbox, c: Change, k: nat)
    requires QueueInv(b.queue) && |b.notified| <= k < |Handled(names, m, b, c).notified|
    ensures WakesFor(names, c, Handled(names, m, b, c).notified[k])
  {
    HandledKeepsInv(names, m, b, c);
    if Notification(c).Some? {
      OneChange(names, m, b, c);
    }
    hide QueueInv, Handled, MayWake, LateRepost, JustSeen, Promoted, IsKnown;
  }

  // ---- interleaved handlers ----

  /** The handler of change `k` has begun, and its source was new to the queue. */
  ghost predicate Began(w: Handlers.World, k: nat) {
    && Handlers.Begun(w) && k < w.begun && Notification(w.changes[k]).Some?
    && (Pending(w, k) ==> w.active[k].added)
    && (!Pending(w, k) && MayWake(w.changes[k]) ==> Notification(w.changes[k]).value in w.notified)
  }

  /** The handler has not come to the point where it notifies. */
  predicate Pending(w: Handlers.World, k: nat) {
    k in w.active && w.active[k].Began?
  }

  lemma SettleIsExact(w: Handlers.World, k: nat, names: Names)
    requires Handlers.Enabled(w, Handlers.Settle(k))
    ensures var w', e := Handlers.Next(w, Handlers.Settle(k), names), Handlers.Source(w, k);
      && w'.notified == w.notified + (if w.active[k].added && MayWake(w.changes[k]) then [e] else [])
      && (w.active[k].added && !MayWake(w.changes[k]) && e in w.queue.pending ==> IsDeferred(w'.queue, e.eventId))
      && (!w.active[k].added || MayWake(w.changes[k]) ==> w'.queue == w.queue)
  {
    CanWakeIff(w.changes[k]);
    var e, at := Handlers.Source(w, k), w.changes[k].observedAt;
    if e in w.queue.pending {
      Ids(w.queue, e);
      PutDeferredIds(w.queue.deferred, DeferredEvent(e.eventId, "initial_state_stale", at));
    }
    hide MayWake, Handlers.CanWake, PendingIds;
    assert w.notified + [] == w.notified;
  }

  lemma StepKeepsBegan(w: Handlers.World, l: Handlers.Label, names: Names, k: nat)
    requires Began(w, k) && Handlers.Enabled(w, l)
    ensures Began(Handlers.Next(w, l, names), k)
    ensures Handlers.Next(w, l, names).changes[k] == w.changes[k]
  {
    Handlers.StepsBegin(w, l, names);
    if l == Handlers.Settle(k) {
      SettleIsExact(w, k, names);
    }
    hide Enqueue, Defer, Promotes, UpdateOf, Handlers.CanWake, Handlers.Promotion, MayWake, Chain, Handlers.Begun;
  }

  /** Over every run, however its handlers overlap: a handler that finds its
      notification new to the queue has woken the worker for it, if it may wake,
      once it has come past that point. */
  lemma {:induction false} HandlerWakes(w: Handlers.World, run: seq<Handlers.Label>, names: Names, k: nat)
    requires Began(w, k) && Handlers.Feasible(w, run, names)
    ensures var end := Handlers.After(w, run, names);
      && Began(end, k) && end.changes[k] == w.changes[k]
      && (!Pending(end, k) && MayWake(w.changes[k]) ==> Notification(w.changes[k]).value in end.notified)
    decreases |run|
  {
    hide Handlers.Enabled, Handlers.Next, MayWake;
    if run != [] {
      StepKeepsBegan(w, run[0], names, k);
      HandlerWakes(Handlers.Next(w, run[0], names), run[1..], names, k);
    }
  }

  lemma BeginningIsBegun(w: Handlers.World, names: Names)
    requires Handlers.Begun(w) && Handlers.Enabled(w, Handlers.Begin)
    requires var c := w.changes[w.begun]; Notification(c).Some? && !IsKnown(w.queue, Notification(c).value.eventId)
    ensures var w' := Handlers.Next(w, Handlers.Begin, names);
      Began(w', w.begun) && JustAdded(w'.queue, Notification(w.changes[w.begun]).value)
  {
    NewIsAdded(w.queue, Notification(w.changes[w.begun]).value);
    Handlers.StepsBegin(w, Handlers.Begin, names);
    hide Promotes, UpdateOf, Enqueue, IsKnown, JustAdded, MayWake;
  }

  lemma NewIsAdded(q: Queue, e: CloudEvent)
    requires !IsKnown(q, e.eventId)
    ensures Enqueue(q, e).1 && JustAdded(Enqueue(q, e).0, e)
  {
  }

  /** So from an idle bridge, after any run and through any other. */
  lemma AlarmWakes(memory: Memory, queue: Queue, before: seq<Handlers.Label>, after: seq<Handlers.Label>, names: Names)
    requires Handlers.Feasible(Handlers.Idle(memory, queue), before, names)
    requires var w := Handlers.After(Handlers.Idle(memory, queue), before, names);
      && Handlers.Enabled(w, Handlers.Begin) && Handlers.Feasible(Handlers.Next(w, Handlers.Begin, names), after, names)
      && MayWake(w.changes[w.begun]) && !IsKnown(w.queue, Notification(w.changes[w.begun]).value.eventId)
    ensures var w := Handlers.After(Handlers.Idle(memory, queue), before, names);
      var e, next := Notification(w.changes[w.begun]).value, Handlers.Next(w, Handlers.Begin, names);
      var end := Handlers.After(next, after, names);
      e in next.queue.pending && (Pending(end, w.begun) || e in end.notified)
  {
    Handlers.RunsBegin(Handlers.Idle(memory, queue), before, names);
    var w := Handlers.After(Handlers.Idle(memory, queue), before, names);
    BeginningIsBegun(w, names);
    assert Handlers.Next(w, Handlers.Begin, names).changes == w.changes;
    hide Handlers.Feasible, Handlers.After, Handlers.Next, Began, IsKnown;
    HandlerWakes(Handlers.Next(w, Handlers.Begin, names), after, names, w.begun);
  }

  /** Whatever the worker was woken for, a change that was handled called for it. */
  ghost predicate WakesAreCalledFor(w: Handlers.World, names: Names) {
    && Handlers.Begun(w)
    && (forall e :: e in w.notified ==> exists n :: 0 <= n < w.begun && WakesFor(names, w.changes[n], e))
    && (forall k :: k in w.active && (w.active[k].Promoted? || w.active[k].promotes) ==> LateRepost(w.changes[k]))
    && (forall k :: k in w.accepted ==>
          Notification(w.changes[k]).Some?
          && (Promoted(names, w.changes[k]) in w.notified
              || (k in w.active && w.active[k] == Handlers.Promoted(true))))
  }

  lemma BeginKeepsCalledFor(w: Handlers.World, names: Names)
    requires WakesAreCalledFor(w, names) && Handlers.Enabled(w, Handlers.Begin)
    ensures WakesAreCalledFor(Handlers.Next(w, Handlers.Begin, names), names)
  {
    Handlers.StepsBegin(w, Handlers.Begin, names);
    PromotesIff(w.memory, w.changes[w.begun]);
    hide Enqueue, Promotes, UpdateOf, WakesFor, Promote, LateRepost, JustSeen, Handlers.Begun;
  }

  lemma SettleKeepsCalledFor(w: Handlers.World, k: nat, names: Names)
    requires WakesAreCalledFor(w, names) && Handlers.Enabled(w, Handlers.Settle(k))
    ensures WakesAreCalledFor(Handlers.Next(w, Handlers.Settle(k), names), names)
  {
    Handlers.StepsBegin(w, Handlers.Settle(k), names);
    SettleIsExact(w, k, names);
    hide Defer, UpdateOf, Handlers.CanWake, Promote, MayWake, LateRepost;
  }

  lemma ArriveKeepsCalledFor(w: Handlers.World, c: Change, names: Names)
    requires WakesAreCalledFor(w, names) && Handlers.Enabled(w, Handlers.Arrive(c))
    ensures WakesAreCalledFor(Handlers.Next(w, Handlers.Arrive(c), names), names)
  {
    Handlers.StepsBegin(w, Handlers.Arrive(c), names);
    assert forall n :: 0 <= n < |w.changes| ==> (w.changes + [c])[n] == w.changes[n];
    hide WakesFor, LateRepost, Chain, Promoted;
  }

  lemma PromotingKeepsCalledFor(w: Handlers.World, l: Handlers.Label, names: Names)
    requires WakesAreCalledFor(w, names) && Handlers.Enabled(w, l) && (l.PromoteSource? || l.End?)
    ensures WakesAreCalledFor(Handlers.Next(w, l, names), names)
  {
    Handlers.StepsBegin(w, l, names);
    hide Enqueue, UpdateOf, Promote, MayWake, LateRepost, Handlers.Begun;
  }

  lemma StepKeepsCalledFor(w: Handlers.World, l: Handlers.Label, names: Names)
    requires WakesAreCalledFor(w, names) && Handlers.Enabled(w, l)
    ensures WakesAreCalledFor(Handlers.Next(w, l, names), names)
  {
    hide WakesAreCalledFor, Handlers.Enabled, Handlers.Next;
    match l
    case Arrive(c) => ArriveKeepsCalledFor(w, c, names);
    case Begin => BeginKeepsCalledFor(w, names);
    case Settle(k) => SettleKeepsCalledFor(w, k, names);
    case _ => PromotingKeepsCalledFor(w, l, names);
  }

  /** Over every run of handlers from an idle bridge: the worker is woken for nothing
      but notifications that could wake when observed and promotions of late reposts,
      and for every accepted promotion whose handler has ended. */
  lemma HandlersWakeExactly(memory: Memory, queue: Queue, run: seq<Handlers.Label>, names: Names)
    requires Handlers.Feasible(Handlers.Idle(memory, queue), run, names)
    ensures var w := Handlers.After(Handlers.Idle(memory, queue), run, names);
            WakesAreCalledFor(w, names)
  {
    hide Handlers.Feasible, Handlers.After;
    RunKeepsCalledFor(Handlers.Idle(memory, queue), run, names);
  }

  lemma {:induction false} RunKeepsCalledFor(w: Handlers.World, run: seq<Handlers.Label>, names: Names)
    requires WakesAreCalledFor(w, names) && Handlers.Feasible(w, run, names)
    ensures WakesAreCalledFor(Handlers.After(w, run, names), names)
    decreases |run|
  {
    hide WakesAreCalledFor, Handlers.Enabled, Handlers.Next;
    if run != [] {
      StepKeepsCalledFor(w, run[0], names);
      RunKeepsCalledFor(Handlers.Next(w, run[0], names), run[1..], names);
    }
  }
}
