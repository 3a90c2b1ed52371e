/** The Android notification bridge of `notification_bridge.py`, with the ingest
    callback of `__init__.py` that feeds the queue and notifies the worker.

    A state change carries the notification read from the old and from the new
    sensor state, if either names this camera. `Names` stands for the digest that
    names a promoted repost. */
module NotificationBridge {
  import opened Basics
  import opened Events
  import opened QueueTheorems

  const STALE_REPOST_MIN_AGE_MS := 300_000
  const STALE_REPOST_DEBOUNCE := 15_000_000

  type Names = (string, int) -> string

  ghost predicate Injective(names: Names) {
    forall a, b, m, n :: names(a, m) == names(b, n) ==> a == b && m == n
  }

  /** Microseconds rounded to milliseconds, halves to even. */
  function RoundMs(us: int): (ms: int)
    ensures -500 <= us - 1000 * ms <= 500
  {
    var q, r := us / 1000, us % 1000;
    if r > 500 || (r == 500 && q % 2 == 1) then q + 1 else q
  }

  /** `_last_source_event_id` and `_last_source_observed_at` */
  datatype Memory = Memory(sourceId: string, observedAt: Option<int>)

  datatype Ingest = Ingest(event: CloudEvent, canWake: bool)

  /** The arguments of `async_process_attributes`, with the notification it reads
      from the attributes, if they name this camera. */
  datatype Update = Update(source: Option<CloudEvent>, at: int, allowStaleRepost: bool, allowWake: bool)

  predicate IsStaleRepost(u: Update) {
    && u.source.Some? && u.allowStaleRepost
    && var lag := u.at - EventTime(u.source.value);
       RoundMs(if lag > 0 then lag else 0) >= STALE_REPOST_MIN_AGE_MS
  }

  predicate SameSourceRecent(m: Memory, u: Update)
    requires u.source.Some?
  {
    m.sourceId == u.source.value.eventId && m.observedAt.Some? && u.at - m.observedAt.value < STALE_REPOST_DEBOUNCE
  }

  /** `_promote_stale_repost` */
  function Promote(names: Names, e: CloudEvent, at: int): CloudEvent {
    e.(eventId := names(e.eventId, RoundMs(at)), alarmTime := at, notificationPostTime := Some(at))
  }

  predicate Promotes(m: Memory, u: Update) {
    IsStaleRepost(u) && !SameSourceRecent(m, u)
  }

  /** What one update hands to the ingest callback, in order. */
  function Ingests(names: Names, m: Memory, u: Update): seq<Ingest> {
    if u.source.None? then []
    else
      var source := u.source.value;
      [Ingest(source, u.allowWake && !IsStaleRepost(u) && IsFresh(source, u.at))]
      + if Promotes(m, u) then [Ingest(Promote(names, source, u.at), true)] else []
  }

  function Remembered(m: Memory, u: Update): Memory {
    if u.source.None? then m else Memory(u.source.value.eventId, Some(u.at))
  }

  datatype Inbox = Inbox(queue: Queue, notified: seq<CloudEvent>)

  /** `ingest_notification`; the deferral is stamped with the time `at`. */
  function IngestInto(b: Inbox, i: Ingest, at: int): (Inbox, bool) {
    var (queue, added) := Enqueue(b.queue, i.event);
    if !added then (b, false)
    else if i.canWake then (Inbox(queue, b.notified + [i.event]), true)
    else (Inbox(Defer(queue, i.event.eventId, "initial_state_stale", at).0, b.notified), true)
  }

  function IngestAll(b: Inbox, ingests: seq<Ingest>, at: int): Inbox
    decreases |ingests|
  {
    if ingests == [] then b else IngestAll(IngestInto(b, ingests[0], at).0, ingests[1..], at)
  }

  lemma IngestNone(b: Inbox, at: int)
    ensures IngestAll(b, [], at) == b
  {
  }

  lemma IngestOneOrTwo(b: Inbox, x: Ingest, y: Ingest, at: int)
    ensures IngestAll(b, [x], at) == IngestInto(b, x, at).0
    ensures IngestAll(b, [x, y], at) == IngestInto(IngestInto(b, x, at).0, y, at).0
  {
    hide IngestInto;
    assert [x, y][1..] == [y] && [x][1..] == [] && [y][1..] == [];
    var b1 := IngestInto(b, x, at).0;
    assert IngestAll(b1, [y], at) == IngestInto(b1, y, at).0;
  }

  datatype NewState = Gone | Present(notification: Option<CloudEvent>)

  datatype Change = Change(oldState: Option<CloudEvent>, newState: NewState, observedAt: int)

  function Notification(c: Change): Option<CloudEvent> {
    if c.newState.Present? then c.newState.notification else None
  }

  /** The update that `_handle_state_change` makes of a change. */
  function UpdateOf(c: Change): Update {
    var n := Notification(c);
    Update(n, c.observedAt,
           c.oldState.Some? && n.Some? && c.oldState.value.eventId == n.value.eventId,
           n.Some? && IsFresh(n.value, c.observedAt))
  }

  class Bridge {
    var lastSourceId: string
    var lastSourceObservedAt: Option<int>
    var notified: seq<CloudEvent>
    const queue: EventQueue
    const names: Names

    function Mem(): Memory
      reads this
    {
      Memory(lastSourceId, lastSourceObservedAt)
    }

    function Box(): Inbox
      reads this, queue
    {
      Inbox(queue.State(), notified)
    }

    /** A restored event is telemetry: its id is remembered, not a time. */
    constructor (queue: EventQueue, names: Names, initial: Option<CloudEvent>)
      ensures this.queue == queue && this.names == names && notified == []
      ensures Mem() == Memory(
        if initial.Some? && initial.value.source == AndroidNotification then initial.value.eventId else "", None)
    {
      this.queue, this.names, notified := queue, names, [];
      lastSourceId :=
        if initial.Some? && initial.value.source == AndroidNotification then initial.value.eventId else "";
      lastSourceObservedAt := None;
    }

    method IngestNotification(i: Ingest, at: int) returns (added: bool)
      modifies this`notified, queue
      ensures (Box(), added) == IngestInto(old(Box()), i, at)
    {
      added := queue.EnqueueEvent(i.event);
      if added {
        if i.canWake {
          notified := notified + [i.event];
        } else {
          var _ := queue.DeferEvent(i.event.eventId, "initial_state_stale", at);
        }
      }
    }

    /** `async_process_attributes` */
    method ProcessAttributes(u: Update) returns (added: bool)
      modifies this, queue
      ensures Mem() == Remembered(old(Mem()), u)
      ensures Box() == IngestAll(old(Box()), Ingests(names, old(Mem()), u), u.at)
    {
      hide Enqueue, Defer, RoundMs, IngestInto, IngestAll;
      if u.source.None? {
        IngestNone(Box(), u.at);
        return false;
      }
      var source := u.source.value;
      var lag := u.at - EventTime(source);
      var lagMs := RoundMs(if lag > 0 then lag else 0);
      var sameSourceRecent := lastSourceId == source.eventId && lastSourceObservedAt.Some?
        && u.at - lastSourceObservedAt.value < STALE_REPOST_DEBOUNCE;
      var candidate := u.allowStaleRepost && lagMs >= STALE_REPOST_MIN_AGE_MS;
      var sourceCanWake := u.allowWake && !candidate && IsFresh(source, u.at);
      ghost var first, second := Ingest(source, sourceCanWake), Ingest(Promote(names, source, u.at), true);
      IngestOneOrTwo(Box(), first, second, u.at);
      assert Ingests(names, Mem(), u) == if candidate && !sameSourceRecent then [first, second] else [first];
      added := IngestNotification(Ingest(source, sourceCanWake), u.at);
      if candidate && !sameSourceRecent {
        var promotedAdded := IngestNotification(Ingest(Promote(names, source, u.at), true), u.at);
        if promotedAdded {
          added := promotedAdded;
        }
      }
      lastSourceId := source.eventId;
      lastSourceObservedAt := Some(u.at);
    }

    /** `_handle_state_change`, with its task run to the end. */
    method HandleStateChange(c: Change)
      modifies this, queue
      ensures c.newState.Gone? ==> Mem() == old(Mem()) && Box() == old(Box())
      ensures c.newState.Present? ==>
        && Mem() == Remembered(old(Mem()), UpdateOf(c))
        && Box() == IngestAll(old(Box()), Ingests(names, old(Mem()), UpdateOf(c)), c.observedAt)
    {
      if c.newState.Gone? {
        return;
      }
      var allowStaleRepost := c.oldState.Some? && c.newState.notification.Some?
        && c.oldState.value.eventId == c.newState.notification.value.eventId;
      var allowWake := c.newState.notification.Some? && IsFresh(c.newState.notification.value, c.observedAt);
      var _ := ProcessAttributes(Update(c.newState.notification, c.observedAt, allowStaleRepost, allowWake));
    }
  }

  // ---- Runs ----

  /** Each old state is the previous new state, and the clock does not go back. */
  predicate Chain(cs: seq<Change>) {
    && (forall k :: 0 <= k < |cs| - 1 ==> cs[k + 1].oldState == Notification(cs[k]))
    && (forall j, k :: 0 <= j <= k < |cs| ==> cs[j].observedAt <= cs[k].observedAt)
  }

  /** The memory after the changes, handled one at a time. */
  function After(m: Memory, cs: seq<Change>): Memory {
    if cs == [] then m else Remembered(After(m, cs[..|cs| - 1]), UpdateOf(cs[|cs| - 1]))
  }

  predicate PromotedAt(m: Memory, cs: seq<Change>, k: nat)
    requires k < |cs|
  {
    Promotes(After(m, cs[..k]), UpdateOf(cs[k]))
  }

  predicate ShowsSource(c: Change, id: string) {
    Notification(c).Some? && Notification(c).value.eventId == id
  }

  /** A source is promoted only after a quiet time: every earlier update of it in
      the chain, promoted or not, lies at least 15 seconds back. */
  lemma PromotionNeedsQuiet(m: Memory, cs: seq<Change>, i: nat, j: nat)
    requires Chain(cs) && i < j < |cs|
    requires PromotedAt(m, cs, j) && ShowsSource(cs[i], Notification(cs[j]).value.eventId)
    ensures cs[j].observedAt - cs[i].observedAt >= STALE_REPOST_DEBOUNCE
  {
    hide RoundMs;
    assert cs[j].oldState == Notification(cs[j - 1]);
    assert cs[..j][..j - 1] == cs[..j - 1];
    assert After(m, cs[..j]) == Remembered(After(m, cs[..j - 1]), UpdateOf(cs[j - 1]));
  }

  /** Two promotions of one source lie at least 15 seconds apart. */
  lemma PromotionsAreSpaced(m: Memory, cs: seq<Change>, i: nat, j: nat)
    requires Chain(cs) && i < j < |cs| && PromotedAt(m, cs, i) && PromotedAt(m, cs, j)
    requires Notification(cs[i]).value.eventId == Notification(cs[j]).value.eventId
    ensures cs[j].observedAt - cs[i].observedAt >= STALE_REPOST_DEBOUNCE
  {
    PromotionNeedsQuiet(m, cs, i, j);
  }

  /** No two promotions of a chain share an id, so neither makes the queue reject
      the other as a duplicate. */
  lemma PromotedIdsDiffer(names: Names, m: Memory, cs: seq<Change>, i: nat, j: nat)
    requires Injective(names)
    requires Chain(cs) && i < j < |cs| && PromotedAt(m, cs, i) && PromotedAt(m, cs, j)
    ensures Promote(names, Notification(cs[i]).value, cs[i].observedAt).eventId
         != Promote(names, Notification(cs[j]).value, cs[j].observedAt).eventId
  {
    var a, b := Notification(cs[i]).value, Notification(cs[j]).value;
    if a.eventId == b.eventId {
      PromotionsAreSpaced(m, cs, i, j);
      assert RoundMs(cs[i].observedAt) < RoundMs(cs[j].observedAt);
    }
  }

  /** One update wakes the worker at most once, for an event that is fresh at that
      moment, and never for the source of a stale repost. */
  lemma OneFreshWake(names: Names, m: Memory, u: Update, i: nat, j: nat)
    requires i < |Ingests(names, m, u)| && j < |Ingests(names, m, u)|
    requires Ingests(names, m, u)[i].canWake && Ingests(names, m, u)[j].canWake
    ensures i == j
    ensures IsFresh(Ingests(names, m, u)[i].event, u.at)
    ensures IsStaleRepost(u) ==> Ingests(names, m, u)[i].event == Promote(names, u.source.value, u.at)
  {
  }

  /** An accepted event either reaches the worker or is deferred on the spot. */
  lemma NotifiedOrDeferred(b: Inbox, i: Ingest, at: int)
    requires IngestInto(b, i, at).1
    ensures var after := IngestInto(b, i, at).0;
      if i.canWake then after.notified == b.notified + [i.event]
      else after.notified == b.notified && IsDeferred(after.queue, i.event.eventId)
  {
    var (queue, _) := Enqueue(b.queue, i.event);
    assert queue.pending[|queue.pending| - 1] == i.event;
    if !i.canWake {
      PutDeferredIds(queue.deferred, DeferredEvent(i.event.eventId, "initial_state_stale", at));
    }
  }

  lemma {:induction false} IngestNotifies(b: Inbox, ingests: seq<Ingest>, at: int, k: nat)
    requires k < |IngestAll(b, ingests, at).notified|
    ensures var notified := IngestAll(b, ingests, at).notified;
      if k < |b.notified| then notified[k] == b.notified[k]
      else exists n :: 0 <= n < |ingests| && ingests[n].canWake && notified[k] == ingests[n].event
    decreases |ingests|
  {
    hide Enqueue, Defer;
    if ingests != [] {
      var b1 := IngestInto(b, ingests[0], at).0;
      IngestNotifies(b1, ingests[1..], at, k);
      if k >= |b1.notified| {
        var n :| 0 <= n < |ingests| - 1 && ingests[1..][n].canWake
                 && IngestAll(b, ingests, at).notified[k] == ingests[1..][n].event;
        assert ingests[1..][n] == ingests[n + 1];
      }
    }
  }

  function InboxAfter(names: Names, m: Memory, b: Inbox, cs: seq<Change>): Inbox {
    if cs == [] then b
    else
      var c := cs[|cs| - 1];
      IngestAll(InboxAfter(names, m, b, cs[..|cs| - 1]), Ingests(names, After(m, cs[..|cs| - 1]), UpdateOf(c)),
                c.observedAt)
  }

  /** Over every chain: whatever the bridge notified the worker of was fresh when
      its change was observed. */
  lemma {:induction false} NotifiedWasFresh(names: Names, m: Memory, b: Inbox, cs: seq<Change>, k: nat)
    requires |b.notified| <= k < |InboxAfter(names, m, b, cs).notified|
    ensures exists n :: 0 <= n < |cs| && IsFresh(InboxAfter(names, m, b, cs).notified[k], cs[n].observedAt)
    decreases |cs|
  {
    hide IngestAll, IsFresh, Ingests;
    var last := |cs| - 1;
    var before := InboxAfter(names, m, b, cs[..last]);
    var mem := After(m, cs[..last]);
    var ingests := Ingests(names, mem, UpdateOf(cs[last]));
    IngestNotifies(before, ingests, cs[last].observedAt, k);
    if k < |before.notified| {
      NotifiedWasFresh(names, m, b, cs[..last], k);
      var n :| 0 <= n < last && IsFresh(before.notified[k], cs[..last][n].observedAt);
      assert cs[n] == cs[..last][n];
    } else {
      var n :| 0 <= n < |ingests| && ingests[n].canWake
               && InboxAfter(names, m, b, cs).notified[k] == ingests[n].event;
      OneFreshWake(names, mem, UpdateOf(cs[last]), n, n);
    }
  }
}
