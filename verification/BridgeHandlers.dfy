/** The handlers of `async_process_attributes` as tasks that interleave.

    Each state change gets its own task, and the tasks begin in order. A task reads
    the debounce memory and enqueues its source before its first await; it writes
    the memory at its very end. */
module BridgeHandlers {
  import opened Basics
  import opened Events
  import opened NotificationBridge

  datatype Progress =
    | Began(promotes: bool, added: bool)  // read the memory, enqueued the source
    | Settled(promotes: bool)             // the source was notified or deferred
    | Promoted(added: bool)               // enqueued the promotion

  /** `changes` is the chain of state changes so far, of which `begun` have begun;
      `active` maps the unfinished ones to their progress; `accepted` lists the
      changes whose promotion the queue accepted. */
  datatype World = World(
    changes: seq<Change>,
    begun: nat,
    active: map<nat, Progress>,
    memory: Memory,
    queue: Queue,
    notified: seq<CloudEvent>,
    accepted: seq<nat>)

  datatype Label = Arrive(c: Change) | Begin | Settle(k: nat) | PromoteSource(k: nat) | End(k: nat)

  function Source(w: World, k: nat): CloudEvent
    requires k < |w.changes| && Notification(w.changes[k]).Some?
  {
    Notification(w.changes[k]).value
  }

  /** A handler with a source that has not come to its end. */
  predicate Active(w: World, k: nat) {
    k in w.active && k < |w.changes| && Notification(w.changes[k]).Some?
  }

  predicate Enabled(w: World, l: Label) {
    match l
    case Arrive(c) => Chain(w.changes + [c])
    case Begin => w.begun < |w.changes|
    case Settle(k) => Active(w, k) && w.active[k].Began?
    case PromoteSource(k) => Active(w, k) && w.active[k] == Settled(true)
    case End(k) => Active(w, k) && (w.active[k] == Settled(false) || w.active[k].Promoted?)
  }

  function Promotion(w: World, names: Names, k: nat): CloudEvent
    requires k < |w.changes| && Notification(w.changes[k]).Some?
  {
    Promote(names, Source(w, k), w.changes[k].observedAt)
  }

  function CanWake(c: Change): bool
    requires Notification(c).Some?
  {
    var u := UpdateOf(c);
    u.allowWake && !IsStaleRepost(u) && IsFresh(u.source.value, u.at)
  }

  function Next(w: World, l: Label, names: Names): World
    requires Enabled(w, l)
  {
    match l
    case Arrive(c) => w.(changes := w.changes + [c])
    case Begin =>
      var k := w.begun;
      if Notification(w.changes[k]).None? then w.(begun := k + 1)
      else
        var (queue, added) := Enqueue(w.queue, Source(w, k));
        w.(begun := k + 1, queue := queue,
           active := w.active[k := Began(Promotes(w.memory, UpdateOf(w.changes[k])), added)])
    case Settle(k) =>
      var source := Source(w, k);
      var w' := w.(active := w.active[k := Settled(w.active[k].promotes)]);
      if !w.active[k].added then w'
      else if CanWake(w.changes[k]) then w'.(notified := w.notified + [source])
      else w'.(queue := Defer(w.queue, source.eventId, "initial_state_stale", w.changes[k].observedAt).0)
    case PromoteSource(k) =>
      var (queue, added) := Enqueue(w.queue, Promotion(w, names, k));
      w.(queue := queue, active := w.active[k := Promoted(added)],
         accepted := if added then w.accepted + [k] else w.accepted)
    case End(k) =>
      w.(notified := if w.active[k] == Promoted(true) then w.notified + [Promotion(w, names, k)] else w.notified,
         memory := Remembered(w.memory, UpdateOf(w.changes[k])),
         active := w.active - {k})
  }

  predicate Feasible(w: World, run: seq<Label>, names: Names)
    decreases |run|
  {
    run == [] || (Enabled(w, run[0]) && Feasible(Next(w, run[0], names), run[1..], names))
  }

  function After(w: World, run: seq<Label>, names: Names): World
    requires Feasible(w, run, names)
    decreases |run|
  {
    if run == [] then w else After(Next(w, run[0], names), run[1..], names)
  }

  function Idle(memory: Memory, queue: Queue): World {
    World([], 0, map[], memory, queue, [], [])
  }

  /** No handler begins before the one before it has ended. */
  ghost predicate OneAtATime(w: World, run: seq<Label>, names: Names)
    requires Feasible(w, run, names)
    decreases |run|
  {
    run != [] ==> (run[0].Begin? ==> w.active == map[]) && OneAtATime(Next(w, run[0], names), run[1..], names)
  }

  // ---- one at a time, the handlers see what the updates in order leave ----

  /** The memory is that of the handled changes, the one handler under way read it,
      and every accepted promotion was one that the changes in order call for. */
  ghost predicate InOrder(w: World, start: Memory) {
    && Chain(w.changes) && w.begun <= |w.changes|
    && (forall k :: k in w.active ==> k + 1 == w.begun)
    && (w.active == map[] ==> w.memory == NotificationBridge.After(start, w.changes[..w.begun]))
    && (forall k :: k in w.active ==>
          && w.memory == NotificationBridge.After(start, w.changes[..k])
          && (w.active[k].Promoted? || w.active[k].promotes ==> PromotedAt(start, w.changes, k)))
    && (forall i :: 0 <= i < |w.accepted| ==> w.accepted[i] < w.begun && PromotedAt(start, w.changes, w.accepted[i]))
    && (forall i, j :: 0 <= i < j < |w.accepted| ==> w.accepted[i] < w.accepted[j])
    && (forall i, k :: 0 <= i < |w.accepted| && k in w.active && !w.active[k].Promoted? ==> w.accepted[i] < k)
  }

  lemma EarlierIsKept(start: Memory, cs: seq<Change>, c: Change, k: nat)
    requires k < |cs|
    ensures PromotedAt(start, cs + [c], k) == PromotedAt(start, cs, k)
    ensures (cs + [c])[..k] == cs[..k]
  {
    assert (cs + [c])[..k] == cs[..k];
  }

  lemma OneMore(start: Memory, cs: seq<Change>, k: nat)
    requires k < |cs|
    ensures NotificationBridge.After(start, cs[..k + 1])
         == Remembered(NotificationBridge.After(start, cs[..k]), UpdateOf(cs[k]))
  {
    assert cs[..k + 1][..k] == cs[..k];
  }

  lemma ArriveKeepsOrder(w: World, c: Change, start: Memory, names: Names)
    requires InOrder(w, start) && Enabled(w, Arrive(c))
    ensures InOrder(Next(w, Arrive(c), names), start)
  {
    forall k: nat | k < |w.changes|
      ensures PromotedAt(start, w.changes + [c], k) == PromotedAt(start, w.changes, k)
      ensures (w.changes + [c])[..k] == w.changes[..k]
    {
      EarlierIsKept(start, w.changes, c, k);
    }
    assert (w.changes + [c])[..w.begun] == w.changes[..w.begun];
    hide PromotedAt, NotificationBridge.After;
  }

  lemma BeginKeepsOrder(w: World, start: Memory, names: Names)
    requires InOrder(w, start) && Enabled(w, Begin) && w.active == map[]
    ensures InOrder(Next(w, Begin, names), start)
  {
    var k := w.begun;
    OneMore(start, w.changes, k);
    assert UpdateOf(w.changes[k]).source == Notification(w.changes[k]);
    hide Enqueue, NotificationBridge.After, Promotes, UpdateOf, Chain;
  }

  lemma IdleIsInOrder(memory: Memory, queue: Queue)
    ensures InOrder(Idle(memory, queue), memory)
  {
  }

  lemma SettleKeepsOrder(w: World, k: nat, start: Memory, names: Names)
    requires InOrder(w, start) && Enabled(w, Settle(k))
    ensures InOrder(Next(w, Settle(k), names), start)
  {
    hide Defer, NotificationBridge.After, PromotedAt, UpdateOf, CanWake, Chain;
  }

  lemma PromoteKeepsOrder(w: World, k: nat, start: Memory, names: Names)
    requires InOrder(w, start) && Enabled(w, PromoteSource(k))
    ensures InOrder(Next(w, PromoteSource(k), names), start)
  {
    hide Enqueue, NotificationBridge.After, PromotedAt, UpdateOf, Promotion, Chain;
  }

  lemma EndKeepsOrder(w: World, k: nat, start: Memory, names: Names)
    requires InOrder(w, start) && Enabled(w, End(k))
    ensures InOrder(Next(w, End(k), names), start)
  {
    OneMore(start, w.changes, k);
    assert w.active - {k} == map[];
    assert UpdateOf(w.changes[k]).source.Some?;
    hide NotificationBridge.After, PromotedAt, UpdateOf, Promotion, Chain;
  }

  lemma StepKeepsOrder(w: World, l: Label, start: Memory, names: Names)
    requires InOrder(w, start) && Enabled(w, l) && (l.Begin? ==> w.active == map[])
    ensures InOrder(Next(w, l, names), start)
  {
    hide InOrder, Next, Enabled;
    match l
    case Arrive(c) => ArriveKeepsOrder(w, c, start, names);
    case Begin => BeginKeepsOrder(w, start, names);
    case Settle(k) => SettleKeepsOrder(w, k, start, names);
    case PromoteSource(k) => PromoteKeepsOrder(w, k, start, names);
    case End(k) => EndKeepsOrder(w, k, start, names);
  }

  lemma {:induction false} RunsStayInOrder(w: World, run: seq<Label>, start: Memory, names: Names)
    requires InOrder(w, start) && Feasible(w, run, names) && OneAtATime(w, run, names)
    ensures InOrder(After(w, run, names), start)
    decreases |run|
  {
    hide InOrder, Enabled, Next;
    if run != [] {
      StepKeepsOrder(w, run[0], start, names);
      RunsStayInOrder(Next(w, run[0], names), run[1..], start, names);
    }
  }

  /** Both changes show this camera, and the same notification. */
  predicate SameSource(w: World, i: nat, k: nat) {
    && i < |w.changes| && k < |w.changes|
    && Notification(w.changes[i]).Some? && Notification(w.changes[k]).Some?
    && Source(w, i).eventId == Source(w, k).eventId
  }

  /** Over every run whose handlers do not overlap, a promotion that the queue
      accepted lies at least 15 seconds after every earlier update of its source,
      and so after every earlier promotion of it. */
  lemma AcceptedPromotionsNeedQuiet(memory: Memory, queue: Queue, run: seq<Label>, names: Names, i: nat, j: nat)
    requires Feasible(Idle(memory, queue), run, names) && OneAtATime(Idle(memory, queue), run, names)
    requires var w := After(Idle(memory, queue), run, names);
             j < |w.accepted| && i < w.accepted[j] && SameSource(w, i, w.accepted[j])
    ensures var w := After(Idle(memory, queue), run, names);
            w.changes[w.accepted[j]].observedAt - w.changes[i].observedAt >= STALE_REPOST_DEBOUNCE
  {
    IdleIsInOrder(memory, queue);
    hide Feasible, OneAtATime, After, PromotedAt, NotificationBridge.After;
    RunsStayInOrder(Idle(memory, queue), run, memory, names);
    var w := After(Idle(memory, queue), run, names);
    PromotionNeedsQuiet(memory, w.changes, i, w.accepted[j]);
  }

  /** So do any two accepted promotions of one source. */
  lemma AcceptedPromotionsAreSpaced(memory: Memory, queue: Queue, run: seq<Label>, names: Names, i: nat, j: nat)
    requires Feasible(Idle(memory, queue), run, names) && OneAtATime(Idle(memory, queue), run, names)
    requires var w := After(Idle(memory, queue), run, names);
             i < j < |w.accepted| && SameSource(w, w.accepted[i], w.accepted[j])
    ensures var w := After(Idle(memory, queue), run, names);
            w.changes[w.accepted[j]].observedAt - w.changes[w.accepted[i]].observedAt >= STALE_REPOST_DEBOUNCE
  {
    IdleIsInOrder(memory, queue);
    hide Feasible, OneAtATime, After, PromotedAt, NotificationBridge.After;
    RunsStayInOrder(Idle(memory, queue), run, memory, names);
    AcceptedPromotionsNeedQuiet(memory, queue, run, names, After(Idle(memory, queue), run, names).accepted[i], j);
  }

  // ---- overlapping handlers ----

  lemma Then(w: World, l: Label, rest: seq<Label>, names: Names)
    requires Enabled(w, l) && Feasible(Next(w, l, names), rest, names)
    ensures Feasible(w, [l] + rest, names) && After(w, [l] + rest, names) == After(Next(w, l, names), rest, names)
  {
    assert ([l] + rest)[1..] == rest;
  }

  lemma {:induction false} Joined(w: World, first: seq<Label>, second: seq<Label>, names: Names)
    requires Feasible(w, first, names) && Feasible(After(w, first, names), second, names)
    ensures Feasible(w, first + second, names)
    ensures After(w, first + second, names) == After(After(w, first, names), second, names)
    decreases |first|
  {
    hide Enabled, Next;
    if first == [] {
      assert first + second == second;
    } else {
      Joined(Next(w, first[0], names), first[1..], second, names);
      assert (first + second)[1..] == first[1..] + second;
    }
  }

  /** What a handler does up to the save of its promotion. */
  function UpToPromotion(k: nat): seq<Label> {
    [Begin] + ([Settle(k)] + ([PromoteSource(k)] + []))
  }

  /** The queue would accept an event with this id. */
  predicate IsNew(q: Queue, id: string) {
    id !in q.known
  }

  lemma EnqueueKeepsNew(q: Queue, e: CloudEvent, id: string)
    requires IsNew(q, id) && id != e.eventId
    ensures IsNew(Enqueue(q, e).0, id)
  {
  }

  /** A handler that finds the source quiet in the memory and its promotion new to
      the queue has that promotion accepted; the memory stays as it was. */
  lemma HandlerPromotes(w: World, names: Names, other: string)
    requires w.begun < |w.changes| && Notification(w.changes[w.begun]).Some?
    requires Promotes(w.memory, UpdateOf(w.changes[w.begun]))
    requires IsNew(w.queue, Promotion(w, names, w.begun).eventId)
    requires Promotion(w, names, w.begun).eventId != Source(w, w.begun).eventId
    ensures Feasible(w, UpToPromotion(w.begun), names)
    ensures var end := After(w, UpToPromotion(w.begun), names);
      && end.changes == w.changes && end.begun == w.begun + 1 && end.memory == w.memory
      && end.accepted == w.accepted + [w.begun]
      && (IsNew(w.queue, other) && other !in {Source(w, w.begun).eventId, Promotion(w, names, w.begun).eventId} ==>
            IsNew(end.queue, other))
  {
    var k := w.begun;
    var source, promoted := Source(w, k), Promotion(w, names, k);
    EnqueueKeepsNew(w.queue, source, promoted.eventId);
    var w1 := Next(w, Begin, names);
    var w2 := Next(w1, Settle(k), names);
    DeferKnowsTheSame(w1.queue, source.eventId, w.changes[k].observedAt);
    var w3 := Next(w2, PromoteSource(k), names);
    if IsNew(w.queue, other) && other != source.eventId && other != promoted.eventId {
      EnqueueKeepsNew(w.queue, source, other);
      EnqueueKeepsNew(w2.queue, promoted, other);
    }
    NewIsAccepted(w2.queue, promoted);
    hide Promotes, UpdateOf, Enqueue, Defer, CanWake, Promotion;
    Then(w2, PromoteSource(k), [], names);
    Then(w1, Settle(k), [PromoteSource(k)] + [], names);
    Then(w, Begin, [Settle(k)] + ([PromoteSource(k)] + []), names);
  }

  lemma DeferKnowsTheSame(q: Queue, id: string, at: int)
    ensures Defer(q, id, "initial_state_stale", at).0.known == q.known
  {
  }

  lemma NewIsAccepted(q: Queue, e: CloudEvent)
    requires IsNew(q, e.eventId)
    ensures Enqueue(q, e).1
  {
  }

  predicate StaleSource(memory: Memory, source: CloudEvent, at: int) {
    memory.sourceId != source.eventId && at - EventTime(source) >= 300_000_000
  }

  function TwoReposts(source: CloudEvent, first: int, second: int): seq<Change> {
    [Change(Some(source), Present(Some(source)), first), Change(Some(source), Present(Some(source)), second)]
  }

  lemma BothPromote(memory: Memory, source: CloudEvent, first: int, second: int)
    requires StaleSource(memory, source, first) && first + 1000 < second
    ensures Promotes(memory, UpdateOf(TwoReposts(source, first, second)[0]))
    ensures Promotes(memory, UpdateOf(TwoReposts(source, first, second)[1]))
    ensures RoundMs(first) < RoundMs(second)
  {
    assert RoundMs(first - EventTime(source)) >= 300_000;
    assert RoundMs(second - EventTime(source)) >= 300_000;
  }

  lemma TwoHandlersPromote(w: World, names: Names)
    requires w.begun == 0 && |w.changes| == 2 && w.accepted == []
    requires Notification(w.changes[0]).Some? && Notification(w.changes[1]).Some?
    requires Promotes(w.memory, UpdateOf(w.changes[0])) && Promotes(w.memory, UpdateOf(w.changes[1]))
    requires var id0, id1 := Promotion(w, names, 0).eventId, Promotion(w, names, 1).eventId;
      && IsNew(w.queue, id0) && IsNew(w.queue, id1) && id0 != id1
      && id0 != Source(w, 0).eventId && id1 != Source(w, 0).eventId && id1 != Source(w, 1).eventId
    ensures Feasible(w, UpToPromotion(0) + UpToPromotion(1), names)
    ensures After(w, UpToPromotion(0) + UpToPromotion(1), names).accepted == [0, 1]
  {
    hide Promotes, UpdateOf, RoundMs, Feasible, After, UpToPromotion, IsNew, Promote, Notification;
    HandlerPromotes(w, names, Promotion(w, names, 1).eventId);
    var w3 := After(w, UpToPromotion(0), names);
    assert Promotion(w3, names, 1) == Promotion(w, names, 1) && Source(w3, 1) == Source(w, 1);
    HandlerPromotes(w3, names, "");
    Joined(w, UpToPromotion(0), UpToPromotion(1), names);
  }

  /** Two handlers that overlap, the second beginning while the first one waits for
      the save of its promotion: the same stale source is promoted twice, and the
      queue accepts both promotions, whenever the two changes lie more than a
      millisecond apart, be it far less than 15 seconds. */
  lemma OverlapPromotesTwice(memory: Memory, queue: Queue, source: CloudEvent, first: int, second: int, names: Names)
    requires StaleSource(memory, source, first) && first + 1000 < second
    requires Injective(names) && forall at :: names(source.eventId, at) != source.eventId
    requires IsNew(queue, names(source.eventId, RoundMs(first)))
    requires IsNew(queue, names(source.eventId, RoundMs(second)))
    ensures var w := Idle(memory, queue).(changes := TwoReposts(source, first, second));
      && Chain(w.changes)
      && Feasible(w, UpToPromotion(0) + UpToPromotion(1), names)
      && After(w, UpToPromotion(0) + UpToPromotion(1), names).accepted == [0, 1]
  {
    var w := Idle(memory, queue).(changes := TwoReposts(source, first, second));
    BothPromote(memory, source, first, second);
    hide Promotes, UpdateOf, RoundMs, Feasible, After, UpToPromotion, IsNew;
    var id0, id1 := names(source.eventId, RoundMs(first)), names(source.eventId, RoundMs(second));
    assert id0 != id1;
    assert Promotion(w, names, 0).eventId == id0 && Promotion(w, names, 1).eventId == id1;
    TwoHandlersPromote(w, names);
  }

  // ---- exactly when a promotion comes too soon ----

  /** An earlier update of the same source lies less than 15 seconds back. */
  predicate Recent(cs: seq<Change>, k: nat) {
    && k < |cs| && Notification(cs[k]).Some?
    && exists i :: 0 <= i < k && ShowsSource(cs[i], Notification(cs[k]).value.eventId)
                   && cs[k].observedAt - cs[i].observedAt < STALE_REPOST_DEBOUNCE
  }

  /** Only handlers that have begun are active or have had a promotion accepted. */
  ghost predicate Begun(w: World) {
    && w.begun <= |w.changes|
    && (forall k :: k in w.active ==> k < w.begun)
    && (forall k :: k in w.accepted ==> k < w.begun)
  }

  /** Handler `k` acts on `promotes`, which it read when it began. */
  ghost predicate Decided(w: World, cs: seq<Change>, k: nat, promotes: bool) {
    && cs <= w.changes && k < |cs| && k < w.begun
    && (k in w.accepted ==> promotes)
    && (k in w.active && !w.active[k].Promoted? ==> w.active[k].promotes == promotes)
  }

  lemma StepsBegin(w: World, l: Label, names: Names)
    requires Begun(w) && Enabled(w, l)
    ensures Begun(Next(w, l, names))
  {
    hide Enqueue, Defer, Promotes, UpdateOf, CanWake, Promotion, Chain;
  }

  lemma StepKeepsDecision(w: World, l: Label, names: Names, cs: seq<Change>, k: nat, promotes: bool)
    requires Decided(w, cs, k, promotes) && Enabled(w, l)
    ensures Decided(Next(w, l, names), cs, k, promotes)
  {
    hide Enqueue, Defer, Promotes, UpdateOf, CanWake, Promotion, Chain;
  }

  lemma {:induction false} RunKeepsDecision(w: World, run: seq<Label>, names: Names, cs: seq<Change>, k: nat,
                                             promotes: bool)
    requires Decided(w, cs, k, promotes) && Feasible(w, run, names)
    ensures Decided(After(w, run, names), cs, k, promotes)
    decreases |run|
  {
    hide Decided, Enabled, Next;
    if run != [] {
      StepKeepsDecision(w, run[0], names, cs, k, promotes);
      RunKeepsDecision(Next(w, run[0], names), run[1..], names, cs, k, promotes);
    }
  }

  lemma {:induction false} RunsBegin(w: World, run: seq<Label>, names: Names)
    requires Begun(w) && Feasible(w, run, names)
    ensures Begun(After(w, run, names))
    decreases |run|
  {
    hide Begun, Enabled, Next;
    if run != [] {
      StepsBegin(w, run[0], names);
      RunsBegin(Next(w, run[0], names), run[1..], names);
    }
  }

  lemma RecentIsKept(cs: seq<Change>, more: seq<Change>, k: nat)
    requires cs <= more && k < |cs|
    ensures Recent(more, k) == Recent(cs, k)
  {
    assert forall i :: 0 <= i < |cs| ==> more[i] == cs[i];
  }

  /** The run begins the next handler, and ends with its promotion accepted less
      than 15 seconds after an earlier update of its source. */
  ghost predicate PromotesTooSoon(w: World, run: seq<Label>, names: Names) {
    && run != [] && run[0].Begin? && Feasible(w, run, names)
    && w.begun in After(w, run, names).accepted
    && Recent(After(w, run, names).changes, w.begun)
  }

  lemma TooSoonWasDecided(w: World, run: seq<Label>, names: Names)
    requires Begun(w) && PromotesTooSoon(w, run, names)
    ensures Promotes(w.memory, UpdateOf(w.changes[w.begun])) && Recent(w.changes, w.begun)
  {
    var k := w.begun;
    assert k !in w.accepted && k !in w.active;
    var promotes := Promotes(w.memory, UpdateOf(w.changes[k]));
    assert Decided(Next(w, Begin, names), w.changes, k, promotes) by {
      hide Enqueue, Promotes, UpdateOf;
    }
    hide Promotes, UpdateOf, Next, Enabled;
    RunKeepsDecision(Next(w, Begin, names), run[1..], names, w.changes, k, promotes);
    RecentIsKept(w.changes, After(w, run, names).changes, k);
  }

  /** The exact condition, after any run, overlapping or not: beginning the next
      handler can lead to a promotion less than 15 seconds after an earlier update
      of its source if and only if the memory, as it is now, lets the handler
      promote, and there is such an update. */
  lemma TooSoonIff(memory: Memory, queue: Queue, before: seq<Label>, names: Names)
    requires Feasible(Idle(memory, queue), before, names)
    requires var w := After(Idle(memory, queue), before, names); NewPromotion(w, names)
    ensures var w := After(Idle(memory, queue), before, names);
      (exists run :: PromotesTooSoon(w, run, names))
      <==> Promotes(w.memory, UpdateOf(w.changes[w.begun])) && Recent(w.changes, w.begun)
  {
    RunsBegin(Idle(memory, queue), before, names);
    var w := After(Idle(memory, queue), before, names);
    if Promotes(w.memory, UpdateOf(w.changes[w.begun])) && Recent(w.changes, w.begun) {
      SoonerIsPossible(w, names);
    }
    hide Promotes, UpdateOf, Feasible, After, PromotesTooSoon, Recent, Begun;
    forall run | PromotesTooSoon(w, run, names)
      ensures Promotes(w.memory, UpdateOf(w.changes[w.begun])) && Recent(w.changes, w.begun)
    {
      TooSoonWasDecided(w, run, names);
    }
  }

  /** The next change shows a source, and its promotion would be new to the queue. */
  predicate NewPromotion(w: World, names: Names) {
    && w.begun < |w.changes| && Notification(w.changes[w.begun]).Some?
    && IsNew(w.queue, Promotion(w, names, w.begun).eventId)
    && Promotion(w, names, w.begun).eventId != Source(w, w.begun).eventId
  }

  lemma SoonerIsPossible(w: World, names: Names)
    requires NewPromotion(w, names) && Promotes(w.memory, UpdateOf(w.changes[w.begun])) && Recent(w.changes, w.begun)
    ensures exists run :: PromotesTooSoon(w, run, names)
  {
    hide Promotes, UpdateOf, Feasible, After, Recent;
    HandlerPromotes(w, names, "");
    assert PromotesTooSoon(w, UpToPromotion(w.begun), names);
  }

  /** When the handlers have not overlapped so far, this takes another handler that
      has not ended: with nobody active the memory is up to date. */
  lemma TooSoonNeedsOverlap(memory: Memory, queue: Queue, before: seq<Label>, names: Names)
    requires Feasible(Idle(memory, queue), before, names) && OneAtATime(Idle(memory, queue), before, names)
    requires var w := After(Idle(memory, queue), before, names); NewPromotion(w, names)
    ensures var w := After(Idle(memory, queue), before, names);
      (exists run :: PromotesTooSoon(w, run, names))
      <==> w.active != map[] && Promotes(w.memory, UpdateOf(w.changes[w.begun])) && Recent(w.changes, w.begun)
  {
    IdleIsInOrder(memory, queue);
    RunsStayInOrder(Idle(memory, queue), before, memory, names);
    TooSoonIff(memory, queue, before, names);
    var w := After(Idle(memory, queue), before, names);
    hide Feasible, OneAtATime, After, NotificationBridge.After, Promotes, UpdateOf, PromotesTooSoon, NewPromotion;
    if w.active == map[] && Promotes(w.memory, UpdateOf(w.changes[w.begun])) && Recent(w.changes, w.begun) {
      UpToDateIsQuiet(memory, w.changes, w.begun);
      assert false;
    }
  }

  lemma UpToDateIsQuiet(start: Memory, cs: seq<Change>, k: nat)
    requires Chain(cs) && k < |cs| && PromotedAt(start, cs, k)
    ensures !Recent(cs, k)
  {
    hide Promotes, UpdateOf, NotificationBridge.After;
    forall i | 0 <= i < k && Notification(cs[k]).Some? && ShowsSource(cs[i], Notification(cs[k]).value.eventId)
      ensures cs[k].observedAt - cs[i].observedAt >= STALE_REPOST_DEBOUNCE
    {
      PromotionNeedsQuiet(start, cs, i, k);
    }
  }

  /** Every handler of the run begins while the condition does not hold. */
  ghost predicate Careful(w: World, run: seq<Label>, names: Names)
    requires Feasible(w, run, names)
    decreases |run|
  {
    run != [] ==>
      && (run[0].Begin? ==> !(Promotes(w.memory, UpdateOf(w.changes[w.begun])) && Recent(w.changes, w.begun)))
      && Careful(Next(w, run[0], names), run[1..], names)
  }

  /** No accepted promotion came too soon, and none under way will. */
  ghost predicate NoneTooSoon(w: World) {
    && Begun(w)
    && (forall k :: k in w.accepted ==> !Recent(w.changes, k))
    && (forall k :: k in w.active && !w.active[k].Promoted? && w.active[k].promotes ==> !Recent(w.changes, k))
  }

  lemma ArrivalIsNotTooSoon(w: World, c: Change, names: Names)
    requires NoneTooSoon(w) && Enabled(w, Arrive(c))
    ensures NoneTooSoon(Next(w, Arrive(c), names))
  {
    forall k: nat | k < |w.changes|
      ensures Recent(w.changes + [c], k) == Recent(w.changes, k)
    {
      RecentIsKept(w.changes, w.changes + [c], k);
    }
    hide Recent, Chain;
  }

  lemma CarefulStep(w: World, l: Label, names: Names)
    requires NoneTooSoon(w) && Enabled(w, l)
    requires l.Begin? ==> !(Promotes(w.memory, UpdateOf(w.changes[w.begun])) && Recent(w.changes, w.begun))
    ensures NoneTooSoon(Next(w, l, names))
  {
    hide Enqueue, Defer, Promotes, UpdateOf, CanWake, Promotion, Chain, Recent;
    StepsBegin(w, l, names);
    if l.Arrive? {
      ArrivalIsNotTooSoon(w, l.c, names);
    }
    hide Begun;
  }

  lemma {:induction false} CarefulRunsStayQuiet(w: World, run: seq<Label>, names: Names)
    requires NoneTooSoon(w) && Feasible(w, run, names) && Careful(w, run, names)
    ensures NoneTooSoon(After(w, run, names))
    decreases |run|
  {
    hide NoneTooSoon, Enabled, Next, Promotes, Recent;
    if run != [] {
      CarefulStep(w, run[0], names);
      CarefulRunsStayQuiet(Next(w, run[0], names), run[1..], names);
    }
  }

  /** The condition is all that matters: over every run that begins its handlers
      outside it, overlapping as they may, each accepted promotion lies at least 15
      seconds after every earlier update of its source. */
  lemma CarefulRunsKeepQuiet(memory: Memory, queue: Queue, run: seq<Label>, names: Names)
    requires Feasible(Idle(memory, queue), run, names) && Careful(Idle(memory, queue), run, names)
    ensures var w := After(Idle(memory, queue), run, names); forall k :: k in w.accepted ==> !Recent(w.changes, k)
  {
    hide Feasible, Careful, After, Recent;
    CarefulRunsStayQuiet(Idle(memory, queue), run, names);
  }
}
