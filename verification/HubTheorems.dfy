/** What starts and stops a Live View session, and who is told, over every run of
    the hub. */
module HubTheorems {
  import opened Basics
  import opened LiveHub
  import opened HubProtocol

  // ---- who watches ----

  /** Whether a consumer of this kind is subscribed after `run`, by its own joining
      and leaving alone. */
  function Subscribed(before: bool, run: seq<Label>, kind: Kind, c: nat): bool
    decreases |run|
  {
    if run == [] then before
    else Subscribed((before || run[0] == Join(kind, c)) && run[0] != Leave(kind, c), run[1..], kind, c)
  }

  function Viewers(h: Hub, kind: Kind): set<nat> {
    if kind == Video then h.video else h.audio
  }

  lemma ViewerStep(w: World, l: Label, kind: Kind, c: nat)
    requires Enabled(w, l)
    ensures c in Viewers(Next(w, l).hub, kind)
            <==> (c in Viewers(w.hub, kind) || l == Join(kind, c)) && l != Leave(kind, c)
  {
  }

  /** The consumers of each kind are those that joined as that kind and have not
      left it since; no recording, no session and no overflow drops one. */
  lemma {:induction false} ViewersAreExact(w: World, run: seq<Label>, kind: Kind, c: nat)
    requires Feasible(w, run)
    ensures c in Viewers(After(w, run).hub, kind) <==> Subscribed(c in Viewers(w.hub, kind), run, kind, c)
    decreases |run|
  {
    hide Enabled, Next, Viewers;
    if run != [] {
      ViewerStep(w, run[0], kind, c);
      ViewersAreExact(Next(w, run[0]), run[1..], kind, c);
    }
  }

  // ---- what stops a session ----

  predicate Watched(h: Hub) {
    h.video != {} || h.audio != {}
  }

  /** The steps that stop the session under way: a recording, a full queue, and the
      last consumer leaving. */
  predicate Stops(w: World, l: Label)
    requires Enabled(w, l)
  {
    l.Pause? || l.Overflow? || (l.Leave? && !Watched(Next(w, l).hub))
  }

  /** Some step of `run` stops the session while task `t` is unfinished. */
  ghost predicate StoppedIn(w: World, run: seq<Label>, t: nat)
    requires Feasible(w, run)
    decreases |run|
  {
    run != []
    && ((Unfinished(w.hub, t) && Stops(w, run[0])) || StoppedIn(Next(w, run[0]), run[1..], t))
  }

  predicate Over(h: Hub, t: nat) {
    t in h.tasks && h.tasks[t].Done?
  }

  lemma SignalsReach(h: Hub, t: nat)
    requires OneProducer(h) && !Over(h, t)
    ensures t in SignalStop(h).signalled <==> t in h.signalled || Unfinished(h, t)
  {
  }

  lemma StopStep(w: World, l: Label, t: nat)
    requires HubInv(w) && Enabled(w, l) && !Over(w.hub, t)
    ensures t in Next(w, l).hub.signalled <==> t in w.hub.signalled || (Unfinished(w.hub, t) && Stops(w, l))
  {
    hide NobodyStranded, PausersExclude;
    SignalsReach(w.hub, t);
    if l.Leave? {
      var h := w.hub;
      var d := if l.kind == Video then h.(video := h.video - {l.consumer}) else h.(audio := h.audio - {l.consumer});
      assert OneProducer(d);
      SignalsReach(d, t);
    }
  }

  /** A pause sets the stop event of the session under way, if there is one, and no
      other. */
  lemma PauseSignals(w: World, p: nat, t: nat)
    requires HubInv(w) && Enabled(w, Pause(p))
    ensures t in Next(w, Pause(p)).hub.signalled <==> t in w.hub.signalled || Unfinished(w.hub, t)
  {
    hide PausersExclude, NobodyStranded;
  }

  lemma {:induction false} OverStaysOver(w: World, run: seq<Label>, t: nat)
    requires HubInv(w) && Feasible(w, run) && Over(w.hub, t)
    ensures Over(After(w, run).hub, t)
    decreases |run|
  {
    hide HubInv, Enabled, Next;
    if run != [] {
      NextKeepsInv(w, run[0]);
      TasksOnlyEnd(w, run[0]);
      OverStaysOver(Next(w, run[0]), run[1..], t);
    }
  }

  /** The stop event of an unfinished session is set if and only if, since the
      session began, a recording paused, a queue overflowed, or the last consumer
      left. While somebody watches undisturbed it is never set. */
  lemma {:induction false} StoppedIff(w: World, run: seq<Label>, t: nat)
    requires HubInv(w) && Feasible(w, run) && Unfinished(After(w, run).hub, t)
    ensures t in After(w, run).hub.signalled <==> t in w.hub.signalled || StoppedIn(w, run, t)
    decreases |run|
  {
    hide HubInv, Enabled, Next, Stops;
    if run != [] {
      if Over(w.hub, t) {
        OverStaysOver(w, run, t);
        assert false;
      }
      NextKeepsInv(w, run[0]);
      StopStep(w, run[0], t);
      StoppedIff(Next(w, run[0]), run[1..], t);
    }
  }

  lemma SessionStoppedIff(run: seq<Label>, t: nat)
    requires Feasible(START, run) && Unfinished(After(START, run).hub, t)
    ensures t in After(START, run).hub.signalled <==> StoppedIn(START, run, t)
  {
    hide HubInv, Feasible, After, StoppedIn;
    NobodyYet();
    StoppedIff(START, run, t);
  }

  /** A session nobody watches has been told to stop. */
  ghost predicate UnwatchedStops(h: Hub) {
    !Watched(h) ==> forall t :: Unfinished(h, t) ==> t in h.signalled
  }

  lemma UnwatchedStep(w: World, l: Label)
    requires HubInv(w) && UnwatchedStops(w.hub) && Enabled(w, l)
    ensures UnwatchedStops(Next(w, l).hub)
  {
    var h := Next(w, l).hub;
    if !Watched(h) {
      forall t | Unfinished(h, t)
        ensures t in h.signalled
      {
        UnwatchedMakesNothing(w, l);
        TasksOnlyEnd(w, l);
        StopStep(w, l, t);
        hide HubInv;
      }
    }
  }

  lemma NothingIsMade(w: World, l: Label)
    requires Enabled(w, l) && !l.Join? && !l.Release?
    ensures Next(w, l).hub.tasks.Keys == w.hub.tasks.Keys
    ensures !l.Leave? ==> Watched(Next(w, l).hub) == Watched(w.hub)
  {
    hide ProducerAlive;
  }

  /** Nothing is started for nobody. */
  lemma UnwatchedMakesNothing(w: World, l: Label)
    requires HubInv(w) && Enabled(w, l) && !Watched(Next(w, l).hub)
    ensures forall t :: Unfinished(Next(w, l).hub, t) ==> Unfinished(w.hub, t)
    ensures !l.Leave? ==> !Watched(w.hub)
  {
    TasksOnlyEnd(w, l);
    if l.Join? || l.Release? {
      hide HubInv;
    } else {
      NothingIsMade(w, l);
      hide HubInv, Enabled, Next;
    }
  }

  /** At every point of every run from the idle hub, a camera session that nobody
      watches has been told to stop. */
  lemma NobodyWatchesNobodyStreams(run: seq<Label>)
    requires Feasible(START, run)
    ensures var h := After(START, run).hub;
            !Watched(h) ==> forall t :: Unfinished(h, t) ==> t in h.signalled
  {
    hide HubInv;
    NobodyYet();
    UnwatchedRun(START, run);
  }

  lemma {:induction false} UnwatchedRun(w: World, run: seq<Label>)
    requires HubInv(w) && UnwatchedStops(w.hub) && Feasible(w, run)
    ensures UnwatchedStops(After(w, run).hub)
    decreases |run|
  {
    hide HubInv, UnwatchedStops, Enabled, Next;
    if run != [] {
      NextKeepsInv(w, run[0]);
      UnwatchedStep(w, run[0]);
      UnwatchedRun(Next(w, run[0]), run[1..]);
    }
  }

  // ---- what starts one ----

  /** A session starts if and only if somebody watches, no recording is about and
      none is under way, at a consumer's joining or a recording's release. */
  lemma StartsIff(w: World, l: Label)
    requires HubInv(w) && Enabled(w, l)
    ensures var h := Next(w, l).hub;
            && (w.hub.made in h.tasks
                <==> Quiet(w.hub) && Watched(h) && h.depth == 0 && (l.Join? || l.Release?))
            && (w.hub.made in h.tasks ==> In(h, w.hub.made, Created) && h.stopEvent == Some(w.hub.made))
  {
    AliveOrQuiet(w.hub);
    hide NobodyStranded, PausersExclude;
  }

  /** A session that is taken up streams, and listens to its own stop event, which
      nobody else's is. */
  lemma BegunSessionStreams(w: World, t: nat)
    requires HubInv(w) && Enabled(w, Begin(t))
    ensures var h := Next(w, Begin(t)).hub;
      && h.tasks[t] == Running(t) && h.producer == Some(t) && h.stopEvent == Some(t)
      && forall u :: u in h.tasks && h.tasks[u].Running? && h.tasks[u].stop == t ==> u == t
  {
    hide PausersExclude, NobodyStranded;
  }

  // ---- who is told ----

  /** How often a session ended, with no recording about, while this consumer was
      subscribed. */
  ghost function Endings(w: World, run: seq<Label>, c: nat): nat
    requires Feasible(w, run)
    decreases |run|
  {
    if run == [] then 0
    else
      (if run[0].Finishes? && w.hub.depth == 0 && (c in w.hub.video || c in w.hub.audio) then 1 else 0)
      + Endings(Next(w, run[0]), run[1..], c)
  }

  lemma OfferStep(w: World, l: Label, c: nat)
    requires Enabled(w, l) && w.hub.video !! w.hub.audio
    ensures Next(w, l).hub.video !! Next(w, l).hub.audio
    ensures Next(w, l).hub.offeredEof[c]
            == w.hub.offeredEof[c]
               + if l.Finishes? && w.hub.depth == 0 && (c in w.hub.video || c in w.hub.audio) then 1 else 0
  {
  }

  /** Every consumer is offered the final None exactly once for every session that
      ends while it is subscribed and no recording is about, and never otherwise. */
  lemma {:induction false} OffersAreCounted(w: World, run: seq<Label>, c: nat)
    requires Feasible(w, run) && w.hub.video !! w.hub.audio
    ensures After(w, run).hub.offeredEof[c] == w.hub.offeredEof[c] + Endings(w, run, c)
    decreases |run|
  {
    hide Enabled, Next;
    if run != [] {
      OfferStep(w, run[0], c);
      OffersAreCounted(Next(w, run[0]), run[1..], c);
    }
  }

  // ---- how sessions end ----

  /** The step takes up task `t`: it begins to stream, or refuses to. */
  predicate TakesUp(l: Label, t: nat) {
    l == Begin(t) || l == Refuse(t)
  }

  ghost predicate TakenUpIn(run: seq<Label>, t: nat) {
    exists i :: 0 <= i < |run| && TakesUp(run[i], t)
  }

  predicate HasBegun(h: Hub, t: nat) {
    t in h.tasks && (h.tasks[t].Running? || h.tasks[t].Closing? || h.tasks[t] == Done(false))
  }

  lemma BeginStep(w: World, l: Label, t: nat)
    requires HubInv(w) && Enabled(w, l) && HasBegun(Next(w, l).hub, t)
    ensures HasBegun(w.hub, t) || TakesUp(l, t)
  {
    hide PausersExclude, NobodyStranded;
  }

  /** A session streams, or cleans up behind itself, only when it was taken up: one
      that is cancelled before that just vanishes, without its cleanup. */
  lemma {:induction false} OnlyBegunSessionsCleanUp(w: World, run: seq<Label>, t: nat)
    requires HubInv(w) && Feasible(w, run) && HasBegun(After(w, run).hub, t)
    ensures HasBegun(w.hub, t) || TakenUpIn(run, t)
    decreases |run|
  {
    hide HubInv, Enabled, Next, HasBegun;
    if run != [] {
      NextKeepsInv(w, run[0]);
      OnlyBegunSessionsCleanUp(Next(w, run[0]), run[1..], t);
      if TakenUpIn(run[1..], t) {
        var i :| 0 <= i < |run[1..]| && TakesUp(run[1..][i], t);
        assert TakesUp(run[i + 1], t);
      } else {
        BeginStep(w, run[0], t);
      }
    }
  }

  /** A session that ended by itself has let go of the hub; what the hub still names
      is unfinished or was cancelled out of its cleanup. */
  ghost predicate EndedLetsGo(h: Hub) {
    h.producer.Some? ==> h.producer.value in h.tasks && h.tasks[h.producer.value] != Done(false)
  }

  lemma LetsGoStep(w: World, l: Label)
    requires HubInv(w) && EndedLetsGo(w.hub) && Enabled(w, l)
    ensures EndedLetsGo(Next(w, l).hub)
    ensures l.Finishes? ==> Next(w, l).hub.producer.None? && Next(w, l).hub.stopEvent.None?
  {
    hide PausersExclude, NobodyStranded;
  }

  lemma {:induction false} EndedSessionsLetGo(w: World, run: seq<Label>)
    requires HubInv(w) && EndedLetsGo(w.hub) && Feasible(w, run)
    ensures EndedLetsGo(After(w, run).hub)
    decreases |run|
  {
    hide HubInv, EndedLetsGo, Enabled, Next;
    if run != [] {
      NextKeepsInv(w, run[0]);
      LetsGoStep(w, run[0]);
      EndedSessionsLetGo(Next(w, run[0]), run[1..]);
    }
  }

  /** When a pause runs out of patience its cancel sends a streaming session to its
      cleanup, and ends one that has not begun, or is in its cleanup, at once. */
  lemma TimeOutEnds(w: World, p: nat)
    requires HubInv(w) && Enabled(w, PauseTimesOut(p))
    ensures var t, h := w.pausers[p].task, Next(w, PauseTimesOut(p)).hub;
      && (Over(h, t) <==> !w.hub.tasks[t].Running?)
      && (Over(h, t) ==> Quiet(h) && Ended(h, t, true))
      && (!Over(h, t) ==> In(h, t, Closing(true)))
  {
    hide NobodyStranded;
  }

  // ---- every guarded pause can return ----

  function TaskSteps(w: World, t: nat): seq<Label>
    requires t in w.hub.tasks
  {
    match w.hub.tasks[t]
    case Created => [Refuse(t), Finishes(t)]
    case Running(_) => [Ends(t), Finishes(t)]
    case Closing(_) => [Finishes(t)]
    case Done(_) => []
  }

  lemma TwoThen(w: World, a: Label, b: Label)
    requires Enabled(w, a) && Enabled(Next(w, a), b)
    ensures Feasible(w, [a, b]) && After(w, [a, b]) == Next(Next(w, a), b)
  {
    hide Enabled, Next;
    EmptyRun(Next(Next(w, a), b));
    Then(Next(w, a), b, []);
    Then(w, a, [b] + []);
    assert [a] + ([b] + []) == [a, b];
  }

  lemma OneThen(w: World, a: Label)
    requires Enabled(w, a)
    ensures Feasible(w, [a]) && After(w, [a]) == Next(w, a)
  {
    hide Enabled, Next;
    EmptyRun(Next(w, a));
    Then(w, a, []);
    assert [a] + [] == [a];
  }

  lemma TaskCanFinish(w: World, t: nat)
    requires t in w.hub.tasks
    ensures Feasible(w, TaskSteps(w, t))
    ensures var end := After(w, TaskSteps(w, t));
      end.pausers == w.pausers && end.hub.tasks == w.hub.tasks[t := Done(WasCancelled(w.hub.tasks[t]))]
  {
    match w.hub.tasks[t]
    case Created => TwoThen(w, Refuse(t), Finishes(t));
    case Running(_) => TwoThen(w, Ends(t), Finishes(t));
    case Closing(_) => OneThen(w, Finishes(t));
    case Done(_) => EmptyRun(w);
  }

  /** No pause that keeps the guard can be stuck: whoever waits, the session it waits
      for can come to its end by at most two steps of its own, and then the pause
      returns. */
  lemma WaitingPauseCanReturn(w: World, p: nat)
    requires HubInv(w) && CleanWaits(w) && CancelsClose(w)
    requires p in w.pausers && (w.pausers[p].Awaiting? || w.pausers[p].Cancelling?)
    ensures var run := TaskSteps(w, w.pausers[p].task);
      && Feasible(w, run) && Enabled(After(w, run), PauseReturns(p))
      && Next(After(w, run), PauseReturns(p)).pausers[p].Holding? && Quiet(After(w, run).hub)
  {
    var t := w.pausers[p].task;
    assert w.pausers[p].Awaiting? ==> !WasCancelled(w.hub.tasks[t]);
    hide OneProducer, NobodyStranded, CleanWaits, CancelsClose, Feasible, After, TaskSteps;
    TaskCanFinish(w, t);
  }
}
