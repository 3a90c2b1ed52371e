/** The Live View hub of `live_http.py`, which shares one camera session among
    its consumers and yields it to recordings.

    Sections under the hub's guard contain no await, so each is one step.
    Consumers and pausers are named by numbers; the hub makes a producer task and
    a stop event together, and both get the next free number. */
module LiveHub {
  import opened Basics

  datatype TaskPhase =
    | Created                  // `create_task` was called, the task has not run yet
    | Running(stop: nat)       // streaming, with the stop event it read when it began
    | Closing(cancelled: bool) // waiting for the guard in `_finish_producer`
    | Done(cancelled: bool)

  datatype Kind = Video | Audio

  datatype Hub = Hub(
    depth: nat,                  // `_recording_priority_depth`
    video: set<nat>,
    audio: set<nat>,
    producer: Option<nat>,       // `_producer_task`
    stopEvent: Option<nat>,      // `_stop_event`
    tasks: map<nat, TaskPhase>,
    signalled: set<nat>,         // the stop events that are set
    made: nat,                   // tasks (and stop events) made so far
    offeredEof: multiset<nat>)   // every offer of the final None to a consumer's queue

  const IDLE_HUB: Hub := Hub(0, {}, {}, None, None, map[], {}, 0, multiset{})

  predicate Unfinished(h: Hub, t: nat) {
    t in h.tasks && !h.tasks[t].Done?
  }

  /** `task is not None and not task.done()` for the hub's current task */
  predicate ProducerAlive(h: Hub) {
    h.producer.Some? && Unfinished(h, h.producer.value)
  }

  function StartProducer(h: Hub): Hub {
    h.(producer := Some(h.made), stopEvent := Some(h.made), tasks := h.tasks[h.made := Created], made := h.made + 1)
  }

  function Subscribe(h: Hub, kind: Kind, consumer: nat): Hub {
    var added := if kind == Video then h.(video := h.video + {consumer}) else h.(audio := h.audio + {consumer});
    if h.depth == 0 && !ProducerAlive(h) then StartProducer(added) else added
  }

  function SignalStop(h: Hub): Hub {
    if h.stopEvent.Some? then h.(signalled := h.signalled + {h.stopEvent.value}) else h
  }

  function Unsubscribe(h: Hub, kind: Kind, consumer: nat): Hub {
    var dropped := if kind == Video then h.(video := h.video - {consumer}) else h.(audio := h.audio - {consumer});
    if dropped.video == {} && dropped.audio == {} then SignalStop(dropped) else dropped
  }

  /** The guarded part of `async_pause_for_recording`. */
  function EnterPause(h: Hub): Hub {
    var deeper := h.(depth := h.depth + 1);
    if ProducerAlive(h) then SignalStop(deeper) else deeper
  }

  /** `async_resume_after_recording` */
  function Resume(h: Hub): Hub {
    var shallower := if h.depth > 0 then h.(depth := h.depth - 1) else h;
    if shallower.depth == 0 && (h.video != {} || h.audio != {}) && !ProducerAlive(h)
    then StartProducer(shallower) else shallower
  }

  /** The guarded part of `_finish_producer`, run by task `t` as its last act. */
  function FinishProducer(h: Hub, t: nat, cancelled: bool): Hub {
    h.(offeredEof := if h.depth > 0 then h.offeredEof else h.offeredEof + multiset(h.video) + multiset(h.audio),
       producer := None, stopEvent := None, tasks := h.tasks[t := Done(cancelled)])
  }

  class LiveViewHub {
    var depth: nat
    var video: set<nat>
    var audio: set<nat>
    var producer: Option<nat>
    var stopEvent: Option<nat>
    var tasks: map<nat, TaskPhase>
    var signalled: set<nat>
    var made: nat
    var offeredEof: multiset<nat>

    function State(): Hub
      reads this
    {
      Hub(depth, video, audio, producer, stopEvent, tasks, signalled, made, offeredEof)
    }

    constructor ()
      ensures State() == IDLE_HUB
    {
      depth, video, audio, producer, stopEvent := 0, {}, {}, None, None;
      tasks, signalled, made, offeredEof := map[], {}, 0, multiset{};
    }

    method CreateProducer()
      modifies this
      ensures State() == StartProducer(old(State()))
    {
      stopEvent := Some(made);
      producer := Some(made);
      tasks := tasks[made := Created];
      made := made + 1;
    }

    method SubscribeConsumer(kind: Kind, consumer: nat)
      modifies this
      ensures State() == Subscribe(old(State()), kind, consumer)
    {
      if kind == Video {
        video := video + {consumer};
      } else {
        audio := audio + {consumer};
      }
      if depth == 0 && (producer.None? || !Unfinished(State(), producer.value)) {
        CreateProducer();
      }
    }

    method UnsubscribeConsumer(kind: Kind, consumer: nat)
      modifies this
      ensures State() == Unsubscribe(old(State()), kind, consumer)
    {
      if kind == Video {
        video := video - {consumer};
      } else {
        audio := audio - {consumer};
      }
      if video == {} && audio == {} && stopEvent.Some? {
        signalled := signalled + {stopEvent.value};
      }
    }

    method PauseForRecording() returns (task: Option<nat>, preempted: bool)
      modifies this
      ensures State() == EnterPause(old(State()))
      ensures task == old(producer) && preempted == ProducerAlive(old(State()))
    {
      depth := depth + 1;
      task := producer;
      preempted := false;
      if task.Some? && Unfinished(State(), task.value) {
        preempted := true;
        if stopEvent.Some? {
          signalled := signalled + {stopEvent.value};
        }
      }
    }

    method ResumeAfterRecording()
      modifies this
      ensures State() == Resume(old(State()))
    {
      if depth > 0 {
        depth := depth - 1;
      }
      if depth == 0 && (video != {} || audio != {}) && (producer.None? || !Unfinished(State(), producer.value)) {
        CreateProducer();
      }
    }

    method Finish(t: nat, cancelled: bool)
      modifies this
      ensures State() == FinishProducer(old(State()), t, cancelled)
    {
      if depth == 0 {
        offeredEof := offeredEof + multiset(video) + multiset(audio);
      }
      producer := None;
      stopEvent := None;
      tasks := tasks[t := Done(cancelled)];
    }
  }
}

/** All interleavings of consumers, recordings and producer tasks over one hub. */
module HubProtocol {
  import opened Basics
  import opened LiveHub

  datatype Hold =
    | Awaiting(task: nat)    // waiting up to eight seconds for the producer to stop
    | Cancelling(task: nat)  // the wait timed out; the task has been cancelled
    | Holding                // the pause has returned, the recording has the camera
    | Broken                 // the pause raised: someone else cancelled its task

  datatype World = World(hub: Hub, pausers: map<nat, Hold>)

  datatype Label =
    | Join(kind: Kind, consumer: nat)
    | Leave(kind: Kind, consumer: nat)
    | Pause(p: nat)
    | PauseReturns(p: nat)
    | PauseTimesOut(p: nat)
    | PauseBreaks(p: nat)
    | Release(p: nat)
    | Begin(t: nat)        // the task's first step: it reads its stop event
    | Refuse(t: nat)       // the configuration is incomplete
    | Ends(t: nat)         // the stream is over, for whatever reason
    | Finishes(t: nat)
    | Overflow(t: nat)     // a full consumer queue stops the session

  const START: World := World(IDLE_HUB, map[])

  predicate Enabled(w: World, l: Label) {
    match l
    case Join(_, c) => c !in w.hub.video && c !in w.hub.audio && c !in w.hub.offeredEof
    case Leave(_, _) => true
    case Pause(p) => p !in w.pausers
    case PauseReturns(p) =>
      p in w.pausers
      && ((w.pausers[p].Awaiting? && Ended(w.hub, w.pausers[p].task, false))
          || (w.pausers[p].Cancelling?
              && (Ended(w.hub, w.pausers[p].task, false) || Ended(w.hub, w.pausers[p].task, true))))
    case PauseTimesOut(p) => p in w.pausers && w.pausers[p].Awaiting? && Unfinished(w.hub, w.pausers[p].task)
    case PauseBreaks(p) => p in w.pausers && w.pausers[p].Awaiting? && Ended(w.hub, w.pausers[p].task, true)
    case Release(p) => p in w.pausers && w.pausers[p].Holding?
    case Begin(t) => In(w.hub, t, Created)
    case Refuse(t) => In(w.hub, t, Created)
    case Ends(t) => t in w.hub.tasks && w.hub.tasks[t].Running?
    case Finishes(t) => t in w.hub.tasks && w.hub.tasks[t].Closing?
    case Overflow(t) => t in w.hub.tasks && w.hub.tasks[t].Running?
  }

  predicate In(h: Hub, t: nat, phase: TaskPhase) {
    t in h.tasks && h.tasks[t] == phase
  }

  predicate Ended(h: Hub, t: nat, cancelled: bool) {
    In(h, t, Done(cancelled))
  }

  /** Cancelling a task that has not begun ends it at once, without its cleanup;
      a streaming one goes to its cleanup; one waiting for the guard loses it. */
  function Cancelled(phase: TaskPhase): TaskPhase {
    match phase
    case Created => Done(true)
    case Running(_) => Closing(true)
    case Closing(_) => Done(true)
    case Done(c) => Done(c)
  }

  function SetTask(w: World, t: nat, phase: TaskPhase): World {
    w.(hub := w.hub.(tasks := w.hub.tasks[t := phase]))
  }

  function Next(w: World, l: Label): World
    requires Enabled(w, l)
  {
    match l
    case Join(kind, c) => w.(hub := Subscribe(w.hub, kind, c))
    case Leave(kind, c) => w.(hub := Unsubscribe(w.hub, kind, c))
    case Pause(p) =>
      World(EnterPause(w.hub), w.pausers[p := if ProducerAlive(w.hub) then Awaiting(w.hub.producer.value) else Holding])
    case PauseReturns(p) => w.(pausers := w.pausers[p := Holding])
    case PauseTimesOut(p) =>
      var t := w.pausers[p].task;
      SetTask(w, t, Cancelled(w.hub.tasks[t])).(pausers := w.pausers[p := Cancelling(t)])
    case PauseBreaks(p) => w.(pausers := w.pausers[p := Broken])
    case Release(p) => World(Resume(w.hub), w.pausers - {p})
    case Begin(t) =>
      if w.hub.stopEvent.Some? then SetTask(w, t, Running(w.hub.stopEvent.value)) else SetTask(w, t, Closing(false))
    case Refuse(t) => SetTask(w, t, Closing(false))
    case Ends(t) => SetTask(w, t, Closing(false))
    case Finishes(t) => w.(hub := FinishProducer(w.hub, t, w.hub.tasks[t].cancelled))
    case Overflow(_) => w.(hub := SignalStop(w.hub))
  }

  predicate Feasible(w: World, run: seq<Label>)
    decreases |run|
  {
    run == [] || (Enabled(w, run[0]) && Feasible(Next(w, run[0]), run[1..]))
  }

  function After(w: World, run: seq<Label>): World
    requires Feasible(w, run)
    decreases |run|
  {
    if run == [] then w else After(Next(w, run[0]), run[1..])
  }

  // ---- the invariant ----

  /** Only the hub's current task can be unfinished; it listens to the hub's
      current stop event, and that event is set as soon as anyone pauses. */
  ghost predicate OneProducer(h: Hub) {
    && (forall t :: t in h.tasks ==> t < h.made)
    && (forall e :: e in h.signalled ==> e < h.made)
    && (h.producer.Some? ==> h.producer.value in h.tasks)
    && h.stopEvent == h.producer
    && (forall t :: t in h.tasks && !h.tasks[t].Done? ==>
          && h.producer == Some(t) && h.stopEvent == Some(t)
          && (h.tasks[t].Running? ==> h.tasks[t].stop == t)
          && (h.depth > 0 ==> t in h.signalled))
  }

  ghost predicate Quiet(h: Hub) {
    forall t :: t in h.tasks ==> h.tasks[t].Done?
  }

  /** Whoever holds the camera holds it alone; whoever waits, waits for the only
      producer there is. */
  ghost predicate PausersExclude(w: World) {
    && w.hub.depth == |w.pausers|
    && (forall p :: p in w.pausers && (w.pausers[p].Holding? || w.pausers[p].Broken?) ==> Quiet(w.hub))
    && (forall p :: p in w.pausers && (w.pausers[p].Awaiting? || w.pausers[p].Cancelling?) ==>
          w.pausers[p].task in w.hub.tasks
          && forall t :: t in w.hub.tasks && !w.hub.tasks[t].Done? ==> t == w.pausers[p].task)
  }

  /** With no recording in the way, a consumer is being served or has been told to
      reconnect. */
  ghost predicate NobodyStranded(h: Hub) {
    h.depth == 0 && Quiet(h) ==> forall c :: c in h.video + h.audio ==> c in h.offeredEof
  }

  ghost predicate HubInv(w: World) {
    OneProducer(w.hub) && PausersExclude(w) && NobodyStranded(w.hub)
  }

  lemma PauserCount(m: map<nat, Hold>, p: nat, hold: Hold)
    ensures |m[p := hold]| == if p in m then |m| else |m| + 1
    ensures p in m ==> |m - {p}| == |m| - 1
    ensures p in m ==> |m| > 0
  {
    assert m[p := hold].Keys == m.Keys + {p};
    assert |m[p := hold]| == |m[p := hold].Keys| && |m| == |m.Keys|;
    if p in m {
      assert m.Keys + {p} == m.Keys;
      assert (m - {p}).Keys == m.Keys - {p};
      assert m.Keys == (m.Keys - {p}) + {p};
      assert |m - {p}| == |(m - {p}).Keys|;
    }
  }

  lemma AliveOrQuiet(h: Hub)
    requires OneProducer(h)
    ensures ProducerAlive(h) || Quiet(h)
  {
  }

  lemma StartKeeps(h: Hub)
    requires OneProducer(h) && !ProducerAlive(h) && h.depth == 0
    ensures var h' := StartProducer(h);
            && OneProducer(h') && !Quiet(h') && h'.tasks[h.made] == Created
            && h'.stopEvent == Some(h.made) && h.made !in h'.signalled
  {
    AliveOrQuiet(h);
  }

  lemma NoPausers(w: World)
    requires w.hub.depth == |w.pausers| == 0
    ensures w.pausers == map[]
  {
  }

  lemma JoinStep(w: World, kind: Kind, c: nat)
    requires HubInv(w) && Enabled(w, Join(kind, c))
    ensures HubInv(Next(w, Join(kind, c)))
  {
    AliveOrQuiet(w.hub);
    var h := if kind == Video then w.hub.(video := w.hub.video + {c}) else w.hub.(audio := w.hub.audio + {c});
    assert OneProducer(h) && ProducerAlive(h) == ProducerAlive(w.hub);
    if h.depth == 0 && !ProducerAlive(h) {
      StartKeeps(h);
      NoPausers(w);
    }
    hide StartProducer, OneProducer;
  }

  lemma SignalKeeps(h: Hub)
    requires OneProducer(h)
    ensures OneProducer(SignalStop(h))
  {
  }

  lemma SameTasks(w: World, w': World)
    requires PausersExclude(w) && w'.pausers == w.pausers && w'.hub.tasks == w.hub.tasks && w'.hub.depth == w.hub.depth
    ensures PausersExclude(w') && Quiet(w'.hub) == Quiet(w.hub)
  {
  }

  lemma UnsubscribeKeeps(h: Hub, kind: Kind, c: nat)
    requires OneProducer(h)
    ensures var h' := Unsubscribe(h, kind, c);
            && OneProducer(h') && h'.tasks == h.tasks && h'.depth == h.depth && h'.offeredEof == h.offeredEof
            && h'.video + h'.audio <= h.video + h.audio
  {
    var d := if kind == Video then h.(video := h.video - {c}) else h.(audio := h.audio - {c});
    assert OneProducer(d);
    SignalKeeps(d);
    hide OneProducer;
  }

  lemma LeaveStep(w: World, kind: Kind, c: nat)
    requires HubInv(w) && Enabled(w, Leave(kind, c))
    ensures HubInv(Next(w, Leave(kind, c)))
  {
    hide OneProducer, PausersExclude, Quiet, Unsubscribe, Enabled;
    UnsubscribeKeeps(w.hub, kind, c);
    SameTasks(w, w.(hub := Unsubscribe(w.hub, kind, c)));
  }

  lemma PauseStep(w: World, p: nat)
    requires HubInv(w) && Enabled(w, Pause(p))
    ensures HubInv(Next(w, Pause(p)))
  {
    AliveOrQuiet(w.hub);
    PauserCount(w.pausers, p, Next(w, Pause(p)).pausers[p]);
    assert OneProducer(Next(w, Pause(p)).hub);
    hide OneProducer;
  }

  lemma ReturnStep(w: World, l: Label)
    requires HubInv(w) && Enabled(w, l) && (l.PauseReturns? || l.PauseBreaks?)
    ensures HubInv(Next(w, l)) && Quiet(w.hub)
  {
    TaskOver(w, l.p);
    hide OneProducer, NobodyStranded, Quiet, Enabled;
    ReplaceQuiet(w, l.p, Holding);
    ReplaceQuiet(w, l.p, Broken);
  }

  lemma TaskOver(w: World, p: nat)
    requires PausersExclude(w) && p in w.pausers && (w.pausers[p].Awaiting? || w.pausers[p].Cancelling?)
    ensures !Unfinished(w.hub, w.pausers[p].task) ==> Quiet(w.hub)
  {
  }

  lemma ReplaceQuiet(w: World, p: nat, hold: Hold)
    requires PausersExclude(w) && p in w.pausers && Quiet(w.hub) && (hold == Holding || hold == Broken)
    ensures PausersExclude(w.(pausers := w.pausers[p := hold]))
  {
    PauserCount(w.pausers, p, hold);
    hide Quiet;
  }

  lemma ReleaseStep(w: World, p: nat)
    requires HubInv(w) && Enabled(w, Release(p))
    ensures HubInv(Next(w, Release(p)))
  {
    PauserCount(w.pausers, p, Holding);
    var h := w.hub.(depth := w.hub.depth - 1);
    assert Quiet(w.hub) && OneProducer(h) && !ProducerAlive(h);
    ResumeKeeps(w.hub);
    hide OneProducer, Resume, Quiet, NobodyStranded;
    var m := w.pausers - {p};
    assert forall q :: q in m ==> q in w.pausers && m[q] == w.pausers[q];
    if Resume(w.hub).tasks != w.hub.tasks {
      NoPausers(World(Resume(w.hub), m));
    } else {
      FewerPausers(w, m, Resume(w.hub));
    }
  }

  lemma ResumeKeeps(h: Hub)
    requires OneProducer(h) && Quiet(h) && h.depth > 0
    ensures var h' := Resume(h);
            && OneProducer(h') && h'.depth == h.depth - 1 && NobodyStranded(h')
            && (h'.tasks != h.tasks ==> h'.depth == 0)
  {
    if h.depth == 1 && (h.video != {} || h.audio != {}) {
      StartKeeps(h.(depth := 0));
      hide OneProducer;
    }
  }

  lemma FewerPausers(w: World, m: map<nat, Hold>, h: Hub)
    requires PausersExclude(w) && h.tasks == w.hub.tasks && h.depth == |m|
    requires forall q :: q in m ==> q in w.pausers && m[q] == w.pausers[q]
    ensures PausersExclude(World(h, m))
  {
  }

  lemma TimeOutStep(w: World, p: nat)
    requires HubInv(w) && Enabled(w, PauseTimesOut(p))
    ensures HubInv(Next(w, PauseTimesOut(p)))
  {
    PauserCount(w.pausers, p, Cancelling(w.pausers[p].task));
  }

  lemma StreamStep(w: World, l: Label)
    requires HubInv(w) && Enabled(w, l) && (l.Begin? || l.Refuse? || l.Ends?)
    ensures HubInv(Next(w, l))
  {
    assert w.hub.producer == Some(l.t) && w.hub.stopEvent == Some(l.t);
    assert Next(w, l).hub.tasks.Keys == w.hub.tasks.Keys;
  }

  lemma FinishStep(w: World, t: nat)
    requires HubInv(w) && Enabled(w, Finishes(t))
    ensures HubInv(Next(w, Finishes(t)))
  {
    assert w.hub.producer == Some(t) && w.hub.stopEvent == Some(t);
    assert Quiet(Next(w, Finishes(t)).hub);
  }

  lemma OverflowStep(w: World, t: nat)
    requires HubInv(w) && Enabled(w, Overflow(t))
    ensures HubInv(Next(w, Overflow(t)))
  {
    SignalKeeps(w.hub);
    SameTasks(w, Next(w, Overflow(t)));
    hide OneProducer, PausersExclude, Quiet;
  }

  lemma NextKeepsInv(w: World, l: Label)
    requires HubInv(w) && Enabled(w, l)
    ensures HubInv(Next(w, l))
  {
    hide HubInv, Enabled, Next;
    match l
    case Join(kind, c) => JoinStep(w, kind, c);
    case Leave(kind, c) => LeaveStep(w, kind, c);
    case Pause(p) => PauseStep(w, p);
    case PauseReturns(_) => ReturnStep(w, l);
    case PauseBreaks(_) => ReturnStep(w, l);
    case Release(p) => ReleaseStep(w, p);
    case PauseTimesOut(p) => TimeOutStep(w, p);
    case Begin(_) => StreamStep(w, l);
    case Refuse(_) => StreamStep(w, l);
    case Ends(_) => StreamStep(w, l);
    case Finishes(t) => FinishStep(w, t);
    case Overflow(t) => OverflowStep(w, t);
  }

  lemma {:induction false} RunKeepsInv(w: World, run: seq<Label>)
    requires HubInv(w) && Feasible(w, run)
    ensures HubInv(After(w, run))
    decreases |run|
  {
    hide HubInv, Enabled, Next;
    if run != [] {
      NextKeepsInv(w, run[0]);
      RunKeepsInv(Next(w, run[0]), run[1..]);
    }
  }

  // ---- what the invariant means ----

  /** At every point of every run: at most one producer task is unfinished, the
      depth counts the outstanding pauses, no producer is alive once a pause has
      returned, a producer alive during a pause has been told to stop, and with
      no recording about no consumer waits without a producer or a final None. */
  lemma HubArbitration(w: World, run: seq<Label>)
    requires w == START && Feasible(w, run)
    ensures var end := After(w, run);
            && (forall t, u :: t in end.hub.tasks && u in end.hub.tasks ==>
                  end.hub.tasks[t].Done? || end.hub.tasks[u].Done? || t == u)
            && end.hub.depth == |end.pausers|
            && (forall p :: p in end.pausers && end.pausers[p].Holding? ==> Quiet(end.hub))
            && (forall t :: t in end.hub.tasks && !end.hub.tasks[t].Done? && end.hub.depth > 0 ==>
                  t in end.hub.signalled)
            && NobodyStranded(end.hub)
  {
    hide Enabled, Next, NobodyStranded;
    NobodyYet();
    RunKeepsInv(w, run);
  }

  lemma NobodyYet()
    ensures HubInv(START) && CleanWaits(START) && CancelsClose(START)
  {
  }

  lemma CountIsZero(m: map<nat, Hold>)
    ensures |m| == 0 <==> m == map[]
  {
  }

  /** While the depth is positive nothing but a release makes a producer or offers
      the final None. */
  lemma ClosedGateIsStill(w: World, l: Label)
    requires Enabled(w, l) && !l.Release? && (w.hub.depth > 0 || l.Pause?)
    ensures Next(w, l).hub.made == w.hub.made && Next(w, l).hub.offeredEof == w.hub.offeredEof
  {
  }

  lemma EarlyReleaseIsStill(w: World, p: nat)
    requires Enabled(w, Release(p)) && w.hub.depth > 1
    ensures Next(w, Release(p)).hub.made == w.hub.made && Next(w, Release(p)).hub.offeredEof == w.hub.offeredEof
  {
  }

  /** No producer is made and no final None is offered while anyone holds or awaits
      the camera. */
  lemma PausedHubIsStill(w: World, l: Label)
    requires HubInv(w) && Enabled(w, l) && Next(w, l).pausers != map[]
    ensures Next(w, l).hub.made == w.hub.made
    ensures w.pausers != map[] ==> Next(w, l).hub.offeredEof == w.hub.offeredEof
  {
    CountIsZero(w.pausers);
    if l.Release? {
      PauserCount(w.pausers, l.p, Holding);
      CountIsZero(w.pausers - {l.p});
      hide OneProducer, NobodyStranded, Resume;
      EarlyReleaseIsStill(w, l.p);
    } else {
      assert w.pausers != map[] || l.Pause?;
      hide OneProducer, NobodyStranded, Next, Enabled;
      ClosedGateIsStill(w, l);
    }
  }

  /** `p` keeps its hold throughout. */
  ghost predicate Holds(w: World, run: seq<Label>, p: nat)
    requires Feasible(w, run)
    decreases |run|
  {
    p in w.pausers && (run != [] ==> Holds(Next(w, run[0]), run[1..], p))
  }

  /** Nobody subscribes or unsubscribes. */
  ghost predicate SameViewers(run: seq<Label>) {
    forall i :: 0 <= i < |run| ==> !run[i].Join? && !run[i].Leave?
  }

  lemma ViewersStay(w: World, l: Label)
    requires Enabled(w, l) && !l.Join? && !l.Leave?
    ensures Next(w, l).hub.video == w.hub.video && Next(w, l).hub.audio == w.hub.audio
  {
  }

  /** From a recording's pause to its release nothing is started and nobody is
      told to reconnect, whatever consumers and other recordings do meanwhile; and
      no consumer is lost but by its own unsubscribing. */
  lemma {:induction false} RecordingBracket(w: World, run: seq<Label>, p: nat)
    requires HubInv(w) && Feasible(w, run) && Holds(w, run, p)
    ensures HubInv(After(w, run))
    ensures After(w, run).hub.made == w.hub.made && After(w, run).hub.offeredEof == w.hub.offeredEof
    ensures SameViewers(run) ==> After(w, run).hub.video == w.hub.video && After(w, run).hub.audio == w.hub.audio
    decreases |run|
  {
    hide HubInv, Enabled, Next;
    if run != [] {
      NextKeepsInv(w, run[0]);
      assert p in Next(w, run[0]).pausers;
      PausedHubIsStill(w, run[0]);
      RecordingBracket(Next(w, run[0]), run[1..], p);
      if SameViewers(run) {
        ViewersStay(w, run[0]);
      }
    }
  }

  /** The last release restarts Live View for whoever is waiting, with a stop
      event that is not set. */
  lemma LastReleaseRestarts(w: World, p: nat)
    requires HubInv(w) && Enabled(w, Release(p)) && |w.pausers| == 1 && w.hub.video + w.hub.audio != {}
    ensures var h := Next(w, Release(p)).hub;
            && h.depth == 0 && ProducerAlive(h) && h.tasks[h.producer.value].Created?
            && h.stopEvent.Some? && h.stopEvent.value !in h.signalled
            && h.video == w.hub.video && h.audio == w.hub.audio
  {
    StartKeeps(w.hub.(depth := 0));
  }

  // ---- when a pause can raise ----

  /** `p` waits for a producer that is not finished. */
  predicate Waits(w: World, p: nat) {
    p in w.pausers && (w.pausers[p].Awaiting? || w.pausers[p].Cancelling?) && Unfinished(w.hub, w.pausers[p].task)
  }

  predicate SomebodyWaits(w: World) {
    exists p :: p in w.pausers && Waits(w, p)
  }

  predicate WasCancelled(phase: TaskPhase) {
    phase == Closing(true) || phase == Done(true)
  }

  /** Cancelled tasks are on their way out. */
  ghost predicate CancelsClose(w: World) {
    forall p :: p in w.pausers && w.pausers[p].Cancelling? ==>
      w.pausers[p].task in w.hub.tasks
      && var phase := w.hub.tasks[w.pausers[p].task]; phase == Closing(true) || phase.Done?
  }

  /** At most one pauser waits, and nobody's task was cancelled by anyone else. */
  ghost predicate CleanWaits(w: World) {
    && (forall p, q :: Waits(w, p) && Waits(w, q) ==> p == q)
    && (forall p :: p in w.pausers && w.pausers[p].Awaiting? && w.pausers[p].task in w.hub.tasks ==>
          !WasCancelled(w.hub.tasks[w.pausers[p].task]))
    && (forall t :: t in w.hub.tasks && w.hub.tasks[t] == Closing(true) ==>
          exists p :: p in w.pausers && w.pausers[p] == Cancelling(t))
  }

  predicate IsPauserStep(l: Label) {
    l.Pause? || l.PauseReturns? || l.PauseBreaks? || l.Release? || l.PauseTimesOut?
  }

  lemma TasksOnlyEnd(w: World, l: Label)
    requires HubInv(w) && Enabled(w, l)
    ensures forall t :: t in w.hub.tasks ==>
              && t in Next(w, l).hub.tasks
              && (w.hub.tasks[t].Done? ==> Next(w, l).hub.tasks[t] == w.hub.tasks[t])
              && (w.hub.tasks[t] == Closing(true) ==>
                    Next(w, l).hub.tasks[t] == Closing(true) || Next(w, l).hub.tasks[t] == Done(true))
  {
    hide NobodyStranded, PausersExclude;
  }

  lemma JoiningCancelsNothing(h: Hub, kind: Kind, c: nat)
    ensures Unsubscribe(h, kind, c).tasks == h.tasks
    ensures forall t :: t in Subscribe(h, kind, c).tasks ==>
              (t in h.tasks && Subscribe(h, kind, c).tasks[t] == h.tasks[t]) || Subscribe(h, kind, c).tasks[t].Created?
  {
  }

  /** Steps of consumers and tasks cancel nothing. */
  lemma CancelsNothing(w: World, l: Label)
    requires Enabled(w, l) && !IsPauserStep(l)
    ensures var w' := Next(w, l);
            && w'.pausers == w.pausers
            && (forall t :: t in w'.hub.tasks && WasCancelled(w'.hub.tasks[t]) ==>
                  t in w.hub.tasks && WasCancelled(w.hub.tasks[t]))
            && (forall t :: t in w'.hub.tasks && w'.hub.tasks[t] == Closing(true) ==>
                  t in w.hub.tasks && w.hub.tasks[t] == Closing(true))
  {
    hide Subscribe, Unsubscribe, EnterPause, Resume, Cancelled, ProducerAlive;
    match l
    case Join(kind, c) => JoiningCancelsNothing(w.hub, kind, c);
    case Leave(kind, c) => JoiningCancelsNothing(w.hub, kind, c);
    case _ =>
  }

  lemma CancelsCloseStep(w: World, l: Label)
    requires HubInv(w) && CancelsClose(w) && Enabled(w, l)
    ensures CancelsClose(Next(w, l))
  {
    TasksOnlyEnd(w, l);
    if !IsPauserStep(l) {
      CancelsNothing(w, l);
      hide HubInv, Next, Enabled;
    } else {
      hide NobodyStranded, OneProducer, PausersExclude;
    }
  }

  lemma OtherStepKeepsClean(w: World, l: Label)
    requires HubInv(w) && CleanWaits(w) && Enabled(w, l) && !IsPauserStep(l)
    ensures CleanWaits(Next(w, l))
  {
    TasksOnlyEnd(w, l);
    CancelsNothing(w, l);
    assert PausersExclude(w);
    assert forall p :: Waits(Next(w, l), p) ==> Waits(w, p);
    hide HubInv, OneProducer, Next, Enabled;
  }

  lemma SomebodyClosesIt(w: World)
    requires CleanWaits(w)
    ensures SomebodyWaits(w) || forall t :: t in w.hub.tasks ==> w.hub.tasks[t] != Closing(true)
  {
    forall t | t in w.hub.tasks && w.hub.tasks[t] == Closing(true)
      ensures SomebodyWaits(w)
    {
      var q :| q in w.pausers && w.pausers[q] == Cancelling(t);
      assert Waits(w, q);
    }
  }

  lemma PauseKeepsClean(w: World, p: nat)
    requires HubInv(w) && CleanWaits(w) && Enabled(w, Pause(p)) && !SomebodyWaits(w)
    ensures CleanWaits(Next(w, Pause(p)))
  {
    var w' := Next(w, Pause(p));
    assert w'.hub.tasks == w.hub.tasks;
    assert forall q :: q in w.pausers ==> !Waits(w, q);
    assert forall q :: Waits(w', q) ==> q == p;
    SomebodyClosesIt(w);
    hide NobodyStranded;
  }

  lemma OnlyWaiter(w: World, p: nat, q: nat)
    requires PausersExclude(w) && CleanWaits(w) && Waits(w, p)
    requires q in w.pausers && (w.pausers[q].Awaiting? || w.pausers[q].Cancelling?)
    ensures q == p
  {
    assert Waits(w, q);
  }

  lemma TimeOutKeepsClean(w: World, p: nat)
    requires HubInv(w) && CleanWaits(w) && Enabled(w, PauseTimesOut(p))
    ensures CleanWaits(Next(w, PauseTimesOut(p)))
  {
    var w' := Next(w, PauseTimesOut(p));
    assert Waits(w, p);
    forall q | q in w.pausers && (w.pausers[q].Awaiting? || w.pausers[q].Cancelling?)
      ensures q == p
    {
      OnlyWaiter(w, p, q);
    }
    assert w'.pausers[p] == Cancelling(w.pausers[p].task);
    assert forall u :: u in w'.hub.tasks && w'.hub.tasks[u] == Closing(true) ==> u == w.pausers[p].task;
    hide HubInv;
  }

  lemma ReturnKeepsClean(w: World, l: Label)
    requires HubInv(w) && CleanWaits(w) && Enabled(w, l) && (l.PauseReturns? || l.PauseBreaks?)
    ensures !l.PauseBreaks?
    ensures CleanWaits(Next(w, l))
  {
    assert Quiet(w.hub);
    var w' := Next(w, l);
    assert w'.hub == w.hub;
    hide HubInv;
    assert forall q :: !Waits(w', q);
  }

  lemma ResumeAddsOne(h: Hub)
    requires OneProducer(h)
    ensures forall t :: t in h.tasks ==> t in Resume(h).tasks && Resume(h).tasks[t] == h.tasks[t]
    ensures forall t :: t in Resume(h).tasks && t !in h.tasks ==> Resume(h).tasks[t].Created?
  {
  }

  lemma ReleaseKeepsClean(w: World, p: nat)
    requires HubInv(w) && CleanWaits(w) && Enabled(w, Release(p))
    ensures CleanWaits(Next(w, Release(p)))
  {
    ResumeAddsOne(w.hub);
    hide NobodyStranded, OneProducer, Resume, CleanWaits;
    var w' := Next(w, Release(p));
    assert forall q :: q in w'.pausers ==> q in w.pausers && w'.pausers[q] == w.pausers[q];
    hide Next, Enabled;
    QuietIsClean(w, w');
  }

  lemma QuietIsClean(w: World, w': World)
    requires CleanWaits(w) && PausersExclude(w) && Quiet(w.hub)
    requires forall q :: q in w'.pausers ==> q in w.pausers && w'.pausers[q] == w.pausers[q]
    requires forall t :: t in w.hub.tasks ==> t in w'.hub.tasks && w'.hub.tasks[t] == w.hub.tasks[t]
    requires forall t :: t in w'.hub.tasks && t !in w.hub.tasks ==> w'.hub.tasks[t].Created?
    ensures CleanWaits(w')
  {
    assert forall q :: !Waits(w', q);
  }

  lemma StepKeepsClean(w: World, l: Label)
    requires HubInv(w) && CleanWaits(w) && Enabled(w, l) && (l.Pause? ==> !SomebodyWaits(w))
    ensures !l.PauseBreaks?
    ensures CleanWaits(Next(w, l))
  {
    hide HubInv, CleanWaits, Enabled, Next, SomebodyWaits;
    match l
    case Pause(p) => PauseKeepsClean(w, p);
    case PauseTimesOut(p) => TimeOutKeepsClean(w, p);
    case PauseReturns(_) => ReturnKeepsClean(w, l);
    case PauseBreaks(_) => ReturnKeepsClean(w, l);
    case Release(p) => ReleaseKeepsClean(w, p);
    case _ => OtherStepKeepsClean(w, l);
  }

  /** Every pause of the run is entered while nobody waits for a producer. */
  ghost predicate Guarded(w: World, run: seq<Label>)
    requires Feasible(w, run)
    decreases |run|
  {
    run != [] ==> (run[0].Pause? ==> !SomebodyWaits(w)) && Guarded(Next(w, run[0]), run[1..])
  }

  predicate Raises(run: seq<Label>) {
    exists i :: 0 <= i < |run| && run[i].PauseBreaks?
  }

  /** Pauses entered while nobody waits never raise, nested ones included: a pause
      may be entered while another recording holds the camera. */
  lemma {:induction false} GuardedPausesReturn(w: World, run: seq<Label>)
    requires HubInv(w) && CleanWaits(w) && CancelsClose(w) && Feasible(w, run) && Guarded(w, run)
    ensures !Raises(run)
    ensures HubInv(After(w, run)) && CleanWaits(After(w, run)) && CancelsClose(After(w, run))
    decreases |run|
  {
    hide HubInv, CleanWaits, CancelsClose, Enabled, Next, SomebodyWaits;
    if run != [] {
      NextKeepsInv(w, run[0]);
      StepKeepsClean(w, run[0]);
      CancelsCloseStep(w, run[0]);
      GuardedPausesReturn(Next(w, run[0]), run[1..]);
      assert run == [run[0]] + run[1..];
    }
  }

  lemma Then(w: World, l: Label, rest: seq<Label>)
    requires Enabled(w, l) && Feasible(Next(w, l), rest)
    ensures Feasible(w, [l] + rest) && After(w, [l] + rest) == After(Next(w, l), rest)
    ensures Guarded(Next(w, l), rest) && !l.Pause? ==> Guarded(w, [l] + rest)
    ensures Raises(rest) ==> Raises([l] + rest)
  {
    assert ([l] + rest)[1..] == rest;
    assert forall i :: 0 <= i < |rest| ==> ([l] + rest)[i + 1] == rest[i];
  }

  lemma BreakLast(w: World, q: nat)
    requires Enabled(w, PauseBreaks(q))
    ensures Feasible(w, [PauseBreaks(q)]) && Guarded(w, [PauseBreaks(q)]) && Raises([PauseBreaks(q)])
    ensures q in After(w, [PauseBreaks(q)]).pausers && After(w, [PauseBreaks(q)]).pausers[q].Broken?
  {
    EmptyRun(Next(w, PauseBreaks(q)));
    Then(w, PauseBreaks(q), []);
    assert [PauseBreaks(q)] + [] == [PauseBreaks(q)];
    assert [PauseBreaks(q)][0].PauseBreaks?;
  }

  /** From a closing task that was cancelled, whoever awaits it breaks. */
  lemma ClosingBreaks(w: World, t: nat, q: nat) returns (run: seq<Label>)
    requires In(w.hub, t, Closing(true)) || Ended(w.hub, t, true)
    requires q in w.pausers && w.pausers[q] == Awaiting(t)
    ensures Feasible(w, run) && Guarded(w, run) && Raises(run)
    ensures q in After(w, run).pausers && After(w, run).pausers[q].Broken?
  {
    if Ended(w.hub, t, true) {
      run := [PauseBreaks(q)];
      BreakLast(w, q);
    } else {
      var w1 := Next(w, Finishes(t));
      BreakLast(w1, q);
      run := [Finishes(t)] + [PauseBreaks(q)];
      Then(w, Finishes(t), [PauseBreaks(q)]);
    }
  }

  /** A pause entered while somebody waits can raise, whoever it is that waits and
      however far that wait has come: then its depth is never given back. */
  lemma EntryCanBreak(w: World, q: nat) returns (run: seq<Label>)
    requires HubInv(w) && CancelsClose(w) && SomebodyWaits(w) && Enabled(w, Pause(q))
    ensures Feasible(Next(w, Pause(q)), run) && Guarded(Next(w, Pause(q)), run) && Raises(run)
    ensures var end := After(Next(w, Pause(q)), run); q in end.pausers && end.pausers[q].Broken?
  {
    hide Feasible, After, Guarded, Raises;
    var p :| p in w.pausers && Waits(w, p);
    var t := w.pausers[p].task;
    var w1 := Next(w, Pause(q));
    assert w.hub.producer == Some(t) && w1.pausers[q] == Awaiting(t);
    hide HubInv;
    if w.pausers[p].Cancelling? {
      run := ClosingBreaks(w1, t, q);
    } else {
      var w2 := Next(w1, PauseTimesOut(p));
      var rest := ClosingBreaks(w2, t, q);
      run := [PauseTimesOut(p)] + rest;
      Then(w1, PauseTimesOut(p), rest);
    }
  }

  /** The exact condition, a guard the caller can read before the call: after any
      run whose pauses kept it so far, entering one more pause can make a pause raise
      if and only if somebody waits for an unfinished producer. */
  lemma PauseRaisesIff(before: seq<Label>, q: nat)
    requires Feasible(START, before) && Guarded(START, before) && Enabled(After(START, before), Pause(q))
    ensures var w := After(START, before);
      SomebodyWaits(w)
      <==> exists run: seq<Label> :: Feasible(Next(w, Pause(q)), run) && Guarded(Next(w, Pause(q)), run) && Raises(run)
  {
    var w := After(START, before);
    NobodyYet();
    GuardedPausesReturn(START, before);
    hide HubInv, CleanWaits, CancelsClose, After, Guarded, Feasible, Raises, SomebodyWaits;
    if SomebodyWaits(w) {
      var run := EntryCanBreak(w, q);
    } else {
      NextKeepsInv(w, Pause(q));
      StepKeepsClean(w, Pause(q));
      CancelsCloseStep(w, Pause(q));
      forall run: seq<Label> | Feasible(Next(w, Pause(q)), run) && Guarded(Next(w, Pause(q)), run)
        ensures !Raises(run)
      {
        GuardedPausesReturn(Next(w, Pause(q)), run);
      }
    }
  }

  lemma OneViewerOnePause()
    ensures Enabled(START, Join(Video, 7))
    ensures var w1 := Next(START, Join(Video, 7));
      && Enabled(w1, Pause(1))
      && var w2 := Next(w1, Pause(1));
      && Enabled(w2, Pause(2)) && SomebodyWaits(w2) && CancelsClose(w2)
  {
    assert Waits(Next(Next(START, Join(Video, 7)), Pause(1)), 1);
  }

  /** A concrete run from the idle hub to a broken pause: a viewer joins, one
      recording pauses, another pauses while the first one waits. */
  lemma NestedPauseCanBreak() returns (run: seq<Label>)
    ensures Feasible(START, run) && Raises(run)
    ensures 2 in After(START, run).pausers && After(START, run).pausers[2].Broken?
  {
    hide Feasible, After, Raises, Next, Enabled, HubInv, CancelsClose, SomebodyWaits, Guarded;
    OneViewerOnePause();
    NobodyYet();
    var w1 := Next(START, Join(Video, 7));
    var w2 := Next(w1, Pause(1));
    NextKeepsInv(START, Join(Video, 7));
    NextKeepsInv(w1, Pause(1));
    var rest := EntryCanBreak(w2, 2);
    Then(w2, Pause(2), rest);
    Then(w1, Pause(1), [Pause(2)] + rest);
    Then(START, Join(Video, 7), [Pause(1)] + ([Pause(2)] + rest));
    run := [Join(Video, 7)] + ([Pause(1)] + ([Pause(2)] + rest));
  }

  lemma EmptyRun(w: World)
    ensures Feasible(w, []) && After(w, []) == w
  {
  }
}
