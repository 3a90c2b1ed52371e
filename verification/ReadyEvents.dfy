/** Recording-ready events over runs of the serialized worker with restarts.

    A session reads the completed fingerprints, and later either gives up, finds
    that its recording is among them, or remembers a new recording, waits for its
    own save and publishes the ready event. Saves are written one after another;
    a restart loads whatever was written last. An operation that changed nothing
    saves here too: that save repeats the one before it. */
module ReadyEvents {
  import opened Basics
  import opened Events
  import opened QueueTheorems

  datatype Phase =
    | Idle
    | Gated(known: set<string>)                // the session has read the completed fingerprints
    | Saving(fingerprint: string, ahead: nat)  // saves still to be written up to the session's own

  datatype World = World(live: Queue, saves: seq<Queue>, stored: Option<Queue>, phase: Phase)

  datatype Label =
    | ReadGate
    | GiveUp
    | Duplicate(id: string)
    | Finish(id: string, recording: CompletedRecording)
    | Publish(fingerprint: string)
    | Other(op: Op)      // ingest, defer, rearm, clear, each followed by a save
    | SaveWritten
    | Restart

  const START: World := World(EMPTY_QUEUE, [], None, Idle)

  predicate Enabled(w: World, l: Label) {
    match l
    case ReadGate => w.phase.Idle?
    case GiveUp => w.phase.Gated?
    case Duplicate(_) => w.phase.Gated?
    case Finish(_, r) => w.phase.Gated? && r.fingerprint !in w.phase.known
    case Publish(f) => w.phase == Saving(f, 0)
    case Other(op) => !op.Complete?
    case SaveWritten => w.saves != []
    case Restart => true
  }

  function WithSave(w: World, q: Queue): World {
    w.(live := q, saves := w.saves + [q])
  }

  function Next(w: World, l: Label): World
    requires Enabled(w, l)
  {
    match l
    case ReadGate => w.(phase := Gated(Fingerprints(w.live.completed)))
    case GiveUp => w.(phase := Idle)
    case Duplicate(id) => WithSave(w, Remove(w.live, id).0).(phase := Idle)
    case Finish(id, r) =>
      // `async_complete_event`: remove the event, remember the recording, save
      var done := WithSave(w, Remember(Remove(w.live, id).0, r).0);
      done.(phase := Saving(r.fingerprint, |done.saves|))
    case Publish(_) => w.(phase := Idle)
    case Other(op) => WithSave(w, Apply(w.live, op))
    case SaveWritten =>
      w.(stored := Some(w.saves[0]), saves := w.saves[1..],
         phase := if w.phase.Saving? && w.phase.ahead > 0 then w.phase.(ahead := w.phase.ahead - 1) else w.phase)
    case Restart =>
      World(Load(EMPTY_QUEUE, if w.stored.None? then None else Some(AsStorage(w.stored.value))), [], w.stored, Idle)
  }

  predicate Feasible(w: World, run: seq<Label>)
    decreases |run|
  {
    run == [] || (Enabled(w, run[0]) && Feasible(Next(w, run[0]), run[1..]))
  }

  function After(w: World, run: seq<Label>): World
    requires Feasible(w, run)
    decreases |run|
  {
    if run == [] then w else After(Next(w, run[0]), run[1..])
  }

  /** The recordings other than `f` that a run completes. */
  function OthersCompleted(run: seq<Label>, f: string): set<string> {
    if run == [] then {} else OtherCompleted(run[0], f) + OthersCompleted(run[1..], f)
  }

  function OtherCompleted(l: Label, f: string): set<string> {
    if l.Finish? && l.recording.fingerprint != f then {l.recording.fingerprint} else {}
  }

  // ---- what every reachable world satisfies ----

  ghost predicate EndsWith(c: seq<CompletedRecording>, f: string) {
    c != [] && c[|c| - 1].fingerprint == f
  }

  ghost predicate WorldInv(w: World) {
    && QueueInv(w.live) && (forall i :: 0 <= i < |w.saves| ==> QueueInv(w.saves[i]))
    && (w.stored.Some? ==> QueueInv(w.stored.value))
    && match w.phase
       case Idle => true
       case Gated(known) => known == Fingerprints(w.live.completed)
       case Saving(f, ahead) =>
         && ahead <= |w.saves| && EndsWith(w.live.completed, f)
         && (forall i :: 0 <= i < |w.saves| && ahead <= i + 1 ==> w.saves[i].completed == w.live.completed)
         && (ahead == 0 ==> w.stored.Some? && w.stored.value.completed == w.live.completed)
  }

  lemma OtherOpsKeepCompleted(q: Queue, op: Op)
    requires !op.Complete?
    ensures Apply(q, op).completed == q.completed
  {
    hide PendingIds, DeferredIds, KeepEvents, KeepDeferred, PutDeferred;
  }

  lemma RemembersNew(q: Queue, id: string, r: CompletedRecording)
    requires QueueInv(q) && r.fingerprint !in Fingerprints(q.completed)
    ensures var q' := Remember(Remove(q, id).0, r).0;
            && QueueInv(q') && EndsWith(q'.completed, r.fingerprint)
            && q'.completed == Last(q.completed + [r], MAX_COMPLETED_RECORDINGS)
  {
    hide QueueInv;
    DropKeepsInv(q, {}, {}, id);
    RememberKeepsInv(Remove(q, id).0, r);
  }

  lemma NextKeepsInv(w: World, l: Label)
    requires WorldInv(w) && Enabled(w, l)
    ensures WorldInv(Next(w, l))
  {
    hide QueueInv, Apply, Load, AsStorage, Remember, Fingerprints;
    match l
    case Duplicate(id) => DropKeepsInv(w.live, {}, {}, id);
    case Finish(id, r) => RemembersNew(w.live, id, r);
    case Other(op) => ApplyKeepsInv(w.live, op); OtherOpsKeepCompleted(w.live, op);
    case Restart =>
      if w.stored.Some? {
        LoadAfterSave(w.stored.value);
      } else {
        EmptyKeepsInv();
      }
    case _ =>
  }

  lemma EmptyKeepsInv()
    ensures QueueInv(EMPTY_QUEUE) && Load(EMPTY_QUEUE, None) == EMPTY_QUEUE
  {
  }

  // ---- one fingerprint followed through a run ----

  /** Either `f` is still listed, followed only by recordings in `others`, or it
      may have been pushed out, and then by 256 of them. */
  ghost predicate Covered(c: seq<CompletedRecording>, f: string, others: set<string>) {
    |others| >= MAX_COMPLETED_RECORDINGS
    || exists i: nat :: ListedAt(c, f, others, i)
  }

  ghost predicate ListedAt(c: seq<CompletedRecording>, f: string, others: set<string>, i: nat) {
    i < |c| && c[i].fingerprint == f && forall k :: i < k < |c| ==> c[k].fingerprint in others
  }

  ghost predicate Followed(w: World, f: string, others: set<string>) {
    && Covered(w.live.completed, f, others)
    && (forall i :: 0 <= i < |w.saves| ==> Covered(w.saves[i].completed, f, others))
    && w.stored.Some? && Covered(w.stored.value.completed, f, others)
    && (w.phase.Saving? && w.phase.fingerprint == f ==> |others| >= MAX_COMPLETED_RECORDINGS)
  }

  lemma CoveredGrows(c: seq<CompletedRecording>, f: string, others: set<string>, more: set<string>)
    requires Covered(c, f, others) && others <= more
    ensures Covered(c, f, more)
  {
    SubsetCount(others, more);
    if |others| < MAX_COMPLETED_RECORDINGS {
      var i: nat :| ListedAt(c, f, others, i);
      assert ListedAt(c, f, more, i);
    }
  }

  function FingerprintList(c: seq<CompletedRecording>): (r: seq<string>)
    ensures |r| == |c| && forall i :: 0 <= i < |c| ==> r[i] == c[i].fingerprint
  {
    if c == [] then [] else FingerprintList(c[..|c| - 1]) + [c[|c| - 1].fingerprint]
  }

  lemma ManyDistinct(c: seq<CompletedRecording>, others: set<string>)
    requires DistinctRecordings(c) && forall k :: 0 <= k < |c| ==> c[k].fingerprint in others
    ensures |others| >= |c|
  {
    var r := FingerprintList(c);
    DistinctCount(r);
    SubsetCount(SetOf(r), others);
  }

  /** Pushing one more recording keeps `f` covered: it is only dropped from the
      front once 256 distinct others stand behind it. */
  lemma PushKeepsCovered(c: seq<CompletedRecording>, f: string, others: set<string>, r: CompletedRecording)
    requires Covered(c, f, others) && r.fingerprint != f && |c| <= MAX_COMPLETED_RECORDINGS
    requires DistinctRecordings(c) && r.fingerprint !in Fingerprints(c)
    ensures Covered(Last(c + [r], MAX_COMPLETED_RECORDINGS), f, others + {r.fingerprint})
  {
    var more := others + {r.fingerprint};
    SubsetCount(others, more);
    if |others| < MAX_COMPLETED_RECORDINGS {
      var i: nat :| ListedAt(c, f, others, i);
      if |c| < MAX_COMPLETED_RECORDINGS {
        assert ListedAt(c + [r], f, more, i);
      } else if i > 0 {
        assert ListedAt((c + [r])[1..], f, more, i - 1);
      } else {
        NewOneIsDistinct(c, r);
        var pushed := (c + [r])[1..];
        assert forall k :: 0 <= k < |pushed| ==> pushed[k] == (c + [r])[k + 1];
        ManyDistinct(pushed, more);
      }
    }
  }

  lemma NewOneIsDistinct(c: seq<CompletedRecording>, r: CompletedRecording)
    requires DistinctRecordings(c) && r.fingerprint !in Fingerprints(c)
    ensures DistinctRecordings(c + [r])
  {
    forall i | 0 <= i < |c|
      ensures c[i].fingerprint != r.fingerprint
    {
      assert c[i] in c;
    }
  }

  lemma MissingMeansMany(c: seq<CompletedRecording>, f: string, others: set<string>)
    requires Covered(c, f, others) && f !in Fingerprints(c)
    ensures |others| >= MAX_COMPLETED_RECORDINGS
  {
    forall i: nat | i < |c|
      ensures c[i].fingerprint != f
    {
      assert c[i] in c;
    }
  }

  lemma NextKeepsFollowed(w: World, l: Label, f: string, others: set<string>)
    requires WorldInv(w) && Enabled(w, l) && Followed(w, f, others)
    ensures Followed(Next(w, l), f, others + OtherCompleted(l, f))
  {
    hide Covered, Apply, Load, AsStorage, Remember, Fingerprints, KeepEvents, KeepDeferred;
    var more := others + OtherCompleted(l, f);
    SubsetCount(others, more);
    CoveredGrows(w.live.completed, f, others, more);
    CoveredGrows(w.stored.value.completed, f, others, more);
    forall i | 0 <= i < |w.saves|
      ensures Covered(w.saves[i].completed, f, more)
    {
      CoveredGrows(w.saves[i].completed, f, others, more);
    }
    match l
    case Finish(id, r) =>
      RemembersNew(w.live, id, r);
      if r.fingerprint == f {
        MissingMeansMany(w.live.completed, f, others);
        ManyCovers(Last(w.live.completed + [r], MAX_COMPLETED_RECORDINGS), f, more);
      } else {
        PushKeepsCovered(w.live.completed, f, others, r);
      }
    case Other(op) => OtherOpsKeepCompleted(w.live, op);
    case Restart => LoadAfterSave(w.stored.value);
    case _ =>
  }

  lemma ManyCovers(c: seq<CompletedRecording>, f: string, others: set<string>)
    requires |others| >= MAX_COMPLETED_RECORDINGS
    ensures Covered(c, f, others)
  {
  }

  lemma {:induction false} RunKeepsFollowed(w: World, run: seq<Label>, f: string, others: set<string>)
    requires WorldInv(w) && Feasible(w, run) && Followed(w, f, others)
    ensures WorldInv(After(w, run)) && Followed(After(w, run), f, others + OthersCompleted(run, f))
    decreases |run|
  {
    hide WorldInv, Followed, Next, Enabled, OtherCompleted;
    if run == [] {
      assert others + {} == others;
    } else {
      NextKeepsInv(w, run[0]);
      NextKeepsFollowed(w, run[0], f, others);
      RunKeepsFollowed(Next(w, run[0]), run[1..], f, others + OtherCompleted(run[0], f));
      assert (others + OtherCompleted(run[0], f)) + OthersCompleted(run[1..], f) == others + OthersCompleted(run, f);
    }
  }

  /** At the moment a ready event is published, its recording is the newest entry
      of the live list, of the file and of every save under way. */
  lemma PublishedIsFollowed(w: World, f: string)
    requires WorldInv(w) && Enabled(w, Publish(f))
    ensures Followed(Next(w, Publish(f)), f, {})
  {
    hide QueueInv;
    var c := w.live.completed;
    assert ListedAt(c, f, {}, |c| - 1);
    assert Covered(c, f, {});
  }

  /** Between two ready events with the same fingerprint, restarts included, at
      least 256 recordings with other, pairwise different fingerprints were
      completed. */
  lemma ReadyEventsAreSpaced(w: World, f: string, between: seq<Label>)
    requires WorldInv(w) && Enabled(w, Publish(f))
    requires Feasible(Next(w, Publish(f)), between)
    requires Enabled(After(Next(w, Publish(f)), between), Publish(f))
    ensures |OthersCompleted(between, f)| >= MAX_COMPLETED_RECORDINGS
  {
    hide WorldInv, OthersCompleted, Covered, Next;
    NextKeepsInv(w, Publish(f));
    PublishedIsFollowed(w, f);
    RunKeepsFollowed(Next(w, Publish(f)), between, f, {});
    assert {} + OthersCompleted(between, f) == OthersCompleted(between, f);
  }

  /** Every world that a run from the empty start reaches satisfies the invariant
      the spacing theorem asks for. */
  lemma {:induction false} ReachableWorlds(w: World, run: seq<Label>)
    requires WorldInv(w) && Feasible(w, run)
    ensures WorldInv(After(w, run)) && WorldInv(START)
    decreases |run|
  {
    hide Next, Enabled;
    EmptyKeepsInv();
    if run != [] {
      NextKeepsInv(w, run[0]);
      ReachableWorlds(Next(w, run[0]), run[1..]);
    }
  }

  // ---- a completion is published ----

  function Writes(run: seq<Label>): nat {
    if run == [] then 0 else (if run[0].SaveWritten? then 1 else 0) + Writes(run[1..])
  }

  /** The session of `f` waits for `ahead` more saves. */
  lemma SavingStep(w: World, l: Label, f: string, ahead: nat)
    requires Enabled(w, l) && w.phase == Saving(f, ahead) && !l.Restart? && !l.Publish?
    ensures Next(w, l).phase == Saving(f, if l.SaveWritten? && ahead > 0 then ahead - 1 else ahead)
  {
  }

  lemma {:induction false} SavingRun(w: World, run: seq<Label>, f: string, ahead: nat)
    requires Feasible(w, run) && w.phase == Saving(f, ahead)
    requires forall i :: 0 <= i < |run| ==> !run[i].Restart? && !run[i].Publish?
    ensures After(w, run).phase == Saving(f, if Writes(run) < ahead then ahead - Writes(run) else 0)
    decreases |run|
  {
    hide Enabled, Next;
    if run != [] {
      SavingStep(w, run[0], f, ahead);
      assert forall i :: 0 <= i < |run[1..]| ==> run[1..][i] == run[i + 1];
      SavingRun(Next(w, run[0]), run[1..], f, if run[0].SaveWritten? && ahead > 0 then ahead - 1 else ahead);
    }
  }

  /** A new recording is published, whatever comes in between, as soon as its own save
      is written, and no sooner. */
  lemma PublishedIff(w: World, id: string, r: CompletedRecording, run: seq<Label>)
    requires Enabled(w, Finish(id, r)) && Feasible(Next(w, Finish(id, r)), run)
    requires forall i :: 0 <= i < |run| ==> !run[i].Restart? && !run[i].Publish?
    ensures Enabled(After(Next(w, Finish(id, r)), run), Publish(r.fingerprint)) <==> Writes(run) > |w.saves|
  {
    SavingRun(Next(w, Finish(id, r)), run, r.fingerprint, |w.saves| + 1);
  }

  /** The session can get there: its saves can be written one after another. */
  lemma {:induction false} SavesCanBeWritten(w: World, n: nat) returns (run: seq<Label>)
    requires n <= |w.saves|
    ensures Feasible(w, run) && Writes(run) == n && (forall i :: 0 <= i < |run| ==> run[i].SaveWritten?)
    decreases n
  {
    if n == 0 {
      run := [];
    } else {
      var rest := SavesCanBeWritten(Next(w, SaveWritten), n - 1);
      run := [SaveWritten] + rest;
      assert run[1..] == rest;
    }
  }

  // ---- what is stored ----

  /** The last save under way is the live queue; with none under way it is stored. */
  ghost predicate LiveIsSaved(w: World) {
    if w.saves != [] then w.saves[|w.saves| - 1] == w.live
    else if w.stored.None? then w.live == EMPTY_QUEUE
    else w.live == w.stored.value || w.live == Load(EMPTY_QUEUE, Some(AsStorage(w.stored.value)))
  }

  lemma SavedStep(w: World, l: Label)
    requires LiveIsSaved(w) && Enabled(w, l)
    ensures LiveIsSaved(Next(w, l))
  {
    EmptyKeepsInv();
    hide Apply, Load, AsStorage, Remember, Remove, Fingerprints;
  }

  /** Over every run: every change of the queue is on its way to the file, or there. */
  lemma {:induction false} ChangesAreSaved(w: World, run: seq<Label>)
    requires LiveIsSaved(w) && Feasible(w, run)
    ensures LiveIsSaved(After(w, run)) && LiveIsSaved(START)
    decreases |run|
  {
    hide Enabled, Next, Load, AsStorage;
    if run != [] {
      SavedStep(w, run[0]);
      ChangesAreSaved(Next(w, run[0]), run[1..]);
    }
  }

  /** A completion, new or not, takes its event out of the queue. */
  lemma CompletionTakesTheEvent(w: World, l: Label)
    requires Enabled(w, l) && (l.Finish? || l.Duplicate?)
    ensures l.id !in PendingIds(Next(w, l).live.pending) && !IsDeferred(Next(w, l).live, l.id)
    ensures forall e :: e in w.live.pending && e.eventId != l.id ==> e in Next(w, l).live.pending
  {
    KeepEventsFacts(w.live.pending, {l.id});
    KeepDeferredFacts(w.live.deferred, {l.id});
    hide KeepEvents, KeepDeferred, DeferredIds;
  }
}
