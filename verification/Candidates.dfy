/** Choosing the SD recording of an event (`recording_probe.py`).

    Times are microseconds of local wall-clock time; an aware timestamp loses its
    zone and keeps its wall-clock reading. */
module Candidates {
  import opened Basics

  const MATCH_TOLERANCE := 120_000_000 // DEFAULT_MATCH_TOLERANCE

  datatype Stamp = Stamp(wall: int, aware: bool)

  /** An entry of the camera's list; reading some of them raises. */
  datatype Vod =
    | Unreadable
    | Vod(name: string, start: Stamp, end: Stamp, size: int, identity: string)

  datatype Candidate = Candidate(name: string, start: int, end: int, size: int, identity: string, distance: nat)

  function Key(c: Candidate): (string, int, int) {
    (c.name, c.start, c.end)
  }

  function Gap(a: int, b: int): nat {
    if a <= b then b - a else a - b
  }

  /** The moments a recording stands for: all from its start to its end, or, if the
      camera lists its end before its start, the one of them that is looked at. */
  predicate Covers(target: int, start: int, end: int, x: int) {
    if start <= end then start <= x <= end else x == if target < start then start else end
  }

  /** `_interval_distance`: how far the nearest of those moments is. */
  function IntervalDistance(target: int, start: int, end: int): (d: nat)
    ensures exists x :: Covers(target, start, end, x) && Gap(target, x) == d
    ensures forall x :: Covers(target, start, end, x) ==> d <= Gap(target, x)
  {
    if start <= target <= end then assert Covers(target, start, end, target); 0
    else if target < start then assert Covers(target, start, end, start); start - target
    else assert Covers(target, start, end, end); target - end
  }

  function CandidateOf(target: int, v: Vod): Candidate
    requires v.Vod?
  {
    Candidate(v.name, v.start.wall, v.end.wall, v.size, v.identity,
              IntervalDistance(target, v.start.wall, v.end.wall))
  }

  predicate NameAtMost(a: string, b: string) {
    a == [] || (b != [] && (a[0] < b[0] || (a[0] == b[0] && NameAtMost(a[1..], b[1..]))))
  }

  /** The order of the sort key (distance, start, name). */
  predicate RankedBefore(a: Candidate, b: Candidate) {
    || a.distance < b.distance
    || (a.distance == b.distance && (a.start < b.start || (a.start == b.start && NameAtMost(a.name, b.name))))
  }

  function Insert(c: Candidate, ranked: seq<Candidate>): seq<Candidate> {
    if ranked == [] || RankedBefore(c, ranked[0]) then [c] + ranked
    else [ranked[0]] + Insert(c, ranked[1..])
  }

  /** `sorted`, which is stable. */
  function Ranked(cs: seq<Candidate>): seq<Candidate> {
    if cs == [] then [] else Insert(cs[0], Ranked(cs[1..]))
  }

  /** Assigning an entry of an insertion-ordered dictionary. */
  function Put(entries: seq<Candidate>, c: Candidate): seq<Candidate> {
    if entries == [] then [c]
    else if Key(entries[0]) == Key(c) then [c] + entries[1..]
    else [entries[0]] + Put(entries[1..], c)
  }

  predicate DistinctKeys(cs: seq<Candidate>) {
    forall i, j :: 0 <= i < j < |cs| ==> Key(cs[i]) != Key(cs[j])
  }

  predicate Ascending(cs: seq<Candidate>) {
    forall i, j :: 0 <= i < j < |cs| ==> cs[i].distance <= cs[j].distance
  }

  lemma {:induction false} InsertFacts(c: Candidate, ranked: seq<Candidate>)
    requires Ascending(ranked) && DistinctKeys(ranked)
    requires forall x :: x in ranked ==> Key(x) != Key(c)
    ensures Ascending(Insert(c, ranked)) && DistinctKeys(Insert(c, ranked))
    ensures forall x :: x in Insert(c, ranked) <==> x == c || x in ranked
  {
    hide NameAtMost, Key;
    if ranked != [] && !RankedBefore(c, ranked[0]) {
      var rest := Insert(c, ranked[1..]);
      InsertFacts(c, ranked[1..]);
      assert ranked == [ranked[0]] + ranked[1..];
      forall k | 0 <= k < |rest|
        ensures ranked[0].distance <= rest[k].distance && Key(ranked[0]) != Key(rest[k])
      {
        assert rest[k] in rest;
      }
    }
  }

  lemma {:induction false} RankedFacts(cs: seq<Candidate>)
    requires DistinctKeys(cs)
    ensures Ascending(Ranked(cs)) && DistinctKeys(Ranked(cs))
    ensures forall x :: x in Ranked(cs) <==> x in cs
  {
    if cs != [] {
      assert cs == [cs[0]] + cs[1..];
      RankedFacts(cs[1..]);
      InsertFacts(cs[0], Ranked(cs[1..]));
    }
  }

  lemma {:induction false} PutFacts(entries: seq<Candidate>, c: Candidate)
    requires DistinctKeys(entries)
    ensures DistinctKeys(Put(entries, c))
    ensures forall x :: x in Put(entries, c) <==> x == c || (x in entries && Key(x) != Key(c))
  {
    if entries != [] {
      assert entries == [entries[0]] + entries[1..];
      if Key(entries[0]) != Key(c) {
        var rest := Put(entries[1..], c);
        PutFacts(entries[1..], c);
        forall k | 0 <= k < |rest|
          ensures Key(rest[k]) != Key(entries[0])
        {
          assert rest[k] in rest;
        }
      }
    }
  }

  /** What the loop makes of the readable entries, in list order. */
  function Readings(target: int, files: seq<Vod>): (cs: seq<Candidate>)
    ensures forall c :: c in cs ==> c.distance == IntervalDistance(target, c.start, c.end)
  {
    if files == [] then []
    else
      var last := files[|files| - 1];
      Readings(target, files[..|files| - 1]) + if last.Vod? then [CandidateOf(target, last)] else []
  }

  /** No later reading has the same name, start and end. */
  predicate LastOfItsKey(cs: seq<Candidate>, i: nat) {
    i < |cs| && forall j :: i < j < |cs| ==> Key(cs[j]) != Key(cs[i])
  }

  /** Every reading of another recording lies strictly further away, and this one,
      the last of its recording, lies within the tolerance. */
  predicate ClearlyNearest(cs: seq<Candidate>, tolerance: int, i: nat) {
    && LastOfItsKey(cs, i)
    && cs[i].distance <= tolerance
    && forall j :: 0 <= j < |cs| ==> Key(cs[j]) == Key(cs[i]) || cs[j].distance > cs[i].distance
  }

  /** The dictionary holds the last reading of each recording. */
  ghost predicate Collected(cs: seq<Candidate>, entries: seq<Candidate>) {
    && DistinctKeys(entries)
    && (forall x :: x in entries ==> exists i: nat :: LastOfItsKey(cs, i) && x == cs[i])
    && (forall i: nat :: LastOfItsKey(cs, i) ==> cs[i] in entries)
  }

  lemma CollectOne(cs: seq<Candidate>, entries: seq<Candidate>, c: Candidate)
    requires Collected(cs, entries)
    ensures Collected(cs + [c], Put(entries, c))
  {
    hide Put, Key, DistinctKeys;
    PutFacts(entries, c);
    var cs' := cs + [c];
    assert LastOfItsKey(cs', |cs|);
    forall x | x in Put(entries, c)
      ensures exists i: nat :: LastOfItsKey(cs', i) && x == cs'[i]
    {
      if x != c {
        var i: nat :| LastOfItsKey(cs, i) && x == cs[i];
        assert LastOfItsKey(cs', i);
      }
    }
    forall i: nat | LastOfItsKey(cs', i)
      ensures cs'[i] in Put(entries, c)
    {
      if i < |cs| {
        assert cs'[|cs|] == c && forall j :: i < j < |cs| ==> cs'[j] == cs[j];
        assert LastOfItsKey(cs, i);
      }
    }
  }

  /** Every reading has a last one of its recording. */
  lemma {:induction false} LastOneExists(cs: seq<Candidate>, j: nat) returns (i: nat)
    requires j < |cs|
    ensures j <= i && LastOfItsKey(cs, i) && Key(cs[i]) == Key(cs[j])
    decreases |cs| - j
  {
    if LastOfItsKey(cs, j) {
      i := j;
    } else {
      var k :| j < k < |cs| && Key(cs[k]) == Key(cs[j]);
      i := LastOneExists(cs, k);
    }
  }

  /** The ranked dictionary has a head within the tolerance and ahead of the rest. */
  predicate ClearHead(ranked: seq<Candidate>, tolerance: int) {
    && ranked != []
    && ranked[0].distance <= tolerance
    && (|ranked| > 1 ==> ranked[0].distance < ranked[1].distance)
  }

  ghost predicate RanksEntries(cs: seq<Candidate>, ranked: seq<Candidate>) {
    Ascending(ranked) && Collected(cs, ranked)
  }

  lemma NearestHeadsTheRanking(cs: seq<Candidate>, tolerance: int, ranked: seq<Candidate>, i: nat)
    requires RanksEntries(cs, ranked) && ClearlyNearest(cs, tolerance, i)
    ensures ClearHead(ranked, tolerance)
  {
    hide Key;
    assert cs[i] in ranked;
    forall x | x in ranked && x != cs[i]
      ensures x.distance > cs[i].distance
    {
      var j: nat :| LastOfItsKey(cs, j) && x == cs[j];
      assert j != i;
    }
  }

  lemma HeadIsNearest(cs: seq<Candidate>, tolerance: int, ranked: seq<Candidate>)
    requires RanksEntries(cs, ranked) && ClearHead(ranked, tolerance)
    requires forall x, y :: x in cs && y in cs && Key(x) == Key(y) ==> x.distance == y.distance
    ensures exists i: nat :: ClearlyNearest(cs, tolerance, i) && ranked[0] == cs[i]
  {
    hide Key;
    assert ranked[0] in ranked;
    var i: nat :| LastOfItsKey(cs, i) && ranked[0] == cs[i];
    forall j | 0 <= j < |cs|
      ensures Key(cs[j]) == Key(cs[i]) || cs[j].distance > cs[i].distance
    {
      var k := LastOneExists(cs, j);
      assert cs[k] in ranked && cs[j].distance == cs[k].distance;
    }
    assert ClearlyNearest(cs, tolerance, i);
  }

  lemma NothingCollected()
    ensures Collected([], [])
  {
  }

  lemma RankingIsOne(cs: seq<Candidate>, entries: seq<Candidate>)
    requires Collected(cs, entries)
    ensures RanksEntries(cs, Ranked(entries))
  {
    hide Ranked, LastOfItsKey;
    RankedFacts(entries);
  }

  lemma TopTwoDiffer(cs: seq<Candidate>, ranked: seq<Candidate>)
    requires RanksEntries(cs, ranked) && |ranked| > 1
    ensures (ranked[0].start, ranked[0].end, ranked[0].name) != (ranked[1].start, ranked[1].end, ranked[1].name)
  {
    assert Key(ranked[0]) != Key(ranked[1]);
  }

  lemma SameKeySameDistance(target: int, files: seq<Vod>)
    ensures var cs := Readings(target, files);
      forall x, y :: x in cs && y in cs && Key(x) == Key(y) ==> x.distance == y.distance
  {
    hide IntervalDistance;
  }

  // ---- the same in the terms of the list ----

  predicate CoveredBy(target: int, v: Vod, x: int) {
    v.Vod? && Covers(target, v.start.wall, v.end.wall, x)
  }

  ghost predicate Within(target: int, v: Vod, tolerance: int) {
    exists x :: CoveredBy(target, v, x) && Gap(target, x) <= tolerance
  }

  /** Every moment of the second recording is further from the event than some moment
      of the first. */
  ghost predicate Farther(target: int, near: Vod, far: Vod) {
    exists x :: CoveredBy(target, near, x) && forall y :: CoveredBy(target, far, y) ==> Gap(target, x) < Gap(target, y)
  }

  predicate SameRecording(v: Vod, w: Vod) {
    v.Vod? && w.Vod? && v.name == w.name && v.start.wall == w.start.wall && v.end.wall == w.end.wall
  }

  /** Entry `n`, the last of its recording, lies within the tolerance, and every
      other recording is further away. */
  ghost predicate Winner(target: int, files: seq<Vod>, tolerance: int, n: nat) {
    && n < |files| && files[n].Vod? && Within(target, files[n], tolerance)
    && (forall m :: n < m < |files| ==> !SameRecording(files[n], files[m]))
    && (forall m :: 0 <= m < |files| && files[m].Vod? && !SameRecording(files[n], files[m]) ==>
          Farther(target, files[n], files[m]))
  }

  lemma NearestMoment(target: int, v: Vod) returns (x: int)
    requires v.Vod?
    ensures CoveredBy(target, v, x) && Gap(target, x) == CandidateOf(target, v).distance
    ensures forall y :: CoveredBy(target, v, y) ==> Gap(target, x) <= Gap(target, y)
  {
    var d := IntervalDistance(target, v.start.wall, v.end.wall);
    x :| Covers(target, v.start.wall, v.end.wall, x) && Gap(target, x) == d;
  }

  /** The candidate has the entry's own fields, and the distance of its nearest
      moment. */
  ghost predicate Describes(target: int, c: Candidate, v: Vod) {
    && v.Vod? && c.name == v.name && c.start == v.start.wall && c.end == v.end.wall
    && c.size == v.size && c.identity == v.identity
    && Within(target, v, c.distance) && forall x :: CoveredBy(target, v, x) ==> c.distance <= Gap(target, x)
  }

  lemma ReadingDescribes(target: int, v: Vod)
    requires v.Vod?
    ensures Describes(target, CandidateOf(target, v), v)
  {
    var x := NearestMoment(target, v);
  }

  lemma FartherIff(target: int, near: Vod, far: Vod)
    requires near.Vod? && far.Vod?
    ensures CandidateOf(target, near).distance < CandidateOf(target, far).distance <==> Farther(target, near, far)
  {
    hide CandidateOf, Gap;
    var x := NearestMoment(target, near);
    var y := NearestMoment(target, far);
  }

  lemma WithinIff(target: int, v: Vod, tolerance: int)
    requires v.Vod?
    ensures CandidateOf(target, v).distance <= tolerance <==> Within(target, v, tolerance)
    ensures v.start.wall <= v.end.wall ==>
              (Within(target, v, tolerance)
               <==> 0 <= tolerance && v.start.wall - tolerance <= target <= v.end.wall + tolerance)
  {
    var x := NearestMoment(target, v);
  }

  /** `at` lists the readable entries, in order, that `cs` reads. */
  ghost predicate ReadFrom(target: int, files: seq<Vod>, cs: seq<Candidate>, at: seq<nat>) {
    && |at| == |cs|
    && (forall i, j :: 0 <= i < j < |at| ==> at[i] < at[j])
    && (forall i :: 0 <= i < |at| ==>
          at[i] < |files| && files[at[i]].Vod? && cs[i] == CandidateOf(target, files[at[i]]))
    && (forall n :: 0 <= n < |files| && files[n].Vod? ==> n in at)
  }

  lemma ReadOneMore(target: int, files: seq<Vod>, cs: seq<Candidate>, at: seq<nat>, v: Vod)
    requires ReadFrom(target, files, cs, at)
    ensures if v.Vod? then ReadFrom(target, files + [v], cs + [CandidateOf(target, v)], at + [|files|])
            else ReadFrom(target, files + [v], cs, at)
  {
    hide CandidateOf;
    var all := files + [v];
    assert forall n :: 0 <= n < |files| ==> all[n] == files[n];
    if v.Vod? {
      var at' := at + [|files|];
      assert at'[|at|] == |files|;
      assert forall n :: n in at ==> n in at';
    }
  }

  lemma {:induction false} ReadingsOf(target: int, files: seq<Vod>) returns (at: seq<nat>)
    ensures ReadFrom(target, files, Readings(target, files), at)
    decreases |files|
  {
    hide CandidateOf, ReadFrom;
    if files == [] {
      at := [];
      NothingRead(target);
    } else {
      var last := |files| - 1;
      at := ReadingsOf(target, files[..last]);
      ReadOneMore(target, files[..last], Readings(target, files[..last]), at, files[last]);
      assert files == files[..last] + [files[last]];
      if files[last].Vod? {
        at := at + [last];
      } else {
        assert Readings(target, files) == Readings(target, files[..last]);
      }
    }
  }

  lemma NothingRead(target: int)
    ensures ReadFrom(target, [], [], [])
  {
  }

  /** The clearly nearest reading is the winner. */
  lemma NearestWins(target: int, files: seq<Vod>, tolerance: int, i: nat) returns (n: nat)
    requires ClearlyNearest(Readings(target, files), tolerance, i)
    ensures Winner(target, files, tolerance, n) && Readings(target, files)[i] == CandidateOf(target, files[n])
  {
    var at := ReadingsOf(target, files);
    var cs := Readings(target, files);
    n := at[i];
    WithinIff(target, files[n], tolerance);
    hide IntervalDistance, Readings, Farther, Within;
    forall m: nat | m < |files| && files[m].Vod? && !SameRecording(files[n], files[m])
      ensures Farther(target, files[n], files[m])
    {
      var j :| 0 <= j < |at| && at[j] == m;
      FartherIff(target, files[n], files[m]);
    }
    forall m | n < m < |files|
      ensures !SameRecording(files[n], files[m])
    {
      if files[m].Vod? {
        var j :| 0 <= j < |at| && at[j] == m;
        assert i < j;
      }
    }
  }

  lemma WinnerIsNearest(target: int, files: seq<Vod>, tolerance: int, n: nat) returns (i: nat)
    requires Winner(target, files, tolerance, n)
    ensures ClearlyNearest(Readings(target, files), tolerance, i)
  {
    var at := ReadingsOf(target, files);
    var cs := Readings(target, files);
    i :| i < |at| && at[i] == n;
    WithinIff(target, files[n], tolerance);
    hide IntervalDistance, Readings, Farther, Within;
    forall j | 0 <= j < |cs|
      ensures Key(cs[j]) == Key(cs[i]) || cs[j].distance > cs[i].distance
      ensures i < j ==> Key(cs[j]) != Key(cs[i])
    {
      FartherIff(target, files[n], files[at[j]]);
    }
  }

  /** The ranking has a clear head if and only if there is a winner, and it is that. */
  lemma HeadIsWinner(target: int, files: seq<Vod>, tolerance: int, ranked: seq<Candidate>)
    requires RanksEntries(Readings(target, files), ranked)
    ensures ClearHead(ranked, tolerance) <==> exists n: nat :: Winner(target, files, tolerance, n)
    ensures ClearHead(ranked, tolerance) ==>
      exists n: nat :: Winner(target, files, tolerance, n) && Describes(target, ranked[0], files[n])
    ensures ClearHead(ranked, tolerance) && ranked[0].start <= ranked[0].end ==>
      ranked[0].start - tolerance <= target <= ranked[0].end + tolerance
  {
    SameKeySameDistance(target, files);
    hide IntervalDistance, Readings, Within, Farther, Key, Collected, DistinctKeys;
    var cs := Readings(target, files);
    if ClearHead(ranked, tolerance) {
      HeadIsNearest(cs, tolerance, ranked);
      var i: nat :| ClearlyNearest(cs, tolerance, i) && ranked[0] == cs[i];
      var n := NearestWins(target, files, tolerance, i);
      WithinIff(target, files[n], tolerance);
      ReadingDescribes(target, files[n]);
    }
    if n: nat :| Winner(target, files, tolerance, n) {
      var i := WinnerIsNearest(target, files, tolerance, n);
      NearestHeadsTheRanking(cs, tolerance, ranked, i);
    }
  }

  /** `select_recording_candidate`: a recording is returned exactly when one, up to
      name, start and end, is nearer than all others and within the tolerance; of its
      entries it is the last one. */
  method SelectRecordingCandidate(target: int, files: seq<Vod>, tolerance: int := MATCH_TOLERANCE)
    returns (r: Option<Candidate>)
    ensures r.Some? <==> exists n: nat :: Winner(target, files, tolerance, n)
    ensures r.Some? ==> exists n: nat :: Winner(target, files, tolerance, n) && Describes(target, r.value, files[n])
    ensures r.Some? && r.value.start <= r.value.end ==>
      r.value.start - tolerance <= target <= r.value.end + tolerance
  {
    hide IntervalDistance, Put, Ranked, Insert, ClearlyNearest, Key, Collected, DistinctKeys;
    ghost var cs := Readings(target, files);
    var unique: seq<Candidate> := [];
    NothingCollected();
    for n := 0 to |files|
      invariant Collected(Readings(target, files[..n]), unique)
    {
      assert files[..n + 1][..n] == files[..n];
      assert Readings(target, files[..n + 1])
          == if files[n].Vod? then Readings(target, files[..n]) + [CandidateOf(target, files[n])]
             else Readings(target, files[..n]);
      if files[n].Vod? {
        CollectOne(Readings(target, files[..n]), unique, CandidateOf(target, files[n]));
        unique := Put(unique, CandidateOf(target, files[n]));
      }
    }
    assert files[..|files|] == files;
    var ranked := Ranked(unique);
    RankingIsOne(cs, unique);
    HeadIsWinner(target, files, tolerance, ranked);
    if ranked == [] || ranked[0].distance > tolerance {
      return None;
    }
    if |ranked| > 1 && ranked[1].distance == ranked[0].distance {
      var first, second := ranked[0], ranked[1];
      TopTwoDiffer(cs, ranked);
      if (first.start, first.end, first.name) != (second.start, second.end, second.name) {
        return None;
      }
    }
    return Some(ranked[0]);
  }

  // ---- What the answer depends on ----

  /** The recordings in a list: names, starts and ends of its readable entries. */
  function Recordings(files: seq<Vod>): set<(string, int, int)> {
    set v | v in files && v.Vod? :: (v.name, v.start.wall, v.end.wall)
  }

  lemma FindEntry(a: seq<Vod>, b: seq<Vod>, n: nat) returns (m: nat)
    requires Recordings(a) == Recordings(b) && n < |a| && a[n].Vod?
    ensures m < |b| && SameRecording(a[n], b[m])
  {
    assert (a[n].name, a[n].start.wall, a[n].end.wall) in Recordings(b);
    var v :| v in b && v.Vod? && (v.name, v.start.wall, v.end.wall) == (a[n].name, a[n].start.wall, a[n].end.wall);
    m :| 0 <= m < |b| && b[m] == v;
  }

  lemma {:induction false} LastEntry(files: seq<Vod>, m: nat) returns (n: nat)
    requires m < |files| && files[m].Vod?
    ensures n < |files| && SameRecording(files[m], files[n])
    ensures forall k :: n < k < |files| ==> !SameRecording(files[n], files[k])
    decreases |files| - m
  {
    if k :| m < k < |files| && SameRecording(files[m], files[k]) {
      n := LastEntry(files, k);
    } else {
      n := m;
    }
  }

  /** The recording that is found does not depend on the order of the list, on
      repeated or unreadable entries, or on time zones: of two lists of the same
      recordings both give it or neither gives one. */
  lemma OrderDoesNotMatter(target: int, a: seq<Vod>, b: seq<Vod>, tolerance: int, n: nat) returns (m: nat)
    requires Recordings(a) == Recordings(b) && Winner(target, a, tolerance, n)
    ensures Winner(target, b, tolerance, m) && SameRecording(a[n], b[m])
  {
    hide Gap, Recordings, Within, Farther;
    var k := FindEntry(a, b, n);
    m := LastEntry(b, k);
    SameMoments(target, a[n], b[m], tolerance);
    forall j | 0 <= j < |b| && b[j].Vod? && !SameRecording(b[m], b[j])
      ensures Farther(target, b[m], b[j])
    {
      var i := FindEntry(b, a, j);
      OneFarther(target, a[n], b[m], a[i], b[j]);
    }
  }

  lemma SameMoments(target: int, v: Vod, w: Vod, tolerance: int)
    requires SameRecording(v, w)
    ensures Within(target, v, tolerance) == Within(target, w, tolerance)
  {
    assert forall x :: CoveredBy(target, v, x) <==> CoveredBy(target, w, x);
  }

  lemma OneFarther(target: int, v: Vod, v': Vod, w: Vod, w': Vod)
    requires SameRecording(v, v') && SameRecording(w, w') && Farther(target, v, w)
    ensures Farther(target, v', w')
  {
    assert forall x :: CoveredBy(target, v, x) <==> CoveredBy(target, v', x);
    assert forall x :: CoveredBy(target, w, x) <==> CoveredBy(target, w', x);
  }

  /** There is never a choice: two entries that qualify are one entry. */
  lemma WinnerIsUnique(target: int, files: seq<Vod>, tolerance: int, n: nat, m: nat)
    requires Winner(target, files, tolerance, n) && Winner(target, files, tolerance, m)
    ensures n == m
  {
    if !SameRecording(files[n], files[m]) {
      FartherIff(target, files[n], files[m]);
      FartherIff(target, files[m], files[n]);
    }
  }
}
