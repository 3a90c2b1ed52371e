/** The collector refines one slice of the concatenated media chunks. */
module CollectorTheorems {
  import opened Basics
  import opened Collector

  function Media(frames: seq<Frame>): seq<byte> {
    if frames == [] then [] else Media(frames[..|frames| - 1]) + MediaOf(frames[|frames| - 1])
  }

  /** The media of a frame: what an accepted cmd8 frame carries, unless it is XML. */
  function MediaOf(f: Frame): seq<byte> {
    if f.command == Download && (f.code == 0 || f.code == 200) && !f.looksLikeXml then f.chunk else []
  }

  function After(s: State, frames: seq<Frame>): State {
    if frames == [] then s else Observe(After(s, frames[..|frames| - 1]), frames[|frames| - 1])
  }

  function Cut(media: seq<byte>, limit: nat): seq<byte> {
    if |media| <= limit then media else media[..limit]
  }

  function FromOffset(data: seq<byte>, offset: Option<nat>): seq<byte> {
    if offset.None? || offset.value > |data| then [] else data[offset.value..]
  }

  // ---- the offset does not depend on where the stream was cut ----

  lemma FindIsStable(data: seq<byte>, more: seq<byte>, pattern: seq<byte>)
    requires Find(data, pattern).Some?
    ensures Find(data + more, pattern) == Find(data, pattern)
  {
    var at := Find(data, pattern).value;
    assert (data + more)[at..at + |pattern|] == data[at..at + |pattern|];
    assert MatchesAt(data + more, at, pattern);
    forall i: nat | i < at
      ensures !MatchesAt(data + more, i, pattern)
    {
      assert !MatchesAt(data, i, pattern);
      assert (data + more)[i..i + |pattern|] == data[i..i + |pattern|];
    }
  }

  /** Once found, the offset is the same however the stream goes on. */
  lemma OffsetIsStable(data: seq<byte>, more: seq<byte>)
    requires FindMp4(data).Some?
    ensures FindMp4(data + more) == FindMp4(data)
  {
    FindIsStable(data, more, FTYP);
    var at := Find(data, FTYP).value;
    assert BigEndian32(data + more, at - 4) == BigEndian32(data, at - 4);
  }

  // ---- the main invariant ----

  /** The aggregate is the media so far up to the limit, and the file is the part
      of the aggregate from the MP4 offset on. */
  ghost predicate Follows(s: State, media: seq<byte>) {
    && s.aggregate == Cut(media, s.aggregateLimit)
    && s.mp4Offset == FindMp4(s.aggregate)
    && s.part == FromOffset(s.aggregate, s.mp4Offset)
    && s.persisted == |s.part|
    && (s.mp4Offset.Some? ==> s.collected == |s.part|)
  }

  /** A cmd13 frame that raises the limit after bytes have already been cut. */
  predicate RaisesLate(s: State, media: seq<byte>, f: Frame) {
    f.command == Prepare && Accepted(f) && |media| > s.aggregateLimit
    && Raise(Counted(s, f)).aggregateLimit > s.aggregateLimit
  }

  lemma CutGrows(media: seq<byte>, limit: nat, chunk: seq<byte>)
    ensures var kept := Cut(media, limit);
            var remaining := Max(limit - |kept|, 0);
            Cut(media + chunk, limit) == kept + (if remaining < |chunk| then chunk[..remaining] else chunk)
  {
    if |media| <= limit {
      var remaining := limit - |media|;
      if remaining < |chunk| {
        assert (media + chunk)[..limit] == media + chunk[..remaining];
      }
    } else {
      assert (media + chunk)[..limit] == media[..limit];
      assert chunk[..0] == [];
      if chunk == [] {
        assert media + chunk == media;
      }
    }
  }

  lemma CollectExtends(s: State, media: seq<byte>, chunk: seq<byte>)
    requires Follows(s, media)
    ensures var s' := Collect(s, chunk);
            && s'.aggregate == Cut(media + chunk, s.aggregateLimit) && s.aggregate <= s'.aggregate
            && s'.aggregateLimit == s.aggregateLimit && s'.part == s.part && s'.persisted == s.persisted
            && s'.mp4Offset == FindMp4(s'.aggregate)
            && (s'.mp4Offset.Some? ==> s'.collected == |s'.aggregate| - s'.mp4Offset.value)
  {
    hide FindMp4, Cut;
    CutGrows(media, s.aggregateLimit, chunk);
    var grown := Collect(s, chunk).aggregate;
    assert grown == s.aggregate + grown[|s.aggregate|..];
    if s.mp4Offset.Some? {
      OffsetIsStable(s.aggregate, grown[|s.aggregate|..]);
    }
    OffsetInside(grown);
  }

  lemma CollectFollows(s: State, media: seq<byte>, chunk: seq<byte>)
    requires Follows(s, media)
    ensures Follows(Persist(Collect(s, chunk)), media + chunk)
  {
    hide FindMp4, Collect, Persist, Cut;
    var s1 := Collect(s, chunk);
    CollectExtends(s, media, chunk);
    OffsetCarries(s.aggregate, s1.aggregate);
    PersistFollows(s1, if s.mp4Offset.Some? then s.aggregate else [], media + chunk);
  }

  lemma OffsetCarries(data: seq<byte>, grown: seq<byte>)
    requires data <= grown
    ensures FindMp4(data).Some? ==> FindMp4(grown) == FindMp4(data) && FindMp4(data).value <= |data|
  {
    hide FindMp4;
    OffsetInside(data);
    assert grown == data + grown[|data|..];
    if FindMp4(data).Some? {
      OffsetIsStable(data, grown[|data|..]);
    }
  }

  lemma PersistFollows(s: State, before: seq<byte>, media: seq<byte>)
    requires s.aggregate == Cut(media, s.aggregateLimit) && s.mp4Offset == FindMp4(s.aggregate) && before <= s.aggregate
    requires s.part == FromOffset(before, s.mp4Offset) && s.persisted == |s.part|
    requires s.mp4Offset.Some? ==>
      s.collected == |s.aggregate| - s.mp4Offset.value && (s.mp4Offset.value <= |before| || before == [])
    ensures Follows(Persist(s), media)
  {
    PersistCatchesUp(s, before);
    OffsetInside(s.aggregate);
    hide FindMp4, Persist, Cut;
  }

  lemma PersistCatchesUp(s: State, before: seq<byte>)
    requires before <= s.aggregate && s.mp4Offset == FindMp4(s.aggregate)
    requires s.part == FromOffset(before, s.mp4Offset) && s.persisted == |s.part|
    requires s.mp4Offset.Some? ==> s.mp4Offset.value <= |before| || before == []
    ensures var s' := Persist(s);
            && s'.part == FromOffset(s.aggregate, s.mp4Offset) && s'.persisted == |s'.part|
            && s' == s.(part := s'.part, persisted := s'.persisted)
  {
    hide FindMp4;
    if s.mp4Offset.Some? {
      var o := s.mp4Offset.value;
      OffsetInside(s.aggregate);
      assert s.aggregate[..|before|] == before;
      assert s.aggregate[o..] == s.part + s.aggregate[o + s.persisted..];
    }
  }

  lemma OffsetInside(data: seq<byte>)
    ensures FindMp4(data).Some? ==> FindMp4(data).value + 8 <= |data|
  {
  }

  lemma ObserveFollows(s: State, media: seq<byte>, f: Frame)
    requires Follows(s, media) && !RaisesLate(s, media, f)
    ensures Follows(Observe(s, f), media + MediaOf(f))
  {
    hide FindMp4, Find;
    var s1 := Counted(s, f);
    assert Follows(s1, media);
    assert media + [] == media;
    if IsMedia(f) {
      CollectFollows(s1, media, f.chunk);
    } else if Accepted(f) && f.command == Download {
      PersistCatchesUp(s1, s1.aggregate);
    } else if Accepted(f) {
      assert Cut(media, Raise(s1).aggregateLimit) == Cut(media, s1.aggregateLimit);
    }
  }

  /** Every frame arrives without a late raise. */
  ghost predicate NeverLate(s: State, frames: seq<Frame>) {
    forall k: nat :: k < |frames| ==> !RaisesLate(After(s, frames[..k]), Media(frames[..k]), frames[k])
  }

  lemma {:induction false} FileFollowsMedia(s: State, frames: seq<Frame>)
    requires Follows(s, []) && NeverLate(s, frames)
    ensures Follows(After(s, frames), Media(frames))
    decreases |frames|
  {
    hide Follows, RaisesLate, Observe;
    if frames == [] {
    } else {
      var n := |frames| - 1;
      var before := frames[..n];
      forall k: nat | k < n
        ensures !RaisesLate(After(s, before[..k]), Media(before[..k]), before[k])
      {
        assert before[..k] == frames[..k];
      }
      FileFollowsMedia(s, before);
      assert !RaisesLate(After(s, frames[..n]), Media(frames[..n]), frames[n]);
      ObserveFollows(After(s, before), Media(before), frames[n]);
    }
  }

  lemma PreparedFollows(candidateSize: nat)
    ensures Follows(Prepared(candidateSize), [])
  {
  }

  /** One more byte after a raise, with room for it. */
  lemma ByteIsCollected(s: State, b: byte) returns (next: Frame)
    requires Follows(s, s.aggregate) && |s.aggregate| < s.aggregateLimit
    ensures IsMedia(next) && next == Frame(Download, 200, 1, [b], false, 0)
    ensures var end := Observe(s, next);
      && Follows(end, s.aggregate + [b]) && end.aggregate == s.aggregate + [b]
      && end.aggregateLimit == s.aggregateLimit && end.reported == s.reported
      && (s.mp4Offset.Some? && s.reported > 0 ==> end.matches == (end.collected == s.reported))
      && (s.mp4Offset.Some? ==> end.mp4Offset == s.mp4Offset && end.part == s.part + [b] && ValidHead(end.part))
  {
    hide FindMp4, ValidHead;
    next := Frame(Download, 200, 1, [b], false, 0);
    ObserveFollows(s, s.aggregate, next);
    var end := Observe(s, next);
    PersistKeepsAggregate(Collect(Counted(s, next), [b]));
    assert end.aggregate == s.aggregate + [b];
    if s.mp4Offset.Some? {
      OffsetInside(s.aggregate);
      OffsetIsStable(s.aggregate, [b]);
      HeadIsValid(end.aggregate);
      assert end.part == FromOffset(end.aggregate, s.mp4Offset) == s.part + [b];
    }
  }

  lemma RaiseOnlyRaises(s: State, media: seq<byte>, f: Frame)
    requires Follows(s, media) && RaisesLate(s, media, f)
    ensures var s1 := Observe(s, f);
      && Follows(s1, s1.aggregate) && s1.aggregate == media[..s.aggregateLimit] && s1.aggregateLimit > s.aggregateLimit
      && s1.part == s.part && s1.mp4Offset == s.mp4Offset
  {
    hide FindMp4, VerifiedLimits;
  }

  /** The condition is exact: after any late raise there is a next chunk after which
      the aggregate is no prefix of the media; with the MP4 offset known, the file
      then misses the bytes that were cut; and if the raise reports one byte more
      than the file has, that file is accepted. */
  lemma LateRaiseBreaks(s: State, media: seq<byte>, f: Frame) returns (next: Frame)
    requires Follows(s, media) && RaisesLate(s, media, f)
    ensures IsMedia(next) && |next.chunk| == 1 && next == Frame(Download, 200, 1, next.chunk, false, 0)
    ensures var end := Observe(Observe(s, f), next);
      && !Follows(end, media + next.chunk)
      && (s.mp4Offset.Some? ==>
            && end.mp4Offset == s.mp4Offset && |end.part| == |s.part| + 1
            && s.mp4Offset.value + |end.part| <= |media|
            && end.part != media[s.mp4Offset.value..s.mp4Offset.value + |end.part|])
      && (s.mp4Offset.Some? && Observe(s, f).reported == |s.part| + 1 ==>
            Finalize(end) == (true, end.part) && end.reported == |end.part|)
  {
    hide FindMp4, ValidHead, Follows, RaisesLate, Observe, Finalize, Cut;
    LateRaiseHasRoom(s, media, f);
    var limit := s.aggregateLimit;
    RaiseOnlyRaises(s, media, f);
    var s1 := Observe(s, f);
    var b: byte := if media[limit] == 0 then 1 else 0;
    next := ByteIsCollected(s1, b);
    var end := Observe(s1, next);
    assert end.aggregate[limit] == b;
    assert (media + [b])[limit] == media[limit];
    DifferentByte(end, media + [b], limit);
    if s.mp4Offset.Some? {
      var o := s.mp4Offset.value;
      assert end.part[limit - o] == b;
      assert media[o..o + |end.part|][limit - o] == media[limit];
      ExactSizeIsSaved(end);
    }
  }

  lemma LateRaiseHasRoom(s: State, media: seq<byte>, f: Frame)
    requires Follows(s, media) && RaisesLate(s, media, f)
    ensures |media| > s.aggregateLimit == |s.aggregate|
    ensures s.mp4Offset.Some? ==> s.mp4Offset.value + |s.part| == s.aggregateLimit
    ensures Observe(s, f).reported > 0
  {
    hide FindMp4, VerifiedLimits;
    OffsetInside(s.aggregate);
  }

  lemma DifferentByte(s: State, media: seq<byte>, i: nat)
    requires i < |s.aggregate| && i < |media| && s.aggregate[i] != media[i]
    ensures !Follows(s, media)
  {
    assert |Cut(media, s.aggregateLimit)| > i ==> Cut(media, s.aggregateLimit)[i] == media[i];
  }

  lemma ExactSizeIsSaved(s: State)
    requires Follows(s, s.aggregate) && ValidHead(s.part) && s.mp4Offset.Some?
    requires s.reported > 0 ==> s.matches == (s.collected == s.reported)
    ensures s.reported == |s.part| > 0 ==> Finalize(s) == (true, s.part)
  {
    hide FindMp4, ValidHead;
  }

  lemma PersistKeepsAggregate(s: State)
    ensures Persist(s).aggregate == s.aggregate && Persist(s).aggregateLimit == s.aggregateLimit
  {
  }

  /** A session in which no accepted cmd13 frame follows the first media chunk never
      raises late. */
  lemma {:induction false} OrderlyIsNeverLate(s: State, frames: seq<Frame>)
    requires forall i, k :: 0 <= i < k < |frames| && IsMedia(frames[i]) ==>
               !(frames[k].command == Prepare && Accepted(frames[k]))
    ensures NeverLate(s, frames)
  {
    hide RaisesLate, After, Observe;
    forall k: nat | k < |frames|
      ensures !RaisesLate(After(s, frames[..k]), Media(frames[..k]), frames[k])
    {
      if frames[k].command == Prepare && Accepted(frames[k]) {
        NoMediaYet(frames[..k]);
      }
      RaiseNeedsPrepare(After(s, frames[..k]), Media(frames[..k]), frames[k]);
    }
  }

  lemma RaiseNeedsPrepare(s: State, media: seq<byte>, f: Frame)
    ensures RaisesLate(s, media, f) ==> f.command == Prepare && Accepted(f) && media != []
  {
  }

  lemma {:induction false} NoMediaYet(frames: seq<Frame>)
    requires forall i :: 0 <= i < |frames| ==> !IsMedia(frames[i])
    ensures Media(frames) == []
    decreases |frames|
  {
    if frames != [] {
      NoMediaYet(frames[..|frames| - 1]);
    }
  }

  // ---- what a saved file is ----

  /** A file cut out at a found offset begins with a sane `ftyp` box header. */
  lemma HeadIsValid(data: seq<byte>)
    requires FindMp4(data).Some?
    ensures ValidHead(FromOffset(data, FindMp4(data)))
  {
    var o := FindMp4(data).value;
    var file := FromOffset(data, Some(o));
    var head := if |file| > 32 then file[..32] else file;
    assert head[4..8] == data[o + 4..o + 8];
    assert BigEndian32(head, 0) == BigEndian32(data, o);
  }

  /** Finalizing after the aggregate has been cleared writes nothing more. The file
      is accepted if and only if the collector last saw the reported size reached
      exactly and the file has it; then it is the reported-size slice of the media
      from the MP4 offset on. */
  lemma SavedFileIsTheSlice(s: State, media: seq<byte>)
    requires Follows(s, media)
    ensures var (saved, file) := Finalize(s);
            && file == s.part
            && (saved <==> s.matches && s.reported > 0 && s.mp4Offset.Some? && |s.part| == s.reported)
            && (saved ==>
                  && FindMp4(media) == s.mp4Offset
                  && s.mp4Offset.value + s.reported <= |media|
                  && file == media[s.mp4Offset.value..s.mp4Offset.value + s.reported]
                  && ValidHead(file))
  {
    hide FindMp4, ValidHead, Find;
    var kept := s.aggregate;
    assert Persist(s.(aggregate := [])).part == s.part;
    if s.mp4Offset.Some? {
      var o := s.mp4Offset.value;
      HeadIsValid(kept);
      OffsetInside(kept);
      assert media == kept + media[|kept|..];
      OffsetIsStable(kept, media[|kept|..]);
      assert media[o..|kept|] == kept[o..];
    }
  }

  /** The same media under the same limit give the same offset and the same file,
      wherever the frame boundaries were. */
  lemma BoundariesDoNotMatter(s: State, first: seq<Frame>, second: seq<Frame>)
    requires Follows(s, []) && NeverLate(s, first) && NeverLate(s, second)
    requires Media(first) == Media(second) && After(s, first).aggregateLimit == After(s, second).aggregateLimit
    ensures After(s, first).part == After(s, second).part && After(s, first).mp4Offset == After(s, second).mp4Offset
  {
    hide After, Media, NeverLate, Cut, FromOffset, FindMp4;
    FileFollowsMedia(s, first);
    FileFollowsMedia(s, second);
  }

  // ---- the data phase: sizes are known, media follows ----

  predicate PureData(s: State, f: Frame) {
    f.reports <= s.reported && !(f.command == Prepare && Accepted(f))
  }

  ghost predicate FlagsCurrent(s: State) {
    s.mp4Offset.Some? && s.reported > 0 ==>
      s.reached == (s.collected >= s.reported) && s.matches == (s.collected == s.reported)
  }

  lemma DataStep(s: State, f: Frame)
    requires PureData(s, f) && FlagsCurrent(s)
    ensures var s' := Observe(s, f);
            && FlagsCurrent(s') && s'.reported == s.reported
            && s'.aggregateLimit == s.aggregateLimit && s'.sampleLimit == s.sampleLimit
            && s'.bodyBytes == s.bodyBytes + f.bodyLength
    ensures s.mp4Offset.None? && !s.matches && Observe(s, f).mp4Offset.None? ==> !Observe(s, f).matches
    ensures s.mp4Offset.Some? ==> Observe(s, f).mp4Offset.Some?
  {
    hide FindMp4;
  }

  lemma {:induction false} DataRun(s: State, frames: seq<Frame>)
    requires FlagsCurrent(s) && s.mp4Offset.None? && !s.matches
    requires forall i :: 0 <= i < |frames| ==> PureData(s, frames[i])
    ensures var s' := After(s, frames);
            && FlagsCurrent(s') && s'.reported == s.reported
            && s'.aggregateLimit == s.aggregateLimit && s'.sampleLimit == s.sampleLimit
            && (s'.mp4Offset.None? ==> !s'.matches)
    ensures NeverLate(s, frames)
    decreases |frames|
  {
    hide Observe, FlagsCurrent;
    if frames != [] {
      var n := |frames| - 1;
      DataRun(s, frames[..n]);
      DataStep(After(s, frames[..n]), frames[n]);
    }
    hide After, RaisesLate;
    forall k: nat | k < |frames|
      ensures !RaisesLate(After(s, frames[..k]), Media(frames[..k]), frames[k])
    {
      RaiseNeedsPrepare(After(s, frames[..k]), Media(frames[..k]), frames[k]);
    }
  }

  /** Once the size is known before the first media chunk, a download is saved if
      and only if exactly that many bytes were collected from the MP4 offset on. */
  lemma AcceptanceIsExact(s: State, frames: seq<Frame>)
    requires Follows(s, []) && s.mp4Offset.None? && !s.matches
    requires forall i :: 0 <= i < |frames| ==> PureData(s, frames[i])
    ensures var kept := Cut(Media(frames), s.aggregateLimit);
            Finalize(After(s, frames)).0
            <==> s.reported > 0 && FindMp4(kept).Some? && |kept| - FindMp4(kept).value == s.reported
  {
    hide After, Media, FindMp4, NeverLate, Finalize, Cut;
    DataRun(s, frames);
    FileFollowsMedia(s, frames);
    SavedFileIsTheSlice(After(s, frames), Media(frames));
    OffsetInside(After(s, frames).aggregate);
  }

  // ---- the limits ----

  ghost predicate LimitsInRange(s: State) {
    && STREAM_SAMPLE_MAX_BYTES <= s.aggregateLimit <= VERIFIED_FILE_HARD_CAP_BYTES
    && s.sampleLimit == s.aggregateLimit && s.frameLimit >= STREAM_SAMPLE_MAX_FRAMES
  }

  lemma {:induction false} LimitsStayInRange(candidateSize: nat, frames: seq<Frame>)
    ensures LimitsInRange(After(Prepared(candidateSize), frames))
    decreases |frames|
  {
    if frames != [] {
      var n := |frames| - 1;
      LimitsStayInRange(candidateSize, frames[..n]);
      LimitsStep(After(Prepared(candidateSize), frames[..n]), frames[n]);
    }
  }

  lemma LimitsStep(s: State, f: Frame)
    requires LimitsInRange(s)
    ensures LimitsInRange(Observe(s, f))
  {
    hide FindMp4;
  }

  /** The limits leave room for the reported size and four MiB more. */
  ghost predicate RoomForReported(s: State) {
    s.aggregateLimit >= VerifiedLimits(s.reported).0 && s.sampleLimit >= VerifiedLimits(s.reported).0
  }

  lemma AcceptedPrepareMakesRoom(s: State, f: Frame)
    requires f.command == Prepare && Accepted(f) && Observe(s, f).reported > 0
    ensures RoomForReported(Observe(s, f))
  {
  }

  /** A download never stops short: for a reported size up to 124 MiB and an MP4
      offset up to 4 MiB, the aggregate limit is never the reason to stop, and
      neither is the byte limit while prefix and framing together take at most
      4 MiB. */
  lemma CollectorNeverStopsShort(s: State, frames: seq<Frame>)
    requires Follows(s, []) && s.mp4Offset.None? && !s.matches && RoomForReported(s)
    requires 0 < s.reported <= VERIFIED_FILE_HARD_CAP_BYTES - VERIFIED_FILE_OVERHEAD_BYTES
    requires forall i :: 0 <= i < |frames| ==> PureData(s, frames[i])
    requires var end := After(s, frames); end.mp4Offset.Some? && end.mp4Offset.value <= VERIFIED_FILE_OVERHEAD_BYTES
    ensures var end := After(s, frames);
            && StopReason(end) != AggregateLimit
            && (end.bodyBytes - |Media(frames)| + end.mp4Offset.value <= VERIFIED_FILE_OVERHEAD_BYTES ==>
                  StopReason(end) != ByteLimit)
  {
    hide After, Media, FindMp4, NeverLate;
    DataRun(s, frames);
    FileFollowsMedia(s, frames);
    OffsetInside(After(s, frames).aggregate);
  }
}
