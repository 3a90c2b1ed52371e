/** Whole download sessions: from the prepared collector through the cmd13 frame and
    the data to the final acceptance, and the two ways in which a session can go
    wrong. */
module CollectorSessions {
  import opened Basics
  import opened Collector
  import opened CollectorTheorems

  // ---- the first "ftyp" decides ----

  /** The box before the marker at `m` cannot be a box. */
  predicate StrayMarker(data: seq<byte>, m: nat)
    requires m + 4 <= |data|
  {
    m < 4 || !SaneBoxSize(BigEndian32(data, m - 4))
  }

  lemma FirstMarkerDecides(data: seq<byte>, m: nat)
    requires Find(data, FTYP) == Some(m)
    ensures FindMp4(data) == if StrayMarker(data, m) then None else Some(m - 4)
  {
  }

  /** Once the first "ftyp" of a stream is there, no later one is ever considered:
      the offset stays missing however the stream goes on if and only if that first
      marker sits below position 4 or behind a size field that is neither 1 nor at
      least 8. */
  lemma StrayMarkerHidesAll(data: seq<byte>, m: nat)
    requires Find(data, FTYP) == Some(m)
    ensures (forall more: seq<byte> :: FindMp4(data + more).None?) <==> StrayMarker(data, m)
  {
    hide FindMp4, Find;
    if StrayMarker(data, m) {
      forall more: seq<byte>
        ensures FindMp4(data + more).None?
      {
        FindIsStable(data, more, FTYP);
        assert m >= 4 ==> BigEndian32(data + more, m - 4) == BigEndian32(data, m - 4);
        FirstMarkerDecides(data + more, m);
      }
    } else {
      FirstMarkerDecides(data, m);
      assert data + [] == data;
    }
  }

  /** A concrete one: four stray bytes in front of a sound box. */
  lemma StrayMarkerExample()
    ensures FindMp4([0, 0, 0, 8] + FTYP) == Some(0)
    ensures forall more: seq<byte> :: FindMp4((FTYP + ([0, 0, 0, 8] + FTYP)) + more).None?
  {
    hide Find, FindMp4;
    var box: seq<byte> := [0, 0, 0, 8] + FTYP;
    forall i: nat | i < 4
      ensures !MatchesAt(box, i, FTYP)
    {
      assert box[i..i + 4][0] == box[i];
    }
    FoundAt(box, 4);
    FirstMarkerDecides(box, 4);
    var stream := FTYP + box;
    FoundAt(stream, 0);
    StrayMarkerHidesAll(stream, 0);
  }

  lemma FoundAt(data: seq<byte>, m: nat)
    requires MatchesAt(data, m, FTYP) && forall i: nat :: i < m ==> !MatchesAt(data, i, FTYP)
    ensures Find(data, FTYP) == Some(m)
  {
    hide FindFrom, MatchesAt;
    assert Find(data, FTYP).Some?;
  }

  /** No download whose media has a stray first marker is ever saved. */
  lemma StrayMarkerIsNeverSaved(s: State, frames: seq<Frame>, m: nat)
    requires Follows(s, []) && NeverLate(s, frames)
    requires Find(Media(frames), FTYP) == Some(m) && StrayMarker(Media(frames), m)
    ensures !Finalize(After(s, frames)).0
  {
    hide After, Media, FindMp4, NeverLate, Finalize, Find;
    var end, media := After(s, frames), Media(frames);
    FileFollowsMedia(s, frames);
    SavedFileIsTheSlice(end, media);
    if FindMp4(end.aggregate).Some? {
      assert media == end.aggregate + media[|end.aggregate|..];
      OffsetIsStable(end.aggregate, media[|end.aggregate|..]);
      FirstMarkerDecides(media, m);
      assert false;
    }
  }

  // ---- a late raise reaches the saved file ----

  lemma {:induction false} MediaJoined(first: seq<Frame>, second: seq<Frame>)
    ensures Media(first + second) == Media(first) + Media(second)
    decreases |second|
  {
    hide MediaOf;
    if second == [] {
      assert first + second == first;
    } else {
      var n := |second| - 1;
      MediaJoined(first, second[..n]);
      assert (first + second)[..|first + second| - 1] == first + second[..n];
      var a, b, c := Media(first), Media(second[..n]), MediaOf(second[n]);
      assert (a + b) + c == a + (b + c);
    }
  }

  lemma {:induction false} Joined(s: State, first: seq<Frame>, second: seq<Frame>)
    ensures After(s, first + second) == After(After(s, first), second)
    ensures Media(first + second) == Media(first) + Media(second)
    decreases |second|
  {
    hide Observe, Media;
    MediaJoined(first, second);
    if second == [] {
      assert first + second == first;
    } else {
      var n := |second| - 1;
      Joined(s, first, second[..n]);
      assert (first + second)[..|first + second| - 1] == first + second[..n];
    }
  }

  lemma OneFrame(s: State, f: Frame)
    ensures After(s, [f]) == Observe(s, f) && Media([f]) == MediaOf(f)
  {
    hide Observe, MediaOf;
    assert [f][..0] == [];
  }

  /** A sound box header in front of zeros. */
  function BoxOf(length: nat): (data: seq<byte>)
    requires length >= 8
    ensures |data| == length
  {
    ([0, 0, 0, 8] + FTYP) + seq(length - 8, _ => 0)
  }

  lemma BoxIsFound(length: nat)
    requires length >= 8
    ensures FindMp4(BoxOf(length)) == Some(0)
  {
    hide Find, FindMp4;
    var data := BoxOf(length);
    forall i: nat | i < 4
      ensures !MatchesAt(data, i, FTYP)
    {
      if i + 4 <= |data| {
        assert data[i..i + 4][0] == data[i];
      }
    }
    FoundAt(data, 4);
    FirstMarkerDecides(data, 4);
  }

  /** What a session can receive: the observer drops everything before the first
      cmd13 frame, and the download goes on only if that one is accepted and its XML
      body names a handle; a chunk is decoded from its body, whose length is a
      four-byte field, and a size is read from an XML body. */
  predicate Receivable(frames: seq<Frame>) {
    && (frames != [] ==> frames[0].command == Prepare && Accepted(frames[0]) && HasXml(frames[0]))
    && forall i :: 0 <= i < |frames| ==>
         && |frames[i].chunk| <= frames[i].bodyLength < 0x1_0000_0000
         && (frames[i].reports > 0 ==> HasXml(frames[i]))
  }

  predicate HasXml(f: Frame) {
    f.bodyLength > 0 && f.looksLikeXml
  }

  /** An accepted cmd13 frame whose XML body reports `size`, or none if that is 0. */
  function Prepares(size: nat): Frame {
    Frame(Prepare, 200, 512, [], true, size)
  }

  /** After a cmd13 frame without a size, one chunk that is a byte longer than the
      limit. */
  lemma FilledCollector() returns (data: Frame, s: State)
    ensures data == Frame(Download, 200, STREAM_SAMPLE_MAX_BYTES + 1, BoxOf(STREAM_SAMPLE_MAX_BYTES + 1), false, 0)
    ensures s == Observe(Observe(Prepared(0), Prepares(0)), data) && Follows(s, data.chunk)
    ensures s.aggregateLimit == |s.part| == STREAM_SAMPLE_MAX_BYTES && s.mp4Offset == Some(0) && s.reported == 0
  {
    var limit := STREAM_SAMPLE_MAX_BYTES;
    data := Frame(Download, 200, limit + 1, BoxOf(limit + 1), false, 0);
    var s0 := Observe(Prepared(0), Prepares(0));
    s := Observe(s0, data);
    PreparedFollows(0);
    BoxIsFound(limit);
    assert BoxOf(limit + 1)[..limit] == BoxOf(limit);
    hide FindMp4, BoxOf, Find;
    assert Follows(s0, []) && s0.aggregateLimit == limit && s0.reported == 0;
    ObserveFollows(s0, [], data);
    assert [] + data.chunk == data.chunk;
    PersistKeepsAggregate(Collect(Counted(s0, data), data.chunk));
    hide Collect, Persist, Prepared;
    assert s.aggregateLimit == limit;
  }

  lemma LargerSizeIsLate(s: State, media: seq<byte>)
    requires |media| == STREAM_SAMPLE_MAX_BYTES + 1 && s.aggregateLimit == STREAM_SAMPLE_MAX_BYTES && s.reported == 0
    ensures var raise := Prepares(STREAM_SAMPLE_MAX_BYTES + 1);
      RaisesLate(s, media, raise) && Observe(s, raise).reported == STREAM_SAMPLE_MAX_BYTES + 1
  {
    hide Persist, Collect;
  }

  /** The worst case is reachable: a session that is told no size and collects past
      its limit, learns a larger size from a second cmd13 frame and gets one more
      chunk saves a file of that size which is not the slice of the media. */
  lemma LateRaiseSavesWrongFile() returns (frames: seq<Frame>)
    ensures Receivable(frames)
    ensures var end := After(Prepared(0), frames);
      && FindMp4(Media(frames)) == Some(0)
      && Finalize(end).0 && |Finalize(end).1| == end.reported <= |Media(frames)|
      && Finalize(end).1 != Media(frames)[..end.reported]
  {
    hide FindMp4, BoxOf, Find, Observe, Follows, RaisesLate, Finalize, After, Media, Prepared;
    var first, raise := Prepares(0), Prepares(STREAM_SAMPLE_MAX_BYTES + 1);
    var data, s := FilledCollector();
    LargerSizeIsLate(s, data.chunk);
    var next := LateRaiseBreaks(s, data.chunk, raise);
    frames := [first] + ([data] + ([raise] + [next]));
    var s0 := Observe(Prepared(0), first);
    OneFrame(Prepared(0), first);
    OneFrame(s0, data);
    OneFrame(s, raise);
    OneFrame(Observe(s, raise), next);
    Joined(s, [raise], [next]);
    Joined(s0, [data], [raise] + [next]);
    Joined(Prepared(0), [first], [data] + ([raise] + [next]));
    BoxIsFound(STREAM_SAMPLE_MAX_BYTES + 1);
    Continued(data.chunk, next.chunk);
    assert MediaOf(first) + (MediaOf(data) + (MediaOf(raise) + MediaOf(next))) == data.chunk + next.chunk;
    var end := After(Prepared(0), frames);
    assert (data.chunk + next.chunk)[..|end.part|] == data.chunk[0..0 + |end.part|];
  }

  lemma Continued(data: seq<byte>, more: seq<byte>)
    requires FindMp4(data).Some?
    ensures FindMp4(data + more) == FindMp4(data)
  {
    OffsetIsStable(data, more);
  }

  // ---- a session from its start ----

  /** What follows the accepted cmd13 frame of a session: data, and nothing that
      reports a larger size or prepares again. */
  predicate Follow(prepare: Frame, frames: seq<Frame>) {
    forall i :: 0 <= i < |frames| ==>
      frames[i].reports <= prepare.reports && !(frames[i].command == Prepare && Accepted(frames[i]))
  }

  lemma AfterPrepare(candidateSize: nat, prepare: Frame, frames: seq<Frame>)
    requires prepare.command == Prepare && Accepted(prepare) && prepare.reports > 0 && Follow(prepare, frames)
    ensures var s := Observe(Prepared(candidateSize), prepare);
      && Follows(s, []) && s.mp4Offset.None? && !s.matches && RoomForReported(s) && s.reported == prepare.reports
      && s.aggregateLimit == Max(VerifiedLimits(candidateSize).0, VerifiedLimits(prepare.reports).0)
      && (forall i :: 0 <= i < |frames| ==> PureData(s, frames[i]))
      && After(Prepared(candidateSize), [prepare] + frames) == After(s, frames)
  {
    PreparedFollows(candidateSize);
    AcceptedPrepareMakesRoom(Prepared(candidateSize), prepare);
    OneFrame(Prepared(candidateSize), prepare);
    Joined(Prepared(candidateSize), [prepare], frames);
    hide FindMp4, After;
  }

  /** A session from its start: the cmd13 frame reports a size, media follows. It is
      saved if and only if exactly that many bytes are kept from the offset on, and
      then the file is that slice of the media. */
  lemma SessionSavesTheSlice(candidateSize: nat, prepare: Frame, frames: seq<Frame>)
    requires prepare.command == Prepare && Accepted(prepare) && prepare.reports > 0 && Follow(prepare, frames)
    ensures var media := Media(frames);
      var kept := Cut(media, Max(VerifiedLimits(candidateSize).0, VerifiedLimits(prepare.reports).0));
      var (saved, file) := Finalize(After(Prepared(candidateSize), [prepare] + frames));
      && (saved <==> FindMp4(kept).Some? && |kept| - FindMp4(kept).value == prepare.reports)
      && (saved ==>
            && FindMp4(media).Some? && FindMp4(media).value + prepare.reports <= |media|
            && file == media[FindMp4(media).value..FindMp4(media).value + prepare.reports])
  {
    hide After, Media, FindMp4, Finalize, Cut, Follows, NeverLate, VerifiedLimits, PureData, Observe;
    AfterPrepare(candidateSize, prepare, frames);
    var s := Observe(Prepared(candidateSize), prepare);
    AcceptanceIsExact(s, frames);
    DataRunFrom(s, frames);
    FileFollowsMedia(s, frames);
    SavedFileIsTheSlice(After(s, frames), Media(frames));
  }

  lemma DataRunFrom(s: State, frames: seq<Frame>)
    requires s.mp4Offset.None? && !s.matches && forall i :: 0 <= i < |frames| ==> PureData(s, frames[i])
    ensures NeverLate(s, frames) && After(s, frames).reported == s.reported
  {
    hide After, NeverLate, PureData;
    DataRun(s, frames);
  }

  /** Before the offset is found, less than its box header has arrived. */
  lemma OffsetComesWithItsHeader(data: seq<byte>, n: nat)
    requires n <= |data| && FindMp4(data).Some? && n >= FindMp4(data).value + 8
    ensures FindMp4(data[..n]) == FindMp4(data)
  {
    hide Find;
    var m := Find(data, FTYP).value;
    assert data[..n][m..m + 4] == data[m..m + 4];
    forall i: nat | i < m
      ensures !MatchesAt(data[..n], i, FTYP)
    {
      assert !MatchesAt(data, i, FTYP);
      if i + 4 <= n {
        assert data[..n][i..i + 4] == data[i..i + 4];
      }
    }
    FoundAt(data[..n], m);
  }

  /** At every moment of such a session, for a reported size up to 124 MiB and media
      whose MP4 offset is at most 4 MiB, found yet or not: the aggregate limit is not
      the reason to stop, and neither is the byte limit while prefix and framing take
      at most 4 MiB. */
  lemma SessionNeverStopsShort(candidateSize: nat, prepare: Frame, frames: seq<Frame>, k: nat)
    requires prepare.command == Prepare && Accepted(prepare) && Follow(prepare, frames) && k <= |frames|
    requires 0 < prepare.reports <= VERIFIED_FILE_HARD_CAP_BYTES - VERIFIED_FILE_OVERHEAD_BYTES
    requires FindMp4(Media(frames)).Some? && FindMp4(Media(frames)).value <= VERIFIED_FILE_OVERHEAD_BYTES
    ensures var now := After(Prepared(candidateSize), [prepare] + frames[..k]);
      && StopReason(now) != AggregateLimit
      && (now.bodyBytes - |Media(frames[..k])| + FindMp4(Media(frames)).value <= VERIFIED_FILE_OVERHEAD_BYTES ==>
            StopReason(now) != ByteLimit)
  {
    hide After, Media, FindMp4, NeverLate, Observe;
    var s := Observe(Prepared(candidateSize), prepare);
    AfterPrepare(candidateSize, prepare, frames[..k]);
    DataRun(s, frames[..k]);
    FileFollowsMedia(s, frames[..k]);
    var now := After(s, frames[..k]);
    Joined(s, frames[..k], frames[k..]);
    assert frames[..k] + frames[k..] == frames;
    var media := Media(frames[..k]);
    assert Media(frames)[..|media|] == media;
    if now.mp4Offset.Some? {
      assert Media(frames) == now.aggregate + Media(frames)[|now.aggregate|..];
      OffsetIsStable(now.aggregate, Media(frames)[|now.aggregate|..]);
      CollectorNeverStopsShort(s, frames[..k]);
    } else if |now.aggregate| >= FindMp4(Media(frames)).value + 8 {
      assert Media(frames)[..|now.aggregate|] == now.aggregate;
      OffsetComesWithItsHeader(Media(frames), |now.aggregate|);
      assert false;
    }
  }
}
