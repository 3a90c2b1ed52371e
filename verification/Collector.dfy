/** The verified download collector: frames of one download, the bounded
    aggregate, the `.part` file that follows it, and the final acceptance.

    Decryption is outside: a frame arrives with its decoded chunk, whether that
    looks like XML, and the largest size its XML reports (0 for none). */
module Collector {
  import opened Basics

  const MIB: nat := 1024 * 1024
  const STREAM_SAMPLE_MAX_BYTES: nat := 16 * MIB
  const STREAM_SAMPLE_MAX_FRAMES: nat := 4096
  const VERIFIED_FILE_OVERHEAD_BYTES: nat := 4 * MIB
  const VERIFIED_FILE_HARD_CAP_BYTES: nat := 128 * MIB
  const FTYP: seq<byte> := [102, 116, 121, 112]

  datatype Command = Prepare | Download   // cmd13, cmd8

  datatype Frame =
    Frame(command: Command, code: int, bodyLength: nat, chunk: seq<byte>, looksLikeXml: bool, reports: nat)

  /** The fields of connection and trace. `reported` 0 is a missing size. */
  datatype State = State(
    aggregate: seq<byte>,
    aggregateLimit: nat,
    sampleLimit: nat,
    frameLimit: nat,
    mp4Offset: Option<nat>,
    reported: nat,
    collected: nat,
    reached: bool,
    matches: bool,
    persisted: nat,
    part: seq<byte>,
    frames: nat,
    bodyBytes: nat)

  function Min(a: int, b: int): int { if a < b then a else b }
  function Max(a: int, b: int): int { if a > b then a else b }

  /** `_verified_collector_limits` */
  function VerifiedLimits(expected: nat): (nat, nat) {
    var wanted := Max(STREAM_SAMPLE_MAX_BYTES, expected + VERIFIED_FILE_OVERHEAD_BYTES);
    var bytes := Min(wanted, VERIFIED_FILE_HARD_CAP_BYTES);
    (bytes, Max(STREAM_SAMPLE_MAX_FRAMES, bytes / 2048 + 1024))
  }

  /** A box header this parser accepts: size 1 (a 64-bit size follows) or at least
      the eight bytes of the header itself (ISO/IEC 14496-12, section 4.2). */
  predicate SaneBoxSize(size: nat) {
    size == 1 || size >= 8
  }

  /** `_find_mp4_offset`: only the first "ftyp" is ever considered. */
  function FindMp4(data: seq<byte>): (r: Option<nat>)
    ensures r.Some? ==> r.value + 8 <= |data|
  {
    var marker := Find(data, FTYP);
    if marker.None? || marker.value < 4 then None
    else if SaneBoxSize(BigEndian32(data, marker.value - 4)) then Some(marker.value - 4)
    else None
  }

  /** `_valid_mp4_head` on the first 32 bytes of the file */
  predicate ValidHead(file: seq<byte>) {
    var head := if |file| > 32 then file[..32] else file;
    |head| >= 8 && head[4..8] == FTYP && SaneBoxSize(BigEndian32(head, 0))
  }

  predicate Accepted(f: Frame) {
    f.code == 0 || f.code == 200
  }

  predicate IsMedia(f: Frame) {
    f.command == Download && Accepted(f) && f.chunk != [] && !f.looksLikeXml
  }

  function Prepared(candidateSize: nat): State {
    var (bytes, frames) := VerifiedLimits(candidateSize);
    State([], bytes, bytes, frames, None, 0, 0, false, false, 0, [], 0, 0)
  }

  /** The media branch of the frame observer. */
  function Collect(s: State, chunk: seq<byte>): State {
    var remaining := Max(s.aggregateLimit - |s.aggregate|, 0);
    var aggregate := s.aggregate + (if remaining < |chunk| then chunk[..remaining] else chunk);
    var offset := if s.mp4Offset.None? then FindMp4(aggregate) else s.mp4Offset;
    var s1 := s.(aggregate := aggregate, mp4Offset := offset);
    if offset.None? then s1
    else
      var collected := Max(|aggregate| - offset.value, 0);
      var s2 := s1.(collected := collected);
      if s.reported == 0 then s2
      else s2.(reached := collected >= s.reported, matches := collected == s.reported)
  }

  /** `_apply_reported_size_collector_limits` */
  function Raise(s: State): State {
    if s.reported == 0 then s
    else
      var (bytes, frames) := VerifiedLimits(s.reported);
      s.(sampleLimit := Max(s.sampleLimit, bytes),
         aggregateLimit := Max(s.aggregateLimit, bytes),
         frameLimit := Max(s.frameLimit, frames))
  }

  /** `_persist_new_mp4_bytes` */
  function Persist(s: State): State {
    if s.mp4Offset.None? then s
    else
      var available := Max(|s.aggregate| - s.mp4Offset.value, 0);
      if available <= s.persisted then s
      else
        var data := s.aggregate[s.mp4Offset.value + s.persisted..];
        s.(part := s.part + data, persisted := s.persisted + |data|)
  }

  function Counted(s: State, f: Frame): State {
    s.(frames := s.frames + 1, bodyBytes := s.bodyBytes + f.bodyLength, reported := Max(s.reported, f.reports))
  }

  function Observe(s: State, f: Frame): State {
    var s1 := Counted(s, f);
    var s2 := if IsMedia(f) then Collect(s1, f.chunk) else s1;
    if !Accepted(f) then s2
    else if f.command == Prepare then Raise(s2)
    else Persist(s2)
  }

  /** The session loop's view of the collector; the later reasons do not come
      from the collector's sizes. */
  datatype Reason = GoOn | ExpectedSizeReached | AggregateLimit | ByteLimit | FrameLimit

  function StopReason(s: State): Reason {
    if s.reached then ExpectedSizeReached
    else if |s.aggregate| >= s.aggregateLimit then AggregateLimit
    else if s.bodyBytes >= s.sampleLimit then ByteLimit
    else if s.frames >= s.frameLimit then FrameLimit
    else GoOn
  }

  /** The session's `finally` clears the aggregate before the file is finalized. */
  function Finalize(s: State): (bool, seq<byte>) {
    var last := Persist(s.(aggregate := []));
    (last.matches && last.reported > 0 && |last.part| == last.reported && last.persisted == last.reported
     && ValidHead(last.part),
     last.part)
  }

  class CollectorConnection {
    var aggregate: seq<byte>
    var aggregateLimit: nat
    var sampleLimit: nat
    var frameLimit: nat
    var mp4Offset: Option<nat>
    var reported: nat
    var collected: nat
    var reached: bool
    var matches: bool
    var persisted: nat
    var part: seq<byte>
    var frames: nat
    var bodyBytes: nat

    function Fields(): State
      reads this
    {
      State(aggregate, aggregateLimit, sampleLimit, frameLimit, mp4Offset, reported, collected, reached, matches,
            persisted, part, frames, bodyBytes)
    }

    constructor (candidateSize: nat)
      ensures Fields() == Prepared(candidateSize)
    {
      var (bytes, frameCount) := VerifiedLimits(candidateSize);
      aggregate, aggregateLimit, sampleLimit, frameLimit := [], bytes, bytes, frameCount;
      mp4Offset, reported, collected, reached, matches := None, 0, 0, false, false;
      persisted, part, frames, bodyBytes := 0, [], 0, 0;
    }

    method CollectChunk(chunk: seq<byte>)
      modifies this
      ensures Fields() == Collect(old(Fields()), chunk)
    {
      hide FindMp4;
      var remaining := Max(aggregateLimit - |aggregate|, 0);
      if remaining < |chunk| {
        aggregate := aggregate + chunk[..remaining];
      } else {
        aggregate := aggregate + chunk;
      }
      if mp4Offset.None? {
        mp4Offset := FindMp4(aggregate);
      }
      if mp4Offset.Some? {
        collected := Max(|aggregate| - mp4Offset.value, 0);
        if reported > 0 {
          reached := collected >= reported;
          matches := collected == reported;
        }
      }
    }

    method ApplyReportedSize()
      modifies this
      ensures Fields() == Raise(old(Fields()))
    {
      if reported <= 0 {
        return;
      }
      var (bytes, frameCount) := VerifiedLimits(reported);
      sampleLimit := Max(sampleLimit, bytes);
      aggregateLimit := Max(aggregateLimit, bytes);
      frameLimit := Max(frameLimit, frameCount);
    }

    method PersistNewBytes()
      modifies this
      ensures Fields() == Persist(old(Fields()))
    {
      if mp4Offset.None? {
        return;
      }
      var available := Max(|aggregate| - mp4Offset.value, 0);
      if available <= persisted {
        return;
      }
      var data := aggregate[mp4Offset.value + persisted..mp4Offset.value + available];
      part := part + data;
      persisted := persisted + |data|;
    }

    method ObserveFrame(f: Frame)
      modifies this
      ensures Fields() == Observe(old(Fields()), f)
    {
      hide Collect, Raise, Persist;
      frames := frames + 1;
      bodyBytes := bodyBytes + f.bodyLength;
      reported := Max(reported, f.reports);
      if IsMedia(f) {
        CollectChunk(f.chunk);
      }
      if f.command == Prepare && Accepted(f) {
        ApplyReportedSize();
      }
      if f.command == Download && Accepted(f) {
        PersistNewBytes();
      }
    }

    method FinalizeFile() returns (saved: bool)
      modifies this
      ensures (saved, part) == Finalize(old(Fields()))
    {
      aggregate := [];
      PersistNewBytes();
      saved := matches && reported > 0 && |part| == reported && persisted == reported && ValidHead(part);
    }
  }
}
