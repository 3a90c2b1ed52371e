/** The rolling BcMedia parser of `live_stream.py`.

    `Parse` is the whole-buffer specification; `RollingParser` is the in-place
    loop over a buffer that only ever holds what has not been consumed yet. */
module RollingParser {
  import opened Basics

  const AAC_MAGIC: seq<byte> := [48, 53, 119, 98]
  const ADPCM_MAGIC: seq<byte> := [48, 49, 119, 98]
  const H264: seq<byte> := [72, 50, 54, 52]
  const H265: seq<byte> := [72, 50, 54, 53]
  const MAX_MEDIA_PACKET_BYTES: nat := 4 * 1024 * 1024
  const MAX_ADDITIONAL_HEADER_BYTES: nat := 64 * 1024
  const MAX_ROLLING_BUFFER_BYTES: nat := 8 * 1024 * 1024
  // One byte more than the longest buffer the parser can leave behind.
  const RESIDUAL_BOUND: nat := 24 + MAX_ADDITIONAL_HEADER_BYTES + MAX_MEDIA_PACKET_BYTES

  datatype FrameType = IFrame | PFrame
  datatype AudioCodec = Aac | Adpcm

  /** One consumed packet, as far as the sinks can tell packets apart. */
  datatype Item =
    | Info
    | Video(payload: seq<byte>, frameType: FrameType)
    | OtherVideo
    | Audio(payload: seq<byte>, codec: AudioCodec)

  // "1001", "1002"
  predicate IsInfoMagic(m: seq<byte>) {
    m == [49, 48, 48, 49] || m == [49, 48, 48, 50]
  }

  // "00dc" to "91dc": a channel digit, a frame-type digit 0 or 1, and "dc"
  predicate IsVideoMagic(m: seq<byte>) {
    |m| == 4 && 48 <= m[0] <= 57 && 48 <= m[1] <= 49 && m[2] == 100 && m[3] == 99
  }

  predicate IsAudioMagic(m: seq<byte>) {
    m == AAC_MAGIC || m == ADPCM_MAGIC
  }

  predicate IsMagic(m: seq<byte>) {
    IsInfoMagic(m) || IsVideoMagic(m) || IsAudioMagic(m)
  }

  predicate MagicAt(data: seq<byte>, i: nat) {
    i + 4 <= |data| && IsMagic(data[i..i + 4])
  }

  /** The first position from `from` on at which a magic starts. */
  function FirstMagic(data: seq<byte>, from: nat): (r: Option<nat>)
    ensures r.Some? ==> from <= r.value && MagicAt(data, r.value)
    decreases |data| - from
  {
    if from + 4 > |data| then None
    else if IsMagic(data[from..from + 4]) then Some(from)
    else FirstMagic(data, from + 1)
  }

  lemma {:induction false} FirstMagicIsFirst(data: seq<byte>, from: nat, i: nat)
    requires from <= i && (FirstMagic(data, from).Some? ==> i < FirstMagic(data, from).value)
    ensures !MagicAt(data, i)
    decreases i - from
  {
    if from < i && from + 4 <= |data| {
      FirstMagicIsFirst(data, from + 1, i);
    }
  }

  lemma {:induction false} FirstMagicIs(data: seq<byte>, from: nat, at: nat)
    requires from <= at && MagicAt(data, at)
    requires forall i: nat :: from <= i < at ==> !MagicAt(data, i)
    ensures FirstMagic(data, from) == Some(at)
    decreases at - from
  {
    assert from < at ==> !MagicAt(data, from);
    if from < at {
      FirstMagicIs(data, from + 1, at);
    }
  }

  lemma {:induction false} NoMagic(data: seq<byte>, from: nat)
    requires forall i: nat :: from <= i ==> !MagicAt(data, i)
    ensures FirstMagic(data, from) == None
    decreases |data| - from
  {
    assert !MagicAt(data, from);
    if from + 4 <= |data| {
      NoMagic(data, from + 1);
    }
  }

  /** `_earliest_magic_offset`: one `find` per magic, and the least result. */
  function EarliestMagicOffset(data: seq<byte>): Option<nat> {
    EarliestOf(data, AllMagics())
  }

  function EarliestOf(data: seq<byte>, patterns: seq<seq<byte>>): (r: Option<nat>)
    ensures r.Some? ==> exists p :: p in patterns && MatchesAt(data, r.value, p)
    ensures forall p, i: nat :: p in patterns && (r.Some? ==> i < r.value) ==> !MatchesAt(data, i, p)
  {
    if patterns == [] then None
    else
      var first := Find(data, patterns[0]);
      var rest := EarliestOf(data, patterns[1..]);
      if first.None? then rest
      else if rest.None? || first.value <= rest.value then first
      else rest
  }

  function AllMagics(): seq<seq<byte>> {
    [[49, 48, 48, 49], [49, 48, 48, 50]] + VideoMagics(10) + [AAC_MAGIC, ADPCM_MAGIC]
  }

  function VideoMagics(channels: nat): seq<seq<byte>>
    requires channels <= 10
  {
    if channels == 0 then []
    else VideoMagics(channels - 1) + [[47 + channels, 48, 100, 99], [47 + channels, 49, 100, 99]]
  }

  lemma {:induction false} VideoMagicsListed(channels: nat, m: seq<byte>)
    requires channels <= 10
    ensures m in VideoMagics(channels) <==> IsVideoMagic(m) && m[0] < 48 + channels
  {
    if channels > 0 {
      VideoMagicsListed(channels - 1, m);
      if IsVideoMagic(m) && m[0] == 47 + channels {
        assert m == [47 + channels, m[1], 100, 99];
      }
    }
  }

  lemma MagicsListed(m: seq<byte>)
    ensures m in AllMagics() <==> IsMagic(m)
    ensures IsMagic(m) ==> |m| == 4
  {
    VideoMagicsListed(10, m);
    hide VideoMagics;
  }

  /** Searching for each magic in turn finds the first magic. */
  lemma EarliestIsFirstMagic(data: seq<byte>)
    ensures EarliestMagicOffset(data) == FirstMagic(data, 0)
  {
    hide FirstMagic, EarliestOf, AllMagics, IsMagic;
    var r := EarliestMagicOffset(data);
    forall i: nat | r.Some? ==> i < r.value
      ensures !MagicAt(data, i)
    {
      if i + 4 <= |data| {
        var m := data[i..i + 4];
        MagicsListed(m);
        assert MatchesAt(data, i, m);
      }
    }
    if r.Some? {
      var p :| p in AllMagics() && MatchesAt(data, r.value, p);
      MagicsListed(p);
      FirstMagicIs(data, 0, r.value);
    } else {
      NoMagic(data, 0);
    }
  }

  /** What the parser does with a buffer whose first four bytes are a magic. */
  datatype Decision =
    | NeedMore                        // keep the buffer and wait
    | Reject                          // not a packet: drop one byte and resynchronise
    | Accept(size: nat, item: Item)   // consume one packet

  function Padding8(size: nat): (pad: nat)
    ensures pad < 8 && (size + pad) % 8 == 0
  {
    var remainder := size % 8;
    if remainder == 0 then 0 else 8 - remainder
  }

  function VideoPacketSize(additional: nat, payload: nat): nat {
    24 + additional + payload + Padding8(payload)
  }

  function Decide(t: seq<byte>): (d: Decision)
    requires |t| >= 4
    ensures d.Accept? ==> 0 < d.size <= |t|
  {
    var magic := t[..4];
    if IsInfoMagic(magic) then
      if |t| < 32 then NeedMore
      else if U32(t, 4) != 32 then Reject
      else Accept(32, Info)
    else if IsVideoMagic(magic) then
      if |t| < 24 then NeedMore
      else if t[4..8] != H264 && t[4..8] != H265 then Reject
      else DecideVideo(t)
    else if IsAudioMagic(magic) then
      if |t| < 8 then NeedMore
      else
        var size := U16(t, 4);
        if size <= 0 || size != U16(t, 6) || size > MAX_MEDIA_PACKET_BYTES then Reject
        else if |t| < 8 + size + Padding8(size) then NeedMore
        else Accept(8 + size + Padding8(size),
                    Audio(t[8..8 + size], if magic == AAC_MAGIC then Aac else Adpcm))
    else Reject
  }

  function DecideVideo(t: seq<byte>): (d: Decision)
    requires |t| >= 24
    ensures d.Accept? ==> 0 < d.size <= |t|
  {
    var size := U32(t, 8);
    var additional := U32(t, 12);
    if size <= 0 || size > MAX_MEDIA_PACKET_BYTES || additional > MAX_ADDITIONAL_HEADER_BYTES then Reject
    else if VideoPacketSize(additional, size) > MAX_MEDIA_PACKET_BYTES + MAX_ADDITIONAL_HEADER_BYTES + 32 then Reject
    else if |t| < VideoPacketSize(additional, size) then NeedMore
    else Accept(VideoPacketSize(additional, size),
                if t[4..8] == H264
                then Video(t[24 + additional..24 + additional + size], if t[1] == 48 then IFrame else PFrame)
                else OtherVideo)
  }

  datatype Parsed = Parsed(items: seq<Item>, rest: seq<byte>)

  /** `del buffer[:-3]` when the buffer is longer than three bytes. */
  function LastThree(data: seq<byte>): seq<byte> {
    if |data| > 3 then data[|data| - 3..] else data
  }

  /** One turn of the parser's loop: stop with what is left, or carry on with
      a shorter buffer after consuming at most one packet. */
  datatype Turn = Stop(left: seq<byte>) | Go(left: seq<byte>, consumed: seq<Item>)

  function TakeTurn(data: seq<byte>): (turn: Turn)
    ensures turn.Go? ==> |turn.left| < |data|
    ensures |turn.left| <= |data|
  {
    var offset := FirstMagic(data, 0);
    if offset.None? then Stop(LastThree(data))
    else TurnAtMagic(data[offset.value..])
  }

  function Consumed(turn: Turn): seq<Item> {
    if turn.Go? then turn.consumed else []
  }

  function TurnAtMagic(t: seq<byte>): (turn: Turn)
    requires |t| >= 4
    ensures turn.Go? ==> |turn.left| < |t|
    ensures |turn.left| <= |t|
  {
    match Decide(t)
    case NeedMore => Stop(t)
    case Reject => Go(t[1..], [])
    case Accept(size, item) => Go(t[size..], [item])
  }

  /** One run of the parser over a whole buffer. */
  function Parse(data: seq<byte>): Parsed
    decreases |data|
  {
    match TakeTurn(data)
    case Stop(left) => Parsed([], left)
    case Go(left, consumed) =>
      var more := Parse(left);
      Parsed(consumed + more.items, more.rest)
  }

  /** Everything the parser makes visible: its counters and the two sinks
      (a sink that is not connected is never called). */
  datatype Delivered = Delivered(
    h264Frames: nat,
    aacPackets: nat,
    videoSink: bool,
    audioSink: bool,
    video: seq<(seq<byte>, FrameType)>,
    audio: seq<(seq<byte>, AudioCodec)>)

  function DeliverOne(d: Delivered, item: Item): Delivered {
    match item
    case Video(payload, frameType) =>
      d.(h264Frames := d.h264Frames + 1,
         video := if d.videoSink then d.video + [(payload, frameType)] else d.video)
    case Audio(payload, codec) =>
      d.(aacPackets := if codec == Aac then d.aacPackets + 1 else d.aacPackets,
         audio := if d.audioSink then d.audio + [(payload, codec)] else d.audio)
    case _ => d
  }

  function Deliver(d: Delivered, items: seq<Item>): Delivered {
    if items == [] then d
    else DeliverOne(Deliver(d, items[..|items| - 1]), items[|items| - 1])
  }

  /** Dropping the bytes before the first magic leaves that magic in front. */
  lemma HeadMagic(data: seq<byte>, offset: nat)
    requires FirstMagic(data, 0) == Some(offset)
    ensures FirstMagic(data[offset..], 0) == Some(0)
    ensures Parse(data) == Parse(data[offset..])
  {
    var t := data[offset..];
    assert t[0..4] == data[offset..offset + 4];
    assert t[0..] == t;
  }

  lemma ParseTurn(data: seq<byte>)
    ensures var turn := TakeTurn(data);
            var more := if turn.Go? then Parse(turn.left) else Parsed([], turn.left);
            Parse(data) == Parsed(Consumed(turn) + more.items, more.rest)
  {
  }

  lemma NothingToParse(d: Delivered)
    ensures Parse([]) == Parsed([], []) && Deliver(d, []) == d
  {
  }

  lemma DeliverSingle(d: Delivered, item: Item)
    ensures Deliver(d, [item]) == DeliverOne(d, item)
  {
    assert [item][..0] == [];
    assert Deliver(d, [item][..0]) == d;
  }

  lemma {:induction false} DeliverConcat(d: Delivered, first: seq<Item>, second: seq<Item>)
    ensures Deliver(d, first + second) == Deliver(Deliver(d, first), second)
    decreases |second|
  {
    if second == [] {
      assert first + second == first;
    } else {
      var n := |second| - 1;
      DeliverConcat(d, first, second[..n]);
      assert (first + second)[..|first + second| - 1] == first + second[..n];
    }
  }

  /** The connection's media buffer together with its trace and sinks. */
  class RollingParser {
    var buffer: seq<byte>
    var out: Delivered

    constructor (videoSink: bool, audioSink: bool)
      ensures buffer == [] && out == Delivered(0, 0, videoSink, audioSink, [], [])
    {
      buffer := [];
      out := Delivered(0, 0, videoSink, audioSink, [], []);
    }

    /** The body of the loop in `_parse_rolling_bcmedia`. */
    method Turn() returns (more: bool, consumed: nat)
      modifies this
      ensures var turn := TakeTurn(old(buffer));
              && buffer == turn.left && more == turn.Go? && consumed == |Consumed(turn)|
              && out == Deliver(old(out), Consumed(turn))
    {
      more, consumed := false, 0;
      var offset := FirstMagic(buffer, 0);
      if offset.None? {
        if |buffer| > 3 {
          buffer := buffer[|buffer| - 3..];
        }
        return;
      }
      buffer := buffer[offset.value..];
      match Decide(buffer) {
        case NeedMore =>
        case Reject =>
          more, buffer := true, buffer[1..];
        case Accept(size, item) =>
          DeliverSingle(out, item);
          out := DeliverOne(out, item);
          more, consumed, buffer := true, 1, buffer[size..];
      }
    }

    /** `_parse_rolling_bcmedia` */
    method ParseBuffer() returns (parsed: nat)
      modifies this
      ensures buffer == Parse(old(buffer)).rest
      ensures out == Deliver(old(out), Parse(old(buffer)).items)
      ensures parsed == |Parse(old(buffer)).items|
    {
      hide Parse, TakeTurn, Deliver;
      parsed := 0;
      ghost var done: seq<Item> := [];
      NothingToParse(out);
      while |buffer| > 0
        invariant Parse(old(buffer)).items == done + Parse(buffer).items
        invariant Parse(old(buffer)).rest == Parse(buffer).rest
        invariant out == Deliver(old(out), done) && parsed == |done|
        decreases |buffer|
      {
        ghost var turn := TakeTurn(buffer);
        ParseTurn(buffer);
        DeliverConcat(old(out), done, Consumed(turn));
        var more, consumed := Turn();
        parsed := parsed + consumed;
        done := done + Consumed(turn);
        if !more {
          break;
        }
      }
      assert done + [] == done;
    }

    /** `observe_live_frame`, once the frame's media chunk has been decoded. */
    method ObserveChunk(chunk: seq<byte>)
      modifies this
      ensures (buffer, out) == Observe(old(buffer), old(out), chunk)
    {
      if |chunk| == 0 {
        return;
      }
      buffer := buffer + chunk;
      if |buffer| > MAX_ROLLING_BUFFER_BYTES {
        buffer := buffer[|buffer| - MAX_ROLLING_BUFFER_BYTES..];
      }
      assert buffer == Capped(old(buffer) + chunk);
      var _ := ParseBuffer();
    }
  }

  function Capped(data: seq<byte>): seq<byte> {
    if |data| > MAX_ROLLING_BUFFER_BYTES then data[|data| - MAX_ROLLING_BUFFER_BYTES..] else data
  }

  function Observe(buffer: seq<byte>, out: Delivered, chunk: seq<byte>): (seq<byte>, Delivered) {
    if |chunk| == 0 then (buffer, out)
    else
      var p := Parse(Capped(buffer + chunk));
      (p.rest, Deliver(out, p.items))
  }

  function ObserveAll(buffer: seq<byte>, out: Delivered, chunks: seq<seq<byte>>): (seq<byte>, Delivered)
    decreases |chunks|
  {
    if chunks == [] then (buffer, out)
    else
      var (buffer', out') := Observe(buffer, out, chunks[0]);
      ObserveAll(buffer', out', chunks[1..])
  }
}
