/** A BcMedia sender, and the proof that the rolling parser undoes it. */
module Framing {
  import opened Basics
  import opened RollingParser
  import opened ParserTheorems

  /** A packet with every byte the parser does not look at left arbitrary. */
  datatype Packet =
    | InfoPacket(magic: seq<byte>, body: seq<byte>)
    | VideoPacket(channel: nat, frameType: FrameType, h264: bool, reserved: seq<byte>,
                  additional: seq<byte>, payload: seq<byte>, padding: seq<byte>)
    | AudioPacket(codec: AudioCodec, payload: seq<byte>, padding: seq<byte>)

  ghost predicate InRange(p: Packet) {
    match p
    case InfoPacket(magic, body) => IsInfoMagic(magic) && |body| == 24
    case VideoPacket(channel, _, _, reserved, additional, payload, padding) =>
      channel < 10 && |reserved| == 8
      && |additional| <= MAX_ADDITIONAL_HEADER_BYTES
      && 0 < |payload| <= MAX_MEDIA_PACKET_BYTES
      && |padding| == Padding8(|payload|)
    case AudioPacket(_, payload, padding) =>
      0 < |payload| < 0x1_0000 && |padding| == Padding8(|payload|)
  }

  function Encode(p: Packet): (s: seq<byte>)
    requires InRange(p)
    ensures |s| >= 4
  {
    match p
    case InfoPacket(magic, body) => magic + Bytes4(32) + body
    case VideoPacket(channel, frameType, h264, reserved, additional, payload, padding) =>
      VideoHeader(channel, frameType, h264, |payload|, |additional|) + reserved + additional + payload + padding
    case AudioPacket(codec, payload, padding) =>
      AudioHeader(codec, |payload|) + payload + padding
  }

  function VideoHeader(channel: nat, frameType: FrameType, h264: bool, payload: nat, additional: nat): (s: seq<byte>)
    requires channel < 10 && payload < 0x1_0000_0000 && additional < 0x1_0000_0000
    ensures |s| == 16
  {
    [48 + channel, if frameType == IFrame then 48 else 49, 100, 99] + (if h264 then H264 else H265)
    + Bytes4(payload) + Bytes4(additional)
  }

  function AudioHeader(codec: AudioCodec, payload: nat): (s: seq<byte>)
    requires payload < 0x1_0000
    ensures |s| == 8
  {
    (if codec == Aac then AAC_MAGIC else ADPCM_MAGIC) + Bytes2(payload) + Bytes2(payload)
  }

  function ItemOf(p: Packet): Item {
    match p
    case InfoPacket(_, _) => Info
    case VideoPacket(_, frameType, h264, _, _, payload, _) => if h264 then Video(payload, frameType) else OtherVideo
    case AudioPacket(codec, payload, _) => Audio(payload, codec)
  }

  lemma VideoHeaderReads(p: Packet)
    requires InRange(p) && p.VideoPacket?
    ensures var s := Encode(p);
            && |s| == VideoPacketSize(|p.additional|, |p.payload|) >= 24
            && IsVideoMagic(s[..4]) && s[1] == (if p.frameType == IFrame then 48 else 49)
            && s[4..8] == (if p.h264 then H264 else H265)
            && U32(s, 8) == |p.payload| && U32(s, 12) == |p.additional|
            && s[24 + |p.additional|..24 + |p.additional| + |p.payload|] == p.payload
  {
    var s := Encode(p);
    var header := VideoHeader(p.channel, p.frameType, p.h264, |p.payload|, |p.additional|);
    assert s[..16] == header;
    assert s[..4] == header[..4];
    assert s[4..8] == header[4..8];
    assert header[8..12] == Bytes4(|p.payload|) && header[12..16] == Bytes4(|p.additional|);
    assert forall k :: 0 <= k < 4 ==> s[8 + k] == header[8..12][k] && s[12 + k] == header[12..16][k];
  }

  lemma AudioHeaderReads(p: Packet)
    requires InRange(p) && p.AudioPacket?
    ensures var s := Encode(p);
            && |s| == 8 + |p.payload| + Padding8(|p.payload|)
            && s[..4] == (if p.codec == Aac then AAC_MAGIC else ADPCM_MAGIC)
            && U16(s, 4) == U16(s, 6) == |p.payload|
            && s[8..8 + |p.payload|] == p.payload
  {
    var s := Encode(p);
    var header := AudioHeader(p.codec, |p.payload|);
    assert s[..8] == header;
    assert s[..4] == header[..4];
    assert header[4..6] == Bytes2(|p.payload|) && header[6..8] == Bytes2(|p.payload|);
    assert forall k :: 0 <= k < 2 ==> s[4 + k] == header[4..6][k] && s[6 + k] == header[6..8][k];
  }

  /** The parser accepts every in-range packet, whole, and reads its payload. */
  lemma EncodedIsAccepted(p: Packet)
    requires InRange(p)
    ensures MagicAt(Encode(p), 0)
    ensures Decide(Encode(p)) == Accept(|Encode(p)|, ItemOf(p))
  {
    var s := Encode(p);
    assert s[0..4] == s[..4];
    match p
    case InfoPacket(magic, body) =>
      assert s[..4] == magic;
      assert s[4..8] == Bytes4(32);
      assert forall k :: 0 <= k < 4 ==> s[4 + k] == s[4..8][k];
    case VideoPacket(_, _, _, _, additional, payload, _) =>
      hide Encode;
      VideoHeaderReads(p);
      OversizeTestIsDead(|additional|, |payload|);
    case AudioPacket(codec, payload, _) =>
      hide Encode;
      AudioHeaderReads(p);
  }

  // ---- and nothing else ----

  /** Whatever the parser accepts is an in-range packet, read as that packet. */
  lemma AcceptedIsEncoded(t: seq<byte>) returns (p: Packet)
    requires |t| >= 4 && Decide(t).Accept?
    ensures InRange(p) && Encode(p) == t[..Decide(t).size] && ItemOf(p) == Decide(t).item
  {
    if IsInfoMagic(t[..4]) {
      p := InfoPacket(t[..4], t[8..32]);
      LittleEndian4(t, 4);
    } else if IsVideoMagic(t[..4]) {
      p := AcceptedVideo(t);
    } else {
      p := AcceptedAudio(t);
    }
  }

  lemma LittleEndian4(t: seq<byte>, i: nat)
    requires i + 4 <= |t|
    ensures U32(t, i) < 0x1_0000_0000 && Bytes4(U32(t, i)) == t[i..i + 4]
  {
    var n, a, b, c, d := U32(t, i), t[i] as nat, t[i + 1] as nat, t[i + 2] as nat, t[i + 3] as nat;
    DigitFalls(a, b + 0x100 * (c + 0x100 * d));
    DigitFalls(b, c + 0x100 * d);
    DigitFalls(c, d);
    assert n == a + 0x100 * (b + 0x100 * (c + 0x100 * d));
    assert t[i..i + 4] == [t[i], t[i + 1], t[i + 2], t[i + 3]];
  }

  lemma DigitFalls(digit: nat, rest: nat)
    requires digit < 0x100
    ensures (digit + 0x100 * rest) % 0x100 == digit && (digit + 0x100 * rest) / 0x100 == rest
  {
  }

  lemma LittleEndian2(t: seq<byte>, i: nat)
    requires i + 2 <= |t|
    ensures U16(t, i) < 0x1_0000 && Bytes2(U16(t, i)) == t[i..i + 2]
  {
  }

  lemma Cat(t: seq<byte>, i: nat, j: nat)
    requires i <= j <= |t|
    ensures t[..i] + t[i..j] == t[..j]
  {
  }

  /** What an accepted video header says. */
  lemma AcceptedVideoFields(t: seq<byte>)
    requires |t| >= 4 && Decide(t).Accept? && IsVideoMagic(t[..4])
    ensures |t| >= 24 && 0 < U32(t, 8) <= MAX_MEDIA_PACKET_BYTES && U32(t, 12) <= MAX_ADDITIONAL_HEADER_BYTES
    ensures t[4..8] == H264 || t[4..8] == H265
    ensures var size, start := U32(t, 8), 24 + U32(t, 12);
      && Decide(t).size == start + size + Padding8(size) <= |t|
      && Decide(t).item
         == if t[4..8] == H264 then Video(t[start..start + size], if t[1] == 48 then IFrame else PFrame) else OtherVideo
  {
  }

  lemma VideoHeaderIsRead(t: seq<byte>)
    requires |t| >= 16 && IsVideoMagic(t[..4]) && (t[4..8] == H264 || t[4..8] == H265)
    ensures 48 <= t[0] < 58 && U32(t, 8) < 0x1_0000_0000 && U32(t, 12) < 0x1_0000_0000
    ensures VideoHeader(t[0] as nat - 48, if t[1] == 48 then IFrame else PFrame, t[4..8] == H264, U32(t, 8), U32(t, 12))
         == t[..16]
  {
    LittleEndian4(t, 8);
    LittleEndian4(t, 12);
    hide U32, Bytes4;
    assert t[..4] == [t[0], t[1], 100, 99];
    Cat(t, 4, 8);
    Cat(t, 8, 12);
    Cat(t, 12, 16);
  }

  lemma VideoParts(t: seq<byte>, start: nat, middle: nat, end: nat)
    requires 24 <= start <= middle <= end <= |t|
    ensures t[..16] + t[16..24] + t[24..start] + t[start..middle] + t[middle..end] == t[..end]
  {
    Cat(t, 16, 24);
    Cat(t, 24, start);
    Cat(t, start, middle);
    Cat(t, middle, end);
  }

  lemma VideoEncoding(t: seq<byte>, p: Packet, start: nat, middle: nat, end: nat)
    requires InRange(p) && p.VideoPacket? && 24 <= start <= middle <= end <= |t|
    requires VideoHeader(p.channel, p.frameType, p.h264, |p.payload|, |p.additional|) == t[..16]
    requires p.reserved == t[16..24] && p.additional == t[24..start]
    requires p.payload == t[start..middle] && p.padding == t[middle..end]
    ensures Encode(p) == t[..end]
  {
    VideoParts(t, start, middle, end);
  }

  lemma AcceptedVideo(t: seq<byte>) returns (p: Packet)
    requires |t| >= 4 && Decide(t).Accept? && IsVideoMagic(t[..4])
    ensures InRange(p) && Encode(p) == t[..Decide(t).size] && ItemOf(p) == Decide(t).item
  {
    AcceptedVideoFields(t);
    VideoHeaderIsRead(t);
    hide Decide, VideoHeader, U32, Padding8, Encode, IsVideoMagic;
    var size, start := U32(t, 8), 24 + U32(t, 12);
    var end := start + size + Padding8(size);
    p := VideoPacket(t[0] as nat - 48, if t[1] == 48 then IFrame else PFrame, t[4..8] == H264, t[16..24],
                     t[24..start], t[start..start + size], t[start + size..end]);
    assert InRange(p);
    hide InRange;
    assert ItemOf(p) == Decide(t).item;
    hide ItemOf;
    VideoEncoding(t, p, start, start + size, end);
  }

  lemma AcceptedAudio(t: seq<byte>) returns (p: Packet)
    requires |t| >= 4 && Decide(t).Accept? && !IsInfoMagic(t[..4]) && !IsVideoMagic(t[..4])
    ensures InRange(p) && Encode(p) == t[..Decide(t).size] && ItemOf(p) == Decide(t).item
  {
    var size := U16(t, 4);
    LittleEndian2(t, 4);
    LittleEndian2(t, 6);
    hide U16, Bytes2;
    p := AudioPacket(if t[..4] == AAC_MAGIC then Aac else Adpcm, t[8..8 + size],
                     t[8 + size..8 + size + Padding8(size)]);
    Cat(t, 4, 6);
    Cat(t, 6, 8);
    assert AudioHeader(p.codec, size) == t[..8];
    Cat(t, 8, 8 + size);
    Cat(t, 8 + size, 8 + size + Padding8(size));
  }

  ghost predicate StartsPacket(t: seq<byte>) {
    exists p :: InRange(p) && Encode(p) <= t
  }

  /** However the stream goes on, it does not begin with a packet. */
  ghost predicate Hopeless(t: seq<byte>) {
    forall more: seq<byte> :: !StartsPacket(t + more)
  }

  /** The bytes the parser wants to see behind each magic. */
  function HeaderNeeded(t: seq<byte>): nat
    requires |t| >= 4
  {
    if IsInfoMagic(t[..4]) then 32 else if IsVideoMagic(t[..4]) then 24 else 8
  }

  lemma PacketIsAccepted(t: seq<byte>)
    requires StartsPacket(t)
    ensures MagicAt(t, 0) && Decide(t).Accept?
  {
    hide Decide, Encode;
    var p :| InRange(p) && Encode(p) <= t;
    EncodedIsAccepted(p);
    var rest := t[|Encode(p)|..];
    assert t == Encode(p) + rest;
    DecisionIsStable(Encode(p), rest);
    MagicIsStable(Encode(p), rest, 0);
  }

  lemma RejectedIsHopeless(t: seq<byte>)
    requires MagicAt(t, 0) && Decide(t).Reject?
    ensures Hopeless(t)
  {
    hide Decide, IsMagic, Encode;
    forall more: seq<byte>
      ensures !StartsPacket(t + more)
    {
      DecisionIsStable(t, more);
      if StartsPacket(t + more) {
        PacketIsAccepted(t + more);
        assert false;
      }
    }
  }

  /** A wait behind a whole header is never in vain: the bytes that are missing can
      make it a packet. */
  lemma WaitingCanComplete(t: seq<byte>)
    requires MagicAt(t, 0) && Decide(t).NeedMore? && |t| >= HeaderNeeded(t)
    ensures !Hopeless(t)
  {
    assert t[..4] == t[0..4];
    var size := if IsVideoMagic(t[..4]) then VideoPacketSize(U32(t, 12), U32(t, 8))
                else 8 + U16(t, 4) + Padding8(U16(t, 4));
    var more: seq<byte> := seq(size - |t|, _ => 0);
    assert (t + more)[..4] == t[..4] && (t + more)[4..8] == t[4..8];
    assert Decide(t + more).Accept?;
    hide Decide, Encode;
    var p := AcceptedIsEncoded(t + more);
    assert StartsPacket(t + more);
  }

  /** The decision is exact. Behind a magic the parser accepts if and only if a packet
      begins there, and once the header is there it gives up if and only if none can. */
  lemma DecideIsExact(t: seq<byte>)
    requires MagicAt(t, 0)
    ensures Decide(t).Accept? <==> StartsPacket(t)
    ensures |t| >= HeaderNeeded(t) ==> (Decide(t).Reject? <==> Hopeless(t))
    ensures |t| < HeaderNeeded(t) ==> Decide(t).NeedMore?
  {
    assert t[..4] == t[0..4];
    ShortHeaderWaits(t);
    hide Decide, Encode, HeaderNeeded, IsMagic;
    match Decide(t) {
      case Accept(_, _) =>
        var p := AcceptedIsEncoded(t);
        assert StartsPacket(t);
        assert t + [] == t;
      case Reject =>
        RejectedIsHopeless(t);
        assert t + [] == t;
      case NeedMore =>
        if StartsPacket(t) {
          PacketIsAccepted(t);
        }
        if |t| >= HeaderNeeded(t) {
          WaitingCanComplete(t);
        }
    }
  }

  lemma ShortHeaderWaits(t: seq<byte>)
    requires |t| >= 4 && IsMagic(t[..4])
    ensures |t| < HeaderNeeded(t) ==> Decide(t).NeedMore?
  {
  }

  // ---- resynchronisation ----

  /** No packet begins here, and the parser can tell. */
  ghost predicate FalseStart(t: seq<byte>) {
    MagicAt(t, 0) ==> |t| >= HeaderNeeded(t) && Hopeless(t)
  }

  /** Where no packet can begin, parsing goes on one byte further, false magics
      included. */
  lemma SkipsOneByte(t: seq<byte>)
    requires |t| >= 4 && FalseStart(t)
    ensures Parse(t) == Parse(t[1..])
  {
    hide Parse, Decide, HeaderNeeded, Hopeless, FirstMagic, MagicAt, StartsPacket;
    if MagicAt(t, 0) {
      DecideIsExact(t);
      FirstMagicIs(t, 0, 0);
      assert t[0..] == t;
      ParseTurn(t);
    } else {
      assert t == [t[0]] + t[1..];
      NoiseIsDropped([t[0]], t[1..]);
    }
  }

  /** No packet begins inside `noise` when `data` follows it; magics may. */
  ghost predicate NoPacketWithin(noise: seq<byte>, data: seq<byte>) {
    forall i: nat :: i < |noise| ==> FalseStart((noise + data)[i..])
  }

  lemma {:induction false} NoiseIsSkipped(noise: seq<byte>, data: seq<byte>)
    requires NoPacketWithin(noise, data) && |data| >= 3
    ensures Parse(noise + data) == Parse(data)
    decreases |noise|
  {
    hide Parse, FalseStart;
    if noise == [] {
      assert noise + data == data;
    } else {
      var all := noise + data;
      assert all[0..] == all;
      SkipsOneByte(all);
      assert all[1..] == noise[1..] + data;
      forall i: nat | i < |noise[1..]|
        ensures FalseStart((noise[1..] + data)[i..])
      {
        assert (noise[1..] + data)[i..] == all[i + 1..];
      }
      NoiseIsSkipped(noise[1..], data);
    }
  }

  lemma FalseStartStays(t: seq<byte>, more: seq<byte>)
    requires |t| >= 4 && FalseStart(t)
    ensures FalseStart(t + more)
  {
    MagicIsStable(t, more, 0);
    assert (t + more)[..4] == t[..4];
    if MagicAt(t, 0) {
      forall m: seq<byte>
        ensures !StartsPacket((t + more) + m)
      {
        assert (t + more) + m == t + (more + m);
      }
    }
  }

  /** A packet preceded by bytes in which no packet begins. */
  datatype Framed = Framed(noise: seq<byte>, packet: Packet)

  ghost predicate Sendable(frames: seq<Framed>) {
    forall i :: 0 <= i < |frames| ==>
      InRange(frames[i].packet) && NoPacketWithin(frames[i].noise, Encode(frames[i].packet))
  }

  ghost function Serialize(frames: seq<Framed>): seq<byte>
    requires Sendable(frames)
  {
    if frames == [] then [] else frames[0].noise + (Encode(frames[0].packet) + Serialize(frames[1..]))
  }

  function Items(frames: seq<Framed>): seq<Item> {
    if frames == [] then [] else [ItemOf(frames[0].packet)] + Items(frames[1..])
  }

  lemma NoiseBeforeMore(noise: seq<byte>, data: seq<byte>, more: seq<byte>)
    requires NoPacketWithin(noise, data) && |data| >= 3
    ensures NoPacketWithin(noise, data + more)
  {
    hide FalseStart;
    forall i: nat | i < |noise|
      ensures FalseStart((noise + (data + more))[i..])
    {
      FalseStartStays((noise + data)[i..], more);
      assert (noise + (data + more))[i..] == (noise + data)[i..] + more;
    }
  }

  lemma OnePacket(p: Packet, more: seq<byte>)
    requires InRange(p)
    ensures Parse(Encode(p) + more) == Parsed([ItemOf(p)] + Parse(more).items, Parse(more).rest)
  {
    hide Parse, Decide, Encode;
    var s := Encode(p);
    EncodedIsAccepted(p);
    DecisionIsStable(s, more);
    MagicIsStable(s, more, 0);
    FirstMagicIs(s + more, 0, 0);
    assert (s + more)[0..] == s + more;
    assert (s + more)[|s|..] == more;
    ParseTurn(s + more);
  }

  /** Round trip: the parser returns exactly the packets that were framed, in
      order, whatever their payloads contain and whatever noise separates them,
      false magics and broken headers included, and keeps nothing. */
  lemma {:induction false} ParseUndoesFraming(frames: seq<Framed>)
    requires Sendable(frames)
    ensures Parse(Serialize(frames)) == Parsed(Items(frames), [])
    decreases |frames|
  {
    hide Parse, Encode, ItemOf;
    if frames == [] {
      NothingToParse(Delivered(0, 0, false, false, [], []));
    } else {
      var f := frames[0];
      var rest := Serialize(frames[1..]);
      NoiseBeforeMore(f.noise, Encode(f.packet), rest);
      NoiseIsSkipped(f.noise, Encode(f.packet) + rest);
      OnePacket(f.packet, rest);
      ParseUndoesFraming(frames[1..]);
    }
  }

  /** `items` are read from packets that lie in `data`, in order and apart. */
  ghost predicate ReadFrom(data: seq<byte>, items: seq<Item>, at: seq<nat>, packets: seq<Packet>) {
    && |items| == |at| == |packets|
    && (forall i :: 0 <= i < |items| ==>
          && InRange(packets[i]) && items[i] == ItemOf(packets[i])
          && at[i] + |Encode(packets[i])| <= |data| && data[at[i]..at[i] + |Encode(packets[i])|] == Encode(packets[i]))
    && (forall i :: 0 <= i < |items| - 1 ==> at[i] + |Encode(packets[i])| <= at[i + 1])
  }

  lemma ReadFurtherOn(data: seq<byte>, skip: nat, items: seq<Item>, at: seq<nat>, packets: seq<Packet>)
    requires skip <= |data| && ReadFrom(data[skip..], items, at, packets)
    ensures ReadFrom(data, items, seq(|at|, i requires 0 <= i < |at| => skip + at[i]), packets)
  {
    hide Encode, ItemOf;
    forall i | 0 <= i < |items|
      ensures data[skip + at[i]..skip + at[i] + |Encode(packets[i])|] == Encode(packets[i])
    {
      assert data[skip..][at[i]..at[i] + |Encode(packets[i])|]
          == data[skip + at[i]..skip + at[i] + |Encode(packets[i])|];
    }
  }

  /** Nothing is invented: over every byte string, whatever the parser delivers was
      read from whole packets that lie in it one after the other. */
  lemma {:induction false} EverythingIsRead(data: seq<byte>) returns (at: seq<nat>, packets: seq<Packet>)
    ensures ReadFrom(data, Parse(data).items, at, packets)
    decreases |data|
  {
    hide Parse, Decide, FirstMagic, ReadFrom;
    ParseTurn(data);
    at, packets := [], [];
    if FirstMagic(data, 0).None? || Decide(data[FirstMagic(data, 0).value..]).NeedMore? {
      assert TakeTurn(data).Stop? && Parse(data).items == [];
      NothingRead(data);
    } else {
      var offset := FirstMagic(data, 0).value;
      var t := data[offset..];
      var left := TurnAtMagic(t).left;
      var skip := |data| - |left|;
      assert left == data[skip..];
      var a, ps := EverythingIsRead(left);
      ReadFurtherOn(data, skip, Parse(left).items, a, ps);
      var further := seq(|a|, i requires 0 <= i < |a| => skip + a[i]);
      if Decide(t).Accept? {
        var p := AcceptedIsEncoded(t);
        assert t[..Decide(t).size] == data[offset..offset + Decide(t).size];
        at, packets := [offset] + further, [p] + ps;
        OneMoreRead(data, Decide(t).item, offset, p, Parse(left).items, further, ps);
      } else {
        at, packets := further, ps;
        assert Parse(data).items == Parse(left).items;
      }
    }
  }

  lemma NothingRead(data: seq<byte>)
    ensures ReadFrom(data, [], [], [])
  {
  }

  /** And what it leaves is the end of the stream. */
  lemma {:induction false} RestIsTheEnd(data: seq<byte>)
    ensures |Parse(data).rest| <= |data| && data[|data| - |Parse(data).rest|..] == Parse(data).rest
    decreases |data|
  {
    hide Parse, Decide, FirstMagic;
    ParseTurn(data);
    var turn := TakeTurn(data);
    assert turn.left == data[|data| - |turn.left|..];
    if turn.Go? {
      RestIsTheEnd(turn.left);
    }
  }

  lemma OneMoreRead(data: seq<byte>, item: Item, at: nat, p: Packet, items: seq<Item>, further: seq<nat>,
                    ps: seq<Packet>)
    requires InRange(p) && item == ItemOf(p)
    requires at + |Encode(p)| <= |data| && data[at..at + |Encode(p)|] == Encode(p)
    requires ReadFrom(data, items, further, ps) && forall i :: 0 <= i < |further| ==> at + |Encode(p)| <= further[i]
    ensures ReadFrom(data, [item] + items, [at] + further, [p] + ps)
  {
    hide Encode, ItemOf;
  }

  function H264Payloads(frames: seq<Framed>): seq<(seq<byte>, FrameType)> {
    if frames == [] then [] else H264Of(frames[0].packet) + H264Payloads(frames[1..])
  }

  function H264Of(p: Packet): seq<(seq<byte>, FrameType)> {
    if p.VideoPacket? && p.h264 then [(p.payload, p.frameType)] else []
  }

  function AudioPayloads(frames: seq<Framed>): seq<(seq<byte>, AudioCodec)> {
    if frames == [] then [] else AudioOf(frames[0].packet) + AudioPayloads(frames[1..])
  }

  function AudioOf(p: Packet): seq<(seq<byte>, AudioCodec)> {
    if p.AudioPacket? then [(p.payload, p.codec)] else []
  }

  function AacPackets(frames: seq<Framed>): nat {
    if frames == [] then 0 else AacOf(frames[0].packet) + AacPackets(frames[1..])
  }

  function AacOf(p: Packet): nat {
    if p.AudioPacket? && p.codec == Aac then 1 else 0
  }

  /** What a connected sink has received on top of `before`; another one is never
      called. */
  predicate Received<T(==)>(connected: bool, before: seq<T>, after: seq<T>, payloads: seq<T>) {
    after == if connected then before + payloads else before
  }

  lemma SinkReceives(p: Packet, out: Delivered)
    ensures var after := DeliverOne(out, ItemOf(p));
            && Received(out.videoSink, out.video, after.video, H264Of(p))
            && Received(out.audioSink, out.audio, after.audio, AudioOf(p))
            && after.h264Frames == out.h264Frames + |H264Of(p)| && after.aacPackets == out.aacPackets + AacOf(p)
            && after.videoSink == out.videoSink && after.audioSink == out.audioSink
  {
  }

  lemma {:induction false} SinksReceive(frames: seq<Framed>, out: Delivered)
    ensures var after := Deliver(out, Items(frames));
            && Received(out.videoSink, out.video, after.video, H264Payloads(frames))
            && Received(out.audioSink, out.audio, after.audio, AudioPayloads(frames))
            && after.h264Frames == out.h264Frames + |H264Payloads(frames)|
            && after.aacPackets == out.aacPackets + AacPackets(frames)
    decreases |frames|
  {
    hide Deliver, DeliverOne, H264Of, AudioOf, AacOf, ItemOf;
    if frames == [] {
      NothingToParse(out);
    } else {
      var item := ItemOf(frames[0].packet);
      DeliverSingle(out, item);
      DeliverConcat(out, [item], Items(frames[1..]));
      SinkReceives(frames[0].packet, out);
      SinksReceive(frames[1..], DeliverOne(out, item));
      var p := frames[0].packet;
      assert (out.video + H264Of(p)) + H264Payloads(frames[1..]) == out.video + H264Payloads(frames);
      assert (out.audio + AudioOf(p)) + AudioPayloads(frames[1..]) == out.audio + AudioPayloads(frames);
      assert Deliver(out, Items(frames)) == Deliver(DeliverOne(out, item), Items(frames[1..]));
    }
  }

  /** End to end: however a framed stream is cut into chunks that fit, the sinks that
      are connected receive exactly the H264 and audio payloads that were sent, and the
      counters count them, sinks or no sinks. */
  lemma LiveViewDeliversWhatWasSent(frames: seq<Framed>, chunks: seq<seq<byte>>, videoSink: bool, audioSink: bool)
    requires Sendable(frames) && Fitting(chunks) && Concat(chunks) == Serialize(frames)
    ensures var (buffer, out) := ObserveAll([], Delivered(0, 0, videoSink, audioSink, [], []), chunks);
            && buffer == []
            && out.video == (if videoSink then H264Payloads(frames) else [])
            && out.audio == (if audioSink then AudioPayloads(frames) else [])
            && out.h264Frames == |H264Payloads(frames)| && out.aacPackets == AacPackets(frames)
  {
    hide Parse, Serialize, ObserveAll, Deliver, Items;
    var start := Delivered(0, 0, videoSink, audioSink, [], []);
    ChunksDoNotMatter(chunks, start);
    ParseUndoesFraming(frames);
    SinksReceive(frames, start);
  }

  // ---- more than the buffer holds ----

  /** Of a buffer that has grown too long exactly the newest bytes are parsed: what
      came before them makes no difference, and nothing else is lost. */
  lemma NewestBytesAreParsed(buffer: seq<byte>, chunk: seq<byte>, out: Delivered, dropped: seq<byte>, newest: seq<byte>)
    requires chunk != [] && buffer + chunk == dropped + newest
    requires |newest| == MAX_ROLLING_BUFFER_BYTES || (dropped == [] && |newest| <= MAX_ROLLING_BUFFER_BYTES)
    ensures Observe(buffer, out, chunk) == (Parse(newest).rest, Deliver(out, Parse(newest).items))
  {
    hide Parse, Deliver;
    assert Capped(dropped + newest) == newest;
  }
}
