/** Selective UDP acknowledgements: the wire form shared by the recording and the
    Live View transport, the observer that resolves tracked commands, and the
    bounded retransmission of one command (`recording_download_probe_beta20.py`,
    `send_ack` of `live_stream.py`).

    Sequence numbers come from four-byte fields. The keys of the reorder buffer
    `_seq_data` are a list of numbers in insertion order. */
module UdpAck {
  import opened Basics

  const MAGIC_UDP_ACK: seq<byte> := [0x20, 0xcf, 0x87, 0x2a]
  const ZEROS: seq<byte> := [0, 0, 0, 0]
  const ACK_HEADER := 28
  const MAX_RETRANSMITS := 2 // RELIABLE_UDP_MAX_RETRANSMITS
  const SEQ_LIMIT := 0x1_0000_0000

  function MaxOf(s: seq<nat>): (m: nat)
    requires s != []
    ensures m in s
    ensures forall x :: x in s ==> x <= m
  {
    if |s| == 1 then s[0]
    else
      var rest := MaxOf(s[1..]);
      assert s == [s[0]] + s[1..];
      if s[0] > rest then s[0] else rest
  }

  /** One byte for each number above `recv` up to `upTo`: 1 when it is buffered. */
  function Bitmap(recv: nat, upTo: nat, pending: seq<nat>): (b: seq<byte>)
    requires recv <= upTo
  {
    seq(upTo - recv, i requires 0 <= i => if recv + 1 + i in pending then 1 else 0)
  }

  /** The bitmap of `LiveStreamProtocol.send_ack`. */
  function Selective(recv: nat, pending: seq<nat>): (b: seq<byte>) {
    if pending != [] && MaxOf(pending) > recv then Bitmap(recv, MaxOf(pending), pending) else []
  }

  function Datagram(id: nat, base: nat, payload: seq<byte>): (d: seq<byte>)
    requires id < SEQ_LIMIT && base < SEQ_LIMIT && |payload| < SEQ_LIMIT
  {
    MAGIC_UDP_ACK + Bytes4(id) + ZEROS + ZEROS + Bytes4(base) + ZEROS + Bytes4(|payload|) + payload
  }

  /** Everything an encoder is given fits the four-byte fields it was read from. */
  predicate FitsFields(hostId: Option<nat>, recv: int, pending: seq<nat>) {
    && (hostId.Some? ==> hostId.value < SEQ_LIMIT)
    && recv < SEQ_LIMIT
    && forall q :: q in pending ==> q < SEQ_LIMIT
  }

  datatype LiveAck = Delegated | Silent | Sent(datagram: seq<byte>)

  /** `send_ack` of the Live View protocol. */
  function LiveSendAck(open: bool, hostId: Option<nat>, recv: int, pending: seq<nat>): (r: LiveAck)
    requires FitsFields(hostId, recv, pending)
    ensures r.Sent? <==> open && hostId.Some? && recv >= 0
    ensures r.Silent? <==> open && hostId.Some? && recv < 0
  {
    if !open || hostId.None? then Delegated
    else if recv < 0 then Silent
    else Sent(Datagram(hostId.value, recv, Selective(recv, pending)))
  }

  /** `_send_ack_now` of the recording transport. It walks up to the highest
      buffered number whether or not that lies above `recv`, and still sends what
      the Live View protocol would send. */
  method SendAckNow(open: bool, hostId: Option<nat>, recv: int, pending: seq<nat>)
    returns (datagram: Option<seq<byte>>)
    requires FitsFields(hostId, recv, pending)
    ensures datagram.Some? <==> LiveSendAck(open, hostId, recv, pending).Sent?
    ensures datagram.Some? ==> LiveSendAck(open, hostId, recv, pending) == Sent(datagram.value)
  {
    if !open || hostId.None? || recv < 0 {
      return None;
    }
    var payload: seq<byte> := [];
    if pending != [] {
      var highest := MaxOf(pending);
      var seqId := recv + 1;
      while seqId < highest + 1
        invariant recv < seqId
        invariant seqId <= highest + 1 || seqId == recv + 1
        invariant payload == Bitmap(recv, seqId - 1, pending)
      {
        payload := payload + [if seqId in pending then 1 else 0];
        seqId := seqId + 1;
      }
      assert payload == Selective(recv, pending);
    }
    datagram := Some(Datagram(hostId.value, recv, payload));
  }

  datatype Ack = Ack(base: nat, payload: seq<byte>)

  /** `parse_udp_ack`: what is handed to the observer, if anything. */
  function ParseAck(data: seq<byte>, clientId: nat): (r: Option<Ack>) {
    if |data| < ACK_HEADER then None
    else
      var messageLength := ACK_HEADER + U32(data, 24);
      if |data| >= messageLength && U32(data, 4) == clientId
      then Some(Ack(U32(data, 16), data[ACK_HEADER..messageLength]))
      else None
  }

  /** The observer's test for one tracked sequence number. */
  predicate Acknowledges(a: Ack, q: nat) {
    || q <= a.base
    || (q - a.base - 1 < |a.payload| && a.payload[q - a.base - 1] != 0)
  }

  lemma WhenAcknowledged(a: Ack, q: nat)
    ensures q <= a.base ==> Acknowledges(a, q)
    ensures q > a.base ==>
      (Acknowledges(a, q) <==> q - a.base - 1 < |a.payload| && a.payload[q - a.base - 1] != 0)
  {
  }

  /** A number below the expected one, or kept in the reorder buffer. */
  predicate Held(recv: int, pending: seq<nat>, q: nat) {
    q <= recv || q in pending
  }

  lemma WordsOfDatagram(id: nat, base: nat, payload: seq<byte>, rest: seq<byte>)
    requires id < SEQ_LIMIT && base < SEQ_LIMIT && |payload| < SEQ_LIMIT
    ensures var d := Datagram(id, base, payload) + rest;
      && |d| == ACK_HEADER + |payload| + |rest|
      && U32(d, 4) == id && U32(d, 16) == base && U32(d, 24) == |payload|
      && d[ACK_HEADER..ACK_HEADER + |payload|] == payload
  {
    hide Bytes4;
    var d := Datagram(id, base, payload) + rest;
    var a, b, c := Bytes4(id), Bytes4(base), Bytes4(|payload|);
    assert d == (MAGIC_UDP_ACK + a + ZEROS + ZEROS + b + ZEROS + c) + payload + rest;
    assert d[4..8] == a && d[16..20] == b && d[24..28] == c;
    assert forall k :: 0 <= k < 4 ==> d[4 + k] == a[k] && d[16 + k] == b[k] && d[24 + k] == c[k];
  }

  /** Parsing gives back what was written, whatever bytes follow, and only to the
      client that is addressed. */
  lemma AckComesBack(id: nat, base: nat, payload: seq<byte>, rest: seq<byte>, clientId: nat)
    requires id < SEQ_LIMIT && base < SEQ_LIMIT && |payload| < SEQ_LIMIT
    ensures ParseAck(Datagram(id, base, payload) + rest, clientId)
         == if clientId == id then Some(Ack(base, payload)) else None
  {
    hide Datagram, U32;
    WordsOfDatagram(id, base, payload, rest);
  }

  /** A decoded acknowledgement names exactly the packets the sender of it holds. */
  lemma AckIsExact(recv: nat, pending: seq<nat>, q: nat)
    ensures Acknowledges(Ack(recv, Selective(recv, pending)), q) <==> Held(recv, pending, q)
  {
    if q > recv && q in pending {
      assert Selective(recv, pending)[q - recv - 1] == 1;
    }
  }

  /** End to end: what either encoder sends, the addressed client reads as exactly
      the held packets. */
  lemma SentAckIsExact(hostId: nat, recv: nat, pending: seq<nat>, q: nat)
    requires FitsFields(Some(hostId), recv, pending)
    ensures var sent := LiveSendAck(true, Some(hostId), recv, pending);
      && sent.Sent?
      && ParseAck(sent.datagram, hostId).Some?
      && (Acknowledges(ParseAck(sent.datagram, hostId).value, q) <==> Held(recv, pending, q))
  {
    hide Datagram, ParseAck, Acknowledges;
    var payload := Selective(recv, pending);
    AckComesBack(hostId, recv, payload, [], hostId);
    assert Datagram(hostId, recv, payload) + [] == Datagram(hostId, recv, payload);
    AckIsExact(recv, pending, q);
  }

  // ---- The sender's side ----

  /** The fields of the download connection that track command delivery. */
  class CommandTracker {
    var sentAt: map<nat, int>  // `_reliable_sent_at`, never pruned
    var acked: set<nat>        // `_reliable_acked_seq_ids`
    var ackedAt: map<nat, int> // when each number was first acknowledged
    var waiting: set<nat>      // `_reliable_ack_waiters` whose future is not done

    constructor ()
      ensures sentAt == map[] && acked == {} && ackedAt == map[] && waiting == {}
    {
      sentAt, acked, ackedAt, waiting := map[], {}, map[], {};
    }

    /** `_observe_udp_ack` */
    method ObserveUdpAck(base: nat, payload: seq<byte>, now: int)
      requires ackedAt.Keys == acked
      modifies this
      ensures sentAt == old(sentAt)
      ensures acked == old(acked) + set q | q in sentAt && Acknowledges(Ack(base, payload), q)
      ensures ackedAt.Keys == acked
      ensures forall q :: q in acked ==> ackedAt[q] == if q in old(acked) then old(ackedAt)[q] else now
      ensures waiting == set q | q in old(waiting) && !(q in sentAt && Acknowledges(Ack(base, payload), q))
    {
      hide Acknowledges;
      var left := sentAt.Keys;
      while left != {}
        invariant left <= sentAt.Keys
        invariant sentAt == old(sentAt)
        invariant acked == old(acked) + set q | q in sentAt && q !in left && Acknowledges(Ack(base, payload), q)
        invariant ackedAt.Keys == acked
        invariant forall q :: q in acked ==> ackedAt[q] == if q in old(acked) then old(ackedAt)[q] else now
        invariant waiting
               == set q | q in old(waiting) && !(q in sentAt && q !in left && Acknowledges(Ack(base, payload), q))
        decreases left
      {
        var seqId :| seqId in left;
        left := left - {seqId};
        WhenAcknowledged(Ack(base, payload), seqId);
        var acknowledged := seqId <= base;
        if !acknowledged && seqId > base {
          var offset := seqId - base - 1;
          acknowledged := offset < |payload| && payload[offset] != 0;
        }
        if acknowledged {
          if seqId !in acked {
            acked := acked + {seqId};
            ackedAt := ackedAt[seqId := now];
          }
          waiting := waiting - {seqId};
        }
      }
    }
  }

  /** What `asyncio.wait` left behind: whether the ACK or the response future is
      done, and whether the connection is still open. */
  datatype Outcome = Outcome(acked: bool, responded: bool, open: bool)

  predicate Settled(o: Outcome) {
    o.acked || o.responded || !o.open
  }

  datatype SendResult = NotOpen | TooLong | Finished(transmissions: seq<seq<byte>>, retransmits: nat)

  /** `_send_reliable_download_packet`; `after(k)` is what the wait after the k-th
      retransmission leaves. The number of retransmissions is the first wait that
      settles, or the bound. */
  method SendReliablePacket(open: bool, packet: seq<byte>, longest: nat, after: nat -> Outcome, maxRetransmits: nat)
    returns (r: SendResult)
    ensures r.NotOpen? <==> !open
    ensures r.TooLong? <==> open && |packet| > longest
    ensures r.Finished? ==>
      && r.retransmits <= maxRetransmits
      && r.transmissions == seq(r.retransmits + 1, _ => packet)
      && (forall k: nat :: k < r.retransmits ==> !Settled(after(k)))
      && (Settled(after(r.retransmits)) || r.retransmits == maxRetransmits)
  {
    if !open {
      return NotOpen;
    }
    if |packet| > longest {
      return TooLong;
    }
    var transmissions, retransmits := [packet], 0;
    while true
      invariant retransmits <= maxRetransmits
      invariant transmissions == seq(retransmits + 1, _ => packet)
      invariant forall k: nat :: k < retransmits ==> !Settled(after(k))
      decreases maxRetransmits - retransmits
    {
      var outcome := after(retransmits);
      if outcome.acked || outcome.responded {
        break;
      }
      if retransmits >= maxRetransmits || !outcome.open {
        break;
      }
      retransmits := retransmits + 1;
      transmissions := transmissions + [packet];
    }
    return Finished(transmissions, retransmits);
  }
}
