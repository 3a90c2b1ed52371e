/** Command delivery over a network that loses, repeats and reorders datagrams.

    One end numbers its packets, sends a tracked command again while its wait has
    not settled, and observes acknowledgements. The other end keeps a reorder
    window and acknowledges with the encoder of `UdpAck`. Everything ever sent
    stays in the network: it may arrive any number of times, in any order, or
    never. */
module UdpNetwork {
  import opened Basics
  import opened UdpAck

  type Packet = seq<byte>

  datatype World = World(
    nextSeq: nat,
    sent: map<nat, Packet>,      // what went out first under each number
    copies: map<nat, nat>,       // how often something went out under it
    onWire: set<(nat, Packet)>,  // packets that may still arrive
    delivered: map<nat, Packet>, // what arrived first under each number
    recv: int,                   // the receiver's `_recv_seq_id`
    pending: seq<nat>,           // the keys of its `_seq_data`
    acks: set<seq<byte>>,        // acknowledgements that may still arrive
    tracked: set<nat>,           // keys of the sender's `_reliable_sent_at`
    waiting: set<nat>,           // commands whose send loop is still waiting
    acked: set<nat>)             // the sender's `_reliable_acked_seq_ids`

  const START: World := World(0, map[], map[], {}, map[], -1, [], {}, {}, {}, {})

  datatype Label =
    | Send(packet: Packet)    // a packet nobody waits for
    | Command(packet: Packet) // `_send_reliable_download_packet` begins
    | Again(q: nat)           // a wait ran out: the command goes out once more
    | GiveUp(q: nat)          // the loop ends without an acknowledgement
    | Arrive(q: nat, packet: Packet, recv: int, pending: seq<nat>)
    | SendAck                 // the receiver acknowledges what it holds
    | AckArrives(data: seq<byte>)

  /** The receive window belongs to the base library; all that is asked of it is
      that it holds what it held before and the packet that arrived. */
  ghost predicate HoldsOneMore(w: World, q: nat, recv: int, pending: seq<nat>) {
    recv >= -1 && forall p: nat :: Held(recv, pending, p) <==> Held(w.recv, w.pending, p) || p == q
  }

  ghost predicate Enabled(w: World, l: Label) {
    match l
    case Send(_) => w.nextSeq < SEQ_LIMIT
    case Command(_) => w.nextSeq < SEQ_LIMIT
    case Again(q) => q in w.waiting && q in w.copies && w.copies[q] <= MAX_RETRANSMITS
    case GiveUp(q) => q in w.waiting
    case Arrive(q, packet, recv, pending) => (q, packet) in w.onWire && HoldsOneMore(w, q, recv, pending)
    case SendAck => w.recv >= 0 && FitsFields(None, w.recv, w.pending)
    case AckArrives(data) => data in w.acks
  }

  function Emit(w: World, packet: Packet): World {
    w.(nextSeq := w.nextSeq + 1,
       sent := w.sent[w.nextSeq := packet],
       copies := w.copies[w.nextSeq := 1],
       onWire := w.onWire + {(w.nextSeq, packet)})
  }

  /** One `_observe_udp_ack` call, as the fields of `CommandTracker` see it. */
  function Observe(w: World, data: seq<byte>, client: nat): World {
    match ParseAck(data, client)
    case None => w
    case Some(a) =>
      var settled := set q | q in w.tracked && Acknowledges(a, q);
      w.(acked := w.acked + settled, waiting := w.waiting - settled)
  }

  ghost function Next(w: World, l: Label, client: nat): World
    requires Enabled(w, l) && client < SEQ_LIMIT
  {
    match l
    case Send(packet) => Emit(w, packet)
    case Command(packet) =>
      Emit(w, packet).(tracked := w.tracked + {w.nextSeq}, waiting := w.waiting + {w.nextSeq})
    case Again(q) =>
      w.(copies := w.copies[q := w.copies[q] + 1],
         onWire := if q in w.sent then w.onWire + {(q, w.sent[q])} else w.onWire)
    case GiveUp(q) => w.(waiting := w.waiting - {q})
    case Arrive(q, packet, recv, pending) =>
      w.(recv := recv, pending := pending,
         delivered := if q in w.delivered then w.delivered else w.delivered[q := packet])
    case SendAck => w.(acks := w.acks + {LiveSendAck(true, Some(client), w.recv, w.pending).datagram})
    case AckArrives(data) => Observe(w, data, client)
  }

  ghost predicate SendingInv(w: World) {
    && w.nextSeq <= SEQ_LIMIT
    && (forall q: nat :: q in w.sent <==> q < w.nextSeq)
    && (forall q: nat :: q in w.copies <==> q < w.nextSeq)
    && (forall q :: q in w.copies ==> 1 <= w.copies[q] <= 1 + MAX_RETRANSMITS)
    && (forall q :: q in w.tracked ==> q < w.nextSeq)
    && w.waiting <= w.tracked
    && w.waiting !! w.acked
  }

  ghost predicate DeliveryInv(w: World) {
    && (forall e :: e in w.onWire ==> e.0 in w.sent && w.sent[e.0] == e.1)
    && (forall q :: q in w.delivered ==> q in w.sent && w.delivered[q] == w.sent[q])
    && w.recv >= -1
    && (forall q: nat :: Held(w.recv, w.pending, q) <==> q in w.delivered)
  }

  /** An acknowledgement that is under way speaks only of delivered packets. */
  ghost predicate Truthful(w: World, data: seq<byte>, client: nat) {
    && ParseAck(data, client).Some?
    && forall q: nat :: Acknowledges(ParseAck(data, client).value, q) ==> q in w.delivered
  }

  ghost predicate AckInv(w: World, client: nat) {
    && (forall d :: d in w.acks ==> Truthful(w, d, client))
    && (forall q :: q in w.acked ==> q in w.delivered)
    && w.acked <= w.tracked
  }

  ghost predicate Inv(w: World, client: nat) {
    SendingInv(w) && DeliveryInv(w) && AckInv(w, client)
  }

  lemma SendingStep(w: World, l: Label, client: nat)
    requires Inv(w, client) && Enabled(w, l) && client < SEQ_LIMIT
    ensures SendingInv(Next(w, l, client))
  {
    hide ParseAck, Acknowledges, HoldsOneMore, Held, LiveSendAck, FitsFields;
  }

  lemma DeliveryStep(w: World, l: Label, client: nat)
    requires Inv(w, client) && Enabled(w, l) && client < SEQ_LIMIT
    ensures DeliveryInv(Next(w, l, client))
  {
    hide ParseAck, Acknowledges, Held, LiveSendAck, FitsFields;
    assert !l.Arrive? ==> Next(w, l, client).recv == w.recv && Next(w, l, client).pending == w.pending;
  }

  lemma FreshAckIsTruthful(w: World, client: nat)
    requires Inv(w, client) && client < SEQ_LIMIT && w.recv >= 0
    ensures FitsFields(Some(client), w.recv, w.pending)
    ensures Truthful(w, LiveSendAck(true, Some(client), w.recv, w.pending).datagram, client)
    ensures var a := ParseAck(LiveSendAck(true, Some(client), w.recv, w.pending).datagram, client).value;
            forall q: nat :: Acknowledges(a, q) <==> q in w.delivered
  {
    hide ParseAck, Acknowledges, LiveSendAck;
    assert Held(w.recv, w.pending, w.recv);
    forall q | q in w.pending
      ensures q < SEQ_LIMIT
    {
      assert Held(w.recv, w.pending, q);
    }
    forall q: nat
      ensures var sent := LiveSendAck(true, Some(client), w.recv, w.pending);
              && ParseAck(sent.datagram, client).Some?
              && (Acknowledges(ParseAck(sent.datagram, client).value, q) <==> q in w.delivered)
    {
      SentAckIsExact(client, w.recv, w.pending, q);
    }
  }

  lemma AckStep(w: World, l: Label, client: nat)
    requires Inv(w, client) && Enabled(w, l) && client < SEQ_LIMIT
    ensures AckInv(Next(w, l, client), client)
  {
    hide ParseAck, Acknowledges, Held, HoldsOneMore, LiveSendAck, FitsFields;
    var w' := Next(w, l, client);
    assert forall q :: q in w.delivered ==> q in w'.delivered;
    if l.SendAck? {
      FreshAckIsTruthful(w, client);
    }
    forall d | d in w'.acks
      ensures Truthful(w', d, client)
    {
      assert Truthful(w, d, client);
    }
    if l.AckArrives? {
      assert Truthful(w, l.data, client);
    }
  }

  lemma NextKeepsInv(w: World, l: Label, client: nat)
    requires Inv(w, client) && Enabled(w, l) && client < SEQ_LIMIT
    ensures Inv(Next(w, l, client), client)
  {
    SendingStep(w, l, client);
    DeliveryStep(w, l, client);
    AckStep(w, l, client);
    hide SendingInv, DeliveryInv, AckInv, Next;
  }

  lemma StartInv(client: nat)
    ensures Inv(START, client)
  {
    assert forall q: nat :: !Held(START.recv, START.pending, q);
  }

  ghost predicate Feasible(w: World, ls: seq<Label>, client: nat)
    requires client < SEQ_LIMIT
    decreases |ls|
  {
    ls == [] || (Enabled(w, ls[0]) && Feasible(Next(w, ls[0], client), ls[1..], client))
  }

  ghost function After(w: World, ls: seq<Label>, client: nat): World
    requires client < SEQ_LIMIT && Feasible(w, ls, client)
    decreases |ls|
  {
    if ls == [] then w else After(Next(w, ls[0], client), ls[1..], client)
  }

  /** What no step takes back. */
  ghost predicate Grows(w: World, w': World) {
    && w.acked <= w'.acked
    && (forall q :: q in w.delivered ==> q in w'.delivered && w'.delivered[q] == w.delivered[q])
    && (forall q :: q in w.sent ==> q in w'.sent && w'.sent[q] == w.sent[q])
    && (forall q :: q in w.acked && q in w.copies ==> q in w'.copies && w'.copies[q] == w.copies[q])
  }

  lemma StepGrows(w: World, l: Label, client: nat)
    requires Inv(w, client) && Enabled(w, l) && client < SEQ_LIMIT
    ensures Grows(w, Next(w, l, client))
  {
    hide ParseAck, Acknowledges, Held, HoldsOneMore, LiveSendAck, FitsFields, DeliveryInv, Truthful;
  }

  lemma {:induction false} RunKeepsInv(w: World, ls: seq<Label>, client: nat)
    requires Inv(w, client) && client < SEQ_LIMIT && Feasible(w, ls, client)
    ensures Inv(After(w, ls, client), client)
    ensures Grows(w, After(w, ls, client))
    decreases |ls|
  {
    hide Inv, Next, Enabled;
    if ls != [] {
      var w1 := Next(w, ls[0], client);
      NextKeepsInv(w, ls[0], client);
      StepGrows(w, ls[0], client);
      RunKeepsInv(w1, ls[1..], client);
    }
  }

  /** Over every run: an acknowledged command was delivered, byte for byte as it
      was sent; nothing goes out more than three times; and once a command is
      acknowledged it stays so and is never sent again. */
  lemma AcknowledgedMeansDelivered(before: seq<Label>, after: seq<Label>, client: nat)
    requires client < SEQ_LIMIT && Feasible(START, before, client)
    requires Feasible(After(START, before, client), after, client)
    ensures var w, w' := After(START, before, client), After(After(START, before, client), after, client);
      && (forall q :: q in w.copies ==> w.copies[q] <= 3)
      && forall q :: q in w.acked ==>
           && q in w.sent && q in w.delivered && w.delivered[q] == w.sent[q]
           && q in w'.acked
           && q in w.copies && q in w'.copies && w'.copies[q] == w.copies[q]
  {
    hide Truthful, Held, Feasible, After;
    StartInv(client);
    RunKeepsInv(START, before, client);
    RunKeepsInv(After(START, before, client), after, client);
  }

  /** One acknowledgement that gets through settles every tracked command that was
      delivered when it was sent, and no other. */
  lemma OneAckTellsAll(ls: seq<Label>, client: nat)
    requires client < SEQ_LIMIT && Feasible(START, ls, client) && After(START, ls, client).recv >= 0
    ensures var w := After(START, ls, client);
      && Enabled(w, SendAck)
      && var d := LiveSendAck(true, Some(client), w.recv, w.pending).datagram;
         var w1 := Next(w, SendAck, client);
      && Enabled(w1, AckArrives(d))
      && Next(w1, AckArrives(d), client).acked == set q | q in w.tracked && q in w.delivered
  {
    hide ParseAck, Acknowledges, LiveSendAck, Held, Feasible, After;
    StartInv(client);
    RunKeepsInv(START, ls, client);
    FreshAckIsTruthful(After(START, ls, client), client);
  }

  // ---- what a command can count on ----

  ghost predicate GivenUp(ls: seq<Label>, q: nat) {
    exists i :: 0 <= i < |ls| && ls[i] == GiveUp(q)
  }

  /** A command is waiting unless it is acknowledged. */
  ghost predicate Open(w: World, q: nat) {
    q in w.tracked && (q in w.waiting || q in w.acked)
  }

  /** The wait for number `q` is over for good. */
  ghost predicate Closed(w: World, q: nat, sends: nat) {
    q < w.nextSeq && q !in w.waiting && q in w.copies && w.copies[q] == sends
  }

  lemma OpenStep(w: World, l: Label, q: nat, client: nat)
    requires Inv(w, client) && Enabled(w, l) && client < SEQ_LIMIT && Open(w, q) && l != GiveUp(q)
    ensures Open(Next(w, l, client), q)
  {
    hide ParseAck, Acknowledges, HoldsOneMore, LiveSendAck, FitsFields, Truthful;
  }

  lemma ClosedStep(w: World, l: Label, q: nat, sends: nat, client: nat)
    requires Inv(w, client) && Enabled(w, l) && client < SEQ_LIMIT && Closed(w, q, sends)
    ensures Closed(Next(w, l, client), q, sends)
  {
    hide ParseAck, Acknowledges, HoldsOneMore, LiveSendAck, FitsFields, Truthful;
  }

  lemma {:induction false} OpenRun(w: World, ls: seq<Label>, q: nat, client: nat)
    requires Inv(w, client) && client < SEQ_LIMIT && Feasible(w, ls, client) && Open(w, q) && !GivenUp(ls, q)
    ensures Open(After(w, ls, client), q)
    decreases |ls|
  {
    hide Inv, Next, Enabled, Open;
    if ls != [] {
      NextKeepsInv(w, ls[0], client);
      OpenStep(w, ls[0], q, client);
      assert forall i :: 0 <= i < |ls[1..]| ==> ls[1..][i] == ls[i + 1];
      OpenRun(Next(w, ls[0], client), ls[1..], q, client);
    }
  }

  lemma {:induction false} ClosedRun(w: World, ls: seq<Label>, q: nat, sends: nat, client: nat)
    requires Inv(w, client) && client < SEQ_LIMIT && Feasible(w, ls, client) && Closed(w, q, sends)
    ensures Closed(After(w, ls, client), q, sends)
    decreases |ls|
  {
    hide Inv, Next, Enabled, Closed;
    if ls != [] {
      NextKeepsInv(w, ls[0], client);
      ClosedStep(w, ls[0], q, sends, client);
      ClosedRun(Next(w, ls[0], client), ls[1..], q, sends, client);
    }
  }

  /** Over every run: a command goes on waiting, and can be sent again as long as it
      went out at most twice, until it is acknowledged or given up. */
  lemma CommandsAreFollowed(before: seq<Label>, packet: Packet, after: seq<Label>, client: nat)
    requires client < SEQ_LIMIT && Feasible(START, before, client)
    requires var w := After(START, before, client);
      && Enabled(w, Command(packet)) && Feasible(Next(w, Command(packet), client), after, client)
      && !GivenUp(after, w.nextSeq)
    ensures var w := After(START, before, client);
      var q, end := w.nextSeq, After(Next(w, Command(packet), client), after, client);
      && q in end.sent && end.sent[q] == packet && q in end.copies
      && (q in end.acked || (q in end.waiting && (end.copies[q] <= 2 ==> Enabled(end, Again(q)))))
  {
    hide Feasible, After;
    StartInv(client);
    RunKeepsInv(START, before, client);
    var w := After(START, before, client);
    var w1 := Next(w, Command(packet), client);
    NextKeepsInv(w, Command(packet), client);
    assert Open(w1, w.nextSeq) && w1.sent[w.nextSeq] == packet;
    RunKeepsInv(w1, after, client);
    OpenRun(w1, after, w.nextSeq, client);
    hide DeliveryInv, AckInv;
  }

  /** And over every run: once given up, a command is never sent again. */
  lemma GivenUpIsNotSentAgain(before: seq<Label>, q: nat, after: seq<Label>, client: nat)
    requires client < SEQ_LIMIT && Feasible(START, before, client)
    requires var w := After(START, before, client);
      Enabled(w, GiveUp(q)) && Feasible(Next(w, GiveUp(q), client), after, client)
    ensures var w := After(START, before, client);
      var end := After(Next(w, GiveUp(q), client), after, client);
      q !in end.waiting && q in w.copies && q in end.copies && end.copies[q] == w.copies[q]
  {
    hide Feasible, After;
    StartInv(client);
    RunKeepsInv(START, before, client);
    var w := After(START, before, client);
    NextKeepsInv(w, GiveUp(q), client);
    assert Closed(Next(w, GiveUp(q), client), q, w.copies[q]);
    ClosedRun(Next(w, GiveUp(q), client), after, q, w.copies[q], client);
  }
}
