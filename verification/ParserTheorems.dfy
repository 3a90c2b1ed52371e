/** What the rolling parser promises: it does not matter how the stream was cut
    into chunks, it undoes framing, and its buffer stays small. */
module ParserTheorems {
  import opened Basics
  import opened RollingParser

  // ---- more bytes never change a decision that has been taken ----

  lemma DecisionIsStable(t: seq<byte>, more: seq<byte>)
    requires |t| >= 4 && !Decide(t).NeedMore?
    ensures Decide(t + more) == Decide(t)
  {
    assert (t + more)[..4] == t[..4];
    if |t| >= 8 {
      assert (t + more)[4..8] == t[4..8];
      assert U16(t + more, 4) == U16(t, 4) && U16(t + more, 6) == U16(t, 6) && U32(t + more, 4) == U32(t, 4);
    }
    if |t| >= 24 {
      assert U32(t + more, 8) == U32(t, 8) && U32(t + more, 12) == U32(t, 12);
    }
    match Decide(t)
    case Accept(size, item) =>
      if IsAudioMagic(t[..4]) {
        assert (t + more)[8..8 + U16(t, 4)] == t[8..8 + U16(t, 4)];
      } else if IsVideoMagic(t[..4]) {
        var from := 24 + U32(t, 12);
        assert (t + more)[from..from + U32(t, 8)] == t[from..from + U32(t, 8)];
      }
    case _ =>
  }

  lemma MagicIsStable(data: seq<byte>, more: seq<byte>, i: nat)
    requires i + 4 <= |data|
    ensures MagicAt(data + more, i) == MagicAt(data, i)
  {
    assert (data + more)[i..i + 4] == data[i..i + 4];
  }

  lemma MagicShifts(noise: seq<byte>, data: seq<byte>, i: nat)
    ensures MagicAt(noise + data, |noise| + i) == MagicAt(data, i)
  {
    if i + 4 <= |data| {
      assert (noise + data)[|noise| + i..|noise| + i + 4] == data[i..i + 4];
    }
  }

  /** No magic begins inside `noise` when `data` follows it. */
  ghost predicate NoMagicWithin(noise: seq<byte>, data: seq<byte>) {
    forall i: nat :: i < |noise| ==> !MagicAt(noise + data, i)
  }

  lemma FirstMagicAfterNoise(noise: seq<byte>, data: seq<byte>)
    requires NoMagicWithin(noise, data)
    ensures FirstMagic(noise + data, 0)
         == (match FirstMagic(data, 0) case None => None case Some(at) => Some(|noise| + at))
  {
    hide MagicAt, FirstMagic;
    match FirstMagic(data, 0)
    case None =>
      forall i: nat
        ensures !MagicAt(noise + data, i)
      {
        if |noise| <= i {
          MagicShifts(noise, data, i - |noise|);
          FirstMagicIsFirst(data, 0, i - |noise|);
        }
      }
      NoMagic(noise + data, 0);
    case Some(at) =>
      MagicShifts(noise, data, at);
      forall i: nat | i < |noise| + at
        ensures !MagicAt(noise + data, i)
      {
        if |noise| <= i {
          MagicShifts(noise, data, i - |noise|);
          FirstMagicIsFirst(data, 0, i - |noise|);
        }
      }
      FirstMagicIs(noise + data, 0, |noise| + at);
  }

  lemma NoiseTurn(noise: seq<byte>, data: seq<byte>)
    requires NoMagicWithin(noise, data) && |data| >= 3
    ensures TakeTurn(noise + data) == TakeTurn(data)
  {
    hide FirstMagic, IsMagic, NoMagicWithin, Decide;
    FirstMagicAfterNoise(noise, data);
    if FirstMagic(data, 0).None? {
      LastThreeAfter(noise, data);
    } else {
      var at := FirstMagic(data, 0).value;
      DropThrough(noise, data, at);
    }
  }

  lemma LastThreeAfter(noise: seq<byte>, data: seq<byte>)
    requires |data| >= 3
    ensures LastThree(noise + data) == LastThree(data)
  {
    var all := noise + data;
    assert all[|all| - 3..] == data[|data| - 3..];
    assert data[|data| - 3..] == LastThree(data);
    assert all[|all| - 3..] == LastThree(all);
  }

  lemma DropThrough(noise: seq<byte>, data: seq<byte>, at: nat)
    requires at <= |data|
    ensures (noise + data)[|noise| + at..] == data[at..]
  {
  }

  /** Bytes in which no magic begins are dropped without trace. */
  lemma NoiseIsDropped(noise: seq<byte>, data: seq<byte>)
    requires NoMagicWithin(noise, data) && |data| >= 3
    ensures Parse(noise + data) == Parse(data)
  {
    hide Parse, TakeTurn;
    NoiseTurn(noise, data);
    ParseTurn(data);
    ParseTurn(noise + data);
  }

  // ---- chunk invariance ----

  lemma PrefixIsNoise(data: seq<byte>, more: seq<byte>, k: nat)
    requires k + 3 <= |data| && forall i: nat :: i < k ==> !MagicAt(data, i)
    ensures NoMagicWithin(data[..k], data[k..] + more)
    ensures data[..k] + (data[k..] + more) == data + more
  {
    hide MagicAt;
    assert data[..k] + (data[k..] + more) == data + more;
    forall i: nat | i < k
      ensures !MagicAt(data + more, i)
    {
      MagicIsStable(data, more, i);
    }
  }

  lemma NoMagicBefore(data: seq<byte>, k: nat)
    requires FirstMagic(data, 0).Some? ==> k <= FirstMagic(data, 0).value
    ensures forall i: nat :: i < k ==> !MagicAt(data, i)
  {
    hide MagicAt, FirstMagic;
    forall i: nat | i < k
      ensures !MagicAt(data, i)
    {
      FirstMagicIsFirst(data, 0, i);
    }
  }

  /** A buffer on which the loop stops parses, once more bytes arrive, as what
      was kept of it followed by those bytes. */
  lemma StopKeepsEnough(data: seq<byte>, more: seq<byte>)
    requires TakeTurn(data).Stop?
    ensures Parse(data + more) == Parse(TakeTurn(data).left + more)
  {
    hide Parse, FirstMagic;
    match FirstMagic(data, 0)
    case None =>
      if |data| > 3 {
        NoMagicBefore(data, |data| - 3);
        PrefixIsNoise(data, more, |data| - 3);
        NoiseIsDropped(data[..|data| - 3], data[|data| - 3..] + more);
      }
    case Some(at) =>
      NoMagicBefore(data, at);
      PrefixIsNoise(data, more, at);
      NoiseIsDropped(data[..at], data[at..] + more);
  }

  lemma GoAtMagicIsStable(t: seq<byte>, more: seq<byte>)
    requires |t| >= 4 && TurnAtMagic(t).Go?
    ensures TurnAtMagic(t + more) == Go(TurnAtMagic(t).left + more, TurnAtMagic(t).consumed)
  {
    hide Decide;
    DecisionIsStable(t, more);
    match Decide(t)
    case Reject => assert (t + more)[1..] == t[1..] + more;
    case Accept(size, item) => assert (t + more)[size..] == t[size..] + more;
    case NeedMore =>
  }

  /** A turn that made progress makes the same progress when more bytes follow. */
  lemma GoIsStable(data: seq<byte>, more: seq<byte>)
    requires TakeTurn(data).Go?
    ensures TakeTurn(data + more) == Go(TakeTurn(data).left + more, TakeTurn(data).consumed)
  {
    hide TurnAtMagic, Parse, FirstMagic;
    var at := FirstMagic(data, 0).value;
    var t := data[at..];
    NoMagicBefore(data, at);
    PrefixIsNoise(data, more, at);
    FirstMagicAfterNoise(data[..at], t + more);
    HeadMagic(data, at);
    MagicIsStable(t, more, 0);
    FirstMagicIs(t + more, 0, 0);
    assert (data + more)[at..] == t + more;
    GoAtMagicIsStable(t, more);
  }

  /** Parsing a buffer and later the leftover extended by new bytes is parsing
      the two together. */
  lemma {:induction false} ParseResumes(data: seq<byte>, more: seq<byte>)
    ensures var first := Parse(data);
            var second := Parse(first.rest + more);
            Parse(data + more) == Parsed(first.items + second.items, second.rest)
    decreases |data|
  {
    hide TakeTurn, Parse;
    ParseTurn(data);
    match TakeTurn(data)
    case Stop(left) =>
      StopKeepsEnough(data, more);
      assert [] + Parse(left + more).items == Parse(left + more).items;
    case Go(left, consumed) =>
      GoIsStable(data, more);
      ParseTurn(data + more);
      ParseResumes(left, more);
      var first := Parse(left);
      var second := Parse(first.rest + more);
      assert consumed + (first.items + second.items) == (consumed + first.items) + second.items;
  }

  // ---- the leftover buffer is bounded, so the 8 MiB cap is harmless ----

  /** The last size test in the video branch can never reject. */
  lemma OversizeTestIsDead(additional: nat, payload: nat)
    requires payload <= MAX_MEDIA_PACKET_BYTES && additional <= MAX_ADDITIONAL_HEADER_BYTES
    ensures VideoPacketSize(additional, payload) <= RESIDUAL_BOUND
         < MAX_MEDIA_PACKET_BYTES + MAX_ADDITIONAL_HEADER_BYTES + 32
  {
    var blocks := (payload + Padding8(payload)) / 8;
    assert payload + Padding8(payload) == 8 * blocks;
  }

  lemma WaitingIsShort(t: seq<byte>)
    requires |t| >= 4 && Decide(t).NeedMore?
    ensures |t| < RESIDUAL_BOUND
  {
    if IsVideoMagic(t[..4]) && |t| >= 24 {
      var payload, additional := U32(t, 8), U32(t, 12);
      if payload <= MAX_MEDIA_PACKET_BYTES && additional <= MAX_ADDITIONAL_HEADER_BYTES {
        OversizeTestIsDead(additional, payload);
      }
    }
  }

  lemma {:induction false} ResidualIsBounded(data: seq<byte>)
    ensures |Parse(data).rest| < RESIDUAL_BOUND
    decreases |data|
  {
    hide Parse, Decide, FirstMagic;
    ParseTurn(data);
    match TakeTurn(data)
    case Stop(left) =>
      if FirstMagic(data, 0).Some? {
        WaitingIsShort(left);
      }
    case Go(left, _) => ResidualIsBounded(left);
  }

  function Concat(chunks: seq<seq<byte>>): seq<byte> {
    if chunks == [] then [] else chunks[0] + Concat(chunks[1..])
  }

  /** The chunks whose size can never make the cap drop a byte. */
  ghost predicate Fitting(chunks: seq<seq<byte>>) {
    forall i :: 0 <= i < |chunks| ==> |chunks[i]| <= MAX_ROLLING_BUFFER_BYTES - (RESIDUAL_BOUND - 1)
  }

  lemma ObserveOne(data: seq<byte>, out: Delivered, chunk: seq<byte>)
    requires Fitting([chunk])
    ensures Observe(Parse(data).rest, Deliver(out, Parse(data).items), chunk)
         == (Parse(data + chunk).rest, Deliver(out, Parse(data + chunk).items))
  {
    hide Parse, Deliver;
    var before := Parse(data);
    assert |[chunk][0]| <= MAX_ROLLING_BUFFER_BYTES - (RESIDUAL_BOUND - 1);
    ResidualIsBounded(data);
    ParseResumes(data, chunk);
    DeliverConcat(out, before.items, Parse(before.rest + chunk).items);
    if chunk == [] {
      assert data + chunk == data;
    }
  }

  lemma {:induction false} ObserveContinues(data: seq<byte>, out: Delivered, chunks: seq<seq<byte>>)
    requires Fitting(chunks)
    ensures var before := Parse(data);
            var whole := Parse(data + Concat(chunks));
            ObserveAll(before.rest, Deliver(out, before.items), chunks) == (whole.rest, Deliver(out, whole.items))
    decreases |chunks|
  {
    hide Parse, Deliver, Observe;
    if chunks == [] {
      assert data + [] == data;
    } else {
      ObserveOne(data, out, chunks[0]);
      ObserveContinues(data + chunks[0], out, chunks[1..]);
      assert (data + chunks[0]) + Concat(chunks[1..]) == data + Concat(chunks);
    }
  }

  /** Feeding a stream to the connection in any chunks that fit leaves the same
      buffer, counters and sink calls as parsing the whole stream at once. */
  lemma ChunksDoNotMatter(chunks: seq<seq<byte>>, out: Delivered)
    requires Fitting(chunks)
    ensures var whole := Parse(Concat(chunks));
            ObserveAll([], out, chunks) == (whole.rest, Deliver(out, whole.items))
  {
    hide Parse, Deliver;
    NothingToParse(out);
    ObserveContinues([], out, chunks);
    assert [] + Concat(chunks) == Concat(chunks);
  }
}
