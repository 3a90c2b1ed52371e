/** Where the MP4 offset is, and how far a download can go on. */
module CollectorLimits {
  import opened Basics
  import opened Collector
  import opened CollectorTheorems

  // ---- the offset ----

  predicate MarkerAt(data: seq<byte>, i: nat) {
    i + 4 <= |data| && data[i..i + 4] == [102, 116, 121, 112]
  }

  /** The 32-bit box size in front of the marker, most significant byte first. */
  function BoxSize(data: seq<byte>, k: nat): nat
    requires k + 4 <= |data|
  {
    ((data[k] as nat * 256 + data[k + 1] as nat) * 256 + data[k + 2] as nat) * 256 + data[k + 3] as nat
  }

  /** The offset is found at a place if and only if the first "ftyp" of all the data
      stands four bytes behind it, and the box size there is 1 or at least 8. */
  lemma FoundIff(data: seq<byte>, k: nat)
    ensures FindMp4(data) == Some(k)
            <==> MarkerAt(data, k + 4) && (forall i: nat :: i < k + 4 ==> !MarkerAt(data, i))
                 && (BoxSize(data, k) == 1 || BoxSize(data, k) >= 8)
  {
    assert forall i: nat :: MarkerAt(data, i) <==> MatchesAt(data, i, FTYP);
    if MarkerAt(data, k + 4) {
      assert BoxSize(data, k) == BigEndian32(data, k);
    }
    hide Find, BoxSize, BigEndian32, MarkerAt, MatchesAt;
    var marker := Find(data, FTYP);
    assert marker.Some? ==> MatchesAt(data, marker.value, FTYP);
  }

  // ---- the counters ----

  function BodyBytes(frames: seq<Frame>): nat {
    if frames == [] then 0 else BodyBytes(frames[..|frames| - 1]) + frames[|frames| - 1].bodyLength
  }

  /** The largest size reported so far; 0 for none. */
  function Largest(frames: seq<Frame>): nat {
    if frames == [] then 0
    else if Largest(frames[..|frames| - 1]) > frames[|frames| - 1].reports then Largest(frames[..|frames| - 1])
    else frames[|frames| - 1].reports
  }

  lemma CountsStep(s: State, f: Frame)
    ensures var s' := Observe(s, f);
      && s'.frames == s.frames + 1 && s'.bodyBytes == s.bodyBytes + f.bodyLength
      && s'.reported == if s.reported > f.reports then s.reported else f.reports
  {
    hide FindMp4, VerifiedLimits;
  }

  lemma {:induction false} CountsAreExact(candidateSize: nat, frames: seq<Frame>)
    ensures var s := After(Prepared(candidateSize), frames);
      s.frames == |frames| && s.bodyBytes == BodyBytes(frames) && s.reported == Largest(frames)
    decreases |frames|
  {
    hide Observe;
    if frames != [] {
      var n := |frames| - 1;
      CountsAreExact(candidateSize, frames[..n]);
      CountsStep(After(Prepared(candidateSize), frames[..n]), frames[n]);
    }
  }

  // ---- the limits ----

  const HARD_CAP := 128 * 1024 * 1024

  /** The frame limit leaves 2 KiB a frame up to the byte limit, and 1024 frames more. */
  ghost predicate LimitsMatch(s: State) {
    && s.sampleLimit == s.aggregateLimit <= HARD_CAP
    && s.sampleLimit / 2048 + 1024 <= s.frameLimit <= HARD_CAP / 2048 + 1024
  }

  lemma VerifiedLimitsMatch(size: nat)
    ensures var (bytes, frames) := VerifiedLimits(size);
            bytes <= HARD_CAP && bytes / 2048 + 1024 <= frames <= HARD_CAP / 2048 + 1024
  {
  }

  lemma LimitsMatchStep(s: State, f: Frame)
    requires LimitsMatch(s)
    ensures LimitsMatch(Observe(s, f))
  {
    VerifiedLimitsMatch(Counted(s, f).reported);
    hide FindMp4, VerifiedLimits;
  }

  lemma {:induction false} LimitsAlwaysMatch(candidateSize: nat, frames: seq<Frame>)
    ensures LimitsMatch(After(Prepared(candidateSize), frames))
    decreases |frames|
  {
    hide Observe, LimitsMatch;
    if frames != [] {
      var n := |frames| - 1;
      LimitsAlwaysMatch(candidateSize, frames[..n]);
      LimitsMatchStep(After(Prepared(candidateSize), frames[..n]), frames[n]);
    } else {
      PreparedMatches(candidateSize);
    }
  }

  lemma PreparedMatches(candidateSize: nat)
    ensures LimitsMatch(Prepared(candidateSize))
  {
    VerifiedLimitsMatch(candidateSize);
    hide VerifiedLimits;
  }

  /** No download goes on for ever: whatever the camera sends, a session that goes on
      has seen less than 128 MiB of frame bodies in less than 66560 frames. */
  lemma GoingOnIsBounded(candidateSize: nat, frames: seq<Frame>)
    requires StopReason(After(Prepared(candidateSize), frames)) == GoOn
    ensures BodyBytes(frames) < HARD_CAP && |frames| < 66560
    ensures |After(Prepared(candidateSize), frames).aggregate| < HARD_CAP
  {
    hide After, Prepared, BodyBytes;
    CountsAreExact(candidateSize, frames);
    LimitsAlwaysMatch(candidateSize, frames);
  }

  /** And the frame limit never cuts a download of ordinary frames short: it is the
      reason to stop only when the frames carry, 1024 of them aside, less than 2 KiB
      each. */
  lemma FrameLimitNeedsSmallFrames(candidateSize: nat, frames: seq<Frame>)
    requires StopReason(After(Prepared(candidateSize), frames)) == FrameLimit
    ensures BodyBytes(frames) < 2048 * (|frames| - 1023)
  {
    hide After, Prepared, BodyBytes;
    CountsAreExact(candidateSize, frames);
    LimitsAlwaysMatch(candidateSize, frames);
  }
}
