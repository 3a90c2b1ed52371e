/** Small vocabulary shared by the component models. */
module Basics {
  datatype Option<+T> = None | Some(value: T)

  type byte = x: int | 0 <= x < 256

  predicate MatchesAt(data: seq<byte>, i: nat, pattern: seq<byte>) {
    i + |pattern| <= |data| && data[i..i + |pattern|] == pattern
  }

  /** `data.find(pattern)`, with -1 written as None. */
  function Find(data: seq<byte>, pattern: seq<byte>): (r: Option<nat>)
    ensures r.Some? ==> MatchesAt(data, r.value, pattern)
    ensures forall i: nat :: (r.Some? ==> i < r.value) ==> !MatchesAt(data, i, pattern)
  {
    FindFrom(data, pattern, 0)
  }

  function FindFrom(data: seq<byte>, pattern: seq<byte>, from: nat): (r: Option<nat>)
    ensures r.Some? ==> from <= r.value && MatchesAt(data, r.value, pattern)
    ensures forall i: nat :: from <= i && (r.Some? ==> i < r.value) ==> !MatchesAt(data, i, pattern)
    decreases |data| - from
  {
    if from + |pattern| > |data| then None
    else if data[from..from + |pattern|] == pattern then Some(from)
    else FindFrom(data, pattern, from + 1)
  }

  /** `int.from_bytes(s[i:i+2], "little")` */
  function U16(s: seq<byte>, i: nat): nat
    requires i + 2 <= |s|
  {
    s[i] as int + 0x100 * s[i + 1] as int
  }

  /** `int.from_bytes(s[i:i+4], "little")` */
  function U32(s: seq<byte>, i: nat): nat
    requires i + 4 <= |s|
  {
    s[i] as int + 0x100 * s[i + 1] as int + 0x1_0000 * s[i + 2] as int + 0x100_0000 * s[i + 3] as int
  }

  /** `int.from_bytes(s[i:i+4], "big")` */
  function BigEndian32(s: seq<byte>, i: nat): nat
    requires i + 4 <= |s|
  {
    s[i + 3] as int + 0x100 * s[i + 2] as int + 0x1_0000 * s[i + 1] as int + 0x100_0000 * s[i] as int
  }

  /** `n.to_bytes(2, "little")`; Python raises on larger numbers. */
  function Bytes2(n: nat): (s: seq<byte>)
    requires n < 0x1_0000
    ensures |s| == 2 && U16(s, 0) == n
  {
    [n % 0x100, n / 0x100]
  }

  /** `n.to_bytes(4, "little")`; Python raises on larger numbers. */
  function Bytes4(n: nat): (s: seq<byte>)
    requires n < 0x1_0000_0000
    ensures |s| == 4 && U32(s, 0) == n
  {
    var q1 := n / 0x100;
    var q2 := q1 / 0x100;
    var q3 := q2 / 0x100;
    assert n == n % 0x100 + 0x100 * (q1 % 0x100 + 0x100 * (q2 % 0x100 + 0x100 * q3));
    [n % 0x100, q1 % 0x100, q2 % 0x100, q3]
  }
}
