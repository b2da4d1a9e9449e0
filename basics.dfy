/** Vocabulary shared by the ringer, fleet and input models: the 32-bit
    millisecond clock, the five ring states and a few small helpers. */
module Basics {

  /** 2^32: the modulus of Arduino's `unsigned long` arithmetic. */
  const TwoTo32: int := 0x1_0000_0000

  /** A reading of the millis() clock, an unsigned 32-bit counter. */
  type Millis = x: int | 0 <= x < 0x1_0000_0000

  /** `now - since` in unsigned long arithmetic: the difference wraps modulo 2^32,
      so a timestamp taken just before the counter overflows still yields a
      small elapsed time afterwards. */
  function Elapsed(now: Millis, since: Millis): (e: Millis)
    ensures since <= now ==> e == now - since
    ensures now < since ==> e == now - since + TwoTo32
  {
    (now - since) % TwoTo32
  }

  /** The states of one telephone line (the RingerState enum of both ringer versions). */
  datatype RingerState = Idle | RingOn | RingOff | CallAnswered | Waiting

  datatype Option<T> = None | Some(value: T)

  /** Logic levels as digitalRead/digitalWrite use them. */
  const HIGH: bool := true
  const LOW: bool := false

  function Min(a: int, b: int): int { if a <= b then a else b }
  function Max(a: int, b: int): int { if a >= b then a else b }

  /** Number of true entries, counted from the front as the source's loops do. */
  function CountTrue(v: seq<bool>): (n: nat)
    ensures n <= |v|
  {
    if v == [] then 0 else CountTrue(v[..|v| - 1]) + (if v[|v| - 1] then 1 else 0)
  }

  /** Pointwise implication between two flag vectors carries over to their counts. */
  lemma {:induction false} CountTrueMonotone(v: seq<bool>, w: seq<bool>)
    requires |v| == |w|
    requires forall i :: 0 <= i < |v| ==> v[i] ==> w[i]
    ensures CountTrue(v) <= CountTrue(w)
  {
    if v != [] {
      CountTrueMonotone(v[..|v| - 1], w[..|w| - 1]);
    }
  }

  function Spaces(n: nat): (r: string)
    ensures |r| == n && forall i :: 0 <= i < n ==> r[i] == ' '
  {
    seq(n, i => ' ')
  }

  /** What padString(s, n) and padStringToGlobalBuffer(s, n) produce: exactly
      n characters, the first min(|s|, n) of s followed by spaces. */
  function Padded(s: string, n: nat): (r: string)
    ensures |r| == n
    ensures forall i :: 0 <= i < Min(|s|, n) ==> r[i] == s[i]
    ensures forall i :: Min(|s|, n) <= i < n ==> r[i] == ' '
  {
    if |s| >= n then s[..n] else s + Spaces(n - |s|)
  }
}
