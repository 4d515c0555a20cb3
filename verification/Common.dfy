/** Types shared by every component: optional values, byte strings, Go's 64-bit integers, and digests. */
module Common {
  datatype Option<+T> = None | Some(value: T)

  newtype byte = x: int | 0 <= x < 256
  type Bytes = seq<byte>

  // A content digest such as "sha256:<hex>", kept as its text.
  type Digest = string
  type Repo = string
  type Id = string

  const INT64_MIN: int := -0x8000_0000_0000_0000
  const INT64_MAX: int := 0x7fff_ffff_ffff_ffff
  type int64 = x: int | INT64_MIN <= x <= INT64_MAX

  /** Two's complement wrap-around of a mathematical integer to Go's int64. */
  function Wrap64(x: int): (r: int64)
    ensures INT64_MIN <= x <= INT64_MAX ==> r == x
  {
    var m := x % 0x1_0000_0000_0000_0000;
    if m > INT64_MAX then m - 0x1_0000_0000_0000_0000 else m
  }

  /** How one call to the outside world ends: it succeeds, it fails without effect, it takes effect but
      reports a failure, or it stops after part of its bytes. */
  datatype Choice = Ok | Fail | FailApplied | Part(n: nat)

  /** The numbers lo, ..., hi - 1. */
  function Range(lo: nat, hi: nat): (r: set<nat>)
    requires lo <= hi
    ensures (forall q :: q in r <==> lo <= q < hi) && |r| == hi - lo
    decreases hi
  {
    if lo == hi then {} else Range(lo, hi - 1) + {hi - 1}
  }

  /** Increasing positions below n. */
  predicate Rising(at: seq<nat>, n: nat) {
    (forall j, k | 0 <= j < k < |at| :: at[j] < at[k]) && forall k | 0 <= k < |at| :: at[k] < n
  }

  lemma RisingMore(at: seq<nat>, n: nat)
    requires Rising(at, n)
    ensures Rising(at, n + 1) && Rising(at + [n], n + 1) && (forall i | i in at :: i in at + [n]) && n in at + [n]
  {
  }

  /** A part is no larger than the whole. */
  lemma {:induction false} Fewer<T>(a: set<T>, b: set<T>)
    requires a <= b
    ensures |a| <= |b|
  {
    if a != {} {
      var x :| x in a;
      Fewer(a - {x}, b - {x});
    }
  }

  /** How digests name bytes: `of` is the digest computed for bytes that are saved; `also` says what else verifies,
      such as digests of other algorithms. */
  datatype Hashing = Hashing(of: Bytes -> Digest, also: (Digest, Bytes) -> bool) {
    predicate Fits(d: Digest, b: Bytes) { of(b) == d || also(d, b) }
  }

  // No two byte strings have a digest in common.
  ghost predicate Injective(hash: Hashing) {
    forall d, a, b :: hash.Fits(d, a) && hash.Fits(d, b) ==> a == b
  }

  lemma OtherBytes(hash: Hashing, a: Bytes, b: Bytes)
    requires Injective(hash)
    ensures hash.Fits(hash.of(a), b) <==> a == b
  {
    assert hash.Fits(hash.of(a), a);
  }
}
