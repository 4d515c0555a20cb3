/** Time to live, as the manager keeps it in memory, stores it and compares it in SQL
    (ctf-manager/domain/instance.go, ctf-manager/repository/instance_repository.go, ctf-manager/service/manager.go). */
module Expiry {
  import opened Common

  // A duration is an int64 of nanoseconds.
  const SECOND: int := 1_000_000_000
  const LONGEST: int := 9_223_372_036

  /** time.Duration(s) * time.Second, in int64 arithmetic. */
  function FromSeconds(s: int64): int64 { Wrap64(s * SECOND) }

  /** int64(d.Seconds()): the conversion truncates towards zero. */
  function ToSeconds(d: int64): int64 {
    var nanos: int := d;
    if nanos >= 0 then nanos / SECOND else -(-nanos / SECOND)
  }

  /** A time to live survives being stored exactly when it fits into a duration. */
  lemma TtlRoundTrips(s: int64)
    ensures ToSeconds(FromSeconds(s)) == s <==> -LONGEST <= s <= LONGEST
  {
    if -LONGEST <= s <= LONGEST {
      assert FromSeconds(s) == s * SECOND;
    }
  }

  /** The conversion to seconds drops the fraction, whatever the sign. */
  lemma TruncatesToZero(d: int64)
    ensures d >= 0 ==> ToSeconds(d) >= 0 && ToSeconds(d) * SECOND <= d < (ToSeconds(d) + 1) * SECOND
    ensures d <= 0 ==> ToSeconds(d) <= 0 && (ToSeconds(d) - 1) * SECOND < d <= ToSeconds(d) * SECOND
  {
  }

  /** time.Since: the difference of two times, saturated to a duration. */
  function Since(now: int, created: int): int64 {
    var d := now - created;
    if d > INT64_MAX then INT64_MAX else if d < INT64_MIN then INT64_MIN else d
  }

  // A stored instance: both columns hold whole seconds.
  datatype Stored = Stored(created: int, ttl: int64)

  /** IsExpired of the instance read back, at a time in nanoseconds. */
  predicate IsExpired(i: Stored, now: int) {
    var ttl := FromSeconds(i.ttl);
    ttl != 0 && Since(now, i.created * SECOND) > ttl
  }

  /** The row is in the result of FindExpired: NOW() drops the fraction of the second. */
  predicate FoundExpired(i: Stored, now: int) { i.ttl > 0 && now / SECOND - i.created > i.ttl }

  /** An instance is expired exactly when more time has passed than its time to live, unless that is zero. */
  lemma ExpiredExactly(i: Stored, now: int)
    requires -LONGEST <= i.ttl <= LONGEST && INT64_MIN <= now - i.created * SECOND <= INT64_MAX
    ensures IsExpired(i, now) <==> i.ttl != 0 && now - i.created * SECOND > i.ttl * SECOND
  {
    assert FromSeconds(i.ttl) == i.ttl * SECOND;
  }

  /** For every time to live a duration can hold, the query finds only instances that are expired, ... */
  lemma FoundIsExpired(i: Stored, now: int)
    requires -LONGEST <= i.ttl <= LONGEST
    ensures FoundExpired(i, now) ==> IsExpired(i, now)
  {
    assert FromSeconds(i.ttl) == i.ttl * SECOND;
  }

  lemma ExpiredIsFound(i: Stored, now: int)
    requires 0 <= i.ttl <= LONGEST && IsExpired(i, now)
    ensures FoundExpired(i, now + SECOND)
  {
    assert FromSeconds(i.ttl) == i.ttl * SECOND;
    assert (now + SECOND) / SECOND == now / SECOND + 1;
  }

  /** ... and finds each of them one second later, exactly when the time to live is not negative. */
  lemma FoundWithinASecond(i: Stored)
    requires -LONGEST <= i.ttl <= LONGEST
    ensures (forall now :: IsExpired(i, now) ==> FoundExpired(i, now + SECOND)) <==> i.ttl >= 0
  {
    if i.ttl >= 0 {
      forall now | IsExpired(i, now) ensures FoundExpired(i, now + SECOND) {
        ExpiredIsFound(i, now);
      }
    } else {
      assert FromSeconds(i.ttl) == i.ttl * SECOND;
      assert IsExpired(i, i.created * SECOND);
    }
  }
}
