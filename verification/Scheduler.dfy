/** Round-robin selection of runners (ctf-manager/service/manager.go). */
module Scheduler {
  import opened Common

  datatype Runner = Runner(url: string, active: bool)

  /** The active runners among the positions lo..hi, in order. */
  function Active(rs: seq<Runner>, lo: nat, hi: nat): seq<nat>
    requires hi <= |rs|
    decreases hi - lo
  {
    if lo >= hi then [] else (if rs[lo].active then [lo] else []) + Active(rs, lo + 1, hi)
  }

  /** The active runners in the order a scan from the cursor meets them: from it to the end, then from the start. */
  function Queue(rs: seq<Runner>, c: nat): seq<nat>
    requires c <= |rs|
  {
    Active(rs, c, |rs|) + Active(rs, 0, c)
  }

  predicate IsActive(rs: seq<Runner>, x: nat) { x < |rs| && rs[x].active }

  // The cursor after runner i was chosen.
  function After(rs: seq<Runner>, i: nat): (c: nat)
    requires i < |rs|
    ensures c < |rs|
    ensures c == if i + 1 == |rs| then 0 else i + 1
  {
    (i + 1) % |rs|
  }

  // The i-th position of a scan from c.
  function At(c: nat, i: nat, n: nat): (idx: nat)
    requires c < n && i < n
    ensures idx < n
    ensures idx == if c + i < n then c + i else c + i - n
  {
    (c + i) % n
  }

  // A scan from c comes by i before it comes to r.
  predicate Before(c: nat, i: nat, r: nat) { if c <= r then c <= i < r else c <= i || i < r }

  // The part of the queue a scan from c has not passed after i positions.
  function Remaining(rs: seq<Runner>, c: nat, i: nat): seq<nat>
    requires c <= |rs| && i <= |rs|
  {
    if c + i <= |rs| then Active(rs, c + i, |rs|) + Active(rs, 0, c) else Active(rs, c + i - |rs|, c)
  }

  lemma RemainingStep(rs: seq<Runner>, c: nat, i: nat)
    requires c < |rs| && i < |rs|
    ensures var idx := At(c, i, |rs|);
            Remaining(rs, c, i) == (if rs[idx].active then [idx] else []) + Remaining(rs, c, i + 1)
  {
  }

  lemma NoneBefore(rs: seq<Runner>, c: nat, i: nat)
    requires c < |rs| && i < |rs| && forall j: nat | j < i :: !rs[At(c, j, |rs|)].active
    ensures forall k | 0 <= k < |rs| && Before(c, k, At(c, i, |rs|)) :: !rs[k].active
  {
    forall k | 0 <= k < |rs| && Before(c, k, At(c, i, |rs|)) ensures !rs[k].active {
      assert At(c, if c <= k then k - c else |rs| + k - c, |rs|) == k;
    }
  }

  class Pool {
    var runners: seq<Runner>
    var nextRunner: nat

    ghost predicate Valid() reads this { nextRunner <= |runners| && (runners != [] ==> nextRunner < |runners|) }

    constructor (urls: seq<string>)
      ensures Valid() && nextRunner == 0 && |runners| == |urls|
      ensures forall i | 0 <= i < |urls| :: runners[i] == Runner(urls[i], true)
    {
      runners := seq(|urls|, i requires 0 <= i < |urls| => Runner(urls[i], true));
      nextRunner := 0;
    }

    /** selectRunner: the first active runner from the cursor on, None exactly when no runner is active; the
        cursor moves just past the choice. */
    method SelectRunner() returns (r: Option<nat>)
      requires Valid()
      modifies this`nextRunner
      ensures Valid()
      ensures var queue := Queue(runners, old(nextRunner));
              r == if queue == [] then None else Some(queue[0])
      ensures r == None <==> forall i | 0 <= i < |runners| :: !runners[i].active
      ensures r.Some? ==> r.value < |runners| && nextRunner == After(runners, r.value)
      ensures r == None ==> nextRunner == old(nextRunner)
      ensures r.Some? ==>
                && runners[r.value].active && nextRunner == (if r.value + 1 == |runners| then 0 else r.value + 1)
                && forall i | 0 <= i < |runners| && Before(old(nextRunner), i, r.value) :: !runners[i].active
    {
      var startIdx := nextRunner;
      ghost var rs := runners;
      QueueMembers(rs, startIdx);
      var i := 0;
      while i < |runners|
        invariant 0 <= i <= |rs| && nextRunner == startIdx && runners == rs
        invariant Queue(rs, startIdx) == Remaining(rs, startIdx, i)
        invariant forall j: nat | j < i && j < |rs| :: !rs[At(startIdx, j, |rs|)].active
      {
        var idx := At(startIdx, i, |runners|);
        RemainingStep(rs, startIdx, i);
        if runners[idx].active {
          nextRunner := After(runners, idx);
          NoneBefore(rs, startIdx, i);
          return Some(idx);
        }
        i := i + 1;
      }
      r := None;
    }
  }

  lemma {:induction false} ActiveMembers(rs: seq<Runner>, lo: nat, hi: nat, x: nat)
    requires hi <= |rs|
    ensures x in Active(rs, lo, hi) <==> lo <= x < hi && rs[x].active
    decreases hi - lo
  {
    if lo < hi {
      ActiveMembers(rs, lo + 1, hi, x);
    }
  }

  /** From any cursor the queue holds exactly the active runners. */
  lemma QueueMembers(rs: seq<Runner>, c: nat)
    requires c <= |rs|
    ensures forall x :: x in Queue(rs, c) <==> IsActive(rs, x)
    ensures Queue(rs, c) == [] <==> forall i | 0 <= i < |rs| :: !rs[i].active
  {
    forall x: nat ensures x in Queue(rs, c) <==> IsActive(rs, x) {
      ActiveMembers(rs, c, |rs|, x);
      ActiveMembers(rs, 0, c, x);
    }
    if Queue(rs, c) != [] {
      assert IsActive(rs, Queue(rs, c)[0]);
    }
    forall i | 0 <= i < |rs| && rs[i].active ensures Queue(rs, c) != [] {
      assert i in Queue(rs, c);
    }
  }

  ghost predicate Distinct(s: seq<nat>) { forall i, j | 0 <= i < j < |s| :: s[i] != s[j] }

  lemma {:induction false} ActiveDistinct(rs: seq<Runner>, lo: nat, hi: nat)
    requires hi <= |rs|
    ensures Distinct(Active(rs, lo, hi))
    decreases hi - lo
  {
    if lo < hi {
      ActiveDistinct(rs, lo + 1, hi);
      ActiveMembers(rs, lo + 1, hi, lo);
    }
  }

  lemma QueueDistinct(rs: seq<Runner>, c: nat)
    requires c <= |rs|
    ensures Distinct(Queue(rs, c))
  {
    ActiveDistinct(rs, c, |rs|);
    ActiveDistinct(rs, 0, c);
    var a, b := Active(rs, c, |rs|), Active(rs, 0, c);
    forall i, j | 0 <= i < |a| && 0 <= j < |b| ensures a[i] != b[j] {
      ActiveMembers(rs, c, |rs|, a[i]);
      ActiveMembers(rs, 0, c, b[j]);
    }
  }

  lemma {:induction false} ActiveSplit(rs: seq<Runner>, lo: nat, mid: nat, hi: nat)
    requires lo <= mid <= hi <= |rs|
    ensures Active(rs, lo, hi) == Active(rs, lo, mid) + Active(rs, mid, hi)
    decreases mid - lo
  {
    if lo < mid {
      ActiveSplit(rs, lo + 1, mid, hi);
    }
  }

  lemma {:induction false} ActiveHead(rs: seq<Runner>, lo: nat, hi: nat)
    requires hi <= |rs| && Active(rs, lo, hi) != []
    ensures var i := Active(rs, lo, hi)[0];
            lo <= i < hi && Active(rs, lo, i) == [] && Active(rs, lo, i + 1) == [i]
            && Active(rs, lo, hi) == [i] + Active(rs, i + 1, hi)
    decreases hi - lo
  {
    var i := Active(rs, lo, hi)[0];
    ActiveMembers(rs, lo, hi, i);
    if !rs[lo].active {
      ActiveHead(rs, lo + 1, hi);
    } else {
      assert Active(rs, lo, lo + 1) == [lo] + Active(rs, lo + 1, lo + 1);
    }
  }

  function Rotate(q: seq<nat>): seq<nat> { if q == [] then [] else q[1..] + [q[0]] }

  /** One selection moves the head of the queue to its end. */
  lemma Rotation(rs: seq<Runner>, c: nat)
    requires c <= |rs| && Queue(rs, c) != []
    ensures Queue(rs, c)[0] < |rs|
    ensures Queue(rs, After(rs, Queue(rs, c)[0])) == Rotate(Queue(rs, c))
  {
    if Active(rs, c, |rs|) != [] {
      RotateTail(rs, c);
    } else {
      RotateHead(rs, c);
    }
  }

  lemma RotateTail(rs: seq<Runner>, c: nat)
    requires c <= |rs| && Active(rs, c, |rs|) != []
    ensures Queue(rs, c) != [] && Queue(rs, c)[0] < |rs|
    ensures Queue(rs, After(rs, Queue(rs, c)[0])) == Rotate(Queue(rs, c))
  {
    var n, head := |rs|, Active(rs, 0, c);
    ActiveHead(rs, c, n);
    var i := Active(rs, c, n)[0];
    var rest := Active(rs, i + 1, n);
    assert Queue(rs, c) == [i] + (rest + head);
    assert ([i] + (rest + head))[1..] == rest + head;
    QueueAfter(rs, c, i);
    assert rest + (head + [i]) == (rest + head) + [i];
  }

  lemma QueueAfter(rs: seq<Runner>, c: nat, i: nat)
    requires c <= i < |rs| && Active(rs, c, i + 1) == [i]
    ensures Queue(rs, After(rs, i)) == Active(rs, i + 1, |rs|) + (Active(rs, 0, c) + [i])
  {
    ActiveSplit(rs, 0, c, i + 1);
    if i + 1 == |rs| {
      assert Active(rs, |rs|, |rs|) == [] && Active(rs, 0, 0) == [];
    }
  }

  lemma RotateHead(rs: seq<Runner>, c: nat)
    requires c <= |rs| && Active(rs, c, |rs|) == [] && Active(rs, 0, c) != []
    ensures Queue(rs, c) != [] && Queue(rs, c)[0] < |rs|
    ensures Queue(rs, After(rs, Queue(rs, c)[0])) == Rotate(Queue(rs, c))
  {
    var n := |rs|;
    ActiveHead(rs, 0, c);
    var i := Active(rs, 0, c)[0];
    var rest := Active(rs, i + 1, c);
    assert Queue(rs, c) == [i] + rest;
    assert ([i] + rest)[1..] == rest;
    ActiveSplit(rs, i + 1, c, n);
    assert Active(rs, i + 1, n) == rest;
    if i + 1 == n {
      assert rest == [] && Active(rs, 0, 0) == [] && Queue(rs, 0) == Active(rs, 0, n);
    }
  }

  /** The runners n consecutive selections return, with no runner changing. */
  function Picks(rs: seq<Runner>, c: nat, n: nat): seq<nat>
    requires c <= |rs|
    decreases n
  {
    if n == 0 || Queue(rs, c) == [] then []
    else
      Rotation(rs, c);
      [Queue(rs, c)[0]] + Picks(rs, After(rs, Queue(rs, c)[0]), n - 1)
  }

  /** The first n elements met when going round a queue again and again. */
  function Round(q: seq<nat>, n: nat): seq<nat>
    decreases n
  {
    if n == 0 || q == [] then [] else [q[0]] + Round(Rotate(q), n - 1)
  }

  lemma {:induction false} PicksGoRound(rs: seq<Runner>, c: nat, n: nat)
    requires c <= |rs|
    ensures Picks(rs, c, n) == Round(Queue(rs, c), n)
    decreases n
  {
    if n > 0 && Queue(rs, c) != [] {
      Rotation(rs, c);
      PicksGoRound(rs, After(rs, Queue(rs, c)[0]), n - 1);
    }
  }

  lemma RotateSlices(q: seq<nat>, a: nat)
    requires 0 < a <= |q|
    ensures var q' := Rotate(q);
            && |q'| == |q| && q[..a] == [q[0]] + q'[..a - 1]
            && q'[a - 1..] + q'[..a - 1] == q[a..] + q[..a]
  {
    var q' := Rotate(q);
    assert q'[a - 1..] == q[a..] + [q[0]] && q'[..a - 1] == q[1..a];
  }

  lemma RoundStep(q: seq<nat>, m: nat, first: seq<nat>, rest: seq<nat>)
    requires q != [] && Round(Rotate(q), m) == first + rest
    ensures Round(q, m + 1) == ([q[0]] + first) + rest
  {
    assert [q[0]] + (first + rest) == ([q[0]] + first) + rest;
  }

  /** Going round part of the way, and then on from there. */
  lemma {:induction false} RoundFrom(q: seq<nat>, a: nat, n: nat)
    requires a <= |q|
    ensures Round(q, a + n) == q[..a] + Round(q[a..] + q[..a], n)
    decreases a
  {
    if a == 0 {
      assert q[0..] + q[..0] == q;
    } else {
      var q' := Rotate(q);
      RoundFrom(q', a - 1, n);
      RotateSlices(q, a);
      RoundStep(q, a - 1 + n, q'[..a - 1], Round(q[a..] + q[..a], n));
    }
  }

  function Count(s: seq<nat>, x: nat): nat {
    if s == [] then 0 else (if s[0] == x then 1 else 0) + Count(s[1..], x)
  }

  lemma {:induction false} CountConcat(a: seq<nat>, b: seq<nat>, x: nat)
    ensures Count(a + b, x) == Count(a, x) + Count(b, x)
  {
    if a == [] {
      assert a + b == b;
    } else {
      assert (a + b)[1..] == a[1..] + b;
      CountConcat(a[1..], b, x);
    }
  }

  lemma {:induction false} CountDistinct(s: seq<nat>, x: nat)
    requires Distinct(s)
    ensures Count(s, x) == if x in s then 1 else 0
  {
    if s != [] {
      CountDistinct(s[1..], x);
    }
  }

  // How many times n selections go round k runners completely.
  function FullRounds(n: nat, k: nat): nat
    requires k > 0
  {
    if n < k then 0 else 1 + FullRounds(n - k, k)
  }

  /** Every runner of the queue is met once per full round and at most once more. */
  lemma {:induction false} CountRound(q: seq<nat>, n: nat, x: nat)
    requires Distinct(q) && x in q
    ensures FullRounds(n, |q|) <= Count(Round(q, n), x) <= FullRounds(n, |q|) + 1
    decreases n
  {
    var k := |q|;
    if n < k {
      RoundPart(q, n);
      CountDistinct(q[..n], x);
    } else {
      RoundAll(q, n);
      CountRound(q, n - k, x);
      CountConcat(q, Round(q, n - k), x);
      CountDistinct(q, x);
    }
  }

  lemma RoundPart(q: seq<nat>, n: nat)
    requires n <= |q|
    ensures Round(q, n) == q[..n]
  {
    RoundFrom(q, n, 0);
    assert q[..n] + [] == q[..n];
  }

  lemma RoundAll(q: seq<nat>, n: nat)
    requires |q| <= n
    ensures Round(q, n) == q + Round(q, n - |q|)
  {
    RoundFrom(q, |q|, n - |q|);
    assert q[..|q|] == q && q[|q|..] + q[..|q|] == q;
  }

  /** Fairness from any cursor: as many selections as there are active runners pick each of them exactly once
      and leave the queue as it was, and after any number of selections no active runner is more than one
      ahead of another. */
  lemma RoundRobinFair(rs: seq<Runner>, c: nat, n: nat)
    requires c <= |rs|
    ensures var picks := Picks(rs, c, |Queue(rs, c)|);
            Distinct(picks) && forall x :: x in picks <==> IsActive(rs, x)
    ensures forall x, y | IsActive(rs, x) && IsActive(rs, y) ::
              Count(Picks(rs, c, n), x) <= Count(Picks(rs, c, n), y) + 1
  {
    var q := Queue(rs, c);
    QueueMembers(rs, c);
    QueueDistinct(rs, c);
    PicksGoRound(rs, c, |q|);
    RoundPart(q, |q|);
    assert q[..|q|] == q;
    PicksGoRound(rs, c, n);
    forall x, y | IsActive(rs, x) && IsActive(rs, y)
      ensures Count(Picks(rs, c, n), x) <= Count(Picks(rs, c, n), y) + 1
    {
      CountRound(q, n, x);
      CountRound(q, n, y);
    }
  }
}
