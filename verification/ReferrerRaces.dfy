/**
 * Any number of AddReference calls on one list of referrers in Dynamo (ctf-registry/store/dynamostore/dynamo.go):
 * each reads the list, then puts it back with its own descriptor at the end, and the calls interleave.
 */
module ReferrerRaces {
  import opened Common
  import opened MetaStore

  // seen and at: the list as read, and how many puts had been made by then (at is history).
  datatype Call = Reading(desc: Descriptor) | Putting(desc: Descriptor, seen: seq<Descriptor>, at: nat) | Done(desc: Descriptor)

  // History of one put: the call, what it added, and how many puts had been made when it read.
  datatype Put = Put(p: nat, desc: Descriptor, at: nat)

  // puts is history, in the order in which the puts were made.
  datatype Refs = Refs(list: seq<Descriptor>, calls: map<nat, Call>, puts: seq<Put>)

  // Call p's next request, and how it ends.
  datatype Turn = Turn(p: nat, c: Choice)

  predicate Applied(c: Choice) { c.Ok? || c.FailApplied? }

  function Step(s: Refs, t: Turn): Refs {
    if t.p !in s.calls then s
    else
      match s.calls[t.p]
      case Reading(desc) => s.(calls := s.calls[t.p := if t.c.Ok? then Putting(desc, s.list, |s.puts|) else Done(desc)])
      case Putting(desc, seen, at) =>
        if Applied(t.c) then Refs(seen + [desc], s.calls[t.p := Done(desc)], s.puts + [Put(t.p, desc, at)])
        else s.(calls := s.calls[t.p := Done(desc)])
      case Done(_) => s
  }

  function Run(s: Refs, ts: seq<Turn>): Refs {
    if ts == [] then s else Step(Run(s, ts[..|ts| - 1]), ts[|ts| - 1])
  }

  /** A call that runs alone and meets no failure appends its descriptor. */
  lemma AloneAppends(s: Refs, p: nat)
    requires p in s.calls && s.calls[p].Reading?
    ensures var s' := Run(s, [Turn(p, Ok), Turn(p, Ok)]);
            s'.list == s.list + [s.calls[p].desc] && s'.calls == s.calls[p := Done(s.calls[p].desc)]
  {
    var t := Turn(p, Ok);
    assert [t, t][..1] == [t] && [t][..0] == [];
    assert Run(s, [t]) == Step(s, t);
  }

  /** No call has made a request yet. */
  predicate Initial(s: Refs) { s.puts == [] && forall p | p in s.calls :: s.calls[p].Reading? }

  /** The calls add different descriptors, none of them in the list already. */
  predicate Fresh(s: Refs) {
    && (forall p | p in s.calls :: s.calls[p].desc !in s.list)
    && (forall p, q | p in s.calls && q in s.calls && p != q :: s.calls[p].desc != s.calls[q].desc)
  }

  predicate Reads(s: Refs, t: Turn) { t.p in s.calls && s.calls[t.p].Reading? && t.c.Ok? }
  predicate Puts(s: Refs, t: Turn) { t.p in s.calls && s.calls[t.p].Putting? && Applied(t.c) }

  // Turn k is a put that falls between the read and the put of one call, turns i and j.
  ghost predicate Overlaps(s: Refs, ts: seq<Turn>, i: nat, k: nat, j: nat) {
    && i < k < j < |ts| && ts[i].p == ts[j].p
    && Reads(Run(s, ts[..i]), ts[i]) && Puts(Run(s, ts[..j]), ts[j]) && Puts(Run(s, ts[..k]), ts[k])
  }

  /** No call's put falls between another call's read and put. */
  ghost predicate NoOverlap(s: Refs, ts: seq<Turn>) {
    forall i, k, j :: !Overlaps(s, ts, i, k, j)
  }

  predicate WellRead(puts: seq<Put>) { forall m | 0 <= m < |puts| :: puts[m].at <= m }

  /** The puts whose descriptors are still there: the last one, the last one before its read, and so on. */
  function Chain(puts: seq<Put>): (c: seq<nat>)
    requires WellRead(puts)
    ensures |c| <= |puts| && (c == [] <==> puts == [])
    ensures forall i | 0 <= i < |c| :: c[i] < |puts| && puts[c[i]].at == if i == 0 then 0 else c[i - 1] + 1
    ensures puts != [] ==> c[|c| - 1] == |puts| - 1
    decreases |puts|
  {
    if puts == [] then []
    else Chain(puts[..puts[|puts| - 1].at]) + [|puts| - 1]
  }

  // Each put was read for just before it.
  predicate Prompt(puts: seq<Put>) { forall m | 0 <= m < |puts| :: puts[m].at == m }

  // The descriptors of some puts.
  function Pick(puts: seq<Put>, c: seq<nat>): (r: seq<Descriptor>)
    requires forall i | 0 <= i < |c| :: c[i] < |puts|
    ensures |r| == |c| && forall i | 0 <= i < |c| :: r[i] == puts[c[i]].desc
  {
    seq(|c|, i requires 0 <= i < |c| => puts[c[i]].desc)
  }

  function Built(list: seq<Descriptor>, puts: seq<Put>): seq<Descriptor>
    requires WellRead(puts)
  {
    list + Pick(puts, Chain(puts))
  }

  lemma BuiltMore(list: seq<Descriptor>, puts: seq<Put>, put: Put)
    requires WellRead(puts) && put.at <= |puts|
    ensures WellRead(puts + [put]) && Built(list, puts + [put]) == Built(list, puts[..put.at]) + [put.desc]
  {
    var more := puts + [put];
    assert more[..put.at] == puts[..put.at];
    var c := Chain(puts[..put.at]);
    assert Chain(more) == c + [|puts|];
    assert Pick(more, Chain(more)) == Pick(puts[..put.at], c) + [put.desc];
  }

  ghost predicate CallOk(s0: Refs, s: Refs, p: nat) {
    && p in s.calls && p in s0.calls && s.calls[p].desc == s0.calls[p].desc && WellRead(s.puts)
    && (s.calls[p].Putting? ==>
          s.calls[p].at <= |s.puts| && s.calls[p].seen == Built(s0.list, s.puts[..s.calls[p].at]))
  }

  // A put was made by a call that is done, and by no other put.
  ghost predicate PutsOk(s0: Refs, s: Refs) {
    && (forall m | 0 <= m < |s.puts| ::
          && s.puts[m].p in s.calls && s.puts[m].p in s0.calls
          && s.calls[s.puts[m].p].Done? && s.puts[m].desc == s0.calls[s.puts[m].p].desc)
    && (forall m, n | 0 <= m < n < |s.puts| :: s.puts[m].p != s.puts[n].p)
  }

  ghost predicate Inv(s0: Refs, s: Refs) {
    && s.calls.Keys == s0.calls.Keys && WellRead(s.puts)
    && s.list == Built(s0.list, s.puts)
    && (forall p | p in s.calls :: CallOk(s0, s, p))
    && PutsOk(s0, s)
  }

  lemma CallStays(s0: Refs, s: Refs, s': Refs, p: nat)
    requires Initial(s0) && WellRead(s.puts) && WellRead(s'.puts) && p in s.calls && p in s0.calls && CallOk(s0, s, p)
    requires s.puts <= s'.puts && p in s'.calls && s'.calls[p] == s.calls[p]
    ensures CallOk(s0, s', p)
  {
    if s.calls[p].Putting? {
      assert s'.puts[..s.calls[p].at] == s.puts[..s.calls[p].at];
    }
  }

  // What a step does besides moving its call on: nothing, or one put.
  lemma StepCalls(s0: Refs, s: Refs, s': Refs, p: nat)
    requires Initial(s0) && Inv(s0, s) && p in s.calls
    requires p in s'.calls && s'.calls == s.calls[p := s'.calls[p]] && s.puts <= s'.puts && WellRead(s'.puts) && CallOk(s0, s', p)
    ensures s'.calls.Keys == s0.calls.Keys && forall q | q in s'.calls :: CallOk(s0, s', q)
  {
    forall q | q in s'.calls ensures CallOk(s0, s', q) {
      assert CallOk(s0, s, q);
      if q != p {
        CallStays(s0, s, s', q);
      }
    }
  }

  lemma PutKeepsInv(s0: Refs, s: Refs, t: Turn)
    requires Initial(s0) && Inv(s0, s) && Puts(s, t)
    ensures Inv(s0, Step(s, t)) && s.puts <= Step(s, t).puts
  {
    var s' := Step(s, t);
    assert CallOk(s0, s, t.p);
    BuiltMore(s0.list, s.puts, Put(t.p, s.calls[t.p].desc, s.calls[t.p].at));
    StepCalls(s0, s, s', t.p);
    NewPut(s0, s, s', t.p);
  }

  lemma NewPut(s0: Refs, s: Refs, s': Refs, p: nat)
    requires Initial(s0) && s.calls.Keys == s0.calls.Keys && PutsOk(s0, s) && p in s.calls && s.calls[p].Putting?
    requires s'.calls == s.calls[p := Done(s.calls[p].desc)] && |s'.puts| == |s.puts| + 1 && s.puts <= s'.puts
    requires s'.puts[|s.puts|].p == p && s'.puts[|s.puts|].desc == s0.calls[p].desc
    ensures PutsOk(s0, s')
  {
  }

  lemma StepKeepsInv(s0: Refs, s: Refs, t: Turn)
    requires Initial(s0) && Inv(s0, s)
    ensures Inv(s0, Step(s, t)) && s.puts <= Step(s, t).puts
  {
    if Puts(s, t) {
      PutKeepsInv(s0, s, t);
    } else if t.p in s.calls {
      assert CallOk(s0, s, t.p);
      assert s.puts[..|s.puts|] == s.puts;
      assert Step(s, t).calls == s.calls[t.p := Step(s, t).calls[t.p]];
      StepCalls(s0, s, Step(s, t), t.p);
    }
  }

  lemma {:induction false} RunInv(s0: Refs, ts: seq<Turn>)
    requires Initial(s0)
    ensures Inv(s0, Run(s0, ts))
  {
    if ts != [] {
      RunInv(s0, ts[..|ts| - 1]);
      StepKeepsInv(s0, Run(s0, ts[..|ts| - 1]), ts[|ts| - 1]);
    } else {
      assert Built(s0.list, []) == s0.list;
    }
  }

  // Of distinct descriptors, those on the chain are there.
  lemma KeptOnChain(list: seq<Descriptor>, puts: seq<Put>, c: seq<nat>, m: nat)
    requires m < |puts| && forall i | 0 <= i < |c| :: c[i] < |puts|
    requires forall n | 0 <= n < |puts| :: puts[n].desc !in list
    requires forall n, k | 0 <= n < k < |puts| :: puts[n].desc != puts[k].desc
    ensures puts[m].desc in list + Pick(puts, c) <==> m in c
  {
    var picked := Pick(puts, c);
    if puts[m].desc in picked {
      var i :| 0 <= i < |picked| && picked[i] == puts[m].desc;
      assert c[i] == m;
    }
    if m in c {
      var i :| 0 <= i < |c| && c[i] == m;
      assert picked[i] == puts[m].desc;
    }
  }

  // With different descriptors, so are those of the puts.
  lemma FreshPuts(s0: Refs, s: Refs)
    requires Initial(s0) && Inv(s0, s) && Fresh(s0)
    ensures forall n | 0 <= n < |s.puts| :: s.puts[n].desc !in s0.list
    ensures forall n, k | 0 <= n < k < |s.puts| :: s.puts[n].desc != s.puts[k].desc
  {
  }

  /** Which referrers are there after any run: those the list began with, then those of the puts on the chain of
      reads that leads back from the last put, in order. */
  lemma ListExactly(s0: Refs, ts: seq<Turn>)
    requires Initial(s0)
    ensures var s := Run(s0, ts);
            WellRead(s.puts) && s.list == s0.list + Pick(s.puts, Chain(s.puts))
    ensures var s := Run(s0, ts);
            Fresh(s0) ==> forall m: nat | m < |s.puts| :: s.puts[m].desc in s.list <==> m in Chain(s.puts)
  {
    RunInv(s0, ts);
    var s := Run(s0, ts);
    if Fresh(s0) {
      FreshPuts(s0, s);
      forall m: nat | m < |s.puts| ensures s.puts[m].desc in s.list <==> m in Chain(s.puts) {
        KeptOnChain(s0.list, s.puts, Chain(s.puts), m);
      }
    }
  }

  // Between its read and its put a call waits with what it read.
  lemma {:induction false} Waits(s0: Refs, ts: seq<Turn>, i: nat, j: nat)
    requires Initial(s0) && i < j <= |ts| && Reads(Run(s0, ts[..i]), ts[i])
    requires ts[i].p in Run(s0, ts[..j]).calls && Run(s0, ts[..j]).calls[ts[i].p].Putting?
    ensures var si := Run(s0, ts[..i]);
            Run(s0, ts[..j]).calls[ts[i].p] == Putting(si.calls[ts[i].p].desc, si.list, |si.puts|)
    decreases j - i
  {
    assert ts[..j][..j - 1] == ts[..j - 1];
    if j > i + 1 {
      var before := Run(s0, ts[..j - 1]);
      assert Run(s0, ts[..j]) == Step(before, ts[j - 1]);
      assert ts[j - 1].p != ts[i].p || before.calls[ts[i].p].Reading?;
      if ts[j - 1].p == ts[i].p {
        StillReading(s0, ts, i, j - 1);
        assert false;
      }
      Waits(s0, ts, i, j - 1);
    }
  }

  // A call that has read is never reading again.
  lemma {:induction false} StillReading(s0: Refs, ts: seq<Turn>, i: nat, j: nat)
    requires i < j <= |ts| && Reads(Run(s0, ts[..i]), ts[i])
    ensures ts[i].p in Run(s0, ts[..j]).calls && !Run(s0, ts[..j]).calls[ts[i].p].Reading?
    decreases j - i
  {
    assert ts[..j][..j - 1] == ts[..j - 1];
    if j > i + 1 {
      StillReading(s0, ts, i, j - 1);
    }
  }

  // A turn makes one put or none.
  lemma OnePut(s: Refs, t: Turn)
    ensures s.puts <= Step(s, t).puts && |Step(s, t).puts| == |s.puts| + if Puts(s, t) then 1 else 0
  {
  }

  // The puts made by turns i..j.
  lemma {:induction false} PutsGrow(s0: Refs, ts: seq<Turn>, i: nat, j: nat)
    requires i <= j <= |ts|
    ensures Run(s0, ts[..i]).puts <= Run(s0, ts[..j]).puts
    ensures Run(s0, ts[..i]).puts == Run(s0, ts[..j]).puts <==> forall k | i <= k < j :: !Puts(Run(s0, ts[..k]), ts[k])
    decreases j - i
  {
    if i < j {
      PutsGrow(s0, ts, i, j - 1);
      assert ts[..j][..j - 1] == ts[..j - 1];
      var first, before, after := Run(s0, ts[..i]).puts, Run(s0, ts[..j - 1]), Run(s0, ts[..j]).puts;
      OnePut(before, ts[j - 1]);
      assert after == Step(before, ts[j - 1]).puts;
      assert first == after <==> |first| == |after|;
      assert first == before.puts <==> |first| == |before.puts|;
    }
  }

  // A call that is putting has read.
  lemma {:induction false} HasRead(s0: Refs, ts: seq<Turn>, p: nat) returns (i: nat)
    requires Initial(s0) && p in Run(s0, ts).calls && Run(s0, ts).calls[p].Putting?
    ensures i < |ts| && ts[i].p == p && Reads(Run(s0, ts[..i]), ts[i])
  {
    var n := |ts| - 1;
    var before := Run(s0, ts[..n]);
    if ts[n].p == p && Reads(before, ts[n]) {
      i := n;
    } else {
      i := HasRead(s0, ts[..n], p);
      assert ts[..n][..i] == ts[..i];
    }
  }

  // The list has changed when it has been put, and different descriptors show it.
  lemma BuiltApart(list: seq<Descriptor>, puts: seq<Put>, n: nat)
    requires WellRead(puts) && n < |puts|
    requires forall k | 0 <= k < |puts| :: puts[k].desc !in list
    requires forall m, k | 0 <= m < k < |puts| :: puts[m].desc != puts[k].desc
    ensures Built(list, puts[..n]) != Built(list, puts)
  {
    var last := |puts| - 1;
    KeptOnChain(list, puts, Chain(puts), last);
    assert Chain(puts)[|Chain(puts)| - 1] == last;
    assert puts[last].desc in Built(list, puts);
    var c := Chain(puts[..n]);
    assert Pick(puts[..n], c) == Pick(puts, c);
    KeptOnChain(list, puts, c, last);
  }

  /** A call that reads at turn i and puts at turn j leaves the list as it stood just before that put plus its
      descriptor if no other put came in between; with different descriptors, only then. */
  lemma KeptExactly(s0: Refs, ts: seq<Turn>, i: nat, j: nat)
    requires Initial(s0) && i < j < |ts| && ts[i].p == ts[j].p
    requires Reads(Run(s0, ts[..i]), ts[i]) && Puts(Run(s0, ts[..j]), ts[j])
    ensures var before := Run(s0, ts[..j]);
            var desc := before.calls[ts[j].p].desc;
            var kept, alone := Step(before, ts[j]).list == before.list + [desc],
                               forall k | i < k < j :: !Puts(Run(s0, ts[..k]), ts[k]);
            (alone ==> kept) && (Fresh(s0) && kept ==> alone)
  {
    var si, sj := Run(s0, ts[..i]), Run(s0, ts[..j]);
    RunInv(s0, ts[..i]);
    RunInv(s0, ts[..j]);
    assert CallOk(s0, si, ts[i].p);
    Waits(s0, ts, i, j);
    PutsGrow(s0, ts, i, j);
    assert !Puts(si, ts[i]);
    if Fresh(s0) && si.puts != sj.puts {
      FreshPuts(s0, sj);
      assert sj.puts[..|si.puts|] == si.puts && |si.puts| < |sj.puts|;
      BuiltApart(s0.list, sj.puts, |si.puts|);
      var desc := sj.calls[ts[j].p].desc;
      assert (si.list + [desc])[..|si.list|] == si.list && (sj.list + [desc])[..|sj.list|] == sj.list;
    }
  }

  lemma {:induction false} ChainLength(puts: seq<Put>)
    requires WellRead(puts)
    ensures |Chain(puts)| == |puts| <==> Prompt(puts)
    decreases |puts|
  {
    if puts != [] {
      var at := puts[|puts| - 1].at;
      ChainLength(puts[..at]);
      if at == |puts| - 1 {
        assert forall m | 0 <= m < at :: puts[..at][m] == puts[m];
      }
    }
  }

  // Every put was read at by a turn, and made by a later one.
  lemma {:induction false} PutTurns(s0: Refs, ts: seq<Turn>, m: nat) returns (i: nat, j: nat)
    requires Initial(s0) && m < |Run(s0, ts).puts|
    ensures i < j < |ts| && ts[i].p == ts[j].p
    ensures Reads(Run(s0, ts[..i]), ts[i]) && Puts(Run(s0, ts[..j]), ts[j])
    ensures |Run(s0, ts[..j]).puts| == m && |Run(s0, ts[..i]).puts| == Run(s0, ts).puts[m].at
  {
    var n := |ts| - 1;
    var before := Run(s0, ts[..n]);
    if m < |before.puts| {
      i, j := PutTurns(s0, ts[..n], m);
      assert ts[..n][..i] == ts[..i] && ts[..n][..j] == ts[..j];
    } else {
      j := n;
      i := HasRead(s0, ts[..n], ts[n].p);
      assert ts[..n][..i] == ts[..i];
      Waits(s0, ts, i, n);
    }
  }

  lemma PutPrompt(s0: Refs, ts: seq<Turn>, m: nat)
    requires Initial(s0) && NoOverlap(s0, ts) && m < |Run(s0, ts).puts|
    ensures Run(s0, ts).puts[m].at == m
  {
    var i, j := PutTurns(s0, ts, m);
    assert !Puts(Run(s0, ts[..i]), ts[i]);
    forall k | i < k < j ensures !Puts(Run(s0, ts[..k]), ts[k]) {
      assert !Overlaps(s0, ts, i, k, j);
    }
    PutsGrow(s0, ts, i, j);
  }

  /** The history says it too: no overlap means that each put was read for just before it. */
  lemma OverlapHistory(s0: Refs, ts: seq<Turn>)
    requires Initial(s0)
    ensures NoOverlap(s0, ts) <==> Prompt(Run(s0, ts).puts)
  {
    var puts := Run(s0, ts).puts;
    if NoOverlap(s0, ts) {
      forall m: nat | m < |puts| ensures puts[m].at == m {
        PutPrompt(s0, ts, m);
      }
    }
    if Prompt(puts) {
      forall i: nat, k: nat, j: nat | i < k < j < |ts| ensures !Overlaps(s0, ts, i, k, j) {
        if Overlaps(s0, ts, i, k, j) {
          Overlapping(s0, ts, i, k, j);
          assert false;
        }
      }
    }
  }

  // An overlap shows in the history.
  lemma Overlapping(s0: Refs, ts: seq<Turn>, i: nat, k: nat, j: nat)
    requires Initial(s0) && i < k < j < |ts| && Overlaps(s0, ts, i, k, j)
    ensures !Prompt(Run(s0, ts).puts)
  {
    Waits(s0, ts, i, j);
    PutAtTurn(s0, ts, j);
    var m := |Run(s0, ts[..j]).puts|;
    assert Run(s0, ts[..i]).puts != Run(s0, ts[..j]).puts && Run(s0, ts[..i]).puts <= Run(s0, ts[..j]).puts by {
      PutsGrow(s0, ts, i, j);
    }
    assert Run(s0, ts).puts[m].at != m;
  }

  // The put made at turn j, in the history.
  lemma PutAtTurn(s0: Refs, ts: seq<Turn>, j: nat)
    requires j < |ts| && Puts(Run(s0, ts[..j]), ts[j])
    ensures var before := Run(s0, ts[..j]);
            var m := |before.puts|;
            && m < |Run(s0, ts).puts| && Run(s0, ts).puts[m].at == before.calls[ts[j].p].at
            && Run(s0, ts).puts[m].desc == before.calls[ts[j].p].desc
  {
    PutsGrow(s0, ts, j + 1, |ts|);
    assert ts[..j + 1][..j] == ts[..j] && ts[..|ts|] == ts;
    assert Run(s0, ts[..j + 1]) == Step(Run(s0, ts[..j]), ts[j]);
  }

  /** Every put adds one referrer to the list exactly when no call's put falls between another's read and put. */
  lemma CountExactly(s0: Refs, ts: seq<Turn>)
    requires Initial(s0)
    ensures var s := Run(s0, ts);
            |s.list| == |s0.list| + |s.puts| <==> NoOverlap(s0, ts)
  {
    RunInv(s0, ts);
    OverlapHistory(s0, ts);
    ChainLength(Run(s0, ts).puts);
  }

  // A list of all numbers below n has at least n of them.
  lemma AllNumbers(c: seq<nat>, n: nat)
    requires forall m: nat | m < n :: m in c
    ensures |c| >= n
  {
    Listed(c);
    Fewer(Range(0, n), Elements(c));
  }

  function Elements(c: seq<nat>): set<nat> { set m | m in c }

  lemma {:induction false} Listed(c: seq<nat>)
    ensures |Elements(c)| <= |c|
  {
    if c == [] {
      assert Elements(c) == {};
    } else {
      Listed(c[1..]);
      assert Elements(c) == {c[0]} + Elements(c[1..]) by {
        forall m ensures m in c <==> m == c[0] || m in c[1..] {
          assert c == [c[0]] + c[1..];
        }
      }
    }
  }

  lemma {:induction false} WholeChain(puts: seq<Put>)
    requires WellRead(puts) && Prompt(puts)
    ensures |Chain(puts)| == |puts| && forall m: nat | m < |puts| :: Chain(puts)[m] == m
  {
    if puts != [] {
      WholeChain(puts[..|puts| - 1]);
    }
  }

  // All puts are on the chain exactly when each was read for just before it.
  lemma ChainWhole(puts: seq<Put>)
    requires WellRead(puts)
    ensures (forall m: nat | m < |puts| :: m in Chain(puts)) <==> Prompt(puts)
  {
    ChainLength(puts);
    if forall m: nat | m < |puts| :: m in Chain(puts) {
      AllNumbers(Chain(puts), |puts|);
    }
    if Prompt(puts) {
      WholeChain(puts);
      forall m: nat | m < |puts| ensures m in Chain(puts) {
        assert Chain(puts)[m] == m;
      }
    }
  }

  /** No referrer is lost exactly when no call's put falls between another's read and put. */
  lemma AllKeptExactly(s0: Refs, ts: seq<Turn>)
    requires Initial(s0) && Fresh(s0)
    ensures var s := Run(s0, ts);
            (forall m: nat | m < |s.puts| :: s.puts[m].desc in s.list) <==> NoOverlap(s0, ts)
  {
    ListExactly(s0, ts);
    OverlapHistory(s0, ts);
    ChainWhole(Run(s0, ts).puts);
  }

  /** The list is what it began with and the descriptors of all puts, in order. */
  predicate InOrder(list0: seq<Descriptor>, puts: seq<Put>, list: seq<Descriptor>) {
    && |list| == |list0| + |puts| && list0 <= list
    && forall m | 0 <= m < |puts| :: list[|list0| + m] == puts[m].desc
  }

  /** And then they are all there in the order of the puts. */
  lemma InPutOrder(s0: Refs, ts: seq<Turn>)
    requires Initial(s0) && NoOverlap(s0, ts)
    ensures InOrder(s0.list, Run(s0, ts).puts, Run(s0, ts).list)
  {
    RunInv(s0, ts);
    OverlapHistory(s0, ts);
    WholeChain(Run(s0, ts).puts);
  }

  // A put that was made since the last one's read is not on the chain.
  lemma NotOnChain(puts: seq<Put>, m: nat)
    requires WellRead(puts) && m < |puts| - 1 && puts[|puts| - 1].at <= m
    ensures m !in Chain(puts)
  {
    var c := Chain(puts[..puts[|puts| - 1].at]);
    assert Chain(puts) == c + [|puts| - 1];
  }

  lemma GoneAfter(s0: Refs, s: Refs, m: nat)
    requires Initial(s0) && Fresh(s0) && Inv(s0, s) && m < |s.puts| - 1 && s.puts[|s.puts| - 1].at <= m
    ensures s.puts[m].desc !in s.list
  {
    FreshPuts(s0, s);
    KeptOnChain(s0.list, s.puts, Chain(s.puts), m);
    NotOnChain(s.puts, m);
  }

  // The puts of turns k and j, j > k, after turn j.
  lemma PutsInOrder(s0: Refs, ts: seq<Turn>, k: nat, j: nat)
    requires k < j < |ts| && Puts(Run(s0, ts[..k]), ts[k]) && Puts(Run(s0, ts[..j]), ts[j])
    ensures var sk, sj, puts := Run(s0, ts[..k]), Run(s0, ts[..j]), Run(s0, ts[..j + 1]).puts;
            && |sk.puts| < |sj.puts| == |puts| - 1
            && puts[|sk.puts|].desc == sk.calls[ts[k].p].desc && puts[|sj.puts|].at == sj.calls[ts[j].p].at
  {
    assert ts[..j][..k] == ts[..k] && ts[..j + 1][..j] == ts[..j];
    PutAtTurn(s0, ts[..j], k);
    assert Run(s0, ts[..j + 1]) == Step(Run(s0, ts[..j]), ts[j]);
  }

  /** The referrer of a put that falls between a call's read and put is gone after that call's put. */
  lemma OverlapLoses(s0: Refs, ts: seq<Turn>, i: nat, k: nat, j: nat)
    requires Initial(s0) && Fresh(s0) && i < k < j < |ts| && Overlaps(s0, ts, i, k, j)
    ensures Run(s0, ts[..k]).calls[ts[k].p].desc !in Run(s0, ts[..j + 1]).list
  {
    Waits(s0, ts, i, j);
    PutsInOrder(s0, ts, k, j);
    RunInv(s0, ts[..j + 1]);
    assert |Run(s0, ts[..i]).puts| <= |Run(s0, ts[..k]).puts| by { PutsGrow(s0, ts, i, k); }
    GoneAfter(s0, Run(s0, ts[..j + 1]), |Run(s0, ts[..k]).puts|);
  }
}
