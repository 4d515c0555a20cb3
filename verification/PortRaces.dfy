/**
 * Concurrent starts on a runner (ctf-runner/service/runner.go): selectPort looks at the bitmap of used ports one by
 * one and marks the first free one, with no lock, while other starts do the same.
 */
module PortRaces {
  // Where a start is: looking for a free port, about to mark the one it saw, done. looks holds the times at which it
  // looked at ports 0, 1, ...
  datatype Pc = Scan(looks: seq<nat>) | Mark(looks: seq<nat>) | Has(looks: seq<nat>) | NoPort(looks: seq<nat>)

  // marked is history: when each port was first marked. now counts the steps.
  datatype State = State(used: seq<bool>, procs: map<nat, Pc>, now: nat, marked: map<nat, nat>)

  // The port a start saw free: the one it looked at last.
  function Port(pc: Pc): int { |pc.looks| - 1 }

  function Turn(s: State, p: nat): State {
    if p !in s.procs then s
    else
      var pc, s' := s.procs[p], s.(now := s.now + 1);
      match pc
      case Scan(looks) =>
        if |looks| >= |s.used| then s'.(procs := s.procs[p := NoPort(looks)])
        else s'.(procs := s.procs[p := if s.used[|looks|] then Scan(looks + [s.now]) else Mark(looks + [s.now])])
      case Mark(looks) =>
        var x := Port(pc);
        if !(0 <= x < |s.used|) then s
        else
          s'.(used := s.used[x := true], procs := s.procs[p := Has(looks)],
              marked := if x in s.marked then s.marked else s.marked[x := s.now])
      case _ => s
  }

  /** A start that has not ended goes on. */
  lemma NeverStuck(s: State, p: nat)
    requires p in s.procs && (s.procs[p].Scan? || (s.procs[p].Mark? && 0 <= Port(s.procs[p]) < |s.used|))
    ensures var pc := Turn(s, p).procs[p];
            pc != s.procs[p] && (s.procs[p].Scan? && |s.procs[p].looks| >= |s.used| ==> pc.NoPort?)
  {
  }

  function Run(s: State, ts: seq<nat>): State {
    if ts == [] then s else Turn(Run(s, ts[..|ts| - 1]), ts[|ts| - 1])
  }

  /** Any number of starts, none of which has looked yet, on a bitmap in any state. */
  predicate Initial(s: State) { s.marked == map[] && forall p | p in s.procs :: s.procs[p] == Scan([]) }

  /** The start looked at this port before it was first marked. */
  predicate SawFree(marked: map<nat, nat>, pc: Pc, x: nat) {
    x < |pc.looks| && (x in marked ==> pc.looks[x] < marked[x])
  }

  // The port was in use before any of these starts.
  predicate Taken(used: seq<bool>, x: nat) { x < |used| && used[x] }

  ghost predicate PcOk(used: seq<bool>, marked: map<nat, nat>, now: nat, pc: Pc) {
    && |pc.looks| <= |used|
    && (forall j | 0 <= j < |pc.looks| :: pc.looks[j] < now && (j in marked ==> pc.looks[j] != marked[j]))
    && (forall j: nat :: SawFree(marked, pc, j) && !Taken(used, j) ==> j == Port(pc) && (pc.Mark? || pc.Has?))
    && (pc.Mark? || pc.Has? ==> pc.looks != [] && SawFree(marked, pc, Port(pc)) && !Taken(used, Port(pc)))
    && (pc.Has? ==> Port(pc) in marked)
    && (pc.NoPort? ==> |pc.looks| == |used|)
  }

  ghost predicate BitsOk(s0: State, s: State) {
    && |s.used| == |s0.used|
    && (forall x | x in s.marked :: x < |s.used| && !Taken(s0.used, x) && s.marked[x] < s.now)
    && (forall x: nat | x < |s.used| :: s.used[x] <==> Taken(s0.used, x) || x in s.marked)
  }

  ghost predicate Inv(s0: State, s: State) {
    BitsOk(s0, s) && forall p | p in s.procs :: PcOk(s0.used, s.marked, s.now, s.procs[p])
  }

  // A start that does nothing while the time passes and maybe a port is marked for the first time.
  lemma OtherOk(used: seq<bool>, marked: map<nat, nat>, marked': map<nat, nat>, now: nat, x: nat, pc: Pc)
    requires PcOk(used, marked, now, pc)
    requires marked' == marked || (x !in marked && marked' == marked[x := now])
    ensures PcOk(used, marked', now + 1, pc)
  {
    assert forall j: nat :: SawFree(marked', pc, j) <==> SawFree(marked, pc, j);
  }

  // A start that looks at its next port.
  lemma LookOk(used: seq<bool>, marked: map<nat, nat>, now: nat, looks: seq<nat>)
    requires PcOk(used, marked, now, Scan(looks)) && |looks| < |used|
    requires forall x | x in marked :: marked[x] < now
    ensures PcOk(used, marked, now + 1,
                 if Taken(used, |looks|) || |looks| in marked then Scan(looks + [now]) else Mark(looks + [now]))
  {
    var more := looks + [now];
    assert forall j: nat | j < |looks| :: more[j] == looks[j];
    assert forall j: nat | j < |looks| :: SawFree(marked, Scan(more), j) <==> SawFree(marked, Scan(looks), j);
    assert forall j: nat | j < |looks| :: SawFree(marked, Mark(more), j) <==> SawFree(marked, Scan(looks), j);
  }

  lemma MarkOk(used: seq<bool>, marked: map<nat, nat>, now: nat, looks: seq<nat>)
    requires PcOk(used, marked, now, Mark(looks))
    ensures var x := |looks| - 1;
            PcOk(used, if x in marked then marked else marked[x := now], now + 1, Has(looks))
  {
    var x: nat := |looks| - 1;
    var marked' := if x in marked then marked else marked[x := now];
    assert forall j: nat :: SawFree(marked', Has(looks), j) <==> SawFree(marked, Mark(looks), j);
  }

  lemma BitsStep(s0: State, s: State, p: nat)
    requires BitsOk(s0, s) && p in s.procs && PcOk(s0.used, s.marked, s.now, s.procs[p])
    ensures BitsOk(s0, Turn(s, p))
  {
  }

  // The start that takes the step.
  lemma OwnStep(s0: State, s: State, p: nat)
    requires BitsOk(s0, s) && p in s.procs && PcOk(s0.used, s.marked, s.now, s.procs[p])
    ensures var s' := Turn(s, p); PcOk(s0.used, s'.marked, s'.now, s'.procs[p])
  {
    var pc := s.procs[p];
    if pc.Scan? && |pc.looks| < |s.used| {
      LookOk(s0.used, s.marked, s.now, pc.looks);
    } else if pc.Scan? {
      OtherOk(s0.used, s.marked, s.marked, s.now, 0, pc);
    } else if pc.Mark? {
      MarkOk(s0.used, s.marked, s.now, pc.looks);
    }
  }

  // What a step does to the times the others rely on.
  lemma TurnTimes(s: State, p: nat) returns (x: nat)
    ensures var s' := Turn(s, p);
            && (s' == s || s'.now == s.now + 1) && s'.procs.Keys == s.procs.Keys
            && (forall q | q in s.procs && q != p :: s'.procs[q] == s.procs[q])
            && (s'.marked == s.marked || (x !in s.marked && s'.marked == s.marked[x := s.now]))
  {
    x := if p in s.procs && |s.procs[p].looks| > 0 then |s.procs[p].looks| - 1 else 0;
  }

  lemma TurnKeepsInv(s0: State, s: State, p: nat)
    requires Inv(s0, s)
    ensures Inv(s0, Turn(s, p))
  {
    var s' := Turn(s, p);
    if p in s.procs && s' != s {
      BitsStep(s0, s, p);
      OwnStep(s0, s, p);
      var x := TurnTimes(s, p);
      forall q | q in s'.procs ensures PcOk(s0.used, s'.marked, s'.now, s'.procs[q]) {
        if q != p {
          OtherOk(s0.used, s.marked, s'.marked, s.now, x, s.procs[q]);
        }
      }
    }
  }

  lemma {:induction false} RunInv(s0: State, ts: seq<nat>)
    requires Initial(s0)
    ensures Inv(s0, Run(s0, ts))
  {
    if ts != [] {
      RunInv(s0, ts[..|ts| - 1]);
      TurnKeepsInv(s0, Run(s0, ts[..|ts| - 1]), ts[|ts| - 1]);
    }
  }

  /** Over every interleaving: a start that has its port has a given one exactly when it looked at that port before
      any start had marked it. */
  lemma PortExactly(s0: State, ts: seq<nat>, p: nat, x: nat)
    requires Initial(s0)
    requires var s := Run(s0, ts); p in s.procs && s.procs[p].Has? && x in s.marked
    ensures var s := Run(s0, ts);
            Port(s.procs[p]) == x <==> SawFree(s.marked, s.procs[p], x)
  {
    RunInv(s0, ts);
    var s := Run(s0, ts);
    assert PcOk(s0.used, s.marked, s.now, s.procs[p]);
  }

  /** So two starts are given one port exactly when both looked at the port of one of them before it was first marked:
      a start that looks later never shares it. */
  lemma SharedExactly(s0: State, ts: seq<nat>, p: nat, q: nat)
    requires Initial(s0)
    requires var s := Run(s0, ts); p in s.procs && q in s.procs && s.procs[p].Has? && s.procs[q].Has?
    ensures var s := Run(s0, ts);
            && Port(s.procs[p]) >= 0 && SawFree(s.marked, s.procs[p], Port(s.procs[p]))
            && (Port(s.procs[p]) == Port(s.procs[q]) <==> SawFree(s.marked, s.procs[q], Port(s.procs[p])))
  {
    RunInv(s0, ts);
    var s := Run(s0, ts);
    assert PcOk(s0.used, s.marked, s.now, s.procs[p]);
    PortExactly(s0, ts, q, Port(s.procs[p]));
  }

  /** A start is turned away exactly when it found every port used: before it looked, or marked before it looked. */
  lemma TurnedAway(s0: State, ts: seq<nat>, p: nat)
    requires Initial(s0)
    requires var s := Run(s0, ts); p in s.procs && s.procs[p].NoPort?
    ensures var s := Run(s0, ts);
            forall x: nat | x < |s0.used| ::
              x < |s.procs[p].looks| && (s0.used[x] || (x in s.marked && s.marked[x] < s.procs[p].looks[x]))
  {
    RunInv(s0, ts);
    var s := Run(s0, ts);
    assert PcOk(s0.used, s.marked, s.now, s.procs[p]);
    forall x: nat | x < |s0.used|
      ensures x < |s.procs[p].looks| && (s0.used[x] || (x in s.marked && s.marked[x] < s.procs[p].looks[x]))
    {
      assert !Taken(s0.used, x) ==> !SawFree(s.marked, s.procs[p], x);
    }
  }

  /** Two starts that look before either marks: both get the first port, although another is free. */
  lemma TwoStartsOnePort(s: State)
    requires s == State([false, false], map[0 := Scan([]), 1 := Scan([])], 0, map[])
    ensures Run(s, [0, 1, 0, 1]).procs == map[0 := Has([0]), 1 := Has([1])]
    ensures Run(s, [0, 1, 0, 1]).used == [true, false]
  {
    assert [0, 1, 0, 1][..3] == [0, 1, 0] && [0, 1, 0][..2] == [0, 1] && [0, 1][..1] == [0];
    assert [] + [0] == [0] && [] + [1] == [1];
    var s1 := Run(s, [0]);
    assert s1 == State([false, false], map[0 := Mark([0]), 1 := Scan([])], 1, map[]);
    var s2 := Run(s, [0, 1]);
    assert s2 == State([false, false], map[0 := Mark([0]), 1 := Mark([1])], 2, map[]);
    var s3 := Run(s, [0, 1, 0]);
    assert s3 == State([true, false], map[0 := Has([0]), 1 := Mark([1])], 3, map[0 := 2]);
  }
}
