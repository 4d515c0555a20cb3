/**
 * The runner's host ports and containers (ctf-runner/service/runner.go): a bitmap of used ports kept beside
 * Docker's containers, which may exit on their own and whose calls may fail.
 */
module RunnerPorts {
  import opened Common

  type Cid = string

  // Docker reports the port binding of a container only while it runs.
  datatype Phase = Created | Running | Exited

  datatype Container = Container(port: nat, phase: Phase)

  // lost is history: the used ports no container has.
  datatype State = State(min: nat, used: seq<bool>, containers: map<Cid, Container>, lost: set<nat>)

  datatype Reply = Success | Started(id: Cid, port: nat) | Failed

  /** One request with the outcome of each Docker call it makes, or a container exiting on its own. */
  datatype Action =
    | Start(id: Cid, pull: Choice, create: Choice, start: Choice, exits: bool, inspect: Choice)
    | Stop(id: Cid, stop: Choice)
    | Destroy(id: Cid, inspect: Choice, remove: Choice)
    | Exit(id: Cid)

  predicate Applied(c: Choice) { c.Ok? || c.FailApplied? }

  /** The least free index, or the length when all are used. */
  function Least(used: seq<bool>): (i: nat)
    ensures i <= |used| && (i < |used| ==> !used[i])
    ensures forall j | 0 <= j < i :: used[j]
  {
    if used == [] || !used[0] then 0 else 1 + Least(used[1..])
  }

  /** Ports outside the range are ignored. */
  function Free(s: State, port: nat): State {
    if s.min <= port < s.min + |s.used| then s.(used := s.used[port - s.min := false]) else s
  }

  // StartInstance once port number i is taken: it is never given back.
  function Run(s: State, i: nat, a: Action): (State, Reply)
    requires a.Start? && i < |s.used|
  {
    var port := s.min + i;
    var s1 := s.(used := s.used[i := true]);
    if !Applied(a.create) then (s1.(lost := s1.lost + {port}), Failed)
    else
      var phase := if !a.create.Ok? || !Applied(a.start) then Created else if a.exits then Exited else Running;
      (s1.(containers := s1.containers[a.id := Container(port, phase)]),
       if a.create.Ok? && a.start.Ok? && a.inspect.Ok? then Started(a.id, if phase.Running? then port else 0) else Failed)
  }

  function Step(s: State, a: Action): (State, Reply) {
    match a
    case Start(id, pull, _, _, _, _) =>
      var i := Least(s.used);
      if id in s.containers || !pull.Ok? || i == |s.used| then (s, Failed) else Run(s, i, a)
    case Stop(id, stop) =>
      if id !in s.containers then (s, Failed)
      else
        var c := s.containers[id];
        (if Applied(stop) && c.phase.Running? then s.(containers := s.containers[id := c.(phase := Exited)]) else s,
         if stop.Ok? then Success else Failed)
    case Destroy(id, inspect, remove) =>
      if !inspect.Ok? || id !in s.containers then (s, Failed)
      else
        var c := s.containers[id];
        var s1 := if c.phase.Running? then Free(s, c.port) else s;
        (if !Applied(remove) then s1
         else s1.(containers := s1.containers - {id}, lost := if c.phase.Running? then s1.lost else s1.lost + {c.port}),
         if remove.Ok? then Success else Failed)
    case Exit(id) =>
      (if id in s.containers && s.containers[id].phase.Running?
       then s.(containers := s.containers[id := s.containers[id].(phase := Exited)])
       else s,
       Success)
  }

  class Runner {
    const minPort: nat
    const maxPort: nat
    var usedPorts: array<bool>
    var containers: map<Cid, Container>
    ghost var lost: set<nat>

    // A minimum of 0 would let Docker choose the port.
    ghost predicate Valid() reads this { 1 <= minPort <= maxPort + 1 && usedPorts.Length == maxPort + 1 - minPort }

    ghost function View(): State reads this, usedPorts { State(minPort, usedPorts[..], containers, lost) }

    constructor (min: nat, max: nat)
      requires 1 <= min <= max + 1
      ensures Valid() && fresh(usedPorts) && minPort == min && maxPort == max
      ensures View() == State(min, seq(max + 1 - min, _ => false), map[], {})
    {
      minPort, maxPort, containers, lost := min, max, map[], {};
      usedPorts := new bool[max + 1 - min](_ => false);
    }

    /** selectPort: the least free port, and none exactly when all are used. */
    method SelectPort() returns (port: Option<nat>)
      requires Valid()
      modifies usedPorts
      ensures port.None? <==> forall i | 0 <= i < usedPorts.Length :: old(usedPorts[..])[i]
      ensures port.None? ==> Least(old(usedPorts[..])) == usedPorts.Length && usedPorts[..] == old(usedPorts[..])
      ensures port.Some? ==>
                var i := port.value - minPort;
                && i == Least(old(usedPorts[..])) < usedPorts.Length
                && usedPorts[..] == old(usedPorts[..])[i := true]
    {
      ghost var used := usedPorts[..];
      var i := 0;
      while i < usedPorts.Length
        invariant 0 <= i <= usedPorts.Length && usedPorts[..] == used
        invariant forall j | 0 <= j < i :: used[j]
      {
        if !usedPorts[i] {
          usedPorts[i] := true;
          return Some(i + minPort);
        }
        i := i + 1;
      }
      port := None;
    }

    method FreePort(port: nat)
      requires Valid()
      modifies usedPorts
      ensures View() == Free(old(View()), port)
      ensures usedPorts[..] == if minPort <= port <= maxPort then old(usedPorts[..])[port - minPort := false]
                               else old(usedPorts[..])
    {
      if port < minPort || port > maxPort {
        return;
      }
      usedPorts[port - minPort] := false;
    }

    method StartInstance(id: Cid, pull: Choice, create: Choice, start: Choice, exits: bool, inspect: Choice)
      returns (r: Reply)
      requires Valid() && id !in containers
      modifies this`containers, this`lost, usedPorts
      ensures Valid() && usedPorts == old(usedPorts)
      ensures (View(), r) == Step(old(View()), Start(id, pull, create, start, exits, inspect))
      ensures r.Started? ==> id in containers && r.id == id && r.port in {containers[id].port, 0}
      ensures r.Started? ==> (r.port == 0 <==> exits)
      ensures !pull.Ok? || (forall j | 0 <= j < usedPorts.Length :: old(usedPorts[..])[j]) ==>
                r == Failed && containers == old(containers) && usedPorts[..] == old(usedPorts[..])
      ensures forall i | 0 <= i < usedPorts.Length && !old(usedPorts[..])[i] && (forall j | 0 <= j < i :: old(usedPorts[..])[j]) ::
                pull.Ok? ==>
                  && usedPorts[..] == old(usedPorts[..])[i := true]
                  && containers == (if !create.Ok? && !create.FailApplied? then old(containers)
                                    else old(containers)[id := Container(minPort + i,
                                      if !create.Ok? || (!start.Ok? && !start.FailApplied?) then Created
                                      else if exits then Exited else Running)])
                  && r == (if create.Ok? && start.Ok? && inspect.Ok? then Started(id, if exits then 0 else minPort + i)
                           else Failed)
    {
      if !pull.Ok? {
        return Failed;
      }
      ghost var used := usedPorts[..];
      var port := SelectPort();
      if port.None? {
        return Failed;
      }
      if !Applied(create) {
        lost := lost + {port.value};
        return Failed;
      }
      containers := containers[id := Container(port.value, Created)];
      if !create.Ok? {
        return Failed;
      }
      if Applied(start) {
        containers := containers[id := Container(port.value, if exits then Exited else Running)];
      }
      assert containers == old(containers)[id := containers[id]];
      if !start.Ok? || !inspect.Ok? {
        return Failed;
      }
      var hostPort := 0;
      if containers[id].phase.Running? {
        hostPort := containers[id].port;
      }
      r := Started(id, hostPort);
    }

    method StopInstance(id: Cid, stop: Choice) returns (r: Reply)
      requires Valid()
      modifies this`containers
      ensures Valid() && (View(), r) == Step(old(View()), Stop(id, stop))
      ensures r.Success? ==> id in containers && !containers[id].phase.Running?
      ensures r == if id in old(containers) && stop.Ok? then Success else Failed
      ensures containers == if id in old(containers) && old(containers)[id].phase.Running? && (stop.Ok? || stop.FailApplied?)
                            then old(containers)[id := Container(old(containers)[id].port, Exited)] else old(containers)
    {
      if id !in containers {
        return Failed;
      }
      if Applied(stop) && containers[id].phase.Running? {
        containers := containers[id := containers[id].(phase := Exited)];
      }
      r := if stop.Ok? then Success else Failed;
    }

    /** DestroyInstance: the port is freed before the container is removed, and only if it was running. */
    method DestroyInstance(id: Cid, inspect: Choice, remove: Choice) returns (r: Reply)
      requires Valid()
      modifies this`containers, this`lost, usedPorts
      ensures Valid() && usedPorts == old(usedPorts) && (View(), r) == Step(old(View()), Destroy(id, inspect, remove))
      ensures r.Success? ==> id !in containers
      ensures var found := inspect.Ok? && id in old(containers);
              && r == (if found && remove.Ok? then Success else Failed)
              && containers == (if found && (remove.Ok? || remove.FailApplied?) then old(containers) - {id} else old(containers))
              && usedPorts[..] == (if found && old(containers)[id].phase.Running? && minPort <= old(containers)[id].port <= maxPort
                                   then old(usedPorts[..])[old(containers)[id].port - minPort := false]
                                   else old(usedPorts[..]))
    {
      if !inspect.Ok? || id !in containers {
        return Failed;
      }
      var c := containers[id];
      if c.phase.Running? {
        FreePort(c.port);
      }
      if Applied(remove) {
        containers := containers - {id};
        lost := if c.phase.Running? then lost else lost + {c.port};
      }
      r := if remove.Ok? then Success else Failed;
    }
  }

  // Runs of the runner, one request at a time.
  function Exec(s: State, acts: seq<Action>): State {
    if acts == [] then s else Step(Exec(s, acts[..|acts| - 1]), acts[|acts| - 1]).0
  }

  predicate Used(s: State, port: nat) { s.min <= port < s.min + |s.used| && s.used[port - s.min] }

  ghost predicate Held(s: State, port: nat) { exists c :: c in s.containers && s.containers[c].port == port }

  /** The used ports are exactly those of the containers and the lost ones, without overlap. */
  ghost predicate Conserved(s: State) {
    && (forall c | c in s.containers :: Used(s, s.containers[c].port) && s.containers[c].port !in s.lost)
    && (forall c, d | c in s.containers && d in s.containers && c != d :: s.containers[c].port != s.containers[d].port)
    && (forall port | port in s.lost :: Used(s, port))
    && (forall port | Used(s, port) :: port in s.lost || Held(s, port))
  }

  /** The one way a request loses track of a port: its container ran, its port was freed, and it was not removed. */
  predicate FreedButKept(s: State, a: Action) {
    a.Destroy? && a.inspect.Ok? && a.id in s.containers && s.containers[a.id].phase.Running? && !Applied(a.remove)
  }

  // A port held before is held after a change to one container, unless it was that container's.
  lemma StillHeld(s: State, s': State, id: Cid, port: nat)
    requires Held(s, port)
    requires forall c | c in s.containers && c != id :: c in s'.containers && s'.containers[c] == s.containers[c]
    ensures Held(s', port) || (id in s.containers && s.containers[id].port == port)
  {
    var c :| c in s.containers && s.containers[c].port == port;
    assert c != id ==> s'.containers[c].port == port;
  }

  // Removing a container and freeing its port.
  lemma FreeConserves(s: State, id: Cid)
    requires Conserved(s) && id in s.containers
    ensures Conserved(Free(s, s.containers[id].port).(containers := s.containers - {id}))
  {
    var s' := Free(s, s.containers[id].port).(containers := s.containers - {id});
    forall p | Used(s', p) ensures p in s'.lost || Held(s', p) {
      assert Used(s, p);
      if p !in s.lost {
        StillHeld(s, s', id, p);
      }
    }
  }

  // Removing a container without freeing its port.
  lemma LeaveConserves(s: State, id: Cid)
    requires Conserved(s) && id in s.containers
    ensures Conserved(s.(containers := s.containers - {id}, lost := s.lost + {s.containers[id].port}))
  {
    var s' := s.(containers := s.containers - {id}, lost := s.lost + {s.containers[id].port});
    forall p | Used(s', p) ensures p in s'.lost || Held(s', p) {
      assert Used(s, p);
      if p !in s.lost {
        StillHeld(s, s', id, p);
      }
    }
  }

  // Taking a free port for a new container.
  lemma HoldConserves(s: State, id: Cid, i: nat, phase: Phase)
    requires Conserved(s) && i < |s.used| && !s.used[i] && id !in s.containers
    ensures Conserved(s.(used := s.used[i := true], containers := s.containers[id := Container(s.min + i, phase)]))
  {
    var port := s.min + i;
    assert !Used(s, port);
    var s' := s.(used := s.used[i := true], containers := s.containers[id := Container(port, phase)]);
    assert s'.containers[id].port == port && Held(s', port);
    UsedAfter(s, s', i);
    forall p | Used(s', p) ensures p in s'.lost || Held(s', p) {
      if p != port && p !in s.lost {
        StillHeld(s, s', id, p);
      }
    }
  }

  lemma UsedAfter(s: State, s': State, i: nat)
    requires i < |s.used| && s'.min == s.min && s'.used == s.used[i := true]
    ensures forall p :: Used(s', p) <==> Used(s, p) || p == s.min + i
  {
  }

  // Taking a free port in vain.
  lemma LoseConserves(s: State, i: nat)
    requires Conserved(s) && i < |s.used| && !s.used[i]
    ensures Conserved(s.(used := s.used[i := true], lost := s.lost + {s.min + i}))
  {
    assert !Used(s, s.min + i);
    var s' := s.(used := s.used[i := true], lost := s.lost + {s.min + i});
    UsedAfter(s, s', i);
    forall p | Used(s', p) ensures p in s'.lost || Held(s', p) {
      if p != s.min + i && p !in s.lost {
        StillHeld(s, s', "", p);
      }
    }
  }

  lemma PhaseConserves(s: State, id: Cid, phase: Phase)
    requires Conserved(s) && id in s.containers
    ensures Conserved(s.(containers := s.containers[id := s.containers[id].(phase := phase)]))
  {
    var s' := s.(containers := s.containers[id := s.containers[id].(phase := phase)]);
    forall p | Used(s', p) ensures p in s'.lost || Held(s', p) {
      assert Used(s, p);
      if p !in s.lost {
        StillHeld(s, s', id, p);
        assert s'.containers[id].port == s.containers[id].port;
      }
    }
  }

  lemma StartConserves(s: State, a: Action)
    requires Conserved(s) && a.Start?
    ensures Conserved(Step(s, a).0)
  {
    var i := Least(s.used);
    if a.id !in s.containers && a.pull.Ok? && i < |s.used| {
      RunConserves(s, i, a);
    }
  }

  lemma RunConserves(s: State, i: nat, a: Action)
    requires Conserved(s) && a.Start? && a.id !in s.containers && i < |s.used| && !s.used[i]
    ensures Conserved(Run(s, i, a).0)
  {
    if Applied(a.create) {
      var phase := Run(s, i, a).0.containers[a.id].phase;
      assert Run(s, i, a).0 == s.(used := s.used[i := true], containers := s.containers[a.id := Container(s.min + i, phase)]);
      HoldConserves(s, a.id, i, phase);
    } else {
      LoseConserves(s, i);
    }
  }

  lemma DestroyConserves(s: State, a: Action)
    requires Conserved(s) && a.Destroy?
    ensures Conserved(Step(s, a).0) <==> !FreedButKept(s, a)
  {
    if a.id in s.containers {
      FreeConserves(s, a.id);
      LeaveConserves(s, a.id);
      assert !Used(Free(s, s.containers[a.id].port), s.containers[a.id].port);
    }
  }

  /** A request keeps ports conserved exactly unless it frees the port of a container it then fails to remove. */
  lemma ConservedExactly(s: State, a: Action)
    requires Conserved(s)
    ensures Conserved(Step(s, a).0) <==> !FreedButKept(s, a)
  {
    if a.Start? {
      StartConserves(s, a);
    } else if a.Destroy? {
      DestroyConserves(s, a);
    } else if a.id in s.containers {
      PhaseConserves(s, a.id, Exited);
    }
  }

  // Along the run, whenever a destroy inspected a running container it also removed it.
  ghost predicate RemovalsHold(s: State, acts: seq<Action>) {
    forall k | 0 <= k < |acts| :: !FreedButKept(Exec(s, acts[..k]), acts[k])
  }

  predicate Fresh(s: State) { s.containers == map[] && s.lost == {} && forall i | 0 <= i < |s.used| :: !s.used[i] }

  /** Port conservation over whole runs, whatever pulls, creates, starts, inspects and stops fail and whichever
      containers exit: the used ports are the disjoint union of the containers' distinct ports and the lost ones. */
  lemma {:induction false} PortsConserved(s: State, acts: seq<Action>)
    requires Fresh(s) && RemovalsHold(s, acts)
    ensures Conserved(Exec(s, acts))
  {
    if acts != [] {
      var before, a := acts[..|acts| - 1], acts[|acts| - 1];
      forall k | 0 <= k < |before| ensures !FreedButKept(Exec(s, before[..k]), before[k]) {
        assert before[..k] == acts[..k] && before[k] == acts[k];
      }
      PortsConserved(s, before);
      ConservedExactly(Exec(s, before), a);
    }
  }

  /** A lost port is never given out again. */
  lemma {:induction false} LostForGood(s: State, acts: seq<Action>)
    requires Conserved(s) && RemovalsHold(s, acts)
    ensures var s' := Exec(s, acts);
            && Conserved(s') && s.lost <= s'.lost
            && forall c, port | c in s'.containers && port in s.lost :: s'.containers[c].port != port
  {
    if acts != [] {
      var before, a := acts[..|acts| - 1], acts[|acts| - 1];
      forall k | 0 <= k < |before| ensures !FreedButKept(Exec(s, before[..k]), before[k]) {
        assert before[..k] == acts[..k] && before[k] == acts[k];
      }
      LostForGood(s, before);
      ConservedExactly(Exec(s, before), a);
    }
  }

  /** A start is turned away for lack of ports exactly when every port of the range belongs to a container or is lost. */
  lemma OutOfPorts(s: State)
    requires Conserved(s)
    ensures Least(s.used) == |s.used| <==>
            forall port | s.min <= port < s.min + |s.used| :: port in s.lost || Held(s, port)
  {
    if forall port | s.min <= port < s.min + |s.used| :: port in s.lost || Held(s, port) {
      forall i | 0 <= i < |s.used| ensures s.used[i] {
        assert s.min + i in s.lost || Held(s, s.min + i);
        assert Used(s, s.min + i);
      }
    } else {
      var port :| s.min <= port < s.min + |s.used| && !(port in s.lost || Held(s, port));
      assert !Used(s, port);
    }
  }

  lemma TwoSteps(s: State, a: Action, b: Action)
    ensures Exec(s, [a, b]) == Step(Step(s, a).0, b).0
  {
    assert [a, b][..1] == [a] && [a][..0] == [];
    assert Exec(s, [a]) == Step(Exec(s, []), a).0;
  }

  lemma ThreeSteps(s: State, a: Action, b: Action, c: Action)
    ensures Exec(s, [a, b, c]) == Step(Step(Step(s, a).0, b).0, c).0
  {
    TwoSteps(s, a, b);
    assert [a, b, c][..2] == [a, b];
  }

  /** Why removal matters: a container whose removal failed goes on holding its port while the next start is
      given the same one. */
  lemma PortGivenTwice(min: nat)
    requires min >= 1
    ensures var acts := [Start("a", Ok, Ok, Ok, false, Ok), Destroy("a", Ok, Fail), Start("b", Ok, Ok, Ok, false, Ok)];
            var s := Exec(State(min, [false], map[], {}), acts);
            "a" in s.containers && "b" in s.containers && s.containers["a"].port == s.containers["b"].port == min
  {
    var s := State(min, [false], map[], {});
    var a, b, c := Start("a", Ok, Ok, Ok, false, Ok), Destroy("a", Ok, Fail), Start("b", Ok, Ok, Ok, false, Ok);
    ThreeSteps(s, a, b, c);
    var s1 := State(min, [true], map["a" := Container(min, Running)], {});
    assert Step(s, a).0 == s1;
    var s2 := State(min, [false], s1.containers, {});
    assert Step(s1, b).0 == s2;
    assert "a" != "b";
  }
}
