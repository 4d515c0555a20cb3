/**
 * What an enqueuer and a worker do to Redis, told from how their own commands went, whatever the others do in between
 * (ctf-server/infrastructure/client/builder_client.go, ctf-builder/service/worker.go).
 */
module BuildAnswers {
  import opened Common
  import opened BuildPipeline

  // One command of a process: the keys it met, how it went, and the keys it left.
  datatype Turn = Turn(before: World, a: Action, after: World)

  // The command of process p that an action is, up to the n-th one.
  function OwnTurn(s: State, a: Action, p: nat): seq<Turn> {
    if a.Go? && a.p == p && p in s.procs then [Turn(s.w, a, Step(s, a).w)] else []
  }

  // The first n commands of a process along a run.
  function Turns(s: State, acts: seq<Action>, p: nat, n: nat): seq<Turn> {
    if acts == [] then []
    else
      var before := acts[..|acts| - 1];
      var turns := Turns(s, before, p, n);
      if |turns| >= n then turns else turns + OwnTurn(Exec(s, before), acts[|acts| - 1], p)
  }

  predicate WentOk(turns: seq<Turn>, i: nat) { i < |turns| && turns[i].a.Go? && turns[i].a.c.Ok? }

  predicate Took(turns: seq<Turn>, i: nat) { i < |turns| && turns[i].a.Go? && (turns[i].a.c.Ok? || turns[i].a.c.FailApplied?) }

  // Command i left the keys as they were, but for one.
  predicate Pushed(turns: seq<Turn>, i: nat, id: Id) {
    i < |turns| && var (b, a) := (turns[i].before, turns[i].after);
    a.queue == (if Took(turns, i) then b.queue + [id] else b.queue) && a.infos == b.infos && a.results == b.results && a.list == b.list
  }

  predicate SetsInfo(turns: seq<Turn>, i: nat, id: Id, challenge: string) {
    i < |turns| && var (b, a) := (turns[i].before, turns[i].after);
    && a.infos == (if Took(turns, i) then b.infos[id := challenge] else b.infos)
    && a.queue == b.queue && a.results == b.results && a.list == b.list
  }

  predicate Lists(turns: seq<Turn>, i: nat, id: Id) {
    i < |turns| && var (b, a) := (turns[i].before, turns[i].after);
    && a.list == (if Took(turns, i) then [id] + b.list else b.list)
    && a.queue == b.queue && a.results == b.results && a.infos == b.infos
  }

  predicate Trims(turns: seq<Turn>, i: nat) {
    i < |turns| && var (b, a) := (turns[i].before, turns[i].after);
    && a.list == (if Took(turns, i) && |b.list| > 100 then b.list[..100] else b.list)
    && a.queue == b.queue && a.results == b.results && a.infos == b.infos
  }

  predicate Writes(turns: seq<Turn>, i: nat, id: Id, r: Result) {
    i < |turns| && var (b, a) := (turns[i].before, turns[i].after);
    && a.results == (if Took(turns, i) then b.results[id := r] else b.results)
    && a.queue == b.queue && a.list == b.list && a.infos == b.infos
  }

  // The commands an enqueuer has made; the last of the five is the pending write.
  predicate Enqueuing(turns: seq<Turn>, id: Id, challenge: string) {
    var n := |turns|;
    && n <= 5 && (n >= 1 ==> Pushed(turns, 0, id)) && (n >= 2 ==> SetsInfo(turns, 1, id, challenge))
    && (n >= 3 ==> Lists(turns, 2, id)) && (n >= 4 ==> Trims(turns, 3)) && (n >= 5 ==> Writes(turns, 4, id, Result(Pending, "", "")))
  }

  ghost predicate EnqueuerStands(id: Id, challenge: string, turns: seq<Turn>, pc: Pc) {
    var n := |turns|;
    match pc
    case Push(i, c) => n == 0 && i == id && c == challenge
    case SaveInfo(i, c) => n == 1 && i == id && c == challenge && WentOk(turns, 0) && Enqueuing(turns, id, challenge)
    case Announce(i) => n == 2 && i == id && WentOk(turns, 0) && Enqueuing(turns, id, challenge)
    case Trim(i) => n == 3 && i == id && WentOk(turns, 0) && Enqueuing(turns, id, challenge)
    case MarkPending(i) => n == 4 && i == id && WentOk(turns, 0) && Enqueuing(turns, id, challenge)
    case Enqueued(i, ok) => i == id && EnqueueAnswer(id, challenge, turns, ok)
    case _ => false
  }

  /** An enqueue ends after its push if that fails, and otherwise after five commands, of which only the last can still
      make it fail. */
  predicate EnqueueAnswer(id: Id, challenge: string, turns: seq<Turn>, ok: bool) {
    && 1 <= |turns| && (WentOk(turns, 0) ==> |turns| >= 5) && (!WentOk(turns, 0) ==> !ok)
    && (WentOk(turns, 0) ==> (ok <==> WentOk(turns, 4)))
    && (if WentOk(turns, 0) then Enqueuing(turns[..5], id, challenge) else Pushed(turns, 0, id))
  }

  /** A worker that has a job marks it building, writes the one result its build and push came to, and publishes. */
  predicate JobWrites(id: Id, turns: seq<Turn>) {
    var n := |turns|;
    && n <= 3
    && (n >= 1 ==>
          turns[0].a.Go? &&
          var r := ResultFor(turns[0].a.outcome);
          && Writes(turns, 0, id, Result(Building, "", ""))
          && (n >= 2 ==> Writes(turns, 1, id, r)))
    && (n == 3 ==> turns[2].after == turns[2].before)
  }

  function ResultFor(o: Outcome): Result {
    match o
    case Built(image) => Result(Success, image, "")
    case BuildFailed(error) => Result(Failed, "", error)
    case PushFailed(image, error) => Result(Failed, image, "push failed: " + error)
  }

  predicate WorkerStands(id: Id, turns: seq<Turn>, pc: Pc) {
    var n := |turns|;
    && JobWrites(id, turns)
    && (n == 0 ==> pc == MarkBuilding(id))
    && (n == 1 ==> pc == Record(id, ResultFor(turns[0].a.outcome)))
    && (n == 2 ==> pc == Publish(id, ResultFor(turns[0].a.outcome)))
    && (n == 3 ==> pc == Idle)
  }

  lemma Longer(turns: seq<Turn>, t: Turn)
    ensures var more := turns + [t];
            && more[|turns|] == t && forall i | 0 <= i < |turns| :: more[i] == turns[i]
  {
  }

  lemma EnqueuerGoes(id: Id, challenge: string, turns: seq<Turn>, w: World, p: nat, pc: Pc, a: Action)
    requires a.Go? && !pc.Enqueued? && EnqueuerStands(id, challenge, turns, pc)
    ensures var (w', pc') := Advance(w, p, pc, a.c, a.outcome);
            EnqueuerStands(id, challenge, turns + [Turn(w, a, w')], pc')
  {
    var more := turns + [Turn(w, a, Advance(w, p, pc, a.c, a.outcome).0)];
    Longer(turns, Turn(w, a, Advance(w, p, pc, a.c, a.outcome).0));
    if |more| == 5 {
      assert more[..5] == more;
    }
  }

  lemma WorkerGoes(id: Id, turns: seq<Turn>, w: World, p: nat, pc: Pc, a: Action)
    requires a.Go? && |turns| < 3 && WorkerStands(id, turns, pc)
    ensures var (w', pc') := Advance(w, p, pc, a.c, a.outcome);
            WorkerStands(id, turns + [Turn(w, a, w')], pc')
  {
    Longer(turns, Turn(w, a, Advance(w, p, pc, a.c, a.outcome).0));
  }

  lemma {:induction false} WorkerFollows(s: State, acts: seq<Action>, p: nat, id: Id)
    requires p in s.procs && s.procs[p] == MarkBuilding(id)
    ensures var s' := Exec(s, acts);
            var turns := Turns(s, acts, p, 3);
            p in s'.procs && JobWrites(id, turns) && (|turns| < 3 ==> WorkerStands(id, turns, s'.procs[p]))
  {
    if acts != [] {
      var before, a := acts[..|acts| - 1], acts[|acts| - 1];
      WorkerFollows(s, before, p, id);
      var x, turns := Exec(s, before), Turns(s, before, p, 3);
      if |turns| < 3 {
        if OwnTurn(x, a, p) == [] {
          assert turns + [] == turns;
        } else {
          WorkerGoes(id, turns, x.w, p, x.procs[p], a);
        }
      }
    }
  }

  lemma {:induction false} EnqueuerFollows(s: State, acts: seq<Action>, p: nat, id: Id, challenge: string)
    requires p in s.procs && s.procs[p] == Push(id, challenge)
    ensures var s' := Exec(s, acts);
            p in s'.procs && EnqueuerStands(id, challenge, Turns(s, acts, p, 5), s'.procs[p])
  {
    if acts != [] {
      var before, a := acts[..|acts| - 1], acts[|acts| - 1];
      EnqueuerFollows(s, before, p, id, challenge);
      var x, turns := Exec(s, before), Turns(s, before, p, 5);
      if |turns| < 5 {
        if OwnTurn(x, a, p) == [] {
          assert turns + [] == turns;
        } else if x.procs[p].Enqueued? {
          Longer(turns, Turn(x.w, a, x.w));
        } else {
          EnqueuerGoes(id, challenge, turns, x.w, p, x.procs[p], a);
        }
      }
    }
  }

  /** Along any run a worker takes the head of the queue, and then its next three commands are those of that job. */
  lemma JobExactly(s: State, acts: seq<Action>, p: nat, c: Choice, o: Outcome)
    requires p in s.procs && s.procs[p] == Idle
    ensures var s1 := Step(s, Go(p, c, o));
            && s1.procs[p] == (if s.w.queue != [] && c.Ok? then MarkBuilding(s.w.queue[0]) else Idle)
            && s1.w.queue == (if s.w.queue != [] && (c.Ok? || c.FailApplied?) then s.w.queue[1..] else s.w.queue)
            && s1.w.results == s.w.results && s1.w.infos == s.w.infos && s1.w.list == s.w.list
            && (s.w.queue != [] && c.Ok? ==>
                  var turns := Turns(s1, acts, p, 3);
                  && JobWrites(s.w.queue[0], turns) && p in Exec(s1, acts).procs
                  && (|turns| < 3 ==> WorkerStands(s.w.queue[0], turns, Exec(s1, acts).procs[p])))
  {
    if s.w.queue != [] && c.Ok? {
      WorkerFollows(Step(s, Go(p, c, o)), acts, p, s.w.queue[0]);
    }
  }

  /** Along any run an enqueuer pushes its job, describes it, lists it, trims the list and marks it pending. */
  lemma EnqueueExactly(s: State, acts: seq<Action>, p: nat, id: Id, challenge: string)
    requires p !in s.procs && id !in s.w.drawn
    ensures var s1 := Step(s, Enqueue(p, id, challenge));
            var s' := Exec(s1, acts);
            var turns := Turns(s1, acts, p, 5);
            && p in s'.procs && |turns| <= 5
            && (s'.procs[p].Enqueued? <==> |turns| >= 1 && (WentOk(turns, 0) ==> |turns| == 5))
            && (s'.procs[p].Enqueued? ==> EnqueueAnswer(id, challenge, turns, s'.procs[p].ok))
  {
    var s1 := Step(s, Enqueue(p, id, challenge));
    EnqueuerFollows(s1, acts, p, id, challenge);
    AtMost(s1, acts, p, 5);
  }

  lemma {:induction false} AtMost(s: State, acts: seq<Action>, p: nat, n: nat)
    ensures |Turns(s, acts, p, n)| <= n
  {
    if acts != [] {
      AtMost(s, acts[..|acts| - 1], p, n);
    }
  }
}
