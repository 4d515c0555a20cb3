/**
 * What the manager answers a request, told from what its own calls met and were told, whatever other requests write
 * in between (ctf-manager/service/manager.go).
 */
module ManagerAnswers {
  import opened Common
  import opened Manager

  // One call of a request: what it met, how it went, and what it left.
  datatype Turn = Turn(before: World, a: Action, after: World)

  // The call of request p that an action is: a step that waits for the lock is none.
  function OwnTurn(s: State, a: Action, p: nat): seq<Turn> {
    if a.Go? && a.p == p && p in s.procs && Step(s, a).procs[p] != s.procs[p] then [Turn(s.w, a, Step(s, a).w)] else []
  }

  /** The calls a request makes along a run. */
  function Turns(s: State, acts: seq<Action>, p: nat): seq<Turn> {
    if acts == [] then []
    else
      var before := acts[..|acts| - 1];
      Turns(s, before, p) + OwnTurn(Exec(s, before), acts[|acts| - 1], p)
  }

  predicate WentOk(turns: seq<Turn>, i: nat) { i < |turns| && turns[i].a.Go? && turns[i].a.c.Ok? }

  predicate Took(turns: seq<Turn>, i: nat) { i < |turns| && turns[i].a.Go? && (turns[i].a.c.Ok? || turns[i].a.c.FailApplied?) }

  predicate Still(turns: seq<Turn>, i: nat) { i < |turns| && turns[i].after == turns[i].before }

  // The first call read this row.
  predicate Reads(turns: seq<Turn>, id: Id, row: Row) {
    WentOk(turns, 0) && Still(turns, 0) && id in turns[0].before.rows && turns[0].before.rows[id] == row
  }

  // The runner's answer to the third call, and what it did to the container.
  predicate RunnerAsked(req: Request, turns: seq<Turn>, row: Row) {
    && |turns| >= 3 && turns[2].a.Go?
    && turns[2].after == turns[2].before.(
         containers := if req.Destroy? && Took(turns, 2) then turns[2].before.containers - {row.place} else turns[2].before.containers)
  }

  // The runner's success: a destroy also needs the container to be there.
  predicate RunnerOk(req: Request, turns: seq<Turn>, row: Row) {
    WentOk(turns, 2) && (req.Destroy? ==> row.place in turns[2].before.containers)
  }

  // What the fourth call left of the table.
  function RowsAfter(req: Request, before: Rows, row: Row, told: InstanceState): Rows
    requires OnInstance(req)
  {
    if req.id !in before then before
    else if req.Destroy? then before - {req.id}
    else before[req.id := row.(state := if req.Stop? then Stopped else told)]
  }

  predicate Wrote(req: Request, turns: seq<Turn>, row: Row)
    requires OnInstance(req)
  {
    && |turns| == 4 && turns[2].a.Go? && turns[3].after.containers == turns[3].before.containers
    && turns[3].after.rows
       == if Took(turns, 3) then RowsAfter(req, turns[3].before.rows, row, turns[2].a.told) else turns[3].before.rows
  }

  ghost predicate InstanceStands(req: Request, turns: seq<Turn>, pc: Pc)
    requires OnInstance(req)
  {
    var n := |turns|;
    match pc
    case Find(r) => r == req && n == 0
    case LookUp(r, row) => r == req && n == 1 && Reads(turns, req.id, row)
    case Call(r, row) => r == req && n == 2 && Reads(turns, req.id, row) && WentOk(turns, 1) && Still(turns, 1)
    case Write(r, row') =>
      && r == req && n == 3 && WentOk(turns, 1) && Still(turns, 1)
      && Still(turns, 0) && WentOk(turns, 0) && req.id in turns[0].before.rows
      && (var row := turns[0].before.rows[req.id];
          && RunnerAsked(req, turns, row) && RunnerOk(req, turns, row)
          && (req.Status? ==> turns[2].a.told != row.state)
          && row' == if req.Stop? then row.(state := Stopped) else if req.Status? then row.(state := turns[2].a.told) else row)
    case Replied(to, reply) => to == req && InstanceAnswer(req, turns, reply)
    case _ => false
  }

  /**
   * The reply to a stop, destroy or status request after n calls: reading the row, looking its runner up, the runner,
   * and the write.
   */
  ghost predicate InstanceAnswer(req: Request, turns: seq<Turn>, reply: Reply)
    requires OnInstance(req)
  {
    var n := |turns|;
    && 1 <= n <= 4 && Still(turns, 0)
    && (reply == Unreadable <==> !WentOk(turns, 0))
    && (n == 1 <==> !WentOk(turns, 0) || req.id !in turns[0].before.rows)
    && (n == 1 && WentOk(turns, 0) ==> reply == if req.Status? then Reports(Destroyed) else Failure)
    && (n >= 2 ==> Still(turns, 1) && (n == 2 <==> !WentOk(turns, 1)))
    && (n == 2 ==> reply == Failure)
    && (n >= 3 ==>
          var row := turns[0].before.rows[req.id];
          && RunnerAsked(req, turns, row)
          && reply == (if !RunnerOk(req, turns, row) then Failure
                       else if req.Status? then Reports(turns[2].a.told) else Success)
          && (n == 4 <==> RunnerOk(req, turns, row) && (req.Status? ==> turns[2].a.told != row.state))
          && (n == 4 ==> Wrote(req, turns, row)))
  }

  // A start: the choice of a runner, the runner's container, and the insert of its row.
  ghost predicate StartStands(id: Id, turns: seq<Turn>, pc: Pc) {
    var n := |turns|;
    match pc
    case Select(i) => i == id && n == 0
    case Launch(i, runner) => i == id && n == 1 && Chosen(turns, runner)
    case Create(i, row) =>
      i == id && n == 2 && turns[0].a.Go? && turns[0].a.runner.Some? && Chosen(turns, turns[0].a.runner.value)
      && WentOk(turns, 1) && row == Row(Place(turns[0].a.runner.value, turns[1].a.container), Running)
      && Made(turns, row.place)
    case Replied(to, reply) => to == Start(id) && StartAnswer(id, turns, reply)
    case _ => false
  }

  predicate Chosen(turns: seq<Turn>, runner: string) {
    |turns| >= 1 && turns[0].a.Go? && turns[0].a.runner == Some(runner) && Still(turns, 0)
  }

  // The runner made a new container.
  predicate Made(turns: seq<Turn>, k: Place) {
    && |turns| >= 2 && k !in turns[1].before.made
    && turns[1].after.containers == turns[1].before.containers + {k} && turns[1].after.rows == turns[1].before.rows
  }

  /** A start succeeds exactly when the runner reports a container, whether or not its row could be inserted. */
  ghost predicate StartAnswer(id: Id, turns: seq<Turn>, reply: Reply) {
    var n := |turns|;
    && 1 <= n <= 3 && turns[0].a.Go? && Still(turns, 0)
    && (n == 1 <==> turns[0].a.runner.None?)
    && (reply == if n == 3 then Success else Failure)
    && (n >= 2 ==>
          turns[1].a.Go? &&
          var k := Place(turns[0].a.runner.value, turns[1].a.container);
          && (n == 3 <==> WentOk(turns, 1))
          && (if Took(turns, 1) then Made(turns, k) else Still(turns, 1))
          && (n == 3 ==>
                && turns[2].after.containers == turns[2].before.containers
                && turns[2].after.rows == if Took(turns, 2) && id !in turns[2].before.rows
                                          then turns[2].before.rows[id := Row(k, Running)] else turns[2].before.rows))
  }

  ghost predicate Stands(req: Request, turns: seq<Turn>, pc: Pc) {
    if OnInstance(req) then InstanceStands(req, turns, pc) else req.Start? ==> StartStands(req.id, turns, pc)
  }

  lemma Longer(turns: seq<Turn>, t: Turn)
    ensures var more := turns + [t];
            && more[|turns|] == t && forall i | 0 <= i < |turns| :: more[i] == turns[i]
  {
  }

  lemma InstanceGoes(req: Request, turns: seq<Turn>, w: World, p: nat, pc: Pc, a: Action)
    requires OnInstance(req) && InstanceStands(req, turns, pc) && a.Go? && Advance(w, p, pc, a).1 != pc
    ensures var (w', pc') := Advance(w, p, pc, a); InstanceStands(req, turns + [Turn(w, a, w')], pc')
  {
    Longer(turns, Turn(w, a, Advance(w, p, pc, a).0));
  }

  lemma StartGoes(id: Id, turns: seq<Turn>, w: World, p: nat, pc: Pc, a: Action)
    requires StartStands(id, turns, pc) && a.Go? && Advance(w, p, pc, a).1 != pc
    ensures var (w', pc') := Advance(w, p, pc, a); StartStands(id, turns + [Turn(w, a, w')], pc')
  {
    Longer(turns, Turn(w, a, Advance(w, p, pc, a).0));
  }

  lemma FollowsStep(s: State, a: Action, p: nat, req: Request, turns: seq<Turn>)
    requires p in s.procs && Stands(req, turns, s.procs[p])
    ensures p in Step(s, a).procs && Stands(req, turns + OwnTurn(s, a, p), Step(s, a).procs[p])
  {
    if OwnTurn(s, a, p) == [] {
      assert turns + [] == turns && Step(s, a).procs[p] == s.procs[p];
    } else if OnInstance(req) {
      InstanceGoes(req, turns, s.w, p, s.procs[p], a);
    } else if req.Start? {
      StartGoes(req.id, turns, s.w, p, s.procs[p], a);
    }
  }

  lemma {:induction false} Follows(s: State, acts: seq<Action>, p: nat, req: Request)
    requires p in s.procs && Stands(req, [], s.procs[p])
    ensures var s' := Exec(s, acts);
            p in s'.procs && Stands(req, Turns(s, acts, p), s'.procs[p])
  {
    if acts != [] {
      var before := acts[..|acts| - 1];
      Follows(s, before, p, req);
      FollowsStep(Exec(s, before), acts[|acts| - 1], p, req, Turns(s, before, p));
    }
  }

  /**
   * A stop, destroy or status request along any run, whatever other requests do: how it is answered. In particular a
   * status request the runner answered reports what the runner said, whatever the row held and holds by then.
   */
  lemma InstanceExactly(s: State, p: nat, req: Request, acts: seq<Action>)
    requires p !in s.procs && OnInstance(req)
    ensures var s1 := Step(s, Receive(p, req));
            var s' := Exec(s1, acts);
            var turns := Turns(s1, acts, p);
            && p in s'.procs
            && (s'.procs[p].Replied? ==> s'.procs[p].to == req && InstanceAnswer(req, turns, s'.procs[p].reply))
            && (!s'.procs[p].Replied? ==> |turns| < 4)
  {
    Follows(Step(s, Receive(p, req)), acts, p, req);
  }

  /** So a status request ends in Reports(Destroyed) exactly when its read found no row or the runner said so; else it
      reports another state the runner said, or fails. */
  lemma ReportsExactly(id: Id, turns: seq<Turn>, reply: Reply)
    requires InstanceAnswer(Status(id), turns, reply)
    ensures reply == Reports(Destroyed) <==>
            WentOk(turns, 0) && (id !in turns[0].before.rows || (WentOk(turns, 2) && turns[2].a.told == Destroyed))
    ensures forall state :: state != Destroyed ==> (reply == Reports(state) <==> WentOk(turns, 2) && turns[2].a.told == state)
    ensures reply.Reports? || reply == Failure || reply == Unreadable
  {
  }

  /** A start along any run: how it is answered, and what it leaves. */
  lemma StartExactly(s: State, p: nat, id: Id, acts: seq<Action>)
    requires p !in s.procs && id !in s.w.drawn
    ensures var s1 := Step(s, Receive(p, Start(id)));
            var s' := Exec(s1, acts);
            var turns := Turns(s1, acts, p);
            && p in s'.procs
            && (s'.procs[p].Replied? ==> s'.procs[p].to == Start(id) && StartAnswer(id, turns, s'.procs[p].reply))
            && (!s'.procs[p].Replied? ==> |turns| < 3)
  {
    Follows(Step(s, Receive(p, Start(id))), acts, p, Start(id));
  }

  /** No request stands still: unless it waits for the lock, or its runner offers a container id that was used before,
      its next step is a call. */
  lemma NeverStuck(s: State, a: Action)
    requires a.Go? && a.p in s.procs && !s.procs[a.p].Replied?
    requires PcOk(s.w, a.p, s.procs[a.p]) && (s.procs[a.p].Find? ==> OnInstance(s.procs[a.p].req))
    requires !Asked(s.procs[a.p]).Cleanup?
    requires Waits(s.procs[a.p]) ==> s.w.holder.None?
    requires s.procs[a.p].Launch? ==> Place(s.procs[a.p].runner, a.container) !in s.w.made
    ensures OwnTurn(s, a, a.p) != []
  {
  }
}
