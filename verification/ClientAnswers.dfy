/**
 * What the server answers a request for an instance, told from what its own calls to the table and the manager met,
 * whatever other requests do in between (ctf-server/usecase/client_challenge.go).
 */
module ClientAnswers {
  import opened Common
  import opened ClientInstances

  // One call of a request: the table it met, how it went, and the table it left.
  datatype Turn = Turn(before: Rows, a: Action, after: Rows)

  // The call of request p that an action is. A read that does not give what the table holds, or an id the manager
  // used before, is none.
  function OwnTurn(s: State, a: Action, p: nat): seq<Turn> {
    if a.Go? && a.p == p && p in s.procs && Step(s, a).procs[p] != s.procs[p] then [Turn(s.w.rows, a, Step(s, a).w.rows)] else []
  }

  /** The calls a request makes along a run. */
  function Turns(s: State, acts: seq<Action>, p: nat): seq<Turn> {
    if acts == [] then []
    else
      var before := acts[..|acts| - 1];
      Turns(s, before, p) + OwnTurn(Exec(s, before), acts[|acts| - 1], p)
  }

  predicate WentOk(turns: seq<Turn>, i: nat) { i < |turns| && turns[i].a.Go? && turns[i].a.c.Ok? }

  predicate Took(turns: seq<Turn>, i: nat) { i < |turns| && turns[i].a.Go? && (turns[i].a.c.Ok? || turns[i].a.c.FailApplied?) }

  predicate Still(turns: seq<Turn>, i: nat) { i < |turns| && turns[i].after == turns[i].before }

  // Call i looked the pair's row up.
  predicate LookedUp(turns: seq<Turn>, i: nat, user: string, challenge: string) {
    i < |turns| && turns[i].a.Go? && Still(turns, i) && Faithful(turns[i].before, user, challenge, turns[i].a.seen)
  }

  // The row call i saw, with the given status.
  predicate Saw(turns: seq<Turn>, i: nat, row: Row) {
    && i < |turns| && turns[i].a.Go? && turns[i].a.seen.Sees?
    && turns[i].a.seen.id in turns[i].before && turns[i].before[turns[i].a.seen.id] == row
  }

  // Call i rewrote status and address of the row of this id, if it is there and the write took effect.
  predicate Rewrote(turns: seq<Turn>, i: nat, id: Id, status: Status, address: string) {
    && i < |turns|
    && turns[i].after == if Took(turns, i) && id in turns[i].before
                         then turns[i].before[id := turns[i].before[id].(status := status, address := address)]
                         else turns[i].before
  }

  // Call i deleted the row of this id, if the statement took effect.
  predicate Removes(turns: seq<Turn>, i: nat, id: Id) {
    i < |turns| && turns[i].after == if Took(turns, i) then turns[i].before - {id} else turns[i].before
  }

  predicate Inserts(turns: seq<Turn>, i: nat, row: Row) {
    i < |turns| && turns[i].after == if Took(turns, i) then turns[i].before[row.id := row] else turns[i].before
  }

  /** A start: the lookup, the manager's start, and the write. A running row is refused, a stopped one restarted. */
  ghost predicate StartAnswer(user: string, challenge: string, turns: seq<Turn>, answer: Answer) {
    var n := |turns|;
    && 1 <= n <= 3 && LookedUp(turns, 0, user, challenge)
    && (n == 1 <==> exists row :: Saw(turns, 0, row) && row.status.Running?)
    && (n >= 2 ==> turns[1].a.Go? && Still(turns, 1) && (n == 2 <==> !WentOk(turns, 1)))
    && (n <= 2 ==> answer == Error)
    && (n == 3 ==>
          var stopped := turns[0].a.seen.Sees? && turns[0].before[turns[0].a.seen.id].status.Stopped?;
          && (stopped ==> Rewrote(turns, 2, turns[0].before[turns[0].a.seen.id].id, Running, turns[1].a.address))
          && (!stopped ==> Inserts(turns, 2, Row(turns[1].a.id, user, challenge, Running, turns[1].a.address, turns[1].a.now)))
          && answer == (if WentOk(turns, 2) && (stopped ==> turns[0].before[turns[0].a.seen.id].id in turns[2].before)
                        then At(turns[1].a.address) else Error))
  }

  ghost predicate StartStands(user: string, challenge: string, turns: seq<Turn>, pc: Pc) {
    var n := |turns|;
    match pc
    case Find(req) => req == Start(user, challenge) && n == 0
    case Restart(row) =>
      n == 1 && LookedUp(turns, 0, user, challenge) && Saw(turns, 0, row) && row.status.Stopped?
    case Launch(u, c, _) =>
      && n == 1 && u == user && c == challenge && LookedUp(turns, 0, user, challenge)
      && !exists row :: Saw(turns, 0, row) && (row.status.Running? || row.status.Stopped?)
    case Refresh(row) =>
      && n == 2 && LookedUp(turns, 0, user, challenge) && WentOk(turns, 1) && Still(turns, 1)
      && turns[0].a.seen.Sees? && turns[0].before[turns[0].a.seen.id].status.Stopped?
      && row == turns[0].before[turns[0].a.seen.id].(status := Running, address := turns[1].a.address)
    case Create(row, _) =>
      && n == 2 && LookedUp(turns, 0, user, challenge) && WentOk(turns, 1) && Still(turns, 1)
      && (turns[0].a.seen.Sees? ==>
            !turns[0].before[turns[0].a.seen.id].status.Stopped? && !turns[0].before[turns[0].a.seen.id].status.Running?)
      && row == Row(turns[1].a.id, user, challenge, Running, turns[1].a.address, turns[1].a.now)
    case Done(answer) => StartAnswer(user, challenge, turns, answer)
    case _ => false
  }

  /** A stop: the challenge, the row, the manager's destroy, and the delete, which finds the row gone or removes it. */
  ghost predicate StopAnswer(user: string, challenge: string, turns: seq<Turn>, answer: Answer) {
    var n := |turns|;
    && 1 <= n <= 4 && Still(turns, 0) && (n == 1 <==> !WentOk(turns, 0))
    && (n >= 2 ==>
          && LookedUp(turns, 1, user, challenge)
          && (n == 2 <==> !exists row :: Saw(turns, 1, row) && !row.status.Stopped? && !row.status.Destroyed?))
    && (n >= 3 ==> Still(turns, 2) && (n == 3 <==> !WentOk(turns, 2)))
    && (n <= 3 ==> answer == Error)
    && (n == 4 ==>
          var id := turns[1].before[turns[1].a.seen.id].id;
          && Removes(turns, 3, id)
          && answer == (if WentOk(turns, 3) && id in turns[3].before then Removed else Error))
  }

  ghost predicate StopStands(user: string, challenge: string, turns: seq<Turn>, pc: Pc) {
    var n := |turns|;
    match pc
    case Check(req) => req == Stop(user, challenge) && n == 0
    case Find(req) => req == Stop(user, challenge) && n == 1 && WentOk(turns, 0) && Still(turns, 0)
    case Destroy(row) =>
      && n == 2 && WentOk(turns, 0) && Still(turns, 0) && LookedUp(turns, 1, user, challenge) && Saw(turns, 1, row)
      && !row.status.Stopped? && !row.status.Destroyed?
    case Delete(id, stopping) =>
      && n == 3 && stopping && WentOk(turns, 0) && Still(turns, 0) && LookedUp(turns, 1, user, challenge)
      && turns[1].a.seen.Sees? && id == turns[1].before[turns[1].a.seen.id].id
      && !turns[1].before[turns[1].a.seen.id].status.Stopped? && !turns[1].before[turns[1].a.seen.id].status.Destroyed?
      && WentOk(turns, 2) && Still(turns, 2)
    case Done(answer) => StopAnswer(user, challenge, turns, answer)
    case _ => false
  }

  /** A status: the challenge, the row, the manager's status, and the delete or the update it leads to. What is
      answered does not depend on whether that last call works. */
  ghost predicate StatusAnswer(user: string, challenge: string, turns: seq<Turn>, answer: Answer) {
    var n := |turns|;
    && 1 <= n <= 4 && Still(turns, 0) && (n == 1 <==> !WentOk(turns, 0)) && (n == 1 ==> answer == Error)
    && (n >= 2 ==> LookedUp(turns, 1, user, challenge) && (n == 2 <==> !turns[1].a.seen.Sees?))
    && (n == 2 ==> answer == if turns[1].a.seen.Unread? then Error else StatusIs(Unknown, ""))
    && (n >= 3 ==>
          var row, told := turns[1].before[turns[1].a.seen.id], if turns[2].a.Go? then turns[2].a.told else None;
          && Still(turns, 2) && turns[2].a.Go?
          && answer == (if told.None? then StatusIs(row.status, row.address)
                        else if told.value.Destroyed? then StatusIs(Unknown, "")
                        else StatusIs(told.value, row.address))
          && (n == 4 <==> told.Some? && told.value != row.status)
          && (n == 4 ==> if told.value.Destroyed? then Removes(turns, 3, row.id)
                         else Rewrote(turns, 3, row.id, told.value, row.address)))
  }

  ghost predicate StatusStands(user: string, challenge: string, turns: seq<Turn>, pc: Pc) {
    var n := |turns|;
    match pc
    case Check(req) => req == Request.Status(user, challenge) && n == 0
    case Find(req) => req == Request.Status(user, challenge) && n == 1 && WentOk(turns, 0) && Still(turns, 0)
    case Ask(row) =>
      n == 2 && WentOk(turns, 0) && Still(turns, 0) && LookedUp(turns, 1, user, challenge) && Saw(turns, 1, row)
    case Delete(id, stopping) => !stopping && Told(user, challenge, turns, Destroyed) && id == turns[1].before[turns[1].a.seen.id].id
    case Record(row) =>
      && Told(user, challenge, turns, row.status) && !row.status.Destroyed?
      && row == turns[1].before[turns[1].a.seen.id].(status := row.status)
    case Done(answer) => StatusAnswer(user, challenge, turns, answer)
    case _ => false
  }

  // The manager told a status that is not the row's.
  predicate Told(user: string, challenge: string, turns: seq<Turn>, status: Status) {
    && |turns| == 3 && WentOk(turns, 0) && Still(turns, 0) && LookedUp(turns, 1, user, challenge) && turns[1].a.seen.Sees?
    && turns[2].a.Go? && Still(turns, 2) && turns[2].a.told == Some(status)
    && status != turns[1].before[turns[1].a.seen.id].status
  }

  ghost predicate Stands(req: Request, turns: seq<Turn>, pc: Pc) {
    match req
    case Start(user, challenge) => StartStands(user, challenge, turns, pc)
    case Stop(user, challenge) => StopStands(user, challenge, turns, pc)
    case Status(user, challenge) => StatusStands(user, challenge, turns, pc)
  }

  ghost predicate Answered(req: Request, turns: seq<Turn>, answer: Answer) {
    match req
    case Start(user, challenge) => StartAnswer(user, challenge, turns, answer)
    case Stop(user, challenge) => StopAnswer(user, challenge, turns, answer)
    case Status(user, challenge) => StatusAnswer(user, challenge, turns, answer)
  }

  lemma Longer(turns: seq<Turn>, t: Turn)
    ensures var more := turns + [t];
            && more[|turns|] == t && forall i | 0 <= i < |turns| :: more[i] == turns[i]
  {
  }

  lemma StartGoes(user: string, challenge: string, turns: seq<Turn>, w: World, p: nat, pc: Pc, a: Action)
    requires StartStands(user, challenge, turns, pc) && a.Go? && Advance(w, p, pc, a).1 != pc && WorldOk(w)
    ensures var (w', pc') := Advance(w, p, pc, a);
            StartStands(user, challenge, turns + [Turn(w.rows, a, w'.rows)], pc')
  {
    var t := Turn(w.rows, a, Advance(w, p, pc, a).0.rows);
    Longer(turns, t);
    if pc.Find? && a.seen.Sees? {
      assert Saw(turns + [t], 0, w.rows[a.seen.id]);
    }
  }

  lemma StopGoes(user: string, challenge: string, turns: seq<Turn>, w: World, p: nat, pc: Pc, a: Action)
    requires StopStands(user, challenge, turns, pc) && a.Go? && Advance(w, p, pc, a).1 != pc && WorldOk(w)
    ensures var (w', pc') := Advance(w, p, pc, a);
            StopStands(user, challenge, turns + [Turn(w.rows, a, w'.rows)], pc')
  {
    var t := Turn(w.rows, a, Advance(w, p, pc, a).0.rows);
    Longer(turns, t);
    if pc.Find? && a.seen.Sees? {
      assert Saw(turns + [t], 1, w.rows[a.seen.id]);
    }
  }

  lemma StatusGoes(user: string, challenge: string, turns: seq<Turn>, w: World, p: nat, pc: Pc, a: Action)
    requires StatusStands(user, challenge, turns, pc) && a.Go? && Advance(w, p, pc, a).1 != pc && WorldOk(w)
    ensures var (w', pc') := Advance(w, p, pc, a);
            StatusStands(user, challenge, turns + [Turn(w.rows, a, w'.rows)], pc')
  {
    Longer(turns, Turn(w.rows, a, Advance(w, p, pc, a).0.rows));
  }

  lemma FollowsStep(s: State, a: Action, p: nat, req: Request, turns: seq<Turn>)
    requires WorldOk(s.w) && p in s.procs && Stands(req, turns, s.procs[p])
    ensures p in Step(s, a).procs && Stands(req, turns + OwnTurn(s, a, p), Step(s, a).procs[p])
  {
    if OwnTurn(s, a, p) == [] {
      assert turns + [] == turns && Step(s, a).procs[p] == s.procs[p];
    } else {
      match req
      case Start(user, challenge) => StartGoes(user, challenge, turns, s.w, p, s.procs[p], a);
      case Stop(user, challenge) => StopGoes(user, challenge, turns, s.w, p, s.procs[p], a);
      case Status(user, challenge) => StatusGoes(user, challenge, turns, s.w, p, s.procs[p], a);
    }
  }

  lemma {:induction false} KeepsInv(s: State, acts: seq<Action>)
    requires Inv(s)
    ensures Inv(Exec(s, acts))
  {
    if acts != [] {
      KeepsInv(s, acts[..|acts| - 1]);
      StepKeepsInv(Exec(s, acts[..|acts| - 1]), acts[|acts| - 1]);
    }
  }

  lemma {:induction false} Follows(s: State, acts: seq<Action>, p: nat, req: Request)
    requires Inv(s) && p in s.procs && Stands(req, [], s.procs[p])
    ensures var s' := Exec(s, acts);
            p in s'.procs && Stands(req, Turns(s, acts, p), s'.procs[p])
  {
    if acts != [] {
      var before := acts[..|acts| - 1];
      Follows(s, before, p, req);
      KeepsInv(s, before);
      FollowsStep(Exec(s, before), acts[|acts| - 1], p, req, Turns(s, before, p));
    }
  }

  lemma Ends(req: Request, turns: seq<Turn>, pc: Pc)
    requires Stands(req, turns, pc)
    ensures if pc.Done? then Answered(req, turns, pc.answer) else |turns| < 4
  {
  }

  /** A request along any run: how it is answered and what its calls do to the table. */
  lemma AnsweredExactly(acts: seq<Action>, later: seq<Action>, p: nat, req: Request)
    requires p !in Exec(EMPTY, acts).procs
    ensures var s := Step(Exec(EMPTY, acts), Receive(p, req));
            var s' := Exec(s, later);
            var turns := Turns(s, later, p);
            p in s'.procs && if s'.procs[p].Done? then Answered(req, turns, s'.procs[p].answer) else |turns| < 4
  {
    RunInv(acts);
    StepKeepsInv(Exec(EMPTY, acts), Receive(p, req));
    var s := Step(Exec(EMPTY, acts), Receive(p, req));
    Follows(s, later, p, req);
    Ends(req, Turns(s, later, p), Exec(s, later).procs[p]);
  }

  /** No request stands still: its next step is a call, unless a read does not give what the table holds or the manager
      is said to reuse an id. */
  lemma NeverStuck(s: State, a: Action)
    requires a.Go? && a.p in s.procs && !s.procs[a.p].Done? && a.id !in s.w.issued
    requires s.procs[a.p].Find? ==> Faithful(s.w.rows, s.procs[a.p].req.user, s.procs[a.p].req.challenge, a.seen)
    ensures OwnTurn(s, a, a.p) != []
  {
  }

  // The rows of a pair that are not destroyed.
  lemma {:induction false} Newest(rows: Rows, ids: set<Id>) returns (id: Id)
    requires ids != {} && forall i | i in ids :: i in rows
    ensures id in ids && forall i | i in ids :: rows[i].started <= rows[id].started
    decreases |ids|
  {
    id :| id in ids;
    if ids != {id} {
      var other := Newest(rows, ids - {id});
      if rows[other].started > rows[id].started {
        id := other;
      }
    }
  }

  /** The query for a pair always has an answer: no row exactly when there is none, else a newest one. */
  lemma SomethingFound(rows: Rows, user: string, challenge: string)
    ensures Faithful(rows, user, challenge, NoRow) <==> !AnyLive(rows, user, challenge)
    ensures AnyLive(rows, user, challenge) ==> exists id :: Faithful(rows, user, challenge, Sees(id))
  {
    if AnyLive(rows, user, challenge) {
      var ids := LiveIds(rows, user, challenge);
      var some :| some in rows && Live(rows, user, challenge, some);
      assert some in ids;
      var id := Newest(rows, ids);
      assert Faithful(rows, user, challenge, Sees(id)) by {
        assert forall other | other in rows && Live(rows, user, challenge, other) :: other in ids;
      }
    }
  }
}
