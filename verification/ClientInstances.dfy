/**
 * The server's table of users' instances (ctf-server/usecase/client_challenge.go,
 * ctf-server/infrastructure/repository/instance_repository.go): start, stop and status requests, interleaved
 * between all their calls to the table and to the manager.
 */
module ClientInstances {
  import opened Common

  datatype Status = Running | Stopped | Destroyed | Unknown

  datatype Row = Row(id: Id, user: string, challenge: string, status: Status, address: string, started: int)

  type Rows = map<Id, Row>

  datatype Request =
    | Start(user: string, challenge: string)
    | Stop(user: string, challenge: string)
    | Status(user: string, challenge: string)

  // StatusIs("unknown", "") is the answer for an instance that is not there.
  datatype Answer = Error | At(address: string) | Removed | StatusIs(status: Status, address: string)

  /** What FindByUserAndChallenge came back with. */
  datatype Seen = Unread | NoRow | Sees(id: Id)

  // Where a request is: the call it makes next.
  datatype Pc =
    | Check(req: Request)                                        // the challenge exists
    | Find(req: Request)
    | Restart(row: Row)                                          // the manager's StartInstance for a stopped row
    | Refresh(row: Row)                                          // updating the restarted row
    | Launch(user: string, challenge: string, despite: bool)     // the manager's StartInstance for a new row
    | Create(row: Row, despite: bool)
    | Destroy(row: Row)                                          // the manager's DestroyInstance
    | Delete(id: Id, stopping: bool)
    | Ask(row: Row)                                              // the manager's GetInstanceStatus
    | Record(row: Row)                                           // updating the status
    | Done(answer: Answer)

  /**
   * The table, and history: the request each id reported by the manager went to, the ids ever stored in a row,
   * those the manager reported destroyed, those never stored, and the pairs given a row beside another one.
   */
  datatype World = World(
    rows: Rows, issued: map<Id, nat>, stored: set<Id>, released: set<Id>, leaked: set<Id>, doubled: set<(string, string)>)

  datatype State = State(w: World, procs: map<nat, Pc>)

  /** How the current call of a request ends: the read's result, and the id, address, state and time it was given. */
  datatype Action =
    | Receive(p: nat, req: Request)
    | Go(p: nat, c: Choice, seen: Seen, id: Id, address: string, told: Option<Status>, now: int)

  predicate Applied(c: Choice) { c.Ok? || c.FailApplied? }

  predicate Live(rows: Rows, user: string, challenge: string, id: Id) {
    id in rows && rows[id].user == user && rows[id].challenge == challenge && rows[id].status != Destroyed
  }

  predicate AnyLive(rows: Rows, user: string, challenge: string) {
    exists id | id in rows :: Live(rows, user, challenge, id)
  }

  /** The query returns a newest row that is not destroyed, or none when there is none. */
  predicate Faithful(rows: Rows, user: string, challenge: string, seen: Seen) {
    match seen
    case Unread => true
    case NoRow => !AnyLive(rows, user, challenge)
    case Sees(id) =>
      && Live(rows, user, challenge, id)
      && forall other | other in rows :: Live(rows, user, challenge, other) ==> rows[other].started <= rows[id].started
  }

  function Admit(req: Request): Pc { if req.Start? then Find(req) else Check(req) }

  /** UPDATE of status and address by id. */
  function Put(rows: Rows, row: Row): Rows {
    if row.id in rows then rows[row.id := rows[row.id].(status := row.status, address := row.address)] else rows
  }

  /** What a request does with the row it found, or did not find. */
  function Found(w: World, req: Request, seen: Seen): Pc
    requires Faithful(w.rows, req.user, req.challenge, seen)
  {
    match req
    case Start(user, challenge) =>
      if !seen.Sees? then Launch(user, challenge, AnyLive(w.rows, user, challenge))
      else if w.rows[seen.id].status.Running? then Done(Error)
      else if w.rows[seen.id].status.Stopped? then Restart(w.rows[seen.id])
      else Launch(user, challenge, true)
    case Stop(_, _) =>
      if !seen.Sees? || w.rows[seen.id].status.Stopped? || w.rows[seen.id].status.Destroyed? then Done(Error)
      else Destroy(w.rows[seen.id])
    case Status(_, _) =>
      if seen.Unread? then Done(Error)
      else if seen.NoRow? then Done(StatusIs(Unknown, ""))
      else Ask(w.rows[seen.id])
  }

  /** The manager's StartInstance: ids are never reused. A restart drops the new id. */
  function Started(w: World, p: nat, pc: Pc, a: Action): (World, Pc)
    requires a.Go? && (pc.Restart? || pc.Launch?)
  {
    if !a.c.Ok? then (w, Done(Error))
    else if a.id in w.issued then (w, pc)
    else
      var w' := w.(issued := w.issued[a.id := p]);
      if pc.Restart? then (w'.(leaked := w.leaked + {a.id}), Refresh(pc.row.(status := Running, address := a.address)))
      else (w', Create(Row(a.id, pc.user, pc.challenge, Running, a.address, a.now), pc.despite))
  }

  function Created(w: World, row: Row, despite: bool, c: Choice): World {
    if !Applied(c) then w.(leaked := w.leaked + {row.id})
    else w.(rows := w.rows[row.id := row], stored := w.stored + {row.id},
            doubled := if despite then w.doubled + {(row.user, row.challenge)} else w.doubled)
  }

  function Asked(w: World, row: Row, told: Option<Status>): (World, Pc) {
    if told.None? then (w, Done(StatusIs(row.status, row.address)))
    else if told.value.Destroyed? then (w.(released := w.released + {row.id}), Delete(row.id, false))
    else if told.value != row.status then (w, Record(row.(status := told.value)))
    else (w, Done(StatusIs(row.status, row.address)))
  }

  function Advance(w: World, p: nat, pc: Pc, a: Action): (World, Pc)
    requires a.Go?
  {
    match pc
    case Check(req) => (w, if a.c.Ok? then Find(req) else Done(Error))
    case Find(req) => (w, if Faithful(w.rows, req.user, req.challenge, a.seen) then Found(w, req, a.seen) else pc)
    case Restart(_) => Started(w, p, pc, a)
    case Refresh(row) =>
      (if Applied(a.c) then w.(rows := Put(w.rows, row)) else w,
       Done(if a.c.Ok? && row.id in w.rows then At(row.address) else Error))
    case Launch(_, _, _) => Started(w, p, pc, a)
    case Create(row, despite) => (Created(w, row, despite, a.c), Done(if a.c.Ok? then At(row.address) else Error))
    case Destroy(row) =>
      if a.c.Ok? then (w.(released := w.released + {row.id}), Delete(row.id, true)) else (w, Done(Error))
    case Delete(id, stopping) =>
      (if Applied(a.c) then w.(rows := w.rows - {id}) else w,
       Done(if !stopping then StatusIs(Unknown, "") else if a.c.Ok? && id in w.rows then Removed else Error))
    case Ask(row) => Asked(w, row, a.told)
    case Record(row) =>
      (if Applied(a.c) then w.(rows := Put(w.rows, row)) else w, Done(StatusIs(row.status, row.address)))
    case Done(_) => (w, pc)
  }

  function Step(s: State, a: Action): State {
    match a
    case Receive(p, req) => if p in s.procs then s else s.(procs := s.procs[p := Admit(req)])
    case Go(p, _, _, _, _, _, _) =>
      if p !in s.procs then s
      else
        var (w, pc) := Advance(s.w, p, s.procs[p], a);
        State(w, s.procs[p := pc])
  }

  function Exec(s: State, acts: seq<Action>): State {
    if acts == [] then s else Step(Exec(s, acts[..|acts| - 1]), acts[|acts| - 1])
  }

  const EMPTY := State(World(map[], map[], {}, {}, {}, {}), map[])

  // The row a request has in hand from the table.
  predicate Holds(pc: Pc) { pc.Restart? || pc.Refresh? || pc.Destroy? || pc.Ask? || pc.Record? }

  ghost predicate WorldOk(w: World) {
    && (forall id | id in w.rows :: w.rows[id].id == id && id in w.stored && w.rows[id].status != Destroyed)
    && w.stored <= w.issued.Keys && w.leaked <= w.issued.Keys && w.stored !! w.leaked && w.released <= w.stored
    && (forall id | id in w.stored :: id in w.rows || id in w.released)
  }

  ghost predicate PcOk(w: World, p: nat, pc: Pc) {
    && (Holds(pc) ==> pc.row.id in w.stored && pc.row.status != Destroyed)
    && (pc.Create? ==>
          && pc.row.status == Running && pc.row.id in w.issued && w.issued[pc.row.id] == p
          && pc.row.id !in w.stored && pc.row.id !in w.leaked)
    && (pc.Delete? ==> pc.id in w.released)
  }

  /** An id the manager issued is stored, lost, or about to be stored by the request it went to. */
  ghost predicate Accounted(s: State, id: Id) {
    id in s.w.issued ==>
      || id in s.w.stored || id in s.w.leaked
      || (s.w.issued[id] in s.procs && s.procs[s.w.issued[id]].Create? && s.procs[s.w.issued[id]].row.id == id)
  }

  ghost predicate Inv(s: State) {
    WorldOk(s.w) && (forall p | p in s.procs :: PcOk(s.w, p, s.procs[p])) && (forall id :: Accounted(s, id))
  }

  /** What a step of process p leaves alone for the others. */
  ghost predicate Rely(p: nat, w: World, w': World) {
    && (forall id | id in w.issued :: id in w'.issued && w'.issued[id] == w.issued[id])
    && (forall id | id in w'.issued && w'.issued[id] != p ::
          (id in w'.stored <==> id in w.stored) && (id in w'.leaked <==> id in w.leaked))
    && w.stored <= w'.stored && w.released <= w'.released && w.leaked <= w'.leaked
    && (forall id | id in w'.issued :: id in w.issued || w'.issued[id] == p)
  }

  lemma FindStep(w: World, p: nat, req: Request, a: Action)
    requires WorldOk(w) && a.Go?
    ensures var (w', pc') := Advance(w, p, Find(req), a); w' == w && PcOk(w', p, pc') && !pc'.Create?
  {
  }

  lemma StartedOk(w: World, p: nat, pc: Pc, a: Action)
    requires WorldOk(w) && PcOk(w, p, pc) && a.Go? && (pc.Restart? || pc.Launch?)
    ensures var (w', pc') := Started(w, p, pc, a); WorldOk(w') && PcOk(w', p, pc') && Rely(p, w, w')
  {
  }

  lemma CreatedOk(w: World, p: nat, pc: Pc, a: Action)
    requires WorldOk(w) && PcOk(w, p, pc) && a.Go? && pc.Create?
    ensures var (w', pc') := Advance(w, p, pc, a); WorldOk(w') && PcOk(w', p, pc') && Rely(p, w, w')
  {
  }

  lemma PutOk(w: World, p: nat, row: Row)
    requires WorldOk(w) && row.status != Destroyed
    ensures var w' := w.(rows := Put(w.rows, row)); WorldOk(w') && Rely(p, w, w')
  {
  }

  lemma AdvanceOk(w: World, p: nat, pc: Pc, a: Action)
    requires WorldOk(w) && PcOk(w, p, pc) && a.Go?
    ensures var (w', pc') := Advance(w, p, pc, a); WorldOk(w') && PcOk(w', p, pc') && Rely(p, w, w')
  {
    if pc.Find? {
      FindStep(w, p, pc.req, a);
    } else if pc.Restart? || pc.Launch? {
      StartedOk(w, p, pc, a);
    } else if pc.Create? {
      CreatedOk(w, p, pc, a);
    } else if pc.Refresh? || pc.Record? {
      PutOk(w, p, pc.row);
    }
  }

  lemma AccountedStep(s: State, a: Action, id: Id)
    requires Inv(s)
    ensures Accounted(Step(s, a), id)
  {
    assert Accounted(s, id);
    if a.Go? && a.p in s.procs && s.procs[a.p].Find? {
      FindStep(s.w, a.p, s.procs[a.p].req, a);
    }
  }

  lemma StepKeepsInv(s: State, a: Action)
    requires Inv(s)
    ensures Inv(Step(s, a))
  {
    var s' := Step(s, a);
    if a.Go? && a.p in s.procs {
      AdvanceOk(s.w, a.p, s.procs[a.p], a);
      forall q | q in s'.procs ensures PcOk(s'.w, q, s'.procs[q]) {
        assert q != a.p ==> PcOk(s.w, q, s.procs[q]) && Rely(a.p, s.w, s'.w);
      }
    }
    forall id: Id ensures Accounted(s', id) { AccountedStep(s, a, id); }
  }

  lemma {:induction false} RunInv(acts: seq<Action>)
    ensures Inv(Exec(EMPTY, acts))
  {
    if acts != [] {
      RunInv(acts[..|acts| - 1]);
      StepKeepsInv(Exec(EMPTY, acts[..|acts| - 1]), acts[|acts| - 1]);
    }
  }

  /** Over every interleaving and failure: no stored row is ever destroyed; a row that is gone was reported
      destroyed by the manager; and every instance the manager reported is in a row, was released, is about to be
      stored, or is lost. */
  lemma EveryInstanceAccounted(acts: seq<Action>)
    ensures var s := Exec(EMPTY, acts);
            && (forall id | id in s.w.rows :: s.w.rows[id].status != Destroyed)
            && (forall id | id in s.w.issued ::
                  || id in s.w.rows || id in s.w.released || id in s.w.leaked
                  || (s.w.issued[id] in s.procs && s.procs[s.w.issued[id]].Create? && s.procs[s.w.issued[id]].row.id == id))
  {
    RunInv(acts);
    var s := Exec(EMPTY, acts);
    forall id | id in s.w.issued
      ensures || id in s.w.rows || id in s.w.released || id in s.w.leaked
              || (s.w.issued[id] in s.procs && s.procs[s.w.issued[id]].Create? && s.procs[s.w.issued[id]].row.id == id)
    {
      assert Accounted(s, id);
    }
  }

  /** A row is removed only by a request whose manager call answered success or destroyed for it. */
  lemma ReleasedBefore(acts: seq<Action>, a: Action, id: Id)
    requires id in Exec(EMPTY, acts).w.rows && id !in Step(Exec(EMPTY, acts), a).w.rows
    ensures id in Exec(EMPTY, acts).w.released
    ensures a.Go? && Exec(EMPTY, acts).procs[a.p].Delete? && Exec(EMPTY, acts).procs[a.p].id == id
  {
    RunInv(acts);
  }

  /** A restart loses the instance it started: the row keeps the old id, and from then on no row names the new
      one and no request will ever stop it or ask about it. */
  lemma {:induction false} RestartLoses(acts: seq<Action>, a: Action, later: seq<Action>)
    requires var s := Exec(EMPTY, acts);
             a.Go? && a.p in s.procs && s.procs[a.p].Restart? && a.c.Ok? && a.id !in s.w.issued
    ensures var s := Exec(EMPTY, acts);
            var s' := Exec(Step(s, a), later);
            && Step(s, a).procs[a.p].Refresh? && Step(s, a).procs[a.p].row.id == s.procs[a.p].row.id
            && a.id in s'.w.leaked && a.id !in s'.w.rows
            && forall q | q in s'.procs && (Holds(s'.procs[q]) || s'.procs[q].Create?) :: s'.procs[q].row.id != a.id
  {
    var s := Exec(EMPTY, acts);
    RunInv(acts);
    StepKeepsInv(s, a);
    LostForGood(Step(s, a), later, a.id);
  }

  lemma {:induction false} LostForGood(s: State, later: seq<Action>, id: Id)
    requires Inv(s) && id in s.w.leaked
    ensures var s' := Exec(s, later);
            && Inv(s') && id in s'.w.leaked && id !in s'.w.rows
            && forall q | q in s'.procs && (Holds(s'.procs[q]) || s'.procs[q].Create?) :: s'.procs[q].row.id != id
  {
    if later != [] {
      LostForGood(s, later[..|later| - 1], id);
      StepKeepsInv(Exec(s, later[..|later| - 1]), later[|later| - 1]);
    }
  }

  // A step that loses an instance: a restart that drops the id it was given, or an insert that did not happen.
  predicate Loses(s: State, a: Action, id: Id) {
    && a.Go? && a.p in s.procs
    && (|| (s.procs[a.p].Restart? && a.c.Ok? && a.id == id && id !in s.w.issued)
        || (s.procs[a.p].Create? && s.procs[a.p].row.id == id && !Applied(a.c)))
  }

  lemma LosesStep(s: State, a: Action, id: Id)
    ensures id in Step(s, a).w.leaked <==> id in s.w.leaked || Loses(s, a, id)
  {
  }

  ghost predicate LosesAt(acts: seq<Action>, n: nat, id: Id) {
    n < |acts| && Loses(Exec(EMPTY, acts[..n]), acts[n], id)
  }

  lemma LosesBefore(acts: seq<Action>, n: nat, id: Id)
    requires n < |acts| - 1
    ensures LosesAt(acts[..|acts| - 1], n, id) <==> LosesAt(acts, n, id)
  {
    assert acts[..|acts| - 1][..n] == acts[..n];
  }

  /** An instance is lost exactly when a restart was given its id, or the insert of its row did not happen. */
  lemma {:induction false} LostExactly(acts: seq<Action>, id: Id)
    ensures id in Exec(EMPTY, acts).w.leaked <==> exists n: nat :: LosesAt(acts, n, id)
  {
    if acts != [] {
      var last := |acts| - 1;
      LostExactly(acts[..last], id);
      LosesStep(Exec(EMPTY, acts[..last]), acts[last], id);
      if n: nat :| LosesAt(acts[..last], n, id) {
        LosesBefore(acts, n, id);
      }
      if n: nat :| LosesAt(acts, n, id) {
        if n < last {
          LosesBefore(acts, n, id);
        }
      }
      assert LosesAt(acts, last, id) <==> Loses(Exec(EMPTY, acts[..last]), acts[last], id);
    }
  }

  ghost predicate Lone(s: State) {
    forall p, q | p in s.procs && q in s.procs :: s.procs[p].Done? || s.procs[q].Done? || p == q
  }

  // One request at a time.
  ghost predicate Serial(acts: seq<Action>) { forall k | 0 <= k <= |acts| :: Lone(Exec(EMPTY, acts[..k])) }

  lemma SerialPrefix(acts: seq<Action>)
    requires acts != [] && Serial(acts)
    ensures Serial(acts[..|acts| - 1]) && Lone(Exec(EMPTY, acts[..|acts| - 1]))
  {
    var before := acts[..|acts| - 1];
    assert acts[..|before|] == before;
    forall k | 0 <= k <= |before| ensures Lone(Exec(EMPTY, before[..k])) {
      assert before[..k] == acts[..k];
    }
  }

  ghost predicate AtMostOne(rows: Rows, user: string, challenge: string) {
    forall i, j | i in rows && j in rows && Live(rows, user, challenge, i) && Live(rows, user, challenge, j) :: i == j
  }

  ghost predicate OneOrDoubled(w: World, user: string, challenge: string) {
    (user, challenge) in w.doubled || AtMostOne(w.rows, user, challenge)
  }

  // What a request about to create a row knows of the rows already there.
  ghost predicate Informed(rows: Rows, pc: Pc) {
    && (pc.Launch? ==> (pc.despite <==> AnyLive(rows, pc.user, pc.challenge)))
    && (pc.Create? ==> pc.row.id !in rows && (pc.despite <==> AnyLive(rows, pc.row.user, pc.row.challenge)))
  }

  ghost predicate SerialInv(s: State) {
    && (forall p | p in s.procs :: Informed(s.w.rows, s.procs[p]))
    && (forall user, challenge :: OneOrDoubled(s.w, user, challenge))
  }

  lemma PutLive(rows: Rows, row: Row, user: string, challenge: string, id: Id)
    requires row.status != Destroyed && forall i | i in rows :: rows[i].status != Destroyed
    ensures Live(Put(rows, row), user, challenge, id) <==> Live(rows, user, challenge, id)
  {
  }

  // Requests that add no row keep the live rows of a pair or fewer.
  lemma NoneAdded(w: World, p: nat, pc: Pc, a: Action, user: string, challenge: string, id: Id)
    requires WorldOk(w) && PcOk(w, p, pc) && a.Go? && !pc.Create?
    ensures Live(Advance(w, p, pc, a).0.rows, user, challenge, id) ==> Live(w.rows, user, challenge, id)
    ensures w.doubled == Advance(w, p, pc, a).0.doubled
  {
    if pc.Refresh? || pc.Record? {
      PutLive(w.rows, pc.row, user, challenge, id);
    }
  }

  lemma OneStep(w: World, p: nat, pc: Pc, a: Action, user: string, challenge: string)
    requires WorldOk(w) && PcOk(w, p, pc) && a.Go? && Informed(w.rows, pc) && OneOrDoubled(w, user, challenge)
    ensures OneOrDoubled(Advance(w, p, pc, a).0, user, challenge)
  {
    var rows := Advance(w, p, pc, a).0.rows;
    if !pc.Create? {
      forall id ensures Live(rows, user, challenge, id) ==> Live(w.rows, user, challenge, id) {
        NoneAdded(w, p, pc, a, user, challenge, id);
      }
      NoneAdded(w, p, pc, a, user, challenge, "");
    }
  }

  lemma InformedStep(w: World, p: nat, pc: Pc, a: Action)
    requires WorldOk(w) && a.Go? && Informed(w.rows, pc)
    ensures Informed(Advance(w, p, pc, a).0.rows, Advance(w, p, pc, a).1)
  {
    if pc.Find? && a.seen.Sees? && pc.req.Start? && Faithful(w.rows, pc.req.user, pc.req.challenge, a.seen) {
      assert Live(w.rows, pc.req.user, pc.req.challenge, a.seen.id);
    }
  }

  lemma SerialGo(s: State, a: Action)
    requires Inv(s) && SerialInv(s) && a.Go? && a.p in s.procs
    requires forall p | p in s.procs && p != a.p :: s.procs[p].Done?
    ensures SerialInv(Step(s, a))
  {
    var w, pc := s.w, s.procs[a.p];
    InformedStep(w, a.p, pc, a);
    forall user, challenge ensures OneOrDoubled(Step(s, a).w, user, challenge) {
      assert OneOrDoubled(w, user, challenge);
      OneStep(w, a.p, pc, a, user, challenge);
    }
  }

  lemma SerialStep(s: State, a: Action)
    requires Inv(s) && Lone(s) && SerialInv(s)
    ensures SerialInv(Step(s, a))
  {
    if a.Go? && a.p in s.procs && !s.procs[a.p].Done? {
      SerialGo(s, a);
    }
  }

  lemma {:induction false} SerialRun(acts: seq<Action>)
    requires Serial(acts)
    ensures SerialInv(Exec(EMPTY, acts))
  {
    if acts != [] {
      SerialPrefix(acts);
      SerialRun(acts[..|acts| - 1]);
      RunInv(acts[..|acts| - 1]);
      SerialStep(Exec(EMPTY, acts[..|acts| - 1]), acts[|acts| - 1]);
    }
  }

  /** With one request at a time, storing a new row leaves its pair with a second live row exactly when the start
      went on although a row was there: it could not read the table, or found the row's status unknown. */
  lemma SecondRowExactly(acts: seq<Action>, a: Action)
    requires Serial(acts)
    requires var s := Exec(EMPTY, acts);
             && a.Go? && a.p in s.procs && s.procs[a.p].Create? && Applied(a.c)
             && (s.procs[a.p].row.user, s.procs[a.p].row.challenge) !in s.w.doubled
    ensures var pc := Exec(EMPTY, acts).procs[a.p];
            AtMostOne(Step(Exec(EMPTY, acts), a).w.rows, pc.row.user, pc.row.challenge) <==> !pc.despite
  {
    SerialRun(acts);
    RunInv(acts);
    var s := Exec(EMPTY, acts);
    SecondRow(s, a, s.procs[a.p].row);
  }

  lemma SecondRow(s: State, a: Action, row: Row)
    requires Inv(s) && SerialInv(s) && a.Go? && a.p in s.procs
    requires s.procs[a.p].Create? && row == s.procs[a.p].row && Applied(a.c)
    requires (row.user, row.challenge) !in s.w.doubled
    ensures AtMostOne(Step(s, a).w.rows, row.user, row.challenge) <==> !s.procs[a.p].despite
  {
    var rows := Step(s, a).w.rows;
    assert OneOrDoubled(s.w, row.user, row.challenge);
    assert Live(rows, row.user, row.challenge, row.id);
    if s.procs[a.p].despite {
      var other :| other in s.w.rows && Live(s.w.rows, row.user, row.challenge, other);
      assert Live(rows, row.user, row.challenge, other);
    }
  }

  /** A start goes on although a live row is there exactly when its read failed or the row's status is unknown. */
  lemma DespiteExactly(w: World, user: string, challenge: string, seen: Seen)
    requires WorldOk(w) && Faithful(w.rows, user, challenge, seen)
    ensures Found(w, Start(user, challenge), seen).Launch? && AnyLive(w.rows, user, challenge)
            <==> (seen.Unread? && AnyLive(w.rows, user, challenge)) || (seen.Sees? && w.rows[seen.id].status == Unknown)
  {
    if seen.Sees? {
      assert Live(w.rows, user, challenge, seen.id);
    }
  }

  // No start fails to read the table and the manager never reports an unknown status.
  predicate Calm(a: Action) { a.Go? ==> a.seen != Unread && a.told != Some(Unknown) }

  ghost predicate CalmWorld(w: World) { w.doubled == {} && forall id | id in w.rows :: w.rows[id].status != Unknown }

  predicate CalmPc(pc: Pc) {
    && (Holds(pc) || pc.Create? ==> pc.row.status != Unknown)
    && (pc.Launch? || pc.Create? ==> !pc.despite)
  }

  ghost predicate CalmInv(s: State) { CalmWorld(s.w) && forall p | p in s.procs :: CalmPc(s.procs[p]) }

  lemma CalmStep(s: State, a: Action)
    requires CalmInv(s) && Calm(a)
    ensures CalmInv(Step(s, a))
  {
  }

  lemma {:induction false} CalmRun(acts: seq<Action>)
    requires forall a | a in acts :: Calm(a)
    ensures CalmInv(Exec(EMPTY, acts))
  {
    if acts != [] {
      CalmRun(acts[..|acts| - 1]);
      CalmStep(Exec(EMPTY, acts[..|acts| - 1]), acts[|acts| - 1]);
    }
  }

  /** One live row per user and challenge on every serial run without failed reads and unknown statuses. */
  lemma OneRowPerPair(acts: seq<Action>, i: Id, j: Id)
    requires Serial(acts) && forall a | a in acts :: Calm(a)
    ensures var rows := Exec(EMPTY, acts).w.rows;
            i in rows && j in rows && rows[i].user == rows[j].user && rows[i].challenge == rows[j].challenge ==> i == j
  {
    SerialRun(acts);
    CalmRun(acts);
    RunInv(acts);
    var s := Exec(EMPTY, acts);
    OneRow(s, i, j);
  }

  lemma OneRow(s: State, i: Id, j: Id)
    requires WorldOk(s.w) && SerialInv(s) && s.w.doubled == {}
    ensures var rows := s.w.rows;
            i in rows && j in rows && rows[i].user == rows[j].user && rows[i].challenge == rows[j].challenge ==> i == j
  {
    if i in s.w.rows {
      assert OneOrDoubled(s.w, s.w.rows[i].user, s.w.rows[i].challenge);
    }
  }

  function LiveIds(rows: Rows, user: string, challenge: string): set<Id> {
    set id | id in rows && Live(rows, user, challenge, id)
  }

  // A start that will add a row for the pair.
  predicate Adds(pc: Pc, user: string, challenge: string) {
    || (pc.Launch? && pc.user == user && pc.challenge == challenge)
    || (pc.Create? && pc.row.user == user && pc.row.challenge == challenge)
  }

  function Adding(procs: map<nat, Pc>, user: string, challenge: string): set<nat> {
    set p | p in procs && Adds(procs[p], user, challenge)
  }

  // A request joins those about to add a row only when there is none.
  lemma JoinsWhenNone(w: World, p: nat, pc: Pc, a: Action, user: string, challenge: string)
    requires WorldOk(w) && CalmWorld(w) && a.Go? && Calm(a)
    requires Adds(Advance(w, p, pc, a).1, user, challenge) && !Adds(pc, user, challenge)
    ensures LiveIds(Advance(w, p, pc, a).0.rows, user, challenge) == {}
  {
  }

  // A row is added only by a request that then is done.
  lemma AddsItsRow(w: World, p: nat, pc: Pc, a: Action, user: string, challenge: string)
    requires WorldOk(w) && PcOk(w, p, pc) && a.Go?
    ensures var (w', pc') := Advance(w, p, pc, a);
            var before, after := LiveIds(w.rows, user, challenge), LiveIds(w'.rows, user, challenge);
            after <= before || (pc.Create? && Adds(pc, user, challenge) && pc'.Done? && after <= before + {pc.row.id})
  {
    if !pc.Create? {
      var w' := Advance(w, p, pc, a).0;
      forall id | id in LiveIds(w'.rows, user, challenge) ensures id in LiveIds(w.rows, user, challenge) {
        NoneAdded(w, p, pc, a, user, challenge, id);
      }
    }
  }

  lemma CountStep(s: State, a: Action, user: string, challenge: string)
    requires Inv(s) && CalmInv(s) && Calm(a)
    ensures var s' := Step(s, a);
            || LiveIds(s'.w.rows, user, challenge) == {}
            || |LiveIds(s'.w.rows, user, challenge)| + |Adding(s'.procs, user, challenge)|
               <= |LiveIds(s.w.rows, user, challenge)| + |Adding(s.procs, user, challenge)|
  {
    var s' := Step(s, a);
    var live, live' := LiveIds(s.w.rows, user, challenge), LiveIds(s'.w.rows, user, challenge);
    var adding, adding' := Adding(s.procs, user, challenge), Adding(s'.procs, user, challenge);
    if a.Go? && a.p in s.procs {
      AddsItsRow(s.w, a.p, s.procs[a.p], a, user, challenge);
      if a.p in adding' && a.p !in adding {
        JoinsWhenNone(s.w, a.p, s.procs[a.p], a, user, challenge);
      } else if live' <= live {
        Fewer(live', live);
        Fewer(adding', adding);
      } else {
        Fewer(live', live + {s.procs[a.p].row.id});
        Fewer(adding', adding - {a.p});
      }
    } else {
      assert adding' == adding;
    }
  }

  /** However many starts overlap, a pair has at most as many live rows as there ever were starts about to add one
      at the same time, on every run without failed reads and unknown statuses. */
  lemma {:induction false} RowsBounded(acts: seq<Action>, user: string, challenge: string, most: nat)
    requires forall a | a in acts :: Calm(a)
    requires forall n | 0 <= n <= |acts| :: |Adding(Exec(EMPTY, acts[..n]).procs, user, challenge)| <= most
    ensures var s := Exec(EMPTY, acts);
            |LiveIds(s.w.rows, user, challenge)| + |Adding(s.procs, user, challenge)| <= most
  {
    assert acts[..|acts|] == acts;
    if acts == [] {
      assert LiveIds(EMPTY.w.rows, user, challenge) == {};
    } else {
      var before := acts[..|acts| - 1];
      assert forall n | 0 <= n <= |before| :: before[..n] == acts[..n];
      RowsBounded(before, user, challenge, most);
      RunInv(before);
      CalmRun(before);
      CountStep(Exec(EMPTY, before), acts[|acts| - 1], user, challenge);
    }
  }

  function Then(x: (World, Pc), p: nat, a: Action): (World, Pc)
    requires a.Go?
  {
    Advance(x.0, p, x.1, a)
  }

  // Rows are keyed by their id.
  ghost predicate Keyed(rows: Rows) { forall id | id in rows :: rows[id].id == id }

  /** The requests running alone: p numbers the request, and each choice says how one call ends. */
  class Usecase {
    var rows: Rows
    ghost var history: World

    ghost function View(): World reads this { history.(rows := rows) }

    constructor ()
      ensures View() == EMPTY.w
    {
      rows := map[];
      history := EMPTY.w;
    }

    // The part of StartInstance for a stopped instance: the new id is dropped.
    method RestartInstance(p: nat, existing: Row, launch: Choice, write: Choice, id: Id, address: string,
                           ghost seen: Seen, now: int)
      returns (answer: Answer)
      requires Keyed(rows) && existing.id in rows && id !in history.issued
      modifies this
      ensures Keyed(rows) && rows.Keys == old(rows.Keys)
      ensures var go := (c: Choice) => Go(p, c, seen, id, address, None, now);
              (View(), Done(answer)) == Then(Then((old(View()), Restart(existing)), p, go(launch)), p, go(write))
      ensures answer.At? ==>
                && answer.address == address
                && rows[existing.id] == old(rows)[existing.id].(status := Running, address := address)
    {
      history := View();
      if !launch.Ok? {
        return Error;
      }
      history := history.(issued := history.issued[id := p], leaked := history.leaked + {id});
      var row := existing.(status := Running, address := address);
      if Applied(write) {
        rows := rows[row.id := rows[row.id].(status := row.status, address := row.address)];
      }
      answer := if write.Ok? then At(address) else Error;
    }

    // The part of StartInstance for a new instance.
    method LaunchInstance(p: nat, user: string, challenge: string, ghost despite: bool, launch: Choice, write: Choice,
                          id: Id, address: string, ghost seen: Seen, now: int)
      returns (answer: Answer)
      requires Keyed(rows) && id !in history.issued
      modifies this
      ensures Keyed(rows)
      ensures var go := (c: Choice) => Go(p, c, seen, id, address, None, now);
              (View(), Done(answer))
              == Then(Then((old(View()), Launch(user, challenge, despite)), p, go(launch)), p, go(write))
      ensures answer.At? ==>
                id in rows && rows[id] == Row(id, user, challenge, Running, address, now) && answer.address == address
    {
      history := View();
      if !launch.Ok? {
        return Error;
      }
      history := history.(issued := history.issued[id := p]);
      var row := Row(id, user, challenge, Running, address, now);
      if Applied(write) {
        rows := rows[id := row];
        history := history.(stored := history.stored + {id},
                            doubled := if despite then history.doubled + {(user, challenge)} else history.doubled);
      } else {
        history := history.(leaked := history.leaked + {id});
      }
      answer := if write.Ok? then At(address) else Error;
    }

    method StartInstance(p: nat, user: string, challenge: string, seen: Seen, launch: Choice, write: Choice,
                         id: Id, address: string, now: int)
      returns (answer: Answer)
      requires Keyed(rows) && Faithful(rows, user, challenge, seen) && id !in history.issued
      modifies this
      ensures Keyed(rows)
      ensures var go := (c: Choice) => Go(p, c, seen, id, address, None, now);
              var found := Then((old(View()), Find(Start(user, challenge))), p, go(Ok));
              (View(), Done(answer)) == Then(Then(found, p, go(launch)), p, go(write))
      ensures seen.Sees? && old(rows)[seen.id].status.Stopped? ==> rows.Keys == old(rows.Keys)
      ensures answer.At? ==> exists i | i in rows :: Live(rows, user, challenge, i) && rows[i].address == answer.address
    {
      ghost var despite := AnyLive(rows, user, challenge);
      if seen.Sees? {
        assert Live(rows, user, challenge, seen.id);
        var existing := rows[seen.id];
        if existing.status.Running? {
          history := View();
          return Error;
        }
        if existing.status.Stopped? {
          answer := RestartInstance(p, existing, launch, write, id, address, seen, now);
          assert answer.At? ==> Live(rows, user, challenge, seen.id);
          return answer;
        }
        despite := true;
      }
      answer := LaunchInstance(p, user, challenge, despite, launch, write, id, address, seen, now);
      assert answer.At? ==> Live(rows, user, challenge, id);
    }

    method StopInstance(p: nat, user: string, challenge: string, check: Choice, seen: Seen, destroy: Choice, delete: Choice)
      returns (answer: Answer)
      requires Keyed(rows) && Faithful(rows, user, challenge, seen)
      modifies this
      ensures Keyed(rows)
      ensures var go := (c: Choice) => Go(p, c, seen, "", "", None, 0);
              var checked := Then((old(View()), Check(Stop(user, challenge))), p, go(check));
              var found := Then(checked, p, go(Ok));
              var destroyed := Then(found, p, go(destroy));
              check.Ok? ==> (View(), Done(answer)) == Then(destroyed, p, go(delete))
      ensures !check.Ok? ==> answer == Error && View() == old(View())
      ensures answer.Removed? ==> seen.Sees? && rows == old(rows) - {seen.id}
    {
      history := View();
      if !check.Ok? || !seen.Sees? {
        return Error;
      }
      var instance := rows[seen.id];
      if instance.status.Stopped? || instance.status.Destroyed? {
        return Error;
      }
      if !destroy.Ok? {
        return Error;
      }
      history := history.(released := history.released + {instance.id});
      var found := instance.id in rows;
      if Applied(delete) {
        rows := rows - {instance.id};
      }
      answer := if delete.Ok? && found then Removed else Error;
    }

    method GetInstanceStatus(p: nat, user: string, challenge: string, check: Choice, seen: Seen, told: Option<Status>,
                             write: Choice)
      returns (answer: Answer)
      requires Keyed(rows) && Faithful(rows, user, challenge, seen)
      modifies this
      ensures Keyed(rows)
      ensures var go := (c: Choice) => Go(p, c, seen, "", "", told, 0);
              var checked := Then((old(View()), Check(Status(user, challenge))), p, go(check));
              var found := Then(checked, p, go(Ok));
              var asked := Then(found, p, go(Ok));
              check.Ok? ==> (View(), Done(answer)) == Then(asked, p, go(write))
      ensures !check.Ok? ==> answer == Error && View() == old(View())
      ensures told.None? ==> rows == old(rows)
      ensures check.Ok? && seen.Sees? && told == Some(Destroyed) ==> answer == StatusIs(Unknown, "")
      ensures check.Ok? && seen.Sees? && told == Some(Destroyed) && write.Ok? ==> rows == old(rows) - {seen.id}
      ensures check.Ok? && seen.Sees? && told.Some? && told.value != Destroyed ==>
                && answer == StatusIs(told.value, old(rows)[seen.id].address)
                && (write.Ok? ==> rows == old(rows)[seen.id := old(rows)[seen.id].(status := told.value)])
    {
      history := View();
      if !check.Ok? || seen.Unread? {
        return Error;
      }
      if seen.NoRow? {
        return StatusIs(Unknown, "");
      }
      var instance := rows[seen.id];
      if told.None? {
        return StatusIs(instance.status, instance.address);
      }
      var status := told.value;
      if status.Destroyed? {
        history := history.(released := history.released + {instance.id});
        if Applied(write) {
          rows := rows - {instance.id};
        }
        return StatusIs(Unknown, "");
      }
      if status != instance.status {
        instance := instance.(status := status);
        if Applied(write) && instance.id in rows {
          rows := rows[instance.id := rows[instance.id].(status := instance.status, address := instance.address)];
        }
      }
      answer := StatusIs(status, instance.address);
    }
  }
}
