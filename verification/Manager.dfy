/**
 * The instance manager (ctf-manager/service/manager.go, ctf-manager/repository/instance_repository.go): requests
 * over the table of instances and the runners' containers, interleaved between all their calls to either.
 */
module Manager {
  import opened Common

  datatype InstanceState = Unspecified | Running | Stopped | Destroyed

  datatype Place = Place(runner: string, container: string)

  datatype Row = Row(place: Place, state: InstanceState)

  type Rows = map<Id, Row>

  /** INSERT: the id is the primary key. */
  function InsertRow(rows: Rows, id: Id, row: Row): Rows { if id in rows then rows else rows[id := row] }

  /** UPDATE ... WHERE instance_id = ?: a missing row stays missing. */
  function UpdateRow(rows: Rows, id: Id, row: Row): Rows { if id in rows then rows[id := row] else rows }

  function DeleteRow(rows: Rows, id: Id): Rows { rows - {id} }

  predicate Applied(c: Choice) { c.Ok? || c.FailApplied? }

  datatype DbError = NoError | NotFound | DbFailed

  /** The repository: one statement a method, which may fail with or without its effect. */
  class Table {
    var rows: Rows

    constructor ()
      ensures rows == map[]
    {
      rows := map[];
    }

    method Create(id: Id, row: Row, c: Choice) returns (e: DbError)
      modifies this
      ensures rows == if Applied(c) then InsertRow(old(rows), id, row) else old(rows)
      ensures e == NoError <==> c.Ok? && id !in old(rows)
    {
      if id in rows {
        return DbFailed;
      }
      if Applied(c) {
        rows := rows[id := row];
      }
      e := if c.Ok? then NoError else DbFailed;
    }

    method FindByID(id: Id, c: Choice) returns (e: DbError, row: Option<Row>)
      ensures e == NoError <==> row.Some?
      ensures row.Some? ==> id in rows && rows[id] == row.value
      ensures e == NotFound <==> c.Ok? && id !in rows
    {
      if !c.Ok? {
        return DbFailed, None;
      }
      if id !in rows {
        return NotFound, None;
      }
      return NoError, Some(rows[id]);
    }

    /** Update never adds a row and reports a missing one. */
    method Update(id: Id, row: Row, c: Choice) returns (e: DbError)
      modifies this
      ensures rows == if Applied(c) then UpdateRow(old(rows), id, row) else old(rows)
      ensures rows.Keys == old(rows.Keys)
      ensures e == NotFound <==> c.Ok? && id !in old(rows)
      ensures e == NoError ==> id in rows && rows[id] == row
    {
      var affected := 0;
      if Applied(c) && id in rows {
        rows := rows[id := row];
        affected := 1;
      }
      if !c.Ok? {
        return DbFailed;
      }
      e := if affected == 0 then NotFound else NoError;
    }

    method Delete(id: Id, c: Choice) returns (e: DbError)
      modifies this
      ensures rows == if Applied(c) then DeleteRow(old(rows), id) else old(rows)
      ensures e == NotFound <==> c.Ok? && id !in old(rows)
      ensures e == NoError ==> id in old(rows) && id !in rows
    {
      var affected := if id in rows then 1 else 0;
      if Applied(c) {
        rows := rows - {id};
      }
      if !c.Ok? {
        return DbFailed;
      }
      e := if affected == 0 then NotFound else NoError;
    }
  }

  // The instance id of a start is the identifier drawn for it.
  datatype Request = Start(id: Id) | Stop(id: Id) | Destroy(id: Id) | Status(id: Id) | Cleanup

  // Unreadable is the failure of a request whose FindByID could not read the table.
  datatype Reply = Success | Failure | Unreadable | Reports(state: InstanceState)

  // Where a request is: the call it makes next.
  datatype Pc =
    | Select(id: Id)                      // selectRunner, under the write lock
    | Launch(id: Id, runner: string)      // the runner's StartInstance
    | Create(id: Id, row: Row)            // inserting the row
    | Find(req: Request)                  // FindByID
    | LookUp(req: Request, row: Row)      // getRunnerByURL, under the read lock
    | Call(req: Request, row: Row)        // the runner's answer to a stop, destroy or status
    | Write(req: Request, row: Row)       // updating or deleting the row
    | CleanLock
    | CleanFind                           // FindAll, holding the write lock
    | CleanLookUp                         // getRunnerByURL for the first row found, still holding it
    | Replied(to: Request, reply: Reply)

  /**
   * The table, the containers that exist, and the lock. The rest is history: every container ever made, the
   * request that drew each id, the container started for it, the ids whose insert is pending, failed, or whose
   * row was deleted, and the containers left by starts the runner did not report as successful.
   */
  datatype World = World(
    rows: map<Id, Row>, containers: set<Place>, holder: Option<nat>,
    made: set<Place>, drawn: map<Id, nat>, born: map<Id, Place>,
    pending: set<Id>, unsaved: set<Id>, deleted: set<Id>, strays: set<Place>)

  datatype State = State(w: World, procs: map<nat, Pc>)

  /**
   * How the current call of a request ends. A runner's call answers success exactly on Ok; on FailApplied it did
   * its work but the answer was lost or not a success. The runner chosen, the id of a container made and the
   * state reported are whatever they turn out to be.
   */
  datatype Action =
    | Receive(p: nat, req: Request)
    | Go(p: nat, c: Choice, runner: Option<string>, container: string, told: InstanceState)
    | Vanish(place: Place)                // a container removed behind the manager's back

  function Admit(req: Request): Pc {
    match req
    case Start(id) => Select(id)
    case Cleanup => CleanLock
    case _ => Find(req)
  }

  function Launched(w: World, id: Id, c: Choice, k: Place): (World, Pc) {
    if k in w.made then (w, Launch(id, k.runner))  // container ids are never reused
    else if c.Ok? then
      (w.(containers := w.containers + {k}, made := w.made + {k}, born := w.born[id := k], pending := w.pending + {id}),
       Create(id, Row(k, Running)))
    else if c.FailApplied? then
      (w.(containers := w.containers + {k}, made := w.made + {k}, strays := w.strays + {k}), Replied(Start(id), Failure))
    else (w, Replied(Start(id), Failure))
  }

  /** The start succeeds whether or not its row could be inserted. */
  function Inserted(w: World, id: Id, row: Row, c: Choice): (World, Pc) {
    var w' := w.(pending := w.pending - {id});
    (if Applied(c) then w'.(rows := InsertRow(w.rows, id, row)) else w'.(unsaved := w.unsaved + {id}),
     Replied(Start(id), Success))
  }

  /** A missing row means DESTROYED to a status request and failure to the others. */
  function Found(w: World, req: Request, c: Choice): Pc
    requires req.Stop? || req.Destroy? || req.Status?
  {
    if !c.Ok? then Replied(req, Unreadable)
    else if req.id in w.rows then LookUp(req, w.rows[req.id])
    else Replied(req, if req.Status? then Reports(Destroyed) else Failure)
  }

  function Answered(w: World, req: Request, row: Row, c: Choice, told: InstanceState): (World, Pc) {
    match req
    case Stop(_) => (w, if c.Ok? then Write(req, row.(state := Stopped)) else Replied(req, Failure))
    case Destroy(_) =>
      var there := row.place in w.containers;
      (if Applied(c) then w.(containers := w.containers - {row.place}) else w,
       if c.Ok? && there then Write(req, row) else Replied(req, Failure))
    case Status(_) =>
      (w, if !c.Ok? then Replied(req, Failure)
          else if told != row.state then Write(req, row.(state := told))
          else Replied(req, Reports(told)))
    case _ => (w, Replied(req, Failure))
  }

  /** UPDATE and DELETE name the row by its id: when no row has it they change nothing. Their errors are only logged. */
  function Written(w: World, req: Request, row: Row, c: Choice): (World, Pc)
    requires req.Stop? || req.Destroy? || req.Status?
  {
    var reply := Replied(req, if req.Status? then Reports(row.state) else Success);
    if !Applied(c) || req.id !in w.rows then (w, reply)
    else if req.Destroy? then (w.(rows := DeleteRow(w.rows, req.id), deleted := w.deleted + {req.id}), reply)
    else (w.(rows := UpdateRow(w.rows, req.id, row)), reply)
  }

  predicate OnInstance(req: Request) { req.Stop? || req.Destroy? || req.Status? }

  function Advance(w: World, p: nat, pc: Pc, a: Action): (World, Pc)
    requires a.Go?
  {
    match pc
    case Select(id) =>
      if w.holder.Some? then (w, pc)
      else (w, if a.runner.Some? then Launch(id, a.runner.value) else Replied(Start(id), Failure))
    case Launch(id, runner) => Launched(w, id, a.c, Place(runner, a.container))
    case Create(id, row) => Inserted(w, id, row, a.c)
    case Find(req) => if OnInstance(req) then (w, Found(w, req, a.c)) else (w, pc)
    case LookUp(req, row) =>
      if w.holder.Some? then (w, pc) else (w, if a.c.Ok? then Call(req, row) else Replied(req, Failure))
    case Call(req, row) => Answered(w, req, row, a.c, a.told)
    case Write(req, row) => if OnInstance(req) then Written(w, req, row, a.c) else (w, pc)
    case CleanLock => if w.holder.Some? then (w, pc) else (w.(holder := Some(p)), CleanFind)
    case CleanFind =>
      if !a.c.Ok? || w.rows == map[] then (w.(holder := None), Replied(Cleanup, Success)) else (w, CleanLookUp)
    case CleanLookUp => if w.holder.Some? then (w, pc) else (w, Replied(Cleanup, Success))
    case Replied(_, _) => (w, pc)
  }

  function Step(s: State, a: Action): State {
    match a
    case Receive(p, req) =>
      if p in s.procs || (req.Start? && req.id in s.w.drawn) then s
      else State(if req.Start? then s.w.(drawn := s.w.drawn[req.id := p]) else s.w, s.procs[p := Admit(req)])
    case Go(p, _, _, _, _) =>
      if p !in s.procs then s
      else
        var (w, pc) := Advance(s.w, p, s.procs[p], a);
        State(w, s.procs[p := pc])
    case Vanish(place) => s.(w := s.w.(containers := s.w.containers - {place}))
  }

  const EMPTY := State(World(map[], {}, None, {}, map[], map[], {}, {}, {}, {}), map[])

  function Exec(s: State, acts: seq<Action>): State {
    if acts == [] then s else Step(Exec(s, acts[..|acts| - 1]), acts[|acts| - 1])
  }

  ghost predicate WorldOk(w: World) {
    && w.born.Keys <= w.drawn.Keys
    && (forall id | id in w.born :: w.born[id] in w.made && w.born[id] !in w.strays)
    && (forall i, j | i in w.born && j in w.born && i != j :: w.born[i] != w.born[j])
    && (forall id | id in w.rows :: id in w.born && w.rows[id].place == w.born[id])
    && (forall id | id in w.born :: id in w.rows || id in w.deleted || id in w.pending || id in w.unsaved)
    && (forall id | id in w.rows :: id !in w.deleted && id !in w.pending && id !in w.unsaved)
    && (forall id | id in w.deleted :: id in w.born && w.born[id] !in w.containers && id !in w.pending && id !in w.unsaved)
    && (forall id | id in w.pending :: id in w.born && id !in w.unsaved)
    && (forall id | id in w.unsaved :: id in w.born)
    && w.containers <= w.made && w.strays <= w.made
    && (forall k | k in w.containers && k !in w.strays :: exists id | id in w.born :: w.born[id] == k)
  }

  ghost predicate PcOk(w: World, p: nat, pc: Pc) {
    match pc
    case Select(id) => id in w.drawn && w.drawn[id] == p && id !in w.born
    case Launch(id, _) => id in w.drawn && w.drawn[id] == p && id !in w.born
    case Create(id, row) => id in w.drawn && w.drawn[id] == p && id in w.pending && id in w.born && row.place == w.born[id]
    case LookUp(req, row) => OnInstance(req) && req.id in w.born && row.place == w.born[req.id]
    case Call(req, row) => OnInstance(req) && req.id in w.born && row.place == w.born[req.id]
    case Write(req, row) =>
      && OnInstance(req) && req.id in w.born && row.place == w.born[req.id]
      && (req.Destroy? ==> row.place !in w.containers) && (req.Stop? ==> row.state == Stopped)
    case CleanFind => w.holder == Some(p)
    case CleanLookUp => w.holder == Some(p)
    case Replied(to, reply) =>
      to.Start? && reply == Success ==>
        to.id in w.drawn && w.drawn[to.id] == p && to.id in w.born && to.id !in w.pending
    case _ => true
  }

  /** A pending insert is the next call of the request that drew the id, and only a cleanup holds the lock. */
  ghost predicate Mine(w: World, p: nat, pc: Pc) {
    && (forall id | id in w.pending && id in w.drawn && w.drawn[id] == p :: pc.Create? && pc.id == id)
    && (w.holder == Some(p) ==> pc.CleanFind? || pc.CleanLookUp?)
  }

  ghost predicate Inv(s: State) {
    && WorldOk(s.w)
    && (forall p | p in s.procs :: PcOk(s.w, p, s.procs[p]) && Mine(s.w, p, s.procs[p]))
    && (forall id | id in s.w.drawn :: s.w.drawn[id] in s.procs)
    && (s.w.holder.Some? ==> s.w.holder.value in s.procs)
  }

  /** What a step of process p leaves alone for the others. */
  ghost predicate Rely(p: nat, w: World, w': World) {
    && (forall id | id in w.drawn :: id in w'.drawn && w'.drawn[id] == w.drawn[id])
    && (forall id | id in w.born :: id in w'.born && w'.born[id] == w.born[id])
    && (forall id | id in w'.drawn && w'.drawn[id] != p ::
          id in w.drawn && (id in w'.born <==> id in w.born) && (id in w'.pending <==> id in w.pending))
    && (forall k | k in w.made :: k in w'.containers ==> k in w.containers)
    && (w.holder.Some? && w.holder.value != p ==> w'.holder == w.holder)
    && (w'.holder == w.holder || w'.holder == None || w'.holder == Some(p))
    && w.deleted <= w'.deleted
  }

  lemma NamedWhenMade(w: World, id: Id, k: Place)
    requires WorldOk(w) && id !in w.born && k !in w.made
    ensures var born := w.born[id := k];
            forall c | c in w.containers + {k} && c !in w.strays :: exists i | i in born :: born[i] == c
  {
    var born := w.born[id := k];
    forall c | c in w.containers + {k} && c !in w.strays ensures exists i | i in born :: born[i] == c {
      if c == k {
        assert born[id] == c;
      } else {
        var i :| i in w.born && w.born[i] == c;
        assert born[i] == c;
      }
    }
  }

  lemma LaunchedOk(w: World, p: nat, id: Id, k: Place, w': World)
    requires WorldOk(w) && id in w.drawn && w.drawn[id] == p && id !in w.born && k !in w.made
    requires w' == w.(containers := w.containers + {k}, made := w.made + {k},
                      born := w.born[id := k], pending := w.pending + {id})
    ensures WorldOk(w') && PcOk(w', p, Create(id, Row(k, Running))) && Rely(p, w, w')
  {
    NamedWhenMade(w, id, k);
  }

  lemma StrayOk(w: World, p: nat, k: Place, w': World)
    requires WorldOk(w) && k !in w.made
    requires w' == w.(containers := w.containers + {k}, made := w.made + {k}, strays := w.strays + {k})
    ensures WorldOk(w') && Rely(p, w, w')
  {
  }

  lemma LaunchStep(w: World, p: nat, pc: Pc, a: Action)
    requires WorldOk(w) && PcOk(w, p, pc) && a.Go? && pc.Launch?
    ensures var (w', pc') := Advance(w, p, pc, a); WorldOk(w') && PcOk(w', p, pc') && Rely(p, w, w')
  {
    var k := Place(pc.runner, a.container);
    var (w', pc') := Advance(w, p, pc, a);
    if k !in w.made && a.c.Ok? {
      LaunchedOk(w, p, pc.id, k, w');
    } else if k !in w.made && a.c.FailApplied? {
      StrayOk(w, p, k, w');
    }
  }

  lemma InsertOk(w: World, p: nat, id: Id, row: Row)
    requires WorldOk(w) && id in w.pending && id in w.drawn && w.drawn[id] == p && row.place == w.born[id]
    ensures var w' := w.(pending := w.pending - {id}, rows := w.rows[id := row]); WorldOk(w') && Rely(p, w, w')
  {
  }

  lemma UnsavedOk(w: World, p: nat, id: Id)
    requires WorldOk(w) && id in w.pending && id in w.drawn && w.drawn[id] == p
    ensures var w' := w.(pending := w.pending - {id}, unsaved := w.unsaved + {id}); WorldOk(w') && Rely(p, w, w')
  {
  }

  lemma CreateStep(w: World, p: nat, pc: Pc, a: Action)
    requires WorldOk(w) && PcOk(w, p, pc) && a.Go? && pc.Create?
    ensures var (w', pc') := Advance(w, p, pc, a); WorldOk(w') && PcOk(w', p, pc') && Rely(p, w, w')
  {
    if Applied(a.c) {
      InsertOk(w, p, pc.id, pc.row);
    } else {
      UnsavedOk(w, p, pc.id);
    }
  }

  lemma CallPc(w: World, p: nat, pc: Pc, a: Action)
    requires WorldOk(w) && PcOk(w, p, pc) && a.Go? && pc.Call?
    ensures var (w', pc') := Advance(w, p, pc, a);
            (w' == w || w' == w.(containers := w.containers - {pc.row.place})) && PcOk(w', p, pc')
  {
  }

  lemma CallStep(w: World, p: nat, pc: Pc, a: Action)
    requires WorldOk(w) && PcOk(w, p, pc) && a.Go? && pc.Call?
    ensures var (w', pc') := Advance(w, p, pc, a); WorldOk(w') && PcOk(w', p, pc') && Rely(p, w, w')
  {
    CallPc(w, p, pc, a);
    RemoveOk(w, p, pc.row.place);
  }

  lemma RemoveOk(w: World, p: nat, k: Place)
    requires WorldOk(w)
    ensures var w' := w.(containers := w.containers - {k}); WorldOk(w') && Rely(p, w, w')
  {
  }

  lemma UpdateOk(w: World, p: nat, id: Id, row: Row)
    requires WorldOk(w) && id in w.rows && row.place == w.born[id]
    ensures var w' := w.(rows := w.rows[id := row]); WorldOk(w') && Rely(p, w, w')
  {
    assert w.rows[id := row].Keys == w.rows.Keys;
  }

  lemma DeleteOk(w: World, p: nat, id: Id)
    requires WorldOk(w) && id in w.rows && w.born[id] !in w.containers
    ensures var w' := w.(rows := w.rows - {id}, deleted := w.deleted + {id}); WorldOk(w') && Rely(p, w, w')
  {
  }

  lemma WriteStep(w: World, p: nat, pc: Pc, a: Action)
    requires WorldOk(w) && PcOk(w, p, pc) && a.Go? && pc.Write?
    ensures var (w', pc') := Advance(w, p, pc, a); WorldOk(w') && PcOk(w', p, pc') && Rely(p, w, w')
  {
    if Applied(a.c) && pc.req.id in w.rows {
      if pc.req.Destroy? {
        DeleteOk(w, p, pc.req.id);
      } else {
        UpdateOk(w, p, pc.req.id, pc.row);
      }
    }
  }

  // Steps that touch neither the table nor the containers.
  lemma PlainStep(w: World, p: nat, pc: Pc, a: Action)
    requires WorldOk(w) && PcOk(w, p, pc) && a.Go? && !pc.Launch? && !pc.Create? && !pc.Call? && !pc.Write?
    ensures var (w', pc') := Advance(w, p, pc, a);
            (w' == w || w' == w.(holder := Some(p)) || w' == w.(holder := None)) && PcOk(w', p, pc') && Rely(p, w, w')
  {
  }

  lemma AdvanceOk(w: World, p: nat, pc: Pc, a: Action)
    requires WorldOk(w) && PcOk(w, p, pc) && a.Go?
    ensures var (w', pc') := Advance(w, p, pc, a); WorldOk(w') && PcOk(w', p, pc') && Rely(p, w, w')
  {
    if pc.Launch? {
      LaunchStep(w, p, pc, a);
    } else if pc.Create? {
      CreateStep(w, p, pc, a);
    } else if pc.Call? {
      CallStep(w, p, pc, a);
    } else if pc.Write? {
      WriteStep(w, p, pc, a);
    } else {
      PlainStep(w, p, pc, a);
    }
  }

  lemma AdvanceMine(w: World, p: nat, pc: Pc, a: Action)
    requires WorldOk(w) && PcOk(w, p, pc) && Mine(w, p, pc) && a.Go?
    ensures var (w', pc') := Advance(w, p, pc, a); Mine(w', p, pc') && w'.drawn == w.drawn
  {
  }

  lemma OtherOk(p: nat, w: World, w': World, q: nat, pc: Pc)
    requires PcOk(w, q, pc) && Mine(w, q, pc) && Rely(p, w, w') && p != q
    requires w.born.Keys <= w.drawn.Keys && forall id | id in w.born :: w.born[id] in w.made
    ensures PcOk(w', q, pc) && Mine(w', q, pc)
  {
  }

  lemma GoKeepsInv(s: State, a: Action)
    requires Inv(s) && a.Go? && a.p in s.procs
    ensures Inv(Step(s, a)) && Rely(a.p, s.w, Step(s, a).w)
  {
    AdvanceOk(s.w, a.p, s.procs[a.p], a);
    AdvanceMine(s.w, a.p, s.procs[a.p], a);
    var s' := Step(s, a);
    forall q | q in s'.procs ensures PcOk(s'.w, q, s'.procs[q]) && Mine(s'.w, q, s'.procs[q]) {
      if q != a.p {
        OtherOk(a.p, s.w, s'.w, q, s.procs[q]);
      }
    }
  }

  lemma ReceiveKeepsInv(s: State, p: nat, req: Request)
    requires Inv(s) && p !in s.procs && (req.Start? ==> req.id !in s.w.drawn)
    ensures Inv(Step(s, Receive(p, req)))
  {
    var s' := Step(s, Receive(p, req));
    forall q | q in s'.procs ensures PcOk(s'.w, q, s'.procs[q]) && Mine(s'.w, q, s'.procs[q]) {
      if q != p {
        OtherOk(p, s.w, s'.w, q, s.procs[q]);
      }
    }
  }

  lemma VanishKeepsInv(s: State, place: Place)
    requires Inv(s)
    ensures Inv(Step(s, Vanish(place)))
  {
    var s' := Step(s, Vanish(place));
    forall q | q in s'.procs ensures PcOk(s'.w, q, s'.procs[q]) && Mine(s'.w, q, s'.procs[q]) {
      OtherOk(q + 1, s.w, s'.w, q, s.procs[q]);
    }
  }

  lemma StepKeepsInv(s: State, a: Action)
    requires Inv(s)
    ensures Inv(Step(s, a)) && s.w.deleted <= Step(s, a).w.deleted
  {
    if a.Go? && a.p in s.procs {
      GoKeepsInv(s, a);
    } else if a.Receive? && a.p !in s.procs && (a.req.Start? ==> a.req.id !in s.w.drawn) {
      ReceiveKeepsInv(s, a.p, a.req);
    } else if a.Vanish? {
      VanishKeepsInv(s, a.place);
    }
  }

  lemma {:induction false} RunInv(s: State, acts: seq<Action>)
    requires Inv(s)
    ensures Inv(Exec(s, acts)) && s.w.deleted <= Exec(s, acts).w.deleted
  {
    if acts != [] {
      RunInv(s, acts[..|acts| - 1]);
      StepKeepsInv(Exec(s, acts[..|acts| - 1]), acts[|acts| - 1]);
    }
  }

  lemma Reached(acts: seq<Action>)
    ensures Inv(Exec(EMPTY, acts))
  {
    RunInv(EMPTY, acts);
  }

  /** Ownership over every interleaving and failure: distinct records name distinct containers, and a container
      that exists belongs to a record, to a start whose insert is pending, to one whose insert failed, or to a
      start the runner did not report; never to a deleted record. */
  lemma Ownership(acts: seq<Action>)
    ensures var s := Exec(EMPTY, acts);
            var w := s.w;
            && (forall i, j | i in w.rows && j in w.rows && i != j :: w.rows[i].place != w.rows[j].place)
            && (forall id, k | id in w.rows && k in w.strays :: w.rows[id].place != k)
            && (forall k | k in w.containers && k !in w.strays ::
                  exists id | id in w.born && w.born[id] == k ::
                    || (id in w.rows && w.rows[id].place == k)
                    || id in w.unsaved
                    || (id in w.drawn && w.drawn[id] in s.procs && s.procs[w.drawn[id]].Create?
                        && s.procs[w.drawn[id]].id == id && s.procs[w.drawn[id]].row.place == k))
  {
    Reached(acts);
    var s := Exec(EMPTY, acts);
    var w := s.w;
    forall k | k in w.containers && k !in w.strays
      ensures exists id | id in w.born && w.born[id] == k ::
                || (id in w.rows && w.rows[id].place == k)
                || id in w.unsaved
                || (id in w.drawn && w.drawn[id] in s.procs && s.procs[w.drawn[id]].Create?
                    && s.procs[w.drawn[id]].id == id && s.procs[w.drawn[id]].row.place == k)
    {
      var id :| id in w.born && w.born[id] == k;
      assert id !in w.deleted;
    }
  }

  /** No resurrection: a deleted id never names a record again, whatever stale updates and inserts are still on
      their way, and its container never exists again. */
  lemma NoResurrection(acts: seq<Action>, later: seq<Action>, id: Id)
    requires id in Exec(EMPTY, acts).w.deleted
    ensures var w := Exec(Exec(EMPTY, acts), later).w;
            id !in w.rows && id in w.deleted && id in w.born && w.born[id] !in w.containers
  {
    Reached(acts);
    RunInv(Exec(EMPTY, acts), later);
  }

  function Asked(pc: Pc): Request {
    match pc
    case Select(id) => Start(id)
    case Launch(id, _) => Start(id)
    case Create(id, _) => Start(id)
    case Find(req) => req
    case LookUp(req, _) => req
    case Call(req, _) => req
    case Write(req, _) => req
    case Replied(to, _) => to
    case _ => Cleanup
  }

  // A request on the deleted instance is only ever looking it up or answered.
  ghost predicate Refused(pc: Pc, id: Id) {
    OnInstance(Asked(pc)) && Asked(pc).id == id ==>
      || pc.Find?
      || (pc.Replied? && (pc.reply == Unreadable || pc.reply == if pc.to.Status? then Reports(Destroyed) else Failure))
  }

  lemma {:induction false} TooLate(s: State, acts: seq<Action>, p: nat, id: Id)
    requires Inv(s) && id in s.w.deleted && p !in s.procs
    ensures var s' := Exec(s, acts); p in s'.procs ==> Refused(s'.procs[p], id)
  {
    if acts != [] {
      TooLate(s, acts[..|acts| - 1], p, id);
      RunInv(s, acts[..|acts| - 1]);
      TooLateStep(Exec(s, acts[..|acts| - 1]), acts[|acts| - 1], p, id);
    }
  }

  lemma TooLateStep(s: State, a: Action, p: nat, id: Id)
    requires id !in s.w.rows && (p in s.procs ==> PcOk(s.w, p, s.procs[p]) && Refused(s.procs[p], id))
    ensures var s' := Step(s, a); p in s'.procs ==> Refused(s'.procs[p], id)
  {
  }

  /** A status request that arrives after its instance's record was deleted reports DESTROYED, a stop or destroy
      fails as not found; each may also fail because it cannot read the table. */
  lemma DeletedReportsDestroyed(acts: seq<Action>, later: seq<Action>, id: Id, p: nat)
    requires id in Exec(EMPTY, acts).w.deleted && p !in Exec(EMPTY, acts).procs
    ensures var s := Exec(Exec(EMPTY, acts), later);
            p in s.procs && s.procs[p].Replied? && OnInstance(s.procs[p].to) && s.procs[p].to.id == id ==>
              || s.procs[p].reply == Unreadable
              || s.procs[p].reply == if s.procs[p].to.Status? then Reports(Destroyed) else Failure
  {
    var s := Exec(EMPTY, acts);
    Reached(acts);
    TooLate(s, later, p, id);
  }

  lemma RowStep(w: World, p: nat, pc: Pc, a: Action, id: Id)
    requires WorldOk(w) && PcOk(w, p, pc) && a.Go? && id in w.rows
    ensures var (w', pc') := Advance(w, p, pc, a);
            && (id in w'.rows && w'.rows[id] != w.rows[id] ==>
                  && pc.Write? && pc.req.id == id && !pc.req.Destroy? && w'.rows[id] == pc.row
                  && (pc.req.Stop? ==> w'.rows[id].state == Stopped && pc' == Replied(pc.req, Success))
                  && (pc.req.Status? ==> pc' == Replied(pc.req, Reports(w'.rows[id].state))))
            && (id !in w'.rows ==> pc == Write(Destroy(id), pc.row) && pc' == Replied(Destroy(id), Success))
  {
  }

  /** A record keeps its container for life. Its state changes only by a stop that then reports success, to
      stopped, or by a status request that then reports that very state; it is removed only by a destroy that
      then reports success. */
  lemma RecordChanges(acts: seq<Action>, a: Action, id: Id)
    requires id in Exec(EMPTY, acts).w.rows
    ensures var s := Exec(EMPTY, acts);
            var s' := Step(s, a);
            && (id in s'.w.rows && s'.w.rows[id] != s.w.rows[id] ==>
                  && a.Go? && a.p in s.procs && s.procs[a.p].Write? && s.procs[a.p].req.id == id
                  && s'.w.rows[id].place == s.w.rows[id].place
                  && (s'.procs[a.p] == Replied(Status(id), Reports(s'.w.rows[id].state))
                      || (s'.procs[a.p] == Replied(Stop(id), Success) && s'.w.rows[id].state == Stopped)))
            && (id !in s'.w.rows ==> a.Go? && a.p in s'.procs && s'.procs[a.p] == Replied(Destroy(id), Success))
  {
    Reached(acts);
    var s := Exec(EMPTY, acts);
    if a.Go? && a.p in s.procs {
      RowStep(s.w, a.p, s.procs[a.p], a, id);
    }
  }

  // A destroy of this instance has been answered by the runner and deletes the row next.
  predicate Deleting(pc: Pc, id: Id) { pc.Write? && pc.req == Destroy(id) }

  // The record's container is gone, and no destroy has got past it.
  ghost predicate Stranded(s: State, id: Id) {
    && id in s.w.rows && id in s.w.born && s.w.born[id] !in s.w.containers
    && forall p | p in s.procs :: !Deleting(s.procs[p], id)
  }

  lemma StrandedAdvance(w: World, p: nat, pc: Pc, a: Action, id: Id)
    requires WorldOk(w) && PcOk(w, p, pc) && a.Go?
    requires id in w.rows && id in w.born && w.born[id] !in w.containers && !Deleting(pc, id)
    ensures var (w', pc') := Advance(w, p, pc, a);
            && id in w'.rows && id in w'.born && w'.born[id] == w.born[id] && w'.born[id] !in w'.containers
            && !Deleting(pc', id)
  {
    assert Rely(p, w, Advance(w, p, pc, a).0) by { AdvanceOk(w, p, pc, a); }
    RowStep(w, p, pc, a, id);
  }

  lemma StrandedStep(s: State, a: Action, id: Id)
    requires Inv(s) && Stranded(s, id)
    ensures Stranded(Step(s, a), id)
  {
    if a.Go? && a.p in s.procs {
      StrandedAdvance(s.w, a.p, s.procs[a.p], a, id);
    }
  }

  lemma {:induction false} StrandedForGood(s: State, later: seq<Action>, id: Id)
    requires Inv(s) && Stranded(s, id)
    ensures Stranded(Exec(s, later), id)
  {
    if later != [] {
      StrandedForGood(s, later[..|later| - 1], id);
      RunInv(s, later[..|later| - 1]);
      StrandedStep(Exec(s, later[..|later| - 1]), later[|later| - 1], id);
    }
  }

  ghost predicate Removable(s: State, id: Id) { exists later :: id !in Exec(s, later).w.rows }

  lemma DeletingRemoves(s: State, p: nat, id: Id)
    requires p in s.procs && Deleting(s.procs[p], id)
    ensures Removable(s, id)
  {
    var a := Go(p, Ok, None, "", Destroyed);
    assert [a][..0] == [];
    assert id !in Exec(s, [a]).w.rows;
  }

  /** Once a record's container is gone, whether it vanished or its destroy was reported as failed, the record can
      still be removed exactly if some destroy already has the runner's success and deletes the row next. Otherwise
      it stays whatever happens. */
  lemma StuckRecordExactly(acts: seq<Action>, id: Id)
    requires var w := Exec(EMPTY, acts).w; id in w.rows && w.rows[id].place !in w.containers
    ensures var s := Exec(EMPTY, acts);
            Removable(s, id) <==> exists p :: p in s.procs && Deleting(s.procs[p], id)
  {
    Reached(acts);
    var s := Exec(EMPTY, acts);
    if p :| p in s.procs && Deleting(s.procs[p], id) {
      DeletingRemoves(s, p, id);
    } else {
      forall later ensures id in Exec(s, later).w.rows {
        StrandedForGood(s, later, id);
      }
    }
  }

  /** A start that reports success has a container of its own, named by a record until that is deleted, unless
      its insert failed. */
  lemma StartedIsKnown(acts: seq<Action>, p: nat)
    ensures var s := Exec(EMPTY, acts);
            p in s.procs && s.procs[p].Replied? && s.procs[p].to.Start? && s.procs[p].reply == Success ==>
              var id := s.procs[p].to.id;
              id in s.w.born && (id in s.w.rows || id in s.w.deleted || id in s.w.unsaved)
  {
    Reached(acts);
    var s := Exec(EMPTY, acts);
    assert p in s.procs ==> PcOk(s.w, p, s.procs[p]);
  }

  /** Cleanup ends with its first read of the table exactly when that read fails or finds nothing. */
  lemma CleanupEnds(w: World, p: nat, a: Action)
    requires a.Go?
    ensures Advance(w, p, CleanFind, a).1.Replied? <==> !a.c.Ok? || w.rows == map[]
  {
  }

  // A request that waits for the lock.
  predicate Waits(pc: Pc) { pc.Select? || pc.LookUp? || pc.CleanLock? || pc.CleanLookUp? }

  lemma StuckStep(s: State, a: Action, p: nat)
    requires Inv(s) && p in s.procs && s.procs[p].CleanLookUp? && s.w.holder == Some(p)
    ensures var s' := Step(s, a);
            && s'.w.holder == Some(p)
            && forall q | q in s.procs && Waits(s.procs[q]) :: q in s'.procs && s'.procs[q] == s.procs[q]
  {
    if a.Go? && a.p in s.procs {
      if !Waits(s.procs[a.p]) {
        AdvanceOk(s.w, a.p, s.procs[a.p], a);
      }
    }
  }

  /** Once Cleanup has found a row it waits for its own lock: whatever happens next it never answers, and neither
      does any start, stop, destroy, status or further cleanup that has to take the lock. */
  lemma {:induction false} CleanupBlocks(acts: seq<Action>, later: seq<Action>, p: nat)
    requires p in Exec(EMPTY, acts).procs && Exec(EMPTY, acts).procs[p].CleanLookUp?
    ensures var s := Exec(EMPTY, acts);
            var s' := Exec(s, later);
            && p in s'.procs && s'.procs[p].CleanLookUp? && s'.w.holder == Some(p)
            && forall q | q in s.procs && Waits(s.procs[q]) :: q in s'.procs && s'.procs[q] == s.procs[q]
  {
    Reached(acts);
    var s := Exec(EMPTY, acts);
    if later != [] {
      CleanupBlocks(acts, later[..|later| - 1], p);
      RunInv(s, later[..|later| - 1]);
      StuckStep(Exec(s, later[..|later| - 1]), later[|later| - 1], p);
    }
  }

  // Starts that arrived while the lock was held.
  ghost predicate NoneLaunched(s: State, old': set<nat>) {
    forall q | q in s.procs && q !in old' && Asked(s.procs[q]).Start? :: s.procs[q].Select?
  }

  /** From then on no start that arrives later ever reaches a runner. */
  lemma {:induction false} CleanupBlocksStarts(acts: seq<Action>, later: seq<Action>, p: nat)
    requires p in Exec(EMPTY, acts).procs && Exec(EMPTY, acts).procs[p].CleanLookUp?
    ensures var s := Exec(EMPTY, acts);
            NoneLaunched(Exec(s, later), s.procs.Keys)
  {
    var s := Exec(EMPTY, acts);
    if later != [] {
      CleanupBlocksStarts(acts, later[..|later| - 1], p);
      CleanupBlocks(acts, later[..|later| - 1], p);
    }
  }

}
