/**
 * The server's table over the manager's (ctf-server/infrastructure/client/manager_client.go): the calls that
 * ClientInstances leaves open are requests of Manager, and a server request sees the reply to its own call.
 */
module Tiers {
  import opened Common
  import S = ClientInstances
  import M = Manager

  // calls: the manager's request that serves a server request's current call.
  datatype State = State(server: S.State, manager: M.State, calls: map<nat, nat>)

  datatype Action =
    | Serve(step: S.Action)
    | Manage(turn: M.Action)            // requests of other clients are received here too
    | Call(p: nat, q: nat, req: M.Request)

  const EMPTY := State(S.EMPTY, M.EMPTY, map[])

  /** The request a server request sends to the manager. The id of a start is drawn by the manager. */
  predicate Asks(pc: S.Pc, req: M.Request) {
    match pc
    case Restart(_) => req.Start?
    case Launch(_, _, _) => req.Start?
    case Destroy(row) => req == M.Destroy(row.id)
    case Ask(row) => req == M.Status(row.id)
    case _ => false
  }

  predicate Sends(s: State, p: nat, q: nat, req: M.Request) {
    && p in s.server.procs && p !in s.calls && Asks(s.server.procs[p], req)
    && q !in s.manager.procs && (req.Start? ==> req.id !in s.manager.w.drawn)
  }

  function Told(state: M.InstanceState): S.Status {
    match state
    case Running => S.Running
    case Stopped => S.Stopped
    case Destroyed => S.Destroyed
    case Unspecified => S.Unknown
  }

  predicate RepliedTo(s: State, p: nat, pc: M.Pc) {
    p in s.calls && s.calls[p] in s.manager.procs && s.manager.procs[s.calls[p]] == pc
  }

  /** A manager call ends well only with the manager's reply to it; any call can fail, its reply lost or not sent. */
  ghost predicate Answers(s: State, a: S.Action) {
    a.Go? && a.p in s.server.procs ==>
      match s.server.procs[a.p]
      case Restart(_) => a.c.Ok? ==> RepliedTo(s, a.p, M.Replied(M.Start(a.id), M.Success))
      case Launch(_, _, _) => a.c.Ok? ==> RepliedTo(s, a.p, M.Replied(M.Start(a.id), M.Success))
      case Destroy(row) => a.c.Ok? ==> RepliedTo(s, a.p, M.Replied(M.Destroy(row.id), M.Success))
      case Ask(row) =>
        a.told.Some? ==> exists state ::
          Told(state) == a.told.value && RepliedTo(s, a.p, M.Replied(M.Status(row.id), M.Reports(state)))
      case _ => true
  }

  ghost function Step(s: State, a: Action): State {
    match a
    case Serve(b) =>
      if !Answers(s, b) then s
      else s.(server := S.Step(s.server, b), calls := if b.Go? then s.calls - {b.p} else s.calls)
    case Manage(b) => s.(manager := M.Step(s.manager, b))
    case Call(p, q, req) =>
      if Sends(s, p, q, req) then s.(manager := M.Step(s.manager, M.Receive(q, req)), calls := s.calls[p := q]) else s
  }

  ghost function Exec(s: State, acts: seq<Action>): State {
    if acts == [] then s else Step(Exec(s, acts[..|acts| - 1]), acts[|acts| - 1])
  }

  // The manager's table has had a record under this id.
  predicate Saved(w: M.World, id: Id) { id in w.rows || id in w.deleted }

  // The start of this id is over: its record was inserted or the insert failed.
  predicate Settled(w: M.World, id: Id) { id in w.born && id !in w.pending }

  predicate Gone(w: M.World, id: Id) { Saved(w, id) && id in w.born && w.born[id] !in w.containers }

  /** What the manager's requests know: those on an id without a record only ever fail to find it, and an
      instance whose destroy succeeded is gone. */
  ghost predicate PcOk(w: M.World, pc: M.Pc) {
    && (forall id: Id :: Saved(w, id) || M.Refused(pc, id))
    && (pc.Replied? && pc.to.Destroy? && pc.reply == M.Success ==> Gone(w, pc.to.id))
  }

  /** What the server's requests know of the manager. */
  ghost predicate ServerOk(w: M.World, s: S.State) {
    && (forall id | id in s.w.rows :: Settled(w, id))
    && (forall p | p in s.procs && s.procs[p].Create? :: Settled(w, s.procs[p].row.id))
    && (forall p | p in s.procs && s.procs[p].Delete? && s.procs[p].stopping :: Gone(w, s.procs[p].id))
  }

  ghost predicate Inv(s: State) {
    && M.Inv(s.manager) && S.Inv(s.server)
    && (forall q | q in s.manager.procs :: PcOk(s.manager.w, s.manager.procs[q]))
    && ServerOk(s.manager.w, s.server)
  }

  // What the manager never takes back.
  ghost predicate Lasts(w: M.World, w': M.World) {
    && (forall id: Id | Saved(w, id) :: Saved(w', id))
    && (forall id: Id | Settled(w, id) :: Settled(w', id))
    && (forall id: Id | Gone(w, id) :: Gone(w', id))
    && w.unsaved <= w'.unsaved
  }

  lemma LaunchLasts(w: M.World, p: nat, pc: M.Pc, a: M.Action)
    requires M.WorldOk(w) && M.PcOk(w, p, pc) && a.Go? && pc.Launch?
    ensures Lasts(w, M.Advance(w, p, pc, a).0)
  {
    var w' := M.Advance(w, p, pc, a).0;
    assert w'.rows == w.rows && w'.deleted == w.deleted && w'.unsaved == w.unsaved && w'.pending <= w.pending + {pc.id};
    M.LaunchStep(w, p, pc, a);
  }

  lemma CreateLasts(w: M.World, p: nat, pc: M.Pc, a: M.Action)
    requires M.WorldOk(w) && M.PcOk(w, p, pc) && a.Go? && pc.Create?
    ensures Lasts(w, M.Advance(w, p, pc, a).0)
  {
  }

  lemma WriteLasts(w: M.World, p: nat, pc: M.Pc, a: M.Action)
    requires M.WorldOk(w) && M.PcOk(w, p, pc) && a.Go? && pc.Write?
    ensures Lasts(w, M.Advance(w, p, pc, a).0)
  {
  }

  lemma AdvanceLasts(w: M.World, p: nat, pc: M.Pc, a: M.Action)
    requires M.WorldOk(w) && M.PcOk(w, p, pc) && a.Go?
    ensures Lasts(w, M.Advance(w, p, pc, a).0)
  {
    if pc.Launch? {
      LaunchLasts(w, p, pc, a);
    } else if pc.Create? {
      CreateLasts(w, p, pc, a);
    } else if pc.Call? {
      M.CallPc(w, p, pc, a);
    } else if pc.Write? {
      WriteLasts(w, p, pc, a);
    } else {
      M.PlainStep(w, p, pc, a);
    }
  }

  lemma StepLasts(s: M.State, a: M.Action)
    requires M.Inv(s)
    ensures Lasts(s.w, M.Step(s, a).w)
  {
    if a.Go? && a.p in s.procs {
      AdvanceLasts(s.w, a.p, s.procs[a.p], a);
    }
  }

  // A destroy succeeds only from a write, which comes after the container is gone.
  lemma AdvanceGone(w: M.World, p: nat, pc: M.Pc, a: M.Action)
    requires M.WorldOk(w) && M.PcOk(w, p, pc) && PcOk(w, pc) && a.Go?
    ensures var (w', pc') := M.Advance(w, p, pc, a);
            pc'.Replied? && pc'.to.Destroy? && pc'.reply == M.Success ==> Gone(w', pc'.to.id)
  {
    AdvanceLasts(w, p, pc, a);
    if pc.Write? && pc.req.Destroy? {
      assert Saved(w, pc.req.id) || M.Refused(pc, pc.req.id);
    }
  }

  lemma ManagerStep(s: M.State, a: M.Action)
    requires M.Inv(s) && forall q | q in s.procs :: PcOk(s.w, s.procs[q])
    ensures var s' := M.Step(s, a);
            M.Inv(s') && Lasts(s.w, s'.w) && forall q | q in s'.procs :: PcOk(s'.w, s'.procs[q])
  {
    var s' := M.Step(s, a);
    M.StepKeepsInv(s, a);
    StepLasts(s, a);
    forall q | q in s'.procs ensures PcOk(s'.w, s'.procs[q]) {
      forall id: Id ensures Saved(s'.w, id) || M.Refused(s'.procs[q], id) {
        if !Saved(s'.w, id) {
          assert q in s.procs ==> PcOk(s.w, s.procs[q]);
          M.TooLateStep(s, a, q, id);
        }
      }
      if a.Go? && a.p == q && q in s.procs {
        AdvanceGone(s.w, q, s.procs[q], a);
      }
    }
  }

  lemma ServerStays(w: M.World, w': M.World, s: S.State)
    requires ServerOk(w, s) && Lasts(w, w')
    ensures ServerOk(w', s)
  {
  }

  lemma StartAnswered(s: State, a: S.Action)
    requires Inv(s) && a.Go? && a.p in s.server.procs && Answers(s, a) && a.c.Ok?
    requires s.server.procs[a.p].Launch? || s.server.procs[a.p].Restart?
    ensures Settled(s.manager.w, a.id)
  {
    var q := s.calls[a.p];
    assert M.PcOk(s.manager.w, q, s.manager.procs[q]);
  }

  lemma DestroyAnswered(s: State, a: S.Action)
    requires Inv(s) && a.Go? && a.p in s.server.procs && s.server.procs[a.p].Destroy? && Answers(s, a) && a.c.Ok?
    ensures Gone(s.manager.w, s.server.procs[a.p].row.id)
  {
    assert PcOk(s.manager.w, s.manager.procs[s.calls[a.p]]);
  }

  // A row comes only from a create, a create from a launch, and a stop's delete from a destroy.
  lemma WhereFrom(w: S.World, p: nat, pc: S.Pc, a: S.Action)
    requires a.Go?
    ensures var (w', pc') := S.Advance(w, p, pc, a);
            && (forall id | id in w'.rows :: id in w.rows || (pc.Create? && pc.row.id == id))
            && (pc'.Create? ==> pc == pc' || (pc.Launch? && a.c.Ok? && pc'.row.id == a.id))
            && (pc'.Delete? && pc'.stopping ==> pc == pc' || (pc.Destroy? && a.c.Ok? && pc'.id == pc.row.id))
  {
  }

  lemma ServeKeeps(s: State, a: S.Action)
    requires Inv(s) && Answers(s, a)
    ensures ServerOk(s.manager.w, S.Step(s.server, a))
  {
    if a.Go? && a.p in s.server.procs {
      var pc := s.server.procs[a.p];
      WhereFrom(s.server.w, a.p, pc, a);
      if (pc.Launch? || pc.Restart?) && a.c.Ok? {
        StartAnswered(s, a);
      } else if pc.Destroy? && a.c.Ok? {
        DestroyAnswered(s, a);
      }
      var (w', pc') := S.Advance(s.server.w, a.p, pc, a);
      ServerMoves(s.manager.w, s.server, S.Step(s.server, a), a.p, w', pc');
    }
  }

  lemma ServerMoves(w: M.World, s: S.State, s': S.State, p: nat, sw: S.World, pc: S.Pc)
    requires ServerOk(w, s) && p in s.procs && s' == S.State(sw, s.procs[p := pc])
    requires forall id | id in sw.rows :: id in s.w.rows || (s.procs[p].Create? && s.procs[p].row.id == id)
    requires pc.Create? ==> pc == s.procs[p] || Settled(w, pc.row.id)
    requires pc.Delete? && pc.stopping ==> pc == s.procs[p] || Gone(w, pc.id)
    ensures ServerOk(w, s')
  {
  }

  lemma StepKeepsInv(s: State, a: Action)
    requires Inv(s)
    ensures Inv(Step(s, a)) && Lasts(s.manager.w, Step(s, a).manager.w)
  {
    match a
    case Serve(b) =>
      if Answers(s, b) {
        S.StepKeepsInv(s.server, b);
        ServeKeeps(s, b);
      }
    case Manage(b) =>
      ManagerStep(s.manager, b);
      ServerStays(s.manager.w, Step(s, a).manager.w, s.server);
    case Call(p, q, req) =>
      ManagerStep(s.manager, M.Receive(q, req));
      ServerStays(s.manager.w, M.Step(s.manager, M.Receive(q, req)).w, s.server);
  }

  lemma {:induction false} RunInv(s: State, acts: seq<Action>)
    requires Inv(s)
    ensures Inv(Exec(s, acts)) && Lasts(s.manager.w, Exec(s, acts).manager.w)
  {
    if acts != [] {
      RunInv(s, acts[..|acts| - 1]);
      StepKeepsInv(Exec(s, acts[..|acts| - 1]), acts[|acts| - 1]);
    }
  }

  /** A status the server is told is the one the manager reported, and no state is taken for another. */
  lemma ToldExactly(a: M.InstanceState, b: M.InstanceState)
    ensures Told(a) == Told(b) <==> a == b
    ensures (Told(a) == S.Running <==> a == M.Running) && (Told(a) == S.Stopped <==> a == M.Stopped)
            && (Told(a) == S.Destroyed <==> a == M.Destroyed)
  {
  }

  // The step deletes a row, for a stop or for a status request.
  predicate Deletes(s: State, a: S.Action, id: Id, stopping: bool) {
    a.Go? && a.p in s.server.procs && s.server.procs[a.p] == S.Delete(id, stopping)
  }

  lemma RowKept(w: S.World, p: nat, pc: S.Pc, a: S.Action, id: Id)
    requires a.Go? && id in w.rows && id !in S.Advance(w, p, pc, a).0.rows
    ensures pc.Delete? && pc.id == id
  {
  }

  lemma RowGoes(s: State, a: Action, id: Id)
    requires Inv(s) && id in s.server.w.rows && id !in Step(s, a).server.w.rows
    ensures a.Serve? && (Deletes(s, a.step, id, true) || Deletes(s, a.step, id, false))
    ensures Deletes(s, a.step, id, true) ==> Gone(s.manager.w, id)
  {
    assert a.Serve? && a.step.Go? && a.step.p in s.server.procs;
    RowKept(s.server.w, a.step.p, s.server.procs[a.step.p], a.step, id);
  }

  // A row goes only when a request deletes it; after a stop the container is gone for good.
  ghost predicate GoesRightly(s: State, a: Action, later: seq<Action>, id: Id) {
    id !in Step(s, a).server.w.rows ==>
      && a.Serve? && (Deletes(s, a.step, id, true) || Deletes(s, a.step, id, false))
      && (Deletes(s, a.step, id, true) ==>
            var w := Exec(Step(s, a), later).manager.w; id in w.born && w.born[id] !in w.containers)
  }

  lemma Going(s: State, a: Action, later: seq<Action>, id: Id)
    requires Inv(s) && id in s.server.w.rows
    ensures GoesRightly(s, a, later, id)
  {
    if id !in Step(s, a).server.w.rows {
      RowGoes(s, a, id);
      StepKeepsInv(s, a);
      RunInv(Step(s, a), later);
      assert Gone(s.manager.w, id) ==> Gone(Step(s, a).manager.w, id);
      assert Gone(s.manager.w, id) ==> Gone(Exec(Step(s, a), later).manager.w, id);
    }
  }

  /** Every row of the server names an instance whose record the manager has, has deleted, or never saved. The row
      goes only when a stop or a status request deletes it; after a stop the instance's container is gone for good. */
  lemma StoppedIsGone(acts: seq<Action>, a: Action, later: seq<Action>, id: Id)
    requires id in Exec(EMPTY, acts).server.w.rows
    ensures var w := Exec(EMPTY, acts).manager.w; id in w.rows || id in w.deleted || id in w.unsaved
    ensures GoesRightly(Exec(EMPTY, acts), a, later, id)
  {
    RunInv(EMPTY, acts);
    Going(Exec(EMPTY, acts), a, later, id);
    assert Settled(Exec(EMPTY, acts).manager.w, id);
  }

  // No stop is past its manager call for this row, and none gets past it; the row goes only for a status request.
  ghost predicate NeverStopped(s: State, id: Id) {
    && (forall p | p in s.server.procs :: s.server.procs[p] != S.Delete(id, true))
    && (forall a: S.Action |
          a.Go? && a.p in s.server.procs && s.server.procs[a.p].Destroy? && s.server.procs[a.p].row.id == id ::
          Step(s, Serve(a)).server.procs[a.p] in {s.server.procs[a.p], S.Done(S.Error)})
    && forall a: Action | id in s.server.w.rows && id !in Step(s, a).server.w.rows :: a.Serve? && Deletes(s, a.step, id, false)
  }

  lemma UnsavedState(s: State, id: Id)
    requires Inv(s) && id in s.manager.w.unsaved
    ensures NeverStopped(s, id)
  {
    assert !Saved(s.manager.w, id);
    forall a: Action | id in s.server.w.rows && id !in Step(s, a).server.w.rows ensures a.Serve? && Deletes(s, a.step, id, false) {
      RowGoes(s, a, id);
    }
    forall a: S.Action | a.Go? && a.p in s.server.procs && s.server.procs[a.p].Destroy? && s.server.procs[a.p].row.id == id
      ensures Step(s, Serve(a)).server.procs[a.p] in {s.server.procs[a.p], S.Done(S.Error)}
    {
      if Answers(s, a) && a.c.Ok? {
        DestroyAnswered(s, a);
      }
    }
  }

  /** A row whose instance the manager could not save is never removed by a stop, at any later time: no stop gets
      past the manager's call, which can only end in an error. */
  lemma UnsavedNotStopped(acts: seq<Action>, later: seq<Action>, id: Id)
    requires id in Exec(EMPTY, acts).manager.w.unsaved
    ensures NeverStopped(Exec(Exec(EMPTY, acts), later), id)
  {
    RunInv(EMPTY, acts);
    RunInv(Exec(EMPTY, acts), later);
    UnsavedState(Exec(Exec(EMPTY, acts), later), id);
  }

  // A status request of the server, alone from arrival to reply, with a manager request q for its call.
  function Look(p: nat, q: nat, row: S.Row): (acts: seq<Action>) {
    var go := S.Go(p, Ok, S.Sees(row.id), row.id, "", Some(S.Destroyed), 0);
    [Serve(S.Receive(p, S.Status(row.user, row.challenge))), Serve(go), Serve(go), Call(p, q, M.Status(row.id)),
     Manage(M.Go(q, Ok, None, "", M.Destroyed)), Serve(go), Serve(go)]
  }

  lemma {:induction false} ExecFirst(s: State, a: Action, later: seq<Action>)
    ensures Exec(s, [a] + later) == Exec(Step(s, a), later)
  {
    var acts := [a] + later;
    if later == [] {
      assert acts[..0] == [] && acts == [a];
    } else {
      assert acts[..|acts| - 1] == [a] + later[..|later| - 1];
      ExecFirst(s, a, later[..|later| - 1]);
    }
  }

  lemma FirstThree(s: State, a: Action, b: Action, c: Action, later: seq<Action>)
    ensures Exec(s, [a, b, c] + later) == Exec(Step(Step(Step(s, a), b), c), later)
  {
    assert [a, b, c] + later == [a] + ([b] + ([c] + later));
    ExecFirst(s, a, [b] + ([c] + later));
    ExecFirst(Step(s, a), b, [c] + later);
    ExecFirst(Step(Step(s, a), b), c, later);
  }

  // Its steps up to the call.
  lemma LookFinds(s: State, p: nat, row: S.Row, a1: Action, a2: Action)
    requires row.id in s.server.w.rows && s.server.w.rows[row.id] == row && p !in s.server.procs && p !in s.calls
    requires S.Faithful(s.server.w.rows, row.user, row.challenge, S.Sees(row.id))
    requires a1 == Serve(S.Receive(p, S.Status(row.user, row.challenge)))
    requires a2.Serve? && a2.step.Go? && a2.step.p == p && a2.step.c == Ok && a2.step.seen == S.Sees(row.id)
    ensures Step(Step(Step(s, a1), a2), a2) == s.(server := S.State(s.server.w, s.server.procs[p := S.Ask(row)]))
  {
    var req := S.Status(row.user, row.challenge);
    var s1 := Step(s, a1);
    assert s1 == s.(server := S.State(s.server.w, s.server.procs[p := S.Check(req)]));
    var s2 := Step(s1, a2);
    assert s2 == s.(server := S.State(s.server.w, s.server.procs[p := S.Find(req)]), calls := s2.calls);
    assert s2.calls == s.calls;
  }

  // The manager finds no row and answers that the instance is destroyed.
  lemma AskedUnsaved(s: State, p: nat, q: nat, row: S.Row, a4: Action, a5: Action)
    requires row.id !in s.manager.w.rows && p in s.server.procs && s.server.procs[p] == S.Ask(row)
    requires p !in s.calls && q !in s.manager.procs
    requires a4 == Call(p, q, M.Status(row.id)) && a5 == Manage(M.Go(q, Ok, None, "", M.Destroyed))
    ensures var s' := Step(Step(s, a4), a5);
            && s'.server == s.server && s'.manager.w == s.manager.w && p in s'.calls
            && RepliedTo(s', p, M.Replied(M.Status(row.id), M.Reports(M.Destroyed)))
  {
    assert Step(s, a4).manager.procs[q] == M.Find(M.Status(row.id)) && Step(s, a4).calls[p] == q;
  }

  lemma RowDropped(s: State, p: nat, row: S.Row, a6: Action)
    requires p in s.server.procs && s.server.procs[p] == S.Ask(row) && p in s.calls
    requires RepliedTo(s, p, M.Replied(M.Status(row.id), M.Reports(M.Destroyed)))
    requires a6.Serve? && a6.step.Go? && a6.step.p == p && a6.step.c == Ok && a6.step.told == Some(S.Destroyed)
    ensures Dropped(s, Step(Step(s, a6), a6), p, row.id)
  {
    assert Told(M.Destroyed) == S.Destroyed;
    assert Answers(s, a6.step);
    assert Step(s, a6).server.procs[p] == S.Delete(row.id, false);
  }

  // The row is gone from the server's table, and the manager's side is as it was.
  predicate Dropped(s: State, s': State, p: nat, id: Id) {
    && s'.server.w.rows == s.server.w.rows - {id}
    && p in s'.server.procs && s'.server.procs[p] == S.Done(S.StatusIs(S.Unknown, ""))
    && s'.manager.w == s.manager.w
  }

  // The row is the newest of its pair that is not destroyed, and the two requests have not been received yet.
  ghost predicate Findable(s: State, p: nat, q: nat, row: S.Row) {
    && row.id in s.server.w.rows && s.server.w.rows[row.id] == row
    && S.Faithful(s.server.w.rows, row.user, row.challenge, S.Sees(row.id))
    && p !in s.server.procs && p !in s.calls && q !in s.manager.procs
  }

  /** Such a row does go when a status request finds it and no call fails. The instance's container stays as it
      was, and from then on neither table names it. */
  lemma UnsavedForgotten(acts: seq<Action>, p: nat, q: nat, row: S.Row)
    requires row.id in Exec(EMPTY, acts).manager.w.unsaved && Findable(Exec(EMPTY, acts), p, q, row)
    ensures var s := Exec(EMPTY, acts);
            Dropped(s, Exec(s, Look(p, q, row)), p, row.id) && row.id !in s.manager.w.rows
  {
    var s := Exec(EMPTY, acts);
    RunInv(EMPTY, acts);
    NoRecord(s, row.id);
    LookDrops(s, p, q, row);
  }

  lemma NoRecord(s: State, id: Id)
    requires Inv(s) && id in s.manager.w.unsaved
    ensures id !in s.manager.w.rows
  {
  }

  lemma LookDrops(s: State, p: nat, q: nat, row: S.Row)
    requires row.id !in s.manager.w.rows && Findable(s, p, q, row)
    ensures Dropped(s, Exec(s, Look(p, q, row)), p, row.id)
  {
    var look := Look(p, q, row);
    var a4, a5, a6 := look[3], look[4], look[5];
    FirstThree(s, look[0], look[1], look[1], [a4, a5, a6, a6]);
    LookFinds(s, p, row, look[0], look[1]);
    assert look == [look[0], look[1], look[1]] + [a4, a5, a6, a6];
    var s3 := Step(Step(Step(s, look[0]), look[1]), look[1]);
    AskedUnsaved(s3, p, q, row, a4, a5);
    RowDropped(Step(Step(s3, a4), a5), p, row, a6);
    LastFour(s3, a4, a5, a6);
  }

  lemma LastFour(s: State, a4: Action, a5: Action, a6: Action)
    ensures Exec(s, [a4, a5, a6, a6]) == Step(Step(Step(Step(s, a4), a5), a6), a6)
  {
    assert [a4, a5, a6, a6] == [a4] + ([a5] + ([a6] + ([a6] + [])));
    ExecFirst(s, a4, [a5] + ([a6] + ([a6] + [])));
    ExecFirst(Step(s, a4), a5, [a6] + ([a6] + []));
    ExecFirst(Step(Step(s, a4), a5), a6, [a6] + []);
    ExecFirst(Step(Step(Step(s, a4), a5), a6), a6, []);
  }
}
