/**
 * A start and a stop from end to end, through the server and the manager, when no call fails
 * (ctf-server/usecase/client_challenge.go, ctf-server/infrastructure/client/manager_client.go, ctf-manager/service/manager.go).
 */
module TierRuns {
  import opened Common
  import opened Tiers
  import S = ClientInstances
  import M = Manager

  lemma Three(s: State, a: Action, b: Action, c: Action)
    ensures Exec(s, [a, b, c]) == Step(Step(Step(s, a), b), c)
  {
    FirstThree(s, a, b, c, []);
    assert [a, b, c] + [] == [a, b, c];
  }

  lemma {:induction false} ExecConcat(s: State, a: seq<Action>, b: seq<Action>)
    ensures Exec(s, a + b) == Exec(Exec(s, a), b)
  {
    if b == [] {
      assert a + b == a;
    } else {
      ExecConcat(s, a, b[..|b| - 1]);
      assert (a + b)[..|a + b| - 1] == a + b[..|b| - 1];
    }
  }

  function ServerGo(p: nat, seen: S.Seen, id: Id, address: string): Action {
    Serve(S.Go(p, Ok, seen, id, address, None, 0))
  }

  function ManagerGo(q: nat, runner: Option<string>, container: string): Action {
    Manage(M.Go(q, Ok, runner, container, M.Running))
  }

  // A stop: the challenge and the row; the manager's destroy, from its read to its reply; the delete.
  function StopBegins(p: nat, row: S.Row): seq<Action> {
    var go := ServerGo(p, S.Sees(row.id), "", "");
    [Serve(S.Receive(p, S.Stop(row.user, row.challenge))), go, go]
  }

  function DestroyRuns(p: nat, q: nat, id: Id): seq<Action> {
    var go := ManagerGo(q, None, "");
    [Call(p, q, M.Destroy(id)), go, go] + [go, go, go]
  }

  function StopEnds(p: nat): seq<Action> {
    var go := ServerGo(p, S.NoRow, "", "");
    [go, go, go]
  }

  // The manager has a record of the row's instance and its container is there.
  predicate Alive(s: State, id: Id) {
    && id in s.manager.w.rows && s.manager.w.rows[id].place in s.manager.w.containers
    && s.manager.w.holder.None?
  }

  lemma StopFinds(s: State, p: nat, q: nat, row: S.Row)
    requires Findable(s, p, q, row) && row.status != S.Stopped
    ensures Exec(s, StopBegins(p, row)) == s.(server := S.State(s.server.w, s.server.procs[p := S.Destroy(row)]))
  {
    var acts, req := StopBegins(p, row), S.Stop(row.user, row.challenge);
    Three(s, acts[0], acts[1], acts[2]);
    assert acts == [acts[0], acts[1], acts[2]];
    var s1 := Step(s, acts[0]);
    assert s1 == s.(server := S.State(s.server.w, s.server.procs[p := S.Check(req)]));
    var s2 := Step(s1, acts[1]);
    assert s2 == s.(server := S.State(s.server.w, s.server.procs[p := S.Find(req)]), calls := s2.calls);
    assert s2.calls == s.calls;
  }

  // The manager answers the call it got.
  predicate Served(s: State, s': State, p: nat, reply: M.Pc) {
    s'.server == s.server && p in s'.calls && RepliedTo(s', p, reply)
  }

  // The manager's request q has come to asking the runner to destroy its row's container.
  predicate AtRunner(s: State, s': State, p: nat, q: nat, id: Id) {
    && s'.server == s.server && p in s'.calls && s'.calls[p] == q && s'.manager.w == s.manager.w
    && q in s'.manager.procs && id in s.manager.w.rows && s'.manager.procs[q] == M.Call(M.Destroy(id), s.manager.w.rows[id])
  }

  lemma DestroyBegins(s: State, p: nat, q: nat, row: S.Row)
    requires p in s.server.procs && s.server.procs[p] == S.Destroy(row) && p !in s.calls && q !in s.manager.procs
    requires Alive(s, row.id)
    ensures var go := ManagerGo(q, None, ""); AtRunner(s, Exec(s, [Call(p, q, M.Destroy(row.id)), go, go]), p, q, row.id)
  {
    var go, req, record := ManagerGo(q, None, ""), M.Destroy(row.id), s.manager.w.rows[row.id];
    Three(s, Call(p, q, req), go, go);
    var s1 := Step(s, Call(p, q, req));
    assert s1.manager.procs[q] == M.Find(req) && s1.calls[p] == q && s1.manager.w == s.manager.w;
    var s2 := Step(s1, go);
    assert s2.manager.procs[q] == M.LookUp(req, record) && s2.manager.w == s.manager.w;
  }

  lemma DestroyServed(s: State, p: nat, q: nat, row: S.Row)
    requires p in s.server.procs && s.server.procs[p] == S.Destroy(row) && p !in s.calls && q !in s.manager.procs
    requires Alive(s, row.id)
    ensures var s' := Exec(s, DestroyRuns(p, q, row.id));
            && Served(s, s', p, M.Replied(M.Destroy(row.id), M.Success))
            && s'.manager.w.rows == s.manager.w.rows - {row.id}
            && s'.manager.w.containers == s.manager.w.containers - {s.manager.w.rows[row.id].place}
  {
    var go, req := ManagerGo(q, None, ""), M.Destroy(row.id);
    ExecConcat(s, [Call(p, q, req), go, go], [go, go, go]);
    DestroyBegins(s, p, q, row);
    DestroyEnds(s, Exec(s, [Call(p, q, req), go, go]), p, q, row.id);
  }

  lemma DestroyEnds(s: State, s3: State, p: nat, q: nat, id: Id)
    requires AtRunner(s, s3, p, q, id) && Alive(s, id)
    ensures var go := ManagerGo(q, None, "");
            var s' := Exec(s3, [go, go, go]);
            && Served(s, s', p, M.Replied(M.Destroy(id), M.Success))
            && s'.manager.w.rows == s.manager.w.rows - {id}
            && s'.manager.w.containers == s.manager.w.containers - {s.manager.w.rows[id].place}
  {
    var go, req := ManagerGo(q, None, ""), M.Destroy(id);
    Three(s3, go, go, go);
    var s4 := Step(s3, go);
    assert s4.manager.procs[q] == M.Write(req, s.manager.w.rows[id]) && s4.manager.w.rows == s.manager.w.rows;
    var s5 := Step(s4, go);
    assert s5.manager.procs[q] == M.Replied(req, M.Success);
  }

  lemma StopReplies(s: State, p: nat, row: S.Row)
    requires p in s.server.procs && s.server.procs[p] == S.Destroy(row) && row.id in s.server.w.rows
    requires p in s.calls && RepliedTo(s, p, M.Replied(M.Destroy(row.id), M.Success))
    ensures var s' := Exec(s, StopEnds(p));
            && s'.manager == s.manager && s'.server.w.rows == s.server.w.rows - {row.id}
            && p in s'.server.procs && s'.server.procs[p] == S.Done(S.Removed)
  {
    var go := ServerGo(p, S.NoRow, "", "");
    Three(s, go, go, go);
    var s1 := Step(s, go);
    assert s1.server.procs[p] == S.Delete(row.id, true);
    var s2 := Step(s1, go);
    assert s2.server.procs[p] == S.Done(S.Removed);
  }

  /** A stop that finds its row, whose instance the manager has a record and a container of, and that meets no failure
      removes the row, the record and the container, and is answered so. */
  lemma StopWorks(s: State, p: nat, q: nat, row: S.Row)
    requires Findable(s, p, q, row) && row.status != S.Stopped && Alive(s, row.id)
    ensures var s' := Exec(s, StopBegins(p, row) + (DestroyRuns(p, q, row.id) + StopEnds(p)));
            && p in s'.server.procs && s'.server.procs[p] == S.Done(S.Removed)
            && s'.server.w.rows == s.server.w.rows - {row.id}
            && s'.manager.w.rows == s.manager.w.rows - {row.id}
            && s'.manager.w.containers == s.manager.w.containers - {s.manager.w.rows[row.id].place}
  {
    ExecConcat(s, StopBegins(p, row), DestroyRuns(p, q, row.id) + StopEnds(p));
    StopFinds(s, p, q, row);
    var s1 := Exec(s, StopBegins(p, row));
    ExecConcat(s1, DestroyRuns(p, q, row.id), StopEnds(p));
    DestroyServed(s1, p, q, row);
    StopReplies(Exec(s1, DestroyRuns(p, q, row.id)), p, row);
  }

  // A start: the row that is not there; the manager's start, from its choice of a runner to its reply; the insert.
  function StartBegins(p: nat, user: string, challenge: string): seq<Action> {
    var go := ServerGo(p, S.NoRow, "", "");
    [Serve(S.Receive(p, S.Start(user, challenge))), go]
  }

  function StartRuns(p: nat, q: nat, id: Id, runner: string, container: string): seq<Action> {
    var go := ManagerGo(q, Some(runner), container);
    [Call(p, q, M.Start(id)), go] + [go, go, go]
  }

  function StartEnds(p: nat, id: Id, address: string): seq<Action> {
    var go := ServerGo(p, S.NoRow, id, address);
    [go, go]
  }

  lemma Two(s: State, a: Action, b: Action)
    ensures Exec(s, [a, b]) == Step(Step(s, a), b)
  {
    assert [a, b] == [a] + ([b] + []);
    ExecFirst(s, a, [b] + []);
    ExecFirst(Step(s, a), b, []);
  }

  // Nothing is known of the id, the requests or the container yet.
  predicate NewTo(s: State, p: nat, q: nat, id: Id, k: M.Place) {
    && p !in s.server.procs && p !in s.calls && q !in s.manager.procs
    && id !in s.manager.w.drawn && id !in s.server.w.issued && id !in s.manager.w.rows && k !in s.manager.w.made
    && s.manager.w.holder.None?
  }

  lemma StartFinds(s: State, p: nat, user: string, challenge: string)
    requires p !in s.server.procs && p !in s.calls && !S.AnyLive(s.server.w.rows, user, challenge)
    ensures Exec(s, StartBegins(p, user, challenge))
            == s.(server := S.State(s.server.w, s.server.procs[p := S.Launch(user, challenge, false)]))
  {
    var acts, req := StartBegins(p, user, challenge), S.Start(user, challenge);
    Two(s, acts[0], acts[1]);
    assert acts == [acts[0], acts[1]];
    var s1 := Step(s, acts[0]);
    assert s1 == s.(server := S.State(s.server.w, s.server.procs[p := S.Find(req)]));
    assert S.Faithful(s.server.w.rows, user, challenge, S.NoRow);
    assert Step(s1, acts[1]).calls == s.calls;
  }

  // The manager's request q has come to asking the runner for a container.
  predicate AtLaunch(s: State, s': State, p: nat, q: nat, id: Id, runner: string) {
    && s'.server == s.server && p in s'.calls && s'.calls[p] == q
    && s'.manager.w.rows == s.manager.w.rows && s'.manager.w.containers == s.manager.w.containers
    && s'.manager.w.made == s.manager.w.made
    && q in s'.manager.procs && s'.manager.procs[q] == M.Launch(id, runner)
  }

  lemma StartChosen(s: State, p: nat, q: nat, id: Id, k: M.Place)
    requires p in s.server.procs && s.server.procs[p].Launch? && p !in s.calls && q !in s.manager.procs
    requires id !in s.manager.w.drawn && s.manager.w.holder.None?
    ensures AtLaunch(s, Exec(s, [Call(p, q, M.Start(id)), ManagerGo(q, Some(k.runner), k.container)]), p, q, id, k.runner)
  {
    var go, req := ManagerGo(q, Some(k.runner), k.container), M.Start(id);
    Two(s, Call(p, q, req), go);
    var s1 := Step(s, Call(p, q, req));
    assert s1.manager.procs[q] == M.Select(id) && s1.calls[p] == q && s1.server == s.server;
  }

  lemma StartMade(s: State, s2: State, p: nat, q: nat, id: Id, k: M.Place)
    requires AtLaunch(s, s2, p, q, id, k.runner) && id !in s.manager.w.rows && k !in s.manager.w.made
    ensures var go := ManagerGo(q, Some(k.runner), k.container);
            var s' := Exec(s2, [go, go, go]);
            && Served(s, s', p, M.Replied(M.Start(id), M.Success))
            && s'.manager.w.rows == s.manager.w.rows[id := M.Row(k, M.Running)]
            && s'.manager.w.containers == s.manager.w.containers + {k}
  {
    var go := ManagerGo(q, Some(k.runner), k.container);
    Three(s2, go, go, go);
    var s3 := Step(s2, go);
    assert s3.manager.procs[q] == M.Create(id, M.Row(k, M.Running)) && s3.manager.w.rows == s.manager.w.rows;
    var s4 := Step(s3, go);
    assert s4.manager.procs[q] == M.Replied(M.Start(id), M.Success);
  }

  lemma StartServed(s: State, p: nat, q: nat, id: Id, k: M.Place)
    requires p in s.server.procs && s.server.procs[p].Launch? && p !in s.calls && q !in s.manager.procs
    requires id !in s.manager.w.drawn && id !in s.manager.w.rows && k !in s.manager.w.made && s.manager.w.holder.None?
    ensures var s' := Exec(s, StartRuns(p, q, id, k.runner, k.container));
            && Served(s, s', p, M.Replied(M.Start(id), M.Success))
            && s'.manager.w.rows == s.manager.w.rows[id := M.Row(k, M.Running)]
            && s'.manager.w.containers == s.manager.w.containers + {k}
  {
    var go, req := ManagerGo(q, Some(k.runner), k.container), M.Start(id);
    ExecConcat(s, [Call(p, q, req), go], [go, go, go]);
    StartChosen(s, p, q, id, k);
    StartMade(s, Exec(s, [Call(p, q, req), go]), p, q, id, k);
  }

  lemma StartReplies(s: State, p: nat, user: string, challenge: string, id: Id, address: string)
    requires p in s.server.procs && s.server.procs[p] == S.Launch(user, challenge, false)
    requires id !in s.server.w.issued && p in s.calls && RepliedTo(s, p, M.Replied(M.Start(id), M.Success))
    ensures var s' := Exec(s, StartEnds(p, id, address));
            && s'.manager == s.manager
            && s'.server.w.rows == s.server.w.rows[id := S.Row(id, user, challenge, S.Running, address, 0)]
            && p in s'.server.procs && s'.server.procs[p] == S.Done(S.At(address))
  {
    var go := ServerGo(p, S.NoRow, id, address);
    Two(s, go, go);
    assert Step(s, go).server.procs[p] == S.Create(S.Row(id, user, challenge, S.Running, address, 0), false);
  }

  /** A start for a pair without a row that meets no failure leaves a running row, the manager's running record under
      the same id, and its container, and answers the address. */
  lemma StartWorks(s: State, p: nat, q: nat, user: string, challenge: string, id: Id, k: M.Place, address: string)
    requires NewTo(s, p, q, id, k) && !S.AnyLive(s.server.w.rows, user, challenge)
    ensures var s' := Exec(s, StartBegins(p, user, challenge)
                              + (StartRuns(p, q, id, k.runner, k.container) + StartEnds(p, id, address)));
            && p in s'.server.procs && s'.server.procs[p] == S.Done(S.At(address))
            && s'.server.w.rows == s.server.w.rows[id := S.Row(id, user, challenge, S.Running, address, 0)]
            && s'.manager.w.rows == s.manager.w.rows[id := M.Row(k, M.Running)]
            && s'.manager.w.containers == s.manager.w.containers + {k}
  {
    var runs := StartRuns(p, q, id, k.runner, k.container);
    ExecConcat(s, StartBegins(p, user, challenge), runs + StartEnds(p, id, address));
    StartFinds(s, p, user, challenge);
    var s1 := Exec(s, StartBegins(p, user, challenge));
    ExecConcat(s1, runs, StartEnds(p, id, address));
    StartServed(s1, p, q, id, k);
    StartReplies(Exec(s1, runs), p, user, challenge, id, address);
  }
}
