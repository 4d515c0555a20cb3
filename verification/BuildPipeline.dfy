/**
 * The build queue and each job's status register in Redis (ctf-server/infrastructure/client/builder_client.go,
 * ctf-builder/queue/redis.go, ctf-builder/service/worker.go): enqueuers and workers interleaved between their
 * Redis commands.
 */
module BuildPipeline {
  import opened Common

  datatype Status = Pending | Building | Success | Failed

  datatype Result = Result(status: Status, image: string, error: string)

  // What reading a job's result came back with.
  datatype Read = Unread | NoResult | Found(result: Result)

  const PENDING := Result(Pending, "", "")
  const BUILDING := Result(Building, "", "")

  predicate Terminal(r: Result) { r.status.Success? || r.status.Failed? }

  // How building and pushing a job's image ended.
  datatype Outcome = Built(image: string) | BuildFailed(error: string) | PushFailed(image: string, error: string)

  function ResultOf(o: Outcome): (r: Result)
    ensures Terminal(r) && (r.status.Success? <==> o.Built?)
  {
    match o
    case Built(image) => Result(Success, image, "")
    case BuildFailed(error) => Result(Failed, "", error)
    case PushFailed(image, error) => Result(Failed, image, "push failed: " + error)
  }

  // Where an enqueuer or a worker is: its next command.
  datatype Pc =
    | Push(id: Id, challenge: string)     // RPush to the queue
    | SaveInfo(id: Id, challenge: string)
    | Announce(id: Id)                    // LPush to the list of jobs
    | Trim(id: Id)
    | MarkPending(id: Id)
    | Enqueued(id: Id, ok: bool)
    | Idle                                // BLPop
    | MarkBuilding(id: Id)
    | Record(id: Id, result: Result)      // the terminal result
    | Publish(id: Id, result: Result)

  /**
   * Redis's keys, and history: the ids pushed and popped in order, those put on the list, the writes to each
   * job's register, the process that drew or took each id, and the images workers built and pushed.
   */
  datatype World = World(
    queue: seq<Id>, infos: map<Id, string>, results: map<Id, Result>, list: seq<Id>,
    pushed: seq<Id>, popped: seq<Id>, listed: seq<Id>, log: map<Id, seq<Result>>,
    drawn: map<Id, nat>, taken: map<Id, nat>, built: set<(Id, string)>)

  datatype State = State(w: World, procs: map<nat, Pc>)

  datatype Action =
    | Enqueue(p: nat, id: Id, challenge: string)
    | Hire(p: nat)
    | Go(p: nat, c: Choice, outcome: Outcome)

  predicate Applied(c: Choice) { c.Ok? || c.FailApplied? }

  function LogOf(w: World, id: Id): seq<Result> { if id in w.log then w.log[id] else [] }

  /** SET of a job's result. */
  function Write(w: World, id: Id, r: Result, c: Choice): World {
    if Applied(c) then w.(results := w.results[id := r], log := w.log[id := LogOf(w, id) + [r]]) else w
  }

  const KEPT := 100

  /** LTRIM 0 99. */
  function Trimmed(list: seq<Id>): seq<Id> { if |list| <= KEPT then list else list[..KEPT] }

  function Advance(w: World, p: nat, pc: Pc, c: Choice, outcome: Outcome): (World, Pc) {
    match pc
    case Push(id, challenge) =>
      (if Applied(c) then w.(queue := w.queue + [id], pushed := w.pushed + [id]) else w,
       if c.Ok? then SaveInfo(id, challenge) else Enqueued(id, false))
    case SaveInfo(id, challenge) => (if Applied(c) then w.(infos := w.infos[id := challenge]) else w, Announce(id))
    case Announce(id) =>
      (if Applied(c) then w.(list := [id] + w.list, listed := [id] + w.listed) else w, Trim(id))
    case Trim(id) => (if Applied(c) then w.(list := Trimmed(w.list)) else w, MarkPending(id))
    case MarkPending(id) => (Write(w, id, PENDING, c), Enqueued(id, c.Ok?))
    case Enqueued(_, _) => (w, pc)
    case Idle =>
      if w.queue == [] || !Applied(c) then (w, Idle)
      else
        var id := w.queue[0];
        // A reply that is lost or cannot be parsed loses the job.
        (w.(queue := w.queue[1..], popped := w.popped + [id], taken := w.taken[id := p]),
         if c.Ok? then MarkBuilding(id) else Idle)
    case MarkBuilding(id) =>
      var w' := Write(w, id, BUILDING, c);
      (if outcome.Built? then w'.(built := w'.built + {(id, outcome.image)}) else w', Record(id, ResultOf(outcome)))
    case Record(id, result) => (Write(w, id, result, c), Publish(id, result))
    case Publish(_, _) => (w, Idle)
  }

  function Step(s: State, a: Action): State {
    match a
    case Enqueue(p, id, challenge) =>
      if p in s.procs || id in s.w.drawn then s
      else State(s.w.(drawn := s.w.drawn[id := p]), s.procs[p := Push(id, challenge)])
    case Hire(p) => if p in s.procs then s else s.(procs := s.procs[p := Idle])
    case Go(p, c, outcome) =>
      if p !in s.procs then s
      else
        var (w, pc) := Advance(s.w, p, s.procs[p], c, outcome);
        State(w, s.procs[p := pc])
  }

  const EMPTY := State(World([], map[], map[], [], [], [], [], map[], map[], map[], {}), map[])

  function Exec(s: State, acts: seq<Action>): State {
    if acts == [] then s else Step(Exec(s, acts[..|acts| - 1]), acts[|acts| - 1])
  }

  ghost predicate Distinct(ids: seq<Id>) { forall i, j | 0 <= i < j < |ids| :: ids[i] != ids[j] }

  /** What may follow what in a register: one pending write anywhere, one building write, one terminal write after it. */
  ghost predicate WellOrdered(log: seq<Result>) {
    forall i, j | 0 <= i < j < |log| ::
      && (log[j] == PENDING ==> log[i] != PENDING)
      && (log[j] == BUILDING ==> log[i] == PENDING)
      && (Terminal(log[j]) ==> !Terminal(log[i]))
  }

  // A job's register holds what was written last, and only pending, building or what a worker made of its job.
  ghost predicate RegisterOk(w: World, id: Id) {
    var log := LogOf(w, id);
    && WellOrdered(log)
    && (id in w.results <==> log != [])
    && (id in w.results ==> w.results[id] == log[|log| - 1])
    && (forall r | r in log :: r == PENDING || r == BUILDING || Terminal(r))
    && (forall r | r in log && r.status.Success? :: (id, r.image) in w.built)
    && (PENDING in log ==> id in w.drawn)
    && (id !in w.taken ==> forall r | r in log :: r == PENDING)
  }

  ghost predicate QueueOk(w: World) {
    && w.pushed == w.popped + w.queue && Distinct(w.pushed)
    && (forall id | id in w.pushed :: id in w.drawn)
    && (forall id | id in w.taken :: id in w.popped)
  }

  ghost predicate ListOk(w: World) {
    && |w.list| <= |w.listed| && w.list == w.listed[..|w.list|]
    && (|w.list| == |w.listed| || KEPT <= |w.list|)
    && Distinct(w.listed) && forall id | id in w.listed :: id in w.drawn
  }

  ghost predicate PcOk(w: World, p: nat, pc: Pc) {
    && (pc.Push? ==> pc.id !in w.pushed)
    && (pc.Push? || pc.SaveInfo? || pc.Announce? ==> pc.id !in w.listed)
    && (pc.Push? || pc.SaveInfo? || pc.Announce? || pc.Trim? || pc.MarkPending? ==>
          pc.id in w.drawn && w.drawn[pc.id] == p && PENDING !in LogOf(w, pc.id))
    && (pc.MarkBuilding? ==> pc.id in w.taken && w.taken[pc.id] == p && forall r | r in LogOf(w, pc.id) :: r == PENDING)
    && (pc.Record? ==>
          && pc.id in w.taken && w.taken[pc.id] == p && Terminal(pc.result)
          && (pc.result.status.Success? ==> (pc.id, pc.result.image) in w.built)
          && forall r | r in LogOf(w, pc.id) :: !Terminal(r))
  }

  ghost predicate Inv(s: State) {
    && QueueOk(s.w) && ListOk(s.w)
    && (forall id :: RegisterOk(s.w, id))
    && (forall p | p in s.procs :: PcOk(s.w, p, s.procs[p]))
  }

  /** What a step of process p leaves alone for the others. */
  ghost predicate Rely(p: nat, w: World, w': World) {
    && (forall id | id in w.drawn :: id in w'.drawn && w'.drawn[id] == w.drawn[id])
    && (forall id | id in w.taken :: id in w'.taken && w'.taken[id] == w.taken[id])
    && (forall id | id in w.drawn && w.drawn[id] != p :: (id in w'.pushed <==> id in w.pushed))
    && (forall id | id in w.drawn && w.drawn[id] != p :: (id in w'.listed <==> id in w.listed))
    && (forall id | id in w.drawn && w.drawn[id] != p :: (PENDING in LogOf(w', id) <==> PENDING in LogOf(w, id)))
    && (forall id | id in w.taken && w.taken[id] != p ::
          forall r | r != PENDING :: r in LogOf(w', id) <==> r in LogOf(w, id))
    && w.built <= w'.built
  }

  lemma AppendOrdered(log: seq<Result>, r: Result)
    requires WellOrdered(log)
    requires r == PENDING ==> PENDING !in log
    requires r == BUILDING ==> forall x | x in log :: x == PENDING
    requires Terminal(r) ==> forall x | x in log :: !Terminal(x)
    ensures WellOrdered(log + [r])
  {
    var log' := log + [r];
    forall i, j | 0 <= i < j < |log'|
      ensures log'[j] == PENDING ==> log'[i] != PENDING
      ensures log'[j] == BUILDING ==> log'[i] == PENDING
      ensures Terminal(log'[j]) ==> !Terminal(log'[i])
    {
      if j == |log| {
        assert log'[i] in log;
      }
    }
  }

  lemma WriteOk(w: World, id: Id, r: Result, c: Choice, other: Id)
    requires RegisterOk(w, id) && RegisterOk(w, other) && WellOrdered(LogOf(w, id) + [r])
    requires r == PENDING || r == BUILDING || Terminal(r)
    requires r.status.Success? ==> (id, r.image) in w.built
    requires if r == PENDING then id in w.drawn else id in w.taken
    ensures RegisterOk(Write(w, id, r, c), other)
  {
    if Applied(c) && other == id {
      var log := LogOf(w, id) + [r];
      assert LogOf(Write(w, id, r, c), id) == log;
      forall x | x in log ensures x in LogOf(w, id) || x == r {
      }
    }
  }

  // What a write does to the registers' contents.
  lemma WriteLogs(w: World, id: Id, r: Result, c: Choice, other: Id, x: Result)
    ensures x in LogOf(Write(w, id, r, c), other) <==> x in LogOf(w, other) || (Applied(c) && other == id && x == r)
  {
  }

  lemma RegisterKept(w: World, w': World, id: Id)
    requires RegisterOk(w, id) && w'.results == w.results && w'.log == w.log
    requires w'.drawn == w.drawn && w.taken.Keys <= w'.taken.Keys && w.built <= w'.built
    ensures RegisterOk(w', id)
  {
  }

  lemma RegisterStep(w: World, p: nat, pc: Pc, c: Choice, o: Outcome, id: Id)
    requires PcOk(w, p, pc) && RegisterOk(w, id)
    requires pc.MarkPending? || pc.MarkBuilding? || pc.Record? ==> RegisterOk(w, pc.id)
    ensures RegisterOk(Advance(w, p, pc, c, o).0, id)
  {
    var w' := Advance(w, p, pc, c, o).0;
    if pc.MarkPending? || pc.MarkBuilding? || pc.Record? {
      var r := Written(pc);
      AppendOrdered(LogOf(w, pc.id), r);
      WriteOk(w, pc.id, r, c, id);
      RegisterKept(Write(w, pc.id, r, c), w', id);
    } else {
      RegisterKept(w, w', id);
    }
  }

  // The result a process is about to write.
  function Written(pc: Pc): Result
    requires pc.MarkPending? || pc.MarkBuilding? || pc.Record?
  {
    if pc.MarkPending? then PENDING else if pc.MarkBuilding? then BUILDING else pc.result
  }

  lemma QueueStep(w: World, p: nat, pc: Pc, c: Choice, o: Outcome)
    requires QueueOk(w) && PcOk(w, p, pc)
    ensures QueueOk(Advance(w, p, pc, c, o).0)
  {
    if pc.Idle? && w.queue != [] {
      assert w.pushed == (w.popped + [w.queue[0]]) + w.queue[1..];
    } else if pc.Push? && Applied(c) {
      assert w.pushed + [pc.id] == w.popped + (w.queue + [pc.id]);
    }
  }

  lemma ListStep(w: World, p: nat, pc: Pc, c: Choice, o: Outcome)
    requires ListOk(w) && PcOk(w, p, pc)
    ensures ListOk(Advance(w, p, pc, c, o).0)
  {
    if pc.Announce? {
      assert [pc.id] + w.listed[..|w.list|] == ([pc.id] + w.listed)[..|w.list| + 1];
    }
  }

  // The head of the queue was never popped before.
  lemma HeadFresh(w: World)
    requires QueueOk(w) && w.queue != []
    ensures w.queue[0] !in w.popped && w.queue[0] !in w.taken
  {
    var n := |w.popped|;
    assert w.pushed[n] == w.queue[0];
    forall i | 0 <= i < n ensures w.popped[i] != w.queue[0] {
      assert w.pushed[i] == w.popped[i];
    }
  }

  lemma PcStep(w: World, p: nat, pc: Pc, c: Choice, o: Outcome)
    requires QueueOk(w) && ListOk(w) && PcOk(w, p, pc) && forall id :: RegisterOk(w, id)
    ensures var (w', pc') := Advance(w, p, pc, c, o); PcOk(w', p, pc')
  {
    match pc
    case Idle =>
      if w.queue != [] {
        HeadFresh(w);
        assert RegisterOk(w, w.queue[0]);
      }
    case MarkBuilding(id) =>
      forall r | r in LogOf(Write(w, id, BUILDING, c), id) ensures !Terminal(r) {
        WriteLogs(w, id, BUILDING, c, id, r);
      }
    case _ =>
  }

  lemma RelyWrite(w: World, p: nat, pc: Pc, c: Choice, w': World)
    requires PcOk(w, p, pc) && (pc.MarkPending? || pc.MarkBuilding? || pc.Record?)
    requires var ww := Write(w, pc.id, Written(pc), c);
             w'.log == ww.log && w'.drawn == w.drawn && w'.taken == w.taken && w'.pushed == w.pushed && w'.listed == w.listed
             && w.built <= w'.built
    ensures Rely(p, w, w')
  {
    var r := Written(pc);
    forall id, x ensures x in LogOf(w', id) <==> x in LogOf(w, id) || (Applied(c) && id == pc.id && x == r) {
      WriteLogs(w, pc.id, r, c, id, x);
    }
  }

  lemma RelyPop(w: World, p: nat, c: Choice, o: Outcome)
    requires QueueOk(w)
    ensures Rely(p, w, Advance(w, p, Idle, c, o).0)
  {
    if w.queue != [] {
      HeadFresh(w);
    }
  }

  lemma RelyAppend(w: World, p: nat, pc: Pc, c: Choice, w': World)
    requires PcOk(w, p, pc) && (pc.Push? || pc.Announce?)
    requires w'.log == w.log && w'.drawn == w.drawn && w'.taken == w.taken && w'.built == w.built
    requires w'.pushed == w.pushed || w'.pushed == w.pushed + [pc.id]
    requires w'.listed == w.listed || w'.listed == [pc.id] + w.listed
    ensures Rely(p, w, w')
  {
  }

  lemma RelyStep(w: World, p: nat, pc: Pc, c: Choice, o: Outcome)
    requires QueueOk(w) && PcOk(w, p, pc)
    ensures Rely(p, w, Advance(w, p, pc, c, o).0)
  {
    if pc.Idle? {
      RelyPop(w, p, c, o);
    } else if pc.Push? || pc.Announce? {
      RelyAppend(w, p, pc, c, Advance(w, p, pc, c, o).0);
    } else if pc.MarkPending? || pc.MarkBuilding? || pc.Record? {
      RelyWrite(w, p, pc, c, Advance(w, p, pc, c, o).0);
    } else {
      assert Rely(p, w, Advance(w, p, pc, c, o).0);
    }
  }

  lemma OtherOk(p: nat, w: World, w': World, q: nat, pc: Pc)
    requires PcOk(w, q, pc) && Rely(p, w, w') && p != q && (pc.Push? ==> pc.id in w.drawn && w.drawn[pc.id] == q)
    ensures PcOk(w', q, pc)
  {
  }

  lemma GoKeepsInv(s: State, a: Action)
    requires Inv(s) && a.Go? && a.p in s.procs
    ensures Inv(Step(s, a)) && Rely(a.p, s.w, Step(s, a).w)
  {
    var w, pc := s.w, s.procs[a.p];
    QueueStep(w, a.p, pc, a.c, a.outcome);
    ListStep(w, a.p, pc, a.c, a.outcome);
    PcStep(w, a.p, pc, a.c, a.outcome);
    RelyStep(w, a.p, pc, a.c, a.outcome);
    var s' := Step(s, a);
    forall id: Id ensures RegisterOk(s'.w, id) {
      RegisterStep(w, a.p, pc, a.c, a.outcome, id);
    }
    forall q | q in s'.procs ensures PcOk(s'.w, q, s'.procs[q]) {
      if q != a.p {
        OtherOk(a.p, w, s'.w, q, s.procs[q]);
      }
    }
  }

  lemma EnqueueKeepsInv(s: State, a: Action)
    requires Inv(s) && (a.Enqueue? || a.Hire?)
    ensures Inv(Step(s, a)) && Rely(a.p, s.w, Step(s, a).w)
  {
    var s' := Step(s, a);
    if a.p !in s.procs {
      if a.Enqueue? {
        assert RegisterOk(s.w, a.id);
      }
      forall id: Id ensures RegisterOk(s'.w, id) {
        assert RegisterOk(s.w, id);
      }
      forall q | q in s'.procs ensures PcOk(s'.w, q, s'.procs[q]) {
        if q != a.p {
          OtherOk(a.p, s.w, s'.w, q, s.procs[q]);
        }
      }
    }
  }

  lemma {:induction false} RunInv(acts: seq<Action>)
    ensures Inv(Exec(EMPTY, acts))
  {
    if acts != [] {
      var before, a := Exec(EMPTY, acts[..|acts| - 1]), acts[|acts| - 1];
      RunInv(acts[..|acts| - 1]);
      if a.Go? && a.p in before.procs {
        GoKeepsInv(before, a);
      } else if !a.Go? {
        EnqueueKeepsInv(before, a);
      }
    }
  }

  /** Jobs are taken in the order they were pushed, each at most once. */
  lemma TakenInOrder(acts: seq<Action>)
    ensures var w := Exec(EMPTY, acts).w;
            w.pushed == w.popped + w.queue && Distinct(w.pushed) && Distinct(w.popped)
  {
    RunInv(acts);
    var w := Exec(EMPTY, acts).w;
    forall i, j | 0 <= i < j < |w.popped| ensures w.popped[i] != w.popped[j] {
      assert w.pushed[i] == w.popped[i] && w.pushed[j] == w.popped[j];
    }
  }

  /** The register holds what was written last. */
  ghost predicate Current(w: World, id: Id) {
    && (id in w.results <==> LogOf(w, id) != [])
    && (id in w.results ==> w.results[id] == LogOf(w, id)[|LogOf(w, id)| - 1])
    && (forall r | r in LogOf(w, id) :: r == PENDING || r == BUILDING || Terminal(r))
  }

  /** Over every interleaving and failure each register was written pending at most once, building at most once and
      then a terminal result at most once, and holds what was written last. */
  lemma RegisterHistory(acts: seq<Action>, id: Id)
    ensures var w := Exec(EMPTY, acts).w;
            WellOrdered(LogOf(w, id)) && Current(w, id)
  {
    RunInv(acts);
    assert RegisterOk(Exec(EMPTY, acts).w, id);
  }

  /** A register says success with an image only if a worker took that job and built and pushed that image for it. */
  lemma SuccessWasBuilt(acts: seq<Action>, id: Id)
    ensures var w := Exec(EMPTY, acts).w;
            id in w.results && w.results[id].status.Success? ==>
              (id, w.results[id].image) in w.built && id in w.popped && id in w.pushed
  {
    RunInv(acts);
    var w := Exec(EMPTY, acts).w;
    assert RegisterOk(w, id);
    if id in w.results && w.results[id].status.Success? {
      assert w.results[id] in LogOf(w, id);
    }
  }

  lemma LogStep(s: State, a: Action, id: Id)
    ensures LogOf(s.w, id) <= LogOf(Step(s, a).w, id)
  {
    if a.Go? && a.p in s.procs {
      var pc := s.procs[a.p];
      if pc.MarkPending? || pc.MarkBuilding? || pc.Record? {
        assert Step(s, a).w.log == Write(s.w, pc.id, Written(pc), a.c).log;
      }
    }
  }

  lemma {:induction false} LogGrows(s: State, acts: seq<Action>, id: Id)
    ensures LogOf(s.w, id) <= LogOf(Exec(s, acts).w, id)
  {
    if acts != [] {
      LogGrows(s, acts[..|acts| - 1], id);
      LogStep(Exec(s, acts[..|acts| - 1]), acts[|acts| - 1], id);
    }
  }

  lemma {:induction false} ExecConcat(s: State, a: seq<Action>, b: seq<Action>)
    ensures Exec(s, a + b) == Exec(Exec(s, a), b)
    decreases |b|
  {
    if b == [] {
      assert a + b == a;
    } else {
      var ab := a + b;
      assert ab[..|ab| - 1] == a + b[..|b| - 1] && ab[|ab| - 1] == b[|b| - 1];
      ExecConcat(s, a, b[..|b| - 1]);
    }
  }

  ghost predicate HasTerminal(log: seq<Result>) { exists i :: 0 <= i < |log| && Terminal(log[i]) }

  ghost predicate PendingFirst(log: seq<Result>) {
    exists i, j :: 0 <= i < j < |log| && log[i] == PENDING && Terminal(log[j])
  }

  // After a terminal write only the pending write can still come.
  lemma OnlyPendingFollows(log: seq<Result>, longer: seq<Result>)
    requires log <= longer && WellOrdered(longer) && HasTerminal(log)
    requires forall r | r in longer :: r == PENDING || r == BUILDING || Terminal(r)
    ensures longer == log || (longer == log + [PENDING] && PENDING !in log)
  {
    var k := |log|;
    if k + 1 < |longer| {
      assert longer[k] != PENDING || longer[k + 1] != PENDING;
    }
    var t :| 0 <= t < k && Terminal(log[t]);
    assert forall i | 0 <= i < k :: longer[i] == log[i];
    forall j | k <= j < |longer| ensures longer[j] == PENDING {
      assert longer[j] in longer && longer[t] == log[t];
    }
    if k < |longer| {
      assert longer[k] == PENDING;
      assert forall i | 0 <= i < k :: longer[i] != PENDING && log[i] == longer[i];
      assert longer == log + [PENDING];
    }
  }

  // How a register goes on once it has a terminal write.
  lemma Settles(acts: seq<Action>, later: seq<Action>, id: Id)
    requires HasTerminal(LogOf(Exec(EMPTY, acts).w, id))
    ensures var w, w' := Exec(EMPTY, acts).w, Exec(Exec(EMPTY, acts), later).w;
            var log, log' := LogOf(w, id), LogOf(w', id);
            && WellOrdered(log) && Current(w, id) && Current(w', id)
            && (log' == log || (log' == log + [PENDING] && PENDING !in log))
  {
    RegisterHistory(acts, id);
    RegisterHistory(acts + later, id);
    ExecConcat(EMPTY, acts, later);
    LogGrows(Exec(EMPTY, acts), later, id);
    OnlyPendingFollows(LogOf(Exec(EMPTY, acts).w, id), LogOf(Exec(Exec(EMPTY, acts), later).w, id));
  }

  /** A terminal result stays for good exactly unless the enqueuer's pending write is still to come, which then
      replaces it for good. */
  lemma TerminalFinalExactly(acts: seq<Action>, later: seq<Action>, id: Id)
    requires id in Exec(EMPTY, acts).w.results && Terminal(Exec(EMPTY, acts).w.results[id])
    ensures var w, w' := Exec(EMPTY, acts).w, Exec(Exec(EMPTY, acts), later).w;
            && id in w'.results
            && (w'.results[id] == w.results[id] <==> (PENDING in LogOf(w', id) ==> PENDING in LogOf(w, id)))
            && (w'.results[id] != w.results[id] ==> w'.results[id] == PENDING)
  {
    RegisterHistory(acts, id);
    assert HasTerminal(LogOf(Exec(EMPTY, acts).w, id));
    Settles(acts, later, id);
    FinalValue(Exec(EMPTY, acts).w, Exec(Exec(EMPTY, acts), later).w, id);
  }

  lemma FinalValue(w: World, w': World, id: Id)
    requires Current(w, id) && Current(w', id) && id in w.results && Terminal(w.results[id])
    requires LogOf(w', id) == LogOf(w, id) || (LogOf(w', id) == LogOf(w, id) + [PENDING] && PENDING !in LogOf(w, id))
    ensures id in w'.results
    ensures w'.results[id] == w.results[id] <==> (PENDING in LogOf(w', id) ==> PENDING in LogOf(w, id))
    ensures w'.results[id] != w.results[id] ==> w'.results[id] == PENDING
  {
  }

  /** An enqueuer that succeeded has written pending. */
  lemma {:induction false} EnqueuedPending(acts: seq<Action>, p: nat, id: Id)
    requires p in Exec(EMPTY, acts).procs && Exec(EMPTY, acts).procs[p] == Enqueued(id, true)
    ensures PENDING in LogOf(Exec(EMPTY, acts).w, id)
  {
    var before, a := Exec(EMPTY, acts[..|acts| - 1]), acts[|acts| - 1];
    if p in before.procs && before.procs[p] == Enqueued(id, true) {
      EnqueuedPending(acts[..|acts| - 1], p, id);
      LogStep(before, a, id);
    } else {
      assert a.Go? && a.p == p && before.procs[p] == MarkPending(id) && a.c.Ok?;
      WriteLogs(before.w, id, PENDING, a.c, id, PENDING);
    }
  }

  /** Once the job was enqueued with success, the first terminal result of it that anyone reads is its last. */
  lemma FinalOnceEnqueued(acts: seq<Action>, later: seq<Action>, p: nat, id: Id)
    requires p in Exec(EMPTY, acts).procs && Exec(EMPTY, acts).procs[p] == Enqueued(id, true)
    requires id in Exec(EMPTY, acts).w.results && Terminal(Exec(EMPTY, acts).w.results[id])
    ensures var w, w' := Exec(EMPTY, acts).w, Exec(Exec(EMPTY, acts), later).w;
            id in w'.results && w'.results[id] == w.results[id]
  {
    EnqueuedPending(acts, p, id);
    TerminalFinalExactly(acts, later, id);
  }

  /** Once a job has its pending and its terminal write its status never changes again: it is terminal exactly when
      pending was written first, and reads pending for ever when it was not. */
  lemma StatusSettled(acts: seq<Action>, later: seq<Action>, id: Id)
    requires var log := LogOf(Exec(EMPTY, acts).w, id); PENDING in log && HasTerminal(log)
    ensures var w, w' := Exec(EMPTY, acts).w, Exec(Exec(EMPTY, acts), later).w;
            && id in w.results && id in w'.results && w'.results[id] == w.results[id]
            && (Terminal(w.results[id]) <==> PendingFirst(LogOf(w, id)))
            && (!Terminal(w.results[id]) ==> w.results[id] == PENDING)
  {
    Settles(acts, later, id);
    SettledStatus(Exec(EMPTY, acts).w, Exec(Exec(EMPTY, acts), later).w, id);
  }

  lemma SettledStatus(w: World, w': World, id: Id)
    requires WellOrdered(LogOf(w, id)) && Current(w, id) && Current(w', id) && LogOf(w', id) == LogOf(w, id)
    requires PENDING in LogOf(w, id) && HasTerminal(LogOf(w, id))
    ensures id in w.results && id in w'.results && w'.results[id] == w.results[id]
    ensures Terminal(w.results[id]) <==> PendingFirst(LogOf(w, id))
    ensures !Terminal(w.results[id]) ==> w.results[id] == PENDING
  {
    LastWrite(LogOf(w, id));
  }

  lemma LastWrite(log: seq<Result>)
    requires WellOrdered(log) && PENDING in log && HasTerminal(log)
    requires forall r | r in log :: r == PENDING || r == BUILDING || Terminal(r)
    ensures Terminal(log[|log| - 1]) <==> PendingFirst(log)
    ensures Terminal(log[|log| - 1]) || log[|log| - 1] == PENDING
  {
    var t :| 0 <= t < |log| && Terminal(log[t]);
    var p :| 0 <= p < |log| && log[p] == PENDING;
    assert log[|log| - 1] in log;
  }

  /** The first hundred entries of the trimmed list are the newest hundred jobs put on it, newest first, whatever
      pushes and trims interleave or fail. */
  lemma NewestListed(acts: seq<Action>)
    ensures var w := Exec(EMPTY, acts).w;
            var n := if |w.listed| <= 100 then |w.listed| else 100;
            n <= |w.list| && w.list[..n] == w.listed[..n] && Distinct(w.listed)
  {
    RunInv(acts);
  }

  lemma OneMore(s: State, acts: seq<Action>, a: Action)
    ensures Exec(s, acts + [a]) == Step(Exec(s, acts), a)
  {
    assert (acts + [a])[..|acts|] == acts;
  }

  function FourSteps(s: State, a: Action, b: Action, c: Action, d: Action): State {
    Step(Step(Step(Step(s, a), b), c), d)
  }

  lemma FourMore(acts: seq<Action>, a: Action, b: Action, c: Action, d: Action)
    ensures Exec(EMPTY, acts + [a] + [b] + [c] + [d]) == FourSteps(Exec(EMPTY, acts), a, b, c, d)
  {
    OneMore(EMPTY, acts, a);
    OneMore(EMPTY, acts + [a], b);
    OneMore(EMPTY, acts + [a] + [b], c);
    OneMore(EMPTY, acts + [a] + [b] + [c], d);
  }

  lemma Taken(id: Id, o: Outcome)
    ensures var s := FourSteps(EMPTY, Enqueue(0, id, ""), Hire(1), Go(0, Ok, o), Go(1, Ok, o));
            s.procs == map[0 := SaveInfo(id, ""), 1 := MarkBuilding(id)] && s.w.log == map[] && s.w.built == {}
  {
  }

  lemma BuiltEarly(s: State, id: Id, image: string)
    requires s.procs == map[0 := SaveInfo(id, ""), 1 := MarkBuilding(id)] && s.w.log == map[]
    ensures var o := Built(image);
            var s' := FourSteps(s, Go(0, Ok, o), Go(0, Ok, o), Go(0, Ok, o), Go(1, Fail, o));
            && s'.procs == map[0 := MarkPending(id), 1 := Record(id, Result(Success, image, ""))]
            && s'.w.log == map[] && (id, image) in s'.w.built
  {
  }

  lemma Overtaken(s: State, id: Id, image: string)
    requires s.procs == map[0 := MarkPending(id), 1 := Record(id, Result(Success, image, ""))]
    requires s.w.log == map[] && (id, image) in s.w.built
    ensures var o := Built(image);
            var w := FourSteps(s, Go(1, Ok, o), Go(0, Ok, o), Go(1, Ok, o), Go(0, Ok, o)).w;
            && id in w.results && w.results[id] == PENDING && (id, image) in w.built
            && LogOf(w, id) == [Result(Success, image, ""), PENDING]
  {
  }

  // The job's success was overwritten.
  ghost predicate Forgotten(w: World, id: Id, image: string) {
    && id in w.results && w.results[id] == PENDING && (id, image) in w.built
    && LogOf(w, id) == [Result(Success, image, ""), PENDING]
  }

  lemma ThenOvertaken(acts: seq<Action>, id: Id, image: string)
    requires Exec(EMPTY, acts).procs == map[0 := MarkPending(id), 1 := Record(id, Result(Success, image, ""))]
    requires Exec(EMPTY, acts).w.log == map[] && (id, image) in Exec(EMPTY, acts).w.built
    ensures exists run :: Forgotten(Exec(EMPTY, run).w, id, image)
  {
    var o := Built(image);
    FourMore(acts, Go(1, Ok, o), Go(0, Ok, o), Go(1, Ok, o), Go(0, Ok, o));
    Overtaken(Exec(EMPTY, acts), id, image);
  }

  lemma ThenBuilt(acts: seq<Action>, id: Id, image: string)
    requires Exec(EMPTY, acts).procs == map[0 := SaveInfo(id, ""), 1 := MarkBuilding(id)] && Exec(EMPTY, acts).w.log == map[]
    ensures exists run :: Forgotten(Exec(EMPTY, run).w, id, image)
  {
    var o := Built(image);
    FourMore(acts, Go(0, Ok, o), Go(0, Ok, o), Go(0, Ok, o), Go(1, Fail, o));
    BuiltEarly(Exec(EMPTY, acts), id, image);
    ThenOvertaken(acts + [Go(0, Ok, o)] + [Go(0, Ok, o)] + [Go(0, Ok, o)] + [Go(1, Fail, o)], id, image);
  }

  /** The job is pushed before it is marked pending, so a successful build can end up reading pending. */
  lemma SuccessForgotten(id: Id, image: string)
    ensures exists run :: Forgotten(Exec(EMPTY, run).w, id, image)
  {
    var o := Built(image);
    FourMore([], Enqueue(0, id, ""), Hire(1), Go(0, Ok, o), Go(1, Ok, o));
    Taken(id, o);
    ThenBuilt([] + [Enqueue(0, id, "")] + [Hire(1)] + [Go(0, Ok, o)] + [Go(1, Ok, o)], id, image);
  }
}
