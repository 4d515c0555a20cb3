/** The build queue's commands one after another, as the enqueuer, the worker and the listing issue them
    (ctf-server/infrastructure/client/builder_client.go, ctf-builder/queue/redis.go). */
module BuildClient {
  import opened Common
  import opened BuildPipeline

  function Then(x: (World, Pc), p: nat, c: Choice): (World, Pc) { Advance(x.0, p, x.1, c, BuildFailed("")) }

  class Redis {
    var queue: seq<Id>
    var infos: map<Id, string>
    var results: map<Id, Result>
    var list: seq<Id>
    ghost var history: World

    ghost function View(): World reads this {
      history.(queue := queue, infos := infos, results := results, list := list)
    }

    constructor ()
      ensures View() == EMPTY.w
    {
      queue, infos, results, list, history := [], map[], map[], [], EMPTY.w;
    }

    method PushJob(p: nat, id: Id, challenge: string, c: Choice)
      modifies this`queue, this`history
      ensures (View(), if c.Ok? then SaveInfo(id, challenge) else Enqueued(id, false))
              == Then((old(View()), Push(id, challenge)), p, c)
      ensures queue == if Applied(c) then old(queue) + [id] else old(queue)
    {
      history := View();
      if Applied(c) {
        queue := queue + [id];
        history := history.(pushed := history.pushed + [id]);
      }
    }

    method SetInfo(p: nat, id: Id, challenge: string, c: Choice)
      modifies this`infos
      ensures (View(), Announce(id)) == Then((old(View()), SaveInfo(id, challenge)), p, c)
      ensures infos == if c.Ok? || c.FailApplied? then old(infos)[id := challenge] else old(infos)
    {
      if Applied(c) {
        infos := infos[id := challenge];
      }
    }

    method PushList(p: nat, id: Id, c: Choice)
      modifies this`list, this`history
      ensures (View(), Trim(id)) == Then((old(View()), Announce(id)), p, c)
      ensures list == if c.Ok? || c.FailApplied? then [id] + old(list) else old(list)
    {
      history := View();
      if Applied(c) {
        list := [id] + list;
        history := history.(listed := [id] + history.listed);
      }
    }

    method TrimList(p: nat, id: Id, c: Choice)
      modifies this`list
      ensures (View(), MarkPending(id)) == Then((old(View()), Trim(id)), p, c)
      ensures list == if (c.Ok? || c.FailApplied?) && |old(list)| > 100 then old(list)[..100] else old(list)
    {
      if Applied(c) && |list| > KEPT {
        list := list[..KEPT];
      }
    }

    /** EnqueueBuild: five commands, of which only the first and the last can make it fail. */
    method EnqueueBuild(p: nat, id: Id, challenge: string, push: Choice, info: Choice, announce: Choice, trim: Choice,
                        pending: Choice)
      returns (ok: bool)
      modifies this
      ensures var pushed := Then((old(View()), Push(id, challenge)), p, push);
              !push.Ok? ==> pushed == (View(), Enqueued(id, ok))
      ensures var pushed := Then((old(View()), Push(id, challenge)), p, push);
              var listed := Then(Then(Then(pushed, p, info), p, announce), p, trim);
              push.Ok? ==> (View(), Enqueued(id, ok)) == Then(listed, p, pending)
      ensures ok <==> push.Ok? && pending.Ok?
      ensures ok ==> queue == old(queue) + [id] && id in results && results[id] == PENDING
      ensures queue == if push.Ok? || push.FailApplied? then old(queue) + [id] else old(queue)
      ensures !push.Ok? ==> infos == old(infos) && list == old(list) && results == old(results)
      ensures push.Ok? ==>
                && infos == (if info.Ok? || info.FailApplied? then old(infos)[id := challenge] else old(infos))
                && (var more := if announce.Ok? || announce.FailApplied? then [id] + old(list) else old(list);
                    list == if (trim.Ok? || trim.FailApplied?) && |more| > 100 then more[..100] else more)
                && results == (if pending.Ok? || pending.FailApplied? then old(results)[id := Result(Pending, "", "")]
                               else old(results))
    {
      PushJob(p, id, challenge, push);
      if !push.Ok? {
        return false;
      }
      SetInfo(p, id, challenge, info);
      PushList(p, id, announce);
      TrimList(p, id, trim);
      ghost var w := View();
      ok := SetBuildResult(id, PENDING, pending);
      assert Then((w, MarkPending(id)), p, pending) == (View(), Enqueued(id, ok));
    }

    method SetBuildResult(id: Id, r: Result, c: Choice) returns (ok: bool)
      modifies this`results, this`history
      ensures View() == Write(old(View()), id, r, c) && ok == c.Ok?
      ensures results == if c.Ok? || c.FailApplied? then old(results)[id := r] else old(results)
      ensures ok ==> id in results && results[id] == r
    {
      history := View();
      if Applied(c) {
        history := Write(View(), id, r, c);
        results := results[id := r];
      }
      ok := c.Ok?;
    }

    /** DequeueJob: no job when the queue stays empty, and a job lost when its reply is. */
    method DequeueJob(p: nat, c: Choice) returns (job: Option<Id>)
      modifies this
      ensures (View(), if job.Some? then MarkBuilding(job.value) else Idle) == Then((old(View()), Idle), p, c)
      ensures job.Some? ==> old(queue) == [job.value] + queue
      ensures job.Some? <==> old(queue) != [] && c.Ok?
      ensures queue == if old(queue) != [] && (c.Ok? || c.FailApplied?) then old(queue)[1..] else old(queue)
    {
      history := View();
      if queue == [] || !Applied(c) {
        return None;
      }
      var id := queue[0];
      queue := queue[1..];
      history := history.(popped := history.popped + [id], taken := history.taken[id := p]);
      job := if c.Ok? then Some(id) else None;
    }

    /** ListBuildLogs: of the first hundred listed jobs, newest first, those of the challenge (or of any) whose
        info and result can be read. */
    method ListBuildLogs(challenge: string, info: seq<Choice>, result: seq<Choice>)
      returns (logs: seq<Summary>, ghost at: seq<nat>)
      requires |info| == |result| == if |list| <= 100 then |list| else 100
      ensures Lists(challenge, list, infos, results, info, result, at, logs)
      ensures var q := Listing(Trimmed(list), challenge, infos, results, info, result);
              var kept := Kept(q, |q.jobs|);
              |logs| == |kept| && forall k | 0 <= k < |kept| :: logs[k] == Entry(q, kept[k])
    {
      var jobs := Trimmed(list);
      ghost var q := Listing(jobs, challenge, infos, results, info, result);
      logs, at := [], [];
      for i := 0 to |jobs|
        invariant at == Kept(q, i)
        invariant |logs| == |Kept(q, i)|
        invariant forall k | 0 <= k < |Kept(q, i)| :: logs[k] == Entry(q, Kept(q, i)[k])
      {
        var id := jobs[i];
        if !info[i].Ok? || id !in infos {
          continue;
        }
        if challenge != "" && infos[id] != challenge {
          continue;
        }
        if !result[i].Ok? || id !in results {
          continue;
        }
        assert Shown(q, i);
        logs, at := logs + [Summary(id, infos[id], results[id].status)], at + [i];
      }
      assert at == Kept(q, |jobs|);
      KeptLists(q, list, at, logs);
    }
  }

  datatype Summary = Summary(job: Id, challenge: string, status: Status)

  /** A listing: the jobs read, the challenge asked for, what is stored, and how each read of an info and a result ends. */
  datatype Listing = Listing(
    jobs: seq<Id>, challenge: string, infos: map<Id, string>, results: map<Id, Result>,
    info: seq<Choice>, result: seq<Choice>)

  /**
   * The summaries are those of the listed jobs at increasing positions `at` among the first hundred: of each job whose
   * info and result are there and read and whose challenge is the one asked for, if one is, and of no other.
   */
  ghost predicate Lists(challenge: string, list: seq<Id>, infos: map<Id, string>, results: map<Id, Result>,
                        info: seq<Choice>, result: seq<Choice>, at: seq<nat>, logs: seq<Summary>) {
    var n := if |list| <= 100 then |list| else 100;
    && |info| == |result| == n && |at| == |logs| && (forall j, k | 0 <= j < k < |at| :: at[j] < at[k])
    && (forall k | 0 <= k < |at| ::
          && at[k] < n && info[at[k]].Ok? && result[at[k]].Ok?
          && logs[k].job == list[at[k]] && logs[k].job in infos && logs[k].job in results
          && logs[k].challenge == infos[logs[k].job] && (challenge == "" || logs[k].challenge == challenge)
          && logs[k].status == results[logs[k].job].status)
    && (forall i | 0 <= i < n && info[i].Ok? && list[i] in infos && result[i].Ok? && list[i] in results ::
          challenge == "" || infos[list[i]] == challenge ==> i in at)
  }

  lemma KeptLists(q: Listing, list: seq<Id>, at: seq<nat>, logs: seq<Summary>)
    requires q.jobs == Trimmed(list) && |q.info| == |q.jobs| == |q.result| && at == Kept(q, |q.jobs|)
    requires |logs| == |at| && forall k | 0 <= k < |at| :: logs[k] == Entry(q, at[k])
    ensures Lists(q.challenge, list, q.infos, q.results, q.info, q.result, at, logs)
  {
    forall i | 0 <= i < |q.jobs| && q.info[i].Ok? && list[i] in q.infos && q.result[i].Ok? && list[i] in q.results
      ensures q.challenge == "" || q.infos[list[i]] == q.challenge ==> i in at
    {
      assert q.challenge == "" || q.infos[list[i]] == q.challenge ==> Shown(q, i);
    }
  }

  // The i-th job appears: its challenge is asked for, and its info and result are there and were read.
  predicate Shown(q: Listing, i: nat) {
    && i < |q.jobs| && i < |q.info| && i < |q.result|
    && q.info[i].Ok? && q.jobs[i] in q.infos && (q.challenge == "" || q.infos[q.jobs[i]] == q.challenge)
    && q.result[i].Ok? && q.jobs[i] in q.results
  }

  function Entry(q: Listing, i: nat): Summary
    requires Shown(q, i)
  {
    Summary(q.jobs[i], q.infos[q.jobs[i]], q.results[q.jobs[i]].status)
  }

  /** The positions below n whose jobs appear, in the order of the list. */
  function Kept(q: Listing, n: nat): (r: seq<nat>)
    ensures forall k | 0 <= k < |r| :: r[k] < n && Shown(q, r[k])
    ensures forall j, k | 0 <= j < k < |r| :: r[j] < r[k]
    ensures forall i: nat | i < n && Shown(q, i) :: i in r
  {
    if n == 0 then [] else if Shown(q, n - 1) then Kept(q, n - 1) + [n - 1] else Kept(q, n - 1)
  }

  // What BuildImageSync waits for.
  datatype Event = Cancelled | LogsDone(read: Read) | Tick(read: Read)

  datatype Synced = Waiting | Image(image: string) | Error

  /** BuildImageSync's loop over the events it meets. */
  method AwaitImage(events: seq<Event>) returns (r: Synced)
    ensures r != Waiting ==>
              exists k | 0 <= k < |events| && Ends(events[k]) ::
                r == EndOf(events[k]) && forall j | 0 <= j < k :: !Ends(events[j])
    ensures r == Waiting <==> forall k | 0 <= k < |events| :: !Ends(events[k])
    ensures r == Waiting <==> forall k | 0 <= k < |events| :: GoesOn(events[k])
    ensures r != Waiting ==>
              exists k | 0 <= k < |events| ::
                && !GoesOn(events[k]) && (forall j | 0 <= j < k :: GoesOn(events[j]))
                && r == if !events[k].Cancelled? && events[k].read.Found? && events[k].read.result.status == Success
                        then Image(events[k].read.result.image) else Error
  {
    for i := 0 to |events|
      invariant forall j | 0 <= j < i :: !Ends(events[j])
    {
      match events[i]
      case Cancelled => return Error;
      case LogsDone(read) =>
        if read.Found? && read.result.status.Success? {
          return Image(read.result.image);
        }
        return Error;
      case Tick(read) =>
        if read.Found? {
          if read.result.status.Success? {
            return Image(read.result.image);
          }
          if read.result.status.Failed? {
            return Error;
          }
        }
    }
    r := Waiting;
  }

  // A tick that reads no success and no failure.
  predicate GoesOn(e: Event) {
    e.Tick? && (e.read.Found? ==> e.read.result.status != Success && e.read.result.status != Failed)
  }

  /** A tick goes on unless it reads a terminal result. */
  predicate Ends(e: Event) { e.Tick? ==> e.read.Found? && Terminal(e.read.result) }

  function EndOf(e: Event): (r: Synced)
    ensures r.Image? <==> !e.Cancelled? && e.read.Found? && e.read.result.status.Success?
  {
    if !e.Cancelled? && e.read.Found? && e.read.result.status.Success? then Image(e.read.result.image) else Error
  }

  // The events read the job's register at some points of a run from `start` on.
  ghost predicate ReadsOf(events: seq<Event>, acts: seq<Action>, start: nat, id: Id)
    requires start <= |acts|
  {
    forall k | 0 <= k < |events| && !events[k].Cancelled? && events[k].read.Found? ::
      exists n | start <= n <= |acts| ::
        id in Exec(EMPTY, acts[..n]).w.results && events[k].read.result == Exec(EMPTY, acts[..n]).w.results[id]
  }

  lemma BuiltAdvance(w: World, p: nat, pc: Pc, c: Choice, o: Outcome)
    ensures w.built <= Advance(w, p, pc, c, o).0.built
  {
  }

  lemma BuiltStep(s: State, a: Action)
    ensures s.w.built <= Step(s, a).w.built
  {
    if a.Go? && a.p in s.procs {
      BuiltAdvance(s.w, a.p, s.procs[a.p], a.c, a.outcome);
    }
  }

  lemma {:induction false} BuiltGrows(acts: seq<Action>, n: nat)
    requires n <= |acts|
    ensures Exec(EMPTY, acts[..n]).w.built <= Exec(EMPTY, acts).w.built
    decreases |acts| - n
  {
    if n == |acts| {
      assert acts[..n] == acts;
    } else {
      assert acts[..n + 1][..n] == acts[..n];
      BuiltStep(Exec(EMPTY, acts[..n]), acts[n]);
      BuiltGrows(acts, n + 1);
    }
  }

  // An enqueuer that has ended stays as it is.
  lemma {:induction false} StaysEnqueued(acts: seq<Action>, start: nat, n: nat, p: nat, id: Id, ok: bool)
    requires start <= n <= |acts|
    requires p in Exec(EMPTY, acts[..start]).procs && Exec(EMPTY, acts[..start]).procs[p] == Enqueued(id, ok)
    ensures p in Exec(EMPTY, acts[..n]).procs && Exec(EMPTY, acts[..n]).procs[p] == Enqueued(id, ok)
    decreases n
  {
    if n > start {
      StaysEnqueued(acts, start, n - 1, p, id, ok);
      assert acts[..n][..n - 1] == acts[..n - 1];
    }
  }

  // A success read at some point was built, and is what the register holds from then on.
  lemma SuccessStays(acts: seq<Action>, start: nat, n: nat, p: nat, id: Id)
    requires start <= n <= |acts|
    requires p in Exec(EMPTY, acts[..start]).procs && Exec(EMPTY, acts[..start]).procs[p] == Enqueued(id, true)
    requires id in Exec(EMPTY, acts[..n]).w.results && Exec(EMPTY, acts[..n]).w.results[id].status.Success?
    ensures var result, w := Exec(EMPTY, acts[..n]).w.results[id], Exec(EMPTY, acts).w;
            (id, result.image) in w.built && id in w.results && w.results[id] == result
  {
    StaysEnqueued(acts, start, n, p, id, true);
    SuccessWasBuilt(acts[..n], id);
    BuiltGrows(acts, n);
    FinalOnceEnqueued(acts[..n], acts[n..], p, id);
    ExecConcat(EMPTY, acts[..n], acts[n..]);
    assert acts[..n] + acts[n..] == acts;
  }

  /** BuildImageSync: it fails if its enqueue fails. Otherwise it ends at the first event that ends its loop, and an
      image it returns was built and pushed by a worker for its job and is the job's result for good: acts may be
      any run that goes on from its reads. */
  method BuildImageSync(enqueued: bool, events: seq<Event>, ghost acts: seq<Action>, ghost start: nat, ghost p: nat, ghost id: Id)
    returns (r: Synced)
    requires start <= |acts| && p in Exec(EMPTY, acts[..start]).procs
    requires Exec(EMPTY, acts[..start]).procs[p] == Enqueued(id, enqueued) && ReadsOf(events, acts, start, id)
    ensures !enqueued ==> r == Error
    ensures enqueued ==> (r == Waiting <==> forall k | 0 <= k < |events| :: !Ends(events[k]))
    ensures enqueued && r != Waiting ==>
              exists k | 0 <= k < |events| && Ends(events[k]) ::
                r == EndOf(events[k]) && forall j | 0 <= j < k :: !Ends(events[j])
    ensures var w := Exec(EMPTY, acts).w;
            r.Image? ==>
              && (id, r.image) in w.built
              && id in w.results && w.results[id].status.Success? && w.results[id].image == r.image
  {
    if !enqueued {
      return Error;
    }
    r := AwaitImage(events);
    if r.Image? {
      ghost var k :| 0 <= k < |events| && Ends(events[k]) && r == EndOf(events[k]);
      ghost var n :| start <= n <= |acts|
                     && id in Exec(EMPTY, acts[..n]).w.results
                     && events[k].read.result == Exec(EMPTY, acts[..n]).w.results[id];
      SuccessStays(acts, start, n, p, id);
    }
  }
}
