/**
 * What a GET from the registry answers when the blobs are files, the default backend, over every interleaving of
 * handlers, system calls and failures (ctf-registry/main.go, ctf-registry/handler/blob.go,
 * ctf-registry/handler/manifest.go, ctf-registry/storage/filesystem/filesystem.go).
 */
module RegistryOnDisk {
  import opened Common
  import opened StorageApi
  import opened Registry
  import Storage
  import Fs = FsStorage
  import Races = FsRaces
  import Sessions = FsSessions

  // The file operation a request is in the middle of.
  function InFlight(pc: Pc): Option<Fs.Op> {
    if (pc.InUpload? || pc.InCommit? || pc.InSave?) && pc.op.FsOp? then Some(pc.op.fs) else None
  }

  function DiskOps(procs: map<nat, Pc>): map<nat, Fs.Op> {
    map p | p in procs && InFlight(procs[p]).Some? :: InFlight(procs[p]).value
  }

  /** The files and the operations on them in flight, as FsRaces and FsSessions see them. */
  function Disk(s: State): Races.State {
    Races.State(if s.w.store.OnDisk? then s.w.store.files else Fs.NO_FILES, DiskOps(s.procs))
  }

  // The session a request uploads to.
  function UploadsTo(r: Request): Option<Id> {
    match r
    case Patch(id, _) => Some(id)
    case Post(_, id, dstr, _, _, _) => if dstr != "" then Some(id) else None
    case PutUpload(_, id, _, _) => Some(id)
    case _ => None
  }

  predicate Idle(s: State, id: Id) {
    forall p | p in s.procs && InFlight(s.procs[p]).Some? :: Sessions.Session(InFlight(s.procs[p]).value) != Some(id)
  }

  predicate Allowed(s: State, a: Action) {
    a.Receive? && UploadsTo(a.r).Some? ==> Idle(s, UploadsTo(a.r).value)
  }

  /** Clients keep at most one request of an upload session in flight; manifests are not restricted. */
  predicate Disciplined(env: Env, s: State, acts: seq<Action>) {
    acts == [] ||
    (var before := acts[..|acts| - 1];
     Disciplined(env, s, before) && Allowed(Exec(env, s, before), acts[|acts| - 1]))
  }

  // A request in the middle of a file operation; one that will commit is still on its session.
  predicate PcFits(pc: Pc) {
    && (pc.InUpload? || pc.InCommit? || pc.InSave? ==> pc.op.FsOp? && !pc.op.fs.Finished?)
    && (pc.InUpload? && pc.next.ThenCommit? ==> Sessions.Session(pc.op.fs) == Some(pc.next.id))
    && (pc.InCommit? ==> Sessions.Session(pc.op.fs).Some?)
    && (pc.InUpload? ==> pc.op.fs.UploadOpen? || pc.op.fs.UploadCopy? || pc.op.fs.UploadStat?)
  }

  ghost predicate Inv(env: Env, s: State) {
    && s.w.store.OnDisk?
    && Sessions.Inv(env.hash, Disk(s))
    && forall p | p in s.procs :: PcFits(s.procs[p])
  }

  lemma OpsUpdate(procs: map<nat, Pc>, p: nat, pc: Pc)
    ensures DiskOps(procs[p := pc])
            == if InFlight(pc).Some? then DiskOps(procs)[p := InFlight(pc).value] else DiskOps(procs) - {p}
  {
  }

  // A request goes from no file operation to none, or begins one that has made no call yet.
  lemma Enters(env: Env, s: State, p: nat, pc: Pc)
    requires Inv(env, s) && p !in DiskOps(s.procs) && PcFits(pc)
    requires InFlight(pc).Some? ==>
               && Races.Quiet(env.hash, InFlight(pc).value)
               && forall q | q in DiskOps(s.procs) :: Sessions.SessionsApart(InFlight(pc).value, DiskOps(s.procs)[q])
    ensures Inv(env, s.(procs := s.procs[p := pc]))
  {
    OpsUpdate(s.procs, p, pc);
    if InFlight(pc).Some? {
      Sessions.BeginKeeps(env.hash, Disk(s), p, InFlight(pc).value);
    } else {
      assert DiskOps(s.procs) - {p} == DiskOps(s.procs);
    }
  }

  lemma ReceiveKeeps(env: Env, s: State, p: nat, r: Request)
    requires Inv(env, s) && Allowed(s, Receive(p, r))
    ensures Inv(env, Step(env, s, Receive(p, r)))
  {
    if p !in s.procs {
      Enters(env, s, p, Admit(env, s.w.store, r));
    }
  }

  // What a request has in flight after its operation made a call: the same operation, nothing, or the commit
  // that follows an upload.
  lemma Settles(env: Env, s: State, p: nat, f: Fs.Files, op: Fs.Op, pc: Pc)
    requires s.w.store.OnDisk? && p in DiskOps(s.procs)
    requires Sessions.Inv(env.hash, Races.State(f, DiskOps(s.procs)[p := op]))
    requires InFlight(pc) == Some(op) || op.Finished?
    requires InFlight(pc).Some? && InFlight(pc) != Some(op) ==>
               && InFlight(pc).value.CommitOpen?
               && forall q | q in DiskOps(s.procs) && q != p ::
                    Sessions.SessionsApart(InFlight(pc).value, DiskOps(s.procs)[q])
    ensures Sessions.Inv(env.hash, Races.State(f, DiskOps(s.procs[p := pc])))
  {
    var ops := DiskOps(s.procs);
    var st := Races.State(f, ops[p := op]);
    OpsUpdate(s.procs, p, pc);
    if InFlight(pc) != Some(op) {
      Sessions.DropKeeps(env.hash, st, p);
      assert st.ops - {p} == ops - {p};
      if InFlight(pc).Some? {
        Sessions.BeginKeeps(env.hash, Races.State(f, ops - {p}), p, InFlight(pc).value);
        assert (ops - {p})[p := InFlight(pc).value] == ops[p := InFlight(pc).value];
      }
    }
  }

  // Where a call leaves a request, given where it leaves its file operation.
  lemma CallFits(env: Env, w: World, pc: Pc, c: Choice)
    requires w.store.OnDisk? && PcFits(pc) && InFlight(pc).Some?
    ensures var (w', pc') := Advance(env, w, pc, c);
            var (f, op) := Fs.Step(env.hash, w.store.files, InFlight(pc).value, c);
            && w'.store == Storage.OnDisk(f) && PcFits(pc')
            && (InFlight(pc') == Some(op) || op.Finished?)
            && (InFlight(pc').Some? && InFlight(pc') != Some(op) ==>
                  && InFlight(pc').value.CommitOpen?
                  && Sessions.Session(InFlight(pc').value) == Sessions.Session(InFlight(pc).value))
  {
  }

  lemma StorageGoKeeps(env: Env, s: State, p: nat, c: Choice)
    requires Injective(env.hash) && Inv(env, s) && p in s.procs && InFlight(s.procs[p]).Some?
    ensures Inv(env, Step(env, s, Go(p, c)))
  {
    var (w', pc') := Advance(env, s.w, s.procs[p], c);
    var (f, op) := Fs.Step(env.hash, s.w.store.files, InFlight(s.procs[p]).value, c);
    assert Sessions.Inv(env.hash, Races.State(f, DiskOps(s.procs)[p := op])) by { Sessions.GoKeeps(env.hash, Disk(s), p, c); }
    CallFits(env, s.w, s.procs[p], c);
    forall q | q in DiskOps(s.procs) && q != p && InFlight(pc').Some? && InFlight(pc') != Some(op)
      ensures Sessions.SessionsApart(InFlight(pc').value, DiskOps(s.procs)[q])
    {
      assert Sessions.SessionsApart(DiskOps(s.procs)[p], DiskOps(s.procs)[q]);
    }
    Settles(env, s, p, f, op, pc');
  }

  // A handler's calls to the metadata leave the files alone; a save may follow one.
  lemma OtherAdvance(env: Env, w: World, pc: Pc, c: Choice)
    requires w.store.OnDisk? && PcFits(pc) && InFlight(pc).None?
    ensures var (w', pc') := Advance(env, w, pc, c);
            && w'.store == w.store && PcFits(pc')
            && (InFlight(pc').Some? ==>
                  InFlight(pc').value.SaveStat? && Races.Quiet(env.hash, InFlight(pc').value))
  {
  }

  lemma OtherGoKeeps(env: Env, s: State, p: nat, c: Choice)
    requires Inv(env, s) && p in s.procs && InFlight(s.procs[p]).None?
    ensures Inv(env, Step(env, s, Go(p, c)))
  {
    var (w', pc') := Advance(env, s.w, s.procs[p], c);
    OtherAdvance(env, s.w, s.procs[p], c);
    Enters(env, s, p, pc');
  }

  lemma {:induction false} RunKeeps(env: Env, s: State, acts: seq<Action>)
    requires Injective(env.hash) && Inv(env, s) && Disciplined(env, s, acts)
    ensures Inv(env, Exec(env, s, acts))
  {
    if acts != [] {
      var before, a := Exec(env, s, acts[..|acts| - 1]), acts[|acts| - 1];
      RunKeeps(env, s, acts[..|acts| - 1]);
      match a
      case Receive(p, r) => ReceiveKeeps(env, before, p, r);
      case Go(p, c) =>
        if p in before.procs && InFlight(before.procs[p]).Some? {
          StorageGoKeeps(env, before, p, c);
        } else if p in before.procs {
          OtherGoKeeps(env, before, p, c);
        }
    }
  }

  lemma StartOk(env: Env)
    ensures Inv(env, DISK_START)
  {
    assert DiskOps(DISK_START.procs) == map[];
  }

  /** The save that truncated the blob's file last has failed, or is still writing in some request. */
  ghost predicate SaveIncomplete(s: State, d: Digest) {
    && s.w.store.OnDisk? && Fs.Present(s.w.store.files, d) &&
    var f := s.w.store.files;
    var ino := f.dir[Fs.Blob(d)];
    && ino in f.cuts
    && (f.cuts[ino].call in f.abandoned ||
        exists p :: p in s.procs && s.procs[p].InSave? && InFlight(s.procs[p]).Some?
                    && InFlight(s.procs[p]).value.SaveWrite? && InFlight(s.procs[p]).value.call == f.cuts[ino].call)
  }

  lemma BlobExactly(env: Env, s: State, d: Digest)
    requires Injective(env.hash) && Inv(env, s) && Fs.Present(s.w.store.files, d)
    ensures var f := s.w.store.files;
            && (env.hash.Fits(d, Fs.Read(f, f.dir[Fs.Blob(d)])) <==> Sessions.Intact(f, d))
            && (Sessions.Intact(f, d) || SaveIncomplete(s, d))
  {
    var f := s.w.store.files;
    var ino := f.dir[Fs.Blob(d)];
    Sessions.IntactExactly(env.hash, f, d);
    if !Sessions.Intact(f, d) {
      var call := f.cuts[ino].call;
      assert call < f.stamp && call !in f.saved;
      if call !in f.abandoned {
        assert Races.Writing(Disk(s), call);
        var p :| p in DiskOps(s.procs) && DiskOps(s.procs)[p].SaveWrite? && DiskOps(s.procs)[p].call == call;
        assert p in s.procs && InFlight(s.procs[p]).Some?;
      }
    }
  }

  /**
   * A GET of a digest a repository is associated with, over every run from an empty disk: it delivers bytes of that
   * digest exactly when the blob is intact and answers 400 otherwise, and the blob is intact unless the save that
   * truncated it last failed or is still writing.
   */
  lemma GetAssociatedBlob(env: Env, acts: seq<Action>, later: seq<Action>, repo: Repo, d: Digest)
    requires Injective(env.hash) && env.valid(d)
    requires Disciplined(env, DISK_START, acts) && Disciplined(env, Exec(env, DISK_START, acts), later)
    requires (repo, d) in Exec(env, DISK_START, acts).w.meta.blobs
    ensures var s := Exec(env, DISK_START, acts);
            var s' := Exec(env, s, later);
            var r := GetBlobs(env, s.w, s'.w, repo, d, Ok, Ok);
            && s'.w.store.OnDisk? && Fs.Present(s'.w.store.files, d)
            && (Sessions.Intact(s'.w.store.files, d) ==> r.Data? && env.hash.Fits(d, r.data))
            && (!Sessions.Intact(s'.w.store.files, d) ==> r == Status(400) && SaveIncomplete(s', d))
  {
    var s' := Exec(env, Exec(env, DISK_START, acts), later);
    Registry.GetAssociatedBlob(env, DISK_START, acts, later, repo, d);
    TwoReads(env, acts, later);
    BlobExactly(env, s', d);
  }

  /**
   * A GET by tag over every run from an empty disk: 404 when the tag or the association is gone; otherwise the
   * decoding of the payload stored last under the tag if its blob is intact. If it is not, the save that truncated
   * it last failed or is still writing, the bytes there are not the payload, and the answer is whatever they decode
   * to: 500 when they do not.
   */
  lemma GetByTag(env: Env, a1: seq<Action>, a2: seq<Action>, a3: seq<Action>, repo: Repo, ref: string)
    requires EnvOk(env) && Injective(env.hash) && IsTag(env, ref) && Disciplined(env, DISK_START, a1)
    requires var s1 := Exec(env, DISK_START, a1);
             Disciplined(env, s1, a2) && Disciplined(env, Exec(env, s1, a2), a3)
    ensures var s1 := Exec(env, DISK_START, a1);
            var s2 := Exec(env, s1, a2);
            var s3 := Exec(env, s2, a3);
            var r := GetManifests(env, s1.w, s2.w, s3.w, repo, ref, Ok, Ok, Ok);
            if (repo, ref) !in s1.w.tagged then r == Status(404)
            else
              var payload := s1.w.tagged[(repo, ref)];
              var d := env.hash.of(payload);
              if (repo, d) !in s2.w.meta.blobs then r == Status(404)
              else
                && env.decode(payload).Some? && s3.w.store.OnDisk? && Fs.Present(s3.w.store.files, d)
                && (var f := s3.w.store.files;
                    var found := Fs.Read(f, f.dir[Fs.Blob(d)]);
                    if Sessions.Intact(f, d) then found == payload && r == Document(env.decode(payload).value)
                    else
                      && SaveIncomplete(s3, d) && found != payload
                      && r == Decoded(env, found))
  {
    Registry.GetByTag(env, DISK_START, a1, a2, a3, repo, ref);
    TwoReads(env, a1, a2);
    var s1 := Exec(env, DISK_START, a1);
    RunKeeps(env, Exec(env, s1, a2), a3);
    var s3 := Exec(env, Exec(env, s1, a2), a3);
    if (repo, ref) in s1.w.tagged {
      if (repo, env.hash.of(s1.w.tagged[(repo, ref)])) in Exec(env, s1, a2).w.meta.blobs {
        var d, f := env.hash.of(s1.w.tagged[(repo, ref)]), s3.w.store.files;
        BlobExactly(env, s3, d);
        OtherBytes(env.hash, s1.w.tagged[(repo, ref)], Fs.Read(f, f.dir[Fs.Blob(d)]));
      }
    }
  }

  // A manifest without layers or subject, put under a tag, by a client whose first attempt fails in the write.
  ghost predicate Plain(env: Env, ref: string, payload: Bytes) {
    && EnvOk(env) && Injective(env.hash) && IsTag(env, ref) && env.decode([]) == None
    && env.decode(payload).Some? && env.decode(payload).value.layers == None && env.decode(payload).value.subject == None
  }

  // Where the two attempts are, on a disk that holds an empty file under the digest.
  ghost predicate Truncated(s: State, d: Digest) {
    && s.w.store.OnDisk? && s.w.store.files.dir == map[Fs.Blob(d) := 0] && Fs.Read(s.w.store.files, 0) == []
  }

  function FirstPut(repo: Repo, ref: string, payload: Bytes): seq<Action> {
    [Receive(0, PutManifest(repo, ref, payload)), Go(0, Ok), Go(0, Ok), Go(0, Choice.Fail)]
  }

  function SecondPut(repo: Repo, ref: string, payload: Bytes): seq<Action> {
    [Receive(1, PutManifest(repo, ref, payload)), Go(1, Ok), Go(1, Ok), Go(1, Ok)]
  }

  /** A PUT of a manifest whose write fails answers 500 and leaves an empty file; the same PUT again answers 201, and
      then a GET of its digest answers 400 and a GET of its tag 500. */
  lemma FailedPutStays(env: Env, repo: Repo, ref: string, payload: Bytes)
    requires Plain(env, ref, payload)
    ensures var s := Exec(env, DISK_START, FirstPut(repo, ref, payload) + SecondPut(repo, ref, payload));
            && s.procs == map[0 := Replied(500), 1 := Replied(201)]
            && GetManifests(env, s.w, s.w, s.w, repo, ref, Ok, Ok, Ok) == Status(500)
            && GetBlobs(env, s.w, s.w, repo, env.hash.of(payload), Ok, Ok) == Status(400)
  {
    var d, put := env.hash.of(payload), PutManifest(repo, ref, payload);
    FourSteps(env, DISK_START, [], Receive(0, put), Go(0, Ok), Go(0, Ok), Go(0, Choice.Fail));
    assert [] + FirstPut(repo, ref, payload) == FirstPut(repo, ref, payload);
    SaveOpened(env, repo, ref, payload);
    var s3 := Step(env, Step(env, Step(env, DISK_START, Receive(0, put)), Go(0, Ok)), Go(0, Ok));
    SaveFails(env, s3, repo, ref, payload, d);
    var s4 := Step(env, s3, Go(0, Choice.Fail));
    FourSteps(env, DISK_START, FirstPut(repo, ref, payload), Receive(1, put), Go(1, Ok), Go(1, Ok), Go(1, Ok));
    SecondSkips(env, s4, repo, ref, payload);
    var s6 := Step(env, Step(env, s4, Receive(1, put)), Go(1, Ok));
    SecondTags(env, s6, repo, ref, payload);
    var s8 := Step(env, Step(env, s6, Go(1, Ok)), Go(1, Ok));
    EmptyAnswers(env, s8, repo, ref, payload);
  }

  lemma SaveOpened(env: Env, repo: Repo, ref: string, payload: Bytes)
    requires Plain(env, ref, payload)
    ensures var d := env.hash.of(payload);
            var s1 := Step(env, DISK_START, Receive(0, PutManifest(repo, ref, payload)));
            var s := Step(env, Step(env, s1, Go(0, Ok)), Go(0, Ok));
            && Truncated(s, d) && s.w.meta == MetaStore.EMPTY
            && s.procs == map[0 := InSave(repo, ref, payload, Storage.FsOp(Fs.SaveWrite(d, payload, 0, 0, 0)))]
  {
    var d := env.hash.of(payload);
    var s1 := Step(env, DISK_START, Receive(0, PutManifest(repo, ref, payload)));
    assert s1.procs == map[0 := InSave(repo, ref, payload, Storage.FsOp(Fs.SaveStat(d, payload)))];
    var s2 := Step(env, s1, Go(0, Ok));
    assert s2.w == DISK_START.w && s2.procs == map[0 := InSave(repo, ref, payload, Storage.FsOp(Fs.SaveOpen(d, payload)))];
  }

  lemma SaveFails(env: Env, s: State, repo: Repo, ref: string, payload: Bytes, d: Digest)
    requires Truncated(s, d) && s.w.meta == MetaStore.EMPTY
    requires s.procs == map[0 := InSave(repo, ref, payload, Storage.FsOp(Fs.SaveWrite(d, payload, 0, 0, 0)))]
    ensures var s' := Step(env, s, Go(0, Choice.Fail));
            Truncated(s', d) && s'.w.meta == MetaStore.EMPTY && s'.procs == map[0 := Replied(500)]
  {
    assert Fs.WriteAt([], 0, []) == [];
  }

  lemma SecondSkips(env: Env, s: State, repo: Repo, ref: string, payload: Bytes)
    requires Plain(env, ref, payload) && Truncated(s, env.hash.of(payload)) && s.procs == map[0 := Replied(500)]
    ensures var s' := Step(env, Step(env, s, Receive(1, PutManifest(repo, ref, payload))), Go(1, Ok));
            s'.w == s.w && s'.procs == map[0 := Replied(500), 1 := AssociateManifest(repo, ref, payload)]
  {
    var d := env.hash.of(payload);
    var s1 := Step(env, s, Receive(1, PutManifest(repo, ref, payload)));
    assert s1.w == s.w && 1 in s1.procs && s1.procs[1] == InSave(repo, ref, payload, Storage.FsOp(Fs.SaveStat(d, payload)));
  }

  lemma SecondTags(env: Env, s: State, repo: Repo, ref: string, payload: Bytes)
    requires Plain(env, ref, payload)
    requires s.procs == map[0 := Replied(500), 1 := AssociateManifest(repo, ref, payload)]
    ensures var d := env.hash.of(payload);
            var s' := Step(env, Step(env, s, Go(1, Ok)), Go(1, Ok));
            && s'.w.store == s.w.store && s'.procs == map[0 := Replied(500), 1 := Replied(201)]
            && (repo, d) in s'.w.meta.blobs
            && (repo, ref) in s'.w.meta.tags && s'.w.meta.tags[(repo, ref)] == d
  {
    var s1 := Step(env, s, Go(1, Ok));
    assert 1 in s1.procs && s1.procs[1] == Tag(repo, ref, payload);
  }

  // What a GET finds in an empty file.
  lemma EmptyAnswers(env: Env, s: State, repo: Repo, ref: string, payload: Bytes)
    requires Plain(env, ref, payload) && Truncated(s, env.hash.of(payload))
    requires (repo, env.hash.of(payload)) in s.w.meta.blobs
    requires (repo, ref) in s.w.meta.tags && s.w.meta.tags[(repo, ref)] == env.hash.of(payload)
    ensures GetManifests(env, s.w, s.w, s.w, repo, ref, Ok, Ok, Ok) == Status(500)
    ensures GetBlobs(env, s.w, s.w, repo, env.hash.of(payload), Ok, Ok) == Status(400)
  {
    assert payload != [];
    OtherBytes(env.hash, payload, []);
  }

  lemma TwoSteps(env: Env, s: State, acts: seq<Action>, a: Action, b: Action)
    ensures Exec(env, s, acts + [a, b]) == Step(env, Step(env, Exec(env, s, acts), a), b)
  {
    assert (acts + [a, b])[..|acts| + 1] == acts + [a] && (acts + [a])[..|acts|] == acts;
  }

  lemma FourSteps(env: Env, s: State, acts: seq<Action>, a: Action, b: Action, c: Action, d: Action)
    ensures Exec(env, s, acts + [a, b, c, d]) == Step(env, Step(env, Step(env, Step(env, Exec(env, s, acts), a), b), c), d)
  {
    TwoSteps(env, s, acts, a, b);
    TwoSteps(env, s, acts + [a, b], c, d);
    assert acts + [a, b] + [c, d] == acts + [a, b, c, d];
  }

  // The states a GET reads in.
  lemma TwoReads(env: Env, acts: seq<Action>, later: seq<Action>)
    requires Injective(env.hash)
    requires Disciplined(env, DISK_START, acts) && Disciplined(env, Exec(env, DISK_START, acts), later)
    ensures Inv(env, Exec(env, Exec(env, DISK_START, acts), later))
  {
    StartOk(env);
    RunKeeps(env, DISK_START, acts);
    RunKeeps(env, Exec(env, DISK_START, acts), later);
  }
}
