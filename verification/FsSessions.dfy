/**
 * The filesystem backend when each upload session has at most one operation in flight: every blob is right exactly
 * when the saves that wrote its file got enough bytes in (ctf-registry/storage/filesystem/filesystem.go).
 */
module FsSessions {
  import opened Common
  import opened StorageApi
  import opened FsStorage
  import opened Races = FsRaces

  /** The upload session an unfinished operation works on. */
  function Session(op: Op): Option<Id> {
    match op
    case UploadOpen(id, _) => Some(id)
    case UploadCopy(id, _, _) => Some(id)
    case UploadStat(id) => Some(id)
    case CommitOpen(id, _) => Some(id)
    case CommitVerify(id, _, _) => Some(id)
    case CommitStat(id, _, _, _) => Some(id)
    case CommitRemove(id, _) => Some(id)
    case CommitRename(id, _, _, _) => Some(id)
    case _ => None
  }

  predicate Idle(st: State, id: Id) { forall p | p in st.ops :: Session(st.ops[p]) != Some(id) }

  predicate Allowed(st: State, a: Action) { a.StartUpload? || a.StartCommit? ==> Idle(st, a.id) }

  /** At most one operation of a session is in flight; saves are not restricted. */
  predicate Disciplined(hash: Hashing, st: State, acts: seq<Action>) {
    acts == [] ||
    (var before := acts[..|acts| - 1];
     Disciplined(hash, st, before) && Allowed(Exec(hash, st, before), acts[|acts| - 1]))
  }

  // An operation on a session has its file to itself.
  ghost predicate Owns(f: Files, op: Op) {
    match op
    case UploadCopy(id, ino, _) => Upload(id) in f.dir && f.dir[Upload(id)] == ino
    case CommitVerify(id, _, ino) => Upload(id) in f.dir && f.dir[Upload(id)] == ino
    case CommitStat(id, _, ino, seen) => Upload(id) in f.dir && f.dir[Upload(id)] == ino && Read(f, ino) == seen
    case CommitRename(id, _, ino, seen) => Upload(id) in f.dir && f.dir[Upload(id)] == ino && Read(f, ino) == seen
    case _ => true
  }

  /** No upload ever reached a blob's file, and a renamed blob holds what its commit verified in that very file. */
  ghost predicate Clean(f: Files) {
    && (forall i | i in f.cuts :: !f.cuts[i].foreign)
    && (forall d | Blob(d) in f.dir && f.dir[Blob(d)] !in f.cuts ::
          var ino := f.dir[Blob(d)];
          ino in f.published && f.published[ino].from == ino && f.published[ino].seen == Read(f, ino))
  }

  predicate SessionsApart(a: Op, b: Op) { Session(a).Some? ==> Session(a) != Session(b) }

  ghost predicate Inv(hash: Hashing, st: State) {
    && Races.Inv(hash, st) && Accounted(st) && Clean(st.files)
    && (forall p | p in st.ops :: Owns(st.files, st.ops[p]))
    && (forall p, q | p in st.ops && q in st.ops && p != q :: SessionsApart(st.ops[p], st.ops[q]))
  }

  /** Sessions but this one keep their files and contents. */
  ghost predicate Keeps(f: Files, f': Files, session: Option<Id>) {
    forall id | Upload(id) in f.dir && Some(id) != session ::
      && Upload(id) in f'.dir && f'.dir[Upload(id)] == f.dir[Upload(id)]
      && Read(f', f.dir[Upload(id)]) == Read(f, f.dir[Upload(id)])
  }

  lemma CopyClean(f: Files, op: Op, c: Choice)
    requires DirOk(f) && Clean(f) && Owns(f, op) && op.UploadCopy?
    ensures var (f', op') := Append(f, op.id, op.ino, op.rest, c);
            Clean(f') && Owns(f', op') && Keeps(f, f', Session(op))
  {
    var f' := Append(f, op.id, op.ino, op.rest, c).0;
    assert forall i: nat | i != op.ino :: Read(f', i) == Read(f, i);
  }

  // The file a save is about to truncate is there, and every other blob is as it was.
  ghost predicate Created(f: Files, g: Files, d: Digest) {
    && DirOk(g) && Blob(d) in g.dir && g.published == f.published && g.cuts == f.cuts
    && (forall e | Blob(e) in g.dir && e != d :: Blob(e) in f.dir && g.dir[Blob(e)] == f.dir[Blob(e)])
    && (forall i: nat | i < f.next :: Read(g, i) == Read(f, i))
  }

  lemma CreateBlob(f: Files, d: Digest)
    requires DirOk(f)
    ensures var (g, ino) := Create(f, Blob(d));
            Created(f, g, d) && g.dir[Blob(d)] == ino && Keeps(f, g, None)
  {
    CreateDir(f, Blob(d));
  }

  lemma CreatedClean(f: Files, g: Files, d: Digest)
    requires DirOk(f) && Clean(f) && Created(f, g, d)
    ensures Clean(Truncate(g, g.dir[Blob(d)], []))
  {
    var ino := g.dir[Blob(d)];
    var h := Truncate(g, ino, []);
    forall e | Blob(e) in h.dir && h.dir[Blob(e)] !in h.cuts
      ensures var i := h.dir[Blob(e)];
              i in h.published && h.published[i].from == i && h.published[i].seen == Read(h, i)
    {
      assert e != d && h.dir[Blob(e)] == f.dir[Blob(e)] < f.next;
    }
  }

  // What is truncated is one blob's file.
  lemma TruncateClean(g: Files, d: Digest, data: Bytes)
    requires DirOk(g) && Blob(d) in g.dir && Clean(Truncate(g, g.dir[Blob(d)], []))
    ensures var f' := Truncate(g, g.dir[Blob(d)], data); Clean(f') && Keeps(g, f', None)
  {
    var ino := g.dir[Blob(d)];
    var f', h := Truncate(g, ino, data), Truncate(g, ino, []);
    assert f'.dir == h.dir && f'.published == h.published && f'.cuts.Keys == h.cuts.Keys && f'.data == h.data;
    assert forall i | i in f'.cuts :: f'.cuts[i].foreign == h.cuts[i].foreign;
  }

  lemma SaveOpenClean(f: Files, op: Op, failed: bool)
    requires DirOk(f) && Clean(f) && op.SaveOpen?
    ensures var (f', op') := OpenSave(f, op.d, op.data, failed);
            Clean(f') && Owns(f', op') && Keeps(f, f', Session(op))
  {
    var (g, ino) := Create(f, Blob(op.d));
    CreateBlob(f, op.d);
    CreatedClean(f, g, op.d);
    TruncateClean(g, op.d, op.data);
  }

  lemma SaveWriteClean(f: Files, op: Op, c: Choice)
    requires DirOk(f) && Clean(f) && op.SaveWrite? && op.ino in f.cuts
    ensures var (f', op') := WriteSave(f, op, c);
            Clean(f') && Owns(f', op') && Keeps(f, f', Session(op))
  {
    var f' := WriteSave(f, op, c).0;
    assert f'.dir == f.dir && f'.published == f.published && f'.cuts.Keys == f.cuts.Keys;
    assert forall i: nat | i != op.ino :: Read(f', i) == Read(f, i);
  }

  lemma OpenClean(f: Files, op: Op)
    requires DirOk(f) && Clean(f) && op.UploadOpen?
    ensures var (f', op') := OpenUpload(f, op.id, op.body);
            Clean(f') && Owns(f', op') && Keeps(f, f', Session(op))
  {
    CreateDir(f, Upload(op.id));
  }

  lemma MoveClean(f: Files, op: Op, c: Choice)
    requires DirOk(f) && Clean(f) && Owns(f, op) && op.CommitRename?
    ensures var (f', op') := Rename(f, op.id, op.d, op.ino, op.seen, c);
            Clean(f') && Owns(f', op') && Keeps(f, f', Session(op))
  {
  }

  lemma StepClean(hash: Hashing, f: Files, op: Op, c: Choice)
    requires WorldOk(hash, f) && OpOk(hash, f, op) && Clean(f) && Owns(f, op)
    ensures var (f', op') := Step(hash, f, op, c);
            && Clean(f') && Owns(f', op') && Keeps(f, f', Session(op))
            && (Session(op') == Session(op) || Session(op') == None)
  {
    match op
    case UploadOpen(_, _) => OpenClean(f, op);
    case UploadCopy(_, _, _) => CopyClean(f, op, c);
    case CommitRename(_, _, _, _) => MoveClean(f, op, c);
    case SaveOpen(_, _) => if c.Ok? || c.FailApplied? { SaveOpenClean(f, op, c.FailApplied?); }
    case SaveWrite(_, _, _, _, _) => SaveWriteClean(f, op, c);
    case CommitRemove(id, _) => RemoveClean(f, id);
    case _ => assert Step(hash, f, op, c).0 == f;
  }

  lemma RemoveClean(f: Files, id: Id)
    requires DirOk(f) && Clean(f)
    ensures var f' := f.(dir := f.dir - {Upload(id)}); Clean(f') && Keeps(f, f', Some(id))
  {
  }

  /** A step of any operation in flight. */
  lemma GoKeeps(hash: Hashing, st: State, p: nat, c: Choice)
    requires Injective(hash) && Inv(hash, st) && p in st.ops
    ensures Inv(hash, Next(hash, st, Go(p, c)))
  {
    var (f', op') := Step(hash, st.files, st.ops[p], c);
    GoKeepsInv(hash, st, p, c);
    NextKeepsAccounted(hash, st, Go(p, c));
    StepClean(hash, st.files, st.ops[p], c);
    forall q | q in st.ops && q != p ensures Owns(f', st.ops[q]) {
      assert Owns(st.files, st.ops[q]) && SessionsApart(st.ops[p], st.ops[q]);
    }
    ReplaceOwner(hash, st, p, f', op');
  }

  lemma ReplaceOwner(hash: Hashing, st: State, p: nat, f: Files, op: Op)
    requires Inv(hash, st) && p in st.ops
    requires Races.Inv(hash, State(f, st.ops[p := op])) && Accounted(State(f, st.ops[p := op])) && Clean(f) && Owns(f, op)
    requires forall q | q in st.ops && q != p :: Owns(f, st.ops[q])
    requires Session(op) == Session(st.ops[p]) || Session(op) == None
    ensures Inv(hash, State(f, st.ops[p := op]))
  {
  }

  /** An operation that begins, if its session has no other. */
  lemma BeginKeeps(hash: Hashing, st: State, p: nat, op: Op)
    requires Inv(hash, st) && p !in st.ops && Quiet(hash, op)
    requires forall q | q in st.ops :: SessionsApart(op, st.ops[q])
    ensures Inv(hash, st.(ops := st.ops[p := op]))
  {
    QuietKeepsInv(hash, st, p, op);
    AccountedMore(st, p, op);
  }

  lemma AccountedMore(st: State, p: nat, op: Op)
    requires Accounted(st) && p !in st.ops
    ensures Accounted(st.(ops := st.ops[p := op]))
  {
    var st' := st.(ops := st.ops[p := op]);
    forall k: nat | k < st'.files.stamp ensures k in st'.files.saved || k in st'.files.abandoned || Writing(st', k) {
      if k !in st.files.saved && k !in st.files.abandoned {
        assert Writing(st, k);
        var q :| q in st.ops && st.ops[q].SaveWrite? && st.ops[q].call == k;
        assert q in st'.ops && st'.ops[q].SaveWrite? && st'.ops[q].call == k;
      }
    }
  }

  /** An operation that has ended may be forgotten. */
  lemma DropKeeps(hash: Hashing, st: State, p: nat)
    requires Inv(hash, st) && p in st.ops && st.ops[p].Finished?
    ensures Inv(hash, st.(ops := st.ops - {p}))
  {
    var st' := st.(ops := st.ops - {p});
    forall k: nat | k < st'.files.stamp ensures k in st'.files.saved || k in st'.files.abandoned || Writing(st', k) {
      if k !in st.files.saved && k !in st.files.abandoned {
        assert Writing(st, k);
        var q :| q in st.ops && st.ops[q].SaveWrite? && st.ops[q].call == k;
        assert q in st'.ops && st'.ops[q].SaveWrite? && st'.ops[q].call == k;
      }
    }
  }

  lemma {:induction false} SessionsRun(hash: Hashing, acts: seq<Action>)
    requires Injective(hash) && Disciplined(hash, EMPTY, acts)
    ensures Inv(hash, Exec(hash, EMPTY, acts))
  {
    if acts != [] {
      var before, a := Exec(hash, EMPTY, acts[..|acts| - 1]), acts[|acts| - 1];
      SessionsRun(hash, acts[..|acts| - 1]);
      match a
      case Go(p, c) => if p in before.ops { GoKeeps(hash, before, p, c); }
      case StartUpload(p, id, body) => if p !in before.ops { BeginKeeps(hash, before, p, UploadOpen(id, body)); }
      case StartCommit(p, id, d) => if p !in before.ops { BeginKeeps(hash, before, p, CommitOpen(id, d)); }
      case StartSave(p, data) => if p !in before.ops { BeginKeeps(hash, before, p, SaveStat(hash.of(data), data)); }
    }
  }

  /** No save truncated the blob's file, or the positions written since are enough for what that save was saving. */
  ghost predicate Intact(f: Files, d: Digest) {
    Present(f, d) && f.dir[Blob(d)] in f.cuts ==> Complete(f.cuts[f.dir[Blob(d)]].source, f.cuts[f.dir[Blob(d)]].covered)
  }

  lemma IntactExactly(hash: Hashing, f: Files, d: Digest)
    requires Injective(hash) && WorldOk(hash, f) && Clean(f) && Present(f, d)
    ensures hash.Fits(d, Read(f, f.dir[Blob(d)])) <==> Intact(f, d)
    ensures f.dir[Blob(d)] in f.cuts && f.cuts[f.dir[Blob(d)]].call in f.saved ==> Intact(f, d)
  {
    if f.dir[Blob(d)] in f.cuts {
      SavedBlob(hash, f, d);
    } else {
      RenamedBlob(hash, f, d);
    }
  }

  /**
   * Content addressing with one operation per session in flight, over every interleaving: a blob hashes to its name
   * exactly when it is intact, and it is intact unless the save that truncated its file last is unfinished or failed.
   */
  lemma ContentAddressed(hash: Hashing, acts: seq<Action>, d: Digest)
    requires Injective(hash) && Disciplined(hash, EMPTY, acts)
    requires Present(Exec(hash, EMPTY, acts).files, d)
    ensures var st := Exec(hash, EMPTY, acts);
            var ino := st.files.dir[Blob(d)];
            && (hash.Fits(d, Read(st.files, ino)) <==> Intact(st.files, d))
            && (Intact(st.files, d) || (ino in st.files.cuts
                  && (st.files.cuts[ino].call in st.files.abandoned || Writing(st, st.files.cuts[ino].call))))
  {
    SessionsRun(hash, acts);
    var st := Exec(hash, EMPTY, acts);
    IntactExactly(hash, st.files, d);
    if st.files.dir[Blob(d)] in st.files.cuts {
      TruncatorKnown(hash, acts, st.files.dir[Blob(d)]);
    }
  }
}
