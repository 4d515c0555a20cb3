/**
 * What the registry answers a request, told from what its own calls met, whatever other requests do in between
 * (ctf-registry/handler/manifest.go, ctf-registry/handler/blobupload.go, ctf-registry/handler/blob.go).
 */
module RegistryAnswers {
  import opened Common
  import opened StorageApi
  import opened Registry
  import opened MetaStore
  import Storage
  import S3 = S3Storage
  import Fs = FsStorage

  // One call of a request: what it met, how it ended, and what it left.
  datatype Turn = Turn(before: World, c: Choice, after: World)

  predicate Ended(pc: Pc) { pc.Replied? || pc.Ranged? }

  // The call of request p that an action is, if any.
  function OwnTurn(env: Env, s: State, a: Action, p: nat): seq<Turn> {
    if a.Go? && a.p == p && p in s.procs && !Ended(s.procs[p]) then [Turn(s.w, a.c, Step(env, s, a).w)] else []
  }

  /** The calls a request makes along a run. */
  function Turns(env: Env, s: State, acts: seq<Action>, p: nat): seq<Turn> {
    if acts == [] then []
    else
      var before := acts[..|acts| - 1];
      Turns(env, s, before, p) + OwnTurn(env, Exec(env, s, before), acts[|acts| - 1], p)
  }

  predicate AllOk(turns: seq<Turn>) { forall t | t in turns :: t.c.Ok? }

  // The call left metadata, and what is remembered of it, alone.
  predicate Quiet(t: Turn) {
    t.after.meta == t.before.meta && t.after.accepted == t.before.accepted && t.after.tagged == t.before.tagged
  }

  predicate AllQuiet(turns: seq<Turn>) { forall t | t in turns :: Quiet(t) }
  predicate Untouched(turns: seq<Turn>) { forall t | t in turns :: t.after == t.before }

  // Metadata calls that succeeded: the digest was associated, the tag set, the referrer appended.
  predicate Linked(t: Turn, repo: Repo, d: Digest) {
    && t.c.Ok? && t.after.store == t.before.store
    && t.after.meta == t.before.meta.(blobs := t.before.meta.blobs + {(repo, d)})
  }

  predicate Tagged(t: Turn, repo: Repo, ref: string, d: Digest) {
    && t.c.Ok? && t.after.store == t.before.store
    && t.after.meta == t.before.meta.(tags := t.before.meta.tags[(repo, ref) := d])
  }

  predicate Referred(t: Turn, repo: Repo, subject: Digest, desc: Descriptor) {
    && t.c.Ok? && t.after.store == t.before.store
    && (var list := if (repo, subject) in t.before.meta.refs then t.before.meta.refs[(repo, subject)] else [];
        t.after.meta == t.before.meta.(refs := t.before.meta.refs[(repo, subject) := list + [desc]]))
  }

  /** The call found a layer or the config acceptable: its digest is well-formed, the lookup succeeded, and the
      repository was associated with it then. */
  predicate Fine(env: Env, repo: Repo, desc: Descriptor, t: Turn) {
    env.valid(desc.digest) && t.c.Ok? && (repo, desc.digest) in t.before.meta.blobs
  }

  predicate FineUpTo(env: Env, repo: Repo, descs: seq<Descriptor>, turns: seq<Turn>, n: nat) {
    n <= |descs| && n <= |turns| && forall k | 0 <= k < n :: Fine(env, repo, descs[k], turns[k])
  }

  // What PutManifests looks up, in order.
  function Parts(m: Manifest): seq<Descriptor> {
    if m.layers.Some? && m.config.Some? then m.layers.value + [m.config.value] else []
  }

  // What is made of a manifest that was answered 201: its last calls associated its digest, then tagged it if it
  // came under a tag, then added it to its subject's referrers if it has one.
  predicate Accepted(env: Env, repo: Repo, ref: string, payload: Bytes, m: Manifest, turns: seq<Turn>) {
    var d, n := env.hash.of(payload), |turns|;
    var s := if m.subject.Some? then 1 else 0;
    var t := if env.valid(ref) then 0 else 1;
    && 1 + t + s <= n && AllQuiet(turns[..n - 1 - t - s])
    && Linked(turns[n - 1 - t - s], repo, d)
    && (t == 1 ==> Tagged(turns[n - 1 - s], repo, ref, d))
    && (s == 1 ==>
          var artifact := if m.artifactType.Some? then m.artifactType.value
                          else if m.config.Some? then m.config.value.mediaType else "";
          Referred(turns[n - 1], repo, m.subject.value.digest, Descriptor(m.mediaType, d, |payload|, Some(artifact))))
    && (repo, payload) in turns[n - 1].after.accepted
  }

  // The save in a manifest's PUT, and how many more calls it takes if none fails.
  function CallsLeft(pc: Pc): nat {
    match pc
    case InSave(_, _, _, op) =>
      (match op
       case S3Op(SaveHead(_, _)) => 5
       case S3Op(SavePut(_, _)) => 4
       case FsOp(SaveStat(_, _)) => 6
       case FsOp(SaveOpen(_, _)) => 5
       case FsOp(SaveWrite(_, _, _, _, _)) => 4
       case _ => 0)
    case AssociateManifest(_, _, _) => 3
    case Tag(_, _, _) => 2
    case Refer(_, _) => 1
    case _ => 0
  }

  ghost predicate ManifestStands(env: Env, repo: Repo, ref: string, payload: Bytes, m: Manifest, turns: seq<Turn>, pc: Pc) {
    var descs, n := Parts(m), |turns|;
    var s, t := if m.subject.Some? then 1 else 0, if env.valid(ref) then 0 else 1;
    && (!Ended(pc) && !pc.CheckLayer? ==>
          && FineUpTo(env, repo, descs, turns, |descs|) && CallsLeft(pc) > 0
          && (AllOk(turns) ==> n + CallsLeft(pc) <= |descs| + 7))
    && (forall x | x in turns && x.c.Fail? :: Quiet(x))
    && match pc
       case CheckLayer(r, f, b, i) =>
         && r == repo && f == ref && b == payload && i == n && m.layers.Some? && m.config.Some?
         && FineUpTo(env, repo, descs, turns, n) && Untouched(turns)
       case InSave(r, f, b, op) => r == repo && f == ref && b == payload && AllQuiet(turns)
       case AssociateManifest(r, f, b) => r == repo && f == ref && b == payload && AllQuiet(turns)
       case Tag(r, f, b) =>
         && r == repo && f == ref && b == payload && t == 1
         && n >= 1 && AllQuiet(turns[..n - 1]) && Linked(turns[n - 1], repo, env.hash.of(payload))
       case Refer(r, b) =>
         && r == repo && b == payload && s == 1
         && n >= 1 + t && AllQuiet(turns[..n - 1 - t]) && Linked(turns[n - 1 - t], repo, env.hash.of(payload))
         && (t == 1 ==> Tagged(turns[n - 1], repo, ref, env.hash.of(payload)))
       case Replied(code) =>
         && n >= 1
         && (if code == 400 then
               && n <= |descs| && FineUpTo(env, repo, descs, turns, n - 1) && Untouched(turns)
               && !(env.valid(descs[n - 1].digest) && !turns[n - 1].c.Ok?)
               && !Fine(env, repo, descs[n - 1], turns[n - 1])
             else if code == 201 then
               FineUpTo(env, repo, descs, turns, |descs|) && Accepted(env, repo, ref, payload, m, turns)
             else
               && code == 500 && !turns[n - 1].c.Ok?
               && FineUpTo(env, repo, descs, turns, if n - 1 <= |descs| then n - 1 else |descs|)
               && (n <= |descs| ==> env.valid(descs[n - 1].digest) && Untouched(turns)))
       case _ => false
  }

  lemma FineMore(env: Env, repo: Repo, descs: seq<Descriptor>, turns: seq<Turn>, t: Turn, n: nat)
    requires n <= |turns|
    ensures FineUpTo(env, repo, descs, turns + [t], n) <==> FineUpTo(env, repo, descs, turns, n)
  {
    assert forall k | 0 <= k < n :: (turns + [t])[k] == turns[k];
  }

  lemma CheckStands(env: Env, repo: Repo, ref: string, payload: Bytes, m: Manifest, turns: seq<Turn>, w: World, pc: Pc, c: Choice)
    requires env.decode(payload) == Some(m) && ManifestStands(env, repo, ref, payload, m, turns, pc) && pc.CheckLayer?
    ensures var (w', pc') := Advance(env, w, pc, c);
            ManifestStands(env, repo, ref, payload, m, turns + [Turn(w, c, w')], pc')
  {
    var (w', pc') := Advance(env, w, pc, c);
    var t := Turn(w, c, w');
    assert (turns + [t])[..|turns|] == turns;
    FineMore(env, repo, Parts(m), turns, t, |turns|);
  }

  // What one call of a manifest's save comes to.
  predicate SaveMoves(repo: Repo, ref: string, payload: Bytes, pc: Pc, t: Turn, pc': Pc) {
    && Quiet(t)
    && match pc'
       case InSave(r, f, b, _) =>
         r == repo && f == ref && b == payload && CallsLeft(pc') > 0 && (t.c.Ok? ==> CallsLeft(pc') < CallsLeft(pc))
       case AssociateManifest(r, f, b) => r == repo && f == ref && b == payload && 3 < CallsLeft(pc)
       case Replied(code) => code == 500 && !t.c.Ok?
       case _ => false
  }

  lemma SaveCall(env: Env, w: World, pc: Pc, c: Choice)
    requires pc.InSave? && PcOk(env, w.store, pc) && CallsLeft(pc) > 0
    ensures var (w', pc') := Advance(env, w, pc, c); SaveMoves(pc.repo, pc.ref, pc.payload, pc, Turn(w, c, w'), pc')
  {
  }

  lemma SaveStands(env: Env, repo: Repo, ref: string, payload: Bytes, m: Manifest, turns: seq<Turn>, pc: Pc, t: Turn, pc': Pc)
    requires ManifestStands(env, repo, ref, payload, m, turns, pc) && pc.InSave?
    requires SaveMoves(repo, ref, payload, pc, t, pc')
    ensures ManifestStands(env, repo, ref, payload, m, turns + [t], pc')
  {
    FineMore(env, repo, Parts(m), turns, t, |Parts(m)|);
    PutBack(turns, t);
  }

  lemma PutBack(turns: seq<Turn>, t: Turn)
    ensures var more, n := turns + [t], |turns|;
            && more[n] == t && more[..n] == turns && (n >= 1 ==> more[..n - 1] == turns[..n - 1] && more[n - 1] == turns[n - 1])
            && (n >= 2 ==> more[..n - 2] == turns[..n - 2] && more[n - 2] == turns[n - 2])
  {
  }

  lemma LinkStands(env: Env, repo: Repo, ref: string, payload: Bytes, m: Manifest, turns: seq<Turn>, w: World, pc: Pc, c: Choice)
    requires env.decode(payload) == Some(m) && ManifestStands(env, repo, ref, payload, m, turns, pc)
    requires pc.AssociateManifest?
    ensures var (w', pc') := Advance(env, w, pc, c);
            ManifestStands(env, repo, ref, payload, m, turns + [Turn(w, c, w')], pc')
  {
    var t := Turn(w, c, Advance(env, w, pc, c).0);
    FineMore(env, repo, Parts(m), turns, t, |Parts(m)|);
    PutBack(turns, t);
  }

  lemma TagStands(env: Env, repo: Repo, ref: string, payload: Bytes, m: Manifest, turns: seq<Turn>, w: World, pc: Pc, c: Choice)
    requires env.decode(payload) == Some(m) && ManifestStands(env, repo, ref, payload, m, turns, pc)
    requires pc.Tag?
    ensures var (w', pc') := Advance(env, w, pc, c);
            ManifestStands(env, repo, ref, payload, m, turns + [Turn(w, c, w')], pc')
  {
    var t := Turn(w, c, Advance(env, w, pc, c).0);
    FineMore(env, repo, Parts(m), turns, t, |Parts(m)|);
    PutBack(turns, t);
  }

  lemma ReferStands(env: Env, repo: Repo, ref: string, payload: Bytes, m: Manifest, turns: seq<Turn>, w: World, pc: Pc, c: Choice)
    requires env.decode(payload) == Some(m) && ManifestStands(env, repo, ref, payload, m, turns, pc)
    requires pc.Refer?
    ensures var (w', pc') := Advance(env, w, pc, c);
            ManifestStands(env, repo, ref, payload, m, turns + [Turn(w, c, w')], pc')
  {
    var t := Turn(w, c, Advance(env, w, pc, c).0);
    FineMore(env, repo, Parts(m), turns, t, |Parts(m)|);
    PutBack(turns, t);
  }

  // The bytes of an upload session as a call finds them; None when there is no such session.
  function SessionBytes(st: Storage.Store, id: Id): Option<Bytes> {
    match st
    case OnS3(b) => if id in b.uploads then Some(b.uploads[id]) else None
    case OnDisk(f) => if Fs.Upload(id) in f.dir then Some(Fs.Read(f, f.dir[Fs.Upload(id)])) else None
  }

  // The last two calls opened the session and found bytes the digest does not fit. (S3 does both in one call.)
  predicate Mismatch(env: Env, turns: seq<Turn>, id: Id, d: Digest) {
    var n := |turns|;
    && n >= 1 && turns[n - 1].c.Ok?
    && match turns[n - 1].before.store
       case OnS3(b) => id in b.uploads && !env.hash.Fits(d, b.uploads[id])
       case OnDisk(f) =>
         && n >= 2 && turns[n - 2].before.store.OnDisk? && Fs.Upload(id) in turns[n - 2].before.store.files.dir
         && !env.hash.Fits(d, Fs.Read(f, turns[n - 2].before.store.files.dir[Fs.Upload(id)]))
  }

  // How many more calls an upload takes if none fails.
  function UploadLeft(pc: Pc): nat {
    match pc
    case InUpload(op, _) =>
      (match op
       case S3Op(UploadHead(_, _)) => 9
       case S3Op(UploadGet(_, _)) => 8
       case S3Op(UploadRead(_, _, _)) => 7
       case S3Op(UploadPut(_, _)) => 6
       case FsOp(UploadOpen(_, _)) => 9
       case FsOp(UploadCopy(_, _, _)) => 8
       case FsOp(UploadStat(_)) => 7
       case _ => 0)
    case InCommit(_, _, op) =>
      (match op
       case S3Op(CommitHead(_, _)) => 5
       case S3Op(CommitGet(_, _)) => 4
       case S3Op(CommitPut(_, _, _)) => 3
       case S3Op(CommitDelete(_, _)) => 2
       case S3Op(CommitDrop(_, _)) => 2
       case FsOp(CommitOpen(_, _)) => 5
       case FsOp(CommitVerify(_, _, _)) => 4
       case FsOp(CommitStat(_, _, _, _)) => 3
       case FsOp(CommitRemove(_, _)) => 2
       case FsOp(CommitRename(_, _, _, _)) => 2
       case _ => 0)
    case Associate(_, _) => 1
    case _ => 0
  }

  // The call put the body into the session: on S3 the object ends with it, on disk it was appended to a file.
  ghost predicate Wrote(t: Turn, id: Id, body: Bytes) {
    match t.after.store
    case OnS3(b) =>
      id in b.uploads && |b.uploads[id]| >= |body| && b.uploads[id][|b.uploads[id]| - |body|..] == body
    case OnDisk(f) =>
      t.before.store.OnDisk? && exists ino :: Fs.Read(f, ino) == Fs.Read(t.before.store.files, ino) + body
  }

  /** Unless a call failed or stopped half-way, one of them wrote the whole body. */
  ghost predicate Sent(turns: seq<Turn>, id: Id, body: Bytes) {
    AllOk(turns) ==> exists k :: 0 <= k < |turns| && Wrote(turns[k], id, body)
  }

  lemma SentMore(turns: seq<Turn>, t: Turn, id: Id, body: Bytes)
    requires Sent(turns, id, body) || Wrote(t, id, body) || !t.c.Ok?
    ensures Sent(turns + [t], id, body)
  {
    var more := turns + [t];
    assert more[|turns|] == t;
    if AllOk(more) {
      assert forall x | x in turns :: x in more;
      if Sent(turns, id, body) {
        var k :| 0 <= k < |turns| && Wrote(turns[k], id, body);
        assert more[k] == turns[k];
      }
    }
  }

  // The storage operation is on this session and has this body still to write.
  predicate ToSend(op: Storage.Op, id: Id, body: Bytes, ok: bool) {
    match op
    case S3Op(UploadHead(i, b)) => i == id && b == body
    case S3Op(UploadGet(i, b)) => i == id && b == body
    case S3Op(UploadRead(i, _, b)) => i == id && b == body
    case S3Op(UploadPut(i, data)) => i == id && |data| >= |body| && data[|data| - |body|..] == body
    case FsOp(UploadOpen(i, b)) => i == id && b == body
    case FsOp(UploadCopy(i, _, rest)) => i == id && (ok ==> rest == body)
    case FsOp(UploadStat(i)) => i == id
    case _ => false
  }

  // The body is not written yet.
  predicate Sending(pc: Pc) { pc.InUpload? && (pc.op.FsOp? ==> !pc.op.fs.UploadStat?) }

  predicate Committing(op: Storage.Op, id: Id) {
    match op
    case S3Op(o) => (o.CommitHead? || o.CommitGet? || o.CommitPut? || o.CommitDelete? || o.CommitDrop?) && o.id == id
    case FsOp(o) => (o.CommitOpen? || o.CommitVerify? || o.CommitStat? || o.CommitRemove? || o.CommitRename?) && o.id == id
  }

  ghost predicate UploadStands(env: Env, repo: Repo, id: Id, body: Bytes, d: Option<Digest>, turns: seq<Turn>, pc: Pc) {
    var n := |turns|;
    && (!Ended(pc) ==> UploadLeft(pc) > 0 && AllQuiet(turns) && (AllOk(turns) ==> n + UploadLeft(pc) <= 9))
    && (Sending(pc) || pc == Replied(500) || Sent(turns, id, body))
    && match pc
       case InUpload(op, next) =>
         ToSend(op, id, body, AllOk(turns)) && next == if d.Some? then ThenCommit(repo, id, d.value) else Next.Reply
       case InCommit(r, b, op) =>
         && r == repo && d == Some(b) && Committing(op, id)
         && (op.FsOp? && op.fs.CommitVerify? ==>
               && n >= 1 && turns[n - 1].before.store.OnDisk?
               && Fs.Upload(id) in turns[n - 1].before.store.files.dir
               && turns[n - 1].before.store.files.dir[Fs.Upload(id)] == op.fs.ino)
       case Associate(r, b) => r == repo && d == Some(b)
       case Ranged(size) =>
         && d.None? && n >= 1 && AllQuiet(turns) && turns[n - 1].c.Ok?
         && SessionBytes(turns[n - 1].after.store, id).Some? && size == |SessionBytes(turns[n - 1].after.store, id).value|
       case Replied(code) =>
         && n >= 1 && AllQuiet(turns[..n - 1])
         && (if code == 400 then d.Some? && AllQuiet(turns) && Mismatch(env, turns, id, d.value)
             else if code == 201 then d.Some? && Linked(turns[n - 1], repo, d.value)
             else code == 500 && (!turns[n - 1].c.Ok? || SessionBytes(turns[n - 1].before.store, id) == None))
       case _ => false
  }

  // What one call of an upload to a session comes to; ok says that none has failed before.
  ghost predicate UploadMoves(repo: Repo, id: Id, body: Bytes, d: Option<Digest>, ok: bool, pc: Pc, t: Turn, pc': Pc) {
    && Quiet(t) && (Sending(pc) && !Sending(pc') && pc' != Replied(500) && ok && t.c.Ok? ==> Wrote(t, id, body))
    && match pc'
       case InUpload(op, next) =>
         && next == (if d.Some? then ThenCommit(repo, id, d.value) else Next.Reply) && ToSend(op, id, body, ok && t.c.Ok?)
         && UploadLeft(pc') > 0 && (t.c.Ok? ==> UploadLeft(pc') < UploadLeft(pc)) && (Sending(pc') ==> Sending(pc))
       case InCommit(r, b, op) =>
         && t.c.Ok? && r == repo && d == Some(b) && Committing(op, id) && 0 < UploadLeft(pc') < UploadLeft(pc)
         && (op.FsOp? ==> !op.fs.CommitVerify?)
       case Ranged(size) =>
         && d.None? && t.c.Ok?
         && SessionBytes(t.after.store, id).Some? && size == |SessionBytes(t.after.store, id).value|
       case Replied(code) => code == 500 && (!t.c.Ok? || SessionBytes(t.before.store, id) == None)
       case _ => false
  }

  lemma UploadOnS3(env: Env, repo: Repo, id: Id, body: Bytes, d: Option<Digest>, ok: bool, w: World, pc: Pc, c: Choice)
    requires pc.InUpload? && pc.op.S3Op? && w.store.OnS3? && ToSend(pc.op, id, body, ok)
    requires pc.next == if d.Some? then ThenCommit(repo, id, d.value) else Next.Reply
    ensures var (w', pc') := Advance(env, w, pc, c); UploadMoves(repo, id, body, d, ok, pc, Turn(w, c, w'), pc')
  {
  }

  lemma Copied(f: Fs.Files, id: Id, ino: nat, body: Bytes)
    ensures Fs.Read(Fs.Append(f, id, ino, body, Ok).0, ino) == Fs.Read(f, ino) + body
  {
    assert body[..|body|] == body;
  }

  lemma UploadOnDisk(env: Env, repo: Repo, id: Id, body: Bytes, d: Option<Digest>, ok: bool, w: World, pc: Pc, c: Choice)
    requires pc.InUpload? && pc.op.FsOp? && w.store.OnDisk? && ToSend(pc.op, id, body, ok)
    requires pc.next == if d.Some? then ThenCommit(repo, id, d.value) else Next.Reply
    ensures var (w', pc') := Advance(env, w, pc, c); UploadMoves(repo, id, body, d, ok, pc, Turn(w, c, w'), pc')
  {
    if pc.op.fs.UploadCopy? {
      Copied(w.store.files, id, pc.op.fs.ino, pc.op.fs.rest);
    }
  }

  lemma OkMore(turns: seq<Turn>, t: Turn)
    ensures AllOk(turns + [t]) <==> AllOk(turns) && t.c.Ok?
    ensures AllQuiet(turns + [t]) <==> AllQuiet(turns) && Quiet(t)
  {
    assert t in turns + [t] && forall x :: x in turns + [t] <==> x in turns || x == t;
  }

  lemma UploadStep(env: Env, repo: Repo, id: Id, body: Bytes, d: Option<Digest>, turns: seq<Turn>, pc: Pc, t: Turn, pc': Pc)
    requires UploadStands(env, repo, id, body, d, turns, pc) && pc.InUpload?
    requires UploadMoves(repo, id, body, d, AllOk(turns), pc, t, pc')
    ensures UploadStands(env, repo, id, body, d, turns + [t], pc')
  {
    PutBack(turns, t);
    OkMore(turns, t);
    if !Sending(pc') && pc' != Replied(500) {
      assert !AllOk(turns) ==> Sent(turns, id, body);
      SentMore(turns, t, id, body);
    }
  }

  // What one call of a commit comes to.
  predicate CommitMoves(env: Env, repo: Repo, id: Id, d: Digest, pc: Pc, t: Turn, pc': Pc)
    requires pc.InCommit?
  {
    && Quiet(t)
    && match pc'
       case InCommit(r, b, op) =>
         && r == repo && b == d && Committing(op, id) && UploadLeft(pc') > 0 && (t.c.Ok? ==> UploadLeft(pc') < UploadLeft(pc))
         && (op.FsOp? && op.fs.CommitVerify? ==>
               && t.before.store.OnDisk? && Fs.Upload(id) in t.before.store.files.dir
               && t.before.store.files.dir[Fs.Upload(id)] == op.fs.ino)
       case Associate(r, b) => r == repo && b == d && UploadLeft(pc) > 1
       case Replied(code) =>
         if code == 400 then
           && t.c.Ok?
           && match t.before.store
              case OnS3(b) => id in b.uploads && !env.hash.Fits(d, b.uploads[id])
              case OnDisk(f) => pc.op.FsOp? && pc.op.fs.CommitVerify? && !env.hash.Fits(d, Fs.Read(f, pc.op.fs.ino))
         else code == 500 && (!t.c.Ok? || SessionBytes(t.before.store, id) == None)
       case _ => false
  }

  lemma CommitOnS3(env: Env, id: Id, w: World, pc: Pc, c: Choice)
    requires pc.InCommit? && pc.op.S3Op? && w.store.OnS3? && Committing(pc.op, id) && PcOk(env, w.store, pc)
    ensures var (w', pc') := Advance(env, w, pc, c); CommitMoves(env, pc.repo, id, pc.d, pc, Turn(w, c, w'), pc')
  {
  }

  lemma CommitOnDisk(env: Env, id: Id, w: World, pc: Pc, c: Choice)
    requires pc.InCommit? && pc.op.FsOp? && w.store.OnDisk? && Committing(pc.op, id) && PcOk(env, w.store, pc)
    ensures var (w', pc') := Advance(env, w, pc, c); CommitMoves(env, pc.repo, id, pc.d, pc, Turn(w, c, w'), pc')
  {
  }

  lemma CommitStep(env: Env, repo: Repo, id: Id, body: Bytes, d: Option<Digest>, turns: seq<Turn>, pc: Pc, t: Turn, pc': Pc)
    requires UploadStands(env, repo, id, body, d, turns, pc) && pc.InCommit? && CommitMoves(env, repo, id, pc.d, pc, t, pc')
    ensures UploadStands(env, repo, id, body, d, turns + [t], pc')
  {
    PutBack(turns, t);
    OkMore(turns, t);
    SentMore(turns, t, id, body);
  }

  lemma AssociateGoes(env: Env, repo: Repo, id: Id, body: Bytes, d: Option<Digest>, turns: seq<Turn>, w: World, pc: Pc, c: Choice)
    requires UploadStands(env, repo, id, body, d, turns, pc) && pc.Associate?
    ensures var (w', pc') := Advance(env, w, pc, c);
            UploadStands(env, repo, id, body, d, turns + [Turn(w, c, w')], pc')
  {
    var t := Turn(w, c, Advance(env, w, pc, c).0);
    PutBack(turns, t);
    SentMore(turns, t, id, body);
  }

  // A lookup of a blob to mount, in a repository or in storage, and its association.
  ghost predicate MountStands(repo: Repo, from: Repo, d: Digest, turns: seq<Turn>, pc: Pc) {
    match pc
    case MountQuery(f, r, b) => turns == [] && f == from && f != "" && r == repo && b == d
    case Discover(r, b) => turns == [] && from == "" && r == repo && b == d
    case Associate(r, b) => |turns| == 1 && r == repo && b == d && turns[0].after == turns[0].before && FoundIn(turns[0], from, d)
    case Replied(code) =>
      && 1 <= |turns| <= 2 && turns[0].after == turns[0].before
      && (|turns| == 2 <==> FoundIn(turns[0], from, d))
      && (if |turns| == 2 then if turns[1].c.Ok? then code == 201 && Linked(turns[1], repo, d) else code == 500
          else if turns[0].c.Ok? || (from == "" && turns[0].before.store.OnS3?) then code == 202 else code == 500)
    case _ => false
  }

  // The lookup succeeded and the blob was there: in the repository it is mounted from, or else in storage.
  predicate FoundIn(t: Turn, from: Repo, d: Digest) {
    t.c.Ok? && if from != "" then (from, d) in t.before.meta.blobs else Storage.Present(t.before.store, d)
  }

  ghost predicate UnlinkStands(repo: Repo, d: Digest, turns: seq<Turn>, pc: Pc) {
    match pc
    case Unlink(r, b) => turns == [] && r == repo && b == d
    case Replied(code) =>
      && |turns| == 1 && turns[0].after.store == turns[0].before.store
      && (code == 202 ==>
            && turns[0].c.Ok? && (repo, d) in turns[0].before.meta.blobs
            && turns[0].after.meta == turns[0].before.meta.(blobs := turns[0].before.meta.blobs - {(repo, d)}))
      && (code == 404 ==> turns[0].c.Ok? && (repo, d) !in turns[0].before.meta.blobs && turns[0].after == turns[0].before)
      && (code == 202 || code == 404 || (code == 500 && !turns[0].c.Ok?))
    case _ => false
  }

  ghost predicate UntagStands(repo: Repo, tag: string, turns: seq<Turn>, pc: Pc) {
    match pc
    case Untag(r, t) => turns == [] && r == repo && t == tag
    case Replied(code) =>
      && |turns| == 1 && turns[0].after.store == turns[0].before.store
      && (code == 202 ==>
            && turns[0].c.Ok? && (repo, tag) in turns[0].before.meta.tags
            && turns[0].after.meta == turns[0].before.meta.(tags := turns[0].before.meta.tags - {(repo, tag)}))
      && (code == 404 ==> turns[0].c.Ok? && (repo, tag) !in turns[0].before.meta.tags && turns[0].after == turns[0].before)
      && (code == 202 || code == 404 || (code == 500 && !turns[0].c.Ok?))
    case _ => false
  }

  /** Where a request stands after some calls. */
  ghost predicate Stands(env: Env, r: Request, turns: seq<Turn>, pc: Pc) {
    match r
    case Patch(id, body) => UploadStands(env, "", id, body, None, turns, pc)
    case Post(repo, id, dstr, mount, from, body) =>
      if dstr != "" && env.valid(dstr) then UploadStands(env, repo, id, body, Some(dstr), turns, pc)
      else if dstr != "" || (mount != "" && !env.valid(mount)) then turns == [] && pc == Replied(400)
      else if mount == "" then turns == [] && pc == Replied(202)
      else MountStands(repo, from, mount, turns, pc)
    case PutUpload(repo, id, dstr, body) =>
      if dstr == "" || !env.valid(dstr) then turns == [] && pc == Replied(400)
      else UploadStands(env, repo, id, body, Some(dstr), turns, pc)
    case PutManifest(repo, ref, payload) =>
      (match env.decode(payload)
       case None => turns == [] && pc == Replied(400)
       case Some(m) => ManifestStands(env, repo, ref, payload, m, turns, pc))
    case DeleteBlobs(repo, dstr) =>
      if env.valid(dstr) then UnlinkStands(repo, dstr, turns, pc) else turns == [] && pc == Replied(400)
    case DeleteManifests(repo, ref) =>
      if env.valid(ref) then UnlinkStands(repo, ref, turns, pc) else UntagStands(repo, ref, turns, pc)
  }

  lemma Begins(env: Env, st: Storage.Store, r: Request)
    ensures Stands(env, r, [], Admit(env, st, r))
  {
  }

  lemma UploadGoes(env: Env, repo: Repo, id: Id, body: Bytes, d: Option<Digest>, turns: seq<Turn>, w: World, pc: Pc, c: Choice)
    requires UploadStands(env, repo, id, body, d, turns, pc) && PcOk(env, w.store, pc) && !Ended(pc)
    ensures var (w', pc') := Advance(env, w, pc, c);
            UploadStands(env, repo, id, body, d, turns + [Turn(w, c, w')], pc')
  {
    var (w', pc') := Advance(env, w, pc, c);
    if pc.Associate? {
      AssociateGoes(env, repo, id, body, d, turns, w, pc, c);
    } else if pc.InUpload? {
      if w.store.OnS3? {
        UploadOnS3(env, repo, id, body, d, AllOk(turns), w, pc, c);
      } else {
        UploadOnDisk(env, repo, id, body, d, AllOk(turns), w, pc, c);
      }
      UploadStep(env, repo, id, body, d, turns, pc, Turn(w, c, w'), pc');
    } else {
      if w.store.OnS3? {
        CommitOnS3(env, id, w, pc, c);
      } else {
        CommitOnDisk(env, id, w, pc, c);
      }
      CommitStep(env, repo, id, body, d, turns, pc, Turn(w, c, w'), pc');
    }
  }

  lemma ManifestGoes(env: Env, repo: Repo, ref: string, payload: Bytes, m: Manifest, turns: seq<Turn>, w: World, pc: Pc, c: Choice)
    requires env.decode(payload) == Some(m) && ManifestStands(env, repo, ref, payload, m, turns, pc)
    requires PcOk(env, w.store, pc) && !Ended(pc)
    ensures var (w', pc') := Advance(env, w, pc, c);
            ManifestStands(env, repo, ref, payload, m, turns + [Turn(w, c, w')], pc')
  {
    if pc.CheckLayer? {
      CheckStands(env, repo, ref, payload, m, turns, w, pc, c);
    } else if pc.InSave? {
      SaveCall(env, w, pc, c);
      SaveStands(env, repo, ref, payload, m, turns, pc, Turn(w, c, Advance(env, w, pc, c).0), Advance(env, w, pc, c).1);
    } else if pc.AssociateManifest? {
      LinkStands(env, repo, ref, payload, m, turns, w, pc, c);
    } else if pc.Tag? {
      TagStands(env, repo, ref, payload, m, turns, w, pc, c);
    } else {
      ReferStands(env, repo, ref, payload, m, turns, w, pc, c);
    }
  }

  lemma MountGoes(env: Env, repo: Repo, from: Repo, d: Digest, turns: seq<Turn>, w: World, pc: Pc, c: Choice)
    requires MountStands(repo, from, d, turns, pc) && !Ended(pc)
    ensures var (w', pc') := Advance(env, w, pc, c);
            MountStands(repo, from, d, turns + [Turn(w, c, w')], pc')
  {
  }

  lemma DeleteGoes(env: Env, repo: Repo, name: string, turns: seq<Turn>, w: World, pc: Pc, c: Choice)
    requires !Ended(pc)
    ensures var (w', pc') := Advance(env, w, pc, c);
            && (UnlinkStands(repo, name, turns, pc) ==> UnlinkStands(repo, name, turns + [Turn(w, c, w')], pc'))
            && (UntagStands(repo, name, turns, pc) ==> UntagStands(repo, name, turns + [Turn(w, c, w')], pc'))
  {
  }

  lemma Goes(env: Env, r: Request, turns: seq<Turn>, w: World, pc: Pc, c: Choice)
    requires Stands(env, r, turns, pc) && PcOk(env, w.store, pc) && !Ended(pc)
    ensures var (w', pc') := Advance(env, w, pc, c);
            Stands(env, r, turns + [Turn(w, c, w')], pc')
  {
    match r
    case Patch(id, body) => UploadGoes(env, "", id, body, None, turns, w, pc, c);
    case Post(repo, id, dstr, mount, from, body) =>
      if dstr != "" {
        UploadGoes(env, repo, id, body, Some(dstr), turns, w, pc, c);
      } else {
        MountGoes(env, repo, from, mount, turns, w, pc, c);
      }
    case PutUpload(repo, id, dstr, body) => UploadGoes(env, repo, id, body, Some(dstr), turns, w, pc, c);
    case PutManifest(repo, ref, payload) =>
      ManifestGoes(env, repo, ref, payload, env.decode(payload).value, turns, w, pc, c);
    case DeleteBlobs(repo, dstr) => DeleteGoes(env, repo, dstr, turns, w, pc, c);
    case DeleteManifests(repo, ref) => DeleteGoes(env, repo, ref, turns, w, pc, c);
  }

  lemma FollowsStep(env: Env, s: State, a: Action, p: nat, r: Request, turns: seq<Turn>)
    requires Inv(env, s) && p in s.procs && Stands(env, r, turns, s.procs[p])
    ensures p in Step(env, s, a).procs && Stands(env, r, turns + OwnTurn(env, s, a, p), Step(env, s, a).procs[p])
  {
    if OwnTurn(env, s, a, p) != [] {
      Goes(env, r, turns, s.w, s.procs[p], a.c);
    } else {
      assert turns + [] == turns && Step(env, s, a).procs[p] == s.procs[p];
    }
  }

  lemma {:induction false} Follows(env: Env, s: State, acts: seq<Action>, p: nat, r: Request)
    requires Inv(env, s) && p in s.procs && Stands(env, r, [], s.procs[p])
    ensures var s' := Exec(env, s, acts);
            p in s'.procs && Stands(env, r, Turns(env, s, acts, p), s'.procs[p])
  {
    if acts != [] {
      var before := acts[..|acts| - 1];
      Follows(env, s, before, p, r);
      RunInv(env, s, before);
      FollowsStep(env, Exec(env, s, before), acts[|acts| - 1], p, r, Turns(env, s, before, p));
    }
  }

  // A request received in a reachable state, and what follows.
  lemma Reached(env: Env, init: State, acts: seq<Action>, later: seq<Action>, p: nat, r: Request)
    requires Initial(init) && p !in Exec(env, init, acts).procs
    ensures var s := Step(env, Exec(env, init, acts), Receive(p, r));
            var s' := Exec(env, s, later);
            p in s'.procs && Stands(env, r, Turns(env, s, later, p), s'.procs[p])
  {
    RunInv(env, init, acts);
    var x := Exec(env, init, acts);
    StepKeepsInv(env, x, Receive(p, r));
    Begins(env, x.w.store, r);
    Follows(env, Step(env, x, Receive(p, r)), later, p, r);
  }

  /** Looking up the parts in order, call k is the first that finds its part unacceptable. */
  predicate FirstBad(env: Env, repo: Repo, descs: seq<Descriptor>, turns: seq<Turn>, k: nat) {
    k < |descs| && FineUpTo(env, repo, descs, turns, k) && k < |turns| && !Fine(env, repo, descs[k], turns[k])
  }

  // What became of a manifest's PUT that was decoded.
  ghost predicate ManifestAnswer(env: Env, repo: Repo, ref: string, payload: Bytes, m: Manifest, descs: seq<Descriptor>,
                                 turns: seq<Turn>, pc: Pc) {
    && (pc == Replied(400) <==>
          exists k: nat :: FirstBad(env, repo, descs, turns, k) && (env.valid(descs[k].digest) ==> turns[k].c.Ok?))
    && (forall k: nat | FirstBad(env, repo, descs, turns, k) ::
          && |turns| == k + 1 && Untouched(turns)
          && pc == Replied(if env.valid(descs[k].digest) && !turns[k].c.Ok? then 500 else 400))
    && (pc == Replied(201) ==>
          FineUpTo(env, repo, descs, turns, |descs|) && Accepted(env, repo, ref, payload, m, turns))
    && (pc == Replied(500) ==> turns != [] && !turns[|turns| - 1].c.Ok?)
    && (Ended(pc) ==> pc in {Replied(201), Replied(400), Replied(500)})
    && (Ended(pc) && AllOk(turns) && FineUpTo(env, repo, descs, turns, |descs|) ==> pc == Replied(201))
    && (!Ended(pc) && AllOk(turns) ==> |turns| < |descs| + 7)
    && (forall t | t in turns && t.c.Fail? :: Quiet(t))
  }

  lemma OneBad(env: Env, repo: Repo, descs: seq<Descriptor>, turns: seq<Turn>, j: nat, k: nat)
    requires FirstBad(env, repo, descs, turns, j) && FirstBad(env, repo, descs, turns, k)
    ensures j == k
  {
  }

  lemma ManifestTold(env: Env, repo: Repo, ref: string, payload: Bytes, m: Manifest, turns: seq<Turn>, pc: Pc)
    requires ManifestStands(env, repo, ref, payload, m, turns, pc)
    ensures ManifestAnswer(env, repo, ref, payload, m, Parts(m), turns, pc)
  {
    var descs, n := Parts(m), |turns|;
    if pc == Replied(400) || (pc == Replied(500) && n <= |descs|) {
      assert FirstBad(env, repo, descs, turns, n - 1);
      forall k: nat | FirstBad(env, repo, descs, turns, k) ensures k == n - 1 {
        OneBad(env, repo, descs, turns, k, n - 1);
      }
    }
  }

  /**
   * A manifest's PUT along any run, on either backend. It passes the check exactly when each layer and the config has
   * a well-formed digest the repository was associated with when it was looked up; the first that has not is answered
   * 400, or 500 if its lookup failed, and nothing is changed. Unless a call fails it is then answered 201 after at most
   * seven more calls, which associate the manifest's digest, set the tag and append to the subject's referrers.
   */
  lemma PutManifestExactly(env: Env, init: State, acts: seq<Action>, later: seq<Action>, p: nat, repo: Repo, ref: string,
                           payload: Bytes)
    requires Initial(init) && p !in Exec(env, init, acts).procs
    ensures var s := Step(env, Exec(env, init, acts), Receive(p, PutManifest(repo, ref, payload)));
            var s' := Exec(env, s, later);
            var turns := Turns(env, s, later, p);
            && p in s'.procs
            && match env.decode(payload)
               case None => turns == [] && s'.procs[p] == Replied(400)
               case Some(m) =>
                 var descs := if m.layers.Some? && m.config.Some? then m.layers.value + [m.config.value] else [];
                 ManifestAnswer(env, repo, ref, payload, m, descs, turns, s'.procs[p])
  {
    var r := PutManifest(repo, ref, payload);
    Reached(env, init, acts, later, p, r);
    if env.decode(payload).Some? {
      var s := Step(env, Exec(env, init, acts), Receive(p, r));
      ManifestTold(env, repo, ref, payload, env.decode(payload).value, Turns(env, s, later, p), Exec(env, s, later).procs[p]);
    }
  }

  // What became of an upload.
  ghost predicate UploadAnswer(env: Env, repo: Repo, id: Id, body: Bytes, d: Option<Digest>, turns: seq<Turn>, pc: Pc) {
    var n := |turns|;
    && (pc.Ranged? ==>
          && d.None? && Sent(turns, id, body) && n >= 1 && turns[n - 1].c.Ok?
          && SessionBytes(turns[n - 1].after.store, id).Some? && pc.size == |SessionBytes(turns[n - 1].after.store, id).value|)
    && (pc == Replied(201) ==> d.Some? && Sent(turns, id, body) && n >= 1 && Linked(turns[n - 1], repo, d.value))
    && (pc == Replied(400) ==> d.Some? && Sent(turns, id, body) && Mismatch(env, turns, id, d.value))
    && (pc == Replied(500) ==> n >= 1 && (!turns[n - 1].c.Ok? || SessionBytes(turns[n - 1].before.store, id) == None))
    && (Ended(pc) ==> pc.Ranged? || pc in {Replied(201), Replied(400), Replied(500)})
    && (n >= 1 ==> AllQuiet(turns[..n - 1])) && (pc != Replied(201) && pc != Replied(500) ==> AllQuiet(turns))
    && (!Ended(pc) && AllOk(turns) ==> n < 9)
  }

  predicate UploadsTo(r: Request, repo: Repo, id: Id, body: Bytes, d: Digest) {
    || r == PutUpload(repo, id, d, body)
    || (r.Post? && r.repo == repo && r.id == id && r.dstr == d && r.body == body)
  }

  /**
   * A PATCH, a PUT that ends an upload, or a POST with a digest, along any run. A PATCH is answered 202 with the size
   * the session then has. The others are answered 201 after associating the digest, and 400 only when the session's
   * bytes do not fit it. 500 means a failed call or a session that is gone. Before 201 and 400 the body was written.
   */
  lemma UploadExactly(env: Env, init: State, acts: seq<Action>, later: seq<Action>, p: nat, r: Request,
                      repo: Repo, id: Id, body: Bytes, d: Option<Digest>)
    requires Initial(init) && p !in Exec(env, init, acts).procs
    requires if d.None? then r == Patch(id, body)
             else d.value != "" && env.valid(d.value) && UploadsTo(r, repo, id, body, d.value)
    ensures var s := Step(env, Exec(env, init, acts), Receive(p, r));
            var s' := Exec(env, s, later);
            p in s'.procs && UploadAnswer(env, repo, id, body, d, Turns(env, s, later, p), s'.procs[p])
  {
    Reached(env, init, acts, later, p, r);
    var s := Step(env, Exec(env, init, acts), Receive(p, r));
    var turns, pc := Turns(env, s, later, p), Exec(env, s, later).procs[p];
    UploadTold(env, if d.None? then "" else repo, repo, id, body, d, turns, pc);
  }

  lemma UploadTold(env: Env, at: Repo, repo: Repo, id: Id, body: Bytes, d: Option<Digest>, turns: seq<Turn>, pc: Pc)
    requires UploadStands(env, at, id, body, d, turns, pc) && (d.Some? ==> at == repo)
    ensures UploadAnswer(env, repo, id, body, d, turns, pc)
  {
  }

  /** A mount, from a repository or, if none is named, from storage: 201 with the association exactly when the lookup
      found the blob and the association succeeded, 202 when there is none. On S3 a failed look into storage is taken
      for an absent blob. */
  lemma MountExactly(env: Env, init: State, acts: seq<Action>, later: seq<Action>, p: nat, r: Request)
    requires Initial(init) && p !in Exec(env, init, acts).procs
    requires r.Post? && r.dstr == "" && r.mount != "" && env.valid(r.mount)
    ensures var s := Step(env, Exec(env, init, acts), Receive(p, r));
            var s' := Exec(env, s, later);
            var turns := Turns(env, s, later, p);
            && p in s'.procs && (Ended(s'.procs[p]) || |turns| < 2)
            && (Ended(s'.procs[p]) ==>
                  && 1 <= |turns| <= 2 && Untouched(turns[..1])
                  && (|turns| == 2 <==> FoundIn(turns[0], r.from, r.mount))
                  && s'.procs[p] == Replied(if |turns| == 2 then if turns[1].c.Ok? then 201 else 500
                                            else if turns[0].c.Ok? || (r.from == "" && turns[0].before.store.OnS3?) then 202
                                            else 500)
                  && (s'.procs[p] == Replied(201) ==> Linked(turns[1], r.repo, r.mount)))
  {
    Reached(env, init, acts, later, p, r);
  }

  /** A delete makes one call: 202 and the association, or the tag, is gone; 404 exactly when there was none. */
  lemma DeleteExactly(env: Env, init: State, acts: seq<Action>, later: seq<Action>, p: nat, repo: Repo, ref: string, r: Request)
    requires Initial(init) && p !in Exec(env, init, acts).procs
    requires r == DeleteManifests(repo, ref) || (r == DeleteBlobs(repo, ref) && env.valid(ref))
    ensures var s := Step(env, Exec(env, init, acts), Receive(p, r));
            var s' := Exec(env, s, later);
            var turns := Turns(env, s, later, p);
            && p in s'.procs && (Ended(s'.procs[p]) <==> |turns| == 1)
            && (|turns| == 1 ==>
                  var t := turns[0];
                  var there := if env.valid(ref) then (repo, ref) in t.before.meta.blobs else (repo, ref) in t.before.meta.tags;
                  && t.after.store == t.before.store
                  && s'.procs[p] == Replied(if !t.c.Ok? then 500 else if there then 202 else 404)
                  && (t.c.Ok? ==> t.after.meta == if env.valid(ref)
                                                  then t.before.meta.(blobs := t.before.meta.blobs - {(repo, ref)})
                                                  else t.before.meta.(tags := t.before.meta.tags - {(repo, ref)})))
  {
    Reached(env, init, acts, later, p, r);
    var s := Step(env, Exec(env, init, acts), Receive(p, r));
    var turns := Turns(env, s, later, p);
    if |turns| == 1 && turns[0].c.Ok? {
      NothingToRemove(turns[0].before.meta, repo, ref);
    }
  }

  lemma NothingToRemove(m: Meta, repo: Repo, name: string)
    ensures (repo, name) !in m.blobs ==> m.blobs - {(repo, name)} == m.blobs
    ensures (repo, name) !in m.tags ==> m.tags - {(repo, name)} == m.tags
  {
  }

  /** Requests answered without a call: a malformed digest is 400, and a POST without digest or mount opens a session. */
  lemma AnsweredAtOnce(env: Env, st: Storage.Store, r: Request)
    ensures r.Post? && r.dstr == "" && r.mount == "" ==> Admit(env, st, r) == Replied(202)
    ensures (r.Post? && r.dstr != "" && !env.valid(r.dstr)) || (r.Post? && r.dstr == "" && r.mount != "" && !env.valid(r.mount))
            || (r.PutUpload? && (r.dstr == "" || !env.valid(r.dstr))) || (r.DeleteBlobs? && !env.valid(r.dstr)) ==>
              Admit(env, st, r) == Replied(400)
  {
  }

  // A read from storage found these bytes, or took the blob for absent: on S3 any failed request does.
  predicate ReadFound(st: Storage.Store, d: Digest, read: Choice, data: Bytes) {
    read.Ok? && Storage.Contents(st, d) == Some(data)
  }

  predicate ReadMissed(st: Storage.Store, d: Digest, read: Choice) {
    if read.Ok? then Storage.Contents(st, d) == None
    else st.OnS3? && (read.Part? ==> Storage.Contents(st, d) == None)
  }

  /** A GET of a blob delivers exactly the stored bytes, if they are found, associated and fit the digest; bytes that
      do not fit are 400, a missing association or blob is 404, anything else a failed call. */
  lemma GetBlobExactly(env: Env, w1: World, w2: World, repo: Repo, d: Digest, assoc: Choice, read: Choice)
    ensures var r := GetBlobs(env, w1, w2, repo, d, assoc, read);
            var asked := env.valid(d) && assoc.Ok?;
            var there := (repo, d) in w1.meta.blobs;
            && (forall data :: r == Data(data) <==> asked && there && ReadFound(w2.store, d, read, data) && env.hash.Fits(d, data))
            && (r == Status(400) <==>
                  !env.valid(d) || (asked && there && exists data :: ReadFound(w2.store, d, read, data) && !env.hash.Fits(d, data)))
            && (r == Status(404) <==> asked && (!there || ReadMissed(w2.store, d, read)))
            && (r.Data? || r in {Status(400), Status(404), Status(500)})
  {
    var found := Storage.Contents(w2.store, d);
    assert found.Some? && read.Ok? ==> ReadFound(w2.store, d, read, found.value);
  }

  /** A GET of a manifest by digest or by tag decodes the stored bytes; by tag they are those of the tag's digest. */
  lemma GetManifestExactly(env: Env, w1: World, w2: World, w3: World, repo: Repo, ref: string, tag: Choice, assoc: Choice,
                           read: Choice)
    ensures var r := GetManifests(env, w1, w2, w3, repo, ref, tag, assoc, read);
            var named := env.valid(ref) || (tag.Ok? && (repo, ref) in w1.meta.tags);
            && (!named ==> r == Status(if tag.Ok? then 404 else 500))
            && (named ==>
                  var d := if env.valid(ref) then ref else w1.meta.tags[(repo, ref)];
                  var asked := env.valid(d) && assoc.Ok?;
                  var there := (repo, d) in w2.meta.blobs;
                  && (forall m :: r == Document(m) <==>
                        asked && there && exists data :: ReadFound(w3.store, d, read, data) && env.decode(data) == Some(m))
                  && (r == Status(400) <==> !env.valid(d))
                  && (r == Status(404) <==> asked && (!there || ReadMissed(w3.store, d, read)))
                  && (r.Document? || r in {Status(400), Status(404), Status(500)}))
  {
    var d := if env.valid(ref) then ref else if (repo, ref) in w1.meta.tags then w1.meta.tags[(repo, ref)] else ref;
    var found := Storage.Contents(w3.store, d);
    assert found.Some? && read.Ok? ==> ReadFound(w3.store, d, read, found.value);
  }
}
