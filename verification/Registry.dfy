/**
 * The registry's request handlers over blob storage and metadata, interleaved between all their calls to either
 * (ctf-registry/handler/blobupload.go, ctf-registry/handler/manifest.go, ctf-registry/handler/blob.go).
 */
module Registry {
  import opened Common
  import opened StorageApi
  import opened Storage
  import opened MetaStore

  // The digest of bytes, the digest syntax, and the JSON decoding of a manifest.
  datatype Env = Env(hash: Hashing, valid: string -> bool, decode: Bytes -> Option<Manifest>)

  /** A computed digest is well-formed. */
  ghost predicate EnvOk(env: Env) { forall b :: env.valid(env.hash.of(b)) }

  predicate IsTag(env: Env, ref: string) { !env.valid(ref) }

  datatype Next = Reply | ThenCommit(repo: Repo, id: Id, d: Digest)

  // Where a request is: the call it makes next.
  datatype Pc =
    | InUpload(op: Op, next: Next)
    | InCommit(repo: Repo, d: Digest, op: Op)
    | Associate(repo: Repo, d: Digest)
    | MountQuery(from: Repo, repo: Repo, d: Digest)
    | Discover(repo: Repo, d: Digest)
    | CheckLayer(repo: Repo, ref: string, payload: Bytes, i: nat)
    | InSave(repo: Repo, ref: string, payload: Bytes, op: Op)
    | AssociateManifest(repo: Repo, ref: string, payload: Bytes)
    | Tag(repo: Repo, ref: string, payload: Bytes)
    | Refer(repo: Repo, payload: Bytes)
    | Unlink(repo: Repo, d: Digest)
    | Untag(repo: Repo, tag: string)
    | Replied(code: nat)
    | Ranged(size: nat)              // 202 to a PATCH, with the range 0-(size-1)

  // accepted and tagged are history: the manifests answered 201, and the payload last stored under each tag.
  datatype World = World(store: Store, meta: Meta, accepted: set<(Repo, Bytes)>, tagged: map<(Repo, string), Bytes>)

  datatype State = State(w: World, procs: map<nat, Pc>)

  datatype Request =
    | Patch(id: Id, body: Bytes)
    | Post(repo: Repo, id: Id, dstr: string, mount: string, from: string, body: Bytes)
    | PutUpload(repo: Repo, id: Id, dstr: string, body: Bytes)
    | PutManifest(repo: Repo, ref: string, payload: Bytes)
    | DeleteBlobs(repo: Repo, dstr: string)
    | DeleteManifests(repo: Repo, ref: string)

  datatype Action = Receive(p: nat, r: Request) | Go(p: nat, c: Choice)

  /** The part of a handler before its first call. */
  function Admit(env: Env, st: Store, r: Request): Pc {
    match r
    case Patch(id, body) => InUpload(StartUpload(st, id, body), Reply)
    case Post(repo, id, dstr, mount, from, body) =>
      if dstr != "" then
        if env.valid(dstr) then InUpload(StartUpload(st, id, body), ThenCommit(repo, id, dstr)) else Replied(400)
      else if mount == "" then Replied(202)
      else if !env.valid(mount) then Replied(400)
      else if from != "" then MountQuery(from, repo, mount)
      else Discover(repo, mount)
    case PutUpload(repo, id, dstr, body) =>
      if dstr == "" || !env.valid(dstr) then Replied(400)
      else InUpload(StartUpload(st, id, body), ThenCommit(repo, id, dstr))
    case PutManifest(repo, ref, payload) =>
      (match env.decode(payload)
       case None => Replied(400)
       case Some(m) =>
         if m.layers.Some? && m.config.Some? then CheckLayer(repo, ref, payload, 0)
         else InSave(repo, ref, payload, StartSave(st, env.hash.of(payload), payload)))
    case DeleteBlobs(repo, dstr) => if env.valid(dstr) then Unlink(repo, dstr) else Replied(400)
    case DeleteManifests(repo, ref) => if IsTag(env, ref) then Untag(repo, ref) else Unlink(repo, ref)
  }

  /** The descriptors PutManifests checks: the layers, then the config; none unless both are given. */
  function Checked(m: Manifest): seq<Descriptor> {
    if m.layers.Some? && m.config.Some? then m.layers.value + [m.config.value] else []
  }

  function PayloadChecked(env: Env, payload: Bytes): seq<Descriptor> {
    match env.decode(payload) case None => [] case Some(m) => Checked(m)
  }

  predicate Applied(c: Choice) { c.Ok? || c.FailApplied? }

  function Finish(w: World, repo: Repo, payload: Bytes): (World, Pc) {
    (w.(accepted := w.accepted + {(repo, payload)}), Replied(201))
  }

  /** PutManifests from the subject on. */
  function AfterTag(env: Env, w: World, repo: Repo, payload: Bytes): (World, Pc) {
    if env.decode(payload).Some? && env.decode(payload).value.subject.Some? then (w, Refer(repo, payload))
    else Finish(w, repo, payload)
  }

  /** The descriptor stored for a manifest that names a subject: its artifact type is never absent. */
  function ReferrerDescriptor(env: Env, m: Manifest, payload: Bytes): Descriptor {
    var artifact := if m.artifactType.Some? then m.artifactType.value
                    else if m.config.Some? then m.config.value.mediaType
                    else "";
    Descriptor(m.mediaType, env.hash.of(payload), |payload|, Some(artifact))
  }

  function AfterStorage(env: Env, w: World, pc: Pc, op: Op): Pc
    requires pc.InUpload? || pc.InCommit? || pc.InSave?
  {
    match Outcome(op)
    case None => pc.(op := op)
    case Some(Uploaded(size)) =>
      if !pc.InUpload? then Replied(500)
      else if pc.next.Reply? then Ranged(size)
      else InCommit(pc.next.repo, pc.next.d, StartCommit(w.store, pc.next.id, pc.next.d))
    case Some(Stored(_)) =>
      if pc.InCommit? then Associate(pc.repo, pc.d)
      else if pc.InSave? then AssociateManifest(pc.repo, pc.ref, pc.payload)
      else Replied(500)
    case Some(Failed(e)) => if pc.InCommit? && e.NotVerified? then Replied(400) else Replied(500)
  }

  /** One call of a request, and what the handler does with its result. */
  function Advance(env: Env, w: World, pc: Pc, c: Choice): (World, Pc) {
    match pc
    case InUpload(op, _) =>
      var (st, op') := Storage.Step(env.hash, w.store, op, c);
      (w.(store := st), AfterStorage(env, w, pc, op'))
    case InCommit(_, _, op) =>
      var (st, op') := Storage.Step(env.hash, w.store, op, c);
      (w.(store := st), AfterStorage(env, w, pc, op'))
    case InSave(_, _, _, op) =>
      var (st, op') := Storage.Step(env.hash, w.store, op, c);
      (w.(store := st), AfterStorage(env, w, pc, op'))
    case Associate(repo, d) =>
      (if Applied(c) then w.(meta := AddBlob(w.meta, repo, d)) else w, Replied(if c.Ok? then 201 else 500))
    case MountQuery(from, repo, d) =>
      (w, if !c.Ok? then Replied(500) else if (from, d) in w.meta.blobs then Associate(repo, d) else Replied(202))
    case Discover(repo, d) =>
      (w, match IsExistBlob(w.store, d, c)
          case None => Replied(500)
          case Some(exists') => if exists' then Associate(repo, d) else Replied(202))
    case CheckLayer(repo, ref, payload, i) =>
      var descs := PayloadChecked(env, payload);
      if i >= |descs| then (w, InSave(repo, ref, payload, StartSave(w.store, env.hash.of(payload), payload)))
      else if !env.valid(descs[i].digest) then (w, Replied(400))
      else if !c.Ok? then (w, Replied(500))
      else if (repo, descs[i].digest) !in w.meta.blobs then (w, Replied(400))
      else (w, CheckLayer(repo, ref, payload, i + 1))
    case AssociateManifest(repo, ref, payload) =>
      var w' := if Applied(c) then w.(meta := AddBlob(w.meta, repo, env.hash.of(payload))) else w;
      if !c.Ok? then (w', Replied(500))
      else if IsTag(env, ref) then (w', Tag(repo, ref, payload))
      else AfterTag(env, w', repo, payload)
    case Tag(repo, ref, payload) =>
      var w' := if !Applied(c) then w
                else w.(meta := SaveTag(w.meta, repo, env.hash.of(payload), ref), tagged := w.tagged[(repo, ref) := payload]);
      if c.Ok? then AfterTag(env, w', repo, payload) else (w', Replied(500))
    case Refer(repo, payload) =>
      if env.decode(payload).None? || env.decode(payload).value.subject.None? then (w, pc)
      else
        var m := env.decode(payload).value;
        var desc := ReferrerDescriptor(env, m, payload);
        var w' := if Applied(c) then w.(meta := AddReference(w.meta, repo, m.subject.value.digest, desc)) else w;
        if c.Ok? then Finish(w', repo, payload) else (w', Replied(500))
    case Unlink(repo, d) =>
      if (repo, d) !in w.meta.blobs then (w, Replied(if c.Ok? then 404 else 500))
      else (if Applied(c) then w.(meta := DeleteBlob(w.meta, repo, d)) else w, Replied(if c.Ok? then 202 else 500))
    case Untag(repo, tag) =>
      if (repo, tag) !in w.meta.tags then (w, Replied(if c.Ok? then 404 else 500))
      else (if Applied(c) then w.(meta := DeleteTag(w.meta, repo, tag), tagged := w.tagged - {(repo, tag)}) else w,
            Replied(if c.Ok? then 202 else 500))
    case Replied(_) => (w, pc)
    case Ranged(_) => (w, pc)
  }

  function Step(env: Env, s: State, a: Action): State {
    match a
    case Receive(p, r) => if p in s.procs then s else s.(procs := s.procs[p := Admit(env, s.w.store, r)])
    case Go(p, c) =>
      if p !in s.procs then s
      else
        var (w, pc) := Advance(env, s.w, s.procs[p], c);
        State(w, s.procs[p := pc])
  }

  function Exec(env: Env, s: State, acts: seq<Action>): State {
    if acts == [] then s else Step(env, Exec(env, s, acts[..|acts| - 1]), acts[|acts| - 1])
  }

  const S3_START := State(World(OnS3(S3.Bucket(map[], map[])), MetaStore.EMPTY, {}, map[]), map[])
  const DISK_START := State(World(OnDisk(Fs.NO_FILES), MetaStore.EMPTY, {}, map[]), map[])

  /** The registry starts empty, on either backend. */
  predicate Initial(s: State) { s == S3_START || s == DISK_START }

  // Everything PutManifests checks for this payload is in storage.
  ghost predicate ClosureStored(env: Env, st: Store, payload: Bytes) {
    forall desc | desc in PayloadChecked(env, payload) :: Present(st, desc.digest)
  }

  ghost predicate ManifestStored(env: Env, st: Store, payload: Bytes) {
    env.decode(payload).Some? && Present(st, env.hash.of(payload)) && ClosureStored(env, st, payload)
  }

  ghost predicate PcOk(env: Env, st: Store, pc: Pc) {
    match pc
    case InUpload(op, _) => Good(env.hash, st, op)
    case InCommit(_, d, op) => Good(env.hash, st, op) && Target(op) == Some(d)
    case InSave(_, _, payload, op) =>
      && Good(env.hash, st, op) && Target(op) == Some(env.hash.of(payload))
      && env.decode(payload).Some? && ClosureStored(env, st, payload)
    case Associate(_, d) => Present(st, d)
    case CheckLayer(_, _, payload, i) =>
      var descs := PayloadChecked(env, payload);
      && env.decode(payload).Some? && i <= |descs|
      && forall desc | desc in descs[..i] :: Present(st, desc.digest)
    case AssociateManifest(_, _, payload) => ManifestStored(env, st, payload)
    case Tag(_, _, payload) => ManifestStored(env, st, payload)
    case Refer(_, payload) => ManifestStored(env, st, payload)
    case _ => true
  }

  ghost predicate WorldOk(env: Env, w: World) {
    && Sound(env.hash, w.store)
    && (forall b | b in w.meta.blobs :: Present(w.store, b.1))
    && (forall a | a in w.accepted :: ManifestStored(env, w.store, a.1))
    && w.tagged.Keys == w.meta.tags.Keys
    && (forall t | t in w.tagged :: w.meta.tags[t] == env.hash.of(w.tagged[t]) && ManifestStored(env, w.store, w.tagged[t]))
    && (forall r | r in w.meta.refs :: forall desc | desc in w.meta.refs[r] :: desc.artifactType.Some?)
  }

  ghost predicate Inv(env: Env, s: State) {
    WorldOk(env, s.w) && forall p | p in s.procs :: PcOk(env, s.w.store, s.procs[p])
  }

  lemma PcMonotone(env: Env, st: Store, st': Store, pc: Pc)
    requires PcOk(env, st, pc) && Extends(st, st')
    ensures PcOk(env, st', pc)
  {
    if pc.InUpload? || pc.InCommit? || pc.InSave? {
      GoodMonotone(env.hash, st, st', pc.op);
    }
  }

  lemma UploadStep(env: Env, w: World, pc: Pc, c: Choice)
    requires WorldOk(env, w) && PcOk(env, w.store, pc) && pc.InUpload?
    ensures var (w', pc') := Advance(env, w, pc, c);
            WorldOk(env, w') && PcOk(env, w'.store, pc') && Extends(w.store, w'.store)
  {
    StepLaws(env.hash, w.store, pc.op, c);
  }

  lemma CommitStep(env: Env, w: World, pc: Pc, c: Choice)
    requires WorldOk(env, w) && PcOk(env, w.store, pc) && pc.InCommit?
    ensures var (w', pc') := Advance(env, w, pc, c);
            WorldOk(env, w') && PcOk(env, w'.store, pc') && Extends(w.store, w'.store)
  {
    StepLaws(env.hash, w.store, pc.op, c);
  }

  lemma SaveStep(env: Env, w: World, pc: Pc, c: Choice)
    requires WorldOk(env, w) && PcOk(env, w.store, pc) && pc.InSave?
    ensures var (w', pc') := Advance(env, w, pc, c);
            WorldOk(env, w') && PcOk(env, w'.store, pc') && Extends(w.store, w'.store)
  {
    StepLaws(env.hash, w.store, pc.op, c);
  }

  lemma CheckLayerStep(env: Env, w: World, pc: Pc, c: Choice)
    requires WorldOk(env, w) && PcOk(env, w.store, pc) && pc.CheckLayer?
    ensures var (w', pc') := Advance(env, w, pc, c);
            w' == w && PcOk(env, w.store, pc')
  {
    var descs, i := PayloadChecked(env, pc.payload), pc.i;
    if i < |descs| {
      assert descs[..i + 1] == descs[..i] + [descs[i]];
    } else {
      assert descs[..i] == descs;
    }
  }

  lemma AssociateManifestStep(env: Env, w: World, pc: Pc, c: Choice)
    requires WorldOk(env, w) && PcOk(env, w.store, pc) && pc.AssociateManifest?
    ensures var (w', pc') := Advance(env, w, pc, c);
            WorldOk(env, w') && PcOk(env, w'.store, pc') && w'.store == w.store
  {
  }

  lemma TagStep(env: Env, w: World, pc: Pc, c: Choice)
    requires WorldOk(env, w) && PcOk(env, w.store, pc) && pc.Tag?
    ensures var (w', pc') := Advance(env, w, pc, c);
            WorldOk(env, w') && PcOk(env, w'.store, pc') && w'.store == w.store
  {
  }

  lemma ReferStep(env: Env, w: World, pc: Pc, c: Choice)
    requires WorldOk(env, w) && PcOk(env, w.store, pc) && pc.Refer?
    ensures var (w', pc') := Advance(env, w, pc, c);
            WorldOk(env, w') && PcOk(env, w'.store, pc') && w'.store == w.store
  {
  }

  lemma AdvanceOk(env: Env, w: World, pc: Pc, c: Choice)
    requires WorldOk(env, w) && PcOk(env, w.store, pc)
    ensures var (w', pc') := Advance(env, w, pc, c);
            WorldOk(env, w') && PcOk(env, w'.store, pc') && Extends(w.store, w'.store)
  {
    match pc
    case InUpload(_, _) => UploadStep(env, w, pc, c);
    case InCommit(_, _, _) => CommitStep(env, w, pc, c);
    case InSave(_, _, _, _) => SaveStep(env, w, pc, c);
    case CheckLayer(_, _, _, _) => CheckLayerStep(env, w, pc, c);
    case AssociateManifest(_, _, _) => AssociateManifestStep(env, w, pc, c);
    case Tag(_, _, _) => TagStep(env, w, pc, c);
    case Refer(_, _) => ReferStep(env, w, pc, c);
    case _ =>
  }

  lemma StepKeepsInv(env: Env, s: State, a: Action)
    requires Inv(env, s)
    ensures var s' := Step(env, s, a);
            Inv(env, s') && Extends(s.w.store, s'.w.store)
  {
    if a.Go? && a.p in s.procs {
      AdvanceOk(env, s.w, s.procs[a.p], a.c);
      var (w', pc') := Advance(env, s.w, s.procs[a.p], a.c);
      forall q | q in s.procs && q != a.p ensures PcOk(env, w'.store, s.procs[q]) {
        PcMonotone(env, s.w.store, w'.store, s.procs[q]);
      }
    }
  }

  lemma {:induction false} RunInv(env: Env, s: State, acts: seq<Action>)
    requires Inv(env, s)
    ensures var s' := Exec(env, s, acts);
            Inv(env, s') && Extends(s.w.store, s'.w.store)
  {
    if acts != [] {
      RunInv(env, s, acts[..|acts| - 1]);
      StepKeepsInv(env, Exec(env, s, acts[..|acts| - 1]), acts[|acts| - 1]);
    }
  }

  /** No dangling visibility: over every interleaving of handlers and every failure, on both backends, whatever a
      repository is associated with is in storage, now and at every later state. */
  lemma NoDangling(env: Env, init: State, acts: seq<Action>, later: seq<Action>)
    requires Initial(init)
    ensures var s := Exec(env, init, acts);
            var s' := Exec(env, s, later);
            forall b | b in s.w.meta.blobs :: Present(s.w.store, b.1) && Present(s'.w.store, b.1)
  {
    RunInv(env, init, acts);
    RunInv(env, Exec(env, init, acts), later);
  }

  /** Every manifest answered 201 stays in storage together with its layers and config. */
  lemma ManifestClosure(env: Env, init: State, acts: seq<Action>, later: seq<Action>)
    requires Initial(init)
    ensures var s := Exec(env, init, acts);
            var s' := Exec(env, s, later);
            forall a | a in s.w.accepted ::
              && env.decode(a.1).Some? && Present(s'.w.store, env.hash.of(a.1))
              && forall desc | desc in Checked(env.decode(a.1).value) :: Present(s'.w.store, desc.digest)
  {
    RunInv(env, init, acts);
    var s := Exec(env, init, acts);
    RunInv(env, s, later);
    forall a | a in s.w.accepted ensures ManifestStored(env, Exec(env, s, later).w.store, a.1) {
    }
  }

  datatype Response = Data(data: Bytes) | Document(m: Manifest) | Status(code: nat)

  /** ReadBlob and ReadBlobToWriter. Any error of the S3 request counts as "not found"; one while its body is read
      (Part) does not. */
  function Fetch(st: Store, d: Digest, c: Choice): Response {
    if c.Ok? then (match Contents(st, d) case None => Status(404) case Some(data) => Data(data))
    else if st.OnS3? && !(c.Part? && Present(st, d)) then Status(404)
    else Status(500)
  }

  /** GetBlobs: the association is read at w1, the blob at w2. */
  function GetBlobs(env: Env, w1: World, w2: World, repo: Repo, dstr: string, assoc: Choice, read: Choice): Response {
    if !env.valid(dstr) then Status(400)
    else if !assoc.Ok? then Status(500)
    else if (repo, dstr) !in w1.meta.blobs then Status(404)
    else
      var r := Fetch(w2.store, dstr, read);
      if r.Data? && !env.hash.Fits(dstr, r.data) then Status(400) else r
  }

  // What the bytes under a manifest's digest are answered as.
  function Decoded(env: Env, data: Bytes): Response {
    match env.decode(data) case None => Status(500) case Some(m) => Document(m)
  }

  /** GetManifests: the tag is read at w1, the association at w2, the blob at w3. */
  function GetManifests(env: Env, w1: World, w2: World, w3: World, repo: Repo, ref: string,
                        tag: Choice, assoc: Choice, read: Choice): Response {
    if IsTag(env, ref) && !tag.Ok? then Status(500)
    else if IsTag(env, ref) && (repo, ref) !in w1.meta.tags then Status(404)
    else
      var d := if IsTag(env, ref) then w1.meta.tags[(repo, ref)] else ref;
      if !env.valid(d) then Status(400)
      else if !assoc.Ok? then Status(500)
      else if (repo, d) !in w2.meta.blobs then Status(404)
      else
        match Fetch(w3.store, d, read)
        case Data(data) => Decoded(env, data)
        case r => r
  }

  /** A GET of an associated digest finds its blob on either backend, and answers by what its bytes hash to; on S3
      it always delivers bytes of that digest. (RegistryOnDisk says when it does on disk.) */
  lemma GetAssociatedBlob(env: Env, init: State, acts: seq<Action>, later: seq<Action>, repo: Repo, d: Digest)
    requires Initial(init) && env.valid(d)
    requires (repo, d) in Exec(env, init, acts).w.meta.blobs
    ensures var s := Exec(env, init, acts);
            var s' := Exec(env, s, later);
            var r, found := GetBlobs(env, s.w, s'.w, repo, d, Ok, Ok), Contents(s'.w.store, d);
            && found.Some?
            && r == (if env.hash.Fits(d, found.value) then Data(found.value) else Status(400))
            && (init == S3_START ==> r.Data? && env.hash.Fits(d, r.data))
  {
    NoDangling(env, init, acts, later);
    RunInv(env, init, acts);
    RunInv(env, Exec(env, init, acts), later);
  }

  lemma TagAnswer(env: Env, w1: World, w2: World, w3: World, repo: Repo, ref: string)
    requires EnvOk(env) && Injective(env.hash) && IsTag(env, ref)
    requires WorldOk(env, w1) && WorldOk(env, w2) && WorldOk(env, w3) && Extends(w2.store, w3.store)
    ensures var r := GetManifests(env, w1, w2, w3, repo, ref, Ok, Ok, Ok);
            if (repo, ref) !in w1.tagged then r == Status(404)
            else
              var payload := w1.tagged[(repo, ref)];
              var d := env.hash.of(payload);
              if (repo, d) !in w2.meta.blobs then r == Status(404)
              else
                var found := Contents(w3.store, d);
                && env.decode(payload).Some? && found.Some? && r == Decoded(env, found.value)
                && (w3.store.OnS3? ==> found.value == payload)
  {
    if (repo, ref) in w1.tagged {
      var d := env.hash.of(w1.tagged[(repo, ref)]);
      if (repo, d) in w2.meta.blobs && w3.store.OnS3? {
        assert Contents(w3.store, d).Some?;
        OtherBytes(env.hash, w1.tagged[(repo, ref)], Contents(w3.store, d).value);
      }
    }
  }

  /** Last writer wins: with an injective digest, a GET by tag answers the decoding of the bytes under the digest of
      the payload stored last under the tag, or 404 when the tag or the association is gone, and never 400. On S3
      those bytes are that payload. (RegistryOnDisk says when they are on disk.) */
  lemma GetByTag(env: Env, init: State, a1: seq<Action>, a2: seq<Action>, a3: seq<Action>, repo: Repo, ref: string)
    requires Initial(init) && EnvOk(env) && Injective(env.hash) && IsTag(env, ref)
    ensures var s1 := Exec(env, init, a1);
            var s2 := Exec(env, s1, a2);
            var s3 := Exec(env, s2, a3);
            var r := GetManifests(env, s1.w, s2.w, s3.w, repo, ref, Ok, Ok, Ok);
            if (repo, ref) !in s1.w.tagged then r == Status(404)
            else
              var payload := s1.w.tagged[(repo, ref)];
              var d := env.hash.of(payload);
              if (repo, d) !in s2.w.meta.blobs then r == Status(404)
              else
                var found := Contents(s3.w.store, d);
                && env.decode(payload).Some? && found.Some? && r == Decoded(env, found.value)
                && (init == S3_START ==> found.value == payload && r == Document(env.decode(payload).value))
  {
    RunInv(env, init, a1);
    var s1 := Exec(env, init, a1);
    RunInv(env, s1, a2);
    var s2 := Exec(env, s1, a2);
    RunInv(env, s2, a3);
    TagAnswer(env, s1.w, s2.w, Exec(env, s2, a3).w, repo, ref);
  }

  /** `tagged` is the last payload put under a tag: only a Tag step sets it, to its own payload, and only an
      Untag step of that very tag removes it. */
  lemma TaggedIsLast(env: Env, s: State, a: Action, repo: Repo, ref: string)
    ensures var s' := Step(env, s, a);
            var changed := (repo, ref) in s.w.tagged <==> (repo, ref) !in s'.w.tagged;
            var replaced := (repo, ref) in s.w.tagged && (repo, ref) in s'.w.tagged
                            && s.w.tagged[(repo, ref)] != s'.w.tagged[(repo, ref)];
            changed || replaced ==>
              && a.Go? && a.p in s.procs
              && (s.procs[a.p] == Untag(repo, ref) ==> (repo, ref) !in s'.w.tagged)
              && (s.procs[a.p] != Untag(repo, ref) ==>
                    && s.procs[a.p].Tag? && s.procs[a.p].repo == repo && s.procs[a.p].ref == ref
                    && (repo, ref) in s'.w.tagged && s'.w.tagged[(repo, ref)] == s.procs[a.p].payload)
  {
  }

  // What a request at this point is about to make of a repository's association with a digest.
  predicate Links(env: Env, pc: Pc, repo: Repo, d: Digest) {
    || pc == Associate(repo, d)
    || (pc.AssociateManifest? && pc.repo == repo && env.hash.of(pc.payload) == d)
  }

  lemma AssociationStep(env: Env, w: World, pc: Pc, c: Choice, repo: Repo, d: Digest)
    ensures var (w', pc') := Advance(env, w, pc, c);
            && ((repo, d) in w'.meta.blobs <==>
                  || ((repo, d) in w.meta.blobs && !(pc == Unlink(repo, d) && Applied(c)))
                  || (Links(env, pc, repo, d) && Applied(c)))
            && (pc == Associate(repo, d) && pc' == Replied(201) ==> c.Ok?)
            && (pc == Unlink(repo, d) && pc' == Replied(202) ==> c.Ok? && (repo, d) in w.meta.blobs)
  {
  }

  /** An association is made only by an upload, mount or manifest request for it and taken away only by a delete of
      that very digest in that repository; a 201 to an upload or mount means that it is there. */
  lemma AssociatedExactly(env: Env, s: State, p: nat, c: Choice, repo: Repo, d: Digest)
    requires p in s.procs
    ensures var s' := Step(env, s, Go(p, c));
            var before, after := (repo, d) in s.w.meta.blobs, (repo, d) in s'.w.meta.blobs;
            && (after <==> (before && !(s.procs[p] == Unlink(repo, d) && Applied(c)))
                           || (Links(env, s.procs[p], repo, d) && Applied(c)))
            && (s.procs[p] == Associate(repo, d) && s'.procs[p] == Replied(201) ==> after)
            && (s.procs[p] == Unlink(repo, d) && s'.procs[p] == Replied(202) ==> before && !after)
  {
    AssociationStep(env, s.w, s.procs[p], c, repo, d);
  }

  /** A manifest with a subject adds exactly its own descriptor to the end of that subject's referrers, and nothing
      else ever changes a list of referrers. */
  lemma ReferrersAppended(env: Env, s: State, a: Action, repo: Repo, d: Digest)
    ensures var s' := Step(env, s, a);
            var before, after := References(s.w.meta, repo, d), References(s'.w.meta, repo, d);
            after != before ==>
              && a.Go? && a.p in s.procs && s.procs[a.p].Refer? && s.procs[a.p].repo == repo
              && env.decode(s.procs[a.p].payload).Some?
              && env.decode(s.procs[a.p].payload).value.subject.Some?
              && env.decode(s.procs[a.p].payload).value.subject.value.digest == d
              && |after| == |before| + 1 && after[..|before|] == before
              && after[|before|]
                 == ReferrerDescriptor(env, env.decode(s.procs[a.p].payload).value, s.procs[a.p].payload)
  {
  }

  /** Every stored referrer has an artifact type, so the Bolt filter, which dereferences it, never fails. */
  lemma ReferrersTyped(env: Env, init: State, acts: seq<Action>, repo: Repo, d: Digest)
    requires Initial(init)
    ensures forall desc | desc in References(Exec(env, init, acts).w.meta, repo, d) :: desc.artifactType.Some?
  {
    RunInv(env, init, acts);
  }
}
