/**
 * The S3 blob backend (ctf-registry/storage/s3/s3.go): every operation is a sequence of single object-store
 * calls, and operations of different requests interleave between those calls.
 */
module S3Storage {
  import opened Common
  import opened StorageApi

  datatype Bucket = Bucket(uploads: map<Id, Bytes>, blobs: map<Digest, Bytes>)

  // The next object-store call of an operation.
  datatype Op =
    | UploadHead(id: Id, body: Bytes)
    | UploadGet(id: Id, body: Bytes)
    | UploadRead(id: Id, existing: Bytes, body: Bytes)  // reading the request body
    | UploadPut(id: Id, data: Bytes)
    | CommitHead(id: Id, d: Digest)
    | CommitDrop(id: Id, d: Digest)                     // blob already there: delete the upload
    | CommitGet(id: Id, d: Digest)
    | CommitPut(id: Id, d: Digest, data: Bytes)
    | CommitDelete(id: Id, d: Digest)
    | SaveHead(d: Digest, data: Bytes)
    | SavePut(d: Digest, data: Bytes)
    | Finished(r: Result)

  /** One object-store call. Any error of a HeadObject reads as "not found", as in the source. */
  function Step(hash: Hashing, b: Bucket, op: Op, c: Choice): (Bucket, Op) {
    match op
    case UploadHead(id, body) =>
      if c.Ok? && id in b.uploads && b.uploads[id] != [] then (b, UploadGet(id, body))
      else (b, UploadRead(id, [], body))
    case UploadGet(id, body) =>
      // The earlier chunks are fetched with their errors ignored: a failed or short read loses them.
      var existing :=
        if id !in b.uploads || c.Fail? || c.FailApplied? then []
        else if c.Part? && c.n < |b.uploads[id]| then b.uploads[id][..c.n]
        else b.uploads[id];
      (b, UploadRead(id, existing, body))
    case UploadRead(id, existing, body) =>
      if c.Ok? then (b, UploadPut(id, existing + body)) else (b, Finished(Failed(StorageFail)))
    case UploadPut(id, data) =>
      var b' := if c.Ok? || c.FailApplied? then b.(uploads := b.uploads[id := data]) else b;
      (b', Finished(if c.Ok? then Uploaded(|data|) else Failed(StorageFail)))
    case CommitHead(id, d) =>
      if c.Ok? && d in b.blobs then (b, CommitDrop(id, d)) else (b, CommitGet(id, d))
    case CommitDrop(id, d) =>
      (if c.Ok? || c.FailApplied? then b.(uploads := b.uploads - {id}) else b, Finished(Stored(d)))
    case CommitGet(id, d) =>
      if !c.Ok? || id !in b.uploads then (b, Finished(Failed(StorageFail)))
      else if !hash.Fits(d, b.uploads[id]) then (b, Finished(Failed(NotVerified)))
      else (b, CommitPut(id, d, b.uploads[id]))
    case CommitPut(id, d, data) =>
      var b' := if c.Ok? || c.FailApplied? then b.(blobs := b.blobs[d := data]) else b;
      (b', if c.Ok? then CommitDelete(id, d) else Finished(Failed(StorageFail)))
    case CommitDelete(id, d) =>
      (if c.Ok? || c.FailApplied? then b.(uploads := b.uploads - {id}) else b, Finished(Stored(d)))
    case SaveHead(d, data) =>
      if c.Ok? && d in b.blobs then (b, Finished(Stored(d))) else (b, SavePut(d, data))
    case SavePut(d, data) =>
      var b' := if c.Ok? || c.FailApplied? then b.(blobs := b.blobs[d := data]) else b;
      (b', Finished(if c.Ok? then Stored(d) else Failed(StorageFail)))
    case Finished(_) => (b, op)
  }

  /** Every stored object hashes to its name. */
  ghost predicate Sound(hash: Hashing, b: Bucket) {
    forall d | d in b.blobs :: hash.Fits(d, b.blobs[d])
  }

  /** The digest a commit or save is about. */
  function Target(op: Op): Option<Digest> {
    match op
    case CommitHead(_, d) => Some(d)
    case CommitDrop(_, d) => Some(d)
    case CommitGet(_, d) => Some(d)
    case CommitPut(_, d, _) => Some(d)
    case CommitDelete(_, d) => Some(d)
    case SaveHead(d, _) => Some(d)
    case SavePut(d, _) => Some(d)
    case Finished(Stored(d)) => Some(d)
    case _ => None
  }

  /** What an operation in flight relies on: its bytes hash to its digest before it writes them, and its
      blob is there once it will report success. */
  ghost predicate Good(hash: Hashing, b: Bucket, op: Op) {
    match op
    case CommitDrop(_, d) => d in b.blobs
    case CommitPut(_, d, data) => hash.Fits(d, data)
    case CommitDelete(_, d) => d in b.blobs
    case SaveHead(d, data) => hash.Fits(d, data)
    case SavePut(d, data) => hash.Fits(d, data)
    case Finished(Stored(d)) => d in b.blobs
    case _ => true
  }

  lemma StepSound(hash: Hashing, b: Bucket, op: Op, c: Choice)
    requires Good(hash, b, op)
    ensures var (b', op') := Step(hash, b, op, c);
            && b.blobs.Keys <= b'.blobs.Keys
            && Good(hash, b', op')
            && (Sound(hash, b) ==> Sound(hash, b'))
            && ((op'.Finished? && !op'.r.Stored?) || Target(op') == Target(op))
  {
  }

  lemma GoodMonotone(hash: Hashing, b: Bucket, b': Bucket, op: Op)
    requires Good(hash, b, op) && b.blobs.Keys <= b'.blobs.Keys
    ensures Good(hash, b', op)
  {
  }

  // Any number of operations in flight over one bucket.
  datatype State = State(bucket: Bucket, ops: map<nat, Op>)

  datatype Action =
    | Upload(p: nat, id: Id, body: Bytes)
    | Commit(p: nat, id: Id, d: Digest)
    | Save(p: nat, data: Bytes)         // the manifest handler saves bytes under their own digest
    | Go(p: nat, c: Choice)

  const EMPTY := State(Bucket(map[], map[]), map[])

  function Start(st: State, p: nat, op: Op): State {
    if p in st.ops then st else st.(ops := st.ops[p := op])
  }

  function Next(hash: Hashing, st: State, a: Action): State {
    match a
    case Upload(p, id, body) => Start(st, p, UploadHead(id, body))
    case Commit(p, id, d) => Start(st, p, CommitHead(id, d))
    case Save(p, data) => Start(st, p, SaveHead(hash.of(data), data))
    case Go(p, c) =>
      if p !in st.ops then st
      else
        var (b, op) := Step(hash, st.bucket, st.ops[p], c);
        State(b, st.ops[p := op])
  }

  function Exec(hash: Hashing, st: State, acts: seq<Action>): State {
    if acts == [] then st else Next(hash, Exec(hash, st, acts[..|acts| - 1]), acts[|acts| - 1])
  }

  ghost predicate Inv(hash: Hashing, st: State) {
    && Sound(hash, st.bucket)
    && forall p | p in st.ops :: Good(hash, st.bucket, st.ops[p])
  }

  lemma NextKeepsInv(hash: Hashing, st: State, a: Action)
    requires Inv(hash, st)
    ensures var st' := Next(hash, st, a);
            Inv(hash, st') && st.bucket.blobs.Keys <= st'.bucket.blobs.Keys
  {
    var st' := Next(hash, st, a);
    if a.Go? && a.p in st.ops {
      StepSound(hash, st.bucket, st.ops[a.p], a.c);
      forall q | q in st.ops && q != a.p ensures Good(hash, st'.bucket, st'.ops[q]) {
        GoodMonotone(hash, st.bucket, st'.bucket, st.ops[q]);
      }
    }
  }

  lemma {:induction false} RunInv(hash: Hashing, st: State, acts: seq<Action>)
    requires Inv(hash, st)
    ensures var st' := Exec(hash, st, acts);
            Inv(hash, st') && st.bucket.blobs.Keys <= st'.bucket.blobs.Keys
  {
    if acts != [] {
      RunInv(hash, st, acts[..|acts| - 1]);
      NextKeepsInv(hash, Exec(hash, st, acts[..|acts| - 1]), acts[|acts| - 1]);
    }
  }

  /** Content addressing over every interleaving of single object-store calls, failures included: each object
      hashes to its name, and what a commit or save reported as stored stays stored. */
  lemma ContentAddressed(hash: Hashing, acts: seq<Action>, later: seq<Action>)
    ensures var st := Exec(hash, EMPTY, acts);
            var st' := Exec(hash, st, later);
            && (forall d | d in st'.bucket.blobs :: hash.Fits(d, st'.bucket.blobs[d]))
            && (forall p | p in st.ops && st.ops[p].Finished? && st.ops[p].r.Stored? ::
                  st.ops[p].r.d in st'.bucket.blobs)
            && (Injective(hash) ==> forall d | d in st.bucket.blobs ::
                  d in st'.bucket.blobs && st'.bucket.blobs[d] == st.bucket.blobs[d])
  {
    RunInv(hash, EMPTY, acts);
    RunInv(hash, Exec(hash, EMPTY, acts), later);
  }

  function RunAlone(hash: Hashing, b: Bucket, op: Op, cs: seq<Choice>): (Bucket, Op)
    decreases |cs|
  {
    if cs == [] then (b, op)
    else
      var (b', op') := Step(hash, b, op, cs[0]);
      RunAlone(hash, b', op', cs[1..])
  }

  // One more call, on a bucket and operation paired up.
  function Then(hash: Hashing, x: (Bucket, Op), c: Choice): (Bucket, Op) {
    Step(hash, x.0, x.1, c)
  }

  lemma Unroll(hash: Hashing, b: Bucket, op: Op, c0: Choice, c1: Choice, c2: Choice, c3: Choice)
    ensures var x2 := Then(hash, Then(hash, (b, op), c0), c1);
            && RunAlone(hash, b, op, [c0, c1]) == x2
            && RunAlone(hash, b, op, [c0, c1, c2]) == Then(hash, x2, c2)
            && RunAlone(hash, b, op, [c0, c1, c2, c3]) == Then(hash, Then(hash, x2, c2), c3)
  {
    var x1 := Then(hash, (b, op), c0);
    var x2 := Then(hash, x1, c1);
    var x3 := Then(hash, x2, c2);
    assert RunAlone(hash, x1.0, x1.1, [c1]) == x2;
    assert RunAlone(hash, x2.0, x2.1, [c2]) == x3;
    assert RunAlone(hash, x3.0, x3.1, [c3]) == Then(hash, x3, c3);
    assert RunAlone(hash, x2.0, x2.1, [c2, c3]) == RunAlone(hash, x3.0, x3.1, [c3]) by { assert [c2, c3][1..] == [c3]; }
    assert RunAlone(hash, x1.0, x1.1, [c1, c2]) == RunAlone(hash, x2.0, x2.1, [c2]) by { assert [c1, c2][1..] == [c2]; }
    assert RunAlone(hash, x1.0, x1.1, [c1, c2, c3]) == RunAlone(hash, x2.0, x2.1, [c2, c3]);
    assert [c0, c1, c2, c3][1..] == [c1, c2, c3] && [c1, c2, c3][1..] == [c2, c3] && [c2, c3][1..] == [c3];
    assert [c0, c1, c2][1..] == [c1, c2] && [c1, c2][1..] == [c2] && [c0, c1][1..] == [c1];
  }

  // The bytes an upload carries over from the chunks already stored.
  function CarriedOver(stored: Bytes, head: Choice, get: Choice): Bytes {
    if !head.Ok? then []
    else if get.Ok? then stored
    else if get.Part? && get.n < |stored| then stored[..get.n]
    else if get.Part? then stored
    else []
  }

  /** Earlier chunks survive exactly when there are none or both reads of them come back complete. */
  lemma ChunksKept(stored: Bytes, head: Choice, get: Choice)
    ensures CarriedOver(stored, head, get) == stored
            <==> stored == [] || (head.Ok? && (get.Ok? || (get.Part? && get.n >= |stored|)))
  {
  }

  lemma KeptLength(stored: Bytes, head: Choice, get: Choice)
    ensures var kept := if !head.Ok? then 0 else if get.Ok? then |stored|
                        else if get.Part? && get.n < |stored| then get.n else if get.Part? then |stored| else 0;
            CarriedOver(stored, head, get) == stored[..kept]
  {
  }

  class Storage {
    var uploads: map<Id, Bytes>
    var blobs: map<Digest, Bytes>

    ghost function View(): Bucket reads this { Bucket(uploads, blobs) }

    /** UploadBlob running alone; the choices say how HeadObject, GetObject, reading the body and PutObject end. */
    method UploadBlob(ghost hash: Hashing, id: Id, body: Bytes, head: Choice, get: Choice, read: Choice, put: Choice)
      returns (r: Result)
      modifies this`uploads
      ensures var chunks := id in old(uploads) && old(uploads)[id] != [];
              RunAlone(hash, old(View()), UploadHead(id, body),
                       if head.Ok? && chunks then [head, get, read, put] else [head, read, put])
              == (View(), Finished(r))
      ensures r.Uploaded? <==> read.Ok? && put.Ok?
      ensures r.Uploaded? ==> id in uploads && r.size == |uploads[id]|
      ensures !r.Uploaded? ==> r == Failed(StorageFail)
      ensures var stored := if id in old(uploads) then old(uploads)[id] else [];
              var kept := if !head.Ok? then 0 else if get.Ok? then |stored|
                          else if get.Part? && get.n < |stored| then get.n else if get.Part? then |stored| else 0;
              uploads == if read.Ok? && (put.Ok? || put.FailApplied?) then old(uploads)[id := stored[..kept] + body]
                         else old(uploads)
    {
      Unroll(hash, View(), UploadHead(id, body), head, get, read, put);
      Unroll(hash, View(), UploadHead(id, body), head, read, put, put);
      var existing: Bytes := [];
      if head.Ok? && id in uploads && |uploads[id]| > 0 {
        if get.Ok? || (get.Part? && get.n >= |uploads[id]|) {
          existing := uploads[id];
        } else if get.Part? {
          existing := uploads[id][..get.n];
        }
      }
      ghost var stored := if id in uploads then uploads[id] else [];
      assert existing == CarriedOver(stored, head, get);
      KeptLength(stored, head, get);
      if !read.Ok? {
        return Failed(StorageFail);
      }
      var combined := existing + body;
      if put.Ok? || put.FailApplied? {
        uploads := uploads[id := combined];
      }
      if !put.Ok? {
        return Failed(StorageFail);
      }
      r := Uploaded(|combined|);
    }

    /** CommitBlob running alone. It reports a mismatch exactly when it read the upload and found no blob under
        that digest; when the blob is already there the upload's bytes are never looked at. */
    method CommitBlob(hash: Hashing, id: Id, d: Digest, head: Choice, get: Choice, put: Choice, del: Choice)
      returns (r: Result)
      modifies this
      ensures RunAlone(hash, old(View()), CommitHead(id, d),
                       if head.Ok? && d in old(blobs) then [head, del] else [head, get, put, del])
              == (View(), Finished(r))
      ensures r == Failed(NotVerified) <==>
              (!head.Ok? || d !in old(blobs)) && get.Ok? && id in old(uploads) && !hash.Fits(d, old(uploads)[id])
      ensures r.Stored? ==> r.d == d && d in blobs
      ensures r.Stored? && (!head.Ok? || d !in old(blobs)) ==> hash.Fits(d, blobs[d])
      ensures var found := head.Ok? && d in old(blobs);
              var right := get.Ok? && id in old(uploads) && hash.Fits(d, old(uploads)[id]);
              && (r.Stored? <==> found || (right && put.Ok?))
              && blobs == (if !found && right && (put.Ok? || put.FailApplied?) then old(blobs)[d := old(uploads)[id]]
                           else old(blobs))
              && uploads == (if (found || (right && put.Ok?)) && (del.Ok? || del.FailApplied?) then old(uploads) - {id}
                             else old(uploads))
    {
      Unroll(hash, View(), CommitHead(id, d), head, del, del, del);
      Unroll(hash, View(), CommitHead(id, d), head, get, put, del);
      if head.Ok? && d in blobs {
        if del.Ok? || del.FailApplied? {
          uploads := uploads - {id};
        }
        return Stored(d);
      }
      if !get.Ok? || id !in uploads {
        return Failed(StorageFail);
      }
      var data := uploads[id];
      if !hash.Fits(d, data) {
        return Failed(NotVerified);
      }
      if put.Ok? || put.FailApplied? {
        blobs := blobs[d := data];
      }
      if !put.Ok? {
        return Failed(StorageFail);
      }
      if del.Ok? || del.FailApplied? {
        uploads := uploads - {id};
      }
      r := Stored(d);
    }

    /** SaveBlob running alone. */
    method SaveBlob(ghost hash: Hashing, d: Digest, data: Bytes, head: Choice, put: Choice) returns (r: Result)
      modifies this`blobs
      ensures RunAlone(hash, old(View()), SaveHead(d, data), [head, put]) == (View(), Finished(r))
      ensures r.Stored? ==> r.d == d && d in blobs
      ensures var found := head.Ok? && d in old(blobs);
              && r == (if found || put.Ok? then Stored(d) else Failed(StorageFail))
              && blobs == (if !found && (put.Ok? || put.FailApplied?) then old(blobs)[d := data] else old(blobs))
    {
      Unroll(hash, View(), SaveHead(d, data), head, put, put, put);
      if head.Ok? && d in blobs {
        return Stored(d);
      }
      if put.Ok? || put.FailApplied? {
        blobs := blobs[d := data];
      }
      r := if put.Ok? then Stored(d) else Failed(StorageFail);
    }
  }
}
