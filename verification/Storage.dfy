/** The registry's blob storage: one of the two backends chosen at start-up (ctf-registry/main.go). */
module Storage {
  import opened Common
  import opened StorageApi
  import S3 = S3Storage
  import Fs = FsStorage

  datatype Store = OnS3(bucket: S3.Bucket) | OnDisk(files: Fs.Files)

  // An operation in flight.
  datatype Op = S3Op(s3: S3.Op) | FsOp(fs: Fs.Op)

  function StartUpload(st: Store, id: Id, body: Bytes): Op {
    if st.OnS3? then S3Op(S3.UploadHead(id, body)) else FsOp(Fs.UploadOpen(id, body))
  }

  function StartCommit(st: Store, id: Id, d: Digest): Op {
    if st.OnS3? then S3Op(S3.CommitHead(id, d)) else FsOp(Fs.CommitOpen(id, d))
  }

  function StartSave(st: Store, d: Digest, data: Bytes): Op {
    if st.OnS3? then S3Op(S3.SaveHead(d, data)) else FsOp(Fs.SaveStat(d, data))
  }

  /** The next single call of an operation. */
  function Step(hash: Hashing, st: Store, op: Op, c: Choice): (Store, Op) {
    match (st, op)
    case (OnS3(b), S3Op(o)) => var (b', o') := S3.Step(hash, b, o, c); (OnS3(b'), S3Op(o'))
    case (OnDisk(f), FsOp(o)) => var (f', o') := Fs.Step(hash, f, o, c); (OnDisk(f'), FsOp(o'))
    case _ => (st, op)
  }

  function Outcome(op: Op): Option<Result> {
    match op
    case S3Op(Finished(r)) => Some(r)
    case FsOp(Finished(r)) => Some(r)
    case _ => None
  }

  function Target(op: Op): Option<Digest> {
    match op
    case S3Op(o) => S3.Target(o)
    case FsOp(o) => Fs.Target(o)
  }

  predicate Present(st: Store, d: Digest) {
    match st
    case OnS3(b) => d in b.blobs
    case OnDisk(f) => Fs.Present(f, d)
  }

  // The bytes under a blob's name; None when there is no such name.
  function Contents(st: Store, d: Digest): Option<Bytes> {
    match st
    case OnS3(b) => if d in b.blobs then Some(b.blobs[d]) else None
    case OnDisk(f) => if Fs.Present(f, d) then Some(Fs.Read(f, f.dir[Fs.Blob(d)])) else None
  }

  /** IsExistBlob: the S3 backend takes every error for "absent", the filesystem reports it (None). */
  function IsExistBlob(st: Store, d: Digest, c: Choice): Option<bool> {
    if c.Ok? then Some(Present(st, d)) else if st.OnS3? then Some(false) else None
  }

  ghost predicate Good(hash: Hashing, st: Store, op: Op) {
    match (st, op)
    case (OnS3(b), S3Op(o)) => S3.Good(hash, b, o)
    case (OnDisk(f), FsOp(o)) => Fs.Good(f, o)
    case _ => false
  }

  /** Every stored object hashes to its name; promised unconditionally by the S3 backend only. */
  ghost predicate Sound(hash: Hashing, st: Store) {
    st.OnS3? ==> S3.Sound(hash, st.bucket)
  }

  ghost predicate Extends(st: Store, st': Store) {
    && (st.OnS3? <==> st'.OnS3?)
    && forall d | Present(st, d) :: Present(st', d)
  }

  /** What the registry relies on, whichever backend runs: blobs never disappear, and an operation that reports
      a digest as stored leaves a blob of that name. */
  lemma StepLaws(hash: Hashing, st: Store, op: Op, c: Choice)
    requires Good(hash, st, op) && Sound(hash, st)
    ensures var (st', op') := Step(hash, st, op, c);
            && Extends(st, st') && Good(hash, st', op') && Sound(hash, st')
            && (Target(op') == Target(op) || (Outcome(op').Some? && !Outcome(op').value.Stored?))
            && (Outcome(op').Some? && Outcome(op').value.Stored? ==> Present(st', Outcome(op').value.d))
  {
    match (st, op)
    case (OnS3(b), S3Op(o)) => S3.StepSound(hash, b, o, c);
    case (OnDisk(f), FsOp(o)) => Fs.StepPresence(hash, f, o, c);
  }

  lemma GoodMonotone(hash: Hashing, st: Store, st': Store, op: Op)
    requires Good(hash, st, op) && Extends(st, st')
    ensures Good(hash, st', op)
  {
    if st.OnS3? {
      assert forall d | d in st.bucket.blobs :: Present(st, d);
      S3.GoodMonotone(hash, st.bucket, st'.bucket, op.s3);
    } else {
      assert forall d | Fs.Present(st.files, d) :: Present(st, d);
    }
  }
}
