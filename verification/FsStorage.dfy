/**
 * The filesystem blob backend (ctf-registry/storage/filesystem/filesystem.go) down to single system calls and
 * inodes: an open file keeps being written after it was renamed, os.WriteFile truncates before it writes, and
 * each write may stop after part of its bytes.
 */
module FsStorage {
  import opened Common
  import opened StorageApi

  datatype Name = Upload(id: Id) | Blob(d: Digest)

  /**
   * History of an inode's last truncation: the SaveBlob call that made it and the bytes that call is saving, the
   * positions written since and the calls that wrote them, and whether an upload appended to the file since.
   */
  datatype Cut = Cut(call: nat, source: Bytes, covered: set<nat>, writers: set<nat>, foreign: bool)

  /** History of a renamed inode: its digest, and the inode and bytes its commit had verified. */
  datatype Publication = Publication(d: Digest, from: nat, seen: Bytes)

  // The fields from cuts on are history; no system call depends on them.
  datatype Files = Files(
    dir: map<Name, nat>,                // directory entries: name -> inode
    data: map<nat, Bytes>,              // inode -> content
    next: nat,                          // the next unused inode
    cuts: map<nat, Cut>,                // inode -> its last truncation
    published: map<nat, Publication>,   // inode -> the commit that renamed it
    stamp: nat,                         // the next unused call number
    progress: map<nat, nat>,            // SaveBlob call -> how many bytes it has written
    saved: set<nat>,                    // SaveBlob calls that wrote everything
    abandoned: set<nat>)                // SaveBlob calls that failed after truncating

  const NO_FILES := Files(map[], map[], 0, map[], map[], 0, map[], {}, {})

  // The next system call of an operation.
  datatype Op =
    | UploadOpen(id: Id, body: Bytes)
    | UploadCopy(id: Id, ino: nat, rest: Bytes)
    | UploadStat(id: Id)
    | CommitOpen(id: Id, d: Digest)
    | CommitVerify(id: Id, d: Digest, ino: nat)
    | CommitStat(id: Id, d: Digest, ino: nat, seen: Bytes)    // ino and seen: what was verified (history)
    | CommitRemove(id: Id, d: Digest)
    | CommitRename(id: Id, d: Digest, ino: nat, seen: Bytes)
    | SaveStat(d: Digest, data: Bytes)
    | SaveOpen(d: Digest, data: Bytes)
    | SaveWrite(d: Digest, data: Bytes, ino: nat, off: nat, call: nat)
    | Finished(r: Result)

  function Read(f: Files, ino: nat): Bytes {
    if ino in f.data then f.data[ino] else []
  }

  function Zeros(n: nat): seq<byte> { seq(n, _ => 0) }

  /** write(2) at an offset: what is before it stays (a gap reads as zeros), what is after it stays; writing
      nothing changes nothing. */
  function WriteAt(old': Bytes, off: nat, piece: Bytes): (r: Bytes)
    ensures |r| == if piece == [] || |old'| > off + |piece| then |old'| else off + |piece|
  {
    if piece == [] then old'
    else
      var head := if off <= |old'| then old'[..off] else old' + Zeros(off - |old'|);
      head + piece + (if |old'| > off + |piece| then old'[off + |piece|..] else [])
  }

  function Fail(f: Files): (Files, Op) { (f, Finished(Failed(StorageFail))) }

  /** O_CREATE: the inode a name leads to, a new empty one if there was none. */
  function Create(f: Files, name: Name): (Files, nat) {
    if name in f.dir then (f, f.dir[name])
    else (f.(dir := f.dir[name := f.next], data := f.data[f.next := []], next := f.next + 1), f.next)
  }

  function OpenUpload(f: Files, id: Id, body: Bytes): (Files, Op) {
    var (f', ino) := Create(f, Upload(id));
    (f', UploadCopy(id, ino, body))
  }

  function Append(f: Files, id: Id, ino: nat, rest: Bytes, c: Choice): (Files, Op) {
    var n := if c.Fail? then 0 else if c.Part? && c.n < |rest| then c.n else |rest|;
    var f' := f.(data := f.data[ino := Read(f, ino) + rest[..n]],
                 cuts := if n > 0 && ino in f.cuts then f.cuts[ino := f.cuts[ino].(foreign := true)] else f.cuts);
    (f', match c
         case Ok => UploadStat(id)
         case Part(_) => UploadCopy(id, ino, rest[n..])
         case _ => Finished(Failed(StorageFail)))
  }

  /** O_TRUNC, by the save call that gets the next number. */
  function Truncate(f: Files, ino: nat, data: Bytes): Files {
    f.(data := f.data[ino := []], cuts := f.cuts[ino := Cut(f.stamp, data, {}, {}, false)],
       progress := f.progress[f.stamp := 0], stamp := f.stamp + 1)
  }

  /** O_CREATE|O_TRUNC. */
  function OpenSave(f: Files, d: Digest, data: Bytes, failed: bool): (Files, Op) {
    var (g, ino) := Create(f, Blob(d));
    var f' := Truncate(g, ino, data);
    if failed then (f'.(abandoned := f'.abandoned + {g.stamp}), Finished(Failed(StorageFail)))
    else (f', SaveWrite(d, data, ino, 0, g.stamp))
  }

  /** How many of the bytes data[off..] one write gets into the file. */
  function WriteCount(data: Bytes, off: nat, c: Choice): (n: nat)
    ensures off <= |data| ==> off + n <= |data|
    ensures c.Ok? && off <= |data| ==> off + n == |data|
  {
    if c.Fail? || off > |data| then 0 else if c.Part? && c.n < |data| - off then c.n else |data| - off
  }

  function Covered(cut: Cut, op: Op, n: nat): Cut
    requires op.SaveWrite?
  {
    cut.(covered := cut.covered + Range(op.off, op.off + n), writers := cut.writers + {op.call})
  }

  function WriteSave(f: Files, op: Op, c: Choice): (Files, Op)
    requires op.SaveWrite?
  {
    var n := WriteCount(op.data, op.off, c);
    var piece := if op.off <= |op.data| then op.data[op.off..op.off + n] else [];
    var f' := f.(data := f.data[op.ino := WriteAt(Read(f, op.ino), op.off, piece)],
                 cuts := if n > 0 && op.ino in f.cuts then f.cuts[op.ino := Covered(f.cuts[op.ino], op, n)] else f.cuts,
                 progress := f.progress[op.call := op.off + n]);
    match c
    case Ok => (f'.(saved := f.saved + {op.call}), Finished(Stored(op.d)))
    case Part(_) => (f', op.(off := op.off + n))
    case _ => (f'.(abandoned := f.abandoned + {op.call}), Finished(Failed(StorageFail)))
  }

  /** ino and seen are what the commit verified; the file renamed is whatever the name leads to now. */
  function Rename(f: Files, id: Id, d: Digest, ino: nat, seen: Bytes, c: Choice): (Files, Op) {
    if Upload(id) !in f.dir || c.Fail? || c.Part? then Fail(f)
    else
      var moved := f.dir[Upload(id)];
      var f' := f.(dir := (f.dir - {Upload(id)})[Blob(d) := moved],
                   published := f.published[moved := Publication(d, ino, seen)]);
      (f', Finished(if c.Ok? then Stored(d) else Failed(StorageFail)))
  }

  function Step(hash: Hashing, f: Files, op: Op, c: Choice): (Files, Op) {
    match op
    case UploadOpen(id, body) => if c.Ok? then OpenUpload(f, id, body) else Fail(f)
    case UploadCopy(id, ino, rest) => Append(f, id, ino, rest, c)
    case UploadStat(id) =>
      if c.Ok? && Upload(id) in f.dir then (f, Finished(Uploaded(|Read(f, f.dir[Upload(id)])|))) else Fail(f)
    case CommitOpen(id, d) =>
      if c.Ok? && Upload(id) in f.dir then (f, CommitVerify(id, d, f.dir[Upload(id)])) else Fail(f)
    case CommitVerify(id, d, ino) =>
      if !c.Ok? then Fail(f)
      else if !hash.Fits(d, Read(f, ino)) then (f, Finished(Failed(NotVerified)))
      else (f, CommitStat(id, d, ino, Read(f, ino)))
    case CommitStat(id, d, ino, seen) =>
      (f, if c.Ok? && Blob(d) in f.dir then CommitRemove(id, d) else CommitRename(id, d, ino, seen))
    case CommitRemove(id, d) =>
      (if c.Ok? || c.FailApplied? then f.(dir := f.dir - {Upload(id)}) else f, Finished(Stored(d)))
    case CommitRename(id, d, ino, seen) => Rename(f, id, d, ino, seen, c)
    case SaveStat(d, data) =>
      (f, if c.Ok? && Blob(d) in f.dir then Finished(Stored(d)) else SaveOpen(d, data))
    case SaveOpen(d, data) =>
      if c.Ok? || c.FailApplied? then OpenSave(f, d, data, c.FailApplied?) else Fail(f)
    case SaveWrite(_, _, _, _, _) => WriteSave(f, op, c)
    case Finished(_) => (f, op)
  }

  function Target(op: Op): Option<Digest> {
    match op
    case CommitOpen(_, d) => Some(d)
    case CommitVerify(_, d, _) => Some(d)
    case CommitStat(_, d, _, _) => Some(d)
    case CommitRemove(_, d) => Some(d)
    case CommitRename(_, d, _, _) => Some(d)
    case SaveStat(d, _) => Some(d)
    case SaveOpen(d, _) => Some(d)
    case SaveWrite(d, _, _, _, _) => Some(d)
    case Finished(Stored(d)) => Some(d)
    case _ => None
  }

  predicate Present(f: Files, d: Digest) { Blob(d) in f.dir }

  /** The blob of an operation that will report success whatever happens next is already there. */
  predicate Good(f: Files, op: Op) {
    match op
    case CommitRemove(_, d) => Present(f, d)
    case SaveWrite(d, _, _, _, _) => Present(f, d)
    case Finished(Stored(d)) => Present(f, d)
    case _ => true
  }

  /** Blob names are never taken away, by any operation of any request. */
  lemma StepPresence(hash: Hashing, f: Files, op: Op, c: Choice)
    requires Good(f, op)
    ensures var (f', op') := Step(hash, f, op, c);
            && (forall d | Present(f, d) :: Present(f', d))
            && Good(f', op')
            && ((op'.Finished? && !op'.r.Stored?) || Target(op') == Target(op))
  {
  }

  function RunAlone(hash: Hashing, x: (Files, Op), cs: seq<Choice>): (Files, Op)
    decreases |cs|
  {
    if cs == [] then x else RunAlone(hash, Step(hash, x.0, x.1, cs[0]), cs[1..])
  }

  // One more system call.
  function Then(hash: Hashing, x: (Files, Op), c: Choice): (Files, Op) {
    Step(hash, x.0, x.1, c)
  }

  lemma Unroll(hash: Hashing, x: (Files, Op), c0: Choice, c1: Choice, c2: Choice, c3: Choice)
    ensures RunAlone(hash, x, [c0, c1, c2, c3]) == Then(hash, Then(hash, Then(hash, Then(hash, x, c0), c1), c2), c3)
  {
    var x1 := Then(hash, x, c0);
    var x2 := Then(hash, x1, c1);
    var x3 := Then(hash, x2, c2);
    assert [c0, c1, c2, c3][1..] == [c1, c2, c3] && [c1, c2, c3][1..] == [c2, c3] && [c2, c3][1..] == [c3];
    assert RunAlone(hash, x3, [c3]) == Then(hash, x3, c3);
    assert RunAlone(hash, x2, [c2, c3]) == RunAlone(hash, x3, [c3]);
    assert RunAlone(hash, x1, [c1, c2, c3]) == RunAlone(hash, x2, [c2, c3]);
  }

  // How many bytes of a body one copy or write gets into a file.
  function Copied(body: Bytes, c: Choice): (n: nat)
    ensures n <= |body|
    ensures n == if c.Ok? || c.FailApplied? then |body| else if c.Fail? then 0 else if c.n < |body| then c.n else |body|
  {
    if c.Ok? || c.FailApplied? then |body| else if c.Fail? then 0 else if c.n < |body| then c.n else |body|
  }

  lemma FirstWrite(f: Files, op: Op, c: Choice)
    requires op.SaveWrite?
    ensures op.off == 0 && Read(f, op.ino) == [] ==> Read(WriteSave(f, op, c).0, op.ino) == op.data[..Copied(op.data, c)]
  {
    if op.off == 0 && Read(f, op.ino) == [] {
      var n := WriteCount(op.data, 0, c);
      assert n == Copied(op.data, c) && op.data[0..n] == op.data[..n];
      assert WriteAt([], 0, op.data[..n]) == op.data[..n];
    }
  }

  // The blob's file, which is new unless it was there, now holds the first n bytes of data, and nothing else changed.
  ghost predicate Wrote(f: Files, f': Files, d: Digest, data: Bytes, n: nat) {
    var ino := if Blob(d) in f.dir then f.dir[Blob(d)] else f.next;
    && n <= |data| && f'.dir == f.dir[Blob(d) := ino] && Read(f', ino) == data[..n]
    && forall i | i != ino :: Read(f', i) == Read(f, i)
  }

  /** The backend's operations, each running alone; the choices say how its system calls end. A short write
      (Part) is followed by a failure, as os.WriteFile and io.Copy report it. */
  class Disk {
    var files: Files

    // io.Copy to the open session file: a short write is an error.
    method CopyBytes(ghost hash: Hashing, id: Id, ino: nat, body: Bytes, copy: Choice)
      modifies this
      ensures var x := Then(hash, (old(files), UploadCopy(id, ino, body)), copy);
              (files, if copy.Ok? then UploadStat(id) else Finished(Failed(StorageFail)))
              == if copy.Part? then Then(hash, x, Choice.Fail) else x
      ensures files.dir == old(files).dir
      ensures Read(old(files), ino) <= Read(files, ino) <= Read(old(files), ino) + body
      ensures Read(files, ino) == Read(old(files), ino) + body[..Copied(body, copy)]
      ensures forall i | i != ino :: Read(files, i) == Read(old(files), i)
    {
      var copied := Append(files, id, ino, body, copy);
      files := copied.0;
      if copy.Part? {
        copied := Append(files, id, ino, copied.1.rest, Choice.Fail);
        files := copied.0;
        assert Read(files, ino) + [] == Read(files, ino);
      }
    }

    /** Appends to the session file: whatever happens, the file is its old content plus a prefix of the body. */
    method UploadBlob(ghost hash: Hashing, id: Id, body: Bytes, open: Choice, copy: Choice, stat: Choice)
      returns (r: Result)
      modifies this
      ensures RunAlone(hash, (old(files), UploadOpen(id, body)), [open, copy, if copy.Part? then Choice.Fail else stat, stat])
              == (files, Finished(r))
      ensures var before := if Upload(id) in old(files).dir then Read(old(files), old(files).dir[Upload(id)]) else [];
              && (open.Ok? ==>
                    && Upload(id) in files.dir
                    && before <= Read(files, files.dir[Upload(id)]) <= before + body)
              && (r.Uploaded? ==> open.Ok? && Read(files, files.dir[Upload(id)]) == before + body && r.size == |before + body|)
      ensures r.Uploaded? <==> open.Ok? && copy.Ok? && stat.Ok?
      ensures !r.Uploaded? ==> r == Failed(StorageFail)
      ensures !open.Ok? ==> files == old(files)
      ensures open.Ok? ==>
                var ino := if Upload(id) in old(files).dir then old(files).dir[Upload(id)] else old(files).next;
                var before := if Upload(id) in old(files).dir then Read(old(files), ino) else [];
                && files.dir == old(files).dir[Upload(id) := ino]
                && Read(files, ino) == before + body[..Copied(body, copy)]
                && forall i | i != ino :: Read(files, i) == Read(old(files), i)
    {
      Unroll(hash, (files, UploadOpen(id, body)), open, copy, if copy.Part? then Choice.Fail else stat, stat);
      if !open.Ok? {
        return Failed(StorageFail);
      }
      var ino;
      files, ino := Create(files, Upload(id)).0, Create(files, Upload(id)).1;
      CopyBytes(hash, id, ino, body, copy);
      if !copy.Ok? || !stat.Ok? {
        return Failed(StorageFail);
      }
      r := Uploaded(|Read(files, ino)|);
    }

    /** Verifies the session file, then drops it if the blob exists or renames it into place. */
    method CommitBlob(hash: Hashing, id: Id, d: Digest, open: Choice, verify: Choice, stat: Choice, move: Choice)
      returns (r: Result)
      modifies this
      ensures RunAlone(hash, (old(files), CommitOpen(id, d)), [open, verify, stat, move]) == (files, Finished(r))
      ensures files.data == old(files).data
      ensures var found := open.Ok? && Upload(id) in old(files).dir && verify.Ok?;
              var right := found && hash.Fits(d, Read(old(files), old(files).dir[Upload(id)]));
              var there := stat.Ok? && Blob(d) in old(files).dir;
              && r == (if found && !right then Failed(NotVerified)
                       else if right && (there || move.Ok?) then Stored(d) else Failed(StorageFail))
              && files.dir == (if !right || !(move.Ok? || move.FailApplied?) then old(files).dir
                               else if there then old(files).dir - {Upload(id)}
                               else (old(files).dir - {Upload(id)})[Blob(d) := old(files).dir[Upload(id)]])
      ensures r == Failed(NotVerified) <==>
              && open.Ok? && Upload(id) in old(files).dir && verify.Ok?
              && !hash.Fits(d, Read(old(files), old(files).dir[Upload(id)]))
      ensures r.Stored? ==>
              && Upload(id) in old(files).dir && Present(files, d)
              && files.dir[Blob(d)] == (if stat.Ok? && Present(old(files), d) then old(files).dir[Blob(d)]
                                        else old(files).dir[Upload(id)])
    {
      Unroll(hash, (files, CommitOpen(id, d)), open, verify, stat, move);
      if !open.Ok? || Upload(id) !in files.dir || !verify.Ok? {
        return Failed(StorageFail);
      }
      var ino := files.dir[Upload(id)];
      if !hash.Fits(d, Read(files, ino)) {
        return Failed(NotVerified);
      }
      if stat.Ok? && Blob(d) in files.dir {
        if move.Ok? || move.FailApplied? {
          files := files.(dir := files.dir - {Upload(id)});
        }
        return Stored(d);
      }
      if move.Fail? || move.Part? {
        return Failed(StorageFail);
      }
      files := files.(dir := (files.dir - {Upload(id)})[Blob(d) := ino],
                      published := files.published[ino := Publication(d, ino, Read(files, ino))]);
      r := if move.Ok? then Stored(d) else Failed(StorageFail);
    }

    // The writing part of os.WriteFile: a short write is an error.
    method WriteBytes(ghost hash: Hashing, op: Op, write: Choice) returns (r: Result)
      requires op.SaveWrite?
      modifies this
      ensures Then(hash, Then(hash, (old(files), op), write), Choice.Fail) == (files, Finished(r))
      ensures files.dir == old(files).dir && (r.Stored? ==> r.d == op.d)
      ensures op.off == 0 && Read(old(files), op.ino) == [] ==> Read(files, op.ino) == op.data[..Copied(op.data, write)]
      ensures r == if write.Ok? then Stored(op.d) else Failed(StorageFail)
      ensures forall i | i != op.ino :: Read(files, i) == Read(old(files), i)
    {
      FirstWrite(files, op, write);
      var written := WriteSave(files, op, write);
      files := written.0;
      if write.Part? {
        written := WriteSave(files, written.1, Choice.Fail);
        files := written.0;
      }
      r := written.1.r;
    }

    method WriteFile(ghost hash: Hashing, d: Digest, data: Bytes, open: Choice, write: Choice) returns (r: Result)
      requires open.Ok? || open.FailApplied?
      modifies this
      ensures Then(hash, Then(hash, Then(hash, (old(files), SaveOpen(d, data)), open), write), Choice.Fail)
              == (files, Finished(r))
      ensures Wrote(old(files), files, d, data, if open.Ok? then Copied(data, write) else 0)
      ensures r == if open.Ok? && write.Ok? then Stored(d) else Failed(StorageFail)
    {
      var begun := OpenSave(files, d, data, open.FailApplied?);
      files := begun.0;
      if open.FailApplied? {
        return Failed(StorageFail);
      }
      r := WriteBytes(hash, begun.1, write);
    }

    /** Writes the bytes unless a blob of that name exists; a failed write may leave part of them under the name. */
    method SaveBlob(ghost hash: Hashing, d: Digest, data: Bytes, stat: Choice, open: Choice, write: Choice)
      returns (r: Result)
      modifies this
      ensures RunAlone(hash, (old(files), SaveStat(d, data)), [stat, open, write, Choice.Fail]) == (files, Finished(r))
      ensures r.Stored? ==> Present(files, d)
      ensures r.Stored? && !(stat.Ok? && Present(old(files), d)) ==> Read(files, files.dir[Blob(d)]) == data
      ensures var there, began := stat.Ok? && Blob(d) in old(files).dir, open.Ok? || open.FailApplied?;
              && r == (if there || (open.Ok? && write.Ok?) then Stored(d) else Failed(StorageFail))
              && (there || !began ==> files == old(files))
              && (!there && began ==> Wrote(old(files), files, d, data, if open.Ok? then Copied(data, write) else 0))
    {
      Unroll(hash, (files, SaveStat(d, data)), stat, open, write, Choice.Fail);
      if stat.Ok? && Blob(d) in files.dir {
        return Stored(d);
      }
      if !open.Ok? && !open.FailApplied? {
        return Failed(StorageFail);
      }
      r := WriteFile(hash, d, data, open, write);
    }
  }

}
