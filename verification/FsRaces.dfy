/**
 * What the filesystem backend's blobs hold, over every interleaving of system calls of any number of uploads,
 * commits and saves (ctf-registry/storage/filesystem/filesystem.go).
 */
module FsRaces {
  import opened Common
  import opened StorageApi
  import opened FsStorage

  datatype State = State(files: Files, ops: map<nat, Op>)

  datatype Action =
    | StartUpload(p: nat, id: Id, body: Bytes)
    | StartCommit(p: nat, id: Id, d: Digest)
    | StartSave(p: nat, data: Bytes)
    | Go(p: nat, c: Choice)

  const EMPTY := State(NO_FILES, map[])

  function Start(st: State, p: nat, op: Op): State {
    if p in st.ops then st else st.(ops := st.ops[p := op])
  }

  function Next(hash: Hashing, st: State, a: Action): State {
    match a
    case StartUpload(p, id, body) => Start(st, p, UploadOpen(id, body))
    case StartCommit(p, id, d) => Start(st, p, CommitOpen(id, d))
    case StartSave(p, data) => Start(st, p, SaveStat(hash.of(data), data))
    case Go(p, c) =>
      if p !in st.ops then st
      else
        var (f, op) := Step(hash, st.files, st.ops[p], c);
        State(f, st.ops[p := op])
  }

  function Exec(hash: Hashing, st: State, acts: seq<Action>): State {
    if acts == [] then st else Next(hash, Exec(hash, st, acts[..|acts| - 1]), acts[|acts| - 1])
  }

  /** The content is what writes at the covered positions leave of the source, with zeros in the gaps. */
  ghost predicate Overlay(content: Bytes, source: Bytes, covered: set<nat>) {
    && |content| <= |source|
    && (forall i | i in covered :: i < |content| && content[i] == source[i])
    && (forall i: nat | i < |content| && i !in covered :: content[i] == 0)
    && (content != [] ==> |content| - 1 in covered)
  }

  /** Writes at these positions are enough: the last byte is among them and every other one left out is zero. */
  ghost predicate Complete(source: Bytes, covered: set<nat>) {
    && (source != [] ==> |source| - 1 in covered)
    && (forall i: nat | i < |source| && i !in covered :: source[i] == 0)
  }

  lemma OverlayExact(content: Bytes, source: Bytes, covered: set<nat>)
    requires Overlay(content, source, covered)
    ensures content == source <==> Complete(source, covered)
  {
    if Complete(source, covered) {
      assert |content| == |source|;
      forall i: nat | i < |source| ensures content[i] == source[i] {
        assert i !in covered ==> content[i] == 0;
      }
    }
  }

  /** Writing the first n bytes is enough exactly when they are all of them. */
  lemma PrefixComplete(source: Bytes, covered: set<nat>, n: nat)
    requires n <= |source| && forall i: nat :: i in covered <==> i < n
    ensures Complete(source, covered) <==> n == |source|
  {
  }

  ghost predicate DirOk(f: Files) {
    && (forall n | n in f.dir :: f.dir[n] < f.next)
    && (forall m, n | m in f.dir && n in f.dir && m != n :: f.dir[m] != f.dir[n])
    && (forall i | i in f.cuts :: i < f.next && f.cuts[i].call < f.stamp)
    && (forall i | i in f.published :: i < f.next)
    && (forall id | Upload(id) in f.dir :: f.dir[Upload(id)] !in f.cuts)
    && (forall k | k in f.saved :: k < f.stamp)
  }

  /** A blob's file was truncated by a save of its digest, or renamed by a commit to it. */
  ghost predicate NameOk(hash: Hashing, f: Files, d: Digest) {
    Blob(d) in f.dir ==>
      var ino := f.dir[Blob(d)];
      if ino in f.cuts then hash.Fits(d, f.cuts[ino].source)
      else ino in f.published && f.published[ino].d == d
  }

  /** A truncated file's content, given how far each save call has come: the overlay of what was written since,
      all of it if the call that truncated it wrote everything, and just that call's bytes if no other wrote. */
  ghost predicate CutGood(content: Bytes, cut: Cut, saved: set<nat>, progress: map<nat, nat>) {
    && (!cut.foreign ==> Overlay(content, cut.source, cut.covered))
    && (cut.call in saved ==> forall i: nat | i < |cut.source| :: i in cut.covered)
    && (cut.writers <= {cut.call} ==>
          && cut.call in progress && progress[cut.call] <= |cut.source|
          && forall i: nat :: i in cut.covered <==> i < progress[cut.call])
  }

  ghost predicate CutOk(f: Files, ino: nat) {
    ino in f.cuts ==> CutGood(Read(f, ino), f.cuts[ino], f.saved, f.progress)
  }

  ghost predicate PubOk(hash: Hashing, f: Files, ino: nat) {
    ino in f.published ==>
      var pub := f.published[ino];
      hash.Fits(pub.d, pub.seen) && (ino !in f.cuts && pub.from == ino ==> pub.seen <= Read(f, ino))
  }

  ghost predicate WorldOk(hash: Hashing, f: Files) {
    && DirOk(f)
    && (forall d :: NameOk(hash, f, d))
    && (forall ino :: CutOk(f, ino))
    && (forall ino :: PubOk(hash, f, ino))
  }

  ghost predicate OpOk(hash: Hashing, f: Files, op: Op) {
    match op
    case UploadCopy(_, ino, _) => ino < f.next
    case CommitVerify(_, _, ino) => ino < f.next
    case CommitStat(_, d, ino, seen) => ino < f.next && hash.Fits(d, seen) && (ino !in f.cuts ==> seen <= Read(f, ino))
    case CommitRename(_, d, ino, seen) => ino < f.next && hash.Fits(d, seen) && (ino !in f.cuts ==> seen <= Read(f, ino))
    case SaveStat(d, data) => hash.Fits(d, data)
    case SaveOpen(d, data) => hash.Fits(d, data)
    case SaveWrite(d, data, ino, off, call) =>
      && hash.Fits(d, data) && off <= |data| && call < f.stamp
      && call in f.progress && f.progress[call] == off
      && ino in f.cuts && f.cuts[ino].source == data
      && (forall i | i in f.cuts && f.cuts[i].call == call :: i == ino)
      && (f.cuts[ino].call == call ==> forall i: nat | i < off :: i in f.cuts[ino].covered)
    case _ => true
  }

  // Saves in flight have different numbers.
  predicate Apart(a: Op, b: Op) { a.SaveWrite? && b.SaveWrite? ==> a.call != b.call }

  ghost predicate Inv(hash: Hashing, st: State) {
    && WorldOk(hash, st.files)
    && (forall p | p in st.ops :: OpOk(hash, st.files, st.ops[p]))
    && (forall p, q | p in st.ops && q in st.ops && p != q :: Apart(st.ops[p], st.ops[q]))
  }

  /** What a step leaves alone; `op` is the operation that takes it. */
  ghost predicate Evolves(f: Files, f': Files, op: Op) {
    && f.next <= f'.next && f.stamp <= f'.stamp
    && (forall i | i in f.cuts ::
          && i in f'.cuts && f'.cuts[i].source == f.cuts[i].source
          && (if f'.cuts[i].call == f.cuts[i].call then f.cuts[i].covered <= f'.cuts[i].covered else f'.cuts[i].call >= f.stamp))
    && (forall i | i in f'.cuts && i !in f.cuts :: f'.cuts[i].call >= f.stamp)
    && (forall i: nat | i < f.next && i !in f'.cuts :: Read(f, i) <= Read(f', i))
    && (forall k | k in f.progress && k < f.stamp && !(op.SaveWrite? && op.call == k) ::
          k in f'.progress && f'.progress[k] == f.progress[k])
  }

  lemma OtherOk(hash: Hashing, f: Files, f': Files, op: Op, op': Op, o: Op)
    requires OpOk(hash, f, o) && Evolves(f, f', op) && Apart(op, o)
    requires op'.SaveWrite? ==> (op.SaveWrite? && op'.call == op.call) || op'.call == f.stamp
    ensures OpOk(hash, f', o) && Apart(op', o)
  {
  }

  // A change that touches only fields the facts about truncations and commits do not read.
  lemma SameHistory(hash: Hashing, f: Files, f': Files)
    requires WorldOk(hash, f) && DirOk(f')
    requires f'.cuts == f.cuts && f'.published == f.published && f'.saved == f.saved && f'.progress == f.progress
    requires forall i: nat | i < f.next :: Read(f', i) == Read(f, i)
    requires forall d | Blob(d) in f'.dir :: Blob(d) in f.dir && f'.dir[Blob(d)] == f.dir[Blob(d)]
    ensures WorldOk(hash, f')
  {
    forall d: Digest ensures NameOk(hash, f', d) { assert NameOk(hash, f, d); }
    forall i: nat ensures CutOk(f', i) { assert CutOk(f, i); }
    forall i: nat ensures PubOk(hash, f', i) { assert PubOk(hash, f, i); }
  }

  lemma CreateDir(f: Files, name: Name)
    requires DirOk(f)
    ensures var (f', ino) := Create(f, name);
            && DirOk(f') && ino < f'.next && name in f'.dir && f'.dir[name] == ino
            && forall i: nat | i < f.next :: Read(f', i) == Read(f, i)
  {
  }

  lemma CreateOk(hash: Hashing, f: Files, id: Id)
    requires WorldOk(hash, f)
    ensures var (f', ino) := Create(f, Upload(id));
            WorldOk(hash, f') && ino < f'.next && Evolves(f, f', UploadOpen(id, []))
  {
    CreateDir(f, Upload(id));
    SameHistory(hash, f, Create(f, Upload(id)).0);
  }

  // What an append does, without its bytes: it may lengthen one file, and marks its truncation if it does.
  ghost predicate Appended(f: Files, f': Files, ino: nat) {
    && f'.dir == f.dir && f'.next == f.next && f'.published == f.published && f'.stamp == f.stamp
    && f'.progress == f.progress && f'.saved == f.saved && f'.cuts.Keys == f.cuts.Keys
    && (forall i: nat | i != ino :: Read(f', i) == Read(f, i))
    && Read(f, ino) <= Read(f', ino)
    && (forall i | i in f.cuts :: f'.cuts[i] == f.cuts[i] || f'.cuts[i] == f.cuts[i].(foreign := true))
    && (ino in f.cuts && !f'.cuts[ino].foreign ==> Read(f', ino) == Read(f, ino))
  }

  lemma AppendWorld(hash: Hashing, f: Files, f': Files, ino: nat)
    requires WorldOk(hash, f) && Appended(f, f', ino)
    ensures WorldOk(hash, f')
  {
    forall d: Digest ensures NameOk(hash, f', d) { assert NameOk(hash, f, d); }
    forall i: nat ensures CutOk(f', i) { assert CutOk(f, i); }
    forall i: nat ensures PubOk(hash, f', i) { assert PubOk(hash, f, i); }
  }

  lemma AppendOk(hash: Hashing, f: Files, op: Op, c: Choice)
    requires WorldOk(hash, f) && OpOk(hash, f, op) && op.UploadCopy?
    ensures var (f', op') := Append(f, op.id, op.ino, op.rest, c);
            WorldOk(hash, f') && OpOk(hash, f', op') && Evolves(f, f', op)
  {
    AppendWorld(hash, f, Append(f, op.id, op.ino, op.rest, c).0, op.ino);
  }

  lemma RemoveOk(hash: Hashing, f: Files, id: Id, op: Op)
    requires WorldOk(hash, f)
    ensures var f' := f.(dir := f.dir - {Upload(id)}); WorldOk(hash, f') && Evolves(f, f', op)
  {
    var f' := f.(dir := f.dir - {Upload(id)});
    forall d: Digest ensures NameOk(hash, f', d) { assert NameOk(hash, f, d); }
    forall i: nat ensures CutOk(f', i) { assert CutOk(f, i); }
    forall i: nat ensures PubOk(hash, f', i) { assert PubOk(hash, f, i); }
  }

  lemma RenameOk(hash: Hashing, f: Files, op: Op, c: Choice)
    requires WorldOk(hash, f) && OpOk(hash, f, op) && op.CommitRename?
    ensures var (f', op') := Rename(f, op.id, op.d, op.ino, op.seen, c);
            WorldOk(hash, f') && Evolves(f, f', op)
  {
    var (f', op') := Rename(f, op.id, op.d, op.ino, op.seen, c);
    forall d: Digest ensures NameOk(hash, f', d) { assert NameOk(hash, f, d); }
    forall i: nat ensures CutOk(f', i) { assert CutOk(f, i); }
    forall i: nat ensures PubOk(hash, f', i) { assert PubOk(hash, f, i); }
  }

  // The world without knowing what the digest's own name leads to.
  ghost predicate WorldBut(hash: Hashing, f: Files, d: Digest) {
    && DirOk(f)
    && (forall e | e != d :: NameOk(hash, f, e))
    && (forall ino :: CutOk(f, ino))
    && (forall ino :: PubOk(hash, f, ino))
  }

  lemma CreateSaveOk(hash: Hashing, f: Files, op: Op)
    requires WorldOk(hash, f) && op.SaveOpen?
    ensures var (g, ino) := Create(f, Blob(op.d));
            && WorldBut(hash, g, op.d) && Blob(op.d) in g.dir && g.dir[Blob(op.d)] == ino && Evolves(f, g, op)
            && (ino in g.cuts ==> hash.Fits(op.d, g.cuts[ino].source)) && g.stamp == f.stamp
  {
    var (g, ino) := Create(f, Blob(op.d));
    assert NameOk(hash, f, op.d);
    CreateDir(f, Blob(op.d));
    forall e: Digest | e != op.d ensures NameOk(hash, g, e) { assert NameOk(hash, f, e); }
    forall i: nat ensures CutOk(g, i) { assert CutOk(f, i); }
    forall i: nat ensures PubOk(hash, g, i) { assert PubOk(hash, f, i); }
  }

  lemma TruncateWorld(hash: Hashing, f: Files, op: Op)
    requires op.SaveOpen? && hash.Fits(op.d, op.data) && WorldBut(hash, f, op.d) && Blob(op.d) in f.dir
    ensures WorldOk(hash, Truncate(f, f.dir[Blob(op.d)], op.data))
  {
    var ino := f.dir[Blob(op.d)];
    var f' := Truncate(f, ino, op.data);
    assert Read(f', ino) == [] && forall i: nat | i != ino :: Read(f', i) == Read(f, i);
    forall e: Digest ensures NameOk(hash, f', e) { assert e != op.d ==> NameOk(hash, f, e); }
    forall i: nat ensures CutOk(f', i) { assert CutOk(f, i); }
    forall i: nat ensures PubOk(hash, f', i) { assert PubOk(hash, f, i); }
  }

  lemma TruncateOk(hash: Hashing, f: Files, op: Op)
    requires Injective(hash) && op.SaveOpen? && hash.Fits(op.d, op.data) && DirOk(f) && Blob(op.d) in f.dir
    requires f.dir[Blob(op.d)] in f.cuts ==> hash.Fits(op.d, f.cuts[f.dir[Blob(op.d)]].source)
    ensures var ino := f.dir[Blob(op.d)];
            var f' := Truncate(f, ino, op.data);
            OpOk(hash, f', SaveWrite(op.d, op.data, ino, 0, f.stamp)) && Evolves(f, f', op)
  {
    var ino := f.dir[Blob(op.d)];
    var f' := Truncate(f, ino, op.data);
    assert forall i: nat | i != ino :: Read(f', i) == Read(f, i);
  }

  lemma EvolvesTwice(f: Files, g: Files, h: Files, op: Op)
    requires DirOk(f) && Evolves(f, g, op) && Evolves(g, h, op)
    ensures Evolves(f, h, op)
  {
  }

  lemma Abandoning(hash: Hashing, f: Files, g: Files, calls: set<nat>, op: Op)
    requires WorldOk(hash, g) && Evolves(f, g, op)
    ensures WorldOk(hash, g.(abandoned := calls)) && Evolves(f, g.(abandoned := calls), op)
  {
    var h := g.(abandoned := calls);
    forall d: Digest ensures NameOk(hash, h, d) { assert NameOk(hash, g, d); }
    forall i: nat ensures CutOk(h, i) { assert CutOk(g, i); }
    forall i: nat ensures PubOk(hash, h, i) { assert PubOk(hash, g, i); }
  }

  lemma OpenSaveOk(hash: Hashing, f: Files, op: Op, failed: bool)
    requires Injective(hash) && WorldOk(hash, f) && OpOk(hash, f, op) && op.SaveOpen?
    ensures var (f', op') := OpenSave(f, op.d, op.data, failed);
            WorldOk(hash, f') && OpOk(hash, f', op') && Evolves(f, f', op) && (op'.SaveWrite? ==> op'.call == f.stamp)
  {
    var (g, ino) := Create(f, Blob(op.d));
    var h := Truncate(g, ino, op.data);
    CreateSaveOk(hash, f, op);
    TruncateWorld(hash, g, op);
    TruncateOk(hash, g, op);
    EvolvesTwice(f, g, h, op);
    if failed {
      Abandoning(hash, f, h, g.abandoned + {g.stamp}, op);
    }
  }

  lemma CoveredIs(cut: Cut, op: Op, n: nat)
    requires op.SaveWrite?
    ensures forall i: nat :: i in Covered(cut, op, n).covered <==> i in cut.covered || op.off <= i < op.off + n
  {
  }

  lemma WrittenCut(content: Bytes, after: Bytes, cut: Cut, cut': Cut, op: Op, n: nat, saved: set<nat>,
                   progress: map<nat, nat>, done: bool)
    requires CutGood(content, cut, saved, progress) && op.SaveWrite? && cut.source == op.data && n > 0
    requires cut' == cut.(covered := cut'.covered, writers := cut.writers + {op.call})
    requires forall i: nat :: i in cut'.covered <==> i in cut.covered || op.off <= i < op.off + n
    requires !cut.foreign ==> Overlay(after, cut'.source, cut'.covered)
    requires op.off + n <= |op.data| && (done ==> op.off + n == |op.data|)
    requires op.call in progress && progress[op.call] == op.off
    requires cut.call == op.call ==> forall i: nat | i < op.off :: i in cut.covered
    ensures CutGood(after, cut', if done then saved + {op.call} else saved, progress[op.call := op.off + n])
    ensures cut'.call == op.call ==> forall i: nat | i < op.off + n :: i in cut'.covered
  {
    if cut'.writers <= {cut'.call} {
      assert op.call in cut'.writers;
      assert cut.writers <= {cut.call};
    }
  }

  // A write that gets no bytes in.
  lemma UnwrittenCut(content: Bytes, cut: Cut, op: Op, saved: set<nat>, progress: map<nat, nat>, done: bool)
    requires CutGood(content, cut, saved, progress) && op.SaveWrite? && cut.source == op.data
    requires op.off <= |op.data| && (done ==> op.off == |op.data|)
    requires op.call in progress && progress[op.call] == op.off
    requires cut.call == op.call ==> forall i: nat | i < op.off :: i in cut.covered
    ensures CutGood(content, cut, if done then saved + {op.call} else saved, progress[op.call := op.off])
  {
    assert progress[op.call := op.off] == progress;
  }

  // What a write of data[off..end] leaves, byte by byte.
  ghost predicate WrittenOver(before: Bytes, after: Bytes, data: Bytes, off: nat, end: nat) {
    && off <= end <= |data| && |after| == (if |before| > end then |before| else end)
    && forall i: nat | i < |after| :: after[i] == if off <= i < end then data[i] else if i < |before| then before[i] else 0
  }

  lemma WrittenBytes(before: Bytes, data: Bytes, off: nat, n: nat)
    requires n > 0 && off + n <= |data|
    ensures WrittenOver(before, WriteAt(before, off, data[off..off + n]), data, off, off + n)
  {
    var piece := data[off..off + n];
    forall i: nat | i < |WriteAt(before, off, piece)|
      ensures WriteAt(before, off, piece)[i]
              == if off <= i < off + n then data[i] else if i < |before| then before[i] else 0
    {
    }
  }

  // What a write of n bytes does to its own file and its history.
  ghost predicate Wrote(f: Files, f': Files, op: Op, n: nat, done: bool)
    requires op.SaveWrite? && op.ino in f.cuts
  {
    && op.ino in f'.cuts
    && (if n > 0 then WrittenOver(Read(f, op.ino), Read(f', op.ino), op.data, op.off, op.off + n)
        else Read(f', op.ino) == Read(f, op.ino))
    && f'.cuts[op.ino] == (if n > 0 then Covered(f.cuts[op.ino], op, n) else f.cuts[op.ino])
    && f'.saved == (if done then f.saved + {op.call} else f.saved)
    && f'.progress == f.progress[op.call := op.off + n]
  }

  lemma WriteFields(f: Files, op: Op, c: Choice, n: nat)
    requires op.SaveWrite? && op.off <= |op.data| && op.ino in f.cuts && n == WriteCount(op.data, op.off, c)
    ensures var f' := WriteSave(f, op, c).0;
            && op.ino in f'.cuts
            && Read(f', op.ino) == WriteAt(Read(f, op.ino), op.off, op.data[op.off..op.off + n])
            && f'.cuts[op.ino] == (if n > 0 then Covered(f.cuts[op.ino], op, n) else f.cuts[op.ino])
            && f'.saved == (if c.Ok? then f.saved + {op.call} else f.saved)
            && f'.progress == f.progress[op.call := op.off + n]
  {
  }

  lemma WriteShape(f: Files, f': Files, op: Op, n: nat, done: bool)
    requires op.SaveWrite? && op.off + n <= |op.data| && op.ino in f.cuts && op.ino in f'.cuts
    requires Read(f', op.ino) == WriteAt(Read(f, op.ino), op.off, op.data[op.off..op.off + n])
    requires f'.cuts[op.ino] == (if n > 0 then Covered(f.cuts[op.ino], op, n) else f.cuts[op.ino])
    requires f'.saved == (if done then f.saved + {op.call} else f.saved)
    requires f'.progress == f.progress[op.call := op.off + n]
    ensures Wrote(f, f', op, n, done)
  {
    if n > 0 {
      WrittenBytes(Read(f, op.ino), op.data, op.off, n);
    }
  }

  lemma WrittenGlue(hash: Hashing, f: Files, f': Files, op: Op, n: nat, done: bool)
    requires op.SaveWrite? && CutOk(f, op.ino) && OpOk(hash, f, op)
    requires op.off + n <= |op.data| && (done ==> op.off + n == |op.data|) && Wrote(f, f', op, n, done)
    ensures CutOk(f', op.ino)
    ensures f'.cuts[op.ino].call == op.call ==> forall i: nat | i < op.off + n :: i in f'.cuts[op.ino].covered
  {
    var before, after, cut := Read(f, op.ino), Read(f', op.ino), f.cuts[op.ino];
    if n > 0 {
      CoveredIs(cut, op, n);
      if !cut.foreign {
        WrittenContent(before, after, cut, op, n);
      }
      WrittenCut(before, after, cut, f'.cuts[op.ino], op, n, f.saved, f.progress, done);
    } else {
      UnwrittenCut(before, cut, op, f.saved, f.progress, done);
    }
  }

  lemma WrittenContent(content: Bytes, after: Bytes, cut: Cut, op: Op, n: nat)
    requires op.SaveWrite? && n > 0 && op.off + n <= |op.data| && cut.source == op.data
    requires Overlay(content, op.data, cut.covered) && WrittenOver(content, after, op.data, op.off, op.off + n)
    ensures Overlay(after, op.data, Covered(cut, op, n).covered)
  {
    CoveredIs(cut, op, n);
  }

  lemma WrittenCutOk(hash: Hashing, f: Files, op: Op, c: Choice)
    requires op.SaveWrite? && CutOk(f, op.ino) && OpOk(hash, f, op)
    ensures var f' := WriteSave(f, op, c).0;
            var end := op.off + WriteCount(op.data, op.off, c);
            && CutOk(f', op.ino)
            && (f'.cuts[op.ino].call == op.call ==> forall i: nat | i < end :: i in f'.cuts[op.ino].covered)
  {
    var n := WriteCount(op.data, op.off, c);
    WriteFields(f, op, c, n);
    WriteShape(f, WriteSave(f, op, c).0, op, n, c.Ok?);
    WrittenGlue(hash, f, WriteSave(f, op, c).0, op, n, c.Ok?);
  }

  // A write changes no other file and no other truncation.
  lemma WriteElsewhere(f: Files, op: Op, c: Choice, i: nat)
    requires op.SaveWrite? && op.ino in f.cuts && i != op.ino && CutOk(f, i)
    requires i in f.cuts ==> f.cuts[i].call != op.call
    ensures Read(WriteSave(f, op, c).0, i) == Read(f, i) && CutOk(WriteSave(f, op, c).0, i)
  {
  }

  lemma WriteSaveWorld(hash: Hashing, f: Files, op: Op, c: Choice)
    requires WorldOk(hash, f) && OpOk(hash, f, op) && op.SaveWrite?
    ensures WorldOk(hash, WriteSave(f, op, c).0)
  {
    var f' := WriteSave(f, op, c).0;
    forall i: nat ensures CutOk(f', i) && (i != op.ino ==> Read(f', i) == Read(f, i)) {
      assert CutOk(f, i);
      if i == op.ino {
        WrittenCutOk(hash, f, op, c);
      } else {
        WriteElsewhere(f, op, c, i);
      }
    }
    WriteSources(f, op, c);
    WrittenWorld(hash, f, f', op.ino);
  }

  lemma WriteSources(f: Files, op: Op, c: Choice)
    requires op.SaveWrite? && op.ino in f.cuts && DirOk(f) && op.call < f.stamp
    ensures var f' := WriteSave(f, op, c).0;
            && DirOk(f') && f'.dir == f.dir && f'.published == f.published && f'.cuts.Keys == f.cuts.Keys
            && forall i | i in f.cuts :: f'.cuts[i].source == f.cuts[i].source
  {
  }

  lemma WrittenWorld(hash: Hashing, f: Files, f': Files, ino: nat)
    requires WorldOk(hash, f) && DirOk(f') && f'.dir == f.dir && f'.published == f.published && f'.cuts.Keys == f.cuts.Keys
    requires forall i | i in f.cuts :: f'.cuts[i].source == f.cuts[i].source
    requires forall i: nat :: CutOk(f', i) && (i != ino ==> Read(f', i) == Read(f, i))
    requires ino in f.cuts
    ensures WorldOk(hash, f')
  {
    forall d: Digest ensures NameOk(hash, f', d) { assert NameOk(hash, f, d); }
    forall i: nat ensures PubOk(hash, f', i) { assert PubOk(hash, f, i); }
  }

  lemma WriteSaveOp(hash: Hashing, f: Files, op: Op, c: Choice)
    requires WorldOk(hash, f) && OpOk(hash, f, op) && op.SaveWrite?
    ensures var (f', op') := WriteSave(f, op, c);
            OpOk(hash, f', op') && Evolves(f, f', op) && (op'.SaveWrite? ==> op'.call == op.call)
  {
    assert CutOk(f, op.ino);
    WrittenCutOk(hash, f, op, c);
    WriteEvolves(f, op, c);
  }

  lemma WriteEvolves(f: Files, op: Op, c: Choice)
    requires op.SaveWrite? && op.ino in f.cuts
    ensures Evolves(f, WriteSave(f, op, c).0, op)
  {
    var f' := WriteSave(f, op, c).0;
    assert forall i: nat | i != op.ino :: Read(f', i) == Read(f, i);
  }

  lemma StepOk(hash: Hashing, f: Files, op: Op, c: Choice)
    requires Injective(hash) && WorldOk(hash, f) && OpOk(hash, f, op)
    ensures var (f', op') := Step(hash, f, op, c);
            && WorldOk(hash, f') && OpOk(hash, f', op') && Evolves(f, f', op)
            && (op'.SaveWrite? ==> (op.SaveWrite? && op'.call == op.call) || op'.call == f.stamp)
  {
    match op
    case UploadOpen(id, _) => CreateOk(hash, f, id);
    case UploadCopy(_, _, _) => AppendOk(hash, f, op, c);
    case CommitRemove(id, _) => RemoveOk(hash, f, id, op);
    case CommitRename(_, _, _, _) => RenameOk(hash, f, op, c);
    case SaveOpen(_, _) => if c.Ok? || c.FailApplied? { OpenSaveOk(hash, f, op, c.FailApplied?); }
    case SaveWrite(_, _, _, _, _) => WriteSaveWorld(hash, f, op, c); WriteSaveOp(hash, f, op, c);
    case _ =>
  }

  /** A step keeps everything that holds of the files and the operations in flight. */
  lemma GoKeepsInv(hash: Hashing, st: State, p: nat, c: Choice)
    requires Injective(hash) && Inv(hash, st) && p in st.ops
    ensures Inv(hash, Next(hash, st, Go(p, c)))
  {
    var (f', op') := Step(hash, st.files, st.ops[p], c);
    StepOk(hash, st.files, st.ops[p], c);
    forall q | q in st.ops && q != p ensures OpOk(hash, f', st.ops[q]) && Apart(op', st.ops[q]) {
      assert Apart(st.ops[p], st.ops[q]) && OpOk(hash, st.files, st.ops[q]);
      OtherOk(hash, st.files, f', st.ops[p], op', st.ops[q]);
    }
    ReplaceOp(hash, st, p, f', op');
  }

  lemma ReplaceOp(hash: Hashing, st: State, p: nat, f: Files, op: Op)
    requires Inv(hash, st) && p in st.ops && WorldOk(hash, f) && OpOk(hash, f, op)
    requires forall q | q in st.ops && q != p :: OpOk(hash, f, st.ops[q]) && Apart(op, st.ops[q])
    ensures Inv(hash, State(f, st.ops[p := op]))
  {
  }

  // An operation that has made no call yet, or has ended.
  predicate Quiet(hash: Hashing, op: Op) {
    op.UploadOpen? || op.CommitOpen? || (op.SaveStat? && hash.Fits(op.d, op.data)) || op.Finished?
  }

  lemma QuietKeepsInv(hash: Hashing, st: State, p: nat, op: Op)
    requires Inv(hash, st) && Quiet(hash, op)
    ensures Inv(hash, st.(ops := st.ops[p := op]))
  {
  }

  lemma {:induction false} RunInv(hash: Hashing, acts: seq<Action>)
    requires Injective(hash)
    ensures Inv(hash, Exec(hash, EMPTY, acts))
  {
    if acts != [] {
      var before, a := Exec(hash, EMPTY, acts[..|acts| - 1]), acts[|acts| - 1];
      RunInv(hash, acts[..|acts| - 1]);
      match a
      case Go(p, c) => if p in before.ops { GoKeepsInv(hash, before, p, c); }
      case StartUpload(p, id, body) => QuietKeepsInv(hash, before, p, UploadOpen(id, body));
      case StartCommit(p, id, d) => QuietKeepsInv(hash, before, p, CommitOpen(id, d));
      case StartSave(p, data) => QuietKeepsInv(hash, before, p, SaveStat(hash.of(data), data));
    }
  }

  lemma SavedBlob(hash: Hashing, f: Files, d: Digest)
    requires Injective(hash) && WorldOk(hash, f) && Present(f, d) && f.dir[Blob(d)] in f.cuts
    ensures var ino := f.dir[Blob(d)];
            var cut := f.cuts[ino];
            && hash.Fits(d, cut.source)
            && (!cut.foreign ==>
                  && (hash.Fits(d, Read(f, ino)) <==> Complete(cut.source, cut.covered))
                  && (cut.writers <= {cut.call} ==>
                        cut.call in f.progress && (hash.Fits(d, Read(f, ino)) <==> f.progress[cut.call] == |cut.source|))
                  && (cut.call in f.saved ==> hash.Fits(d, Read(f, ino))))
  {
    var ino := f.dir[Blob(d)];
    var cut := f.cuts[ino];
    assert NameOk(hash, f, d) && CutOk(f, ino);
    if !cut.foreign {
      OverlayExact(Read(f, ino), cut.source, cut.covered);
      if cut.writers <= {cut.call} {
        PrefixComplete(cut.source, cut.covered, f.progress[cut.call]);
      }
    }
  }

  /**
   * A blob a save truncated, over every run: unless an upload appended to its file since, it is right exactly when
   * the positions written since the truncation are enough. If only the call that truncated it wrote since, that is
   * exactly when this call got all its bytes in, and a call that reported success did.
   */
  lemma SavedExactly(hash: Hashing, acts: seq<Action>, d: Digest)
    requires Injective(hash)
    requires var f := Exec(hash, EMPTY, acts).files; Present(f, d) && f.dir[Blob(d)] in f.cuts
    ensures var f := Exec(hash, EMPTY, acts).files;
            var ino := f.dir[Blob(d)];
            var cut := f.cuts[ino];
            && hash.Fits(d, cut.source)
            && (!cut.foreign ==>
                  && (hash.Fits(d, Read(f, ino)) <==> Complete(cut.source, cut.covered))
                  && (cut.writers <= {cut.call} ==>
                        cut.call in f.progress && (hash.Fits(d, Read(f, ino)) <==> f.progress[cut.call] == |cut.source|))
                  && (cut.call in f.saved ==> hash.Fits(d, Read(f, ino))))
  {
    RunInv(hash, acts);
    SavedBlob(hash, Exec(hash, EMPTY, acts).files, d);
  }

  lemma RenamedBlob(hash: Hashing, f: Files, d: Digest)
    requires Injective(hash) && WorldOk(hash, f) && Present(f, d) && f.dir[Blob(d)] !in f.cuts
    ensures var ino := f.dir[Blob(d)];
            && ino in f.published && f.published[ino].d == d && hash.Fits(d, f.published[ino].seen)
            && (hash.Fits(d, Read(f, ino)) <==> Read(f, ino) == f.published[ino].seen)
            && (f.published[ino].from == ino ==>
                  && f.published[ino].seen <= Read(f, ino)
                  && (hash.Fits(d, Read(f, ino)) <==> |Read(f, ino)| == |f.published[ino].seen|))
  {
    assert NameOk(hash, f, d) && PubOk(hash, f, f.dir[Blob(d)]);
  }

  /**
   * A blob a commit renamed into place and no save truncated since, over every run: it is right exactly when its
   * file holds the bytes that commit verified. If the file renamed is the one verified, that is exactly when nothing
   * was appended to it after the verification.
   */
  lemma RenamedExactly(hash: Hashing, acts: seq<Action>, d: Digest)
    requires Injective(hash)
    requires var f := Exec(hash, EMPTY, acts).files; Present(f, d) && f.dir[Blob(d)] !in f.cuts
    ensures var f := Exec(hash, EMPTY, acts).files;
            var ino := f.dir[Blob(d)];
            && ino in f.published && f.published[ino].d == d && hash.Fits(d, f.published[ino].seen)
            && (hash.Fits(d, Read(f, ino)) <==> Read(f, ino) == f.published[ino].seen)
            && (f.published[ino].from == ino ==>
                  && f.published[ino].seen <= Read(f, ino)
                  && (hash.Fits(d, Read(f, ino)) <==> |Read(f, ino)| == |f.published[ino].seen|))
  {
    RunInv(hash, acts);
    RenamedBlob(hash, Exec(hash, EMPTY, acts).files, d);
  }

  /** A SaveBlob call is still between its truncating open and its last byte. */
  ghost predicate Writing(st: State, call: nat) {
    exists p :: p in st.ops && st.ops[p].SaveWrite? && st.ops[p].call == call
  }

  /** Every call that truncated a file completed, failed, or is still writing. */
  ghost predicate Accounted(st: State) {
    forall k: nat | k < st.files.stamp :: k in st.files.saved || k in st.files.abandoned || Writing(st, k)
  }

  // What one system call does to the numbers of save calls.
  lemma CallNumbers(hash: Hashing, f: Files, op: Op, c: Choice, k: nat)
    requires k < Step(hash, f, op, c).0.stamp
    ensures var (f', op') := Step(hash, f, op, c);
            && f.stamp <= f'.stamp && f.saved <= f'.saved && f.abandoned <= f'.abandoned
            && (k >= f.stamp || (op.SaveWrite? && op.call == k) ==>
                  k in f'.saved || k in f'.abandoned || (op'.SaveWrite? && op'.call == k))
  {
  }

  lemma NextKeepsAccounted(hash: Hashing, st: State, a: Action)
    requires Accounted(st)
    ensures Accounted(Next(hash, st, a))
  {
    var st' := Next(hash, st, a);
    forall k: nat | k < st'.files.stamp ensures k in st'.files.saved || k in st'.files.abandoned || Writing(st', k) {
      if a.Go? && a.p in st.ops {
        CallNumbers(hash, st.files, st.ops[a.p], a.c, k);
        assert st'.ops[a.p].SaveWrite? && st'.ops[a.p].call == k ==> Writing(st', k);
      }
      if k < st.files.stamp && k !in st.files.saved && k !in st.files.abandoned {
        assert Writing(st, k);
        var p :| p in st.ops && st.ops[p].SaveWrite? && st.ops[p].call == k;
        assert p in st'.ops && ((a.Go? && a.p == p) || st'.ops[p] == st.ops[p]);
        assert st'.ops[p] == st.ops[p] ==> Writing(st', k);
      }
    }
  }

  lemma {:induction false} RunAccounted(hash: Hashing, acts: seq<Action>)
    ensures Accounted(Exec(hash, EMPTY, acts))
  {
    if acts != [] {
      RunAccounted(hash, acts[..|acts| - 1]);
      NextKeepsAccounted(hash, Exec(hash, EMPTY, acts[..|acts| - 1]), acts[|acts| - 1]);
    }
  }

  /** The save that truncated a file last has written everything, has failed, or is still writing. */
  lemma TruncatorKnown(hash: Hashing, acts: seq<Action>, ino: nat)
    requires Injective(hash) && ino in Exec(hash, EMPTY, acts).files.cuts
    ensures var st := Exec(hash, EMPTY, acts);
            var call := st.files.cuts[ino].call;
            call in st.files.saved || call in st.files.abandoned || Writing(st, call)
  {
    RunInv(hash, acts);
    RunAccounted(hash, acts);
  }
}
