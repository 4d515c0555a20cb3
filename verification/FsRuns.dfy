/** Runs of the filesystem backend that show why the conditions of FsRaces are what they are
    (ctf-registry/storage/filesystem/filesystem.go). */
module FsRuns {
  import opened Common
  import opened StorageApi
  import opened FsStorage
  import opened FsRaces

  lemma Snoc(hash: Hashing, st: State, acts: seq<Action>, a: Action)
    ensures Exec(hash, st, acts + [a]) == Next(hash, Exec(hash, st, acts), a)
  {
    assert (acts + [a])[..|acts + [a]| - 1] == acts;
  }

  lemma TwoSteps(hash: Hashing, st: State, a: Action, b: Action)
    ensures Exec(hash, st, [a, b]) == Next(hash, Next(hash, st, a), b)
  {
    Snoc(hash, st, [], a);
    Snoc(hash, st, [a], b);
    assert [] + [a] == [a] && [a] + [b] == [a, b];
  }

  lemma ThreeSteps(hash: Hashing, st: State, a: Action, b: Action, c: Action)
    ensures Exec(hash, st, [a, b, c]) == Next(hash, Next(hash, Next(hash, st, a), b), c)
  {
    TwoSteps(hash, st, a, b);
    Snoc(hash, st, [a, b], c);
    assert [a, b] + [c] == [a, b, c];
  }

  lemma {:induction false} RunAppend(hash: Hashing, st: State, a: seq<Action>, b: seq<Action>)
    ensures Exec(hash, st, a + b) == Exec(hash, Exec(hash, st, a), b)
  {
    if b == [] {
      assert a + b == a;
    } else {
      RunAppend(hash, st, a, b[..|b| - 1]);
      assert (a + b)[..|a + b| - 1] == a + b[..|b| - 1];
    }
  }

  /** A save that fails after truncating leaves a broken blob, and a second save of the same bytes then reports
      success without writing anything. */
  lemma FailedSaveStays(hash: Hashing, data: Bytes)
    requires Injective(hash) && data != []
    ensures var acts := [StartSave(0, data), Go(0, Ok), Go(0, Ok)] + [Go(0, Choice.Fail), StartSave(1, data), Go(1, Ok)];
            var st, d := Exec(hash, EMPTY, acts), hash.of(data);
            && 1 in st.ops && st.ops[1] == Finished(Stored(d))
            && Present(st.files, d) && !hash.Fits(d, Read(st.files, st.files.dir[Blob(d)]))
  {
    var a, b := [StartSave(0, data), Go(0, Ok), Go(0, Ok)], [Go(0, Choice.Fail), StartSave(1, data), Go(1, Ok)];
    OtherBytes(hash, data, []);
    SaveBegins(hash, data);
    SaveBreaks(hash, Exec(hash, EMPTY, a), data);
    RunAppend(hash, EMPTY, a, b);
  }

  lemma SaveBegins(hash: Hashing, data: Bytes)
    ensures var st := Exec(hash, EMPTY, [StartSave(0, data), Go(0, Ok), Go(0, Ok)]);
            && st.ops == map[0 := SaveWrite(hash.of(data), data, 0, 0, 0)]
            && st.files.dir == map[Blob(hash.of(data)) := 0] && Read(st.files, 0) == []
  {
    ThreeSteps(hash, EMPTY, StartSave(0, data), Go(0, Ok), Go(0, Ok));
  }

  lemma SaveBreaks(hash: Hashing, st: State, data: Bytes)
    requires st.ops == map[0 := SaveWrite(hash.of(data), data, 0, 0, 0)]
    requires st.files.dir == map[Blob(hash.of(data)) := 0] && Read(st.files, 0) == []
    ensures var st' := Exec(hash, st, [Go(0, Choice.Fail), StartSave(1, data), Go(1, Ok)]);
            && 1 in st'.ops && st'.ops[1] == Finished(Stored(hash.of(data)))
            && st'.files.dir == st.files.dir && Read(st'.files, 0) == []
  {
    ThreeSteps(hash, st, Go(0, Choice.Fail), StartSave(1, data), Go(1, Ok));
    assert WriteAt([], 0, []) == [];
  }

  // Three steps of the runs below, from any state they start in.
  function UploadActs(p: nat, id: Id, body: Bytes): seq<Action> { [StartUpload(p, id, body), Go(p, Ok), Go(p, Ok)] }
  function VerifyActs(p: nat, id: Id, d: Digest): seq<Action> { [StartCommit(p, id, d), Go(p, Ok), Go(p, Ok)] }
  function RenameActs(p: nat, stat: Choice): seq<Action> { [Go(p, stat), Go(p, Ok), Go(p, Ok)] }

  lemma Uploaded(hash: Hashing, st: State, p: nat, id: Id, body: Bytes)
    requires p !in st.ops && st.files.next !in st.files.data
    ensures var st' := Exec(hash, st, UploadActs(p, id, body));
            var (f, ino) := Create(st.files, Upload(id));
            && st'.files.dir == f.dir && st'.files.next == f.next && Read(st'.files, ino) == Read(f, ino) + body
            && (forall i | i != ino :: Read(st'.files, i) == Read(f, i))
            && st'.files.published == st.files.published && st'.files.cuts.Keys == st.files.cuts.Keys
            && st'.files.data.Keys == f.data.Keys + {ino}
            && st'.ops == st.ops[p := UploadStat(id)]
  {
    ThreeSteps(hash, st, StartUpload(p, id, body), Go(p, Ok), Go(p, Ok));
    var (f, ino) := Create(st.files, Upload(id));
    var s1 := Next(hash, st, StartUpload(p, id, body));
    assert Next(hash, s1, Go(p, Ok)) == State(f, s1.ops[p := UploadCopy(id, ino, body)]);
    AllAppended(f, id, ino, body);
    assert s1.ops[p := UploadCopy(id, ino, body)][p := UploadStat(id)] == st.ops[p := UploadStat(id)];
  }

  lemma AllAppended(f: Files, id: Id, ino: nat, body: Bytes)
    ensures var (f', op) := Append(f, id, ino, body, Ok);
            && op == UploadStat(id) && f'.dir == f.dir && f'.next == f.next && Read(f', ino) == Read(f, ino) + body
            && (forall i | i != ino :: Read(f', i) == Read(f, i))
            && f'.published == f.published && f'.cuts.Keys == f.cuts.Keys && f'.data.Keys == f.data.Keys + {ino}
  {
    assert body[..|body|] == body;
  }

  lemma Verified(hash: Hashing, st: State, p: nat, id: Id, d: Digest)
    requires p !in st.ops && Upload(id) in st.files.dir && hash.Fits(d, Read(st.files, st.files.dir[Upload(id)]))
    ensures var ino := st.files.dir[Upload(id)];
            Exec(hash, st, VerifyActs(p, id, d)) == State(st.files, st.ops[p := CommitStat(id, d, ino, Read(st.files, ino))])
  {
    ThreeSteps(hash, st, StartCommit(p, id, d), Go(p, Ok), Go(p, Ok));
  }

  lemma Renamed(hash: Hashing, st: State, p: nat, id: Id, d: Digest, ino: nat, seen: Bytes, stat: Choice)
    requires p in st.ops && st.ops[p] == CommitStat(id, d, ino, seen) && Upload(id) in st.files.dir
    requires stat == Choice.Fail || (stat == Ok && !Present(st.files, d))
    ensures var st' := Exec(hash, st, RenameActs(p, stat));
            var moved := st.files.dir[Upload(id)];
            && st'.ops == st.ops[p := Finished(Stored(d))]
            && st'.files == st.files.(dir := (st.files.dir - {Upload(id)})[Blob(d) := moved],
                                      published := st.files.published[moved := Publication(d, ino, seen)])
  {
    var moved := st.files.dir[Upload(id)];
    var f := st.files.(dir := (st.files.dir - {Upload(id)})[Blob(d) := moved],
                       published := st.files.published[moved := Publication(d, ino, seen)]);
    ThreeSteps(hash, st, Go(p, stat), Go(p, Ok), Go(p, Ok));
    RenameCall(hash, st.files, id, d, ino, seen);
    assert st.ops[p := CommitRename(id, d, ino, seen)][p := Finished(Stored(d))] == st.ops[p := Finished(Stored(d))];
    assert Next(hash, Next(hash, st, Go(p, stat)), Go(p, Ok)) == State(f, st.ops[p := Finished(Stored(d))]);
  }

  lemma RenameCall(hash: Hashing, f: Files, id: Id, d: Digest, ino: nat, seen: Bytes)
    requires Upload(id) in f.dir
    ensures Step(hash, f, CommitStat(id, d, ino, seen), Choice.Fail) == (f, CommitRename(id, d, ino, seen))
    ensures !Present(f, d) ==> Step(hash, f, CommitStat(id, d, ino, seen), Ok) == (f, CommitRename(id, d, ino, seen))
    ensures var moved := f.dir[Upload(id)];
            Step(hash, f, CommitRename(id, d, ino, seen), Ok)
            == (f.(dir := (f.dir - {Upload(id)})[Blob(d) := moved],
                   published := f.published[moved := Publication(d, ino, seen)]), Finished(Stored(d)))
  {
  }

  /** An append that slips in between a commit's verification and its rename is published under a digest it does
      not have. */
  lemma RacingAppendPublished(hash: Hashing, id: Id, first: Bytes, second: Bytes)
    requires Injective(hash) && second != []
    ensures var d := hash.of(first);
            var acts := (UploadActs(0, id, first) + VerifyActs(1, id, d)) + (UploadActs(2, id, second) + RenameActs(1, Ok));
            var st := Exec(hash, EMPTY, acts);
            && 1 in st.ops && st.ops[1] == Finished(Stored(d))
            && Present(st.files, d) && Read(st.files, st.files.dir[Blob(d)]) == first + second
            && !hash.Fits(d, first + second)
  {
    var d := hash.of(first);
    Uploaded(hash, EMPTY, 0, id, first);
    var s1 := Exec(hash, EMPTY, UploadActs(0, id, first));
    assert [] + first == first;
    Verified(hash, s1, 1, id, d);
    var s2 := Exec(hash, s1, VerifyActs(1, id, d));
    Uploaded(hash, s2, 2, id, second);
    var s3 := Exec(hash, s2, UploadActs(2, id, second));
    Renamed(hash, s3, 1, id, d, 0, first, Ok);
    RunAppend(hash, EMPTY, UploadActs(0, id, first), VerifyActs(1, id, d));
    RunAppend(hash, s2, UploadActs(2, id, second), RenameActs(1, Ok));
    RunAppend(hash, EMPTY, UploadActs(0, id, first) + VerifyActs(1, id, d), UploadActs(2, id, second) + RenameActs(1, Ok));
    assert (first + second)[|first|..] == second;
    OtherBytes(hash, first, first + second);
  }

  /** The file a commit renames need not be the one it verified for the blob to be right: the session may have been
      committed by another request and uploaded anew with the same bytes. */
  lemma OtherFileRight(hash: Hashing, id: Id, body: Bytes)
    ensures var d := hash.of(body);
            var acts := (UploadActs(0, id, body) + VerifyActs(1, id, d)) + (VerifyActs(2, id, d) + RenameActs(2, Ok))
                        + (UploadActs(3, id, body) + RenameActs(1, Choice.Fail));
            var f := Exec(hash, EMPTY, acts).files;
            && Present(f, d) && f.dir[Blob(d)] !in f.cuts && f.dir[Blob(d)] in f.published
            && f.published[f.dir[Blob(d)]].from != f.dir[Blob(d)] && hash.Fits(d, Read(f, f.dir[Blob(d)]))
  {
    var d := hash.of(body);
    var u, v, w, r := UploadActs(0, id, body), VerifyActs(1, id, d), VerifyActs(2, id, d), RenameActs(2, Ok);
    var x, y := UploadActs(3, id, body), RenameActs(1, Choice.Fail);
    Uploaded(hash, EMPTY, 0, id, body);
    var s1 := Exec(hash, EMPTY, u);
    assert [] + body == body;
    Verified(hash, s1, 1, id, d);
    var s2 := Exec(hash, s1, v);
    Verified(hash, s2, 2, id, d);
    var s3 := Exec(hash, s2, w);
    Renamed(hash, s3, 2, id, d, 0, body, Ok);
    var s4 := Exec(hash, s3, r);
    Uploaded(hash, s4, 3, id, body);
    var s5 := Exec(hash, s4, x);
    Renamed(hash, s5, 1, id, d, 0, body, Choice.Fail);
    SixGroups(hash, u, v, w, r, x, y);
  }

  lemma SixGroups(hash: Hashing, a: seq<Action>, b: seq<Action>, c: seq<Action>, d: seq<Action>, e: seq<Action>,
                  f: seq<Action>)
    ensures Exec(hash, EMPTY, (a + b) + (c + d) + (e + f))
            == Exec(hash, Exec(hash, Exec(hash, Exec(hash, Exec(hash, Exec(hash, EMPTY, a), b), c), d), e), f)
  {
    RunAppend(hash, EMPTY, a, b);
    var s2 := Exec(hash, EMPTY, a + b);
    RunAppend(hash, s2, c, d);
    RunAppend(hash, EMPTY, a + b, c + d);
    var s4 := Exec(hash, EMPTY, (a + b) + (c + d));
    RunAppend(hash, s4, e, f);
    RunAppend(hash, EMPTY, (a + b) + (c + d), e + f);
  }

  /** Nor does a failed save have to get all its bytes in: a save that was already writing before the truncation may
      add the rest. Two saves of the same two bytes, of which the second truncates, writes one byte and fails. */
  lemma OtherSaveFillsIn(hash: Hashing, data: Bytes)
    requires |data| == 2
    ensures var d := hash.of(data);
            var acts := [StartSave(0, data), Go(0, Ok), StartSave(1, data)] + [Go(1, Ok), Go(0, Ok), Go(0, Part(1))]
                        + [Go(1, Ok), Go(1, Part(1)), Go(1, Choice.Fail)] + [Go(0, Ok)];
            var st := Exec(hash, EMPTY, acts);
            && Present(st.files, d) && st.files.dir[Blob(d)] in st.files.cuts
            && st.files.cuts[st.files.dir[Blob(d)]].call in st.files.abandoned
            && (forall p | p in st.ops :: st.ops[p].Finished?)
            && hash.Fits(d, Read(st.files, st.files.dir[Blob(d)]))
  {
    var d := hash.of(data);
    var a, b := [StartSave(0, data), Go(0, Ok), StartSave(1, data)], [Go(1, Ok), Go(0, Ok), Go(0, Part(1))];
    var c := [Go(1, Ok), Go(1, Part(1)), Go(1, Choice.Fail)];
    ThreeSteps(hash, EMPTY, StartSave(0, data), Go(0, Ok), StartSave(1, data));
    FirstHalf(hash, Exec(hash, EMPTY, a), d, data);
    SecondFails(hash, Exec(hash, Exec(hash, EMPTY, a), b), d, data);
    FirstEnds(hash, Exec(hash, Exec(hash, Exec(hash, EMPTY, a), b), c), d, data);
    RunAppend(hash, EMPTY, a, b);
    RunAppend(hash, EMPTY, a + b, c);
    RunAppend(hash, EMPTY, a + b + c, [Go(0, Ok)]);
  }

  // The states that run goes through.
  ghost predicate Statted(st: State, d: Digest, data: Bytes) {
    st.files == NO_FILES && st.ops == map[0 := SaveOpen(d, data), 1 := SaveStat(d, data)]
  }

  ghost predicate HalfWritten(st: State, d: Digest, data: Bytes) {
    && |data| == 2 && st.files.dir == map[Blob(d) := 0] && Read(st.files, 0) == data[..1]
    && 0 in st.files.cuts && st.files.stamp == 1
    && st.ops == map[0 := SaveWrite(d, data, 0, 1, 0), 1 := SaveOpen(d, data)]
  }

  ghost predicate FirstOpened(st: State, d: Digest, data: Bytes) {
    && |data| == 2 && st.files.dir == map[Blob(d) := 0] && Read(st.files, 0) == []
    && 0 in st.files.cuts && st.files.stamp == 1
    && st.ops == map[0 := SaveWrite(d, data, 0, 0, 0), 1 := SaveOpen(d, data)]
  }

  lemma FirstWrites(hash: Hashing, st: State, d: Digest, data: Bytes)
    requires FirstOpened(st, d, data)
    ensures HalfWritten(Next(hash, st, Go(0, Part(1))), d, data)
  {
    assert WriteAt([], 0, data[0..1]) == data[..1];
    assert WriteCount(data, 0, Part(1)) == 1;
    assert st.ops[0 := SaveWrite(d, data, 0, 1, 0)] == map[0 := SaveWrite(d, data, 0, 1, 0), 1 := SaveOpen(d, data)];
  }

  lemma FirstHalf(hash: Hashing, st: State, d: Digest, data: Bytes)
    requires Statted(st, d, data) && |data| == 2
    ensures HalfWritten(Exec(hash, st, [Go(1, Ok), Go(0, Ok), Go(0, Part(1))]), d, data)
  {
    var s1 := Next(hash, st, Go(1, Ok));
    assert s1 == State(NO_FILES, map[0 := SaveOpen(d, data), 1 := SaveOpen(d, data)]);
    assert FirstOpened(Next(hash, s1, Go(0, Ok)), d, data);
    FirstWrites(hash, Next(hash, s1, Go(0, Ok)), d, data);
    ThreeSteps(hash, st, Go(1, Ok), Go(0, Ok), Go(0, Part(1)));
  }

  ghost predicate Abandoned(st: State, d: Digest, data: Bytes) {
    && |data| == 2 && st.files.dir == map[Blob(d) := 0] && Read(st.files, 0) == data[..1]
    && 0 in st.files.cuts && st.files.cuts[0].call in st.files.abandoned
    && st.ops == map[0 := SaveWrite(d, data, 0, 1, 0), 1 := Finished(Failed(StorageFail))]
  }

  ghost predicate SecondWriting(st: State, d: Digest, data: Bytes, off: nat) {
    && |data| == 2 && off <= 1 && st.files.dir == map[Blob(d) := 0] && Read(st.files, 0) == data[..off]
    && 0 in st.files.cuts && st.files.cuts[0].call == 1
    && st.ops == map[0 := SaveWrite(d, data, 0, 1, 0), 1 := SaveWrite(d, data, 0, off, 1)]
  }

  lemma SecondWrites(hash: Hashing, st: State, d: Digest, data: Bytes)
    requires SecondWriting(st, d, data, 0)
    ensures SecondWriting(Next(hash, st, Go(1, Part(1))), d, data, 1)
  {
    assert WriteAt([], 0, data[0..1]) == data[..1];
  }

  lemma SecondFails(hash: Hashing, st: State, d: Digest, data: Bytes)
    requires HalfWritten(st, d, data)
    ensures Abandoned(Exec(hash, st, [Go(1, Ok), Go(1, Part(1)), Go(1, Choice.Fail)]), d, data)
  {
    var s1 := Next(hash, st, Go(1, Ok));
    assert SecondWriting(s1, d, data, 0);
    SecondWrites(hash, s1, d, data);
    assert WriteAt(data[..1], 1, []) == data[..1];
    ThreeSteps(hash, st, Go(1, Ok), Go(1, Part(1)), Go(1, Choice.Fail));
  }

  lemma FirstEnds(hash: Hashing, st: State, d: Digest, data: Bytes)
    requires Abandoned(st, d, data) && |data| == 2 && d == hash.of(data)
    ensures var st' := Exec(hash, st, [Go(0, Ok)]);
            && Present(st'.files, d) && st'.files.dir[Blob(d)] in st'.files.cuts
            && st'.files.cuts[st'.files.dir[Blob(d)]].call in st'.files.abandoned
            && (forall p | p in st'.ops :: st'.ops[p].Finished?)
            && hash.Fits(d, Read(st'.files, st'.files.dir[Blob(d)]))
  {
    Snoc(hash, st, [], Go(0, Ok));
    assert [] + [Go(0, Ok)] == [Go(0, Ok)];
    assert data[..1] + data[1..2] == data && WriteAt(data[..1], 1, data[1..2]) == data[..1] + data[1..2];
  }
}
