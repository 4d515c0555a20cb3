/**
 * The object of one upload session in the S3 backend (ctf-registry/storage/s3/s3.go): any number of UploadBlob
 * calls on it, interleaved between their object-store calls, while nothing commits it.
 */
module S3Sessions {
  import opened Common
  import opened StorageApi
  import opened S3Storage

  // at: how many puts had been made when the call last looked at the object; kept: how many bytes it read (history).
  datatype Call = Call(op: Op, body: Bytes, at: nat, kept: nat)

  // History of one put: its call, the chunk it added, and what the call had read.
  datatype Put = Put(p: nat, chunk: Bytes, at: nat, kept: nat)

  // puts is history, in the order in which the puts were made.
  datatype Session = Session(id: Id, bucket: Bucket, calls: map<nat, Call>, puts: seq<Put>)

  datatype Turn =
    | Upload(p: nat, chunk: Bytes)
    | Next(p: nat, c: Choice)
    | Elsewhere(bucket: Bucket)          // operations on other sessions and on blobs

  function Content(s: Session): Bytes { if s.id in s.bucket.uploads then s.bucket.uploads[s.id] else [] }

  predicate Applied(c: Choice) { c.Ok? || c.FailApplied? }

  function Moved(hash: Hashing, s: Session, p: nat, c: Choice): Session
    requires p in s.calls
  {
    var call := s.calls[p];
    var (b, op) := S3Storage.Step(hash, s.bucket, call.op, c);
    var call' :=
      if call.op.UploadHead? || call.op.UploadGet? then
        Call(op, call.body, |s.puts|, if op.UploadRead? then |op.existing| else 0)
      else call.(op := op);
    Session(s.id, b, s.calls[p := call'],
            if call.op.UploadPut? && Applied(c) then s.puts + [Put(p, call.body, call.at, call.kept)] else s.puts)
  }

  function Step(hash: Hashing, s: Session, t: Turn): Session {
    match t
    case Upload(p, chunk) =>
      if p in s.calls then s else s.(calls := s.calls[p := Call(UploadHead(s.id, chunk), chunk, 0, 0)])
    case Next(p, c) => if p in s.calls then Moved(hash, s, p, c) else s
    case Elsewhere(b) => if Content(s.(bucket := b)) == Content(s) then s.(bucket := b) else s
  }

  function Run(hash: Hashing, s: Session, ts: seq<Turn>): Session {
    if ts == [] then s else Step(hash, Run(hash, s, ts[..|ts| - 1]), ts[|ts| - 1])
  }

  function Opened(id: Id): Session { Session(id, Bucket(map[], map[]), map[], []) }

  lemma Snoc(hash: Hashing, s: Session, ts: seq<Turn>, t: Turn)
    ensures Run(hash, s, ts + [t]) == Step(hash, Run(hash, s, ts), t)
  {
    assert (ts + [t])[..|ts|] == ts;
  }

  // An upload from its beginning to its end.
  function Alone4(p: nat, chunk: Bytes): seq<Turn> {
    [Turn.Upload(p, chunk)] + [Next(p, Ok)] + [Next(p, Ok)] + [Next(p, Ok)] + [Next(p, Ok)]
  }

  /** An upload that runs alone and meets no failure appends its chunk and reports the object's size. */
  lemma AloneAppends(hash: Hashing, s: Session, p: nat, chunk: Bytes)
    requires p !in s.calls
    ensures var s' := Run(hash, s, Alone4(p, chunk));
            && Content(s') == Content(s) + chunk && s'.bucket.blobs == s.bucket.blobs
            && p in s'.calls && s'.calls[p].op == Finished(Uploaded(|Content(s')|))
  {
    var go := Next(p, Ok);
    var s1 := Step(hash, s, Turn.Upload(p, chunk));
    Snoc(hash, s, [], Turn.Upload(p, chunk));
    Snoc(hash, s, [Turn.Upload(p, chunk)], go);
    Snoc(hash, s, [Turn.Upload(p, chunk)] + [go], go);
    Snoc(hash, s, [Turn.Upload(p, chunk)] + [go] + [go], go);
    Snoc(hash, s, [Turn.Upload(p, chunk)] + [go] + [go] + [go], go);
    assert [] + [Turn.Upload(p, chunk)] == [Turn.Upload(p, chunk)];
    AloneRuns(hash, s1, p, chunk);
  }

  lemma AloneRuns(hash: Hashing, s: Session, p: nat, chunk: Bytes)
    requires p in s.calls && s.calls[p].op == UploadHead(s.id, chunk)
    ensures var go := Next(p, Ok);
            var s' := Step(hash, Step(hash, Step(hash, Step(hash, s, go), go), go), go);
            && Content(s') == Content(s) + chunk && s'.bucket.blobs == s.bucket.blobs
            && p in s'.calls && s'.calls[p].op == Finished(Uploaded(|Content(s')|))
  {
    var go := Next(p, Ok);
    var s1 := Step(hash, s, go);
    if Content(s) != [] {
      assert s1.calls[p].op == UploadGet(s.id, chunk);
      var s2 := Step(hash, s1, go);
      assert s2.calls[p].op == UploadRead(s.id, Content(s), chunk);
      var s3 := Step(hash, s2, go);
      assert s3.calls[p].op == UploadPut(s.id, Content(s) + chunk) && s3.bucket == s.bucket;
    } else {
      assert s1.calls[p].op == UploadRead(s.id, [], chunk);
      var s2 := Step(hash, s1, go);
      assert s2.calls[p].op == UploadPut(s.id, [] + chunk) && s2.bucket == s.bucket;
      assert [] + chunk == chunk;
    }
  }

  predicate WellRead(puts: seq<Put>) { forall m | 0 <= m < |puts| :: puts[m].at <= m }

  function Prefix(s: Bytes, n: nat): Bytes { if n <= |s| then s[..n] else s }

  /** The bytes the puts leave: what the last one's call had read of the puts before its look, and its chunk. */
  function Left(puts: seq<Put>): Bytes
    requires WellRead(puts)
    decreases |puts|
  {
    if puts == [] then []
    else
      var last := puts[|puts| - 1];
      Prefix(Left(puts[..last.at]), last.kept) + last.chunk
  }

  function Chunks(puts: seq<Put>): Bytes {
    if puts == [] then [] else Chunks(puts[..|puts| - 1]) + puts[|puts| - 1].chunk
  }

  lemma LeftMore(puts: seq<Put>, put: Put)
    requires WellRead(puts) && put.at <= |puts|
    ensures WellRead(puts + [put]) && Left(puts + [put]) == Prefix(Left(puts[..put.at]), put.kept) + put.chunk
  {
    assert (puts + [put])[..put.at] == puts[..put.at];
  }

  // What a call holds is what it read when it looked.
  ghost predicate CallOk(id: Id, puts: seq<Put>, call: Call)
    requires WellRead(puts)
  {
    && call.at <= |puts|
    && match call.op
       case UploadHead(i, body) => i == id && body == call.body
       case UploadGet(i, body) => i == id && body == call.body
       case UploadRead(i, existing, body) =>
         i == id && body == call.body && existing == Prefix(Left(puts[..call.at]), call.kept)
       case UploadPut(i, data) => i == id && data == Prefix(Left(puts[..call.at]), call.kept) + call.body
       case Finished(_) => true
       case _ => false
  }

  ghost predicate Inv(s: Session) {
    WellRead(s.puts) && Content(s) == Left(s.puts) && forall p | p in s.calls :: CallOk(s.id, s.puts, s.calls[p])
  }

  lemma CallStays(id: Id, puts: seq<Put>, put: Put, call: Call)
    requires WellRead(puts) && CallOk(id, puts, call) && put.at <= |puts|
    ensures WellRead(puts + [put]) && CallOk(id, puts + [put], call)
  {
    assert (puts + [put])[..call.at] == puts[..call.at];
  }

  lemma PutOk(hash: Hashing, s: Session, p: nat, c: Choice)
    requires Inv(s) && p in s.calls && s.calls[p].op.UploadPut? && Applied(c)
    ensures Inv(Moved(hash, s, p, c))
  {
    var call := s.calls[p];
    var put := Put(p, call.body, call.at, call.kept);
    assert CallOk(s.id, s.puts, call);
    LeftMore(s.puts, put);
    var s' := Moved(hash, s, p, c);
    forall q | q in s'.calls ensures CallOk(s'.id, s'.puts, s'.calls[q]) {
      if q != p {
        CallStays(s.id, s.puts, put, s.calls[q]);
      }
    }
  }

  lemma LookOk(hash: Hashing, s: Session, p: nat, c: Choice)
    requires Inv(s) && p in s.calls && !(s.calls[p].op.UploadPut? && Applied(c))
    ensures Inv(Moved(hash, s, p, c))
  {
    var call := s.calls[p];
    var s' := Moved(hash, s, p, c);
    assert CallOk(s.id, s.puts, call);
    assert s'.puts == s.puts && s'.bucket == s.bucket;
    assert s.puts[..|s.puts|] == s.puts;
    assert CallOk(s.id, s.puts, s'.calls[p]);
  }

  lemma {:induction false} RunInv(hash: Hashing, id: Id, ts: seq<Turn>)
    ensures Inv(Run(hash, Opened(id), ts)) && Run(hash, Opened(id), ts).id == id
  {
    if ts != [] {
      var s := Run(hash, Opened(id), ts[..|ts| - 1]);
      var t := ts[|ts| - 1];
      RunInv(hash, id, ts[..|ts| - 1]);
      if t.Next? && t.p in s.calls {
        if s.calls[t.p].op.UploadPut? && Applied(t.c) {
          PutOk(hash, s, t.p, t.c);
        } else {
          LookOk(hash, s, t.p, t.c);
        }
      }
    }
  }

  lemma {:induction false} LeftShort(puts: seq<Put>)
    requires WellRead(puts)
    ensures |Left(puts)| <= |Chunks(puts)|
    decreases |puts|
  {
    if puts != [] {
      var before := puts[..|puts| - 1];
      var last := puts[|puts| - 1];
      LeftShort(puts[..last.at]);
      ChunksGrow(before, last.at);
      assert before[..last.at] == puts[..last.at];
    }
  }

  lemma {:induction false} ChunksGrow(puts: seq<Put>, n: nat)
    requires n <= |puts|
    ensures Chunks(puts[..n]) <= Chunks(puts)
    ensures n < |puts| && (forall m | n <= m < |puts| :: puts[m].chunk != []) ==> |Chunks(puts[..n])| < |Chunks(puts)|
  {
    if n == |puts| {
      assert puts[..n] == puts;
    } else {
      ChunksGrow(puts[..|puts| - 1], n);
      assert puts[..|puts| - 1][..n] == puts[..n];
    }
  }

  /** Put m's call looked just before it, and read all there was. */
  predicate Whole(puts: seq<Put>, m: nat)
    requires m < |puts|
  {
    puts[m].at == m && puts[m].kept >= |Chunks(puts[..m])|
  }

  predicate NonEmpty(puts: seq<Put>) { forall m | 0 <= m < |puts| :: puts[m].chunk != [] }

  lemma {:induction false} AllLeft(puts: seq<Put>)
    requires WellRead(puts) && NonEmpty(puts)
    ensures Left(puts) == Chunks(puts) <==> forall m | 0 <= m < |puts| :: Whole(puts, m)
  {
    if puts != [] {
      var n := |puts| - 1;
      var before := puts[..n];
      AllLeft(before);
      WholeBefore(puts);
      LastWhole(puts);
    }
  }

  lemma WholeBefore(puts: seq<Put>)
    requires puts != []
    ensures var n := |puts| - 1;
            (forall m | 0 <= m < |puts| :: Whole(puts, m))
            <==> Whole(puts, n) && forall m | 0 <= m < n :: Whole(puts[..n], m)
  {
    var n := |puts| - 1;
    forall m | 0 <= m < n ensures Whole(puts[..n], m) == Whole(puts, m) {
      assert puts[..n][..m] == puts[..m];
    }
  }

  lemma LastWhole(puts: seq<Put>)
    requires WellRead(puts) && NonEmpty(puts) && puts != []
    ensures var n := |puts| - 1;
            Left(puts) == Chunks(puts) <==> Whole(puts, n) && Left(puts[..n]) == Chunks(puts[..n])
  {
    var n := |puts| - 1;
    var last := puts[n];
    assert puts[..n][..last.at] == puts[..last.at];
    SameTail(Prefix(Left(puts[..last.at]), last.kept), Chunks(puts[..n]), last.chunk);
    ReadAll(puts[..n], last.at, last.kept);
  }

  lemma ReadAll(puts: seq<Put>, at: nat, kept: nat)
    requires WellRead(puts) && NonEmpty(puts) && at <= |puts|
    ensures Prefix(Left(puts[..at]), kept) == Chunks(puts)
            <==> at == |puts| && kept >= |Chunks(puts)| && Left(puts) == Chunks(puts)
  {
    LeftShort(puts[..at]);
    ChunksGrow(puts, at);
    assert puts[..|puts|] == puts;
    PrefixIs(Left(puts[..at]), kept, Chunks(puts));
  }

  lemma PrefixIs(read: Bytes, kept: nat, all: Bytes)
    requires |read| <= |all|
    ensures Prefix(read, kept) == all <==> read == all && kept >= |all|
  {
  }

  lemma SameTail(a: Bytes, b: Bytes, tail: Bytes)
    ensures a + tail == b + tail <==> a == b
  {
    if a + tail == b + tail {
      assert |a| == |b|;
      assert (a + tail)[..|a|] == a && (b + tail)[..|a|] == b;
    }
  }

  /** What was put between the last call's look and its put added nothing, the call read everything, and nothing was
      lost before its look. */
  predicate NothingLost(puts: seq<Put>)
    requires WellRead(puts)
    decreases |puts|
  {
    puts == [] ||
    var before, last := puts[..|puts| - 1], puts[|puts| - 1];
    && Chunks(puts[..last.at]) == Chunks(before) && last.kept >= |Chunks(before)| && NothingLost(puts[..last.at])
  }

  lemma {:induction false} AllThere(puts: seq<Put>)
    requires WellRead(puts)
    ensures Left(puts) == Chunks(puts) <==> NothingLost(puts)
    decreases |puts|
  {
    if puts != [] {
      var before, last := puts[..|puts| - 1], puts[|puts| - 1];
      AllThere(puts[..last.at]);
      assert before[..last.at] == puts[..last.at];
      SameTail(Prefix(Left(puts[..last.at]), last.kept), Chunks(before), last.chunk);
      LeftShort(puts[..last.at]);
      ChunksGrow(before, last.at);
      PrefixIs(Left(puts[..last.at]), last.kept, Chunks(before));
    }
  }

  /** Over every schedule the object holds what the last put's call had read when it looked, and its chunk. It
      holds all chunks, in the order of their puts, exactly when nothing was lost; when no chunk is empty, that is
      when each put's call looked just before it and read everything: no put fell between another one's look and
      it, and no read failed or came back short. */
  lemma ObjectExactly(hash: Hashing, id: Id, ts: seq<Turn>)
    ensures var s := Run(hash, Opened(id), ts);
            && WellRead(s.puts) && Content(s) == Left(s.puts)
            && (Content(s) == Chunks(s.puts) <==> NothingLost(s.puts))
            && (NonEmpty(s.puts) ==> (NothingLost(s.puts) <==> forall m | 0 <= m < |s.puts| :: Whole(s.puts, m)))
  {
    RunInv(hash, id, ts);
    var s := Run(hash, Opened(id), ts);
    AllThere(s.puts);
    if NonEmpty(s.puts) {
      AllLeft(s.puts);
    }
  }

  // Call p's put is number m, and the object had n bytes just after it.
  ghost predicate Stored(puts: seq<Put>, p: nat, m: nat, n: nat)
    requires WellRead(puts)
  {
    m < |puts| && puts[m].p == p && |Left(puts[..m + 1])| == n
  }

  predicate Told(s: Session, p: nat) { p in s.calls && s.calls[p].op.Finished? && s.calls[p].op.r.Uploaded? }

  lemma StoredStays(puts: seq<Put>, more: seq<Put>, p: nat, m: nat, n: nat)
    requires WellRead(puts) && WellRead(more) && puts <= more && Stored(puts, p, m, n)
    ensures Stored(more, p, m, n)
  {
    assert more[..m + 1] == puts[..m + 1];
  }

  // The step of a call that ends with a size.
  lemma TellsSize(hash: Hashing, s: Session, p: nat, c: Choice)
    requires Inv(s) && p in s.calls && !Told(s, p) && Told(Moved(hash, s, p, c), p)
    ensures var s' := Moved(hash, s, p, c);
            Inv(s') && Stored(s'.puts, p, |s.puts|, s'.calls[p].op.r.size) && s'.calls[p].op.r.size == |Content(s')|
  {
    assert CallOk(s.id, s.puts, s.calls[p]);
    PutOk(hash, s, p, c);
    var s' := Moved(hash, s, p, c);
    assert s'.puts[..|s'.puts|] == s'.puts;
  }

  /** A call that reports a size has made a put of its chunk that left an object of exactly that many bytes. */
  lemma {:induction false} SizeExactly(hash: Hashing, id: Id, ts: seq<Turn>, p: nat)
    ensures var s := Run(hash, Opened(id), ts);
            WellRead(s.puts) && (Told(s, p) ==> exists m :: Stored(s.puts, p, m, s.calls[p].op.r.size))
  {
    RunInv(hash, id, ts);
    var s' := Run(hash, Opened(id), ts);
    if Told(s', p) && ts != [] {
      var before, t := ts[..|ts| - 1], ts[|ts| - 1];
      RunInv(hash, id, before);
      var s := Run(hash, Opened(id), before);
      if Told(s, p) {
        SizeExactly(hash, id, before, p);
        var m :| Stored(s.puts, p, m, s.calls[p].op.r.size);
        StoredStays(s.puts, s'.puts, p, m, s.calls[p].op.r.size);
      } else {
        TellsSize(hash, s, p, t.c);
      }
    }
  }

  // One upload at a time.
  ghost predicate Alone(s: Session) {
    forall p, q | p in s.calls && q in s.calls :: s.calls[p].op.Finished? || s.calls[q].op.Finished? || p == q
  }

  ghost predicate Serial(hash: Hashing, id: Id, ts: seq<Turn>) {
    forall k | 0 <= k <= |ts| :: Alone(Run(hash, Opened(id), ts[..k]))
  }

  predicate InTurn(puts: seq<Put>) { forall m | 0 <= m < |puts| :: puts[m].at == m }

  ghost predicate Fresh(s: Session) {
    && InTurn(s.puts)
    && forall p | p in s.calls && (s.calls[p].op.UploadRead? || s.calls[p].op.UploadPut?) :: s.calls[p].at == |s.puts|
  }

  lemma FreshStep(hash: Hashing, s: Session, t: Turn)
    requires Inv(s) && Fresh(s) && Alone(s)
    ensures Fresh(Step(hash, s, t))
  {
    if t.Next? && t.p in s.calls {
      assert CallOk(s.id, s.puts, s.calls[t.p]);
    }
  }

  lemma {:induction false} SerialFresh(hash: Hashing, id: Id, ts: seq<Turn>)
    requires Serial(hash, id, ts)
    ensures Fresh(Run(hash, Opened(id), ts))
  {
    if ts != [] {
      var before := ts[..|ts| - 1];
      assert ts[..|before|] == before;
      forall k | 0 <= k <= |before| ensures Alone(Run(hash, Opened(id), before[..k])) {
        assert before[..k] == ts[..k];
      }
      SerialFresh(hash, id, before);
      RunInv(hash, id, before);
      FreshStep(hash, Run(hash, Opened(id), before), ts[|ts| - 1]);
    }
  }

  /** With one upload at a time, each put leaves what its call read of the object before it and its chunk; the
      object holds every chunk in order, none being empty, exactly when all reads were complete. */
  lemma SerialExactly(hash: Hashing, id: Id, ts: seq<Turn>)
    requires Serial(hash, id, ts)
    ensures var s := Run(hash, Opened(id), ts);
            && InTurn(s.puts) && Content(s) == Left(s.puts)
            && (NonEmpty(s.puts) ==>
                  (Content(s) == Chunks(s.puts)
                   <==> forall m | 0 <= m < |s.puts| :: s.puts[m].kept >= |Chunks(s.puts[..m])|))
  {
    SerialFresh(hash, id, ts);
    ObjectExactly(hash, id, ts);
    var s := Run(hash, Opened(id), ts);
    assert forall m | 0 <= m < |s.puts| :: Whole(s.puts, m) <==> s.puts[m].kept >= |Chunks(s.puts[..m])|;
  }
}
