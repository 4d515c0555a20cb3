/**
 * Resumable uploads on the filesystem backend: PATCH and PUT requests of many clients, interleaved between
 * the size check, the opening of the session file and every piece written to it
 * (ctf-registry/handler/blobupload.go, ctf-registry/storage/filesystem/filesystem.go).
 */
module UploadSession {
  import opened Common
  import opened ContentRange

  // The client of session `id` uploads docs(id) and commits it under the digest names(id).
  datatype Clients = Clients(docs: Id -> Bytes, names: Id -> Digest, hash: Hashing)

  datatype Pc =
    | Checking(s: nat, n: nat)         // PATCH of bytes s..s+n received
    | Opening(s: nat, n: nat)          // range accepted, file not opened yet
    | Writing(s: nat, n: nat, k: nat)  // k bytes of the body are in the file
    | PutOpening(s: nat, n: nat)       // PUT with the bytes s..s+n as its body received; they may be none
    | PutWriting(s: nat, n: nat, k: nat)
    | Committing                       // the PUT's body is in the file
    | Moving                           // the file was verified
    | Replied(code: nat)

  datatype Request = Request(id: Id, pc: Pc)

  datatype State = State(files: map<Id, Bytes>, blobs: map<Digest, Bytes>, reqs: map<nat, Request>)

  const EMPTY := State(map[], map[], map[])

  datatype Action =
    | SendPatch(r: nat, id: Id, s: nat, n: nat)
    | SendPut(r: nat, id: Id, s: nat, n: nat)
    | Go(r: nat, choice: Choice)       // request r takes its next step

  // GetUploadBlobSize treats a missing file as an empty one.
  function Content(st: State, id: Id): Bytes {
    if id in st.files then st.files[id] else []
  }

  // What one step does to the session's file.
  datatype Effect = Keep | Write(data: Bytes) | Publish | Drop

  /** The handler's verdict on the range s..s+n against a file of `size` bytes; statOk says whether the size
      was readable. CheckIsGuard ties it to the header texts and the 64-bit arithmetic. */
  function Check(s: nat, n: nat, size: nat, statOk: bool): Pc {
    if n == 0 then Replied(416)
    else if !statOk then Replied(500)
    else if s == size then Opening(s, n)
    else Replied(416)
  }

  /** On the headers a client sends for s..s+n, the verdict is what the guard computes from their text. */
  lemma CheckIsGuard(s: nat, n: nat, size: nat)
    requires s + n <= INT64_MAX && size <= INT64_MAX
    ensures var guard := PatchGuard(Render(s, s + n - 1), FormatInt(n), size);
            && (Check(s, n, size, true) == Opening(s, n) <==> guard == Proceed)
            && (Check(s, n, size, true) == Replied(416) <==> guard == RangeNotSatisfiable)
  {
    GuardOnChunk(s, n, size);
  }

  predicate Applied(choice: Choice) { choice.Ok? || choice.FailApplied? }

  /** One step of a request on a session whose file holds `data` and whose client uploads `doc`; taken says whether
      the document's blob is there already. */
  function Advance(doc: Bytes, d: Digest, hash: Hashing, data: Bytes, taken: bool, pc: Pc, choice: Choice): (Effect, Pc) {
    match pc
    case Checking(s, n) => (Keep, Check(s, n, |data|, choice.Ok?))
    case Opening(s, n) => if choice.Ok? then (Write(data), Writing(s, n, 0)) else (Keep, Replied(500))
    case Writing(s, n, k) =>
      if choice.Part? then
        if k + choice.n <= n && s + n <= |doc|
        then (Write(data + doc[s + k..s + k + choice.n]), Writing(s, n, k + choice.n))
        else (Keep, pc)
      else if !choice.Ok? then (Keep, Replied(500))
      else if k == n then (Keep, Replied(202))
      else (Keep, pc)
    case PutOpening(s, n) => if choice.Ok? then (Write(data), PutWriting(s, n, 0)) else (Keep, Replied(500))
    case PutWriting(s, n, k) =>
      // The body goes to the end of the file, wherever that is.
      if choice.Part? then
        if k + choice.n <= n && s + n <= |doc|
        then (Write(data + doc[s + k..s + k + choice.n]), PutWriting(s, n, k + choice.n))
        else (Keep, pc)
      else if !choice.Ok? then (Keep, Replied(500))
      else if k == n then (Keep, Committing)
      else (Keep, pc)
    case Committing =>
      if !choice.Ok? then (Keep, Replied(500))
      else if !hash.Fits(d, data) then (Keep, Replied(400))
      else (Keep, Moving)
    case Moving =>
      // If the blob is there the file is removed, and an error of that is ignored; otherwise it is renamed.
      if taken then (if Applied(choice) then Drop else Keep, Replied(201))
      else (if Applied(choice) then Publish else Keep, Replied(if choice.Ok? then 201 else 500))
    case Replied(_) => (Keep, pc)
  }

  function Apply(c: Clients, st: State, id: Id, e: Effect): State {
    match e
    case Keep => st
    case Write(data) => st.(files := st.files[id := data])
    case Publish =>
      var d := c.names(id);
      st.(files := st.files - {id}, blobs := st.blobs[d := Content(st, id)])
    case Drop => st.(files := st.files - {id})
  }

  predicate Taken(c: Clients, st: State, id: Id) { c.names(id) in st.blobs }

  // A commit cannot open or move a file that is gone.
  function Met(st: State, r: nat, choice: Choice): Choice {
    if r in st.reqs && (st.reqs[r].pc.Committing? || st.reqs[r].pc.Moving?) && st.reqs[r].id !in st.files then Choice.Fail
    else choice
  }

  function Step(c: Clients, st: State, a: Action): State {
    match a
    case SendPatch(r, id, s, n) =>
      if r in st.reqs || s + n > |c.docs(id)| then st
      else st.(reqs := st.reqs[r := Request(id, Checking(s, n))])
    case SendPut(r, id, s, n) =>
      if r in st.reqs || s + n > |c.docs(id)| then st
      else st.(reqs := st.reqs[r := Request(id, PutOpening(s, n))])
    case Go(r, choice) =>
      if r !in st.reqs then st
      else
        var id := st.reqs[r].id;
        var (e, pc) := Advance(c.docs(id), c.names(id), c.hash, Content(st, id), Taken(c, st, id), st.reqs[r].pc, Met(st, r, choice));
        Apply(c, st, id, e).(reqs := st.reqs[r := Request(id, pc)])
  }

  function Exec(c: Clients, st: State, acts: seq<Action>): State {
    if acts == [] then st else Step(c, Exec(c, st, acts[..|acts| - 1]), acts[|acts| - 1])
  }

  /** No request of this session is in flight. */
  predicate Idle(st: State, id: Id) {
    forall r | r in st.reqs && st.reqs[r].id == id :: st.reqs[r].pc.Replied?
  }

  // A body sent with a PUT, which is not checked, goes on from the size the client was told.
  predicate Allowed(st: State, a: Action) {
    && (!a.Go? ==> Idle(st, a.id))
    && (a.SendPut? && a.n > 0 ==> a.s == |Content(st, a.id)|)
  }

  /** Clients keep at most one request of a session in flight, and ask for its size before a PUT with a body. */
  predicate Disciplined(c: Clients, st: State, acts: seq<Action>) {
    acts == [] ||
    (var before := acts[..|acts| - 1];
     Disciplined(c, st, before) && Allowed(Exec(c, st, before), acts[|acts| - 1]))
  }

  predicate PcOk(doc: Bytes, d: Digest, hash: Hashing, data: Bytes, pc: Pc) {
    match pc
    case Checking(s, n) => s + n <= |doc|
    case Opening(s, n) => s + n <= |doc| && |data| == s
    case Writing(s, n, k) => s + n <= |doc| && k <= n && |data| == s + k
    case PutOpening(s, n) => s + n <= |doc| && (n > 0 ==> |data| == s)
    case PutWriting(s, n, k) => s + n <= |doc| && k <= n && (n > 0 ==> |data| == s + k)
    case Moving => hash.Fits(d, data)
    case _ => true
  }

  // A PUT that has opened the session file.
  predicate InPut(pc: Pc) { pc.PutWriting? || pc.Committing? || pc.Moving? }

  ghost predicate Inv(c: Clients, st: State) {
    && (forall id | id in st.files :: st.files[id] <= c.docs(id))
    && (forall r | r in st.reqs :: PcOk(c.docs(st.reqs[r].id), c.names(st.reqs[r].id), c.hash, Content(st, st.reqs[r].id), st.reqs[r].pc))
    && (forall r | r in st.reqs && InPut(st.reqs[r].pc) :: st.reqs[r].id in st.files)
    && (forall r, q | r in st.reqs && q in st.reqs && r != q && st.reqs[r].id == st.reqs[q].id ::
          st.reqs[r].pc.Replied? || st.reqs[q].pc.Replied?)
    && (forall d | d in st.blobs :: c.hash.Fits(d, st.blobs[d]))
  }

  lemma AdvanceOk(doc: Bytes, d: Digest, hash: Hashing, data: Bytes, taken: bool, pc: Pc, choice: Choice)
    requires data <= doc && PcOk(doc, d, hash, data, pc)
    ensures var (e, pc') := Advance(doc, d, hash, data, taken, pc, choice);
            var data' := if e.Write? then e.data else if e.Publish? || e.Drop? then [] else data;
            && data' <= doc && PcOk(doc, d, hash, data', pc')
            && (pc.Replied? ==> e.Keep? && pc' == pc)
            && (e.Publish? ==> hash.Fits(d, data)) && (e.Publish? || e.Drop? ==> pc'.Replied?)
            && (InPut(pc') ==> e.Write? || InPut(pc))
  {
  }

  // One session's file and one of its requests move on.
  lemma ReplaceRequest(c: Clients, st: State, st': State, r: nat, pc: Pc)
    requires Inv(c, st) && r in st.reqs && st'.reqs == st.reqs[r := Request(st.reqs[r].id, pc)]
    requires var id := st.reqs[r].id;
             && Content(st', id) <= c.docs(id) && PcOk(c.docs(id), c.names(id), c.hash, Content(st', id), pc)
             && (InPut(pc) ==> id in st'.files)
             && (st.reqs[r].pc.Replied? ==> st'.files == st.files && pc == st.reqs[r].pc)
             && forall o | o != id :: Content(st', o) == Content(st, o) && (o in st'.files <==> o in st.files)
    requires forall d | d in st'.blobs :: c.hash.Fits(d, st'.blobs[d])
    ensures Inv(c, st')
  {
    var id := st.reqs[r].id;
    forall q | q in st.reqs && q != r
      ensures PcOk(c.docs(st.reqs[q].id), c.names(st.reqs[q].id), c.hash, Content(st', st.reqs[q].id), st.reqs[q].pc)
      ensures InPut(st.reqs[q].pc) ==> st.reqs[q].id in st'.files
    {
      if st.reqs[q].id == id {
        assert st.reqs[q].pc.Replied? || st.reqs[r].pc.Replied?;
      }
    }
  }

  lemma ApplyIs(c: Clients, st: State, id: Id, e: Effect)
    ensures var st' := Apply(c, st, id, e);
            && st'.reqs == st.reqs
            && Content(st', id) == (if e.Write? then e.data else if e.Publish? || e.Drop? then [] else Content(st, id))
            && (e.Write? ==> id in st'.files) && (e.Keep? ==> st' == st)
            && (forall o | o != id :: Content(st', o) == Content(st, o) && (o in st'.files <==> o in st.files))
            && (forall d | d in st'.blobs ::
                  (d in st.blobs && st'.blobs[d] == st.blobs[d])
                  || (e.Publish? && d == c.names(id) && st'.blobs[d] == Content(st, id)))
  {
  }

  lemma ApplyKeepsInv(c: Clients, st: State, r: nat, e: Effect, pc: Pc)
    requires Inv(c, st) && r in st.reqs
    requires var q := st.reqs[r];
             var data := Content(st, q.id);
             var data' := if e.Write? then e.data else if e.Publish? || e.Drop? then [] else data;
             && data' <= c.docs(q.id) && PcOk(c.docs(q.id), c.names(q.id), c.hash, data', pc)
             && (q.pc.Replied? ==> e.Keep? && pc == q.pc)
             && (e.Publish? ==> c.hash.Fits(c.names(q.id), data)) && (e.Publish? || e.Drop? ==> pc.Replied?)
             && (InPut(pc) ==> e.Write? || InPut(q.pc))
    ensures Inv(c, Apply(c, st, st.reqs[r].id, e).(reqs := st.reqs[r := Request(st.reqs[r].id, pc)]))
  {
    ApplyIs(c, st, st.reqs[r].id, e);
    ReplaceRequest(c, st, Apply(c, st, st.reqs[r].id, e).(reqs := st.reqs[r := Request(st.reqs[r].id, pc)]), r, pc);
  }

  lemma StepKeepsInv(c: Clients, st: State, a: Action)
    requires Inv(c, st)
    requires Allowed(st, a)
    ensures Inv(c, Step(c, st, a))
  {
    if a.Go? && a.r in st.reqs {
      var id, choice := st.reqs[a.r].id, Met(st, a.r, a.choice);
      AdvanceOk(c.docs(id), c.names(id), c.hash, Content(st, id), Taken(c, st, id), st.reqs[a.r].pc, choice);
      var (e, pc) := Advance(c.docs(id), c.names(id), c.hash, Content(st, id), Taken(c, st, id), st.reqs[a.r].pc, choice);
      ApplyKeepsInv(c, st, a.r, e, pc);
    }
  }

  lemma {:induction false} RunInv(c: Clients, acts: seq<Action>)
    requires Disciplined(c, EMPTY, acts)
    ensures Inv(c, Exec(c, EMPTY, acts))
  {
    if acts != [] {
      RunInv(c, acts[..|acts| - 1]);
      StepKeepsInv(c, Exec(c, EMPTY, acts[..|acts| - 1]), acts[|acts| - 1]);
    }
  }

  /** Whatever was retried, reordered, refused or cut short: every session file is a prefix of its document. */
  lemma SessionIsPrefix(c: Clients, acts: seq<Action>)
    requires Disciplined(c, EMPTY, acts)
    ensures var st := Exec(c, EMPTY, acts); forall id | id in st.files :: st.files[id] <= c.docs(id)
  {
    RunInv(c, acts);
  }

  /** While an accepted chunk is being written, the file is exactly the document up to the last byte written. */
  lemma WriterAtFileEnd(c: Clients, acts: seq<Action>, r: nat)
    requires Disciplined(c, EMPTY, acts)
    requires var st := Exec(c, EMPTY, acts); r in st.reqs && st.reqs[r].pc.Writing?
    ensures var st := Exec(c, EMPTY, acts);
            var id, pc := st.reqs[r].id, st.reqs[r].pc;
            pc.s + pc.k <= |c.docs(id)| && Content(st, id) == c.docs(id)[..pc.s + pc.k]
  {
    RunInv(c, acts);
  }

  /** Checking a range, and so every 416, leaves files and blobs as they were. */
  lemma CheckOnlyReplies(c: Clients, st: State, r: nat, choice: Choice)
    requires r in st.reqs && st.reqs[r].pc.Checking?
    ensures var id, pc := st.reqs[r].id, st.reqs[r].pc;
            var reply := Check(pc.s, pc.n, |Content(st, id)|, choice.Ok?);
            Step(c, st, Go(r, choice)) == st.(reqs := st.reqs[r := Request(id, reply)])
  {
  }

  // A request that may still be refused by the range check, or was.
  predicate Refusable(st: State, r: nat) {
    r in st.reqs ==> st.reqs[r].pc.Checking? || st.reqs[r].pc == Replied(416)
  }

  /** Over any run, disciplined or not: no step of a request that ends in 416 changed a file or a blob. */
  lemma {:induction false} RefusalChangesNothing(c: Clients, acts: seq<Action>, r: nat, i: nat)
    requires i < |acts| && acts[i].Go? && acts[i].r == r && Refusable(Exec(c, EMPTY, acts), r)
    ensures Exec(c, EMPTY, acts[..i + 1]).files == Exec(c, EMPTY, acts[..i]).files
    ensures Exec(c, EMPTY, acts[..i + 1]).blobs == Exec(c, EMPTY, acts[..i]).blobs
  {
    var last := |acts| - 1;
    if i == last {
      assert acts[..i + 1] == acts;
    } else {
      RefusalChangesNothing(c, acts[..last], r, i);
      assert acts[..last][..i] == acts[..i] && acts[..last][..i + 1] == acts[..i + 1];
    }
  }

  /**
   * With an injective digest, the commit of a PUT whose body is in the file, whose verification is one step and whose
   * removal or rename is the next. It is verified exactly when the whole document has arrived, and answers 400 and
   * changes nothing when it has not. A verified one answers 201 if the blob was there already, whether or not the
   * session file could be removed, and otherwise exactly when the rename succeeds; the session file is gone exactly
   * when its removal or rename took effect.
   */
  lemma CommitExact(c: Clients, acts: seq<Action>, r: nat, move: Choice)
    requires Disciplined(c, EMPTY, acts) && Injective(c.hash)
    requires var st := Exec(c, EMPTY, acts);
             && r in st.reqs && st.reqs[r].pc == Committing
             && c.hash.Fits(c.names(st.reqs[r].id), c.docs(st.reqs[r].id))
    ensures var st := Exec(c, EMPTY, acts);
            var id := st.reqs[r].id;
            var doc, d, st1 := c.docs(id), c.names(id), Step(c, st, Go(r, Ok));
            var st2 := Step(c, st1, Go(r, move));
            && (Content(st, id) != doc ==> st1 == st.(reqs := st.reqs[r := Request(id, Replied(400))]))
            && (Content(st, id) == doc ==>
                  && st1 == st.(reqs := st.reqs[r := Request(id, Moving)])
                  && st2.reqs[r].pc == Replied(if d in st.blobs || move.Ok? then 201 else 500)
                  && (d in st.blobs || Applied(move) ==> d in st2.blobs && st2.blobs[d] == doc)
                  && (id in st2.files <==> !Applied(move)) && (id in st2.files ==> st2.files[id] == doc))
  {
    RunInv(c, acts);
    CommitSteps(c, Exec(c, EMPTY, acts), r, move);
  }

  lemma CommitSteps(c: Clients, st: State, r: nat, move: Choice)
    requires Inv(c, st) && Injective(c.hash) && r in st.reqs && st.reqs[r].pc == Committing
    requires c.hash.Fits(c.names(st.reqs[r].id), c.docs(st.reqs[r].id))
    ensures var id := st.reqs[r].id;
            var doc, d, st1 := c.docs(id), c.names(id), Step(c, st, Go(r, Ok));
            var st2 := Step(c, st1, Go(r, move));
            && (Content(st, id) != doc ==> st1 == st.(reqs := st.reqs[r := Request(id, Replied(400))]))
            && (Content(st, id) == doc ==>
                  && st1 == st.(reqs := st.reqs[r := Request(id, Moving)])
                  && st2.reqs[r].pc == Replied(if d in st.blobs || move.Ok? then 201 else 500)
                  && (d in st.blobs || Applied(move) ==> d in st2.blobs && st2.blobs[d] == doc)
                  && (id in st2.files <==> !Applied(move)) && (id in st2.files ==> st2.files[id] == doc))
  {
  }

  /** Nothing checks where a PUT's body goes: appended to a prefix of the document it leaves a prefix exactly when
      its bytes are the next ones. */
  lemma PutBodyExactly(c: Clients, st: State, r: nat, id: Id, s: nat, n: nat)
    requires r !in st.reqs && s + n <= |c.docs(id)| && Content(st, id) <= c.docs(id)
    ensures var doc, size := c.docs(id), |Content(st, id)|;
            var st' := Exec(c, st, [SendPut(r, id, s, n), Go(r, Ok), Go(r, Part(n))]);
            && Content(st', id) == Content(st, id) + doc[s..s + n]
            && (Content(st', id) <= doc <==> size + n <= |doc| && doc[size..size + n] == doc[s..s + n])
  {
    var doc, data := c.docs(id), Content(st, id);
    PutAll(c, st, r, id, s, n);
    if |data| + n <= |doc| {
      assert doc[..|data| + n] == data + doc[|data|..|data| + n];
      assert (data + doc[s..s + n])[|data|..] == doc[s..s + n];
      assert (data + doc[|data|..|data| + n])[|data|..] == doc[|data|..|data| + n];
    }
  }

  lemma PutOpens(c: Clients, st: State, r: nat, id: Id, s: nat, n: nat)
    requires r !in st.reqs && s + n <= |c.docs(id)|
    ensures Step(c, Step(c, st, SendPut(r, id, s, n)), Go(r, Ok))
            == State(st.files[id := Content(st, id)], st.blobs, st.reqs[r := Request(id, PutWriting(s, n, 0))])
  {
    var o, w := Request(id, PutOpening(s, n)), Request(id, PutWriting(s, n, 0));
    assert st.reqs[r := o][r := w] == st.reqs[r := w];
  }

  lemma PutWrites(c: Clients, st: State, files: map<Id, Bytes>, reqs: map<nat, Request>, r: nat, id: Id, s: nat, n: nat)
    requires s + n <= |c.docs(id)| && id in files
    requires st.files == files && st.reqs == reqs[r := Request(id, PutWriting(s, n, 0))]
    ensures Step(c, st, Go(r, Part(n)))
            == State(files[id := files[id] + c.docs(id)[s..s + n]], st.blobs, reqs[r := Request(id, PutWriting(s, n, n))])
  {
    var w, z := Request(id, PutWriting(s, n, 0)), Request(id, PutWriting(s, n, n));
    assert reqs[r := w][r := z] == reqs[r := z];
  }

  lemma PutAll(c: Clients, st: State, r: nat, id: Id, s: nat, n: nat)
    requires r !in st.reqs && s + n <= |c.docs(id)|
    ensures Exec(c, st, PutActs(r, id, s, n))
            == State(st.files[id := Content(st, id) + c.docs(id)[s..s + n]], st.blobs,
                     st.reqs[r := Request(id, PutWriting(s, n, n))])
    ensures Idle(st, id) && (n > 0 ==> s == |Content(st, id)|) ==> Disciplined(c, st, PutActs(r, id, s, n))
  {
    ThreeSteps(c, st, SendPut(r, id, s, n), Go(r, Ok), Go(r, Part(n)));
    PutOpens(c, st, r, id, s, n);
    var created := st.files[id := Content(st, id)];
    var st2 := Step(c, Step(c, st, SendPut(r, id, s, n)), Go(r, Ok));
    PutWrites(c, st2, created, st.reqs, r, id, s, n);
    assert created[id := created[id] + c.docs(id)[s..s + n]] == st.files[id := Content(st, id) + c.docs(id)[s..s + n]];
  }

  lemma ThreeSteps(c: Clients, st: State, a: Action, b: Action, d: Action)
    ensures Exec(c, st, [a, b, d]) == Step(c, Step(c, Step(c, st, a), b), d)
    ensures b.Go? && d.Go? ==> (Disciplined(c, st, [a, b, d]) <==> Allowed(st, a))
  {
    Snoc(c, st, [], a);
    Snoc(c, st, [a], b);
    Snoc(c, st, [a, b], d);
    assert [] + [a] == [a] && [a] + [b] == [a, b] && [a, b] + [d] == [a, b, d];
  }

  // A PUT up to the end of its body, which arrives in one piece, and its commit.
  function PutActs(r: nat, id: Id, s: nat, n: nat): seq<Action> { [SendPut(r, id, s, n), Go(r, Ok), Go(r, Part(n))] }
  function CommitActs(r: nat): seq<Action> { [Go(r, Ok), Go(r, Ok), Go(r, Ok)] }

  // Request r was answered 201, its session is gone and its document is stored.
  predicate Published(c: Clients, st: State, r: nat, id: Id) {
    && r in st.reqs && st.reqs[r].pc == Replied(201) && id !in st.files
    && c.names(id) in st.blobs && st.blobs[c.names(id)] == c.docs(id)
  }

  lemma PutCommits(c: Clients, st: State, r: nat, id: Id, s: nat, n: nat)
    requires Injective(c.hash) && c.hash.Fits(c.names(id), c.docs(id)) && forall d | d in st.blobs :: c.hash.Fits(d, st.blobs[d])
    requires r in st.reqs && st.reqs[r] == Request(id, PutWriting(s, n, n)) && id in st.files && st.files[id] == c.docs(id)
    ensures Disciplined(c, st, CommitActs(r)) && Published(c, Exec(c, st, CommitActs(r)), r, id)
  {
    ThreeSteps(c, st, Go(r, Ok), Go(r, Ok), Go(r, Ok));
    assert Step(c, st, Go(r, Ok)).reqs[r] == Request(id, Committing);
  }

  lemma PutJoined(c: Clients, st: State, a: seq<Action>, b: seq<Action>, r: nat, id: Id)
    requires Disciplined(c, st, a) && Disciplined(c, Exec(c, st, a), b) && Published(c, Exec(c, Exec(c, st, a), b), r, id)
    ensures Disciplined(c, st, a + b) && Published(c, Exec(c, st, a + b), r, id)
  {
    RunAppend(c, st, a, b);
  }

  // The PUT's body is in the file, which holds the whole document.
  predicate Arrived(c: Clients, before: State, st: State, r: nat, id: Id, s: nat, n: nat) {
    && r in st.reqs && st.reqs[r] == Request(id, PutWriting(s, n, n))
    && id in st.files && st.files[id] == c.docs(id) && st.blobs == before.blobs
  }

  lemma Halves(doc: Bytes, s: nat, n: nat)
    requires s + n == |doc|
    ensures doc[..s] + doc[s..s + n] == doc
  {
  }

  lemma PutArrives(c: Clients, st: State, r: nat, id: Id, s: nat, n: nat)
    requires Idle(st, id) && r !in st.reqs && s + n == |c.docs(id)| && Content(st, id) == c.docs(id)[..s]
    ensures Disciplined(c, st, PutActs(r, id, s, n)) && Arrived(c, st, Exec(c, st, PutActs(r, id, s, n)), r, id, s, n)
  {
    Halves(c.docs(id), s, n);
    PutAll(c, st, r, id, s, n);
  }

  lemma PutRest(c: Clients, st: State, r: nat, id: Id, s: nat, n: nat)
    requires Injective(c.hash) && c.hash.Fits(c.names(id), c.docs(id)) && forall d | d in st.blobs :: c.hash.Fits(d, st.blobs[d])
    requires Idle(st, id) && r !in st.reqs && s + n == |c.docs(id)| && Content(st, id) == c.docs(id)[..s]
    ensures var more := PutActs(r, id, s, n) + CommitActs(r);
            Disciplined(c, st, more) && Published(c, Exec(c, st, more), r, id)
  {
    PutArrives(c, st, r, id, s, n);
    PutCommits(c, Exec(c, st, PutActs(r, id, s, n)), r, id, s, n);
    PutJoined(c, st, PutActs(r, id, s, n), CommitActs(r), r, id);
  }

  /** However a session was interrupted, one PUT with the missing bytes as its body, none if nothing is missing,
      completes it and publishes the document. */
  lemma PutFinishes(c: Clients, acts: seq<Action>, r: nat, id: Id, more: seq<Action>)
    requires Disciplined(c, EMPTY, acts) && Injective(c.hash) && c.hash.Fits(c.names(id), c.docs(id))
    requires var st := Exec(c, EMPTY, acts);
             && Idle(st, id) && r !in st.reqs && |Content(st, id)| <= |c.docs(id)|
             && more == PutActs(r, id, |Content(st, id)|, |c.docs(id)| - |Content(st, id)|) + CommitActs(r)
    ensures Disciplined(c, EMPTY, acts + more) && Published(c, Exec(c, EMPTY, acts + more), r, id)
  {
    var st := Exec(c, EMPTY, acts);
    PrefixReached(c, acts, id);
    assert forall d | d in st.blobs :: c.hash.Fits(d, st.blobs[d]) by { RunInv(c, acts); }
    PutRest(c, st, r, id, |Content(st, id)|, |c.docs(id)| - |Content(st, id)|);
    RunAppend(c, EMPTY, acts, more);
  }

  lemma {:induction false} RunAppend(c: Clients, st: State, a: seq<Action>, b: seq<Action>)
    ensures Exec(c, st, a + b) == Exec(c, Exec(c, st, a), b)
    ensures Disciplined(c, st, a + b) <==> Disciplined(c, st, a) && Disciplined(c, Exec(c, st, a), b)
  {
    if b == [] {
      assert a + b == a;
    } else {
      RunAppend(c, st, a, b[..|b| - 1]);
      assert (a + b)[..|a + b| - 1] == a + b[..|b| - 1];
    }
  }

  // A PATCH up to the opening of the file, and its body arriving in one piece.
  function OpenActs(r: nat, id: Id, s: nat, n: nat): seq<Action> { [SendPatch(r, id, s, n), Go(r, Ok), Go(r, Ok)] }
  function WriteActs(r: nat, n: nat): seq<Action> { [Go(r, Part(n)), Go(r, Ok)] }

  lemma PatchChecked(c: Clients, st: State, r: nat, id: Id, s: nat, n: nat)
    requires r !in st.reqs && s == |Content(st, id)| && n > 0 && s + n <= |c.docs(id)|
    ensures Step(c, Step(c, st, SendPatch(r, id, s, n)), Go(r, Ok))
            == st.(reqs := st.reqs[r := Request(id, Opening(s, n))])
  {
    var s1 := Step(c, st, SendPatch(r, id, s, n));
    CheckOnlyReplies(c, s1, r, Ok);
    assert s1.reqs[r := Request(id, Opening(s, n))] == st.reqs[r := Request(id, Opening(s, n))];
  }

  lemma PatchOpens(c: Clients, st: State, reqs: map<nat, Request>, r: nat, id: Id, s: nat, n: nat)
    requires st.reqs == reqs[r := Request(id, Opening(s, n))]
    ensures Step(c, st, Go(r, Ok))
            == State(st.files[id := Content(st, id)], st.blobs, reqs[r := Request(id, Writing(s, n, 0))])
  {
    assert reqs[r := Request(id, Opening(s, n))][r := Request(id, Writing(s, n, 0))] == reqs[r := Request(id, Writing(s, n, 0))];
  }

  /** A PATCH of n > 0 bytes from the file's end passes the check and opens the file. */
  lemma OpenAll(c: Clients, st: State, r: nat, id: Id, s: nat, n: nat)
    requires r !in st.reqs && s == |Content(st, id)| && n > 0 && s + n <= |c.docs(id)|
    ensures Exec(c, st, OpenActs(r, id, s, n))
         == State(st.files[id := Content(st, id)], st.blobs, st.reqs[r := Request(id, Writing(s, n, 0))])
    ensures Idle(st, id) ==> Disciplined(c, st, OpenActs(r, id, s, n))
  {
    ThreeSteps(c, st, SendPatch(r, id, s, n), Go(r, Ok), Go(r, Ok));
    PatchChecked(c, st, r, id, s, n);
    PatchOpens(c, st.(reqs := st.reqs[r := Request(id, Opening(s, n))]), st.reqs, r, id, s, n);
  }

  lemma Snoc(c: Clients, st: State, acts: seq<Action>, a: Action)
    ensures Exec(c, st, acts + [a]) == Step(c, Exec(c, st, acts), a)
    ensures Disciplined(c, st, acts + [a])
            <==> Disciplined(c, st, acts) && Allowed(Exec(c, st, acts), a)
  {
    assert (acts + [a])[..|acts + [a]| - 1] == acts;
  }

  /** A writer gets its whole body into the file and is answered 202. */
  lemma WriteAll(c: Clients, st: State, r: nat, id: Id, s: nat, n: nat)
    requires r in st.reqs && st.reqs[r] == Request(id, Writing(s, n, 0)) && s + n <= |c.docs(id)|
    ensures Exec(c, st, WriteActs(r, n))
         == State(st.files[id := Content(st, id) + c.docs(id)[s..s + n]], st.blobs,
                  st.reqs[r := Request(id, Replied(202))])
    ensures Disciplined(c, st, WriteActs(r, n))
  {
    var acts := WriteActs(r, n);
    Snoc(c, st, [], acts[0]);
    Snoc(c, st, [acts[0]], acts[1]);
    assert [] + [acts[0]] == [acts[0]] && [acts[0]] + [acts[1]] == acts;
    assert st.reqs[r := Request(id, Writing(s, n, n))][r := Request(id, Replied(202))]
        == st.reqs[r := Request(id, Replied(202))];
  }

  // Request r was answered 202 and its session holds the whole document.
  predicate Completed(c: Clients, st: State, r: nat, id: Id) {
    r in st.reqs && st.reqs[r].pc == Replied(202) && Content(st, id) == c.docs(id)
  }

  lemma WriteRest(c: Clients, st: State, r: nat, id: Id, s: nat, n: nat)
    requires r in st.reqs && st.reqs[r] == Request(id, Writing(s, n, 0)) && s + n == |c.docs(id)|
    requires Content(st, id) == c.docs(id)[..s]
    ensures Disciplined(c, st, WriteActs(r, n)) && Completed(c, Exec(c, st, WriteActs(r, n)), r, id)
  {
    WriteAll(c, st, r, id, s, n);
    assert c.docs(id)[..s] + c.docs(id)[s..s + n] == c.docs(id);
  }

  lemma Resume(c: Clients, st: State, r: nat, id: Id, s: nat, n: nat)
    requires Idle(st, id) && r !in st.reqs && s == |Content(st, id)| && n > 0 && s + n == |c.docs(id)|
    requires Content(st, id) <= c.docs(id)
    ensures Disciplined(c, st, OpenActs(r, id, s, n) + WriteActs(r, n))
    ensures Completed(c, Exec(c, st, OpenActs(r, id, s, n) + WriteActs(r, n)), r, id)
  {
    OpenAll(c, st, r, id, s, n);
    WriteRest(c, Exec(c, st, OpenActs(r, id, s, n)), r, id, s, n);
    RunAppend(c, st, OpenActs(r, id, s, n), WriteActs(r, n));
  }

  /** However a session was interrupted, one PATCH of the missing bytes from the reported size completes it. */
  lemma ResumeCompletes(c: Clients, acts: seq<Action>, r: nat, id: Id, more: seq<Action>)
    requires Disciplined(c, EMPTY, acts)
    requires var st := Exec(c, EMPTY, acts);
             && Idle(st, id) && r !in st.reqs && |Content(st, id)| < |c.docs(id)|
             && more == OpenActs(r, id, |Content(st, id)|, |c.docs(id)| - |Content(st, id)|)
                        + WriteActs(r, |c.docs(id)| - |Content(st, id)|)
    ensures Disciplined(c, EMPTY, acts + more) && Completed(c, Exec(c, EMPTY, acts + more), r, id)
  {
    var st := Exec(c, EMPTY, acts);
    var s, n := |Content(st, id)|, |c.docs(id)| - |Content(st, id)|;
    PrefixReached(c, acts, id);
    assert Disciplined(c, st, more) && Completed(c, Exec(c, st, more), r, id) by { Resume(c, st, r, id, s, n); }
    RunAppend(c, EMPTY, acts, more);
  }

  lemma PrefixReached(c: Clients, acts: seq<Action>, id: Id)
    requires Disciplined(c, EMPTY, acts)
    ensures Content(Exec(c, EMPTY, acts), id) <= c.docs(id)
  {
    RunInv(c, acts);
  }

  lemma BothOpen(c: Clients, id: Id, n: nat)
    requires 0 < n <= |c.docs(id)|
    ensures var w := Request(id, Writing(0, n, 0));
            Exec(c, EMPTY, OpenActs(0, id, 0, n) + OpenActs(1, id, 0, n))
            == State(map[id := []], map[], map[0 := w, 1 := w])
  {
    var w := Request(id, Writing(0, n, 0));
    OpenAll(c, EMPTY, 0, id, 0, n);
    var s1 := State(map[id := []], map[], map[0 := w]);
    OpenAll(c, s1, 1, id, 0, n);
    RunAppend(c, EMPTY, OpenActs(0, id, 0, n), OpenActs(1, id, 0, n));
    assert s1.files[id := []] == s1.files && s1.reqs[1 := w] == map[0 := w, 1 := w];
  }

  lemma BothWrite(c: Clients, id: Id, st: State)
    requires var w := Request(id, Writing(0, |c.docs(id)|, 0));
             Content(st, id) == [] && 0 in st.reqs && 1 in st.reqs && st.reqs[0] == st.reqs[1] == w
    ensures var n := |c.docs(id)|;
            Content(Exec(c, st, [Go(0, Part(n)), Go(1, Part(n))]), id) == c.docs(id) + c.docs(id)
  {
    var n, doc := |c.docs(id)|, c.docs(id);
    assert doc[0..n] == doc && [] + doc == doc;
    WriteStep(c, st, 0, id, 0, n);
    WriteStep(c, Step(c, st, Go(0, Part(n))), 1, id, 0, n);
    Snoc(c, st, [], Go(0, Part(n)));
    Snoc(c, st, [Go(0, Part(n))], Go(1, Part(n)));
    assert [] + [Go(0, Part(n))] == [Go(0, Part(n))] && [Go(0, Part(n))] + [Go(1, Part(n))] == [Go(0, Part(n)), Go(1, Part(n))];
  }

  lemma WriteStep(c: Clients, st: State, r: nat, id: Id, s: nat, n: nat)
    requires r in st.reqs && st.reqs[r] == Request(id, Writing(s, n, 0)) && s + n <= |c.docs(id)|
    ensures Step(c, st, Go(r, Part(n)))
         == State(st.files[id := Content(st, id) + c.docs(id)[s..s + n]], st.blobs,
                  st.reqs[r := Request(id, Writing(s, n, n))])
  {
  }

  /** Without the discipline two overlapping requests of one session both pass the check, and the document
      ends up in the file twice. */
  lemma OverlapCorrupts(c: Clients, id: Id)
    requires c.docs(id) != []
    ensures var n := |c.docs(id)|;
            var acts := (OpenActs(0, id, 0, n) + OpenActs(1, id, 0, n)) + [Go(0, Part(n)), Go(1, Part(n))];
            Content(Exec(c, EMPTY, acts), id) == c.docs(id) + c.docs(id)
    ensures !(c.docs(id) + c.docs(id) <= c.docs(id))
  {
    var n := |c.docs(id)|;
    BothOpen(c, id, n);
    BothWrite(c, id, Exec(c, EMPTY, OpenActs(0, id, 0, n) + OpenActs(1, id, 0, n)));
    RunAppend(c, EMPTY, OpenActs(0, id, 0, n) + OpenActs(1, id, 0, n), [Go(0, Part(n)), Go(1, Part(n))]);
  }
}
