/**
 * What a PATCH or a PUT of an upload session is answered, told from what its own steps met, whatever other requests do
 * in between (ctf-registry/handler/blobupload.go, ctf-registry/storage/filesystem/filesystem.go).
 */
module UploadAnswers {
  import opened Common
  import opened UploadSession

  // One step of a request: the files and blobs it met, how it went, and those it left.
  datatype Turn = Turn(before: State, c: Choice, after: State)

  // The step of request r that an action is. A piece that has no bytes, or goes beyond the body, is none.
  function OwnTurn(c: Clients, st: State, a: Action, r: nat): seq<Turn> {
    if a.Go? && a.r == r && r in st.reqs && Step(c, st, a).reqs[r] != st.reqs[r] then [Turn(st, a.choice, Step(c, st, a))] else []
  }

  /** The steps a request takes along a run. */
  function Turns(c: Clients, st: State, acts: seq<Action>, r: nat): seq<Turn> {
    if acts == [] then []
    else
      var before := acts[..|acts| - 1];
      Turns(c, st, before, r) + OwnTurn(c, Exec(c, st, before), acts[|acts| - 1], r)
  }

  predicate Still(t: Turn) { t.after.files == t.before.files && t.after.blobs == t.before.blobs }

  // The step put these bytes at the end of the session's file, which it creates if it is not there.
  predicate Appends(t: Turn, id: Id, piece: Bytes) {
    t.after.blobs == t.before.blobs && t.after.files == t.before.files[id := Content(t.before, id) + piece]
  }

  /** The steps appended k bytes of the document from s on, piece after piece. */
  predicate Pieces(doc: Bytes, id: Id, s: nat, turns: seq<Turn>, k: nat) {
    if turns == [] then k == 0
    else
      var t := turns[|turns| - 1];
      && t.c.Part? && t.c.n <= k && s + k <= |doc|
      && Appends(t, id, doc[s + k - t.c.n..s + k])
      && Pieces(doc, id, s, turns[..|turns| - 1], k - t.c.n)
  }

  lemma OnePiece(doc: Bytes, id: Id, s: nat, turns: seq<Turn>, k: nat, t: Turn)
    requires Pieces(doc, id, s, turns, k) && t.c.Part? && s + k + t.c.n <= |doc|
    requires Appends(t, id, doc[s + k..s + k + t.c.n])
    ensures Pieces(doc, id, s, turns + [t], k + t.c.n)
  {
    assert (turns + [t])[..|turns|] == turns;
  }

  // A PATCH of n bytes from s whose range was accepted: the check, the opening, and pieces that add up to k bytes.
  predicate Patched(doc: Bytes, id: Id, s: nat, n: nat, turns: seq<Turn>, k: nat) {
    && n > 0 && |turns| >= 2 && turns[0].c.Ok? && Still(turns[0]) && |Content(turns[0].before, id)| == s
    && turns[1].c.Ok? && Appends(turns[1], id, [])
    && k <= n && Pieces(doc, id, s, turns[2..], k)
  }

  /** 202 means that the session had s bytes when it was checked and all n bytes were appended since; 416 that the
      range is empty or does not start at the size, and nothing was changed; 500 that the last step failed. */
  predicate PatchAnswer(doc: Bytes, id: Id, s: nat, n: nat, turns: seq<Turn>, code: nat) {
    var m := |turns|;
    && m >= 1 && Still(turns[m - 1])
    && (code == 416 <==> m == 1 && (n == 0 || (turns[0].c.Ok? && |Content(turns[0].before, id)| != s)))
    && (code == 202 <==> turns[m - 1].c.Ok? && m >= 3 && Patched(doc, id, s, n, turns[..m - 1], n))
    && (code == 500 <==> !turns[m - 1].c.Ok? && (m == 1 ==> n > 0))
    && code in {416, 202, 500}
  }

  predicate PatchStands(doc: Bytes, id: Id, s: nat, n: nat, turns: seq<Turn>, pc: Pc) {
    match pc
    case Checking(a, b) => a == s && b == n && turns == []
    case Opening(a, b) =>
      && a == s && b == n && n > 0 && |turns| == 1 && turns[0].c.Ok? && Still(turns[0])
      && |Content(turns[0].before, id)| == s
    case Writing(a, b, k) => a == s && b == n && Patched(doc, id, s, n, turns, k)
    case Replied(code) => PatchAnswer(doc, id, s, n, turns, code)
    case _ => false
  }

  // A PUT with n bytes from s: the opening, and pieces that add up to k bytes.
  predicate Sent(doc: Bytes, id: Id, s: nat, n: nat, turns: seq<Turn>, k: nat) {
    && |turns| >= 1 && turns[0].c.Ok? && Appends(turns[0], id, [])
    && k <= n && Pieces(doc, id, s, turns[1..], k)
  }

  // Its body is in the file and the commit begins.
  predicate Complete(doc: Bytes, id: Id, s: nat, n: nat, turns: seq<Turn>) {
    var m := |turns|;
    m >= 2 && turns[m - 1].c.Ok? && Still(turns[m - 1]) && Sent(doc, id, s, n, turns[..m - 1], n)
  }

  // A commit step finds the session's file.
  predicate Finds(t: Turn, id: Id) { t.c.Ok? && id in t.before.files }

  predicate Verified(hash: Hashing, doc: Bytes, id: Id, s: nat, n: nat, d: Digest, turns: seq<Turn>) {
    var m := |turns|;
    && m >= 3 && Complete(doc, id, s, n, turns[..m - 1]) && Still(turns[m - 1])
    && Finds(turns[m - 1], id) && hash.Fits(d, turns[m - 1].before.files[id])
  }

  // The session's file was removed because the blob is there, or became the blob.
  predicate Settled(t: Turn, id: Id, d: Digest) {
    if id !in t.before.files || !Applied(t.c) then Still(t)
    else
      && t.after.files == t.before.files - {id}
      && t.after.blobs == if d in t.before.blobs then t.before.blobs else t.before.blobs[d := t.before.files[id]]
  }

  /** 201 means that the body was written, the file then fitted the digest, and the blob is there; 400 that the file did
      not fit; 500 that the last step failed or found no file, having changed nothing unless it was the move. */
  predicate PutAnswer(hash: Hashing, doc: Bytes, id: Id, s: nat, n: nat, d: Digest, turns: seq<Turn>, code: nat) {
    var m := |turns|;
    && m >= 1
    && (code == 400 ==>
          && m >= 3 && Complete(doc, id, s, n, turns[..m - 1]) && Still(turns[m - 1])
          && Finds(turns[m - 1], id) && !hash.Fits(d, turns[m - 1].before.files[id]))
    && (code == 201 ==>
          && m >= 4 && Verified(hash, doc, id, s, n, d, turns[..m - 1]) && Settled(turns[m - 1], id, d)
          && (d in turns[m - 1].before.blobs || Finds(turns[m - 1], id)))
    && (code == 500 ==>
          && (!turns[m - 1].c.Ok? || id !in turns[m - 1].before.files)
          && (Still(turns[m - 1]) || (Verified(hash, doc, id, s, n, d, turns[..m - 1]) && Settled(turns[m - 1], id, d))))
    && code in {400, 201, 500}
  }

  predicate PutStands(hash: Hashing, doc: Bytes, id: Id, s: nat, n: nat, d: Digest, turns: seq<Turn>, pc: Pc) {
    match pc
    case PutOpening(a, b) => a == s && b == n && turns == []
    case PutWriting(a, b, k) => a == s && b == n && Sent(doc, id, s, n, turns, k)
    case Committing => Complete(doc, id, s, n, turns)
    case Moving => Verified(hash, doc, id, s, n, d, turns)
    case Replied(code) => PutAnswer(hash, doc, id, s, n, d, turns, code)
    case _ => false
  }

  lemma PutBack(turns: seq<Turn>, t: Turn)
    ensures var more, m := turns + [t], |turns|;
            && more[m] == t && more[..m] == turns
            && (m >= 1 ==> more[0] == turns[0] && more[1..] == turns[1..] + [t])
            && (m >= 2 ==> more[1] == turns[1] && more[2..] == turns[2..] + [t])
  {
  }

  lemma PatchOpens(c: Clients, st: State, r: nat, choice: Choice, s: nat, n: nat, turns: seq<Turn>)
    requires r in st.reqs && s + n <= |c.docs(st.reqs[r].id)| && Step(c, st, Go(r, choice)).reqs[r] != st.reqs[r]
    requires PatchStands(c.docs(st.reqs[r].id), st.reqs[r].id, s, n, turns, st.reqs[r].pc) && !st.reqs[r].pc.Writing?
    ensures var st' := Step(c, st, Go(r, choice));
            PatchStands(c.docs(st.reqs[r].id), st.reqs[r].id, s, n, turns + [Turn(st, choice, st')], st'.reqs[r].pc)
  {
    var id, t := st.reqs[r].id, Turn(st, choice, Step(c, st, Go(r, choice)));
    PutBack(turns, t);
    assert Content(st, id) + [] == Content(st, id);
  }

  lemma PatchWrites(c: Clients, st: State, r: nat, choice: Choice, s: nat, n: nat, turns: seq<Turn>)
    requires r in st.reqs && s + n <= |c.docs(st.reqs[r].id)| && Step(c, st, Go(r, choice)).reqs[r] != st.reqs[r]
    requires PatchStands(c.docs(st.reqs[r].id), st.reqs[r].id, s, n, turns, st.reqs[r].pc) && st.reqs[r].pc.Writing?
    ensures var st' := Step(c, st, Go(r, choice));
            PatchStands(c.docs(st.reqs[r].id), st.reqs[r].id, s, n, turns + [Turn(st, choice, st')], st'.reqs[r].pc)
  {
    var id, t := st.reqs[r].id, Turn(st, choice, Step(c, st, Go(r, choice)));
    PutBack(turns, t);
    if choice.Part? {
      OnePiece(c.docs(id), id, s, turns[2..], st.reqs[r].pc.k, t);
    }
  }

  lemma PutOpens(c: Clients, st: State, r: nat, choice: Choice, s: nat, n: nat, turns: seq<Turn>)
    requires r in st.reqs && s + n <= |c.docs(st.reqs[r].id)| && Step(c, st, Go(r, choice)).reqs[r] != st.reqs[r]
    requires var id := st.reqs[r].id; PutStands(c.hash, c.docs(id), id, s, n, c.names(id), turns, st.reqs[r].pc)
    requires st.reqs[r].pc.PutOpening?
    ensures var id, st' := st.reqs[r].id, Step(c, st, Go(r, choice));
            PutStands(c.hash, c.docs(id), id, s, n, c.names(id), turns + [Turn(st, choice, st')], st'.reqs[r].pc)
  {
    var id, t := st.reqs[r].id, Turn(st, choice, Step(c, st, Go(r, choice)));
    PutBack(turns, t);
    assert Content(st, id) + [] == Content(st, id);
  }

  lemma SentMore(doc: Bytes, id: Id, s: nat, n: nat, turns: seq<Turn>, k: nat, t: Turn)
    requires Sent(doc, id, s, n, turns, k) && t.c.Part? && k + t.c.n <= n && s + k + t.c.n <= |doc|
    requires Appends(t, id, doc[s + k..s + k + t.c.n])
    ensures Sent(doc, id, s, n, turns + [t], k + t.c.n)
  {
    PutBack(turns, t);
    OnePiece(doc, id, s, turns[1..], k, t);
  }

  lemma PutWrites(c: Clients, st: State, r: nat, choice: Choice, s: nat, n: nat, turns: seq<Turn>)
    requires r in st.reqs && s + n <= |c.docs(st.reqs[r].id)| && Step(c, st, Go(r, choice)).reqs[r] != st.reqs[r]
    requires st.reqs[r].pc.PutWriting? && st.reqs[r].pc.s == s && st.reqs[r].pc.n == n
    requires Sent(c.docs(st.reqs[r].id), st.reqs[r].id, s, n, turns, st.reqs[r].pc.k)
    ensures var id, st' := st.reqs[r].id, Step(c, st, Go(r, choice));
            PutStands(c.hash, c.docs(id), id, s, n, c.names(id), turns + [Turn(st, choice, st')], st'.reqs[r].pc)
  {
    var id, t := st.reqs[r].id, Turn(st, choice, Step(c, st, Go(r, choice)));
    if choice.Part? {
      SentMore(c.docs(id), id, s, n, turns, st.reqs[r].pc.k, t);
    } else {
      assert turns + [t] != [] && (turns + [t])[|turns + [t]| - 1] == t && (turns + [t])[..|turns + [t]| - 1] == turns;
    }
  }

  lemma PutVerifies(c: Clients, st: State, r: nat, choice: Choice, s: nat, n: nat, turns: seq<Turn>)
    requires r in st.reqs && s + n <= |c.docs(st.reqs[r].id)| && Step(c, st, Go(r, choice)).reqs[r] != st.reqs[r]
    requires var id := st.reqs[r].id; PutStands(c.hash, c.docs(id), id, s, n, c.names(id), turns, st.reqs[r].pc)
    requires st.reqs[r].pc.Committing?
    ensures var id, st' := st.reqs[r].id, Step(c, st, Go(r, choice));
            PutStands(c.hash, c.docs(id), id, s, n, c.names(id), turns + [Turn(st, choice, st')], st'.reqs[r].pc)
  {
    var id, t := st.reqs[r].id, Turn(st, choice, Step(c, st, Go(r, choice)));
    PutBack(turns, t);
  }

  lemma PutMoves(c: Clients, st: State, r: nat, choice: Choice, s: nat, n: nat, turns: seq<Turn>)
    requires r in st.reqs && s + n <= |c.docs(st.reqs[r].id)| && Step(c, st, Go(r, choice)).reqs[r] != st.reqs[r]
    requires var id := st.reqs[r].id; PutStands(c.hash, c.docs(id), id, s, n, c.names(id), turns, st.reqs[r].pc)
    requires st.reqs[r].pc.Moving?
    ensures var id, st' := st.reqs[r].id, Step(c, st, Go(r, choice));
            PutStands(c.hash, c.docs(id), id, s, n, c.names(id), turns + [Turn(st, choice, st')], st'.reqs[r].pc)
  {
    var id, t := st.reqs[r].id, Turn(st, choice, Step(c, st, Go(r, choice)));
    PutBack(turns, t);
  }

  predicate Stands(c: Clients, a: Action, turns: seq<Turn>, q: Request)
    requires !a.Go?
  {
    && q.id == a.id && a.s + a.n <= |c.docs(a.id)|
    && if a.SendPatch? then PatchStands(c.docs(a.id), a.id, a.s, a.n, turns, q.pc)
       else PutStands(c.hash, c.docs(a.id), a.id, a.s, a.n, c.names(a.id), turns, q.pc)
  }

  lemma FollowsStep(c: Clients, st: State, b: Action, a: Action, turns: seq<Turn>)
    requires !a.Go? && a.r in st.reqs && Stands(c, a, turns, st.reqs[a.r])
    ensures a.r in Step(c, st, b).reqs && Stands(c, a, turns + OwnTurn(c, st, b, a.r), Step(c, st, b).reqs[a.r])
  {
    var pc := st.reqs[a.r].pc;
    if OwnTurn(c, st, b, a.r) == [] {
      assert turns + [] == turns && Step(c, st, b).reqs[a.r] == st.reqs[a.r];
    } else if a.SendPatch? {
      if pc.Writing? {
        PatchWrites(c, st, a.r, b.choice, a.s, a.n, turns);
      } else {
        PatchOpens(c, st, a.r, b.choice, a.s, a.n, turns);
      }
    } else if pc.PutOpening? {
      PutOpens(c, st, a.r, b.choice, a.s, a.n, turns);
    } else if pc.PutWriting? {
      PutWrites(c, st, a.r, b.choice, a.s, a.n, turns);
    } else if pc.Committing? {
      PutVerifies(c, st, a.r, b.choice, a.s, a.n, turns);
    } else {
      PutMoves(c, st, a.r, b.choice, a.s, a.n, turns);
    }
  }

  lemma {:induction false} Follows(c: Clients, st: State, acts: seq<Action>, a: Action)
    requires !a.Go? && a.r in st.reqs && Stands(c, a, [], st.reqs[a.r])
    ensures var st' := Exec(c, st, acts);
            a.r in st'.reqs && Stands(c, a, Turns(c, st, acts, a.r), st'.reqs[a.r])
  {
    if acts != [] {
      var before := acts[..|acts| - 1];
      Follows(c, st, before, a);
      FollowsStep(c, Exec(c, st, before), acts[|acts| - 1], a, Turns(c, st, before, a.r));
    }
  }

  /** A PATCH along any run, from any state: how it is answered. */
  lemma PatchExactly(c: Clients, st: State, acts: seq<Action>, r: nat, id: Id, s: nat, n: nat)
    requires r !in st.reqs && s + n <= |c.docs(id)|
    ensures var st1 := Step(c, st, SendPatch(r, id, s, n));
            var st' := Exec(c, st1, acts);
            && r in st'.reqs
            && (st'.reqs[r].pc.Replied? ==> PatchAnswer(c.docs(id), id, s, n, Turns(c, st1, acts, r), st'.reqs[r].pc.code))
  {
    Follows(c, Step(c, st, SendPatch(r, id, s, n)), acts, SendPatch(r, id, s, n));
  }

  /** A PUT along any run, from any state: how it is answered. */
  lemma PutExactly(c: Clients, st: State, acts: seq<Action>, r: nat, id: Id, s: nat, n: nat)
    requires r !in st.reqs && s + n <= |c.docs(id)|
    ensures var st1 := Step(c, st, SendPut(r, id, s, n));
            var st' := Exec(c, st1, acts);
            && r in st'.reqs
            && (st'.reqs[r].pc.Replied? ==>
                  PutAnswer(c.hash, c.docs(id), id, s, n, c.names(id), Turns(c, st1, acts, r), st'.reqs[r].pc.code))
  {
    Follows(c, Step(c, st, SendPut(r, id, s, n)), acts, SendPut(r, id, s, n));
  }
}
