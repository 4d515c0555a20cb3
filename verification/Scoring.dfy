/** Flag submission, a check for an earlier correct submission followed by an insert
    (ctf-server/usecase/client_challenge.go). */
module Scoring {
  import opened Common

  datatype Challenge = Challenge(flag: string, points: nat)

  // A row's id is the identifier drawn by the call that inserted it.
  datatype Submission = Submission(id: nat, user: string, challenge: string, flag: string, correct: bool)

  datatype Call = Call(user: string, challenge: string, flag: string)

  // Solved answers (false, 0) because of an earlier correct submission.
  datatype Answer = Judged(correct: bool, points: nat) | Solved | Error

  predicate Solves(row: Submission, user: string, challenge: string) {
    row.correct && row.user == user && row.challenge == challenge
  }

  /** The correct submissions of one user for one challenge. */
  function Correct(rows: seq<Submission>, user: string, challenge: string): seq<Submission> {
    if rows == [] then []
    else
      var rest, last := Correct(rows[..|rows| - 1], user, challenge), rows[|rows| - 1];
      if Solves(last, user, challenge) then rest + [last] else rest
  }

  predicate Applied(c: Choice) { c.Ok? || c.FailApplied? }

  function Row(id: nat, call: Call, ch: Challenge): Submission {
    Submission(id, call.user, call.challenge, call.flag, ch.flag == call.flag)
  }

  // Where a call is: the query it makes next.
  datatype Pc =
    | ReadChallenge(call: Call)
    | ReadSubmissions(call: Call, ch: Challenge)
    | Insert(call: Call, ch: Challenge)
    | Done(call: Call, answer: Answer)

  /** The call that committed a pair's first correct row, and those that were about to insert one just then. */
  datatype Race = Race(winner: nat, racing: set<nat>)

  // Points a call told its user they were awarded.
  datatype Award = Award(user: string, points: nat)

  // history: who solved each pair first, the points each call read, the awards in order, and whether some correct
  // row was committed whose call was told of a failure.
  datatype State = State(
    challenges: map<string, Challenge>, rows: seq<Submission>, procs: map<nat, Pc>, first: map<(string, string), Race>,
    read: map<nat, nat>, awards: seq<Award>, unanswered: bool)

  datatype Action =
    | Submit(p: nat, call: Call)
    | Go(p: nat, c: Choice)
    | Edit(challenge: string, to: Option<Challenge>)  // an administrator changing a challenge

  predicate AboutToSolve(pc: Pc, user: string, challenge: string) {
    pc.Insert? && pc.call.user == user && pc.call.challenge == challenge && pc.ch.flag == pc.call.flag
  }

  function Racing(procs: map<nat, Pc>, p: nat, user: string, challenge: string): set<nat> {
    set q | q in procs && q != p && AboutToSolve(procs[q], user, challenge)
  }

  function Inserted(s: State, p: nat, call: Call, ch: Challenge): State {
    var pair := (call.user, call.challenge);
    s.(rows := s.rows + [Row(p, call, ch)],
       first := if ch.flag == call.flag && pair !in s.first
                then s.first[pair := Race(p, Racing(s.procs, p, call.user, call.challenge))]
                else s.first)
  }

  function Advance(s: State, p: nat, c: Choice): State
    requires p in s.procs
  {
    match s.procs[p]
    case ReadChallenge(call) =>
      if !c.Ok? || call.challenge !in s.challenges then s.(procs := s.procs[p := Done(call, Error)])
      else
        var ch := s.challenges[call.challenge];
        s.(procs := s.procs[p := ReadSubmissions(call, ch)], read := s.read[p := ch.points])
    case ReadSubmissions(call, ch) =>
      s.(procs := s.procs[p := if !c.Ok? then Done(call, Error)
                               else if Correct(s.rows, call.user, call.challenge) != [] then Done(call, Solved)
                               else Insert(call, ch)])
    case Insert(call, ch) =>
      var correct := ch.flag == call.flag;
      (if Applied(c) then Inserted(s, p, call, ch) else s).(
        procs := s.procs[p := Done(call, if c.Ok? then Judged(correct, if correct then ch.points else 0) else Error)],
        awards := if correct && c.Ok? then s.awards + [Award(call.user, ch.points)] else s.awards,
        unanswered := s.unanswered || (correct && c.FailApplied?))
    case Done(_, _) => s
  }

  function Step(s: State, a: Action): State {
    match a
    case Submit(p, call) => if p in s.procs then s else s.(procs := s.procs[p := ReadChallenge(call)])
    case Go(p, c) => if p in s.procs then Advance(s, p, c) else s
    case Edit(challenge, to) =>
      s.(challenges := if to.Some? then s.challenges[challenge := to.value] else s.challenges - {challenge})
  }

  function Exec(s: State, acts: seq<Action>): State {
    if acts == [] then s else Step(Exec(s, acts[..|acts| - 1]), acts[|acts| - 1])
  }

  const EMPTY := State(map[], [], map[], map[], map[], [], false)

  // What the rows of one pair owe to the call that solved it first.
  ghost predicate PairOk(s: State, user: string, challenge: string) {
    var pair := (user, challenge);
    if pair !in s.first then forall row | row in s.rows :: !Solves(row, user, challenge)
    else
      && Correct(s.rows, user, challenge) != []
      && (forall row | row in s.rows && Solves(row, user, challenge) ::
            row.id == s.first[pair].winner || row.id in s.first[pair].racing)
      && (forall q | q in s.procs && AboutToSolve(s.procs[q], user, challenge) :: q in s.first[pair].racing)
  }

  lemma {:induction false} CorrectMembers(rows: seq<Submission>, user: string, challenge: string)
    ensures forall row :: row in Correct(rows, user, challenge) <==> row in rows && Solves(row, user, challenge)
  {
    if rows != [] {
      CorrectMembers(rows[..|rows| - 1], user, challenge);
      assert rows == rows[..|rows| - 1] + [rows[|rows| - 1]];
    }
  }

  lemma {:induction false} NoneCorrect(rows: seq<Submission>, user: string, challenge: string)
    requires forall row | row in rows :: !Solves(row, user, challenge)
    ensures Correct(rows, user, challenge) == []
  {
    if rows != [] {
      NoneCorrect(rows[..|rows| - 1], user, challenge);
    }
  }

  lemma CorrectSnoc(rows: seq<Submission>, row: Submission, user: string, challenge: string)
    ensures Correct(rows + [row], user, challenge)
            == Correct(rows, user, challenge) + if Solves(row, user, challenge) then [row] else []
  {
    assert (rows + [row])[..|rows|] == rows;
  }

  // A call that inserts nothing.
  lemma PairKept(s: State, s': State, p: nat, user: string, challenge: string)
    requires PairOk(s, user, challenge) && s'.rows == s.rows && s'.first == s.first
    requires forall q | q in s'.procs && q != p :: q in s.procs && s'.procs[q] == s.procs[q]
    requires p in s'.procs && AboutToSolve(s'.procs[p], user, challenge) ==>
               (p in s.procs && s'.procs[p] == s.procs[p]) || Correct(s.rows, user, challenge) == []
    ensures PairOk(s', user, challenge)
  {
  }

  // A call that inserts a row.
  lemma PairInserted(s: State, p: nat, call: Call, ch: Challenge, pc: Pc, user: string, challenge: string)
    requires PairOk(s, user, challenge) && p in s.procs && s.procs[p] == Insert(call, ch) && pc.Done?
    ensures PairOk(Inserted(s, p, call, ch).(procs := s.procs[p := pc]), user, challenge)
  {
    var s' := Inserted(s, p, call, ch).(procs := s.procs[p := pc]);
    var row := Row(p, call, ch);
    CorrectSnoc(s.rows, row, user, challenge);
    CorrectMembers(s.rows, user, challenge);
    forall r | r in s'.rows ensures r in s.rows || r == row {
    }
  }

  lemma PairGo(s: State, p: nat, c: Choice, user: string, challenge: string)
    requires PairOk(s, user, challenge) && p in s.procs
    ensures PairOk(Advance(s, p, c), user, challenge)
  {
    var s' := Advance(s, p, c);
    if s.procs[p].Insert? && Applied(c) {
      PairInserted(s, p, s.procs[p].call, s.procs[p].ch, s'.procs[p], user, challenge);
    } else {
      PairKept(s, s', p, user, challenge);
    }
  }

  lemma PairStep(s: State, a: Action, user: string, challenge: string)
    requires PairOk(s, user, challenge)
    ensures PairOk(Step(s, a), user, challenge)
  {
    match a
    case Submit(p, _) => PairKept(s, Step(s, a), p, user, challenge);
    case Edit(_, _) => PairKept(s, Step(s, a), 0, user, challenge);
    case Go(p, c) => if p in s.procs { PairGo(s, p, c, user, challenge); }
  }

  ghost predicate Distinct(rows: seq<Submission>) { forall i, j | 0 <= i < j < |rows| :: rows[i].id != rows[j].id }

  // The rows come from different calls, all answered.
  ghost predicate RowsOk(s: State) {
    && (forall i | 0 <= i < |s.rows| :: s.rows[i].id in s.procs && s.procs[s.rows[i].id].Done?)
    && Distinct(s.rows)
  }

  // The row of a call that was told its flag is correct.
  ghost predicate Recorded(s: State, p: nat) {
    p in s.procs && s.procs[p].Done? && s.procs[p].answer.Judged? && s.procs[p].answer.correct ==>
      exists row | row in s.rows :: row.id == p && Solves(row, s.procs[p].call.user, s.procs[p].call.challenge)
  }

  ghost predicate Inv(s: State) {
    RowsOk(s) && (forall user, challenge :: PairOk(s, user, challenge)) && (forall p :: Recorded(s, p))
  }

  lemma RowsKept(s: State, s': State)
    requires RowsOk(s) && s'.rows == s.rows
    requires forall q | q in s.procs && s.procs[q].Done? :: q in s'.procs && s'.procs[q].Done?
    ensures RowsOk(s')
  {
  }

  lemma RowsStep(s: State, a: Action)
    requires RowsOk(s)
    ensures RowsOk(Step(s, a))
  {
    if !(a.Go? && a.p in s.procs && s.procs[a.p].Insert? && Applied(a.c)) {
      RowsKept(s, Step(s, a));
    } else {
      assert Step(s, a).rows == s.rows + [Row(a.p, s.procs[a.p].call, s.procs[a.p].ch)];
    }
  }

  lemma RecordedStep(s: State, a: Action, p: nat)
    requires Recorded(s, p)
    ensures Recorded(Step(s, a), p)
  {
    if a.Go? && a.p in s.procs && s.procs[a.p].Insert? && Applied(a.c) {
      var row := Row(a.p, s.procs[a.p].call, s.procs[a.p].ch);
      assert Step(s, a).rows == s.rows + [row];
      assert (s.rows + [row])[|s.rows|] == row;
      assert forall r | r in s.rows :: r in s.rows + [row];
    }
  }

  lemma StepKeepsInv(s: State, a: Action)
    requires Inv(s)
    ensures Inv(Step(s, a))
  {
    RowsStep(s, a);
    forall user, challenge ensures PairOk(Step(s, a), user, challenge) { PairStep(s, a, user, challenge); }
    forall p: nat ensures Recorded(Step(s, a), p) { RecordedStep(s, a, p); }
  }

  lemma {:induction false} RunInv(acts: seq<Action>)
    ensures Inv(Exec(EMPTY, acts))
  {
    if acts != [] {
      RunInv(acts[..|acts| - 1]);
      StepKeepsInv(Exec(EMPTY, acts[..|acts| - 1]), acts[|acts| - 1]);
    }
  }

  // Rows with different ids, all in a set, are no more than the set has elements.
  lemma {:induction false} Pigeonhole(rows: seq<Submission>, ids: set<nat>)
    requires Distinct(rows)
    requires forall row | row in rows :: row.id in ids
    ensures |rows| <= |ids|
  {
    if rows != [] {
      var last := rows[|rows| - 1];
      var rest := rows[..|rows| - 1];
      forall row | row in rest ensures row in rows && row.id in ids - {last.id} {
        var k :| 0 <= k < |rest| && rest[k] == row;
        assert rows[k] == row;
      }
      Pigeonhole(rest, ids - {last.id});
    }
  }

  lemma {:induction false} CorrectDistinct(rows: seq<Submission>, user: string, challenge: string)
    requires Distinct(rows)
    ensures Distinct(Correct(rows, user, challenge))
  {
    if rows != [] {
      var rest, last := rows[..|rows| - 1], rows[|rows| - 1];
      CorrectDistinct(rest, user, challenge);
      CorrectMembers(rest, user, challenge);
      var correct := Correct(rest, user, challenge);
      forall i | 0 <= i < |correct| ensures correct[i].id != last.id {
        assert correct[i] in rest;
        var k :| 0 <= k < |rest| && rest[k] == correct[i];
        assert rows[k] == correct[i] && rows[|rows| - 1] == last;
      }
      assert Correct(rows, user, challenge) == correct + if Solves(last, user, challenge) then [last] else [];
    }
  }

  /** Over every interleaving of reads and inserts, a pair never has more correct rows than one and the calls
      that were about to insert one when the first was committed. */
  lemma CorrectBounded(acts: seq<Action>, user: string, challenge: string)
    ensures var s := Exec(EMPTY, acts);
            |Correct(s.rows, user, challenge)|
            <= if (user, challenge) in s.first then 1 + |s.first[(user, challenge)].racing| else 0
  {
    RunInv(acts);
    var s := Exec(EMPTY, acts);
    CorrectMembers(s.rows, user, challenge);
    CorrectDistinct(s.rows, user, challenge);
    assert PairOk(s, user, challenge);
    if (user, challenge) in s.first {
      var race := s.first[(user, challenge)];
      forall row | row in Correct(s.rows, user, challenge) ensures row.id in {race.winner} + race.racing {
        assert row in s.rows && Solves(row, user, challenge);
      }
      Pigeonhole(Correct(s.rows, user, challenge), {race.winner} + race.racing);
    } else {
      NoneCorrect(s.rows, user, challenge);
    }
  }

  ghost predicate Lone(s: State) {
    forall p, q | p in s.procs && q in s.procs :: s.procs[p].Done? || s.procs[q].Done? || p == q
  }

  // One call at a time.
  ghost predicate Serial(acts: seq<Action>) { forall k | 0 <= k <= |acts| :: Lone(Exec(EMPTY, acts[..k])) }

  lemma SerialPrefix(acts: seq<Action>)
    requires acts != [] && Serial(acts)
    ensures Serial(acts[..|acts| - 1])
  {
    var before := acts[..|acts| - 1];
    forall k | 0 <= k <= |before| ensures Lone(Exec(EMPTY, before[..k])) {
      assert before[..k] == acts[..k];
    }
  }

  ghost predicate NoRaces(s: State) { forall pair | pair in s.first :: s.first[pair].racing == {} }

  lemma LoneStep(s: State, a: Action)
    requires Lone(s)
    requires NoRaces(s)
    ensures NoRaces(Step(s, a))
  {
  }

  lemma {:induction false} SerialNoRace(acts: seq<Action>)
    requires Serial(acts)
    ensures NoRaces(Exec(EMPTY, acts))
  {
    if acts != [] {
      var before := acts[..|acts| - 1];
      SerialPrefix(acts);
      SerialNoRace(before);
      assert acts[..|before|] == before;
      LoneStep(Exec(EMPTY, before), acts[|acts| - 1]);
    }
  }

  // The call was told it solved the challenge.
  predicate Awarded(s: State, p: nat, user: string, challenge: string) {
    && p in s.procs && s.procs[p].Done? && s.procs[p].answer.Judged? && s.procs[p].answer.correct
    && s.procs[p].call.user == user && s.procs[p].call.challenge == challenge
  }

  /** Scoring at most once: when calls come one at a time, a pair has at most one correct row, and two calls that
      were both awarded points were about different pairs. */
  lemma ScoredOnce(acts: seq<Action>, user: string, challenge: string, p: nat, q: nat)
    requires Serial(acts)
    ensures var s := Exec(EMPTY, acts);
            && |Correct(s.rows, user, challenge)| <= 1
            && (Awarded(s, p, user, challenge) && Awarded(s, q, user, challenge) ==> p == q)
  {
    SerialNoRace(acts);
    CorrectBounded(acts, user, challenge);
    var s := Exec(EMPTY, acts);
    assert Recorded(s, p) && Recorded(s, q) by { RunInv(acts); }
    AwardedOnce(s, user, challenge, p, q);
  }

  lemma AwardedOnce(s: State, user: string, challenge: string, p: nat, q: nat)
    requires Recorded(s, p) && Recorded(s, q) && |Correct(s.rows, user, challenge)| <= 1
    ensures Awarded(s, p, user, challenge) && Awarded(s, q, user, challenge) ==> p == q
  {
    if Awarded(s, p, user, challenge) && Awarded(s, q, user, challenge) {
      var a :| a in s.rows && a.id == p && Solves(a, user, challenge);
      var b :| b in s.rows && b.id == q && Solves(b, user, challenge);
      CorrectMembers(s.rows, user, challenge);
      assert a in Correct(s.rows, user, challenge) && b in Correct(s.rows, user, challenge);
    }
  }

  /** What a user's awards add up to. */
  function Total(awards: seq<Award>, user: string): nat {
    if awards == [] then 0
    else
      var last := awards[|awards| - 1];
      Total(awards[..|awards| - 1], user) + if last.user == user then last.points else 0
  }

  /** What the user's correct rows are worth by the points their calls read. */
  function Worth(rows: seq<Submission>, read: map<nat, nat>, user: string): nat {
    if rows == [] then 0
    else
      var last := rows[|rows| - 1];
      Worth(rows[..|rows| - 1], read, user)
      + if last.correct && last.user == user && last.id in read then read[last.id] else 0
  }

  lemma {:induction false} WorthKept(rows: seq<Submission>, read: map<nat, nat>, p: nat, points: nat, user: string)
    requires forall row | row in rows :: row.id != p
    ensures Worth(rows, read[p := points], user) == Worth(rows, read, user)
  {
    if rows != [] {
      assert rows[|rows| - 1] in rows;
      WorthKept(rows[..|rows| - 1], read, p, points, user);
    }
  }

  // A call past its first read holds the points it read.
  ghost predicate ReadOk(s: State) {
    forall p | p in s.procs ::
      && (s.procs[p].ReadSubmissions? || s.procs[p].Insert? ==> p in s.read && s.read[p] == s.procs[p].ch.points)
  }

  ghost predicate Balanced(s: State, user: string) {
    && Total(s.awards, user) <= Worth(s.rows, s.read, user)
    && (!s.unanswered ==> Total(s.awards, user) == Worth(s.rows, s.read, user))
  }

  lemma BalancedGo(s: State, p: nat, c: Choice, user: string)
    requires RowsOk(s) && ReadOk(s) && Balanced(s, user) && p in s.procs
    ensures Balanced(Advance(s, p, c), user)
  {
    match s.procs[p]
    case ReadChallenge(call) =>
      if call.challenge in s.challenges {
        WorthKept(s.rows, s.read, p, s.challenges[call.challenge].points, user);
      }
    case Insert(call, ch) =>
      var row, award := Row(p, call, ch), Award(call.user, ch.points);
      assert (s.rows + [row])[..|s.rows|] == s.rows && (s.awards + [award])[..|s.awards|] == s.awards;
    case _ =>
  }

  lemma ReadGo(s: State, a: Action)
    requires ReadOk(s)
    ensures ReadOk(Step(s, a))
  {
  }

  lemma {:induction false} BalancedRun(acts: seq<Action>, user: string)
    ensures RowsOk(Exec(EMPTY, acts)) && ReadOk(Exec(EMPTY, acts)) && Balanced(Exec(EMPTY, acts), user)
  {
    if acts != [] {
      var before, a := Exec(EMPTY, acts[..|acts| - 1]), acts[|acts| - 1];
      BalancedRun(acts[..|acts| - 1], user);
      RowsStep(before, a);
      ReadGo(before, a);
      if a.Go? && a.p in before.procs {
        BalancedGo(before, a.p, a.c, user);
      }
    }
  }

  /** Points awarded over any run: a user is never awarded more than their correct rows are worth by the points
      their calls read, and exactly that unless a correct row was committed whose call was told of a failure. */
  lemma AwardsAddUp(acts: seq<Action>, user: string)
    ensures var s := Exec(EMPTY, acts);
            && Total(s.awards, user) <= Worth(s.rows, s.read, user)
            && (!s.unanswered ==> Total(s.awards, user) == Worth(s.rows, s.read, user))
  {
    BalancedRun(acts, user);
  }

  lemma {:induction false} ExecConcat(s: State, a: seq<Action>, b: seq<Action>)
    ensures Exec(s, a + b) == Exec(Exec(s, a), b)
    decreases |b|
  {
    if b == [] {
      assert a + b == a;
    } else {
      var ab := a + b;
      assert ab[..|ab| - 1] == a + b[..|b| - 1] && ab[|ab| - 1] == b[|b| - 1];
      ExecConcat(s, a, b[..|b| - 1]);
    }
  }

  lemma ExecOne(s: State, a: Action)
    ensures Exec(s, [a]) == Step(s, a)
  {
    assert [a][..0] == [];
  }

  // Calls 0, ..., n - 1 read the challenge and its earlier submissions.
  function Readying(n: nat, call: Call, ch: Challenge): seq<Action> {
    if n == 0 then [Edit(call.challenge, Some(ch))]
    else Readying(n - 1, call, ch) + [Submit(n - 1, call)] + [Go(n - 1, Ok)] + [Go(n - 1, Ok)]
  }

  // Then calls 0, ..., n - 1 insert.
  function Inserting(n: nat): seq<Action> { if n == 0 then [] else Inserting(n - 1) + [Go(n - 1, Ok)] }

  function Ready(n: nat, call: Call, ch: Challenge): State {
    State(map[call.challenge := ch], [], map p | p in Range(0, n) :: Insert(call, ch), map[],
          map p | p in Range(0, n) :: ch.points, [], false)
  }

  lemma OneReady(before: seq<Action>, p: nat, call: Call, ch: Challenge)
    requires Exec(EMPTY, before) == Ready(p, call, ch)
    ensures Exec(EMPTY, before + [Submit(p, call)] + [Go(p, Ok)] + [Go(p, Ok)]) == Ready(p + 1, call, ch)
  {
    ThreeMore(before, Submit(p, call), Go(p, Ok), Go(p, Ok), EMPTY);
  }

  lemma {:induction false} AllReady(n: nat, call: Call, ch: Challenge)
    ensures Exec(EMPTY, Readying(n, call, ch)) == Ready(n, call, ch)
  {
    if n == 0 {
      ExecOne(EMPTY, Edit(call.challenge, Some(ch)));
      assert Ready(0, call, ch).procs == map[] && Ready(0, call, ch).read == map[];
    } else {
      var p, before := n - 1, Readying(n - 1, call, ch);
      AllReady(n - 1, call, ch);
      OneReady(before, p, call, ch);
    }
  }

  lemma OneMore(acts: seq<Action>, a: Action, s: State)
    ensures Exec(s, acts + [a]) == Step(Exec(s, acts), a)
  {
    ExecConcat(s, acts, [a]);
    ExecOne(Exec(s, acts), a);
  }

  lemma ThreeMore(acts: seq<Action>, a: Action, b: Action, c: Action, s: State)
    ensures Exec(s, acts + [a] + [b] + [c]) == Step(Step(Step(Exec(s, acts), a), b), c)
  {
    OneMore(acts, a, s);
    OneMore(acts + [a], b, s);
    OneMore(acts + [a] + [b], c, s);
  }

  // After the first k of the ready calls have inserted.
  ghost predicate HalfWay(s: State, calls: set<nat>, k: nat, call: Call, ch: Challenge) {
    var pair := (call.user, call.challenge);
    && |Correct(s.rows, call.user, call.challenge)| == k
    && (k == 0 ==> pair !in s.first)
    && (k > 0 ==> pair in s.first && s.first[pair].racing == calls - {0})
    && s.procs.Keys == calls
    && (forall q | q in calls && k <= q :: s.procs[q] == Insert(call, ch))
  }

  lemma OneInsert(s: State, calls: set<nat>, k: nat, call: Call, ch: Challenge)
    requires k in calls && ch.flag == call.flag && HalfWay(s, calls, k, call, ch)
    ensures HalfWay(Step(s, Go(k, Ok)), calls, k + 1, call, ch)
  {
    CorrectSnoc(s.rows, Row(k, call, ch), call.user, call.challenge);
    if k == 0 {
      assert Racing(s.procs, 0, call.user, call.challenge) == calls - {0};
    }
  }

  lemma InsertNext(s: State, acts: seq<Action>, calls: set<nat>, k: nat, call: Call, ch: Challenge)
    requires k in calls && ch.flag == call.flag && HalfWay(Exec(s, acts), calls, k, call, ch)
    ensures HalfWay(Exec(s, acts + [Go(k, Ok)]), calls, k + 1, call, ch)
  {
    OneMore(acts, Go(k, Ok), s);
    OneInsert(Exec(s, acts), calls, k, call, ch);
  }

  lemma {:induction false} AllInsert(n: nat, k: nat, call: Call, ch: Challenge)
    requires k <= n && ch.flag == call.flag
    ensures HalfWay(Exec(Ready(n, call, ch), Inserting(k)), Range(0, n), k, call, ch)
  {
    if k == 0 {
    } else {
      AllInsert(n, k - 1, call, ch);
      InsertNext(Ready(n, call, ch), Inserting(k - 1), Range(0, n), k - 1, call, ch);
    }
  }

  /** The bound is reached for any number n of racing calls: with the right flag, n + 1 calls that all read before
      any inserts are all recorded as correct. */
  lemma BoundReached(n: nat, call: Call, ch: Challenge)
    requires ch.flag == call.flag
    ensures var s := Exec(EMPTY, Readying(n + 1, call, ch) + Inserting(n + 1));
            var pair := (call.user, call.challenge);
            && pair in s.first && |s.first[pair].racing| == n
            && |Correct(s.rows, call.user, call.challenge)| == n + 1
  {
    ExecConcat(EMPTY, Readying(n + 1, call, ch), Inserting(n + 1));
    AllReady(n + 1, call, ch);
    AllInsert(n + 1, n + 1, call, ch);
  }

  /** FindByUserAndChallenge: the pair's submissions, newest first. */
  function Previous(rows: seq<Submission>, user: string, challenge: string): seq<Submission> {
    if rows == [] then []
    else
      var rest, last := Previous(rows[..|rows| - 1], user, challenge), rows[|rows| - 1];
      if last.user == user && last.challenge == challenge then [last] + rest else rest
  }

  /** Looking through the previous submissions finds a correct one exactly when the pair has one. */
  lemma {:induction false} PreviousCorrect(rows: seq<Submission>, user: string, challenge: string)
    ensures (exists row :: row in Previous(rows, user, challenge) && row.correct)
            <==> Correct(rows, user, challenge) != []
  {
    if rows != [] {
      var rest, last := Previous(rows[..|rows| - 1], user, challenge), rows[|rows| - 1];
      PreviousCorrect(rows[..|rows| - 1], user, challenge);
      if last.user == user && last.challenge == challenge {
        assert Previous(rows, user, challenge) == [last] + rest;
        if last.correct {
          assert last in Previous(rows, user, challenge);
        }
      }
    }
  }

  // One call taking three steps.
  function Steps(s: State, p: nat, c0: Choice, c1: Choice, c2: Choice): (r: State)
    requires p in s.procs
    ensures p in r.procs
  {
    Advance(Advance(Advance(s, p, c0), p, c1), p, c2)
  }

  class Usecase {
    var challenges: map<string, Challenge>
    var rows: seq<Submission>

    ghost function View(id: nat, pc: Option<Pc>): State reads this {
      State(challenges, rows, if pc.Some? then map[id := pc.value] else map[], map[], map[], [], false)
    }

    /** SubmitFlag running alone: it is the three steps of the machine, and records nothing once the pair is solved. */
    method SubmitFlag(id: nat, call: Call, find: Choice, list: Choice, insert: Choice) returns (answer: Answer)
      modifies this`rows
      ensures answer == Solved ==> rows == old(rows) && Correct(rows, call.user, call.challenge) != []
      ensures answer.Judged? ==>
                && Correct(old(rows), call.user, call.challenge) == []
                && call.challenge in challenges
                && rows == old(rows) + [Row(id, call, challenges[call.challenge])]
                && answer.correct == (challenges[call.challenge].flag == call.flag)
                && answer.points == if answer.correct then challenges[call.challenge].points else 0
      ensures var known := find.Ok? && call.challenge in challenges;
              var solved := exists row :: row in old(rows) && row.correct && row.user == call.user && row.challenge == call.challenge;
              && (answer == Solved <==> known && list.Ok? && solved)
              && (answer.Judged? <==> known && list.Ok? && !solved && insert.Ok?)
              && rows == (if known && list.Ok? && !solved && (insert.Ok? || insert.FailApplied?)
                          then old(rows) + [Submission(id, call.user, call.challenge, call.flag,
                                                       challenges[call.challenge].flag == call.flag)]
                          else old(rows))
      ensures var s := Steps(old(View(id, Some(ReadChallenge(call)))), id, find, list, insert);
              s.rows == rows && s.procs[id] == Done(call, answer)
    {
      if !find.Ok? || call.challenge !in challenges {
        return Error;
      }
      var ch := challenges[call.challenge];
      if !list.Ok? {
        return Error;
      }
      var previous := Previous(rows, call.user, call.challenge);
      PreviousCorrect(rows, call.user, call.challenge);
      CorrectMembers(rows, call.user, call.challenge);
      assert forall row :: Solves(row, call.user, call.challenge) <==>
                             row.correct && row.user == call.user && row.challenge == call.challenge;
      if Correct(rows, call.user, call.challenge) != [] {
        assert Correct(rows, call.user, call.challenge)[0] in rows;
      }
      for i := 0 to |previous|
        invariant forall j | 0 <= j < i :: !previous[j].correct
      {
        if previous[i].correct {
          return Solved;
        }
      }
      if Applied(insert) {
        rows := rows + [Row(id, call, ch)];
      }
      if !insert.Ok? {
        return Error;
      }
      answer := Judged(ch.flag == call.flag, if ch.flag == call.flag then ch.points else 0);
    }
  }
}
