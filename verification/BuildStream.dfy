/** Streaming a job's log to an administrator until a completion message or a poll of its result ends it
    (ctf-server/interface/service/admin_service.go, ctf-server/infrastructure/client/builder_client.go). */
module BuildStream {
  import opened Common
  import opened BuildPipeline
  import opened BuildWorker

  // What the subscription's loop meets next.
  datatype Event = Cancelled | Message(payload: string) | Closed | Tick(read: Read)

  // How the loop ended, or that it is still waiting.
  datatype Ending = Waiting | ByContext | ByClose | ByMessage | ByPoll

  const PREFIX := "BUILD_COMPLETE:"

  predicate HasPrefix(s: string, prefix: string) { |prefix| <= |s| && s[..|prefix|] == prefix }

  function Name(s: Status): string {
    match s
    case Pending => "pending"
    case Building => "building"
    case Success => "success"
    case Failed => "failed"
  }

  predicate Polled(e: Event) { e.Tick? && e.read.Found? && Terminal(e.read.result) }

  /** The events that end the loop. */
  function End(e: Event): Ending {
    match e
    case Cancelled => ByContext
    case Closed => ByClose
    case Message(payload) => if HasPrefix(payload, PREFIX) then ByMessage else Waiting
    case Tick(_) => if Polled(e) then ByPoll else Waiting
  }

  /** What an event makes the callback receive. */
  function Heard(e: Event): seq<string> {
    if e.Message? then [e.payload]
    else if Polled(e) then [PREFIX + Name(e.read.result.status)]
    else []
  }

  function AllHeard(events: seq<Event>): seq<string> {
    if events == [] then [] else AllHeard(events[..|events| - 1]) + Heard(events[|events| - 1])
  }

  /** Which events end the loop, and how. */
  lemma EndExactly(e: Event)
    ensures End(e) == ByContext <==> e.Cancelled?
    ensures End(e) == ByClose <==> e.Closed?
    ensures End(e) == ByMessage <==> e.Message? && "BUILD_COMPLETE:" <= e.payload
    ensures End(e) == ByPoll <==> e.Tick? && e.read.Found? && e.read.result.status in {Success, Failed}
  {
    if e.Message? && "BUILD_COMPLETE:" <= e.payload {
      assert e.payload[..|PREFIX|] == PREFIX;
    }
  }

  // The callback hears something of this event: a message, or the result of a job that has ended.
  predicate Speaks(e: Event) {
    e.Message? || (e.Tick? && e.read.Found? && (e.read.result.status == Success || e.read.result.status == Failed))
  }

  // What it hears.
  function Says(e: Event): string
    requires Speaks(e)
  {
    if e.Message? then e.payload
    else if e.read.result.status == Success then "BUILD_COMPLETE:success" else "BUILD_COMPLETE:failed"
  }

  lemma HearsOne(e: Event)
    ensures Heard(e) == if Speaks(e) then [Says(e)] else []
  {
    assert PREFIX + Name(Success) == "BUILD_COMPLETE:success" && PREFIX + Name(Failed) == "BUILD_COMPLETE:failed";
  }

  // The lines are what is heard of the events at increasing positions `at`: all below n that speak.
  ghost predicate HeardAt(events: seq<Event>, n: nat, at: seq<nat>, lines: seq<string>) {
    && n <= |events| && |at| == |lines| && Rising(at, n)
    && (forall k | 0 <= k < |at| :: at[k] < |events| && Speaks(events[at[k]]) && lines[k] == Says(events[at[k]]))
    && (forall i | 0 <= i < n && Speaks(events[i]) :: i in at)
  }

  /** The callback hears every message and every terminal result that is read, in order, and nothing else. */
  lemma {:induction false} HeardExactly(events: seq<Event>, n: nat) returns (at: seq<nat>)
    requires n <= |events|
    ensures HeardAt(events, n, at, AllHeard(events[..n]))
  {
    at := [];
    if n > 0 {
      at := HeardExactly(events, n - 1);
      assert events[..n][..n - 1] == events[..n - 1];
      HearsOne(events[n - 1]);
      OneHeard(events, n - 1, at, AllHeard(events[..n - 1]));
      if Speaks(events[n - 1]) {
        at := at + [n - 1];
      }
    }
  }

  lemma OneHeard(events: seq<Event>, n: nat, at: seq<nat>, lines: seq<string>)
    requires n < |events| && HeardAt(events, n, at, lines)
    ensures !Speaks(events[n]) ==> HeardAt(events, n + 1, at, lines)
    ensures Speaks(events[n]) ==> HeardAt(events, n + 1, at + [n], lines + [Says(events[n])])
  {
    RisingMore(at, n);
  }

  /** SubscribeBuildLogs: the callback hears every message and, when a poll ends the loop, the poll's status; n
      counts the events met, the last of which ended the loop. */
  method SubscribeBuildLogs(events: seq<Event>) returns (lines: seq<string>, ending: Ending, n: nat)
    ensures n <= |events| && lines == AllHeard(events[..n])
    ensures forall i | 0 <= i < n - 1 :: End(events[i]) == Waiting
    ensures ending == if n == 0 then Waiting else End(events[n - 1])
    ensures ending == Waiting ==> n == |events|
    ensures forall k | 0 <= k < |events| && Polled(events[k]) :: ending != Waiting && n <= k + 1
  {
    lines, n, ending := [], 0, Waiting;
    while n < |events|
      invariant n <= |events| && ending == Waiting && lines == AllHeard(events[..n])
      invariant forall i | 0 <= i < n :: End(events[i]) == Waiting
    {
      var e := events[n];
      assert events[..n + 1][..n] == events[..n];
      n := n + 1;
      match e
      case Cancelled => return lines, ByContext, n;
      case Closed => return lines, ByClose, n;
      case Message(payload) =>
        lines := lines + [payload];
        if HasPrefix(payload, PREFIX) {
          return lines, ByMessage, n;
        }
      case Tick(read) =>
        if read.Found? && read.result.status.Success? {
          return lines + [PREFIX + Name(Success)], ByPoll, n;
        }
        if read.Found? && read.result.status.Failed? {
          return lines + [PREFIX + Name(Failed)], ByPoll, n;
        }
    }
  }

  datatype ProtoStatus = Unspecified | Known(status: Status)

  function StringToBuildStatus(s: string): ProtoStatus {
    if s == "pending" then Known(Pending)
    else if s == "building" then Known(Building)
    else if s == "success" then Known(Success)
    else if s == "failed" then Known(Failed)
    else Unspecified
  }

  datatype Frame = Frame(line: string, status: ProtoStatus, complete: bool)

  // strings.SplitN(s, ":", 2)
  function SplitN2(s: string): (parts: seq<string>)
    ensures parts != []
  {
    if s == "" then [""]
    else if s[0] == ':' then ["", s[1..]]
    else
      var rest := SplitN2(s[1..]);
      [[s[0]] + rest[0]] + rest[1..]
  }

  /** The callback's frame for a line. */
  function FrameOf(line: string): Frame {
    if HasPrefix(line, PREFIX) then
      var parts := SplitN2(line);
      Frame("", StringToBuildStatus(if |parts| > 1 then parts[1] else Name(Success)), true)
    else Frame(line, Known(Building), false)
  }

  function Frames(lines: seq<string>): seq<Frame> { seq(|lines|, i requires 0 <= i < |lines| => FrameOf(lines[i])) }

  predicate NoColon(s: string) { forall i | 0 <= i < |s| :: s[i] != ':' }

  lemma {:induction false} SplitAt(before: string, after: string)
    requires NoColon(before)
    ensures SplitN2(before + ":" + after) == [before, after]
  {
    var s := before + ":" + after;
    if before != "" {
      assert s[1..] == before[1..] + ":" + after;
      SplitAt(before[1..], after);
      assert s[0] == before[0] && [s[0]] + before[1..] == before;
    } else {
      assert s[0] == ':' && s[1..] == after;
    }
  }

  /** A completion line's status is whatever text follows the prefix, and it is known exactly when that text is one
      of the four names. */
  lemma CompletionDecodes(text: string)
    ensures FrameOf(PREFIX + text) == Frame("", StringToBuildStatus(text), true)
    ensures StringToBuildStatus(text) != Unspecified <==> exists s :: text == Name(s)
  {
    var head := "BUILD_COMPLETE";
    SplitAt(head, text);
    assert PREFIX + text == head + ":" + text;
    assert (PREFIX + text)[..|PREFIX|] == PREFIX;
    if StringToBuildStatus(text) != Unspecified {
      assert text == Name(StringToBuildStatus(text).status);
    }
  }

  /** The worker's own completion messages always decode to an unspecified status: their text goes on after the name. */
  lemma WorkerMessageUnspecified(r: Result)
    requires Terminal(r)
    ensures FrameOf(Completion(r)) == Frame("", Unspecified, true)
  {
    var name := Name(r.status);
    var text := name + ":" + if r.status.Success? then r.image else r.error;
    assert Completion(r) == PREFIX + text;
    CompletionDecodes(text);
    assert text[|name|] == ':';
    forall s ensures NoColon(Name(s)) {
    }
  }

  /** The poller's message decodes to the stored status. */
  lemma PollMessageExact(e: Event)
    requires Polled(e)
    ensures Heard(e) != [] && FrameOf(Heard(e)[0]) == Frame("", Known(e.read.result.status), true)
  {
    CompletionDecodes(Name(e.read.result.status));
  }

  // An event whose frame completes the stream.
  lemma CompletesExactly(e: Event)
    ensures |Heard(e)| <= 1
    ensures (Heard(e) != [] && FrameOf(Heard(e)[0]).complete) <==> End(e) == ByMessage || End(e) == ByPoll
  {
    if Polled(e) {
      PollMessageExact(e);
    }
  }

  predicate NoneComplete(lines: seq<string>) { forall i | 0 <= i < |lines| :: !FrameOf(lines[i]).complete }

  lemma {:induction false} WaitingCompletesNone(events: seq<Event>)
    requires forall i | 0 <= i < |events| :: End(events[i]) == Waiting
    ensures NoneComplete(AllHeard(events))
  {
    if events != [] {
      var last := events[|events| - 1];
      WaitingCompletesNone(events[..|events| - 1]);
      CompletesExactly(last);
    }
  }

  datatype Return = Nil | Err

  predicate Last(frames: seq<Frame>, status: ProtoStatus) {
    frames != [] && frames[|frames| - 1] == Frame("", status, true)
  }

  /**
   * StreamBuildLog, for every interleaving of messages, polls, cancellation and channel close: it sends at most one
   * complete frame and nothing after it, and sends one exactly when the job had already ended or a completion
   * message or a poll ended the loop. Once the stored result is terminal the next poll that reads it ends the
   * stream, whatever messages were lost.
   */
  method StreamBuildLog(initial: Read, send: Choice, canceled: bool, events: seq<Event>)
    returns (frames: seq<Frame>, r: Return, ending: Ending, n: nat)
    ensures n <= |events|
    ensures !initial.Found? ==> r == Err && frames == []
    ensures initial.Found? && Terminal(initial.result) ==>
              frames == [Frame("", Known(initial.result.status), true)] && (r == Nil <==> send.Ok?)
    ensures forall i | 0 <= i < |frames| - 1 :: !frames[i].complete
    ensures (frames != [] && frames[|frames| - 1].complete) <==>
              initial.Found? && (Terminal(initial.result) || ending == ByMessage || ending == ByPoll)
    ensures initial.Found? && !Terminal(initial.result) && send.Ok? ==>
              && (r == Err <==> ending == ByContext && !canceled)
              && (r == Err <==> n > 0 && events[n - 1].Cancelled? && !canceled)
              && frames == [Frame("", Known(initial.result.status), false)] + Frames(AllHeard(events[..n]))
              && (ending == Waiting ==> n == |events| && forall i | 0 <= i < n :: End(events[i]) == Waiting)
              && (ending != Waiting ==> n > 0 && ending == End(events[n - 1]))
              && (forall i | 0 <= i < n - 1 :: End(events[i]) == Waiting)
              && (forall k | 0 <= k < |events| && Polled(events[k]) :: ending != Waiting && n <= k + 1)
              && (ending == ByPoll ==> Last(frames, Known(events[n - 1].read.result.status)))
              && (ending == ByMessage ==> frames[|frames| - 1] == FrameOf(events[n - 1].payload))
  {
    frames, ending, n := [], Waiting, 0;
    if !initial.Found? {
      return frames, Err, ending, n;
    }
    var status := StringToBuildStatus(Name(initial.result.status));
    StatusRoundTrip(initial.result.status);
    if Terminal(initial.result) {
      frames := [Frame("", status, true)];
      return frames, if send.Ok? then Nil else Err, ending, n;
    }
    var first := Frame("", status, false);
    if !send.Ok? {
      return [first], Err, ending, n;
    }
    var lines;
    lines, ending, n := SubscribeBuildLogs(events);
    frames := [first] + Frames(lines);
    FramesComplete(first, events, lines, frames, ending, n);
    r := if ending == ByContext && !canceled then Err else Nil;
  }

  // What the loop's lines look like, given how it ended.
  lemma LinesComplete(events: seq<Event>, lines: seq<string>, ending: Ending, n: nat)
    requires n <= |events| && lines == AllHeard(events[..n])
    requires forall i | 0 <= i < n - 1 :: End(events[i]) == Waiting
    requires ending == if n == 0 then Waiting else End(events[n - 1])
    ensures ending != ByMessage && ending != ByPoll ==> NoneComplete(lines)
    ensures ending == ByMessage || ending == ByPoll ==>
              && lines != [] && NoneComplete(lines[..|lines| - 1]) && FrameOf(lines[|lines| - 1]).complete
    ensures ending == ByMessage ==> lines[|lines| - 1] == events[n - 1].payload
    ensures ending == ByPoll ==> FrameOf(lines[|lines| - 1]) == Frame("", Known(events[n - 1].read.result.status), true)
  {
    if n > 0 {
      var before, last := events[..n - 1], events[n - 1];
      assert events[..n][..n - 1] == before;
      WaitingCompletesNone(before);
      CompletesExactly(last);
      assert lines == AllHeard(before) + Heard(last);
      if Heard(last) == [] {
        assert lines == AllHeard(before);
      } else {
        assert lines[..|lines| - 1] == AllHeard(before) && lines[|lines| - 1] == Heard(last)[0];
      }
      if Polled(last) {
        PollMessageExact(last);
      }
    }
  }

  lemma StatusRoundTrip(s: Status)
    ensures StringToBuildStatus(Name(s)) == Known(s)
  {
  }

  lemma FramesComplete(first: Frame, events: seq<Event>, lines: seq<string>, frames: seq<Frame>, ending: Ending, n: nat)
    requires !first.complete && frames == [first] + Frames(lines)
    requires n <= |events| && lines == AllHeard(events[..n])
    requires forall i | 0 <= i < n - 1 :: End(events[i]) == Waiting
    requires ending == if n == 0 then Waiting else End(events[n - 1])
    ensures forall i | 0 <= i < |frames| - 1 :: !frames[i].complete
    ensures frames[|frames| - 1].complete <==> ending == ByMessage || ending == ByPoll
    ensures ending == ByPoll ==> Last(frames, Known(events[n - 1].read.result.status))
    ensures ending == ByMessage ==> frames[|frames| - 1] == FrameOf(events[n - 1].payload)
  {
    LinesComplete(events, lines, ending, n);
    assert forall i | 0 < i < |frames| :: frames[i] == FrameOf(lines[i - 1]);
    if lines != [] {
      assert forall i | 0 <= i < |lines| - 1 :: lines[..|lines| - 1][i] == lines[i];
      assert frames[|frames| - 1] == FrameOf(lines[|lines| - 1]);
    }
  }

  /** What a worker published for a job whose terminal result is r: its output lines, then its completion message. */
  predicate PublishedFor(published: seq<string>, r: Result) {
    Terminal(r) && published != [] && published[|published| - 1] == Completion(r)
  }

  // A message is one of those published, and a terminal result that is read is the job's.
  predicate ComesFrom(e: Event, published: seq<string>, r: Result) {
    && (e.Message? ==> e.payload in published)
    && (Polled(e) ==> e.read.result == r)
  }

  predicate NoPrefixedLine(published: seq<string>) {
    forall i | 0 <= i < |published| - 1 :: !HasPrefix(published[i], PREFIX)
  }

  /**
   * The status a stream ends with, against the job's result. It is the job's exactly when a poll ended the loop or the
   * message that did is the prefix and the name of that status, which the worker's own completion message never is:
   * it can only be a line of the build's output. Without such lines the status is the job's exactly when a poll ended
   * the loop, and unspecified otherwise.
   */
  lemma EndTellsExactly(e: Event, published: seq<string>, r: Result)
    requires PublishedFor(published, r) && ComesFrom(e, published, r) && (End(e) == ByMessage || End(e) == ByPoll)
    ensures |Heard(e)| == 1
    ensures FrameOf(Heard(e)[0]).status == Known(r.status)
            <==> End(e) == ByPoll || (e.payload == PREFIX + Name(r.status) && e.payload != Completion(r))
    ensures NoPrefixedLine(published) ==>
              FrameOf(Heard(e)[0]).status == if End(e) == ByPoll then Known(r.status) else Unspecified
  {
    if Polled(e) {
      PollMessageExact(e);
    } else {
      var text := e.payload[|PREFIX|..];
      assert e.payload == PREFIX + text;
      CompletionDecodes(text);
      WorkerMessageUnspecified(r);
      NameDecodes(text, r.status);
    }
  }

  lemma NameDecodes(text: string, status: Status)
    ensures StringToBuildStatus(text) == Known(status) <==> text == Name(status)
  {
    StatusRoundTrip(status);
    if StringToBuildStatus(text) == Known(status) {
      assert text == Name(status);
    }
  }

  /** A line of the build's own output can end the stream of a failing job as a success. */
  lemma OutputLineMisleads(r: Result)
    requires r.status.Failed?
    ensures var line := PREFIX + Name(Success);
            && PublishedFor([line, Completion(r)], r) && ComesFrom(Event.Message(line), [line, Completion(r)], r)
            && End(Event.Message(line)) == ByMessage && FrameOf(line) == Frame("", Known(Success), true)
  {
    CompletionDecodes(Name(Success));
    var line := PREFIX + Name(Success);
    assert line[..|PREFIX|] == PREFIX;
    assert [line, Completion(r)][0] == line;
  }
}
