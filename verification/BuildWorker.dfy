/** Building and pushing one job's image, and what the worker writes and publishes about it
    (ctf-builder/service/worker.go). */
module BuildWorker {
  import opened Common
  import opened BuildPipeline

  // A message of Docker's output; absent parts are empty.
  datatype Message = Message(line: string, error: string, image: string)

  // What decoding the output yields next; it ends at its end or at the first thing that is no message.
  datatype Item = Got(message: Message) | Garbled

  datatype Failure = NotStarted | Undecodable | Reported(message: string)

  datatype Build = Build(image: string, error: Option<Failure>, published: seq<string>)

  function ImageOf(item: Item): string { if item.Got? then item.message.image else "" }
  function ErrorOf(item: Item): string { if item.Got? then item.message.error else "" }

  function LinesOf(item: Item): seq<string> {
    if item.Garbled? then []
    else (if item.message.error != "" then [item.message.error] else [])
         + (if item.message.line != "" then [item.message.line] else [])
  }

  function Images(items: seq<Item>): seq<string> { seq(|items|, i requires 0 <= i < |items| => ImageOf(items[i])) }
  function Errors(items: seq<Item>): seq<string> { seq(|items|, i requires 0 <= i < |items| => ErrorOf(items[i])) }

  /** The last text that is not empty, or the empty text. */
  function LastOf(texts: seq<string>): string {
    if texts == [] then ""
    else if texts[|texts| - 1] != "" then texts[|texts| - 1]
    else LastOf(texts[..|texts| - 1])
  }

  predicate IsLast(texts: seq<string>, i: nat, text: string) {
    i < |texts| && texts[i] == text && forall j | i < j < |texts| :: texts[j] == ""
  }

  lemma {:induction false} LastOfMeans(texts: seq<string>)
    ensures LastOf(texts) == "" <==> forall i | 0 <= i < |texts| :: texts[i] == ""
    ensures LastOf(texts) != "" ==> exists i :: IsLast(texts, i, LastOf(texts))
  {
    if texts != [] {
      var n := |texts| - 1;
      if texts[n] != "" {
        assert IsLast(texts, n, texts[n]);
      } else {
        LastOfMeans(texts[..n]);
        if LastOf(texts) != "" {
          var i :| IsLast(texts[..n], i, LastOf(texts));
          assert IsLast(texts, i, LastOf(texts));
        }
      }
    }
  }

  /** What reaches the log channel: each message's error, then its line. */
  function Published(items: seq<Item>): seq<string> {
    if items == [] then [] else Published(items[..|items| - 1]) + LinesOf(items[|items| - 1])
  }

  // A message's part of what is published: its error and then its line, where not empty.
  predicate PartOf(item: Item, part: seq<string>) {
    match item
    case Garbled => part == []
    case Got(message) =>
      if message.error == "" && message.line == "" then part == []
      else if message.error == "" then part == [message.line]
      else if message.line == "" then part == [message.error]
      else part == [message.error, message.line]
  }

  // Message i's part lies between positions starts[i] and starts[i + 1].
  predicate PartAt(items: seq<Item>, starts: seq<nat>, published: seq<string>, i: nat) {
    && i < |items| && i + 1 < |starts| && starts[i] <= starts[i + 1] <= |published|
    && PartOf(items[i], published[starts[i]..starts[i + 1]])
  }

  ghost predicate Parts(items: seq<Item>, starts: seq<nat>, published: seq<string>) {
    && |starts| == |items| + 1 && starts[0] == 0 && starts[|items|] == |published|
    && forall i: nat | i < |items| :: PartAt(items, starts, published, i)
  }

  /** What is published is each message's error and then its line, in the order of the messages, where not empty. */
  lemma {:induction false} PublishedExactly(items: seq<Item>) returns (starts: seq<nat>)
    ensures Parts(items, starts, Published(items))
  {
    starts := [0];
    if items != [] {
      var n := |items| - 1;
      starts := PublishedExactly(items[..n]);
      OneMore(items[..n], items[n], starts, Published(items[..n]), LinesOf(items[n]));
      assert items[..n] + [items[n]] == items;
      starts := starts + [|Published(items)|];
    }
  }

  lemma OneMore(items: seq<Item>, item: Item, starts: seq<nat>, published: seq<string>, part: seq<string>)
    requires Parts(items, starts, published) && PartOf(item, part)
    ensures Parts(items + [item], starts + [|published| + |part|], published + part)
  {
    var more, all := starts + [|published| + |part|], published + part;
    assert all[more[|items|]..more[|items| + 1]] == part;
    forall i: nat | i < |items| ensures PartAt(items + [item], more, all, i) {
      PartStays(items, item, starts, |all|, published, part, i);
    }
  }

  lemma PartStays(items: seq<Item>, item: Item, starts: seq<nat>, end: nat, published: seq<string>, part: seq<string>, i: nat)
    requires i < |items| && |starts| == |items| + 1 && PartAt(items, starts, published, i)
    ensures PartAt(items + [item], starts + [end], published + part, i)
  {
    assert (published + part)[starts[i]..starts[i + 1]] == published[starts[i]..starts[i + 1]];
  }

  lemma Snoc(items: seq<Item>, i: nat)
    requires i < |items|
    ensures LastOf(Images(items[..i + 1]))
            == if ImageOf(items[i]) != "" then ImageOf(items[i]) else LastOf(Images(items[..i]))
    ensures LastOf(Errors(items[..i + 1]))
            == if ErrorOf(items[i]) != "" then ErrorOf(items[i]) else LastOf(Errors(items[..i]))
    ensures Published(items[..i + 1]) == Published(items[..i]) + LinesOf(items[i])
  {
    assert Images(items[..i + 1])[..i] == Images(items[..i]);
    assert Errors(items[..i + 1])[..i] == Errors(items[..i]);
    assert items[..i + 1][..i] == items[..i];
  }

  lemma NoErrors(items: seq<Item>)
    ensures LastOf(Errors(items)) == "" <==> forall i | 0 <= i < |items| :: ErrorOf(items[i]) == ""
  {
    LastOfMeans(Errors(items));
    assert forall i | 0 <= i < |items| :: Errors(items)[i] == ErrorOf(items[i]);
  }

  // Message i is the last that reports an error, or names an image, and it is this one.
  predicate LastError(items: seq<Item>, i: nat, error: string) {
    && i < |items| && items[i].Got? && items[i].message.error == error != ""
    && forall j | i < j < |items| && items[j].Got? :: items[j].message.error == ""
  }

  predicate LastImage(items: seq<Item>, i: nat, image: string) {
    && i < |items| && items[i].Got? && items[i].message.image == image != ""
    && forall j | i < j < |items| && items[j].Got? :: items[j].message.image == ""
  }

  predicate NoImage(items: seq<Item>) { forall i | 0 <= i < |items| && items[i].Got? :: items[i].message.image == "" }

  /** The image is the one named last, and the error the one reported last. */
  ghost predicate TellsLast(items: seq<Item>, b: Build) {
    && (b.error.Some? ==> b.error.value.Reported? && exists i: nat :: LastError(items, i, b.error.value.message))
    && if b.image == "" then NoImage(items) else exists i: nat :: LastImage(items, i, b.image)
  }

  lemma LastTold(items: seq<Item>, b: Build)
    requires forall i | 0 <= i < |items| :: items[i].Got?
    requires b.image == LastOf(Images(items))
    requires b.error == if LastOf(Errors(items)) == "" then None else Some(Reported(LastOf(Errors(items))))
    ensures TellsLast(items, b)
  {
    LastErrorIs(items);
    LastImageIs(items);
  }

  lemma LastErrorIs(items: seq<Item>)
    requires forall i | 0 <= i < |items| :: items[i].Got?
    ensures LastOf(Errors(items)) != "" ==> exists i: nat :: LastError(items, i, LastOf(Errors(items)))
  {
    LastOfMeans(Errors(items));
    if LastOf(Errors(items)) != "" {
      var i :| IsLast(Errors(items), i, LastOf(Errors(items)));
      assert forall j | 0 <= j < |items| :: Errors(items)[j] == items[j].message.error;
      assert LastError(items, i, LastOf(Errors(items)));
    }
  }

  lemma LastImageIs(items: seq<Item>)
    requires forall i | 0 <= i < |items| :: items[i].Got?
    ensures LastOf(Images(items)) != "" ==> exists i: nat :: LastImage(items, i, LastOf(Images(items)))
    ensures LastOf(Images(items)) == "" ==> NoImage(items)
  {
    LastOfMeans(Images(items));
    assert forall j | 0 <= j < |items| :: Images(items)[j] == items[j].message.image;
    if LastOf(Images(items)) != "" {
      var i :| IsLast(Images(items), i, LastOf(Images(items)));
      assert LastImage(items, i, LastOf(Images(items)));
    }
  }

  predicate StopsAt(items: seq<Item>, i: nat) {
    i < |items| && items[i].Garbled? && forall j | 0 <= j < i :: items[j].Got?
  }

  predicate NoneFails(items: seq<Item>) { forall i | 0 <= i < |items| :: items[i].Got? && items[i].message.error == "" }

  // What the loop has after i messages.
  ghost predicate ReadUpTo(items: seq<Item>, i: nat, image: string, error: string, published: seq<string>) {
    && i <= |items| && (forall j | 0 <= j < i :: items[j].Got?)
    && image == LastOf(Images(items[..i])) && error == LastOf(Errors(items[..i])) && published == Published(items[..i])
  }

  lemma ReadsOn(items: seq<Item>, i: nat, image: string, error: string, published: seq<string>)
    requires ReadUpTo(items, i, image, error, published) && i < |items| && items[i].Got?
    ensures var m := items[i].message;
            ReadUpTo(items, i + 1, if m.image != "" then m.image else image, if m.error != "" then m.error else error,
                     published + LinesOf(items[i]))
  {
    Snoc(items, i);
  }

  lemma ReadAll(items: seq<Item>, image: string, error: string, published: seq<string>)
    requires ReadUpTo(items, |items|, image, error, published)
    ensures Garbled !in items
    ensures image == LastOf(Images(items)) && error == LastOf(Errors(items)) && published == Published(items)
  {
    assert items[..|items|] == items;
  }

  // The loop over Docker's output: it stops at the first thing that is no message.
  method ReadOutput(items: seq<Item>) returns (image: string, error: string, published: seq<string>, garbled: bool)
    ensures garbled <==> Garbled in items
    ensures garbled ==> exists i: nat :: StopsAt(items, i) && published == Published(items[..i])
    ensures !garbled ==> image == LastOf(Images(items)) && error == LastOf(Errors(items)) && published == Published(items)
  {
    image, error, published := "", "", [];
    var i := 0;
    while i < |items|
      invariant 0 <= i <= |items| && ReadUpTo(items, i, image, error, published)
    {
      if items[i].Garbled? {
        assert StopsAt(items, i);
        return image, error, published, true;
      }
      ReadsOn(items, i, image, error, published);
      published := published + LinesOf(items[i]);
      if items[i].message.error != "" {
        error := items[i].message.error;
      }
      if items[i].message.image != "" {
        image := items[i].message.image;
      }
      i := i + 1;
    }
    ReadAll(items, image, error, published);
    garbled := false;
  }

  /** buildImage: the image is the one named last and the error the one reported last, unless the build does not
      start or its output is garbled. */
  method BuildImage(start: Choice, items: seq<Item>) returns (b: Build)
    ensures b.error.None? <==> start.Ok? && NoneFails(items)
    ensures start.Ok? && Garbled !in items ==>
              && b.image == LastOf(Images(items)) && b.published == Published(items)
              && (b.error.Some? ==> b.error.value == Reported(LastOf(Errors(items))))
    ensures !start.Ok? || Garbled in items ==> b.image == "" && b.error.Some?
    ensures !start.Ok? ==> b.error == Some(NotStarted) && b.published == []
    ensures start.Ok? && Garbled !in items ==> TellsLast(items, b)
    ensures start.Ok? && Garbled in items ==>
              && b.error == Some(Undecodable)
              && exists i: nat :: StopsAt(items, i) && b.published == Published(items[..i])
  {
    if !start.Ok? {
      return Build("", Some(NotStarted), []);
    }
    var imageID, buildError, published, garbled := ReadOutput(items);
    if garbled {
      return Build("", Some(Undecodable), published);
    }
    b := Build(imageID, if buildError != "" then Some(Reported(buildError)) else None, published);
    AllGot(items);
    NoErrors(items);
    LastTold(items, b);
  }

  lemma AllGot(items: seq<Item>)
    requires Garbled !in items
    ensures forall i | 0 <= i < |items| :: items[i].Got?
    ensures NoneFails(items) <==> forall i | 0 <= i < |items| :: ErrorOf(items[i]) == ""
  {
  }

  // A progress message of a push, already put together as a line.
  datatype Progress = Progress(line: string, error: string) | Unreadable

  predicate NoneStops(items: seq<Progress>) { forall i | 0 <= i < |items| :: items[i].Progress? && items[i].error == "" }

  predicate Good(item: Progress) { item.Progress? && item.error == "" }

  function LineOf(item: Progress): seq<string> { if item.Progress? && item.line != "" then [item.line + "\n"] else [] }

  function LinesUpTo(items: seq<Progress>, n: nat): seq<string>
    requires n <= |items|
  {
    if n == 0 then [] else LinesUpTo(items, n - 1) + LineOf(items[n - 1])
  }

  /** The lines published by a push are those of its messages that have one, in order. */
  lemma {:induction false} PushedExactly(items: seq<Progress>, n: nat) returns (at: seq<nat>)
    requires n <= |items|
    ensures var lines := LinesUpTo(items, n);
            && |at| == |lines| && (forall j, k | 0 <= j < k < |at| :: at[j] < at[k])
            && (forall k | 0 <= k < |at| ::
                  at[k] < n && items[at[k]].Progress? && items[at[k]].line != "" && lines[k] == items[at[k]].line + "\n")
            && (forall i | 0 <= i < n && items[i].Progress? && items[i].line != "" :: i in at)
  {
    at := [];
    if n > 0 {
      at := PushedExactly(items, n - 1);
      if items[n - 1].Progress? && items[n - 1].line != "" {
        ghost var more := at + [n - 1];
        assert more[|at|] == n - 1 && forall i | i in at :: i in more;
        at := more;
      }
    }
  }

  datatype PushFailure = NotTagged | NotPushed | PushUndecodable | PushReported(message: string)

  /** pushImage: it stops at the first message that is unreadable or reports an error. */
  method PushImage(tag: Choice, push: Choice, items: seq<Progress>)
    returns (error: Option<PushFailure>, published: seq<string>)
    ensures error.None? <==> tag.Ok? && push.Ok? && forall i | 0 <= i < |items| :: Good(items[i])
    ensures error.None? <==> tag.Ok? && push.Ok? && NoneStops(items)
    ensures error.Some? && error.value.PushReported? ==>
              exists i | 0 <= i < |items| :: items[i].Progress? && items[i].error == error.value.message != ""
    ensures error.None? ==> published == LinesUpTo(items, |items|)
    ensures !tag.Ok? || !push.Ok? ==> error == Some(if tag.Ok? then NotPushed else NotTagged) && published == []
    ensures tag.Ok? && push.Ok? && error.Some? ==>
              exists i | 0 <= i < |items| ::
                && !Good(items[i]) && (forall j | 0 <= j < i :: Good(items[j])) && published == LinesUpTo(items, i)
                && error.value == if items[i].Progress? then PushReported(items[i].error) else PushUndecodable
  {
    published := [];
    if !tag.Ok? {
      return Some(NotTagged), published;
    }
    if !push.Ok? {
      return Some(NotPushed), published;
    }
    for i := 0 to |items|
      invariant forall j | 0 <= j < i :: Good(items[j])
      invariant published == LinesUpTo(items, i)
    {
      if items[i].Unreadable? {
        return Some(PushUndecodable), published;
      }
      if items[i].error != "" {
        return Some(PushReported(items[i].error)), published;
      }
      published := published + LineOf(items[i]);
    }
    error := None;
  }

  function BuildText(f: Failure): string {
    match f
    case NotStarted => "failed to build image"
    case Undecodable => "failed to decode build output"
    case Reported(message) => "build error: " + message
  }

  function PushText(f: PushFailure): string {
    match f
    case NotTagged => "failed to tag image"
    case NotPushed => "failed to push image"
    case PushUndecodable => "failed to decode push output"
    case PushReported(message) => "push error: " + message
  }

  function PushingTo(registry: string): string { "Pushing image to registry " + registry + "...\n" }

  /** The message that ends a job's log channel. */
  function Completion(r: Result): string {
    if r.status.Success? then "BUILD_COMPLETE:success:" + r.image else "BUILD_COMPLETE:failed:" + r.error
  }

  /** processJob: it writes building, then exactly one terminal result, then publishes that result's completion
      message last; the job succeeds exactly when nothing in building and pushing failed, with the image named last. */
  method ProcessJob(registry: string, start: Choice, output: seq<Item>, tag: Choice, push: Choice, progress: seq<Progress>)
    returns (writes: seq<Result>, published: seq<string>, ghost outcome: Outcome)
    ensures writes == [BUILDING, ResultOf(outcome)]
    ensures published != [] && published[|published| - 1] == Completion(writes[1])
    ensures writes[1].status.Success? <==>
              start.Ok? && tag.Ok? && push.Ok? && NoneFails(output) && NoneStops(progress)
    ensures !writes[1].status.Success? ==>
              && writes[1].status.Failed? && outcome.error != ""
              && (writes[1].error == if outcome.PushFailed? then "push failed: " + outcome.error else outcome.error)
              && (outcome.PushFailed? <==> start.Ok? && NoneFails(output))
              && writes[1].image == if outcome.PushFailed? then LastOf(Images(output)) else ""
    ensures writes[0] == Result(Building, "", "") && (writes[1].status.Success? ==> writes[1].error == "")
    ensures writes[1].status.Success? ==>
              && writes[1].image == LastOf(Images(output))
              && published == Published(output) + [PushingTo(registry)] + LinesUpTo(progress, |progress|)
                              + [Completion(writes[1])]
  {
    writes := [BUILDING];
    var b := BuildImage(start, output);
    published := b.published;
    if b.error.Some? {
      outcome := BuildFailed(BuildText(b.error.value));
      var result := Result(Failed, "", BuildText(b.error.value));
      return writes + [result], published + [Completion(result)], outcome;
    }
    assert Garbled !in output;
    var error, lines := PushImage(tag, push, progress);
    published := published + [PushingTo(registry)] + lines;
    if error.Some? {
      outcome := PushFailed(b.image, PushText(error.value));
      var result := Result(Failed, b.image, "push failed: " + PushText(error.value));
      return writes + [result], published + [Completion(result)], outcome;
    }
    outcome := Built(b.image);
    var result := Result(Success, b.image, "");
    return writes + [result], published + [Completion(result)], outcome;
  }
}
