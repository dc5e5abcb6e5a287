/** Changes to the model messages of a row: synthetic returns for calls that only the
    segments resolved, interrupted returns for calls a turn left open, steering requests
    taken out, trailing requests merged. Each is shown to leave recorded results alone. */
module ResolvedReturns {
  import opened Basics
  import opened Transcript
  import opened RowMessages
  import opened RoundTrip
  import opened CallResults

  // ---------------------------------------------------------------- appended returns

  /** The return appended for one call, if any. */
  function ResolvedReturn(p: ResponsePart, tools: seq<Tool>, answered: set<CallId>): seq<RequestPart>
    requires p.CallPart?
  {
    var entry := Find(tools, p.id);
    if p.id !in answered && entry.Some? && entry.value.answer.Some? then
      [ReturnPart(p.id, p.name, entry.value.answer.value.output, entry.value.answer.value.outcome)]
    else []
  }

  function ResolvedParts(parts: seq<ResponsePart>, tools: seq<Tool>, answered: set<CallId>): seq<RequestPart> {
    if parts == [] then []
    else
      var p := parts[|parts| - 1];
      ResolvedParts(parts[..|parts| - 1], tools, answered) +
      (if p.CallPart? then ResolvedReturn(p, tools, answered) else [])
  }

  function AppendRequest(messages: seq<Message>, parts: seq<RequestPart>): seq<Message> {
    if parts == [] then messages else messages + [Request(parts, [])]
  }

  /** `with_resolved_returns`: one more request, with a return for each call that only
      the segments resolved; a call with a return or a retry prompt has its answer. */
  function WithResolvedReturns(messages: seq<Message>, segments: seq<Segment>): seq<Message> {
    ResolvedMessages(messages, ToolsOf(segments))
  }

  function InterruptedParts(parts: seq<ResponsePart>, returned: set<CallId>): seq<RequestPart> {
    if parts == [] then []
    else
      var p := parts[|parts| - 1];
      InterruptedParts(parts[..|parts| - 1], returned) +
      (if p.CallPart? && p.id !in returned then [ReturnPart(p.id, p.name, INTERRUPTED_OUTPUT, Interrupted)] else [])
  }

  /** `mark_unanswered_calls`: an interrupted return for every call without a return. */
  function MarkUnanswered(messages: seq<Message>): seq<Message> {
    AppendRequest(messages, InterruptedParts(ReplyParts(messages), Results(messages).Keys))
  }

  lemma AppendRequestParts(messages: seq<Message>, parts: seq<RequestPart>)
    ensures ReplyParts(AppendRequest(messages, parts)) == ReplyParts(messages)
    ensures RequestParts(AppendRequest(messages, parts)) == RequestParts(messages) + parts
    ensures Results(AppendRequest(messages, parts)) == Results(messages) + ResultsOf(parts)
  {
    var r := AppendRequest(messages, parts);
    if parts == [] {
      assert RequestParts(messages) + parts == RequestParts(messages);
    } else {
      assert r[..|r| - 1] == messages;
    }
    ResultsOfAppend(RequestParts(messages), parts);
  }

  lemma RetriedAppend(a: seq<RequestPart>, b: seq<RequestPart>)
    ensures RetriedIn(a + b) == RetriedIn(a) + RetriedIn(b)
  {
    forall id | id in RetriedIn(a) + RetriedIn(b) ensures id in RetriedIn(a + b) {
      if id in RetriedIn(a) {
        var p :| p in a && p.RetryPart? && p.id == id;
        assert p in a + b;
      } else {
        var p :| p in b && p.RetryPart? && p.id == id;
        assert p in a + b;
      }
    }
  }

  // ---------------------------------------------------------------- what the returns are

  /** The results of appended returns: exactly the calls that qualify, with the entry's answer. */
  lemma {:induction false} ResolvedResults(parts: seq<ResponsePart>, tools: seq<Tool>, answered: set<CallId>)
    ensures RetriedIn(ResolvedParts(parts, tools, answered)) == {}
    ensures forall id :: id in ResultsOf(ResolvedParts(parts, tools, answered)) <==>
                         CallPresent(parts, id) && id !in answered && Find(tools, id).Some? && Find(tools, id).value.answer.Some?
    ensures forall id :: id in ResultsOf(ResolvedParts(parts, tools, answered)) ==>
                         ResultsOf(ResolvedParts(parts, tools, answered))[id]
                         == Result(Find(tools, id).value.answer.value.output, Find(tools, id).value.answer.value.outcome)
  {
    if parts != [] {
      var front, p := parts[..|parts| - 1], parts[|parts| - 1];
      ResolvedResults(front, tools, answered);
      CallPresentSnoc(front, p);
      assert parts == front + [p];
      var before := ResolvedParts(front, tools, answered);
      if p.CallPart? && ResolvedReturn(p, tools, answered) != [] {
        var r := ResolvedReturn(p, tools, answered)[0];
        assert ResolvedParts(parts, tools, answered) == before + [r];
        ResultsOfSnoc(before, r);
        RetriedAppend(before, [r]);
      } else {
        assert ResolvedParts(parts, tools, answered) == before;
      }
    }
  }

  predicate CallPresent(parts: seq<ResponsePart>, id: CallId) {
    exists p :: p in parts && p.CallPart? && p.id == id
  }

  lemma CallPresentSnoc(parts: seq<ResponsePart>, p: ResponsePart)
    ensures forall id :: CallPresent(parts + [p], id) <==> CallPresent(parts, id) || (p.CallPart? && p.id == id)
  {
    forall id ensures CallPresent(parts + [p], id) <==> CallPresent(parts, id) || (p.CallPart? && p.id == id) {
      if CallPresent(parts, id) {
        var q :| q in parts && q.CallPart? && q.id == id;
        assert q in parts + [p];
      }
      assert p in parts + [p];
    }
  }

  lemma {:induction false} InterruptedResults(parts: seq<ResponsePart>, returned: set<CallId>)
    ensures RetriedIn(InterruptedParts(parts, returned)) == {}
    ensures forall id :: id in ResultsOf(InterruptedParts(parts, returned)) <==> CallPresent(parts, id) && id !in returned
    ensures forall id :: id in ResultsOf(InterruptedParts(parts, returned)) ==>
                         ResultsOf(InterruptedParts(parts, returned))[id] == Result(INTERRUPTED_OUTPUT, Interrupted)
  {
    if parts != [] {
      var front, p := parts[..|parts| - 1], parts[|parts| - 1];
      InterruptedResults(front, returned);
      CallPresentSnoc(front, p);
      assert parts == front + [p];
      var before := InterruptedParts(front, returned);
      if p.CallPart? && p.id !in returned {
        var r := ReturnPart(p.id, p.name, INTERRUPTED_OUTPUT, Interrupted);
        ResultsOfSnoc(before, r);
        RetriedAppend(before, [r]);
      } else {
        assert InterruptedParts(parts, returned) == before;
      }
    }
  }

  /** Closing a turn: afterwards every call has a result, and none that had one changed. */
  lemma {:induction false} MarkUnansweredCloses(messages: seq<Message>)
    ensures var m := MarkUnanswered(messages);
            && ReplyParts(m) == ReplyParts(messages) && Retried(m) == Retried(messages)
            && Extends(Results(messages), Results(m))
            && (forall id :: CallPresent(ReplyParts(m), id) ==> id in Results(m))
            && (forall id :: id in Results(m) && id !in Results(messages) ==>
                  CallPresent(ReplyParts(m), id) && Results(m)[id] == Result(INTERRUPTED_OUTPUT, Interrupted))
  {
    var parts := InterruptedParts(ReplyParts(messages), Results(messages).Keys);
    AppendRequestParts(messages, parts);
    RetriedAppend(RequestParts(messages), parts);
    InterruptedResults(ReplyParts(messages), Results(messages).Keys);
  }

  lemma {:induction false} CallPresentTools(tools: seq<Tool>, messages: seq<Message>)
    requires CallParts(tools) == CallsOf(messages)
    ensures forall id :: CallPresent(ReplyParts(messages), id) <==> id in Ids(tools)
  {
    forall id ensures CallPresent(ReplyParts(messages), id) <==> id in Ids(tools) {
      forall p: ResponsePart | p.CallPart? ensures p in ReplyParts(messages) <==> p in CallParts(tools) {
        FilterMember(IsCall, ReplyParts(messages), p);
      }
      CallPartsIds(tools, id);
    }
  }

  lemma {:induction false} CallPartsIds(tools: seq<Tool>, id: CallId)
    ensures CallPresent(CallParts(tools), id) <==> id in Ids(tools)
  {
    if tools != [] {
      var front, t := tools[..|tools| - 1], tools[|tools| - 1];
      CallPartsIds(front, id);
      CallPresentSnoc(CallParts(front), CallPart(t.id, t.name, t.input));
      assert Ids(tools) == Ids(front) + [t.id];
    }
  }

  lemma ResolveToolsIds(tools: seq<Tool>, scope: Scope, answer: Answer)
    ensures Ids(ResolveTools(tools, scope, answer)) == Ids(tools)
  {
  }

  lemma {:induction false} ResolveToolsCalls(tools: seq<Tool>, scope: Scope, answer: Answer)
    ensures CallParts(ResolveTools(tools, scope, answer)) == CallParts(tools)
  {
    if tools != [] {
      ResolveToolsCalls(tools[..|tools| - 1], scope, answer);
      var r := ResolveTools(tools, scope, answer);
      assert r[..|r| - 1] == ResolveTools(tools[..|tools| - 1], scope, answer);
    }
  }

  /** Superseding or repairing a row's calls, in both of its forms: the forms still agree,
      recorded results stay, and a call resolved now has its result in the messages too,
      unless a retry prompt had answered it. */
  lemma {:induction false} ResolveKeepsAgreement(messages: seq<Message>, segments: seq<Segment>, scope: Scope, answer: Answer)
    requires Agree(messages, segments) && DistinctIds(ToolsOf(segments))
    ensures var s := Resolve(segments, scope, answer);
            var m := WithResolvedReturns(messages, s);
            && Agree(m, s) && DistinctIds(ToolsOf(s))
            && ReplyParts(m) == ReplyParts(messages) && Retried(m) == Retried(messages)
            && Extends(Results(messages), Results(m))
            && (forall t :: t in ToolsOf(segments) && t.answer.None? && Covers(scope, t.id) && t.id !in Results(messages) ==>
                  (t.id in Results(m) <==> t.id !in Retried(messages)))
  {
    var s := Resolve(segments, scope, answer);
    var m := WithResolvedReturns(messages, s);
    var tools, tools' := ToolsOf(segments), ToolsOf(s);
    ResolveToolsOf(segments, scope, answer);
    ResolveToolsIds(tools, scope, answer);
    ResolveToolsCalls(tools, scope, answer);
    ResolveMessages(messages, tools, scope, answer);
    assert m == ResolvedMessages(messages, tools');
    forall t' | t' in tools' && t'.id !in Retried(m) ensures MatchesTool(t', Results(m)) {
      var i :| 0 <= i < |tools'| && tools'[i] == t';
      assert ResolvedAt(messages, m, tools[i], tools'[i]);
    }
    forall t | t in tools && t.answer.None? && Covers(scope, t.id) && t.id !in Results(messages)
      ensures t.id in Results(m) <==> t.id !in Retried(messages)
    {
      var i :| 0 <= i < |tools| && tools[i] == t;
      assert ResolvedAt(messages, m, tools[i], tools'[i]);
      assert tools'[i].answer.Some?;
    }
  }

  function ResolvedMessages(messages: seq<Message>, tools: seq<Tool>): seq<Message> {
    AppendRequest(messages, ResolvedParts(ReplyParts(messages), tools, Results(messages).Keys + Retried(messages)))
  }

  lemma {:induction false} ResolveMessages(messages: seq<Message>, tools: seq<Tool>, scope: Scope, answer: Answer)
    requires CallParts(tools) == CallsOf(messages) && DistinctIds(tools)
    requires forall t :: t in tools && t.id !in Retried(messages) ==> MatchesTool(t, Results(messages))
    ensures var tools' := ResolveTools(tools, scope, answer);
            var m := ResolvedMessages(messages, tools');
            && ReplyParts(m) == ReplyParts(messages) && Retried(m) == Retried(messages)
            && Extends(Results(messages), Results(m))
            && (forall i :: 0 <= i < |tools| ==> ResolvedAt(messages, m, tools[i], tools'[i]))
  {
    var tools' := ResolveTools(tools, scope, answer);
    var m := ResolvedMessages(messages, tools');
    var answered := Results(messages).Keys + Retried(messages);
    var parts := ResolvedParts(ReplyParts(messages), tools', answered);
    ResolveToolsIds(tools, scope, answer);
    AppendRequestParts(messages, parts);
    RetriedAppend(RequestParts(messages), parts);
    ResolvedResults(ReplyParts(messages), tools', answered);
    CallPresentTools(tools, messages);
    forall i | 0 <= i < |tools| ensures ResolvedAt(messages, m, tools[i], tools'[i]) {
      assert Ids(tools)[i] == tools[i].id;
      FindUnique(tools', tools'[i]);
      ResolvedTool(messages, m, tools[i], tools'[i], tools', scope, answer);
    }
  }

  ghost predicate ResolvedAt(messages: seq<Message>, m: seq<Message>, t: Tool, t': Tool) {
    && t'.id == t.id
    && (t.id !in Retried(messages) ==> MatchesTool(t', Results(m)))
    && (t.id in Retried(messages) && t.id !in Results(messages) ==> t.id !in Results(m))
  }

  lemma ResolvedTool(messages: seq<Message>, m: seq<Message>, t: Tool, t': Tool, tools': seq<Tool>, scope: Scope, answer: Answer)
    requires t' == ResolveTool(t, scope, answer) && Find(tools', t.id) == Some(t')
    requires t.id !in Retried(messages) ==> MatchesTool(t, Results(messages))
    requires CallPresent(ReplyParts(messages), t.id)
    requires var added := ResultsOf(ResolvedParts(ReplyParts(messages), tools', Results(messages).Keys + Retried(messages)));
             && Results(m) == Results(messages) + added
             && (t.id in added <==> t.id !in Results(messages) && t.id !in Retried(messages) && t'.answer.Some?)
             && (t.id in added ==> added[t.id] == Result(t'.answer.value.output, t'.answer.value.outcome))
    ensures ResolvedAt(messages, m, t, t')
  {
  }

  // ---------------------------------------------------------------- steering and merging

  predicate PendingSteering(m: Message, pending: set<string>) {
    m.Request? && exists id :: id in m.steering && id in pending
  }

  /** `_without_steering`: the messages without the steering requests still pending. */
  function WithoutSteering(messages: seq<Message>, pending: set<string>): seq<Message> {
    Filter((m: Message) => !PendingSteering(m, pending), messages)
  }

  /** A steering request holds prompts only. */
  predicate SteeringIsPrompts(messages: seq<Message>) {
    forall m :: m in messages && m.Request? && m.steering != [] ==> forall p :: p in m.parts ==> p.PromptPart?
  }

  predicate IsResult(p: RequestPart) { !p.PromptPart? }

  lemma {:induction false} ResultsWithoutPrompts(parts: seq<RequestPart>)
    ensures ResultsOf(Filter(IsResult, parts)) == ResultsOf(parts)
    ensures RetriedIn(Filter(IsResult, parts)) == RetriedIn(parts)
  {
    if parts != [] {
      var front, p := parts[..|parts| - 1], parts[|parts| - 1];
      ResultsWithoutPrompts(front);
      assert parts == front + [p];
      RetriedAppend(front, [p]);
      ResultsOfSnoc(front, p);
      if IsResult(p) {
        ResultsOfSnoc(Filter(IsResult, front), p);
        RetriedAppend(Filter(IsResult, front), [p]);
      } else {
        assert Filter(IsResult, parts) == Filter(IsResult, front);
      }
    }
  }

  /** Leaving out steering changes no call and no result. */
  lemma {:induction false} WithoutSteeringKeepsResults(messages: seq<Message>, pending: set<string>)
    requires SteeringIsPrompts(messages)
    ensures var m := WithoutSteering(messages, pending);
            ReplyParts(m) == ReplyParts(messages) && Results(m) == Results(messages) && Retried(m) == Retried(messages)
    ensures forall interrupted :: Build(WithoutSteering(messages, pending), interrupted) == Build(messages, interrupted)
  {
    WithoutSteeringParts(messages, pending);
    ResultsWithoutPrompts(RequestParts(messages));
    ResultsWithoutPrompts(RequestParts(WithoutSteering(messages, pending)));
  }

  lemma {:induction false} WithoutSteeringParts(messages: seq<Message>, pending: set<string>)
    requires SteeringIsPrompts(messages)
    ensures var m := WithoutSteering(messages, pending);
            ReplyParts(m) == ReplyParts(messages) && Filter(IsResult, RequestParts(m)) == Filter(IsResult, RequestParts(messages))
  {
    if messages != [] {
      var front, last := messages[..|messages| - 1], messages[|messages| - 1];
      WithoutSteeringParts(front, pending);
      var kept := WithoutSteering(front, pending);
      if PendingSteering(last, pending) {
        assert last in messages;
        FilterNone(IsResult, last.parts);
        FilterAppend(IsResult, RequestParts(front), last.parts);
        assert WithoutSteering(messages, pending) == kept;
        assert ReplyParts(messages) == ReplyParts(front);
      } else {
        assert (kept + [last])[..|kept|] == kept;
        if last.Request? {
          FilterAppend(IsResult, RequestParts(front), last.parts);
          FilterAppend(IsResult, RequestParts(kept), last.parts);
        } else {
          assert RequestParts(messages) == RequestParts(front) && RequestParts(kept + [last]) == RequestParts(kept);
        }
      }
    }
  }

  /** How many of the last messages are requests. */
  function Trailing(messages: seq<Message>): (n: nat)
    ensures n <= |messages|
    ensures forall i :: |messages| - n <= i < |messages| ==> messages[i].Request?
    ensures n < |messages| ==> messages[|messages| - n - 1].Response?
  {
    if messages == [] || messages[|messages| - 1].Response? then 0
    else 1 + Trailing(messages[..|messages| - 1])
  }

  /** `_resumable`: the requests after the last response merged into one. */
  function Resumable(messages: seq<Message>): seq<Message> {
    var n := Trailing(messages);
    if n < 2 then messages
    else
      var k := |messages| - n;
      messages[..k] + [Request(RequestParts(messages[k..]), messages[k].steering)]
  }

  /** Merging for resumption changes nothing the segments are built from, and leaves the
      results of a batch in the one request a resumed run looks at. */
  lemma {:induction false} ResumableKeepsContent(messages: seq<Message>, interrupted: string)
    ensures Build(Resumable(messages), interrupted) == Build(messages, interrupted)
    ensures Retried(Resumable(messages)) == Retried(messages)
    ensures Trailing(Resumable(messages)) <= 1
  {
    var n := Trailing(messages);
    if n >= 2 {
      var k := |messages| - n;
      var tail := messages[k..];
      assert messages == messages[..k] + tail;
      assert forall m :: m in tail ==> m.Request?;
      NoReplies(tail);
      ReplyPartsAppend(messages[..k], tail);
      RequestPartsAppend(messages[..k], tail);
      var merged := Request(RequestParts(tail), messages[k].steering);
      assert (messages[..k] + [merged])[..k] == messages[..k];
      assert ReplyParts(messages[..k]) + [] == ReplyParts(messages[..k]);
      assert k > 0 ==> messages[k - 1].Response?;
    }
  }

  lemma {:induction false} NoReplies(messages: seq<Message>)
    requires forall m :: m in messages ==> m.Request?
    ensures ReplyParts(messages) == []
  {
    if messages != [] {
      assert messages[|messages| - 1].Request?;
      NoReplies(messages[..|messages| - 1]);
    }
  }
}
