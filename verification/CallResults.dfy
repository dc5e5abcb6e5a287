/** The results of tool calls on an assistant row.

    A row holds its calls twice: in its segments and in its model messages. `Agree` says
    that the two tell the same story. Every way the runtime resolves a call is shown to
    keep that agreement, so that segments rebuilt from the messages later never change a
    recorded result; the one exception, a call answered by a retry prompt, is exact. */
module CallResults {
  import opened Basics
  import opened Transcript
  import opened RowMessages
  import opened RoundTrip

  predicate IsCall(p: ResponsePart) { p.CallPart? }

  function CallsOf(messages: seq<Message>): seq<ResponsePart> {
    Filter(IsCall, ReplyParts(messages))
  }

  /** The calls that were answered with a retry prompt. */
  function RetriedIn(parts: seq<RequestPart>): set<CallId> {
    set p | p in parts && p.RetryPart? :: p.id
  }

  function Retried(messages: seq<Message>): set<CallId> {
    RetriedIn(RequestParts(messages))
  }

  /** Segments and messages hold the same calls in the same order, and every call that was
      not retried has the same result in both. */
  ghost predicate Agree(messages: seq<Message>, segments: seq<Segment>) {
    && CallParts(ToolsOf(segments)) == CallsOf(messages)
    && forall t :: t in ToolsOf(segments) && t.id !in Retried(messages) ==> MatchesTool(t, Results(messages))
  }

  ghost predicate Extends<K, V>(a: map<K, V>, b: map<K, V>) {
    forall k :: k in a ==> k in b && b[k] == a[k]
  }

  // ---------------------------------------------------------------- agreement

  lemma {:induction false} CallToolsAgree(parts: seq<ResponsePart>, results: map<CallId, Result>, interrupted: string)
    ensures var tools := CallTools(parts, results, interrupted);
            CallParts(tools) == Filter(IsCall, parts) && Matches(tools, results)
  {
    if parts != [] {
      var front, p := parts[..|parts| - 1], parts[|parts| - 1];
      CallToolsAgree(front, results, interrupted);
      var tools := CallTools(parts, results, interrupted);
      if p.CallPart? {
        var tool := CallTool(p, results, interrupted);
        assert tools[..|tools| - 1] == CallTools(front, results, interrupted);
        assert MatchesTool(tool, results);
      } else {
        assert tools == CallTools(front, results, interrupted);
      }
    }
  }

  /** A rebuilt row agrees with its messages, retried calls included. */
  lemma {:induction false} BuildAgrees(messages: seq<Message>, interrupted: string)
    ensures Agree(messages, Build(messages, interrupted))
    ensures Matches(ToolsOf(Build(messages, interrupted)), Results(messages))
  {
    BuildTools(messages, interrupted);
    CallToolsAgree(ReplyParts(messages), Results(messages), interrupted);
  }

  lemma {:induction false} CallPartsAt(tools: seq<Tool>, i: nat)
    requires i < |tools|
    ensures CallParts(tools)[i] == CallPart(tools[i].id, tools[i].name, tools[i].input)
  {
    if i < |tools| - 1 {
      CallPartsAt(tools[..|tools| - 1], i);
    }
  }

  lemma {:induction false} CallPartsAppend(a: seq<Tool>, b: seq<Tool>)
    ensures CallParts(a + b) == CallParts(a) + CallParts(b)
  {
    if b == [] {
      assert a + b == a;
    } else {
      CallPartsAppend(a, b[..|b| - 1]);
      AppendFront(a, b);
    }
  }

  lemma {:induction false} PartsOfCalls(segments: seq<Segment>)
    ensures Filter(IsCall, PartsOf(segments)) == CallParts(ToolsOf(segments))
  {
    if segments != [] {
      var front, s := segments[..|segments| - 1], segments[|segments| - 1];
      PartsOfCalls(front);
      FilterAppend(IsCall, PartsOf(front), SegmentParts(s));
      SegmentCalls(s);
      if s.Group? {
        CallPartsAppend(ToolsOf(front), s.tools);
      } else {
        assert CallParts(ToolsOf(front)) + [] == CallParts(ToolsOf(front));
        assert ToolsOf(front) + [] == ToolsOf(front);
      }
    }
  }

  lemma SegmentCalls(s: Segment)
    ensures Filter(IsCall, SegmentParts(s)) == if s.Group? then CallParts(s.tools) else []
  {
    if s.Group? {
      CallPartsAreCalls(s.tools);
      FilterAll(IsCall, CallParts(s.tools));
    } else {
      FilterNone(IsCall, SegmentParts(s));
    }
  }

  lemma {:induction false} CallPartsAreCalls(tools: seq<Tool>)
    ensures forall p :: p in CallParts(tools) ==> p.CallPart?
  {
    if tools != [] {
      CallPartsAreCalls(tools[..|tools| - 1]);
    }
  }

  lemma {:induction false} CanonicalTools(segments: seq<Segment>)
    ensures ToolsOf(Canonical(segments)) == ToolsOf(segments)
  {
    if segments != [] {
      var front, s := segments[..|segments| - 1], segments[|segments| - 1];
      CanonicalTools(front);
      if s.Thinking? || s.Text? {
        AppendContentTools(Canonical(front), s);
      }
    }
  }

  /** A row without messages agrees with the messages it is replayed as. */
  lemma {:induction false} ExpandAgrees(segments: seq<Segment>, content: string)
    requires DistinctIds(ToolsOf(segments))
    ensures Agree(Expand(segments, content), segments)
    ensures Retried(Expand(segments, content)) == {}
  {
    var c := RowSegments(segments, content);
    CanonicalTools(segments);
    assert ToolsOf([Text(content)]) == [];
    assert ToolsOf(c) == ToolsOf(segments);
    ReadBackRow(segments, content, "");
    ExpandedReplies([], c);
    ExpandedRequests([], c);
    assert [] + PartsOf(c) == PartsOf(c);
    PartsOfCalls(c);
    ReturnPartsAreReturns(ToolsOf(c));
  }

  lemma {:induction false} ReturnPartsAreReturns(tools: seq<Tool>)
    ensures forall p :: p in ReturnParts(tools) ==> p.ReturnPart?
  {
    if tools != [] {
      ReturnPartsAreReturns(tools[..|tools| - 1]);
    }
  }

  // ---------------------------------------------------------------- resolving calls

  /** Which unanswered calls a resolution covers: the abandoned ones, or all but those kept. */
  datatype Scope = Only(ids: set<CallId>) | Except(ids: set<CallId>)

  predicate Covers(scope: Scope, id: CallId) {
    if scope.Only? then id in scope.ids else id !in scope.ids
  }

  function ResolveTool(t: Tool, scope: Scope, answer: Answer): Tool {
    if t.answer.None? && Covers(scope, t.id) then t.(answer := Some(answer)) else t
  }

  function ResolveTools(tools: seq<Tool>, scope: Scope, answer: Answer): (r: seq<Tool>)
    ensures |r| == |tools|
    ensures forall i :: 0 <= i < |tools| ==> r[i] == ResolveTool(tools[i], scope, answer)
  {
    if tools == [] then []
    else ResolveTools(tools[..|tools| - 1], scope, answer) + [ResolveTool(tools[|tools| - 1], scope, answer)]
  }

  function ResolveSegment(s: Segment, scope: Scope, answer: Answer): Segment {
    if s.Group? then Group(ResolveTools(s.tools, scope, answer)) else s
  }

  /** The segments with every covered, unanswered call given `answer`. */
  function Resolve(segments: seq<Segment>, scope: Scope, answer: Answer): (r: seq<Segment>)
    ensures |r| == |segments|
    ensures forall i :: 0 <= i < |segments| ==> r[i] == ResolveSegment(segments[i], scope, answer)
  {
    if segments == [] then []
    else Resolve(segments[..|segments| - 1], scope, answer) + [ResolveSegment(segments[|segments| - 1], scope, answer)]
  }

  const STALE_OUTPUT := "[Deferred host tool was not completed before the session was reloaded. Whether the action took effect is unknown.]"
  const SUPERSEDED_OUTPUT := "[Deferred host tool was superseded by a later user turn before its continuation arrived. Its result was never recorded.]"
  const CANCELLED_OUTPUT := "[Host action interrupted; its external outcome is unknown.]"
  const INTERRUPTED_OUTPUT := "[Tool execution was interrupted; its external outcome is unknown.]"

  const UnknownAnswer := Answer(STALE_OUTPUT, Interrupted, Some("unknown"))

  function AbandonedAnswer(status: string): Answer {
    Answer(if status == "superseded" then SUPERSEDED_OUTPUT else CANCELLED_OUTPUT, Interrupted, Some(status))
  }

  function UnansweredIds(tools: seq<Tool>, scope: Scope): seq<CallId> {
    if tools == [] then []
    else
      var t := tools[|tools| - 1];
      UnansweredIds(tools[..|tools| - 1], scope) + (if t.answer.None? && Covers(scope, t.id) then [t.id] else [])
  }

  lemma {:induction false} UnansweredIdsAppend(a: seq<Tool>, b: seq<Tool>, scope: Scope)
    ensures UnansweredIds(a + b, scope) == UnansweredIds(a, scope) + UnansweredIds(b, scope)
  {
    if b == [] {
      assert a + b == a;
    } else {
      UnansweredIdsAppend(a, b[..|b| - 1], scope);
      AppendFront(a, b);
    }
  }

  method RepairGroup(tools: seq<Tool>, keep: set<CallId>) returns (updated: seq<Tool>, repaired: seq<CallId>)
    ensures updated == ResolveTools(tools, Except(keep), UnknownAnswer)
    ensures repaired == UnansweredIds(tools, Except(keep))
  {
    updated, repaired := [], [];
    for j := 0 to |tools|
      invariant updated == ResolveTools(tools[..j], Except(keep), UnknownAnswer)
      invariant repaired == UnansweredIds(tools[..j], Except(keep))
    {
      assert tools[..j + 1][..j] == tools[..j];
      if tools[j].answer.None? && tools[j].id !in keep {
        updated := updated + [tools[j].(answer := Some(UnknownAnswer))];
        repaired := repaired + [tools[j].id];
      } else {
        updated := updated + [tools[j]];
      }
    }
    assert tools[..|tools|] == tools;
  }

  /** `repair_stale_tool_segments`: a copy where every tool without output and outside
      `keep` is marked unknown, and the ids it marked. */
  method RepairSegments(segments: seq<Segment>, keep: set<CallId>) returns (updated: seq<Segment>, repaired: seq<CallId>)
    ensures updated == Resolve(segments, Except(keep), UnknownAnswer)
    ensures repaired == UnansweredIds(ToolsOf(segments), Except(keep))
  {
    updated, repaired := [], [];
    for i := 0 to |segments|
      invariant updated == Resolve(segments[..i], Except(keep), UnknownAnswer)
      invariant repaired == UnansweredIds(ToolsOf(segments[..i]), Except(keep))
    {
      assert segments[..i + 1][..i] == segments[..i];
      if segments[i].Group? {
        var marked, ids := RepairGroup(segments[i].tools, keep);
        UnansweredIdsAppend(ToolsOf(segments[..i]), segments[i].tools, Except(keep));
        updated, repaired := updated + [Group(marked)], repaired + ids;
      } else {
        assert ToolsOf(segments[..i + 1]) == ToolsOf(segments[..i]);
        updated := updated + [segments[i]];
      }
    }
    assert segments[..|segments|] == segments;
  }

  /** With no covered call unanswered, resolving changes nothing: a repair that has nothing
      to mark, or a batch that is already answered. */
  lemma {:induction false} ResolveChangesNothing(segments: seq<Segment>, scope: Scope, answer: Answer)
    requires UnansweredIds(ToolsOf(segments), scope) == []
    ensures Resolve(segments, scope, answer) == segments
  {
    if segments != [] {
      var front, s := segments[..|segments| - 1], segments[|segments| - 1];
      if s.Group? {
        UnansweredIdsAppend(ToolsOf(front), s.tools, scope);
        ResolveToolsNothing(s.tools, scope, answer);
      } else {
        assert ToolsOf(front) + [] == ToolsOf(front);
      }
      ResolveChangesNothing(front, scope, answer);
      assert segments == front + [s];
      assert ResolveSegment(s, scope, answer) == s;
    }
  }

  lemma {:induction false} ResolveToolsNothing(tools: seq<Tool>, scope: Scope, answer: Answer)
    requires UnansweredIds(tools, scope) == []
    ensures ResolveTools(tools, scope, answer) == tools
  {
    if tools != [] {
      ResolveToolsNothing(tools[..|tools| - 1], scope, answer);
    }
  }

  predicate AnyId(tools: seq<Tool>, ids: set<CallId>) {
    tools != [] && (AnyId(tools[..|tools| - 1], ids) || tools[|tools| - 1].id in ids)
  }

  lemma {:induction false} AnyIdMember(tools: seq<Tool>, i: nat, ids: set<CallId>)
    requires i < |tools| && tools[i].id in ids
    ensures AnyId(tools, ids)
  {
    if i < |tools| - 1 {
      AnyIdMember(tools[..|tools| - 1], i, ids);
    }
  }

  lemma AnyIdSnoc(tools: seq<Tool>, tool: Tool, ids: set<CallId>)
    ensures AnyId(tools + [tool], ids) <==> AnyId(tools, ids) || tool.id in ids
  {
    assert (tools + [tool])[..|tools|] == tools;
  }

  lemma {:induction false} AnyIdAppend(a: seq<Tool>, b: seq<Tool>, ids: set<CallId>)
    ensures AnyId(a + b, ids) <==> AnyId(a, ids) || AnyId(b, ids)
  {
    if b == [] {
      assert a + b == a;
    } else {
      AnyIdAppend(a, b[..|b| - 1], ids);
      AppendFront(a, b);
    }
  }

  lemma ResolveToolsSnoc(tools: seq<Tool>, tool: Tool, scope: Scope, answer: Answer)
    ensures ResolveTools(tools + [tool], scope, answer) == ResolveTools(tools, scope, answer) + [ResolveTool(tool, scope, answer)]
  {
    assert (tools + [tool])[..|tools|] == tools;
  }

  method SupersedeTool(tool: Tool, ids: set<CallId>, status: string) returns (updated: Tool, found: bool)
    ensures updated == ResolveTool(tool, Only(ids), AbandonedAnswer(status)) && (found <==> tool.id in ids)
  {
    updated, found := tool, false;
    if tool.id in ids {
      found := true;
      if tool.answer.None? {
        updated := tool.(answer := Some(AbandonedAnswer(status)));
      }
    }
  }

  method SupersedeGroup(tools: seq<Tool>, ids: set<CallId>, status: string) returns (updated: seq<Tool>, found: bool)
    ensures updated == ResolveTools(tools, Only(ids), AbandonedAnswer(status))
    ensures found == AnyId(tools, ids)
  {
    updated, found := [], false;
    for j := 0 to |tools|
      invariant updated == ResolveTools(tools[..j], Only(ids), AbandonedAnswer(status)) && found == AnyId(tools[..j], ids)
    {
      PrefixSnoc(tools, j);
      AnyIdSnoc(tools[..j], tools[j], ids);
      ResolveToolsSnoc(tools[..j], tools[j], Only(ids), AbandonedAnswer(status));
      var tool, hit := SupersedeTool(tools[j], ids, status);
      updated, found := updated + [tool], found || hit;
    }
    assert tools[..|tools|] == tools;
  }

  /** `superseded_segments`: the abandoned calls resolved, or nothing when none is there. */
  method SupersededSegments(segments: seq<Segment>, ids: set<CallId>, status: string) returns (updated: Option<seq<Segment>>)
    ensures updated == Superseded(segments, ids, status)
  {
    var copy: seq<Segment> := [];
    var found := false;
    for i := 0 to |segments|
      invariant copy == Resolve(segments[..i], Only(ids), AbandonedAnswer(status))
      invariant found == AnyId(ToolsOf(segments[..i]), ids)
    {
      assert segments[..i + 1][..i] == segments[..i];
      if segments[i].Group? {
        var marked, any := SupersedeGroup(segments[i].tools, ids, status);
        AnyIdAppend(ToolsOf(segments[..i]), segments[i].tools, ids);
        copy, found := copy + [Group(marked)], found || any;
      } else {
        assert ToolsOf(segments[..i + 1]) == ToolsOf(segments[..i]);
        copy := copy + [segments[i]];
      }
    }
    assert segments[..|segments|] == segments;
    updated := if found then Some(copy) else None;
  }

  function Superseded(segments: seq<Segment>, ids: set<CallId>, status: string): Option<seq<Segment>> {
    if AnyId(ToolsOf(segments), ids) then Some(Resolve(segments, Only(ids), AbandonedAnswer(status))) else None
  }

  lemma {:induction false} ResolveToolsOf(segments: seq<Segment>, scope: Scope, answer: Answer)
    ensures ToolsOf(Resolve(segments, scope, answer)) == ResolveTools(ToolsOf(segments), scope, answer)
  {
    if segments != [] {
      var front, s := segments[..|segments| - 1], segments[|segments| - 1];
      ResolveToolsOf(front, scope, answer);
      var r := Resolve(segments, scope, answer);
      assert r[..|r| - 1] == Resolve(front, scope, answer);
    }
  }

  /** The first tool with this id. */
  function Find(tools: seq<Tool>, id: CallId): (r: Option<Tool>)
    ensures r.Some? ==> r.value in tools && r.value.id == id
    ensures r.None? ==> forall t :: t in tools ==> t.id != id
  {
    if tools == [] then None
    else if tools[0].id == id then Some(tools[0])
    else Find(tools[1..], id)
  }

  lemma FindUnique(tools: seq<Tool>, t: Tool)
    requires DistinctIds(tools) && t in tools
    ensures Find(tools, t.id) == Some(t)
  {
    var r := Find(tools, t.id);
    var i :| 0 <= i < |tools| && tools[i] == t;
    var j :| 0 <= j < |tools| && tools[j] == r.value;
    assert Ids(tools)[i] == Ids(tools)[j];
  }

  // ---------------------------------------------------------------- call by call

  lemma {:induction false} AnyIdMeans(tools: seq<Tool>, ids: set<CallId>)
    ensures AnyId(tools, ids) <==> exists i :: 0 <= i < |tools| && tools[i].id in ids
  {
    if tools != [] {
      var front, last := tools[..|tools| - 1], tools[|tools| - 1];
      AnyIdMeans(front, ids);
      assert forall i :: 0 <= i < |front| ==> front[i] == tools[i];
      assert tools[|front|] == last;
    }
  }

  lemma {:induction false} UnansweredMeans(tools: seq<Tool>, scope: Scope, id: CallId)
    ensures id in UnansweredIds(tools, scope) <==> exists i :: 0 <= i < |tools| && tools[i].id == id && tools[i].answer.None? && Covers(scope, id)
  {
    if tools != [] {
      var front, last := tools[..|tools| - 1], tools[|tools| - 1];
      UnansweredMeans(front, scope, id);
      assert forall i :: 0 <= i < |front| ==> front[i] == tools[i];
      assert tools[|front|] == last;
    }
  }

  /** What a repair does, call by call: an unanswered call that is not kept is unknown from
      then on and is listed; every other call, and everything else, stays as it is. */
  lemma RepairMarks(segments: seq<Segment>, keep: set<CallId>)
    ensures var r, tools := Resolve(segments, Except(keep), UnknownAnswer), ToolsOf(segments);
            && |r| == |segments| && (forall i :: 0 <= i < |r| && !segments[i].Group? ==> r[i] == segments[i])
            && |ToolsOf(r)| == |tools|
            && forall i :: 0 <= i < |tools| ==>
                 ToolsOf(r)[i] == if tools[i].answer.None? && tools[i].id !in keep
                                  then tools[i].(answer := Some(Answer(STALE_OUTPUT, Interrupted, Some("unknown")))) else tools[i]
    ensures forall id :: id in UnansweredIds(ToolsOf(segments), Except(keep)) <==>
              id !in keep && exists i :: 0 <= i < |ToolsOf(segments)| && ToolsOf(segments)[i].id == id && ToolsOf(segments)[i].answer.None?
  {
    ResolveToolsOf(segments, Except(keep), UnknownAnswer);
    forall id {
      UnansweredMeans(ToolsOf(segments), Except(keep), id);
    }
  }

  /** What an abandonment does: with any of the calls there, each of them that is unanswered
      is answered as interrupted under the status; every other call stays as it is. */
  lemma AbandonMarks(segments: seq<Segment>, ids: set<CallId>, status: string)
    ensures var r, tools := Superseded(segments, ids, status), ToolsOf(segments);
            var output := if status == "superseded" then SUPERSEDED_OUTPUT else CANCELLED_OUTPUT;
            && (r.Some? <==> exists i :: 0 <= i < |tools| && tools[i].id in ids)
            && (r.Some? ==>
                  && |ToolsOf(r.value)| == |tools|
                  && forall i :: 0 <= i < |tools| ==>
                       ToolsOf(r.value)[i] == if tools[i].answer.None? && tools[i].id in ids
                                              then tools[i].(answer := Some(Answer(output, Interrupted, Some(status)))) else tools[i])
  {
    AnyIdMeans(ToolsOf(segments), ids);
    ResolveToolsOf(segments, Only(ids), AbandonedAnswer(status));
  }

  /** What a rebuild says of each call: the result it was given, and a label for one that was
      no plain success. */
  lemma {:induction false} BuiltCall(parts: seq<ResponsePart>, results: map<CallId, Result>, interrupted: string, i: nat)
    requires i < |Filter(IsCall, parts)|
    ensures var c, tools := Filter(IsCall, parts)[i], CallTools(parts, results, interrupted);
            && |tools| == |Filter(IsCall, parts)| && c.CallPart?
            && tools[i].id == c.id && tools[i].name == c.name && tools[i].input == c.args
            && (tools[i].answer.None? <==> c.id !in results)
            && (c.id in results ==>
                  && tools[i].answer.value.output == results[c.id].output && tools[i].answer.value.outcome == results[c.id].outcome
                  && tools[i].answer.value.status == (if results[c.id].outcome == Failed then Some("failed")
                                                     else if results[c.id].outcome == Interrupted then Some(interrupted) else None))
  {
    var front, p := parts[..|parts| - 1], parts[|parts| - 1];
    BuiltCount(front, results, interrupted);
    if i < |Filter(IsCall, front)| {
      BuiltCall(front, results, interrupted, i);
    }
  }

  lemma {:induction false} BuiltCount(parts: seq<ResponsePart>, results: map<CallId, Result>, interrupted: string)
    ensures |CallTools(parts, results, interrupted)| == |Filter(IsCall, parts)|
  {
    if parts != [] {
      BuiltCount(parts[..|parts| - 1], results, interrupted);
    }
  }
}
