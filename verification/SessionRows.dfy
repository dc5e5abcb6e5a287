/** The stored rows of a conversation, and what resolving calls does to a row. */
module SessionRows {
  import opened Basics
  import opened Transcript
  import opened RowMessages
  import opened RoundTrip
  import opened CallResults
  import opened ResolvedReturns

  type MessageId = string

  datatype Role = User | Assistant | Host

  /** A message row; `messages` is absent on rows stored before model messages were kept. */
  datatype Row = Row(
    id: MessageId,
    parent: Option<MessageId>,
    role: Role,
    content: string,
    segments: seq<Segment>,
    messages: Option<seq<Message>>,
    createdAt: nat)

  /** The model messages an assistant row is replayed as. */
  function History(row: Row): seq<Message> {
    if row.role != Assistant then []
    else if row.messages.Some? then row.messages.value
    else Expand(row.segments, row.content)
  }

  function Tools(row: Row): seq<Tool> {
    if row.role != Assistant then [] else ToolsOf(row.segments)
  }

  /** The two forms of the row tell the same story. */
  ghost predicate RowOk(row: Row) {
    row.role == Assistant ==> Agree(History(row), row.segments) && DistinctIds(ToolsOf(row.segments))
  }

  // ---------------------------------------------------------------- open calls

  function PartIds(parts: seq<ResponsePart>): seq<CallId> {
    if parts == [] then []
    else
      var p := parts[|parts| - 1];
      PartIds(parts[..|parts| - 1]) + (if p.CallPart? then [p.id] else [])
  }

  function CallIds(messages: seq<Message>): seq<CallId> { PartIds(ReplyParts(messages)) }

  function Without(ids: seq<CallId>, closed: set<CallId>): (r: seq<CallId>)
    ensures forall id :: id in r <==> id in ids && id !in closed
  {
    if ids == [] then []
    else
      var id := ids[|ids| - 1];
      Without(ids[..|ids| - 1], closed) + (if id in closed then [] else [id])
  }

  /** The calls with neither a result nor a retry prompt, in call order. */
  function OpenIds(messages: seq<Message>): seq<CallId> {
    Without(CallIds(messages), Results(messages).Keys + Retried(messages))
  }

  lemma {:induction false} WithoutSame(ids: seq<CallId>, a: set<CallId>, b: set<CallId>)
    requires forall id :: id in ids ==> (id in a <==> id in b)
    ensures Without(ids, a) == Without(ids, b)
  {
    if ids != [] {
      WithoutSame(ids[..|ids| - 1], a, b);
    }
  }

  lemma {:induction false} WithoutTwice(ids: seq<CallId>, a: set<CallId>, b: set<CallId>)
    ensures Without(Without(ids, a), b) == Without(ids, a + b)
  {
    if ids != [] {
      var front, id := ids[..|ids| - 1], ids[|ids| - 1];
      WithoutTwice(front, a, b);
      var w := Without(front, a);
      if id in a {
        assert Without(ids, a) == w;
      } else {
        assert (w + [id])[..|w|] == w;
      }
    }
  }

  lemma WithoutAll(ids: seq<CallId>, closed: set<CallId>)
    requires forall id :: id in ids ==> id in closed
    ensures Without(ids, closed) == []
  {
    if Without(ids, closed) != [] {
      assert Without(ids, closed)[0] in Without(ids, closed);
    }
  }

  /** Closing the first of several distinct open calls leaves the others, in order. */
  lemma {:induction false} WithoutFirst(ids: seq<CallId>, id: CallId)
    requires ids != [] && ids[0] == id && Distinct(ids)
    ensures Without(ids, {id}) == ids[1..]
  {
    if |ids| > 1 {
      var front, last := ids[..|ids| - 1], ids[|ids| - 1];
      assert ids == front + [last];
      DistinctSnoc(front, last);
      WithoutFirst(front, id);
      AppendRest(front, [last]);
    } else {
      assert Without([], {id}) == [];
    }
  }

  lemma WithoutSnoc(ids: seq<CallId>, id: CallId, closed: set<CallId>)
    ensures Without(ids + [id], closed) == Without(ids, closed) + (if id in closed then [] else [id])
  {
    assert (ids + [id])[..|ids|] == ids;
  }

  lemma {:induction false} WithoutDistinct(ids: seq<CallId>, closed: set<CallId>)
    requires Distinct(ids)
    ensures Distinct(Without(ids, closed))
  {
    if ids != [] {
      var n := |ids| - 1;
      assert ids == ids[..n] + [ids[n]];
      DistinctSnoc(ids[..n], ids[n]);
      WithoutDistinct(ids[..n], closed);
      DistinctSnoc(Without(ids[..n], closed), ids[n]);
    }
  }

  function Within(ids: seq<CallId>, keep: set<CallId>): (r: seq<CallId>)
    ensures forall id :: id in r <==> id in ids && id in keep
  {
    if ids == [] then []
    else
      var id := ids[|ids| - 1];
      Within(ids[..|ids| - 1], keep) + (if id in keep then [id] else [])
  }

  lemma {:induction false} WithinWithout(ids: seq<CallId>, keep: set<CallId>, closed: set<CallId>)
    requires forall id :: id in ids ==> (id in keep <==> id !in closed)
    ensures Within(ids, keep) == Without(ids, closed)
  {
    if ids != [] {
      assert ids[|ids| - 1] in ids;
      WithinWithout(ids[..|ids| - 1], keep, closed);
    }
  }

  lemma {:induction false} WithinWithin(ids: seq<CallId>, a: set<CallId>, b: set<CallId>)
    requires b <= a
    ensures Within(Within(ids, a), b) == Within(ids, b)
  {
    if ids != [] {
      var front, id := ids[..|ids| - 1], ids[|ids| - 1];
      WithinWithin(front, a, b);
      var w := Within(front, a);
      if id in a {
        assert (w + [id])[..|w|] == w;
      } else {
        assert Within(ids, a) == w;
      }
    }
  }

  lemma {:induction false} WithinAppend(a: seq<CallId>, b: seq<CallId>, keep: set<CallId>)
    ensures Within(a + b, keep) == Within(a, keep) + Within(b, keep)
  {
    if b == [] {
      assert a + b == a;
    } else {
      WithinAppend(a, b[..|b| - 1], keep);
      AppendFront(a, b);
    }
  }

  lemma {:induction false} WithinAll(ids: seq<CallId>, keep: set<CallId>)
    requires forall i :: 0 <= i < |ids| ==> ids[i] in keep
    ensures Within(ids, keep) == ids
  {
    if ids != [] {
      var front, last := ids[..|ids| - 1], ids[|ids| - 1];
      WithinAll(front, keep);
      assert ids == front + [last];
    }
  }

  lemma WithinNone(ids: seq<CallId>, keep: set<CallId>)
    requires forall id :: id in ids ==> id !in keep
    ensures Within(ids, keep) == []
  {
    NoMembers(Within(ids, keep));
  }

  lemma {:induction false} PartIdsTools(parts: seq<ResponsePart>, tools: seq<Tool>)
    requires Filter(IsCall, parts) == CallParts(tools)
    ensures PartIds(parts) == Ids(tools)
  {
    PartIdsFilter(parts);
    CallPartsPartIds(tools);
  }

  lemma {:induction false} PartIdsFilter(parts: seq<ResponsePart>)
    ensures PartIds(Filter(IsCall, parts)) == PartIds(parts)
  {
    if parts != [] {
      var front, p := parts[..|parts| - 1], parts[|parts| - 1];
      PartIdsFilter(front);
      var f := Filter(IsCall, front);
      if p.CallPart? {
        assert (f + [p])[..|f|] == f;
      } else {
        assert Filter(IsCall, parts) == f;
      }
    }
  }

  lemma {:induction false} CallPartsPartIds(tools: seq<Tool>)
    ensures PartIds(CallParts(tools)) == Ids(tools)
  {
    if tools != [] {
      var front, t := tools[..|tools| - 1], tools[|tools| - 1];
      CallPartsPartIds(front);
      var parts := CallParts(tools);
      assert parts[..|parts| - 1] == CallParts(front);
      assert Ids(tools) == Ids(front) + [t.id];
    }
  }

  lemma {:induction false} CallPresentIds(parts: seq<ResponsePart>, id: CallId)
    ensures CallPresent(parts, id) <==> id in PartIds(parts)
  {
    if parts != [] {
      var front, p := parts[..|parts| - 1], parts[|parts| - 1];
      CallPresentIds(front, id);
      CallPresentSnoc(front, p);
      assert parts == front + [p];
    }
  }

  /** In a row whose forms agree, the calls are those of its segments, and the entry of a
      call that was not retried has an output exactly when the messages hold its result. */
  lemma {:induction false} AgreeIds(messages: seq<Message>, segments: seq<Segment>)
    requires Agree(messages, segments)
    ensures CallIds(messages) == Ids(ToolsOf(segments))
    ensures forall t :: t in ToolsOf(segments) ==> t.id in CallIds(messages)
  {
    PartIdsTools(ReplyParts(messages), ToolsOf(segments));
    forall t | t in ToolsOf(segments) ensures t.id in CallIds(messages) {
      var i :| 0 <= i < |ToolsOf(segments)| && ToolsOf(segments)[i] == t;
      assert Ids(ToolsOf(segments))[i] == t.id;
    }
  }

  // ---------------------------------------------------------------- resolving a row

  /** Superseding or repairing an assistant row, in both of its forms. */
  function ResolveRow(row: Row, scope: Scope, answer: Answer): Row {
    if row.role != Assistant then row
    else
      var segments := Resolve(row.segments, scope, answer);
      row.(segments := segments,
           messages := if row.messages.None? then None else Some(WithResolvedReturns(row.messages.value, segments)))
  }

  /** The row still agrees with itself; its calls and results are kept; the calls left
      open are those that were not covered, in order. */
  lemma {:induction false} ResolveRowKeeps(row: Row, scope: Scope, answer: Answer)
    requires RowOk(row)
    ensures var r := ResolveRow(row, scope, answer);
            && RowOk(r) && r.id == row.id && r.role == row.role && r.parent == row.parent && r.createdAt == row.createdAt
            && CallIds(History(r)) == CallIds(History(row))
            && Retried(History(r)) == Retried(History(row))
            && Extends(Results(History(row)), Results(History(r)))
            && (forall id :: id in OpenIds(History(r)) <==> id in OpenIds(History(row)) && !Covers(scope, id))
  {
    if row.role == Assistant {
      var r := ResolveRow(row, scope, answer);
      var m, m' := History(row), History(r);
      if row.messages.Some? {
        ResolveKeepsAgreement(m, row.segments, scope, answer);
      } else {
        ResolveLegacyRow(row, scope, answer);
      }
      AgreeIds(m, row.segments);
      AgreeIds(m', r.segments);
      ResolveToolsOf(row.segments, scope, answer);
      forall id ensures id in OpenIds(m') <==> id in OpenIds(m) && !Covers(scope, id) {
        if id in CallIds(m) && id !in Retried(m) {
          ResolveOpen(m, row.segments, m', r.segments, scope, answer, id);
        }
      }
    }
  }

  lemma ResolveOpen(m: seq<Message>, segments: seq<Segment>, m': seq<Message>, segments': seq<Segment>, scope: Scope, answer: Answer, id: CallId)
    requires Agree(m, segments) && Agree(m', segments') && Retried(m') == Retried(m)
    requires ToolsOf(segments') == ResolveTools(ToolsOf(segments), scope, answer)
    requires id in Ids(ToolsOf(segments)) && id !in Retried(m)
    ensures id !in Results(m') <==> id !in Results(m) && !Covers(scope, id)
  {
    var tools, tools' := ToolsOf(segments), ToolsOf(segments');
    var i :| 0 <= i < |tools| && Ids(tools)[i] == id;
    assert tools[i] in tools && tools'[i] in tools';
    assert MatchesTool(tools[i], Results(m)) && MatchesTool(tools'[i], Results(m'));
  }

  lemma {:induction false} ResolveLegacyRow(row: Row, scope: Scope, answer: Answer)
    requires RowOk(row) && row.role == Assistant && row.messages.None?
    ensures var r := ResolveRow(row, scope, answer);
            && RowOk(r) && Retried(History(r)) == Retried(History(row))
            && CallIds(History(r)) == CallIds(History(row))
            && Extends(Results(History(row)), Results(History(r)))
  {
    var r := ResolveRow(row, scope, answer);
    var tools, tools' := ToolsOf(row.segments), ToolsOf(r.segments);
    ResolveToolsOf(row.segments, scope, answer);
    ResolveToolsIds(tools, scope, answer);
    ExpandAgrees(row.segments, row.content);
    ExpandAgrees(r.segments, r.content);
    AgreeIds(History(row), row.segments);
    AgreeIds(History(r), r.segments);
    LegacyResults(row.segments, row.content);
    LegacyExtends(tools, tools', Results(History(row)), Results(History(r)), scope, answer);
  }

  lemma LegacyExtends(tools: seq<Tool>, tools': seq<Tool>, results: map<CallId, Result>, results': map<CallId, Result>,
                      scope: Scope, answer: Answer)
    requires tools' == ResolveTools(tools, scope, answer) && Matches(tools, results) && Matches(tools', results')
    requires forall id :: id in results ==> id in Ids(tools)
    ensures Extends(results, results')
  {
    forall id | id in results ensures id in results' && results'[id] == results[id] {
      var i :| 0 <= i < |tools| && Ids(tools)[i] == id;
      assert tools[i] in tools && tools'[i] in tools';
      assert MatchesTool(tools[i], results) && MatchesTool(tools'[i], results');
    }
  }

  lemma {:induction false} LegacyResults(segments: seq<Segment>, content: string)
    requires DistinctIds(ToolsOf(segments))
    ensures forall id :: id in Results(Expand(segments, content)) ==> id in Ids(ToolsOf(segments))
  {
    var c := RowSegments(segments, content);
    CanonicalTools(segments);
    assert ToolsOf([Text(content)]) == [];
    assert ToolsOf(c) == ToolsOf(segments);
    ExpandedRequests([], c);
    ResultsMatch(ToolsOf(c));
  }

  // ---------------------------------------------------------------- repairing a row

  /** Some call of the row outside `keep` is unanswered. */
  predicate NeedsRepair(row: Row, keep: set<CallId>) {
    row.role == Assistant && UnansweredIds(ToolsOf(row.segments), Except(keep)) != []
  }

  function RepairRow(row: Row, keep: set<CallId>): Row {
    if NeedsRepair(row, keep) then ResolveRow(row, Except(keep), UnknownAnswer) else row
  }

  lemma {:induction false} UnansweredIdsMember(tools: seq<Tool>, scope: Scope)
    ensures forall t :: t in tools && t.answer.None? && Covers(scope, t.id) ==> t.id in UnansweredIds(tools, scope)
  {
    if tools != [] {
      UnansweredIdsMember(tools[..|tools| - 1], scope);
      forall t | t in tools && t.answer.None? && Covers(scope, t.id) ensures t.id in UnansweredIds(tools, scope) {
        if t != tools[|tools| - 1] {
          assert t in tools[..|tools| - 1];
        }
      }
    }
  }

  lemma {:induction false} RepairRowKeeps(row: Row, keep: set<CallId>)
    requires RowOk(row)
    ensures var r := RepairRow(row, keep);
            && RowOk(r) && r.id == row.id && r.role == row.role && r.parent == row.parent && r.createdAt == row.createdAt
            && CallIds(History(r)) == CallIds(History(row))
            && Retried(History(r)) == Retried(History(row))
            && Extends(Results(History(row)), Results(History(r)))
            && (forall id :: id in OpenIds(History(r)) <==> id in OpenIds(History(row)) && id in keep)
  {
    ResolveRowKeeps(row, Except(keep), UnknownAnswer);
    if row.role == Assistant && UnansweredIds(ToolsOf(row.segments), Except(keep)) == [] {
      var h, tools := History(row), ToolsOf(row.segments);
      AgreeIds(h, row.segments);
      UnansweredIdsMember(tools, Except(keep));
      forall id | id in OpenIds(h) ensures id in keep {
        var i :| 0 <= i < |tools| && Ids(tools)[i] == id;
        assert tools[i] in tools && MatchesTool(tools[i], Results(h));
      }
    }
  }

  /** After a repair every call of the row is answered or kept; repairing again changes nothing. */
  lemma {:induction false} RepairRowAnswers(row: Row, keep: set<CallId>)
    ensures var r := RepairRow(row, keep);
            && (r.role == Assistant ==>
                  forall t :: t in ToolsOf(r.segments) && t.answer.None? ==> t.id in keep)
            && RepairRow(r, keep) == r
  {
    if row.role == Assistant {
      var r := RepairRow(row, keep);
      UnansweredIdsMember(ToolsOf(row.segments), Except(keep));
      ResolveToolsOf(row.segments, Except(keep), UnknownAnswer);
      forall t | t in ToolsOf(r.segments) && t.answer.None? ensures t.id in keep {
        var i :| 0 <= i < |ToolsOf(r.segments)| && ToolsOf(r.segments)[i] == t;
        if UnansweredIds(ToolsOf(row.segments), Except(keep)) != [] {
          assert t == ResolveTool(ToolsOf(row.segments)[i], Except(keep), UnknownAnswer);
        }
      }
      NoneUnanswered(ToolsOf(r.segments), Except(keep));
    }
  }

  lemma {:induction false} NoneUnanswered(tools: seq<Tool>, scope: Scope)
    requires forall t :: t in tools && t.answer.None? ==> !Covers(scope, t.id)
    ensures UnansweredIds(tools, scope) == []
  {
    if tools != [] {
      assert tools[|tools| - 1] in tools;
      NoneUnanswered(tools[..|tools| - 1], scope);
    }
  }

  /** An unanswered call that is kept stays, and a call without an entry gets none. */
  lemma {:induction false} RepairRowFind(row: Row, keep: set<CallId>, id: CallId)
    ensures var e, e' := Find(ToolsOf(row.segments), id), Find(ToolsOf(RepairRow(row, keep).segments), id);
            && (e.Some? <==> e'.Some?)
            && (e.Some? && id in keep ==> e' == e)
            && (e.Some? && e.value.answer.Some? ==> e' == e)
            && (e.Some? && row.role == Assistant && id !in keep ==> e'.value.answer.Some?)
  {
    RepairRowAnswers(row, keep);
    if row.role == Assistant && UnansweredIds(ToolsOf(row.segments), Except(keep)) != [] {
      ResolveToolsOf(row.segments, Except(keep), UnknownAnswer);
      FindResolved(ToolsOf(row.segments), Except(keep), id);
    }
  }

  lemma {:induction false} FindResolved(tools: seq<Tool>, scope: Scope, id: CallId)
    ensures Find(ResolveTools(tools, scope, UnknownAnswer), id)
         == if Find(tools, id).None? then None else Some(ResolveTool(Find(tools, id).value, scope, UnknownAnswer))
    decreases |tools|
  {
    if tools != [] {
      var r := ResolveTools(tools, scope, UnknownAnswer);
      assert r[0] == ResolveTool(tools[0], scope, UnknownAnswer);
      assert r[1..] == ResolveTools(tools[1..], scope, UnknownAnswer);
      FindResolved(tools[1..], scope, id);
    }
  }

  lemma {:induction false} EntryOf(tools: seq<Tool>, messages: seq<Message>, id: CallId)
    requires Ids(tools) == CallIds(messages) && Matches(tools, Results(messages)) && id in CallIds(messages)
    ensures Find(tools, id).Some?
    ensures Find(tools, id).value.answer.Some? <==> id in Results(messages)
    ensures id in Results(messages) ==> Find(tools, id).value.answer.value.output == Results(messages)[id].output
  {
    var i :| 0 <= i < |Ids(tools)| && Ids(tools)[i] == id;
    assert tools[i].id == id;
    assert MatchesTool(Find(tools, id).value, Results(messages));
  }

  /** The unknown result a repair records survives the next rebuild of the segments exactly
      when the call was not answered by a retry prompt: with a retry prompt the messages
      take no result, and the rebuilt entry is unanswered again. */
  lemma RepairSurvivesRebuild(messages: seq<Message>, segments: seq<Segment>, keep: set<CallId>, interrupted: string, t: Tool)
    requires Agree(messages, segments) && DistinctIds(ToolsOf(segments))
    requires t in ToolsOf(segments) && t.answer.None? && t.id !in keep && t.id !in Results(messages)
    ensures var s := Resolve(segments, Except(keep), UnknownAnswer);
            var rebuilt := Find(ToolsOf(Build(WithResolvedReturns(messages, s), interrupted)), t.id);
            && Find(ToolsOf(s), t.id).Some? && Find(ToolsOf(s), t.id).value.answer == Some(UnknownAnswer)
            && rebuilt.Some?
            && (t.id !in Retried(messages) ==> rebuilt.value.answer.Some? && rebuilt.value.answer.value.output == STALE_OUTPUT)
            && (t.id in Retried(messages) ==> rebuilt.value.answer.None?)
  {
    var s := Resolve(segments, Except(keep), UnknownAnswer);
    var m := WithResolvedReturns(messages, s);
    RepairedEntry(segments, keep, t);
    ResolveKeepsAgreement(messages, segments, Except(keep), UnknownAnswer);
    AgreeIds(messages, segments);
    BuildAgrees(m, interrupted);
    AgreeIds(m, Build(m, interrupted));
    var i :| 0 <= i < |ToolsOf(segments)| && ToolsOf(segments)[i] == t;
    assert Ids(ToolsOf(segments))[i] == t.id;
    EntryOf(ToolsOf(Build(m, interrupted)), m, t.id);
    if t.id !in Retried(messages) {
      assert MatchesTool(Find(ToolsOf(s), t.id).value, Results(m));
    }
  }

  lemma RepairedEntry(segments: seq<Segment>, keep: set<CallId>, t: Tool)
    requires DistinctIds(ToolsOf(segments)) && t in ToolsOf(segments) && t.answer.None? && t.id !in keep
    ensures Find(ToolsOf(Resolve(segments, Except(keep), UnknownAnswer)), t.id) == Some(t.(answer := Some(UnknownAnswer)))
  {
    ResolveToolsOf(segments, Except(keep), UnknownAnswer);
    FindResolved(ToolsOf(segments), Except(keep), t.id);
    FindUnique(ToolsOf(segments), t);
  }

  /** A row with one call, answered by a retry prompt. */
  function RetriedRow(call: ResponsePart): seq<Message>
    requires call.CallPart?
  {
    [Response([call]), Request([RetryPart(call.id)], [])]
  }

  function Called(call: ResponsePart): Tool
    requires call.CallPart?
  {
    Tool(call.id, call.name, call.args, None)
  }

  lemma RetriedParts(call: ResponsePart)
    requires call.CallPart?
    ensures ReplyParts(RetriedRow(call)) == [call] && RequestParts(RetriedRow(call)) == [RetryPart(call.id)]
  {
    var first, second := Response([call]), Request([RetryPart(call.id)], []);
    RequestPartsSnoc([], first);
    RequestPartsSnoc([first], second);
    assert [] + [first] == [first] && [first] + [second] == RetriedRow(call);
  }

  lemma RetriedResults(call: ResponsePart)
    requires call.CallPart?
    ensures Results(RetriedRow(call)) == map[] && call.id in Retried(RetriedRow(call))
  {
    RetriedParts(call);
    var p := RetryPart(call.id);
    ResultsOfNext([], p);
    assert [] + [p] == [p] && p in [p];
  }

  lemma RetriedSegments(call: ResponsePart, interrupted: string)
    requires call.CallPart?
    ensures Build(RetriedRow(call), interrupted) == [Group([Called(call)])]
  {
    RetriedParts(call);
    RetriedResults(call);
    SegmentsOfNext([], call, map[], interrupted);
    assert [] + [call] == [call];
  }

  lemma ToolsOfOne(tool: Tool)
    ensures ToolsOf([Group([tool])]) == [tool]
  {
    assert ToolsOf([]) + [tool] == [tool];
  }

  lemma RetriedRepaired(call: ResponsePart)
    requires call.CallPart?
    ensures var repaired := Resolve([Group([Called(call)])], Except({}), UnknownAnswer);
            && ToolsOf(repaired) == [Called(call).(answer := Some(UnknownAnswer))]
            && WithResolvedReturns(RetriedRow(call), repaired) == RetriedRow(call)
  {
    var tool := Called(call);
    ToolsOfOne(tool);
    ResolveToolsOf([Group([tool])], Except({}), UnknownAnswer);
    ResolveToolsSnoc([], tool, Except({}), UnknownAnswer);
    assert [] + [tool] == [tool];
    NothingToReturn(call, [tool.(answer := Some(UnknownAnswer))]);
  }

  lemma NothingToReturn(call: ResponsePart, tools: seq<Tool>)
    requires call.CallPart?
    ensures ResolvedMessages(RetriedRow(call), tools) == RetriedRow(call)
  {
    RetriedParts(call);
    RetriedResults(call);
    var answered := Results(RetriedRow(call)).Keys + Retried(RetriedRow(call));
    assert ResolvedParts([], tools, answered) == [];
    assert ResolvedParts([call], tools, answered) == [];
  }

  /** On such a row a repair records the unknown result, and the next rebuild forgets it. */
  lemma RetriedRepairIsForgotten(call: ResponsePart, interrupted: string)
    requires call.CallPart?
    ensures var segments := Build(RetriedRow(call), interrupted);
            var repaired := Resolve(segments, Except({}), UnknownAnswer);
            && ToolsOf(segments) == [Called(call)] && Called(call).answer.None?
            && ToolsOf(repaired) == [Called(call).(answer := Some(UnknownAnswer))]
            && Build(WithResolvedReturns(RetriedRow(call), repaired), interrupted) == segments
  {
    RetriedSegments(call, interrupted);
    ToolsOfOne(Called(call));
    RetriedRepaired(call);
  }

  /** The rows a repair changes, in order. */
  function RepairedIds(rows: seq<Row>, keep: set<CallId>): seq<MessageId> {
    if rows == [] then []
    else
      var row := rows[|rows| - 1];
      RepairedIds(rows[..|rows| - 1], keep) + (if NeedsRepair(row, keep) then [row.id] else [])
  }

  lemma RepairedIdsNext(rows: seq<Row>, keep: set<CallId>, n: nat)
    requires n < |rows|
    ensures RepairedIds(rows[..n + 1], keep) == RepairedIds(rows[..n], keep) + (if NeedsRepair(rows[n], keep) then [rows[n].id] else [])
  {
    assert rows[..n + 1][..n] == rows[..n];
  }

  // ---------------------------------------------------------------- a session's rows

  predicate HasRow(rows: seq<Row>, id: MessageId) {
    exists i :: 0 <= i < |rows| && rows[i].id == id
  }

  function RowOf(rows: seq<Row>, id: MessageId): (r: Option<Row>)
    ensures r.Some? ==> r.value in rows && r.value.id == id
    ensures r.None? <==> !HasRow(rows, id)
  {
    if rows == [] then None
    else if rows[|rows| - 1].id == id then Some(rows[|rows| - 1])
    else
      var r := RowOf(rows[..|rows| - 1], id);
      assert HasRow(rows, id) <==> HasRow(rows[..|rows| - 1], id) by {
        if HasRow(rows, id) {
          var i :| 0 <= i < |rows| && rows[i].id == id;
          assert rows[..|rows| - 1][i].id == id;
        }
      }
      r
  }

  /** The rows with the one that has the id of `row` replaced by it. */
  function Replace(rows: seq<Row>, row: Row): (r: seq<Row>)
    ensures |r| == |rows|
    ensures forall i :: 0 <= i < |rows| ==> r[i] == if rows[i].id == row.id then row else rows[i]
  {
    if rows == [] then []
    else Replace(rows[..|rows| - 1], row) + [if rows[|rows| - 1].id == row.id then row else rows[|rows| - 1]]
  }

  function RepairRows(rows: seq<Row>, keep: set<CallId>): (r: seq<Row>)
    ensures |r| == |rows|
    ensures forall i :: 0 <= i < |rows| ==> r[i] == RepairRow(rows[i], keep)
  {
    if rows == [] then []
    else RepairRows(rows[..|rows| - 1], keep) + [RepairRow(rows[|rows| - 1], keep)]
  }
}
