/** Segments written out as messages and read back.

    For every row with distinct call ids, the segments read back are its canonical
    segments with adjacent groups of calls joined and the status labels written anew;
    so a row reads back as it was exactly when no two of its groups are adjacent. */
module RoundTrip {
  import opened Basics
  import opened Transcript
  import opened RowMessages

  function Ids(tools: seq<Tool>): (r: seq<CallId>)
    ensures |r| == |tools|
  {
    seq(|tools|, i requires 0 <= i < |tools| => tools[i].id)
  }

  ghost predicate DistinctIds(tools: seq<Tool>) {
    Distinct(Ids(tools))
  }

  function RelabelTool(t: Tool, interrupted: string): Tool {
    if t.answer.None? then t
    else t.(answer := Some(AnswerOf(Result(t.answer.value.output, t.answer.value.outcome), interrupted)))
  }

  function RelabelTools(tools: seq<Tool>, interrupted: string): (r: seq<Tool>)
    ensures |r| == |tools|
    ensures forall i :: 0 <= i < |tools| ==> r[i] == RelabelTool(tools[i], interrupted)
  {
    if tools == [] then []
    else RelabelTools(tools[..|tools| - 1], interrupted) + [RelabelTool(tools[|tools| - 1], interrupted)]
  }

  function RelabelSegment(s: Segment, interrupted: string): Segment {
    if s.Group? then Group(RelabelTools(s.tools, interrupted)) else s
  }

  /** The same segments with the status of every result written anew. */
  function Relabel(segments: seq<Segment>, interrupted: string): (r: seq<Segment>)
    ensures |r| == |segments|
    ensures forall i :: 0 <= i < |segments| ==> r[i] == RelabelSegment(segments[i], interrupted)
  {
    if segments == [] then []
    else Relabel(segments[..|segments| - 1], interrupted) + [RelabelSegment(segments[|segments| - 1], interrupted)]
  }

  function AppendMerged(acc: seq<Segment>, s: Segment): seq<Segment> {
    if acc != [] && acc[|acc| - 1].Group? && s.Group? then
      acc[..|acc| - 1] + [Group(acc[|acc| - 1].tools + s.tools)]
    else acc + [s]
  }

  /** Adjacent groups of calls joined into one. */
  function Merge(segments: seq<Segment>): seq<Segment> {
    if segments == [] then []
    else AppendMerged(Merge(segments[..|segments| - 1]), segments[|segments| - 1])
  }

  predicate NoAdjacentGroups(segments: seq<Segment>) {
    forall i :: 0 <= i < |segments| - 1 ==> !(segments[i].Group? && segments[i + 1].Group?)
  }

  // ---------------------------------------------------------------- what expansion writes

  function SegmentParts(s: Segment): seq<ResponsePart> {
    match s
    case Thinking(text) => [ThinkingPart(text)]
    case Text(text) => [TextPart(text)]
    case Group(tools) => CallParts(tools)
    case Other(_) => []
  }

  function PartsOf(segments: seq<Segment>): seq<ResponsePart> {
    if segments == [] then []
    else PartsOf(segments[..|segments| - 1]) + SegmentParts(segments[|segments| - 1])
  }

  lemma {:induction false} PartsOfFirst(segments: seq<Segment>)
    requires segments != []
    ensures PartsOf(segments) == SegmentParts(segments[0]) + PartsOf(segments[1..])
  {
    if |segments| > 1 {
      var front := segments[..|segments| - 1];
      PartsOfFirst(front);
      assert segments[1..][..|segments| - 2] == front[1..];
    }
  }

  lemma {:induction false} ToolsOfAppend(a: seq<Segment>, b: seq<Segment>)
    ensures ToolsOf(a + b) == ToolsOf(a) + ToolsOf(b)
  {
    if b == [] {
      assert a + b == a;
    } else {
      ToolsOfAppend(a, b[..|b| - 1]);
      AppendFront(a, b);
    }
  }

  lemma {:induction false} ReturnPartsAppend(a: seq<Tool>, b: seq<Tool>)
    ensures ReturnParts(a + b) == ReturnParts(a) + ReturnParts(b)
  {
    if b == [] {
      assert a + b == a;
    } else {
      ReturnPartsAppend(a, b[..|b| - 1]);
      AppendFront(a, b);
    }
  }

  /** The responses say what the segments say, in order. */
  lemma {:induction false} ExpandedReplies(open: seq<ResponsePart>, segments: seq<Segment>)
    ensures ReplyParts(ExpandFrom(open, segments)) == open + PartsOf(segments)
    decreases |segments|
  {
    if segments == [] {
      NothingExpanded(open);
    } else {
      var s, rest := segments[0], segments[1..];
      PartsOfFirst(segments);
      ConcatAssoc(open, SegmentParts(s), PartsOf(rest));
      if s.Group? {
        ExpandedReplies([], rest);
        ReplyPartsAppend(GroupMessages(open, s.tools), ExpandFrom([], rest));
        GroupMessagesParts(open, s.tools);
        assert [] + PartsOf(rest) == PartsOf(rest);
      } else {
        ExpandedReplies(open + SegmentParts(s), rest);
        ExpandContent(open, segments);
      }
    }
  }

  lemma NothingExpanded(open: seq<ResponsePart>)
    ensures ReplyParts(ExpandFrom(open, [])) == open + PartsOf([])
  {
    assert open + [] == open;
    assert ReplyParts([]) == [];
    if open != [] {
      assert [Response(open)][..0] == [] && [] + open == open;
    }
  }

  lemma ExpandContent(open: seq<ResponsePart>, segments: seq<Segment>)
    requires segments != [] && !segments[0].Group?
    ensures ExpandFrom(open, segments) == ExpandFrom(open + SegmentParts(segments[0]), segments[1..])
  {
    assert segments[0].Other? ==> open + SegmentParts(segments[0]) == open;
  }

  lemma GroupMessagesParts(open: seq<ResponsePart>, tools: seq<Tool>)
    ensures ReplyParts(GroupMessages(open, tools)) == open + CallParts(tools)
    ensures RequestParts(GroupMessages(open, tools)) == ReturnParts(tools)
  {
    var answered := ReturnParts(tools);
    var first := [Response(open + CallParts(tools))];
    assert ReplyParts(first) == open + CallParts(tools) && RequestParts(first) == [];
    if answered != [] {
      assert GroupMessages(open, tools)[..1] == first;
    }
  }

  /** The requests return the answered tools, in order. */
  lemma {:induction false} ExpandedRequests(open: seq<ResponsePart>, segments: seq<Segment>)
    ensures RequestParts(ExpandFrom(open, segments)) == ReturnParts(ToolsOf(segments))
    decreases |segments|
  {
    if segments != [] {
      var s, rest := segments[0], segments[1..];
      assert segments == [s] + rest;
      ToolsOfAppend([s], rest);
      assert ToolsOf([s]) == if s.Group? then s.tools else [];
      ReturnPartsAppend(ToolsOf([s]), ToolsOf(rest));
      if s.Group? {
        ExpandedRequests([], rest);
        RequestPartsAppend(GroupMessages(open, s.tools), ExpandFrom([], rest));
        GroupMessagesParts(open, s.tools);
      } else {
        ExpandedRequests(open + SegmentParts(s), rest);
        assert s.Other? ==> open + SegmentParts(s) == open;
      }
    }
  }

  // ---------------------------------------------------------------- reading it back

  predicate MatchesTool(t: Tool, results: map<CallId, Result>) {
    && (t.id in results <==> t.answer.Some?)
    && (t.answer.Some? ==> results[t.id] == Result(t.answer.value.output, t.answer.value.outcome))
  }

  /** `results` gives every tool its own answer, and only answered tools one. */
  ghost predicate Matches(tools: seq<Tool>, results: map<CallId, Result>) {
    forall t :: t in tools ==> MatchesTool(t, results)
  }

  lemma IdsSnoc(tools: seq<Tool>, t: Tool)
    ensures Ids(tools + [t]) == Ids(tools) + [t.id]
  {
  }

  lemma MemberId(tools: seq<Tool>, t: Tool)
    requires t in tools
    ensures t.id in Ids(tools)
  {
    var i :| 0 <= i < |tools| && tools[i] == t;
    assert Ids(tools)[i] == t.id;
  }

  /** One more tool: the results so far match the tools so far, and know no other id. */
  lemma MatchesSnoc(front: seq<Tool>, last: Tool, results: map<CallId, Result>)
    requires Matches(front, results) && last.id !in Ids(front) && last.id !in results
    ensures Matches(front + [last],
                    if last.answer.None? then results
                    else results[last.id := Result(last.answer.value.output, last.answer.value.outcome)])
  {
    forall t | t in front ensures t.id != last.id {
      MemberId(front, t);
    }
  }

  lemma ReturnPartsSnoc(tools: seq<Tool>, t: Tool)
    ensures ReturnParts(tools + [t]) == ReturnParts(tools)
              + (if t.answer.None? then [] else [ReturnPart(t.id, t.name, t.answer.value.output, t.answer.value.outcome)])
  {
    assert (tools + [t])[..|tools|] == tools;
  }

  lemma {:induction false} ResultsMatch(tools: seq<Tool>)
    requires DistinctIds(tools)
    ensures Matches(tools, ResultsOf(ReturnParts(tools)))
    ensures forall id :: id in ResultsOf(ReturnParts(tools)) ==> id in Ids(tools)
  {
    if tools != [] {
      var front, last := tools[..|tools| - 1], tools[|tools| - 1];
      assert tools == front + [last];
      IdsSnoc(front, last);
      DistinctSnoc(Ids(front), last.id);
      ResultsMatch(front);
      MatchesSnoc(front, last, ResultsOf(ReturnParts(front)));
      ReturnPartsSnoc(front, last);
      if last.answer.Some? {
        ResultsOfSnoc(ReturnParts(front), ReturnPart(last.id, last.name, last.answer.value.output, last.answer.value.outcome));
      } else {
        assert ReturnParts(front) + [] == ReturnParts(front);
      }
    }
  }

  lemma ReadCall(acc: seq<ResponsePart>, t: Tool, results: map<CallId, Result>, interrupted: string)
    requires MatchesTool(t, results)
    ensures SegmentsOf(acc + [CallPart(t.id, t.name, t.input)], results, interrupted)
         == AppendTool(SegmentsOf(acc, results, interrupted), RelabelTool(t, interrupted))
  {
    SegmentsOfSnoc(acc, CallPart(t.id, t.name, t.input), results, interrupted);
  }

  lemma {:induction false} ReadCalls(acc: seq<ResponsePart>, tools: seq<Tool>, results: map<CallId, Result>, interrupted: string)
    requires tools != [] && Matches(tools, results)
    ensures SegmentsOf(acc + CallParts(tools), results, interrupted)
         == AppendMerged(SegmentsOf(acc, results, interrupted), Group(RelabelTools(tools, interrupted)))
  {
    var n := |tools| - 1;
    var front, last := tools[..n], tools[n];
    assert MatchesTool(last, results);
    ConcatAssoc(acc, CallParts(front), [CallPart(last.id, last.name, last.input)]);
    ReadCall(acc + CallParts(front), last, results, interrupted);
    if front == [] {
      assert acc + CallParts(front) == acc;
      assert RelabelTools(tools, interrupted) == [RelabelTool(last, interrupted)];
    } else {
      ReadCalls(acc, front, results, interrupted);
      AppendToolMerged(SegmentsOf(acc, results, interrupted), RelabelTools(front, interrupted), RelabelTool(last, interrupted));
    }
  }

  lemma SegmentsOfSnoc(parts: seq<ResponsePart>, p: ResponsePart, results: map<CallId, Result>, interrupted: string)
    ensures SegmentsOf(parts + [p], results, interrupted)
         == AppendPart(SegmentsOf(parts, results, interrupted), p, results, interrupted)
  {
    assert (parts + [p])[..|parts|] == parts;
  }

  lemma AppendToolMerged(acc: seq<Segment>, tools: seq<Tool>, tool: Tool)
    requires tools != []
    ensures AppendTool(AppendMerged(acc, Group(tools)), tool) == AppendMerged(acc, Group(tools + [tool]))
  {
    if acc != [] && acc[|acc| - 1].Group? {
      var had := acc[|acc| - 1].tools;
      assert (had + tools) + [tool] == had + (tools + [tool]);
    }
  }

  lemma {:induction false} MergeLast(segments: seq<Segment>)
    requires segments != []
    ensures Merge(segments) != []
    ensures var m, s := Merge(segments)[|Merge(segments)| - 1], segments[|segments| - 1];
            if s.Group? then m.Group? else m == s
  {
  }

  lemma {:induction false} ReadBack(c: seq<Segment>, results: map<CallId, Result>, interrupted: string)
    requires IsCanonical(c) && Matches(ToolsOf(c), results)
    ensures SegmentsOf(PartsOf(c), results, interrupted) == Merge(Relabel(c, interrupted))
  {
    if c != [] {
      var front, s := c[..|c| - 1], c[|c| - 1];
      CanonicalFront(c);
      ReadBack(front, results, interrupted);
      assert Relabel(c, interrupted)[..|c| - 1] == Relabel(front, interrupted);
      if s.Group? {
        ReadCalls(PartsOf(front), s.tools, results, interrupted);
      } else {
        ReadContent(front, s, results, interrupted);
      }
    }
  }

  lemma CanonicalFront(c: seq<Segment>)
    requires c != [] && IsCanonical(c)
    ensures IsCanonical(c[..|c| - 1]) && !c[|c| - 1].Other?
    ensures |c| > 1 ==> !SameContentKind(c[|c| - 2], c[|c| - 1])
  {
    assert forall i :: 0 < i < |c| ==> !SameContentKind(c[i - 1], c[i]);
  }

  lemma ReadContent(front: seq<Segment>, s: Segment, results: map<CallId, Result>, interrupted: string)
    requires (s.Thinking? || s.Text?) && s.text != ""
    requires front != [] ==> !SameContentKind(front[|front| - 1], s)
    requires SegmentsOf(PartsOf(front), results, interrupted) == Merge(Relabel(front, interrupted))
    ensures SegmentsOf(PartsOf(front) + SegmentParts(s), results, interrupted)
         == AppendMerged(Merge(Relabel(front, interrupted)), s)
  {
    var before, parts := Relabel(front, interrupted), PartsOf(front);
    var p := if s.Thinking? then ThinkingPart(s.text) else TextPart(s.text);
    assert SegmentParts(s) == [p];
    SegmentsOfSnoc(parts, p, results, interrupted);
    if front != [] {
      MergeLast(before);
      assert before[|before| - 1] == RelabelSegment(front[|front| - 1], interrupted);
    }
    AppendFresh(Merge(before), s);
  }

  lemma AppendFresh(acc: seq<Segment>, s: Segment)
    requires (s.Thinking? || s.Text?) && s.text != ""
    requires acc != [] ==> !SameContentKind(acc[|acc| - 1], s)
    ensures AppendSegment(acc, s) == AppendMerged(acc, s)
  {
  }

  /** What a row's messages read back as, for every row with distinct call ids. */
  lemma {:induction false} ReadBackRow(segments: seq<Segment>, content: string, interrupted: string)
    requires DistinctIds(ToolsOf(RowSegments(segments, content)))
    ensures Build(Expand(segments, content), interrupted) == Merge(Relabel(RowSegments(segments, content), interrupted))
    ensures Matches(ToolsOf(RowSegments(segments, content)), Results(Expand(segments, content)))
  {
    var c := RowSegments(segments, content);
    CanonicalIsCanonical(segments);
    ExpandedReplies([], c);
    ExpandedRequests([], c);
    ResultsMatch(ToolsOf(c));
    ReadBack(c, Results(Expand(segments, content)), interrupted);
    assert [] + PartsOf(c) == PartsOf(c);
  }

  lemma {:induction false} MergeFixed(segments: seq<Segment>)
    ensures Merge(segments) == segments <==> NoAdjacentGroups(segments)
    ensures |Merge(segments)| <= |segments|
  {
    if |segments| > 1 {
      var front, last := segments[..|segments| - 1], segments[|segments| - 1];
      MergeFixed(front);
      MergeLast(front);
      assert segments == front + [last];
      NoAdjacentGroupsFront(segments);
      AppendMergedFixed(Merge(front), front, last);
    }
  }

  lemma AppendMergedFixed(merged: seq<Segment>, front: seq<Segment>, last: Segment)
    requires merged != [] && front != [] && |merged| <= |front|
    requires merged[|merged| - 1].Group? <==> front[|front| - 1].Group?
    ensures AppendMerged(merged, last) == front + [last]
       <==> merged == front && !(front[|front| - 1].Group? && last.Group?)
    ensures |AppendMerged(merged, last)| <= |front| + 1
  {
    if !(merged[|merged| - 1].Group? && last.Group?) && merged + [last] == front + [last] {
      assert merged == (merged + [last])[..|merged|] && front == (front + [last])[..|front|];
    }
  }

  lemma NoAdjacentGroupsFront(segments: seq<Segment>)
    requires |segments| > 1
    ensures NoAdjacentGroups(segments)
        <==> NoAdjacentGroups(segments[..|segments| - 1])
             && !(segments[|segments| - 2].Group? && segments[|segments| - 1].Group?)
  {
    var n := |segments| - 1;
    if NoAdjacentGroups(segments) {
      assert !(segments[n - 1].Group? && segments[n - 1 + 1].Group?);
    }
  }

  /** A canonical row reads back as it was, status labels aside, exactly when no two of
      its groups of calls are adjacent. */
  lemma {:induction false} RoundTrips(segments: seq<Segment>, content: string, interrupted: string)
    requires IsCanonical(segments) && (segments != [] || content == "")
    requires DistinctIds(ToolsOf(segments))
    ensures Build(Expand(segments, content), interrupted) == Relabel(segments, interrupted)
        <==> NoAdjacentGroups(segments)
  {
    CanonicalIsFixed(segments);
    ReadBackRow(segments, content, interrupted);
    MergeFixed(Relabel(segments, interrupted));
    RelabelGroups(segments, interrupted);
  }

  lemma RelabelGroups(segments: seq<Segment>, interrupted: string)
    ensures NoAdjacentGroups(Relabel(segments, interrupted)) <==> NoAdjacentGroups(segments)
  {
    var r := Relabel(segments, interrupted);
    forall i | 0 <= i < |segments| ensures r[i].Group? <==> segments[i].Group? {
    }
    SameGroups(r, segments);
  }

  lemma SameGroups(r: seq<Segment>, s: seq<Segment>)
    requires |r| == |s| && forall i :: 0 <= i < |r| ==> (r[i].Group? <==> s[i].Group?)
    ensures NoAdjacentGroups(r) <==> NoAdjacentGroups(s)
  {
  }

  /** Status labels written by one reading are kept by the next with the same label. */
  lemma {:induction false} RelabelIsIdempotent(segments: seq<Segment>, interrupted: string)
    ensures Relabel(Relabel(segments, interrupted), interrupted) == Relabel(segments, interrupted)
  {
    var once := Relabel(segments, interrupted);
    forall i | 0 <= i < |segments| && segments[i].Group?
      ensures RelabelSegment(once[i], interrupted) == once[i]
    {
      assert RelabelTools(once[i].tools, interrupted) == once[i].tools;
    }
    assert Relabel(once, interrupted) == once;
  }
}
