/** Reading segments off model messages (`Build`) and writing the messages of a row
    that has only segments (`Expand`), with the round trip between them. */
module RowMessages {
  import opened Basics
  import opened Transcript

  // ---------------------------------------------------------------- reading messages

  /** The parts of every response, in order. */
  function ReplyParts(messages: seq<Message>): seq<ResponsePart> {
    if messages == [] then []
    else
      var m := messages[|messages| - 1];
      ReplyParts(messages[..|messages| - 1]) + (if m.Response? then m.reply else [])
  }

  /** The parts of every request, in order. */
  function RequestParts(messages: seq<Message>): seq<RequestPart> {
    if messages == [] then []
    else
      var m := messages[|messages| - 1];
      RequestParts(messages[..|messages| - 1]) + (if m.Request? then m.parts else [])
  }

  datatype Result = Result(output: string, outcome: Outcome)

  /** The result each call was given; a later return replaces an earlier one. */
  function ResultsOf(parts: seq<RequestPart>): map<CallId, Result> {
    if parts == [] then map[]
    else
      var p, r := parts[|parts| - 1], ResultsOf(parts[..|parts| - 1]);
      if p.ReturnPart? then r[p.id := Result(p.output, p.outcome)] else r
  }

  function Results(messages: seq<Message>): map<CallId, Result> {
    ResultsOf(RequestParts(messages))
  }

  /** The stored form of a result: a plain success has no status, an interrupted call
      has the label of what interrupted it. */
  function AnswerOf(r: Result, interrupted: string): Answer {
    Answer(r.output, r.outcome,
           match r.outcome
           case Failed => Some("failed")
           case Interrupted => Some(interrupted)
           case _ => None)
  }

  function CallTool(p: ResponsePart, results: map<CallId, Result>, interrupted: string): Tool
    requires p.CallPart?
  {
    Tool(p.id, p.name, p.args,
         if p.id in results then Some(AnswerOf(results[p.id], interrupted)) else None)
  }

  function AppendTool(acc: seq<Segment>, tool: Tool): seq<Segment> {
    if acc != [] && acc[|acc| - 1].Group? then
      acc[..|acc| - 1] + [Group(acc[|acc| - 1].tools + [tool])]
    else acc + [Group([tool])]
  }

  function AppendPart(acc: seq<Segment>, p: ResponsePart, results: map<CallId, Result>, interrupted: string): seq<Segment> {
    match p
    case ThinkingPart(content) => AppendSegment(acc, Thinking(content))
    case TextPart(content) => AppendSegment(acc, Text(content))
    case CallPart(_, _, _) => AppendTool(acc, CallTool(p, results, interrupted))
  }

  function SegmentsOf(parts: seq<ResponsePart>, results: map<CallId, Result>, interrupted: string): seq<Segment> {
    if parts == [] then []
    else AppendPart(SegmentsOf(parts[..|parts| - 1], results, interrupted), parts[|parts| - 1], results, interrupted)
  }

  /** The segments a row stores for its messages. */
  function Build(messages: seq<Message>, interrupted: string): seq<Segment> {
    SegmentsOf(ReplyParts(messages), Results(messages), interrupted)
  }

  function TextOf(segments: seq<Segment>): string {
    if segments == [] then ""
    else
      var s := segments[|segments| - 1];
      TextOf(segments[..|segments| - 1]) + (if s.Text? then s.text else "")
  }

  // ---------------------------------------------------------------- what a reply says

  /** The text of a reply: its text parts, one after the other. */
  function Spoken(parts: seq<ResponsePart>): string {
    if parts == [] then ""
    else
      var p := parts[|parts| - 1];
      Spoken(parts[..|parts| - 1]) + (if p.TextPart? then p.content else "")
  }

  lemma TextOfSnoc(segments: seq<Segment>, s: Segment)
    ensures TextOf(segments + [s]) == TextOf(segments) + (if s.Text? then s.text else "")
  {
    assert (segments + [s])[..|segments|] == segments;
  }

  lemma AppendSegmentText(acc: seq<Segment>, s: Segment)
    ensures TextOf(AppendSegment(acc, s)) == TextOf(acc) + (if s.Text? then s.text else "")
  {
    if acc != [] {
      var front, last := acc[..|acc| - 1], acc[|acc| - 1];
      if !s.Group? && !s.Other? && SameContentKind(last, s) {
        TextOfSnoc(front, last.(text := last.text + s.text));
      }
    }
    TextOfSnoc(acc, s);
    assert TextOf(acc) + "" == TextOf(acc);
  }

  lemma AppendToolText(acc: seq<Segment>, tool: Tool)
    ensures TextOf(AppendTool(acc, tool)) == TextOf(acc)
  {
    if acc != [] && acc[|acc| - 1].Group? {
      TextOfSnoc(acc[..|acc| - 1], Group(acc[|acc| - 1].tools + [tool]));
    } else {
      TextOfSnoc(acc, Group([tool]));
    }
  }

  /** The text of the segments is the text of the parts they were built from. */
  lemma {:induction false} SegmentsText(parts: seq<ResponsePart>, results: map<CallId, Result>, interrupted: string)
    ensures TextOf(SegmentsOf(parts, results, interrupted)) == Spoken(parts)
  {
    if parts != [] {
      var acc, p := SegmentsOf(parts[..|parts| - 1], results, interrupted), parts[|parts| - 1];
      SegmentsText(parts[..|parts| - 1], results, interrupted);
      match p
      case ThinkingPart(content) => AppendSegmentText(acc, Thinking(content));
      case TextPart(content) => AppendSegmentText(acc, Text(content));
      case CallPart(_, _, _) => AppendToolText(acc, CallTool(p, results, interrupted));
    }
  }

  /** What is said, character by character and call by call. */
  datatype Said = Thought(c: char) | Told(c: char) | Called(tool: Tool)

  function Chars(text: string, told: bool): (r: seq<Said>)
    ensures |r| == |text|
  {
    seq(|text|, i requires 0 <= i < |text| => if told then Told(text[i]) else Thought(text[i]))
  }

  function CalledAll(tools: seq<Tool>): (r: seq<Said>)
    ensures |r| == |tools|
  {
    seq(|tools|, i requires 0 <= i < |tools| => Called(tools[i]))
  }

  function SegmentSays(s: Segment): seq<Said> {
    match s
    case Thinking(text) => Chars(text, false)
    case Text(text) => Chars(text, true)
    case Group(tools) => CalledAll(tools)
    case Other(_) => []
  }

  function Says(segments: seq<Segment>): seq<Said> {
    if segments == [] then []
    else Says(segments[..|segments| - 1]) + SegmentSays(segments[|segments| - 1])
  }

  /** What the parts of the responses say, each call with the result it was given. */
  function PartsSay(parts: seq<ResponsePart>, results: map<CallId, Result>, interrupted: string): seq<Said> {
    if parts == [] then []
    else
      var p := parts[|parts| - 1];
      PartsSay(parts[..|parts| - 1], results, interrupted) +
      match p
      case ThinkingPart(content) => Chars(content, false)
      case TextPart(content) => Chars(content, true)
      case CallPart(_, _, _) => [Called(CallTool(p, results, interrupted))]
  }

  lemma SaysSnoc(segments: seq<Segment>, s: Segment)
    ensures Says(segments + [s]) == Says(segments) + SegmentSays(s)
  {
    assert (segments + [s])[..|segments|] == segments;
  }

  lemma MergedSays(a: Segment, b: Segment)
    requires SameContentKind(a, b)
    ensures SegmentSays(a.(text := a.text + b.text)) == SegmentSays(a) + SegmentSays(b)
  {
  }

  lemma AppendSegmentSays(acc: seq<Segment>, s: Segment)
    requires s.Thinking? || s.Text?
    ensures Says(AppendSegment(acc, s)) == Says(acc) + SegmentSays(s)
  {
    if s.text == "" {
      assert Says(acc) + [] == Says(acc);
    } else if acc != [] && SameContentKind(acc[|acc| - 1], s) {
      var front, last := acc[..|acc| - 1], acc[|acc| - 1];
      SaysSnoc(front, last.(text := last.text + s.text));
      MergedSays(last, s);
      ConcatAssoc(Says(front), SegmentSays(last), SegmentSays(s));
    } else {
      SaysSnoc(acc, s);
    }
  }

  lemma AppendToolSays(acc: seq<Segment>, tool: Tool)
    ensures Says(AppendTool(acc, tool)) == Says(acc) + [Called(tool)]
  {
    if acc != [] && acc[|acc| - 1].Group? {
      var front, tools := acc[..|acc| - 1], acc[|acc| - 1].tools;
      SaysSnoc(front, Group(tools + [tool]));
      assert CalledAll(tools + [tool]) == CalledAll(tools) + [Called(tool)];
      ConcatAssoc(Says(front), CalledAll(tools), [Called(tool)]);
    } else {
      SaysSnoc(acc, Group([tool]));
    }
  }

  lemma {:induction false} SegmentsSay(parts: seq<ResponsePart>, results: map<CallId, Result>, interrupted: string)
    ensures Says(SegmentsOf(parts, results, interrupted)) == PartsSay(parts, results, interrupted)
  {
    if parts != [] {
      var acc, p := SegmentsOf(parts[..|parts| - 1], results, interrupted), parts[|parts| - 1];
      SegmentsSay(parts[..|parts| - 1], results, interrupted);
      match p
      case ThinkingPart(content) => AppendSegmentSays(acc, Thinking(content));
      case TextPart(content) => AppendSegmentSays(acc, Text(content));
      case CallPart(_, _, _) => AppendToolSays(acc, CallTool(p, results, interrupted));
    }
  }

  /** A row's segments say what its messages say, in order, each call with its result; its
      content is the text among that. */
  lemma BuildSays(messages: seq<Message>, interrupted: string)
    ensures Says(Build(messages, interrupted)) == PartsSay(ReplyParts(messages), Results(messages), interrupted)
    ensures TextOf(Build(messages, interrupted)) == Spoken(ReplyParts(messages))
  {
    SegmentsSay(ReplyParts(messages), Results(messages), interrupted);
    SegmentsText(ReplyParts(messages), Results(messages), interrupted);
  }

  lemma {:induction false} SegmentsOfIsCanonical(parts: seq<ResponsePart>, results: map<CallId, Result>, interrupted: string)
    ensures IsCanonical(SegmentsOf(parts, results, interrupted))
  {
    if parts != [] {
      SegmentsOfIsCanonical(parts[..|parts| - 1], results, interrupted);
      AppendPartIsCanonical(SegmentsOf(parts[..|parts| - 1], results, interrupted), parts[|parts| - 1], results, interrupted);
    }
  }

  lemma AppendPartIsCanonical(acc: seq<Segment>, p: ResponsePart, results: map<CallId, Result>, interrupted: string)
    requires IsCanonical(acc)
    ensures IsCanonical(AppendPart(acc, p, results, interrupted))
  {
  }

  lemma RequestPartsSnoc(messages: seq<Message>, m: Message)
    ensures RequestParts(messages + [m]) == RequestParts(messages) + (if m.Request? then m.parts else [])
    ensures ReplyParts(messages + [m]) == ReplyParts(messages) + (if m.Response? then m.reply else [])
  {
    assert (messages + [m])[..|messages|] == messages;
  }

  lemma ResultsOfNext(before: seq<RequestPart>, p: RequestPart)
    ensures ResultsOf(before + [p]) == if p.ReturnPart? then ResultsOf(before)[p.id := Result(p.output, p.outcome)] else ResultsOf(before)
  {
    assert (before + [p])[..|before|] == before;
  }

  lemma SegmentsOfNext(before: seq<ResponsePart>, p: ResponsePart, results: map<CallId, Result>, interrupted: string)
    ensures SegmentsOf(before + [p], results, interrupted) == AppendPart(SegmentsOf(before, results, interrupted), p, results, interrupted)
  {
    assert (before + [p])[..|before|] == before;
  }

  lemma ConcatPrefix<T>(before: seq<T>, s: seq<T>, n: nat)
    requires n < |s|
    ensures before + s[..n + 1] == before + s[..n] + [s[n]]
  {
  }

  method AddResults(results: map<CallId, Result>, parts: seq<RequestPart>, ghost before: seq<RequestPart>)
    returns (updated: map<CallId, Result>)
    requires results == ResultsOf(before)
    ensures updated == ResultsOf(before + parts)
  {
    updated := results;
    assert before + parts[..0] == before;
    for j := 0 to |parts|
      invariant updated == ResultsOf(before + parts[..j])
    {
      ConcatPrefix(before, parts, j);
      ResultsOfNext(before + parts[..j], parts[j]);
      if parts[j].ReturnPart? {
        updated := updated[parts[j].id := Result(parts[j].output, parts[j].outcome)];
      }
    }
    assert parts[..|parts|] == parts;
  }

  method AddSegments(segments: seq<Segment>, parts: seq<ResponsePart>, results: map<CallId, Result>, interrupted: string,
                     ghost before: seq<ResponsePart>)
    returns (updated: seq<Segment>)
    requires segments == SegmentsOf(before, results, interrupted)
    ensures updated == SegmentsOf(before + parts, results, interrupted)
  {
    updated := segments;
    assert before + parts[..0] == before;
    for j := 0 to |parts|
      invariant updated == SegmentsOf(before + parts[..j], results, interrupted)
    {
      ConcatPrefix(before, parts, j);
      SegmentsOfNext(before + parts[..j], parts[j], results, interrupted);
      updated := AppendPart(updated, parts[j], results, interrupted);
    }
    assert parts[..|parts|] == parts;
  }

  /** The runtime's two passes: collect the results, then extend the last segment part by part. */
  method BuildContent(messages: seq<Message>, interrupted: string) returns (content: string, segments: seq<Segment>)
    ensures segments == Build(messages, interrupted) && content == Spoken(ReplyParts(messages))
    ensures Says(segments) == PartsSay(ReplyParts(messages), Results(messages), interrupted)
    ensures content == TextOf(segments)
  {
    var results := CollectResults(messages);
    segments := [];
    for i := 0 to |messages|
      invariant segments == SegmentsOf(ReplyParts(messages[..i]), results, interrupted)
    {
      PrefixSnoc(messages, i);
      RequestPartsSnoc(messages[..i], messages[i]);
      if messages[i].Response? {
        segments := AddSegments(segments, messages[i].reply, results, interrupted, ReplyParts(messages[..i]));
      } else {
        assert ReplyParts(messages[..i]) + [] == ReplyParts(messages[..i]);
      }
    }
    assert messages[..|messages|] == messages;
    SegmentsOfIsCanonical(ReplyParts(messages), results, interrupted);
    CanonicalIsFixed(segments);
    segments := CanonicalizeSegments(segments);
    content := TextOf(segments);
    BuildSays(messages, interrupted);
  }

  method CollectResults(messages: seq<Message>) returns (results: map<CallId, Result>)
    ensures results == Results(messages)
  {
    results := map[];
    for i := 0 to |messages|
      invariant results == ResultsOf(RequestParts(messages[..i]))
    {
      PrefixSnoc(messages, i);
      RequestPartsSnoc(messages[..i], messages[i]);
      if messages[i].Request? {
        results := AddResults(results, messages[i].parts, RequestParts(messages[..i]));
      } else {
        assert RequestParts(messages[..i]) + [] == RequestParts(messages[..i]);
      }
    }
    assert messages[..|messages|] == messages;
  }

  lemma {:induction false} ReplyPartsAppend(a: seq<Message>, b: seq<Message>)
    ensures ReplyParts(a + b) == ReplyParts(a) + ReplyParts(b)
  {
    if b == [] {
      assert a + b == a;
    } else {
      ReplyPartsAppend(a, b[..|b| - 1]);
      AppendFront(a, b);
    }
  }

  lemma {:induction false} RequestPartsAppend(a: seq<Message>, b: seq<Message>)
    ensures RequestParts(a + b) == RequestParts(a) + RequestParts(b)
  {
    if b == [] {
      assert a + b == a;
    } else {
      RequestPartsAppend(a, b[..|b| - 1]);
      AppendFront(a, b);
    }
  }

  lemma {:induction false} ResultsOfAppend(a: seq<RequestPart>, b: seq<RequestPart>)
    ensures ResultsOf(a + b) == ResultsOf(a) + ResultsOf(b)
  {
    if b == [] {
      assert a + b == a;
    } else {
      ResultsOfAppend(a, b[..|b| - 1]);
      AppendFront(a, b);
    }
  }

  lemma ResultsOfSnoc(parts: seq<RequestPart>, p: RequestPart)
    ensures ResultsOf(parts + [p])
         == if p.ReturnPart? then ResultsOf(parts)[p.id := Result(p.output, p.outcome)] else ResultsOf(parts)
  {
    assert (parts + [p])[..|parts|] == parts;
  }

  // ---------------------------------------------------------------- the tools of a row

  function ToolsOf(segments: seq<Segment>): seq<Tool> {
    if segments == [] then []
    else
      var s := segments[|segments| - 1];
      ToolsOf(segments[..|segments| - 1]) + (if s.Group? then s.tools else [])
  }

  /** The calls among the parts, as tools. */
  function CallTools(parts: seq<ResponsePart>, results: map<CallId, Result>, interrupted: string): seq<Tool> {
    if parts == [] then []
    else
      var p := parts[|parts| - 1];
      CallTools(parts[..|parts| - 1], results, interrupted) +
      (if p.CallPart? then [CallTool(p, results, interrupted)] else [])
  }

  /** The built segments hold exactly the calls of the responses, in order, each with
      the last result returned for it. */
  lemma {:induction false} BuildTools(messages: seq<Message>, interrupted: string)
    ensures ToolsOf(Build(messages, interrupted)) == CallTools(ReplyParts(messages), Results(messages), interrupted)
  {
    SegmentsOfTools(ReplyParts(messages), Results(messages), interrupted);
  }

  lemma {:induction false} SegmentsOfTools(parts: seq<ResponsePart>, results: map<CallId, Result>, interrupted: string)
    ensures ToolsOf(SegmentsOf(parts, results, interrupted)) == CallTools(parts, results, interrupted)
  {
    if parts != [] {
      var front, p := parts[..|parts| - 1], parts[|parts| - 1];
      SegmentsOfTools(front, results, interrupted);
      var acc := SegmentsOf(front, results, interrupted);
      if p.CallPart? {
        AppendToolTools(acc, CallTool(p, results, interrupted));
      } else {
        AppendContentTools(acc, if p.ThinkingPart? then Thinking(p.content) else Text(p.content));
      }
    }
  }

  lemma {:induction false} AppendToolTools(acc: seq<Segment>, tool: Tool)
    ensures ToolsOf(AppendTool(acc, tool)) == ToolsOf(acc) + [tool]
  {
    var r := AppendTool(acc, tool);
    if acc != [] && acc[|acc| - 1].Group? {
      assert r[..|r| - 1] == acc[..|acc| - 1];
    } else {
      assert r[..|r| - 1] == acc;
    }
  }

  lemma {:induction false} AppendContentTools(acc: seq<Segment>, s: Segment)
    requires s.Thinking? || s.Text?
    ensures ToolsOf(AppendSegment(acc, s)) == ToolsOf(acc)
  {
    var r := AppendSegment(acc, s);
    if s.text != "" {
      if acc != [] && SameContentKind(acc[|acc| - 1], s) {
        assert r[..|r| - 1] == acc[..|acc| - 1];
      } else {
        assert r[..|r| - 1] == acc;
      }
    }
  }

  // ---------------------------------------------------------------- writing messages

  function CallParts(tools: seq<Tool>): (r: seq<ResponsePart>)
    ensures |r| == |tools|
  {
    if tools == [] then []
    else
      var t := tools[|tools| - 1];
      CallParts(tools[..|tools| - 1]) + [CallPart(t.id, t.name, t.input)]
  }

  /** A return for each answered tool, in order. */
  function ReturnParts(tools: seq<Tool>): seq<RequestPart> {
    if tools == [] then []
    else
      var t := tools[|tools| - 1];
      ReturnParts(tools[..|tools| - 1]) +
      (if t.answer.Some? then [ReturnPart(t.id, t.name, t.answer.value.output, t.answer.value.outcome)] else [])
  }

  /** The segments a row is replayed from: its own, else its text. */
  function RowSegments(segments: seq<Segment>, content: string): seq<Segment> {
    var c := Canonical(segments);
    if c == [] && content != "" then [Text(content)] else c
  }

  /** A response that ends with a group of calls, and the request with the returns it has. */
  function GroupMessages(open: seq<ResponsePart>, tools: seq<Tool>): seq<Message> {
    var answered := ReturnParts(tools);
    [Response(open + CallParts(tools))] + (if answered == [] then [] else [Request(answered, [])])
  }

  /** Responses end at a group of calls; the returns the group has follow it. */
  function ExpandFrom(open: seq<ResponsePart>, segments: seq<Segment>): seq<Message>
    decreases |segments|
  {
    if segments == [] then (if open == [] then [] else [Response(open)])
    else
      match segments[0]
      case Thinking(text) => ExpandFrom(open + [ThinkingPart(text)], segments[1..])
      case Text(text) => ExpandFrom(open + [TextPart(text)], segments[1..])
      case Group(tools) => GroupMessages(open, tools) + ExpandFrom([], segments[1..])
      case Other(_) => ExpandFrom(open, segments[1..])
  }

  function Expand(segments: seq<Segment>, content: string): seq<Message> {
    ExpandFrom([], RowSegments(segments, content))
  }

  /** Element `i` of the zipped lists: a response and the request that answers it, if any. */
  function Zip(groups: seq<seq<ResponsePart>>, requests: seq<Option<Message>>, n: nat): seq<Message>
    requires n <= |groups|
  {
    if n == 0 then []
    else
      Zip(groups, requests, n - 1) + [Response(groups[n - 1])] +
      (if n - 1 < |requests| && requests[n - 1].Some? then [requests[n - 1].value] else [])
  }

  lemma {:induction false} ZipPrefix(g: seq<seq<ResponsePart>>, r: seq<Option<Message>>, g': seq<seq<ResponsePart>>, r': seq<Option<Message>>, n: nat)
    requires n <= |g| && n <= |r|
    ensures Zip(g + g', r + r', n) == Zip(g, r, n)
  {
    if n > 0 {
      ZipPrefix(g, r, g', r', n - 1);
    }
  }

  function RequestFor(tools: seq<Tool>): Option<Message> {
    if ReturnParts(tools) == [] then None else Some(Request(ReturnParts(tools), []))
  }

  lemma ZipSnoc(g: seq<seq<ResponsePart>>, r: seq<Option<Message>>, parts: seq<ResponsePart>, request: Option<Message>)
    requires |g| == |r|
    ensures Zip(g + [parts], r + [request], |g| + 1)
         == Zip(g, r, |g|) + [Response(parts)] + (if request.Some? then [request.value] else [])
  {
    ZipPrefix(g, r, [parts], [request], |g|);
  }

  lemma ZipGroup(g: seq<seq<ResponsePart>>, r: seq<Option<Message>>, open: seq<ResponsePart>, tools: seq<Tool>)
    requires |g| == |r|
    ensures Zip(g + [open + CallParts(tools)], r + [RequestFor(tools)], |g| + 1) == Zip(g, r, |g|) + GroupMessages(open, tools)
  {
    var parts, request := open + CallParts(tools), RequestFor(tools);
    ZipSnoc(g, r, parts, request);
    var tail := if request.Some? then [request.value] else [];
    ConcatAssoc(Zip(g, r, |g|), [Response(parts)], tail);
    assert GroupMessages(open, tools) == [Response(parts)] + tail;
  }

  lemma ZipLast(g: seq<seq<ResponsePart>>, r: seq<Option<Message>>, parts: seq<ResponsePart>)
    requires |g| == |r|
    ensures Zip(g + [parts], r, |g| + 1) == Zip(g, r, |g|) + [Response(parts)]
  {
    ZipPrefix(g, r, [parts], [], |g|);
    assert r + [] == r;
  }

  /** One iteration of the loop below: what is zipped so far and what is left to expand
      still make up the same messages. */
  lemma ExpandStep(g: seq<seq<ResponsePart>>, r: seq<Option<Message>>, open: seq<ResponsePart>, todo: seq<Segment>)
    requires |g| == |r| && todo != []
    ensures todo[0].Thinking? ==>
              ExpandFrom(open, todo) == ExpandFrom(open + [ThinkingPart(todo[0].text)], todo[1..])
    ensures todo[0].Text? ==>
              ExpandFrom(open, todo) == ExpandFrom(open + [TextPart(todo[0].text)], todo[1..])
    ensures todo[0].Other? ==> ExpandFrom(open, todo) == ExpandFrom(open, todo[1..])
    ensures todo[0].Group? ==>
              Zip(g, r, |g|) + ExpandFrom(open, todo)
              == Zip(g + [open + CallParts(todo[0].tools)], r + [RequestFor(todo[0].tools)], |g| + 1) + ExpandFrom([], todo[1..])
  {
    if todo[0].Group? {
      var tools := todo[0].tools;
      ConcatAssoc(Zip(g, r, |g|), GroupMessages(open, tools), ExpandFrom([], todo[1..]));
      ZipGroup(g, r, open, tools);
    }
  }

  method ZipLists(groups: seq<seq<ResponsePart>>, requests: seq<Option<Message>>) returns (messages: seq<Message>)
    ensures messages == Zip(groups, requests, |groups|)
  {
    messages := [];
    for i := 0 to |groups|
      invariant messages == Zip(groups, requests, i)
    {
      messages := messages + [Response(groups[i])];
      if i < |requests| && requests[i].Some? {
        messages := messages + [requests[i].value];
      }
    }
  }

  /** The runtime's form: two parallel lists, zipped at the end. */
  method ExpandRow(segments: seq<Segment>, content: string) returns (messages: seq<Message>)
    ensures messages == Expand(segments, content)
  {
    var canonical := CanonicalizeSegments(segments);
    if canonical == [] && content != "" {
      canonical := [Text(content)];
    }
    var groups: seq<seq<ResponsePart>> := [];
    var requests: seq<Option<Message>> := [];
    var current: seq<ResponsePart> := [];
    var todo := canonical;
    assert [] + Expand(segments, content) == Expand(segments, content);
    while todo != []
      invariant |groups| == |requests|
      invariant Zip(groups, requests, |groups|) + ExpandFrom(current, todo) == Expand(segments, content)
      decreases |todo|
    {
      var s := todo[0];
      ExpandStep(groups, requests, current, todo);
      if s.Thinking? {
        current := current + [ThinkingPart(s.text)];
      } else if s.Text? {
        current := current + [TextPart(s.text)];
      } else if s.Group? {
        groups := groups + [current + CallParts(s.tools)];
        requests := requests + [RequestFor(s.tools)];
        current := [];
      }
      todo := todo[1..];
    }
    if current != [] {
      ZipLast(groups, requests, current);
      groups := groups + [current];
    }
    messages := ZipLists(groups, requests);
  }

  /** A row whose segments say nothing is replayed as its text, and as nothing without one;
      of any other row the text plays no part. */
  lemma TextIsReplayed(segments: seq<Segment>, content: string)
    ensures Atoms(segments) == [] ==> Expand(segments, content) == if content == "" then [] else [Response([TextPart(content)])]
    ensures Atoms(segments) != [] ==> Expand(segments, content) == Expand(segments, "")
  {
    CanonicalIsUnique(segments, []);
    assert Canonical([]) == [] && Atoms([]) == [];
    if Atoms(segments) == [] && content != "" {
      assert [Text(content)][1..] == [] && [] + [TextPart(content)] == [TextPart(content)];
      assert ExpandFrom([], [Text(content)]) == ExpandFrom([TextPart(content)], []);
    }
  }
}
