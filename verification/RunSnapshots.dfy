/** What a run left behind, kept in one list of messages that is extended, thinned and
    written step by step. It holds what the turn of `HostActions` holds. */
module RunSnapshots {
  import opened Basics
  import opened Transcript
  import opened RowMessages
  import opened CallResults
  import opened ResolvedReturns
  import opened SessionRows
  import opened HostActions

  // ---------------------------------------------------------------- silent host decisions

  function Stripped(hostTools: bool, messages: seq<Message>): seq<Message> {
    if hostTools then StripContent(messages) else messages
  }

  function StripOne(m: Message): Message {
    if m.Response? then Response(Filter(IsCall, m.reply)) else m
  }

  lemma {:induction false} StripAppend(a: seq<Message>, b: seq<Message>)
    ensures StripContent(a + b) == StripContent(a) + StripContent(b)
  {
    if b == [] {
      assert a + b == a;
    } else {
      StripAppend(a, b[..|b| - 1]);
      AppendFront(a, b);
      ConcatAssoc(StripContent(a), StripContent(b[..|b| - 1]), [StripOne(b[|b| - 1])]);
    }
  }

  lemma {:induction false} StripLength(m: seq<Message>)
    ensures |StripContent(m)| == |m|
  {
    if m != [] {
      StripLength(m[..|m| - 1]);
    }
  }

  lemma StripCallsOnce(parts: seq<ResponsePart>)
    ensures Filter(IsCall, Filter(IsCall, parts)) == Filter(IsCall, parts)
  {
    var calls := Filter(IsCall, parts);
    forall i | 0 <= i < |calls| ensures IsCall(calls[i]) {
      FilterMember(IsCall, parts, calls[i]);
    }
    FilterAll(IsCall, calls);
  }

  lemma {:induction false} StripTwice(m: seq<Message>)
    ensures StripContent(StripContent(m)) == StripContent(m)
  {
    if m != [] {
      var front, last := m[..|m| - 1], m[|m| - 1];
      StripTwice(front);
      StripAppend(StripContent(front), [StripOne(last)]);
      if last.Response? {
        StripCallsOnce(last.reply);
      }
      assert StripContent([]) == [] && [StripOne(last)][..0] == [];
      assert StripContent([StripOne(last)]) == [StripOne(last)];
    }
  }

  lemma {:induction false} StripReplies(m: seq<Message>)
    ensures ReplyParts(StripContent(m)) == Filter(IsCall, ReplyParts(m))
    ensures RequestParts(StripContent(m)) == RequestParts(m)
  {
    if m != [] {
      var front, last := m[..|m| - 1], m[|m| - 1];
      StripReplies(front);
      RequestPartsSnoc(StripContent(front), StripOne(last));
      FilterAppend(IsCall, ReplyParts(front), if last.Response? then last.reply else []);
    }
  }

  lemma {:induction false} InterruptedCalls(parts: seq<ResponsePart>, returned: set<CallId>)
    ensures InterruptedParts(Filter(IsCall, parts), returned) == InterruptedParts(parts, returned)
  {
    if parts != [] {
      var front, last := parts[..|parts| - 1], parts[|parts| - 1];
      InterruptedCalls(front, returned);
      if IsCall(last) {
        InterruptedNext(Filter(IsCall, front), last, returned);
      } else {
        assert Filter(IsCall, front) + [] == Filter(IsCall, front);
        assert InterruptedParts(front, returned) + [] == InterruptedParts(front, returned);
      }
    }
  }

  lemma InterruptedNext(before: seq<ResponsePart>, p: ResponsePart, returned: set<CallId>)
    ensures InterruptedParts(before + [p], returned)
         == InterruptedParts(before, returned)
            + (if p.CallPart? && p.id !in returned then [ReturnPart(p.id, p.name, INTERRUPTED_OUTPUT, Interrupted)] else [])
  {
    assert (before + [p])[..|before|] == before;
  }

  /** The calls still to close are the same before and after the content has gone. */
  lemma StrippedCalls(m: seq<Message>)
    ensures InterruptedParts(ReplyParts(StripContent(m)), Results(StripContent(m)).Keys)
         == InterruptedParts(ReplyParts(m), Results(m).Keys)
  {
    StripReplies(m);
    InterruptedCalls(ReplyParts(m), Results(m).Keys);
  }

  // ---------------------------------------------------------------- the scans

  method HasReturn(messages: seq<Message>, id: CallId) returns (found: bool)
    ensures found <==> ReturnsCall(messages, id)
  {
    found := false;
    for i := 0 to |messages|
      invariant found <==> ReturnsCall(messages[..i], id)
    {
      PrefixSnoc(messages, i);
      RequestPartsSnoc(messages[..i], messages[i]);
      if messages[i].Request? {
        var here := PartsReturn(messages[i].parts, id);
        ReturnsSplit(messages[..i], messages[i], id, here);
        found := found || here;
      } else {
        assert RequestParts(messages[..i]) + [] == RequestParts(messages[..i]);
      }
    }
    assert messages[..|messages|] == messages;
  }

  method PartsReturn(parts: seq<RequestPart>, id: CallId) returns (found: bool)
    ensures found <==> exists j :: 0 <= j < |parts| && parts[j].ReturnPart? && parts[j].id == id
  {
    found := false;
    for j := 0 to |parts|
      invariant found <==> exists k :: 0 <= k < j && parts[k].ReturnPart? && parts[k].id == id
    {
      found := found || (parts[j].ReturnPart? && parts[j].id == id);
    }
  }

  lemma ReturnsSplit(front: seq<Message>, m: Message, id: CallId, here: bool)
    requires m.Request?
    requires here <==> exists j :: 0 <= j < |m.parts| && m.parts[j].ReturnPart? && m.parts[j].id == id
    ensures ReturnsCall(front + [m], id) <==> ReturnsCall(front, id) || here
  {
    RequestPartsSnoc(front, m);
    var before, all := RequestParts(front), RequestParts(front + [m]);
    assert all == before + m.parts;
    if here {
      var j :| 0 <= j < |m.parts| && m.parts[j].ReturnPart? && m.parts[j].id == id;
      assert all[|before| + j] == m.parts[j];
      assert m.parts[j] in all;
    }
    if ReturnsCall(front, id) {
      var p :| p in before && p.ReturnPart? && p.id == id;
      assert p in all;
    }
    if ReturnsCall(front + [m], id) {
      var p :| p in all && p.ReturnPart? && p.id == id;
      if p !in before {
        var k :| 0 <= k < |all| && all[k] == p;
        assert k >= |before| && m.parts[k - |before|] == p;
      }
    }
  }

  /** An interrupted return for every call without a result. */
  method Interruptions(messages: seq<Message>, returned: set<CallId>) returns (parts: seq<RequestPart>)
    ensures parts == InterruptedParts(ReplyParts(messages), returned)
  {
    parts := [];
    for i := 0 to |messages|
      invariant parts == InterruptedParts(ReplyParts(messages[..i]), returned)
    {
      PrefixSnoc(messages, i);
      RequestPartsSnoc(messages[..i], messages[i]);
      if messages[i].Response? {
        parts := AddInterruptions(parts, messages[i].reply, returned, ReplyParts(messages[..i]));
      } else {
        assert ReplyParts(messages[..i]) + [] == ReplyParts(messages[..i]);
      }
    }
    assert messages[..|messages|] == messages;
  }

  method AddInterruptions(parts: seq<RequestPart>, reply: seq<ResponsePart>, returned: set<CallId>, ghost before: seq<ResponsePart>)
    returns (updated: seq<RequestPart>)
    requires parts == InterruptedParts(before, returned)
    ensures updated == InterruptedParts(before + reply, returned)
  {
    updated := parts;
    assert before + reply[..0] == before;
    for j := 0 to |reply|
      invariant updated == InterruptedParts(before + reply[..j], returned)
    {
      ConcatPrefix(before, reply, j);
      InterruptedNext(before + reply[..j], reply[j], returned);
      if reply[j].CallPart? && reply[j].id !in returned {
        updated := updated + [ReturnPart(reply[j].id, reply[j].name, INTERRUPTED_OUTPUT, Interrupted)];
      }
    }
    assert reply[..|reply|] == reply;
  }

  // ---------------------------------------------------------------- the snapshot

  class RunSnapshot {
    const hostTools: bool
    var assistantMessages: seq<Message>
    /** Where the accepted host result is: that message itself, not one like it. */
    var acceptedAt: Option<nat>
    var interruptedStatus: string
    var persisted: bool

    /** The snapshot holds what the turn holds; a write may have taken the content out. */
    ghost predicate Holds(t: Turn)
      reads this
    {
      && t.hostTools == hostTools && t.status == interruptedStatus
      && Stripped(hostTools, assistantMessages) == StoredMessages(t)
      && acceptedAt == (if t.accepted.Some? then Some(|t.prior|) else None)
    }

    constructor (hostTools: bool, row: seq<Message>, accepted: Option<Message>)
      ensures this.hostTools == hostTools && !persisted
      ensures forall t: Turn ::
                t.hostTools == hostTools && t.status == "superseded" && t.prior == row && t.accepted == accepted && t.later == [] ==> Holds(t)
    {
      this.hostTools := hostTools;
      assistantMessages := row + (if accepted.Some? then [accepted.value] else []);
      acceptedAt := if accepted.Some? then Some(|row|) else None;
      interruptedStatus, persisted := "superseded", false;
      new;
      assert assistantMessages + [] == assistantMessages;
    }

    /** The run's messages join the turn; the accepted result, saved before the run, gives
        way when they include it. */
    method CaptureResult(answers: Option<CallId>, newMessages: seq<Message>, ghost t: Turn)
      requires Holds(t) && answers == t.answers
      modifies `assistantMessages, `acceptedAt
      ensures Holds(Capture(t, newMessages))
    {
      ghost var kept := t;
      if answers.Some? {
        var included := HasReturn(newMessages, answers.value);
        if included && acceptedAt.Some? {
          DropAccepted(t);
          kept := t.(accepted := None);
        }
      }
      StoredAppend(hostTools, assistantMessages, kept, newMessages);
      assistantMessages := assistantMessages + newMessages;
      assert Capture(t, newMessages) == kept.(later := kept.later + newMessages);
    }

    method DropAccepted(ghost t: Turn)
      requires Holds(t) && t.accepted.Some?
      modifies `assistantMessages, `acceptedAt
      ensures Holds(t.(accepted := None))
    {
      AcceptedDropped(hostTools, assistantMessages, t);
      assistantMessages := assistantMessages[..acceptedAt.value] + assistantMessages[acceptedAt.value + 1..];
      acceptedAt := None;
    }

    /** `mark_unanswered_calls`: true when any call was still open. */
    method MarkUnansweredCalls(ghost t: Turn) returns (added: bool)
      requires Holds(t)
      modifies `assistantMessages
      ensures Holds(CloseTurn(t).(status := t.status))
      ensures added <==> exists id :: id in CallIds(TurnMessages(t)) && id !in Results(TurnMessages(t))
    {
      var results := CollectResults(assistantMessages);
      var parts := Interruptions(assistantMessages, results.Keys);
      CallsToClose(hostTools, assistantMessages, t);
      SomeInterrupted(TurnMessages(t));
      added := parts != [];
      if added {
        StoredAppend(hostTools, assistantMessages, t, [Request(parts, [])]);
        assistantMessages := assistantMessages + [Request(parts, [])];
      } else {
        assert t.later + [] == t.later;
      }
    }

    /** The turn's row, created or extended with everything run so far. */
    method Persist(rows: seq<Row>, row: MessageId, parent: Option<MessageId>, ghost t: Turn) returns (written: seq<Row>)
      requires Holds(t) && row == t.row && parent == t.parent
      requires HasRow(rows, row) <==> parent.None? || persisted
      modifies `assistantMessages, `persisted
      ensures written == WriteSnapshot(rows, t)
      ensures Holds(t) && persisted
    {
      if hostTools {
        StripTwice(assistantMessages);
        assistantMessages := StripContent(assistantMessages);
      }
      var content, segments := BuildContent(assistantMessages, interruptedStatus);
      if parent.Some? && !persisted {
        written := rows + [Row(row, parent, Assistant, content, segments, Some(assistantMessages),
                               if rows == [] then 0 else rows[|rows| - 1].createdAt + 1)];
      } else {
        var stored := RowOf(rows, row);
        written := Replace(rows, stored.value.(content := content, segments := segments, messages := Some(assistantMessages)));
      }
      persisted := true;
    }
  }

  // ---------------------------------------------------------------- what the methods rely on

  lemma StoredAppend(hostTools: bool, m: seq<Message>, t: Turn, more: seq<Message>)
    requires hostTools == t.hostTools && Stripped(hostTools, m) == StoredMessages(t)
    ensures Stripped(hostTools, m + more) == StoredMessages(t.(later := t.later + more))
  {
    var next := t.(later := t.later + more);
    assert TurnMessages(next) == TurnMessages(t) + more;
    if hostTools {
      StripAppend(m, more);
      StripAppend(TurnMessages(t), more);
    }
  }

  lemma StripTake(m: seq<Message>, n: nat)
    requires n <= |m|
    ensures |StripContent(m)| == |m|
    ensures StripContent(m[..n]) == StripContent(m)[..n] && StripContent(m[n..]) == StripContent(m)[n..]
  {
    assert m[..n] + m[n..] == m;
    StripAppend(m[..n], m[n..]);
    StripLength(m[..n]);
    StripLength(m[n..]);
  }

  /** Taking the accepted message out by its place takes it out of what is stored. */
  lemma AcceptedDropped(hostTools: bool, m: seq<Message>, t: Turn)
    requires hostTools == t.hostTools && Stripped(hostTools, m) == StoredMessages(t) && t.accepted.Some?
    ensures |t.prior| < |m|
    ensures Stripped(hostTools, m[..|t.prior|] + m[|t.prior| + 1..]) == StoredMessages(t.(accepted := None))
  {
    var at, all := |t.prior|, TurnMessages(t);
    assert all[..at] == t.prior && all[at + 1..] == t.later;
    assert TurnMessages(t.(accepted := None)) == t.prior + t.later by {
      assert t.prior + [] == t.prior;
    }
    if hostTools {
      StripLength(m);
      StripTake(all, at);
      StripTake(all, at + 1);
      StripTake(m, at);
      StripTake(m, at + 1);
      StripAppend(m[..at], m[at + 1..]);
      StripAppend(t.prior, t.later);
    }
  }

  lemma CallsToClose(hostTools: bool, m: seq<Message>, t: Turn)
    requires hostTools == t.hostTools && Stripped(hostTools, m) == StoredMessages(t)
    ensures InterruptedParts(ReplyParts(m), Results(m).Keys)
         == InterruptedParts(ReplyParts(TurnMessages(t)), Results(TurnMessages(t)).Keys)
  {
    StrippedCalls(m);
    StrippedCalls(TurnMessages(t));
  }

  lemma {:induction false} AnyInterrupted(parts: seq<ResponsePart>, returned: set<CallId>)
    ensures InterruptedParts(parts, returned) != [] <==> exists j :: 0 <= j < |parts| && parts[j].CallPart? && parts[j].id !in returned
  {
    if parts != [] {
      AnyInterrupted(parts[..|parts| - 1], returned);
    }
  }

  lemma SomeInterrupted(m: seq<Message>)
    ensures InterruptedParts(ReplyParts(m), Results(m).Keys) != [] <==> exists id :: id in CallIds(m) && id !in Results(m)
  {
    var parts := ReplyParts(m);
    AnyInterrupted(parts, Results(m).Keys);
    if exists j :: 0 <= j < |parts| && parts[j].CallPart? && parts[j].id !in Results(m).Keys {
      var j :| 0 <= j < |parts| && parts[j].CallPart? && parts[j].id !in Results(m).Keys;
      CallIn(parts, j);
    }
    if exists id :: id in CallIds(m) && id !in Results(m) {
      var id :| id in CallIds(m) && id !in Results(m);
      var j := CallAt(parts, id);
    }
  }

  lemma {:induction false} CallIn(parts: seq<ResponsePart>, j: nat)
    requires j < |parts| && parts[j].CallPart?
    ensures parts[j].id in PartIds(parts)
  {
    if j < |parts| - 1 {
      CallIn(parts[..|parts| - 1], j);
    }
  }

  lemma {:induction false} CallAt(parts: seq<ResponsePart>, id: CallId) returns (j: nat)
    requires id in PartIds(parts)
    ensures j < |parts| && parts[j].CallPart? && parts[j].id == id
  {
    var last := |parts| - 1;
    if parts[last].CallPart? && parts[last].id == id {
      j := last;
    } else {
      j := CallAt(parts[..last], id);
    }
  }
}
