/** The invariant of `HostActions`, and what one durable write does to a safe session. */
module HostActionInvariant {
  import opened Basics
  import opened Transcript
  import opened RowMessages
  import opened RoundTrip
  import opened CallResults
  import opened ResolvedReturns
  import opened SessionRows
  import opened HostActions

  // ---------------------------------------------------------------- the invariant

  function Last(rows: seq<Row>): Row
    requires rows != []
  {
    rows[|rows| - 1]
  }

  ghost predicate RowsOk(rows: seq<Row>) {
    && (forall i, j :: 0 <= i < j < |rows| ==> rows[i].id != rows[j].id)
    && (forall i :: 0 <= i < |rows| ==> RowOk(rows[i]))
  }

  predicate Quiet(row: Row) { OpenIds(History(row)) == [] }

  /** Every call of the row has its answer, in both forms. */
  predicate Shut(row: Row) {
    Quiet(row) && (row.role == Assistant ==> forall t :: t in ToolsOf(row.segments) ==> t.answer.Some?)
  }

  ghost predicate OthersQuiet(rows: seq<Row>) {
    forall i :: 0 <= i < |rows| - 1 ==> Quiet(rows[i])
  }

  function InBatch(a: Action): set<CallId> { set id | id in a.batch }

  /** The batch is in call order; its calls before position `k` are answered and those from
      `k` on, of which the pending call is the first, are open. */
  ghost predicate PrefixAt(h: seq<Message>, a: Action, k: nat) {
    && k < |a.batch| && a.batch[k] == a.call && Distinct(a.batch)
    && Within(CallIds(h), InBatch(a)) == a.batch
    && (forall id :: id in a.batch ==> id in CallIds(h) && id !in Retried(h))
    && (forall i :: 0 <= i < k ==> a.batch[i] in Results(h))
    && (forall i :: k <= i < |a.batch| ==> a.batch[i] !in Results(h))
  }

  /** Moreover nothing else is open. */
  ghost predicate BatchAt(h: seq<Message>, a: Action, k: nat) {
    PrefixAt(h, a, k) && OpenIds(h) == a.batch[k..]
  }

  ghost predicate BatchPrefix(rows: seq<Row>, a: Action) {
    && rows != [] && Last(rows).id == a.row && Last(rows).role == Assistant
    && (exists k: nat :: PrefixAt(History(Last(rows)), a, k))
    && (forall i, id :: 0 <= i < |rows| - 1 && id in a.batch ==> id !in OpenIds(History(rows[i])))
  }

  /** Safe to reload, at any moment: an action that would be restored belongs to the
      active leaf, and the answered calls of its batch form a prefix. */
  ghost predicate DbSafe(db: Db) {
    RowsOk(db.rows) && (db.action.Some? && Restorable(db.rows, db.action.value) ==> BatchPrefix(db.rows, db.action.value))
  }

  /** Between jobs: the open calls of the session are exactly the rest of the pending batch. */
  ghost predicate IdleState(db: Db, action: Option<Action>) {
    && db.action == action && OthersQuiet(db.rows)
    && (action.None? ==> db.rows == [] || Quiet(Last(db.rows)))
    && (action.Some? ==>
          && db.rows != [] && Last(db.rows).id == action.value.row && Last(db.rows).role == Assistant
          && exists k: nat :: BatchAt(History(Last(db.rows)), action.value, k))
  }

  ghost predicate AcceptedShape(t: Turn) {
    t.accepted.Some? ==>
      && t.answers.Some?
      && t.accepted.value.Request? && |t.accepted.value.parts| == 1
      && t.accepted.value.parts[0].ReturnPart? && t.accepted.value.parts[0].id == t.answers.value
  }

  /** The accepted result is in the turn exactly once: as it was accepted, or in the
      messages of the run that resumed with it. */
  ghost predicate ReturnedOnce(t: Turn) {
    t.answers.Some? ==>
      && CountReturns(RequestParts(t.prior), t.answers.value) == 0
      && CountReturns(RequestParts(t.later), t.answers.value) == (if t.accepted.Some? then 0 else 1)
  }

  lemma {:induction false} CountAppend(a: seq<RequestPart>, b: seq<RequestPart>, id: CallId)
    ensures CountReturns(a + b, id) == CountReturns(a, id) + CountReturns(b, id)
  {
    if b == [] {
      assert a + b == a;
    } else {
      CountAppend(a, b[..|b| - 1], id);
      AppendFront(a, b);
    }
  }

  lemma {:induction false} CountZero(parts: seq<RequestPart>, id: CallId)
    ensures CountReturns(parts, id) == 0 <==> id !in ResultsOf(parts)
  {
    if parts != [] {
      CountZero(parts[..|parts| - 1], id);
    }
  }

  lemma {:induction false} CountInterrupted(parts: seq<ResponsePart>, returned: set<CallId>, id: CallId)
    requires id in returned
    ensures CountReturns(InterruptedParts(parts, returned), id) == 0
  {
    if parts != [] {
      CountInterrupted(parts[..|parts| - 1], returned, id);
      var r, front := InterruptedParts(parts, returned), InterruptedParts(parts[..|parts| - 1], returned);
      assert r != front ==> r[..|r| - 1] == front;
    }
  }

  lemma TurnRequestParts(t: Turn)
    requires AcceptedShape(t)
    ensures RequestParts(TurnMessages(t))
         == RequestParts(t.prior) + (if t.accepted.Some? then t.accepted.value.parts else []) + RequestParts(t.later)
  {
    var accepted := if t.accepted.Some? then [t.accepted.value] else [];
    RequestPartsAppend(t.prior + accepted, t.later);
    RequestPartsAppend(t.prior, accepted);
    assert t.accepted.Some? ==> RequestParts(accepted) == [] + t.accepted.value.parts;
  }

  lemma CountOne(p: RequestPart)
    requires p.ReturnPart?
    ensures CountReturns([p], p.id) == 1
  {
    assert CountReturns([], p.id) == 0;
  }

  lemma CountThree(a: seq<RequestPart>, b: seq<RequestPart>, c: seq<RequestPart>, id: CallId)
    ensures CountReturns(a + b + c, id) == CountReturns(a, id) + CountReturns(b, id) + CountReturns(c, id)
  {
    CountAppend(a + b, c, id);
    CountAppend(a, b, id);
  }

  lemma CountAccepted(t: Turn)
    requires AcceptedShape(t) && t.answers.Some?
    ensures CountReturns(if t.accepted.Some? then t.accepted.value.parts else [], t.answers.value)
         == if t.accepted.Some? then 1 else 0
  {
    if t.accepted.Some? {
      var parts := t.accepted.value.parts;
      assert parts == [parts[0]];
      CountOne(parts[0]);
    }
  }

  /** What is stored for a turn has the accepted result exactly once. */
  lemma ReturnedOnceStored(t: Turn)
    requires AcceptedShape(t) && ReturnedOnce(t) && t.answers.Some?
    ensures CountReturns(RequestParts(StoredMessages(t)), t.answers.value) == 1
    ensures t.answers.value in Results(TurnMessages(t))
  {
    TurnRequestParts(t);
    CountThree(RequestParts(t.prior), if t.accepted.Some? then t.accepted.value.parts else [], RequestParts(t.later), t.answers.value);
    CountAccepted(t);
    CountZero(RequestParts(TurnMessages(t)), t.answers.value);
    StoredRequestParts(t);
  }

  lemma StoredRequestParts(t: Turn)
    ensures RequestParts(StoredMessages(t)) == RequestParts(TurnMessages(t))
  {
    if t.hostTools {
      StripKeepsCalls(TurnMessages(t));
    }
  }

  /** `h` is a past of `m`: its calls come first, its results are kept, and nothing it
      answered is retried. */
  ghost predicate Past(h: seq<Message>, m: seq<Message>) {
    && CallIds(h) <= CallIds(m)
    && Extends(Results(h), Results(m))
    && (forall id :: id in Retried(h) ==> id in Retried(m))
    && (forall id :: id in Results(h) && id !in Retried(h) ==> id !in Retried(m))
  }

  /** What the turn holds includes what its row, which is the leaf, already has. */
  ghost predicate TurnOk(rows: seq<Row>, t: Turn) {
    && AcceptedShape(t) && ReturnedOnce(t) && Distinct(CallIds(TurnMessages(t)))
    && (HasRow(rows, t.row) ==>
          && Last(rows).id == t.row && Last(rows).role == Assistant
          && Past(History(Last(rows)), TurnMessages(t)))
  }

  ghost predicate CoreOk(c: Core) {
    DbSafe(c.db) && (c.turn.Some? ==> TurnOk(c.db.rows, c.turn.value))
  }

  /** Ready for the model: nothing is open, unless a turn found the batch still pending. */
  ghost predicate RunReady(c: Core) {
    && c.turn.Some? && c.db.action == c.action && OthersQuiet(c.db.rows)
    && (c.turn.value.answers.Some? ==> OpenIds(TurnMessages(c.turn.value)) == [])
    && (c.action.None? ==> c.db.rows == [] || Quiet(Last(c.db.rows)))
    && (c.action.Some? ==>
          && IdleState(c.db, c.action) && c.turn.value.row == c.action.value.row
          && c.turn.value.answers.None?
          && TurnMessages(c.turn.value) == c.turn.value.prior == History(Last(c.db.rows)))
  }

  /** Every write still to make leaves the session safe, and the last leaves it idle or ready. */
  ghost predicate JobOk(c: Core, todo: seq<Write>, resume: bool)
    decreases |todo|
  {
    CoreOk(c) &&
    if todo == [] then (if resume then RunReady(c) else IdleState(c.db, c.action))
    else JobOk(Commit(todo[0], c), todo[1..], resume)
  }

  ghost predicate Inv(s: System) {
    DbSafe(s.db) &&
    match s
    case Down(_) => true
    case Up(db, action, Idle) => IdleState(db, action)
    case Up(db, action, Busy(turn, todo, resume)) => JobOk(Core(db, action, turn), todo, resume)
  }

  lemma JobStep(c: Core, w: Write, rest: seq<Write>, resume: bool)
    requires CoreOk(c) && JobOk(Commit(w, c), rest, resume)
    ensures JobOk(c, [w] + rest, resume)
  {
    assert ([w] + rest)[1..] == rest;
  }

  // ---------------------------------------------------------------- rows and histories

  lemma RowOfLast(rows: seq<Row>, id: MessageId)
    requires rows != [] && Last(rows).id == id
    ensures RowOf(rows, id) == Some(Last(rows)) && HasRow(rows, id)
  {
    assert HasRow(rows, id) by { assert rows[|rows| - 1].id == id; }
  }

  lemma {:induction false} StripKeepsCalls(m: seq<Message>)
    ensures PartIds(ReplyParts(StripContent(m))) == PartIds(ReplyParts(m))
    ensures RequestParts(StripContent(m)) == RequestParts(m)
  {
    if m != [] {
      var front, last := m[..|m| - 1], m[|m| - 1];
      StripKeepsCalls(front);
      var s := StripContent(m);
      assert s[..|s| - 1] == StripContent(front);
      if last.Response? {
        PartIdsAppend(ReplyParts(front), last.reply);
        PartIdsAppend(ReplyParts(StripContent(front)), Filter(IsCall, last.reply));
        PartIdsFilter(last.reply);
      } else {
        assert ReplyParts(m) == ReplyParts(front) && ReplyParts(s) == ReplyParts(StripContent(front));
      }
    }
  }

  lemma {:induction false} PartIdsAppend(a: seq<ResponsePart>, b: seq<ResponsePart>)
    ensures PartIds(a + b) == PartIds(a) + PartIds(b)
  {
    if b == [] {
      assert a + b == a;
    } else {
      PartIdsAppend(a, b[..|b| - 1]);
      AppendFront(a, b);
    }
  }

  /** What is stored for a turn has the calls and results of what it holds. */
  lemma StoredSame(t: Turn)
    ensures CallIds(StoredMessages(t)) == CallIds(TurnMessages(t))
    ensures Results(StoredMessages(t)) == Results(TurnMessages(t))
    ensures Retried(StoredMessages(t)) == Retried(TurnMessages(t))
    ensures OpenIds(StoredMessages(t)) == OpenIds(TurnMessages(t))
  {
    if t.hostTools {
      StripKeepsCalls(TurnMessages(t));
    }
  }

  /** Appended messages add their calls and results. */
  lemma HistoryAppend(a: seq<Message>, b: seq<Message>)
    ensures CallIds(a + b) == CallIds(a) + CallIds(b)
    ensures Results(a + b) == Results(a) + Results(b)
    ensures Retried(a + b) == Retried(a) + Retried(b)
  {
    ReplyPartsAppend(a, b);
    RequestPartsAppend(a, b);
    PartIdsAppend(ReplyParts(a), ReplyParts(b));
    ResultsOfAppend(RequestParts(a), RequestParts(b));
    RetriedAppend(RequestParts(a), RequestParts(b));
  }

  /** Closing a turn leaves no call open and keeps every result. */
  lemma CloseTurnCloses(t: Turn)
    ensures var m := TurnMessages(CloseTurn(t));
            && OpenIds(m) == [] && CallIds(m) == CallIds(TurnMessages(t))
            && Past(TurnMessages(t), m)
            && (forall id :: id in CallIds(m) ==> id in Results(m))
  {
    var before := TurnMessages(t);
    var parts := InterruptedParts(ReplyParts(before), Results(before).Keys);
    var m := TurnMessages(CloseTurn(t));
    assert m == MarkUnanswered(before) by {
      assert m == before + (if parts == [] then [] else [Request(parts, [])]);
      assert before + [] == before;
    }
    MarkUnansweredCloses(before);
    forall id | id in CallIds(m) ensures id in Results(m) {
      CallPresentIds(ReplyParts(m), id);
    }
    WithoutAll(CallIds(m), Results(m).Keys + Retried(m));
  }

  lemma PastTransitive(a: seq<Message>, b: seq<Message>, c: seq<Message>)
    requires Past(a, b) && Past(b, c)
    ensures Past(a, c)
  {
    assert forall id :: id in Results(a) ==> id in Results(b);
  }

  // ---------------------------------------------------------------- a snapshot

  /** A snapshot row: its two forms agree, and its open calls are the turn's. */
  lemma SnapshotRow(row: Row, t: Turn)
    requires row.role == Assistant && Distinct(CallIds(TurnMessages(t)))
    requires row.messages == Some(StoredMessages(t)) && row.segments == Build(StoredMessages(t), t.status)
    ensures RowOk(row) && History(row) == StoredMessages(t)
    ensures OpenIds(History(row)) == OpenIds(TurnMessages(t))
    ensures Matches(ToolsOf(row.segments), Results(History(row)))
    ensures Ids(ToolsOf(row.segments)) == CallIds(TurnMessages(t))
  {
    StoredSame(t);
    BuildAgrees(StoredMessages(t), t.status);
    AgreeIds(StoredMessages(t), row.segments);
  }

  /** The rows after a snapshot: the turn's row is the leaf, the others are as they were. */
  lemma SnapshotRows(rows: seq<Row>, t: Turn)
    requires RowsOk(rows) && TurnOk(rows, t)
    ensures var r := WriteSnapshot(rows, t);
            && RowsOk(r) && r != [] && Last(r).id == t.row && Last(r).role == Assistant
            && History(Last(r)) == StoredMessages(t)
            && OpenIds(History(Last(r))) == OpenIds(TurnMessages(t))
            && Matches(ToolsOf(Last(r).segments), Results(History(Last(r))))
            && Ids(ToolsOf(Last(r).segments)) == CallIds(TurnMessages(t))
            && |r| == (if HasRow(rows, t.row) then |rows| else |rows| + 1)
            && (forall i :: 0 <= i < |r| - 1 ==> r[i] == rows[i])
            && TurnOk(r, t)
  {
    var r := WriteSnapshot(rows, t);
    StoredSame(t);
    if HasRow(rows, t.row) {
      RowOfLast(rows, t.row);
      SnapshotRow(Last(r), t);
      forall i | 0 <= i < |rows| - 1 ensures r[i] == rows[i] {
        assert rows[i].id != rows[|rows| - 1].id;
      }
    } else {
      SnapshotRow(Last(r), t);
      forall i | 0 <= i < |rows| ensures r[i] == rows[i] && r[i].id != t.row {
        assert rows[i].id == t.row ==> HasRow(rows, t.row);
      }
    }
    RowOfLast(r, t.row);
  }

  /** With every call of the leaf answered, no stored action of that row would be restored. */
  lemma NotRestorable(rows: seq<Row>, a: Action)
    requires rows != [] && Last(rows).id == a.row
    requires Matches(ToolsOf(Last(rows).segments), Results(History(Last(rows))))
    requires a.call in Ids(ToolsOf(Last(rows).segments)) ==> a.call in Results(History(Last(rows)))
    ensures !Restorable(rows, a)
  {
    RowOfLast(rows, a.row);
    var tools := ToolsOf(Last(rows).segments);
    var e := Find(tools, a.call);
    if e.Some? {
      var i :| 0 <= i < |tools| && tools[i] == e.value;
      assert Ids(tools)[i] == a.call;
      assert MatchesTool(e.value, Results(History(Last(rows))));
    }
  }
}
