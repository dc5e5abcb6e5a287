/** A repair that does no harm leaves a running turn as safe as it was. */
module SessionRepairSafety {
  import opened Basics
  import opened Transcript
  import opened RowMessages
  import opened RoundTrip
  import opened CallResults
  import opened ResolvedReturns
  import opened SessionRows
  import opened HostActions
  import opened HostActionInvariant
  import opened HostActionSafety
  import opened HostActionRuns
  import opened HostActionSteps
  import opened SessionRepairShapes
  import R = SessionRepairs

  // ---------------------------------------------------------------- what a repair records

  lemma OpenEntryOf(row: Row, id: CallId) returns (i: nat)
    requires RowOk(row) && row.role == Assistant && id in OpenIds(History(row))
    ensures var tools := ToolsOf(row.segments); i < |tools| && tools[i].id == id && tools[i].answer.None?
  {
    var tools := ToolsOf(row.segments);
    AgreeIds(History(row), row.segments);
    i :| 0 <= i < |tools| && Ids(tools)[i] == id;
    assert tools[i] in tools && MatchesTool(tools[i], Results(History(row)));
  }

  /** Resolving a row records the answer for every open call that is covered. */
  lemma ResolveRecords(row: Row, scope: Scope, answer: Answer, id: CallId)
    requires RowOk(row) && id in OpenIds(History(row)) && Covers(scope, id)
    ensures var h := History(ResolveRow(row, scope, answer));
            id in Results(h) && Results(h)[id] == Result(answer.output, answer.outcome)
  {
    ResolveRowKeeps(row, scope, answer);
    if row.role == Assistant {
      var i := OpenEntryOf(row, id);
      var r, tools := ResolveRow(row, scope, answer), ToolsOf(row.segments);
      ResolveToolsOf(row.segments, scope, answer);
      assert ToolsOf(r.segments)[i] == tools[i].(answer := Some(answer));
      assert ToolsOf(r.segments)[i] in ToolsOf(r.segments);
      assert MatchesTool(ToolsOf(r.segments)[i], Results(History(r)));
    }
  }

  lemma OpenNeedsRepair(row: Row, id: CallId)
    requires RowOk(row) && id in OpenIds(History(row))
    ensures NeedsRepair(row, {})
  {
    if row.role == Assistant {
      var i := OpenEntryOf(row, id);
      UnansweredIdsMember(ToolsOf(row.segments), Except({}));
      assert ToolsOf(row.segments)[i] in ToolsOf(row.segments);
    }
  }

  /** A repair records the unknown result for every open call of the row. */
  lemma RepairRecords(row: Row, id: CallId)
    requires RowOk(row) && id in OpenIds(History(row))
    ensures var h := History(RepairRow(row, {})); id in Results(h) && Results(h)[id] == R.Unknown()
  {
    OpenNeedsRepair(row, id);
    ResolveRecords(row, Except({}), UnknownAnswer, id);
  }

  /** And it records nothing else. */
  lemma RepairRecordsOnly(row: Row, id: CallId)
    requires RowOk(row) && id in Results(History(RepairRow(row, {}))) && id !in Results(History(row))
    ensures id in OpenIds(History(row))
  {
    var r := RepairRow(row, {});
    if NeedsRepair(row, {}) {
      if row.messages.Some? {
        AppendedResult(row.messages.value, r.segments, id);
      } else {
        RepairRowKeeps(row, {});
        LegacyResults(r.segments, r.content);
        ExpandAgrees(row.segments, row.content);
        AgreeIds(History(row), row.segments);
        AgreeIds(History(r), r.segments);
        assert id in Ids(ToolsOf(r.segments));
      }
    }
  }

  lemma AppendedResult(m: seq<Message>, segments: seq<Segment>, id: CallId)
    requires id in Results(WithResolvedReturns(m, segments)) && id !in Results(m)
    ensures id in OpenIds(m)
  {
    var answered := Results(m).Keys + Retried(m);
    var parts := ResolvedParts(ReplyParts(m), ToolsOf(segments), answered);
    AppendRequestParts(m, parts);
    ResolvedResults(ReplyParts(m), ToolsOf(segments), answered);
    assert id in ResultsOf(parts);
    CallPresentIds(ReplyParts(m), id);
  }

  /** What the turn holds extends the repaired row when it answers each call the repair
      answers with the very same result. */
  lemma RepairedPast(row: Row, m: seq<Message>)
    requires RowOk(row) && Past(History(row), m)
    requires forall id :: id in OpenIds(History(row)) ==> R.AnsweredAsUnknown(m, id)
    ensures Past(History(RepairRow(row, {})), m)
  {
    var h, h' := History(row), History(RepairRow(row, {}));
    RepairRowKeeps(row, {});
    forall id | id in Results(h') ensures id in Results(m) && Results(m)[id] == Results(h')[id] && (id !in Retried(h') ==> id !in Retried(m)) {
      if id !in Results(h) {
        RepairRecordsOnly(row, id);
        RepairRecords(row, id);
      }
    }
  }

  // ---------------------------------------------------------------- rows beside each other

  /** Every row is shut. */
  ghost predicate Closed(rows: seq<Row>) { RowsOk(rows) && forall i :: 0 <= i < |rows| ==> Shut(rows[i]) }

  /** The same messages in the same places; those that are no replies are the same. */
  ghost predicate Beside(a: seq<Row>, b: seq<Row>) {
    && |a| == |b|
    && forall i :: 0 <= i < |a| ==>
         && a[i].id == b[i].id && a[i].role == b[i].role && a[i].parent == b[i].parent && a[i].createdAt == b[i].createdAt
         && (a[i].role != Assistant ==> a[i] == b[i])
         && CallIds(History(a[i])) == CallIds(History(b[i])) && Retried(History(a[i])) == Retried(History(b[i]))
  }

  lemma RepairedShut(row: Row)
    requires RowOk(row)
    ensures Shut(RepairRow(row, {}))
  {
    RepairRowKeeps(row, {});
    RepairRowAnswers(row, {});
    NoMembers(OpenIds(History(RepairRow(row, {}))));
  }

  lemma RepairedBeside(rows: seq<Row>)
    requires RowsOk(rows)
    ensures Beside(rows, RepairRows(rows, {})) && Closed(RepairRows(rows, {}))
  {
    RepairedRows(rows, {});
    forall i | 0 <= i < |rows|
      ensures var r := RepairRows(rows, {})[i];
              && r.id == rows[i].id && r.role == rows[i].role && r.parent == rows[i].parent && r.createdAt == rows[i].createdAt
              && CallIds(History(r)) == CallIds(History(rows[i])) && Retried(History(r)) == Retried(History(rows[i])) && Shut(r)
    {
      RepairRowKeeps(rows[i], {});
      RepairedShut(rows[i]);
    }
  }

  lemma BesideHeads(a: seq<Row>, b: seq<Row>)
    requires Beside(a, b)
    ensures SameHeads(a, b)
  {
  }

  lemma RestorableElsewhere(rows: seq<Row>, rows': seq<Row>, a: Action, i: nat)
    requires RowsOk(rows) && Beside(rows, rows') && Closed(rows') && Restorable(rows', a)
    requires i < |rows'| && rows'[i] == RowOf(rows', a.row).value
    ensures Restorable(rows, a) && rows[i].id == a.row && rows[i].role != Assistant
  {
    assert Shut(rows'[i]);
    assert Find(ToolsOf(rows'[i].segments), a.call).value in ToolsOf(rows'[i].segments);
    RowAtIndex(rows, i);
  }

  /** In closed rows no action is restorable that was not stored for a row of another role,
      which a safe session does not have. */
  lemma NothingToRestore(rows: seq<Row>, rows': seq<Row>, a: Action)
    requires DbSafe(Db(rows, Some(a))) && Beside(rows, rows') && Closed(rows')
    ensures !Restorable(rows', a)
  {
    if Restorable(rows', a) {
      var i :| 0 <= i < |rows'| && rows'[i] == RowOf(rows', a.row).value;
      RestorableElsewhere(rows, rows', a, i);
    }
  }

  lemma RowAtIndex(rows: seq<Row>, i: nat)
    requires RowsOk(rows) && i < |rows|
    ensures RowOf(rows, rows[i].id) == Some(rows[i])
  {
    assert HasRow(rows, rows[i].id);
    var row := RowOf(rows, rows[i].id).value;
    var j :| 0 <= j < |rows| && rows[j] == row;
  }

  // ---------------------------------------------------------------- a job that starts something

  lemma ClosedAnswers(rows: seq<Row>, a: Action)
    requires Closed(rows) && R.IsReply(rows, a.row)
    ensures !Restorable(rows, a)
  {
    var row := RowOf(rows, a.row);
    if row.Some? {
      var i :| 0 <= i < |rows| && rows[i] == row.value;
      assert Shut(rows[i]);
      var entry := Find(ToolsOf(row.value.segments), a.call);
      assert entry.Some? ==> entry.value in ToolsOf(row.value.segments);
    }
  }

  lemma ClosedSafe(c: Core)
    requires Closed(c.db.rows) && (c.db.action.Some? ==> R.IsReply(c.db.rows, c.db.action.value.row))
    requires c.turn.Some? ==> TurnOk([], c.turn.value) && !HasRow(c.db.rows, c.turn.value.row)
    ensures CoreOk(c)
  {
    if c.db.action.Some? {
      ClosedAnswers(c.db.rows, c.db.action.value);
    }
  }

  lemma ReplacedClosed(rows: seq<Row>, j: nat, row: Row)
    requires Closed(rows) && j < |rows| && row.id == rows[j].id && RowOk(row) && Shut(row)
    ensures Closed(Replace(rows, row))
  {
    ReplacedAt(rows, j, row);
  }

  lemma ReplacedAt(rows: seq<Row>, j: nat, row: Row)
    requires j < |rows| && row.id == rows[j].id && forall i, j :: 0 <= i < j < |rows| ==> rows[i].id != rows[j].id
    ensures forall i :: 0 <= i < |rows| ==> Replace(rows, row)[i] == if i == j then row else rows[i]
  {
    forall i | 0 <= i < |rows| ensures Replace(rows, row)[i] == if i == j then row else rows[i] {
      assert i != j ==> rows[i].id != rows[j].id;
    }
  }

  lemma SupersededClosed(rows: seq<Row>, id: MessageId, ids: set<CallId>, status: string)
    requires Closed(rows)
    ensures Closed(WriteSupersede(rows, id, ids, status))
  {
    var stored := RowOf(rows, id);
    if stored.Some? && AnyId(ToolsOf(stored.value.segments), ids) {
      var j :| 0 <= j < |rows| && rows[j] == stored.value;
      ResolvedShut(rows[j], ids, status);
      ReplacedClosed(rows, j, ResolveRow(rows[j], Only(ids), AbandonedAnswer(status)));
    }
  }

  lemma ResolvedShut(row: Row, ids: set<CallId>, status: string)
    requires RowOk(row) && Shut(row)
    ensures var r := ResolveRow(row, Only(ids), AbandonedAnswer(status)); RowOk(r) && Shut(r) && r.id == row.id
  {
    var r := ResolveRow(row, Only(ids), AbandonedAnswer(status));
    ResolveRowKeeps(row, Only(ids), AbandonedAnswer(status));
    NoMembers(OpenIds(History(r)));
    if row.role == Assistant {
      ResolveToolsOf(row.segments, Only(ids), AbandonedAnswer(status));
      forall t | t in ToolsOf(r.segments) ensures t.answer.Some? {
        var i :| 0 <= i < |ToolsOf(r.segments)| && ToolsOf(r.segments)[i] == t;
        assert t == ResolveTool(ToolsOf(row.segments)[i], Only(ids), AbandonedAnswer(status));
        assert ToolsOf(row.segments)[i] in ToolsOf(row.segments);
      }
    }
  }

  lemma CreatedClosed(rows: seq<Row>, row: Row)
    requires Closed(rows) && row.role != Assistant && !HasRow(rows, row.id)
    ensures Closed(rows + [row])
  {
    AppendRow(rows, row);
    var r := rows + [row];
    assert CallIds([]) == [] && Shut(row);
    forall i | 0 <= i < |r| ensures Shut(r[i]) {
      if i < |rows| { assert r[i] == rows[i]; }
    }
  }

  lemma OpeningClosed(c: Core, w: Write)
    requires Closed(c.db.rows) && R.NewMessage(c.db.rows, c.turn, w) && (w.Supersede? || w.ClearAction? || w.Create? || w.SaveState?)
    ensures Closed(Commit(w, c).db.rows)
  {
    match w
    case Supersede(id, ids, status) => SupersededClosed(c.db.rows, id, ids, status);
    case Create(row) => CreatedClosed(c.db.rows, row);
    case _ =>
  }

  lemma {:induction false} OpeningSafe(c: Core, todo: seq<Write>, resume: bool)
    requires Closed(c.db.rows) && c.db.action == c.action && R.OpeningShape(c, todo, resume)
    ensures JobOk(c, todo, resume)
    decreases |todo|
  {
    ClosedSafe(c);
    if todo != [] {
      var c' := Commit(todo[0], c);
      assert R.NewMessage(c.db.rows, c.turn, todo[0]);
      OpeningClosed(c, todo[0]);
      OpeningStep(c, todo, resume);
      OpeningSafe(c', todo[1..], resume);
    }
  }

  // ---------------------------------------------------------------- a job that ends something

  /** The same leaf; the other rows of `b` are closed. */
  ghost predicate SameLeaf(a: seq<Row>, b: seq<Row>) {
    && Beside(a, b) && a != [] && Last(a) == Last(b) && RowsOk(b) && forall i :: 0 <= i < |b| - 1 ==> Shut(b[i])
  }

  lemma RestorableBeside(a: seq<Row>, b: seq<Row>, x: Action, i: nat)
    requires RowsOk(a) && SameLeaf(a, b) && Restorable(b, x) && i < |b| && b[i] == RowOf(b, x.row).value
    ensures Restorable(a, x) && a[i].id == x.row
  {
    RowAtIndex(a, i);
    assert Find(ToolsOf(b[i].segments), x.call).value in ToolsOf(b[i].segments);
    if i < |b| - 1 {
      assert Shut(b[i]);
    }
  }

  lemma SameLeafSafe(a: Db, b: Db)
    requires DbSafe(a) && SameLeaf(a.rows, b.rows) && (b.action == a.action || b.action.None?)
    ensures DbSafe(b)
  {
    if b.action.Some? && Restorable(b.rows, b.action.value) {
      var x := b.action.value;
      var i :| 0 <= i < |b.rows| && b.rows[i] == RowOf(b.rows, x.row).value;
      RestorableBeside(a.rows, b.rows, x, i);
      var k: nat :| PrefixAt(History(Last(a.rows)), x, k);
      forall j, id | 0 <= j < |b.rows| - 1 && id in x.batch ensures id !in OpenIds(History(b.rows[j])) {
        assert Shut(b.rows[j]);
      }
    }
  }

  lemma SameLeafTurn(a: seq<Row>, b: seq<Row>, t: Turn)
    requires SameLeaf(a, b) && TurnOk(a, t)
    ensures TurnOk(b, t)
  {
    BesideHeads(a, b);
    SameHeadsRow(a, b, t.row);
  }

  /** What a snapshot writes for a turn whose row is the leaf. */
  function Rewritten(row: Row, t: Turn): Row {
    var segments := Build(StoredMessages(t), t.status);
    row.(content := TextOf(segments), segments := segments, messages := Some(StoredMessages(t)))
  }

  function NewReply(t: Turn, createdAt: nat): Row {
    var segments := Build(StoredMessages(t), t.status);
    Row(t.row, t.parent, Assistant, TextOf(segments), segments, Some(StoredMessages(t)), createdAt)
  }

  lemma WritesLeaf(rows: seq<Row>, t: Turn)
    requires RowsOk(rows) && TurnOk(rows, t)
    ensures var r := WriteSnapshot(rows, t);
            if HasRow(rows, t.row) then
              && |r| == |rows| && Last(r) == Rewritten(Last(rows), t)
              && (forall i :: 0 <= i < |rows| - 1 ==> r[i] == rows[i])
            else
              && |r| == |rows| + 1 && Last(r) == NewReply(t, if rows == [] then 0 else Last(rows).createdAt + 1)
              && (forall i :: 0 <= i < |rows| ==> r[i] == rows[i])
  {
    if HasRow(rows, t.row) {
      RowOfLast(rows, t.row);
      var r := WriteSnapshot(rows, t);
      forall i | 0 <= i < |rows| - 1 ensures r[i] == rows[i] {
        assert rows[i].id != rows[|rows| - 1].id;
      }
    }
  }

  lemma SameRewritten(a: Row, b: Row, t: Turn)
    requires a.id == b.id && a.role == b.role && a.parent == b.parent && a.createdAt == b.createdAt
    ensures Rewritten(a, t) == Rewritten(b, t)
  {
  }

  lemma SameLeafOf(a: seq<Row>, b: seq<Row>, a': seq<Row>, b': seq<Row>, n: nat)
    requires Beside(a, b) && |a'| == |b'| == n + 1 && n <= |a| && RowsOk(b') && Last(a') == Last(b')
    requires forall i :: 0 <= i < n ==> a'[i] == a[i] && b'[i] == b[i] && Shut(b[i])
    ensures SameLeaf(a', b')
  {
    forall i | 0 <= i < n + 1
      ensures a'[i].id == b'[i].id && a'[i].role == b'[i].role && a'[i].parent == b'[i].parent && a'[i].createdAt == b'[i].createdAt
      ensures a'[i].role != Assistant ==> a'[i] == b'[i]
      ensures CallIds(History(a'[i])) == CallIds(History(b'[i])) && Retried(History(a'[i])) == Retried(History(b'[i]))
    {
      if i < n {
        assert a'[i] == a[i] && b'[i] == b[i];
      } else {
        assert a'[i] == Last(a') && b'[i] == Last(b');
      }
    }
  }

  /** A snapshot writes the same row on both sides. */
  lemma BothWritten(a: seq<Row>, b: seq<Row>, t: Turn)
    requires RowsOk(a) && RowsOk(b) && Beside(a, b) && TurnOk(a, t) && TurnOk(b, t)
    requires if HasRow(b, t.row) then forall i :: 0 <= i < |b| - 1 ==> Shut(b[i]) else forall i :: 0 <= i < |b| ==> Shut(b[i])
    ensures SameLeaf(WriteSnapshot(a, t), WriteSnapshot(b, t))
  {
    BesideHeads(a, b);
    SameHeadsRow(a, b, t.row);
    WritesLeaf(a, t);
    WritesLeaf(b, t);
    SnapshotRowsOk(b, t);
    if HasRow(a, t.row) {
      SameRewritten(Last(a), Last(b), t);
      SameLeafOf(a, b, WriteSnapshot(a, t), WriteSnapshot(b, t), |a| - 1);
    } else {
      SameLeafOf(a, b, WriteSnapshot(a, t), WriteSnapshot(b, t), |a|);
    }
  }

  lemma SnapshotRowsOk(rows: seq<Row>, t: Turn)
    requires RowsOk(rows) && TurnOk(rows, t)
    ensures RowsOk(WriteSnapshot(rows, t))
  {
    SnapshotRows(rows, t);
  }

  lemma SameLeafSnapshot(a: seq<Row>, b: seq<Row>, t: Turn)
    requires RowsOk(a) && SameLeaf(a, b) && TurnOk(a, t) && HasRow(a, t.row)
    ensures SameLeaf(WriteSnapshot(a, t), WriteSnapshot(b, t))
  {
    SameLeafTurn(a, b, t);
    BesideHeads(a, b);
    SameHeadsRow(a, b, t.row);
    BothWritten(a, b, t);
  }

  lemma CommitOnRows(w: Write, c: Core)
    requires w.ClearAction? || w.SetAction?
    ensures Commit(w, c).db.rows == c.db.rows && Commit(w, c).turn == c.turn
  {
  }

  /** Once the turn's row is the same on both sides, so is everything that follows. */
  lemma {:induction false} SameLeafJob(c: Core, c': Core, todo: seq<Write>, resume: bool)
    requires JobOk(c, todo, resume) && R.Closes(todo) && c.turn.Some? && HasRow(c.db.rows, c.turn.value.row)
    requires c'.turn == c.turn && SameLeaf(c.db.rows, c'.db.rows) && c.db.action == c.action && c'.db.action == c'.action
    requires c'.action == c.action || (c'.action.None? && todo != [] && todo[0].ClearAction?)
    ensures JobOk(c', todo, resume)
    decreases |todo|
  {
    SameLeafSafe(c.db, c'.db);
    SameLeafTurn(c.db.rows, c'.db.rows, c.turn.value);
    if todo == [] {
      SameLeafEnd(c, c', resume);
    } else {
      var w := todo[0];
      var d, d' := Commit(w, c), Commit(w, c');
      if w.Snapshot? {
        SameLeafWrites(c, c', w.close);
      } else {
        CommitOnRows(w, c);
        CommitOnRows(w, c');
      }
      ClosesRest(todo);
      SameLeafJob(d, d', todo[1..], resume);
    }
  }

  lemma ClosesRest(todo: seq<Write>)
    requires R.Closes(todo) && todo != []
    ensures R.Closes(todo[1..])
  {
    if todo[0].SetAction? {
      CloseAndClearCloses();
    }
  }

  lemma CloseAndClearCloses()
    ensures R.Closes(CloseAndClear) && R.Closes([])
  {
    assert CloseAndClear[1..] == [ClearAction] && [ClearAction][1..] == [];
    assert R.Closes([]) && R.Closes([ClearAction]) && R.SetsAction([]).None? && R.SetsAction([ClearAction]).None?;
  }

  lemma SameLeafWrites(c: Core, c': Core, close: bool)
    requires CoreOk(c) && c.turn.Some? && HasRow(c.db.rows, c.turn.value.row)
    requires c'.turn == c.turn && SameLeaf(c.db.rows, c'.db.rows)
    ensures var d, d' := Commit(Snapshot(close), c), Commit(Snapshot(close), c');
            && SameLeaf(d.db.rows, d'.db.rows) && d'.turn == d.turn && d.turn.Some? && HasRow(d.db.rows, d.turn.value.row)
            && d.db.action == c.db.action && d.action == c.action && d'.db.action == c'.db.action && d'.action == c'.action
  {
    var t := Closing(c.turn.value, close);
    CommitSnapshot(c, close);
    CommitSnapshot(c', close);
    ClosingTurn(c.db.rows, c.turn.value, close);
    SameLeafSnapshot(c.db.rows, c'.db.rows, t);
    SnapshotRows(c.db.rows, t);
    RowOfLast(WriteSnapshot(c.db.rows, t), t.row);
  }

  lemma SameLeafEnd(c: Core, c': Core, resume: bool)
    requires if resume then RunReady(c) else IdleState(c.db, c.action)
    requires c'.turn == c.turn && SameLeaf(c.db.rows, c'.db.rows) && c'.action == c.action && c'.db.action == c'.action
    ensures if resume then RunReady(c') else IdleState(c'.db, c'.action)
  {
    forall i | 0 <= i < |c'.db.rows| - 1 ensures Quiet(c'.db.rows[i]) {
      assert Shut(c'.db.rows[i]);
    }
  }

  // ---------------------------------------------------------------- beside closed rows

  /** `c'` is `c` with every row closed, and perhaps with the action cleared. */
  ghost predicate ClosedBeside(c: Core, c': Core) {
    && c.turn.Some? && c'.turn == c.turn && TurnOk(c'.db.rows, c.turn.value)
    && Beside(c.db.rows, c'.db.rows) && Closed(c'.db.rows)
    && c.db.action == c.action && c'.db.action == c'.action && (c'.action == c.action || c'.action.None?)
  }

  lemma ClosedCore(c: Core, c': Core)
    requires CoreOk(c) && ClosedBeside(c, c')
    ensures CoreOk(c')
  {
    if c'.db.action.Some? {
      NothingToRestore(c.db.rows, c'.db.rows, c'.db.action.value);
    }
  }

  lemma ClosedEnd(c: Core, c': Core, resume: bool)
    requires CoreOk(c) && ClosedBeside(c, c') && (resume ==> RunReady(c)) && (!resume ==> c'.action.None?)
    ensures if resume then RunReady(c') else IdleState(c'.db, c'.action)
  {
    assert forall i :: 0 <= i < |c'.db.rows| ==> Quiet(c'.db.rows[i]) by {
      forall i | 0 <= i < |c'.db.rows| ensures Quiet(c'.db.rows[i]) {
        assert Shut(c'.db.rows[i]);
      }
    }
    if resume {
      ClosedHasNoAction(c, c');
    }
  }

  /** A turn that found the batch pending holds its calls unanswered, so its row is not closed. */
  lemma ClosedHasNoAction(c: Core, c': Core)
    requires ClosedBeside(c, c') && RunReady(c)
    ensures c'.action.None?
  {
    if c'.action.Some? {
      var a, h, h' := c.action.value, History(Last(c.db.rows)), History(Last(c'.db.rows));
      var k: nat :| BatchAt(h, a, k);
      var i := |c.db.rows| - 1;
      assert Shut(c'.db.rows[i]) && CallIds(History(c.db.rows[i])) == CallIds(History(c'.db.rows[i]));
      PendingIsNotAnswered(h, h', a, k);
      RowOfLast(c'.db.rows, a.row);
    }
  }

  /** What a pending batch holds is not what followed a row that answers its calls. */
  lemma PendingIsNotAnswered(h: seq<Message>, h': seq<Message>, a: Action, k: nat)
    requires BatchAt(h, a, k) && OpenIds(h') == [] && CallIds(h) == CallIds(h') && Retried(h) == Retried(h')
    ensures !Past(h', h)
  {
    assert a.batch[k] in a.batch;
    PendingCall(h, a, k);
    QuietAnswers(h', a.call);
  }

  lemma QuietAnswers(h: seq<Message>, id: CallId)
    requires OpenIds(h) == [] && id in CallIds(h) && id !in Retried(h)
    ensures id in Results(h)
  {
    assert id !in OpenIds(h);
  }

  lemma ClosedWrites(c: Core, c': Core, close: bool)
    requires CoreOk(c) && ClosedBeside(c, c')
    ensures var d, d' := Commit(Snapshot(close), c), Commit(Snapshot(close), c');
            && SameLeaf(d.db.rows, d'.db.rows) && d'.turn == d.turn && d.turn.Some? && HasRow(d.db.rows, d.turn.value.row)
            && d.db.action == c.db.action && d.action == c.action && d'.db.action == c'.db.action && d'.action == c'.action
  {
    var t := Closing(c.turn.value, close);
    CommitSnapshot(c, close);
    CommitSnapshot(c', close);
    ClosingTurn(c.db.rows, c.turn.value, close);
    ClosingTurn(c'.db.rows, c.turn.value, close);
    BothWritten(c.db.rows, c'.db.rows, t);
    SnapshotRows(c.db.rows, t);
    RowOfLast(WriteSnapshot(c.db.rows, t), t.row);
  }

  /** The rest of a turn's writes is as safe beside closed rows as it was, unless it sets
      calls pending before it has saved them. */
  lemma {:induction false} ClosedJob(c: Core, c': Core, todo: seq<Write>, resume: bool)
    requires JobOk(c, todo, resume) && R.Closes(todo) && ClosedBeside(c, c')
    requires R.FirstWrite(todo).Some? ==> R.FirstWrite(todo).value.Snapshot?
    requires todo == [] && !resume ==> c'.action.None?
    ensures JobOk(c', todo, resume)
    decreases |todo|
  {
    ClosedCore(c, c');
    if todo == [] {
      ClosedEnd(c, c', resume);
    } else {
      var w := todo[0];
      var d, d' := Commit(w, c), Commit(w, c');
      ClosesRest(todo);
      if w.Snapshot? {
        ClosedWrites(c, c', w.close);
        SameLeafJob(d, d', todo[1..], resume);
      } else {
        CommitOnRows(w, c);
        CommitOnRows(w, c');
        ClosedJob(d, d', todo[1..], resume);
      }
    }
  }

  // ---------------------------------------------------------------- the second write of a repair

  lemma {:induction false} OnlyClears(c: Core, todo: seq<Write>)
    requires JobOk(c, todo, false) && R.Closes(todo) && R.FirstWrite(todo).None? && todo != []
    ensures c.db.rows == [] || Quiet(Last(c.db.rows))
    decreases |todo|
  {
    CommitOnRows(todo[0], c);
    if |todo| > 1 {
      OnlyClears(Commit(todo[0], c), todo[1..]);
    } else {
      assert todo[1..] == [];
    }
  }

  lemma RepairedTurn(rows: seq<Row>, t: Turn)
    requires RowsOk(rows) && TurnOk(rows, t)
    requires HasRow(rows, t.row) ==> !R.Spoils(Last(rows), t)
    ensures TurnOk(RepairRows(rows, {}), t)
  {
    var r := RepairRows(rows, {});
    RepairedBeside(rows);
    BesideHeads(rows, r);
    SameHeadsRow(rows, r, t.row);
    if HasRow(rows, t.row) {
      RepairedPast(Last(rows), TurnMessages(t));
    }
  }

  /** The core of a sound session, or the one whose action the repair has cleared. */
  lemma BeforeClearing(s: R.State) returns (c: Core)
    requires R.RepairInv(s) && s.turns.Up? && s.turns.job.Busy?
    ensures JobOk(c, s.turns.job.todo, s.turns.job.resume) && c.turn == s.turns.job.turn && c.db.rows == s.turns.db.rows
    ensures c.db.action == c.action && s.turns.db.action == s.turns.action && (s.turns.action == c.action || s.turns.action.None?)
    ensures R.Shaped(Up(c.db, c.action, s.turns.job))
  {
    var t := s.turns;
    if R.Sound(t) {
      c := Core(t.db, t.action, t.job.turn);
    } else {
      var a :| R.Sound(R.WithAction(t, a));
      c := Core(R.WithAction(t, a).db, Some(a), t.job.turn);
    }
  }

  lemma LeafOfTurn(rows: seq<Row>, t: Turn)
    requires TurnOk(rows, t) && HasRow(rows, t.row)
    ensures RowOf(rows, t.row) == Some(Last(rows))
  {
    RowOfLast(rows, t.row);
  }

  lemma RepairedClosingJob(s: R.State, c: Core)
    requires s.turns.Up? && s.turns.job.Busy? && s.repairing && !R.Harmful(s) && CoreOk(c)
    requires JobOk(c, s.turns.job.todo, s.turns.job.resume) && c.turn == s.turns.job.turn && c.db.rows == s.turns.db.rows
    requires c.db.action == c.action && s.turns.db.action == s.turns.action && (s.turns.action == c.action || s.turns.action.None?)
    requires s.turns.job.todo != [] || s.turns.job.resume
    requires c.turn.Some? && R.ClosingShape(c.db.rows, c.turn.value, s.turns.job.todo)
    ensures JobOk(Core(s.turns.db.(rows := RepairRows(c.db.rows, {})), s.turns.action, c.turn), s.turns.job.todo, s.turns.job.resume)
  {
    var t, todo, resume := c.turn.value, s.turns.job.todo, s.turns.job.resume;
    var c' := Core(s.turns.db.(rows := RepairRows(c.db.rows, {})), s.turns.action, c.turn);
    if HasRow(c.db.rows, t.row) {
      LeafOfTurn(c.db.rows, t);
      if R.FirstWrite(todo).None? && !resume {
        OnlyClears(c, todo);
      }
    } else if R.FirstWrite(todo).Some? && R.FirstWrite(todo).value.SetAction? {
      RowOfLast(c.db.rows, t.row);
    }
    FirstIsSnapshot(todo);
    RepairedTurn(c.db.rows, t);
    RepairedBeside(c.db.rows);
    ClosedJob(c, c', todo, resume);
  }

  lemma {:induction false} FirstIsSnapshot(todo: seq<Write>)
    requires R.Closes(todo)
    ensures R.FirstWrite(todo).Some? ==> R.FirstWrite(todo).value.Snapshot? || R.FirstWrite(todo).value.SetAction?
  {
    if todo != [] && todo[0].ClearAction? {
      FirstIsSnapshot(todo[1..]);
    }
  }
}
