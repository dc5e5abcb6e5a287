/** Runs of `HostActions`: every step keeps the session safe, reloads are safe after a
    crash at any write, results are final, and a batch is answered one call at a time. */
module HostActionRuns {
  import opened Basics
  import opened Transcript
  import opened RowMessages
  import opened RoundTrip
  import opened CallResults
  import opened ResolvedReturns
  import opened SessionRows
  import opened HostActions
  import opened HostActionInvariant
  import opened HostActionSafety

  // ---------------------------------------------------------------- starting a job

  lemma ReplaceLast(rows: seq<Row>, row: Row)
    requires RowsOk(rows) && rows != [] && Last(rows).id == row.id && RowOk(row)
    ensures RowsOk(Replace(rows, row)) && Last(Replace(rows, row)) == row
    ensures forall i :: 0 <= i < |rows| - 1 ==> Replace(rows, row)[i] == rows[i]
  {
    forall i | 0 <= i < |rows| - 1 ensures rows[i].id != row.id {
      assert rows[i].id != rows[|rows| - 1].id;
    }
  }

  lemma AbandonedAreAnswered(tools: seq<Tool>, ids: set<CallId>, answer: Answer)
    ensures forall t :: t in ResolveTools(tools, Only(ids), answer) && t.id in ids ==> t.answer.Some?
  {
    var r := ResolveTools(tools, Only(ids), answer);
    forall t | t in r && t.id in ids ensures t.answer.Some? {
      var i :| 0 <= i < |r| && r[i] == t;
      assert r[i] == ResolveTool(tools[i], Only(ids), answer);
    }
  }

  /** Superseding the pending batch on its row leaves no call of the row open. */
  lemma SupersedeRow(row: Row, a: Action, k: nat, status: string)
    requires RowOk(row) && row.role == Assistant && BatchAt(History(row), a, k)
    ensures AnyId(ToolsOf(row.segments), BatchIds(a))
    ensures var r := ResolveRow(row, Only(BatchIds(a)), AbandonedAnswer(status));
            RowOk(r) && Quiet(r) && r.id == row.id && r.role == Assistant
            && forall t :: t in ToolsOf(r.segments) && t.id == a.call ==> t.answer.Some?
  {
    var scope := Only(BatchIds(a));
    var tools := ToolsOf(row.segments);
    AgreeIds(History(row), row.segments);
    assert a.call in a.batch;
    var i :| 0 <= i < |tools| && Ids(tools)[i] == a.call;
    AnyIdMember(tools, i, BatchIds(a));
    ResolveRowKeeps(row, scope, AbandonedAnswer(status));
    var open := OpenIds(History(ResolveRow(row, scope, AbandonedAnswer(status))));
    assert forall id :: id in a.batch[k..] ==> id in a.batch;
    NoMembers(open);
    ResolveToolsOf(row.segments, scope, AbandonedAnswer(status));
    AbandonedAreAnswered(tools, BatchIds(a), AbandonedAnswer(status));
  }

  lemma AnsweredNotRestorable(rows: seq<Row>, a: Action)
    requires rows != [] && Last(rows).id == a.row
    requires forall t :: t in ToolsOf(Last(rows).segments) && t.id == a.call ==> t.answer.Some?
    ensures !Restorable(rows, a)
  {
    RowOfLast(rows, a.row);
  }

  lemma SupersedeLast(rows: seq<Row>, a: Action, k: nat, status: string)
    requires RowsOk(rows) && rows != [] && Last(rows).id == a.row && Last(rows).role == Assistant
    requires BatchAt(History(Last(rows)), a, k)
    ensures var r := WriteSupersede(rows, a.row, BatchIds(a), status);
            && RowsOk(r) && |r| == |rows| && !Restorable(r, a) && Last(r).id == a.row && Quiet(Last(r))
            && (forall i :: 0 <= i < |rows| - 1 ==> r[i] == rows[i])
  {
    var row := Last(rows);
    RowOfLast(rows, a.row);
    SupersedeRow(row, a, k, status);
    var resolved := ResolveRow(row, Only(BatchIds(a)), AbandonedAnswer(status));
    ReplaceLast(rows, resolved);
    AnsweredNotRestorable(Replace(rows, resolved), a);
  }

  /** Superseding the pending batch leaves nothing open and nothing to restore. */
  lemma SupersedePending(db: Db, a: Action, status: string)
    requires DbSafe(db) && IdleState(db, Some(a))
    ensures var rows := WriteSupersede(db.rows, a.row, BatchIds(a), status);
            && RowsOk(rows) && |rows| == |db.rows| && !Restorable(rows, a)
            && (forall i :: 0 <= i < |rows| ==> rows[i].id == db.rows[i].id && Quiet(rows[i]))
  {
    var k: nat :| BatchAt(History(Last(db.rows)), a, k);
    SupersedeLast(db.rows, a, k, status);
    AllRowsQuiet(db.rows, WriteSupersede(db.rows, a.row, BatchIds(a), status));
  }

  lemma AllRowsQuiet(rows: seq<Row>, r: seq<Row>)
    requires OthersQuiet(rows) && |r| == |rows| && rows != [] && Quiet(Last(r)) && Last(r).id == Last(rows).id
    requires forall i :: 0 <= i < |rows| - 1 ==> r[i] == rows[i]
    ensures forall i :: 0 <= i < |r| ==> r[i].id == rows[i].id && Quiet(r[i])
  {
  }

  /** All of a session's calls closed, nothing pending. */
  ghost predicate AllQuiet(c: Core) {
    && CoreOk(c) && c.db.action == None && c.action == None
    && forall i :: 0 <= i < |c.db.rows| ==> Quiet(c.db.rows[i])
  }

  function AfterAbandon(c: Core, status: string): Core {
    if c.action.None? then c
    else Commit(ClearAction, Commit(AbandonWrites(c.action, status)[0], c))
  }

  ghost predicate FreshTurn(c: Core) {
    c.turn.Some? ==> TurnOk([], c.turn.value) && !HasRow(c.db.rows, c.turn.value.row)
  }

  ghost predicate SameIds(a: seq<Row>, b: seq<Row>) {
    |a| == |b| && forall i :: 0 <= i < |a| ==> a[i].id == b[i].id
  }

  lemma SupersededCore(c: Core, status: string)
    requires DbSafe(c.db) && IdleState(c.db, c.action) && c.action.Some? && FreshTurn(c)
    ensures var s := Commit(AbandonWrites(c.action, status)[0], c);
            && CoreOk(c) && CoreOk(s) && s.db.action == s.action == c.action && s.turn == c.turn
            && SameIds(c.db.rows, s.db.rows)
            && AllQuiet(Commit(ClearAction, s))
  {
    SupersedePending(c.db, c.action.value, status);
    var s := Commit(AbandonWrites(c.action, status)[0], c);
    SameIdsHasRow(c.db.rows, s.db.rows);
    ClearStep(s);
  }

  lemma AbandonSome(c: Core, status: string, rest: seq<Write>, resume: bool)
    requires DbSafe(c.db) && IdleState(c.db, c.action) && c.action.Some? && FreshTurn(c)
    ensures var quiet := AfterAbandon(c, status);
            && AllQuiet(quiet) && quiet.turn == c.turn && SameIds(c.db.rows, quiet.db.rows)
            && (JobOk(quiet, rest, resume) ==> JobOk(c, AbandonWrites(c.action, status) + rest, resume))
  {
    SupersededCore(c, status);
    if JobOk(AfterAbandon(c, status), rest, resume) {
      TwoWrites(c, AbandonWrites(c.action, status)[0], ClearAction, rest, resume);
      assert AbandonWrites(c.action, status) == [AbandonWrites(c.action, status)[0], ClearAction];
    }
  }

  lemma AbandonJob(c: Core, status: string, rest: seq<Write>, resume: bool)
    requires DbSafe(c.db) && IdleState(c.db, c.action) && FreshTurn(c)
    ensures var quiet := AfterAbandon(c, status);
            && AllQuiet(quiet) && quiet.turn == c.turn && SameIds(c.db.rows, quiet.db.rows)
            && (JobOk(quiet, rest, resume) ==> JobOk(c, AbandonWrites(c.action, status) + rest, resume))
  {
    if c.action.Some? {
      AbandonSome(c, status, rest, resume);
    } else {
      assert AbandonWrites(c.action, status) + rest == rest;
      forall i | 0 <= i < |c.db.rows| ensures Quiet(c.db.rows[i]) {
        if i == |c.db.rows| - 1 { assert c.db.rows[i] == Last(c.db.rows); }
      }
    }
  }

  lemma SameIdsHasRow(a: seq<Row>, b: seq<Row>)
    requires SameIds(a, b)
    ensures forall id :: HasRow(a, id) <==> HasRow(b, id)
  {
    forall id ensures HasRow(a, id) <==> HasRow(b, id) {
      if HasRow(a, id) {
        var i :| 0 <= i < |a| && a[i].id == id;
        assert b[i].id == id;
      }
      if HasRow(b, id) {
        var i :| 0 <= i < |b| && b[i].id == id;
        assert a[i].id == id;
      }
    }
  }

  lemma QuietCoreReady(c: Core)
    requires AllQuiet(c)
    ensures IdleState(c.db, c.action)
    ensures c.turn.Some? && c.turn.value.answers.None? ==> RunReady(c)
  {
  }

  lemma AppendRow(rows: seq<Row>, row: Row)
    requires RowsOk(rows) && RowOk(row) && !HasRow(rows, row.id)
    ensures RowsOk(rows + [row])
    ensures forall id :: HasRow(rows + [row], id) ==> HasRow(rows, id) || id == row.id
  {
    var r := rows + [row];
    forall i | 0 <= i < |rows| ensures r[i].id != row.id {
      assert r[i] == rows[i];
    }
    forall id | HasRow(r, id) ensures HasRow(rows, id) || id == row.id {
      var i :| 0 <= i < |r| && r[i].id == id;
      if i < |rows| { assert rows[i].id == id; }
    }
  }

  lemma CreatedCore(c: Core, row: Row)
    requires AllQuiet(c) && FreshTurn(c) && (c.turn.Some? ==> c.turn.value.row != row.id)
    requires !HasRow(c.db.rows, row.id) && row.role != Assistant
    ensures AllQuiet(Commit(Create(row), c))
  {
    var rows := c.db.rows + [row];
    AppendRow(c.db.rows, row);
    assert CallIds([]) == [];
    assert Quiet(row);
    forall i | 0 <= i < |rows| ensures Quiet(rows[i]) {
      if i < |c.db.rows| { assert rows[i] == c.db.rows[i]; }
    }
  }

  /** A new message on a quiet session: a user's, which a turn answers, or the host's. */
  lemma CreateStep(c: Core, row: Row, resume: bool)
    requires AllQuiet(c) && FreshTurn(c) && (c.turn.Some? ==> c.turn.value.answers.None? && c.turn.value.row != row.id)
    requires !HasRow(c.db.rows, row.id) && row.role != Assistant && (resume ==> c.turn.Some?)
    ensures JobOk(c, [Create(row), SaveState], resume)
  {
    CreatedCore(c, row);
    SavedMessage(Commit(Create(row), c), resume);
    TwoWrites(c, Create(row), SaveState, [], resume);
    assert [Create(row), SaveState] + [] == [Create(row), SaveState];
  }

  lemma SavedMessage(created: Core, resume: bool)
    requires AllQuiet(created) && (created.turn.Some? ==> created.turn.value.answers.None?) && (resume ==> created.turn.Some?)
    ensures CoreOk(created) && JobOk(Commit(SaveState, created), [], resume)
  {
    assert Commit(SaveState, created) == created;
    QuietCoreReady(created);
  }

  lemma MessageJob(c: Core, row: Row)
    requires DbSafe(c.db) && IdleState(c.db, c.action) && FreshTurn(c) && c.turn.Some?
    requires c.turn.value.answers.None? && c.turn.value.row != row.id
    requires !HasRow(c.db.rows, row.id) && row.role == Role.User
    ensures JobOk(c, AbandonWrites(c.action, "superseded") + [Create(row), SaveState], true)
  {
    AbandonJob(c, "superseded", [Create(row), SaveState], true);
    var quiet := AfterAbandon(c, "superseded");
    SameIdsHasRow(c.db.rows, quiet.db.rows);
    CreateStep(quiet, row, true);
  }

  /** A host message waits for no call, so nothing has to be superseded. */
  lemma HostJob(c: Core, row: Row)
    requires DbSafe(c.db) && IdleState(c.db, c.action) && c.action.None? && c.turn.None?
    requires !HasRow(c.db.rows, row.id) && row.role == Role.Host
    ensures JobOk(c, [Create(row), SaveState], false)
  {
    AbandonJob(c, "superseded", [Create(row), SaveState], false);
    CreateStep(c, row, false);
  }

  // ---------------------------------------------------------------- continuations

  lemma {:induction false} WithoutAppend(a: seq<CallId>, b: seq<CallId>, closed: set<CallId>)
    ensures Without(a + b, closed) == Without(a, closed) + Without(b, closed)
  {
    if b == [] {
      assert a + b == a;
    } else {
      WithoutAppend(a, b[..|b| - 1], closed);
      AppendFront(a, b);
    }
  }

  ghost predicate KnownCall(id: CallId, tools: seq<Tool>, results: map<CallId, Result>) {
    Find(tools, id).Some? && (Find(tools, id).value.answer.Some? <==> id in results)
  }

  lemma {:induction false} UnansweredIsWithout(batch: seq<CallId>, call: CallId, tools: seq<Tool>, results: map<CallId, Result>)
    requires forall id :: id in batch ==> KnownCall(id, tools, results)
    ensures Unanswered(batch, call, tools) == Without(batch, results.Keys + {call})
  {
    if batch != [] {
      assert KnownCall(batch[|batch| - 1], tools, results);
      UnansweredIsWithout(batch[..|batch| - 1], call, tools, results);
    }
  }

  lemma DistinctTail(ids: seq<CallId>, k: nat)
    requires Distinct(ids) && k <= |ids|
    ensures Distinct(ids[k..])
  {
    forall i, j | 0 <= i < j < |ids[k..]| ensures ids[k..][i] != ids[k..][j] {
      assert ids[k + i] != ids[k + j];
    }
  }

  lemma BatchKnown(h: seq<Message>, segments: seq<Segment>, batch: seq<CallId>)
    requires Agree(h, segments)
    requires forall id :: id in batch ==> id in CallIds(h) && id !in Retried(h)
    ensures forall id :: id in batch ==> KnownCall(id, ToolsOf(segments), Results(h))
  {
    var tools := ToolsOf(segments);
    AgreeIds(h, segments);
    forall id | id in batch ensures KnownCall(id, tools, Results(h)) {
      var i :| 0 <= i < |tools| && Ids(tools)[i] == id;
      assert tools[i] in tools && tools[i].id == id;
      assert MatchesTool(Find(tools, id).value, Results(h));
    }
  }

  /** Of an ordered batch, closing the answered calls and the pending one leaves the rest. */
  lemma RestOfBatch(batch: seq<CallId>, k: nat, answered: set<CallId>)
    requires Distinct(batch) && k < |batch|
    requires forall i :: 0 <= i < k ==> batch[i] in answered
    requires forall i :: k <= i < |batch| ==> batch[i] !in answered
    ensures Without(batch, answered + {batch[k]}) == batch[k + 1..]
  {
    var before, rest, closed := batch[..k], batch[k..], answered + {batch[k]};
    assert batch == before + rest;
    WithoutAppend(before, rest, closed);
    WithoutAll(before, closed);
    WithoutSame(rest, closed, {batch[k]});
    DistinctTail(batch, k);
    WithoutFirst(rest, batch[k]);
    assert rest[1..] == batch[k + 1..];
  }

  /** The calls of a batch that still wait behind the pending one. */
  lemma RemainingBatch(rows: seq<Row>, a: Action, k: nat)
    requires RowsOk(rows) && rows != [] && Last(rows).id == a.row && Last(rows).role == Assistant
    requires BatchAt(History(Last(rows)), a, k)
    ensures Remaining(rows, a) == a.batch[k + 1..]
  {
    var h := History(Last(rows));
    RowOfLast(rows, a.row);
    BatchKnown(h, Last(rows).segments, a.batch);
    UnansweredIsWithout(a.batch, a.call, ToolsOf(Last(rows).segments), Results(h));
    RestOfBatch(a.batch, k, Results(h).Keys);
  }

  lemma AcceptedOne(p: RequestPart)
    requires p.ReturnPart?
    ensures var m := [Request([p], [])];
            CallIds(m) == [] && Retried(m) == {} && Results(m) == map[p.id := Result(p.output, p.outcome)]
  {
    RequestHistory(Request([p], []));
    ResultsOfSnoc([], p);
    assert [] + [p] == [p];
  }

  lemma AppendAccepted(h: seq<Message>, p: RequestPart)
    requires p.ReturnPart?
    ensures var m := h + [Request([p], [])];
            && CallIds(m) == CallIds(h) && Retried(m) == Retried(h)
            && Results(m) == Results(h)[p.id := Result(p.output, p.outcome)]
  {
    HistoryAppend(h, [Request([p], [])]);
    AcceptedOne(p);
    assert CallIds(h) + [] == CallIds(h);
  }

  /** Closing the pending call leaves the rest of the batch open. */
  lemma RestStaysOpen(ids: seq<CallId>, closed: set<CallId>, a: Action, k: nat)
    requires k < |a.batch| && a.batch[k] == a.call && Distinct(a.batch) && Without(ids, closed) == a.batch[k..]
    ensures Without(ids, closed + {a.call}) == a.batch[k + 1..]
  {
    WithoutTwice(ids, closed, {a.call});
    DistinctTail(a.batch, k);
    WithoutFirst(a.batch[k..], a.call);
    assert a.batch[k..][1..] == a.batch[k + 1..];
  }

  lemma PastOfAccepted(h: seq<Message>, m: seq<Message>, call: CallId, r: Result)
    requires CallIds(m) == CallIds(h) && Retried(m) == Retried(h) && Results(m) == Results(h)[call := r] && call !in Results(h)
    requires call !in Retried(h)
    ensures Past(h, m)
  {
  }

  /** The accepted result closes the pending call and nothing else. */
  lemma AcceptedHistory(h: seq<Message>, a: Action, k: nat, output: string, outcome: Outcome)
    requires BatchAt(h, a, k)
    ensures var m := h + [Request([ReturnPart(a.call, a.name, output, outcome)], [])] + [];
            && CallIds(m) == CallIds(h) && Retried(m) == Retried(h)
            && Results(m) == Results(h)[a.call := Result(output, outcome)]
            && a.call !in Results(h) && Past(h, m) && OpenIds(m) == a.batch[k + 1..]
  {
    var p := ReturnPart(a.call, a.name, output, outcome);
    var m := h + [Request([p], [])];
    assert m + [] == m;
    AppendAccepted(h, p);
    PendingCall(h, a, k);
    PastOfAccepted(h, m, a.call, Result(output, outcome));
    assert Results(m).Keys + Retried(m) == (Results(h).Keys + Retried(h)) + {a.call};
    RestStaysOpen(CallIds(h), Results(h).Keys + Retried(h), a, k);
  }

  lemma PendingCall(h: seq<Message>, a: Action, k: nat)
    requires BatchAt(h, a, k)
    ensures a.call !in Results(h) && a.call !in Retried(h)
  {
    assert a.batch[k] !in Results(h) && a.batch[k] in a.batch;
  }

  lemma ContinueTurnOk(db: Db, a: Action, k: nat, output: string, outcome: Outcome)
    requires DbSafe(db) && IdleState(db, Some(a)) && BatchAt(History(Last(db.rows)), a, k)
    ensures RowOf(db.rows, a.row) == Some(Last(db.rows))
    ensures var t := ContinueTurn(db.rows, a, output, outcome);
            && TurnOk(db.rows, t) && OpenIds(TurnMessages(t)) == a.batch[k + 1..]
            && TurnMessages(t) == History(Last(db.rows)) + [Request([ReturnPart(a.call, a.name, output, outcome)], [])] + []
  {
    RowOfLast(db.rows, a.row);
    AcceptedHistory(History(Last(db.rows)), a, k, output, outcome);
    CountZero(RequestParts(History(Last(db.rows))), a.call);
    AgreeIds(History(Last(db.rows)), Last(db.rows).segments);
  }

  lemma ContinueCore(c: Core, a: Action, k: nat, output: string, outcome: Outcome)
    requires DbSafe(c.db) && IdleState(c.db, c.action) && c.action == Some(a)
    requires BatchAt(History(Last(c.db.rows)), a, k) && RowOf(c.db.rows, a.row).Some?
    requires c.turn == Some(ContinueTurn(c.db.rows, a, output, outcome))
    ensures CoreOk(c) && ActionSurvives(c, false) && OpenIds(TurnMessages(c.turn.value)) == a.batch[k + 1..]
    ensures forall i :: 0 <= i < |c.db.rows| && c.db.rows[i].id != c.turn.value.row ==> Quiet(c.db.rows[i])
  {
    ContinueTurnOk(c.db, a, k, output, outcome);
    AcceptedHistory(History(Last(c.db.rows)), a, k, output, outcome);
    forall i | 0 <= i < |c.db.rows| && c.db.rows[i].id != c.turn.value.row ensures Quiet(c.db.rows[i]) {
      assert i < |c.db.rows| - 1;
    }
  }

  lemma ContinueJob(c: Core, a: Action, k: nat, output: string, outcome: Outcome)
    requires DbSafe(c.db) && IdleState(c.db, c.action) && c.action == Some(a)
    requires BatchAt(History(Last(c.db.rows)), a, k) && RowOf(c.db.rows, a.row).Some?
    requires c.turn == Some(ContinueTurn(c.db.rows, a, output, outcome))
    ensures var remaining := Remaining(c.db.rows, a);
            && remaining == a.batch[k + 1..]
            && JobOk(c, SaveAndClear + (if remaining == [] then [] else [SetAction(NextAction(c.db.rows, a))]),
                     remaining == [] && !a.hostTools)
  {
    RemainingBatch(c.db.rows, a, k);
    ContinueCore(c, a, k, output, outcome);
    var saved := Commit(ClearAction, Commit(Snapshot(false), c));
    if a.batch[k + 1..] == [] {
      SaveAndClearStep(c, false, [], !a.hostTools);
      SavedQuietly(saved, !a.hostTools);
    } else {
      var next := NextAction(c.db.rows, a);
      SaveAndClearStep(c, false, [SetAction(next)], false);
      ContinueNext(c, saved, a, k, next, output, outcome);
    }
  }

  lemma ContinueNext(c: Core, saved: Core, a: Action, k: nat, next: Action, output: string, outcome: Outcome)
    requires c.db.rows != [] && BatchAt(History(Last(c.db.rows)), a, k) && k + 1 < |a.batch|
    requires RowOf(c.db.rows, a.row) == Some(Last(c.db.rows))
    requires c.turn == Some(ContinueTurn(c.db.rows, a, output, outcome)) && saved.turn == c.turn
    requires Saved(saved, a.batch[k + 1..])
    requires next.call == a.batch[k + 1] && next.batch == a.batch && next.row == a.row
    ensures JobOk(saved, [SetAction(next)], false)
  {
    NextIsPending(History(Last(c.db.rows)), c.turn.value, a, k, next, output, outcome);
    SetStep(saved, next, k + 1);
    OneWrite(saved, SetAction(next));
  }

  lemma OneWrite(c: Core, w: Write)
    requires CoreOk(c) && CoreOk(Commit(w, c)) && IdleState(Commit(w, c).db, Commit(w, c).action)
    ensures JobOk(c, [w], false)
  {
    JobStep(c, w, [], false);
    assert [w] + [] == [w];
  }

  lemma NextIsPending(h: seq<Message>, t: Turn, a: Action, k: nat, next: Action, output: string, outcome: Outcome)
    requires BatchAt(h, a, k) && k + 1 < |a.batch| && next.call == a.batch[k + 1] && next.batch == a.batch
    requires TurnMessages(t) == h + [Request([ReturnPart(a.call, a.name, output, outcome)], [])] + []
    ensures BatchAt(StoredMessages(t), next, k + 1)
  {
    AcceptedHistory(h, a, k, output, outcome);
    NextBatch(h, TurnMessages(t), a, k, next, output, outcome);
    StoredSame(t);
  }

  lemma NextBatch(h: seq<Message>, m: seq<Message>, a: Action, k: nat, next: Action, output: string, outcome: Outcome)
    requires BatchAt(h, a, k) && k + 1 < |a.batch|
    requires next.call == a.batch[k + 1] && next.batch == a.batch
    requires CallIds(m) == CallIds(h) && Retried(m) == Retried(h) && OpenIds(m) == a.batch[k + 1..]
    requires Results(m) == Results(h)[a.call := Result(output, outcome)]
    ensures BatchAt(m, next, k + 1)
  {
    forall i | k + 1 <= i < |a.batch| ensures a.batch[i] !in Results(m) {
      assert a.batch[k] != a.batch[i];
    }
  }

  lemma SteerReady(c: Core, reply: MessageId)
    requires DbSafe(c.db) && IdleState(c.db, c.action) && c.db.rows != [] && !HasRow(c.db.rows, reply)
    requires var leaf := Last(c.db.rows);
             c.turn == Some(if leaf.role == Assistant then NewTurn(leaf.id, None, History(leaf))
                            else NewTurn(reply, Some(leaf.id), []))
    ensures JobOk(c, [], true)
  {
    var t, leaf := c.turn.value, Last(c.db.rows);
    assert TurnMessages(t) == t.prior;
    assert CallIds([]) == [];
    if leaf.role == Assistant {
      AgreeIds(History(leaf), leaf.segments);
      assert RowOk(leaf);
    }
  }

  // ---------------------------------------------------------------- repairs and loads

  lemma RepairedRows(rows: seq<Row>, keep: set<CallId>)
    requires RowsOk(rows)
    ensures RowsOk(RepairRows(rows, keep))
    ensures forall i :: 0 <= i < |rows| ==>
              forall id :: id in OpenIds(History(RepairRows(rows, keep)[i])) <==> id in OpenIds(History(rows[i])) && id in keep
  {
    var r := RepairRows(rows, keep);
    forall i | 0 <= i < |rows|
      ensures RowOk(r[i]) && r[i].id == rows[i].id
      ensures forall id :: id in OpenIds(History(r[i])) <==> id in OpenIds(History(rows[i])) && id in keep
    {
      RepairRowKeeps(rows[i], keep);
    }
  }

  lemma RepairedQuiet(rows: seq<Row>)
    requires RowsOk(rows)
    ensures forall i :: 0 <= i < |rows| ==> Quiet(RepairRows(rows, {})[i])
  {
    RepairedRows(rows, {});
    forall i | 0 <= i < |rows| ensures Quiet(RepairRows(rows, {})[i]) {
      NoMembers(OpenIds(History(RepairRows(rows, {})[i])));
    }
  }

  lemma {:induction false} KnownAll(batch: seq<CallId>, tools: seq<Tool>)
    requires forall id :: id in batch ==> id in Ids(tools)
    ensures KnownIds(batch, tools) == batch
  {
    if batch != [] {
      var id := batch[|batch| - 1];
      assert id in batch;
      var i :| 0 <= i < |tools| && Ids(tools)[i] == id;
      assert tools[i] in tools && tools[i].id == id;
      KnownAll(batch[..|batch| - 1], tools);
    }
  }

  /** In a safe database an action that fits is restored as it was stored. */
  lemma RestoredWhole(db: Db)
    requires DbSafe(db)
    ensures Restore(db) == if db.action.Some? && Restorable(db.rows, db.action.value) then db.action else None
  {
    if db.action.Some? && Restorable(db.rows, db.action.value) {
      var a, row := db.action.value, Last(db.rows);
      var k: nat :| PrefixAt(History(row), a, k);
      RowOfLast(db.rows, a.row);
      assert RowOk(row);
      AgreeIds(History(row), row.segments);
      KnownAll(a.batch, ToolsOf(row.segments));
      assert a.call in a.batch;
    }
  }

  /** The batch of the restored action is open from position `k` on, and nothing else is. */
  lemma RestoredBatch(row: Row, a: Action, k: nat)
    requires RowOk(row) && row.role == Assistant && PrefixAt(History(row), a, k)
    ensures var r := RepairRow(row, InBatch(a));
            BatchAt(History(r), a, k) && RowOk(r) && r.id == row.id && r.role == Assistant
  {
    RepairRowKeeps(row, InBatch(a));
    var h, h' := History(row), History(RepairRow(row, InBatch(a)));
    forall i | k <= i < |a.batch| ensures a.batch[i] !in Results(h') {
      assert a.batch[i] in a.batch && a.batch[i] in OpenIds(h);
      assert a.batch[i] in OpenIds(h');
    }
    OpenInOrder(h', a, k);
  }

  /** Open calls that are all of the batch are the rest of it, in order. */
  lemma OpenInOrder(h: seq<Message>, a: Action, k: nat)
    requires PrefixAt(h, a, k) && forall id :: id in OpenIds(h) ==> id in a.batch
    ensures OpenIds(h) == a.batch[k..]
  {
    var rest := a.batch[k..];
    var keep, closed := (set id | id in rest), Results(h).Keys + Retried(h);
    forall id | id in CallIds(h) ensures id in keep <==> id !in closed {
      RestIsOpen(h, a, k, id);
    }
    WithinWithout(CallIds(h), keep, closed);
    assert forall id :: id in rest ==> id in a.batch;
    WithinWithin(CallIds(h), InBatch(a), keep);
    TailWithin(a.batch, k);
  }

  lemma RestIsOpen(h: seq<Message>, a: Action, k: nat, id: CallId)
    requires PrefixAt(h, a, k) && id in CallIds(h) && (id in OpenIds(h) ==> id in a.batch)
    ensures id in a.batch[k..] <==> id in OpenIds(h)
  {
    if id in a.batch[k..] {
      var i :| 0 <= i < |a.batch[k..]| && a.batch[k..][i] == id;
      assert a.batch[k + i] !in Results(h) && a.batch[k + i] in a.batch;
    }
  }

  lemma TailWithin(ids: seq<CallId>, k: nat)
    requires Distinct(ids) && k <= |ids|
    ensures Within(ids, set id | id in ids[k..]) == ids[k..]
  {
    assert ids == ids[..k] + ids[k..];
    SecondWithin(ids[..k], ids[k..], set id | id in ids[k..]);
  }

  lemma SecondWithin(a: seq<CallId>, b: seq<CallId>, keep: set<CallId>)
    requires Distinct(a + b) && keep == set id | id in b
    ensures Within(a + b, keep) == b
  {
    DistinctSplit(a, b);
    WithinAppend(a, b, keep);
    WithinAll(b, keep);
    WithinNone(a, keep);
    assert [] + b == b;
  }

  lemma {:induction false} RepairedRowOf(rows: seq<Row>, keep: set<CallId>, id: MessageId)
    ensures RowOf(RepairRows(rows, keep), id)
         == if RowOf(rows, id).None? then None else Some(RepairRow(RowOf(rows, id).value, keep))
  {
    if rows != [] {
      RepairedRowOf(rows[..|rows| - 1], keep, id);
      var r := RepairRows(rows, keep);
      assert r[..|r| - 1] == RepairRows(rows[..|rows| - 1], keep);
    }
  }

  lemma {:induction false} RepairedKnown(batch: seq<CallId>, row: Row, keep: set<CallId>)
    ensures KnownIds(batch, ToolsOf(RepairRow(row, keep).segments)) == KnownIds(batch, ToolsOf(row.segments))
  {
    if batch != [] {
      RepairedKnown(batch[..|batch| - 1], row, keep);
      RepairRowFind(row, keep, batch[|batch| - 1]);
    }
  }

  /** The repair of a load does not change what the load restores. */
  lemma RestoreAfterRepair(db: Db)
    ensures Restore(LoadRows(db)) == Restore(db)
  {
    if db.action.Some? {
      var a, keep := db.action.value, Keep(Restore(db));
      RepairedRowOf(db.rows, keep, a.row);
      if RowOf(db.rows, a.row).Some? {
        var row := RowOf(db.rows, a.row).value;
        RepairRowFind(row, keep, a.call);
        RepairedKnown(a.batch, row, keep);
      }
    }
  }

  /** A load cut short after its first write and done again ends as if it had not been. */
  lemma LoadAgain(db: Db)
    ensures Load(LoadRows(db)) == Load(db)
  {
    RestoreAfterRepair(db);
    var keep := Keep(Restore(db));
    var rows := RepairRows(db.rows, keep);
    forall i | 0 <= i < |rows| ensures RepairRow(rows[i], keep) == rows[i] {
      RepairRowAnswers(db.rows[i], keep);
    }
    assert RepairRows(rows, keep) == rows;
  }

  ghost predicate OnlyWaiting(rows: seq<Row>, waiting: set<CallId>) {
    forall i, t :: 0 <= i < |rows| && rows[i].role == Assistant && t in ToolsOf(rows[i].segments) && t.answer.None? ==> t.id in waiting
  }

  lemma RepairedWait(rows: seq<Row>, keep: set<CallId>)
    ensures OnlyWaiting(RepairRows(rows, keep), keep)
  {
    var r := RepairRows(rows, keep);
    forall i, t | 0 <= i < |r| && r[i].role == Assistant && t in ToolsOf(r[i].segments) && t.answer.None?
      ensures t.id in keep
    {
      RepairRowAnswers(rows[i], keep);
    }
  }

  /** Whatever was written before a crash, a reload leaves no call waiting but those of the
      restored batch, none when no action is restored, and restores only a call that is
      still unanswered. */
  lemma ReloadIsSafe(db: Db)
    ensures var s := Load(db);
            && OnlyWaiting(s.db.rows, Keep(s.action))
            && (s.action.Some? ==> Restorable(s.db.rows, s.action.value) && s.action.value.call in s.action.value.batch)
            && (s.action.None? ==> s.db.action.None?)
  {
    RepairedWait(db.rows, Keep(Restore(db)));
    RestoreAfterRepair(db);
  }

  /** From a safe database the load also restores the whole batch, on the active leaf, at
      the position it had reached. */
  lemma LoadSafe(db: Db)
    requires DbSafe(db)
    ensures Inv(Load(db)) && DbSafe(LoadRows(db))
  {
    RestoredWhole(db);
    var a := Restore(db);
    var rows := LoadRows(db).rows;
    RepairedRows(db.rows, Keep(a));
    RestoreAfterRepair(db);
    if a.Some? {
      LoadedBatch(db, a.value);
    } else {
      RepairedQuiet(db.rows);
      assert db.action.Some? ==> !Restorable(rows, db.action.value);
    }
  }

  lemma LoadedBatch(db: Db, a: Action)
    requires DbSafe(db) && db.action == Some(a) && Restorable(db.rows, a)
    ensures var rows := RepairRows(db.rows, InBatch(a));
            BatchPrefix(rows, a) && IdleState(Db(rows, Some(a)), Some(a))
  {
    var rows := RepairRows(db.rows, InBatch(a));
    RepairedRows(db.rows, InBatch(a));
    var k: nat :| PrefixAt(History(Last(db.rows)), a, k);
    RestoredBatch(Last(db.rows), a, k);
    forall i | 0 <= i < |rows| - 1 ensures Quiet(rows[i]) {
      assert forall id :: id in OpenIds(History(rows[i])) ==> id in a.batch && id in OpenIds(History(db.rows[i]));
      NoMembers(OpenIds(History(rows[i])));
    }
  }
}
