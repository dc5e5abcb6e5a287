/** The main results about a session's turns, over every run that finishes no repair that
    does harm; `SessionRepairHarm` shows that each repair that does breaks one of them. */
module HostActionTheorems {
  import opened Basics
  import opened Transcript
  import opened RowMessages
  import opened RoundTrip
  import opened CallResults
  import opened ResolvedReturns
  import opened SessionRows
  import opened HostActions
  import opened HostActionInvariant
  import opened HostActionSafety
  import opened HostActionRuns
  import opened HostActionSteps
  import opened SessionRepairSteps
  import R = SessionRepairs

  // ---------------------------------------------------------------- safety over runs

  lemma {:induction false} RunIsSafe(s: R.State, events: seq<R.Event>, s': R.State)
    requires R.RepairInv(s) && R.Runs(s, events, s') && R.Careful(s, events)
    ensures R.RepairInv(s')
    decreases |events|
  {
    if events != [] {
      RepairStepIsSafe(s, events[0]);
      RunIsSafe(R.Next(s, events[0]), events[1..], s');
    }
  }

  /** A session whose rows agree and that has no stored action is safe to begin from. */
  lemma SessionBegins(rows: seq<Row>)
    requires RowsOk(rows)
    ensures R.RepairInv(R.State(Down(Db(rows, None)), false))
  {
  }

  /** Crash safety: crash after any run, at whatever write it had reached, and reload. Only
      calls of the restored batch still wait; without a restored action none does. A
      restored action belongs to the active leaf, its call is unanswered, the calls of its
      batch before it are answered and exactly those from it on are open. */
  lemma CrashSafety(s: R.State, events: seq<R.Event>, s': R.State)
    requires R.RepairInv(s) && R.Runs(s, events, s') && R.Careful(s, events)
    ensures var r := Load(s'.turns.db);
            && OnlyWaiting(r.db.rows, Keep(r.action))
            && (r.action.Some? ==>
                  && r.db.rows != [] && Last(r.db.rows).id == r.action.value.row
                  && Restorable(r.db.rows, r.action.value)
                  && exists k: nat :: BatchAt(History(Last(r.db.rows)), r.action.value, k))
            && Inv(r)
  {
    RunIsSafe(s, events, s');
    LoadSafe(s'.turns.db);
    ReloadIsSafe(s'.turns.db);
  }

  /** Over every run, whatever crashes and reloads it contains, each row keeps its calls,
      and each result its output and outcome. */
  lemma {:induction false} ResultsAreFinal(s: R.State, events: seq<R.Event>, s': R.State)
    requires R.RepairInv(s) && R.Runs(s, events, s') && R.Careful(s, events)
    ensures RowsKept(s.turns.db.rows, s'.turns.db.rows)
    decreases |events|
  {
    if events == [] {
      SameRowsKept(s.turns.db.rows);
    } else {
      var next := R.Next(s, events[0]);
      RepairStepIsSafe(s, events[0]);
      RepairStepKeeps(s, events[0]);
      ResultsAreFinal(next, events[1..], s');
      RowsKeptTransitive(s.turns.db.rows, next.turns.db.rows, s'.turns.db.rows);
    }
  }

  /** The entry of an answered call, as the conversation shows it: the status label aside
      it never changes, unless the call was answered with a retry prompt. */
  lemma EntryIsFinal(s: R.State, events: seq<R.Event>, s': R.State, i: nat, t: Tool)
    requires R.RepairInv(s) && R.Runs(s, events, s') && R.Careful(s, events)
    requires i < |s.turns.db.rows| && s.turns.db.rows[i].role == Assistant && t in ToolsOf(s.turns.db.rows[i].segments)
    requires t.answer.Some? && t.id !in Retried(History(s.turns.db.rows[i]))
    ensures i < |s'.turns.db.rows| && s'.turns.db.rows[i].id == s.turns.db.rows[i].id
    ensures exists t' :: t' in ToolsOf(s'.turns.db.rows[i].segments) && t'.id == t.id && t'.answer.Some?
                         && t'.answer.value.output == t.answer.value.output && t'.answer.value.outcome == t.answer.value.outcome
  {
    ResultsAreFinal(s, events, s');
    RunIsSafe(s, events, s');
    KeptEntry(s.turns.db.rows[i], s'.turns.db.rows[i], t);
  }

  lemma KeptEntry(row: Row, row': Row, t: Tool)
    requires RowOk(row) && RowOk(row') && RowKept(row, row') && row.role == Assistant
    requires t in ToolsOf(row.segments) && t.answer.Some? && t.id !in Retried(History(row))
    ensures exists t' :: t' in ToolsOf(row'.segments) && t'.id == t.id && t'.answer.Some?
                         && t'.answer.value.output == t.answer.value.output && t'.answer.value.outcome == t.answer.value.outcome
  {
    AgreeIds(History(row), row.segments);
    AgreeIds(History(row'), row'.segments);
    assert MatchesTool(t, Results(History(row)));
    var tools' := ToolsOf(row'.segments);
    assert t.id in CallIds(History(row'));
    var j :| 0 <= j < |tools'| && Ids(tools')[j] == t.id;
    assert tools'[j] in tools' && MatchesTool(tools'[j], Results(History(row')));
  }

  // ---------------------------------------------------------------- the batch protocol

  lemma IdleBatch(db: Db, action: Option<Action>)
    requires IdleState(db, action)
    ensures forall i :: 0 <= i < |db.rows| && (action.None? || i < |db.rows| - 1) ==> Quiet(db.rows[i])
  {
    forall i | 0 <= i < |db.rows| && (action.None? || i < |db.rows| - 1) ensures Quiet(db.rows[i]) {
      if i == |db.rows| - 1 { assert db.rows[i] == Last(db.rows); }
    }
  }

  /** Neither a job nor a repair is in progress. */
  predicate AtRest(s: R.State) { s.turns.Up? && s.turns.job.Idle? && !s.repairing }

  lemma IdleAfterRun(s: R.State, events: seq<R.Event>, s': R.State)
    requires R.RepairInv(s) && R.Runs(s, events, s') && R.Careful(s, events) && AtRest(s')
    ensures IdleState(s'.turns.db, s'.turns.action) && DbSafe(s'.turns.db) && Inv(s'.turns)
  {
    RunIsSafe(s, events, s');
  }

  /** At rest, in every reachable state: the pending call is the first unanswered one of its
      batch, the calls before it are answered, and nothing else is open. */
  lemma BatchProtocol(s: R.State, events: seq<R.Event>, s': R.State)
    requires R.RepairInv(s) && R.Runs(s, events, s') && R.Careful(s, events) && AtRest(s')
    ensures var db, action := s'.turns.db, s'.turns.action;
            && action == db.action
            && (action.Some? ==>
                  && db.rows != [] && Last(db.rows).id == action.value.row
                  && exists k: nat :: BatchAt(History(Last(db.rows)), action.value, k))
            && (forall i :: 0 <= i < |db.rows| && (action.None? || i < |db.rows| - 1) ==> Quiet(db.rows[i]))
  {
    IdleAfterRun(s, events, s');
    IdleBatch(s'.turns.db, s'.turns.action);
  }

  lemma PendingIsUnanswered(h: seq<Message>, h': seq<Message>, a: Action, k: nat, call: CallId)
    requires Past(h, h') && call in Results(h) && BatchAt(h', a, k)
    ensures a.call != call
  {
    assert call in Results(h');
    assert a.batch[k] !in Results(h');
  }

  lemma SameIdSameRow(rows: seq<Row>, i: nat, j: nat)
    requires RowsOk(rows) && i < |rows| && j < |rows| && rows[i].id == rows[j].id
    ensures i == j
  {
  }

  lemma KeptAtLast(rows: seq<Row>, rows': seq<Row>, i: nat)
    requires RowsKept(rows, rows') && RowsOk(rows') && rows' != [] && i < |rows| && Last(rows').id == rows[i].id
    ensures Past(History(rows[i]), History(Last(rows')))
  {
    assert RowKept(rows[i], rows'[i]);
    SameIdSameRow(rows', i, |rows'| - 1);
  }

  lemma PendingIsOpen(db: Db, a: Action) returns (k: nat)
    requires IdleState(db, Some(a))
    ensures db.rows != [] && Last(db.rows).id == a.row && BatchAt(History(Last(db.rows)), a, k)
  {
    k :| BatchAt(History(Last(db.rows)), a, k);
  }

  /** An answered call is never offered again: it is not pending in any later state at rest. */
  lemma NeverOfferedAgain(s: R.State, events: seq<R.Event>, s': R.State, i: nat, call: CallId)
    requires R.RepairInv(s) && R.Runs(s, events, s') && R.Careful(s, events) && AtRest(s')
    requires i < |s.turns.db.rows| && call in Results(History(s.turns.db.rows[i]))
    ensures s'.turns.action.Some? && s'.turns.action.value.row == s.turns.db.rows[i].id ==> s'.turns.action.value.call != call
  {
    if s'.turns.action.Some? && s'.turns.action.value.row == s.turns.db.rows[i].id {
      IdleAfterRun(s, events, s');
      ResultsAreFinal(s, events, s');
      var k := PendingIsOpen(s'.turns.db, s'.turns.action.value);
      KeptAtLast(s.turns.db.rows, s'.turns.db.rows, i);
      PendingIsUnanswered(History(s.turns.db.rows[i]), History(Last(s'.turns.db.rows)), s'.turns.action.value, k, call);
    }
  }

  /** All the writes a job still has to make. */
  ghost function CommitAll(s: System): (r: System)
    requires s.Up?
    ensures r.Up? && (r.job.Busy? ==> r.job.todo == [])
    decreases if s.job.Busy? then |s.job.todo| else 0
  {
    if s.job.Idle? || s.job.todo == [] then s else CommitAll(Next(s, CommitNext))
  }

  lemma {:induction false} CommitAllSafe(s: System)
    requires Inv(s) && s.Up?
    ensures Inv(CommitAll(s)) && RowsKept(s.db.rows, CommitAll(s).db.rows)
    decreases if s.job.Busy? then |s.job.todo| else 0
  {
    if s.job.Idle? || s.job.todo == [] {
      SameRowsKept(s.db.rows);
    } else {
      StepIsSafe(s, CommitNext);
      StepKeeps(s, CommitNext);
      CommitAllSafe(Next(s, CommitNext));
      RowsKeptTransitive(s.db.rows, Next(s, CommitNext).db.rows, CommitAll(s).db.rows);
    }
  }

  lemma ReadyIsAnswered(c: Core)
    requires JobOk(c, [], true) && c.turn.Some? && c.turn.value.answers.Some?
    ensures var m := TurnMessages(c.turn.value);
            forall id :: id in CallIds(m) ==> id in Results(m) || id in Retried(m)
  {
    var m := TurnMessages(c.turn.value);
    forall id | id in CallIds(m) ensures id in Results(m) || id in Retried(m) {
      assert id !in OpenIds(m);
    }
  }

  /** The session's core, or the one whose action a repair has cleared. */
  lemma BusyCore(s: R.State) returns (c: Core)
    requires R.RepairInv(s) && s.turns.Up? && s.turns.job.Busy?
    ensures JobOk(c, s.turns.job.todo, s.turns.job.resume) && c.turn == s.turns.job.turn && c.db.rows == s.turns.db.rows
  {
    if R.Sound(s.turns) {
      c := Core(s.turns.db, s.turns.action, s.turns.job.turn);
    } else {
      var a :| R.Sound(R.WithAction(s.turns, a));
      c := Core(R.WithAction(s.turns, a).db, Some(a), s.turns.job.turn);
    }
  }

  /** The model runs for a continuation only when every call of the row has its result. */
  lemma ModelResumesWhenAnswered(s: R.State, events: seq<R.Event>, s': R.State)
    requires R.RepairInv(s) && R.Runs(s, events, s') && R.Careful(s, events)
    requires s'.turns.Up? && s'.turns.job.Busy? && s'.turns.job.todo == [] && s'.turns.job.resume
    requires s'.turns.job.turn.Some? && s'.turns.job.turn.value.answers.Some?
    ensures var m := TurnMessages(s'.turns.job.turn.value);
            forall id :: id in CallIds(m) ==> id in Results(m) || id in Retried(m)
  {
    RunIsSafe(s, events, s');
    var c := BusyCore(s');
    ReadyIsAnswered(c);
  }

  lemma CoreReturnsOnce(c: Core)
    requires CoreOk(c) && c.turn.Some? && c.turn.value.answers.Some?
    ensures CountReturns(RequestParts(StoredMessages(c.turn.value)), c.turn.value.answers.value) == 1
  {
    ReturnedOnceStored(c.turn.value);
  }

  /** However a continuation's turn goes on, the accepted result is in it exactly once. */
  lemma AcceptedResultOnce(s: R.State, events: seq<R.Event>, s': R.State)
    requires R.RepairInv(s) && R.Runs(s, events, s') && R.Careful(s, events)
    requires s'.turns.Up? && s'.turns.job.Busy? && s'.turns.job.turn.Some? && s'.turns.job.turn.value.answers.Some?
    ensures CountReturns(RequestParts(StoredMessages(s'.turns.job.turn.value)), s'.turns.job.turn.value.answers.value) == 1
  {
    RunIsSafe(s, events, s');
    var c := BusyCore(s');
    CoreReturnsOnce(c);
  }

  lemma SnapshotReturnsOnce(c: Core, close: bool)
    requires CoreOk(c) && c.turn.Some? && c.turn.value.answers.Some?
    ensures var rows := Commit(Snapshot(close), c).db.rows;
            && rows != [] && Last(rows).id == c.turn.value.row
            && CountReturns(RequestParts(History(Last(rows))), c.turn.value.answers.value) == 1
            && c.turn.value.answers.value in Results(History(Last(rows)))
  {
    var t := Closing(c.turn.value, close);
    ClosingTurn(c.db.rows, c.turn.value, close);
    SnapshotRows(c.db.rows, t);
    ReturnedOnceStored(t);
    StoredSame(t);
  }

  /** Every row a continuation's turn writes, also the one that closes a cancelled turn,
      has the accepted result as exactly one return. */
  lemma AcceptedResultIsWritten(s: R.State, events: seq<R.Event>, s': R.State, close: bool)
    requires R.RepairInv(s) && R.Runs(s, events, s') && R.Careful(s, events)
    requires s'.turns.Up? && s'.turns.job.Busy? && s'.turns.job.turn.Some? && s'.turns.job.turn.value.answers.Some?
    requires s'.turns.job.todo != [] && s'.turns.job.todo[0] == Snapshot(close)
    ensures var rows := Next(s'.turns, CommitNext).db.rows;
            && rows != [] && Last(rows).id == s'.turns.job.turn.value.row
            && CountReturns(RequestParts(History(Last(rows))), s'.turns.job.turn.value.answers.value) == 1
            && s'.turns.job.turn.value.answers.value in Results(History(Last(rows)))
  {
    RunIsSafe(s, events, s');
    var c := BusyCore(s');
    SnapshotReturnsOnce(c, close);
    SameRowsWritten(s'.turns, c, close);
  }

  lemma SameRowsWritten(s: System, c: Core, close: bool)
    requires s.Up? && s.job.Busy? && s.job.todo != [] && s.job.todo[0] == Snapshot(close)
    requires c.turn == s.job.turn && c.db.rows == s.db.rows
    ensures Next(s, CommitNext).db.rows == Commit(Snapshot(close), c).db.rows
  {
  }

  // ---------------------------------------------------------------- one continuation, one answer

  ghost function Started(c: Core, todo: seq<Write>, resume: bool): System {
    Up(c.db, c.action, Settle(c.turn, todo, resume))
  }

  lemma CommitOne(c: Core, w: Write, rest: seq<Write>, resume: bool)
    ensures CommitAll(Started(c, [w] + rest, resume)) == CommitAll(Started(Commit(w, c), rest, resume))
  {
    var s := Started(c, [w] + rest, resume);
    assert s.job.todo[0] == w && s.job.todo[1..] == rest;
    assert Core(s.db, s.action, s.job.turn) == c;
    assert Next(s, CommitNext) == Started(Commit(w, c), rest, resume);
  }

  lemma CommitSaved(c: Core, rest: seq<Write>, resume: bool)
    ensures CommitAll(Started(c, SaveAndClear + rest, resume))
         == CommitAll(Started(Commit(ClearAction, Commit(Snapshot(false), c)), rest, resume))
  {
    assert SaveAndClear + rest == [Snapshot(false)] + ([ClearAction] + rest);
    CommitOne(c, Snapshot(false), [ClearAction] + rest, resume);
    CommitOne(Commit(Snapshot(false), c), ClearAction, rest, resume);
  }

  /** The row after an accepted continuation, and what the session waits for then. */
  ghost predicate Answered(h: seq<Message>, a: Action, k: nat, r: Result, s': System)
    requires k < |a.batch|
  {
    && s'.Up? && s'.db.rows != [] && Last(s'.db.rows).id == a.row
    && CallIds(History(Last(s'.db.rows))) == CallIds(h)
    && Results(History(Last(s'.db.rows))) == Results(h)[a.call := r]
    && OpenIds(History(Last(s'.db.rows))) == a.batch[k + 1..]
    && (k + 1 < |a.batch| ==>
          && s'.job.Idle? && s'.action.Some? && s'.action == s'.db.action
          && s'.action.value == a.(call := a.batch[k + 1], name := s'.action.value.name)
          && NamedCall(h, a.batch[k + 1], s'.action.value.name))
    && (k + 1 == |a.batch| ==>
          && s'.action.None? && s'.db.action.None? && (s'.job.Busy? <==> !a.hostTools)
          && (s'.job.Busy? ==> s'.job.todo == [] && s'.job.resume))
  }

  /** Each accepted continuation records its result on the pending row, answers that one
      call and no other, and then offers the next call of the batch; only when none is left
      does the model run again (never for the host's own calls). */
  lemma ContinuationAnswersOne(s: System, call: CallId, output: string, outcome: Outcome, k: nat)
    requires Inv(s) && Enabled(s, Continue(call, output, outcome))
    requires s.db.rows != [] && BatchAt(History(Last(s.db.rows)), s.action.value, k)
    ensures Answered(History(Last(s.db.rows)), s.action.value, k, Result(output, outcome),
                     CommitAll(Next(s, Continue(call, output, outcome))))
  {
    InvIdle(s);
    var a := s.action.value;
    var c := Core(s.db, s.action, Some(ContinueTurn(s.db.rows, a, output, outcome)));
    ContinueStarts(s, call, output, outcome, k);
    SavedAnswer(c, a, k, output, outcome);
    if k + 1 < |a.batch| {
      NextIsNamed(s.db.rows, a, k);
      AnsweredNext(c, a, k, output, outcome);
    } else {
      AnsweredLast(c, a, k, output, outcome);
    }
  }

  lemma InvIdle(s: System)
    requires Inv(s) && s.Up? && s.job.Idle?
    ensures DbSafe(s.db) && IdleState(s.db, s.action)
  {
  }

  function AfterContinuation(c: Core, a: Action, k: nat): seq<Write>
    requires k < |a.batch|
  {
    if k + 1 == |a.batch| || Remaining(c.db.rows, a) == [] then [] else [SetAction(NextAction(c.db.rows, a))]
  }

  lemma ContinueStarts(s: System, call: CallId, output: string, outcome: Outcome, k: nat)
    requires Enabled(s, Continue(call, output, outcome)) && DbSafe(s.db) && IdleState(s.db, s.action)
    requires s.db.rows != [] && BatchAt(History(Last(s.db.rows)), s.action.value, k)
    ensures var a := s.action.value;
            var c := Core(s.db, s.action, Some(ContinueTurn(s.db.rows, a, output, outcome)));
            && Remaining(s.db.rows, a) == a.batch[k + 1..]
            && Next(s, Continue(call, output, outcome))
            == Started(c, SaveAndClear + AfterContinuation(c, a, k), k + 1 == |a.batch| && !a.hostTools)
  {
    RemainingBatch(s.db.rows, s.action.value, k);
  }

  lemma {:induction false} UnansweredKnown(batch: seq<CallId>, call: CallId, tools: seq<Tool>)
    ensures forall id :: id in Unanswered(batch, call, tools) ==> Find(tools, id).Some?
  {
    if batch != [] {
      UnansweredKnown(batch[..|batch| - 1], call, tools);
    }
  }

  /** An entry of a row has the name of the call that made it. */
  lemma EntryIsNamed(row: Row, id: CallId)
    requires RowOk(row) && row.role == Assistant && Find(ToolsOf(row.segments), id).Some?
    ensures NamedCall(History(row), id, Find(ToolsOf(row.segments), id).value.name)
  {
    var tools := ToolsOf(row.segments);
    var t := Find(tools, id).value;
    var i :| 0 <= i < |tools| && tools[i] == t;
    CallPartsAt(tools, i);
    var c := CallParts(tools)[i];
    assert c in CallsOf(History(row));
    FilterMember(IsCall, ReplyParts(History(row)), c);
  }

  /** The next call of a batch is handed on under its own name. */
  lemma NextIsNamed(rows: seq<Row>, a: Action, k: nat)
    requires rows != [] && RowsOk(rows) && Last(rows).id == a.row && Last(rows).role == Assistant
    requires k + 1 < |a.batch| && Remaining(rows, a) == a.batch[k + 1..]
    ensures NamedCall(History(Last(rows)), a.batch[k + 1], NextAction(rows, a).name)
  {
    RowOfLast(rows, a.row);
    UnansweredKnown(a.batch, a.call, ToolsOf(Last(rows).segments));
    assert a.batch[k + 1] == Remaining(rows, a)[0];
    EntryIsNamed(rows[|rows| - 1], a.batch[k + 1]);
  }

  lemma AnsweredNext(c: Core, a: Action, k: nat, output: string, outcome: Outcome)
    requires c.db.rows != [] && k + 1 < |a.batch| && Remaining(c.db.rows, a) == a.batch[k + 1..]
    requires NamedCall(History(Last(c.db.rows)), a.batch[k + 1], NextAction(c.db.rows, a).name)
    requires SavedAs(Commit(ClearAction, Commit(Snapshot(false), c)), c, a, k, output, outcome)
    ensures Answered(History(Last(c.db.rows)), a, k, Result(output, outcome),
                     CommitAll(Started(c, SaveAndClear + AfterContinuation(c, a, k), false)))
  {
    var next, saved := NextAction(c.db.rows, a), Commit(ClearAction, Commit(Snapshot(false), c));
    CommitSaved(c, [SetAction(next)], false);
    AnsweredSet(saved, c, a, k, output, outcome, next);
  }

  lemma AnsweredSet(saved: Core, c: Core, a: Action, k: nat, output: string, outcome: Outcome, next: Action)
    requires c.db.rows != [] && k + 1 < |a.batch| && SavedAs(saved, c, a, k, output, outcome)
    requires next == a.(call := a.batch[k + 1], name := next.name) && NamedCall(History(Last(c.db.rows)), next.call, next.name)
    ensures Answered(History(Last(c.db.rows)), a, k, Result(output, outcome), CommitAll(Started(saved, [SetAction(next)], false)))
  {
    SetLast(saved, next);
  }

  lemma SetLast(c: Core, a: Action)
    ensures CommitAll(Started(c, [SetAction(a)], false)) == Up(Db(c.db.rows, Some(a)), Some(a), Idle)
  {
    CommitOne(c, SetAction(a), [], false);
    assert [SetAction(a)] + [] == [SetAction(a)];
  }

  lemma AnsweredLast(c: Core, a: Action, k: nat, output: string, outcome: Outcome)
    requires c.db.rows != [] && k + 1 == |a.batch|
    requires SavedAs(Commit(ClearAction, Commit(Snapshot(false), c)), c, a, k, output, outcome)
    ensures Answered(History(Last(c.db.rows)), a, k, Result(output, outcome),
                     CommitAll(Started(c, SaveAndClear + AfterContinuation(c, a, k), !a.hostTools)))
  {
    CommitSaved(c, [], !a.hostTools);
  }

  /** The session right after the accepted result was saved and the action cleared. */
  ghost predicate SavedAs(saved: Core, c: Core, a: Action, k: nat, output: string, outcome: Outcome)
    requires c.db.rows != [] && k < |a.batch|
  {
    var h := History(Last(c.db.rows));
    && saved.action.None? && saved.db.action.None?
    && saved.db.rows != [] && Last(saved.db.rows).id == a.row
    && CallIds(History(Last(saved.db.rows))) == CallIds(h)
    && Results(History(Last(saved.db.rows))) == Results(h)[a.call := Result(output, outcome)]
    && OpenIds(History(Last(saved.db.rows))) == a.batch[k + 1..]
  }

  lemma SavedAnswer(c: Core, a: Action, k: nat, output: string, outcome: Outcome)
    requires DbSafe(c.db) && IdleState(c.db, c.action) && c.action == Some(a)
    requires BatchAt(History(Last(c.db.rows)), a, k) && RowOf(c.db.rows, a.row).Some?
    requires c.turn == Some(ContinueTurn(c.db.rows, a, output, outcome))
    ensures SavedAs(Commit(ClearAction, Commit(Snapshot(false), c)), c, a, k, output, outcome)
  {
    ContinueCore(c, a, k, output, outcome);
    SaveAndClearStep(c, false, [], false);
    ContinueTurnOk(c.db, a, k, output, outcome);
    AcceptedHistory(History(Last(c.db.rows)), a, k, output, outcome);
    StoredSame(c.turn.value);
  }

  // ---------------------------------------------------------------- a whole batch

  /** The entry of an open call has no output. */
  lemma OpenEntry(row: Row, call: CallId)
    requires RowOk(row) && row.role == Assistant && call in CallIds(History(row))
    requires call !in Results(History(row)) && call !in Retried(History(row))
    ensures Find(Tools(row), call).Some? && Find(Tools(row), call).value.answer.None?
  {
    var tools := ToolsOf(row.segments);
    AgreeIds(History(row), row.segments);
    var i :| 0 <= i < |Ids(tools)| && Ids(tools)[i] == call;
    assert tools[i].id == call;
    assert MatchesTool(Find(tools, call).value, Results(History(row)));
  }

  lemma FirstIsPending(rows: seq<Row>, a: Action)
    requires RowOf(rows, a.row).Some? && Find(Tools(RowOf(rows, a.row).value), a.call).Some?
    requires Find(Tools(RowOf(rows, a.row).value), a.call).value.answer.None?
    ensures !AlreadyRecorded(rows, a)
  {
    var row := RowOf(rows, a.row).value;
    assert ([row, rows[|rows| - 1]] + rows)[0] == row;
  }

  lemma PendingIsEnabled(s: System, output: string, outcome: Outcome)
    requires Inv(s) && s.Up? && s.job.Idle? && s.action.Some? && (outcome == Success || outcome == Failed)
    ensures Enabled(s, Continue(s.action.value.call, output, outcome))
  {
    InvIdle(s);
    var a := s.action.value;
    var k := PendingIsOpen(s.db, a);
    RowOfLast(s.db.rows, a.row);
    assert a.batch[k] in a.batch;
    OpenEntry(Last(s.db.rows), a.call);
    FirstIsPending(s.db.rows, a);
  }

  /** At rest a continuation for the pending call is accepted. */
  lemma PendingIsAccepted(s: R.State, events: seq<R.Event>, s': R.State, output: string, outcome: Outcome)
    requires R.RepairInv(s) && R.Runs(s, events, s') && R.Careful(s, events) && AtRest(s')
    requires s'.turns.action.Some? && (outcome == Success || outcome == Failed)
    ensures R.Enabled(s', R.Act(Continue(s'.turns.action.value.call, output, outcome)))
  {
    IdleAfterRun(s, events, s');
    PendingIsEnabled(s'.turns, output, outcome);
  }

  /** The host answers the pending calls one after the other, each turn writing what it has to. */
  ghost predicate AnswersAll(s: System, replies: seq<Result>, s': System)
    decreases |replies|
  {
    if replies == [] then s' == s
    else
      && s.Up? && s.action.Some?
      && Enabled(s, Continue(s.action.value.call, replies[0].output, replies[0].outcome))
      && AnswersAll(CommitAll(Next(s, Continue(s.action.value.call, replies[0].output, replies[0].outcome))), replies[1..], s')
  }

  /** The position of the pending call after an answer is the next one. */
  lemma NextPosition(s: System, a: Action, k: nat)
    requires Inv(s) && s.Up? && s.job.Idle? && s.action.Some?
    requires k < |a.batch| && s.action.value.batch == a.batch && s.action.value.call == a.batch[k]
    ensures WaitsAt(s, k)
  {
    InvIdle(s);
    var j := PendingIsOpen(s.db, s.action.value);
    assert a.batch[j] == a.batch[k];
  }

  predicate GivenTo(h: seq<Message>, id: CallId, r: Result) { id in Results(h) && Results(h)[id] == r }

  ghost predicate AnswersGiven(h: seq<Message>, batch: seq<CallId>, k: nat, replies: seq<Result>)
    requires |replies| + k == |batch|
  {
    forall i :: 0 <= i < |replies| ==> GivenTo(h, batch[k + i], replies[i])
  }

  lemma AnswersJoin(before: seq<Message>, after: seq<Message>, batch: seq<CallId>, k: nat, replies: seq<Result>)
    requires replies != [] && |replies| + k == |batch|
    requires GivenTo(before, batch[k], replies[0]) && Extends(Results(before), Results(after))
    requires AnswersGiven(after, batch, k + 1, replies[1..])
    ensures AnswersGiven(after, batch, k, replies)
  {
    forall i | 0 <= i < |replies| ensures GivenTo(after, batch[k + i], replies[i]) {
      if i > 0 {
        assert GivenTo(after, batch[(k + 1) + (i - 1)], replies[1..][i - 1]);
      }
    }
  }

  /** The session waits for the call at position `k` of its batch. */
  ghost predicate WaitsAt(s: System, k: nat) {
    && Inv(s) && s.Up? && s.job.Idle? && s.action.Some?
    && s.db.rows != [] && Last(s.db.rows).id == s.action.value.row && BatchAt(History(Last(s.db.rows)), s.action.value, k)
  }

  lemma AnswerOne(s: System, k: nat, reply: Result) returns (next: System)
    requires WaitsAt(s, k) && (reply.outcome == Success || reply.outcome == Failed)
    ensures Enabled(s, Continue(s.action.value.call, reply.output, reply.outcome))
    ensures next == CommitAll(Next(s, Continue(s.action.value.call, reply.output, reply.outcome))) && Inv(next)
    ensures Answered(History(Last(s.db.rows)), s.action.value, k, reply, next)
  {
    var e := Continue(s.action.value.call, reply.output, reply.outcome);
    PendingIsEnabled(s, reply.output, reply.outcome);
    ContinuationAnswersOne(s, s.action.value.call, reply.output, reply.outcome, k);
    StepIsSafe(s, e);
    CommitAllSafe(Next(s, e));
    next := CommitAll(Next(s, e));
    assert Result(reply.output, reply.outcome) == reply;
  }

  /** The state after a batch: every call has the reply given to it, nothing is open or
      pending, and the model runs next, except for the host's own calls. */
  ghost predicate BatchDone(h: seq<Message>, a: Action, k: nat, replies: seq<Result>, s': System)
    requires |replies| + k == |a.batch|
  {
    && s'.Up? && s'.db.rows != [] && Last(s'.db.rows).id == a.row
    && CallIds(History(Last(s'.db.rows))) == CallIds(h) && Extends(Results(h), Results(History(Last(s'.db.rows))))
    && AnswersGiven(History(Last(s'.db.rows)), a.batch, k, replies) && OpenIds(History(Last(s'.db.rows))) == []
    && s'.action.None? && s'.db.action.None? && (s'.job.Busy? <==> !a.hostTools)
    && (s'.job.Busy? ==> s'.job.todo == [] && s'.job.resume)
  }

  lemma ExtendsOne(m: map<CallId, Result>, id: CallId, r: Result)
    requires id !in m
    ensures Extends(m, m[id := r])
  {
  }

  lemma LastReply(h: seq<Message>, a: Action, k: nat, replies: seq<Result>, s': System)
    requires |replies| == 1 && k + 1 == |a.batch| && a.call == a.batch[k] && a.call !in Results(h)
    requires Answered(h, a, k, replies[0], s')
    ensures BatchDone(h, a, k, replies, s')
  {
    var h' := History(Last(s'.db.rows));
    ExtendsOne(Results(h), a.call, replies[0]);
    assert GivenTo(h', a.batch[k], replies[0]);
    assert AnswersGiven(h', a.batch, k, replies);
    assert a.batch[k + 1..] == [];
  }

  lemma MoreReplies(h: seq<Message>, a: Action, k: nat, replies: seq<Result>, next: System, b: Action, s': System)
    requires replies != [] && |replies| + k == |a.batch| && k + 1 < |a.batch|
    requires a.call == a.batch[k] && a.call !in Results(h) && Answered(h, a, k, replies[0], next)
    requires b.batch == a.batch && b.row == a.row && b.hostTools == a.hostTools
    requires BatchDone(History(Last(next.db.rows)), b, k + 1, replies[1..], s')
    ensures BatchDone(h, a, k, replies, s')
  {
    AnswersJoin(History(Last(next.db.rows)), History(Last(s'.db.rows)), a.batch, k, replies);
  }

  lemma NextWaits(h: seq<Message>, a: Action, k: nat, reply: Result, next: System)
    requires k + 1 < |a.batch| && Answered(h, a, k, reply, next) && Inv(next)
    ensures WaitsAt(next, k + 1)
    ensures var b := next.action.value; b.batch == a.batch && b.row == a.row && b.hostTools == a.hostTools
  {
    NextPosition(next, a, k + 1);
  }

  lemma AnswerFirst(s: System, k: nat, reply: Result) returns (next: System)
    requires WaitsAt(s, k) && (reply.outcome == Success || reply.outcome == Failed)
    ensures Enabled(s, Continue(s.action.value.call, reply.output, reply.outcome))
    ensures next == CommitAll(Next(s, Continue(s.action.value.call, reply.output, reply.outcome))) && Inv(next)
    ensures var a, h := s.action.value, History(Last(s.db.rows));
            && Answered(h, a, k, reply, next) && a.call == a.batch[k] && a.call !in Results(h)
            && (k + 1 < |a.batch| ==>
                  WaitsAt(next, k + 1) && var b := next.action.value; b.batch == a.batch && b.row == a.row && b.hostTools == a.hostTools)
  {
    next := AnswerOne(s, k, reply);
    FirstIsOpen(History(Last(s.db.rows)), s.action.value, k);
    if k + 1 < |s.action.value.batch| {
      NextWaits(History(Last(s.db.rows)), s.action.value, k, reply, next);
    }
  }

  predicate Replies(replies: seq<Result>) {
    forall i :: 0 <= i < |replies| ==> replies[i].outcome == Success || replies[i].outcome == Failed
  }

  lemma LastAnswer(s: System, k: nat, replies: seq<Result>) returns (s': System)
    requires WaitsAt(s, k) && |replies| == 1 && k + 1 == |s.action.value.batch| && Replies(replies)
    ensures AnswersAll(s, replies, s') && Inv(s') && BatchDone(History(Last(s.db.rows)), s.action.value, k, replies, s')
  {
    s' := AnswerFirst(s, k, replies[0]);
    LastReply(History(Last(s.db.rows)), s.action.value, k, replies, s');
    assert replies[1..] == [];
    AnswersStep(s, replies, s', s');
  }

  /** A batch answered to its end: the continuations are all accepted, each call has the
      reply given to it, and only then does the model run again. */
  lemma {:induction false} BatchCompletes(s: System, k: nat, replies: seq<Result>) returns (s': System)
    requires WaitsAt(s, k) && |replies| + k == |s.action.value.batch| && Replies(replies)
    ensures AnswersAll(s, replies, s') && Inv(s')
    ensures BatchDone(History(Last(s.db.rows)), s.action.value, k, replies, s')
    decreases |replies|
  {
    if k + 1 == |s.action.value.batch| {
      s' := LastAnswer(s, k, replies);
    } else {
      var next := AnswerFirst(s, k, replies[0]);
      s' := BatchCompletes(next, k + 1, replies[1..]);
      MoreReplies(History(Last(s.db.rows)), s.action.value, k, replies, next, next.action.value, s');
      AnswersStep(s, replies, next, s');
    }
  }

  lemma AnswersStep(s: System, replies: seq<Result>, next: System, s': System)
    requires replies != [] && s.Up? && s.action.Some?
    requires Enabled(s, Continue(s.action.value.call, replies[0].output, replies[0].outcome))
    requires next == CommitAll(Next(s, Continue(s.action.value.call, replies[0].output, replies[0].outcome)))
    requires AnswersAll(next, replies[1..], s')
    ensures AnswersAll(s, replies, s')
  {
  }

  lemma FirstIsOpen(h: seq<Message>, a: Action, k: nat)
    requires BatchAt(h, a, k)
    ensures a.call == a.batch[k] && a.call !in Results(h)
  {
    assert a.batch[k] !in Results(h);
  }
}
