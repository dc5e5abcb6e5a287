/** When a repair does harm, and that it does: every one that `Harmful` names can be followed
    by a run that changes a result it recorded, or leaves an answered call pending. */
module SessionRepairHarm {
  import opened Basics
  import opened Transcript
  import opened RowMessages
  import opened RoundTrip
  import opened CallResults
  import opened ResolvedReturns
  import opened SessionRows
  import opened HostActions
  import opened HostActionInvariant
  import opened HostActionSafety
  import opened HostActionRuns
  import opened HostActionSteps
  import opened SessionRepairShapes
  import opened SessionRepairSafety
  import opened SessionRepairSteps
  import opened HostActionTheorems
  import R = SessionRepairs

  /** What the main results promise of the state after a step: results are kept, and at rest
      the pending call is the first unanswered one and nothing else is open. */
  ghost predicate Right(s: R.State, s': R.State) {
    && RowsKept(s.turns.db.rows, s'.turns.db.rows)
    && (AtRest(s') ==> IdleState(s'.turns.db, s'.turns.action))
  }

  /** And of every run from a state on in which no later repair does harm. */
  ghost predicate StaysRight(s: R.State) {
    forall events, s' :: R.Runs(s, events, s') && R.Careful(s, events) ==> Right(s, s')
  }

  // ---------------------------------------------------------------- what overwrites a repair

  /** A turn that answers a call otherwise, or not at all, does not hold what the repair
      recorded for it, closed or not. */
  lemma SpoiledRow(row: Row, t: Turn, close: bool, id: CallId)
    requires RowOk(row) && id in OpenIds(History(row)) && !R.AnsweredAsUnknown(TurnMessages(t), id)
    ensures !Past(History(RepairRow(row, {})), StoredMessages(Closing(t, close)))
  {
    var h, t', m := History(RepairRow(row, {})), Closing(t, close), TurnMessages(t);
    RepairRecords(row, id);
    RepairRowKeeps(row, {});
    StoredSame(t');
    if Past(h, StoredMessages(t')) {
      assert id in Results(TurnMessages(t')) && Results(TurnMessages(t'))[id] == R.Unknown() && id !in Retried(TurnMessages(t'));
      ClosingResult(t, close, id);
    }
  }

  /** What a turn holds for a call once it is closed. */
  lemma ClosingResult(t: Turn, close: bool, id: CallId)
    requires id in Results(TurnMessages(Closing(t, close)))
    ensures var m, m' := TurnMessages(t), TurnMessages(Closing(t, close));
            && Retried(m') == Retried(m)
            && (if id in Results(m) then Results(m')[id] == Results(m)[id] else Results(m')[id] == Result(INTERRUPTED_OUTPUT, Interrupted))
  {
    if close {
      var m := TurnMessages(t);
      var parts := InterruptedParts(ReplyParts(m), Results(m).Keys);
      assert TurnMessages(CloseTurn(t)) == MarkUnanswered(m) by {
        assert TurnMessages(CloseTurn(t)) == m + (if parts == [] then [] else [Request(parts, [])]);
        assert m + [] == m;
      }
      MarkUnansweredCloses(m);
    }
  }

  lemma RewritesLeaf(rows: seq<Row>, t: Turn)
    requires RowsOk(rows) && HasRow(rows, t.row) && Last(rows).id == t.row
    ensures |WriteSnapshot(rows, t)| == |rows| && Last(WriteSnapshot(rows, t)) == Rewritten(Last(rows), t)
  {
    RowOfLast(rows, t.row);
  }

  /** A snapshot of such a turn overwrites the repair. */
  lemma SnapshotOverwrites(rows: seq<Row>, t: Turn, close: bool, id: CallId)
    requires RowsOk(rows) && HasRow(rows, t.row) && TurnOk(rows, t)
    requires id in OpenIds(History(Last(rows))) && !R.AnsweredAsUnknown(TurnMessages(t), id)
    ensures !RowsKept(RepairRows(rows, {}), WriteSnapshot(RepairRows(rows, {}), Closing(t, close)))
  {
    var r, t' := RepairRows(rows, {}), Closing(t, close);
    RepairedBeside(rows);
    BesideHeads(rows, r);
    SameHeadsRow(rows, r, t.row);
    RewritesLeaf(r, t');
    SpoiledRow(Last(rows), t, close, id);
    assert History(Last(WriteSnapshot(r, t'))) == StoredMessages(t');
    assert Last(r) == RepairRow(Last(rows), {});
    if RowsKept(r, WriteSnapshot(r, t')) {
      KeptLeaf(r, WriteSnapshot(r, t'));
    }
  }

  lemma KeptLeaf(a: seq<Row>, b: seq<Row>)
    requires RowsKept(a, b) && a != [] && |a| == |b|
    ensures RowKept(Last(a), Last(b))
  {
    var i := |a| - 1;
    assert RowKept(a[i], b[i]);
  }

  // ---------------------------------------------------------------- the runs that show it

  lemma {:induction false} NoRepairIsCareful(s: R.State, events: seq<R.Event>)
    requires forall i :: 0 <= i < |events| ==> !events[i].FinishRepair?
    ensures R.Careful(s, events)
    decreases |events|
  {
    if events != [] && R.Enabled(s, events[0]) {
      NoRepairIsCareful(R.Next(s, events[0]), events[1..]);
    }
  }

  lemma FirstStep(s: R.State, e: R.Event, events: seq<R.Event>, s': R.State)
    requires R.Enabled(s, e) && R.Runs(R.Next(s, e), events, s')
    ensures R.Runs(s, [e] + events, s')
  {
    assert ([e] + events)[1..] == events;
  }

  /** The leading writes of a turn that only clear the action change nothing else. */
  lemma {:induction false} RunClears(s: R.State) returns (events: seq<R.Event>, s': R.State)
    requires s.turns.Up? && s.turns.job.Busy? && R.Closes(s.turns.job.todo) && (R.FirstWrite(s.turns.job.todo).Some? || s.turns.job.resume)
    ensures R.Runs(s, events, s') && (forall i :: 0 <= i < |events| ==> !events[i].FinishRepair?)
    ensures s'.repairing == s.repairing && s'.turns.Up? && s'.turns.job.Busy?
    ensures s'.turns.db.rows == s.turns.db.rows && s'.turns.job.turn == s.turns.job.turn && s'.turns.job.resume == s.turns.job.resume
    ensures R.FirstWrite(s.turns.job.todo).None? ==> s'.turns.job.todo == []
    ensures R.FirstWrite(s.turns.job.todo).Some? ==>
              s'.turns.job.todo != [] && s'.turns.job.todo[0] == R.FirstWrite(s.turns.job.todo).value && R.Closes(s'.turns.job.todo)
    decreases |s.turns.job.todo|
  {
    if s.turns.job.todo == [] || !s.turns.job.todo[0].ClearAction? {
      events, s' := [], s;
    } else {
      var e := R.Act(CommitNext);
      var next := R.Next(s, e);
      var more;
      more, s' := RunClears(next);
      FirstStep(s, e, more, s');
      events := [e] + more;
    }
  }

  /** One write of the turn. */
  lemma RunWrite(s: R.State, w: Write) returns (s': R.State)
    requires s.turns.Up? && s.turns.job.Busy? && s.turns.job.todo != [] && s.turns.job.todo[0] == w
    ensures R.Runs(s, [R.Act(CommitNext)], s') && s' == R.Next(s, R.Act(CommitNext))
  {
    s' := R.Next(s, R.Act(CommitNext));
    FirstStep(s, R.Act(CommitNext), [], s');
    assert [R.Act(CommitNext)] + [] == [R.Act(CommitNext)];
  }

  lemma {:induction false} RunsJoin(s: R.State, a: seq<R.Event>, m: R.State, b: seq<R.Event>, s': R.State)
    requires R.Runs(s, a, m) && R.Runs(m, b, s')
    ensures R.Runs(s, a + b, s')
    decreases |a|
  {
    if a == [] {
      assert a + b == b;
    } else {
      RunsJoin(R.Next(s, a[0]), a[1..], m, b, s');
      AppendRest(a, b);
    }
  }

  /** The turn's core as it was before the repair, at the repaired state. */
  ghost predicate RepairedTurnState(s: R.State, rows: seq<Row>, t: Turn) {
    && s.turns.Up? && s.turns.job.Busy? && s.turns.job.turn == Some(t) && s.turns.db.rows == RepairRows(rows, {})
    && RowsOk(rows) && HasRow(rows, t.row) && TurnOk(rows, t)
  }

  lemma CommitResult(s: System)
    requires Enabled(s, CommitNext)
    ensures var c := Commit(s.job.todo[0], Core(s.db, s.action, s.job.turn));
            Next(s, CommitNext) == Up(c.db, c.action, Settle(c.turn, s.job.todo[1..], s.job.resume))
  {
  }

  lemma WrittenState(s: R.State, t: Turn, close: bool)
    requires s.turns.Up? && s.turns.job.Busy? && s.turns.job.turn == Some(t)
    requires s.turns.job.todo != [] && s.turns.job.todo[0] == Snapshot(close)
    ensures R.Next(s, R.Act(CommitNext)).turns.db.rows == WriteSnapshot(s.turns.db.rows, Closing(t, close))
  {
    CommitResult(s.turns);
    CommitSnapshot(Core(s.turns.db, s.turns.action, s.turns.job.turn), close);
  }

  /** The turn writes its row next. */
  lemma WriteBreaks(s: R.State, rows: seq<Row>, t: Turn, close: bool, id: CallId) returns (events: seq<R.Event>, s': R.State)
    requires RepairedTurnState(s, rows, t) && s.turns.job.todo != [] && s.turns.job.todo[0] == Snapshot(close)
    requires id in OpenIds(History(Last(rows))) && !R.AnsweredAsUnknown(TurnMessages(t), id)
    ensures R.Runs(s, events, s') && (forall i :: 0 <= i < |events| ==> !events[i].FinishRepair?)
    ensures !RowsKept(RepairRows(rows, {}), s'.turns.db.rows)
  {
    s' := RunWrite(s, Snapshot(close));
    events := [R.Act(CommitNext)];
    WrittenState(s, t, close);
    SnapshotOverwrites(rows, t, close, id);
  }

  lemma RunResult(s: System, t: Turn, new_: seq<Message>, ending: Ending)
    requires s.Up? && s.job == Busy(Some(t), [], true) && RunContract(t, new_) && EndingContract(t, new_, ending)
    requires WritesAfter(Capture(t, new_), ending) != [] && !Resumes(ending)
    ensures Enabled(s, RunEnds(new_, ending))
    ensures Next(s, RunEnds(new_, ending)) == s.(job := Busy(Some(Capture(t, new_)), WritesAfter(Capture(t, new_), ending), false))
  {
  }

  lemma NoNewMessages(t: Turn)
    requires Distinct(CallIds(TurnMessages(t)))
    ensures Capture(t, []) == t && RunContract(t, [])
  {
    assert t.later + [] == t.later && TurnMessages(t) + [] == TurnMessages(t);
    assert RequestParts([]) == [];
  }

  /** The model's run is cancelled without a new message. */
  lemma RunStops(s: System, t: Turn)
    requires s.Up? && s.job == Busy(Some(t), [], true) && Distinct(CallIds(TurnMessages(t)))
    ensures Enabled(s, RunEnds([], Stopped)) && Next(s, RunEnds([], Stopped)) == s.(job := Busy(Some(t), CloseAndClear, false))
  {
    NoNewMessages(t);
  }

  /** The model is running: it is cancelled, and the turn closed. */
  lemma CancelBreaks(s: R.State, rows: seq<Row>, t: Turn, id: CallId) returns (events: seq<R.Event>, s': R.State)
    requires RepairedTurnState(s, rows, t) && s.turns.job.todo == [] && s.turns.job.resume
    requires id in OpenIds(History(Last(rows))) && !R.AnsweredAsUnknown(TurnMessages(t), id)
    ensures R.Runs(s, events, s') && (forall i :: 0 <= i < |events| ==> !events[i].FinishRepair?)
    ensures !RowsKept(RepairRows(rows, {}), s'.turns.db.rows)
  {
    var e := R.Act(RunEnds([], Stopped));
    RunStops(s.turns, t);
    var stopped := R.State(s.turns.(job := Busy(Some(t), CloseAndClear, false)), s.repairing);
    var more;
    more, s' := WriteBreaks(stopped, rows, t, true, id);
    FirstStep(s, e, more, s');
    events := [e] + more;
  }

  lemma OpenInTurn(rows: seq<Row>, t: Turn) returns (id: CallId)
    requires R.Synced(rows, t) && OpenIds(TurnMessages(t)) != []
    ensures id in OpenIds(History(Last(rows))) && !R.AnsweredAsUnknown(TurnMessages(t), id)
  {
    StoredSame(t);
    id := OpenIds(TurnMessages(t))[0];
    assert id in OpenIds(TurnMessages(t));
  }

  lemma QuietIsNotPending(db: Db, a: Action)
    requires db.rows != [] && Quiet(Last(db.rows))
    ensures !IdleState(db, Some(a))
  {
    if IdleState(db, Some(a)) {
      var k := PendingIsOpen(db, a);
    }
  }

  lemma SetState(s: System, rows: seq<Row>, t: Turn, a: Action)
    requires s.Up? && s.job.Busy? && s.job.turn == Some(t) && s.db.rows == rows && s.job.todo != [] && s.job.todo[0] == SetAction(a)
    ensures Next(s, CommitNext) == Up(Db(rows, Some(a)), Some(a), Settle(Some(t), s.job.todo[1..], s.job.resume))
  {
    CommitResult(s);
  }

  /** The turn sets calls pending that the repair has answered, and is over. */
  lemma SetLastBreaks(s: R.State, rows: seq<Row>, t: Turn, a: Action)
    requires s.turns.Up? && s.turns.job == Busy(Some(t), [SetAction(a)], false) && !s.repairing
    requires s.turns.db.rows == RepairRows(rows, {}) && RowsOk(rows) && rows != []
    ensures var s' := R.Next(s, R.Act(CommitNext)); AtRest(s') && !IdleState(s'.turns.db, s'.turns.action)
  {
    SetState(s.turns, RepairRows(rows, {}), t, a);
    RepairedBeside(rows);
    assert Shut(Last(RepairRows(rows, {})));
    QuietIsNotPending(Db(RepairRows(rows, {}), Some(a)), a);
  }

  lemma SetThenCloseState(s: System, rows: seq<Row>, t: Turn, a: Action)
    requires s.Up? && s.job == Busy(Some(t), [SetAction(a)] + CloseAndClear, false) && s.db.rows == rows
    ensures Enabled(s, CommitNext) && Next(s, CommitNext) == Up(Db(rows, Some(a)), Some(a), Busy(Some(t), CloseAndClear, false))
  {
    SetState(s, rows, t, a);
    assert ([SetAction(a)] + CloseAndClear)[1..] == CloseAndClear;
  }

  /** It sets them pending and closes the turn. */
  lemma SetThenCloseBreaks(s: R.State, rows: seq<Row>, t: Turn, a: Action) returns (events: seq<R.Event>, s': R.State)
    requires RepairedTurnState(s, rows, t) && !s.turns.job.resume && s.turns.job.todo == [SetAction(a)] + CloseAndClear
    requires R.Synced(rows, t) && OpenIds(TurnMessages(t)) != []
    ensures R.Runs(s, events, s') && (forall i :: 0 <= i < |events| ==> !events[i].FinishRepair?)
    ensures !RowsKept(RepairRows(rows, {}), s'.turns.db.rows)
  {
    SetThenCloseState(s.turns, RepairRows(rows, {}), t, a);
    var set_ := R.State(Up(Db(RepairRows(rows, {}), Some(a)), Some(a), Busy(Some(t), CloseAndClear, false)), s.repairing);
    var id := OpenInTurn(rows, t);
    var more;
    more, s' := WriteBreaks(set_, rows, t, true, id);
    FirstStep(s, R.Act(CommitNext), more, s');
    events := [R.Act(CommitNext)] + more;
  }

  lemma SetsLast(todo: seq<Write>)
    requires todo != [] && todo[0].SetAction? && R.Closes(todo)
    ensures todo == [todo[0]] || todo == [todo[0]] + CloseAndClear
  {
    assert todo == [todo[0]] + todo[1..];
  }

  lemma NotRight(s: R.State, s': R.State)
    requires !RowsKept(s.turns.db.rows, s'.turns.db.rows) || (AtRest(s') && !IdleState(s'.turns.db, s'.turns.action))
    ensures !Right(s, s')
  {
  }

  lemma SetBreaks(s: R.State, rows: seq<Row>, t: Turn) returns (events: seq<R.Event>, s': R.State)
    requires RepairedTurnState(s, rows, t) && !s.repairing && !s.turns.job.resume
    requires s.turns.job.todo != [] && s.turns.job.todo[0].SetAction? && R.Closes(s.turns.job.todo)
    requires R.Synced(rows, t) && OpenIds(TurnMessages(t)) != []
    ensures R.Runs(s, events, s') && (forall i :: 0 <= i < |events| ==> !events[i].FinishRepair?)
    ensures !Right(s, s')
  {
    var a := s.turns.job.todo[0].action;
    SetsLast(s.turns.job.todo);
    if s.turns.job.todo == [SetAction(a)] {
      s' := RunWrite(s, SetAction(a));
      events := [R.Act(CommitNext)];
      SetLastBreaks(s, rows, t, a);
    } else {
      events, s' := SetThenCloseBreaks(s, rows, t, a);
    }
    NotRight(s, s');
  }

  /** At rest but for the repair, with a call pending: the repair answers it and leaves it pending. */
  lemma IdleBreaks(s: R.State)
    requires R.RepairInv(s) && s.repairing && s.turns.Up? && s.turns.job.Idle? && s.turns.action.Some?
    ensures var s' := R.Next(s, R.FinishRepair); AtRest(s') && !IdleState(s'.turns.db, s'.turns.action)
  {
    var rows, a := s.turns.db.rows, s.turns.action.value;
    RepairedBeside(rows);
    assert rows != [] && Shut(Last(RepairRows(rows, {})));
    QuietIsNotPending(s.turns.db.(rows := RepairRows(rows, {})), a);
  }

  lemma {:induction false} FirstSets(todo: seq<Write>)
    requires R.FirstWrite(todo).Some? && R.FirstWrite(todo).value.SetAction?
    ensures R.SetsAction(todo).Some?
  {
    if todo[0].ClearAction? {
      FirstSets(todo[1..]);
    }
  }

  /** The state right after a harmful repair of a session in the middle of a job. */
  lemma BusyHarm(s: R.State) returns (rows: seq<Row>, t: Turn)
    requires R.RepairInv(s) && s.repairing && s.turns.Up? && s.turns.job.Busy? && R.Harmful(s)
    ensures var s1 := R.Next(s, R.FinishRepair);
            && RepairedTurnState(s1, rows, t) && s1.turns.job == s.turns.job && !s1.repairing
            && R.ClosingShape(rows, t, s.turns.job.todo) && (R.SetsAction(s.turns.job.todo).Some? ==> !s.turns.job.resume)
            && RowOf(s.turns.db.rows, t.row) == Some(Last(rows))
  {
    var c := BeforeClearing(s);
    rows, t := s.turns.db.rows, s.turns.job.turn.value;
    assert CoreOk(c);
    LeafOfTurn(rows, t);
  }

  /** A turn whose row the repair spoiled, at its next write. */
  lemma SpoiledBreaks(s: R.State, rows: seq<Row>, t: Turn, first: Option<Write>) returns (events: seq<R.Event>, s': R.State)
    requires RepairedTurnState(s, rows, t) && R.Spoils(Last(rows), t)
    requires first.None? ==> s.turns.job.todo == [] && s.turns.job.resume
    requires first.Some? ==> s.turns.job.todo != [] && s.turns.job.todo[0] == first.value && first.value.Snapshot?
    ensures R.Runs(s, events, s') && (forall i :: 0 <= i < |events| ==> !events[i].FinishRepair?)
    ensures !RowsKept(RepairRows(rows, {}), s'.turns.db.rows)
  {
    var id :| id in OpenIds(History(Last(rows))) && !R.AnsweredAsUnknown(TurnMessages(t), id);
    if first.None? {
      events, s' := CancelBreaks(s, rows, t, id);
    } else {
      events, s' := WriteBreaks(s, rows, t, first.value.close, id);
    }
  }

  lemma SpoiledLeaf(s: R.State, rows: seq<Row>, t: Turn)
    requires s.turns.Up? && s.turns.job.Busy? && R.Harmful(s) && s.turns.job.turn == Some(t)
    requires rows != [] && RowOf(s.turns.db.rows, t.row) == Some(Last(rows))
    requires !(R.FirstWrite(s.turns.job.todo).Some? && R.FirstWrite(s.turns.job.todo).value.SetAction?)
    ensures R.Spoils(Last(rows), t) && (R.FirstWrite(s.turns.job.todo).None? ==> s.turns.job.resume)
    ensures R.FirstWrite(s.turns.job.todo).Some? ==> R.FirstWrite(s.turns.job.todo).value.Snapshot?
  {
  }

  lemma BusyBreaks(s: R.State) returns (events: seq<R.Event>, s': R.State)
    requires R.RepairInv(s) && s.repairing && s.turns.Up? && s.turns.job.Busy? && R.Harmful(s)
    ensures var s1 := R.Next(s, R.FinishRepair);
            && R.Runs(s1, events, s') && (forall i :: 0 <= i < |events| ==> !events[i].FinishRepair?)
            && !Right(s1, s')
  {
    var s1 := R.Next(s, R.FinishRepair);
    var rows, t := BusyHarm(s);
    events, s' := RepairedBreaks(s, s1, rows, t);
  }

  lemma RepairedBreaks(s: R.State, s1: R.State, rows: seq<Row>, t: Turn) returns (events: seq<R.Event>, s': R.State)
    requires s.turns.Up? && s.turns.job.Busy? && R.Harmful(s) && s.turns.job.turn == Some(t)
    requires RepairedTurnState(s1, rows, t) && s1.turns.job == s.turns.job && !s1.repairing
    requires R.ClosingShape(rows, t, s.turns.job.todo) && (R.SetsAction(s.turns.job.todo).Some? ==> !s.turns.job.resume)
    requires rows != [] && RowOf(s.turns.db.rows, t.row) == Some(Last(rows))
    ensures R.Runs(s1, events, s') && (forall i :: 0 <= i < |events| ==> !events[i].FinishRepair?)
    ensures !Right(s1, s')
  {
    var first := R.FirstWrite(s.turns.job.todo);
    var sets := first.Some? && first.value.SetAction?;
    if !sets {
      SpoiledLeaf(s, rows, t);
    }
    var before, ready := RunClears(s1);
    var more;
    if sets {
      FirstSets(s.turns.job.todo);
      more, s' := SetBreaks(ready, rows, t);
    } else {
      more, s' := SpoiledBreaks(ready, rows, t, first);
      NotRight(ready, s');
    }
    RunsJoin(s1, before, ready, more, s');
    events := before + more;
  }

  /** Every repair that does harm can be followed by a run, without another repair, that
      changes a result or leaves an answered call pending. */
  lemma HarmIsReal(s: R.State) returns (events: seq<R.Event>, s': R.State)
    requires R.RepairInv(s) && s.repairing && R.Harmful(s)
    ensures var s1 := R.Next(s, R.FinishRepair); R.Runs(s1, events, s') && R.Careful(s1, events) && !Right(s1, s')
  {
    if s.turns.job.Idle? {
      IdleBreaks(s);
      events, s' := [], R.Next(s, R.FinishRepair);
    } else {
      events, s' := BusyBreaks(s);
    }
    NoRepairIsCareful(R.Next(s, R.FinishRepair), events);
  }

  lemma SafeStaysRight(s: R.State)
    requires R.RepairInv(s)
    ensures StaysRight(s)
  {
    forall events, s' | R.Runs(s, events, s') && R.Careful(s, events) ensures Right(s, s') {
      ResultsAreFinal(s, events, s');
      if AtRest(s') {
        IdleAfterRun(s, events, s');
      }
    }
  }

  /** Exactly when a repair may finish, in any reachable state: results stay final and the
      batch protocol holds over every run from then on if and only if it does no harm. */
  lemma RepairIsRightExactly(s: R.State)
    requires R.RepairInv(s) && s.repairing
    ensures StaysRight(R.Next(s, R.FinishRepair)) <==> !R.Harmful(s)
  {
    if R.Harmful(s) {
      var events, s' := HarmIsReal(s);
    } else {
      FinishIsSafe(s);
      SafeStaysRight(R.Next(s, R.FinishRepair));
    }
  }
}
