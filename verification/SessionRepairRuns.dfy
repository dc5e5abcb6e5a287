/** Two runs from an empty session in which a repair falls into a running turn: in one a call
    is left pending that already has a result, in the other the recorded result is replaced. */
module SessionRepairRuns {
  import opened Basics
  import opened Transcript
  import opened RowMessages
  import opened CallResults
  import opened ResolvedReturns
  import opened SessionRows
  import opened HostActions
  import opened HostActionInvariant
  import opened HostActionSafety
  import opened SessionRepairSafety
  import opened HostActionTheorems
  import opened SessionRepairHarm
  import R = SessionRepairs

  const EMPTY: R.State := R.State(Down(Db([], None)), false)

  /** The first message of a session, and the one call its reply makes. */
  datatype Opening = Opening(user: Row, reply: MessageId, call: ResponsePart)

  predicate IsOpening(o: Opening) {
    o.user.role == Role.User && o.user.parent.None? && o.user.id != o.reply && o.call.CallPart?
  }

  function Asking(o: Opening): seq<Message> { [Response([o.call])] }

  function AskingTurn(o: Opening): Turn { NewTurn(o.reply, Some(o.user.id), []).(later := Asking(o)) }

  function AskingRow(o: Opening): Row {
    var segments := Build(Asking(o), "superseded");
    Row(o.reply, Some(o.user.id), Assistant, TextOf(segments), segments, Some(Asking(o)), o.user.createdAt + 1)
  }

  /** The session is loaded and the message stored. */
  function BeginRun(o: Opening): seq<R.Event> {
    [R.Act(Reload)] + [R.Act(HostActions.Message(o.user, o.reply, false))] + CommitTwo()
  }

  /** Then the model has run once and the turn saved its row. */
  function AskedRun(o: Opening, ending: Ending): seq<R.Event> {
    BeginRun(o) + [R.Act(RunEnds(Asking(o), ending))] + [R.Act(CommitNext)]
  }

  function RepairRun(): seq<R.Event> { [R.BeginRepair, R.FinishRepair] }

  function CommitTwo(): seq<R.Event> { [R.Act(CommitNext), R.Act(CommitNext)] }

  function HostCall(o: Opening): Ending
    requires o.call.CallPart?
  {
    Deferred([o.call.id], o.call.name, false)
  }

  function HostAction(o: Opening): Action
    requires o.call.CallPart?
  {
    Action(o.call.id, o.call.name, o.reply, [o.call.id], false)
  }

  // ---------------------------------------------------------------- the messages

  lemma AskingParts(o: Opening)
    requires o.call.CallPart?
    ensures ReplyParts(Asking(o)) == [o.call] && RequestParts(Asking(o)) == []
  {
    RequestPartsSnoc([], Response([o.call]));
    assert [] + Asking(o) == Asking(o);
  }

  lemma AskingCalls(o: Opening)
    requires o.call.CallPart?
    ensures CallIds(Asking(o)) == [o.call.id] && OpenIds(Asking(o)) == [o.call.id]
    ensures Results(Asking(o)) == map[] && Retried(Asking(o)) == {}
  {
    AskingParts(o);
    assert Results(Asking(o)).Keys + Retried(Asking(o)) == {};
    assert PartIds([o.call]) == PartIds([]) + [o.call.id];
    assert Without([o.call.id], {}) == Without([], {}) + [o.call.id];
  }

  lemma AskingTurnHolds(o: Opening)
    ensures var t := NewTurn(o.reply, Some(o.user.id), []);
            && Capture(t, Asking(o)) == AskingTurn(o) && TurnMessages(AskingTurn(o)) == Asking(o) && TurnMessages(t) == []
  {
    assert [] + Asking(o) == Asking(o);
  }

  lemma AskingRunContract(o: Opening, t: Turn)
    requires o.call.CallPart? && TurnMessages(t) == [] && TurnMessages(Capture(t, Asking(o))) == Asking(o) && t.answers.None?
    ensures RunContract(t, Asking(o))
  {
    AskingCalls(o);
    assert [] + Asking(o) == Asking(o);
  }

  lemma AskingNamed(o: Opening)
    requires o.call.CallPart?
    ensures NamedCall(Asking(o), o.call.id, o.call.name)
  {
    AskingParts(o);
    assert o.call in ReplyParts(Asking(o));
  }

  lemma AskingContract(o: Opening, ending: Ending)
    requires IsOpening(o) && (ending == HostCall(o) || ending == Rejected)
    ensures var t := NewTurn(o.reply, Some(o.user.id), []);
            && Capture(t, Asking(o)) == AskingTurn(o) && TurnMessages(AskingTurn(o)) == Asking(o)
            && RunContract(t, Asking(o)) && EndingContract(t, Asking(o), ending)
  {
    AskingTurnHolds(o);
    AskingRunContract(o, NewTurn(o.reply, Some(o.user.id), []));
    AskingNamed(o);
    AskingCalls(o);
    assert OpenIds([]) == [];
  }

  // ---------------------------------------------------------------- the run up to the repair

  lemma RunNext(s: R.State, events: seq<R.Event>, m: R.State, e: R.Event, s': R.State)
    requires R.Runs(s, events, m) && R.Enabled(m, e) && R.Next(m, e) == s'
    ensures R.Runs(s, events + [e], s')
  {
    FirstStep(m, e, [], s');
    assert [e] + [] == [e];
    RunsJoin(s, events, m, [e], s');
  }

  lemma TwoCommits(s: System, m: System, s': System)
    requires Enabled(s, CommitNext) && Next(s, CommitNext) == m && Enabled(m, CommitNext) && Next(m, CommitNext) == s'
    ensures R.Runs(R.State(s, false), CommitTwo(), R.State(s', false))
  {
    FirstStep(R.State(m, false), R.Act(CommitNext), [], R.State(s', false));
    FirstStep(R.State(s, false), R.Act(CommitNext), [R.Act(CommitNext)], R.State(s', false));
    assert [R.Act(CommitNext)] + [] == [R.Act(CommitNext)] && [R.Act(CommitNext)] + [R.Act(CommitNext)] == CommitTwo();
  }

  lemma SessionLoads()
    ensures R.Runs(EMPTY, [R.Act(Reload)], R.State(Up(Db([], None), None, Idle), false))
  {
    FirstStep(EMPTY, R.Act(Reload), [], R.State(Up(Db([], None), None, Idle), false));
    assert [R.Act(Reload)] + [] == [R.Act(Reload)];
  }

  lemma MessageArrives(o: Opening)
    requires IsOpening(o)
    ensures var s := Up(Db([], None), None, Idle);
            var e := HostActions.Message(o.user, o.reply, false);
            && Enabled(s, e)
            && Next(s, e) == s.(job := Busy(Some(NewTurn(o.reply, Some(o.user.id), [])), [Create(o.user), SaveState], true))
  {
    assert AbandonWrites(None, "superseded") + [Create(o.user), SaveState] == [Create(o.user), SaveState];
    assert o.user.(parent := ParentOf([], o.user)) == o.user;
  }

  lemma MessageStored(o: Opening, t: Turn)
    requires IsOpening(o)
    ensures var s := Up(Db([], None), None, Busy(Some(t), [Create(o.user), SaveState], true));
            var m := Up(Db([o.user], None), None, Busy(Some(t), [SaveState], true));
            && Enabled(s, CommitNext) && Next(s, CommitNext) == m
            && Enabled(m, CommitNext) && Next(m, CommitNext) == m.(job := Busy(Some(t), [], true))
  {
    assert [Create(o.user), SaveState][1..] == [SaveState] && [SaveState][1..] == [];
    assert [] + [o.user] == [o.user];
  }

  /** The turn has its message stored and waits for the model. */
  lemma TurnBegins(o: Opening)
    requires IsOpening(o)
    ensures R.Runs(EMPTY, BeginRun(o),
                   R.State(Up(Db([o.user], None), None, Busy(Some(NewTurn(o.reply, Some(o.user.id), [])), [], true)), false))
  {
    var t := NewTurn(o.reply, Some(o.user.id), []);
    var message := R.Act(HostActions.Message(o.user, o.reply, false));
    var loaded := R.State(Up(Db([], None), None, Idle), false);
    var created := Up(Db([], None), None, Busy(Some(t), [Create(o.user), SaveState], true));
    var stored := Up(Db([o.user], None), None, Busy(Some(t), [SaveState], true));
    var running := Up(Db([o.user], None), None, Busy(Some(t), [], true));
    SessionLoads();
    MessageArrives(o);
    RunNext(EMPTY, [R.Act(Reload)], loaded, message, R.State(created, false));
    MessageStored(o, t);
    TwoCommits(created, stored, running);
    RunsJoin(EMPTY, [R.Act(Reload)] + [message], R.State(created, false), CommitTwo(), R.State(running, false));
  }

  lemma RowAppended(o: Opening)
    requires IsOpening(o)
    ensures WriteSnapshot([o.user], AskingTurn(o)) == [o.user, AskingRow(o)]
  {
    AskingTurnHolds(o);
    FirstSnapshot(o.user, AskingTurn(o));
  }

  lemma FirstSnapshot(user: Row, t: Turn)
    requires user.id != t.row && !t.hostTools
    ensures var segments := Build(TurnMessages(t), t.status);
            WriteSnapshot([user], t) ==
            [user, Row(t.row, t.parent, Assistant, TextOf(segments), segments, Some(TurnMessages(t)), user.createdAt + 1)]
  {
    assert !HasRow([user], t.row);
  }

  /** The run's first write, the rest of them still to come. */
  lemma RowSaved(o: Opening, rest: seq<Write>)
    requires IsOpening(o) && rest != []
    ensures var s := Up(Db([o.user], None), None, Busy(Some(AskingTurn(o)), [Snapshot(false)] + rest, false));
            && Enabled(s, CommitNext)
            && Next(s, CommitNext) == Up(Db([o.user, AskingRow(o)], None), None, Busy(Some(AskingTurn(o)), rest, false))
  {
    var s := Up(Db([o.user], None), None, Busy(Some(AskingTurn(o)), [Snapshot(false)] + rest, false));
    CommitResult(s);
    CommitSnapshot(Core(s.db, s.action, s.job.turn), false);
    RowAppended(o);
    assert ([Snapshot(false)] + rest)[1..] == rest;
  }

  lemma SavesFirst(t: Turn, ending: Ending)
    requires ending.Rejected? || (ending.Deferred? && ending.batch != [])
    ensures WritesAfter(t, ending) == [Snapshot(false)] + WritesAfter(t, ending)[1..] && WritesAfter(t, ending)[1..] != []
  {
  }

  lemma RunAsks(o: Opening, ending: Ending)
    requires IsOpening(o) && (ending == HostCall(o) || ending == Rejected)
    ensures var s := Up(Db([o.user], None), None, Busy(Some(NewTurn(o.reply, Some(o.user.id), [])), [], true));
            && Enabled(s, RunEnds(Asking(o), ending))
            && Next(s, RunEnds(Asking(o), ending)) == s.(job := Busy(Some(AskingTurn(o)), WritesAfter(AskingTurn(o), ending), false))
  {
    var t := NewTurn(o.reply, Some(o.user.id), []);
    AskingContract(o, ending);
    SavesFirst(AskingTurn(o), ending);
    RunResult(Up(Db([o.user], None), None, Busy(Some(t), [], true)), t, Asking(o), ending);
  }

  lemma Asked(o: Opening, ending: Ending)
    requires IsOpening(o) && (ending == HostCall(o) || ending == Rejected)
    ensures R.Runs(EMPTY, AskedRun(o, ending),
                   R.State(Up(Db([o.user, AskingRow(o)], None), None,
                              Busy(Some(AskingTurn(o)), WritesAfter(AskingTurn(o), ending)[1..], false)), false))
  {
    var t, ends, before := AskingTurn(o), R.Act(RunEnds(Asking(o), ending)), BeginRun(o);
    var running := R.State(Up(Db([o.user], None), None, Busy(Some(NewTurn(o.reply, Some(o.user.id), [])), [], true)), false);
    var ended := R.State(Up(Db([o.user], None), None, Busy(Some(t), WritesAfter(t, ending), false)), false);
    var saved := R.State(Up(Db([o.user, AskingRow(o)], None), None, Busy(Some(t), WritesAfter(t, ending)[1..], false)), false);
    TurnBegins(o);
    RunAsks(o, ending);
    RunNext(EMPTY, before, running, ends, ended);
    SavesFirst(t, ending);
    RowSaved(o, WritesAfter(t, ending)[1..]);
    RunNext(EMPTY, before + [ends], ended, R.Act(CommitNext), saved);
  }

  // ---------------------------------------------------------------- the repair

  lemma RowsRepaired(o: Opening)
    requires IsOpening(o)
    ensures var rows := RepairRows([o.user, AskingRow(o)], {});
            && |rows| == 2 && rows == [o.user, rows[1]] && rows[1].id == o.reply && rows[1].role == Assistant
            && o.call.id in Results(History(rows[1])) && Results(History(rows[1]))[o.call.id] == R.Unknown()
  {
    AskingCalls(o);
    AskingRowOk(o);
    RepairRowKeeps(AskingRow(o), {});
    RepairRecords(AskingRow(o), o.call.id);
  }

  lemma AskingRowOk(o: Opening)
    requires IsOpening(o)
    ensures RowOk(AskingRow(o)) && History(AskingRow(o)) == Asking(o)
  {
    AskingCalls(o);
    BuildAgrees(Asking(o), "superseded");
    AgreeIds(Asking(o), AskingRow(o).segments);
  }

  lemma RepairFalls(s: System)
    requires s.Up? && s.action.None?
    ensures R.Runs(R.State(s, false), RepairRun(), R.State(R.Repaired(s), false))
  {
    FirstStep(R.State(s, true), R.FinishRepair, [], R.State(R.Repaired(s), false));
    FirstStep(R.State(s, false), R.BeginRepair, [R.FinishRepair], R.State(R.Repaired(s), false));
    assert [R.FinishRepair] + [] == [R.FinishRepair] && [R.BeginRepair] + [R.FinishRepair] == RepairRun();
  }

  /** The state of such a run when the repair is over. */
  function AskedRows(o: Opening): seq<Row> { RepairRows([o.user, AskingRow(o)], {}) }

  lemma AskedAndRepaired(o: Opening, ending: Ending)
    requires IsOpening(o) && (ending == HostCall(o) || ending == Rejected)
    ensures R.Runs(EMPTY, AskedRun(o, ending) + RepairRun(),
                   R.State(Up(Db(AskedRows(o), None), None, Busy(Some(AskingTurn(o)), WritesAfter(AskingTurn(o), ending)[1..], false)), false))
  {
    Asked(o, ending);
    var s := Up(Db([o.user, AskingRow(o)], None), None, Busy(Some(AskingTurn(o)), WritesAfter(AskingTurn(o), ending)[1..], false));
    RepairFalls(s);
    RunsJoin(EMPTY, AskedRun(o, ending), R.State(s, false), RepairRun(), R.State(R.Repaired(s), false));
  }

  // ---------------------------------------------------------------- what comes after it

  lemma SkipsClear(rows: seq<Row>, t: Turn, rest: seq<Write>)
    requires rest != []
    ensures var s := Up(Db(rows, None), None, Busy(Some(t), [ClearAction] + rest, false));
            Enabled(s, CommitNext) && Next(s, CommitNext) == s.(job := Busy(Some(t), rest, false))
  {
    assert ([ClearAction] + rest)[1..] == rest;
  }

  lemma SetsAfterRepair(rows: seq<Row>, t: Turn, a: Action)
    ensures R.Runs(R.State(Up(Db(rows, None), None, Busy(Some(t), [ClearAction, SetAction(a)], false)), false), CommitTwo(),
                   R.State(Up(Db(rows, Some(a)), Some(a), Idle), false))
  {
    var m := Up(Db(rows, None), None, Busy(Some(t), [SetAction(a)], false));
    SkipsClear(rows, t, [SetAction(a)]);
    assert [ClearAction] + [SetAction(a)] == [ClearAction, SetAction(a)];
    SetState(m, rows, t, a);
    TwoCommits(Up(Db(rows, None), None, Busy(Some(t), [ClearAction, SetAction(a)], false)), m, Up(Db(rows, Some(a)), Some(a), Idle));
  }

  lemma SetsPending(o: Opening)
    requires IsOpening(o)
    ensures WritesAfter(AskingTurn(o), HostCall(o))[1..] == [ClearAction, SetAction(HostAction(o))]
  {
  }

  /** A repair between a deferred turn's row and its pending action: the session comes to
      rest with a pending call that has a result. */
  lemma PendingCallIsAnswered(o: Opening)
    requires IsOpening(o)
    ensures R.Runs(EMPTY, AskedRun(o, HostCall(o)) + RepairRun() + CommitTwo(),
                   R.State(Up(Db(AskedRows(o), Some(HostAction(o))), Some(HostAction(o)), Idle), false))
    ensures |AskedRows(o)| == 2 && AskedRows(o)[1].id == HostAction(o).row
    ensures var results := Results(History(AskedRows(o)[1]));
            o.call.id == HostAction(o).call && o.call.id in results && results[o.call.id] == Result(STALE_OUTPUT, Interrupted)
  {
    AskedAndRepaired(o, HostCall(o));
    RowsRepaired(o);
    SetsPending(o);
    SetsAfterRepair(AskedRows(o), AskingTurn(o), HostAction(o));
    RunsJoin(EMPTY, AskedRun(o, HostCall(o)) + RepairRun(),
             R.State(Up(Db(AskedRows(o), None), None, Busy(Some(AskingTurn(o)), [ClearAction, SetAction(HostAction(o))], false)), false),
             CommitTwo(), R.State(Up(Db(AskedRows(o), Some(HostAction(o))), Some(HostAction(o)), Idle), false));
  }

  lemma ClosedAsInterrupted(o: Opening)
    requires IsOpening(o)
    ensures var results := Results(StoredMessages(CloseTurn(AskingTurn(o))));
            o.call.id in results && results[o.call.id] == Result(INTERRUPTED_OUTPUT, Interrupted)
  {
    var t := AskingTurn(o);
    AskingTurnHolds(o);
    AskingCalls(o);
    CloseTurnCloses(t);
    assert o.call.id in [o.call.id];
    ClosingResult(t, true, o.call.id);
  }

  lemma RewritesSecond(user: Row, row: Row, t: Turn)
    requires user.id != t.row && row.id == t.row && row.role == Assistant
    ensures var r := WriteSnapshot([user, row], t); |r| == 2 && r[1].id == t.row && History(r[1]) == StoredMessages(t)
  {
    assert RowOf([user, row], t.row) == Some(row);
  }

  lemma ClosesAfterRepair(rows: seq<Row>, t: Turn)
    ensures R.Runs(R.State(Up(Db(rows, None), None, Busy(Some(t), [ClearAction] + CloseAndClear, false)), false), CommitTwo(),
                   R.State(Up(Db(WriteSnapshot(rows, CloseTurn(t)), None), None, Busy(Some(CloseTurn(t)), [ClearAction], false)), false))
  {
    var m := Up(Db(rows, None), None, Busy(Some(t), CloseAndClear, false));
    SkipsClear(rows, t, CloseAndClear);
    assert CloseAndClear[1..] == [ClearAction];
    TwoCommits(Up(Db(rows, None), None, Busy(Some(t), [ClearAction] + CloseAndClear, false)), m,
               Up(Db(WriteSnapshot(rows, CloseTurn(t)), None), None, Busy(Some(CloseTurn(t)), [ClearAction], false)));
  }

  lemma OutputsDiffer()
    ensures Result(STALE_OUTPUT, Interrupted) != Result(INTERRUPTED_OUTPUT, Interrupted)
  {
    assert |STALE_OUTPUT| != |INTERRUPTED_OUTPUT|;
  }

  lemma ClosesNext(t: Turn)
    ensures WritesAfter(t, Rejected)[1..] == [ClearAction] + CloseAndClear
  {
  }

  lemma ReplacedRow(o: Opening, row: Row)
    requires IsOpening(o) && row.id == o.reply && row.role == Assistant
    ensures var r := WriteSnapshot([o.user, row], CloseTurn(AskingTurn(o)));
            && |r| == 2 && r[1].id == o.reply && o.call.id in Results(History(r[1]))
            && Results(History(r[1]))[o.call.id] == Result(INTERRUPTED_OUTPUT, Interrupted)
  {
    RewritesSecond(o.user, row, CloseTurn(AskingTurn(o)));
    ClosedAsInterrupted(o);
  }

  /** The session after such a repair, and after the snapshot that closes the turn. */
  function AnsweredState(o: Opening): R.State {
    R.State(Up(Db(AskedRows(o), None), None, Busy(Some(AskingTurn(o)), [ClearAction] + CloseAndClear, false)), false)
  }

  function ClosedRows(o: Opening): seq<Row> { WriteSnapshot(AskedRows(o), CloseTurn(AskingTurn(o))) }

  function ClosedState(o: Opening): R.State {
    R.State(Up(Db(ClosedRows(o), None), None, Busy(Some(CloseTurn(AskingTurn(o))), [ClearAction], false)), false)
  }

  predicate HasResult(rows: seq<Row>, reply: MessageId, call: CallId, r: Result) {
    |rows| == 2 && rows[1].id == reply && call in Results(History(rows[1])) && Results(History(rows[1]))[call] == r
  }

  /** A repair between two snapshots of a turn: the unknown result it records is replaced by
      an interrupted one. */
  lemma RepairedResultIsReplaced(o: Opening)
    requires IsOpening(o)
    ensures R.Runs(EMPTY, AskedRun(o, Rejected) + RepairRun(), AnsweredState(o))
    ensures R.Runs(AnsweredState(o), CommitTwo(), ClosedState(o))
    ensures HasResult(AskedRows(o), o.reply, o.call.id, Result(STALE_OUTPUT, Interrupted))
    ensures HasResult(ClosedRows(o), o.reply, o.call.id, Result(INTERRUPTED_OUTPUT, Interrupted))
    ensures Result(STALE_OUTPUT, Interrupted) != Result(INTERRUPTED_OUTPUT, Interrupted)
  {
    AskedAndRepaired(o, Rejected);
    RowsRepaired(o);
    ClosesNext(AskingTurn(o));
    ClosesAfterRepair(AskedRows(o), AskingTurn(o));
    ReplacedRow(o, AskedRows(o)[1]);
    OutputsDiffer();
  }
}
