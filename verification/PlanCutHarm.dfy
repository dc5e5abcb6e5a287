/** A cut that tears memory and rows apart does harm: each that `Tears` names can be followed
    by a run that changes a stored result, or that comes to rest with an action that is not
    that of the stored rows. */
module PlanCutHarm {
  import opened Basics
  import opened Transcript
  import opened RowMessages
  import opened RoundTrip
  import opened CallResults
  import opened ResolvedReturns
  import opened SessionRows
  import opened HostActions
  import opened HostActionInvariant
  import opened HostActionSafety
  import opened HostActionRuns
  import opened HostActionSteps
  import opened SessionRepairSafety
  import opened SessionRepairSteps
  import opened HostActionTheorems
  import opened SessionRepairHarm
  import opened PlanCutSafety
  import R = SessionRepairs
  import opened C = PlanCuts

  // ---------------------------------------------------------------- runs

  lemma CutFirst(s: State, e: C.Event, events: seq<C.Event>, s': State)
    requires C.Enabled(s, e) && C.Runs(C.Next(s, e), events, s')
    ensures C.Runs(s, [e] + events, s')
  {
    assert ([e] + events)[1..] == events;
  }

  /** A run without cuts and repairs. */
  predicate Plain(events: seq<C.Event>) {
    forall i :: 0 <= i < |events| ==> events[i].Act? && !events[i].event.FinishRepair?
  }

  lemma PlainFirst(e: HostActions.Event, events: seq<C.Event>)
    requires Plain(events)
    ensures Plain([C.Act(R.Act(e))] + events)
  {
  }

  lemma {:induction false} PlainIsCareful(s: State, events: seq<C.Event>)
    requires Plain(events)
    ensures C.Careful(s, events)
    decreases |events|
  {
    if events != [] && C.Enabled(s, events[0]) {
      PlainIsCareful(C.Next(s, events[0]), events[1..]);
    }
  }

  lemma NotRightRun(s: State, events: seq<C.Event>, s': State)
    requires C.Runs(s, events, s') && C.Careful(s, events) && !C.Right(s, s')
    ensures !C.StaysRight(s)
  {
  }

  /** A plain run that loses a result, or comes to rest in the wrong state. */
  lemma PlainRunHarms(s: State, events: seq<C.Event>, s': State)
    requires C.Runs(s, events, s') && Plain(events)
    requires !RowsKept(s.disk.rows, s'.disk.rows) || (AtRest(s'.live) && !IdleState(s'.disk, s'.live.turns.action))
    ensures !C.StaysRight(s)
  {
    PlainIsCareful(s, events);
    NotRightRun(s, events, s');
  }

  // ---------------------------------------------------------------- a superseded batch

  /** Memory holds the batch that the write resolved as open. */
  lemma OpenSuperseded(s: State) returns (a: Action, k: nat)
    requires C.Inv(s) && C.Enabled(s, CutSupersede) && Tears(s, CutSupersede)
    ensures var rows, w := s.live.turns.db.rows, s.live.turns.job.todo[0];
            && rows != [] && Last(rows).id == a.row && Last(rows).role == Assistant && BatchAt(History(Last(rows)), a, k)
            && RowOk(Last(rows)) && w.row == a.row && w.ids == BatchIds(a) && RowOf(rows, w.row) == Some(Last(rows))
    ensures InSync(s)
    ensures if s.live.repairing then s.live.turns.action.None?
            else s.live.turns.action == Some(a) && R.Sound(s.live.turns) && IdleState(s.live.turns.db, Some(a))
  {
    var t := s.live.turns;
    if R.Sound(t) {
      SupersedeIsOpenOrShut(t);
      a := t.action.value;
    } else {
      a :| R.Sound(R.WithAction(t, a));
      SupersedeIsOpenOrShut(R.WithAction(t, a));
      t := R.WithAction(t, a);
    }
    RowsOkLast(t.db.rows);
    k := PendingIsOpen(t.db, a);
  }

  lemma RowsOkLast(rows: seq<Row>)
    requires RowsOk(rows) && rows != []
    ensures RowOk(Last(rows))
  {
  }

  /** The stored row holds a result for the call that memory still offers. */
  lemma StoredResult(s: State, a: Action, k: nat)
    requires InSync(s) && C.Enabled(s, CutSupersede)
    requires var rows, w := s.live.turns.db.rows, s.live.turns.job.todo[0];
             && rows != [] && Last(rows).id == a.row && Last(rows).role == Assistant && BatchAt(History(Last(rows)), a, k)
             && RowOk(Last(rows)) && w.row == a.row && w.ids == BatchIds(a) && RowOf(rows, w.row) == Some(Last(rows))
    ensures var rows, answer := C.Next(s, CutSupersede).disk.rows, AbandonedAnswer(s.live.turns.job.todo[0].status);
            && rows != [] && Last(rows).id == a.row && a.call in Results(History(Last(rows)))
            && Results(History(Last(rows)))[a.call] == Result(answer.output, Interrupted)
  {
    var row, w := Last(s.live.turns.db.rows), s.live.turns.job.todo[0];
    ReplyIsNewest(s);
    SupersedeRow(row, a, k, w.status);
    assert a.batch[k..][0] == a.call;
    assert a.call in OpenIds(History(row));
    ResolveRecords(row, Only(w.ids), AbandonedAnswer(w.status), a.call);
  }

  /** A stored row with one result for the call is not kept by one with another. */
  lemma OtherResult(rows: seq<Row>, rows': seq<Row>, call: CallId, r: Result, r': Result)
    requires rows != [] && |rows'| == |rows| && r != r'
    requires call in Results(History(Last(rows))) && Results(History(Last(rows)))[call] == r
    requires call in Results(History(Last(rows'))) && Results(History(Last(rows')))[call] == r'
    ensures !RowsKept(rows, rows')
  {
    if RowsKept(rows, rows') {
      KeptLeaf(rows, rows');
    }
  }

  lemma ContinuedRow(rows: seq<Row>, a: Action, k: nat)
    requires rows != [] && Last(rows).id == a.row && BatchAt(History(Last(rows)), a, k)
    ensures RowOf(rows, a.row).Some?
    ensures var t := ContinueTurn(rows, a, "", Success);
            && WrittenFor(rows, t) == Update(Rewritten(Last(rows), t))
            && (Last(rows).role == Assistant ==>
                  var h := History(Rewritten(Last(rows), t)); a.call in Results(h) && Results(h)[a.call] == Result("", Success))
  {
    RowOfLast(rows, a.row);
    var t := ContinueTurn(rows, a, "", Success);
    AcceptedHistory(History(Last(rows)), a, k, "", Success);
    assert TurnMessages(t) == History(Last(rows)) + [Request([ReturnPart(a.call, a.name, "", Success)], [])] + [];
    StoredSame(t);
  }

  lemma ContinueAfterCut(s: State, a: Action)
    requires s.live.turns.Up? && s.live.turns.job.Idle? && s.live.turns.action == Some(a)
    requires HostActions.Enabled(s.live.turns, Continue(a.call, "", Success)) && RowOf(s.live.turns.db.rows, a.row).Some?
    ensures var e := C.Act(R.Act(Continue(a.call, "", Success)));
            && C.Enabled(s, e)
            && var s' := C.Next(s, e);
               && s'.disk == s.disk && s'.live.turns.Up? && s'.live.turns.job.Busy? && s'.live.turns.db == s.live.turns.db
               && s'.live.turns.job.turn == Some(ContinueTurn(s.live.turns.db.rows, a, "", Success))
               && s'.live.turns.job.todo != [] && s'.live.turns.job.todo[0] == Snapshot(false)
  {
  }

  lemma SavedAfterCut(s: State, t: Turn)
    requires s.live.turns.Up? && s.live.turns.job.Busy? && s.live.turns.job.turn == Some(t)
    requires s.live.turns.job.todo != [] && s.live.turns.job.todo[0] == Snapshot(false)
    ensures var e := C.Act(R.Act(CommitNext));
            C.Enabled(s, e) && C.Next(s, e).disk.rows == Put(s.disk.rows, WrittenFor(s.live.turns.db.rows, t))
  {
  }

  /** The host answers the call that is stored as superseded, and its answer replaces that. */
  lemma ContinuationOverwrites(s: State, a: Action, k: nat, r: Result)
    requires s.live.turns.Up? && s.live.turns.job.Idle? && s.live.turns.action == Some(a)
    requires HostActions.Enabled(s.live.turns, Continue(a.call, "", Success))
    requires var rows := s.live.turns.db.rows;
             rows != [] && Last(rows).id == a.row && Last(rows).role == Assistant && BatchAt(History(Last(rows)), a, k)
    requires s.disk.rows != [] && Last(s.disk.rows).id == a.row && r != Result("", Success)
    requires a.call in Results(History(Last(s.disk.rows))) && Results(History(Last(s.disk.rows)))[a.call] == r
    ensures !C.StaysRight(s)
  {
    var events, s' := ContinuedAfterCut(s, a, k);
    OtherResult(s.disk.rows, s'.disk.rows, a.call, r, Result("", Success));
    PlainRunHarms(s, events, s');
  }

  lemma ContinuedAfterCut(s: State, a: Action, k: nat) returns (events: seq<C.Event>, s': State)
    requires s.live.turns.Up? && s.live.turns.job.Idle? && s.live.turns.action == Some(a)
    requires HostActions.Enabled(s.live.turns, Continue(a.call, "", Success))
    requires var rows := s.live.turns.db.rows;
             rows != [] && Last(rows).id == a.row && Last(rows).role == Assistant && BatchAt(History(Last(rows)), a, k)
    requires s.disk.rows != [] && Last(s.disk.rows).id == a.row
    ensures C.Runs(s, events, s') && Plain(events) && |s'.disk.rows| == |s.disk.rows|
    ensures var h := History(Last(s'.disk.rows)); a.call in Results(h) && Results(h)[a.call] == Result("", Success)
  {
    ContinuedRow(s.live.turns.db.rows, a, k);
    events, s' := ContinuedRun(s, a);
  }

  lemma ContinuedRun(s: State, a: Action) returns (events: seq<C.Event>, s': State)
    requires s.live.turns.Up? && s.live.turns.job.Idle? && s.live.turns.action == Some(a)
    requires HostActions.Enabled(s.live.turns, Continue(a.call, "", Success)) && RowOf(s.live.turns.db.rows, a.row).Some?
    ensures C.Runs(s, events, s') && Plain(events)
    ensures var live := s.live.turns.db.rows; s'.disk.rows == Put(s.disk.rows, WrittenFor(live, ContinueTurn(live, a, "", Success)))
  {
    var live, e, save := s.live.turns.db.rows, C.Act(R.Act(Continue(a.call, "", Success))), C.Act(R.Act(CommitNext));
    ContinueAfterCut(s, a);
    var s1 := C.Next(s, e);
    SavedAfterCut(s1, ContinueTurn(live, a, "", Success));
    s' := C.Next(s1, save);
    CutFirst(s1, save, [], s');
    CutFirst(s, e, [save] + [], s');
    events := [e] + ([save] + []);
    PlainFirst(CommitNext, []);
    PlainFirst(Continue(a.call, "", Success), [save] + []);
  }

  lemma AbandonedIsNotUnknown(status: string)
    ensures Result(AbandonedAnswer(status).output, Interrupted) != R.Unknown()
  {
    assert |SUPERSEDED_OUTPUT| != |STALE_OUTPUT| && |CANCELLED_OUTPUT| != |STALE_OUTPUT|;
  }

  /** The repair in progress records the unknown result over the one that is stored. */
  lemma RepairOverwrites(s: State, call: CallId, r: Result)
    requires s.live.repairing && s.live.turns.Up? && s.live.turns.job.Idle? && s.live.turns.action.None? && r != R.Unknown()
    requires var rows := s.live.turns.db.rows; rows != [] && RowOk(Last(rows)) && call in OpenIds(History(Last(rows)))
    requires s.disk.rows != [] && Last(s.disk.rows).id == Last(s.live.turns.db.rows).id
    requires call in Results(History(Last(s.disk.rows))) && Results(History(Last(s.disk.rows)))[call] == r
    ensures !C.StaysRight(s)
  {
    var live, e := s.live.turns.db.rows, C.Act(R.FinishRepair);
    RowOfLast(live, Last(live).id);
    OpenNeedsRepair(Last(live), call);
    RepairRecords(Last(live), call);
    var s1 := C.Next(s, e);
    OtherResult(s.disk.rows, s1.disk.rows, call, r, R.Unknown());
    CutFirst(s, e, [], s1);
    assert !R.Harmful(s.live) && C.Careful(s1, ([e] + [])[1..]);
    NotRightRun(s, [e] + [], s1);
  }

  /** Memory has the batch pending, or a repair in progress has still to answer it; the
      stored row has a result for its call already. */
  ghost predicate Overtaken(s: State, a: Action, k: nat, r: Result) {
    var rows, stored := s.live.turns.db.rows, s.disk.rows;
    && s.live.turns.Up? && s.live.turns.job.Idle?
    && rows != [] && Last(rows).id == a.row && Last(rows).role == Assistant && BatchAt(History(Last(rows)), a, k) && RowOk(Last(rows))
    && stored != [] && Last(stored).id == a.row
    && a.call in Results(History(Last(stored))) && Results(History(Last(stored)))[a.call] == r
    && (if s.live.repairing then s.live.turns.action.None?
        else s.live.turns.action == Some(a) && HostActions.Enabled(s.live.turns, Continue(a.call, "", Success)))
  }

  lemma SupersedeOvertakes(s: State) returns (a: Action, k: nat)
    requires C.Inv(s) && C.Enabled(s, CutSupersede) && Tears(s, CutSupersede)
    ensures Overtaken(C.Next(s, CutSupersede), a, k, Result(AbandonedAnswer(s.live.turns.job.todo[0].status).output, Interrupted))
  {
    a, k := OpenSuperseded(s);
    OvertakesFrom(s, a, k);
  }

  lemma CutSupersedeLive(s: State)
    requires C.Enabled(s, CutSupersede)
    ensures var live := C.Next(s, CutSupersede).live;
            live.repairing == s.live.repairing && live.turns.Up? && live.turns.action == s.live.turns.action
  {
  }

  lemma OvertakesFrom(s: State, a: Action, k: nat)
    requires InSync(s) && C.Enabled(s, CutSupersede)
    requires var rows, w := s.live.turns.db.rows, s.live.turns.job.todo[0];
             && rows != [] && Last(rows).id == a.row && Last(rows).role == Assistant && BatchAt(History(Last(rows)), a, k)
             && RowOk(Last(rows)) && w.row == a.row && w.ids == BatchIds(a) && RowOf(rows, w.row) == Some(Last(rows))
    requires if s.live.repairing then s.live.turns.action.None? else s.live.turns.action == Some(a) && R.Sound(s.live.turns)
    ensures Overtaken(C.Next(s, CutSupersede), a, k, Result(AbandonedAnswer(s.live.turns.job.todo[0].status).output, Interrupted))
  {
    StoredResult(s, a, k);
    if !s.live.repairing {
      CutOffersCall(s.live.turns);
    }
  }

  lemma OvertakenHarms(s: State, a: Action, k: nat, r: Result)
    requires Overtaken(s, a, k, r) && r != R.Unknown() && r != Result("", Success)
    ensures !C.StaysRight(s)
  {
    if s.live.repairing {
      assert a.batch[k..][0] == a.call;
      RepairOverwrites(s, a.call, r);
    } else {
      ContinuationOverwrites(s, a, k, r);
    }
  }

  lemma SupersedeCutHarms(s: State)
    requires C.Inv(s) && C.Enabled(s, CutSupersede) && Tears(s, CutSupersede)
    ensures !C.StaysRight(C.Next(s, CutSupersede))
  {
    var a, k := SupersedeOvertakes(s);
    var status := s.live.turns.job.todo[0].status;
    AbandonedIsNotUnknown(status);
    OvertakenHarms(C.Next(s, CutSupersede), a, k, Result(AbandonedAnswer(status).output, Interrupted));
  }

  lemma CutOffersCall(s: System)
    requires R.Sound(s) && R.Planning(s) && s.action.Some?
    ensures HostActions.Enabled(s.(job := Idle), Continue(s.action.value.call, "", Success))
  {
    CutSound(s);
    PendingIsEnabled(s.(job := Idle), "", Success);
  }

  // ---------------------------------------------------------------- an action that is gone from memory alone

  lemma ClearCutHarms(s: State)
    requires C.Inv(s) && C.Enabled(s, CutClear)
    ensures !C.StaysRight(C.Next(s, CutClear))
  {
    var s1 := C.Next(s, CutClear);
    ActionsAgree(s.live);
    assert R.Plans(s.live.turns.job.todo);
    assert s1.disk.action.Some? && s1.live.turns.action.None? && AtRest(s1.live);
    NotRightRun(s1, [], s1);
  }

  lemma ClearingLeavesQuiet(s: R.State)
    requires R.RepairInv(s) && AtClear(s.turns)
    ensures IdleState(s.turns.db.(action := None), None)
  {
    var e := R.Act(CommitNext);
    assert R.Plans(s.turns.job.todo) && s.turns.job.todo[1..] != [];
    RepairStepIsSafe(s, e);
    assert R.Sound(R.Next(s, e).turns);
  }

  /** That is all the harm it does: the next load forgets the action, and finds every call
      answered. */
  lemma ClearCutIsForgotten(s: State)
    requires C.Inv(s) && C.Enabled(s, CutClear)
    ensures var stored := C.Next(s, CutClear).disk;
            && stored.action.Some? && DbSafe(stored) && Restore(stored).None?
            && Load(stored).action.None? && IdleState(Load(stored).db, None) && RowsKept(stored.rows, Load(stored).db.rows)
  {
    ActionsAgree(s.live);
    StoredIsSafe(s);
    ClearingLeavesQuiet(s.live);
    if Restore(s.disk).Some? {
      QuietBatch(s, s.disk.action.value);
    }
    LoadSafe(s.disk);
    LoadKept(s.disk);
  }

  lemma QuietBatch(s: State, a: Action)
    requires InSync(s) && IdleState(s.live.turns.db.(action := None), None)
    ensures !BatchPrefix(s.disk.rows, a)
  {
    if s.disk.rows != [] && Last(s.disk.rows).role == Assistant {
      LastIsKnown(s);
      QuietHasNoBatch(History(Last(s.disk.rows)), a);
    }
  }

  lemma QuietHasNoBatch(h: seq<Message>, a: Action)
    requires OpenIds(h) == []
    ensures forall k: nat :: !PrefixAt(h, a, k)
  {
    forall k: nat ensures !PrefixAt(h, a, k) {
      if PrefixAt(h, a, k) {
        PrefixIsOpen(h, a, k);
      }
    }
  }

  lemma PrefixIsOpen(h: seq<Message>, a: Action, k: nat)
    requires PrefixAt(h, a, k)
    ensures a.call in OpenIds(h)
  {
    assert a.batch[k] in a.batch;
  }

  lemma LastIsNoOrphan(disk: Db, orphans: set<MessageId>)
    requires DiskOk(disk, orphans) && disk.rows != [] && Last(disk.rows).role == Assistant
    ensures Last(disk.rows).id !in orphans
  {
    var row := disk.rows[|disk.rows| - 1];
    assert row.id in orphans ==> row.role != Assistant;
  }

  lemma LastIsKnown(s: State)
    requires InSync(s) && s.disk.rows != [] && Last(s.disk.rows).role == Assistant
    ensures s.live.turns.db.rows != [] && Last(s.live.turns.db.rows) == Last(s.disk.rows)
  {
    LastIsNoOrphan(s.disk, s.orphans);
    LastIsShared(s);
  }

  // ---------------------------------------------------------------- a message after a reply

  /** A run that makes one more call, deferred to the host. */
  function OneCall(call: CallId): seq<Message> { [Response([CallPart(call, "", "")])] }

  function OneBatch(call: CallId): Ending { Deferred([call], "", false) }

  function OneAction(row: MessageId, call: CallId): Action { Action(call, "", row, [call], false) }

  /** The turn that goes on from a reply, and what it holds after such a run. */
  function LeafTurn(leaf: Row): Turn { NewTurn(leaf.id, None, History(leaf)) }

  function CallingTurn(leaf: Row, call: CallId): Turn { LeafTurn(leaf).(later := OneCall(call)) }

  predicate FreshCall(leaf: Row, call: CallId) {
    var h := History(leaf);
    call !in CallIds(h) && call !in Results(h) && call !in Retried(h)
  }

  lemma FreshCallOf(leaf: Row) returns (call: CallId)
    ensures FreshCall(leaf, call)
  {
    var h := History(leaf);
    call := LongerThanAll((set id | id in CallIds(h)) + Results(h).Keys + Retried(h));
  }

  lemma OneCallHistory(call: CallId)
    ensures CallIds(OneCall(call)) == [call] && Results(OneCall(call)) == map[] && Retried(OneCall(call)) == {}
    ensures RequestParts(OneCall(call)) == []
  {
    var p := CallPart(call, "", "");
    RequestPartsSnoc([], Response([p]));
    assert [] + OneCall(call) == OneCall(call);
    assert ReplyParts(OneCall(call)) == [p];
    assert PartIds([p]) == PartIds([]) + [call];
  }

  /** With the call added, it is the only one open. */
  lemma CallAdded(leaf: Row, call: CallId)
    requires RowOk(leaf) && Distinct(CallIds(History(leaf))) && Quiet(leaf) && FreshCall(leaf, call)
    ensures var h, m := History(leaf), History(leaf) + OneCall(call);
            && CallIds(m) == CallIds(h) + [call] && Results(m) == Results(h) && Retried(m) == Retried(h)
            && Distinct(CallIds(m)) && OpenIds(m) == [call]
  {
    CallAppended(History(leaf), call);
    DistinctSnoc(CallIds(History(leaf)), call);
    WithoutSnoc(CallIds(History(leaf)), call, Results(History(leaf)).Keys + Retried(History(leaf)));
  }

  lemma CallAppended(h: seq<Message>, call: CallId)
    ensures var m := h + OneCall(call);
            CallIds(m) == CallIds(h) + [call] && Results(m) == Results(h) && Retried(m) == Retried(h)
  {
    HistoryAppend(h, OneCall(call));
    OneCallHistory(call);
    NothingAdded(Results(h), Retried(h));
  }

  lemma NothingAdded(results: map<CallId, Result>, ids: set<CallId>)
    ensures results + map[] == results && ids + {} == ids
  {
  }

  lemma CallingHolds(leaf: Row, call: CallId)
    ensures TurnMessages(LeafTurn(leaf)) == History(leaf)
    ensures TurnMessages(CallingTurn(leaf, call)) == History(leaf) + OneCall(call)
    ensures Capture(LeafTurn(leaf), OneCall(call)) == CallingTurn(leaf, call)
  {
    assert History(leaf) + [] + [] == History(leaf) && History(leaf) + [] + OneCall(call) == History(leaf) + OneCall(call);
    assert [] + OneCall(call) == OneCall(call);
  }

  lemma CallingContract(leaf: Row, call: CallId)
    requires RowOk(leaf) && Distinct(CallIds(History(leaf))) && Quiet(leaf) && FreshCall(leaf, call)
    ensures RunContract(LeafTurn(leaf), OneCall(call)) && EndingContract(LeafTurn(leaf), OneCall(call), OneBatch(call))
  {
    CallingHolds(leaf, call);
    CallAdded(leaf, call);
    OneCallHistory(call);
    ReplyPartsAppend(History(leaf), OneCall(call));
    assert ReplyParts(OneCall(call)) == [] + [CallPart(call, "", "")];
    assert CallPart(call, "", "") in ReplyParts(History(leaf) + OneCall(call));
  }

  function CallingWrites(leaf: Row, call: CallId): seq<Write> {
    [Snapshot(false), ClearAction, SetAction(OneAction(leaf.id, call))]
  }

  /** The rows of the session up to such a run, in memory and in the store. */
  datatype Stage = Stage(live: seq<Row>, disk: seq<Row>, orphans: set<MessageId>, repairing: bool)

  function Staged(g: Stage, job: Job): State {
    State(R.State(Up(Db(g.live, None), None, job), g.repairing), Db(g.disk, None), g.orphans)
  }

  function SavedStage(g: Stage, t: Turn): Stage {
    g.(live := WriteSnapshot(g.live, t), disk := Put(g.disk, WrittenFor(g.live, t)))
  }

  lemma SteerStarts(g: Stage, reply: MessageId)
    requires g.live != [] && Last(g.live).role == Assistant && !HasRow(g.live, reply) && reply !in g.orphans
    ensures var s, e := Staged(g, Idle), C.Act(R.Act(Steer(reply)));
            C.Enabled(s, e) && C.Next(s, e) == Staged(g, Busy(Some(LeafTurn(Last(g.live))), [], true))
  {
  }

  lemma CallEnds(g: Stage, leaf: Row, call: CallId)
    requires RunContract(LeafTurn(leaf), OneCall(call)) && EndingContract(LeafTurn(leaf), OneCall(call), OneBatch(call))
    ensures var s, e := Staged(g, Busy(Some(LeafTurn(leaf)), [], true)), C.Act(R.Act(RunEnds(OneCall(call), OneBatch(call))));
            C.Enabled(s, e) && C.Next(s, e) == Staged(g, Busy(Some(CallingTurn(leaf, call)), CallingWrites(leaf, call), false))
  {
    CallingHolds(leaf, call);
    CallingEnding(leaf, call);
    RunResult(Up(Db(g.live, None), None, Busy(Some(LeafTurn(leaf)), [], true)), LeafTurn(leaf), OneCall(call), OneBatch(call));
  }

  lemma CallingEnding(leaf: Row, call: CallId)
    ensures WritesAfter(CallingTurn(leaf, call), OneBatch(call)) == CallingWrites(leaf, call) && !Resumes(OneBatch(call))
  {
  }

  lemma CallSaved(g: Stage, leaf: Row, call: CallId)
    ensures var t := CallingTurn(leaf, call);
            var s, e := Staged(g, Busy(Some(t), CallingWrites(leaf, call), false)), C.Act(R.Act(CommitNext));
            C.Enabled(s, e) && C.Next(s, e) == Staged(SavedStage(g, t), Busy(Some(t), CallingWrites(leaf, call)[1..], false))
  {
    var t := CallingTurn(leaf, call);
    CommitSnapshot(Core(Db(g.live, None), None, Some(t)), false);
  }

  lemma CallCleared(g: Stage, t: Turn, a: Action)
    ensures var s, e := Staged(g, Busy(Some(t), [ClearAction, SetAction(a)], false)), C.Act(R.Act(CommitNext));
            C.Enabled(s, e) && C.Next(s, e) == Staged(g, Busy(Some(t), [SetAction(a)], false))
  {
    assert [ClearAction, SetAction(a)][1..] == [SetAction(a)];
  }

  function Pending(g: Stage, a: Action): State {
    State(R.State(Up(Db(g.live, Some(a)), Some(a), Idle), g.repairing), Db(g.disk, Some(a)), g.orphans)
  }

  lemma CallPending(g: Stage, t: Turn, a: Action)
    ensures var s, e := Staged(g, Busy(Some(t), [SetAction(a)], false)), C.Act(R.Act(CommitNext));
            C.Enabled(s, e) && C.Next(s, e) == Pending(g, a)
  {
  }

  function Loaded(db: Db): State { State(R.State(Load(db), false), Load(db).db, {}) }

  lemma CrashAndLoad(s: State)
    ensures C.Runs(s, [C.Act(R.Act(Crash)), C.Act(R.Act(Reload))], Loaded(s.disk))
  {
    CrashStep(s);
    LoadsAgain(s.disk);
    CutFirst(s, C.Act(R.Act(Crash)), [C.Act(R.Act(Reload))], Loaded(s.disk));
    assert [C.Act(R.Act(Crash))] + [C.Act(R.Act(Reload))] == [C.Act(R.Act(Crash)), C.Act(R.Act(Reload))];
  }

  lemma CrashStep(s: State)
    ensures var e := C.Act(R.Act(Crash)); C.Enabled(s, e) && C.Next(s, e) == State(R.State(Down(s.disk), false), s.disk, {})
  {
  }

  lemma LoadsAgain(disk: Db)
    ensures C.Runs(State(R.State(Down(disk), false), disk, {}), [C.Act(R.Act(Reload))], Loaded(disk))
  {
    CutFirst(State(R.State(Down(disk), false), disk, {}), C.Act(R.Act(Reload)), [], Loaded(disk));
    assert [C.Act(R.Act(Reload))] + [] == [C.Act(R.Act(Reload))];
  }

  /** The whole run: the reply is steered on, calls the host, and the process restarts. */
  function OrphanRun(reply: MessageId, call: CallId): seq<C.Event> {
    var save := C.Act(R.Act(CommitNext));
    [C.Act(R.Act(Steer(reply)))] + ([C.Act(R.Act(RunEnds(OneCall(call), OneBatch(call))))] +
      ([save] + ([save] + ([save] + [C.Act(R.Act(Crash)), C.Act(R.Act(Reload))]))))
  }

  lemma CallWritten(g: Stage, leaf: Row, call: CallId)
    ensures var t, a := CallingTurn(leaf, call), OneAction(leaf.id, call);
            var save, restart := C.Act(R.Act(CommitNext)), [C.Act(R.Act(Crash)), C.Act(R.Act(Reload))];
            C.Runs(Staged(g, Busy(Some(t), CallingWrites(leaf, call), false)), [save] + ([save] + ([save] + restart)),
                   Loaded(Db(SavedStage(g, t).disk, Some(a))))
  {
    var t, a, g' := CallingTurn(leaf, call), OneAction(leaf.id, call), SavedStage(g, CallingTurn(leaf, call));
    var save, restart := C.Act(R.Act(CommitNext)), [C.Act(R.Act(Crash)), C.Act(R.Act(Reload))];
    var s' := Loaded(Db(g'.disk, Some(a)));
    CallSaved(g, leaf, call);
    assert CallingWrites(leaf, call)[1..] == [ClearAction, SetAction(a)];
    CallCleared(g', t, a);
    CallPending(g', t, a);
    CrashAndLoad(Pending(g', a));
    CutFirst(Staged(g', Busy(Some(t), [SetAction(a)], false)), save, restart, s');
    CutFirst(Staged(g', Busy(Some(t), [ClearAction, SetAction(a)], false)), save, [save] + restart, s');
    CutFirst(Staged(g, Busy(Some(t), CallingWrites(leaf, call), false)), save, [save] + ([save] + restart), s');
  }

  lemma OrphanRuns(g: Stage, reply: MessageId, call: CallId)
    requires g.live != [] && Last(g.live).role == Assistant && !HasRow(g.live, reply) && reply !in g.orphans
    requires var leaf := Last(g.live); RowOk(leaf) && Distinct(CallIds(History(leaf))) && Quiet(leaf) && FreshCall(leaf, call)
    ensures var leaf := Last(g.live);
            C.Runs(Staged(g, Idle), OrphanRun(reply, call),
                   Loaded(Db(SavedStage(g, CallingTurn(leaf, call)).disk, Some(OneAction(leaf.id, call)))))
  {
    var leaf := Last(g.live);
    var s' := Loaded(Db(SavedStage(g, CallingTurn(leaf, call)).disk, Some(OneAction(leaf.id, call))));
    var save, restart := C.Act(R.Act(CommitNext)), [C.Act(R.Act(Crash)), C.Act(R.Act(Reload))];
    var writes := [save] + ([save] + ([save] + restart));
    SteerStarts(g, reply);
    CallingContract(leaf, call);
    CallEnds(g, leaf, call);
    CallWritten(g, leaf, call);
    CutFirst(Staged(g, Busy(Some(LeafTurn(leaf)), [], true)), C.Act(R.Act(RunEnds(OneCall(call), OneBatch(call)))), writes, s');
    CutFirst(Staged(g, Idle), C.Act(R.Act(Steer(reply))), [C.Act(R.Act(RunEnds(OneCall(call), OneBatch(call))))] + writes, s');
  }

  /** The call is stored unanswered. */
  lemma CallIsOpen(leaf: Row, call: CallId)
    requires leaf.role == Assistant && RowOk(leaf) && Distinct(CallIds(History(leaf))) && Quiet(leaf) && FreshCall(leaf, call)
    ensures var row := Rewritten(leaf, CallingTurn(leaf, call));
            row.id == leaf.id && Find(ToolsOf(row.segments), call).Some? && Find(ToolsOf(row.segments), call).value.answer.None?
  {
    var t := CallingTurn(leaf, call);
    CallingHolds(leaf, call);
    CallAdded(leaf, call);
    SnapshotRow(Rewritten(leaf, t), t);
    StoredSame(t);
    EntryOf(ToolsOf(Rewritten(leaf, t).segments), StoredMessages(t), call);
  }

  lemma RowReplaced(rows: seq<Row>, j: nat, row: Row)
    requires j < |rows| && rows[j].id == row.id && (forall i, j :: 0 <= i < j < |rows| ==> rows[i].id != rows[j].id)
    ensures RowOf(Replace(rows, row), row.id) == Some(row)
  {
    var r := Replace(rows, row);
    assert r[j] == row;
    assert HasRow(r, row.id);
    var found := RowOf(r, row.id).value;
    var i :| 0 <= i < |r| && r[i] == found;
  }

  lemma ReplacedLast(rows: seq<Row>, j: nat, row: Row)
    requires j < |rows| - 1 && rows[j].id == row.id && (forall i, j :: 0 <= i < j < |rows| ==> rows[i].id != rows[j].id)
    ensures Replace(rows, row) != [] && Last(Replace(rows, row)).id != row.id
  {
    assert rows[j].id != rows[|rows| - 1].id;
  }

  lemma CallIsRestorable(rows: seq<Row>, j: nat, leaf: Row, call: CallId)
    requires j < |rows| && rows[j].id == leaf.id && (forall i, j :: 0 <= i < j < |rows| ==> rows[i].id != rows[j].id)
    requires leaf.role == Assistant && RowOk(leaf) && Distinct(CallIds(History(leaf))) && Quiet(leaf) && FreshCall(leaf, call)
    ensures Restorable(Replace(rows, Rewritten(leaf, CallingTurn(leaf, call))), OneAction(leaf.id, call))
  {
    CallIsOpen(leaf, call);
    RowReplaced(rows, j, Rewritten(leaf, CallingTurn(leaf, call)));
  }

  /** The restored action is not that of the newest message. */
  lemma LoadedBehind(db: Db, a: Action)
    requires db.action == Some(a) && Restorable(db.rows, a) && db.rows != [] && Last(db.rows).id != a.row
    ensures AtRest(Loaded(db).live) && !IdleState(Loaded(db).disk, Loaded(db).live.turns.action)
  {
    RepairRowHead(Last(db.rows));
    LoadRowsLast(db);
  }

  lemma LoadRowsLast(db: Db)
    requires db.rows != []
    ensures Load(db).db.rows != [] && Last(Load(db).db.rows).id == Last(db.rows).id
  {
  }

  lemma LoadedBehindOrphan(rows: seq<Row>, j: nat, leaf: Row, call: CallId)
    requires j < |rows| - 1 && rows[j].id == leaf.id && (forall i, j :: 0 <= i < j < |rows| ==> rows[i].id != rows[j].id)
    requires leaf.role == Assistant && RowOk(leaf) && Distinct(CallIds(History(leaf))) && Quiet(leaf) && FreshCall(leaf, call)
    ensures var s := Loaded(Db(Replace(rows, Rewritten(leaf, CallingTurn(leaf, call))), Some(OneAction(leaf.id, call))));
            AtRest(s.live) && !IdleState(s.disk, s.live.turns.action)
  {
    var row, a := Rewritten(leaf, CallingTurn(leaf, call)), OneAction(leaf.id, call);
    var db := Db(Replace(rows, row), Some(a));
    CallIsRestorable(rows, j, leaf, call);
    ReplacedLast(rows, j, row);
    LoadedBehind(db, a);
  }

  /** The state right after the cut. */
  lemma CreateCutStage(s: State) returns (g: Stage)
    requires C.Inv(s) && C.Enabled(s, CutCreate)
    ensures var m := s.live.turns.job.todo[0].message;
            && C.Next(s, CutCreate) == Staged(g, Idle) && g.live == s.live.turns.db.rows && g.disk == s.disk.rows + [m]
            && RowsOk(g.live) && IdleState(Db(g.live, None), None)
            && (forall i, j :: 0 <= i < j < |g.disk| ==> g.disk[i].id != g.disk[j].id)
  {
    var m := s.live.turns.job.todo[0].message;
    CreateIsSound(s.live);
    CreatesOnly(s.live.turns);
    CreateCutKnown(s);
    ActionsAgree(s.live);
    LiveRowsOk(s);
    g := Stage(s.live.turns.db.rows, s.disk.rows + [m], s.orphans + {m.id}, s.live.repairing);
  }

  lemma FreshReply(rows: seq<Row>, orphans: set<MessageId>) returns (reply: MessageId)
    ensures !HasRow(rows, reply) && reply !in orphans
  {
    var ids := set i | 0 <= i < |rows| :: rows[i].id;
    reply := LongerThanAll(ids + orphans);
    forall i | 0 <= i < |rows| ensures rows[i].id != reply {
      assert rows[i].id in ids;
    }
  }

  /** A stage whose leaf is a finished reply, and whose newest message is another one. */
  ghost predicate Behind(g: Stage, j: nat) {
    && g.live != [] && j < |g.disk| - 1 && g.disk[j].id == Last(g.live).id
    && Last(g.live).role == Assistant && RowOk(Last(g.live)) && Quiet(Last(g.live)) && Distinct(CallIds(History(Last(g.live))))
    && (forall i, j :: 0 <= i < j < |g.disk| ==> g.disk[i].id != g.disk[j].id)
  }

  lemma StageCalls(g: Stage, j: nat, reply: MessageId, call: CallId)
    requires Behind(g, j) && !HasRow(g.live, reply) && reply !in g.orphans && FreshCall(Last(g.live), call)
    ensures var leaf := Last(g.live);
            var s' := Loaded(Db(SavedStage(g, CallingTurn(leaf, call)).disk, Some(OneAction(leaf.id, call))));
            && C.Runs(Staged(g, Idle), OrphanRun(reply, call), s')
            && AtRest(s'.live) && !IdleState(s'.disk, s'.live.turns.action)
  {
    var leaf := Last(g.live);
    OrphanRuns(g, reply, call);
    RowOfLast(g.live, leaf.id);
    LoadedBehindOrphan(g.disk, j, leaf, call);
  }

  lemma OrphanRunIsPlain(reply: MessageId, call: CallId)
    ensures Plain(OrphanRun(reply, call))
  {
    var save, restart := C.Act(R.Act(CommitNext)), [C.Act(R.Act(Crash)), C.Act(R.Act(Reload))];
    PlainFirst(CommitNext, restart);
    PlainFirst(CommitNext, [save] + restart);
    PlainFirst(CommitNext, [save] + ([save] + restart));
    PlainFirst(RunEnds(OneCall(call), OneBatch(call)), [save] + ([save] + ([save] + restart)));
    PlainFirst(Steer(reply), [C.Act(R.Act(RunEnds(OneCall(call), OneBatch(call))))] + ([save] + ([save] + ([save] + restart))));
  }

  lemma StageHarms(g: Stage, j: nat)
    requires Behind(g, j)
    ensures !C.StaysRight(Staged(g, Idle))
  {
    var leaf := Last(g.live);
    var call := FreshCallOf(leaf);
    var reply := FreshReply(g.live, g.orphans);
    StageCalls(g, j, reply, call);
    OrphanRunIsPlain(reply, call);
    PlainRunHarms(Staged(g, Idle), OrphanRun(reply, call),
                  Loaded(Db(SavedStage(g, CallingTurn(leaf, call)).disk, Some(OneAction(leaf.id, call)))));
  }

  lemma TornLeaf(s: State, g: Stage, m: Row) returns (j: nat)
    requires C.Inv(s) && Tears(s, CutCreate) && g.live == s.live.turns.db.rows && g.disk == s.disk.rows + [m] && RowsOk(g.live) && IdleState(Db(g.live, None), None)
    requires forall i, j :: 0 <= i < j < |g.disk| ==> g.disk[i].id != g.disk[j].id
    ensures Behind(g, j)
  {
    ReplyIsNewest(s);
    LeafCalls(g.live);
    j := |s.disk.rows| - 1;
  }

  lemma CreateCutHarms(s: State)
    requires C.Inv(s) && C.Enabled(s, CutCreate) && Tears(s, CutCreate)
    ensures !C.StaysRight(C.Next(s, CutCreate))
  {
    var g, j := TornStage(s);
    StageHarms(g, j);
  }

  lemma TornStage(s: State) returns (g: Stage, j: nat)
    requires C.Inv(s) && C.Enabled(s, CutCreate) && Tears(s, CutCreate)
    ensures C.Next(s, CutCreate) == Staged(g, Idle) && Behind(g, j)
  {
    g := CreateCutStage(s);
    j := TornLeaf(s, g, s.live.turns.job.todo[0].message);
  }

  lemma LeafCalls(rows: seq<Row>)
    requires RowsOk(rows) && rows != [] && IdleState(Db(rows, None), None) && Last(rows).role == Assistant
    ensures RowOk(Last(rows)) && Quiet(Last(rows)) && Distinct(CallIds(History(Last(rows))))
  {
    AgreeIds(History(Last(rows)), Last(rows).segments);
  }

  // ---------------------------------------------------------------- exactly when

  /** Exactly when a plan may be cancelled inside a write, in any reachable state: stored
      results stay final and the batch protocol holds over every run from then on if and
      only if the cut does not tear memory and rows apart. */
  lemma CutIsRightExactly(s: State, e: C.Event)
    requires C.Inv(s) && C.Enabled(s, e) && (e.CutSupersede? || e.CutClear? || e.CutCreate?)
    ensures C.StaysRight(C.Next(s, e)) <==> !Tears(s, e)
  {
    if !Tears(s, e) {
      CutStepIsSafe(s, e);
      CutSafeStaysRight(C.Next(s, e));
    } else if e.CutSupersede? {
      SupersedeCutHarms(s);
    } else if e.CutClear? {
      ClearCutHarms(s);
    } else {
      CreateCutHarms(s);
    }
  }

  lemma CutSafeStaysRight(s: State)
    requires C.Inv(s)
    ensures C.StaysRight(s)
  {
    forall events, s' | C.Runs(s, events, s') && C.Careful(s, events) ensures C.Right(s, s') {
      CutRunIsRight(s, events, s');
    }
  }
}
