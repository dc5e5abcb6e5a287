/** Every job of a session's turns has one of the shapes of `SessionRepairs`. */
module SessionRepairShapes {
  import opened Basics
  import opened Transcript
  import opened RowMessages
  import opened RoundTrip
  import opened CallResults
  import opened ResolvedReturns
  import opened SessionRows
  import opened HostActions
  import opened HostActionInvariant
  import opened HostActionSafety
  import opened HostActionRuns
  import opened HostActionSteps
  import R = SessionRepairs

  ghost predicate SameHeads(a: seq<Row>, b: seq<Row>) {
    |a| == |b| && forall i :: 0 <= i < |a| ==> a[i].id == b[i].id && a[i].role == b[i].role
  }

  lemma {:induction false} SameHeadsRow(a: seq<Row>, b: seq<Row>, id: MessageId)
    requires SameHeads(a, b)
    ensures HasRow(a, id) <==> HasRow(b, id)
    ensures R.IsReply(a, id) <==> R.IsReply(b, id)
  {
    if a != [] {
      var n := |a| - 1;
      SameHeadsRow(a[..n], b[..n], id);
      FrontHas(a, id);
      FrontHas(b, id);
    }
  }

  lemma FrontHas(rows: seq<Row>, id: MessageId)
    requires rows != []
    ensures HasRow(rows, id) <==> rows[|rows| - 1].id == id || HasRow(rows[..|rows| - 1], id)
  {
    if HasRow(rows, id) {
      var i :| 0 <= i < |rows| && rows[i].id == id;
      assert i < |rows| - 1 ==> rows[..|rows| - 1][i].id == id;
    }
    if HasRow(rows[..|rows| - 1], id) {
      var i :| 0 <= i < |rows| - 1 && rows[..|rows| - 1][i].id == id;
      assert rows[i].id == id;
    }
  }

  /** The shape of a starting job depends only on the heads of the rows. */
  lemma OpeningMoves(c: Core, c': Core, todo: seq<Write>, resume: bool)
    requires R.OpeningShape(c, todo, resume) && c'.turn == c.turn && SameHeads(c.db.rows, c'.db.rows)
    requires c'.action == c.action || c'.action.None?
    ensures R.OpeningShape(c', todo, resume)
  {
    if c.turn.Some? {
      SameHeadsRow(c.db.rows, c'.db.rows, c.turn.value.row);
    }
    if c'.action.Some? {
      SameHeadsRow(c.db.rows, c'.db.rows, c.action.value.row);
    }
    forall i | 0 <= i < |todo| ensures R.NewMessage(c'.db.rows, c.turn, todo[i]) {
      if todo[i].Create? {
        SameHeadsRow(c.db.rows, c'.db.rows, todo[i].message.id);
      }
    }
    forall i | 0 <= i < |todo| && todo[i].Supersede? ensures R.IsReply(c'.db.rows, todo[i].row) {
      SameHeadsRow(c.db.rows, c'.db.rows, todo[i].row);
    }
  }

  lemma OpeningSuperseded(c: Core, todo: seq<Write>, resume: bool)
    requires todo != [] && R.OpeningShape(c, todo, resume) && todo[0].Supersede?
    requires forall i, j :: 0 <= i < j < |c.db.rows| ==> c.db.rows[i].id != c.db.rows[j].id
    ensures SameHeads(c.db.rows, Commit(todo[0], c).db.rows) && R.OpeningShape(Commit(todo[0], c), todo[1..], resume)
  {
    var c' := Commit(todo[0], c);
    ReplacedHeads(c.db.rows, todo[0].row, todo[0].ids, todo[0].status);
    OpeningMoves(c, c', todo, resume);
    RestOpens(c', todo, resume);
  }

  lemma ReplacedHeads(rows: seq<Row>, id: MessageId, ids: set<CallId>, status: string)
    requires forall i, j :: 0 <= i < j < |rows| ==> rows[i].id != rows[j].id
    ensures SameHeads(rows, WriteSupersede(rows, id, ids, status))
  {
    var stored := RowOf(rows, id);
    if stored.Some? && AnyId(ToolsOf(stored.value.segments), ids) {
      HeadReplaced(rows, stored.value, ResolveRow(stored.value, Only(ids), AbandonedAnswer(status)));
    }
  }

  lemma HeadReplaced(rows: seq<Row>, row: Row, row': Row)
    requires forall i, j :: 0 <= i < j < |rows| ==> rows[i].id != rows[j].id
    requires row in rows && row'.id == row.id && row'.role == row.role
    ensures SameHeads(rows, Replace(rows, row'))
  {
    var k :| 0 <= k < |rows| && rows[k] == row;
    var r := Replace(rows, row');
    forall i | 0 <= i < |rows| ensures r[i].id == rows[i].id && r[i].role == rows[i].role {
      if rows[i].id == row'.id {
        assert i == k;
      }
    }
  }

  lemma RestOpens(c: Core, todo: seq<Write>, resume: bool)
    requires todo != [] && R.OpeningShape(c, todo, resume) && todo[0].Supersede?
    ensures R.OpeningShape(c, todo[1..], resume)
  {
    var rest := todo[1..];
    assert rest[0] == todo[1] && rest[1..] == todo[2..];
    forall i | 0 <= i < |rest| ensures R.NewMessage(c.db.rows, c.turn, rest[i]) {
      assert rest[i] == todo[i + 1];
    }
    forall i | 0 <= i < |rest| && rest[i].Supersede? ensures R.IsReply(c.db.rows, rest[i].row) {
      assert rest[i] == todo[i + 1];
    }
  }

  lemma OpeningCleared(c: Core, todo: seq<Write>, resume: bool)
    requires todo != [] && R.OpeningShape(c, todo, resume) && todo[0].ClearAction?
    ensures R.OpeningShape(Commit(todo[0], c), todo[1..], resume)
  {
    var rest := todo[1..];
    forall i | 0 <= i < |rest| ensures R.NewMessage(c.db.rows, c.turn, rest[i]) {
      assert rest[i] == todo[i + 1];
    }
  }

  lemma OpeningCreated(c: Core, todo: seq<Write>, resume: bool)
    requires todo != [] && R.OpeningShape(c, todo, resume) && todo[0].Create?
    ensures R.OpeningShape(Commit(todo[0], c), todo[1..], resume)
  {
    var row, rest, c' := todo[0].message, todo[1..], Commit(todo[0], c);
    assert R.NewMessage(c.db.rows, c.turn, todo[0]);
    assert rest == [todo[1]];
    if c.turn.Some? {
      FrontHas(c.db.rows + [row], c.turn.value.row);
      assert (c.db.rows + [row])[..|c.db.rows|] == c.db.rows;
    }
  }

  lemma OpeningStep(c: Core, todo: seq<Write>, resume: bool)
    requires todo != [] && R.OpeningShape(c, todo, resume)
    requires forall i, j :: 0 <= i < j < |c.db.rows| ==> c.db.rows[i].id != c.db.rows[j].id
    ensures R.OpeningShape(Commit(todo[0], c), todo[1..], resume)
  {
    match todo[0]
    case Supersede(_, _, _) => OpeningSuperseded(c, todo, resume);
    case ClearAction => OpeningCleared(c, todo, resume);
    case Create(_) => OpeningCreated(c, todo, resume);
    case SaveState =>
  }

  lemma ClosingSnapshot(c: Core, todo: seq<Write>)
    requires CoreOk(c) && c.turn.Some? && todo != [] && todo[0].Snapshot? && R.ClosingShape(c.db.rows, c.turn.value, todo)
    ensures var c' := Commit(todo[0], c); c'.turn.Some? && R.ClosingShape(c'.db.rows, c'.turn.value, todo[1..])
  {
    var t := Closing(c.turn.value, todo[0].close);
    ClosingTurn(c.db.rows, c.turn.value, todo[0].close);
    SnapshotRows(c.db.rows, t);
    assert R.SetsAction(todo) == R.SetsAction(todo[1..]);
  }

  lemma ClosingStep(c: Core, todo: seq<Write>)
    requires CoreOk(c) && c.turn.Some? && todo != [] && R.ClosingShape(c.db.rows, c.turn.value, todo)
    ensures var c' := Commit(todo[0], c); c'.turn.Some? && R.ClosingShape(c'.db.rows, c'.turn.value, todo[1..])
  {
    match todo[0]
    case Snapshot(_) => ClosingSnapshot(c, todo);
    case SetAction(_) => CloseAndClearShape(c.db.rows, c.turn.value);
    case ClearAction =>
      assert R.SetsAction(todo) == R.SetsAction(todo[1..]);
      assert R.FirstWrite(todo) == R.FirstWrite(todo[1..]);
  }

  lemma CloseAndClearShape(rows: seq<Row>, t: Turn)
    ensures R.ClosingShape(rows, t, CloseAndClear) && R.ClosingShape(rows, t, [])
    ensures R.Closes(CloseAndClear) && R.SetsAction(CloseAndClear).None?
  {
    var todo := CloseAndClear;
    assert todo[1..] == [ClearAction] && [ClearAction][1..] == [];
    assert R.Closes([]) && R.Closes([ClearAction]) && R.SetsAction([]).None? && R.SetsAction([ClearAction]).None?;
  }

  /** Saved, cleared, and then nothing, or closed. */
  lemma SavedShape(rows: seq<Row>, t: Turn, close: bool)
    ensures R.ClosingShape(rows, t, SaveAndClear + if close then CloseAndClear else [])
  {
    var rest := if close then CloseAndClear else [];
    CloseAndClearShape(rows, t);
    var todo := SaveAndClear + rest;
    assert todo[1..] == [ClearAction] + rest && ([ClearAction] + rest)[1..] == rest;
    assert R.Closes([ClearAction] + rest) && R.SetsAction([ClearAction] + rest).None?;
  }

  /** Saved, cleared, and then a batch set pending. */
  lemma SettingShape(rows: seq<Row>, t: Turn, a: Action, close: bool)
    requires a.row == t.row && OpenIds(TurnMessages(t)) != []
    ensures R.ClosingShape(rows, t, SaveAndClear + [SetAction(a)] + if close then CloseAndClear else [])
  {
    var rest := if close then CloseAndClear else [];
    var todo := SaveAndClear + [SetAction(a)] + rest;
    var set_ := [SetAction(a)] + rest;
    assert set_[1..] == rest;
    assert todo[1..] == [ClearAction] + set_ && ([ClearAction] + set_)[1..] == set_;
    assert R.Closes(set_) && R.SetsAction(set_) == Some(a);
    assert R.Closes([ClearAction] + set_) && R.SetsAction([ClearAction] + set_) == Some(a);
  }

  lemma StartShape(s: System, e: Event)
    requires R.Sound(s) && Enabled(s, e) && (e.Message? || e.Abandon? || e.HostMessage?)
    ensures R.Shaped(Next(s, e))
  {
    var rows := s.db.rows;
    if s.action.Some? {
      RowOfLast(rows, s.action.value.row);
    }
    match e
    case Message(user, reply, hostTools) =>
      var row := user.(parent := ParentOf(rows, user));
      var t := NewTurn(reply, Some(row.id), []).(hostTools := hostTools);
      assert CallIds([]) == [] && TurnMessages(t) == [];
      MessageShape(Core(s.db, s.action, Some(t)), "superseded", row);
    case Abandon(status) => AbandonShape(Core(s.db, s.action, None), status);
    case HostMessage(host) => HostShape(Core(s.db, s.action, None), AtLeaf(rows, host));
  }

  lemma MessageShape(c: Core, status: string, row: Row)
    requires c.turn.Some? && c.turn.value.answers.None? && TurnOk([], c.turn.value) && !HasRow(c.db.rows, c.turn.value.row)
    requires row.role != Assistant && !HasRow(c.db.rows, row.id) && c.turn.value.row != row.id
    requires c.action.Some? ==> R.IsReply(c.db.rows, c.action.value.row)
    ensures R.OpeningShape(c, AbandonWrites(c.action, status) + [Create(row), SaveState], true)
  {
    var rest := [Create(row), SaveState];
    var todo := AbandonWrites(c.action, status) + rest;
    if c.action.Some? {
      assert todo[2..] == rest;
    } else {
      assert todo == rest;
    }
  }

  lemma AbandonShape(c: Core, status: string)
    requires c.turn.None? && c.action.Some? && R.IsReply(c.db.rows, c.action.value.row)
    ensures R.OpeningShape(c, AbandonWrites(c.action, status), false)
  {
    assert AbandonWrites(c.action, status)[2..] == [];
  }

  lemma HostShape(c: Core, row: Row)
    requires c.turn.None? && c.action.None? && row.role != Assistant && !HasRow(c.db.rows, row.id)
    ensures R.OpeningShape(c, [Create(row), SaveState], false)
  {
  }

  lemma ContinueShape(s: System, e: Event)
    requires R.Sound(s) && Enabled(s, e) && e.Continue?
    ensures R.Shaped(Next(s, e))
  {
    var a := s.action.value;
    var k: nat :| BatchAt(History(Last(s.db.rows)), a, k);
    var t := ContinueTurn(s.db.rows, a, e.output, e.outcome);
    ContinueTurnOk(s.db, a, k, e.output, e.outcome);
    RemainingBatch(s.db.rows, a, k);
    if a.batch[k + 1..] == [] {
      SavedShape(s.db.rows, t, false);
      assert SaveAndClear + [] == SaveAndClear;
    } else {
      var next := NextAction(s.db.rows, a);
      SettingShape(s.db.rows, t, next, false);
      assert SaveAndClear + [SetAction(next)] + [] == SaveAndClear + [SetAction(next)];
    }
  }

  lemma RunEndsShape(s: System, e: Event)
    requires R.Sound(s) && Enabled(s, e) && e.RunEnds?
    ensures R.Shaped(Next(s, e))
  {
    var t := Capture(s.job.turn.value, e.new_);
    AfterRunShape(s.db.rows, t, e.ending);
  }

  lemma AfterRunShape(rows: seq<Row>, t: Turn, ending: Ending)
    requires ending.Deferred? ==> ending.batch == OpenIds(TurnMessages(t))
    ensures R.ClosingShape(rows, t, WritesAfter(t, ending))
  {
    CloseAndClearShape(rows, t);
    SavedShape(rows, t, true);
    SavedShape(rows, t, false);
    assert SaveAndClear + [] == SaveAndClear;
    if ending.Deferred? && ending.batch != [] {
      SettingShape(rows, t, Action(ending.batch[0], ending.name, t.row, ending.batch, t.hostTools), ending.cancelledAfter);
    }
  }

  lemma SteerShape(s: System, e: Event)
    requires R.Sound(s) && Enabled(s, e) && e.Steer?
    ensures R.Shaped(Next(s, e))
  {
    CloseAndClearShape(s.db.rows, Next(s, e).job.turn.value);
  }

  lemma CommitShape(s: System, e: Event)
    requires R.Sound(s) && Enabled(s, e) && e.CommitNext?
    ensures R.Shaped(Next(s, e))
  {
    var c := Core(s.db, s.action, s.job.turn);
    var todo, resume := s.job.todo, s.job.resume;
    var c' := Commit(todo[0], c);
    if R.OpeningShape(c, todo, resume) {
      OpeningStep(c, todo, resume);
      if todo[1..] == [] && c'.turn.Some? {
        CloseAndClearShape(c'.db.rows, c'.turn.value);
      }
    } else {
      ClosingStep(c, todo);
    }
    assert c'.db.action == c'.action;
  }

  // ---------------------------------------------------------------- plans

  lemma SavedIsSettled(c: Core, resume: bool)
    requires JobOk(c, [SaveState], resume) && c.action.None? && c.db.action.None?
    ensures IdleState(c.db, None)
  {
    assert [SaveState][1..] == [] && Commit(SaveState, c) == c;
    assert JobOk(c, [], resume);
  }

  lemma RowsBeforeQuiet(rows: seq<Row>, row: Row)
    requires IdleState(Db(rows + [row], None), None)
    ensures IdleState(Db(rows, None), None)
  {
    var all := rows + [row];
    forall i | 0 <= i < |rows| ensures Quiet(rows[i]) {
      assert all[i] == rows[i] && i < |all| - 1;
    }
  }

  /** With no action, what a plan has still to write is written to a quiet session. */
  lemma PlanIsSettled(c: Core, todo: seq<Write>, resume: bool)
    requires JobOk(c, todo, resume) && R.Creates(todo) && todo != [] && c.action.None? && c.db.action.None?
    ensures IdleState(c.db, None)
  {
    if |todo| == 1 {
      assert todo == [SaveState];
      SavedIsSettled(c, resume);
    } else {
      assert todo[1..] == [SaveState];
      SavedIsSettled(Commit(todo[0], c), resume);
      RowsBeforeQuiet(c.db.rows, todo[0].message);
    }
  }

  lemma OpeningSettles(c: Core, todo: seq<Write>, resume: bool)
    requires R.OpeningShape(c, todo, resume) && JobOk(c, todo, resume) && R.AtPlanWrite(todo) && !todo[0].Supersede?
    requires c.db.action == c.action
    ensures IdleState(c.db, c.action)
  {
    PlanIsSettled(c, todo, resume);
  }

  /** After a first write that abandons what is pending comes the one that clears the action. */
  lemma AfterWrite(c: Core, todo: seq<Write>, resume: bool)
    requires R.OpeningShape(c, todo, resume) && todo != [] && R.AtPlanWrite(todo[1..])
    ensures !todo[1..][0].Supersede?
  {
  }

  lemma {:induction false} ClosesPlansNothing(todo: seq<Write>)
    requires R.Closes(todo)
    ensures !R.Plans(todo) && !R.AtPlanWrite(todo)
  {
  }

  lemma CommitSettles(s: System, e: Event)
    requires R.Sound(s) && Enabled(s, e) && e.CommitNext? && R.Shaped(Next(s, e)) && Inv(Next(s, e))
    ensures R.Settled(Next(s, e))
  {
    var c := Core(s.db, s.action, s.job.turn);
    var todo, resume := s.job.todo, s.job.resume;
    var next := Next(s, e);
    if next.job.Busy? && R.AtPlanWrite(next.job.todo) {
      if R.OpeningShape(c, todo, resume) {
        AfterWrite(c, todo, resume);
      } else {
        ClosesRestPlansNothing(todo);
      }
      NextSettles(next);
    }
  }

  lemma ClosesRestPlansNothing(todo: seq<Write>)
    requires R.Closes(todo) && todo != []
    ensures !R.AtPlanWrite(todo[1..])
  {
    if todo[0].SetAction? {
      assert todo[1..] == [] || todo[1..][0].Snapshot?;
    } else {
      ClosesPlansNothing(todo[1..]);
    }
  }

  lemma NextSettles(s: System)
    requires R.Shaped(s) && Inv(s) && s.Up? && s.job.Busy? && R.AtPlanWrite(s.job.todo) && !s.job.todo[0].Supersede?
    ensures IdleState(s.db, s.action)
  {
    var c := Core(s.db, s.action, s.job.turn);
    if R.OpeningShape(c, s.job.todo, s.job.resume) {
      OpeningSettles(c, s.job.todo, s.job.resume);
    } else {
      ClosesPlansNothing(s.job.todo);
    }
  }

  /** A plan starts from a session between jobs. */
  lemma StartSettles(s: System, e: Event)
    requires R.Sound(s) && Enabled(s, e) && (e.Message? || e.Abandon? || e.HostMessage?)
    ensures R.Settled(Next(s, e))
  {
    var next := Next(s, e);
    assert next.db == s.db && next.action == s.action && IdleState(s.db, s.action);
    StartAbandons(s, e);
  }

  lemma StartAbandons(s: System, e: Event)
    requires R.Sound(s) && Enabled(s, e) && (e.Message? || e.Abandon? || e.HostMessage?)
    ensures var next := Next(s, e); next.job.Busy? && next.job.todo != [] && next.job.todo[0].Supersede? ==> R.Abandons(next)
  {
  }

  lemma RunSettles(s: System, e: Event)
    requires Enabled(s, e) && (e.RunEnds? || e.Continue? || e.Steer?)
    ensures R.Settled(Next(s, e))
  {
    RunPlansNothing(s, e);
  }

  lemma RunPlansNothing(s: System, e: Event)
    requires Enabled(s, e) && (e.RunEnds? || e.Continue? || e.Steer?)
    ensures var next := Next(s, e); next.job.Busy? ==> !R.Plans(next.job.todo)
  {
  }

  lemma SettlesNext(s: System, e: Event)
    requires R.Sound(s) && Enabled(s, e) && R.Shaped(Next(s, e)) && Inv(Next(s, e))
    ensures R.Settled(Next(s, e))
  {
    match e
    case Message(_, _, _) | Abandon(_) | HostMessage(_) => StartSettles(s, e);
    case Continue(_, _, _) | Steer(_) | RunEnds(_, _) => RunSettles(s, e);
    case CommitNext => CommitSettles(s, e);
    case Crash | Evict | InterruptedLoad => assert Next(s, e).Down?;
    case Reload => assert Next(s, e).job.Idle?;
  }

  /** Every step of the turns keeps the session sound. */
  lemma StepIsSound(s: System, e: Event)
    requires R.Sound(s) && Enabled(s, e)
    ensures R.Sound(Next(s, e))
  {
    StepIsSafe(s, e);
    StepShapes(s, e);
    SettlesNext(s, e);
  }

  lemma StepShapes(s: System, e: Event)
    requires R.Sound(s) && Enabled(s, e) && Inv(Next(s, e))
    ensures R.Shaped(Next(s, e))
  {
    if e.Message? || e.Abandon? || e.HostMessage? {
      StartShape(s, e);
    } else if e.Continue? || e.Steer? || e.RunEnds? || e.CommitNext? {
      RunShapes(s, e);
    } else {
      LoadShapes(s, e);
    }
  }

  lemma LoadShapes(s: System, e: Event)
    requires Enabled(s, e) && Inv(Next(s, e)) && (e.Crash? || e.Evict? || e.InterruptedLoad? || e.Reload?)
    ensures R.Shaped(Next(s, e))
  {
    if e.Reload? {
      assert IdleState(Next(s, e).db, Next(s, e).action);
    }
  }

  lemma RunShapes(s: System, e: Event)
    requires R.Sound(s) && Enabled(s, e) && (e.Continue? || e.Steer? || e.RunEnds? || e.CommitNext?)
    ensures R.Shaped(Next(s, e))
  {
    match e
    case Continue(_, _, _) => ContinueShape(s, e);
    case Steer(_) => SteerShape(s, e);
    case RunEnds(_, _) => RunEndsShape(s, e);
    case CommitNext => CommitShape(s, e);
  }
}
