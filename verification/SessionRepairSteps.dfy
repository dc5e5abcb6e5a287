/** Every step of a session with repairs keeps it safe, if no repair does harm, and none
    loses a result. */
module SessionRepairSteps {
  import opened Basics
  import opened Transcript
  import opened RowMessages
  import opened RoundTrip
  import opened CallResults
  import opened ResolvedReturns
  import opened SessionRows
  import opened HostActions
  import opened HostActionInvariant
  import opened HostActionSafety
  import opened HostActionRuns
  import opened HostActionSteps
  import opened SessionRepairShapes
  import opened SessionRepairSafety
  import R = SessionRepairs

  // ---------------------------------------------------------------- finishing a repair

  lemma RepairedDb(db: Db)
    requires DbSafe(db)
    ensures DbSafe(db.(rows := RepairRows(db.rows, {})))
  {
    RepairedBeside(db.rows);
    if db.action.Some? {
      NothingToRestore(db.rows, RepairRows(db.rows, {}), db.action.value);
    }
  }

  lemma RepairedIdle(s: R.State)
    requires R.RepairInv(s) && s.turns.Up? && s.turns.job.Idle? && s.turns.action.None?
    ensures R.Sound(R.Repaired(s.turns))
  {
    var rows := RepairRows(s.turns.db.rows, {});
    RepairedDb(s.turns.db);
    RepairedBeside(s.turns.db.rows);
    forall i | 0 <= i < |rows| ensures Quiet(rows[i]) {
      assert Shut(rows[i]);
    }
  }

  lemma RepairedOpeningJob(s: R.State, c: Core)
    requires s.turns.Up? && s.turns.job.Busy? && RowsOk(c.db.rows)
    requires c.turn == s.turns.job.turn && c.db.rows == s.turns.db.rows
    requires s.turns.db.action == s.turns.action && (s.turns.action == c.action || s.turns.action.None?)
    requires R.OpeningShape(c, s.turns.job.todo, s.turns.job.resume)
    ensures var c' := Core(s.turns.db.(rows := RepairRows(c.db.rows, {})), s.turns.action, c.turn);
            && JobOk(c', s.turns.job.todo, s.turns.job.resume)
            && R.OpeningShape(c', s.turns.job.todo, s.turns.job.resume)
  {
    var c' := Core(s.turns.db.(rows := RepairRows(c.db.rows, {})), s.turns.action, c.turn);
    RepairedBeside(c.db.rows);
    BesideHeads(c.db.rows, c'.db.rows);
    OpeningMoves(c, c', s.turns.job.todo, s.turns.job.resume);
    OpeningSafe(c', s.turns.job.todo, s.turns.job.resume);
  }

  lemma RepairedBusy(s: R.State)
    requires R.RepairInv(s) && s.repairing && s.turns.Up? && s.turns.job.Busy? && !R.Harmful(s)
    ensures R.Sound(R.Repaired(s.turns))
  {
    var c := BeforeClearing(s);
    var job := s.turns.job;
    RepairedDb(s.turns.db);
    assert CoreOk(c);
    if job.todo != [] && R.OpeningShape(c, job.todo, job.resume) {
      RepairedOpeningJob(s, c);
    } else {
      RepairedClosingJob(s, c);
      StillCloses(s, c);
      ClosesPlansNothing(job.todo);
    }
    RepairedSettles(s);
  }

  /** A plan is left with quiet rows, if its action was cleared. */
  lemma RepairedSettles(s: R.State)
    requires s.repairing && s.turns.Up? && s.turns.job.Busy? && RowsOk(s.turns.db.rows) && s.turns.db.action == s.turns.action
    requires R.Plans(s.turns.job.todo) ==> s.turns.action.None?
    ensures R.Settled(R.Repaired(s.turns))
  {
    var rows := RepairRows(s.turns.db.rows, {});
    RepairedBeside(s.turns.db.rows);
    forall i | 0 <= i < |rows| ensures Quiet(rows[i]) {
      assert Shut(rows[i]);
    }
    if R.AtPlanWrite(s.turns.job.todo) && s.turns.job.todo[0].Supersede? {
      ShutRow(rows, s.turns.job.todo[0].row);
    }
  }

  lemma ShutRow(rows: seq<Row>, id: MessageId)
    requires Closed(rows)
    ensures RowOf(rows, id).Some? ==> Shut(RowOf(rows, id).value)
  {
    if RowOf(rows, id).Some? {
      var i :| 0 <= i < |rows| && rows[i] == RowOf(rows, id).value;
      assert Shut(rows[i]);
    }
  }

  lemma StillCloses(s: R.State, c: Core)
    requires s.turns.Up? && s.turns.job.Busy? && !R.Harmful(s) && c.turn == s.turns.job.turn && c.db.rows == s.turns.db.rows
    requires c.turn.Some? && R.ClosingShape(c.db.rows, c.turn.value, s.turns.job.todo)
    ensures R.ClosingShape(RepairRows(c.db.rows, {}), c.turn.value, s.turns.job.todo)
  {
    var todo := s.turns.job.todo;
    if R.FirstWrite(todo).Some? && R.FirstWrite(todo).value.SetAction? {
      RowOfLast(c.db.rows, c.turn.value.row);
    }
  }

  lemma FinishIsSafe(s: R.State)
    requires R.RepairInv(s) && s.repairing && !R.Harmful(s)
    ensures R.RepairInv(R.Next(s, R.FinishRepair))
  {
    RepairedDb(s.turns.db);
    if s.turns.Up? {
      if s.turns.job.Idle? {
        RepairedIdle(s);
      } else {
        RepairedBusy(s);
      }
    }
  }

  // ---------------------------------------------------------------- beginning one

  lemma BeginIsSafe(s: R.State)
    requires R.RepairInv(s) && R.Enabled(s, R.BeginRepair)
    ensures R.RepairInv(R.Next(s, R.BeginRepair))
  {
    if s.turns.action.Some? {
      assert R.WithAction(R.Cleared(s.turns), s.turns.action.value) == s.turns;
    }
  }

  // ---------------------------------------------------------------- steps after the action was cleared

  /** A write does the same with the action cleared, or sets or clears it itself. */
  lemma CommitCleared(w: Write, c: Core, a: Action)
    requires c.action.None? && c.db.action.None?
    ensures var c' := c.(db := c.db.(action := Some(a)), action := Some(a));
            var d, d' := Commit(w, c), Commit(w, c');
            d == d' || (d.action.None? && d.db.action.None? && d' == d.(db := d.db.(action := Some(a)), action := Some(a)))
  {
  }

  lemma CommitNextCleared(s: System, a: Action)
    requires s.Up? && R.Sound(R.WithAction(s, a)) && s.action.None? && s.db.action.None? && Enabled(s, CommitNext)
    ensures var next := Next(s, CommitNext); R.Sound(next) || R.SoundButCleared(next)
  {
    var s' := R.WithAction(s, a);
    StepIsSound(s', CommitNext);
    CommitCleared(s.job.todo[0], Core(s.db, s.action, s.job.turn), a);
    var next, next' := Next(s, CommitNext), Next(s', CommitNext);
    if next' != next {
      assert next' == R.WithAction(next, a);
    }
  }

  // ---------------------------------------------------------------- plans under a repair

  lemma CommitClearsPlan(s: System)
    requires s.Up? && s.job.Busy? && Enabled(s, CommitNext) && R.Shaped(s)
    requires R.Plans(s.job.todo) ==> s.action.None?
    ensures var next := Next(s, CommitNext); next.job.Busy? && R.Plans(next.job.todo) ==> next.action.None?
  {
    var c := Core(s.db, s.action, s.job.turn);
    if R.OpeningShape(c, s.job.todo, s.job.resume) {
    } else {
      ClosesRestPlans(s.job.todo);
    }
  }

  lemma ClosesRestPlans(todo: seq<Write>)
    requires R.Closes(todo) && todo != []
    ensures !R.Plans(todo[1..])
  {
    if todo[0].SetAction? {
      assert todo[1..] == [] || todo[1..][0].Snapshot?;
    } else {
      ClosesPlansNothing(todo[1..]);
    }
  }

  /** Under a repair no plan has an action: it was cleared, and no new plan is admitted. */
  lemma PlansStayClear(s: System, e: Event)
    requires s.Up? && Enabled(s, e) && !R.Admitted(e) && (R.Shaped(s) || R.SoundButCleared(s))
    requires s.job.Busy? && R.Plans(s.job.todo) ==> s.action.None?
    ensures var next := Next(s, e); next.Up? && next.job.Busy? && R.Plans(next.job.todo) ==> next.action.None?
  {
    if e.CommitNext? {
      if R.Shaped(s) {
        CommitClearsPlan(s);
      } else {
        var a :| R.Sound(R.WithAction(s, a));
        ClearedPlan(s, a);
      }
    } else if e.RunEnds? || e.Continue? || e.Steer? {
      RunPlansNothing(s, e);
    }
  }

  lemma ClearedPlan(s: System, a: Action)
    requires s.Up? && s.job.Busy? && Enabled(s, CommitNext) && R.Shaped(R.WithAction(s, a)) && s.action.None?
    ensures var next := Next(s, CommitNext); next.job.Busy? && R.Plans(next.job.todo) ==> next.action.None?
  {
    var c := Core(R.WithAction(s, a).db, Some(a), s.job.turn);
    if R.OpeningShape(c, s.job.todo, s.job.resume) {
    } else {
      ClosesRestPlans(s.job.todo);
    }
  }

  // ---------------------------------------------------------------- a plan that is cancelled

  lemma CutSound(s: System)
    requires R.Sound(s) && R.Planning(s)
    ensures R.Sound(s.(job := Idle))
  {
  }

  /** A plan cancelled where memory and rows agree leaves the session as it is between jobs. */
  lemma CutIsSafe(s: R.State)
    requires R.RepairInv(s) && R.Enabled(s, R.CutPlan)
    ensures R.RepairInv(R.Next(s, R.CutPlan))
  {
    if R.Sound(s.turns) {
      CutSound(s.turns);
    } else {
      var a :| R.Sound(R.WithAction(s.turns, a));
      CutSound(R.WithAction(s.turns, a));
      assert R.WithAction(s.turns.(job := Idle), a) == R.WithAction(s.turns, a).(job := Idle);
    }
  }

  lemma ClearedStep(s: System, e: Event)
    requires R.SoundButCleared(s) && DbSafe(s.db) && Enabled(s, e) && !R.Admitted(e)
    ensures var next := Next(s, e); DbSafe(next.db) && (R.Sound(next) || R.SoundButCleared(next))
  {
    var a :| R.Sound(R.WithAction(s, a));
    var s' := R.WithAction(s, a);
    match e
    case Crash | Evict => DownSafe(s'); assert R.Sound(Next(s, e));
    case CommitNext =>
      CommitNextCleared(s, a);
      SoundRows(Next(s, e));
    case Steer(_) =>
      StepIsSound(s', e);
      assert Next(s', e) == R.WithAction(Next(s, e), a);
    case RunEnds(_, _) =>
      StepIsSound(s', e);
      assert Next(s', e) == R.WithAction(Next(s, e), a);
  }

  lemma SoundRows(s: System)
    requires R.Sound(s) || R.SoundButCleared(s)
    ensures DbSafe(s.db)
  {
    if !R.Sound(s) {
      var a :| R.Sound(R.WithAction(s, a));
      assert RowsOk(R.WithAction(s, a).db.rows);
    }
  }

  /** Every step keeps the session safe, if it finishes no repair that does harm. */
  lemma RepairStepIsSafe(s: R.State, e: R.Event)
    requires R.RepairInv(s) && R.Enabled(s, e) && (e.FinishRepair? ==> !R.Harmful(s))
    ensures R.RepairInv(R.Next(s, e))
  {
    match e
    case BeginRepair => BeginIsSafe(s);
    case FinishRepair => FinishIsSafe(s);
    case CutPlan => CutIsSafe(s);
    case Act(event) => ActIsSafe(s, event);
  }

  lemma ActIsSafe(s: R.State, event: Event)
    requires R.RepairInv(s) && R.Enabled(s, R.Act(event))
    ensures R.RepairInv(R.Next(s, R.Act(event)))
  {
    if R.Sound(s.turns) {
      StepIsSound(s.turns, event);
      SoundRows(Next(s.turns, event));
    } else {
      ClearedStep(s.turns, event);
    }
    if s.repairing && !event.Crash? {
      ActStaysClear(s, event);
    }
  }

  lemma ActStaysClear(s: R.State, event: Event)
    requires R.RepairInv(s) && R.Enabled(s, R.Act(event)) && s.repairing
    ensures var next := Next(s.turns, event); next.Up? && next.job.Busy? && R.Plans(next.job.todo) ==> next.action.None?
  {
    if s.turns.Up? {
      PlansStayClear(s.turns, event);
    }
  }

  // ---------------------------------------------------------------- no step loses a result

  lemma ClearedKeeps(s: System, e: Event)
    requires R.SoundButCleared(s) && Enabled(s, e)
    ensures RowsKept(s.db.rows, Next(s, e).db.rows)
  {
    var a :| R.Sound(R.WithAction(s, a));
    SameRowsKept(s.db.rows);
    if e.CommitNext? {
      var c := Core(s.db, s.action, s.job.turn);
      var c' := c.(db := c.db.(action := Some(a)), action := Some(a));
      CommitCleared(s.job.todo[0], c, a);
      CommitKeeps(c', s.job.todo[0]);
    }
  }

  /** No step loses or changes a result, not even the one that does harm: it is the write
      after it that does. */
  lemma RepairStepKeeps(s: R.State, e: R.Event)
    requires R.RepairInv(s) && R.Enabled(s, e)
    ensures RowsKept(s.turns.db.rows, R.Next(s, e).turns.db.rows)
  {
    SameRowsKept(s.turns.db.rows);
    match e
    case BeginRepair =>
    case FinishRepair => RepairKept(s.turns.db.rows, {});
    case CutPlan =>
    case Act(event) =>
      if R.Sound(s.turns) {
        StepKeeps(s.turns, event);
      } else {
        ClearedKeeps(s.turns, event);
      }
  }
}
