/** A session whose plans may be cancelled inside a write stays right, as long as no cut tears
    memory and rows apart. */
module PlanCutSafety {
  import opened Basics
  import opened Transcript
  import opened RowMessages
  import opened CallResults
  import opened ResolvedReturns
  import opened SessionRows
  import opened HostActions
  import opened HostActionInvariant
  import opened HostActionSafety
  import opened HostActionRuns
  import opened HostActionSteps
  import opened SessionRepairShapes
  import opened SessionRepairSafety
  import opened SessionRepairSteps
  import opened HostActionTheorems
  import opened SessionRepairHarm
  import R = SessionRepairs
  import opened C = PlanCuts

  // ---------------------------------------------------------------- the rows memory knows

  lemma {:induction false} KnownFree(rows: seq<Row>, orphans: set<MessageId>, j: nat)
    requires j < |Known(rows, orphans)|
    ensures Known(rows, orphans)[j] in rows && Known(rows, orphans)[j].id !in orphans
  {
    var front := Known(rows[..|rows| - 1], orphans);
    if j < |front| {
      KnownFree(rows[..|rows| - 1], orphans, j);
    }
  }

  lemma {:induction false} KnownHas(rows: seq<Row>, orphans: set<MessageId>, i: nat) returns (j: nat)
    requires i < |rows| && rows[i].id !in orphans
    ensures j < |Known(rows, orphans)| && Known(rows, orphans)[j] == rows[i]
  {
    if i == |rows| - 1 {
      j := |Known(rows, orphans)| - 1;
    } else {
      j := KnownHas(rows[..|rows| - 1], orphans, i);
    }
  }

  lemma {:induction false} KnownAll(rows: seq<Row>)
    ensures Known(rows, {}) == rows
  {
    if rows != [] {
      KnownAll(rows[..|rows| - 1]);
    }
  }

  lemma KnownSnoc(rows: seq<Row>, orphans: set<MessageId>, row: Row)
    ensures Known(rows + [row], orphans) == Known(rows, orphans) + (if row.id in orphans then [] else [row])
  {
    assert (rows + [row])[..|rows|] == rows;
  }

  lemma {:induction false} KnownWithout(rows: seq<Row>, orphans: set<MessageId>, id: MessageId)
    requires !HasRow(rows, id)
    ensures Known(rows, orphans + {id}) == Known(rows, orphans)
  {
    if rows != [] {
      FrontHas(rows, id);
      KnownWithout(rows[..|rows| - 1], orphans, id);
    }
  }

  lemma {:induction false} KnownReplace(rows: seq<Row>, orphans: set<MessageId>, row: Row)
    requires row.id !in orphans
    ensures Known(Replace(rows, row), orphans) == Replace(Known(rows, orphans), row)
  {
    if rows != [] {
      var front, last := rows[..|rows| - 1], rows[|rows| - 1];
      KnownReplace(front, orphans, row);
      KnownSnoc(Replace(front, row), orphans, if last.id == row.id then row else last);
      if last.id !in orphans {
        ReplaceSnoc(Known(front, orphans), last, row);
      }
    }
  }

  lemma ReplaceSnoc(rows: seq<Row>, last: Row, row: Row)
    ensures Replace(rows + [last], row) == Replace(rows, row) + [if last.id == row.id then row else last]
  {
    assert (rows + [last])[..|rows|] == rows;
  }

  lemma {:induction false} KnownPut(rows: seq<Row>, orphans: set<MessageId>, w: RowWrite)
    requires !w.Nothing? ==> w.row.id !in orphans
    ensures Known(Put(rows, w), orphans) == Put(Known(rows, orphans), w)
  {
    match w
    case Nothing =>
    case Update(row) => KnownReplace(rows, orphans, row);
    case Insert(row) => KnownSnoc(rows, orphans, row);
  }

  /** The known rows of `rows` are among `live`, and no orphan is. */
  ghost predicate LiveHas(rows: seq<Row>, live: seq<Row>, orphans: set<MessageId>) {
    forall i :: 0 <= i < |rows| ==> RowOf(live, rows[i].id) == if rows[i].id in orphans then None else Some(rows[i])
  }

  lemma {:induction false} KnownRepaired(rows: seq<Row>, live: seq<Row>, orphans: set<MessageId>)
    requires LiveHas(rows, live, orphans)
    ensures Known(RepairOnto(rows, live), orphans) == RepairRows(Known(rows, orphans), {})
  {
    if rows != [] {
      var front, last := rows[..|rows| - 1], rows[|rows| - 1];
      assert forall i :: 0 <= i < |front| ==> front[i] == rows[i];
      KnownRepaired(front, live, orphans);
      var r := RepairedFrom(last, live);
      assert r.id == last.id by {
        assert RowOf(live, rows[|rows| - 1].id) == if last.id in orphans then None else Some(last);
      }
      KnownSnoc(RepairOnto(front, live), orphans, r);
      if last.id !in orphans {
        assert r == RepairRow(last, {});
        RepairSnoc(Known(front, orphans), last);
      }
    }
  }

  lemma RepairSnoc(rows: seq<Row>, last: Row)
    ensures RepairRows(rows + [last], {}) == RepairRows(rows, {}) + [RepairRow(last, {})]
  {
    assert (rows + [last])[..|rows|] == rows;
  }

  lemma InStepHas(s: State)
    requires InSync(s) && RowsOk(s.live.turns.db.rows)
    ensures LiveHas(s.disk.rows, s.live.turns.db.rows, s.orphans)
  {
    forall i | 0 <= i < |s.disk.rows|
      ensures RowOf(s.live.turns.db.rows, s.disk.rows[i].id) == if s.disk.rows[i].id in s.orphans then None else Some(s.disk.rows[i])
    {
      LiveRow(s, i);
    }
  }

  lemma LiveRow(s: State, i: nat)
    requires InSync(s) && RowsOk(s.live.turns.db.rows) && i < |s.disk.rows|
    ensures var row := s.disk.rows[i];
            RowOf(s.live.turns.db.rows, row.id) == if row.id in s.orphans then None else Some(row)
  {
    var rows, live, row := s.disk.rows, s.live.turns.db.rows, s.disk.rows[i];
    if row.id in s.orphans {
      OrphanIsUnknown(s, row.id);
    } else {
      var j := KnownHas(rows, s.orphans, i);
      RowAtIndex(live, j);
    }
  }

  lemma OrphanIsUnknown(s: State, id: MessageId)
    requires InSync(s) && id in s.orphans
    ensures RowOf(s.live.turns.db.rows, id).None?
  {
    if HasRow(s.live.turns.db.rows, id) {
      var j :| 0 <= j < |s.live.turns.db.rows| && s.live.turns.db.rows[j].id == id;
      KnownFree(s.disk.rows, s.orphans, j);
    }
  }

  // ---------------------------------------------------------------- what is stored is safe

  /** Every stored row but the last, if that one is known, is an orphan or one of the rows
      before the last one in memory. */
  lemma BeforeLast(s: State, i: nat) returns (j: nat)
    requires InSync(s) && i < |s.disk.rows| && s.disk.rows[i].id !in s.orphans
    ensures j < |s.live.turns.db.rows| && s.live.turns.db.rows[j] == s.disk.rows[i]
    ensures i < |s.disk.rows| - 1 && Last(s.disk.rows).id !in s.orphans ==> j < |s.live.turns.db.rows| - 1
  {
    var rows := s.disk.rows;
    if i < |rows| - 1 && Last(rows).id !in s.orphans {
      j := KnownHas(rows[..|rows| - 1], s.orphans, i);
    } else {
      j := KnownHas(rows, s.orphans, i);
    }
  }

  lemma OrphanIsQuiet(s: State, i: nat)
    requires InSync(s) && i < |s.disk.rows| && s.disk.rows[i].id in s.orphans
    ensures RowOk(s.disk.rows[i]) && CallIds(History(s.disk.rows[i])) == [] && Quiet(s.disk.rows[i])
  {
  }

  lemma LastIsShared(s: State)
    requires InSync(s) && s.disk.rows != [] && Last(s.disk.rows).id !in s.orphans
    ensures s.live.turns.db.rows != [] && Last(s.live.turns.db.rows) == Last(s.disk.rows)
  {
  }

  lemma EveryRowStored(s: State)
    requires InSync(s)
    ensures s.disk.rows == [] ==> s.live.turns.db.rows == []
  {
  }

  lemma StoredRowsOk(s: State)
    requires InSync(s) && RowsOk(s.live.turns.db.rows)
    ensures RowsOk(s.disk.rows)
  {
    forall i | 0 <= i < |s.disk.rows| ensures RowOk(s.disk.rows[i]) {
      if s.disk.rows[i].id in s.orphans {
        OrphanIsQuiet(s, i);
      } else {
        var j := BeforeLast(s, i);
      }
    }
  }

  /** A leaf that is a reply is the newest stored message too. */
  lemma ReplyIsNewest(s: State)
    requires InSync(s) && s.live.turns.db.rows != [] && Last(s.live.turns.db.rows).role == Assistant
    ensures s.disk.rows != [] && Last(s.disk.rows) == Last(s.live.turns.db.rows) && Last(s.disk.rows).id !in s.orphans
  {
    EveryRowStored(s);
    LastIsShared(s);
  }

  lemma StoredRestorable(s: State, a: Action)
    requires InSync(s) && RowsOk(s.live.turns.db.rows) && a.row !in s.orphans && Restorable(s.disk.rows, a)
    ensures Restorable(s.live.turns.db.rows, a)
  {
    var row := RowOf(s.disk.rows, a.row).value;
    var i :| 0 <= i < |s.disk.rows| && s.disk.rows[i] == row;
    LiveRow(s, i);
  }

  lemma StoredBatch(s: State, a: Action)
    requires InSync(s) && BatchPrefix(s.live.turns.db.rows, a)
    ensures BatchPrefix(s.disk.rows, a)
  {
    ReplyIsNewest(s);
    forall i, id | 0 <= i < |s.disk.rows| - 1 && id in a.batch ensures id !in OpenIds(History(s.disk.rows[i])) {
      if s.disk.rows[i].id in s.orphans {
        OrphanIsQuiet(s, i);
      } else {
        var j := BeforeLast(s, i);
      }
    }
  }

  lemma StoredIsSafe(s: State)
    requires InSync(s) && DbSafe(s.live.turns.db)
    ensures DbSafe(s.disk)
  {
    StoredRowsOk(s);
    if s.disk.action.Some? && Restorable(s.disk.rows, s.disk.action.value) {
      StoredRestorable(s, s.disk.action.value);
      StoredBatch(s, s.disk.action.value);
    }
  }

  lemma StoredOthersQuiet(s: State)
    requires InSync(s) && OthersQuiet(s.live.turns.db.rows)
    ensures OthersQuiet(s.disk.rows)
  {
    forall i | 0 <= i < |s.disk.rows| - 1 ensures Quiet(s.disk.rows[i]) {
      if s.disk.rows[i].id in s.orphans {
        OrphanIsQuiet(s, i);
      } else {
        var j := BeforeLast(s, i);
        if j == |s.live.turns.db.rows| - 1 {
          assert Last(s.live.turns.db.rows).role != Assistant;
        }
      }
    }
  }

  lemma StoredIsIdle(s: State)
    requires InSync(s) && s.live.turns.Up? && IdleState(s.live.turns.db, s.live.turns.action)
    ensures IdleState(s.disk, s.live.turns.action)
  {
    StoredOthersQuiet(s);
    if s.live.turns.action.Some? {
      ReplyIsNewest(s);
    } else if s.disk.rows != [] {
      if Last(s.disk.rows).id in s.orphans {
        OrphanIsQuiet(s, |s.disk.rows| - 1);
      } else {
        LastIsShared(s);
      }
    }
  }

  // ---------------------------------------------------------------- a write that is not cut

  lemma ActionsAgree(s: R.State)
    requires R.RepairInv(s) && s.turns.Up?
    ensures s.turns.db.action == s.turns.action
  {
  }

  lemma WrittenIsKnown(s: State, w: Write)
    requires InSync(s) && s.live.turns.Up? && s.live.turns.job.Busy? && AboutKnown(w, s.orphans)
    ensures var r := WriteOf(w, CoreOf(s.live.turns)); !r.Nothing? ==> r.row.id !in s.orphans
  {
    var c := CoreOf(s.live.turns);
    if w.Supersede? && RowOf(c.db.rows, w.row).Some? && w.row in s.orphans {
      OrphanIsUnknown(s, w.row);
    }
  }

  lemma PutDistinct(rows: seq<Row>, w: RowWrite)
    requires forall i, j :: 0 <= i < j < |rows| ==> rows[i].id != rows[j].id
    requires w.Insert? ==> !HasRow(rows, w.row.id)
    ensures forall i, j :: 0 <= i < j < |Put(rows, w)| ==> Put(rows, w)[i].id != Put(rows, w)[j].id
  {
  }

  lemma InsertIsNew(s: State, row: Row)
    requires InSync(s) && row.id !in s.orphans && RowsOk(s.live.turns.db.rows + [row])
    ensures !HasRow(s.disk.rows, row.id)
  {
    LastIsNew(s.live.turns.db.rows, row);
    MessageIsNew(s, row);
  }

  lemma LastIsNew(rows: seq<Row>, row: Row)
    requires RowsOk(rows + [row])
    ensures !HasRow(rows, row.id)
  {
    var all := rows + [row];
    forall i | 0 <= i < |rows| ensures rows[i].id != row.id {
      assert all[i].id != all[|rows|].id;
    }
  }

  /** What a known write does to the stored rows. */
  lemma PutInSync(s: State, w: RowWrite)
    requires InSync(s) && (!w.Nothing? ==> w.row.id !in s.orphans)
    requires var rows := Put(s.live.turns.db.rows, w); RowsOk(rows) && RowsKept(s.live.turns.db.rows, rows)
    ensures var rows, live := Put(s.disk.rows, w), Put(s.live.turns.db.rows, w);
            && Known(rows, s.orphans) == live
            && (forall i, j :: 0 <= i < j < |rows| ==> rows[i].id != rows[j].id)
            && (forall i :: 0 <= i < |rows| && rows[i].id in s.orphans ==> rows[i].role != Assistant)
            && LeafKnown(rows, live, s.orphans)
  {
    KnownPut(s.disk.rows, s.orphans, w);
    if w.Insert? {
      InsertIsNew(s, w.row);
    }
    PutDistinct(s.disk.rows, w);
    if w.Update? {
      PutLeafKnown(s, w.row);
    }
  }

  lemma PutLeafKnown(s: State, row: Row)
    requires InSync(s) && row.id !in s.orphans && RowsKept(s.live.turns.db.rows, Replace(s.live.turns.db.rows, row))
    ensures LeafKnown(Replace(s.disk.rows, row), Replace(s.live.turns.db.rows, row), s.orphans)
  {
    var live := s.live.turns.db.rows;
    if live != [] {
      assert RowKept(live[|live| - 1], Replace(live, row)[|live| - 1]);
    }
  }

  /** The states a write leads to, in memory and in the store. */
  lemma CommitStates(s: State)
    requires R.Enabled(s.live, R.Act(CommitNext))
    ensures var w, c, s' := s.live.turns.job.todo[0], CoreOf(s.live.turns), C.Next(s, Act(R.Act(CommitNext)));
            && s'.live.turns.Up? && s'.live == R.Next(s.live, R.Act(CommitNext)) && s'.orphans == s.orphans
            && s'.live.turns.db == Store(s.live.turns.db, w, c) && s'.disk == Store(s.disk, w, c)
  {
    CommitStores(s.live.turns.job.todo[0], CoreOf(s.live.turns));
  }

  lemma CommitRows(s: R.State)
    requires R.RepairInv(s) && R.Enabled(s, R.Act(CommitNext))
    ensures var rows := R.Next(s, R.Act(CommitNext)).turns.db.rows; RowsOk(rows) && RowsKept(s.turns.db.rows, rows)
  {
    RepairStepIsSafe(s, R.Act(CommitNext));
    RepairStepKeeps(s, R.Act(CommitNext));
  }

  lemma StoredActionKnown(w: Write, c: Core, stored: Option<Action>, orphans: set<MessageId>)
    requires AboutKnown(w, orphans) && (c.action.Some? ==> c.action.value.row !in orphans)
    requires stored.Some? ==> stored.value.row !in orphans
    ensures var a := StoredAction(w, c, stored); a.Some? ==> a.value.row !in orphans
  {
  }

  lemma CommitKnown(s: State)
    requires C.Inv(s) && R.Enabled(s.live, R.Act(CommitNext))
    ensures InSync(C.Next(s, Act(R.Act(CommitNext))))
  {
    CommitRows(s.live);
    ActionsAgree(s.live);
    CommitKnownFrom(s);
  }

  lemma CommitKnownFrom(s: State)
    requires InSync(s) && R.Enabled(s.live, R.Act(CommitNext)) && s.live.turns.db.action == s.live.turns.action
    requires var rows := R.Next(s.live, R.Act(CommitNext)).turns.db.rows; RowsOk(rows) && RowsKept(s.live.turns.db.rows, rows)
    ensures InSync(C.Next(s, Act(R.Act(CommitNext))))
  {
    var w, c := s.live.turns.job.todo[0], CoreOf(s.live.turns);
    CommitStates(s);
    CommitJobKnown(s);
    CommitInSync(s, w, c, C.Next(s, Act(R.Act(CommitNext))));
  }

  lemma CommitInSync(s: State, w: Write, c: Core, s': State)
    requires InSync(s) && s.live.turns.Up? && s.live.turns.job.Busy? && c == CoreOf(s.live.turns) && AboutKnown(w, s.orphans)
    requires s'.live.turns.Up? && s'.orphans == s.orphans && s.live.turns.db.action == s.live.turns.action
    requires s'.live.turns.db == Store(s.live.turns.db, w, c) && s'.disk == Store(s.disk, w, c)
    requires RowsOk(s'.live.turns.db.rows) && RowsKept(s.live.turns.db.rows, s'.live.turns.db.rows)
    requires JobKnown(s'.live.turns.job, s.orphans)
    ensures InSync(s')
  {
    WrittenIsKnown(s, w);
    PutInSync(s, WriteOf(w, c));
    StoredActionKnown(w, c, s.disk.action, s.orphans);
  }

  lemma CommitJobKnown(s: State)
    requires InSync(s) && R.Enabled(s.live, R.Act(CommitNext))
    ensures JobKnown(C.Next(s, Act(R.Act(CommitNext))).live.turns.job, s.orphans)
  {
    var todo := s.live.turns.job.todo;
    assert forall i :: 0 <= i < |todo[1..]| ==> todo[1..][i] == todo[i + 1];
    CommitTurnRow(todo[0], CoreOf(s.live.turns));
  }

  lemma CommitTurnRow(w: Write, c: Core)
    ensures var c' := Commit(w, c); (c'.turn.Some? <==> c.turn.Some?) && (c.turn.Some? ==> c'.turn.value.row == c.turn.value.row)
  {
  }

  // ---------------------------------------------------------------- the other steps

  predicate WritesKnown(todo: seq<Write>, orphans: set<MessageId>) {
    forall i :: 0 <= i < |todo| ==> AboutKnown(todo[i], orphans)
  }

  lemma LiveIsKnown(s: State, id: MessageId)
    requires InSync(s) && HasRow(s.live.turns.db.rows, id)
    ensures id !in s.orphans
  {
    if id in s.orphans {
      OrphanIsUnknown(s, id);
    }
  }

  lemma RunEndsKnown(t: Turn, ending: Ending, orphans: set<MessageId>)
    requires t.row !in orphans
    ensures WritesKnown(WritesAfter(t, ending), orphans)
  {
  }

  /** A step that starts or ends something is about known messages alone. */
  lemma StartKnown(s: State, e: HostActions.Event)
    requires InSync(s) && R.Enabled(s.live, R.Act(e)) && NewIds(s, e) && (e.Message? || e.Abandon? || e.HostMessage?)
    ensures var next := HostActions.Next(s.live.turns, e); next.Up? && next.db == s.live.turns.db && JobKnown(next.job, s.orphans)
  {
  }

  lemma TurnKnown(s: State, e: HostActions.Event)
    requires InSync(s) && R.Enabled(s.live, R.Act(e)) && NewIds(s, e) && (e.Continue? || e.Steer? || e.RunEnds?)
    ensures var next := HostActions.Next(s.live.turns, e); next.Up? && next.db == s.live.turns.db && JobKnown(next.job, s.orphans)
  {
    match e
    case Continue(_, _, _) => LiveIsKnown(s, s.live.turns.action.value.row);
    case Steer(_) => LiveIsKnown(s, s.live.turns.db.rows[|s.live.turns.db.rows| - 1].id);
    case RunEnds(new_, ending) => RunEndsKnown(Capture(s.live.turns.job.turn.value, new_), ending, s.orphans);
  }

  lemma RestartInSync(s: State, e: R.Event)
    requires C.Inv(s) && C.Enabled(s, Act(e)) && Restarts(e)
    ensures C.Inv(C.Next(s, Act(e)))
  {
    StoredIsSafe(s);
    KnownAll(s.disk.rows);
  }

  lemma LoadInSync(s: State, e: HostActions.Event)
    requires C.Inv(s) && C.Enabled(s, Act(R.Act(e))) && (e.Reload? || e.InterruptedLoad?)
    ensures C.Inv(C.Next(s, Act(R.Act(e))))
  {
    KnownAll(s.disk.rows);
    assert s.disk == s.live.turns.db;
    RepairStepIsSafe(s.live, R.Act(e));
    KnownAll(C.Next(s, Act(R.Act(e))).disk.rows);
  }

  lemma ActInSync(s: State, e: HostActions.Event)
    requires C.Inv(s) && C.Enabled(s, Act(R.Act(e)))
    ensures C.Inv(C.Next(s, Act(R.Act(e))))
  {
    if e.Crash? || e.Evict? {
      RestartInSync(s, R.Act(e));
    } else if e.Reload? || e.InterruptedLoad? {
      LoadInSync(s, e);
    } else {
      RepairStepIsSafe(s.live, R.Act(e));
      if e.CommitNext? {
        CommitKnown(s);
      } else if e.Message? || e.Abandon? || e.HostMessage? {
        StartKnown(s, e);
      } else {
        TurnKnown(s, e);
      }
    }
  }

  lemma RepairRowHead(row: Row)
    ensures RepairRow(row, {}).id == row.id && RepairRow(row, {}).role == row.role
  {
  }

  lemma RepairedHeads(s: State)
    requires LiveHas(s.disk.rows, s.live.turns.db.rows, s.orphans)
    ensures SameHeads(s.disk.rows, RepairOnto(s.disk.rows, s.live.turns.db.rows))
  {
    var rows, live := s.disk.rows, s.live.turns.db.rows;
    forall i | 0 <= i < |rows| ensures RepairedFrom(rows[i], live).id == rows[i].id && RepairedFrom(rows[i], live).role == rows[i].role {
      assert RowOf(live, rows[i].id) == if rows[i].id in s.orphans then None else Some(rows[i]);
    }
  }

  lemma RepairedInSync(s: State)
    requires InSync(s) && RowsOk(s.live.turns.db.rows)
    ensures var rows, live := RepairOnto(s.disk.rows, s.live.turns.db.rows), RepairRows(s.live.turns.db.rows, {});
            && Known(rows, s.orphans) == live && DiskOk(s.disk.(rows := rows), s.orphans)
            && LeafKnown(rows, live, s.orphans)
  {
    InStepHas(s);
    KnownRepaired(s.disk.rows, s.live.turns.db.rows, s.orphans);
    RepairedHeads(s);
    if s.live.turns.db.rows != [] {
      RepairRowHead(Last(s.live.turns.db.rows));
    }
  }

  lemma LiveRowsOk(s: State)
    requires C.Inv(s)
    ensures RowsOk(s.live.turns.db.rows)
  {
  }

  lemma FinishInSync(s: State)
    requires C.Inv(s) && C.Enabled(s, Act(R.FinishRepair)) && !R.Harmful(s.live)
    ensures C.Inv(C.Next(s, Act(R.FinishRepair)))
  {
    RepairStepIsSafe(s.live, R.FinishRepair);
    LiveRowsOk(s);
    RepairedInSync(s);
  }

  lemma BeginInSync(s: State)
    requires C.Inv(s) && C.Enabled(s, Act(R.BeginRepair))
    ensures C.Inv(C.Next(s, Act(R.BeginRepair)))
  {
    RepairStepIsSafe(s.live, R.BeginRepair);
    ActionsAgree(s.live);
  }

  lemma RefillInSync(s: State)
    requires C.Inv(s) && C.Enabled(s, Refill)
    ensures C.Inv(C.Next(s, Refill))
  {
    StoredIsSafe(s);
    var down := Down(s.disk);
    StepIsSound(down, Reload);
    KnownAll(Load(s.disk).db.rows);
    SoundRows(Load(s.disk));
  }

  // ---------------------------------------------------------------- cuts that do no harm

  /** A plan's first write, and whether what it resolves is still open. */
  lemma SupersedeIsOpenOrShut(s: System)
    requires R.Sound(s) && AtSupersede(s)
    ensures IdleState(s.db, s.action)
    ensures var stored := RowOf(s.db.rows, s.job.todo[0].row);
            if s.action.Some? then stored == Some(Last(s.db.rows)) && stored.value.id == s.action.value.row && !Quiet(stored.value)
            else stored.Some? ==> Shut(stored.value)
  {
    if s.action.Some? {
      RowOfLast(s.db.rows, s.action.value.row);
      if Quiet(Last(s.db.rows)) {
        QuietIsNotPending(s.db, s.action.value);
      }
    }
  }

  lemma QuietIsShut(s: R.State)
    requires R.RepairInv(s) && AtSupersede(s.turns)
    ensures var stored := RowOf(s.turns.db.rows, s.turns.job.todo[0].row);
            stored.Some? && Quiet(stored.value) ==> Shut(stored.value)
  {
    if R.Sound(s.turns) {
      SupersedeIsOpenOrShut(s.turns);
    } else {
      var a :| R.Sound(R.WithAction(s.turns, a));
      SupersedeIsOpenOrShut(R.WithAction(s.turns, a));
    }
  }

  lemma {:induction false} NothingResolved(parts: seq<ResponsePart>, tools: seq<Tool>, answered: set<CallId>)
    requires forall id :: id in PartIds(parts) ==> id in answered
    ensures ResolvedParts(parts, tools, answered) == []
  {
    if parts != [] {
      NothingResolved(parts[..|parts| - 1], tools, answered);
      var p := parts[|parts| - 1];
      assert p.CallPart? ==> p.id in PartIds(parts);
    }
  }

  /** In a row with every call answered there is nothing to resolve. */
  lemma ShutIsResolved(row: Row, scope: Scope, answer: Answer)
    requires Shut(row)
    ensures ResolveRow(row, scope, answer) == row
  {
    if row.role == Assistant {
      NoneUnanswered(ToolsOf(row.segments), scope);
      ResolveChangesNothing(row.segments, scope, answer);
      if row.messages.Some? {
        var m := row.messages.value;
        forall id | id in CallIds(m) ensures id in Results(m).Keys + Retried(m) {
          assert id !in OpenIds(m);
        }
        NothingResolved(ReplyParts(m), ToolsOf(row.segments), Results(m).Keys + Retried(m));
      }
    }
  }

  lemma ReplaceSame(s: State, row: Row)
    requires InSync(s) && row in s.live.turns.db.rows
    ensures Replace(s.disk.rows, row) == s.disk.rows
  {
    var j :| 0 <= j < |s.live.turns.db.rows| && s.live.turns.db.rows[j] == row;
    KnownFree(s.disk.rows, s.orphans, j);
    var k :| 0 <= k < |s.disk.rows| && s.disk.rows[k] == row;
    forall i | 0 <= i < |s.disk.rows| ensures Replace(s.disk.rows, row)[i] == s.disk.rows[i] {
      if s.disk.rows[i].id == row.id {
        assert i == k;
      }
    }
  }

  /** Cut where there was nothing to resolve, the write has changed nothing. */
  lemma SupersedeCutNothing(s: State)
    requires C.Inv(s) && C.Enabled(s, CutSupersede) && !Tears(s, CutSupersede)
    ensures C.Next(s, CutSupersede).disk == s.disk
  {
    var w := s.live.turns.job.todo[0];
    var stored := RowOf(s.live.turns.db.rows, w.row);
    if stored.Some? {
      QuietIsShut(s.live);
      ShutIsResolved(stored.value, Only(w.ids), AbandonedAnswer(w.status));
      ReplaceSame(s, stored.value);
    }
  }

  lemma SupersedeCutInSync(s: State)
    requires C.Inv(s) && C.Enabled(s, CutSupersede) && !Tears(s, CutSupersede)
    ensures C.Inv(C.Next(s, CutSupersede))
  {
    SupersedeCutNothing(s);
    RepairStepIsSafe(s.live, R.CutPlan);
  }

  lemma CreatesOnly(s: System)
    requires R.Sound(s) && AtCreate(s)
    ensures s.action.None? && IdleState(s.db, None)
    ensures var m := s.job.todo[0].message; m.role != Assistant && !HasRow(s.db.rows, m.id)
  {
    var c := CoreOf(s);
    if R.OpeningShape(c, s.job.todo, s.job.resume) {
      assert R.NewMessage(c.db.rows, c.turn, s.job.todo[0]);
      assert R.Creates(s.job.todo);
    } else {
      ClosesPlansNothing(s.job.todo);
    }
  }

  /** Where a plan stores its message nothing is pending. */
  lemma CreateIsSound(s: R.State)
    requires R.RepairInv(s) && AtCreate(s.turns)
    ensures R.Sound(s.turns)
  {
    if !R.Sound(s.turns) {
      var a :| R.Sound(R.WithAction(s.turns, a));
      CreatesOnly(R.WithAction(s.turns, a));
    }
  }

  lemma MessageIsNew(s: State, message: Row)
    requires InSync(s) && message.id !in s.orphans && !HasRow(s.live.turns.db.rows, message.id)
    ensures !HasRow(s.disk.rows, message.id)
  {
    if HasRow(s.disk.rows, message.id) {
      var i :| 0 <= i < |s.disk.rows| && s.disk.rows[i].id == message.id;
      var j := KnownHas(s.disk.rows, s.orphans, i);
    }
  }

  lemma CreateCutKnown(s: State)
    requires C.Inv(s) && C.Enabled(s, CutCreate)
    ensures var s', m := C.Next(s, CutCreate), s.live.turns.job.todo[0].message;
            && m.role != Assistant && m.id !in s.orphans && !HasRow(s.disk.rows, m.id)
            && s.disk.action.None? && R.RepairInv(s'.live)
            && Known(s'.disk.rows, s'.orphans) == s'.live.turns.db.rows && DiskOk(s'.disk, s'.orphans)
  {
    var m := s.live.turns.job.todo[0].message;
    CreateIsSound(s.live);
    CreatesOnly(s.live.turns);
    MessageIsNew(s, m);
    KnownWithout(s.disk.rows, s.orphans, m.id);
    KnownSnoc(s.disk.rows, s.orphans + {m.id}, m);
    RepairStepIsSafe(s.live, R.CutPlan);
  }

  lemma CreateCutInSync(s: State)
    requires C.Inv(s) && C.Enabled(s, CutCreate) && !Tears(s, CutCreate)
    ensures C.Inv(C.Next(s, CutCreate))
  {
    CreateCutKnown(s);
  }

  /** Every step that does no harm keeps memory and rows in step. */
  lemma CutStepIsSafe(s: State, e: C.Event)
    requires C.Inv(s) && C.Enabled(s, e) && Harmless(s, e)
    ensures C.Inv(C.Next(s, e))
  {
    match e
    case Act(Act(event)) => ActInSync(s, event);
    case Act(BeginRepair) => BeginInSync(s);
    case Act(FinishRepair) => FinishInSync(s);
    case Act(CutPlan) => RepairStepIsSafe(s.live, R.CutPlan);
    case CutSupersede => SupersedeCutInSync(s);
    case CutCreate => CreateCutInSync(s);
    case Refill => RefillInSync(s);
    case CutClear =>
  }

  // ---------------------------------------------------------------- no harmless step loses a result

  /** The stored rows are extended, or changed where memory knows them. */
  ghost predicate Aligned(rows: seq<Row>, rows': seq<Row>, orphans: set<MessageId>) {
    && |rows| <= |rows'|
    && forall i :: 0 <= i < |rows| ==> rows'[i].id == rows[i].id && (rows[i].id in orphans ==> rows'[i] == rows[i])
  }

  /** The stored rows keep what they have if the known ones do, and orphans do not change. */
  lemma KnownKept(rows: seq<Row>, rows': seq<Row>, orphans: set<MessageId>)
    requires RowsKept(Known(rows, orphans), Known(rows', orphans)) && RowsOk(Known(rows', orphans)) && Aligned(rows, rows', orphans)
    ensures RowsKept(rows, rows')
  {
    forall i | 0 <= i < |rows| ensures RowKept(rows[i], rows'[i]) {
      if rows[i].id !in orphans {
        var j := KnownHas(rows, orphans, i);
        var j' := KnownHas(rows', orphans, i);
        assert RowKept(Known(rows, orphans)[j], Known(rows', orphans)[j]);
        SameIdSameRow(Known(rows', orphans), j, j');
      } else {
        SameRowsKept([rows[i]]);
        assert RowKept([rows[i]][0], [rows[i]][0]);
      }
    }
  }

  lemma PutAligned(rows: seq<Row>, w: RowWrite, orphans: set<MessageId>)
    requires !w.Nothing? ==> w.row.id !in orphans
    ensures Aligned(rows, Put(rows, w), orphans)
  {
  }

  lemma CommitAligned(s: State)
    requires InSync(s) && R.Enabled(s.live, R.Act(CommitNext))
    ensures Aligned(s.disk.rows, C.Next(s, Act(R.Act(CommitNext))).disk.rows, s.orphans)
  {
    var w := s.live.turns.job.todo[0];
    WrittenIsKnown(s, w);
    PutAligned(s.disk.rows, WriteOf(w, CoreOf(s.live.turns)), s.orphans);
  }

  lemma CommitKept(s: State)
    requires C.Inv(s) && R.Enabled(s.live, R.Act(CommitNext))
    ensures RowsKept(s.disk.rows, C.Next(s, Act(R.Act(CommitNext))).disk.rows)
  {
    var s' := C.Next(s, Act(R.Act(CommitNext)));
    CommitKnown(s);
    RepairStepIsSafe(s.live, R.Act(CommitNext));
    RepairStepKeeps(s.live, R.Act(CommitNext));
    CommitAligned(s);
    KnownKept(s.disk.rows, s'.disk.rows, s.orphans);
  }

  lemma RepairAligned(s: State)
    requires InSync(s) && RowsOk(s.live.turns.db.rows)
    ensures Aligned(s.disk.rows, RepairOnto(s.disk.rows, s.live.turns.db.rows), s.orphans)
  {
    InStepHas(s);
    RepairedHeads(s);
  }

  lemma FinishKept(s: State)
    requires C.Inv(s) && C.Enabled(s, Act(R.FinishRepair))
    ensures RowsKept(s.disk.rows, C.Next(s, Act(R.FinishRepair)).disk.rows)
  {
    LiveRowsOk(s);
    RepairedInSync(s);
    RepairAligned(s);
    RepairedBeside(s.live.turns.db.rows);
    RepairKept(s.live.turns.db.rows, {});
    KnownKept(s.disk.rows, RepairOnto(s.disk.rows, s.live.turns.db.rows), s.orphans);
  }

  lemma LoadKept(db: Db)
    requires RowsOk(db.rows)
    ensures RowsKept(db.rows, LoadRows(db).rows) && Load(db).db.rows == LoadRows(db).rows
  {
    RepairKept(db.rows, Keep(Restore(db)));
  }

  lemma ActKept(s: State, event: HostActions.Event)
    requires C.Inv(s) && C.Enabled(s, Act(R.Act(event)))
    ensures RowsKept(s.disk.rows, C.Next(s, Act(R.Act(event))).disk.rows)
  {
    if event.CommitNext? {
      CommitKept(s);
    } else {
      SameRowsKept(s.disk.rows);
      StoredRowsOk(s);
      LoadKept(s.disk);
    }
  }

  lemma CutStepKeeps(s: State, e: C.Event)
    requires C.Inv(s) && C.Enabled(s, e) && Harmless(s, e)
    ensures RowsKept(s.disk.rows, C.Next(s, e).disk.rows)
  {
    SameRowsKept(s.disk.rows);
    StoredRowsOk(s);
    LoadKept(s.disk);
    match e
    case Act(Act(event)) => ActKept(s, event);
    case Act(BeginRepair) =>
    case Act(FinishRepair) => FinishKept(s);
    case Act(CutPlan) =>
    case CutSupersede => SupersedeCutNothing(s);
    case CutCreate => AppendedKept(s.disk.rows, s.live.turns.job.todo[0].message);
    case Refill =>
    case CutClear =>
  }

  lemma AppendedKept(rows: seq<Row>, row: Row)
    ensures RowsKept(rows, rows + [row])
  {
    SameRowsKept(rows);
  }

  // ---------------------------------------------------------------- runs

  /** Over every run in which no cut tears memory and rows apart and no repair does harm,
      stored results stay as they are, and at rest the stored rows are those of a session
      that waits for the action memory has, and for nothing else. */
  lemma {:induction false} CutRunIsRight(s: State, events: seq<C.Event>, s': State)
    requires C.Inv(s) && C.Runs(s, events, s') && Careful(s, events)
    ensures C.Inv(s') && C.Right(s, s')
    decreases |events|
  {
    if events == [] {
      SameRowsKept(s.disk.rows);
      RestIsIdle(s);
    } else {
      var next := C.Next(s, events[0]);
      CutStepIsSafe(s, events[0]);
      CutStepKeeps(s, events[0]);
      CutRunIsRight(next, events[1..], s');
      RowsKeptTransitive(s.disk.rows, next.disk.rows, s'.disk.rows);
    }
  }

  lemma RestIsIdle(s: State)
    requires C.Inv(s)
    ensures AtRest(s.live) ==> IdleState(s.disk, s.live.turns.action)
  {
    if AtRest(s.live) {
      StoredIsIdle(s);
    }
  }
}
