/** The rows that a session's runs write, repairs included, are a conversation tree at every
    write, and the active leaf a reload computes from them is the last row written. */
module HostActionTree {
  import opened Basics
  import opened Transcript
  import opened CallResults
  import opened RowMessages
  import opened SessionRows
  import opened SessionTree
  import opened HostActions
  import opened HostActionInvariant
  import opened HostActionRuns
  import opened HostActionTheorems
  import R = SessionRepairs

  ghost predicate Increasing(rows: seq<Row>) {
    forall i, j :: 0 <= i < j < |rows| ==> rows[i].createdAt < rows[j].createdAt
  }

  ghost predicate TreeOk(rows: seq<Row>) { Tree(rows) && Increasing(rows) }

  /** The turn's row is there, or there is a user or host message for it to answer. */
  predicate TurnPlaced(rows: seq<Row>, t: Turn) {
    || HasRow(rows, t.row)
    || (t.parent.Some? && HasRow(rows, t.parent.value) && RowOf(rows, t.parent.value).value.role != Assistant)
  }

  ghost predicate PlacedJob(c: Core, todo: seq<Write>)
    decreases |todo|
  {
    && TreeOk(c.db.rows)
    && if todo == [] then c.turn.Some? ==> TurnPlaced(c.db.rows, c.turn.value)
       else PlacedJob(Commit(todo[0], c), todo[1..])
  }

  ghost predicate PlacedInv(s: System) {
    TreeOk(s.db.rows) && (s.Up? && s.job.Busy? ==> PlacedJob(Core(s.db, s.action, s.job.turn), s.job.todo))
  }

  // ---------------------------------------------------------------- the writes

  lemma SamePlacesOk(rows: seq<Row>, rows': seq<Row>)
    requires TreeOk(rows) && SamePlaces(rows, rows')
    ensures TreeOk(rows')
  {
    SamePlacesTree(rows, rows');
    forall i, j | 0 <= i < j < |rows| ensures rows'[i].createdAt < rows'[j].createdAt {
      assert SamePlace(rows[i], rows'[i]) && SamePlace(rows[j], rows'[j]);
    }
  }

  lemma SamePlacesTurn(rows: seq<Row>, rows': seq<Row>, t: Turn)
    requires SamePlaces(rows, rows') && TurnPlaced(rows, t)
    ensures TurnPlaced(rows', t)
  {
    SamePlacesRow(rows, rows', t.row);
    if t.parent.Some? {
      SamePlacesRow(rows, rows', t.parent.value);
    }
  }

  lemma AppendOk(rows: seq<Row>, row: Row)
    requires TreeOk(rows) && Placed(rows, row) && (rows != [] ==> rows[|rows| - 1].createdAt < row.createdAt)
    ensures TreeOk(rows + [row])
  {
    TreeAppend(rows, row);
    var r := rows + [row];
    forall i, j | 0 <= i < j < |r| ensures r[i].createdAt < r[j].createdAt {
      if j == |rows| && i < |rows| - 1 {
        assert rows[i].createdAt < rows[|rows| - 1].createdAt;
      }
    }
  }

  lemma SupersedePlaces(rows: seq<Row>, id: MessageId, ids: set<CallId>, status: string)
    requires Tree(rows)
    ensures SamePlaces(rows, WriteSupersede(rows, id, ids, status))
  {
    var stored := RowOf(rows, id);
    if stored.Some? {
      ReplaceSamePlaces(rows, ResolveRow(stored.value, Only(ids), AbandonedAnswer(status)));
    }
  }

  lemma RepairPlaces(rows: seq<Row>, keep: set<CallId>)
    ensures SamePlaces(rows, RepairRows(rows, keep))
  {
    forall i | 0 <= i < |rows| ensures SamePlace(rows[i], RepairRows(rows, keep)[i]) {
      RepairKeepsPlace(rows[i], keep);
    }
  }

  lemma SnapshotPlaced(rows: seq<Row>, t: Turn)
    requires TreeOk(rows) && TurnPlaced(rows, t)
    ensures TreeOk(WriteSnapshot(rows, t)) && HasRow(WriteSnapshot(rows, t), t.row)
  {
    var messages := StoredMessages(t);
    var segments := Build(messages, t.status);
    var stored := RowOf(rows, t.row);
    if stored.Some? {
      var row := stored.value.(content := TextOf(segments), segments := segments, messages := Some(messages));
      ReplaceSamePlaces(rows, row);
      SamePlacesOk(rows, Replace(rows, row));
      SamePlacesRow(rows, Replace(rows, row), t.row);
    } else {
      var row := Row(t.row, t.parent, Assistant, TextOf(segments), segments, Some(messages),
                     if rows == [] then 0 else rows[|rows| - 1].createdAt + 1);
      assert rows != [];
      AppendOk(rows, row);
      HasRowAppend(rows, row, t.row);
    }
  }

  /** Every write but that of a user or host message leaves rows and turn where they are. */
  lemma CommitPlaced(c: Core, w: Write)
    requires TreeOk(c.db.rows) && !w.Create? && (c.turn.Some? ==> TurnPlaced(c.db.rows, c.turn.value))
    ensures var c' := Commit(w, c); TreeOk(c'.db.rows) && (c'.turn.Some? ==> TurnPlaced(c'.db.rows, c'.turn.value))
  {
    var rows := c.db.rows;
    match w
    case Supersede(id, ids, status) =>
      SupersedePlaces(rows, id, ids, status);
      RowsInPlace(rows, WriteSupersede(rows, id, ids, status), c.turn);
    case Snapshot(close) =>
      if c.turn.Some? {
        SnapshotPlaced(rows, if close then CloseTurn(c.turn.value) else c.turn.value);
      }
    case _ =>
  }

  lemma RowsInPlace(rows: seq<Row>, rows': seq<Row>, turn: Option<Turn>)
    requires TreeOk(rows) && SamePlaces(rows, rows')
    ensures TreeOk(rows')
    ensures turn.Some? && TurnPlaced(rows, turn.value) ==> TurnPlaced(rows', turn.value)
  {
    SamePlacesOk(rows, rows');
    if turn.Some? && TurnPlaced(rows, turn.value) {
      SamePlacesTurn(rows, rows', turn.value);
    }
  }

  lemma {:induction false} NothingCreated(c: Core, todo: seq<Write>)
    requires TreeOk(c.db.rows) && (c.turn.Some? ==> TurnPlaced(c.db.rows, c.turn.value))
    requires forall w :: w in todo ==> !w.Create?
    ensures PlacedJob(c, todo)
    decreases |todo|
  {
    if todo != [] {
      CommitPlaced(c, todo[0]);
      NothingCreated(Commit(todo[0], c), todo[1..]);
    }
  }

  // ---------------------------------------------------------------- the steps

  lemma UserPlaced(c: Core, user: Row)
    requires TreeOk(c.db.rows) && Placed(c.db.rows, user) && user.role == Role.User
    requires c.db.rows != [] ==> c.db.rows[|c.db.rows| - 1].createdAt < user.createdAt
    requires c.turn.Some? && c.turn.value.parent == Some(user.id)
    ensures PlacedJob(c, [Create(user)] + [SaveState])
  {
    var created := Commit(Create(user), c);
    UserCreated(c.db.rows, user, c.turn.value);
    NothingCreated(created, [SaveState]);
    PlacedStep(c, Create(user), [SaveState]);
  }

  lemma UserCreated(rows: seq<Row>, user: Row, t: Turn)
    requires TreeOk(rows) && Placed(rows, user) && user.role == Role.User && t.parent == Some(user.id)
    requires rows != [] ==> rows[|rows| - 1].createdAt < user.createdAt
    ensures TreeOk(rows + [user]) && TurnPlaced(rows + [user], t)
  {
    AppendOk(rows, user);
    HasRowAppend(rows, user, user.id);
  }

  lemma PlacedMoves(rows: seq<Row>, rows': seq<Row>, user: Row)
    requires Tree(rows) && SamePlaces(rows, rows') && Placed(rows, user)
    ensures Placed(rows', user)
  {
    SamePlacesRow(rows, rows', user.id);
    if user.parent.Some? {
      SamePlacesRow(rows, rows', user.parent.value);
    }
  }

  lemma MessagePlaced(c: Core, user: Row)
    requires TreeOk(c.db.rows) && Placed(c.db.rows, user) && user.role == Role.User
    requires c.db.rows != [] ==> c.db.rows[|c.db.rows| - 1].createdAt < user.createdAt
    requires c.turn.Some? && c.turn.value.parent == Some(user.id)
    ensures PlacedJob(c, AbandonWrites(c.action, "superseded") + [Create(user), SaveState])
  {
    var rest := [Create(user), SaveState];
    assert [Create(user)] + [SaveState] == rest;
    if c.action.None? {
      UserPlaced(c, user);
      assert AbandonWrites(c.action, "superseded") + rest == rest;
    } else {
      var w := AbandonWrites(c.action, "superseded")[0];
      var c1 := Commit(w, c);
      SupersedePlaces(c.db.rows, c.action.value.row, BatchIds(c.action.value), "superseded");
      SamePlacesOk(c.db.rows, c1.db.rows);
      PlacedMoves(c.db.rows, c1.db.rows, user);
      UserPlaced(Commit(ClearAction, c1), user);
      PlacedStep(c1, ClearAction, rest);
      PlacedStep(c, w, [ClearAction] + rest);
      assert [w] + ([ClearAction] + rest) == AbandonWrites(c.action, "superseded") + rest;
    }
  }

  lemma PlacedStep(c: Core, w: Write, rest: seq<Write>)
    requires TreeOk(c.db.rows) && PlacedJob(Commit(w, c), rest)
    ensures PlacedJob(c, [w] + rest)
  {
    assert ([w] + rest)[1..] == rest;
  }

  lemma SettledPlaced(db: Db, action: Option<Action>, turn: Option<Turn>, todo: seq<Write>, resume: bool)
    requires TreeOk(db.rows) && PlacedJob(Core(db, action, turn), todo)
    ensures PlacedInv(Up(db, action, Settle(turn, todo, resume)))
  {
  }

  lemma MessageKeepsTree(s: System, e: Event)
    requires PlacedInv(s) && Enabled(s, e) && e.Message?
    ensures PlacedInv(Next(s, e))
  {
    var rows := s.db.rows;
    var row := e.user.(parent := ParentOf(rows, e.user));
    var t := NewTurn(e.reply, Some(row.id), []).(hostTools := e.hostTools);
    LeafIsStored(rows);
    assert row.parent.None? <==> rows == [] by {
      if e.user.parent.Some? { var i :| 0 <= i < |rows| && rows[i].id == e.user.parent.value; }
    }
    assert Placed(rows, row);
    MessagePlaced(Core(s.db, s.action, Some(t)), row);
  }

  lemma LeafPlaces(rows: seq<Row>, host: Row)
    requires TreeOk(rows) && host.role == Role.Host && !HasRow(rows, host.id)
    requires rows != [] ==> host.createdAt > rows[|rows| - 1].createdAt
    ensures Placed(rows, AtLeaf(rows, host)) && TreeOk(rows + [AtLeaf(rows, host)])
  {
    LeafIsStored(rows);
    assert Placed(rows, AtLeaf(rows, host));
    AppendOk(rows, AtLeaf(rows, host));
  }

  lemma HostMessageKeepsTree(s: System, e: Event)
    requires PlacedInv(s) && Enabled(s, e) && e.HostMessage?
    ensures PlacedInv(Next(s, e))
  {
    var row, c := AtLeaf(s.db.rows, e.host), Core(s.db, s.action, None);
    LeafPlaces(s.db.rows, e.host);
    NothingCreated(Commit(Create(row), c), [SaveState]);
    PlacedStep(c, Create(row), [SaveState]);
    assert [Create(row)] + [SaveState] == [Create(row), SaveState];
  }

  lemma SteerPlaced(rows: seq<Row>, reply: MessageId, t: Turn)
    requires Tree(rows) && rows != []
    requires var leaf := rows[|rows| - 1];
             t == if leaf.role == Assistant then NewTurn(leaf.id, None, History(leaf)) else NewTurn(reply, Some(leaf.id), [])
    ensures TurnPlaced(rows, t)
  {
    RowAt(rows, |rows| - 1);
  }

  lemma StartsPlaced(s: System, e: Event)
    requires PlacedInv(s) && Enabled(s, e) && (e.Continue? || e.Steer? || e.Abandon?)
    ensures PlacedInv(Next(s, e))
  {
    var rows := s.db.rows;
    match e
    case Continue(call, output, outcome) =>
      var a := s.action.value;
      var t := ContinueTurn(rows, a, output, outcome);
      var remaining := Remaining(rows, a);
      var todo := SaveAndClear + (if remaining == [] then [] else [SetAction(NextAction(rows, a))]);
      NothingCreated(Core(s.db, s.action, Some(t)), todo);
      SettledPlaced(s.db, s.action, Some(t), todo, remaining == [] && !a.hostTools);
    case Steer(reply) =>
      var leaf := rows[|rows| - 1];
      var t := if leaf.role == Assistant then NewTurn(leaf.id, None, History(leaf)) else NewTurn(reply, Some(leaf.id), []);
      SteerPlaced(rows, reply, t);
      NothingCreated(Core(s.db, s.action, Some(t)), []);
    case Abandon(status) =>
      NothingCreated(Core(s.db, s.action, None), AbandonWrites(s.action, status));
      SettledPlaced(s.db, s.action, None, AbandonWrites(s.action, status), false);
  }

  lemma RunsCreateNothing(t: Turn, ending: Ending)
    ensures forall w :: w in WritesAfter(t, ending) ==> !w.Create?
  {
  }

  lemma RunEndsPlaced(s: System, e: Event)
    requires PlacedInv(s) && Enabled(s, e) && e.RunEnds?
    ensures PlacedInv(Next(s, e))
  {
    var t := Capture(s.job.turn.value, e.new_);
    RunsCreateNothing(t, e.ending);
    NothingCreated(Core(s.db, s.action, Some(t)), WritesAfter(t, e.ending));
    SettledPlaced(s.db, s.action, Some(t), WritesAfter(t, e.ending), Resumes(e.ending));
  }

  lemma LoadPlaced(s: System)
    requires PlacedInv(s)
    ensures PlacedInv(Load(s.db)) && PlacedInv(Down(LoadRows(s.db))) && PlacedInv(Down(s.db))
  {
    RepairPlaces(s.db.rows, Keep(Restore(s.db)));
    SamePlacesOk(s.db.rows, RepairRows(s.db.rows, Keep(Restore(s.db))));
  }

  lemma CommitNextPlaced(s: System, e: Event)
    requires PlacedInv(s) && Enabled(s, e) && e.CommitNext?
    ensures PlacedInv(Next(s, e))
  {
    var c := Commit(s.job.todo[0], Core(s.db, s.action, s.job.turn));
    assert PlacedJob(c, s.job.todo[1..]);
    SettledPlaced(c.db, c.action, c.turn, s.job.todo[1..], s.job.resume);
  }

  lemma StepKeepsTree(s: System, e: Event)
    requires PlacedInv(s) && Enabled(s, e)
    ensures PlacedInv(Next(s, e))
  {
    match e
    case Crash | Evict | InterruptedLoad | Reload => LoadPlaced(s);
    case CommitNext => CommitNextPlaced(s, e);
    case RunEnds(_, _) => RunEndsPlaced(s, e);
    case Message(_, _, _) => MessageKeepsTree(s, e);
    case HostMessage(_) => HostMessageKeepsTree(s, e);
    case _ => StartsPlaced(s, e);
  }

  // ---------------------------------------------------------------- repairs

  lemma SnapshotInPlace(a: seq<Row>, b: seq<Row>, t: Turn)
    requires TreeOk(a) && SamePlaces(a, b) && TurnPlaced(a, t)
    ensures SamePlaces(WriteSnapshot(a, t), WriteSnapshot(b, t))
  {
    SamePlacesOk(a, b);
    SamePlacesRow(a, b, t.row);
    var segments := Build(StoredMessages(t), t.status);
    if HasRow(a, t.row) {
      var x, y := RowOf(a, t.row).value, RowOf(b, t.row).value;
      ReplaceSamePlaces(a, x.(content := TextOf(segments), segments := segments, messages := Some(StoredMessages(t))));
      ReplaceSamePlaces(b, y.(content := TextOf(segments), segments := segments, messages := Some(StoredMessages(t))));
      PlacesMeet(a, b, WriteSnapshot(a, t), WriteSnapshot(b, t));
    } else if a != [] {
      assert SamePlace(a[|a| - 1], b[|b| - 1]);
    }
  }

  lemma PlacesMeet(a: seq<Row>, b: seq<Row>, a': seq<Row>, b': seq<Row>)
    requires SamePlaces(a, b) && SamePlaces(a, a') && SamePlaces(b, b')
    ensures SamePlaces(a', b')
  {
    forall i | 0 <= i < |a| ensures SamePlace(a'[i], b'[i]) {
      assert SamePlace(a[i], b[i]) && SamePlace(a[i], a'[i]) && SamePlace(b[i], b'[i]);
    }
  }

  lemma CommitInPlace(c: Core, c': Core, w: Write)
    requires TreeOk(c.db.rows) && SamePlaces(c.db.rows, c'.db.rows) && c'.turn == c.turn
    requires w.Snapshot? && c.turn.Some? ==> TurnPlaced(c.db.rows, c.turn.value)
    ensures SamePlaces(Commit(w, c).db.rows, Commit(w, c').db.rows) && Commit(w, c').turn == Commit(w, c).turn
  {
    var rows, rows' := c.db.rows, c'.db.rows;
    match w
    case Supersede(id, ids, status) =>
      SamePlacesOk(rows, rows');
      SupersedePlaces(rows, id, ids, status);
      SupersedePlaces(rows', id, ids, status);
      PlacesMeet(rows, rows', WriteSupersede(rows, id, ids, status), WriteSupersede(rows', id, ids, status));
    case Snapshot(close) =>
      if c.turn.Some? {
        SnapshotInPlace(rows, rows', if close then CloseTurn(c.turn.value) else c.turn.value);
      }
    case _ =>
  }

  /** The rows as far as the tree is concerned decide whether a job's writes are well placed. */
  lemma {:induction false} JobInPlace(c: Core, c': Core, todo: seq<Write>)
    requires PlacedJob(c, todo) && SamePlaces(c.db.rows, c'.db.rows) && c'.turn == c.turn
    ensures PlacedJob(c', todo)
    decreases |todo|
  {
    RowsInPlace(c.db.rows, c'.db.rows, c.turn);
    if todo != [] {
      CommitInPlace(c, c', todo[0]);
      JobInPlace(Commit(todo[0], c), Commit(todo[0], c'), todo[1..]);
    }
  }

  lemma InPlace(s: System, s': System)
    requires PlacedInv(s) && SamePlaces(s.db.rows, s'.db.rows)
    requires s'.Up? ==> s.Up? && s'.job == s.job
    ensures PlacedInv(s')
  {
    SamePlacesOk(s.db.rows, s'.db.rows);
    if s'.Up? && s'.job.Busy? {
      JobInPlace(Core(s.db, s.action, s.job.turn), Core(s'.db, s'.action, s.job.turn), s.job.todo);
    }
  }

  lemma RepairStepKeepsTree(s: R.State, e: R.Event)
    requires PlacedInv(s.turns) && R.Enabled(s, e)
    ensures PlacedInv(R.Next(s, e).turns)
  {
    match e
    case Act(event) => StepKeepsTree(s.turns, event);
    case BeginRepair => InPlace(s.turns, R.Cleared(s.turns));
    case FinishRepair =>
      RepairPlaces(s.turns.db.rows, {});
      InPlace(s.turns, R.Repaired(s.turns));
    case CutPlan => assert TreeOk(s.turns.db.rows);
  }

  lemma {:induction false} RunsKeepTree(s: R.State, events: seq<R.Event>, s': R.State)
    requires PlacedInv(s.turns) && R.Runs(s, events, s')
    ensures PlacedInv(s'.turns)
    decreases |events|
  {
    if events != [] {
      RepairStepKeepsTree(s, events[0]);
      RunsKeepTree(R.Next(s, events[0]), events[1..], s');
    }
  }

  /** At every write of every run, with repairs anywhere in it, the rows are a tree, and the
      newest leaf a reload finds in them is the last row. If no repair did harm, a pending
      action at rest is on that leaf. */
  lemma ReloadFindsTheLeaf(s: R.State, events: seq<R.Event>, s': R.State)
    requires R.RepairInv(s) && PlacedInv(s.turns) && R.Runs(s, events, s')
    ensures Tree(s'.turns.db.rows)
    ensures forall i: nat :: IsLatestLeaf(s'.turns.db.rows, i) ==> Some(s'.turns.db.rows[i].id) == ActiveLeaf(s'.turns.db.rows)
    ensures R.Careful(s, events) && AtRest(s') && s'.turns.action.Some? ==>
              ActiveLeaf(s'.turns.db.rows) == Some(s'.turns.action.value.row)
  {
    RunsKeepTree(s, events, s');
    var rows := s'.turns.db.rows;
    IncreasingStamps(rows);
    forall i: nat | IsLatestLeaf(rows, i) ensures Some(rows[i].id) == ActiveLeaf(rows) {
      NewestLeafIsLast(rows, i);
    }
    if R.Careful(s, events) && AtRest(s') && s'.turns.action.Some? {
      IdleAfterRun(s, events, s');
    }
  }
}
