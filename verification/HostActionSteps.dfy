/** Every step of `HostActions` keeps the session safe, and none loses a result. */
module HostActionSteps {
  import opened Basics
  import opened Transcript
  import opened RowMessages
  import opened RoundTrip
  import opened CallResults
  import opened ResolvedReturns
  import opened SessionRows
  import opened HostActions
  import opened HostActionInvariant
  import opened HostActionSafety
  import opened HostActionRuns

  // ---------------------------------------------------------------- every step is safe

  lemma MessageSafe(s: System, user: Row, reply: MessageId, hostTools: bool)
    requires Inv(s) && Enabled(s, HostActions.Message(user, reply, hostTools))
    ensures Inv(Next(s, HostActions.Message(user, reply, hostTools)))
  {
    var row := user.(parent := ParentOf(s.db.rows, user));
    var t := NewTurn(reply, Some(row.id), []).(hostTools := hostTools);
    assert CallIds([]) == [] && TurnMessages(t) == [];
    MessageJob(Core(s.db, s.action, Some(t)), row);
  }

  lemma AbandonSafe(s: System, status: string)
    requires Inv(s) && Enabled(s, Abandon(status))
    ensures Inv(Next(s, Abandon(status)))
  {
    var c := Core(s.db, s.action, None);
    AbandonJob(c, status, [], false);
    QuietCoreReady(AfterAbandon(c, status));
    assert AbandonWrites(s.action, status) + [] == AbandonWrites(s.action, status);
  }

  lemma StartsSafe(s: System, e: Event)
    requires Inv(s) && Enabled(s, e) && (e.Message? || e.Continue? || e.Steer? || e.Abandon? || e.HostMessage?)
    ensures Inv(Next(s, e))
  {
    match e
    case Message(user, reply, hostTools) => MessageSafe(s, user, reply, hostTools);
    case Abandon(status) => AbandonSafe(s, status);
    case Continue(call, output, outcome) =>
      var a := s.action.value;
      var k: nat :| BatchAt(History(Last(s.db.rows)), a, k);
      ContinueJob(Core(s.db, s.action, Some(ContinueTurn(s.db.rows, a, output, outcome))), a, k, output, outcome);
    case Steer(reply) =>
      var leaf := Last(s.db.rows);
      var t := if leaf.role == Assistant then NewTurn(leaf.id, None, History(leaf)) else NewTurn(reply, Some(leaf.id), []);
      SteerReady(Core(s.db, s.action, Some(t)), reply);
    case HostMessage(host) => HostJob(Core(s.db, s.action, None), AtLeaf(s.db.rows, host));
  }

  lemma RunEndsSafe(s: System, e: Event)
    requires Inv(s) && Enabled(s, e) && e.RunEnds?
    ensures Inv(Next(s, e))
  {
    var c := Core(s.db, s.action, s.job.turn);
    var t := Capture(s.job.turn.value, e.new_);
    RunEndsReady(c, e.new_, e.ending);
    RunEndedJob(c.(turn := Some(t)), t, e.ending);
  }

  lemma CommitSafe(s: System, e: Event)
    requires Inv(s) && Enabled(s, e) && e.CommitNext?
    ensures Inv(Next(s, e))
  {
    var c := Commit(s.job.todo[0], Core(s.db, s.action, s.job.turn));
    CommittedSafe(c, s.job.todo[1..], s.job.resume);
  }

  lemma CommittedSafe(c: Core, todo: seq<Write>, resume: bool)
    requires JobOk(c, todo, resume)
    ensures Inv(Up(c.db, c.action, Settle(c.turn, todo, resume)))
  {
  }

  /** Every step keeps the invariant. */
  lemma StepIsSafe(s: System, e: Event)
    requires Inv(s) && Enabled(s, e)
    ensures Inv(Next(s, e))
  {
    match e
    case Crash | Evict => DownSafe(s);
    case InterruptedLoad | Reload => LoadSafe(s.db);
    case CommitNext => CommitSafe(s, e);
    case RunEnds(_, _) => RunEndsSafe(s, e);
    case _ => StartsSafe(s, e);
  }

  lemma DownSafe(s: System)
    requires Inv(s)
    ensures Inv(Down(s.db))
  {
  }

  // ---------------------------------------------------------------- no step loses a result

  ghost predicate RowKept(r: Row, r': Row) {
    r'.id == r.id && r'.role == r.role && Past(History(r), History(r'))
  }

  /** The later rows have the earlier ones, in order, each with its calls and results. */
  ghost predicate RowsKept(rows: seq<Row>, rows': seq<Row>) {
    |rows| <= |rows'| && forall i :: 0 <= i < |rows| ==> RowKept(rows[i], rows'[i])
  }

  lemma SameRowsKept(rows: seq<Row>)
    ensures RowsKept(rows, rows)
  {
  }

  lemma ReplacedKept(rows: seq<Row>, row: Row, row': Row)
    requires RowsOk(rows) && row in rows && RowKept(row, row')
    ensures RowsKept(rows, Replace(rows, row'))
  {
    var r := Replace(rows, row');
    var j :| 0 <= j < |rows| && rows[j] == row;
    forall i | 0 <= i < |rows| ensures RowKept(rows[i], r[i]) {
      if rows[i].id == row'.id {
        assert i == j;
      }
    }
  }

  lemma SnapshotKept(rows: seq<Row>, t: Turn)
    requires RowsOk(rows) && TurnOk(rows, t)
    ensures RowsKept(rows, WriteSnapshot(rows, t))
  {
    SnapshotRows(rows, t);
    StoredSame(t);
    var r := WriteSnapshot(rows, t);
    forall i | 0 <= i < |rows| ensures RowKept(rows[i], r[i]) {
      if HasRow(rows, t.row) && i == |rows| - 1 {
        assert rows[i] == Last(rows) && r[i] == Last(r);
      }
    }
  }

  lemma SupersedeKept(rows: seq<Row>, id: MessageId, ids: set<CallId>, status: string)
    requires RowsOk(rows)
    ensures RowsKept(rows, WriteSupersede(rows, id, ids, status))
  {
    var row := RowOf(rows, id);
    SameRowsKept(rows);
    if row.Some? {
      assert RowOk(row.value) by { var j :| 0 <= j < |rows| && rows[j] == row.value; }
      ResolveRowKeeps(row.value, Only(ids), AbandonedAnswer(status));
      ReplacedKept(rows, row.value, ResolveRow(row.value, Only(ids), AbandonedAnswer(status)));
    }
  }

  /** No durable write loses or changes a result. */
  lemma CommitKeeps(c: Core, w: Write)
    requires CoreOk(c)
    ensures RowsKept(c.db.rows, Commit(w, c).db.rows)
  {
    var rows := c.db.rows;
    match w
    case Supersede(id, ids, status) => SupersedeKept(rows, id, ids, status);
    case Snapshot(close) =>
      SameRowsKept(rows);
      if c.turn.Some? {
        ClosingTurn(rows, c.turn.value, close);
        SnapshotKept(rows, Closing(c.turn.value, close));
      }
    case _ => SameRowsKept(rows);
  }

  lemma RepairKept(rows: seq<Row>, keep: set<CallId>)
    requires RowsOk(rows)
    ensures RowsKept(rows, RepairRows(rows, keep))
  {
    forall i | 0 <= i < |rows| ensures RowKept(rows[i], RepairRows(rows, keep)[i]) {
      RepairRowKeeps(rows[i], keep);
    }
  }

  lemma StepKeeps(s: System, e: Event)
    requires Inv(s) && Enabled(s, e)
    ensures RowsKept(s.db.rows, Next(s, e).db.rows)
  {
    match e
    case InterruptedLoad => RepairKept(s.db.rows, Keep(Restore(s.db)));
    case Reload => RepairKept(s.db.rows, Keep(Restore(s.db)));
    case CommitNext => CommitKeeps(Core(s.db, s.action, s.job.turn), s.job.todo[0]);
    case _ => SameRowsKept(s.db.rows);
  }

  lemma RowsKeptTransitive(a: seq<Row>, b: seq<Row>, c: seq<Row>)
    requires RowsKept(a, b) && RowsKept(b, c)
    ensures RowsKept(a, c)
  {
    forall i | 0 <= i < |a| ensures RowKept(a[i], c[i]) {
      assert RowKept(a[i], b[i]) && RowKept(b[i], c[i]);
      PastTransitive(History(a[i]), History(b[i]), History(c[i]));
    }
  }
}
