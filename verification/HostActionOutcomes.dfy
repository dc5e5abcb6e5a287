/** What each start and each end of a turn comes to, once all its writes are made. */
module HostActionOutcomes {
  import opened Basics
  import opened Transcript
  import opened RowMessages
  import opened RoundTrip
  import opened CallResults
  import opened ResolvedReturns
  import opened SessionRows
  import opened HostActions
  import opened HostActionInvariant
  import opened HostActionSafety
  import opened HostActionRuns
  import opened HostActionSteps
  import opened SessionRepairSafety
  import opened HostActionTheorems

  // ---------------------------------------------------------------- how a run ends

  /** An error before the run gave any message: there is nothing to write. */
  predicate Nothing(t: Turn, ending: Ending) { ending.Errored? && TurnMessages(t) == [] }

  /** The turn is closed: it was cancelled, refused or broken off, before or after its output. */
  predicate IsClosed(ending: Ending) {
    match ending
    case Deferred(batch, _, cancelledAfter) => batch == [] || cancelledAfter
    case Replied(_, cancelledAfter) => cancelledAfter
    case _ => true
  }

  /** The other rows are as they were, and the turn's row holds what the turn holds. */
  ghost predicate TurnWritten(rows: seq<Row>, rows': seq<Row>, t: Turn) {
    && |rows| <= |rows'| && (forall i :: 0 <= i < |rows| && rows[i].id != t.row ==> rows'[i] == rows[i])
    && var row := RowOf(rows', t.row);
       && row.Some? && row.value.messages == Some(StoredMessages(t)) && row.value.content == Spoken(ReplyParts(StoredMessages(t)))
       && row.value.segments == Build(StoredMessages(t), t.status)
  }

  lemma SnapshotWritten(rows: seq<Row>, t: Turn)
    ensures TurnWritten(rows, WriteSnapshot(rows, t), t)
  {
    WrittenRow(rows, t);
  }

  lemma WrittenTwice(rows: seq<Row>, t: Turn, t': Turn)
    requires t'.row == t.row
    ensures TurnWritten(rows, WriteSnapshot(WriteSnapshot(rows, t), t'), t')
  {
    SnapshotWritten(rows, t);
    SnapshotWritten(WriteSnapshot(rows, t), t');
  }

  /** A core whose memory and row agree on the action. */
  predicate Agreed(c: Core, t: Turn) { c.turn == Some(t) && c.db.action == c.action }

  function Saved(c: Core, t: Turn): Core { Core(Db(WriteSnapshot(c.db.rows, t), None), None, Some(t)) }

  lemma SaveThenClear(c: Core, t: Turn, close: bool)
    requires Agreed(c, t)
    ensures Commit(ClearAction, Commit(Snapshot(close), c)) == Saved(c, Closing(t, close))
  {
    CommitSnapshot(c, close);
  }

  lemma SavesAndClears(c: Core, t: Turn, rest: seq<Write>, resume: bool)
    requires Agreed(c, t)
    ensures CommitAll(Started(c, SaveAndClear + rest, resume)) == CommitAll(Started(Saved(c, t), rest, resume))
  {
    SaveThenClear(c, t, false);
    CommitSaved(c, rest, resume);
  }

  lemma ClosesAndClears(c: Core, t: Turn)
    requires Agreed(c, t)
    ensures CommitAll(Started(c, CloseAndClear, false)) == Up(Saved(c, CloseTurn(t)).db, None, Idle)
  {
    SaveThenClear(c, t, true);
    assert CloseAndClear == [Snapshot(true)] + [ClearAction];
    assert [ClearAction] == [ClearAction] + [];
    CommitOne(c, Snapshot(true), [ClearAction], false);
    CommitOne(Commit(Snapshot(true), c), ClearAction, [], false);
  }

  lemma SetsPending(c: Core, a: Action)
    ensures CommitAll(Started(c, [SetAction(a)], false)) == Up(Db(c.db.rows, Some(a)), Some(a), Idle)
  {
    SetLast(c, a);
  }

  lemma SetsAndCloses(c: Core, t: Turn, a: Action)
    requires Agreed(c, t)
    ensures CommitAll(Started(c, [SetAction(a)] + CloseAndClear, false)) == Up(Saved(c, CloseTurn(t)).db, None, Idle)
  {
    var set_ := Commit(SetAction(a), c);
    CommitSet(c, a);
    CommitOne(c, SetAction(a), CloseAndClear, false);
    ClosesAndClears(set_, t);
  }

  /** The session once all writes after a run are made. */
  ghost predicate EndsAs(s: System, t: Turn, ending: Ending, r: System)
    requires s.Up?
  {
    && r.Up? && r.db.action == r.action
    && (r.job.Busy? <==> ending.Replied? && ending.more && !ending.cancelledAfter)
    && (r.job.Busy? ==> r.job == Busy(Some(t), [], true))
    && (if Nothing(t, ending) then r.db == s.db && r.action == s.action
        else
          var closed := if IsClosed(ending) then CloseTurn(t) else t;
          && TurnWritten(s.db.rows, r.db.rows, closed) && (IsClosed(ending) ==> closed.status == "cancelled")
          && r.action == if ending.Deferred? && ending.batch != [] && !ending.cancelledAfter
                         then Some(Action(ending.batch[0], ending.name, t.row, ending.batch, t.hostTools)) else None)
  }

  lemma DeferredEnds(c: Core, t: Turn, batch: seq<CallId>, name: string, cancelledAfter: bool)
    requires Agreed(c, t)
    ensures var ending := Deferred(batch, name, cancelledAfter);
            EndsAs(Up(c.db, c.action, Idle), t, ending, CommitAll(Started(c, WritesAfter(t, ending), false)))
  {
    var ending, saved := Deferred(batch, name, cancelledAfter), Saved(c, t);
    SnapshotWritten(c.db.rows, t);
    WrittenTwice(c.db.rows, t, CloseTurn(t));
    if batch == [] {
      SavesAndClears(c, t, CloseAndClear, false);
      ClosesAndClears(saved, t);
    } else {
      DeferredWrites(c, t, batch, name, cancelledAfter);
    }
  }

  /** Where the writes after a run with deferred calls lead. */
  lemma DeferredWrites(c: Core, t: Turn, batch: seq<CallId>, name: string, cancelledAfter: bool)
    requires Agreed(c, t) && batch != []
    ensures var a, saved := Action(batch[0], name, t.row, batch, t.hostTools), Saved(c, t);
            CommitAll(Started(c, WritesAfter(t, Deferred(batch, name, cancelledAfter)), false))
            == if cancelledAfter then Up(Saved(saved, CloseTurn(t)).db, None, Idle) else Up(Db(saved.db.rows, Some(a)), Some(a), Idle)
  {
    var a := Action(batch[0], name, t.row, batch, t.hostTools);
    var rest := [SetAction(a)] + (if cancelledAfter then CloseAndClear else []);
    assert WritesAfter(t, Deferred(batch, name, cancelledAfter)) == SaveAndClear + rest;
    SavesAndClears(c, t, rest, false);
    if cancelledAfter {
      SetsAndCloses(Saved(c, t), t, a);
    } else {
      assert rest == [SetAction(a)];
      SetsPending(Saved(c, t), a);
    }
  }

  lemma RepliedEnds(c: Core, t: Turn, more: bool, cancelledAfter: bool)
    requires Agreed(c, t)
    ensures var ending := Replied(more, cancelledAfter);
            EndsAs(Up(c.db, c.action, Idle), t, ending, CommitAll(Started(c, WritesAfter(t, ending), Resumes(ending))))
  {
    var ending, saved := Replied(more, cancelledAfter), Saved(c, t);
    SnapshotWritten(c.db.rows, t);
    WrittenTwice(c.db.rows, t, CloseTurn(t));
    SavesAndClears(c, t, if cancelledAfter then CloseAndClear else [], Resumes(ending));
    if cancelledAfter {
      ClosesAndClears(saved, t);
    } else {
      assert SaveAndClear + [] == SaveAndClear;
    }
  }

  lemma BrokenEnds(c: Core, t: Turn, ending: Ending)
    requires Agreed(c, t) && (ending.Rejected? || ending.Stopped? || ending.Errored?)
    ensures EndsAs(Up(c.db, c.action, Idle), t, ending, CommitAll(Started(c, WritesAfter(t, ending), false)))
  {
    SnapshotWritten(c.db.rows, CloseTurn(t));
    WrittenTwice(c.db.rows, t, CloseTurn(t));
    ClosesAndClears(c, t);
    if ending.Rejected? {
      SavesAndClears(c, t, CloseAndClear, false);
      ClosesAndClears(Saved(c, t), t);
    }
  }

  lemma RunWrites(s: System, new_: seq<Message>, ending: Ending)
    requires Enabled(s, RunEnds(new_, ending))
    ensures var t := Capture(s.job.turn.value, new_);
            Next(s, RunEnds(new_, ending)) == Started(Core(s.db, s.action, Some(t)), WritesAfter(t, ending), Resumes(ending))
  {
  }

  /** What a run's end comes to. Deferred calls are pending under the first of them; a reply
      leaves nothing pending, and the model goes on exactly if steering waits and nobody has
      cancelled; a turn that was cancelled, refused or broken off is closed, and pends
      nothing; an error before any message changes nothing. */
  lemma RunEndsAs(s: System, new_: seq<Message>, ending: Ending)
    requires Enabled(s, RunEnds(new_, ending)) && s.db.action == s.action
    ensures EndsAs(s, Capture(s.job.turn.value, new_), ending, CommitAll(Next(s, RunEnds(new_, ending))))
  {
    var t := Capture(s.job.turn.value, new_);
    var c := Core(s.db, s.action, Some(t));
    RunWrites(s, new_, ending);
    match ending
    case Deferred(batch, name, cancelledAfter) => DeferredEnds(c, t, batch, name, cancelledAfter);
    case Replied(more, cancelledAfter) => RepliedEnds(c, t, more, cancelledAfter);
    case _ => BrokenEnds(c, t, ending);
  }

  // ---------------------------------------------------------------- how a turn begins

  /** Once what is pending has been abandoned: nothing is pending, its row has a result for
      the call, and the others are as they were. */
  ghost predicate Abandoned(s: System, status: string, r: System)
    requires s.Up?
  {
    && r.Up? && r.action.None? && r.db.action.None?
    && |r.db.rows| >= |s.db.rows|
    && (s.action.None? ==> forall i :: 0 <= i < |s.db.rows| ==> r.db.rows[i] == s.db.rows[i])
    && (s.action.Some? ==>
          && (forall i :: 0 <= i < |s.db.rows| - 1 ==> r.db.rows[i] == s.db.rows[i])
          && s.db.rows != []
          && var row := r.db.rows[|s.db.rows| - 1];
             && row.id == s.action.value.row && Quiet(row) && s.action.value.call in Results(History(row))
             && Results(History(row))[s.action.value.call]
                == Result(if status == "superseded" then SUPERSEDED_OUTPUT else CANCELLED_OUTPUT, Interrupted))
  }

  function AbandonedCore(c: Core, status: string): Core {
    if c.action.None? then c
    else c.(db := Db(WriteSupersede(c.db.rows, c.action.value.row, BatchIds(c.action.value), status), None), action := None)
  }

  lemma AbandonAll(c: Core, status: string, rest: seq<Write>, resume: bool)
    ensures CommitAll(Started(c, AbandonWrites(c.action, status) + rest, resume)) == CommitAll(Started(AbandonedCore(c, status), rest, resume))
  {
    if c.action.None? {
      assert AbandonWrites(c.action, status) + rest == rest;
    } else {
      var w := Supersede(c.action.value.row, BatchIds(c.action.value), status);
      assert AbandonWrites(c.action, status) + rest == [w] + ([ClearAction] + rest);
      CommitOne(c, w, [ClearAction] + rest, resume);
      CommitOne(Commit(w, c), ClearAction, rest, resume);
    }
  }

  lemma AbandonedRow(rows: seq<Row>, a: Action, k: nat, status: string)
    requires RowsOk(rows) && rows != [] && Last(rows).id == a.row && Last(rows).role == Assistant
    requires BatchAt(History(Last(rows)), a, k)
    ensures var r := WriteSupersede(rows, a.row, BatchIds(a), status);
            && |r| == |rows| && (forall i :: 0 <= i < |rows| - 1 ==> r[i] == rows[i])
            && Last(r).id == a.row && Quiet(Last(r)) && a.call in Results(History(Last(r)))
            && Results(History(Last(r)))[a.call] == Result(if status == "superseded" then SUPERSEDED_OUTPUT else CANCELLED_OUTPUT, Interrupted)
  {
    var row := rows[|rows| - 1];
    SupersedeLast(rows, a, k, status);
    SupersedeRow(row, a, k, status);
    RowOfLast(rows, a.row);
    assert a.batch[k..][0] == a.call && a.call in OpenIds(History(row));
    ResolveRecords(row, Only(BatchIds(a)), AbandonedAnswer(status), a.call);
    assert Last(WriteSupersede(rows, a.row, BatchIds(a), status)) == ResolveRow(row, Only(BatchIds(a)), AbandonedAnswer(status));
  }

  lemma AbandonIs(s: System, c: Core, status: string, r: System)
    requires Inv(s) && s.Up? && s.job.Idle? && c.db == s.db && c.action == s.action
    requires r.Up? && r.action.None? && r.db.action.None? && |r.db.rows| >= |s.db.rows|
    requires forall i :: 0 <= i < |s.db.rows| ==> i < |AbandonedCore(c, status).db.rows| && r.db.rows[i] == AbandonedCore(c, status).db.rows[i]
    ensures Abandoned(s, status, r)
  {
    InvIdle(s);
    if s.action.Some? {
      var a := s.action.value;
      var k := PendingIsOpen(s.db, a);
      AbandonedRow(s.db.rows, a, k, status);
      assert r.db.rows[|s.db.rows| - 1] == Last(AbandonedCore(c, status).db.rows);
    }
  }

  /** A message: what was pending is superseded, the message continues from the message it
      names or else from the newest one, and its turn waits for the model with nothing in it. */
  lemma MessageBegins(s: System, user: Row, reply: MessageId, hostTools: bool)
    requires Inv(s) && Enabled(s, HostActions.Message(user, reply, hostTools))
    ensures var r := CommitAll(Next(s, HostActions.Message(user, reply, hostTools)));
            var parent := if user.parent.Some? then user.parent else if s.db.rows == [] then None else Some(Last(s.db.rows).id);
            && Abandoned(s, "superseded", r)
            && |r.db.rows| == |s.db.rows| + 1 && Last(r.db.rows) == user.(parent := parent)
            && r.job == Busy(Some(Turn(reply, Some(user.id), [], None, [], None, "superseded", hostTools)), [], true)
  {
    var t := Turn(reply, Some(user.id), [], None, [], None, "superseded", hostTools);
    var row := user.(parent := ParentOf(s.db.rows, user));
    var c := Core(s.db, s.action, Some(t));
    var quiet := AbandonedCore(c, "superseded");
    InvIdle(s);
    AbandonAll(c, "superseded", [Create(row), SaveState], true);
    CreatesAndSaves(quiet, row, true);
    AbandonedLength(s.db.rows, c, "superseded");
    var r := Up(Db(quiet.db.rows + [row], None), None, Busy(Some(t), [], true));
    AbandonIs(s, c, "superseded", r);
  }

  lemma AbandonedLength(rows: seq<Row>, c: Core, status: string)
    requires c.db.rows == rows
    ensures |AbandonedCore(c, status).db.rows| == |rows| && AbandonedCore(c, status).turn == c.turn
  {
  }

  lemma CreatesAndSaves(c: Core, row: Row, resume: bool)
    requires c.action.None?
    ensures CommitAll(Started(c, [Create(row), SaveState], resume)) == Up(Db(c.db.rows + [row], None), None, Settle(c.turn, [], resume))
  {
    assert [Create(row), SaveState] == [Create(row)] + [SaveState] && [SaveState] == [SaveState] + [];
    CommitOne(c, Create(row), [SaveState], resume);
    CommitOne(Commit(Create(row), c), SaveState, [], resume);
  }

  /** A host message is appended at the newest message, and starts nothing. */
  lemma HostMessageAppends(s: System, host: Row)
    requires Inv(s) && Enabled(s, HostMessage(host))
    ensures var parent := if s.db.rows == [] then None else Some(Last(s.db.rows).id);
            CommitAll(Next(s, HostMessage(host))) == Up(Db(s.db.rows + [host.(parent := parent)], None), None, Idle)
  {
    CreatesAndSaves(Core(s.db, s.action, None), AtLeaf(s.db.rows, host), false);
  }

  /** A call-off abandons what is pending, and starts nothing. */
  lemma CallOffAbandons(s: System, status: string)
    requires Inv(s) && Enabled(s, Abandon(status))
    ensures var r := CommitAll(Next(s, Abandon(status))); Abandoned(s, status, r) && r.job.Idle? && |r.db.rows| == |s.db.rows|
  {
    var c := Core(s.db, s.action, None);
    assert AbandonWrites(s.action, status) + [] == AbandonWrites(s.action, status);
    AbandonAll(c, status, [], false);
    AbandonedLength(s.db.rows, c, status);
    AbandonIs(s, c, status, Up(AbandonedCore(c, status).db, None, Idle));
  }

  /** Waiting steering goes on from a reply that is the newest message, on its row, and after
      any other message in a new reply to that. */
  lemma SteerGoesOn(s: System, reply: MessageId)
    requires Enabled(s, Steer(reply))
    ensures var r, leaf := Next(s, Steer(reply)), Last(s.db.rows);
            && r.db == s.db && r.action == s.action
            && (leaf.role == Assistant ==> r.job == Busy(Some(Turn(leaf.id, None, History(leaf), None, [], None, "superseded", false)), [], true))
            && (leaf.role != Assistant ==> r.job == Busy(Some(Turn(reply, Some(leaf.id), [], None, [], None, "superseded", false)), [], true))
  {
  }

  /** A continuation begins with the row's messages and the host's result. */
  lemma ContinuationBegins(s: System, call: CallId, output: string, outcome: Outcome)
    requires Enabled(s, Continue(call, output, outcome))
    ensures var r, a := Next(s, Continue(call, output, outcome)), s.action.value;
            && r.db == s.db && r.action == s.action && r.job.Busy? && call == a.call
            && r.job.turn == Some(Turn(a.row, None, History(RowOf(s.db.rows, a.row).value),
                                       Some(Request([ReturnPart(call, a.name, output, outcome)], [])), [], Some(call), "superseded", a.hostTools))
            && |r.job.todo| >= 2 && r.job.todo[0] == Snapshot(false) && r.job.todo[1] == ClearAction
  {
  }

  /** A call whose entry on the pending row has an output is not answered again. */
  lemma RecordedIsRefused(s: System, output: string, outcome: Outcome)
    requires s.Up? && s.action.Some? && RowOf(s.db.rows, s.action.value.row).Some?
    requires var row := RowOf(s.db.rows, s.action.value.row).value;
             row.role == Assistant && Find(ToolsOf(row.segments), s.action.value.call).Some?
             && Find(ToolsOf(row.segments), s.action.value.call).value.answer.Some?
    ensures !Enabled(s, Continue(s.action.value.call, output, outcome))
  {
    var row := RowOf(s.db.rows, s.action.value.row).value;
    assert ([row, s.db.rows[|s.db.rows| - 1]] + s.db.rows)[0] == row;
  }
}
