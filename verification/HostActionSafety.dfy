/** Every step keeps the invariant of `HostActionInvariant`, and no step loses a result. */
module HostActionSafety {
  import opened Basics
  import opened Transcript
  import opened RowMessages
  import opened RoundTrip
  import opened CallResults
  import opened ResolvedReturns
  import opened SessionRows
  import opened HostActions
  import opened HostActionInvariant

  // ---------------------------------------------------------------- writing and clearing

  /** After its snapshot the turn's row is the leaf and holds the turn's open calls. */
  ghost predicate Written(rows: seq<Row>, t: Turn, open: seq<CallId>) {
    && rows != [] && Last(rows).id == t.row && Last(rows).role == Assistant
    && History(Last(rows)) == StoredMessages(t) && OpenIds(TurnMessages(t)) == open
    && RowOk(Last(rows)) && OpenIds(History(Last(rows))) == open
  }

  /** The stored action may be restored after the snapshot only if its batch is still in order. */
  ghost predicate ActionSurvives(c: Core, close: bool)
    requires c.turn.Some?
  {
    c.db.action.Some? ==>
      var a, m := c.db.action.value, TurnMessages(c.turn.value);
      && a.row == c.turn.value.row
      && (close || a.call in Results(m)
          || ((exists k: nat :: PrefixAt(m, a, k))
              && forall i, id :: 0 <= i < |c.db.rows| && c.db.rows[i].id != a.row && id in a.batch ==>
                                 id !in OpenIds(History(c.db.rows[i]))))
  }

  function Closing(t: Turn, close: bool): Turn { if close then CloseTurn(t) else t }

  lemma CloseReturnedOnce(t: Turn)
    requires AcceptedShape(t) && ReturnedOnce(t)
    ensures ReturnedOnce(CloseTurn(t))
  {
    if t.answers.Some? {
      ReturnedOnceStored(t);
      var parts := InterruptedParts(ReplyParts(TurnMessages(t)), Results(TurnMessages(t)).Keys);
      CountInterrupted(ReplyParts(TurnMessages(t)), Results(TurnMessages(t)).Keys, t.answers.value);
      AppendRequestParts(t.later, parts);
      assert CloseTurn(t).later == AppendRequest(t.later, parts) by {
        assert t.later + [] == t.later;
      }
      CountAppend(RequestParts(t.later), parts, t.answers.value);
    }
  }

  lemma ClosingTurn(rows: seq<Row>, turn: Turn, close: bool)
    requires TurnOk(rows, turn)
    ensures var t := Closing(turn, close);
            && TurnOk(rows, t) && t.row == turn.row && t.answers == turn.answers && CallIds(TurnMessages(t)) == CallIds(TurnMessages(turn))
            && (close ==> OpenIds(TurnMessages(t)) == [] && forall id :: id in CallIds(TurnMessages(t)) ==> id in Results(TurnMessages(t)))
  {
    if close {
      CloseTurnCloses(turn);
      CloseReturnedOnce(turn);
      if HasRow(rows, turn.row) {
        PastTransitive(History(Last(rows)), TurnMessages(turn), TurnMessages(CloseTurn(turn)));
      }
    }
  }

  lemma SnapshotOthers(rows: seq<Row>, written: seq<Row>, id: MessageId)
    requires RowsOk(written) && written != [] && Last(written).id == id && |written| - 1 <= |rows|
    requires forall i :: 0 <= i < |written| - 1 ==> written[i] == rows[i]
    requires forall i :: 0 <= i < |rows| && rows[i].id != id ==> Quiet(rows[i])
    ensures OthersQuiet(written)
  {
    forall i | 0 <= i < |written| - 1 ensures Quiet(written[i]) {
      assert written[i].id != written[|written| - 1].id;
    }
  }

  lemma SnapshotAction(c: Core, t: Turn, rows: seq<Row>, close: bool)
    requires CoreOk(c) && c.turn.Some? && ActionSurvives(c, close) && t == Closing(c.turn.value, close)
    requires RowsOk(rows) && rows != [] && Last(rows).id == t.row && Last(rows).role == Assistant && OthersQuiet(rows)
    requires History(Last(rows)) == StoredMessages(t) && Matches(ToolsOf(Last(rows).segments), Results(StoredMessages(t)))
    requires Ids(ToolsOf(Last(rows).segments)) == CallIds(TurnMessages(t)) && t.row == c.turn.value.row
    requires close ==> forall id :: id in CallIds(TurnMessages(t)) ==> id in Results(TurnMessages(t))
    ensures DbSafe(Db(rows, c.db.action))
  {
    StoredSame(t);
    if c.db.action.Some? {
      var a := c.db.action.value;
      if close || a.call in Results(TurnMessages(c.turn.value)) {
        NotRestorable(rows, a);
      } else {
        var k: nat :| PrefixAt(TurnMessages(t), a, k);
        assert PrefixAt(History(Last(rows)), a, k);
        assert BatchPrefix(rows, a);
      }
    }
  }

  lemma SnapshotWritten(c: Core, close: bool)
    requires CoreOk(c) && c.turn.Some?
    requires forall i :: 0 <= i < |c.db.rows| && c.db.rows[i].id != c.turn.value.row ==> Quiet(c.db.rows[i])
    ensures var t := Closing(c.turn.value, close);
            var rows := WriteSnapshot(c.db.rows, t);
            && RowsOk(rows) && TurnOk(rows, t) && Written(rows, t, OpenIds(TurnMessages(t))) && OthersQuiet(rows)
            && Matches(ToolsOf(Last(rows).segments), Results(StoredMessages(t)))
            && Ids(ToolsOf(Last(rows).segments)) == CallIds(TurnMessages(t)) && t.row == c.turn.value.row
            && (close ==> OpenIds(TurnMessages(t)) == [] && forall id :: id in CallIds(TurnMessages(t)) ==> id in Results(TurnMessages(t)))
  {
    var t := Closing(c.turn.value, close);
    ClosingTurn(c.db.rows, c.turn.value, close);
    SnapshotRows(c.db.rows, t);
    SnapshotOthers(c.db.rows, WriteSnapshot(c.db.rows, t), t.row);
  }

  lemma CommitSnapshot(c: Core, close: bool)
    requires c.turn.Some?
    ensures var t := Closing(c.turn.value, close);
            Commit(Snapshot(close), c) == Core(Db(WriteSnapshot(c.db.rows, t), c.db.action), c.action, Some(t))
  {
  }

  lemma {:induction false} ReplacedRow(rows: seq<Row>, row: Row)
    requires HasRow(rows, row.id)
    ensures RowOf(Replace(rows, row), row.id) == Some(row)
  {
    var front, last := rows[..|rows| - 1], rows[|rows| - 1];
    assert Replace(rows, row)[..|rows| - 1] == Replace(front, row);
    if last.id != row.id {
      var i :| 0 <= i < |rows| && rows[i].id == row.id;
      assert front[i].id == row.id;
      ReplacedRow(front, row);
    }
  }

  /** The row that is written holds the turn's messages, and their text. */
  lemma WrittenRow(rows: seq<Row>, t: Turn)
    ensures var row := RowOf(WriteSnapshot(rows, t), t.row);
            && row.Some? && row.value.messages == Some(StoredMessages(t))
            && row.value.content == Spoken(ReplyParts(StoredMessages(t)))
            && row.value.segments == Build(StoredMessages(t), t.status)
  {
    BuildSays(StoredMessages(t), t.status);
    var stored := RowOf(rows, t.row);
    if stored.Some? {
      var segments := Build(StoredMessages(t), t.status);
      ReplacedRow(rows, stored.value.(content := TextOf(segments), segments := segments, messages := Some(StoredMessages(t))));
    }
  }

  lemma CoreIsOk(rows: seq<Row>, stored: Option<Action>, action: Option<Action>, t: Turn)
    requires DbSafe(Db(rows, stored)) && TurnOk(rows, t)
    ensures CoreOk(Core(Db(rows, stored), action, Some(t)))
  {
  }

  lemma SnapshotStep(c: Core, close: bool)
    requires CoreOk(c) && c.turn.Some? && ActionSurvives(c, close)
    requires forall i :: 0 <= i < |c.db.rows| && c.db.rows[i].id != c.turn.value.row ==> Quiet(c.db.rows[i])
    ensures var c', t := Commit(Snapshot(close), c), Closing(c.turn.value, close);
            && CoreOk(c') && c'.turn == Some(t) && c'.action == c.action && c'.db.action == c.db.action
            && Written(c'.db.rows, t, OpenIds(TurnMessages(t))) && OthersQuiet(c'.db.rows)
            && (close ==> OpenIds(TurnMessages(t)) == [])
  {
    var t := Closing(c.turn.value, close);
    CommitSnapshot(c, close);
    SnapshotWritten(c, close);
    SnapshotAction(c, t, WriteSnapshot(c.db.rows, t), close);
    CoreIsOk(WriteSnapshot(c.db.rows, t), c.db.action, c.action, t);
  }

  lemma ClearStep(c: Core)
    requires CoreOk(c) && c.db.action == c.action
    ensures var c' := Commit(ClearAction, c);
            CoreOk(c') && c'.db == Db(c.db.rows, None) && c'.action == None && c'.turn == c.turn
  {
  }

  lemma BatchIsPrefix(rows: seq<Row>, a: Action, k: nat)
    requires OthersQuiet(rows) && rows != [] && Last(rows).id == a.row && Last(rows).role == Assistant
    requires PrefixAt(History(Last(rows)), a, k)
    ensures BatchPrefix(rows, a)
  {
    forall i, id | 0 <= i < |rows| - 1 && id in a.batch ensures id !in OpenIds(History(rows[i])) {
      assert Quiet(rows[i]);
    }
  }

  lemma SetStep(c: Core, a: Action, k: nat)
    requires CoreOk(c) && OthersQuiet(c.db.rows)
    requires c.db.rows != [] && Last(c.db.rows).id == a.row && Last(c.db.rows).role == Assistant
    requires BatchAt(History(Last(c.db.rows)), a, k)
    ensures var c' := Commit(SetAction(a), c);
            && CoreOk(c') && IdleState(c'.db, c'.action) && c'.turn == c.turn
            && c'.db == Db(c.db.rows, Some(a)) && c'.action == Some(a)
  {
    BatchIsPrefix(c.db.rows, a, k);
    PrefixSafe(c, a);
    IdleWith(c.db.rows, a, k);
    CommitSet(c, a);
  }

  lemma CommitSet(c: Core, a: Action)
    ensures Commit(SetAction(a), c) == Core(Db(c.db.rows, Some(a)), Some(a), c.turn)
  {
  }

  lemma PrefixSafe(c: Core, a: Action)
    requires CoreOk(c) && BatchPrefix(c.db.rows, a)
    ensures CoreOk(Commit(SetAction(a), c))
  {
  }

  lemma IdleWith(rows: seq<Row>, a: Action, k: nat)
    requires OthersQuiet(rows) && rows != [] && Last(rows).id == a.row && Last(rows).role == Assistant
    requires BatchAt(History(Last(rows)), a, k)
    ensures IdleState(Db(rows, Some(a)), Some(a))
  {
  }

  /** The state between a save and what comes after it. */
  ghost predicate Saved(c: Core, open: seq<CallId>) {
    && CoreOk(c) && c.turn.Some? && c.db.action == None && c.action == None
    && OthersQuiet(c.db.rows) && Written(c.db.rows, c.turn.value, open)
  }

  lemma SavedStep(c: Core, close: bool)
    requires CoreOk(c) && c.turn.Some? && c.db.action == c.action && ActionSurvives(c, close)
    requires forall i :: 0 <= i < |c.db.rows| && c.db.rows[i].id != c.turn.value.row ==> Quiet(c.db.rows[i])
    ensures var saved := Commit(ClearAction, Commit(Snapshot(close), c));
            && CoreOk(Commit(Snapshot(close), c)) && saved.turn == Some(Closing(c.turn.value, close))
            && Saved(saved, if close then [] else OpenIds(TurnMessages(c.turn.value)))
  {
    SnapshotStep(c, close);
    ClearStep(Commit(Snapshot(close), c));
  }

  lemma SaveAndClearStep(c: Core, close: bool, rest: seq<Write>, resume: bool)
    requires CoreOk(c) && c.turn.Some? && c.db.action == c.action && ActionSurvives(c, close)
    requires forall i :: 0 <= i < |c.db.rows| && c.db.rows[i].id != c.turn.value.row ==> Quiet(c.db.rows[i])
    ensures var saved := Commit(ClearAction, Commit(Snapshot(close), c));
            && saved.turn == Some(Closing(c.turn.value, close))
            && Saved(saved, if close then [] else OpenIds(TurnMessages(c.turn.value)))
            && (JobOk(saved, rest, resume) ==> JobOk(c, [Snapshot(close), ClearAction] + rest, resume))
  {
    SavedStep(c, close);
    if JobOk(Commit(ClearAction, Commit(Snapshot(close), c)), rest, resume) {
      TwoWrites(c, Snapshot(close), ClearAction, rest, resume);
    }
  }

  lemma TwoWrites(c: Core, w: Write, v: Write, rest: seq<Write>, resume: bool)
    requires CoreOk(c) && CoreOk(Commit(w, c)) && JobOk(Commit(v, Commit(w, c)), rest, resume)
    ensures JobOk(c, [w, v] + rest, resume)
  {
    JobStep(Commit(w, c), v, rest, resume);
    JobStep(c, w, [v] + rest, resume);
    assert [w, v] + rest == [w] + ([v] + rest);
  }

  lemma SavedQuietly(c: Core, resume: bool)
    requires Saved(c, []) && (resume ==> c.turn.value.answers.Some? ==> OpenIds(TurnMessages(c.turn.value)) == [])
    ensures JobOk(c, [], resume)
  {
    assert Quiet(Last(c.db.rows));
  }

  /** Nothing is asked of an action that the closing of its turn clears. */
  lemma ClosingSurvives(c: Core)
    requires c.turn.Some? && (c.db.action.Some? ==> c.db.action.value.row == c.turn.value.row)
    ensures ActionSurvives(c, true)
  {
  }

  /** Closing a turn after its output was already saved, perhaps with an action set. */
  lemma CloseSaved(c: Core)
    requires CoreOk(c) && c.turn.Some? && c.db.action == c.action && OthersQuiet(c.db.rows)
    requires c.db.rows != [] && Last(c.db.rows).id == c.turn.value.row
    requires c.db.action.Some? ==> c.db.action.value.row == c.turn.value.row
    ensures JobOk(c, CloseAndClear, false)
  {
    ClosedAfterSave(c);
    SavedQuietly(Commit(ClearAction, Commit(Snapshot(true), c)), false);
    TwoWrites(c, Snapshot(true), ClearAction, [], false);
    assert [Snapshot(true), ClearAction] + [] == CloseAndClear;
  }

  lemma ClosedAfterSave(c: Core)
    requires CoreOk(c) && c.turn.Some? && c.db.action == c.action && OthersQuiet(c.db.rows)
    requires c.db.rows != [] && Last(c.db.rows).id == c.turn.value.row
    requires c.db.action.Some? ==> c.db.action.value.row == c.turn.value.row
    ensures var closed := Commit(Snapshot(true), c); CoreOk(closed) && Saved(Commit(ClearAction, closed), [])
  {
    OthersByRow(c.db.rows, c.turn.value.row);
    ClosingSurvives(c);
    SavedStep(c, true);
  }

  lemma OthersByRow(rows: seq<Row>, id: MessageId)
    requires OthersQuiet(rows) && rows != [] && Last(rows).id == id
    ensures forall i :: 0 <= i < |rows| && rows[i].id != id ==> Quiet(rows[i])
  {
    forall i | 0 <= i < |rows| && rows[i].id != id ensures Quiet(rows[i]) {
      assert i < |rows| - 1;
    }
  }

  // ---------------------------------------------------------------- the end of a run

  /** The turn as it is when a run has ended, before anything of it is written. */
  ghost predicate RunEnded(c: Core, t: Turn, ending: Ending) {
    && CoreOk(c) && c.turn == Some(t) && c.db.action == c.action
    && (forall i :: 0 <= i < |c.db.rows| && c.db.rows[i].id != t.row ==> Quiet(c.db.rows[i]))
    && (c.db.action.Some? ==> c.db.action.value.row == t.row && HasRow(c.db.rows, t.row))
    && ActionSurvives(c, ending.Stopped? || ending.Errored?)
    && (ending.Deferred? ==> ending.batch == OpenIds(TurnMessages(t)))
    && (ending.Replied? ==> OpenIds(TurnMessages(t)) == [])
  }

  lemma OpenBatch(ids: seq<CallId>, closed: set<CallId>)
    requires Distinct(ids)
    ensures var batch := Without(ids, closed); Distinct(batch) && Within(ids, set id | id in batch) == batch
  {
    WithoutDistinct(ids, closed);
    WithinWithout(ids, (set id | id in Without(ids, closed)), closed);
  }

  lemma DeferredBatch(t: Turn, name: string)
    requires Distinct(CallIds(TurnMessages(t))) && OpenIds(TurnMessages(t)) != []
    ensures var batch := OpenIds(TurnMessages(t));
            BatchAt(StoredMessages(t), Action(batch[0], name, t.row, batch, t.hostTools), 0)
  {
    StoredSame(t);
    var m, h := TurnMessages(t), StoredMessages(t);
    OpenBatch(CallIds(m), Results(m).Keys + Retried(m));
    var batch := OpenIds(m);
    var a := Action(batch[0], name, t.row, batch, t.hostTools);
    assert InBatch(a) == set id | id in batch;
    assert batch[0..] == batch;
    forall i | 0 <= i < |batch| ensures batch[i] !in Results(h) {
      assert batch[i] in batch;
    }
    assert PrefixAt(h, a, 0);
  }

  lemma DeferredSome(c: Core, t: Turn, a: Action, cancelledAfter: bool)
    requires RunEnded(c, t, Deferred(a.batch, a.name, cancelledAfter)) && a.batch != []
    requires a == Action(a.batch[0], a.name, t.row, a.batch, t.hostTools)
    ensures JobOk(Commit(ClearAction, Commit(Snapshot(false), c)), [SetAction(a)] + (if cancelledAfter then CloseAndClear else []), false)
  {
    var saved := Commit(ClearAction, Commit(Snapshot(false), c));
    var after := if cancelledAfter then CloseAndClear else [];
    SaveAndClearStep(c, false, [SetAction(a)] + after, false);
    DeferredBatch(t, a.name);
    SetStep(saved, a, 0);
    if cancelledAfter {
      CloseSaved(Commit(SetAction(a), saved));
    }
    JobStep(saved, SetAction(a), after, false);
  }

  lemma NothingDeferred(c: Core, t: Turn, ending: Ending)
    requires RunEnded(c, t, ending) && ending.Deferred? && ending.batch == []
    ensures JobOk(c, SaveAndClear + CloseAndClear, false)
  {
    SaveAndClearStep(c, false, CloseAndClear, false);
    CloseSaved(Commit(ClearAction, Commit(Snapshot(false), c)));
  }

  lemma DeferredJob(c: Core, t: Turn, ending: Ending)
    requires RunEnded(c, t, ending) && ending.Deferred?
    ensures JobOk(c, WritesAfter(t, ending), false)
  {
    var batch := ending.batch;
    if batch == [] {
      NothingDeferred(c, t, ending);
    } else {
      var a := Action(batch[0], ending.name, t.row, batch, t.hostTools);
      var after := if ending.cancelledAfter then CloseAndClear else [];
      DeferredSome(c, t, a, ending.cancelledAfter);
      SaveAndClearStep(c, false, [SetAction(a)] + after, false);
      assert WritesAfter(t, ending) == SaveAndClear + ([SetAction(a)] + after);
    }
  }

  /** Whatever way a run ends, the writes that follow keep the session safe. */
  lemma RunEndedJob(c: Core, t: Turn, ending: Ending)
    requires RunEnded(c, t, ending)
    requires ending.Errored? && TurnMessages(t) == [] ==> IdleState(c.db, c.action)
    ensures JobOk(c, WritesAfter(t, ending), Resumes(ending))
  {
    var saved := Commit(ClearAction, Commit(Snapshot(false), c));
    match ending
    case Deferred(_, _, _) => DeferredJob(c, t, ending);
    case Replied(more, cancelledAfter) =>
      SaveAndClearStep(c, false, if cancelledAfter then CloseAndClear else [], Resumes(ending));
      if cancelledAfter {
        CloseSaved(saved);
      } else {
        SavedQuietly(saved, more);
      }
    case Rejected =>
      SaveAndClearStep(c, false, CloseAndClear, false);
      CloseSaved(saved);
    case Stopped =>
      SaveAndClearStep(c, true, [], false);
      SavedQuietly(Commit(ClearAction, Commit(Snapshot(true), c)), false);
      assert CloseAndClear + [] == CloseAndClear;
    case Errored =>
      if TurnMessages(t) != [] {
        SaveAndClearStep(c, true, [], false);
        SavedQuietly(Commit(ClearAction, Commit(Snapshot(true), c)), false);
        assert CloseAndClear + [] == CloseAndClear;
      }
  }

  lemma RequestHistory(m: Message)
    requires m.Request?
    ensures CallIds([m]) == [] && RequestParts([m]) == m.parts
  {
    assert ReplyParts([m]) == [];
    assert RequestParts([]) + m.parts == m.parts;
  }

  /** The accepted result adds no call and no retry. */
  lemma TurnHistory(t: Turn)
    requires AcceptedShape(t)
    ensures CallIds(TurnMessages(t)) == CallIds(t.prior) + CallIds(t.later)
    ensures Retried(TurnMessages(t)) == Retried(t.prior) + Retried(t.later)
  {
    var accepted := if t.accepted.Some? then [t.accepted.value] else [];
    AcceptedAddsNothing(t);
    ThreeHistories(t.prior, accepted, t.later);
  }

  lemma AcceptedAddsNothing(t: Turn)
    requires AcceptedShape(t)
    ensures var accepted := if t.accepted.Some? then [t.accepted.value] else [];
            CallIds(accepted) == [] && Retried(accepted) == {}
  {
    if t.accepted.Some? {
      RequestHistory(t.accepted.value);
    } else {
      assert ReplyParts([]) == [] && RequestParts([]) == [];
    }
  }

  lemma ThreeHistories(a: seq<Message>, b: seq<Message>, c: seq<Message>)
    requires CallIds(b) == [] && Retried(b) == {}
    ensures CallIds(a + b + c) == CallIds(a) + CallIds(c)
    ensures Retried(a + b + c) == Retried(a) + Retried(c)
  {
    HistoryAppend(a + b, c);
    HistoryAppend(a, b);
    assert CallIds(a) + [] == CallIds(a);
    assert Retried(a) + {} == Retried(a);
  }

  lemma {:induction false} CountReturned(parts: seq<RequestPart>, id: CallId)
    ensures CountReturns(parts, id) > 0 <==> exists p :: p in parts && p.ReturnPart? && p.id == id
  {
    if parts != [] {
      var front, p := parts[..|parts| - 1], parts[|parts| - 1];
      CountReturned(front, id);
      assert p in parts && parts == front + [p];
      assert forall q :: q in front ==> q in parts;
    }
  }

  lemma CaptureReturnedOnce(t: Turn, new_: seq<Message>)
    requires ReturnedOnce(t) && RunContract(t, new_)
    ensures ReturnedOnce(Capture(t, new_))
  {
    if t.answers.Some? {
      RequestPartsAppend(t.later, new_);
      CountAppend(RequestParts(t.later), RequestParts(new_), t.answers.value);
      CountReturned(RequestParts(new_), t.answers.value);
    }
  }

  lemma CapturePast(t: Turn, new_: seq<Message>)
    requires AcceptedShape(t) && ReturnedOnce(t) && RunContract(t, new_)
    ensures var t', before := Capture(t, new_), TurnMessages(t);
            && AcceptedShape(t') && ReturnedOnce(t')
            && CallIds(TurnMessages(t')) == CallIds(before) + CallIds(new_)
            && Retried(TurnMessages(t')) == Retried(before) + Retried(new_)
            && Distinct(CallIds(TurnMessages(t')))
            && Past(before, TurnMessages(t'))
  {
    var t', before := Capture(t, new_), TurnMessages(t);
    TurnHistory(t);
    TurnHistory(t');
    HistoryAppend(t.later, new_);
    HistoryAppend(before, new_);
    CaptureReturnedOnce(t, new_);
    ConcatAssoc(CallIds(t.prior), CallIds(t.later), CallIds(new_));
  }

  /** An action the turn found pending: after a run with an output it is answered, or its
      batch is still in order. */
  lemma PendingAfterRun(h: seq<Message>, after: seq<Message>, a: Action, k: nat, new_: seq<Message>)
    requires BatchAt(h, a, k) && Past(h, after) && Distinct(CallIds(after))
    requires Retried(after) == Retried(h) + Retried(new_) && (forall id :: id in Retried(new_) ==> id !in CallIds(h))
    requires AllOrNone(OpenIds(h), OpenIds(after))
    ensures a.call in Results(after) || PrefixAt(after, a, k)
  {
    BatchStaysKnown(h, after, a, k, new_);
    BatchStaysInOrder(CallIds(h), CallIds(after), a);
    assert a.batch[k..][0] == a.call && a.call in a.batch;
    if a.call in OpenIds(after) {
      BatchStaysOpen(h, after, a, k);
    } else {
      StillClosed(after, a.call);
    }
  }

  lemma BatchStaysKnown(h: seq<Message>, after: seq<Message>, a: Action, k: nat, new_: seq<Message>)
    requires PrefixAt(h, a, k) && CallIds(h) <= CallIds(after)
    requires Retried(after) == Retried(h) + Retried(new_) && (forall id :: id in Retried(new_) ==> id !in CallIds(h))
    ensures forall id :: id in a.batch ==> id in CallIds(after) && id !in Retried(after)
  {
  }

  lemma BatchStaysInOrder(ids: seq<CallId>, after: seq<CallId>, a: Action)
    requires ids <= after && Distinct(after) && Within(ids, InBatch(a)) == a.batch
    ensures Within(after, InBatch(a)) == a.batch
  {
    var added := after[|ids|..];
    assert after == ids + added;
    DistinctSplit(ids, added);
    assert forall id :: id in a.batch ==> id in ids;
    WithinAppend(ids, added, InBatch(a));
    WithinNone(added, InBatch(a));
  }

  lemma BatchStaysOpen(h: seq<Message>, after: seq<Message>, a: Action, k: nat)
    requires BatchAt(h, a, k) && Extends(Results(h), Results(after))
    requires forall id :: id in a.batch ==> id in CallIds(after) && id !in Retried(after)
    requires Within(CallIds(after), InBatch(a)) == a.batch
    requires AllOrNone(OpenIds(h), OpenIds(after)) && a.call in OpenIds(after)
    ensures PrefixAt(after, a, k)
  {
    var open := OpenIds(h);
    assert a.call in open by { assert open[0] == a.call; }
    forall i | k <= i < |a.batch| ensures a.batch[i] !in Results(after) {
      assert open[i - k] == a.batch[i];
    }
  }

  lemma StillClosed(m: seq<Message>, id: CallId)
    requires id in CallIds(m) && id !in Retried(m) && id !in OpenIds(m)
    ensures id in Results(m)
  {
  }

  lemma CapturedTurn(rows: seq<Row>, t: Turn, new_: seq<Message>)
    requires TurnOk(rows, t) && RunContract(t, new_)
    ensures TurnOk(rows, Capture(t, new_))
  {
    CapturePast(t, new_);
    if HasRow(rows, t.row) {
      PastTransitive(History(Last(rows)), TurnMessages(t), TurnMessages(Capture(t, new_)));
    }
  }

  lemma OthersOfTurn(c: Core)
    requires RunReady(c)
    ensures forall i :: 0 <= i < |c.db.rows| && c.db.rows[i].id != c.turn.value.row ==> Quiet(c.db.rows[i])
  {
    var rows := c.db.rows;
    forall i | 0 <= i < |rows| && rows[i].id != c.turn.value.row ensures Quiet(rows[i]) {
      if i == |rows| - 1 {
        assert rows[i] == Last(rows);
      }
    }
  }

  /** The end of a run leaves the turn ready to be written. */
  lemma RunEndsReady(c: Core, new_: seq<Message>, ending: Ending)
    requires CoreOk(c) && RunReady(c)
    requires RunContract(c.turn.value, new_) && EndingContract(c.turn.value, new_, ending)
    ensures var t := Capture(c.turn.value, new_);
            && RunEnded(c.(turn := Some(t)), t, ending)
            && (ending.Errored? && TurnMessages(t) == [] ==> IdleState(c.db, c.action))
  {
    CapturedTurn(c.db.rows, c.turn.value, new_);
    OthersOfTurn(c);
    PendingReady(c, new_, ending);
    EndingOpen(c.turn.value, new_, ending);
    ReadyIdle(c);
  }

  lemma EndingOpen(t: Turn, new_: seq<Message>, ending: Ending)
    requires EndingContract(t, new_, ending)
    ensures ending.Deferred? ==> ending.batch == OpenIds(TurnMessages(Capture(t, new_)))
    ensures ending.Replied? ==> OpenIds(TurnMessages(Capture(t, new_))) == []
  {
  }

  lemma ReadyIdle(c: Core)
    requires RunReady(c)
    ensures IdleState(c.db, c.action)
  {
  }

  /** What `RunEndsReady` says of an action the turn found pending. */
  lemma PendingReady(c: Core, new_: seq<Message>, ending: Ending)
    requires CoreOk(c) && RunReady(c)
    requires RunContract(c.turn.value, new_) && EndingContract(c.turn.value, new_, ending)
    ensures c.db.action.Some? ==> c.db.action.value.row == c.turn.value.row && HasRow(c.db.rows, c.turn.value.row)
    ensures ActionSurvives(c.(turn := Some(Capture(c.turn.value, new_))), ending.Stopped? || ending.Errored?)
  {
    var t, t', rows := c.turn.value, Capture(c.turn.value, new_), c.db.rows;
    if c.action.Some? {
      var a, h := c.action.value, History(Last(rows));
      var k: nat :| BatchAt(h, a, k);
      RowOfLast(rows, a.row);
      OthersClosed(rows, a.row);
      if !(ending.Stopped? || ending.Errored?) {
        CapturePast(t, new_);
        PendingStays(t, t', h, a, k, new_, ending);
      }
    }
  }

  lemma OthersClosed(rows: seq<Row>, id: MessageId)
    requires OthersQuiet(rows) && rows != [] && Last(rows).id == id
    ensures forall i, call :: 0 <= i < |rows| && rows[i].id != id ==> call !in OpenIds(History(rows[i]))
  {
    forall i | 0 <= i < |rows| && rows[i].id != id ensures OpenIds(History(rows[i])) == [] {
      assert i < |rows| - 1 && Quiet(rows[i]);
    }
  }

  lemma PendingStays(t: Turn, t': Turn, h: seq<Message>, a: Action, k: nat, new_: seq<Message>, ending: Ending)
    requires t' == Capture(t, new_) && TurnMessages(t) == h == t.prior && BatchAt(h, a, k)
    requires RunContract(t, new_) && EndingContract(t, new_, ending) && !ending.Stopped? && !ending.Errored?
    requires Past(h, TurnMessages(t')) && Distinct(CallIds(TurnMessages(t')))
    requires Retried(TurnMessages(t')) == Retried(h) + Retried(new_)
    ensures a.call in Results(TurnMessages(t')) || PrefixAt(TurnMessages(t'), a, k)
  {
    assert AllOrNone(OpenIds(h), OpenIds(TurnMessages(t')));
    PendingAfterRun(h, TurnMessages(t'), a, k, new_);
  }
}
