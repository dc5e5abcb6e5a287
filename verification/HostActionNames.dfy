/** The tools that pending calls and accepted results name: over every run, the name is that
    of the call with that id on the row. */
module HostActionNames {
  import opened Basics
  import opened Transcript
  import opened RowMessages
  import opened RoundTrip
  import opened CallResults
  import opened ResolvedReturns
  import opened SessionRows
  import opened HostActions
  import opened HostActionInvariant
  import opened HostActionSafety
  import opened HostActionRuns
  import opened HostActionSteps
  import opened SessionRepairSafety
  import opened SessionRepairSteps
  import opened HostActionTheorems
  import R = SessionRepairs

  // ---------------------------------------------------------------- calls with their names

  /** The calls of `h` are the first ones of `m`, with their names and arguments. */
  ghost predicate CallsPrefix(h: seq<Message>, m: seq<Message>) { CallsOf(h) <= CallsOf(m) }

  lemma CallsAppend(a: seq<Message>, b: seq<Message>)
    ensures CallsOf(a + b) == CallsOf(a) + CallsOf(b)
  {
    ReplyPartsAppend(a, b);
    FilterAppend(IsCall, ReplyParts(a), ReplyParts(b));
  }

  lemma NamedInCalls(m: seq<Message>, id: CallId, name: string)
    ensures NamedCall(m, id, name) <==> exists c :: c in CallsOf(m) && c.CallPart? && c.id == id && c.name == name
  {
    if NamedCall(m, id, name) {
      var c :| c in ReplyParts(m) && c.CallPart? && c.id == id && c.name == name;
      FilterMember(IsCall, ReplyParts(m), c);
    }
    forall c | c in CallsOf(m) ensures c in ReplyParts(m) {
      FilterMember(IsCall, ReplyParts(m), c);
    }
  }

  lemma NamedLater(h: seq<Message>, m: seq<Message>, id: CallId, name: string)
    requires CallsPrefix(h, m) && NamedCall(h, id, name)
    ensures NamedCall(m, id, name)
  {
    NamedInCalls(h, id, name);
    NamedInCalls(m, id, name);
    var c :| c in CallsOf(h) && c.CallPart? && c.id == id && c.name == name;
    assert c in CallsOf(m);
  }

  lemma {:induction false} StripCalls(m: seq<Message>)
    ensures CallsOf(StripContent(m)) == CallsOf(m)
  {
    if m != [] {
      var front, last := m[..|m| - 1], m[|m| - 1];
      StripCalls(front);
      assert m == front + [last];
      CallsAppend(front, [last]);
      CallsAppend(StripContent(front), [if last.Response? then Response(Filter(IsCall, last.reply)) else last]);
      StripOne(last);
    }
  }

  lemma StripOne(m: Message)
    ensures CallsOf([if m.Response? then Response(Filter(IsCall, m.reply)) else m]) == CallsOf([m])
  {
    if m.Response? {
      FilterTwice(m.reply);
      assert ReplyParts([m]) == ReplyParts([]) + m.reply;
      assert ReplyParts([Response(Filter(IsCall, m.reply))]) == ReplyParts([]) + Filter(IsCall, m.reply);
      assert [] + m.reply == m.reply && [] + Filter(IsCall, m.reply) == Filter(IsCall, m.reply);
    }
  }

  lemma FilterTwice(parts: seq<ResponsePart>)
    ensures Filter(IsCall, Filter(IsCall, parts)) == Filter(IsCall, parts)
  {
    var f := Filter(IsCall, parts);
    forall i | 0 <= i < |f| ensures IsCall(f[i]) {
      FilterMember(IsCall, parts, f[i]);
    }
    FilterAll(IsCall, f);
  }

  lemma StoredCalls(t: Turn)
    ensures CallsOf(StoredMessages(t)) == CallsOf(TurnMessages(t))
  {
    if t.hostTools {
      StripCalls(TurnMessages(t));
    }
  }

  /** Closing a turn adds no call. */
  lemma ClosingCalls(t: Turn, close: bool)
    ensures CallsOf(TurnMessages(Closing(t, close))) == CallsOf(TurnMessages(t))
  {
    if close {
      var parts := InterruptedParts(ReplyParts(TurnMessages(t)), Results(TurnMessages(t)).Keys);
      var more := if parts == [] then [] else [Request(parts, [])];
      LaterAppended(t, more);
      CallsAppend(TurnMessages(t), more);
      assert ReplyParts(more) == [];
      assert CallsOf(TurnMessages(t)) + [] == CallsOf(TurnMessages(t));
    }
  }

  lemma LaterAppended(t: Turn, more: seq<Message>)
    ensures TurnMessages(t.(later := t.later + more)) == TurnMessages(t) + more
  {
  }

  /** What a turn began with comes first. */
  lemma PriorFirst(t: Turn)
    ensures CallsPrefix(t.prior, TurnMessages(t))
  {
    var accepted := if t.accepted.Some? then [t.accepted.value] else [];
    CallsAppend(t.prior, accepted);
    CallsAppend(t.prior + accepted, t.later);
  }

  /** Resolving a row keeps its calls as they are. */
  lemma ResolvedCalls(row: Row, scope: Scope, answer: Answer)
    requires RowOk(row)
    ensures CallsOf(History(ResolveRow(row, scope, answer))) == CallsOf(History(row))
  {
    if row.role == Assistant {
      var r := ResolveRow(row, scope, answer);
      ResolveRowKeeps(row, scope, answer);
      ResolveToolsOf(row.segments, scope, answer);
      ResolveToolsCalls(ToolsOf(row.segments), scope, answer);
    }
  }

  lemma RepairedCalls(row: Row, keep: set<CallId>)
    requires RowOk(row)
    ensures CallsOf(History(RepairRow(row, keep))) == CallsOf(History(row))
  {
    ResolvedCalls(row, Except(keep), UnknownAnswer);
  }

  // ---------------------------------------------------------------- rows that keep their calls

  /** Every row is still there, and its calls with it. */
  ghost predicate CallsKept(rows: seq<Row>, rows': seq<Row>) {
    |rows| <= |rows'| && forall i :: 0 <= i < |rows| ==> rows'[i].id == rows[i].id && CallsPrefix(History(rows[i]), History(rows'[i]))
  }

  /** The action is a call of its row, under the name it has there. */
  ghost predicate ActionNamed(rows: seq<Row>, a: Action) {
    exists i :: 0 <= i < |rows| && rows[i].id == a.row && NamedCall(History(rows[i]), a.call, a.name)
  }

  lemma ActionStaysNamed(rows: seq<Row>, rows': seq<Row>, a: Action)
    requires ActionNamed(rows, a) && CallsKept(rows, rows')
    ensures ActionNamed(rows', a)
  {
    var i :| 0 <= i < |rows| && rows[i].id == a.row && NamedCall(History(rows[i]), a.call, a.name);
    NamedLater(History(rows[i]), History(rows'[i]), a.call, a.name);
  }

  /** The same rows with the same calls. */
  ghost predicate CallsSame(rows: seq<Row>, rows': seq<Row>) {
    |rows| == |rows'| && forall i :: 0 <= i < |rows| ==> rows'[i].id == rows[i].id && CallsOf(History(rows'[i])) == CallsOf(History(rows[i]))
  }

  lemma RepairKeepsCalls(rows: seq<Row>, keep: set<CallId>)
    requires RowsOk(rows)
    ensures CallsSame(rows, RepairRows(rows, keep))
  {
    forall i | 0 <= i < |rows|
      ensures RepairRows(rows, keep)[i].id == rows[i].id && CallsOf(History(RepairRows(rows, keep)[i])) == CallsOf(History(rows[i]))
    {
      RepairedCalls(rows[i], keep);
      RepairRowKeeps(rows[i], keep);
    }
  }

  lemma SupersedeKeepsCalls(rows: seq<Row>, id: MessageId, ids: set<CallId>, status: string)
    requires RowsOk(rows)
    ensures CallsSame(rows, WriteSupersede(rows, id, ids, status))
  {
    var stored := RowOf(rows, id);
    if stored.Some? && AnyId(ToolsOf(stored.value.segments), ids) {
      var j :| 0 <= j < |rows| && rows[j] == stored.value;
      var row := ResolveRow(rows[j], Only(ids), AbandonedAnswer(status));
      ResolveRowKeeps(rows[j], Only(ids), AbandonedAnswer(status));
      ResolvedCalls(rows[j], Only(ids), AbandonedAnswer(status));
      ReplacedAt(rows, j, row);
    }
  }

  /** What a turn holds has the calls of its row first. */
  ghost predicate TurnCalls(rows: seq<Row>, t: Turn) {
    forall i :: 0 <= i < |rows| && rows[i].id == t.row ==> CallsPrefix(History(rows[i]), TurnMessages(t))
  }

  lemma SnapshotKeepsCalls(rows: seq<Row>, t: Turn)
    requires RowsOk(rows) && TurnOk(rows, t) && TurnCalls(rows, t)
    ensures CallsKept(rows, WriteSnapshot(rows, t)) && TurnCalls(WriteSnapshot(rows, t), t)
  {
    var r := WriteSnapshot(rows, t);
    SnapshotRows(rows, t);
    StoredCalls(t);
    if HasRow(rows, t.row) {
      assert r[|rows| - 1].id == rows[|rows| - 1].id;
    }
    forall i | 0 <= i < |rows| ensures r[i].id == rows[i].id && CallsPrefix(History(rows[i]), History(r[i])) {
      if i == |r| - 1 {
        assert r[i] == Last(r);
      }
    }
    forall i | 0 <= i < |r| && r[i].id == t.row ensures CallsPrefix(History(r[i]), TurnMessages(t)) {
      SameIdSameRow(r, i, |r| - 1);
    }
  }

  // ---------------------------------------------------------------- the invariant

  /** An accepted result names the call it answers. */
  ghost predicate AcceptedNamed(t: Turn) {
    t.accepted.Some? ==>
      && t.accepted.value.Request? && |t.accepted.value.parts| == 1 && t.accepted.value.parts[0].ReturnPart?
      && NamedCall(t.prior, t.accepted.value.parts[0].id, t.accepted.value.parts[0].name)
  }

  /** What a job will set pending is a call of its turn. */
  ghost predicate WritesNamed(turn: Option<Turn>, todo: seq<Write>) {
    forall i :: 0 <= i < |todo| && todo[i].SetAction? ==>
      turn.Some? && todo[i].action.row == turn.value.row && NamedCall(TurnMessages(turn.value), todo[i].action.call, todo[i].action.name)
  }

  ghost predicate JobNamed(rows: seq<Row>, turn: Option<Turn>, todo: seq<Write>) {
    (turn.Some? ==> TurnCalls(rows, turn.value) && AcceptedNamed(turn.value)) && WritesNamed(turn, todo)
  }

  ghost predicate NamesInv(s: System) {
    && (s.db.action.Some? ==> ActionNamed(s.db.rows, s.db.action.value))
    && (s.Up? && s.action.Some? ==> ActionNamed(s.db.rows, s.action.value))
    && (s.Up? && s.job.Busy? ==> JobNamed(s.db.rows, s.job.turn, s.job.todo))
  }

  // ---------------------------------------------------------------- a write

  lemma SameIsKept(rows: seq<Row>, rows': seq<Row>, turn: Option<Turn>)
    requires CallsSame(rows, rows')
    ensures CallsKept(rows, rows') && (turn.Some? && TurnCalls(rows, turn.value) ==> TurnCalls(rows', turn.value))
  {
    if turn.Some? && TurnCalls(rows, turn.value) {
      forall i | 0 <= i < |rows'| && rows'[i].id == turn.value.row ensures CallsPrefix(History(rows'[i]), TurnMessages(turn.value)) {
        assert CallsPrefix(History(rows[i]), TurnMessages(turn.value));
      }
    }
  }

  /** What a running job's next write may rely on. */
  ghost predicate WriteReady(rows: seq<Row>, turn: Option<Turn>, w: Write) {
    && RowsOk(rows)
    && (turn.Some? && w.Snapshot? ==> TurnOk(rows, turn.value))
    && (w.SetAction? ==> turn.Some? && R.Synced(rows, turn.value))
    && (w.Create? && turn.Some? ==> w.message.id != turn.value.row)
  }

  lemma WriteIsReady(s: R.State)
    requires R.RepairInv(s) && s.turns.Up? && s.turns.job.Busy? && s.turns.job.todo != []
    ensures WriteReady(s.turns.db.rows, s.turns.job.turn, s.turns.job.todo[0])
  {
    var c := BeforeClearing(s);
    JobReady(c, s.turns.job.todo, s.turns.job.resume);
  }

  lemma JobReady(c: Core, todo: seq<Write>, resume: bool)
    requires JobOk(c, todo, resume) && todo != []
    requires || R.OpeningShape(c, todo, resume) || (c.turn.Some? && R.ClosingShape(c.db.rows, c.turn.value, todo))
    ensures WriteReady(c.db.rows, c.turn, todo[0])
  {
    assert CoreOk(c);
    if R.OpeningShape(c, todo, resume) {
      assert R.NewMessage(c.db.rows, c.turn, todo[0]);
    }
  }

  /** The action, in memory or stored, once a write has been made. */
  lemma CommitActionNamed(c: Core, w: Write, a: Action)
    requires WriteReady(c.db.rows, c.turn, w) && WritesNamed(c.turn, [w]) && CallsKept(c.db.rows, Commit(w, c).db.rows)
    requires c.db.action == Some(a) || c.action == Some(a) ==> ActionNamed(c.db.rows, a)
    requires Commit(w, c).db.action == Some(a) || Commit(w, c).action == Some(a)
    ensures ActionNamed(Commit(w, c).db.rows, a)
  {
    if w == SetAction(a) {
      assert [w][0].SetAction?;
      SetIsNamed(c.db.rows, c.turn.value, a);
      CommitSet(c, a);
    } else {
      KeptAction(c, w, a);
      ActionStaysNamed(c.db.rows, Commit(w, c).db.rows, a);
    }
  }

  lemma KeptAction(c: Core, w: Write, a: Action)
    requires w != SetAction(a) && (Commit(w, c).db.action == Some(a) || Commit(w, c).action == Some(a))
    ensures c.db.action == Some(a) || c.action == Some(a)
  {
  }

  lemma SetIsNamed(rows: seq<Row>, t: Turn, a: Action)
    requires R.Synced(rows, t) && a.row == t.row && NamedCall(TurnMessages(t), a.call, a.name)
    ensures ActionNamed(rows, a)
  {
    StoredCalls(t);
    NamedLater(TurnMessages(t), StoredMessages(t), a.call, a.name);
    assert rows[|rows| - 1].id == a.row;
  }

  /** A write keeps every row's calls, and what the job knows of them. */
  lemma CommitRowsNamed(c: Core, w: Write)
    requires WriteReady(c.db.rows, c.turn, w) && (c.turn.Some? ==> TurnCalls(c.db.rows, c.turn.value))
    ensures var c' := Commit(w, c);
            && CallsKept(c.db.rows, c'.db.rows) && (c'.turn.Some? <==> c.turn.Some?)
            && (c'.turn.Some? ==> TurnCalls(c'.db.rows, c'.turn.value))
  {
    match w
    case Supersede(row, ids, status) =>
      SupersedeKeepsCalls(c.db.rows, row, ids, status);
      SameIsKept(c.db.rows, Commit(w, c).db.rows, c.turn);
    case Snapshot(close) =>
      if c.turn.Some? {
        ClosingTurn(c.db.rows, c.turn.value, close);
        ClosingCalls(c.turn.value, close);
        CommitSnapshot(c, close);
        SnapshotKeepsCalls(c.db.rows, Closing(c.turn.value, close));
      }
    case _ =>
  }

  lemma CommitTurn(c: Core, w: Write)
    ensures var c' := Commit(w, c);
            && (c'.turn.Some? <==> c.turn.Some?)
            && (c.turn.Some? ==>
                  && c'.turn.value.row == c.turn.value.row && c'.turn.value.prior == c.turn.value.prior
                  && c'.turn.value.accepted == c.turn.value.accepted
                  && CallsOf(TurnMessages(c'.turn.value)) == CallsOf(TurnMessages(c.turn.value)))
  {
    if w.Snapshot? && c.turn.Some? {
      ClosingCalls(c.turn.value, w.close);
      CommitSnapshot(c, w.close);
    }
  }

  lemma WritesStayNamed(t: Option<Turn>, t': Option<Turn>, todo: seq<Write>, rest: seq<Write>)
    requires WritesNamed(t, todo) && todo != [] && rest == todo[1..] && (t'.Some? <==> t.Some?)
    requires t.Some? ==> t'.value.row == t.value.row && CallsOf(TurnMessages(t'.value)) == CallsOf(TurnMessages(t.value))
    ensures WritesNamed(t', rest)
  {
    forall i | 0 <= i < |rest| && rest[i].SetAction?
      ensures t'.Some? && rest[i].action.row == t'.value.row && NamedCall(TurnMessages(t'.value), rest[i].action.call, rest[i].action.name)
    {
      assert todo[i + 1] == rest[i];
      NamedLater(TurnMessages(t.value), TurnMessages(t'.value), rest[i].action.call, rest[i].action.name);
    }
  }

  lemma CommitNamed(s: R.State)
    requires R.RepairInv(s) && NamesInv(s.turns) && R.Enabled(s, R.Act(CommitNext))
    ensures NamesInv(R.Next(s, R.Act(CommitNext)).turns)
  {
    WriteIsReady(s);
    CommitKeepsNames(s.turns);
  }

  lemma CommitKeepsNames(s: System)
    requires NamesInv(s) && Enabled(s, CommitNext) && WriteReady(s.db.rows, s.job.turn, s.job.todo[0])
    ensures NamesInv(Next(s, CommitNext))
  {
    var c, w, todo := Core(s.db, s.action, s.job.turn), s.job.todo[0], s.job.todo;
    var c' := Commit(w, c);
    CommitRowsNamed(c, w);
    CommitTurn(c, w);
    WritesStayNamed(c.turn, c'.turn, todo, todo[1..]);
    assert WritesNamed(c.turn, [w]);
    CommitActionsNamed(c, w);
  }

  lemma CommitActionsNamed(c: Core, w: Write)
    requires WriteReady(c.db.rows, c.turn, w) && WritesNamed(c.turn, [w]) && CallsKept(c.db.rows, Commit(w, c).db.rows)
    requires (c.db.action.Some? ==> ActionNamed(c.db.rows, c.db.action.value)) && (c.action.Some? ==> ActionNamed(c.db.rows, c.action.value))
    ensures var c' := Commit(w, c);
            && (c'.db.action.Some? ==> ActionNamed(c'.db.rows, c'.db.action.value))
            && (c'.action.Some? ==> ActionNamed(c'.db.rows, c'.action.value))
  {
    var c' := Commit(w, c);
    if c'.db.action.Some? {
      CommitActionNamed(c, w, c'.db.action.value);
    }
    if c'.action.Some? {
      CommitActionNamed(c, w, c'.action.value);
    }
  }

  // ---------------------------------------------------------------- the other steps

  lemma NothingSet(t: Option<Turn>, todo: seq<Write>)
    requires forall i :: 0 <= i < |todo| ==> !todo[i].SetAction?
    ensures WritesNamed(t, todo)
  {
  }

  lemma NoRowNoCalls(rows: seq<Row>, t: Turn)
    requires !HasRow(rows, t.row)
    ensures TurnCalls(rows, t)
  {
    assert forall i :: 0 <= i < |rows| ==> rows[i].id != t.row;
  }

  lemma JobStarts(s: System, turn: Option<Turn>, todo: seq<Write>, resume: bool)
    requires NamesInv(s) && s.Up? && JobNamed(s.db.rows, turn, todo)
    ensures NamesInv(s.(job := Settle(turn, todo, resume))) && NamesInv(s.(job := Busy(turn, todo, resume)))
  {
  }

  /** A turn that begins with the messages of a row. */
  lemma TurnOfRow(rows: seq<Row>, i: nat, t: Turn)
    requires RowsOk(rows) && i < |rows| && t.row == rows[i].id && t.prior == History(rows[i])
    ensures TurnCalls(rows, t)
  {
    PriorFirst(t);
    forall j | 0 <= j < |rows| && rows[j].id == t.row ensures CallsPrefix(History(rows[j]), TurnMessages(t)) {
      SameIdSameRow(rows, i, j);
    }
  }

  lemma MessageNamed(s: System, e: Event)
    requires NamesInv(s) && Enabled(s, e) && (e.Message? || e.Abandon? || e.HostMessage?)
    ensures NamesInv(Next(s, e))
  {
    var next := Next(s, e);
    if next.job.Busy? {
      NothingSet(next.job.turn, next.job.todo);
      if next.job.turn.Some? {
        NoRowNoCalls(s.db.rows, next.job.turn.value);
      }
    }
  }

  lemma SteerNamed(s: System, reply: MessageId)
    requires NamesInv(s) && RowsOk(s.db.rows) && Enabled(s, Steer(reply))
    ensures NamesInv(Next(s, Steer(reply)))
  {
    var leaf := s.db.rows[|s.db.rows| - 1];
    SteerState(s, reply);
    SteerJobNamed(s.db.rows, leaf, reply);
    JobStarts(s, Some(SteerTurn(leaf, reply)), [], true);
  }

  /** The turn that goes on from a leaf. */
  function SteerTurn(leaf: Row, reply: MessageId): Turn {
    if leaf.role == Assistant then NewTurn(leaf.id, None, History(leaf)) else NewTurn(reply, Some(leaf.id), [])
  }

  lemma SteerState(s: System, reply: MessageId)
    requires Enabled(s, Steer(reply))
    ensures Next(s, Steer(reply)) == s.(job := Busy(Some(SteerTurn(s.db.rows[|s.db.rows| - 1], reply)), [], true))
  {
  }

  lemma SteerJobNamed(rows: seq<Row>, leaf: Row, reply: MessageId)
    requires RowsOk(rows) && rows != [] && leaf == rows[|rows| - 1] && !HasRow(rows, reply)
    ensures JobNamed(rows, Some(SteerTurn(leaf, reply)), [])
  {
    if leaf.role == Assistant {
      TurnOfRow(rows, |rows| - 1, SteerTurn(leaf, reply));
    } else {
      NoRowNoCalls(rows, SteerTurn(leaf, reply));
    }
  }

  lemma ContinueTurnNamed(rows: seq<Row>, a: Action, output: string, outcome: Outcome)
    requires RowsOk(rows) && ActionNamed(rows, a) && RowOf(rows, a.row).Some?
    ensures var t := ContinueTurn(rows, a, output, outcome);
            TurnCalls(rows, t) && AcceptedNamed(t) && t.prior == History(RowOf(rows, a.row).value)
  {
    var i :| 0 <= i < |rows| && rows[i].id == a.row && NamedCall(History(rows[i]), a.call, a.name);
    RowAtIndex(rows, i);
    TurnOfRow(rows, i, ContinueTurn(rows, a, output, outcome));
  }

  /** The next call of the batch is a call of the turn. */
  lemma NextWriteNamed(rows: seq<Row>, a: Action, t: Turn)
    requires RowsOk(rows) && RowOf(rows, a.row).Some? && RowOf(rows, a.row).value.role == Assistant && Remaining(rows, a) != []
    requires t.row == a.row && t.prior == History(RowOf(rows, a.row).value)
    ensures NamedCall(TurnMessages(t), NextAction(rows, a).call, NextAction(rows, a).name) && NextAction(rows, a).row == t.row
  {
    var row := RowOf(rows, a.row).value;
    var i :| 0 <= i < |rows| && rows[i] == row;
    UnansweredKnown(a.batch, a.call, ToolsOf(row.segments));
    EntryIsNamed(rows[i], Remaining(rows, a)[0]);
    PriorFirst(t);
    NamedLater(t.prior, TurnMessages(t), NextAction(rows, a).call, NextAction(rows, a).name);
  }

  lemma ContinueNamed(s: System, e: Event)
    requires NamesInv(s) && RowsOk(s.db.rows) && Enabled(s, e) && e.Continue?
    requires RowOf(s.db.rows, s.action.value.row).value.role == Assistant
    ensures NamesInv(Next(s, e))
  {
    var a := s.action.value;
    var t, remaining := ContinueTurn(s.db.rows, a, e.output, e.outcome), Remaining(s.db.rows, a);
    ContinueTurnNamed(s.db.rows, a, e.output, e.outcome);
    var todo := SaveAndClear + (if remaining == [] then [] else [SetAction(NextAction(s.db.rows, a))]);
    ContinueWritesNamed(s.db.rows, a, t);
    JobStarts(s, Some(t), todo, remaining == [] && !a.hostTools);
  }

  lemma ContinueWritesNamed(rows: seq<Row>, a: Action, t: Turn)
    requires RowsOk(rows) && RowOf(rows, a.row).Some? && RowOf(rows, a.row).value.role == Assistant
    requires t.row == a.row && t.prior == History(RowOf(rows, a.row).value)
    ensures WritesNamed(Some(t), SaveAndClear + (if Remaining(rows, a) == [] then [] else [SetAction(NextAction(rows, a))]))
  {
    if Remaining(rows, a) != [] {
      NextWriteNamed(rows, a, t);
      SavesAndSets(t, NextAction(rows, a));
    } else {
      NothingSet(Some(t), SaveAndClear + []);
    }
  }

  lemma SavesAndSets(t: Turn, a: Action)
    requires a.row == t.row && NamedCall(TurnMessages(t), a.call, a.name)
    ensures WritesNamed(Some(t), SaveAndClear + [SetAction(a)])
  {
  }

  lemma CaptureCalls(t: Turn, new_: seq<Message>)
    requires AcceptedNamed(t)
    ensures CallsPrefix(TurnMessages(t), TurnMessages(Capture(t, new_))) && AcceptedNamed(Capture(t, new_))
  {
    var accepted := if t.accepted.Some? then [t.accepted.value] else [];
    var kept := if Capture(t, new_).accepted.Some? then [t.accepted.value] else [];
    assert ReplyParts(accepted) == [] && ReplyParts(kept) == [];
    CallsAppend(t.prior, accepted);
    CallsAppend(t.prior, kept);
    CallsAppend(t.prior + accepted, t.later);
    CallsAppend(t.prior + kept, t.later + new_);
    CallsAppend(t.later, new_);
    assert CallsOf(t.prior) + [] == CallsOf(t.prior);
  }

  lemma TurnCallsGrow(rows: seq<Row>, t: Turn, t': Turn)
    requires TurnCalls(rows, t) && t'.row == t.row && CallsPrefix(TurnMessages(t), TurnMessages(t'))
    ensures TurnCalls(rows, t')
  {
    forall i | 0 <= i < |rows| && rows[i].id == t'.row ensures CallsPrefix(History(rows[i]), TurnMessages(t')) {
      assert CallsPrefix(History(rows[i]), TurnMessages(t));
    }
  }

  lemma RunEndsNamed(s: System, new_: seq<Message>, ending: Ending)
    requires NamesInv(s) && Enabled(s, RunEnds(new_, ending))
    ensures NamesInv(Next(s, RunEnds(new_, ending)))
  {
    var t, t' := s.job.turn.value, Capture(s.job.turn.value, new_);
    CaptureCalls(t, new_);
    TurnCallsGrow(s.db.rows, t, t');
    WritesAfterNamed(t', ending);
    JobStarts(s, Some(t'), WritesAfter(t', ending), Resumes(ending));
  }

  lemma WritesAfterNamed(t: Turn, ending: Ending)
    requires ending.Deferred? && ending.batch != [] ==> NamedCall(TurnMessages(t), ending.batch[0], ending.name)
    ensures WritesNamed(Some(t), WritesAfter(t, ending))
  {
    if ending.Deferred? && ending.batch != [] {
      var a := Action(ending.batch[0], ending.name, t.row, ending.batch, t.hostTools);
      SavesAndSets(t, a);
      assert CloseAndClear == [Snapshot(true), ClearAction];
      MoreWrites(Some(t), SaveAndClear + [SetAction(a)], if ending.cancelledAfter then CloseAndClear else []);
    }
  }

  lemma MoreWrites(t: Option<Turn>, todo: seq<Write>, more: seq<Write>)
    requires WritesNamed(t, todo) && forall i :: 0 <= i < |more| ==> !more[i].SetAction?
    ensures WritesNamed(t, todo + more)
  {
  }

  lemma LoadNamed(s: System, e: Event)
    requires NamesInv(s) && RowsOk(s.db.rows) && Enabled(s, e) && (e.Reload? || e.InterruptedLoad?)
    ensures NamesInv(Next(s, e))
  {
    var rows := LoadRows(s.db).rows;
    RepairKeepsCalls(s.db.rows, Keep(Restore(s.db)));
    SameIsKept(s.db.rows, rows, None);
    if s.db.action.Some? {
      ActionStaysNamed(s.db.rows, rows, s.db.action.value);
      if Restore(s.db).Some? {
        SameCallNamed(rows, s.db.action.value, Restore(s.db).value);
      }
    }
  }

  lemma SameCallNamed(rows: seq<Row>, a: Action, b: Action)
    requires ActionNamed(rows, a) && b.row == a.row && b.call == a.call && b.name == a.name
    ensures ActionNamed(rows, b)
  {
  }

  lemma RepairNamed(s: R.State)
    requires NamesInv(s.turns) && RowsOk(s.turns.db.rows)
    ensures NamesInv(R.Repaired(s.turns))
  {
    var rows, t := s.turns.db.rows, s.turns;
    RepairKeepsCalls(rows, {});
    SameIsKept(rows, RepairRows(rows, {}), if t.Up? && t.job.Busy? then t.job.turn else None);
    if t.db.action.Some? {
      ActionStaysNamed(rows, RepairRows(rows, {}), t.db.action.value);
    }
    if t.Up? && t.action.Some? {
      ActionStaysNamed(rows, RepairRows(rows, {}), t.action.value);
    }
  }

  lemma PendingIsReply(s: R.State)
    requires R.RepairInv(s) && s.turns.Up? && s.turns.job.Idle? && s.turns.action.Some?
    ensures RowOf(s.turns.db.rows, s.turns.action.value.row).Some? && RowOf(s.turns.db.rows, s.turns.action.value.row).value.role == Assistant
  {
    RowOfLast(s.turns.db.rows, s.turns.action.value.row);
  }

  lemma ActNamed(s: R.State, e: Event)
    requires R.RepairInv(s) && NamesInv(s.turns) && R.Enabled(s, R.Act(e))
    ensures NamesInv(R.Next(s, R.Act(e)).turns)
  {
    SafeRows(s);
    if e.Message? || e.Abandon? || e.HostMessage? {
      MessageNamed(s.turns, e);
    } else if e.Continue? {
      PendingIsReply(s);
      ContinueNamed(s.turns, e);
    } else if e.Steer? {
      SteerNamed(s.turns, e.reply);
    } else if e.RunEnds? {
      RunEndsNamed(s.turns, e.new_, e.ending);
    } else if e.CommitNext? {
      CommitNamed(s);
    } else if e.Reload? || e.InterruptedLoad? {
      LoadNamed(s.turns, e);
    }
  }

  lemma SafeRows(s: R.State)
    requires R.RepairInv(s)
    ensures RowsOk(s.turns.db.rows)
  {
  }

  lemma NamesStep(s: R.State, e: R.Event)
    requires R.RepairInv(s) && NamesInv(s.turns) && R.Enabled(s, e)
    ensures NamesInv(R.Next(s, e).turns)
  {
    SafeRows(s);
    match e
    case Act(event) => ActNamed(s, event);
    case BeginRepair =>
    case FinishRepair => RepairNamed(s);
    case CutPlan =>
  }

  // ---------------------------------------------------------------- over runs

  /** The names are right after every run in which no repair does harm. */
  lemma {:induction false} NamesAreRight(s: R.State, events: seq<R.Event>, s': R.State)
    requires R.RepairInv(s) && NamesInv(s.turns) && R.Runs(s, events, s') && R.Careful(s, events)
    ensures NamesInv(s'.turns)
    decreases |events|
  {
    if events != [] {
      NamesStep(s, events[0]);
      RepairStepIsSafe(s, events[0]);
      NamesAreRight(R.Next(s, events[0]), events[1..], s');
    }
  }

  /** A session without a stored action begins so. */
  lemma NamesBegin(rows: seq<Row>)
    ensures NamesInv(Down(Db(rows, None)))
  {
  }

  /** In every such state: the pending call, in memory or on the row, is a call of its row
      under the very name it is pending by. */
  lemma PendingIsNamed(s: R.State, events: seq<R.Event>, s': R.State)
    requires R.RepairInv(s) && NamesInv(s.turns) && R.Runs(s, events, s') && R.Careful(s, events)
    ensures s'.turns.db.action.Some? ==>
              var a := s'.turns.db.action.value;
              exists i :: 0 <= i < |s'.turns.db.rows| && s'.turns.db.rows[i].id == a.row && NamedCall(History(s'.turns.db.rows[i]), a.call, a.name)
    ensures s'.turns.Up? && s'.turns.action.Some? ==>
              var a := s'.turns.action.value;
              exists i :: 0 <= i < |s'.turns.db.rows| && s'.turns.db.rows[i].id == a.row && NamedCall(History(s'.turns.db.rows[i]), a.call, a.name)
  {
    NamesAreRight(s, events, s');
  }

  /** And an accepted result, while it is what the turn stores for it, is a return of that
      call under its own name. */
  lemma AcceptedIsNamed(s: R.State, events: seq<R.Event>, s': R.State)
    requires R.RepairInv(s) && NamesInv(s.turns) && R.Runs(s, events, s') && R.Careful(s, events)
    requires s'.turns.Up? && s'.turns.job.Busy? && s'.turns.job.turn.Some? && s'.turns.job.turn.value.accepted.Some?
    ensures var t := s'.turns.job.turn.value;
            && t.accepted.value.Request? && |t.accepted.value.parts| == 1 && t.accepted.value.parts[0].ReturnPart?
            && NamedCall(t.prior, t.accepted.value.parts[0].id, t.accepted.value.parts[0].name)
            && t.accepted.value.parts[0] in RequestParts(TurnMessages(t))
  {
    NamesAreRight(s, events, s');
    var t := s'.turns.job.turn.value;
    RequestPartsAppend(t.prior, [t.accepted.value]);
    RequestPartsAppend(t.prior + [t.accepted.value], t.later);
    assert RequestParts([t.accepted.value]) == [] + t.accepted.value.parts;
    assert t.accepted.value.parts[0] in t.accepted.value.parts;
  }

  // ---------------------------------------------------------------- the returns the runtime adds

  /** Every return among the parts names the call it is for. */
  ghost predicate ReturnsNamed(parts: seq<RequestPart>, calls: seq<ResponsePart>) {
    forall p :: p in parts && p.ReturnPart? ==> exists c :: c in calls && c.CallPart? && c.id == p.id && c.name == p.name
  }

  lemma {:induction false} InterruptedNamed(calls: seq<ResponsePart>, returned: set<CallId>)
    ensures ReturnsNamed(InterruptedParts(calls, returned), calls)
  {
    if calls != [] {
      var front, last := calls[..|calls| - 1], calls[|calls| - 1];
      InterruptedNamed(front, returned);
      assert calls == front + [last] && last in calls;
      assert forall c :: c in front ==> c in calls;
    }
  }

  lemma {:induction false} ResolvedNamed(calls: seq<ResponsePart>, tools: seq<Tool>, answered: set<CallId>)
    ensures ReturnsNamed(ResolvedParts(calls, tools, answered), calls)
  {
    if calls != [] {
      var front, last := calls[..|calls| - 1], calls[|calls| - 1];
      ResolvedNamed(front, tools, answered);
      assert calls == front + [last] && last in calls;
      assert forall c :: c in front ==> c in calls;
    }
  }

  lemma {:induction false} ReplayedNamed(tools: seq<Tool>)
    ensures ReturnsNamed(ReturnParts(tools), CallParts(tools))
  {
    if tools != [] {
      var front, last := tools[..|tools| - 1], tools[|tools| - 1];
      ReplayedNamed(front);
      var c := CallPart(last.id, last.name, last.input);
      assert CallParts(tools) == CallParts(front) + [c];
      assert c in CallParts(tools);
      assert forall d :: d in CallParts(front) ==> d in CallParts(tools);
    }
  }
}
