/** One session's turns against its durable rows, one durable write at a time.

    The process holds the session's pending host action and at most one running job (a
    turn, a host message or a call-off); the rows and the stored action are durable. A
    job is the list of writes it still has to make; the process may crash between any
    two of them, and a reload rebuilds the session from what was written. The agent run
    is a step that returns new messages and how it ended, any it likes within the
    contract of `RunContract`. */
module HostActions {
  import opened Basics
  import opened Transcript
  import opened RowMessages
  import opened RoundTrip
  import opened CallResults
  import opened ResolvedReturns
  import opened SessionRows

  /** The host call a session waits on, and every host call of the same response, in order. */
  datatype Action = Action(call: CallId, name: string, row: MessageId, batch: seq<CallId>, hostTools: bool)

  datatype Db = Db(rows: seq<Row>, action: Option<Action>)

  /** What a running turn holds: the messages already on its row, the accepted host result
      (saved before the run, until the run's own messages include it), and what followed. */
  datatype Turn = Turn(
    row: MessageId,
    parent: Option<MessageId>,
    prior: seq<Message>,
    accepted: Option<Message>,
    later: seq<Message>,
    answers: Option<CallId>,
    status: string,
    hostTools: bool)

  datatype Write =
    | Supersede(row: MessageId, ids: set<CallId>, status: string)
    | ClearAction
    | Create(message: Row)
    | SaveState
    | Snapshot(close: bool)
    | SetAction(action: Action)

  datatype Job = Idle | Busy(turn: Option<Turn>, todo: seq<Write>, resume: bool)

  /** A cached session (`Up`), or one that is only in its rows (`Down`). */
  datatype System = Down(db: Db) | Up(db: Db, action: Option<Action>, job: Job)

  // ---------------------------------------------------------------- loading

  /** The stored action still fits the messages: its call is there and unanswered. */
  predicate Restorable(rows: seq<Row>, a: Action) {
    && RowOf(rows, a.row).Some?
    && Find(ToolsOf(RowOf(rows, a.row).value.segments), a.call).Some?
    && Find(ToolsOf(RowOf(rows, a.row).value.segments), a.call).value.answer.None?
  }

  function KnownIds(batch: seq<CallId>, tools: seq<Tool>): seq<CallId> {
    if batch == [] then []
    else
      var id := batch[|batch| - 1];
      KnownIds(batch[..|batch| - 1], tools) + (if Find(tools, id).Some? then [id] else [])
  }

  /** `_restore_pending_action`. */
  function Restore(db: Db): Option<Action> {
    if db.action.Some? && Restorable(db.rows, db.action.value) then
      var a := db.action.value;
      var batch := KnownIds(a.batch, ToolsOf(RowOf(db.rows, a.row).value.segments));
      Some(a.(batch := if a.call in batch then batch else [a.call]))
    else None
  }

  function Keep(a: Option<Action>): set<CallId> {
    if a.None? then {} else set id | id in a.value.batch
  }

  /** The first write of a load: every unanswered call outside the restored batch is marked unknown. */
  function LoadRows(db: Db): Db {
    db.(rows := RepairRows(db.rows, Keep(Restore(db))))
  }

  /** The whole load (`_load_session`): the repair, then a stored action that no longer
      fits is dropped from the row too. */
  function Load(db: Db): System {
    var rows := LoadRows(db).rows;
    var a := Restore(db);
    Up(Db(rows, if a.None? then None else db.action), a, Idle)
  }

  // ---------------------------------------------------------------- the writes of a turn

  /** A silent host decision stores its calls only. */
  function StripContent(messages: seq<Message>): (r: seq<Message>) {
    if messages == [] then []
    else
      var m := messages[|messages| - 1];
      StripContent(messages[..|messages| - 1]) +
      [if m.Response? then Response(Filter(IsCall, m.reply)) else m]
  }

  function TurnMessages(t: Turn): seq<Message> {
    t.prior + (if t.accepted.Some? then [t.accepted.value] else []) + t.later
  }

  function StoredMessages(t: Turn): seq<Message> {
    if t.hostTools then StripContent(TurnMessages(t)) else TurnMessages(t)
  }

  /** `mark_unanswered_calls` on the turn, whose open calls are then recorded as cancelled. */
  function CloseTurn(t: Turn): Turn {
    t.(later := t.later + (if InterruptedParts(ReplyParts(TurnMessages(t)), Results(TurnMessages(t)).Keys) == [] then []
                           else [Request(InterruptedParts(ReplyParts(TurnMessages(t)), Results(TurnMessages(t)).Keys), [])]),
       status := "cancelled")
  }

  /** `persist_snapshot`: the turn's row created, or extended with everything run so far. */
  function WriteSnapshot(rows: seq<Row>, t: Turn): seq<Row> {
    var messages := StoredMessages(t);
    var segments := Build(messages, t.status);
    var stored := RowOf(rows, t.row);
    if stored.Some? then
      Replace(rows, stored.value.(content := TextOf(segments), segments := segments, messages := Some(messages)))
    else
      rows + [Row(t.row, t.parent, Assistant, TextOf(segments), segments, Some(messages),
                  if rows == [] then 0 else rows[|rows| - 1].createdAt + 1)]
  }

  /** `_mark_superseded`: the abandoned calls resolved on their row, when they are on it. */
  function WriteSupersede(rows: seq<Row>, id: MessageId, ids: set<CallId>, status: string): seq<Row> {
    var stored := RowOf(rows, id);
    if stored.Some? && AnyId(ToolsOf(stored.value.segments), ids) then
      Replace(rows, ResolveRow(stored.value, Only(ids), AbandonedAnswer(status)))
    else rows
  }

  datatype Core = Core(db: Db, action: Option<Action>, turn: Option<Turn>)

  /** One durable write, with the memory changes that go with it. */
  function Commit(w: Write, c: Core): Core {
    match w
    case Supersede(row, ids, status) => c.(db := c.db.(rows := WriteSupersede(c.db.rows, row, ids, status)))
    case ClearAction =>
      if c.action.None? then c else c.(db := c.db.(action := None), action := None)
    case Create(message) => c.(db := c.db.(rows := c.db.rows + [message]))
    case SaveState => c.(db := c.db.(action := c.action))
    case Snapshot(close) =>
      if c.turn.None? then c
      else
        var t := if close then CloseTurn(c.turn.value) else c.turn.value;
        c.(db := c.db.(rows := WriteSnapshot(c.db.rows, t)), turn := Some(t))
    case SetAction(a) => c.(db := c.db.(action := Some(a)), action := Some(a))
  }

  // ---------------------------------------------------------------- events

  /** How an agent run ended: with deferred host calls; with an answer (and perhaps more
      steering to deliver); with an output the runner refuses; cancelled, timed out or
      over its usage limit; or with an error. A cancellation that arrives after the output
      was saved is noticed before the final response. */
  datatype Ending =
    | Deferred(batch: seq<CallId>, name: string, cancelledAfter: bool)
    | Replied(more: bool, cancelledAfter: bool)
    | Rejected
    | Stopped
    | Errored

  /** A session is evicted when it is idle, or under a host message whose row is written:
      such a write takes no pin. */
  datatype Event =
    | Crash
    | Evict
    | InterruptedLoad
    | Reload
    | Message(user: Row, reply: MessageId, hostTools: bool)
    | Continue(call: CallId, output: string, outcome: Outcome)
    | Steer(reply: MessageId)
    | Abandon(status: string)
    | HostMessage(host: Row)
    | CommitNext
    | RunEnds(new_: seq<Message>, ending: Ending)

  function AbandonWrites(a: Option<Action>, status: string): seq<Write> {
    if a.None? then []
    else [Supersede(a.value.row, BatchIds(a.value), status), ClearAction]
  }

  function BatchIds(a: Action): set<CallId> { (set id | id in a.batch) + {a.call} }

  /** The rest of the batch, still waiting behind the pending call. */
  function Remaining(rows: seq<Row>, a: Action): seq<CallId> {
    if RowOf(rows, a.row).None? then []
    else Unanswered(a.batch, a.call, ToolsOf(RowOf(rows, a.row).value.segments))
  }

  function Unanswered(batch: seq<CallId>, call: CallId, tools: seq<Tool>): seq<CallId> {
    if batch == [] then []
    else
      var id := batch[|batch| - 1];
      Unanswered(batch[..|batch| - 1], call, tools) +
      (if id != call && Find(tools, id).Some? && Find(tools, id).value.answer.None? then [id] else [])
  }

  function NextAction(rows: seq<Row>, a: Action): Action
    requires Remaining(rows, a) != []
  {
    var id := Remaining(rows, a)[0];
    var entry := Find(ToolsOf(RowOf(rows, a.row).value.segments), id);
    a.(call := id, name := if entry.Some? then entry.value.name else "")
  }

  function NewTurn(row: MessageId, parent: Option<MessageId>, prior: seq<Message>): Turn {
    Turn(row, parent, prior, None, [], None, "superseded", false)
  }

  /** The turn an accepted continuation runs: the row's messages, then the host's result. */
  function ContinueTurn(rows: seq<Row>, a: Action, output: string, outcome: Outcome): Turn
    requires RowOf(rows, a.row).Some?
  {
    NewTurn(a.row, None, History(RowOf(rows, a.row).value))
      .(accepted := Some(Request([ReturnPart(a.call, a.name, output, outcome)], [])),
        answers := Some(a.call), hostTools := a.hostTools)
  }

  predicate ReturnsCall(messages: seq<Message>, id: CallId) {
    exists p :: p in RequestParts(messages) && p.ReturnPart? && p.id == id
  }

  /** `capture_result`: the run's messages join the turn; when they include the accepted
      result, the copy saved before the run gives way to it. */
  function Capture(t: Turn, new_: seq<Message>): Turn {
    var dropped := t.answers.Some? && ReturnsCall(new_, t.answers.value);
    t.(accepted := if dropped then None else t.accepted, later := t.later + new_)
  }

  const SaveAndClear: seq<Write> := [Snapshot(false), ClearAction]
  const CloseAndClear: seq<Write> := [Snapshot(true), ClearAction]

  /** The writes that follow a run, by how it ended. */
  function WritesAfter(t: Turn, ending: Ending): seq<Write> {
    match ending
    case Deferred(batch, name, cancelledAfter) =>
      if batch == [] then SaveAndClear + CloseAndClear
      else SaveAndClear + [SetAction(Action(batch[0], name, t.row, batch, t.hostTools))]
           + (if cancelledAfter then CloseAndClear else [])
    case Replied(_, cancelledAfter) => SaveAndClear + (if cancelledAfter then CloseAndClear else [])
    case Rejected => SaveAndClear + CloseAndClear
    case Stopped => CloseAndClear
    case Errored => if TurnMessages(t) == [] then [] else CloseAndClear
  }

  function Resumes(ending: Ending): bool {
    ending.Replied? && ending.more && !ending.cancelledAfter
  }

  /** A job with nothing left to do is over. */
  function Settle(turn: Option<Turn>, todo: seq<Write>, resume: bool): Job {
    if todo == [] && !resume then Idle else Busy(turn, todo, resume)
  }

  // ---------------------------------------------------------------- the run's contract

  /** What is assumed of a run's new messages: call ids are distinct; a result is given at
      most once, only to a call that has none, except that the accepted result may be
      repeated as it was accepted; a run retries only calls of its own, and only while they
      have no result. */
  ghost predicate RunContract(t: Turn, new_: seq<Message>) {
    var before, after := TurnMessages(t), TurnMessages(Capture(t, new_));
    && Distinct(CallIds(before + new_))
    && Extends(Results(before), Results(after))
    && (forall id :: id in Retried(new_) ==> id !in Results(before + new_) && id !in CallIds(before))
    && (t.answers.Some? ==>
          CountReturns(RequestParts(new_), t.answers.value) <= (if t.accepted.Some? then 1 else 0))
  }

  function CountReturns(parts: seq<RequestPart>, id: CallId): nat {
    if parts == [] then 0
    else
      var p := parts[|parts| - 1];
      CountReturns(parts[..|parts| - 1], id) + (if p.ReturnPart? && p.id == id then 1 else 0)
  }

  /** The messages hold a call with this id, and it is a call of this tool. */
  ghost predicate NamedCall(messages: seq<Message>, id: CallId, name: string) {
    exists c :: c in ReplyParts(messages) && c.CallPart? && c.id == id && c.name == name
  }

  predicate AllOrNone(ids: seq<CallId>, among: seq<CallId>) {
    (forall id :: id in ids ==> id in among) || (forall id :: id in ids ==> id !in among)
  }

  /** A run that ends with an output has dealt with every call: those it deferred are the
      open ones, in call order, and it names the tool of the first; calls still open from
      before are all among them, or none is. */
  ghost predicate EndingContract(t: Turn, new_: seq<Message>, ending: Ending) {
    var after := TurnMessages(Capture(t, new_));
    match ending
    case Deferred(batch, name, _) =>
      && batch == OpenIds(after) && AllOrNone(OpenIds(t.prior), batch) && (t.hostTools ==> |batch| == 1)
      && (batch != [] ==> NamedCall(after, batch[0], name))
    case Replied(more, _) => OpenIds(after) == [] && (t.hostTools ==> !more)
    case Rejected => AllOrNone(OpenIds(t.prior), OpenIds(after))
    case _ => true
  }

  // ---------------------------------------------------------------- steps

  function ParentOf(rows: seq<Row>, user: Row): Option<MessageId> {
    if user.parent.Some? then user.parent
    else if rows == [] then None
    else Some(rows[|rows| - 1].id)
  }

  /** A host message continues from the active leaf. */
  function AtLeaf(rows: seq<Row>, host: Row): Row { host.(parent := ParentOf(rows, host.(parent := None))) }

  ghost predicate Enabled(s: System, e: Event) {
    match e
    case Crash => true
    case Evict => s.Up? && (s.job.Idle? || (s.job.turn.None? && s.job.todo == [SaveState]))
    case InterruptedLoad => s.Down?
    case Reload => s.Down?
    case Message(user, reply, hostTools) =>
      && s.Up? && s.job.Idle? && user.role == Role.User
      && !HasRow(s.db.rows, user.id) && !HasRow(s.db.rows, reply) && user.id != reply
      && (user.parent.Some? ==> HasRow(s.db.rows, user.parent.value))
      && (s.db.rows != [] ==> user.createdAt > s.db.rows[|s.db.rows| - 1].createdAt)
    case Continue(call, _, outcome) =>
      && s.Up? && s.job.Idle? && s.action.Some? && s.action.value.call == call
      && RowOf(s.db.rows, s.action.value.row).Some?
      && !AlreadyRecorded(s.db.rows, s.action.value)
      && (outcome == Success || outcome == Failed)
    case Steer(reply) => s.Up? && s.job.Idle? && s.db.rows != [] && !HasRow(s.db.rows, reply)
    case Abandon(_) => s.Up? && s.job.Idle? && s.action.Some?
    case HostMessage(host) =>
      && s.Up? && s.job.Idle? && s.action.None? && host.role == Role.Host && !HasRow(s.db.rows, host.id)
      && (s.db.rows != [] ==> host.createdAt > s.db.rows[|s.db.rows| - 1].createdAt)
    case CommitNext => s.Up? && s.job.Busy? && s.job.todo != []
    case RunEnds(new_, ending) =>
      && s.Up? && s.job.Busy? && s.job.todo == [] && s.job.resume && s.job.turn.Some?
      && RunContract(s.job.turn.value, new_) && EndingContract(s.job.turn.value, new_, ending)
  }

  function FirstEntry(rows: seq<Row>, call: CallId): Option<Tool> {
    if rows == [] then None
    else if Find(Tools(rows[0]), call).Some? then Find(Tools(rows[0]), call)
    else FirstEntry(rows[1..], call)
  }

  /** The entry of the pending call, looked up on the pending row, then the leaf, then
      anywhere, already has an output. */
  predicate AlreadyRecorded(rows: seq<Row>, a: Action)
    requires RowOf(rows, a.row).Some?
  {
    var entry := FirstEntry([RowOf(rows, a.row).value, rows[|rows| - 1]] + rows, a.call);
    entry.Some? && entry.value.answer.Some?
  }

  ghost function Next(s: System, e: Event): System
    requires Enabled(s, e)
  {
    match e
    case Crash => Down(s.db)
    case Evict => Down(s.db)
    case InterruptedLoad => Down(LoadRows(s.db))
    case Reload => Load(s.db)
    case Message(user, reply, hostTools) =>
      var row := user.(parent := ParentOf(s.db.rows, user));
      s.(job := Busy(Some(NewTurn(reply, Some(row.id), []).(hostTools := hostTools)),
                     AbandonWrites(s.action, "superseded") + [Create(row), SaveState], true))
    case Continue(call, output, outcome) =>
      var a := s.action.value;
      var remaining := Remaining(s.db.rows, a);
      s.(job := Settle(Some(ContinueTurn(s.db.rows, a, output, outcome)),
                       SaveAndClear + (if remaining == [] then [] else [SetAction(NextAction(s.db.rows, a))]),
                       remaining == [] && !a.hostTools))
    case Steer(reply) =>
      var leaf := s.db.rows[|s.db.rows| - 1];
      s.(job := Busy(Some(if leaf.role == Assistant then NewTurn(leaf.id, None, History(leaf))
                          else NewTurn(reply, Some(leaf.id), [])), [], true))
    case Abandon(status) => s.(job := Settle(None, AbandonWrites(s.action, status), false))
    case HostMessage(host) => s.(job := Settle(None, [Create(AtLeaf(s.db.rows, host)), SaveState], false))
    case CommitNext =>
      var c := Commit(s.job.todo[0], Core(s.db, s.action, s.job.turn));
      Up(c.db, c.action, Settle(c.turn, s.job.todo[1..], s.job.resume))
    case RunEnds(new_, ending) =>
      var t := Capture(s.job.turn.value, new_);
      s.(job := Settle(Some(t), WritesAfter(t, ending), Resumes(ending)))
  }

  ghost predicate Runs(s: System, events: seq<Event>, s': System)
    decreases |events|
  {
    if events == [] then s' == s
    else Enabled(s, events[0]) && Runs(Next(s, events[0]), events[1..], s')
  }
}
