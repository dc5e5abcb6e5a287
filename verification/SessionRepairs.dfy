/** A session's turns with repairs that may fall between any two of their writes, and with
    plans that are cancelled at one of theirs.

    The repair route excludes voice calls and new admissions, but not a turn that is
    already running. It clears the pending action, which is one durable write, and then
    marks every unanswered call of every row as unknown, which is another.

    The plan of a message turn may be cancelled while it awaits a write. Here the write is
    then not made at all, or made with everything that goes with it; `PlanCuts` has the
    cases in between. */
module SessionRepairs {
  import opened Basics
  import opened Transcript
  import opened RowMessages
  import opened RoundTrip
  import opened CallResults
  import opened ResolvedReturns
  import opened SessionRows
  import opened HostActions
  import opened HostActionInvariant

  /** `repairing` holds between the two writes of a repair. */
  datatype State = State(turns: System, repairing: bool)

  datatype Event = Act(event: HostActions.Event) | BeginRepair | FinishRepair | CutPlan

  /** The first write of a repair; without a pending action there is none. */
  function Cleared(s: System): System {
    if s.Up? && s.action.Some? then s.(db := s.db.(action := None), action := None) else s
  }

  /** The second write of a repair. */
  function Repaired(s: System): System { s.(db := s.db.(rows := RepairRows(s.db.rows, {}))) }

  /** What needs an admission, which a mutation in progress refuses. */
  predicate Admitted(e: HostActions.Event) { e.Message? || e.HostMessage? || e.Abandon? }

  /** The next write is one a plan awaits before it goes on with anything in memory. */
  predicate AtPlanWrite(todo: seq<Write>) {
    todo != [] && (todo[0].Supersede? || todo[0].Create? || todo[0].SaveState?)
  }

  /** A message turn that is still being planned. */
  predicate Planning(s: System) { s.Up? && s.job.Busy? && s.job.turn.Some? && s.job.resume && AtPlanWrite(s.job.todo) }

  ghost predicate Enabled(s: State, e: Event) {
    match e
    case Act(event) => HostActions.Enabled(s.turns, event) && (s.repairing ==> !Admitted(event))
    case BeginRepair => !s.repairing && s.turns.Up?
    case FinishRepair => s.repairing
    case CutPlan => Planning(s.turns)
  }

  ghost function Next(s: State, e: Event): State
    requires Enabled(s, e)
  {
    match e
    case Act(event) => State(HostActions.Next(s.turns, event), s.repairing && !event.Crash?)
    case BeginRepair => State(Cleared(s.turns), true)
    case FinishRepair => State(Repaired(s.turns), false)
    case CutPlan => State(s.turns.(job := Idle), s.repairing)
  }

  ghost predicate Runs(s: State, events: seq<Event>, s': State)
    decreases |events|
  {
    if events == [] then s' == s
    else Enabled(s, events[0]) && Runs(Next(s, events[0]), events[1..], s')
  }

  // ---------------------------------------------------------------- when a repair does harm

  /** The next write of a job that is about its turn's row or the pending action's. */
  function FirstWrite(todo: seq<Write>): Option<Write> {
    if todo == [] then None
    else if todo[0].ClearAction? then FirstWrite(todo[1..])
    else Some(todo[0])
  }

  function Unknown(): Result { Result(STALE_OUTPUT, Interrupted) }

  /** The turn itself holds the result for the call that a repair would record. */
  predicate AnsweredAsUnknown(m: seq<Message>, id: CallId) {
    id in Results(m) && Results(m)[id] == Unknown() && id !in Retried(m)
  }

  /** The repair would answer a call of the row, and the turn answers it otherwise or not at all. */
  ghost predicate Spoils(row: Row, t: Turn) {
    exists id :: id in OpenIds(History(row)) && !AnsweredAsUnknown(TurnMessages(t), id)
  }

  /** The second write of a repair does harm: a call is pending; or a turn is about to set
      calls pending that it has saved; or a turn that has still to write its row will not
      write what the repair records in it. */
  ghost predicate Harmful(s: State) {
    s.turns.Up? &&
    match s.turns.job
    case Idle => s.turns.action.Some?
    case Busy(turn, todo, resume) =>
      turn.Some? && HasRow(s.turns.db.rows, turn.value.row) &&
      (match FirstWrite(todo)
       case None => resume && Spoils(RowOf(s.turns.db.rows, turn.value.row).value, turn.value)
       case Some(w) =>
         w.SetAction? || (w.Snapshot? && Spoils(RowOf(s.turns.db.rows, turn.value.row).value, turn.value)))
  }

  /** No repair of the run does harm. */
  ghost predicate Careful(s: State, events: seq<Event>)
    decreases |events|
  {
    events != [] && Enabled(s, events[0]) ==>
      (events[0].FinishRepair? ==> !Harmful(s)) && Careful(Next(s, events[0]), events[1..])
  }

  // ---------------------------------------------------------------- the shape of a job

  function SetsAction(todo: seq<Write>): Option<Action> {
    if todo == [] then None
    else if todo[0].SetAction? then Some(todo[0].action)
    else SetsAction(todo[1..])
  }

  /** What follows a run or an accepted result: the row saved, the action cleared, perhaps
      another one set, and perhaps the turn closed. */
  predicate Closes(todo: seq<Write>) {
    if todo == [] then true
    else
      match todo[0]
      case ClearAction => Closes(todo[1..])
      case Snapshot(close) => |todo| > 1 && todo[1].ClearAction? && Closes(todo[1..]) && (close ==> SetsAction(todo[1..]).None?)
      case SetAction(_) => todo[1..] == [] || todo[1..] == CloseAndClear
      case _ => false
  }

  /** The turn's row is the leaf and holds what the turn holds. */
  predicate Synced(rows: seq<Row>, t: Turn) {
    rows != [] && Last(rows).id == t.row && Last(rows).role == Assistant && History(Last(rows)) == StoredMessages(t)
  }

  predicate ClosingShape(rows: seq<Row>, t: Turn, todo: seq<Write>) {
    && Closes(todo)
    && (SetsAction(todo).Some? ==> SetsAction(todo).value.row == t.row && OpenIds(TurnMessages(t)) != [])
    && (FirstWrite(todo).Some? && FirstWrite(todo).value.SetAction? ==> Synced(rows, t))
  }

  /** The end of a job that starts a turn or appends a host message. */
  predicate Creates(todo: seq<Write>) {
    || todo == []
    || (|todo| == 1 && todo[0].SaveState?)
    || (|todo| == 2 && todo[0].Create? && todo[1].SaveState?)
  }

  predicate Opens(todo: seq<Write>) {
    || Creates(todo)
    || (todo[0].ClearAction? && Creates(todo[1..]))
    || (|todo| > 1 && todo[0].Supersede? && todo[1].ClearAction? && Creates(todo[2..]))
  }

  predicate IsReply(rows: seq<Row>, id: MessageId) {
    RowOf(rows, id).Some? ==> RowOf(rows, id).value.role == Assistant
  }

  /** A message a job will create is new, and no reply. */
  predicate NewMessage(rows: seq<Row>, turn: Option<Turn>, w: Write) {
    w.Create? ==> w.message.role != Assistant && !HasRow(rows, w.message.id) && (turn.Some? ==> w.message.id != turn.value.row)
  }

  ghost predicate OpeningShape(c: Core, todo: seq<Write>, resume: bool) {
    && Opens(todo) && (resume ==> c.turn.Some?)
    && (c.turn.Some? ==> c.turn.value.answers.None? && TurnOk([], c.turn.value) && !HasRow(c.db.rows, c.turn.value.row))
    && (c.action.Some? ==> !Creates(todo) && IsReply(c.db.rows, c.action.value.row))
    && (forall i :: 0 <= i < |todo| ==> NewMessage(c.db.rows, c.turn, todo[i]))
    && (forall i :: 0 <= i < |todo| && todo[i].Supersede? ==> IsReply(c.db.rows, todo[i].row))
  }

  /** A running job is one that starts something or one that ends something. */
  ghost predicate Shaped(s: System) {
    s.Up? ==>
      && s.db.action == s.action
      && match s.job
         case Idle => true
         case Busy(turn, todo, resume) =>
           && (todo != [] || resume)
           && (|| (todo != [] && OpeningShape(Core(s.db, s.action, turn), todo, resume))
               || (turn.Some? && ClosingShape(s.db.rows, turn.value, todo) && (SetsAction(todo).Some? ==> !resume)))
  }

  /** The first write abandons what is pending, and nothing else. */
  predicate Abandons(s: System)
    requires s.Up? && s.job.Busy? && s.job.todo != [] && s.job.todo[0].Supersede?
  {
    if s.action.Some? then s.job.todo[0].row == s.action.value.row && s.job.todo[0].ids == BatchIds(s.action.value)
    else RowOf(s.db.rows, s.job.todo[0].row).Some? ==> Shut(RowOf(s.db.rows, s.job.todo[0].row).value)
  }

  /** At a plan's writes the session is as it is between jobs. */
  ghost predicate Settled(s: System) {
    s.Up? && s.job.Busy? && AtPlanWrite(s.job.todo) ==>
      IdleState(s.db, s.action) && (s.job.todo[0].Supersede? ==> Abandons(s))
  }

  /** Safe as a session that is not being repaired. */
  ghost predicate Sound(s: System) { Inv(s) && Shaped(s) && Settled(s) }

  function WithAction(s: System, a: Action): System
    requires s.Up?
  {
    s.(db := s.db.(action := Some(a)), action := Some(a))
  }

  /** A sound session whose pending action a repair has cleared. */
  ghost predicate SoundButCleared(s: System) {
    s.Up? && s.action.None? && s.db.action.None? && exists a :: Sound(WithAction(s, a))
  }

  /** What is left of a plan. */
  predicate Plans(todo: seq<Write>) {
    AtPlanWrite(todo) || (todo != [] && todo[0].ClearAction? && AtPlanWrite(todo[1..]))
  }

  ghost predicate RepairInv(s: State) {
    && DbSafe(s.turns.db) && (Sound(s.turns) || (s.repairing && SoundButCleared(s.turns)))
    && (s.repairing && s.turns.Up? && s.turns.job.Busy? && Plans(s.turns.job.todo) ==> s.turns.action.None?)
  }
}
