/** A session beside its stored rows, with plans that are cancelled inside a write.

    `SessionRepairs` has the plan of a message turn cancelled between two of its writes, so
    that memory and rows agree throughout. Here the cancellation falls into a write: the
    resolved row of an abandoned call is stored, but not published in memory; the pending
    action is gone from memory, but not from its row; or the message is stored, but memory
    does not know it. The session goes on from what it has in memory.

    The order of the stored rows is the order in which they were written. */
module PlanCuts {
  import opened Basics
  import opened Transcript
  import opened RowMessages
  import opened CallResults
  import opened ResolvedReturns
  import opened SessionRows
  import opened HostActions
  import opened HostActionInvariant
  import opened HostActionSafety
  import opened HostActionSteps
  import opened SessionRepairSafety
  import opened HostActionTheorems
  import R = SessionRepairs

  /** `live` is the session as its process has it, `disk` what is stored, and `orphans` are
      the stored messages that the process does not know. */
  datatype State = State(live: R.State, disk: Db, orphans: set<MessageId>)

  datatype Event = Act(event: R.Event) | CutSupersede | CutClear | CutCreate | Refill

  // ---------------------------------------------------------------- what a write stores

  datatype RowWrite = Nothing | Update(row: Row) | Insert(row: Row)

  /** The row that is stored; it is made from the one in memory. */
  function WriteOf(w: Write, c: Core): RowWrite {
    match w
    case Supersede(row, ids, status) =>
      var stored := RowOf(c.db.rows, row);
      if stored.Some? && AnyId(ToolsOf(stored.value.segments), ids) then
        Update(ResolveRow(stored.value, Only(ids), AbandonedAnswer(status)))
      else Nothing
    case Create(message) => Insert(message)
    case Snapshot(close) => if c.turn.None? then Nothing else WrittenFor(c.db.rows, Closing(c.turn.value, close))
    case _ => Nothing
  }

  function WrittenFor(rows: seq<Row>, t: Turn): RowWrite {
    var stored := RowOf(rows, t.row);
    if stored.Some? then Update(Rewritten(stored.value, t))
    else Insert(NewReply(t, if rows == [] then 0 else Last(rows).createdAt + 1))
  }

  function Put(rows: seq<Row>, w: RowWrite): seq<Row> {
    match w
    case Nothing => rows
    case Update(row) => Replace(rows, row)
    case Insert(row) => rows + [row]
  }

  function StoredAction(w: Write, c: Core, stored: Option<Action>): Option<Action> {
    match w
    case ClearAction => if c.action.None? then stored else None
    case SaveState => c.action
    case SetAction(a) => Some(a)
    case _ => stored
  }

  function Store(disk: Db, w: Write, c: Core): Db {
    Db(Put(disk.rows, WriteOf(w, c)), StoredAction(w, c, disk.action))
  }

  /** A write that is not cut leaves memory as it leaves rows that agreed with it. */
  lemma CommitStores(w: Write, c: Core)
    ensures Commit(w, c).db == Store(c.db, w, c)
  {
    if w.Snapshot? && c.turn.Some? {
      SnapshotStores(c.db.rows, Closing(c.turn.value, w.close));
    }
  }

  lemma SnapshotStores(rows: seq<Row>, t: Turn)
    ensures WriteSnapshot(rows, t) == Put(rows, WrittenFor(rows, t))
  {
  }

  /** A repair stores the row it repaired in memory. */
  function RepairedFrom(row: Row, live: seq<Row>): Row {
    var known := RowOf(live, row.id);
    if known.Some? && NeedsRepair(known.value, {}) then RepairRow(known.value, {}) else row
  }

  function RepairOnto(rows: seq<Row>, live: seq<Row>): (r: seq<Row>)
    ensures |r| == |rows|
    ensures forall i :: 0 <= i < |rows| ==> r[i] == RepairedFrom(rows[i], live)
  {
    if rows == [] then []
    else RepairOnto(rows[..|rows| - 1], live) + [RepairedFrom(rows[|rows| - 1], live)]
  }

  // ---------------------------------------------------------------- steps

  function CoreOf(s: System): Core
    requires s.Up? && s.job.Busy?
  {
    Core(s.db, s.action, s.job.turn)
  }

  /** A message id is new in the store as well, which refuses one it has; and a session with
      no message in memory is loaded again before its first one. */
  predicate NewIds(s: State, e: HostActions.Event) {
    match e
    case Message(user, reply, _) =>
      user.id !in s.orphans && reply !in s.orphans && (s.live.turns.db.rows == [] ==> s.disk.rows == [])
    case Steer(reply) => reply !in s.orphans
    case HostMessage(host) => host.id !in s.orphans && (s.live.turns.db.rows == [] ==> s.disk.rows == [])
    case _ => true
  }

  /** The next write is one of a plan's, and of the kind that is cut. */
  predicate AtSupersede(s: System) { R.Planning(s) && s.job.todo[0].Supersede? }

  predicate AtClear(s: System) {
    && s.Up? && s.job.Busy? && s.job.turn.Some? && s.job.resume && s.action.Some?
    && s.job.todo != [] && s.job.todo[0].ClearAction? && R.AtPlanWrite(s.job.todo[1..])
  }

  predicate AtCreate(s: System) { R.Planning(s) && s.job.todo[0].Create? }

  ghost predicate Enabled(s: State, e: Event) {
    match e
    case Act(event) => R.Enabled(s.live, event) && (event.Act? ==> NewIds(s, event.event))
    case CutSupersede => AtSupersede(s.live.turns)
    case CutClear => AtClear(s.live.turns)
    case CutCreate => AtCreate(s.live.turns)
    case Refill => s.live.turns.Up? && s.live.turns.job.Idle? && s.live.turns.db.rows == []
  }

  predicate Restarts(e: R.Event) { e.Act? && (e.event.Crash? || e.event.Evict?) }

  /** What is stored after a step of the session. */
  ghost function DiskAfter(s: State, e: R.Event): Db
    requires R.Enabled(s.live, e)
  {
    match e
    case Act(CommitNext) => Store(s.disk, s.live.turns.job.todo[0], CoreOf(s.live.turns))
    case Act(InterruptedLoad) => LoadRows(s.disk)
    case Act(Reload) => Load(s.disk).db
    case BeginRepair => if s.live.turns.action.Some? then s.disk.(action := None) else s.disk
    case FinishRepair => s.disk.(rows := RepairOnto(s.disk.rows, s.live.turns.db.rows))
    case _ => s.disk
  }

  ghost function Next(s: State, e: Event): State
    requires Enabled(s, e)
  {
    match e
    case Act(event) =>
      var live := R.Next(s.live, event);
      if Restarts(event) then State(live.(turns := Down(s.disk)), s.disk, {})
      else State(live, DiskAfter(s, event), s.orphans)
    case CutSupersede =>
      State(R.Next(s.live, R.CutPlan), Store(s.disk, s.live.turns.job.todo[0], CoreOf(s.live.turns)), s.orphans)
    case CutClear =>
      State(R.State(s.live.turns.(db := s.live.turns.db.(action := None), action := None, job := Idle), s.live.repairing),
            s.disk, s.orphans)
    case CutCreate =>
      var message := s.live.turns.job.todo[0].message;
      State(R.Next(s.live, R.CutPlan), s.disk.(rows := s.disk.rows + [message]), s.orphans + {message.id})
    case Refill => State(s.live.(turns := Load(s.disk)), Load(s.disk).db, {})
  }

  ghost predicate Runs(s: State, events: seq<Event>, s': State)
    decreases |events|
  {
    if events == [] then s' == s
    else Enabled(s, events[0]) && Runs(Next(s, events[0]), events[1..], s')
  }

  // ---------------------------------------------------------------- when a cut does harm

  /** The cut leaves memory and rows at odds: the results of an abandoned batch are stored,
      but memory still offers its call; the pending action is gone from memory alone; or the
      message is stored after a reply that memory still takes for the newest message. */
  predicate Tears(s: State, e: Event)
    requires e.CutSupersede? ==> AtSupersede(s.live.turns)
  {
    var rows := s.live.turns.db.rows;
    match e
    case CutSupersede =>
      var stored := RowOf(rows, s.live.turns.job.todo[0].row);
      stored.Some? && !Quiet(stored.value)
    case CutClear => true
    case CutCreate => rows != [] && Last(rows).role == Assistant
    case _ => false
  }

  /** No cut of the run tears memory and rows apart, and no repair of it does harm. */
  ghost predicate Harmless(s: State, e: Event)
    requires Enabled(s, e)
  {
    !Tears(s, e) && (e == Act(R.FinishRepair) ==> !R.Harmful(s.live))
  }

  ghost predicate Careful(s: State, events: seq<Event>)
    decreases |events|
  {
    events != [] && Enabled(s, events[0]) ==>
      Harmless(s, events[0]) && Careful(Next(s, events[0]), events[1..])
  }

  /** What is promised of a run: stored results are kept, and at rest the stored rows are
      those of a session with the action that memory has. */
  ghost predicate Right(s: State, s': State) {
    && RowsKept(s.disk.rows, s'.disk.rows)
    && (AtRest(s'.live) ==> IdleState(s'.disk, s'.live.turns.action))
  }

  ghost predicate StaysRight(s: State) {
    forall events, s' :: Runs(s, events, s') && Careful(s, events) ==> Right(s, s')
  }

  // ---------------------------------------------------------------- memory and rows in step

  /** The rows that memory knows. */
  function Known(rows: seq<Row>, orphans: set<MessageId>): seq<Row> {
    if rows == [] then []
    else
      var row := rows[|rows| - 1];
      Known(rows[..|rows| - 1], orphans) + (if row.id in orphans then [] else [row])
  }

  /** What a job writes is about none of the orphans. */
  predicate AboutKnown(w: Write, orphans: set<MessageId>) {
    match w
    case Create(message) => message.id !in orphans
    case SetAction(a) => a.row !in orphans
    case _ => true
  }

  predicate JobKnown(j: Job, orphans: set<MessageId>) {
    j.Busy? ==>
      && (j.turn.Some? ==> j.turn.value.row !in orphans)
      && forall i :: 0 <= i < |j.todo| ==> AboutKnown(j.todo[i], orphans)
  }

  ghost predicate DiskOk(disk: Db, orphans: set<MessageId>) {
    && (forall i, j :: 0 <= i < j < |disk.rows| ==> disk.rows[i].id != disk.rows[j].id)
    && (forall i :: 0 <= i < |disk.rows| && disk.rows[i].id in orphans ==> disk.rows[i].role != Assistant)
    && (disk.action.Some? ==> disk.action.value.row !in orphans)
  }

  /** An orphan is the newest message only after a message that is no reply. */
  predicate LeafKnown(disk: seq<Row>, live: seq<Row>, orphans: set<MessageId>) {
    disk != [] && Last(disk).id in orphans ==> live == [] || Last(live).role != Assistant
  }

  ghost predicate InSync(s: State) {
    && s.disk.action == s.live.turns.db.action
    && Known(s.disk.rows, s.orphans) == s.live.turns.db.rows
    && DiskOk(s.disk, s.orphans)
    && LeafKnown(s.disk.rows, s.live.turns.db.rows, s.orphans)
    && (s.live.turns.Down? ==> s.orphans == {})
    && (s.live.turns.Up? ==> JobKnown(s.live.turns.job, s.orphans))
  }

  ghost predicate Inv(s: State) { R.RepairInv(s.live) && InSync(s) }
}
