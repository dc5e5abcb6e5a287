/** Runs from an empty session to each write in which a plan can be cut with harm: a reply
    calls the host, and before the host answers, the user's next message arrives. */
module PlanCutRuns {
  import opened Basics
  import opened Transcript
  import opened RowMessages
  import opened CallResults
  import opened ResolvedReturns
  import opened SessionRows
  import opened HostActions
  import opened HostActionInvariant
  import opened HostActionSafety
  import opened HostActionTheorems
  import opened SessionRepairSafety
  import opened SessionRepairHarm
  import opened SessionRepairRuns
  import opened PlanCutSafety
  import opened PlanCutHarm
  import R = SessionRepairs
  import opened C = PlanCuts

  // ---------------------------------------------------------------- runs without a cut

  /** Memory and store are one. */
  ghost function Whole(s: R.State): State { State(s, s.turns.db, {}) }

  function Lift(events: seq<R.Event>): seq<C.Event> {
    if events == [] then [] else [C.Act(events[0])] + Lift(events[1..])
  }

  predicate Ordinary(events: seq<R.Event>) {
    forall i :: 0 <= i < |events| ==> events[i].Act?
  }

  lemma LiftedStep(s: R.State, e: R.Event)
    requires R.Enabled(s, e) && e.Act?
    ensures C.Enabled(Whole(s), C.Act(e)) && C.Next(Whole(s), C.Act(e)) == Whole(R.Next(s, e))
  {
    if e.event.CommitNext? {
      CommitStores(s.turns.job.todo[0], CoreOf(s.turns));
    }
  }

  /** A run without cuts is a run in which what is stored is what memory has. */
  lemma {:induction false} LiftedRun(s: R.State, events: seq<R.Event>, s': R.State)
    requires R.Runs(s, events, s') && Ordinary(events)
    ensures C.Runs(Whole(s), Lift(events), Whole(s')) && Plain(Lift(events))
    decreases |events|
  {
    if events != [] {
      LiftedStep(s, events[0]);
      LiftedRun(R.Next(s, events[0]), events[1..], s');
      CutFirst(Whole(s), C.Act(events[0]), Lift(events[1..]), Whole(s'));
    }
  }

  // ---------------------------------------------------------------- the runs

  /** The message that follows, and the id of its reply. */
  datatype Sequel = Sequel(user: Row, reply: MessageId)

  predicate Follows(o: Opening, m: Sequel) {
    && IsOpening(o) && m.user.role == Role.User && m.user.parent.None? && m.user.createdAt > o.user.createdAt + 1
    && m.user.id != o.user.id && m.user.id != o.reply && m.reply != o.user.id && m.reply != o.reply && m.user.id != m.reply
  }

  function AskedRowsOf(o: Opening): seq<Row> { [o.user, AskingRow(o)] }

  /** The session waits for the host. */
  function WaitingState(o: Opening): R.State
    requires IsOpening(o)
  {
    R.State(Up(Db(AskedRowsOf(o), Some(HostAction(o))), Some(HostAction(o)), Idle), false)
  }

  function WaitingRun(o: Opening): seq<R.Event>
    requires IsOpening(o)
  {
    AskedRun(o, HostCall(o)) + CommitTwo()
  }

  function NextMessage(o: Opening, m: Sequel): Row { m.user.(parent := Some(o.reply)) }

  /** What the plan of the next message has to write, from its first write on. */
  function SequelWrites(o: Opening, m: Sequel): seq<Write>
    requires IsOpening(o)
  {
    [FirstWriteOf(o)] + ([ClearAction] + MessageWrites(o, m))
  }

  function FirstWriteOf(o: Opening): Write
    requires IsOpening(o)
  {
    Supersede(o.reply, BatchIds(HostAction(o)), "superseded")
  }

  function MessageWrites(o: Opening, m: Sequel): seq<Write> { [Create(NextMessage(o, m)), SaveState] }

  function SequelJob(o: Opening, m: Sequel, todo: seq<Write>): Job { Busy(Some(NewTurn(m.reply, Some(m.user.id), [])), todo, true) }

  /** At its first write; at the one that clears the action; and at that of the message. */
  function AtFirst(o: Opening, m: Sequel): R.State
    requires IsOpening(o)
  {
    R.State(Up(Db(AskedRowsOf(o), Some(HostAction(o))), Some(HostAction(o)), SequelJob(o, m, SequelWrites(o, m))), false)
  }

  function SupersededRows(o: Opening): seq<Row>
    requires IsOpening(o)
  {
    WriteSupersede(AskedRowsOf(o), o.reply, BatchIds(HostAction(o)), "superseded")
  }

  function AtSecond(o: Opening, m: Sequel): R.State
    requires IsOpening(o)
  {
    R.State(Up(Db(SupersededRows(o), Some(HostAction(o))), Some(HostAction(o)), SequelJob(o, m, [ClearAction] + MessageWrites(o, m))), false)
  }

  function AtThird(o: Opening, m: Sequel): R.State
    requires IsOpening(o)
  {
    R.State(Up(Db(SupersededRows(o), None), None, SequelJob(o, m, MessageWrites(o, m))), false)
  }

  function SequelRun(o: Opening, m: Sequel): seq<R.Event>
    requires IsOpening(o)
  {
    WaitingRun(o) + [R.Act(HostActions.Message(m.user, m.reply, false))]
  }

  lemma Waits(o: Opening)
    requires IsOpening(o)
    ensures R.Runs(EMPTY, WaitingRun(o), WaitingState(o))
  {
    Asked(o, HostCall(o));
    SetsPending(o);
    SetsAfterRepair(AskedRowsOf(o), AskingTurn(o), HostAction(o));
    RunsJoin(EMPTY, AskedRun(o, HostCall(o)),
             R.State(Up(Db(AskedRowsOf(o), None), None, Busy(Some(AskingTurn(o)), [ClearAction, SetAction(HostAction(o))], false)), false),
             CommitTwo(), WaitingState(o));
  }

  lemma SequelArrives(o: Opening, m: Sequel)
    requires Follows(o, m)
    ensures var e := R.Act(HostActions.Message(m.user, m.reply, false));
            R.Enabled(WaitingState(o), e) && R.Next(WaitingState(o), e) == AtFirst(o, m)
  {
    var rows, a := AskedRowsOf(o), HostAction(o);
    assert !HasRow(rows, m.user.id) && !HasRow(rows, m.reply);
    assert ParentOf(rows, m.user) == Some(o.reply);
    assert AbandonWrites(Some(a), "superseded") + [Create(NextMessage(o, m)), SaveState] == SequelWrites(o, m);
  }

  lemma ReachesFirst(o: Opening, m: Sequel)
    requires Follows(o, m)
    ensures R.Runs(EMPTY, SequelRun(o, m), AtFirst(o, m)) && Ordinary(SequelRun(o, m))
  {
    SequelIsOrdinary(o, m);
    Waits(o);
    SequelArrives(o, m);
    RunNext(EMPTY, WaitingRun(o), WaitingState(o), R.Act(HostActions.Message(m.user, m.reply, false)), AtFirst(o, m));
  }

  lemma OrdinaryJoin(a: seq<R.Event>, b: seq<R.Event>)
    requires Ordinary(a) && Ordinary(b)
    ensures Ordinary(a + b)
  {
  }

  lemma SequelIsOrdinary(o: Opening, m: Sequel)
    requires IsOpening(o)
    ensures Ordinary(SequelRun(o, m)) && Ordinary([R.Act(CommitNext)])
  {
    var message, ends := R.Act(HostActions.Message(o.user, o.reply, false)), R.Act(RunEnds(Asking(o), HostCall(o)));
    OrdinaryJoin([R.Act(Reload)], [message]);
    OrdinaryJoin([R.Act(Reload)] + [message], CommitTwo());
    OrdinaryJoin(BeginRun(o), [ends]);
    OrdinaryJoin(BeginRun(o) + [ends], [R.Act(CommitNext)]);
    OrdinaryJoin(AskedRun(o, HostCall(o)), CommitTwo());
    OrdinaryJoin(WaitingRun(o), [R.Act(HostActions.Message(m.user, m.reply, false))]);
  }

  lemma ReachesSecond(o: Opening, m: Sequel)
    requires Follows(o, m)
    ensures R.Runs(EMPTY, SequelRun(o, m) + [R.Act(CommitNext)], AtSecond(o, m)) && Ordinary(SequelRun(o, m) + [R.Act(CommitNext)])
  {
    SequelIsOrdinary(o, m);
    OrdinaryJoin(SequelRun(o, m), [R.Act(CommitNext)]);
    ReachesFirst(o, m);
    FirstIsWritten(o, m);
    RunNext(EMPTY, SequelRun(o, m), AtFirst(o, m), R.Act(CommitNext), AtSecond(o, m));
  }

  /** One write of a plan. */
  lemma PlanWrites(db: Db, action: Option<Action>, t: Turn, w: Write, rest: seq<Write>)
    ensures var s, c := R.State(Up(db, action, Busy(Some(t), [w] + rest, true)), false), Commit(w, Core(db, action, Some(t)));
            && R.Enabled(s, R.Act(CommitNext))
            && R.Next(s, R.Act(CommitNext)) == R.State(Up(c.db, c.action, Busy(c.turn, rest, true)), false)
  {
    assert ([w] + rest)[1..] == rest;
  }

  lemma FirstIsWritten(o: Opening, m: Sequel)
    requires IsOpening(o)
    ensures R.Enabled(AtFirst(o, m), R.Act(CommitNext)) && R.Next(AtFirst(o, m), R.Act(CommitNext)) == AtSecond(o, m)
  {
    PlanWrites(Db(AskedRowsOf(o), Some(HostAction(o))), Some(HostAction(o)), NewTurn(m.reply, Some(m.user.id), []),
               FirstWriteOf(o), [ClearAction] + MessageWrites(o, m));
  }

  lemma SecondIsWritten(o: Opening, m: Sequel)
    requires IsOpening(o)
    ensures R.Enabled(AtSecond(o, m), R.Act(CommitNext)) && R.Next(AtSecond(o, m), R.Act(CommitNext)) == AtThird(o, m)
  {
    PlanWrites(Db(SupersededRows(o), Some(HostAction(o))), Some(HostAction(o)), NewTurn(m.reply, Some(m.user.id), []),
               ClearAction, MessageWrites(o, m));
  }

  lemma ReachesThird(o: Opening, m: Sequel)
    requires Follows(o, m)
    ensures R.Runs(EMPTY, SequelRun(o, m) + [R.Act(CommitNext)] + [R.Act(CommitNext)], AtThird(o, m))
    ensures Ordinary(SequelRun(o, m) + [R.Act(CommitNext)] + [R.Act(CommitNext)])
  {
    SequelIsOrdinary(o, m);
    OrdinaryJoin(SequelRun(o, m) + [R.Act(CommitNext)], [R.Act(CommitNext)]);
    ReachesSecond(o, m);
    SecondIsWritten(o, m);
    RunNext(EMPTY, SequelRun(o, m) + [R.Act(CommitNext)], AtSecond(o, m), R.Act(CommitNext), AtThird(o, m));
  }

  // ---------------------------------------------------------------- each cut is possible, and tears

  lemma RowsOfAsked(o: Opening)
    requires IsOpening(o)
    ensures RowOf(AskedRowsOf(o), o.reply) == Some(AskingRow(o)) && !Quiet(AskingRow(o))
  {
    AskingCalls(o);
    AskingRowOk(o);
    assert AskedRowsOf(o)[..1] == [o.user];
  }

  lemma SupersededHeads(o: Opening)
    requires IsOpening(o)
    ensures |SupersededRows(o)| == 2 && SupersededRows(o)[1].id == o.reply && SupersededRows(o)[1].role == Assistant
  {
    RowsOfAsked(o);
  }

  lemma FirstTears(o: Opening, m: Sequel)
    requires Follows(o, m)
    ensures var s := Whole(AtFirst(o, m)); C.Enabled(s, CutSupersede) && Tears(s, CutSupersede)
  {
    RowsOfAsked(o);
  }

  lemma ThirdTears(o: Opening, m: Sequel)
    requires Follows(o, m)
    ensures var s := Whole(AtThird(o, m)); C.Enabled(s, CutCreate) && Tears(s, CutCreate)
  {
    SupersededHeads(o);
  }

  lemma EmptyIsSafe()
    ensures C.Inv(Whole(EMPTY))
  {
    SessionBegins([]);
    KnownAll([]);
  }

  lemma ReachedIsSafe(events: seq<R.Event>, s: R.State)
    requires R.Runs(EMPTY, events, s) && Ordinary(events)
    ensures C.Runs(Whole(EMPTY), Lift(events), Whole(s)) && C.Inv(Whole(s))
  {
    LiftedRun(EMPTY, events, s);
    PlainIsCareful(Whole(EMPTY), Lift(events));
    EmptyIsSafe();
    CutRunIsRight(Whole(EMPTY), Lift(events), Whole(s));
  }

  /** A cut that tears, in a state that a run without cuts reaches, does harm. */
  lemma ReachedCutHarms(events: seq<R.Event>, s: R.State, e: C.Event)
    requires R.Runs(EMPTY, events, s) && Ordinary(events)
    requires C.Enabled(Whole(s), e) && Tears(Whole(s), e) && (e.CutSupersede? || e.CutClear? || e.CutCreate?)
    ensures C.Runs(Whole(EMPTY), Lift(events), Whole(s)) && !C.StaysRight(C.Next(Whole(s), e))
  {
    ReachedIsSafe(events, s);
    CutIsRightExactly(Whole(s), e);
  }

  /** From an empty session: the first message's reply calls the host, the second message is
      planned, and its plan is cancelled inside its first write. */
  lemma SupersedeCutHappens(o: Opening, m: Sequel)
    requires Follows(o, m)
    ensures var s := Whole(AtFirst(o, m));
            && C.Runs(Whole(EMPTY), Lift(SequelRun(o, m)), s)
            && C.Enabled(s, CutSupersede) && !C.StaysRight(C.Next(s, CutSupersede))
  {
    FirstTears(o, m);
    ReachesFirst(o, m);
    ReachedCutHarms(SequelRun(o, m), AtFirst(o, m), CutSupersede);
  }

  /** Inside its second. */
  lemma ClearCutHappens(o: Opening, m: Sequel)
    requires Follows(o, m)
    ensures var s := Whole(AtSecond(o, m));
            && C.Runs(Whole(EMPTY), Lift(SequelRun(o, m) + [R.Act(CommitNext)]), s)
            && C.Enabled(s, CutClear) && !C.StaysRight(C.Next(s, CutClear))
  {
    ReachesSecond(o, m);
    ReachedCutHarms(SequelRun(o, m) + [R.Act(CommitNext)], AtSecond(o, m), CutClear);
  }

  /** Inside its third. */
  lemma CreateCutHappens(o: Opening, m: Sequel)
    requires Follows(o, m)
    ensures var s := Whole(AtThird(o, m));
            && C.Runs(Whole(EMPTY), Lift(SequelRun(o, m) + [R.Act(CommitNext)] + [R.Act(CommitNext)]), s)
            && C.Enabled(s, CutCreate) && !C.StaysRight(C.Next(s, CutCreate))
  {
    ThirdTears(o, m);
    ReachesThird(o, m);
    ReachedCutHarms(SequelRun(o, m) + [R.Act(CommitNext)] + [R.Act(CommitNext)], AtThird(o, m), CutCreate);
  }

  predicate StoredAs(row: Row, call: CallId, r: Result) {
    call in Results(History(row)) && Results(History(row))[call] == r
  }

  /** The host's answer is stored in the place of the result that memory does not know. */
  ghost predicate Replaceable(s: State, call: CallId, r: Result) {
    && s.disk.rows != [] && StoredAs(Last(s.disk.rows), call, r)
    && exists events, s' :: C.Runs(s, events, s') && Plain(events) && |s'.disk.rows| == |s.disk.rows|
                            && StoredAs(Last(s'.disk.rows), call, Result("", Success))
  }

  lemma OvertakenIsReplaced(s: State, a: Action, k: nat, r: Result)
    requires Overtaken(s, a, k, r) && !s.live.repairing
    ensures Replaceable(s, a.call, r)
  {
    var events, s' := ContinuedAfterCut(s, a, k);
    assert StoredAs(Last(s'.disk.rows), a.call, Result("", Success));
  }

  lemma SupersededAs()
    ensures AbandonedAnswer("superseded").output == SUPERSEDED_OUTPUT
  {
  }

  lemma SupersededIsReplaced(s: State, a: Action)
    requires C.Inv(s) && C.Enabled(s, CutSupersede) && Tears(s, CutSupersede)
    requires !s.live.repairing && s.live.turns.action == Some(a) && s.live.turns.job.todo[0].status == "superseded"
    ensures Replaceable(C.Next(s, CutSupersede), a.call, Result(SUPERSEDED_OUTPUT, Interrupted))
  {
    var b, k := SupersedeOvertakes(s);
    SupersededAs();
    CutSupersedeLive(s);
    OvertakenIsReplaced(C.Next(s, CutSupersede), b, k, Result(SUPERSEDED_OUTPUT, Interrupted));
  }

  /** After the first of them the stored result says that the call was superseded; memory
      still offers the call, and the host's answer is stored in its place. */
  lemma SupersededResultIsReplaced(o: Opening, m: Sequel)
    requires Follows(o, m)
    ensures C.Enabled(Whole(AtFirst(o, m)), CutSupersede)
    ensures Replaceable(C.Next(Whole(AtFirst(o, m)), CutSupersede), o.call.id, Result(SUPERSEDED_OUTPUT, Interrupted))
  {
    FirstTears(o, m);
    ReachesFirst(o, m);
    ReachedIsSafe(SequelRun(o, m), AtFirst(o, m));
    SupersededIsReplaced(Whole(AtFirst(o, m)), HostAction(o));
  }
}
