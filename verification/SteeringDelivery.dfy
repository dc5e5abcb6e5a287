/** Delivery of steering across runs, snapshots and crashes.

    A run is handed pending records in requests that name them. A record is acknowledged
    only after a model request that carried it has completed; a snapshot leaves out the
    requests whose records are still pending, and a later run sends those again.

    Queueing and acknowledging both write the stored records and then the memory. Either
    may be cancelled between the two, so the session goes by the records it knows. */
module SteeringDelivery {
  import opened Basics
  import opened Transcript
  import opened SessionRows
  import opened ResolvedReturns
  import opened SteeringQueue

  // ---------------------------------------------------------------- the policy of one run

  /** The records handed to the run under each enqueue id, all records handed to it, and
      those in a request the run has taken in but no model has completed yet. */
  datatype Policy = Policy(enqueued: map<nat, seq<string>>, inflight: set<string>, consumed: set<string>)

  const FreshPolicy := Policy(map[], {}, {})

  function Members(ids: seq<string>): set<string> { set id | id in ids }

  /** The pending records a run may be handed now. */
  function Offered(records: seq<Record>, profile: Option<string>, inflight: set<string>): seq<string> {
    Without(RecordIds(Consumable(records, profile)), inflight)
  }

  function AfterEnqueue(p: Policy, enqueueId: nat, ids: seq<string>): Policy {
    if ids == [] then p
    else Policy(p.enqueued[enqueueId := ids], p.inflight + Members(ids), p.consumed)
  }

  function AfterInsert(p: Policy, enqueueId: nat): Policy {
    Policy(p.enqueued - {enqueueId}, p.inflight,
           p.consumed + (if enqueueId in p.enqueued then Members(p.enqueued[enqueueId]) else {}))
  }

  function AfterRequest(p: Policy): Policy { p.(consumed := {}) }

  function Excluding(records: seq<Record>, ids: set<string>): seq<Record> {
    if records == [] then []
    else
      var r := records[|records| - 1];
      Excluding(records[..|records| - 1], ids) + (if r.id in ids then [] else [r])
  }

  lemma {:induction false} ExcludingIds(records: seq<Record>, ids: set<string>)
    ensures RecordIds(Excluding(records, ids)) == Without(RecordIds(records), ids)
  {
    if records != [] {
      var front, r := records[..|records| - 1], records[|records| - 1];
      ExcludingIds(front, ids);
      RecordsSnoc(Excluding(front, ids), r);
      WithoutSnoc(RecordIds(front), r.id, ids);
      assert Excluding(front, ids) + [] == Excluding(front, ids);
      assert Without(RecordIds(front), ids) + [] == Without(RecordIds(front), ids);
    }
  }

  class TurnPolicy {
    const sessions: SteeringStore
    const profile: Option<string>
    var enqueued: map<nat, seq<string>>
    var inflight: set<string>
    var consumed: set<string>

    ghost function View(): Policy
      reads this
    {
      Policy(enqueued, inflight, consumed)
    }

    constructor (sessions: SteeringStore, profile: Option<string>)
      ensures View() == FreshPolicy && this.sessions == sessions && this.profile == profile
    {
      this.sessions, this.profile := sessions, profile;
      enqueued, inflight, consumed := map[], {}, {};
    }

    /** Before a prompt is sent and after tool calls: what is pending is handed to the run. */
    method EnqueueSteering(enqueueId: nat) returns (request: seq<string>)
      requires sessions.Valid()
      modifies this
      ensures request == Offered(sessions.stored, profile, old(inflight))
      ensures View() == AfterEnqueue(old(View()), enqueueId, request)
    {
      if sessions.pending == [] {
        NothingOffered(sessions.stored, profile, inflight);
        return [];
      }
      var listed := sessions.ListPending(profile);
      var records := Excluding(listed, inflight);
      ExcludingIds(listed, inflight);
      request := RecordIds(records);
      if records == [] {
        return;
      }
      RecordIdsAt(records, 0);
      enqueued := enqueued[enqueueId := request];
      inflight := inflight + (set id | id in request);
    }

    /** The run has taken the request `enqueueId` into its messages. */
    method OnEnqueuedMessages(enqueueId: nat)
      modifies this
      ensures View() == AfterInsert(old(View()), enqueueId)
    {
      if enqueueId in enqueued {
        consumed := consumed + (set id | id in enqueued[enqueueId]);
      }
      enqueued := enqueued - {enqueueId};
    }

    /** A model request has completed: what it had taken in is acknowledged, all at once. */
    method AfterModelRequest()
      requires sessions.Valid()
      modifies this, sessions
      ensures sessions.Valid() && sessions.stored == Mark(old(sessions.stored), old(consumed))
      ensures View() == AfterRequest(old(View()))
    {
      if consumed != {} {
        var updated := sessions.MarkDelivered(consumed);
        consumed := {};
      } else {
        NoMembers(Within(PendingIds(sessions.stored), {}));
        MarkNothing(sessions.stored, {});
      }
    }
  }

  lemma NothingOffered(records: seq<Record>, profile: Option<string>, inflight: set<string>)
    requires PendingIds(records) == [] && DistinctRecords(records)
    ensures Offered(records, profile, inflight) == []
  {
    ConsumableIds(records, profile);
    NoMembers(Offered(records, profile, inflight));
  }

  /** Exactly what a run is offered: every pending record it was not handed already, and that
      is for its profile or for any; without a profile, every such record there is. */
  lemma OfferedExactly(records: seq<Record>, profile: Option<string>, inflight: set<string>, r: Record)
    requires DistinctRecords(records) && r in records
    ensures profile.Some? ==>
              (r.id in Offered(records, profile, inflight) <==>
                 r.status == Pending && (r.profile.None? || r.profile == profile) && r.id !in inflight)
    ensures profile.None? ==> (r.id in Offered(records, profile, inflight) <==> r.status == Pending && r.id !in inflight)
  {
    var listed := Consumable(records, profile);
    ListedFor(records, profile, r);
    IdOfMember(listed, r);
    if r.id in RecordIds(listed) {
      var same := MemberOfId(listed, r.id);
      ListedFor(records, profile, same);
      OneRecordOfId(records, same, r);
    }
  }

  lemma {:induction false} IdOfMember(records: seq<Record>, r: Record)
    ensures r in records ==> r.id in RecordIds(records)
  {
    if r in records {
      var i :| 0 <= i < |records| && records[i] == r;
      RecordIdsAt(records, i);
    }
  }

  lemma MemberOfId(records: seq<Record>, id: string) returns (r: Record)
    requires id in RecordIds(records)
    ensures r in records && r.id == id
  {
    RecordIdsAt(records, 0);
    var i :| 0 <= i < |RecordIds(records)| && RecordIds(records)[i] == id;
    RecordIdsAt(records, i);
    r := records[i];
  }

  lemma OneRecordOfId(records: seq<Record>, a: Record, b: Record)
    requires DistinctRecords(records) && a in records && b in records && a.id == b.id
    ensures a == b
  {
    var i :| 0 <= i < |records| && records[i] == a;
    var j :| 0 <= j < |records| && records[j] == b;
    RecordIdsAt(records, i);
    RecordIdsAt(records, j);
    assert RecordIds(records)[i] == RecordIds(records)[j];
  }

  /** And nothing else: what is offered is the id of a stored record. */
  lemma OfferedIsStored(records: seq<Record>, profile: Option<string>, inflight: set<string>, id: string)
    requires DistinctRecords(records) && id in Offered(records, profile, inflight)
    ensures id in PendingIds(records) && exists r :: r in records && r.id == id
  {
    ConsumableIds(records, profile);
    PendingAreRecords(records);
    var r := MemberOfId(records, id);
  }

  // ---------------------------------------------------------------- the session

  /** Durable: the steering rows, the messages of the rows before the turn's, and those of
      the turn's row. */
  datatype Db = Db(records: seq<Record>, before: seq<Message>, row: seq<Message>)

  datatype Run = Run(policy: Policy, new_: seq<Message>)

  /** `saved` says that no run has ended since the turn's last snapshot. */
  datatype Turn = Turn(messages: seq<Message>, saved: bool, run: Option<Run>)

  /** In memory: the records as the session knows them, and the ids of those that wait. */
  datatype System = Down(db: Db) | Up(db: Db, known: seq<Record>, pending: seq<string>, turn: Option<Turn>)

  datatype Event =
    | Queue(id: string, content: string, profile: Option<string>)
    | QueueCut(id: string, content: string, profile: Option<string>)
    | StartTurn(extends_: bool)
    | StartRun
    | Enqueue(consumer: Option<string>, enqueueId: nat)
    | Insert(enqueueId: nat, prompts: seq<RequestPart>)
    | Respond(messages: seq<Message>)
    | RequestCompleted
    | AckCut
    | EndRun
    | Save
    | EndTurn
    | Crash
    | Reload

  /** The steering records the messages carry, in order. */
  function SteeringOf(messages: seq<Message>): seq<string> {
    if messages == [] then []
    else
      var m := messages[|messages| - 1];
      SteeringOf(messages[..|messages| - 1]) + (if m.Request? then m.steering else [])
  }

  predicate Running(s: System) { s.Up? && s.turn.Some? && s.turn.value.run.Some? }

  predicate Between(s: System) { s.Up? && s.turn.Some? && s.turn.value.run.None? }

  predicate Enabled(s: System, e: Event) {
    match e
    case Queue(id, _, _) => s.Up? && id !in RecordIds(s.known) && id !in RecordIds(s.db.records)
    case QueueCut(id, _, _) => s.Up? && id !in RecordIds(s.known) && id !in RecordIds(s.db.records)
    case StartTurn(_) => s.Up? && s.turn.None?
    case StartRun => Between(s) && s.turn.value.saved
    case Enqueue(_, enqueueId) => Running(s) && enqueueId !in s.turn.value.run.value.policy.enqueued
    case Insert(enqueueId, _) => Running(s) && enqueueId in s.turn.value.run.value.policy.enqueued
    case Respond(messages) => Running(s) && SteeringOf(messages) == []
    case RequestCompleted => Running(s)
    case AckCut => Running(s) && s.turn.value.run.value.policy.consumed != {}
    case EndRun => Running(s)
    case Save => Between(s)
    case EndTurn => Between(s) && s.turn.value.saved
    case Crash => s.Up?
    case Reload => s.Down?
  }

  function SetRun(s: System, run: Run): System
    requires Running(s)
  {
    s.(turn := Some(s.turn.value.(run := Some(run))))
  }

  /** The run is over, however it ended; the turn has its messages. */
  function RunEnded(s: System): System
    requires Running(s)
  {
    var t := s.turn.value;
    s.(turn := Some(Turn(t.messages + t.run.value.new_, false, None)))
  }

  function Next(s: System, e: Event): System
    requires Enabled(s, e)
  {
    match e
    case Queue(id, content, profile) =>
      var r := Record(id, content, profile, Pending);
      s.(db := s.db.(records := s.db.records + [r]), known := s.known + [r], pending := s.pending + [id])
    case QueueCut(id, content, profile) =>
      s.(db := s.db.(records := s.db.records + [Record(id, content, profile, Pending)]))
    case StartTurn(extends_) =>
      if extends_ then s.(turn := Some(Turn(s.db.row, true, None)))
      else s.(db := s.db.(before := s.db.before + s.db.row, row := []), turn := Some(Turn([], true, None)))
    case StartRun => s.(turn := Some(s.turn.value.(run := Some(Run(FreshPolicy, [])))))
    case Enqueue(consumer, enqueueId) =>
      var run := s.turn.value.run.value;
      SetRun(s, run.(policy := AfterEnqueue(run.policy, enqueueId, Offered(s.known, consumer, run.policy.inflight))))
    case Insert(enqueueId, prompts) =>
      var run := s.turn.value.run.value;
      SetRun(s, Run(AfterInsert(run.policy, enqueueId), run.new_ + [Request(prompts, run.policy.enqueued[enqueueId])]))
    case Respond(messages) =>
      var run := s.turn.value.run.value;
      SetRun(s, run.(new_ := run.new_ + messages))
    case RequestCompleted =>
      var run := s.turn.value.run.value;
      SetRun(s, run.(policy := AfterRequest(run.policy)))
        .(db := s.db.(records := Mark(s.db.records, run.policy.consumed)),
          known := Mark(s.known, run.policy.consumed), pending := Without(s.pending, run.policy.consumed))
    case AckCut => RunEnded(s).(db := s.db.(records := Mark(s.db.records, s.turn.value.run.value.policy.consumed)))
    case EndRun => RunEnded(s)
    case Save =>
      var messages := WithoutSteering(s.turn.value.messages, Members(s.pending));
      s.(db := s.db.(row := messages), turn := Some(Turn(messages, true, None)))
    case EndTurn => s.(turn := None)
    case Crash => Down(s.db)
    case Reload => Up(s.db, s.db.records, PendingIds(s.db.records), None)
  }

  predicate Runs(s: System, events: seq<Event>, s': System)
    decreases |events|
  {
    if events == [] then s' == s
    else Enabled(s, events[0]) && Runs(Next(s, events[0]), events[1..], s')
  }

  // ---------------------------------------------------------------- the invariant

  /** All records a message carries are pending, or none is. */
  ghost predicate Together(m: Message, pending: seq<string>) {
    m.Request? ==> (forall id :: id in m.steering ==> id in pending) || (forall id :: id in m.steering ==> id !in pending)
  }

  ghost predicate AllTogether(messages: seq<Message>, pending: seq<string>) {
    forall m :: m in messages ==> Together(m, pending)
  }

  /** The ids are those of records that are no longer pending. */
  ghost predicate Settled(ids: seq<string>, records: seq<Record>) {
    forall id :: id in ids ==> id in RecordIds(records) && id !in PendingIds(records)
  }

  ghost predicate GroupOk(ids: seq<string>, pending: seq<string>, run: Run) {
    && Distinct(ids)
    && forall id :: id in ids ==>
         id in pending && id in run.policy.inflight && id !in run.policy.consumed && id !in SteeringOf(run.new_)
  }

  /** What a run was handed is pending; what it took in is pending until acknowledged, and
      nothing it was handed is in the history already. */
  ghost predicate RunOk(run: Run, known: seq<string>, pending: seq<string>, base: seq<string>) {
    var p, taken := run.policy, SteeringOf(run.new_);
    && (forall e :: e in p.enqueued ==> GroupOk(p.enqueued[e], pending, run))
    && (forall e, f, id :: e in p.enqueued && f in p.enqueued && id in p.enqueued[e] && id in p.enqueued[f] ==> e == f)
    && (forall id :: id in p.consumed ==> id in taken)
    && (forall id :: id in taken ==> id in p.inflight && (id in pending <==> id in p.consumed))
    && (forall id :: id in p.inflight ==> id in known && id !in base)
    && Distinct(base + taken)
    && AllTogether(run.new_, pending)
  }

  ghost predicate TurnOk(t: Turn, db: Db) {
    var carried := SteeringOf(t.messages);
    && (forall id :: id in carried ==> id in RecordIds(db.records))
    && (t.saved ==> Settled(carried, db.records) && t.messages == db.row)
    && (forall id :: id in SteeringOf(db.row) ==> id in carried)
    && Distinct(SteeringOf(db.before) + carried)
    && AllTogether(t.messages, PendingIds(db.records))
    && (t.run.Some? ==> t.saved && RunOk(t.run.value, RecordIds(db.records), PendingIds(db.records), SteeringOf(db.before) + carried))
  }

  ghost predicate DbOk(db: Db) {
    && DistinctRecords(db.records)
    && Settled(SteeringOf(db.before) + SteeringOf(db.row), db.records)
    && Distinct(SteeringOf(db.before) + SteeringOf(db.row))
  }

  /** The session as its memory has it. */
  function View(s: System): Db
    requires s.Up?
  {
    s.db.(records := s.known)
  }

  /** What memory knows is stored, in the same order, and acknowledged there if it is here. */
  ghost predicate Behind(known: seq<Record>, stored: seq<Record>) {
    && RecordIds(known) == Within(RecordIds(stored), Members(RecordIds(known)))
    && (forall id :: id in RecordIds(known) ==> id in RecordIds(stored))
    && (forall id :: id in RecordIds(known) && id in PendingIds(stored) ==> id in PendingIds(known))
  }

  ghost predicate Inv(s: System) {
    && DistinctRecords(s.db.records)
    && (s.Down? ==> DbOk(s.db))
    && (s.Up? ==>
          && DbOk(View(s)) && Behind(s.known, s.db.records)
          && s.pending == PendingIds(s.known) && (s.turn.Some? ==> TurnOk(s.turn.value, View(s))))
  }

  // ---------------------------------------------------------------- carried ids

  lemma {:induction false} SteeringAppend(a: seq<Message>, b: seq<Message>)
    ensures SteeringOf(a + b) == SteeringOf(a) + SteeringOf(b)
  {
    if b == [] {
      assert a + b == a;
    } else {
      SteeringAppend(a, b[..|b| - 1]);
      AppendFront(a, b);
    }
  }

  lemma {:induction false} SteeringOfMessage(messages: seq<Message>, m: Message)
    requires m in messages && m.Request?
    ensures forall id :: id in m.steering ==> id in SteeringOf(messages)
  {
    var front, last := messages[..|messages| - 1], messages[|messages| - 1];
    if m != last {
      assert m in front;
      SteeringOfMessage(front, m);
    }
  }

  lemma {:induction false} CarriedBy(messages: seq<Message>, id: string)
    requires id in SteeringOf(messages)
    ensures exists m :: m in messages && m.Request? && id in m.steering
  {
    var front, last := messages[..|messages| - 1], messages[|messages| - 1];
    if !(last.Request? && id in last.steering) {
      CarriedBy(front, id);
      var m :| m in front && m.Request? && id in m.steering;
      assert m in messages;
    }
  }

  lemma DistinctJoin(a: seq<string>, b: seq<string>)
    requires Distinct(a) && Distinct(b) && forall id :: id in b ==> id !in a
    ensures Distinct(a + b)
  {
    var c := a + b;
    forall i, j | 0 <= i < j < |c| ensures c[i] != c[j] {
      if j < |a| {
        assert a[i] != a[j];
      } else if i >= |a| {
        assert b[i - |a|] != b[j - |a|];
      } else {
        assert b[j - |a|] in b && a[i] in a;
      }
    }
  }

  function CarriedIds(m: Message): seq<string> { if m.Request? then m.steering else [] }

  lemma SteeringSnoc(messages: seq<Message>, m: Message)
    ensures SteeringOf(messages + [m]) == SteeringOf(messages) + CarriedIds(m)
  {
    assert (messages + [m])[..|messages|] == messages;
  }

  lemma WithoutSteeringSnoc(messages: seq<Message>, m: Message, pending: set<string>)
    ensures WithoutSteering(messages + [m], pending)
         == WithoutSteering(messages, pending) + (if PendingSteering(m, pending) then [] else [m])
  {
    assert (messages + [m])[..|messages|] == messages;
  }

  /** A snapshot keeps distinct what was distinct, and drops every pending record. */
  lemma {:induction false} FilteredSteering(messages: seq<Message>, pending: set<string>)
    requires Distinct(SteeringOf(messages))
    ensures var kept := SteeringOf(WithoutSteering(messages, pending));
            && Distinct(kept)
            && (forall id :: id in kept ==> id in SteeringOf(messages) && id !in pending)
  {
    if messages != [] {
      var front, last := messages[..|messages| - 1], messages[|messages| - 1];
      assert messages == front + [last];
      SteeringSnoc(front, last);
      DistinctSplit(SteeringOf(front), CarriedIds(last));
      FilteredSteering(front, pending);
      WithoutSteeringSnoc(front, last, pending);
      var kept := WithoutSteering(front, pending);
      if PendingSteering(last, pending) {
        assert kept + [] == kept;
      } else {
        SteeringSnoc(kept, last);
        DistinctJoin(SteeringOf(kept), CarriedIds(last));
      }
    }
  }

  lemma {:induction false} FilteredMember(messages: seq<Message>, pending: set<string>, id: string)
    requires forall m :: m in messages && m.Request? ==>
               (forall i :: i in m.steering ==> i in pending) || (forall i :: i in m.steering ==> i !in pending)
    requires id in SteeringOf(messages) && id !in pending
    ensures id in SteeringOf(WithoutSteering(messages, pending))
  {
    var front, last := messages[..|messages| - 1], messages[|messages| - 1];
    assert messages == front + [last] && last in messages;
    SteeringSnoc(front, last);
    WithoutSteeringSnoc(front, last, pending);
    var kept := WithoutSteering(front, pending);
    SteeringSnoc(kept, last);
    assert kept + [] == kept;
    if id !in CarriedIds(last) {
      FilteredMember(front, pending, id);
    }
  }

  // ---------------------------------------------------------------- steps

  lemma QueueStep(s: System, e: Event)
    requires Inv(s) && Enabled(s, e) && e.Queue?
    ensures Inv(Next(s, e))
  {
    var r := Record(e.id, e.content, e.profile, Pending);
    RecordsSnoc(s.known, r);
    RecordsSnoc(s.db.records, r);
    DistinctSnoc(RecordIds(s.known), e.id);
    DistinctSnoc(RecordIds(s.db.records), e.id);
    QueuedBehind(s.known, s.db.records, r);
    if s.turn.Some? {
      QueuedTurn(s.turn.value, View(s), r);
    }
  }

  lemma QueuedTurn(t: Turn, db: Db, r: Record)
    requires TurnOk(t, db) && r.status == Pending && r.id !in RecordIds(db.records)
    requires RecordIds(db.records + [r]) == RecordIds(db.records) + [r.id]
    requires PendingIds(db.records + [r]) == PendingIds(db.records) + [r.id]
    ensures TurnOk(t, db.(records := db.records + [r]))
  {
    StillTogether(t.messages, db, r);
    if t.run.Some? {
      var run := t.run.value;
      assert forall id :: id in SteeringOf(run.new_) ==> id != r.id;
      NewTogether(run.new_, PendingIds(db.records), r.id);
    }
  }

  lemma StillTogether(messages: seq<Message>, db: Db, r: Record)
    requires forall id :: id in SteeringOf(messages) ==> id in RecordIds(db.records)
    requires AllTogether(messages, PendingIds(db.records)) && r.id !in RecordIds(db.records)
    ensures AllTogether(messages, PendingIds(db.records) + [r.id])
  {
    NewTogether(messages, PendingIds(db.records), r.id);
  }

  lemma NewTogether(messages: seq<Message>, pending: seq<string>, id: string)
    requires AllTogether(messages, pending) && id !in SteeringOf(messages)
    ensures AllTogether(messages, pending + [id])
  {
    forall m | m in messages ensures Together(m, pending + [id]) {
      assert Together(m, pending);
      if m.Request? {
        SteeringOfMessage(messages, m);
      }
    }
  }

  lemma StartTurnStep(s: System, e: Event)
    requires Inv(s) && Enabled(s, e) && e.StartTurn?
    ensures Inv(Next(s, e))
  {
    var db := View(s);
    if e.extends_ {
      SettledTogether(db.row, db.records);
    } else {
      SteeringAppend(db.before, db.row);
      assert SteeringOf(db.before + db.row) + SteeringOf([]) == SteeringOf(db.before) + SteeringOf(db.row);
    }
  }

  lemma SettledTogether(messages: seq<Message>, records: seq<Record>)
    requires Settled(SteeringOf(messages), records)
    ensures AllTogether(messages, PendingIds(records))
  {
    forall m | m in messages ensures Together(m, PendingIds(records)) {
      if m.Request? {
        SteeringOfMessage(messages, m);
      }
    }
  }

  lemma StartRunStep(s: System, e: Event)
    requires Inv(s) && Enabled(s, e) && e.StartRun?
    ensures Inv(Next(s, e))
  {
    var base := SteeringOf(s.db.before) + SteeringOf(s.turn.value.messages);
    assert base + SteeringOf([]) == base;
  }

  /** The id sequence that the session's history and the turn already carry. */
  function Base(db: Db, t: Turn): seq<string> { SteeringOf(db.before) + SteeringOf(t.messages) }

  lemma OfferedOk(records: seq<Record>, profile: Option<string>, inflight: set<string>)
    requires DistinctRecords(records)
    ensures var ids := Offered(records, profile, inflight);
            Distinct(ids) && forall id :: id in ids ==> id in PendingIds(records) && id !in inflight && id in RecordIds(records)
  {
    ConsumableIds(records, profile);
    WithoutDistinct(RecordIds(Consumable(records, profile)), inflight);
    PendingAreRecords(records);
  }

  lemma EnqueueRun(run: Run, known: seq<string>, pending: seq<string>, base: seq<string>, enqueueId: nat, ids: seq<string>)
    requires RunOk(run, known, pending, base) && enqueueId !in run.policy.enqueued && Distinct(ids)
    requires forall id :: id in ids ==> id in pending && id !in run.policy.inflight && id in known && id !in base
    ensures RunOk(run.(policy := AfterEnqueue(run.policy, enqueueId, ids)), known, pending, base)
  {
    var run' := run.(policy := AfterEnqueue(run.policy, enqueueId, ids));
    forall e | e in run'.policy.enqueued ensures GroupOk(run'.policy.enqueued[e], pending, run') {
      if e != enqueueId || ids == [] {
        assert GroupOk(run.policy.enqueued[e], pending, run);
      }
    }
    forall e, id | e in run.policy.enqueued && id in run.policy.enqueued[e] ensures id !in ids {
      assert GroupOk(run.policy.enqueued[e], pending, run);
    }
  }

  lemma EnqueueStep(s: System, e: Event)
    requires Inv(s) && Enabled(s, e) && e.Enqueue?
    ensures Inv(Next(s, e))
  {
    var t := s.turn.value;
    var run := t.run.value;
    var ids := Offered(s.known, e.consumer, run.policy.inflight);
    OfferedOk(s.known, e.consumer, run.policy.inflight);
    assert Settled(SteeringOf(s.db.before), s.known) by {
      assert forall id :: id in SteeringOf(s.db.before) ==> id in SteeringOf(s.db.before) + SteeringOf(s.db.row);
    }
    EnqueueRun(run, RecordIds(s.known), PendingIds(s.known), Base(View(s), t), e.enqueueId, ids);
  }

  lemma InsertRun(run: Run, known: seq<string>, pending: seq<string>, base: seq<string>, enqueueId: nat, prompts: seq<RequestPart>)
    requires RunOk(run, known, pending, base) && enqueueId in run.policy.enqueued
    ensures RunOk(Run(AfterInsert(run.policy, enqueueId), run.new_ + [Request(prompts, run.policy.enqueued[enqueueId])]),
                  known, pending, base)
  {
    var ids := run.policy.enqueued[enqueueId];
    var m := Request(prompts, ids);
    var run' := Run(AfterInsert(run.policy, enqueueId), run.new_ + [m]);
    var taken := SteeringOf(run.new_);
    assert GroupOk(ids, pending, run);
    SteeringSnoc(run.new_, m);
    forall e | e in run'.policy.enqueued ensures GroupOk(run'.policy.enqueued[e], pending, run') {
      assert GroupOk(run.policy.enqueued[e], pending, run);
      assert e != enqueueId;
    }
    assert base + (taken + ids) == (base + taken) + ids;
    DistinctJoin(base + taken, ids);
    forall x | x in run'.new_ ensures Together(x, pending) {
    }
  }

  lemma InsertStep(s: System, e: Event)
    requires Inv(s) && Enabled(s, e) && e.Insert?
    ensures Inv(Next(s, e))
  {
    var t := s.turn.value;
    InsertRun(t.run.value, RecordIds(s.known), PendingIds(s.known), Base(View(s), t), e.enqueueId, e.prompts);
  }

  lemma RespondStep(s: System, e: Event)
    requires Inv(s) && Enabled(s, e) && e.Respond?
    ensures Inv(Next(s, e))
  {
    var run := s.turn.value.run.value;
    var run' := run.(new_ := run.new_ + e.messages);
    SteeringAppend(run.new_, e.messages);
    assert SteeringOf(run.new_) + [] == SteeringOf(run.new_);
    forall g | g in run'.policy.enqueued ensures GroupOk(run'.policy.enqueued[g], PendingIds(s.known), run') {
      assert GroupOk(run.policy.enqueued[g], PendingIds(s.known), run);
    }
    forall m | m in run'.new_ ensures Together(m, PendingIds(s.known)) {
      if m in e.messages && m.Request? {
        SteeringOfMessage(e.messages, m);
      }
    }
  }

  /** What acknowledging the consumed records does to the run: the requests they came in
      go from pending to acknowledged whole. */
  lemma CompletedRun(run: Run, known: seq<string>, pending: seq<string>, base: seq<string>)
    requires RunOk(run, known, pending, base)
    ensures RunOk(run.(policy := AfterRequest(run.policy)), known, Without(pending, run.policy.consumed), base)
  {
    var run', left := run.(policy := AfterRequest(run.policy)), Without(pending, run.policy.consumed);
    forall e | e in run'.policy.enqueued ensures GroupOk(run'.policy.enqueued[e], left, run') {
      assert GroupOk(run.policy.enqueued[e], pending, run);
    }
    forall m | m in run.new_ ensures Together(m, left) {
      assert Together(m, pending);
      if m.Request? {
        SteeringOfMessage(run.new_, m);
      }
    }
  }

  lemma CompletedTurn(t: Turn, db: Db, consumed: set<string>)
    requires TurnOk(t, db) && t.run.Some? && DistinctRecords(db.records) && consumed == t.run.value.policy.consumed
    ensures TurnOk(t.(run := Some(t.run.value.(policy := AfterRequest(t.run.value.policy)))), db.(records := Mark(db.records, consumed)))
  {
    MarkedDistinct(db.records, consumed);
    var run := t.run.value;
    CompletedRun(run, RecordIds(db.records), PendingIds(db.records), Base(db, t));
    SettledTogether(t.messages, Mark(db.records, consumed)) by {
      assert Settled(SteeringOf(t.messages), db.records);
    }
  }

  lemma CompletedStep(s: System, e: Event)
    requires Inv(s) && Enabled(s, e) && e.RequestCompleted?
    ensures Inv(Next(s, e))
  {
    var consumed := s.turn.value.run.value.policy.consumed;
    MarkedDistinct(s.known, consumed);
    MarkedDistinct(s.db.records, consumed);
    MarkedBehind(s.known, s.db.records, consumed);
    CompletedTurn(s.turn.value, View(s), consumed);
  }

  lemma EndRunStep(s: System)
    requires Inv(s) && Running(s)
    ensures Inv(RunEnded(s))
  {
    var t := s.turn.value;
    var new_ := t.run.value.new_;
    SteeringAppend(t.messages, new_);
    ConcatAssoc(SteeringOf(s.db.before), SteeringOf(t.messages), SteeringOf(new_));
    forall m | m in t.messages + new_ ensures Together(m, PendingIds(s.known)) {
    }
  }

  lemma SaveStep(s: System, e: Event)
    requires Inv(s) && Enabled(s, e) && e.Save?
    ensures Inv(Next(s, e))
  {
    var t, db := s.turn.value, View(s);
    var kept := WithoutSteering(t.messages, Members(s.pending));
    DistinctSplit(SteeringOf(db.before), SteeringOf(t.messages));
    FilteredSteering(t.messages, Members(s.pending));
    DistinctJoin(SteeringOf(db.before), SteeringOf(kept));
    assert Settled(SteeringOf(db.before), db.records) by {
      assert forall id :: id in SteeringOf(db.before) ==> id in SteeringOf(db.before) + SteeringOf(db.row);
    }
    assert Settled(SteeringOf(kept), db.records);
    SettledTogether(kept, db.records);
  }

  /** Cancelled before memory knew the record: it waits unseen until the next load. */
  lemma QueueCutStep(s: System, e: Event)
    requires Inv(s) && Enabled(s, e) && e.QueueCut?
    ensures Inv(Next(s, e))
  {
    var r := Record(e.id, e.content, e.profile, Pending);
    RecordsSnoc(s.db.records, r);
    DistinctSnoc(RecordIds(s.db.records), e.id);
    UnknownBehind(s.known, s.db.records, r);
    assert View(Next(s, e)) == View(s);
  }

  lemma UnknownBehind(known: seq<Record>, stored: seq<Record>, r: Record)
    requires Behind(known, stored) && r.id !in RecordIds(known)
    ensures Behind(known, stored + [r])
  {
    RecordsSnoc(stored, r);
    WithinSnoc(RecordIds(stored), r.id, Members(RecordIds(known)));
  }

  lemma WithinSnoc(ids: seq<string>, id: string, keep: set<string>)
    ensures Within(ids + [id], keep) == Within(ids, keep) + (if id in keep then [id] else [])
  {
    assert (ids + [id])[..|ids|] == ids;
  }

  lemma {:induction false} WithinMore(ids: seq<string>, keep: set<string>, id: string)
    requires id !in ids
    ensures Within(ids, keep + {id}) == Within(ids, keep)
  {
    if ids != [] {
      assert ids[|ids| - 1] in ids;
      WithinMore(ids[..|ids| - 1], keep, id);
    }
  }

  lemma QueuedBehind(known: seq<Record>, stored: seq<Record>, r: Record)
    requires Behind(known, stored) && r.id !in RecordIds(stored) && r.status == Pending
    ensures Behind(known + [r], stored + [r])
  {
    var keep := Members(RecordIds(known));
    RecordsSnoc(known, r);
    RecordsSnoc(stored, r);
    assert Members(RecordIds(known + [r])) == keep + {r.id};
    WithinSnoc(RecordIds(stored), r.id, keep + {r.id});
    WithinMore(RecordIds(stored), keep, r.id);
    PendingAreRecords(stored);
  }

  lemma MarkedBehind(known: seq<Record>, stored: seq<Record>, ids: set<string>)
    requires Behind(known, stored)
    ensures Behind(Mark(known, ids), Mark(stored, ids)) && Behind(known, Mark(stored, ids))
  {
    MarkPending(known, ids);
    MarkPending(stored, ids);
  }

  /** Cancelled before memory took the records for acknowledged: they will be sent again. */
  lemma AckCutStep(s: System)
    requires Inv(s) && Enabled(s, AckCut)
    ensures Inv(Next(s, AckCut))
  {
    var consumed := s.turn.value.run.value.policy.consumed;
    MarkedDistinct(s.db.records, consumed);
    MarkedBehind(s.known, s.db.records, consumed);
    EndRunStep(s);
  }

  /** What the stored history carries is acknowledged in the store as well. */
  lemma StoredIsOk(s: System)
    requires Inv(s)
    ensures DbOk(s.db)
  {
  }

  lemma ReloadStep(s: System)
    requires Inv(s) && Enabled(s, Reload)
    ensures Inv(Next(s, Reload))
  {
    var ids := RecordIds(s.db.records);
    WithinAll(ids, Members(ids));
  }

  /** Every step keeps the invariant. */
  lemma StepIsSafe(s: System, e: Event)
    requires Inv(s) && Enabled(s, e)
    ensures Inv(Next(s, e))
  {
    match e
    case Queue(_, _, _) => QueueStep(s, e);
    case QueueCut(_, _, _) => QueueCutStep(s, e);
    case StartTurn(_) => StartTurnStep(s, e);
    case StartRun => StartRunStep(s, e);
    case Enqueue(_, _) => EnqueueStep(s, e);
    case Insert(_, _) => InsertStep(s, e);
    case Respond(_) => RespondStep(s, e);
    case RequestCompleted => CompletedStep(s, e);
    case AckCut => AckCutStep(s);
    case EndRun => EndRunStep(s);
    case Save => SaveStep(s, e);
    case EndTurn =>
    case Crash => StoredIsOk(s);
    case Reload => ReloadStep(s);
  }

  lemma {:induction false} RunsAreSafe(s: System, events: seq<Event>, s': System)
    requires Inv(s) && Runs(s, events, s')
    ensures Inv(s')
    decreases |events|
  {
    if events != [] {
      StepIsSafe(s, events[0]);
      RunsAreSafe(Next(s, events[0]), events[1..], s');
    }
  }

  // ---------------------------------------------------------------- main results

  /** Stored as pending, but unknown to memory; and acknowledged in the store alone. */
  predicate Hidden(s: System, id: string) { s.Up? && id in PendingIds(s.db.records) && id !in s.pending }

  predicate Stale(s: System, id: string) { s.Up? && id in s.pending && id !in PendingIds(s.db.records) }

  /** In every reachable state the pending list is that of the records memory knows. It is
      the list of all stored records whose status is pending, in the order they were
      queued, if and only if no record is hidden and none is stale. */
  lemma PendingListIsExact(s: System, events: seq<Event>, s': System)
    requires Inv(s) && Runs(s, events, s') && s'.Up?
    ensures forall id :: id in RecordIndex(s'.known) ==> (id in s'.pending <==> RecordIndex(s'.known)[id].status == Pending)
    ensures s'.pending == PendingIds(s'.db.records) <==> forall id :: !Hidden(s', id) && !Stale(s', id)
  {
    RunsAreSafe(s, events, s');
    forall id | id in RecordIndex(s'.known) ensures id in s'.pending <==> RecordIndex(s'.known)[id].status == Pending {
      PendingIsStatus(s'.known, id);
    }
    if forall id :: !Hidden(s', id) && !Stale(s', id) {
      assert forall id :: id in s'.pending <==> id in PendingIds(s'.db.records) by {
        forall id ensures id in s'.pending <==> id in PendingIds(s'.db.records) {
          assert !Hidden(s', id) && !Stale(s', id);
        }
      }
      SamePending(s'.known, s'.db.records);
    }
  }

  lemma {:induction false} PendingAreWithin(records: seq<Record>, pending: set<string>)
    requires DistinctRecords(records) && forall id :: id in RecordIds(records) ==> (id in pending <==> id in PendingIds(records))
    ensures PendingIds(records) == Within(RecordIds(records), pending)
  {
    if records != [] {
      var front, r := records[..|records| - 1], records[|records| - 1];
      assert records == front + [r];
      RecordsSnoc(front, r);
      DistinctSnoc(RecordIds(front), r.id);
      PendingAreRecords(front);
      WithinSnoc(RecordIds(front), r.id, pending);
      PendingAreWithin(front, pending);
    }
  }

  lemma SamePending(known: seq<Record>, stored: seq<Record>)
    requires Behind(known, stored) && DistinctRecords(known) && DistinctRecords(stored)
    requires forall id :: id in PendingIds(known) <==> id in PendingIds(stored)
    ensures PendingIds(known) == PendingIds(stored)
  {
    var pending := Members(PendingIds(stored));
    PendingAreRecords(known);
    PendingAreWithin(known, pending);
    PendingAreWithin(stored, pending);
    WithinWithin(RecordIds(stored), Members(RecordIds(known)), pending);
  }

  /** The record was queued by a request that was cancelled, and no load has come since. */
  predicate QueueCutSinceLoad(events: seq<Event>, id: string) {
    events != [] &&
    (QueueCutSinceLoad(events[1..], id) || (events[0].QueueCut? && events[0].id == id && Crash !in events[1..]))
  }

  lemma CrashInFront(events: seq<Event>)
    requires events != []
    ensures Crash in events <==> events[0].Crash? || Crash in events[1..]
  {
    assert events == [events[0]] + events[1..];
  }

  lemma HiddenStep(s: System, e: Event, id: string)
    requires Inv(s) && Enabled(s, e)
    ensures Hidden(Next(s, e), id) <==> (Hidden(s, id) && !e.Crash?) || (e.QueueCut? && e.id == id)
  {
    match e
    case Queue(_, _, _) | QueueCut(_, _, _) =>
      QueueOf(s, e);
      HiddenQueue(s, e, id);
    case RequestCompleted | AckCut =>
      AckOf(s, id);
      HiddenAck(s, e, id);
    case _ =>
  }

  /** An acknowledgement is of records that memory has pending. */
  lemma CompletedPending(s: System)
    requires Inv(s) && Running(s)
    ensures var consumed := s.turn.value.run.value.policy.consumed;
            && PendingIds(Mark(s.db.records, consumed)) == Without(PendingIds(s.db.records), consumed)
            && (forall id :: id in consumed ==> id in s.pending && id in RecordIds(s.db.records) && id in SteeringOf(s.turn.value.run.value.new_))
  {
    MarkedDistinct(s.db.records, s.turn.value.run.value.policy.consumed);
    var run := s.turn.value.run.value;
    forall id | id in run.policy.consumed ensures id in s.pending && id in RecordIds(s.db.records) && id in SteeringOf(run.new_) {
      assert id in SteeringOf(run.new_) && id in run.policy.inflight;
    }
  }

  /** What an acknowledgement does to one record. */
  ghost predicate AckFacts(s: System, id: string)
    requires Running(s)
  {
    var run := s.turn.value.run.value;
    var marked := Mark(s.db.records, run.policy.consumed);
    && RecordIds(marked) == RecordIds(s.db.records)
    && (id in PendingIds(marked) <==> id in PendingIds(s.db.records) && id !in run.policy.consumed)
    && (id in run.policy.consumed ==> id in s.pending && id in RecordIds(s.db.records) && id in SteeringOf(run.new_))
  }

  lemma AckOf(s: System, id: string)
    requires Inv(s) && Running(s)
    ensures AckFacts(s, id)
  {
    CompletedPending(s);
    MarkedDistinct(s.db.records, s.turn.value.run.value.policy.consumed);
  }

  /** What queueing does to the stored records. */
  ghost predicate QueueFacts(s: System, e: Event)
    requires e.Queue? || e.QueueCut?
  {
    var records := s.db.records + [Record(e.id, e.content, e.profile, Pending)];
    && RecordIds(records) == RecordIds(s.db.records) + [e.id] && PendingIds(records) == PendingIds(s.db.records) + [e.id]
    && e.id !in PendingIds(s.db.records) && e.id !in RecordIds(s.db.records) && (s.Up? ==> e.id !in s.pending)
  }

  lemma QueueOf(s: System, e: Event)
    requires Inv(s) && Enabled(s, e) && (e.Queue? || e.QueueCut?)
    ensures QueueFacts(s, e)
  {
    RecordsSnoc(s.db.records, Record(e.id, e.content, e.profile, Pending));
    PendingAreRecords(s.db.records);
    PendingAreRecords(s.known);
  }

  lemma HiddenQueue(s: System, e: Event, id: string)
    requires (e.Queue? || e.QueueCut?) && QueueFacts(s, e) && Enabled(s, e)
    ensures Hidden(Next(s, e), id) <==> Hidden(s, id) || (e.QueueCut? && e.id == id)
  {
  }

  lemma StaleQueue(s: System, e: Event, id: string)
    requires (e.Queue? || e.QueueCut?) && QueueFacts(s, e) && Enabled(s, e)
    ensures Stale(Next(s, e), id) <==> Stale(s, id)
  {
  }

  lemma KeptQueue(s: System, e: Event, id: string)
    requires (e.Queue? || e.QueueCut?) && QueueFacts(s, e) && Enabled(s, e) && Kept(s, id)
    ensures Kept(Next(s, e), id)
  {
  }

  lemma LostQueue(s: System, e: Event, id: string)
    requires (e.Queue? || e.QueueCut?) && QueueFacts(s, e) && Enabled(s, e) && Lost(s, id)
    ensures Lost(Next(s, e), id)
  {
  }

  lemma HiddenAck(s: System, e: Event, id: string)
    requires Running(s) && AckFacts(s, id) && Enabled(s, e) && (e.RequestCompleted? || e.AckCut?)
    ensures Hidden(Next(s, e), id) <==> Hidden(s, id)
  {
  }

  lemma StaleAck(s: System, e: Event, id: string)
    requires Running(s) && AckFacts(s, id) && Enabled(s, e) && (e.RequestCompleted? || e.AckCut?)
    ensures Stale(Next(s, e), id) <==>
              if e.AckCut? then Stale(s, id) || id in s.turn.value.run.value.policy.consumed
              else Stale(s, id) && id !in s.turn.value.run.value.policy.consumed
  {
  }

  lemma KeptAck(s: System, e: Event, id: string)
    requires Running(s) && AckFacts(s, id) && Enabled(s, e) && (e.RequestCompleted? || e.AckCut?) && Kept(s, id)
    ensures Kept(Next(s, e), id)
  {
    SteeringAppend(s.turn.value.messages, s.turn.value.run.value.new_);
  }

  lemma LostAck(s: System, e: Event, id: string)
    requires Running(s) && AckFacts(s, id) && Enabled(s, e) && (e.RequestCompleted? || e.AckCut?) && Lost(s, id)
    ensures Lost(Next(s, e), id)
  {
    SteeringAppend(s.turn.value.messages, s.turn.value.run.value.new_);
  }

  /** A record is hidden if and only if the request that queued it was cancelled between
      the store and the memory, and the session has not been loaded since. */
  lemma {:induction false} HiddenExactly(s: System, events: seq<Event>, s': System, id: string)
    requires Inv(s) && Runs(s, events, s')
    ensures Hidden(s', id) <==> (Hidden(s, id) && Crash !in events) || QueueCutSinceLoad(events, id)
    decreases |events|
  {
    if events != [] {
      var next := Next(s, events[0]);
      StepIsSafe(s, events[0]);
      HiddenStep(s, events[0], id);
      HiddenExactly(next, events[1..], s', id);
      CrashInFront(events);
    }
  }

  lemma StaleStep(s: System, e: Event, id: string)
    requires Inv(s) && Enabled(s, e)
    ensures Stale(Next(s, e), id) <==>
              || (Stale(s, id) && !e.Crash? && !(e.RequestCompleted? && id in s.turn.value.run.value.policy.consumed))
              || (e.AckCut? && id in s.turn.value.run.value.policy.consumed)
  {
    match e
    case Queue(_, _, _) | QueueCut(_, _, _) =>
      QueueOf(s, e);
      StaleQueue(s, e, id);
    case RequestCompleted | AckCut =>
      AckOf(s, id);
      StaleAck(s, e, id);
    case _ =>
  }

  /** No acknowledgement of the run is cut. */
  lemma {:induction false} StaleOnlyByCut(s: System, events: seq<Event>, s': System, id: string)
    requires Inv(s) && Runs(s, events, s') && AckCut !in events && !Stale(s, id)
    ensures !Stale(s', id)
    decreases |events|
  {
    if events != [] {
      assert events[0] in events && AckCut !in events[1..];
      StepIsSafe(s, events[0]);
      StaleStep(s, events[0], id);
      StaleOnlyByCut(Next(s, events[0]), events[1..], s', id);
    }
  }

  /** Whatever was interrupted, the stored history never carries a pending record, and
      carries each record at most once. */
  lemma AtMostOnce(s: System, events: seq<Event>, s': System)
    requires Inv(s) && Runs(s, events, s')
    ensures var stored := SteeringOf(s'.db.before + s'.db.row);
            && Distinct(stored)
            && forall id :: id in stored ==>
                 id in RecordIds(s'.db.records) && id !in PendingIds(s'.db.records) && (s'.Up? ==> id !in s'.pending)
  {
    RunsAreSafe(s, events, s');
    StoredIsOk(s');
    SteeringAppend(s'.db.before, s'.db.row);
  }

  /** The records of one request are acknowledged together: in every reachable state they
      all wait in memory or none does, in the turn's messages and in the run's. */
  lemma AcknowledgedTogether(s: System, events: seq<Event>, s': System)
    requires Inv(s) && Runs(s, events, s') && s'.Up? && s'.turn.Some?
    ensures AllTogether(s'.turn.value.messages, s'.pending)
    ensures s'.turn.value.run.Some? ==> AllTogether(s'.turn.value.run.value.new_, s'.pending)
  {
    RunsAreSafe(s, events, s');
  }

  /** A model request that completes acknowledges everything the run's requests have carried,
      in memory and in the store, and nothing else. */
  lemma RequestAcknowledges(s: System, events: seq<Event>, s': System, id: string)
    requires Inv(s) && Runs(s, events, s') && Running(s')
    ensures var r, carried := Next(s', RequestCompleted), SteeringOf(s'.turn.value.run.value.new_);
            && (id in carried ==> id !in r.pending && id !in PendingIds(r.db.records) && id in RecordIds(r.db.records))
            && (id !in carried ==> (id in r.pending <==> id in s'.pending) && (id in PendingIds(r.db.records) <==> id in PendingIds(s'.db.records)))
  {
    RunsAreSafe(s, events, s');
    AckOf(s', id);
    if id in SteeringOf(s'.turn.value.run.value.new_) {
      CarriedIsKnown(s', id);
    }
    AckResult(s', id);
  }

  lemma AckResult(s: System, id: string)
    requires Running(s) && AckFacts(s, id)
    requires id in SteeringOf(s.turn.value.run.value.new_) ==>
               id in RecordIds(s.db.records)
               && (id !in s.turn.value.run.value.policy.consumed ==> id !in s.pending && id !in PendingIds(s.db.records))
    ensures var r, carried := Next(s, RequestCompleted), SteeringOf(s.turn.value.run.value.new_);
            && (id in carried ==> id !in r.pending && id !in PendingIds(r.db.records) && id in RecordIds(r.db.records))
            && (id !in carried ==> (id in r.pending <==> id in s.pending) && (id in PendingIds(r.db.records) <==> id in PendingIds(s.db.records)))
  {
  }

  lemma CarriedIsKnown(s: System, id: string)
    requires Inv(s) && Running(s) && id in SteeringOf(s.turn.value.run.value.new_)
    ensures id in RecordIds(s.db.records)
    ensures id !in s.turn.value.run.value.policy.consumed ==> id !in s.pending && id !in PendingIds(s.db.records)
  {
    var run := s.turn.value.run.value;
    assert id in run.policy.inflight && id in RecordIds(s.known);
  }

  // ---------------------------------------------------------------- what is acknowledged and lost

  predicate Acknowledged(s: System, id: string) { id in RecordIds(s.db.records) && id !in PendingIds(s.db.records) }

  predicate Stored(s: System, id: string) { id in SteeringOf(s.db.before) || id in SteeringOf(s.db.row) }

  /** The turn or its run still holds a request that carries the record. */
  predicate Carried(s: System, id: string) {
    s.Up? && s.turn.Some? &&
    (id in SteeringOf(s.turn.value.messages) || (Running(s) && id in SteeringOf(s.turn.value.run.value.new_)))
  }

  /** Memory will hand it to a run. */
  predicate Waits(s: System, id: string) { s.Up? && id in s.pending }

  predicate Kept(s: System, id: string) { Acknowledged(s, id) ==> Stored(s, id) || Carried(s, id) || Waits(s, id) }

  predicate Lost(s: System, id: string) { Acknowledged(s, id) && !Stored(s, id) && !Carried(s, id) && !Waits(s, id) }

  /** Acknowledged, and only in what a snapshot has still to write, that is in a turn's
      messages since its run ended or in those of the run itself; or acknowledged in the
      store alone. */
  predicate AtRisk(s: System, id: string) {
    && s.Up? && Acknowledged(s, id)
    && (|| id in s.pending
        || (s.turn.Some? && !s.turn.value.saved && id in SteeringOf(s.turn.value.messages) && id !in SteeringOf(s.db.row))
        || (Running(s) && id in SteeringOf(s.turn.value.run.value.new_)))
  }

  /** A crash of the run comes while the record is at risk. */
  predicate CrashesAtRisk(s: System, events: seq<Event>, id: string)
    decreases |events|
  {
    events != [] && Enabled(s, events[0]) &&
    ((events[0].Crash? && AtRisk(s, id)) || CrashesAtRisk(Next(s, events[0]), events[1..], id))
  }

  lemma KeptSave(s: System, id: string)
    requires Inv(s) && Enabled(s, Save) && Kept(s, id)
    ensures Kept(Next(s, Save), id)
  {
    var t, pending := s.turn.value, Members(s.pending);
    forall m | m in t.messages && m.Request?
      ensures (forall i :: i in m.steering ==> i in pending) || (forall i :: i in m.steering ==> i !in pending)
    {
      assert Together(m, s.pending);
    }
    if id in SteeringOf(t.messages) && id !in s.pending {
      FilteredMember(t.messages, pending, id);
    }
  }

  lemma KeptEnded(s: System, id: string)
    requires Inv(s) && Running(s) && Kept(s, id)
    ensures Kept(RunEnded(s), id)
  {
    SteeringAppend(s.turn.value.messages, s.turn.value.run.value.new_);
  }

  lemma KeptMessages(s: System, e: Event, id: string)
    requires Inv(s) && Enabled(s, e) && Kept(s, id) && (e.Insert? || e.Respond?)
    ensures Kept(Next(s, e), id)
  {
    var run := s.turn.value.run.value;
    match e
    case Insert(enqueueId, prompts) =>
      var m := Request(prompts, run.policy.enqueued[enqueueId]);
      SteeringSnoc(run.new_, m);
      HeldOn(s, Run(AfterInsert(run.policy, enqueueId), run.new_ + [m]), id);
    case Respond(messages) =>
      SteeringAppend(run.new_, messages);
      HeldOn(s, run.(new_ := run.new_ + messages), id);
  }

  lemma HeldOn(s: System, run: Run, id: string)
    requires Running(s) && Kept(s, id) && (id in SteeringOf(s.turn.value.run.value.new_) ==> id in SteeringOf(run.new_))
    ensures Kept(SetRun(s, run), id)
  {
  }

  lemma KeptStep(s: System, e: Event, id: string)
    requires Inv(s) && Enabled(s, e) && Kept(s, id) && !e.Crash?
    ensures Kept(Next(s, e), id)
  {
    match e
    case Insert(_, _) | Respond(_) => KeptMessages(s, e, id);
    case EndRun => KeptEnded(s, id);
    case RequestCompleted | AckCut =>
      AckOf(s, id);
      KeptAck(s, e, id);
    case Save => KeptSave(s, id);
    case Queue(_, _, _) | QueueCut(_, _, _) =>
      QueueOf(s, e);
      KeptQueue(s, e, id);
    case StartTurn(_) => SteeringAppend(s.db.before, s.db.row);
    case _ =>
  }

  /** A crash loses exactly what is at risk. */
  lemma CrashStep(s: System, id: string)
    requires Inv(s) && Enabled(s, Crash) && Kept(s, id)
    ensures Lost(Next(s, Crash), id) <==> AtRisk(s, id)
    ensures Kept(Next(s, Crash), id) <==> !AtRisk(s, id)
  {
    if AtRisk(s, id) {
      NotStored(s, id);
    } else {
      SafeIsStored(s, id);
    }
  }

  lemma SafeIsStored(s: System, id: string)
    requires Inv(s) && s.Up? && Kept(s, id) && !AtRisk(s, id)
    ensures Acknowledged(s, id) ==> Stored(s, id)
  {
  }

  lemma NotStored(s: System, id: string)
    requires Inv(s) && AtRisk(s, id)
    ensures !Stored(s, id)
  {
    if s.turn.Some? {
      var t := s.turn.value;
      DistinctSplit(SteeringOf(s.db.before), SteeringOf(t.messages));
      if Running(s) && id in SteeringOf(t.run.value.new_) {
        assert id in t.run.value.policy.inflight && id !in Base(s.db, t);
      }
    }
  }

  lemma InsertOf(s: System, enqueueId: nat, id: string)
    requires Inv(s) && Enabled(s, Insert(enqueueId, []))
    ensures id in s.turn.value.run.value.policy.enqueued[enqueueId] ==> id in s.pending
  {
    assert GroupOk(s.turn.value.run.value.policy.enqueued[enqueueId], s.pending, s.turn.value.run.value);
  }

  lemma LostMessages(s: System, e: Event, id: string)
    requires Enabled(s, e) && Lost(s, id) && (e.Insert? || e.Respond? || e.EndRun?)
    requires e.Insert? ==> id !in s.turn.value.run.value.policy.enqueued[e.enqueueId]
    ensures Lost(Next(s, e), id)
  {
    var run := s.turn.value.run.value;
    match e
    case Insert(enqueueId, prompts) => SteeringSnoc(run.new_, Request(prompts, run.policy.enqueued[enqueueId]));
    case Respond(messages) => SteeringAppend(run.new_, messages);
    case EndRun => SteeringAppend(s.turn.value.messages, run.new_);
  }

  /** What a snapshot carries the turn carried. */
  lemma SaveOf(s: System, id: string)
    requires Inv(s) && Enabled(s, Save)
    ensures var s' := Next(s, Save);
            && s'.db.before == s.db.before && s'.turn == Some(Turn(s'.db.row, true, None))
            && (id in SteeringOf(s'.db.row) ==> id in SteeringOf(s.turn.value.messages))
  {
    DistinctSplit(SteeringOf(s.db.before), SteeringOf(s.turn.value.messages));
    FilteredSteering(s.turn.value.messages, Members(s.pending));
  }

  lemma LostSave(s: System, id: string)
    requires Enabled(s, Save) && Lost(s, id) && (id in SteeringOf(Next(s, Save).db.row) ==> id in SteeringOf(s.turn.value.messages))
    ensures Lost(Next(s, Save), id)
  {
  }

  lemma LostStart(s: System, e: Event, id: string)
    requires Enabled(s, e) && e.StartTurn? && Lost(s, id)
    ensures Lost(Next(s, e), id)
  {
    SteeringAppend(s.db.before, s.db.row);
  }

  /** What is lost is never sent again. */
  lemma LostStep(s: System, e: Event, id: string)
    requires Inv(s) && Enabled(s, e) && Lost(s, id)
    ensures Lost(Next(s, e), id)
  {
    if e.Insert? || e.Respond? || e.EndRun? {
      if e.Insert? {
        InsertOf(s, e.enqueueId, id);
      }
      LostMessages(s, e, id);
    } else if e.RequestCompleted? || e.AckCut? {
      AckOf(s, id);
      LostAck(s, e, id);
    } else if e.Save? {
      SaveOf(s, id);
      LostSave(s, id);
    } else if e.Queue? || e.QueueCut? {
      QueueOf(s, e);
      LostQueue(s, e, id);
    } else {
      LostElse(s, e, id);
    }
  }

  lemma LostElse(s: System, e: Event, id: string)
    requires Enabled(s, e) && Lost(s, id)
    requires e.StartTurn? || e.StartRun? || e.Enqueue? || e.EndTurn? || e.Crash? || e.Reload?
    ensures Lost(Next(s, e), id)
  {
    if e.StartTurn? {
      LostStart(s, e, id);
    }
  }

  lemma {:induction false} LostForever(s: System, events: seq<Event>, s': System, id: string)
    requires Inv(s) && Lost(s, id) && Runs(s, events, s')
    ensures Lost(s', id)
    decreases |events|
  {
    if events != [] {
      StepIsSafe(s, events[0]);
      LostStep(s, events[0], id);
      LostForever(Next(s, events[0]), events[1..], s', id);
    }
  }

  /** Over every run an acknowledged record is lost, neither stored nor held by a turn nor
      waiting in memory, if and only if the process crashed while the record was at risk. */
  lemma {:induction false} LostExactly(s: System, events: seq<Event>, s': System, id: string)
    requires Inv(s) && Kept(s, id) && Runs(s, events, s')
    ensures Lost(s', id) <==> CrashesAtRisk(s, events, id)
    decreases |events|
  {
    if events != [] {
      var next := Next(s, events[0]);
      StepIsSafe(s, events[0]);
      if events[0].Crash? {
        CrashStep(s, id);
      } else {
        KeptStep(s, events[0], id);
      }
      if Lost(next, id) {
        LostForever(next, events[1..], s', id);
      } else {
        LostExactly(next, events[1..], s', id);
      }
    }
  }

  lemma {:induction false} NoCrashNoRisk(s: System, events: seq<Event>, id: string)
    requires Crash !in events
    ensures !CrashesAtRisk(s, events, id)
    decreases |events|
  {
    if events != [] && Enabled(s, events[0]) {
      assert events[0] in events && Crash !in events[1..];
      NoCrashNoRisk(Next(s, events[0]), events[1..], id);
    }
  }

  /** Without a crash nothing acknowledged is lost: between turns every acknowledged record
      is in the stored history, or memory hands it out again. The latter takes an
      acknowledgement that was cut. */
  lemma NothingLost(s: System, events: seq<Event>, s': System, id: string)
    requires Inv(s) && Kept(s, id) && Runs(s, events, s') && Crash !in events
    ensures Acknowledged(s', id) && (s'.Down? || s'.turn.None?) ==> id in SteeringOf(s'.db.before + s'.db.row) || Stale(s', id)
    ensures AckCut !in events && !Stale(s, id) ==> !Stale(s', id)
  {
    SteeringAppend(s'.db.before, s'.db.row);
    NoCrashNoRisk(s, events, id);
    LostExactly(s, events, s', id);
    if AckCut !in events && !Stale(s, id) {
      StaleOnlyByCut(s, events, s', id);
    }
  }

  lemma LostRun(s: System, id: string)
    requires Inv(s) && Running(s) && id in s.turn.value.run.value.policy.consumed
    ensures id in RecordIds(s.db.records) && id in SteeringOf(s.turn.value.run.value.new_) && id in s.pending
    ensures id !in SteeringOf(s.db.before) && id !in SteeringOf(s.db.row) && id !in SteeringOf(s.turn.value.messages)
  {
    var run := s.turn.value.run.value;
    CompletedPending(s);
    assert id in run.policy.inflight && id !in Base(s.db, s.turn.value);
  }

  /** A crash between the acknowledgement and the next snapshot does lose them: whatever the
      completed request carried is then no longer pending, and no row carries it. */
  lemma CrashLosesAcknowledged(s: System, id: string)
    requires Inv(s) && Running(s) && id in s.turn.value.run.value.policy.consumed
    ensures var s' := Next(Next(Next(s, RequestCompleted), Crash), Reload);
            && Runs(s, [RequestCompleted, Crash, Reload], s')
            && id in RecordIds(s'.db.records) && id !in s'.pending && id !in SteeringOf(s'.db.before + s'.db.row)
  {
    var completed := Next(s, RequestCompleted);
    LostRun(s, id);
    MarkedDistinct(s.db.records, s.turn.value.run.value.policy.consumed);
    SteeringAppend(s.db.before, s.db.row);
    ThreeSteps(s, RequestCompleted, completed, Crash, Next(completed, Crash), Reload, Next(Next(completed, Crash), Reload));
  }

  /** A snapshot leaves out a record that memory has pending. */
  lemma SaveLeavesOut(s: System, id: string)
    requires Inv(s) && Enabled(s, Save) && id in s.pending
    ensures id !in SteeringOf(Next(s, Save).db.row) && Next(s, Save).db.before == s.db.before
  {
    DistinctSplit(SteeringOf(s.db.before), SteeringOf(s.turn.value.messages));
    FilteredSteering(s.turn.value.messages, Members(s.pending));
  }

  lemma CutAndSaved(s: System, id: string) returns (saved: System)
    requires Inv(s) && Running(s) && id in s.turn.value.run.value.policy.consumed
    ensures Enabled(s, AckCut) && Enabled(Next(s, AckCut), Save) && saved == Next(Next(s, AckCut), Save)
    ensures id in saved.pending && id in RecordIds(saved.db.records) && id !in PendingIds(saved.db.records) && !Stored(saved, id)
  {
    var cut := Next(s, AckCut);
    LostRun(s, id);
    CompletedPending(s);
    AckOf(s, id);
    StepIsSafe(s, AckCut);
    SaveLeavesOut(cut, id);
    saved := Next(cut, Save);
  }

  /** And when the acknowledgement is cut, a crash loses them even after the turn was saved:
      the snapshot leaves out what memory still has pending, which the store has not. */
  lemma CrashLosesCut(s: System, id: string)
    requires Inv(s) && Running(s) && id in s.turn.value.run.value.policy.consumed
    ensures var saved := Next(Next(s, AckCut), Save);
            var s' := Next(Next(saved, Crash), Reload);
            && Runs(s, [AckCut] + [Save, Crash, Reload], s')
            && id in saved.pending && id in RecordIds(s'.db.records)
            && id !in s'.pending && id !in SteeringOf(s'.db.before + s'.db.row)
  {
    var cut := Next(s, AckCut);
    var saved := CutAndSaved(s, id);
    SteeringAppend(saved.db.before, saved.db.row);
    ThreeSteps(cut, Save, saved, Crash, Next(saved, Crash), Reload, Next(Next(saved, Crash), Reload));
    RunsFrom(s, AckCut, cut, [Save, Crash, Reload], Next(Next(saved, Crash), Reload));
  }

  lemma RunsFrom(s: System, e: Event, m: System, events: seq<Event>, s': System)
    requires Enabled(s, e) && Next(s, e) == m && Runs(m, events, s')
    ensures Runs(s, [e] + events, s')
  {
    assert ([e] + events)[1..] == events;
  }

  lemma TwoSteps(s: System, a: Event, m: System, b: Event, s': System)
    requires Enabled(s, a) && Next(s, a) == m && Enabled(m, b) && Next(m, b) == s'
    ensures Runs(s, [a, b], s')
  {
    RunsFrom(m, b, s', [], s');
    assert [b] + [] == [b];
    RunsFrom(s, a, m, [b], s');
    assert [a] + [b] == [a, b];
  }

  lemma ThreeSteps(s: System, a: Event, m: System, b: Event, n: System, c: Event, s': System)
    requires Enabled(s, a) && Next(s, a) == m && Enabled(m, b) && Next(m, b) == n && Enabled(n, c) && Next(n, c) == s'
    ensures Runs(s, [a, b, c], s')
  {
    TwoSteps(m, b, n, c, s');
    RunsFrom(s, a, m, [b, c], s');
    assert [a] + [b, c] == [a, b, c];
  }

  // ---------------------------------------------------------------- a run that loses a record

  const EMPTY: System := Up(Db([], [], []), [], [], None)

  /** A message is queued, a turn takes it in, the model request that carried it completes,
      and the process crashes before the turn's snapshot. */
  function LosingRun(id: string, content: string): seq<Event> {
    DeliveryRun(id, content) + [RequestCompleted, Crash, Reload]
  }

  function DeliveryRun(id: string, content: string): seq<Event> {
    [Queue(id, content, None), StartTurn(false), StartRun] + [Enqueue(None, 0), Insert(0, [PromptPart(content)])]
  }

  function Queued(id: string, content: string): Db { Db([Record(id, content, None, Pending)], [], []) }

  lemma OneRecord(id: string, content: string)
    ensures var records := Queued(id, content).records;
            RecordIds(records) == [id] == PendingIds(records) && Offered(records, None, {}) == [id]
  {
    var r := Record(id, content, None, Pending);
    RecordsSnoc([], r);
    assert [] + [r] == [r];
    assert Consumable([r], None) == [] + [r];
    assert RecordIds([r]) == [id];
    assert Without([id], {}) == Without([], {}) + [id];
  }

  lemma {:induction false} RunsJoin(s: System, a: seq<Event>, m: System, b: seq<Event>, s': System)
    requires Runs(s, a, m) && Runs(m, b, s')
    ensures Runs(s, a + b, s')
    decreases |a|
  {
    if a == [] {
      assert a + b == b;
    } else {
      RunsJoin(Next(s, a[0]), a[1..], m, b, s');
      AppendRest(a, b);
    }
  }

  lemma RunStarts(id: string, content: string)
    ensures Runs(EMPTY, [Queue(id, content, None), StartTurn(false), StartRun],
                 Up(Queued(id, content), Queued(id, content).records, [id], Some(Turn([], true, Some(Run(FreshPolicy, []))))))
  {
    var queued := Next(EMPTY, Queue(id, content, None));
    assert queued == Up(Queued(id, content), Queued(id, content).records, [id], None);
    var started := Next(queued, StartTurn(false));
    assert started == Up(Queued(id, content), Queued(id, content).records, [id], Some(Turn([], true, None)));
    ThreeSteps(EMPTY, Queue(id, content, None), queued, StartTurn(false), started, StartRun,
               Up(Queued(id, content), Queued(id, content).records, [id], Some(Turn([], true, Some(Run(FreshPolicy, []))))));
  }

  lemma RunTakesIn(id: string, content: string) returns (s': System)
    ensures Runs(Up(Queued(id, content), Queued(id, content).records, [id], Some(Turn([], true, Some(Run(FreshPolicy, []))))),
                 [Enqueue(None, 0), Insert(0, [PromptPart(content)])], s')
    ensures Running(s') && s'.turn.value.run.value.policy.consumed == {id}
  {
    var s := Up(Queued(id, content), Queued(id, content).records, [id], Some(Turn([], true, Some(Run(FreshPolicy, [])))));
    OneRecord(id, content);
    var m := Next(s, Enqueue(None, 0));
    s' := Next(m, Insert(0, [PromptPart(content)]));
    TwoSteps(s, Enqueue(None, 0), m, Insert(0, [PromptPart(content)]), s');
    assert AfterEnqueue(FreshPolicy, 0, [id]).enqueued == map[0 := [id]];
    assert s'.turn.value.run.value.policy.consumed == {} + Members([id]);
  }

  /** From an empty session: the message is acknowledged, no longer pending, and in no row. */
  lemma MessageIsLost(id: string, content: string) returns (s': System)
    ensures Runs(EMPTY, LosingRun(id, content), s')
    ensures s'.Up? && s'.turn.None? && id in RecordIds(s'.db.records)
    ensures id !in s'.pending && id !in SteeringOf(s'.db.before + s'.db.row)
  {
    RunStarts(id, content);
    var started := Up(Queued(id, content), Queued(id, content).records, [id], Some(Turn([], true, Some(Run(FreshPolicy, [])))));
    var s := RunTakesIn(id, content);
    RunsJoin(EMPTY, [Queue(id, content, None), StartTurn(false), StartRun], started,
             [Enqueue(None, 0), Insert(0, [PromptPart(content)])], s);
    RunsAreSafe(EMPTY, DeliveryRun(id, content), s);
    CrashLosesAcknowledged(s, id);
    s' := Next(Next(Next(s, RequestCompleted), Crash), Reload);
    RunsJoin(EMPTY, DeliveryRun(id, content), s, [RequestCompleted, Crash, Reload], s');
  }

  /** A message whose queueing is cancelled between the store and the memory: the next turn
      is not offered it; after the next load it waits in the list. */
  lemma CutMessageIsHidden(id: string, content: string)
    ensures var cut := Next(EMPTY, QueueCut(id, content, None));
            var loaded := Next(Next(cut, Crash), Reload);
            && Runs(EMPTY, [QueueCut(id, content, None), Crash, Reload], loaded)
            && Hidden(cut, id) && Offered(cut.known, None, {}) == [] && loaded.pending == [id]
  {
    var cut := Next(EMPTY, QueueCut(id, content, None));
    OneRecord(id, content);
    assert [] + [Record(id, content, None, Pending)] == Queued(id, content).records;
    ThreeSteps(EMPTY, QueueCut(id, content, None), cut, Crash, Next(cut, Crash), Reload, Next(Next(cut, Crash), Reload));
  }
}
