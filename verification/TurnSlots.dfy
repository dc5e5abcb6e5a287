/** Who may use a session: turns, host writes, voice leases and administrative mutations.

    A step is the code a task runs between two awaits; any tasks may interleave between
    steps. The admission lock serialises admissions, a turn or host write occupies the
    session's one slot, a voice call holds a lease, and an administrative operation marks a
    mutation, which the delete and repair routes do without taking the lock. */
module TurnSlots {
  import opened Basics

  type TaskId = nat
  type Lease = string

  // ---------------------------------------------------------------- what the service keeps

  /** What the service keeps of one session: the holder of its turn slot, its voice lease,
      whether a mutation is in progress, and how often it is pinned in the cache. */
  datatype Shared = Shared(slot: Option<TaskId>, lease: Option<Lease>, mutation: bool, pins: nat)

  const Unused := Shared(None, None, false, 0)

  predicate Available(s: Shared, lease: Option<Lease>) {
    !s.mutation && (s.lease.None? || s.lease == lease)
  }

  function Pinned(s: Shared): Shared { s.(pins := s.pins + 1) }

  function Unpinned(s: Shared): Shared { s.(pins := if s.pins > 0 then s.pins - 1 else 0) }

  /** A turn takes the free slot. */
  function AdmitTurn(s: Shared, task: TaskId): Shared { Pinned(s.(slot := Some(task))) }

  function FinishSlot(s: Shared, task: TaskId): Shared {
    if s.slot == Some(task) then Unpinned(s.(slot := None)) else s
  }

  /** A host write takes the slot, unpinned: it holds the admission lock while it writes. */
  function HoldSlot(s: Shared, task: TaskId): Shared { s.(slot := Some(task)) }

  function ReleaseHold(s: Shared, task: TaskId): Shared {
    if s.slot == Some(task) then s.(slot := None) else s
  }

  predicate Reservable(s: Shared) { Available(s, None) && s.slot.None? }

  function ReserveFor(s: Shared, lease: Lease): Shared { Pinned(s.(lease := Some(lease))) }

  function ReleaseLease(s: Shared, lease: Lease): Shared {
    if s.lease == Some(lease) then Unpinned(s.(lease := None)) else s
  }

  // ---------------------------------------------------------------- the tasks of a session

  /** What a task is here for. A stream may come from the holder of a lease; an ordinary one
      cancels the turn it waits behind; an owner change takes the lock, a route does not. */
  datatype Kind =
    | Stream(lease: Option<Lease>, ordinary: bool)
    | HostAppend
    | Reserve(token: Lease)
    | OwnerChange
    | RouteMutation

  datatype Phase =
    | Queued(kind: Kind)
    | Authorizing(kind: Kind)
    | Draining(kind: Kind, previous: TaskId)
    | Running(under: Option<Lease>)
    | Writing
    | Calling(holds: Lease)
    | Mutating(locked: bool)
    | Over

  /** One session with its tasks: the admission lock, where each task is, the finished turns
      and writes, the turns asked to stop, and the post-turn jobs and agents that pin it. */
  datatype Session = Session(
    shared: Shared,
    lock: Option<TaskId>,
    tasks: map<TaskId, Phase>,
    finished: set<TaskId>,
    cancelled: set<TaskId>,
    jobs: nat,
    agents: nat)

  const NewSession := Session(Unused, None, map[], {}, {}, 0, 0)

  datatype Event =
    | Arrive(task: TaskId, kind: Kind)
    | Acquire(task: TaskId)
    | Proceed(task: TaskId)
    | BeginRoute(task: TaskId)
    | GiveUp(task: TaskId)
    | Drained(task: TaskId)
    | FinishTurn(task: TaskId)
    | FinishWrite(task: TaskId)
    | EndCall(task: TaskId)
    | EndMutation(task: TaskId)
    | StartJob(task: TaskId)
    | FinishJob
    | PinAgent
    | UnpinAgent

  predicate In(s: Session, task: TaskId, phase: Phase) { task in s.tasks && s.tasks[task] == phase }

  function Move(s: Session, task: TaskId, phase: Phase): Session { s.(tasks := s.tasks[task := phase]) }

  predicate Enabled(s: Session, e: Event) {
    match e
    case Arrive(task, _) => task !in s.tasks
    case Acquire(task) =>
      s.lock.None? && task in s.tasks && s.tasks[task].Queued? && !s.tasks[task].kind.RouteMutation?
    case Proceed(task) => task in s.tasks && s.tasks[task].Authorizing?
    case BeginRoute(task) => In(s, task, Queued(RouteMutation))
    case GiveUp(task) =>
      task in s.tasks && (s.tasks[task].Queued? || s.tasks[task].Authorizing? || s.tasks[task].Draining?)
    case Drained(task) => task in s.tasks && s.tasks[task].Draining? && s.tasks[task].previous in s.finished
    case FinishTurn(task) => task in s.tasks && s.tasks[task].Running?
    case FinishWrite(task) => In(s, task, Writing)
    case EndCall(task) => task in s.tasks && s.tasks[task].Calling?
    case EndMutation(task) => task in s.tasks && s.tasks[task].Mutating?
    case StartJob(task) => task in s.tasks && s.tasks[task].Running?
    case FinishJob => s.jobs > 0
    case PinAgent => true
    case UnpinAgent => s.agents > 0
  }

  /** The lock is taken; what runs before the first await under it. */
  function Acquired(s: Session, task: TaskId): Session
    requires task in s.tasks && s.tasks[task].Queued?
  {
    var kind := s.tasks[task].kind;
    match kind
    case Stream(_, _) => Move(s, task, Authorizing(kind)).(lock := Some(task))
    case HostAppend =>
      if Available(s.shared, None) then Move(s, task, Authorizing(kind)).(lock := Some(task)) else Move(s, task, Over)
    case Reserve(token) =>
      if Reservable(s.shared) then Move(s, task, Calling(token)).(shared := ReserveFor(s.shared, token))
      else Move(s, task, Over)
    case OwnerChange =>
      if Available(s.shared, None) then
        Move(s, task, Mutating(true)).(shared := s.shared.(mutation := true), lock := Some(task))
      else Move(s, task, Over)
    case RouteMutation => s
  }

  /** The authorization has come back, the lock is still held. */
  function Proceeded(s: Session, task: TaskId): Session
    requires task in s.tasks && s.tasks[task].Authorizing?
  {
    var kind := s.tasks[task].kind;
    match kind
    case Stream(lease, ordinary) =>
      if !Available(s.shared, lease) then Move(s, task, Over).(lock := None)
      else if s.shared.slot.None? then
        Move(s, task, Running(lease)).(shared := AdmitTurn(s.shared, task), lock := None)
      else
        Move(s, task, Draining(kind, s.shared.slot.value))
          .(lock := None, cancelled := s.cancelled + (if ordinary then {s.shared.slot.value} else {}))
    case HostAppend =>
      if s.shared.slot.Some? then Move(s, task, Over).(lock := None)
      else Move(s, task, Writing).(shared := HoldSlot(s.shared, task))
    case _ => s
  }

  function Next(s: Session, e: Event): Session
    requires Enabled(s, e)
  {
    match e
    case Arrive(task, kind) => Move(s, task, Queued(kind))
    case Acquire(task) => Acquired(s, task)
    case Proceed(task) => Proceeded(s, task)
    case BeginRoute(task) =>
      if Available(s.shared, None) then Move(s, task, Mutating(false)).(shared := s.shared.(mutation := true))
      else Move(s, task, Over)
    case GiveUp(task) => Move(s, task, Over).(lock := if s.lock == Some(task) then None else s.lock)
    case Drained(task) => Move(s, task, Queued(s.tasks[task].kind))
    case FinishTurn(task) =>
      Move(s, task, Over).(finished := s.finished + {task}, shared := FinishSlot(s.shared, task))
    case FinishWrite(task) =>
      Move(s, task, Over).(finished := s.finished + {task}, lock := None, shared := ReleaseHold(s.shared, task))
    case EndCall(task) => Move(s, task, Over).(shared := ReleaseLease(s.shared, s.tasks[task].holds))
    case EndMutation(task) =>
      Move(s, task, Over).(shared := s.shared.(mutation := false), lock := if s.tasks[task].locked then None else s.lock)
    case StartJob(_) => s.(jobs := s.jobs + 1, shared := Pinned(s.shared))
    case FinishJob => s.(jobs := s.jobs - 1, shared := Unpinned(s.shared))
    case PinAgent => s.(agents := s.agents + 1, shared := Pinned(s.shared))
    case UnpinAgent => s.(agents := s.agents - 1, shared := Unpinned(s.shared))
  }

  predicate Runs(s: Session, events: seq<Event>, s': Session)
    decreases |events|
  {
    if events == [] then s' == s
    else Enabled(s, events[0]) && Runs(Next(s, events[0]), events[1..], s')
  }

  // ---------------------------------------------------------------- the invariant

  predicate InSlot(phase: Phase) { phase.Running? || phase.Writing? }

  predicate Locking(phase: Phase) { phase.Authorizing? || phase.Writing? || (phase.Mutating? && phase.locked) }

  /** The lock's holder is the one task that is past its acquisition. */
  predicate LockOk(s: Session) {
    && (s.lock.Some? ==> s.lock.value in s.tasks && Locking(s.tasks[s.lock.value]))
    && (forall t :: t in s.tasks && Locking(s.tasks[t]) ==> s.lock == Some(t))
    && (forall t :: t in s.tasks && s.tasks[t].Authorizing? ==> s.tasks[t].kind.Stream? || s.tasks[t].kind.HostAppend?)
  }

  /** The slot's holder is the one running turn or host write; the others have finished. */
  predicate SlotOk(s: Session) {
    && (s.shared.slot.Some? ==> s.shared.slot.value in s.tasks && InSlot(s.tasks[s.shared.slot.value]))
    && (forall t :: t in s.tasks && InSlot(s.tasks[t]) ==> s.shared.slot == Some(t))
    && (forall t :: t in s.finished ==> t in s.tasks && s.tasks[t] == Over)
  }

  /** Whom a task waits for has finished, or still holds the slot: no wait is forever. */
  predicate WaitOk(s: Session) {
    forall t :: t in s.tasks && s.tasks[t].Draining? ==>
      s.tasks[t].previous in s.finished || s.shared.slot == Some(s.tasks[t].previous)
  }

  /** There is one call at most, and it holds the lease; likewise for mutations. */
  predicate HoldersOk(s: Session) {
    && (forall t :: t in s.tasks && s.tasks[t].Calling? ==> s.shared.lease == Some(s.tasks[t].holds))
    && (forall t, u :: t in s.tasks && u in s.tasks && s.tasks[t].Calling? && s.tasks[u].Calling? ==> t == u)
    && (forall t :: t in s.tasks && s.tasks[t].Mutating? ==> s.shared.mutation)
    && (forall t, u :: t in s.tasks && u in s.tasks && s.tasks[t].Mutating? && s.tasks[u].Mutating? ==> t == u)
  }

  /** Lease, mutation and slot exclude each other as promised. */
  predicate ExclusionOk(s: Session) {
    && !(s.shared.lease.Some? && s.shared.mutation)
    && (forall t :: t in s.tasks && s.tasks[t].Running? && s.shared.lease.Some? ==> s.tasks[t].under == s.shared.lease)
    && (forall t :: t in s.tasks && (s.tasks[t].Writing? || s.tasks[t] == Authorizing(HostAppend)) ==> s.shared.lease.None?)
  }

  function Count(b: bool): nat { if b then 1 else 0 }

  predicate TurnInSlot(s: Session) {
    s.shared.slot.Some? && s.shared.slot.value in s.tasks && s.tasks[s.shared.slot.value].Running?
  }

  /** The pin count is the number of live holders. */
  predicate PinsOk(s: Session) {
    s.shared.pins == Count(TurnInSlot(s)) + Count(s.shared.lease.Some?) + s.jobs + s.agents
  }

  predicate Inv(s: Session) {
    LockOk(s) && SlotOk(s) && WaitOk(s) && HoldersOk(s) && ExclusionOk(s) && PinsOk(s)
  }

  lemma StartsSafe()
    ensures Inv(NewSession)
  {
  }

  /** The steps that take something: the lock, the slot, a lease or a mutation. */
  predicate Takes(e: Event) { e.Acquire? || e.Proceed? || e.BeginRoute? }

  lemma LockTaken(s: Session, e: Event)
    requires LockOk(s) && Enabled(s, e) && Takes(e)
    ensures LockOk(Next(s, e))
  {
  }

  lemma LockGiven(s: Session, e: Event)
    requires LockOk(s) && Enabled(s, e) && !Takes(e)
    ensures LockOk(Next(s, e))
  {
  }

  lemma SlotProceeds(s: Session, e: Event)
    requires LockOk(s) && SlotOk(s) && Enabled(s, e) && e.Proceed?
    ensures SlotOk(Next(s, e))
  {
  }

  lemma SlotTaken(s: Session, e: Event)
    requires LockOk(s) && SlotOk(s) && Enabled(s, e) && (e.Acquire? || e.BeginRoute?)
    ensures SlotOk(Next(s, e))
  {
  }

  lemma SlotGiven(s: Session, e: Event)
    requires LockOk(s) && SlotOk(s) && Enabled(s, e) && !Takes(e)
    ensures SlotOk(Next(s, e))
  {
  }

  lemma WaitStep(s: Session, e: Event)
    requires LockOk(s) && SlotOk(s) && WaitOk(s) && Enabled(s, e)
    ensures WaitOk(Next(s, e))
  {
  }

  lemma HoldersAcquired(s: Session, e: Event)
    requires LockOk(s) && HoldersOk(s) && Enabled(s, e) && e.Acquire?
    ensures HoldersOk(Next(s, e))
  {
  }

  lemma HoldersTaken(s: Session, e: Event)
    requires LockOk(s) && HoldersOk(s) && Enabled(s, e) && (e.Proceed? || e.BeginRoute?)
    ensures HoldersOk(Next(s, e))
  {
  }

  lemma HoldersGiven(s: Session, e: Event)
    requires LockOk(s) && HoldersOk(s) && Enabled(s, e) && !Takes(e)
    ensures HoldersOk(Next(s, e))
  {
  }

  lemma ExclusionAcquired(s: Session, e: Event)
    requires LockOk(s) && SlotOk(s) && ExclusionOk(s) && Enabled(s, e) && e.Acquire?
    ensures ExclusionOk(Next(s, e))
  {
  }

  lemma ExclusionTaken(s: Session, e: Event)
    requires LockOk(s) && SlotOk(s) && ExclusionOk(s) && Enabled(s, e) && (e.Proceed? || e.BeginRoute?)
    ensures ExclusionOk(Next(s, e))
  {
  }

  lemma ExclusionGiven(s: Session, e: Event)
    requires LockOk(s) && SlotOk(s) && ExclusionOk(s) && Enabled(s, e) && !Takes(e)
    ensures ExclusionOk(Next(s, e))
  {
  }

  lemma PinsProceed(s: Session, e: Event)
    requires LockOk(s) && SlotOk(s) && PinsOk(s) && Enabled(s, e) && e.Proceed?
    ensures PinsOk(Next(s, e))
  {
  }

  lemma PinsTaken(s: Session, e: Event)
    requires LockOk(s) && SlotOk(s) && PinsOk(s) && Enabled(s, e) && (e.Acquire? || e.BeginRoute?)
    ensures PinsOk(Next(s, e))
  {
  }

  lemma PinsGiven(s: Session, e: Event)
    requires SlotOk(s) && HoldersOk(s) && PinsOk(s) && Enabled(s, e) && !Takes(e)
    ensures PinsOk(Next(s, e))
  {
  }

  /** Every step keeps the invariant. */
  lemma StepIsSafe(s: Session, e: Event)
    requires Inv(s) && Enabled(s, e)
    ensures Inv(Next(s, e))
  {
    WaitStep(s, e);
    if Takes(e) {
      LockTaken(s, e);
      match e
      case Acquire(_) => SlotTaken(s, e); HoldersAcquired(s, e); ExclusionAcquired(s, e); PinsTaken(s, e);
      case Proceed(_) => SlotProceeds(s, e); HoldersTaken(s, e); ExclusionTaken(s, e); PinsProceed(s, e);
      case BeginRoute(_) => SlotTaken(s, e); HoldersTaken(s, e); ExclusionTaken(s, e); PinsTaken(s, e);
    } else {
      LockGiven(s, e);
      SlotGiven(s, e);
      HoldersGiven(s, e);
      ExclusionGiven(s, e);
      PinsGiven(s, e);
    }
  }

  lemma {:induction false} RunsAreSafe(s: Session, events: seq<Event>, s': Session)
    requires Inv(s) && Runs(s, events, s')
    ensures Inv(s')
    decreases |events|
  {
    if events != [] {
      StepIsSafe(s, events[0]);
      RunsAreSafe(Next(s, events[0]), events[1..], s');
    }
  }

  // ---------------------------------------------------------------- main results

  /** Under every interleaving: at most one turn or host write is in progress; a running
      turn of a leased session was admitted under that lease; a lease and a mutation never
      coexist, nor do a lease and a host write. */
  lemma TurnsExclude(start: Session, events: seq<Event>, s: Session)
    requires Inv(start) && Runs(start, events, s)
    ensures forall t, u :: t in s.tasks && u in s.tasks && InSlot(s.tasks[t]) && InSlot(s.tasks[u]) ==> t == u
    ensures forall t :: t in s.tasks && s.tasks[t].Running? && s.shared.lease.Some? ==> s.tasks[t].under == s.shared.lease
    ensures !(s.shared.lease.Some? && s.shared.mutation)
    ensures forall t :: t in s.tasks && s.tasks[t].Writing? ==> s.shared.lease.None?
  {
    RunsAreSafe(start, events, s);
    forall t, u | t in s.tasks && u in s.tasks && InSlot(s.tasks[t]) && InSlot(s.tasks[u]) ensures t == u {
      assert s.shared.slot == Some(t) && s.shared.slot == Some(u);
    }
  }

  /** The pin count equals the live holders, under every interleaving. */
  lemma PinsAreConserved(start: Session, events: seq<Event>, s: Session)
    requires Inv(start) && Runs(start, events, s)
    ensures s.shared.pins == Count(TurnInSlot(s)) + Count(s.shared.lease.Some?) + s.jobs + s.agents
  {
    RunsAreSafe(start, events, s);
  }

  /** A turn is admitted only into a free session: no mutation is in progress, no lease but
      its own is held, and every turn and write admitted before has finished. */
  lemma AdmissionIsExclusive(start: Session, events: seq<Event>, s: Session, task: TaskId)
    requires Inv(start) && Runs(start, events, s) && Enabled(s, Proceed(task)) && Next(s, Proceed(task)).tasks[task].Running?
    ensures !s.shared.mutation && (s.shared.lease.Some? ==> s.shared.lease == Next(s, Proceed(task)).tasks[task].under)
    ensures forall t :: t in s.tasks ==> !InSlot(s.tasks[t]) && !s.tasks[t].Mutating?
  {
    RunsAreSafe(start, events, s);
  }

  // ---------------------------------------------------------------- who gets in

  predicate IsCalling(s: Session, task: TaskId) { task in s.tasks && s.tasks[task].Calling? }

  predicate IsMutating(s: Session, task: TaskId) { task in s.tasks && s.tasks[task].Mutating? }

  /** Some task is in the middle of a mutation; some voice call goes on under a lease that is
      not `lease`; some turn or host write is in progress. */
  ghost predicate SomeMutation(s: Session) { exists t :: IsMutating(s, t) }

  ghost predicate SomeCallBut(s: Session, lease: Option<Lease>) { exists t :: IsCalling(s, t) && lease != Some(s.tasks[t].holds) }

  ghost predicate SomeInSlot(s: Session) { exists t :: t in s.tasks && InSlot(s.tasks[t]) }

  lemma HoldersAre(start: Session, events: seq<Event>, s: Session, lease: Option<Lease>)
    requires Inv(start) && NotLeaked(start) && Runs(start, events, s)
    ensures s.shared.mutation <==> SomeMutation(s)
    ensures s.shared.lease.Some? && s.shared.lease != lease <==> SomeCallBut(s, lease)
    ensures s.shared.slot.Some? <==> SomeInSlot(s)
  {
    RunsAreSafe(start, events, s);
    NothingIsLeaked(start, events, s);
    if s.shared.lease.Some? {
      var t :| IsCalling(s, t);
      assert s.shared.lease == Some(s.tasks[t].holds);
    }
    if s.shared.mutation {
      var t :| IsMutating(s, t);
    }
  }

  /** Nothing changes but the task and, perhaps, the lock. */
  predicate OnlyTask(s: Session, s': Session, task: TaskId, phase: Phase) {
    s'.tasks == s.tasks[task := phase] && s'.shared == s.shared && s'.finished == s.finished
  }

  /** An authorized stream is refused if and only if a mutation is in progress or a call
      under another lease than its own. Otherwise it runs, if the slot is free, and waits for
      the turn or write in the slot, if it is not; an ordinary one asks that one to stop. */
  lemma StreamGetsIn(start: Session, events: seq<Event>, s: Session, task: TaskId, lease: Option<Lease>, ordinary: bool)
    requires Inv(start) && NotLeaked(start) && Runs(start, events, s) && In(s, task, Authorizing(Stream(lease, ordinary)))
    ensures var s', refused := Next(s, Proceed(task)), SomeMutation(s) || SomeCallBut(s, lease);
            && s'.lock.None?
            && (In(s', task, Over) <==> refused) && (refused ==> OnlyTask(s, s', task, Over) && s'.cancelled == s.cancelled)
            && (In(s', task, Running(lease)) <==> !refused && !SomeInSlot(s))
            && (!refused && !SomeInSlot(s) ==>
                  s'.shared == s.shared.(slot := Some(task), pins := s.shared.pins + 1) && s'.cancelled == s.cancelled)
            && (!refused && SomeInSlot(s) ==>
                  && s.shared.slot.Some? && OnlyTask(s, s', task, Draining(Stream(lease, ordinary), s.shared.slot.value))
                  && s'.cancelled == if ordinary then s.cancelled + {s.shared.slot.value} else s.cancelled)
  {
    HoldersAre(start, events, s, lease);
  }

  /** A host write passes its check if and only if there is neither a mutation nor a call,
      and then holds the slot if and only if that is free. */
  lemma HostWriteGetsIn(start: Session, events: seq<Event>, s: Session, task: TaskId)
    requires Inv(start) && NotLeaked(start) && Runs(start, events, s)
    ensures In(s, task, Queued(HostAppend)) && Enabled(s, Acquire(task)) ==>
              var s', refused := Next(s, Acquire(task)), SomeMutation(s) || SomeCallBut(s, None);
              In(s', task, if refused then Over else Authorizing(HostAppend)) && s'.shared == s.shared
    ensures In(s, task, Authorizing(HostAppend)) ==>
              var s' := Next(s, Proceed(task));
              if SomeInSlot(s) then OnlyTask(s, s', task, Over) && s'.lock.None?
              else In(s', task, Writing) && s'.shared == s.shared.(slot := Some(task)) && s'.lock == s.lock
  {
    HoldersAre(start, events, s, None);
  }

  /** A voice call gets its lease if and only if there is no mutation, no call, and neither a
      turn nor a host write; an owner change or a route marks its mutation if and only if
      there is neither a mutation nor a call. */
  lemma OthersGetIn(start: Session, events: seq<Event>, s: Session, task: TaskId, token: Lease)
    requires Inv(start) && NotLeaked(start) && Runs(start, events, s)
    ensures In(s, task, Queued(Reserve(token))) && Enabled(s, Acquire(task)) ==>
              var s' := Next(s, Acquire(task));
              if SomeMutation(s) || SomeCallBut(s, None) || SomeInSlot(s) then OnlyTask(s, s', task, Over)
              else In(s', task, Calling(token)) && s'.shared == s.shared.(lease := Some(token), pins := s.shared.pins + 1)
    ensures In(s, task, Queued(OwnerChange)) && Enabled(s, Acquire(task)) ==>
              var s' := Next(s, Acquire(task));
              if SomeMutation(s) || SomeCallBut(s, None) then OnlyTask(s, s', task, Over)
              else In(s', task, Mutating(true)) && s'.shared == s.shared.(mutation := true) && s'.lock == Some(task)
    ensures In(s, task, Queued(RouteMutation)) ==>
              var s' := Next(s, BeginRoute(task));
              if SomeMutation(s) || SomeCallBut(s, None) then OnlyTask(s, s', task, Over)
              else In(s', task, Mutating(false)) && s'.shared == s.shared.(mutation := true) && s'.lock == s.lock
  {
    HoldersAre(start, events, s, None);
  }

  lemma {:induction false} FinishedGrows(s: Session, events: seq<Event>, s': Session)
    requires Runs(s, events, s')
    ensures s.finished <= s'.finished
    ensures forall t :: t in s.tasks && s.tasks[t] == Over ==> In(s', t, Over)
    decreases |events|
  {
    if events != [] {
      FinishedGrows(Next(s, events[0]), events[1..], s');
    }
  }

  /** A turn that waited for another starts only after that one is done. */
  lemma {:induction false} SuccessorWaits(s: Session, events: seq<Event>, s': Session, task: TaskId)
    requires Runs(s, events, s') && task in s.tasks && s.tasks[task].Draining?
    requires task in s'.tasks && s'.tasks[task].Running?
    ensures s.tasks[task].previous in s'.finished
    decreases |events|
  {
    var next := Next(s, events[0]);
    if next.tasks[task] == s.tasks[task] {
      SuccessorWaits(next, events[1..], s', task);
    } else {
      FinishedGrows(next, events[1..], s');
    }
  }

  /** A host write can be admitted while a mutation is in progress, but only one of a route
      that began after the write's own check: operations under the lock exclude it. */
  lemma HostWriteOverlapsRoutesOnly(start: Session, events: seq<Event>, s: Session, task: TaskId)
    requires Inv(start) && Runs(start, events, s) && Enabled(s, Proceed(task)) && Next(s, Proceed(task)).tasks[task].Writing?
    ensures forall t :: t in s.tasks && s.tasks[t].Mutating? ==> !s.tasks[t].locked
  {
    RunsAreSafe(start, events, s);
    assert Locking(s.tasks[task]);
  }

  /** And whenever a route begins between the check and the hold, it is. */
  lemma HostWriteOverlaps(start: Session, events: seq<Event>, s: Session, task: TaskId, route: TaskId)
    requires Inv(start) && Runs(start, events, s) && In(s, task, Authorizing(HostAppend)) && In(s, route, Queued(RouteMutation))
    requires s.shared.slot.None? && !s.shared.mutation
    ensures Runs(s, [BeginRoute(route), Proceed(task)], Next(Next(s, BeginRoute(route)), Proceed(task)))
    ensures var s' := Next(Next(s, BeginRoute(route)), Proceed(task));
            s'.shared.mutation && s'.shared.slot == Some(task) && In(s', task, Writing)
  {
    RunsAreSafe(start, events, s);
    var s1 := Next(s, BeginRoute(route));
    var s2 := Next(s1, Proceed(task));
    assert [BeginRoute(route), Proceed(task)][1..] == [Proceed(task)];
    assert [Proceed(task)][1..] == [];
    assert Runs(s1, [Proceed(task)], s2) by {
      assert Runs(s2, [], s2);
    }
  }

  // ---------------------------------------------------------------- nothing is leaked

  /** A lease or a mutation mark that is set has the task that will take it back. */
  ghost predicate NotLeaked(s: Session) {
    && (s.shared.lease.Some? ==> exists t :: IsCalling(s, t))
    && (s.shared.mutation ==> exists t :: IsMutating(s, t))
  }

  lemma LeaseKept(s: Session, e: Event)
    requires LockOk(s) && HoldersOk(s) && Enabled(s, e) && (s.shared.lease.Some? ==> exists t :: IsCalling(s, t))
    ensures Next(s, e).shared.lease.Some? ==> exists t :: IsCalling(Next(s, e), t)
  {
    if s.shared.lease.Some? {
      var t :| IsCalling(s, t);
      assert e != EndCall(t) ==> IsCalling(Next(s, e), t);
    } else if e.Acquire? && Next(s, e).shared.lease.Some? {
      assert IsCalling(Next(s, e), e.task);
    }
  }

  lemma MutationKept(s: Session, e: Event)
    requires LockOk(s) && HoldersOk(s) && Enabled(s, e) && (s.shared.mutation ==> exists t :: IsMutating(s, t))
    ensures Next(s, e).shared.mutation ==> exists t :: IsMutating(Next(s, e), t)
  {
    if s.shared.mutation {
      var t :| IsMutating(s, t);
      assert e != EndMutation(t) ==> IsMutating(Next(s, e), t);
    } else if (e.Acquire? || e.BeginRoute?) && Next(s, e).shared.mutation {
      assert IsMutating(Next(s, e), e.task);
    }
  }

  /** No run leaves a lease or a mutation behind without its task. */
  lemma {:induction false} NothingIsLeaked(s: Session, events: seq<Event>, s': Session)
    requires Inv(s) && NotLeaked(s) && Runs(s, events, s')
    ensures NotLeaked(s')
    decreases |events|
  {
    if events != [] {
      StepIsSafe(s, events[0]);
      LeaseKept(s, events[0]);
      MutationKept(s, events[0]);
      NothingIsLeaked(Next(s, events[0]), events[1..], s');
    }
  }

  /** Exactly when a host write is admitted beside a mutation: when some route, which takes
      no lock, is in the middle of one. */
  lemma HostWriteOverlapsExactly(start: Session, events: seq<Event>, s: Session, task: TaskId)
    requires Inv(start) && NotLeaked(start) && Runs(start, events, s)
    requires Enabled(s, Proceed(task)) && Next(s, Proceed(task)).tasks[task].Writing?
    ensures Next(s, Proceed(task)).shared.mutation <==> exists route :: In(s, route, Mutating(false))
  {
    RunsAreSafe(start, events, s);
    NothingIsLeaked(start, events, s);
    HostWriteOverlapsRoutesOnly(start, events, s, task);
    if s.shared.mutation {
      var route :| IsMutating(s, route);
      assert In(s, route, Mutating(false));
    }
  }

  lemma RunsNext(start: Session, events: seq<Event>, s: Session, e: Event, s': Session)
    requires Runs(start, events, s) && Enabled(s, e) && Next(s, e) == s'
    ensures Runs(start, events + [e], s')
    decreases |events|
  {
    if events == [] {
      assert [] + [e] == [e] && [e][1..] == [];
      assert Runs(s', [], s');
    } else {
      RunsNext(Next(start, events[0]), events[1..], s, e, s');
      AppendRest(events, [e]);
    }
  }

  /** A session in which a host write and a route have the same moment. */
  function Both(shared: Shared, write: Phase, route: Option<Phase>): Session {
    NewSession.(shared := shared, lock := if write.Queued? then None else Some(0),
                tasks := if route.None? then map[0 := write] else map[0 := write, 1 := route.value])
  }

  /** In a new session: a host write has passed its check, a repair or deletion begins, and
      the write is admitted beside it. */
  lemma HostWriteBesideRoute() returns (s: Session)
    ensures Runs(NewSession, [Arrive(0, HostAppend), Acquire(0), Arrive(1, RouteMutation), BeginRoute(1)] + [Proceed(0)], s)
    ensures s.shared.mutation && s.shared.slot == Some(0) && In(s, 0, Writing) && In(s, 1, Mutating(false))
  {
    var s1 := Both(Unused, Queued(HostAppend), None);
    var s2 := Both(Unused, Authorizing(HostAppend), None);
    var s3 := Both(Unused, Authorizing(HostAppend), Some(Queued(RouteMutation)));
    var s4 := Both(Unused.(mutation := true), Authorizing(HostAppend), Some(Mutating(false)));
    s := Both(Unused.(mutation := true, slot := Some(0)), Writing, Some(Mutating(false)));
    assert Runs(NewSession, [], NewSession);
    RunsNext(NewSession, [], NewSession, Arrive(0, HostAppend), s1);
    RunsNext(NewSession, [] + [Arrive(0, HostAppend)], s1, Acquire(0), s2);
    RunsNext(NewSession, [] + [Arrive(0, HostAppend)] + [Acquire(0)], s2, Arrive(1, RouteMutation), s3);
    RunsNext(NewSession, [] + [Arrive(0, HostAppend)] + [Acquire(0)] + [Arrive(1, RouteMutation)], s3, BeginRoute(1), s4);
    var before := [] + [Arrive(0, HostAppend)] + [Acquire(0)] + [Arrive(1, RouteMutation)] + [BeginRoute(1)];
    assert before == [Arrive(0, HostAppend), Acquire(0), Arrive(1, RouteMutation), BeginRoute(1)];
    RunsNext(NewSession, before, s4, Proceed(0), s);
  }

  /** A session in which the holder of a lease wants a turn. */
  function Leased(token: Lease, shared: Shared, lock: Option<TaskId>, turn: Option<Phase>): Session {
    NewSession.(shared := shared, lock := lock,
                tasks := if turn.None? then map[0 := Calling(token)] else map[0 := Calling(token), 1 := turn.value])
  }

  /** In a new session: a voice call takes its lease, and a turn that comes under it runs. */
  lemma LeaseHolderRuns(token: Lease) returns (s: Session)
    ensures Runs(NewSession, [Arrive(0, Reserve(token)), Acquire(0)] + [Arrive(1, Stream(Some(token), true)), Acquire(1), Proceed(1)], s)
    ensures In(s, 0, Calling(token)) && In(s, 1, Running(Some(token))) && s.shared == Shared(Some(1), Some(token), false, 2)
  {
    var kind, shared := Stream(Some(token), true), Shared(None, Some(token), false, 1);
    var arrived := NewSession.(tasks := map[0 := Queued(Reserve(token))]);
    var leased := Leased(token, shared, None, None);
    var queued := Leased(token, shared, None, Some(Queued(kind)));
    var locked := Leased(token, shared, Some(1), Some(Authorizing(kind)));
    s := Leased(token, Shared(Some(1), Some(token), false, 2), None, Some(Running(Some(token))));
    assert Runs(NewSession, [], NewSession);
    var run := [] + [Arrive(0, Reserve(token))];
    RunsNext(NewSession, [], NewSession, Arrive(0, Reserve(token)), arrived);
    RunsNext(NewSession, run, arrived, Acquire(0), leased);
    RunsNext(NewSession, run + [Acquire(0)], leased, Arrive(1, kind), queued);
    RunsNext(NewSession, run + [Acquire(0)] + [Arrive(1, kind)], queued, Acquire(1), locked);
    RunsNext(NewSession, run + [Acquire(0)] + [Arrive(1, kind)] + [Acquire(1)], locked, Proceed(1), s);
    assert run + [Acquire(0)] + [Arrive(1, kind)] + [Acquire(1)] + [Proceed(1)]
        == [Arrive(0, Reserve(token)), Acquire(0)] + [Arrive(1, kind), Acquire(1), Proceed(1)];
  }

  // ---------------------------------------------------------------- nothing is stuck

  /** A step of a task that is here already, other than giving up. */
  predicate Advances(e: Event) {
    e.Acquire? || e.Proceed? || e.BeginRoute? || e.Drained? || e.FinishTurn? || e.FinishWrite? || e.EndCall? || e.EndMutation?
  }

  lemma HolderAdvances(s: Session, task: TaskId) returns (e: Event)
    requires task in s.tasks && (Locking(s.tasks[task]) || InSlot(s.tasks[task]) || s.tasks[task].Mutating?)
    ensures Advances(e) && Enabled(s, e)
  {
    match s.tasks[task]
    case Authorizing(_) => e := Proceed(task);
    case Writing => e := FinishWrite(task);
    case Running(_) => e := FinishTurn(task);
    case Mutating(_) => e := EndMutation(task);
  }

  /** No reachable state is a deadlock: while some task is not over, some task can go on,
      without anyone giving up. */
  lemma NoDeadlock(start: Session, events: seq<Event>, s: Session, task: TaskId) returns (e: Event)
    requires Inv(start) && Runs(start, events, s) && task in s.tasks && s.tasks[task] != Over
    ensures Advances(e) && Enabled(s, e)
  {
    RunsAreSafe(start, events, s);
    match s.tasks[task]
    case Queued(RouteMutation) => e := BeginRoute(task);
    case Queued(_) =>
      if s.lock.None? { e := Acquire(task); } else { e := HolderAdvances(s, s.lock.value); }
    case Draining(_, previous) =>
      if previous in s.finished { e := Drained(task); } else { e := HolderAdvances(s, previous); }
    case Calling(_) => e := EndCall(task);
    case _ => e := HolderAdvances(s, task);
  }
}
