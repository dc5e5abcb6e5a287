/** The scheduler of background turns: capacity, shared slots, one turn at a time per key,
    cancellation at any moment, and the recording and publication of every end.

    A step is the code a task runs between two awaits. The store's compare-and-set is one
    step, as it is in memory; the publication, whose handlers are awaited, is another. A
    canceller waits for the worker it cancelled; when it is cancelled itself the worker is
    cancelled once more, and that cuts a publication the worker has come to. */
module BackgroundRunner {
  import opened Basics

  type JobId = string
  type AgentId = string
  type Key = string

  datatype Status = Queued | Running | Done | Failed | Cancelled | Interrupted

  predicate Terminal(status: Status) { status != Queued && status != Running }

  /** Where a job's worker is: created but not yet entered; in its key's line or waiting for
      a slot; starting in a slot; working in a slot; cancelled before its first step; with
      its end recorded and still being published, by itself or, if it never ran, by one of
      its cancellers; over. */
  datatype Phase = Created | InLine | Starting | Working | Unstarted | Publishing | Announcing | Over

  predicate HasEnded(phase: Phase) { phase == Publishing || phase == Announcing || phase == Over }

  datatype Job = Job(
    key: Option<Key>,
    agent: Option<AgentId>,
    phase: Phase,
    lock: Option<nat>,
    cancelling: bool,
    status: Status,
    published: nat)

  /** A key's lock while it has users: its identity, and its holder and waiters in order. */
  datatype Order = Order(lock: nat, line: seq<JobId>, users: nat)

  /** A stop of an agent: the jobs it has still to cancel, the one whose worker it awaits,
      whether it recorded that job's end itself, the worker never having run, and whether it
      was cancelled while it published that end. */
  datatype Stop = Stop(todo: seq<JobId>, waiting: Option<JobId>, recorded: bool, cut: bool)

  datatype Limits = Limits(maxWaiting: nat, maxConcurrent: nat)

  /** `stopped` holds the agents that were stopped, `stopping` how far each such stop has
      come; `admission` is held from a message's check to its submission; `awaited` holds the
      jobs whose worker some canceller awaits, `killed` those whose worker was cancelled by a
      shutdown. */
  datatype Runner = Runner(
    limits: Limits,
    jobs: map<JobId, Job>,
    running: set<JobId>,
    reserved: nat,
    requested: set<JobId>,
    slots: set<JobId>,
    orders: map<Key, Order>,
    nextLock: nat,
    admission: Option<AgentId>,
    stopped: set<AgentId>,
    stopping: map<AgentId, Stop>,
    awaited: set<JobId>,
    killed: set<JobId>)

  datatype Event =
    | Reserve
    | Unreserve
    | SubmitTask(job: JobId, key: Option<Key>)
    | AdmitMessage(agent: AgentId)
    | RefuseMessage
    | SubmitMessage(job: JobId)
    | Begin(job: JobId)
    | TakeSlot(job: JobId)
    | Start(job: JobId)
    | Complete(job: JobId, status: Status)
    | Interrupt(job: JobId)
    | Cancel(job: JobId)
    | Kill(job: JobId)
    | FinishUnstarted(job: JobId, status: Status)
    | Publish(job: JobId)
    | Join(job: JobId)
    | CutPublication(job: JobId)
    | StopAgent(agent: AgentId, unfinished: seq<JobId>)
    | StopAgain(agent: AgentId)
    | StopNext(agent: AgentId)
    | StopWakes(agent: AgentId)
    | CutStop(agent: AgentId)

  function AgentKey(agent: AgentId): Key { "agent:" + agent }

  // ---------------------------------------------------------------- the tables

  function Leave(line: seq<JobId>, job: JobId): seq<JobId> {
    if line == [] then []
    else Leave(line[..|line| - 1], job) + (if line[|line| - 1] == job then [] else [line[|line| - 1]])
  }

  /** `_in_order`, entered: the key's one lock, made when the key has no users. */
  function EnterOrder(r: Runner, key: Key, job: JobId): Runner {
    var order := if key in r.orders then r.orders[key] else Order(r.nextLock, [], 0);
    r.(orders := r.orders[key := order.(line := order.line + [job], users := order.users + 1)],
       nextLock := if key in r.orders then r.nextLock else r.nextLock + 1)
  }

  /** `_in_order`, left: the last user takes the key's lock away. */
  function LeaveOrder(r: Runner, key: Key, job: JobId): Runner {
    if key !in r.orders then r
    else
      var order := r.orders[key];
      if order.users <= 1 then r.(orders := r.orders - {key})
      else r.(orders := r.orders[key := order.(line := Leave(order.line, job), users := order.users - 1)])
  }

  /** The record of a job that ends: moved to `status` if it is unfinished, and then to be
      published by the one that moved it. */
  function Ended(job: Job, status: Status): Job {
    if Terminal(job.status) then job.(phase := Over, lock := None)
    else job.(status := status, phase := if job.phase == Unstarted then Announcing else Publishing, lock := None)
  }

  /** The end of a job: out of its line and slot, its record moved to `status` if it is still
      unfinished, and out of the tables. */
  function Finish(r: Runner, id: JobId, status: Status): Runner
    requires id in r.jobs
  {
    var job := r.jobs[id];
    var left := if job.lock.Some? && job.key.Some? then LeaveOrder(r, job.key.value, id) else r;
    left.(jobs := r.jobs[id := Ended(job, status)],
          running := r.running - {id}, requested := r.requested - {id}, slots := r.slots - {id})
  }

  function Submitted(r: Runner, id: JobId, key: Option<Key>, agent: Option<AgentId>): Runner {
    r.(jobs := r.jobs[id := Job(key, agent, Created, None, false, Queued, 0)],
       running := r.running + {id}, reserved := if r.reserved > 0 then r.reserved - 1 else 0)
  }

  /** `worker.cancel()`: a worker that was never entered will not be. */
  function CancelWorker(r: Runner, id: JobId): Runner
    requires id in r.jobs
  {
    var job := r.jobs[id];
    if job.phase == Created then r.(jobs := r.jobs[id := job.(phase := Unstarted)])
    else r.(jobs := r.jobs[id := job.(cancelling := true)])
  }

  function Cancelling(r: Runner, id: JobId): Runner
    requires id in r.jobs
  {
    CancelWorker(r, id).(requested := r.requested + {id}, awaited := r.awaited + {id})
  }

  /** A recorded end whose publication is cut short. */
  function Dropped(r: Runner, id: JobId): Runner
    requires id in r.jobs
  {
    if r.jobs[id].phase == Publishing || r.jobs[id].phase == Announcing then
      r.(jobs := r.jobs[id := r.jobs[id].(phase := Over)])
    else r
  }

  /** The end of a worker that never ran was recorded by some agent's stop. */
  predicate RecordedByStop(r: Runner, id: JobId) {
    exists agent :: agent in r.stopping && r.stopping[agent].waiting == Some(id) && r.stopping[agent].recorded
  }

  function WithStop(r: Runner, agent: AgentId, stop: Stop): Runner { r.(stopping := r.stopping[agent := stop]) }

  /** The jobs of an agent that have not ended. */
  ghost predicate Listed(r: Runner, agent: AgentId, jobs: seq<JobId>) {
    forall id :: id in jobs <==> id in r.running && id in r.jobs && r.jobs[id].agent == Some(agent)
  }

  predicate Is(r: Runner, id: JobId, phase: Phase) { id in r.jobs && r.jobs[id].phase == phase }

  predicate First(r: Runner, id: JobId)
    requires id in r.jobs
  {
    r.jobs[id].key.Some? ==>
      r.jobs[id].key.value in r.orders && r.orders[r.jobs[id].key.value].line != [] && r.orders[r.jobs[id].key.value].line[0] == id
  }

  predicate InSlot(phase: Phase) { phase == Starting || phase == Working }

  predicate Entered(phase: Phase) { phase == InLine || InSlot(phase) }

  ghost predicate Enabled(r: Runner, e: Event) {
    match e
    case Reserve => |r.running| + r.reserved < r.limits.maxWaiting
    case Unreserve => r.reserved > Held(r)
    case SubmitTask(id, key) => r.reserved > Held(r) && id !in r.jobs
    case AdmitMessage(agent) =>
      r.admission.None? && agent !in r.stopped && |r.running| + r.reserved < r.limits.maxWaiting
    case RefuseMessage => r.admission.Some? && r.reserved > 0
    case SubmitMessage(id) => r.admission.Some? && r.reserved > 0 && id !in r.jobs
    case Begin(id) => Is(r, id, Created)
    case TakeSlot(id) => Is(r, id, InLine) && First(r, id) && |r.slots| < r.limits.maxConcurrent
    case Start(id) => Is(r, id, Starting) && (r.jobs[id].agent.Some? ==> r.admission.None?)
    case Complete(id, status) => (Is(r, id, Working) && (status == Done || status == Failed)) || (Is(r, id, Starting) && status == Failed)
    case Interrupt(id) => id in r.jobs && r.jobs[id].cancelling && Entered(r.jobs[id].phase)
    case Cancel(id) => id in r.running && id in r.jobs
    case Kill(id) => id in r.running && id in r.jobs
    case FinishUnstarted(id, status) =>
      Is(r, id, Unstarted) && ((status == Cancelled && id in r.requested) || (status == Interrupted && id in r.killed))
    case Publish(id) => Is(r, id, Publishing) || Is(r, id, Announcing)
    case Join(id) => id in r.jobs && r.jobs[id].cancelling
    case CutPublication(id) =>
      (Is(r, id, Publishing) && id in r.awaited) || (Is(r, id, Announcing) && !RecordedByStop(r, id))
    case StopAgent(agent, unfinished) => r.admission.None? && agent !in r.stopped && Listed(r, agent, unfinished)
    case StopAgain(agent) => r.admission.None? && agent in r.stopped
    case StopNext(agent) =>
      agent in r.stopping && !r.stopping[agent].cut && r.stopping[agent].waiting.None? && r.stopping[agent].todo != []
    case CutStop(agent) =>
      && agent in r.stopping && !r.stopping[agent].cut && r.stopping[agent].recorded
      && r.stopping[agent].waiting.Some? && r.stopping[agent].waiting.value in r.jobs
    case StopWakes(agent) =>
      && agent in r.stopping && !r.stopping[agent].cut
      && r.stopping[agent].waiting.Some? && r.stopping[agent].waiting.value in r.jobs
      && Awaited(r.jobs[r.stopping[agent].waiting.value].phase, r.stopping[agent].recorded)
  }

  /** What a stop waits for: the worker is done, or never ran; or the publication of an end
      the stop recorded is over. */
  predicate Awaited(phase: Phase, recorded: bool) {
    phase == Over || (!recorded && (phase == Unstarted || phase == Announcing))
  }

  /** A message between its admission and its submission holds one reservation. */
  function Held(r: Runner): nat { if r.admission.Some? then 1 else 0 }

  function Started(r: Runner, id: JobId): Runner
    requires id in r.jobs
  {
    var job := r.jobs[id];
    if job.agent.Some? && job.agent.value in r.stopped then
      Finish(r.(requested := r.requested + {id}), id, Cancelled)
    else if job.status != Queued then Finish(r, id, job.status)
    else r.(jobs := r.jobs[id := job.(status := Running, phase := Working)])
  }

  ghost function Next(r: Runner, e: Event): Runner
    requires Enabled(r, e)
  {
    match e
    case Reserve => r.(reserved := r.reserved + 1)
    case Unreserve => r.(reserved := r.reserved - 1)
    case SubmitTask(id, key) => Submitted(r, id, key, None)
    case AdmitMessage(agent) => r.(admission := Some(agent), reserved := r.reserved + 1)
    case RefuseMessage => r.(admission := None, reserved := r.reserved - 1)
    case SubmitMessage(id) =>
      Submitted(r, id, Some(AgentKey(r.admission.value)), r.admission).(admission := None)
    case Begin(id) =>
      var job := r.jobs[id];
      if job.key.None? then r.(jobs := r.jobs[id := job.(phase := InLine)])
      else
        var entered := EnterOrder(r, job.key.value, id);
        entered.(jobs := r.jobs[id := job.(phase := InLine, lock := Some(entered.orders[job.key.value].lock))])
    case TakeSlot(id) => r.(jobs := r.jobs[id := r.jobs[id].(phase := Starting)], slots := r.slots + {id})
    case Start(id) => Started(r, id)
    case Complete(id, status) => Finish(r, id, status)
    case Interrupt(id) => Finish(r, id, if id in r.requested then Cancelled else Interrupted)
    case Cancel(id) => Cancelling(r, id)
    case Kill(id) => CancelWorker(r, id).(killed := r.killed + {id})
    case FinishUnstarted(id, status) => Finish(r, id, status)
    case Publish(id) => r.(jobs := r.jobs[id := r.jobs[id].(phase := Over, published := r.jobs[id].published + 1)])
    case StopAgent(agent, unfinished) =>
      r.(stopped := r.stopped + {agent}, stopping := r.stopping[agent := Stop(unfinished, None, false, false)])
    case Join(id) => r.(awaited := r.awaited + {id})
    case CutPublication(id) => Dropped(r, id)
    case StopAgain(agent) => r
    case CutStop(agent) =>
      var stop := r.stopping[agent];
      WithStop(Dropped(r, stop.waiting.value), agent, stop.(cut := true))
    case StopNext(agent) =>
      var stop := r.stopping[agent];
      if stop.todo[0] in r.running && stop.todo[0] in r.jobs then
        WithStop(Cancelling(r, stop.todo[0]), agent, Stop(stop.todo[1..], Some(stop.todo[0]), false, false))
      else WithStop(r, agent, Stop(stop.todo[1..], None, false, false))
    case StopWakes(agent) =>
      var stop := r.stopping[agent];
      if r.jobs[stop.waiting.value].phase == Unstarted then
        WithStop(Finish(r, stop.waiting.value, Cancelled), agent, stop.(recorded := true))
      else WithStop(r, agent, Stop(stop.todo, None, false, false))
  }

  ghost predicate Runs(r: Runner, events: seq<Event>, r': Runner)
    decreases |events|
  {
    if events == [] then r' == r
    else Enabled(r, events[0]) && Runs(Next(r, events[0]), events[1..], r')
  }

  /** Steps that are about no job yet, or about none any more. */
  predicate Quiet(e: Event) {
    || e.Reserve? || e.Unreserve? || e.AdmitMessage? || e.RefuseMessage? || e.Join? || e.StopAgent? || e.StopAgain?
  }

  lemma QuietStep(r: Runner, e: Event)
    requires Enabled(r, e) && Quiet(e)
    ensures var next := Next(r, e);
            && next.jobs == r.jobs && next.requested == r.requested && next.running == r.running
            && next.orders == r.orders && next.nextLock == r.nextLock
  {
  }

  // ---------------------------------------------------------------- the invariant

  /** A job's record says where its worker is: it is unfinished until the job has ended and
      unpublished until it is over, and never published twice. */
  predicate RecordOk(job: Job) {
    match job.phase
    case Working => job.status == Running && job.published == 0
    case Publishing | Announcing => Terminal(job.status) && job.published == 0
    case Over => Terminal(job.status) && job.published <= 1
    case _ => job.status == Queued && job.published == 0
  }

  ghost predicate JobsOk(r: Runner) {
    && (forall id :: id in r.jobs ==> RecordOk(r.jobs[id]))
    && (forall id :: id in r.running <==> id in r.jobs && !HasEnded(r.jobs[id].phase))
    && (forall id :: id in r.requested ==> id in r.running)
  }

  /** Slots are held by the jobs inside them, no more than the limit. */
  ghost predicate SlotsOk(r: Runner) {
    && (forall id :: id in r.slots <==> id in r.jobs && InSlot(r.jobs[id].phase))
    && |r.slots| <= r.limits.maxConcurrent
  }

  predicate CapacityOk(r: Runner) {
    |r.running| + r.reserved <= r.limits.maxWaiting && Held(r) <= r.reserved
  }

  /** A key has an entry exactly while it has users, and they are in its one line. */
  ghost predicate OrderOk(r: Runner, key: Key) {
    key in r.orders ==>
      var o := r.orders[key];
      && o.users == |o.line| > 0 && Distinct(o.line) && o.lock < r.nextLock
      && forall id :: id in o.line ==> id in r.jobs && r.jobs[id].key == Some(key) && r.jobs[id].lock == Some(o.lock)
  }

  predicate InLineOk(r: Runner, id: JobId)
    requires id in r.jobs
  {
    var job := r.jobs[id];
    && (job.lock.Some? <==> job.key.Some? && Entered(job.phase))
    && (job.lock.Some? ==> job.key.value in r.orders && id in r.orders[job.key.value].line)
    && (job.lock.Some? && InSlot(job.phase) ==> r.orders[job.key.value].line[0] == id)
  }

  ghost predicate OrdersOk(r: Runner) {
    && (forall key :: key in r.orders ==> OrderOk(r, key))
    && (forall id :: id in r.jobs ==> InLineOk(r, id))
    && (forall k, l :: k in r.orders && l in r.orders && r.orders[k].lock == r.orders[l].lock ==> k == l)
  }

  /** The stop has not dealt with the job yet. */
  predicate Unstopped(stop: Stop, id: JobId) { id in stop.todo || stop.waiting == Some(id) }

  /** Every message to a stopped agent has ended or is still to be dealt with by its stop. */
  ghost predicate AgentsOk(r: Runner) {
    && (r.admission.Some? ==> r.admission.value !in r.stopped)
    && (forall agent :: agent in r.stopped ==> agent in r.stopping)
    && (forall id :: id in r.jobs && r.jobs[id].agent.Some? && r.jobs[id].agent.value in r.stopped ==>
          HasEnded(r.jobs[id].phase) || Unstopped(r.stopping[r.jobs[id].agent.value], id))
  }

  /** A worker is cancelled by a canceller or by a shutdown. */
  predicate Caused(r: Runner, id: JobId)
    requires id in r.jobs
  {
    HasEnded(r.jobs[id].phase) || (!r.jobs[id].cancelling && r.jobs[id].phase != Unstarted) || id in r.requested || id in r.killed
  }

  /** The worker a stop awaits was cancelled by it. */
  predicate AwaitsAsked(r: Runner, agent: AgentId)
    requires agent in r.stopping
  {
    r.stopping[agent].waiting.Some? ==>
      var id := r.stopping[agent].waiting.value; id in r.jobs && (HasEnded(r.jobs[id].phase) || id in r.requested)
  }

  ghost predicate CausesOk(r: Runner) {
    && (forall id :: id in r.jobs ==> Caused(r, id))
    && (forall agent :: agent in r.stopping ==> AwaitsAsked(r, agent))
  }

  ghost predicate Inv(r: Runner) {
    JobsOk(r) && SlotsOk(r) && CapacityOk(r) && OrdersOk(r) && AgentsOk(r) && CausesOk(r)
  }

  // ---------------------------------------------------------------- the end of a job

  lemma FinishTables(r: Runner, id: JobId, status: Status)
    requires id in r.jobs
    ensures var f := Finish(r, id, status);
            && f.running == r.running - {id} && f.requested == r.requested - {id} && f.slots == r.slots - {id}
            && f.jobs.Keys == r.jobs.Keys && (forall j :: j in r.jobs && j != id ==> f.jobs[j] == r.jobs[j])
            && HasEnded(f.jobs[id].phase) && f.jobs[id].lock.None? && f.jobs[id].agent == r.jobs[id].agent && f.jobs[id].key == r.jobs[id].key
            && f.jobs[id].published == r.jobs[id].published
            && (!Terminal(r.jobs[id].status) ==>
                  f.jobs[id].status == status && f.jobs[id].phase == if r.jobs[id].phase == Unstarted then Announcing else Publishing)
            && f.reserved == r.reserved && f.limits == r.limits && f.admission == r.admission
            && f.stopped == r.stopped && f.stopping == r.stopping && f.killed == r.killed
  {
  }

  lemma FinishKeeps(r: Runner, id: JobId, status: Status)
    requires JobsOk(r) && SlotsOk(r) && CapacityOk(r) && AgentsOk(r)
    requires id in r.jobs && !HasEnded(r.jobs[id].phase) && Terminal(status)
    ensures var f := Finish(r, id, status);
            JobsOk(f) && SlotsOk(f) && CapacityOk(f) && AgentsOk(f) && f.jobs[id].status == status
  {
    var f := Finish(r, id, status);
    FinishTables(r, id, status);
    FinishJobs(r, id, status);
    FinishAgents(r, id, status);
    SlotLeft(r, id);
  }

  lemma FinishJobs(r: Runner, id: JobId, status: Status)
    requires JobsOk(r) && id in r.jobs && !HasEnded(r.jobs[id].phase) && Terminal(status)
    ensures JobsOk(Finish(r, id, status)) && Finish(r, id, status).jobs[id].status == status
  {
    var f := Finish(r, id, status);
    FinishTables(r, id, status);
    assert RecordOk(r.jobs[id]);
    forall j | j in f.jobs ensures RecordOk(f.jobs[j]) {
      assert j != id ==> RecordOk(r.jobs[j]);
    }
  }

  lemma FinishAgents(r: Runner, id: JobId, status: Status)
    requires AgentsOk(r) && id in r.jobs
    ensures AgentsOk(Finish(r, id, status))
  {
    FinishTables(r, id, status);
  }

  lemma SlotLeft(r: Runner, id: JobId)
    ensures |r.slots - {id}| <= |r.slots| && |r.running - {id}| <= |r.running|
  {
  }

  // ---------------------------------------------------------------- the other steps

  /** The parts of the invariant that do not speak of keys. */
  ghost predicate TablesOk(r: Runner) { JobsOk(r) && SlotsOk(r) && CapacityOk(r) && AgentsOk(r) }

  /** Changing one job's record without ending it. */
  lemma ChangeKeeps(r: Runner, id: JobId, job: Job, slots: set<JobId>)
    requires TablesOk(r) && id in r.jobs && !HasEnded(r.jobs[id].phase)
    requires RecordOk(job) && !HasEnded(job.phase) && job.agent == r.jobs[id].agent
    requires slots == (if InSlot(job.phase) then r.slots + {id} else r.slots) && |slots| <= r.limits.maxConcurrent
    requires InSlot(r.jobs[id].phase) ==> InSlot(job.phase)
    ensures TablesOk(r.(jobs := r.jobs[id := job], slots := slots))
  {
    ChangeJobs(r, id, job, slots);
    ChangeAgents(r, id, job, slots);
  }

  lemma ChangeJobs(r: Runner, id: JobId, job: Job, slots: set<JobId>)
    requires JobsOk(r) && id in r.jobs && !HasEnded(r.jobs[id].phase) && RecordOk(job) && !HasEnded(job.phase)
    ensures JobsOk(r.(jobs := r.jobs[id := job], slots := slots))
  {
  }

  lemma ChangeAgents(r: Runner, id: JobId, job: Job, slots: set<JobId>)
    requires AgentsOk(r) && id in r.jobs && !HasEnded(r.jobs[id].phase) && job.agent == r.jobs[id].agent
    ensures AgentsOk(r.(jobs := r.jobs[id := job], slots := slots))
  {
  }

  lemma SubmitJobs(r: Runner, id: JobId, key: Option<Key>, agent: Option<AgentId>)
    requires JobsOk(r) && SlotsOk(r) && id !in r.jobs
    ensures JobsOk(Submitted(r, id, key, agent)) && SlotsOk(Submitted(r, id, key, agent))
  {
  }

  lemma SubmitCapacity(r: Runner, id: JobId, key: Option<Key>, agent: Option<AgentId>)
    requires CapacityOk(r) && id !in r.running && r.reserved > (if agent.Some? then 0 else Held(r))
    ensures CapacityOk(Submitted(r, id, key, agent).(admission := if agent.Some? then None else r.admission))
  {
  }

  lemma SubmitAgents(r: Runner, id: JobId, key: Option<Key>, agent: Option<AgentId>)
    requires AgentsOk(r) && id !in r.jobs && (agent.Some? ==> agent == r.admission)
    ensures AgentsOk(Submitted(r, id, key, agent).(admission := if agent.Some? then None else r.admission))
  {
  }

  lemma SubmitKeeps(r: Runner, id: JobId, key: Option<Key>, agent: Option<AgentId>)
    requires TablesOk(r) && id !in r.jobs && r.reserved > (if agent.Some? then 0 else Held(r))
    requires agent.Some? ==> agent == r.admission
    ensures TablesOk(Submitted(r, id, key, agent).(admission := if agent.Some? then None else r.admission))
  {
    SubmitJobs(r, id, key, agent);
    SubmitCapacity(r, id, key, agent);
    SubmitAgents(r, id, key, agent);
  }

  lemma StopKeeps(r: Runner, agent: AgentId, list: seq<JobId>)
    requires TablesOk(r) && r.admission.None? && agent !in r.stopped && Listed(r, agent, list)
    ensures TablesOk(r.(stopped := r.stopped + {agent}, stopping := r.stopping[agent := Stop(list, None, false, false)]))
  {
  }

  lemma PublishKeeps(r: Runner, e: Event)
    requires TablesOk(r) && Enabled(r, e) && e.Publish?
    ensures TablesOk(Next(r, e))
  {
    PublishJobs(r, e);
    PublishAgents(r, e);
  }

  lemma PublishJobs(r: Runner, e: Event)
    requires JobsOk(r) && SlotsOk(r) && CapacityOk(r) && Enabled(r, e) && e.Publish?
    ensures JobsOk(Next(r, e)) && SlotsOk(Next(r, e)) && CapacityOk(Next(r, e))
  {
    assert RecordOk(r.jobs[e.job]);
  }

  lemma PublishAgents(r: Runner, e: Event)
    requires AgentsOk(r) && Enabled(r, e) && e.Publish?
    ensures AgentsOk(Next(r, e))
  {
  }

  lemma DroppedKeeps(r: Runner, id: JobId)
    requires TablesOk(r) && id in r.jobs
    ensures TablesOk(Dropped(r, id)) && Dropped(r, id).stopping == r.stopping && Dropped(r, id).jobs.Keys == r.jobs.Keys
  {
    assert RecordOk(r.jobs[id]);
  }

  /** Who awaits or cancelled a worker is none of the tables' business. */
  lemma AwaitedApart(r: Runner, r': Runner)
    requires TablesOk(r) && r' == r.(awaited := r'.awaited, killed := r'.killed)
    ensures TablesOk(r')
  {
  }

  lemma BeginKeeps(r: Runner, e: Event)
    requires TablesOk(r) && Enabled(r, e) && e.Begin?
    ensures TablesOk(Next(r, e))
  {
    var job := r.jobs[e.job];
    var next := Next(r, e);
    ChangeKeeps(r, e.job, next.jobs[e.job], r.slots);
    OrdersApart(r.(jobs := next.jobs), next);
  }

  /** The line of a key is none of the tables' business. */
  lemma OrdersApart(r: Runner, r': Runner)
    requires TablesOk(r) && r' == r.(orders := r'.orders, nextLock := r'.nextLock)
    ensures TablesOk(r')
  {
  }

  lemma TakeSlotKeeps(r: Runner, e: Event)
    requires TablesOk(r) && Enabled(r, e) && e.TakeSlot?
    ensures TablesOk(Next(r, e))
  {
    ChangeKeeps(r, e.job, r.jobs[e.job].(phase := Starting), r.slots + {e.job});
  }

  lemma CancelWorkerKeeps(r: Runner, id: JobId)
    requires TablesOk(r) && id in r.running && id in r.jobs
    ensures TablesOk(CancelWorker(r, id)) && CancelWorker(r, id).running == r.running
  {
    var job := CancelWorker(r, id).jobs[id];
    assert RecordOk(r.jobs[id]);
    ChangeKeeps(r, id, job, if InSlot(job.phase) then r.slots + {id} else r.slots);
    assert InSlot(job.phase) ==> r.slots + {id} == r.slots;
  }

  lemma RequestKeeps(r: Runner, id: JobId)
    requires TablesOk(r) && id in r.running
    ensures TablesOk(r.(requested := r.requested + {id}))
  {
  }

  lemma AdmissionKeeps(r: Runner, e: Event)
    requires TablesOk(r) && Enabled(r, e) && (e.Reserve? || e.Unreserve? || e.AdmitMessage? || e.RefuseMessage?)
    ensures TablesOk(Next(r, e))
  {
  }

  lemma StartKeeps(r: Runner, e: Event)
    requires TablesOk(r) && Enabled(r, e) && e.Start?
    ensures TablesOk(Next(r, e))
  {
    var job := r.jobs[e.job];
    assert RecordOk(job);
    if job.agent.Some? && job.agent.value in r.stopped {
      var asked := r.(requested := r.requested + {e.job});
      FinishKeeps(asked, e.job, Cancelled);
    } else {
      ChangeKeeps(r, e.job, job.(status := Running, phase := Working), r.slots);
    }
  }

  lemma CancellingKeeps(r: Runner, id: JobId)
    requires TablesOk(r) && id in r.running && id in r.jobs
    ensures TablesOk(Cancelling(r, id)) && Cancelling(r, id).stopping == r.stopping && Cancelling(r, id).jobs.Keys == r.jobs.Keys
  {
    CancelWorkerKeeps(r, id);
    RequestKeeps(CancelWorker(r, id), id);
    AwaitedApart(CancelWorker(r, id).(requested := r.requested + {id}), Cancelling(r, id));
  }

  /** A stop that moves on, from jobs that have ended or that it now waits for. */
  lemma StopMoves(r: Runner, agent: AgentId, stop: Stop)
    requires TablesOk(r) && agent in r.stopping
    requires forall id :: id in r.jobs && Unstopped(r.stopping[agent], id) ==> HasEnded(r.jobs[id].phase) || Unstopped(stop, id)
    ensures TablesOk(WithStop(r, agent, stop))
  {
  }

  lemma StopNextKeeps(r: Runner, e: Event)
    requires TablesOk(r) && Enabled(r, e) && e.StopNext?
    ensures TablesOk(Next(r, e))
  {
    var stop := r.stopping[e.agent];
    assert stop.todo == [stop.todo[0]] + stop.todo[1..];
    if stop.todo[0] in r.running {
      CancellingKeeps(r, stop.todo[0]);
      StopMoves(Cancelling(r, stop.todo[0]), e.agent, Stop(stop.todo[1..], Some(stop.todo[0]), false, false));
    } else {
      StopMoves(r, e.agent, Stop(stop.todo[1..], None, false, false));
    }
  }

  lemma StopWakesKeeps(r: Runner, e: Event)
    requires TablesOk(r) && Enabled(r, e) && e.StopWakes?
    ensures TablesOk(Next(r, e))
  {
    var stop := r.stopping[e.agent];
    var id := stop.waiting.value;
    if r.jobs[id].phase == Unstarted {
      FinishKeeps(r, id, Cancelled);
      FinishTables(r, id, Cancelled);
      StopMoves(Finish(r, id, Cancelled), e.agent, stop.(recorded := true));
    } else {
      StopMoves(r, e.agent, Stop(stop.todo, None, false, false));
    }
  }

  lemma CutStopKeeps(r: Runner, e: Event)
    requires TablesOk(r) && Enabled(r, e) && e.CutStop?
    ensures TablesOk(Next(r, e))
  {
    var stop := r.stopping[e.agent];
    DroppedKeeps(r, stop.waiting.value);
    StopMoves(Dropped(r, stop.waiting.value), e.agent, stop.(cut := true));
  }

  lemma TablesStep(r: Runner, e: Event)
    requires TablesOk(r) && Enabled(r, e)
    ensures TablesOk(Next(r, e))
  {
    match e
    case Reserve | Unreserve | AdmitMessage(_) | RefuseMessage => AdmissionKeeps(r, e);
    case SubmitTask(id, key) => SubmitKeeps(r, id, key, None);
    case SubmitMessage(id) => SubmitKeeps(r, id, Some(AgentKey(r.admission.value)), r.admission);
    case Begin(_) => BeginKeeps(r, e);
    case TakeSlot(_) => TakeSlotKeeps(r, e);
    case Cancel(id) => CancellingKeeps(r, id);
    case Kill(id) =>
      CancelWorkerKeeps(r, id);
      AwaitedApart(CancelWorker(r, id), Next(r, e));
    case Start(_) => StartKeeps(r, e);
    case Complete(id, status) => FinishKeeps(r, id, status);
    case Interrupt(id) => FinishKeeps(r, id, if id in r.requested then Cancelled else Interrupted);
    case FinishUnstarted(id, status) => FinishKeeps(r, id, status);
    case Publish(_) => PublishKeeps(r, e);
    case Join(_) => AwaitedApart(r, Next(r, e));
    case CutPublication(id) => DroppedKeeps(r, id);
    case StopAgent(agent, unfinished) => StopKeeps(r, agent, unfinished);
    case StopAgain(_) =>
    case StopNext(_) => StopNextKeeps(r, e);
    case StopWakes(_) => StopWakesKeeps(r, e);
    case CutStop(_) => CutStopKeeps(r, e);
  }

  // ---------------------------------------------------------------- lines

  lemma LeaveSnoc(front: seq<JobId>, last: JobId, job: JobId)
    ensures Leave(front + [last], job) == if last == job then Leave(front, job) else Leave(front, job) + [last]
  {
    assert (front + [last])[..|front|] == front;
    assert Leave(front, job) + [] == Leave(front, job);
  }

  lemma {:induction false} LeaveMembers(line: seq<JobId>, job: JobId)
    requires Distinct(line)
    ensures Distinct(Leave(line, job)) && forall id :: id in Leave(line, job) <==> id in line && id != job
  {
    if line != [] {
      var front, last := line[..|line| - 1], line[|line| - 1];
      assert line == front + [last];
      DistinctSnoc(front, last);
      LeaveMembers(front, job);
      LeaveSnoc(front, last, job);
      DistinctSnoc(Leave(front, job), last);
    }
  }

  lemma {:induction false} LeaveFacts(line: seq<JobId>, job: JobId)
    requires Distinct(line)
    ensures var left := Leave(line, job);
            && Distinct(left)
            && (forall id :: id in left <==> id in line && id != job)
            && |left| == |line| - (if job in line then 1 else 0)
            && (line != [] && line[0] != job ==> left != [] && left[0] == line[0])
  {
    LeaveMembers(line, job);
    if line != [] {
      var front, last := line[..|line| - 1], line[|line| - 1];
      assert line == front + [last];
      DistinctSnoc(front, last);
      LeaveFacts(front, job);
      LeaveSnoc(front, last, job);
    }
  }

  lemma OrdersSubmit(r: Runner, id: JobId, key: Option<Key>, agent: Option<AgentId>)
    requires OrdersOk(r) && id !in r.jobs
    ensures OrdersOk(Submitted(r, id, key, agent))
  {
    var next := Submitted(r, id, key, agent);
    forall k | k in next.orders ensures OrderOk(next, k) {
      assert OrderOk(r, k);
    }
    forall j | j in next.jobs ensures InLineOk(next, j) {
      assert j != id ==> InLineOk(r, j);
    }
  }

  lemma OrdersChange(r: Runner, id: JobId, job: Job, next: Runner)
    requires OrdersOk(r) && id in r.jobs && next.jobs == r.jobs[id := job] && next.orders == r.orders && next.nextLock == r.nextLock
    requires job.key == r.jobs[id].key && job.lock == r.jobs[id].lock && (Entered(job.phase) <==> Entered(r.jobs[id].phase))
    requires InSlot(job.phase) && !InSlot(r.jobs[id].phase) ==> First(r, id)
    ensures OrdersOk(next)
  {
    forall k | k in next.orders ensures OrderOk(next, k) {
      assert OrderOk(r, k);
    }
    forall j | j in next.jobs ensures InLineOk(next, j) {
      assert InLineOk(r, j);
    }
  }

  lemma BeginOrder(r: Runner, e: Event, key: Key)
    requires OrdersOk(r) && Enabled(r, e) && e.Begin? && key in Next(r, e).orders
    ensures OrderOk(Next(r, e), key)
  {
    assert InLineOk(r, e.job);
    if r.jobs[e.job].key == Some(key) {
      BeginOwnOrder(r, e, key);
    } else {
      assert OrderOk(r, key);
      assert r.orders[key] == Next(r, e).orders[key];
    }
  }

  lemma BeginOwnOrder(r: Runner, e: Event, key: Key)
    requires Enabled(r, e) && e.Begin? && r.jobs[e.job].key == Some(key) && InLineOk(r, e.job) && OrderOk(r, key)
    ensures OrderOk(Next(r, e), key)
  {
    if key in r.orders {
      DistinctSnoc(r.orders[key].line, e.job);
    }
  }

  lemma OrdersBegin(r: Runner, e: Event)
    requires OrdersOk(r) && Enabled(r, e) && e.Begin?
    ensures OrdersOk(Next(r, e))
  {
    var next := Next(r, e);
    forall k | k in next.orders ensures OrderOk(next, k) {
      BeginOrder(r, e, k);
    }
    forall j | j in next.jobs ensures InLineOk(next, j) {
      BeginLine(r, e, j);
    }
    BeginLocks(r, e);
  }

  lemma BeginLine(r: Runner, e: Event, j: JobId)
    requires OrdersOk(r) && Enabled(r, e) && e.Begin? && j in r.jobs
    ensures InLineOk(Next(r, e), j)
  {
    assert InLineOk(r, j);
    if j == e.job && r.jobs[j].key.Some? {
      var line := Next(r, e).orders[r.jobs[j].key.value].line;
      assert line[|line| - 1] == j;
    }
  }

  lemma BeginLocks(r: Runner, e: Event)
    requires OrdersOk(r) && Enabled(r, e) && e.Begin?
    ensures var o := Next(r, e).orders; forall k, l :: k in o && l in o && o[k].lock == o[l].lock ==> k == l
  {
    var o := Next(r, e).orders;
    forall k, l | k in o && l in o && o[k].lock == o[l].lock ensures k == l {
      assert k in r.orders ==> OrderOk(r, k);
      assert l in r.orders ==> OrderOk(r, l);
    }
  }

  lemma FinishOrder(r: Runner, id: JobId, status: Status, key: Key)
    requires OrdersOk(r) && id in r.jobs && key in Finish(r, id, status).orders
    ensures OrderOk(Finish(r, id, status), key)
  {
    assert InLineOk(r, id) && OrderOk(r, key);
    FinishTables(r, id, status);
    if r.jobs[id].lock.Some? && r.jobs[id].key == Some(key) {
      FinishOwnOrder(r, id, status, key);
    } else {
      FinishOtherOrder(r, id, status, key);
    }
  }

  lemma FinishOwnOrder(r: Runner, id: JobId, status: Status, key: Key)
    requires id in r.jobs && InLineOk(r, id) && OrderOk(r, key) && key in Finish(r, id, status).orders
    requires r.jobs[id].lock.Some? && r.jobs[id].key == Some(key)
    ensures OrderOk(Finish(r, id, status), key)
  {
    FinishTables(r, id, status);
    LeaveFacts(r.orders[key].line, id);
  }

  lemma FinishOtherOrder(r: Runner, id: JobId, status: Status, key: Key)
    requires OrdersOk(r) && id in r.jobs && key in r.orders && !(r.jobs[id].lock.Some? && r.jobs[id].key == Some(key))
    ensures var f := Finish(r, id, status); key in f.orders && f.orders[key] == r.orders[key] && f.nextLock == r.nextLock
    ensures id !in r.orders[key].line
  {
    assert OrderOk(r, key);
  }

  lemma FinishLine(r: Runner, id: JobId, status: Status, j: JobId)
    requires OrdersOk(r) && id in r.jobs && j in r.jobs
    ensures InLineOk(Finish(r, id, status), j)
  {
    assert InLineOk(r, id) && InLineOk(r, j);
    FinishTables(r, id, status);
    if j != id && r.jobs[j].lock.Some? {
      FinishOtherLine(r, id, status, r.jobs[j].key.value, j);
    }
  }

  /** Another job of the line keeps its place in it. */
  lemma FinishOtherLine(r: Runner, id: JobId, status: Status, key: Key, j: JobId)
    requires OrdersOk(r) && id in r.jobs && key in r.orders && j in r.orders[key].line && j != id
    ensures var f := Finish(r, id, status);
            key in f.orders && j in f.orders[key].line && (r.orders[key].line[0] == j ==> f.orders[key].line[0] == j)
  {
    assert InLineOk(r, id) && OrderOk(r, key);
    LeaveFacts(r.orders[key].line, id);
    assert r.orders[key].line != [id];
  }

  lemma OrdersFinish(r: Runner, id: JobId, status: Status)
    requires OrdersOk(r) && id in r.jobs
    ensures OrdersOk(Finish(r, id, status))
  {
    var f := Finish(r, id, status);
    forall k | k in f.orders ensures OrderOk(f, k) {
      FinishOrder(r, id, status, k);
    }
    forall j | j in f.jobs ensures InLineOk(f, j) {
      FinishLine(r, id, status, j);
    }
  }

  lemma OrdersStep(r: Runner, e: Event)
    requires OrdersOk(r) && Enabled(r, e)
    ensures OrdersOk(Next(r, e))
  {
    if Quiet(e) {
      QuietStep(r, e);
      SameOrders(r, Next(r, e));
    } else if e.SubmitTask? || e.SubmitMessage? {
      OrdersSubmitted(r, e);
    } else if e.StopNext? || e.StopWakes? {
      OrdersStop(r, e);
    } else if e.CutPublication? || e.CutStop? {
      OrdersCut(r, e);
    } else {
      OrdersJob(r, e);
    }
  }

  lemma OrdersSubmitted(r: Runner, e: Event)
    requires OrdersOk(r) && Enabled(r, e) && (e.SubmitTask? || e.SubmitMessage?)
    ensures OrdersOk(Next(r, e))
  {
    match e
    case SubmitTask(id, key) => OrdersSubmit(r, id, key, None);
    case SubmitMessage(id) => OrdersSubmit(r, id, Some(AgentKey(r.admission.value)), r.admission);
  }

  lemma OrdersJob(r: Runner, e: Event)
    requires OrdersOk(r) && Enabled(r, e) && !Quiet(e)
    requires !e.SubmitTask? && !e.SubmitMessage? && !e.StopNext? && !e.StopWakes? && !e.CutPublication? && !e.CutStop?
    ensures OrdersOk(Next(r, e))
  {
    match e
    case Begin(_) => OrdersBegin(r, e);
    case TakeSlot(_) | Cancel(_) | Kill(_) | Publish(_) => OrdersWorker(r, e);
    case Start(_) => OrdersStart(r, e);
    case Complete(_, _) | Interrupt(_) | FinishUnstarted(_, _) => OrdersEnd(r, e);
  }

  lemma OrdersCut(r: Runner, e: Event)
    requires OrdersOk(r) && Enabled(r, e) && (e.CutPublication? || e.CutStop?)
    ensures OrdersOk(Next(r, e))
  {
    OrdersDropped(r, if e.CutStop? then r.stopping[e.agent].waiting.value else e.job, Next(r, e));
  }

  lemma OrdersWorker(r: Runner, e: Event)
    requires OrdersOk(r) && Enabled(r, e) && (e.TakeSlot? || e.Cancel? || e.Kill? || e.Publish?)
    ensures OrdersOk(Next(r, e))
  {
    OrdersChange(r, e.job, Next(r, e).jobs[e.job], Next(r, e));
  }

  lemma OrdersDropped(r: Runner, id: JobId, next: Runner)
    requires OrdersOk(r) && id in r.jobs
    requires next.jobs == Dropped(r, id).jobs && next.orders == r.orders && next.nextLock == r.nextLock
    ensures OrdersOk(next)
  {
    if Dropped(r, id) == r {
      SameOrders(r, next);
    } else {
      OrdersChange(r, id, r.jobs[id].(phase := Over), next);
    }
  }

  /** The status with which a step ends its job. */
  function EndStatus(r: Runner, e: Event): Status
    requires e.Complete? || e.Interrupt? || e.FinishUnstarted?
  {
    if e.Interrupt? then (if e.job in r.requested then Cancelled else Interrupted) else e.status
  }

  lemma OrdersEnd(r: Runner, e: Event)
    requires OrdersOk(r) && Enabled(r, e) && (e.Complete? || e.Interrupt? || e.FinishUnstarted?)
    ensures OrdersOk(Next(r, e))
  {
    OrdersFinish(r, e.job, EndStatus(r, e));
  }

  lemma SameOrders(r: Runner, next: Runner)
    requires OrdersOk(r) && next.jobs == r.jobs && next.orders == r.orders && next.nextLock == r.nextLock
    ensures OrdersOk(next)
  {
    forall k | k in next.orders ensures OrderOk(next, k) {
      assert OrderOk(r, k);
    }
    forall j | j in next.jobs ensures InLineOk(next, j) {
      assert InLineOk(r, j);
    }
  }

  lemma OrdersStart(r: Runner, e: Event)
    requires OrdersOk(r) && Enabled(r, e) && e.Start?
    ensures OrdersOk(Next(r, e))
  {
    var job := r.jobs[e.job];
    if job.agent.Some? && job.agent.value in r.stopped {
      var asked := r.(requested := r.requested + {e.job});
      SameOrders(r, asked);
      OrdersFinish(asked, e.job, Cancelled);
    } else if job.status != Queued {
      OrdersFinish(r, e.job, job.status);
    } else {
      OrdersChange(r, e.job, Next(r, e).jobs[e.job], Next(r, e));
    }
  }

  lemma OrdersStop(r: Runner, e: Event)
    requires OrdersOk(r) && Enabled(r, e) && (e.StopNext? || e.StopWakes?)
    ensures OrdersOk(Next(r, e))
  {
    if Records(r, e) {
      OrdersFinish(r, StopJob(r, e), Cancelled);
      SameOrders(Finish(r, StopJob(r, e), Cancelled), Next(r, e));
    } else if Cancels(r, e) {
      OrdersChange(r, StopJob(r, e), Next(r, e).jobs[StopJob(r, e)], Next(r, e));
    } else {
      SameOrders(r, Next(r, e));
    }
  }

  /** The job a step of a stop is about. */
  function StopJob(r: Runner, e: Event): JobId
    requires (e.StopNext? || e.StopWakes?) && Enabled(r, e)
  {
    if e.StopNext? then r.stopping[e.agent].todo[0] else r.stopping[e.agent].waiting.value
  }

  /** A step of a stop that records the end of a worker that never ran. */
  ghost predicate Records(r: Runner, e: Event)
    requires (e.StopNext? || e.StopWakes?) && Enabled(r, e)
  {
    e.StopWakes? && r.jobs[StopJob(r, e)].phase == Unstarted
  }

  /** A step of a stop that cancels a worker. */
  ghost predicate Cancels(r: Runner, e: Event)
    requires (e.StopNext? || e.StopWakes?) && Enabled(r, e)
  {
    e.StopNext? && StopJob(r, e) in r.running && StopJob(r, e) in r.jobs
  }

  /** What a step of a stop does to the jobs. */
  lemma StopJobs(r: Runner, e: Event)
    requires (e.StopNext? || e.StopWakes?) && Enabled(r, e)
    ensures var next := Next(r, e);
            if Records(r, e) then
              var f := Finish(r, StopJob(r, e), Cancelled);
              next.jobs == f.jobs && next.requested == f.requested && next.orders == f.orders
            else if Cancels(r, e) then
              next.jobs == Cancelling(r, StopJob(r, e)).jobs && next.requested == r.requested + {StopJob(r, e)} && next.orders == r.orders
            else next.jobs == r.jobs && next.requested == r.requested && next.orders == r.orders
  {
  }

  // ---------------------------------------------------------------- causes

  lemma CausesFinish(r: Runner, id: JobId, status: Status)
    requires CausesOk(r) && id in r.jobs
    ensures CausesOk(Finish(r, id, status))
  {
    FinishTables(r, id, status);
    var f := Finish(r, id, status);
    forall j | j in f.jobs ensures Caused(f, j) {
      assert Caused(r, j);
    }
    forall agent | agent in f.stopping ensures AwaitsAsked(f, agent) {
      assert AwaitsAsked(r, agent);
    }
  }

  /** Nothing but the mark of one job changes, and that has its cause. */
  lemma CausesChange(r: Runner, r': Runner, id: JobId)
    requires CausesOk(r) && id in r.jobs && r'.jobs.Keys == r.jobs.Keys && r'.stopping == r.stopping
    requires forall j :: j in r.jobs && j != id ==> r'.jobs[j] == r.jobs[j]
    requires r.requested <= r'.requested && r.killed <= r'.killed
    requires HasEnded(r.jobs[id].phase) ==> HasEnded(r'.jobs[id].phase)
    requires Caused(r', id)
    ensures CausesOk(r')
  {
    forall j | j in r'.jobs ensures Caused(r', j) {
      assert Caused(r, j);
    }
    forall agent | agent in r'.stopping ensures AwaitsAsked(r', agent) {
      assert AwaitsAsked(r, agent);
    }
  }

  lemma CausesSubmit(r: Runner, id: JobId, key: Option<Key>, agent: Option<AgentId>, r': Runner)
    requires CausesOk(r) && id !in r.jobs && r' == Submitted(r, id, key, agent).(admission := r'.admission)
    ensures CausesOk(r')
  {
    forall j | j in r'.jobs ensures Caused(r', j) {
      assert j != id ==> Caused(r, j);
    }
    forall stop | stop in r'.stopping ensures AwaitsAsked(r', stop) {
      assert AwaitsAsked(r, stop);
    }
  }

  lemma CausesWorker(r: Runner, id: JobId, job: Job, r': Runner)
    requires CausesOk(r) && id in r.jobs && !HasEnded(r.jobs[id].phase) && r.jobs[id].phase != Unstarted
    requires job.cancelling == r.jobs[id].cancelling && job.phase != Unstarted && !HasEnded(job.phase)
    requires r'.jobs == r.jobs[id := job] && r'.stopping == r.stopping && r'.requested == r.requested && r'.killed == r.killed
    ensures CausesOk(r')
  {
    assert Caused(r, id);
    CausesChange(r, r', id);
  }

  lemma CausesPublished(r: Runner, e: Event)
    requires CausesOk(r) && Enabled(r, e) && (e.Publish? || e.CutPublication?)
    ensures CausesOk(Next(r, e))
  {
    assert Caused(r, e.job);
    CausesChange(r, Next(r, e), e.job);
  }

  lemma CausesCancel(r: Runner, id: JobId)
    requires CausesOk(r) && id in r.jobs && id in r.running
    ensures CausesOk(Cancelling(r, id)) && CausesOk(CancelWorker(r, id).(killed := r.killed + {id}))
  {
    assert Caused(r, id);
    CausesChange(r, Cancelling(r, id), id);
    CausesChange(r, CancelWorker(r, id).(killed := r.killed + {id}), id);
  }

  lemma CausesStart(r: Runner, e: Event)
    requires CausesOk(r) && Enabled(r, e) && e.Start?
    ensures CausesOk(Next(r, e))
  {
    var job := r.jobs[e.job];
    assert Caused(r, e.job);
    if job.agent.Some? && job.agent.value in r.stopped {
      CausesChange(r, r.(requested := r.requested + {e.job}), e.job);
      CausesFinish(r.(requested := r.requested + {e.job}), e.job, Cancelled);
    } else if job.status != Queued {
      CausesFinish(r, e.job, job.status);
    } else {
      CausesChange(r, Next(r, e), e.job);
    }
  }

  /** A stop moves on, perhaps to a worker it has cancelled. */
  lemma CausesStopMoves(r: Runner, agent: AgentId, stop: Stop)
    requires CausesOk(r) && AwaitsAsked(WithStop(r, agent, stop), agent)
    ensures CausesOk(WithStop(r, agent, stop))
  {
    var r' := WithStop(r, agent, stop);
    forall j | j in r'.jobs ensures Caused(r', j) {
      assert Caused(r, j);
    }
    forall other | other in r'.stopping ensures AwaitsAsked(r', other) {
      assert other != agent ==> AwaitsAsked(r, other);
    }
  }

  lemma CausesStopNext(r: Runner, e: Event)
    requires CausesOk(r) && Enabled(r, e) && e.StopNext?
    ensures CausesOk(Next(r, e))
  {
    var stop := r.stopping[e.agent];
    var id := stop.todo[0];
    if id in r.running && id in r.jobs {
      CausesCancel(r, id);
      CausesStopMoves(Cancelling(r, id), e.agent, Stop(stop.todo[1..], Some(id), false, false));
    } else {
      CausesStopMoves(r, e.agent, Stop(stop.todo[1..], None, false, false));
    }
  }

  lemma CausesStopWakes(r: Runner, e: Event)
    requires CausesOk(r) && Enabled(r, e) && e.StopWakes?
    ensures CausesOk(Next(r, e))
  {
    var stop := r.stopping[e.agent];
    if Records(r, e) {
      var f := Finish(r, stop.waiting.value, Cancelled);
      CausesFinish(r, stop.waiting.value, Cancelled);
      FinishTables(r, stop.waiting.value, Cancelled);
      assert AwaitsAsked(f, e.agent);
      CausesStopMoves(f, e.agent, stop.(recorded := true));
    } else {
      CausesStopMoves(r, e.agent, Stop(stop.todo, None, false, false));
    }
  }

  lemma CausesCutStop(r: Runner, e: Event)
    requires CausesOk(r) && Enabled(r, e) && e.CutStop?
    ensures CausesOk(Next(r, e))
  {
    var stop := r.stopping[e.agent];
    var id := stop.waiting.value;
    assert Caused(r, id) && AwaitsAsked(r, e.agent);
    CausesChange(r, Dropped(r, id), id);
    CausesStopMoves(Dropped(r, id), e.agent, stop.(cut := true));
  }

  lemma CausesQuiet(r: Runner, e: Event)
    requires CausesOk(r) && Enabled(r, e) && Quiet(e)
    ensures CausesOk(Next(r, e))
  {
    if e.StopAgent? {
      CausesStopMoves(r, e.agent, Stop(e.unfinished, None, false, false));
    }
    var r' := Next(r, e);
    forall j | j in r'.jobs ensures Caused(r', j) {
      assert Caused(r, j);
    }
    forall agent | agent in r'.stopping ensures AwaitsAsked(r', agent) {
      assert agent in r.stopping ==> AwaitsAsked(r, agent);
    }
  }

  lemma CausesElse(r: Runner, e: Event)
    requires CausesOk(r) && Enabled(r, e) && !Quiet(e) && !e.Begin? && !e.TakeSlot? && !e.Publish? && !e.CutPublication? && !e.Cancel? && !e.Kill?
    ensures CausesOk(Next(r, e))
  {
    match e
    case SubmitTask(id, key) => CausesSubmit(r, id, key, None, Next(r, e));
    case SubmitMessage(id) => CausesSubmit(r, id, Some(AgentKey(r.admission.value)), r.admission, Next(r, e));
    case Start(_) => CausesStart(r, e);
    case Complete(_, _) | Interrupt(_) | FinishUnstarted(_, _) => CausesFinish(r, e.job, EndStatus(r, e));
    case StopNext(_) => CausesStopNext(r, e);
    case StopWakes(_) => CausesStopWakes(r, e);
    case CutStop(_) => CausesCutStop(r, e);
  }

  /** Every step that marks a worker as cancelled has its cause. */
  lemma CausesStep(r: Runner, e: Event)
    requires CausesOk(r) && Enabled(r, e)
    ensures CausesOk(Next(r, e))
  {
    if Quiet(e) {
      CausesQuiet(r, e);
    } else if e.Begin? || e.TakeSlot? {
      CausesWorker(r, e.job, Next(r, e).jobs[e.job], Next(r, e));
    } else if e.Publish? || e.CutPublication? {
      CausesPublished(r, e);
    } else if e.Cancel? || e.Kill? {
      CausesCancel(r, e.job);
    } else {
      CausesElse(r, e);
    }
  }

  /** Every step keeps the invariant. */
  lemma StepIsSafe(r: Runner, e: Event)
    requires Inv(r) && Enabled(r, e)
    ensures Inv(Next(r, e))
  {
    TablesStep(r, e);
    OrdersStep(r, e);
    CausesStep(r, e);
  }

  lemma {:induction false} RunsAreSafe(r: Runner, events: seq<Event>, r': Runner)
    requires Inv(r) && Runs(r, events, r')
    ensures Inv(r')
    decreases |events|
  {
    if events != [] {
      StepIsSafe(r, events[0]);
      RunsAreSafe(Next(r, events[0]), events[1..], r');
    }
  }

  function NewRunner(limits: Limits): Runner {
    Runner(limits, map[], {}, 0, {}, {}, map[], 0, None, {}, map[], {}, {})
  }

  lemma StartsSafe(limits: Limits)
    ensures Inv(NewRunner(limits))
  {
  }

  // ---------------------------------------------------------------- main results

  /** A step cuts the publication of the job's end. */
  predicate Cuts(r: Runner, e: Event, id: JobId) {
    || e == CutPublication(id)
    || (e.CutStop? && e.agent in r.stopping && r.stopping[e.agent].waiting == Some(id)
        && (Is(r, id, Announcing) || Is(r, id, Publishing)))
  }

  /** A step of the run does. */
  ghost predicate CutIn(r: Runner, events: seq<Event>, id: JobId)
    decreases |events|
  {
    events != [] && Enabled(r, events[0]) && (Cuts(r, events[0], id) || CutIn(Next(r, events[0]), events[1..], id))
  }

  /** Its end will not be published any more. */
  predicate Unpublished(r: Runner, id: JobId) { Is(r, id, Over) && r.jobs[id].published == 0 }

  /** The end stays as it was recorded; its publication may still come, or be cut, once. */
  predicate SameEnd(job: Job, job': Job) {
    || job' == job
    || (job.phase != Over && job' == job.(phase := Over, published := job.published + 1))
    || (job.phase != Over && job' == job.(phase := Over))
  }

  predicate EndKept(r: Runner, r': Runner, id: JobId)
    requires id in r.jobs
  {
    id in r'.jobs && SameEnd(r.jobs[id], r'.jobs[id])
  }

  /** Where a step may take a worker. */
  predicate To(from_: Phase, to: Phase) {
    match from_
    case Created => to == InLine || to == Unstarted
    case InLine => to == Starting || to == Publishing
    case Starting => to == Working || to == Publishing
    case Working => to == Publishing
    case Unstarted => to == Announcing
    case _ => false
  }

  /** What one step may do to a job: nothing; mark it as cancelled; take its worker on; or
      publish its recorded end or cut that short. */
  predicate JobMove(job: Job, job': Job) {
    && job'.key == job.key && job'.agent == job.agent && (job.cancelling ==> job'.cancelling)
    && if HasEnded(job.phase) then SameEnd(job, job')
       else (job'.phase == job.phase || To(job.phase, job'.phase)) && job'.published == job.published
  }

  /** A step moves a job on; a recorded end is changed only by its publication or the cut of it. */
  ghost predicate JobKept(r: Runner, e: Event, next: Runner, id: JobId)
    requires id in r.jobs
  {
    && id in next.jobs && JobMove(r.jobs[id], next.jobs[id])
    && (HasEnded(r.jobs[id].phase) && next.jobs[id] != r.jobs[id] ==> e == Publish(id) || Cuts(r, e, id))
    && (id in r.requested ==> id in next.requested || HasEnded(next.jobs[id].phase))
  }

  lemma JobSame(r: Runner, e: Event, next: Runner, id: JobId)
    requires id in r.jobs && id in next.jobs && next.jobs[id] == r.jobs[id] && r.requested <= next.requested
    ensures JobKept(r, e, next, id)
  {
  }

  lemma JobFinish(r: Runner, e: Event, other: JobId, status: Status, id: JobId)
    requires other in r.jobs && !HasEnded(r.jobs[other].phase) && r.jobs[other].phase != Created
    requires RecordOk(r.jobs[other]) && id in r.jobs
    ensures JobKept(r, e, Finish(r, other, status), id)
  {
    FinishTables(r, other, status);
  }

  lemma JobStart(r: Runner, e: Event, id: JobId)
    requires JobsOk(r) && Enabled(r, e) && e.Start? && id in r.jobs
    ensures JobKept(r, e, Next(r, e), id)
  {
    var job := r.jobs[e.job];
    assert RecordOk(job);
    if job.agent.Some? && job.agent.value in r.stopped {
      JobFinish(r.(requested := r.requested + {e.job}), e, e.job, Cancelled, id);
    } else if id != e.job {
      JobSame(r, e, Next(r, e), id);
    }
  }

  lemma JobBegin(r: Runner, e: Event, id: JobId)
    requires Enabled(r, e) && e.Begin? && id in r.jobs
    ensures JobKept(r, e, Next(r, e), id)
  {
    if id != e.job {
      JobSame(r, e, Next(r, e), id);
    }
  }

  lemma JobCancelled(r: Runner, e: Event, other: JobId, id: JobId)
    requires other in r.jobs && !HasEnded(r.jobs[other].phase) && id in r.jobs
    ensures JobKept(r, e, CancelWorker(r, other), id) && JobKept(r, e, Cancelling(r, other), id)
  {
  }

  lemma JobWorker(r: Runner, e: Event, id: JobId)
    requires Enabled(r, e) && (e.TakeSlot? || e.Publish? || e.SubmitTask? || e.SubmitMessage?) && id in r.jobs
    ensures JobKept(r, e, Next(r, e), id)
  {
    if id != e.job {
      JobSame(r, e, Next(r, e), id);
    }
  }

  lemma JobDropped(r: Runner, e: Event, id: JobId)
    requires Enabled(r, e) && (e.CutPublication? || e.CutStop?) && id in r.jobs
    ensures JobKept(r, e, Next(r, e), id)
    ensures Cuts(r, e, id) ==> Next(r, e).jobs[id] == r.jobs[id].(phase := Over)
  {
  }

  lemma JobStop(r: Runner, e: Event, id: JobId)
    requires JobsOk(r) && Enabled(r, e) && (e.StopNext? || e.StopWakes?) && id in r.jobs
    ensures JobKept(r, e, Next(r, e), id)
  {
    StopJobs(r, e);
    if Records(r, e) {
      assert RecordOk(r.jobs[StopJob(r, e)]);
      JobFinish(r, e, StopJob(r, e), Cancelled, id);
    } else if Cancels(r, e) {
      JobCancelled(r, e, StopJob(r, e), id);
    }
  }

  /** A step that ends an entered worker, or one that never ran. */
  predicate Ending(e: Event) { e.Complete? || e.Interrupt? || e.FinishUnstarted? }

  lemma JobEnds(r: Runner, e: Event, id: JobId)
    requires JobsOk(r) && Enabled(r, e) && Ending(e) && id in r.jobs
    ensures JobKept(r, e, Next(r, e), id)
  {
    assert RecordOk(r.jobs[e.job]);
    JobFinish(r, e, e.job, EndStatus(r, e), id);
  }

  lemma JobElse(r: Runner, e: Event, id: JobId)
    requires JobsOk(r) && Enabled(r, e) && id in r.jobs && !Quiet(e) && !Ending(e) && !e.Start? && !e.StopNext? && !e.StopWakes?
    ensures JobKept(r, e, Next(r, e), id)
  {
    match e
    case Begin(_) => JobBegin(r, e, id);
    case Cancel(other) => JobCancelled(r, e, other, id);
    case Kill(other) => JobCancelled(r, e, other, id);
    case CutPublication(_) | CutStop(_) => JobDropped(r, e, id);
    case TakeSlot(_) | Publish(_) | SubmitTask(_, _) | SubmitMessage(_) => JobWorker(r, e, id);
  }

  /** Every step moves every job as a step may. */
  lemma JobStep(r: Runner, e: Event, id: JobId)
    requires JobsOk(r) && Enabled(r, e) && id in r.jobs
    ensures JobKept(r, e, Next(r, e), id)
  {
    if Quiet(e) {
      QuietStep(r, e);
    } else if Ending(e) {
      JobEnds(r, e, id);
    } else if e.Start? {
      JobStart(r, e, id);
    } else if e.StopNext? || e.StopWakes? {
      JobStop(r, e, id);
    } else {
      JobElse(r, e, id);
    }
  }

  /** An end is final: nothing that happens later changes it, and it is published at most once. */
  lemma {:induction false} EndIsFinal(r: Runner, events: seq<Event>, r': Runner, id: JobId)
    requires Inv(r) && Runs(r, events, r') && id in r.jobs && HasEnded(r.jobs[id].phase)
    ensures EndKept(r, r', id)
    decreases |events|
  {
    if events != [] {
      JobStep(r, events[0], id);
      StepIsSafe(r, events[0]);
      EndIsFinal(Next(r, events[0]), events[1..], r', id);
    }
  }

  // ---------------------------------------------------------------- bounds and order

  /** At every scheduling point running and reserved jobs stay within the waiting limit, and
      no more jobs are in a slot than may be. */
  lemma BoundsHold(r: Runner, events: seq<Event>, r': Runner)
    requires Inv(r) && Runs(r, events, r')
    ensures |r'.running| + r'.reserved <= r'.limits.maxWaiting
    ensures |r'.slots| <= r'.limits.maxConcurrent
    ensures forall id :: id in r'.slots <==> id in r'.jobs && InSlot(r'.jobs[id].phase)
  {
    RunsAreSafe(r, events, r');
  }

  /** A key has a lock entry exactly while it has users, all of them share it, and one at
      most is in a slot: the first of its line. */
  lemma OneAtATime(r: Runner, events: seq<Event>, r': Runner, i: JobId, j: JobId)
    requires Inv(r) && Runs(r, events, r') && i in r'.jobs && j in r'.jobs
    requires r'.jobs[i].key.Some? && r'.jobs[i].key == r'.jobs[j].key
    ensures Entered(r'.jobs[i].phase) ==> r'.jobs[i].key.value in r'.orders && r'.jobs[i].lock == Some(r'.orders[r'.jobs[i].key.value].lock)
    ensures Entered(r'.jobs[i].phase) && Entered(r'.jobs[j].phase) ==> r'.jobs[i].lock == r'.jobs[j].lock
    ensures InSlot(r'.jobs[i].phase) && InSlot(r'.jobs[j].phase) ==> i == j
    ensures forall key :: key in r'.orders ==> r'.orders[key].users == |r'.orders[key].line| > 0
  {
    RunsAreSafe(r, events, r');
    var key := r'.jobs[i].key.value;
    assert InLineOk(r', i) && InLineOk(r', j) && OrderOk(r', key);
    forall key | key in r'.orders ensures r'.orders[key].users == |r'.orders[key].line| > 0 {
      assert OrderOk(r', key);
    }
  }

  /** A message to an agent is in the agent's line. */
  predicate Keyed(r: Runner) {
    forall id :: id in r.jobs && r.jobs[id].agent.Some? ==> r.jobs[id].key == Some(AgentKey(r.jobs[id].agent.value))
  }

  lemma KeyedStep(r: Runner, e: Event)
    requires JobsOk(r) && Keyed(r) && Enabled(r, e)
    ensures Keyed(Next(r, e))
  {
    forall id | id in Next(r, e).jobs && Next(r, e).jobs[id].agent.Some?
      ensures Next(r, e).jobs[id].key == Some(AgentKey(Next(r, e).jobs[id].agent.value))
    {
      if id in r.jobs {
        JobStep(r, e, id);
      } else {
        NewIsSubmitted(r, e, id);
      }
    }
  }

  lemma NewIsSubmitted(r: Runner, e: Event, id: JobId)
    requires Enabled(r, e) && id !in r.jobs && id in Next(r, e).jobs
    ensures (e.SubmitTask? || e.SubmitMessage?) && e.job == id
  {
  }

  /** Messages to one agent are run one at a time. */
  lemma {:induction false} AgentsOneAtATime(r: Runner, events: seq<Event>, r': Runner, i: JobId, j: JobId)
    requires Inv(r) && Keyed(r) && Runs(r, events, r') && i in r'.jobs && j in r'.jobs
    requires r'.jobs[i].agent.Some? && r'.jobs[i].agent == r'.jobs[j].agent
    ensures InSlot(r'.jobs[i].phase) && InSlot(r'.jobs[j].phase) ==> i == j
    decreases |events|
  {
    if events == [] {
      OneAtATime(r, events, r', i, j);
    } else {
      StepIsSafe(r, events[0]);
      KeyedStep(r, events[0]);
      AgentsOneAtATime(Next(r, events[0]), events[1..], r', i, j);
    }
  }

  // ---------------------------------------------------------------- cancellation

  predicate InEnd(r: Runner, id: JobId) { id in r.jobs && HasEnded(r.jobs[id].phase) }

  /** Its cancellation was asked for, and its worker told. */
  ghost predicate Asked(r: Runner, id: JobId) {
    && id in r.requested && id in r.jobs
    && ((r.jobs[id].cancelling && Entered(r.jobs[id].phase)) || r.jobs[id].phase == Unstarted)
  }

  lemma AskedStep(r: Runner, e: Event, id: JobId)
    requires Inv(r) && Enabled(r, e) && Asked(r, id)
    ensures Asked(Next(r, e), id) || InEnd(Next(r, e), id)
  {
    JobStep(r, e, id);
  }

  lemma {:induction false} AskedStays(r: Runner, events: seq<Event>, r': Runner, id: JobId)
    requires Inv(r) && Runs(r, events, r') && Asked(r, id)
    ensures Asked(r', id) || InEnd(r', id)
    decreases |events|
  {
    if events != [] {
      var next := Next(r, events[0]);
      AskedStep(r, events[0], id);
      StepIsSafe(r, events[0]);
      if Asked(next, id) {
        AskedStays(next, events[1..], r', id);
      } else {
        EndIsFinal(next, events[1..], r', id);
      }
    }
  }

  /** A step that ends the job as cancelled may be taken. */
  ghost predicate MayEndCancelled(r: Runner, id: JobId) {
    || (Enabled(r, Interrupt(id)) && Next(r, Interrupt(id)).jobs[id].status == Cancelled)
    || (Enabled(r, FinishUnstarted(id, Cancelled)) && Next(r, FinishUnstarted(id, Cancelled)).jobs[id].status == Cancelled)
  }

  lemma AskedMayEnd(r: Runner, id: JobId)
    requires JobsOk(r) && Asked(r, id)
    ensures MayEndCancelled(r, id)
  {
    assert RecordOk(r.jobs[id]);
    FinishTables(r, id, Cancelled);
    if r.jobs[id].phase == Unstarted {
      assert Enabled(r, FinishUnstarted(id, Cancelled));
    } else {
      assert Enabled(r, Interrupt(id)) && EndStatus(r, Interrupt(id)) == Cancelled;
    }
  }

  lemma CancelAsks(r: Runner, id: JobId)
    requires JobsOk(r) && Enabled(r, Cancel(id))
    ensures Asked(Next(r, Cancel(id)), id)
  {
  }

  /** A cancellation is never lost: whatever happens after it, the job has ended, or a step
      that ends it as cancelled may be taken, whoever holds its line and the slots. */
  lemma CancelIsHonoured(r: Runner, events: seq<Event>, r': Runner, id: JobId)
    requires Inv(r) && Enabled(r, Cancel(id)) && Runs(Next(r, Cancel(id)), events, r')
    ensures InEnd(r', id) || MayEndCancelled(r', id)
  {
    var next := Next(r, Cancel(id));
    StepIsSafe(r, Cancel(id));
    CancelAsks(r, id);
    AskedStays(next, events, r', id);
    RunsAreSafe(next, events, r');
    if Asked(r', id) {
      AskedMayEnd(r', id);
    }
  }

  // ---------------------------------------------------------------- arrival order

  /** `i` is in the line before `j`. */
  ghost predicate Precedes(line: seq<JobId>, i: JobId, j: JobId) {
    exists a, b :: 0 <= a < b < |line| && line[a] == i && line[b] == j
  }

  lemma PrecedesSnoc(line: seq<JobId>, x: JobId, i: JobId, j: JobId)
    requires Precedes(line, i, j)
    ensures Precedes(line + [x], i, j)
  {
    var a, b :| 0 <= a < b < |line| && line[a] == i && line[b] == j;
    assert (line + [x])[a] == i && (line + [x])[b] == j;
  }

  lemma PrecedesLast(line: seq<JobId>, i: JobId, j: JobId)
    requires i in line
    ensures Precedes(line + [j], i, j)
  {
    var k :| 0 <= k < |line| && line[k] == i;
    assert (line + [j])[k] == i && (line + [j])[|line|] == j;
  }

  lemma {:induction false} LeavePrecedes(line: seq<JobId>, x: JobId, i: JobId, j: JobId)
    requires Distinct(line) && Precedes(line, i, j) && x != i && x != j
    ensures Precedes(Leave(line, x), i, j)
  {
    var a, b :| 0 <= a < b < |line| && line[a] == i && line[b] == j;
    var front, last := line[..|line| - 1], line[|line| - 1];
    assert line == front + [last] && front[a] == i;
    DistinctSnoc(front, last);
    LeaveMembers(front, x);
    LeaveSnoc(front, last, x);
    if b == |front| {
      PrecedesLast(Leave(front, x), i, j);
    } else {
      assert front[b] == j;
      LeavePrecedes(front, x, i, j);
      PrecedesSnoc(Leave(front, x), last, i, j);
    }
  }

  /** In the line of `key`, `i` is before `j`. */
  ghost predicate Before(r: Runner, key: Key, i: JobId, j: JobId) {
    key in r.orders && Precedes(r.orders[key].line, i, j)
  }

  lemma FinishOrderKept(r: Runner, id: JobId, status: Status, key: Key, i: JobId, j: JobId)
    requires OrdersOk(r) && id in r.jobs && Before(r, key, i, j) && id != i && id != j
    ensures Before(Finish(r, id, status), key, i, j)
  {
    assert InLineOk(r, id) && OrderOk(r, key);
    LeavePrecedes(r.orders[key].line, id, i, j);
  }

  lemma BeginOrderKept(r: Runner, e: Event, key: Key, i: JobId, j: JobId)
    requires OrdersOk(r) && Enabled(r, e) && e.Begin? && Before(r, key, i, j)
    ensures Before(Next(r, e), key, i, j)
  {
    PrecedesSnoc(r.orders[key].line, e.job, i, j);
  }

  /** The job a step ends, if any. */
  ghost predicate Ends(r: Runner, e: Event, id: JobId)
    requires Enabled(r, e)
  {
    InEnd(Next(r, e), id)
  }

  /** Steps that leave the lines as they are. */
  predicate LeavesLines(e: Event) {
    !e.Begin? && !e.Start? && !Ending(e) && !e.StopNext? && !e.StopWakes?
  }

  lemma LinesSame(r: Runner, e: Event)
    requires Enabled(r, e) && LeavesLines(e)
    ensures Next(r, e).orders == r.orders
  {
    if Quiet(e) {
      QuietStep(r, e);
    } else if e.Cancel? || e.Kill? {
      LinesCancelled(r, e.job);
    } else {
      LinesWorker(r, e);
    }
  }

  lemma LinesCancelled(r: Runner, id: JobId)
    requires id in r.jobs
    ensures CancelWorker(r, id).orders == r.orders && Cancelling(r, id).orders == r.orders
  {
  }

  lemma LinesWorker(r: Runner, e: Event)
    requires Enabled(r, e)
    requires e.TakeSlot? || e.Publish? || e.SubmitTask? || e.SubmitMessage? || e.CutPublication? || e.CutStop?
    ensures Next(r, e).orders == r.orders
  {
  }

  lemma BeforeStep(r: Runner, e: Event, key: Key, i: JobId, j: JobId)
    requires Inv(r) && Enabled(r, e) && Before(r, key, i, j)
    ensures Before(Next(r, e), key, i, j) || Ends(r, e, i) || Ends(r, e, j)
  {
    if LeavesLines(e) {
      LinesSame(r, e);
    } else if e.Begin? {
      BeginOrderKept(r, e, key, i, j);
    } else if e.Start? {
      BeforeStart(r, e, key, i, j);
    } else if Ending(e) {
      BeforeEnd(r, e, key, i, j);
    } else {
      BeforeStop(r, e, key, i, j);
    }
  }

  lemma BeforeStop(r: Runner, e: Event, key: Key, i: JobId, j: JobId)
    requires OrdersOk(r) && Enabled(r, e) && (e.StopNext? || e.StopWakes?) && Before(r, key, i, j)
    ensures Before(Next(r, e), key, i, j) || Ends(r, e, i) || Ends(r, e, j)
  {
    StopJobs(r, e);
    if Records(r, e) {
      var id := StopJob(r, e);
      FinishTables(r, id, Cancelled);
      if id != i && id != j {
        FinishOrderKept(r, id, Cancelled, key, i, j);
      }
    }
  }

  lemma BeforeEnd(r: Runner, e: Event, key: Key, i: JobId, j: JobId)
    requires OrdersOk(r) && Enabled(r, e) && (e.Complete? || e.Interrupt? || e.FinishUnstarted?) && Before(r, key, i, j)
    ensures Before(Next(r, e), key, i, j) || Ends(r, e, i) || Ends(r, e, j)
  {
    FinishTables(r, e.job, EndStatus(r, e));
    if e.job != i && e.job != j {
      FinishOrderKept(r, e.job, EndStatus(r, e), key, i, j);
    }
  }

  lemma BeforeStart(r: Runner, e: Event, key: Key, i: JobId, j: JobId)
    requires Inv(r) && Enabled(r, e) && e.Start? && Before(r, key, i, j)
    ensures Before(Next(r, e), key, i, j) || Ends(r, e, i) || Ends(r, e, j)
  {
    var id := e.job;
    if id != i && id != j {
      var asked := r.(requested := r.requested + {id});
      SameOrders(r, asked);
      FinishOrderKept(asked, id, Cancelled, key, i, j);
      FinishOrderKept(r, id, r.jobs[id].status, key, i, j);
    }
  }

  lemma SlotIsFirst(r: Runner, key: Key, i: JobId, j: JobId)
    requires Inv(r) && Before(r, key, i, j)
    ensures j in r.jobs && !InSlot(r.jobs[j].phase)
  {
    assert OrderOk(r, key);
    var a, b :| 0 <= a < b < |r.orders[key].line| && r.orders[key].line[a] == i && r.orders[key].line[b] == j;
    assert j in r.orders[key].line;
    assert InLineOk(r, j);
    assert r.orders[key].line[0] != r.orders[key].line[b];
  }

  lemma StaysEnded(r: Runner, events: seq<Event>, r': Runner, id: JobId)
    requires Inv(r) && Runs(r, events, r') && InEnd(r, id)
    ensures InEnd(r', id) && !InSlot(r'.jobs[id].phase)
  {
    EndIsFinal(r, events, r', id);
  }

  /** Jobs of one key run in the order they came: while the earlier one has not ended, the
      later one is in no slot. */
  lemma {:induction false} FirstComeFirstServed(r: Runner, events: seq<Event>, r': Runner, key: Key, i: JobId, j: JobId)
    requires Inv(r) && Runs(r, events, r') && Before(r, key, i, j)
    requires j in r'.jobs && InSlot(r'.jobs[j].phase)
    ensures InEnd(r', i)
    decreases |events|
  {
    if events == [] {
      SlotIsFirst(r, key, i, j);
    } else {
      var next := Next(r, events[0]);
      StepIsSafe(r, events[0]);
      BeforeStep(r, events[0], key, i, j);
      if Before(next, key, i, j) {
        FirstComeFirstServed(next, events[1..], r', key, i, j);
      } else if InEnd(next, i) {
        StaysEnded(next, events[1..], r', i);
      } else {
        StaysEnded(next, events[1..], r', j);
      }
    }
  }
}
