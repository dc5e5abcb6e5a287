/** How background jobs end: each is published once, unless its publication is cut; and what
    a stop of an agent promises when it returns. */
module BackgroundEnds {
  import opened Basics
  import opened BackgroundRunner

  // ---------------------------------------------------------------- publication

  /** A job that is over now was published in this step, or cut in it. */
  lemma FirstOver(r: Runner, e: Event, id: JobId)
    requires Inv(r) && Enabled(r, e) && !Is(r, id, Over)
    ensures Is(Next(r, e), id, Over) ==> Next(r, e).jobs[id].published == (if Cuts(r, e, id) then 0 else 1)
    ensures Cuts(r, e, id) ==> Is(Next(r, e), id, Over)
  {
    if id !in r.jobs {
      NewIsNotOver(r, e, id);
    } else {
      assert RecordOk(r.jobs[id]);
      JobStep(r, e, id);
      EndingStep(r, e, id);
    }
  }

  /** What the publication of an end and the cut of it do to the job. */
  lemma EndingStep(r: Runner, e: Event, id: JobId)
    requires Enabled(r, e) && id in r.jobs
    ensures Cuts(r, e, id) ==> e != Publish(id) && id in Next(r, e).jobs && Next(r, e).jobs[id] == r.jobs[id].(phase := Over)
    ensures e == Publish(id) ==> id in Next(r, e).jobs && Next(r, e).jobs[id].published == r.jobs[id].published + 1
  {
    if Cuts(r, e, id) {
      JobDropped(r, e, id);
    }
  }

  lemma NewIsNotOver(r: Runner, e: Event, id: JobId)
    requires Inv(r) && Enabled(r, e) && id !in r.jobs
    ensures !Is(Next(r, e), id, Over) && !Cuts(r, e, id)
  {
    if e.SubmitTask? || e.SubmitMessage? {
      NewIsCreated(r, e, id);
    } else {
      SameKeys(r, e);
    }
  }

  lemma NewIsCreated(r: Runner, e: Event, id: JobId)
    requires Enabled(r, e) && (e.SubmitTask? || e.SubmitMessage?) && id !in r.jobs
    ensures id in Next(r, e).jobs ==> Is(Next(r, e), id, Created)
  {
  }

  lemma SameKeys(r: Runner, e: Event)
    requires Enabled(r, e) && !e.SubmitTask? && !e.SubmitMessage?
    ensures Next(r, e).jobs.Keys == r.jobs.Keys
  {
    match e
    case Complete(_, _) | Interrupt(_) | FinishUnstarted(_, _) => FinishTables(r, e.job, EndStatus(r, e));
    case Start(_) => StartKeys(r, e);
    case StopNext(_) | StopWakes(_) => StopKeys(r, e);
    case Begin(_) | TakeSlot(_) | Publish(_) | CutPublication(_) | CutStop(_) => StepKeys(r, e);
    case Cancel(_) | Kill(_) => CancelKeys(r, e.job);
    case _ => QuietStep(r, e);
  }

  lemma StartKeys(r: Runner, e: Event)
    requires Enabled(r, e) && e.Start?
    ensures Next(r, e).jobs.Keys == r.jobs.Keys
  {
    FinishTables(r.(requested := r.requested + {e.job}), e.job, Cancelled);
    FinishTables(r, e.job, r.jobs[e.job].status);
  }

  lemma StopKeys(r: Runner, e: Event)
    requires Enabled(r, e) && (e.StopNext? || e.StopWakes?)
    ensures Next(r, e).jobs.Keys == r.jobs.Keys
  {
    StopJobs(r, e);
    if Records(r, e) {
      FinishTables(r, StopJob(r, e), Cancelled);
    } else if Cancels(r, e) {
      CancelKeys(r, StopJob(r, e));
    }
  }

  lemma StepKeys(r: Runner, e: Event)
    requires Enabled(r, e) && (e.Begin? || e.TakeSlot? || e.Publish? || e.CutPublication? || e.CutStop?)
    ensures Next(r, e).jobs.Keys == r.jobs.Keys
  {
  }

  lemma CancelKeys(r: Runner, id: JobId)
    requires id in r.jobs
    ensures CancelWorker(r, id).jobs.Keys == r.jobs.Keys && Cancelling(r, id).jobs.Keys == r.jobs.Keys
  {
  }

  lemma OverIsNotCut(r: Runner, e: Event, id: JobId)
    requires Enabled(r, e) && Is(r, id, Over)
    ensures !Cuts(r, e, id)
  {
  }

  /** Once over, a job is neither published nor cut. */
  lemma {:induction false} OverStays(r: Runner, events: seq<Event>, r': Runner, id: JobId)
    requires Inv(r) && Runs(r, events, r') && Is(r, id, Over)
    ensures Is(r', id, Over) && r'.jobs[id] == r.jobs[id] && !CutIn(r, events, id)
    decreases |events|
  {
    if events != [] {
      OverIsNotCut(r, events[0], id);
      JobStep(r, events[0], id);
      StepIsSafe(r, events[0]);
      OverStays(Next(r, events[0]), events[1..], r', id);
    }
  }

  lemma {:induction false} PublishedUnlessCut(r: Runner, events: seq<Event>, r': Runner, id: JobId)
    requires Inv(r) && Runs(r, events, r') && !Is(r, id, Over)
    ensures Is(r', id, Over) ==> r'.jobs[id].published == (if CutIn(r, events, id) then 0 else 1)
    ensures CutIn(r, events, id) ==> Is(r', id, Over)
    decreases |events|
  {
    if events != [] {
      var next := Next(r, events[0]);
      FirstOver(r, events[0], id);
      StepIsSafe(r, events[0]);
      if Is(next, id, Over) {
        OverStays(next, events[1..], r', id);
      } else {
        PublishedUnlessCut(next, events[1..], r', id);
      }
    }
  }

  /** Whatever mix of completion, failure, timeout, cancellation, shutdown and agent stop
      occurred: a submitted job is unfinished, unpublished and known to the runner, or it has
      one terminal status. It is never published twice, and when everything about it is over
      it has been published if and only if no step cut its publication. */
  lemma EndedExactlyOnce(r: Runner, events: seq<Event>, r': Runner, id: JobId)
    requires Inv(r) && Runs(r, events, r') && id in r'.jobs
    ensures r'.jobs[id].published == (if r'.jobs[id].phase == Over && !CutIn(r, events, id) && !Unpublished(r, id) then 1 else 0)
    ensures HasEnded(r'.jobs[id].phase) <==> Terminal(r'.jobs[id].status)
    ensures id in r'.running <==> !Terminal(r'.jobs[id].status)
    ensures id in r'.requested ==> !Terminal(r'.jobs[id].status)
  {
    RunsAreSafe(r, events, r');
    assert RecordOk(r'.jobs[id]);
    if Is(r, id, Over) {
      assert RecordOk(r.jobs[id]);
      OverStays(r, events, r', id);
    } else {
      PublishedUnlessCut(r, events, r', id);
    }
  }

  // ---------------------------------------------------------------- what a returned stop promises

  predicate StopReturned(r: Runner, agent: AgentId) {
    agent in r.stopping && !r.stopping[agent].cut && r.stopping[agent].todo == [] && r.stopping[agent].waiting.None?
  }

  /** After a stop that found its agent active has returned, every message to the agent has
      ended and is out of every table; it has been published, or is just being published by
      another, or its publication was cut. */
  lemma StoppedAgentIsQuiet(r: Runner, events: seq<Event>, r': Runner, agent: AgentId, id: JobId)
    requires Inv(r) && Runs(r, events, r') && agent in r'.stopped && StopReturned(r', agent)
    requires id in r'.jobs && r'.jobs[id].agent == Some(agent)
    ensures Terminal(r'.jobs[id].status) && id !in r'.running && id !in r'.slots
    ensures r'.jobs[id].published == 1 || r'.jobs[id].phase == Publishing || r'.jobs[id].phase == Announcing || Unpublished(r', id)
  {
    RunsAreSafe(r, events, r');
    assert RecordOk(r'.jobs[id]);
  }

  /** The worker was entered: what ends the job is its own step. */
  predicate Ran(r: Runner, id: JobId) {
    id in r.jobs && RanPhase(r.jobs[id].phase)
  }

  predicate RanPhase(phase: Phase) { Entered(phase) || phase == Publishing || phase == Over }

  lemma RanMoves(job: Job, job': Job)
    requires JobMove(job, job') && RanPhase(job.phase)
    ensures RanPhase(job'.phase)
  {
  }

  lemma RanStep(r: Runner, e: Event, id: JobId)
    requires Inv(r) && Enabled(r, e) && Ran(r, id)
    ensures Ran(Next(r, e), id)
  {
    JobStep(r, e, id);
    RanMoves(r.jobs[id], Next(r, e).jobs[id]);
  }

  /** The stop of `agent` awaits the worker of `id`. */
  predicate Awaits(r: Runner, agent: AgentId, id: JobId) {
    agent in r.stopping && r.stopping[agent].waiting == Some(id) && !r.stopping[agent].recorded
  }

  lemma AwaitsStep(r: Runner, e: Event, agent: AgentId, id: JobId)
    requires Enabled(r, e) && Ran(r, id) && Awaits(r, agent, id) && agent in r.stopped
    ensures agent in Next(r, e).stopped && (Awaits(Next(r, e), agent, id) || Is(r, id, Over))
  {
    match e
    case Complete(_, _) | Interrupt(_) | FinishUnstarted(_, _) => FinishTables(r, e.job, EndStatus(r, e));
    case Start(_) =>
      FinishTables(r.(requested := r.requested + {e.job}), e.job, Cancelled);
      FinishTables(r, e.job, r.jobs[e.job].status);
    case StopWakes(other) => AwaitsWakes(r, e, agent, id);
    case _ => AwaitsOther(r, e, agent, id);
  }

  lemma AwaitsWakes(r: Runner, e: Event, agent: AgentId, id: JobId)
    requires Enabled(r, e) && e.StopWakes? && Ran(r, id) && Awaits(r, agent, id) && agent in r.stopped
    ensures agent in Next(r, e).stopped && (Awaits(Next(r, e), agent, id) || Is(r, id, Over))
  {
    if r.jobs[StopJob(r, e)].phase == Unstarted {
      FinishTables(r, StopJob(r, e), Cancelled);
    }
  }

  lemma AwaitsOther(r: Runner, e: Event, agent: AgentId, id: JobId)
    requires Enabled(r, e) && Awaits(r, agent, id) && agent in r.stopped
    requires !e.Complete? && !e.Interrupt? && !e.FinishUnstarted? && !e.Start? && !e.StopWakes?
    ensures agent in Next(r, e).stopped && Awaits(Next(r, e), agent, id)
  {
    if e.StopAgent? || e.StopNext? || e.CutStop? {
      AwaitsStopping(r, e, agent, id);
    } else if e.Cancel? || e.Kill? {
      CancelKeepsStops(r, e.job);
    } else {
      StopsSame(r, e);
    }
  }

  lemma AwaitsStopping(r: Runner, e: Event, agent: AgentId, id: JobId)
    requires Enabled(r, e) && Awaits(r, agent, id) && agent in r.stopped && (e.StopAgent? || e.StopNext? || e.CutStop?)
    ensures agent in Next(r, e).stopped && Awaits(Next(r, e), agent, id)
  {
  }

  lemma CancelKeepsStops(r: Runner, id: JobId)
    requires id in r.jobs
    ensures CancelWorker(r, id).stopping == r.stopping && CancelWorker(r, id).stopped == r.stopped
    ensures Cancelling(r, id).stopping == r.stopping && Cancelling(r, id).stopped == r.stopped
  {
  }

  lemma StopsSame(r: Runner, e: Event)
    requires Enabled(r, e) && !e.Complete? && !e.Interrupt? && !e.FinishUnstarted? && !e.Start?
    requires !e.StopAgent? && !e.StopNext? && !e.StopWakes? && !e.CutStop? && !e.Cancel? && !e.Kill?
    ensures Next(r, e).stopping == r.stopping && Next(r, e).stopped == r.stopped
  {
    if e.Begin? {
      BeginKeepsStops(r, e);
    }
  }

  lemma BeginKeepsStops(r: Runner, e: Event)
    requires Enabled(r, e) && e.Begin?
    ensures Next(r, e).stopping == r.stopping && Next(r, e).stopped == r.stopped
  {
  }

  /** A stop that found a message's worker running goes on only once its end is published, or
      its publication cut. */
  lemma {:induction false} StopAwaitsPublication(r: Runner, events: seq<Event>, r': Runner, agent: AgentId, id: JobId)
    requires Inv(r) && Runs(r, events, r') && Ran(r, id) && agent in r.stopped && Awaits(r, agent, id)
    requires !Awaits(r', agent, id) && !Unpublished(r, id)
    ensures Is(r', id, Over) && r'.jobs[id].published == (if CutIn(r, events, id) then 0 else 1)
  {
    WaitsForOver(r, events, r', agent, id);
    EndedExactlyOnce(r, events, r', id);
  }

  lemma {:induction false} WaitsForOver(r: Runner, events: seq<Event>, r': Runner, agent: AgentId, id: JobId)
    requires Inv(r) && Runs(r, events, r') && Ran(r, id) && agent in r.stopped && Awaits(r, agent, id)
    requires !Awaits(r', agent, id)
    ensures Is(r', id, Over)
    decreases |events|
  {
    if r.jobs[id].phase == Over {
      EndIsFinal(r, events, r', id);
    } else if events != [] {
      StepIsSafe(r, events[0]);
      RanStep(r, events[0], id);
      AwaitsStep(r, events[0], agent, id);
      WaitsForOver(Next(r, events[0]), events[1..], r', agent, id);
    }
  }

  // ---------------------------------------------------------------- a stop that returns first

  lemma RunsFrom(r: Runner, e: Event, m: Runner, events: seq<Event>, r': Runner)
    requires Enabled(r, e) && Next(r, e) == m && Runs(m, events, r')
    ensures Runs(r, [e] + events, r')
  {
    assert ([e] + events)[1..] == events;
  }

  function Only(id: JobId, job: Job): map<JobId, Job> { map[id := job] }

  function MessageJob(agent: AgentId, phase: Phase, lock: Option<nat>, status: Status): Job {
    Job(Some(AgentKey(agent)), Some(agent), phase, lock, false, status, 0)
  }

  /** A runner whose one message is in a slot of its own. */
  function InOneSlot(limits: Limits, id: JobId, job: Job, key: Key): Runner {
    Runner(limits, Only(id, job), {id}, 0, {}, {id}, map[key := Order(0, [id], 1)], 1, None, {}, map[], {}, {})
  }

  function OneEnded(limits: Limits, id: JobId, agent: AgentId): Runner {
    Runner(limits, Only(id, MessageJob(agent, Publishing, None, Done)), {}, 0, {}, {}, map[], 1, None, {}, map[], {}, {})
  }

  lemma BeginsAlone(limits: Limits, agent: AgentId, id: JobId)
    ensures var submitted := NewRunner(limits).(jobs := Only(id, MessageJob(agent, Created, None, Queued)), running := {id});
            && Enabled(submitted, Begin(id))
            && Next(submitted, Begin(id)) == InOneSlot(limits, id, MessageJob(agent, InLine, Some(0), Queued), AgentKey(agent)).(slots := {})
  {
    assert [] + [id] == [id];
  }

  lemma TakesSlotAlone(limits: Limits, agent: AgentId, id: JobId)
    requires limits.maxConcurrent > 0
    ensures var line := InOneSlot(limits, id, MessageJob(agent, InLine, Some(0), Queued), AgentKey(agent)).(slots := {});
            && Enabled(line, TakeSlot(id))
            && Next(line, TakeSlot(id)) == InOneSlot(limits, id, MessageJob(agent, Starting, Some(0), Queued), AgentKey(agent))
  {
  }

  lemma MessageTakesSlot(limits: Limits, agent: AgentId, id: JobId)
    requires limits.maxWaiting > 0 && limits.maxConcurrent > 0
    ensures Runs(NewRunner(limits), [AdmitMessage(agent), SubmitMessage(id), Begin(id), TakeSlot(id)],
                 InOneSlot(limits, id, MessageJob(agent, Starting, Some(0), Queued), AgentKey(agent)))
  {
    var key := AgentKey(agent);
    var admitted := NewRunner(limits).(admission := Some(agent), reserved := 1);
    var submitted := NewRunner(limits).(jobs := Only(id, MessageJob(agent, Created, None, Queued)), running := {id});
    var line := InOneSlot(limits, id, MessageJob(agent, InLine, Some(0), Queued), key).(slots := {});
    var slot := InOneSlot(limits, id, MessageJob(agent, Starting, Some(0), Queued), key);
    assert Next(admitted, SubmitMessage(id)) == submitted;
    BeginsAlone(limits, agent, id);
    TakesSlotAlone(limits, agent, id);
    RunsFrom(line, TakeSlot(id), slot, [], slot);
    RunsFrom(submitted, Begin(id), line, [TakeSlot(id)], slot);
    RunsFrom(admitted, SubmitMessage(id), submitted, [Begin(id), TakeSlot(id)], slot);
    RunsFrom(NewRunner(limits), AdmitMessage(agent), admitted, [SubmitMessage(id), Begin(id), TakeSlot(id)], slot);
    assert [AdmitMessage(agent)] + [SubmitMessage(id), Begin(id), TakeSlot(id)] == [AdmitMessage(agent), SubmitMessage(id), Begin(id), TakeSlot(id)];
  }

  /** The message's turn completes; before its end is published the agent is stopped, and the
      stop finds nothing to wait for. */
  lemma StopReturnsFirst(limits: Limits, agent: AgentId, id: JobId) returns (r: Runner, r': Runner)
    requires limits.maxWaiting > 0 && limits.maxConcurrent > 0
    ensures Runs(NewRunner(limits), [AdmitMessage(agent), SubmitMessage(id), Begin(id), TakeSlot(id)], r)
    ensures Runs(r, [Start(id), Complete(id, Done), StopAgent(agent, [])], r')
    ensures agent in r'.stopped && StopReturned(r', agent)
    ensures id in r'.jobs && r'.jobs[id].agent == Some(agent) && r'.jobs[id].status == Done && r'.jobs[id].published == 0
  {
    var key := AgentKey(agent);
    MessageTakesSlot(limits, agent, id);
    r := InOneSlot(limits, id, MessageJob(agent, Starting, Some(0), Queued), key);
    var working := InOneSlot(limits, id, MessageJob(agent, Working, Some(0), Running), key);
    var ended := OneEnded(limits, id, agent);
    r' := ended.(stopped := {agent}, stopping := map[agent := Stop([], None, false, false)]);
    StartsAlone(limits, agent, id);
    CompletesAlone(limits, agent, id);
    assert Listed(ended, agent, []);
    RunsFrom(ended, StopAgent(agent, []), r', [], r');
    RunsFrom(working, Complete(id, Done), ended, [StopAgent(agent, [])], r');
    RunsFrom(r, Start(id), working, [Complete(id, Done), StopAgent(agent, [])], r');
    assert [Start(id)] + [Complete(id, Done), StopAgent(agent, [])] == [Start(id), Complete(id, Done), StopAgent(agent, [])];
  }

  lemma StartsAlone(limits: Limits, agent: AgentId, id: JobId)
    ensures var starting := InOneSlot(limits, id, MessageJob(agent, Starting, Some(0), Queued), AgentKey(agent));
            && Enabled(starting, Start(id))
            && Next(starting, Start(id)) == InOneSlot(limits, id, MessageJob(agent, Working, Some(0), Running), AgentKey(agent))
  {
  }

  lemma CompletesAlone(limits: Limits, agent: AgentId, id: JobId)
    ensures var working := InOneSlot(limits, id, MessageJob(agent, Working, Some(0), Running), AgentKey(agent));
            Enabled(working, Complete(id, Done)) && Next(working, Complete(id, Done)) == OneEnded(limits, id, agent)
  {
    var working := InOneSlot(limits, id, MessageJob(agent, Working, Some(0), Running), AgentKey(agent));
    assert LeaveOrder(working, AgentKey(agent), id).orders == map[];
  }

  // ---------------------------------------------------------------- a second stop

  /** The runner has a message to the agent that has not ended. */
  predicate HasMessage(r: Runner, agent: AgentId) {
    exists id :: id in r.running && id in r.jobs && r.jobs[id].agent == Some(agent)
  }

  /** A stop that finds its agent already stopped returns at once: with every message to it
      ended if and only if the runner has none of them any more, which is so once the first
      stop has returned. */
  lemma SecondStop(r: Runner, events: seq<Event>, r': Runner, agent: AgentId)
    requires Inv(r) && Runs(r, events, r') && Enabled(r', StopAgain(agent))
    ensures Next(r', StopAgain(agent)) == r'
    ensures (forall id :: id in r'.jobs && r'.jobs[id].agent == Some(agent) ==> Terminal(r'.jobs[id].status))
       <==> !HasMessage(r', agent)
    ensures StopReturned(r', agent) ==> !HasMessage(r', agent)
  {
    RunsAreSafe(r, events, r');
    forall id | id in r'.jobs ensures id in r'.running <==> !Terminal(r'.jobs[id].status) {
      assert RecordOk(r'.jobs[id]);
    }
    if StopReturned(r', agent) && HasMessage(r', agent) {
      var id :| id in r'.running && id in r'.jobs && r'.jobs[id].agent == Some(agent);
      StoppedAgentIsQuiet(r, events, r', agent, id);
    }
  }

  /** The first stop waits for a message that runs; a second one returns before it has ended. */
  lemma SecondStopReturnsFirst(limits: Limits, agent: AgentId, id: JobId) returns (r: Runner, r': Runner)
    requires limits.maxWaiting > 0 && limits.maxConcurrent > 0
    ensures Runs(NewRunner(limits), [AdmitMessage(agent), SubmitMessage(id), Begin(id), TakeSlot(id)], r)
    ensures Runs(r, [Start(id), StopAgent(agent, [id]), StopAgain(agent)], r')
    ensures id in r'.running && id in r'.jobs && r'.jobs[id].agent == Some(agent) && r'.jobs[id].status == Running
  {
    var key := AgentKey(agent);
    MessageTakesSlot(limits, agent, id);
    r := InOneSlot(limits, id, MessageJob(agent, Starting, Some(0), Queued), key);
    var working := InOneSlot(limits, id, MessageJob(agent, Working, Some(0), Running), key);
    r' := working.(stopped := {agent}, stopping := map[agent := Stop([id], None, false, false)]);
    StartsAlone(limits, agent, id);
    assert Listed(working, agent, [id]);
    RunsFrom(r', StopAgain(agent), r', [], r');
    RunsFrom(working, StopAgent(agent, [id]), r', [StopAgain(agent)], r');
    RunsFrom(r, Start(id), working, [StopAgent(agent, [id]), StopAgain(agent)], r');
    assert [StopAgain(agent)] + [] == [StopAgain(agent)];
    assert [Start(id)] + [StopAgent(agent, [id]), StopAgain(agent)] == [Start(id), StopAgent(agent, [id]), StopAgain(agent)];
  }

  // ---------------------------------------------------------------- a publication that is cut

  function TaskJob(phase: Phase, cancelling: bool, status: Status): Job { Job(None, None, phase, None, cancelling, status, 0) }

  /** A runner whose one job has no key; it is in a slot. */
  function OneTask(limits: Limits, id: JobId, job: Job): Runner {
    Runner(limits, Only(id, job), {id}, 0, {}, {id}, map[], 0, None, {}, map[], {}, {})
  }

  /** It has ended as cancelled, and its canceller awaits its worker. */
  function TaskEnds(limits: Limits, id: JobId, phase: Phase): Runner {
    Runner(limits, Only(id, TaskJob(phase, true, Cancelled)), {}, 0, {}, {}, map[], 0, None, {}, map[], {id}, {})
  }

  lemma TaskSubmitted(limits: Limits, id: JobId)
    requires limits.maxConcurrent > 0
    ensures var reserved := NewRunner(limits).(reserved := 1);
            var submitted := NewRunner(limits).(jobs := Only(id, TaskJob(Created, false, Queued)), running := {id});
            var line := OneTask(limits, id, TaskJob(InLine, false, Queued)).(slots := {});
            && Enabled(reserved, SubmitTask(id, None)) && Next(reserved, SubmitTask(id, None)) == submitted
            && Enabled(submitted, Begin(id)) && Next(submitted, Begin(id)) == line
            && Enabled(line, TakeSlot(id)) && Next(line, TakeSlot(id)) == OneTask(limits, id, TaskJob(Starting, false, Queued))
  {
  }

  lemma TaskTakesSlot(limits: Limits, id: JobId)
    requires limits.maxWaiting > 0 && limits.maxConcurrent > 0
    ensures Runs(NewRunner(limits), [Reserve, SubmitTask(id, None), Begin(id), TakeSlot(id)], OneTask(limits, id, TaskJob(Starting, false, Queued)))
  {
    var reserved := NewRunner(limits).(reserved := 1);
    var submitted := NewRunner(limits).(jobs := Only(id, TaskJob(Created, false, Queued)), running := {id});
    var line := OneTask(limits, id, TaskJob(InLine, false, Queued)).(slots := {});
    var slot := OneTask(limits, id, TaskJob(Starting, false, Queued));
    TaskSubmitted(limits, id);
    RunsFrom(line, TakeSlot(id), slot, [], slot);
    RunsFrom(submitted, Begin(id), line, [TakeSlot(id)], slot);
    RunsFrom(reserved, SubmitTask(id, None), submitted, [Begin(id), TakeSlot(id)], slot);
    RunsFrom(NewRunner(limits), Reserve, reserved, [SubmitTask(id, None), Begin(id), TakeSlot(id)], slot);
    assert [Reserve] + [SubmitTask(id, None), Begin(id), TakeSlot(id)] == [Reserve, SubmitTask(id, None), Begin(id), TakeSlot(id)];
  }

  lemma TaskCancelled(limits: Limits, id: JobId)
    ensures var started := OneTask(limits, id, TaskJob(Starting, false, Queued));
            var asked := OneTask(limits, id, TaskJob(Starting, true, Queued)).(requested := {id}, awaited := {id});
            && Enabled(started, Cancel(id)) && Next(started, Cancel(id)) == asked
            && Enabled(asked, Interrupt(id)) && Next(asked, Interrupt(id)) == TaskEnds(limits, id, Publishing)
  {
  }

  /** A job is cancelled and its end recorded; while it is being published the canceller is
      cancelled: the job is over, and will never be published. */
  lemma CancelledCancellerCuts(limits: Limits, id: JobId) returns (r: Runner, r': Runner)
    requires limits.maxWaiting > 0 && limits.maxConcurrent > 0
    ensures Runs(NewRunner(limits), [Reserve, SubmitTask(id, None), Begin(id), TakeSlot(id)], r)
    ensures Runs(r, [Cancel(id), Interrupt(id), CutPublication(id)], r')
    ensures Unpublished(r', id) && r'.jobs[id].status == Cancelled
  {
    TaskTakesSlot(limits, id);
    r := OneTask(limits, id, TaskJob(Starting, false, Queued));
    var asked := OneTask(limits, id, TaskJob(Starting, true, Queued)).(requested := {id}, awaited := {id});
    r' := TaskEnds(limits, id, Over);
    TaskCancelled(limits, id);
    RunsFrom(TaskEnds(limits, id, Publishing), CutPublication(id), r', [], r');
    RunsFrom(asked, Interrupt(id), TaskEnds(limits, id, Publishing), [CutPublication(id)], r');
    RunsFrom(r, Cancel(id), asked, [Interrupt(id), CutPublication(id)], r');
    assert [Cancel(id)] + [Interrupt(id), CutPublication(id)] == [Cancel(id), Interrupt(id), CutPublication(id)];
  }
}
