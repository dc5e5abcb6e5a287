/** The status a job ends with, told from the events of its run: who completed it, who asked
    for its cancellation, and whether a shutdown came instead. */
module BackgroundStatus {
  import opened Basics
  import opened BackgroundRunner
  import opened BackgroundEnds

  // ---------------------------------------------------------------- what the events say

  /** The step asks for the cancellation of the job: it is cancelled, the stop of its agent
      has come to it, or it starts and finds its agent stopped. */
  predicate Asks(r: Runner, e: Event, id: JobId) {
    || e == Cancel(id)
    || (e.StopNext? && e.agent in r.stopping && r.stopping[e.agent].todo != [] && r.stopping[e.agent].todo[0] == id && id in r.running)
    || (e == Start(id) && id in r.jobs && r.jobs[id].agent.Some? && r.jobs[id].agent.value in r.stopped)
  }

  ghost predicate AskedIn(r: Runner, events: seq<Event>, id: JobId)
    decreases |events|
  {
    events != [] && Enabled(r, events[0]) && (Asks(r, events[0], id) || AskedIn(Next(r, events[0]), events[1..], id))
  }

  /** A shutdown found that the worker, which it or a canceller had cancelled, never ran. */
  predicate ShutDown(events: seq<Event>, id: JobId) { FinishUnstarted(id, Interrupted) in events }

  predicate Completed(events: seq<Event>, id: JobId) { Complete(id, Done) in events || Complete(id, Failed) in events }

  // ---------------------------------------------------------------- one step

  /** The step ends the job. */
  ghost predicate EndsJob(r: Runner, e: Event, id: JobId) { Enabled(r, e) && !InEnd(r, id) && InEnd(Next(r, e), id) }

  /** The status, by the step that ended the job. */
  ghost predicate StatusOfStep(r: Runner, e: Event, id: JobId)
    requires Enabled(r, e) && id in Next(r, e).jobs
  {
    var status := Next(r, e).jobs[id].status;
    var asked := id in r.requested || Asks(r, e, id);
    && (e == Complete(id, Done) ==> status == Done)
    && (e == Complete(id, Failed) ==> status == Failed)
    && (e == FinishUnstarted(id, Interrupted) ==> status == Interrupted && id in r.killed)
    && (e != Complete(id, Done) && e != Complete(id, Failed) && e != FinishUnstarted(id, Interrupted) ==>
          status == (if asked then Cancelled else Interrupted) && (asked || id in r.killed))
  }

  lemma EndsByEnding(r: Runner, e: Event, id: JobId)
    requires JobsOk(r) && CausesOk(r) && EndsJob(r, e, id) && id in r.jobs && Ending(e)
    ensures StatusOfStep(r, e, id)
  {
    assert RecordOk(r.jobs[e.job]);
    FinishTables(r, e.job, EndStatus(r, e));
    assert Caused(r, id);
  }

  lemma EndsByStart(r: Runner, e: Event, id: JobId)
    requires JobsOk(r) && EndsJob(r, e, id) && id in r.jobs && e.Start?
    ensures StatusOfStep(r, e, id)
  {
    assert RecordOk(r.jobs[e.job]);
    FinishTables(r.(requested := r.requested + {e.job}), e.job, Cancelled);
  }

  lemma EndsByStop(r: Runner, e: Event, id: JobId)
    requires JobsOk(r) && CausesOk(r) && EndsJob(r, e, id) && id in r.jobs && (e.StopNext? || e.StopWakes?)
    ensures StatusOfStep(r, e, id)
  {
    StopJobs(r, e);
    if Records(r, e) {
      assert RecordOk(r.jobs[StopJob(r, e)]);
      FinishTables(r, StopJob(r, e), Cancelled);
      assert AwaitsAsked(r, e.agent);
    }
  }

  lemma NewHasNotEnded(r: Runner, e: Event, id: JobId)
    requires Inv(r) && Enabled(r, e) && id !in r.jobs
    ensures !InEnd(Next(r, e), id)
  {
    if e.SubmitTask? || e.SubmitMessage? {
      NewIsCreated(r, e, id);
    } else {
      SameKeys(r, e);
    }
  }

  lemma OthersEndNothing(r: Runner, e: Event, id: JobId)
    requires JobsOk(r) && Enabled(r, e) && id in r.jobs && !InEnd(r, id)
    requires !Ending(e) && !e.Start? && !e.StopNext? && !e.StopWakes?
    ensures !InEnd(Next(r, e), id)
  {
    if Quiet(e) {
      QuietStep(r, e);
    }
  }

  /** Whatever ends a job, its status says how. */
  lemma EndSaysHow(r: Runner, e: Event, id: JobId)
    requires Inv(r) && EndsJob(r, e, id)
    ensures id in r.jobs && StatusOfStep(r, e, id)
  {
    if id !in r.jobs {
      NewHasNotEnded(r, e, id);
    } else if Ending(e) {
      EndsByEnding(r, e, id);
    } else if e.Start? {
      EndsByStart(r, e, id);
    } else if e.StopNext? || e.StopWakes? {
      EndsByStop(r, e, id);
    } else {
      OthersEndNothing(r, e, id);
    }
  }

  // ---------------------------------------------------------------- before and after the end

  /** Until its end a job is marked as requested exactly by what asks for its cancellation. */
  lemma RequestedByAsking(r: Runner, e: Event, id: JobId)
    requires JobsOk(r) && Enabled(r, e) && !InEnd(Next(r, e), id)
    ensures id in Next(r, e).requested <==> id in r.requested || Asks(r, e, id)
    ensures id in Next(r, e).killed <==> id in r.killed || e == Kill(id)
  {
    if Ending(e) {
      FinishTables(r, e.job, EndStatus(r, e));
    } else if e.Start? {
      RequestedByStart(r, e, id);
    } else if e.StopNext? || e.StopWakes? {
      RequestedByStop(r, e, id);
    } else {
      RequestedElse(r, e, id);
    }
  }

  lemma RequestedByStart(r: Runner, e: Event, id: JobId)
    requires Enabled(r, e) && e.Start? && !InEnd(Next(r, e), id)
    ensures id in Next(r, e).requested <==> id in r.requested || Asks(r, e, id)
    ensures Next(r, e).killed == r.killed
  {
    FinishTables(r.(requested := r.requested + {e.job}), e.job, Cancelled);
    FinishTables(r, e.job, r.jobs[e.job].status);
  }

  lemma RequestedByStop(r: Runner, e: Event, id: JobId)
    requires Enabled(r, e) && (e.StopNext? || e.StopWakes?) && !InEnd(Next(r, e), id)
    requires forall id :: id in r.running ==> id in r.jobs
    ensures id in Next(r, e).requested <==> id in r.requested || Asks(r, e, id)
    ensures Next(r, e).killed == r.killed
  {
    StopJobs(r, e);
    if Records(r, e) {
      FinishTables(r, StopJob(r, e), Cancelled);
    }
  }

  lemma RequestedElse(r: Runner, e: Event, id: JobId)
    requires Enabled(r, e) && !Ending(e) && !e.Start? && !e.StopNext? && !e.StopWakes?
    ensures id in Next(r, e).requested <==> id in r.requested || Asks(r, e, id)
    ensures id in Next(r, e).killed <==> id in r.killed || e == Kill(id)
  {
  }

  lemma EndingEnds(r: Runner, e: Event, id: JobId)
    requires JobsOk(r) && Enabled(r, e) && Ending(e) && e.job == id
    ensures !InEnd(r, id) && InEnd(Next(r, e), id)
  {
    FinishTables(r, id, EndStatus(r, e));
  }

  lemma InFront<T>(x: T, s: seq<T>)
    requires s != []
    ensures x in s <==> x == s[0] || x in s[1..]
  {
    assert s == [s[0]] + s[1..];
  }

  lemma InFrontOf(events: seq<Event>, id: JobId)
    requires events != []
    ensures Complete(id, Done) in events <==> events[0] == Complete(id, Done) || Complete(id, Done) in events[1..]
    ensures Complete(id, Failed) in events <==> events[0] == Complete(id, Failed) || Complete(id, Failed) in events[1..]
    ensures ShutDown(events, id) <==> events[0] == FinishUnstarted(id, Interrupted) || ShutDown(events[1..], id)
    ensures Kill(id) in events <==> events[0] == Kill(id) || Kill(id) in events[1..]
  {
    InFront(Complete(id, Done), events);
    InFront(Complete(id, Failed), events);
    InFront(FinishUnstarted(id, Interrupted), events);
    InFront(Kill(id), events);
  }

  lemma EndedIsLeft(r: Runner, e: Event, id: JobId)
    requires Inv(r) && Enabled(r, e) && InEnd(r, id)
    ensures e != Complete(id, Done) && e != Complete(id, Failed) && e != FinishUnstarted(id, Interrupted) && !Asks(r, e, id)
    ensures InEnd(Next(r, e), id) && Next(r, e).jobs[id].status == r.jobs[id].status
  {
    JobStep(r, e, id);
    EndedAsksNothing(r, e, id);
  }

  lemma EndedAsksNothing(r: Runner, e: Event, id: JobId)
    requires JobsOk(r) && Enabled(r, e) && InEnd(r, id)
    ensures e != Complete(id, Done) && e != Complete(id, Failed) && e != FinishUnstarted(id, Interrupted) && !Asks(r, e, id)
  {
  }

  /** Nothing that happens after the end completes, shuts down or asks anything of the job. */
  lemma {:induction false} NothingAfterEnd(r: Runner, events: seq<Event>, r': Runner, id: JobId)
    requires Inv(r) && Runs(r, events, r') && InEnd(r, id)
    ensures !Completed(events, id) && !ShutDown(events, id) && !AskedIn(r, events, id)
    ensures InEnd(r', id) && r'.jobs[id].status == r.jobs[id].status
    decreases |events|
  {
    if events != [] {
      EndedIsLeft(r, events[0], id);
      StepIsSafe(r, events[0]);
      NothingAfterEnd(Next(r, events[0]), events[1..], r', id);
      InFrontOf(events, id);
    }
  }

  /** What the status of a job says of the run that ended it. */
  ghost predicate SaysHow(r: Runner, events: seq<Event>, id: JobId, status: Status) {
    var asked := id in r.requested || AskedIn(r, events, id);
    && (status == Done <==> Complete(id, Done) in events)
    && (status == Failed <==> Complete(id, Failed) in events)
    && (status == Cancelled <==> !Completed(events, id) && asked && !ShutDown(events, id))
    && (status == Interrupted <==> !Completed(events, id) && (!asked || ShutDown(events, id)))
    && (status == Interrupted ==> id in r.killed || Kill(id) in events)
  }

  lemma LastStep(r: Runner, events: seq<Event>, r': Runner, id: JobId)
    requires Inv(r) && Runs(r, events, r') && events != [] && EndsJob(r, events[0], id)
    ensures InEnd(r', id) && SaysHow(r, events, id, r'.jobs[id].status)
  {
    EndSaysHow(r, events[0], id);
    StepIsSafe(r, events[0]);
    NothingAfterEnd(Next(r, events[0]), events[1..], r', id);
    InFrontOf(events, id);
  }

  lemma {:induction false} EndedAsFrom(r: Runner, events: seq<Event>, r': Runner, id: JobId)
    requires Inv(r) && Runs(r, events, r') && !InEnd(r, id) && InEnd(r', id)
    ensures SaysHow(r, events, id, r'.jobs[id].status)
    decreases |events|
  {
    var e, next := events[0], Next(r, events[0]);
    if InEnd(next, id) {
      LastStep(r, events, r', id);
    } else {
      StepIsSafe(r, e);
      RequestedByAsking(r, e, id);
      if Ending(e) && e.job == id {
        EndingEnds(r, e, id);
      }
      EndedAsFrom(next, events[1..], r', id);
      InFrontOf(events, id);
    }
  }

  /** Over every run: a job that has ended is done or failed if and only if it was completed
      so; it is cancelled if and only if it was not completed, its cancellation was asked
      for, and no shutdown found its worker before the first step; it is interrupted if and
      only if it was not completed and either nobody asked or a shutdown did, and then its
      worker was cancelled by one. */
  lemma EndedAs(limits: Limits, events: seq<Event>, r: Runner, id: JobId)
    requires Runs(NewRunner(limits), events, r) && id in r.jobs && HasEnded(r.jobs[id].phase)
    ensures r.jobs[id].status == Done <==> Complete(id, Done) in events
    ensures r.jobs[id].status == Failed <==> Complete(id, Failed) in events
    ensures r.jobs[id].status == Cancelled <==>
              !Completed(events, id) && AskedIn(NewRunner(limits), events, id) && !ShutDown(events, id)
    ensures r.jobs[id].status == Interrupted <==>
              !Completed(events, id) && (!AskedIn(NewRunner(limits), events, id) || ShutDown(events, id))
    ensures r.jobs[id].status == Interrupted ==> Kill(id) in events
  {
    StartsSafe(limits);
    EndedAsFrom(NewRunner(limits), events, r, id);
  }

  // ---------------------------------------------------------------- a shutdown before a canceller

  /** A runner whose one job was cancelled before its worker's first step. */
  function Unentered(limits: Limits, id: JobId, requested: set<JobId>, cancelling: bool): Runner {
    NewRunner(limits).(jobs := Only(id, TaskJob(Unstarted, cancelling, Queued)), running := {id},
                       requested := requested, awaited := requested, killed := {id})
  }

  function Killed(limits: Limits, id: JobId): Runner { Unentered(limits, id, {}, false) }

  function KilledAndAsked(limits: Limits, id: JobId): Runner { Unentered(limits, id, {id}, true) }

  lemma ShutDownSteps(limits: Limits, id: JobId)
    requires limits.maxWaiting > 0
    ensures var reserved := NewRunner(limits).(reserved := 1);
            var submitted := NewRunner(limits).(jobs := Only(id, TaskJob(Created, false, Queued)), running := {id});
            && Enabled(NewRunner(limits), Reserve) && Next(NewRunner(limits), Reserve) == reserved
            && Enabled(reserved, SubmitTask(id, None)) && Next(reserved, SubmitTask(id, None)) == submitted
            && Enabled(submitted, Kill(id)) && Next(submitted, Kill(id)) == Killed(limits, id)
    ensures Enabled(Killed(limits, id), Cancel(id)) && Next(Killed(limits, id), Cancel(id)) == KilledAndAsked(limits, id)
    ensures Enabled(KilledAndAsked(limits, id), FinishUnstarted(id, Interrupted))
    ensures var r := Next(KilledAndAsked(limits, id), FinishUnstarted(id, Interrupted));
            id in r.jobs && r.jobs[id].status == Interrupted && r.jobs[id].phase == Announcing
  {
  }

  lemma ShutDownEnds(limits: Limits, id: JobId) returns (r: Runner)
    requires limits.maxWaiting > 0
    ensures Runs(Killed(limits, id), [Cancel(id), FinishUnstarted(id, Interrupted)], r)
    ensures id in r.jobs && r.jobs[id].status == Interrupted && r.jobs[id].phase == Announcing
  {
    var asked := KilledAndAsked(limits, id);
    ShutDownSteps(limits, id);
    r := Next(asked, FinishUnstarted(id, Interrupted));
    RunsFrom(asked, FinishUnstarted(id, Interrupted), r, [], r);
    RunsFrom(Killed(limits, id), Cancel(id), asked, [FinishUnstarted(id, Interrupted)], r);
    assert [FinishUnstarted(id, Interrupted)] + [] == [FinishUnstarted(id, Interrupted)];
    assert [Cancel(id)] + [FinishUnstarted(id, Interrupted)] == [Cancel(id), FinishUnstarted(id, Interrupted)];
  }

  /** A shutdown cancels a worker before its first step, somebody cancels the job, and the
      shutdown is the first to record its end: the job is interrupted, not cancelled. */
  lemma ShutDownFirst(limits: Limits, id: JobId) returns (r: Runner)
    requires limits.maxWaiting > 0
    ensures Runs(NewRunner(limits), [Reserve, SubmitTask(id, None), Kill(id), Cancel(id), FinishUnstarted(id, Interrupted)], r)
    ensures id in r.jobs && r.jobs[id].status == Interrupted && r.jobs[id].phase == Announcing
  {
    var reserved := NewRunner(limits).(reserved := 1);
    var submitted := NewRunner(limits).(jobs := Only(id, TaskJob(Created, false, Queued)), running := {id});
    var killed := Killed(limits, id);
    ShutDownSteps(limits, id);
    r := ShutDownEnds(limits, id);
    RunsFrom(submitted, Kill(id), killed, [Cancel(id), FinishUnstarted(id, Interrupted)], r);
    RunsFrom(reserved, SubmitTask(id, None), submitted, [Kill(id), Cancel(id), FinishUnstarted(id, Interrupted)], r);
    RunsFrom(NewRunner(limits), Reserve, reserved, [SubmitTask(id, None), Kill(id), Cancel(id), FinishUnstarted(id, Interrupted)], r);
    assert [Kill(id)] + [Cancel(id), FinishUnstarted(id, Interrupted)] == [Kill(id), Cancel(id), FinishUnstarted(id, Interrupted)];
  }
}
