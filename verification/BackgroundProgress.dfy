/** Every submitted job reaches its end: what is left to do can only shrink, a job that has
    not ended can always move, and so every run can be carried on to the end of them all. */
module BackgroundProgress {
  import opened Basics
  import opened BackgroundRunner
  import opened BackgroundEnds

  // ---------------------------------------------------------------- what is left to do

  /** The steps a job has still to make, at most. */
  function Rank(phase: Phase): nat {
    match phase
    case Created => 5
    case InLine => 4
    case Starting => 3
    case Working => 2
    case Unstarted => 2
    case Publishing => 1
    case Announcing => 1
    case Over => 0
  }

  /** What the jobs `ids` have still to do. */
  ghost function Left(jobs: map<JobId, Job>, ids: set<JobId>): nat
    requires ids <= jobs.Keys
    decreases |ids|
  {
    if ids == {} then 0
    else
      var id :| id in ids;
      Rank(jobs[id].phase) + Left(jobs, ids - {id})
  }

  ghost function Total(r: Runner): nat { Left(r.jobs, r.jobs.Keys) }

  lemma {:induction false} LeftWithout(jobs: map<JobId, Job>, ids: set<JobId>, id: JobId)
    requires ids <= jobs.Keys && id in ids
    ensures Left(jobs, ids) == Rank(jobs[id].phase) + Left(jobs, ids - {id})
    decreases |ids|
  {
    var other :| other in ids && Left(jobs, ids) == Rank(jobs[other].phase) + Left(jobs, ids - {other});
    if other != id {
      LeftWithout(jobs, ids - {other}, id);
      LeftWithout(jobs, ids - {id}, other);
      assert ids - {other} - {id} == ids - {id} - {other};
    }
  }

  lemma {:induction false} LeftSame(jobs: map<JobId, Job>, jobs': map<JobId, Job>, ids: set<JobId>)
    requires ids <= jobs.Keys && ids <= jobs'.Keys && forall id :: id in ids ==> jobs'[id].phase == jobs[id].phase
    ensures Left(jobs', ids) == Left(jobs, ids)
    decreases |ids|
  {
    if ids != {} {
      var id :| id in ids;
      LeftWithout(jobs, ids, id);
      LeftWithout(jobs', ids, id);
      LeftSame(jobs, jobs', ids - {id});
    }
  }

  /** Only the job `id` changed its phase. */
  predicate OnlyMoved(r: Runner, r': Runner, id: JobId) {
    && id in r.jobs && r'.jobs.Keys == r.jobs.Keys
    && forall j :: j in r.jobs && j != id ==> r'.jobs[j].phase == r.jobs[j].phase
  }

  lemma TotalMoved(r: Runner, r': Runner, id: JobId)
    requires OnlyMoved(r, r', id)
    ensures Total(r') - Total(r) == Rank(r'.jobs[id].phase) - Rank(r.jobs[id].phase)
  {
    var rest := r.jobs.Keys - {id};
    LeftWithout(r.jobs, r.jobs.Keys, id);
    LeftWithout(r'.jobs, r.jobs.Keys, id);
    LeftSame(r.jobs, r'.jobs, rest);
  }

  // ---------------------------------------------------------------- steps

  /** A step that moves a job on towards its end. */
  predicate Moves(e: Event) {
    e.Begin? || e.TakeSlot? || e.Start? || e.Complete? || e.Interrupt? || e.FinishUnstarted? || e.Publish?
  }

  predicate Submits(e: Event) { e.SubmitTask? || e.SubmitMessage? }

  lemma FinishLowers(r: Runner, id: JobId, status: Status)
    requires id in r.jobs && !HasEnded(r.jobs[id].phase)
    ensures Total(Finish(r, id, status)) < Total(r)
  {
    FinishTables(r, id, status);
    TotalMoved(r, Finish(r, id, status), id);
  }

  lemma StartLowers(r: Runner, e: Event)
    requires Enabled(r, e) && e.Start?
    ensures Total(Next(r, e)) < Total(r)
  {
    var job := r.jobs[e.job];
    if job.agent.Some? && job.agent.value in r.stopped {
      FinishLowers(r.(requested := r.requested + {e.job}), e.job, Cancelled);
    } else if job.status != Queued {
      FinishLowers(r, e.job, job.status);
    } else {
      TotalMoved(r, Next(r, e), e.job);
    }
  }

  /** Each such step leaves less to do. */
  lemma MoveLowers(r: Runner, e: Event)
    requires Enabled(r, e) && Moves(e)
    ensures Total(Next(r, e)) < Total(r)
  {
    match e
    case Start(_) => StartLowers(r, e);
    case Complete(_, _) | Interrupt(_) | FinishUnstarted(_, _) => FinishLowers(r, e.job, EndStatus(r, e));
    case Begin(_) | TakeSlot(_) | Publish(_) => PhaseMoves(r, e); TotalMoved(r, Next(r, e), e.job);
  }

  lemma PhaseMoves(r: Runner, e: Event)
    requires Enabled(r, e) && (e.Begin? || e.TakeSlot? || e.Publish?)
    ensures OnlyMoved(r, Next(r, e), e.job) && Rank(Next(r, e).jobs[e.job].phase) < Rank(r.jobs[e.job].phase)
    ensures Next(r, e).limits == r.limits && Next(r, e).admission == r.admission
  {
    if e.Begin? {
      BeginMoves(r, e);
    }
  }

  lemma BeginMoves(r: Runner, e: Event)
    requires Enabled(r, e) && e.Begin?
    ensures Next(r, e).jobs.Keys == r.jobs.Keys && Is(Next(r, e), e.job, InLine)
    ensures forall j :: j in r.jobs && j != e.job ==> Next(r, e).jobs[j] == r.jobs[j]
    ensures Next(r, e).limits == r.limits && Next(r, e).admission == r.admission
  {
  }

  lemma CancelRaisesNothing(r: Runner, id: JobId)
    requires id in r.jobs
    ensures Total(CancelWorker(r, id)) <= Total(r) && Total(Cancelling(r, id)) <= Total(r)
  {
    TotalMoved(r, CancelWorker(r, id), id);
  }

  lemma StopRaisesNothing(r: Runner, e: Event)
    requires Enabled(r, e) && (e.StopNext? || e.StopWakes?)
    ensures Total(Next(r, e)) <= Total(r)
  {
    StopJobs(r, e);
    if Records(r, e) {
      FinishLowers(r, StopJob(r, e), Cancelled);
    } else if Cancels(r, e) {
      CancelRaisesNothing(r, StopJob(r, e));
    }
  }

  lemma DropRaisesNothing(r: Runner, id: JobId)
    requires id in r.jobs
    ensures Total(Dropped(r, id)) <= Total(r)
  {
    TotalMoved(r, Dropped(r, id), id);
  }

  /** And no step but a submission leaves more. */
  lemma NothingRaises(r: Runner, e: Event)
    requires Enabled(r, e) && !Submits(e)
    ensures Total(Next(r, e)) <= Total(r)
  {
    if Moves(e) {
      MoveLowers(r, e);
    } else {
      match e
      case Cancel(id) => CancelRaisesNothing(r, id);
      case Kill(id) => CancelRaisesNothing(r, id);
      case StopNext(_) | StopWakes(_) => StopRaisesNothing(r, e);
      case CutPublication(id) => DropRaisesNothing(r, id);
      case CutStop(agent) => DropRaisesNothing(r, r.stopping[agent].waiting.value);
      case _ => QuietStep(r, e);
    }
  }

  function Moving(events: seq<Event>): nat {
    if events == [] then 0 else (if Moves(events[0]) then 1 else 0) + Moving(events[1..])
  }

  /** A run that takes no submission makes no more moving steps than there were left, which
      are at most five for each job. */
  lemma {:induction false} MovesAreBounded(r: Runner, events: seq<Event>, r': Runner)
    requires Runs(r, events, r') && forall i :: 0 <= i < |events| ==> !Submits(events[i])
    ensures Moving(events) + Total(r') <= Total(r) <= 5 * |r.jobs|
    decreases |events|
  {
    LeftAtMost(r.jobs, r.jobs.Keys);
    if events != [] {
      if Moves(events[0]) {
        MoveLowers(r, events[0]);
      } else {
        NothingRaises(r, events[0]);
      }
      MovesAreBounded(Next(r, events[0]), events[1..], r');
    }
  }

  lemma {:induction false} LeftAtMost(jobs: map<JobId, Job>, ids: set<JobId>)
    requires ids <= jobs.Keys
    ensures Left(jobs, ids) <= 5 * |ids|
    decreases |ids|
  {
    if ids != {} {
      var id :| id in ids;
      LeftWithout(jobs, ids, id);
      LeftAtMost(jobs, ids - {id});
    }
  }

  // ---------------------------------------------------------------- nothing is stuck

  /** A job in a key's line waits for the first of the line, which is in a slot or may take one. */
  lemma FirstOfLine(r: Runner, id: JobId) returns (first: JobId)
    requires OrdersOk(r) && Is(r, id, InLine)
    ensures first in r.jobs && First(r, first) && Entered(r.jobs[first].phase)
  {
    assert InLineOk(r, id);
    if r.jobs[id].key.None? {
      first := id;
    } else {
      var key := r.jobs[id].key.value;
      assert OrderOk(r, key);
      first := r.orders[key].line[0];
      assert first in r.orders[key].line;
      assert InLineOk(r, first);
    }
  }

  /** A step of a job's own worker, of its canceller if that worker will never run, or of
      the message that holds the admission: nothing fails and nothing is cancelled for it. */
  predicate Honest(r: Runner, e: Event) {
    match e
    case Begin(_) | TakeSlot(_) | Start(_) | FinishUnstarted(_, _) | Publish(_) => true
    case Complete(id, status) => Is(r, id, Working) && status == Done
    case SubmitMessage(_) => true
    case _ => false
  }

  /** A message that was admitted is submitted under a new id. */
  lemma AdmittedSubmits(r: Runner) returns (e: Event)
    requires CapacityOk(r) && r.admission.Some?
    ensures e.SubmitMessage? && Enabled(r, e)
  {
    var id := LongerThanAll(r.jobs.Keys);
    e := SubmitMessage(id);
  }

  lemma JobAdvances(r: Runner, id: JobId) returns (e: Event)
    requires CapacityOk(r) && CausesOk(r) && id in r.jobs && r.jobs[id].phase != Over && r.jobs[id].phase != InLine
    ensures Enabled(r, e) && Honest(r, e) && (Moves(e) || r.admission.Some?)
  {
    match r.jobs[id].phase
    case Created => e := Begin(id);
    case Starting =>
      if r.jobs[id].agent.Some? && r.admission.Some? {
        e := AdmittedSubmits(r);
      } else {
        e := Start(id);
      }
    case Working => e := Complete(id, Done);
    case Unstarted =>
      assert Caused(r, id);
      e := FinishUnstarted(id, if id in r.requested then Cancelled else Interrupted);
    case _ => e := Publish(id);
  }

  lemma SomeAdvances(r: Runner, id: JobId) returns (e: Event)
    requires Inv(r) && r.limits.maxConcurrent > 0 && id in r.jobs && r.jobs[id].phase != Over
    ensures Enabled(r, e) && Honest(r, e) && (Moves(e) || r.admission.Some?)
  {
    if r.jobs[id].phase != InLine {
      e := JobAdvances(r, id);
    } else {
      var first := FirstOfLine(r, id);
      if r.jobs[first].phase != InLine {
        e := JobAdvances(r, first);
      } else if |r.slots| < r.limits.maxConcurrent {
        e := TakeSlot(first);
      } else {
        var inside :| inside in r.slots;
        e := JobAdvances(r, inside);
      }
    }
  }

  /** No reachable state is a deadlock: while some job is not over, some job can move on, or
      a message that was admitted can be submitted, and nothing has to fail for it. */
  lemma NoDeadlock(r: Runner, events: seq<Event>, r': Runner, id: JobId) returns (e: Event)
    requires Inv(r) && Runs(r, events, r') && r'.limits.maxConcurrent > 0
    requires id in r'.jobs && r'.jobs[id].phase != Over
    ensures Enabled(r', e) && Honest(r', e) && (Moves(e) || (e.SubmitMessage? && r'.admission.Some?))
  {
    RunsAreSafe(r, events, r');
    e := SomeAdvances(r', id);
  }

  // ---------------------------------------------------------------- every job ends

  predicate AllOver(r: Runner) { forall id :: id in r.jobs ==> r.jobs[id].phase == Over }

  ghost predicate HonestRun(r: Runner, events: seq<Event>)
    decreases |events|
  {
    events == [] || (Enabled(r, events[0]) && Honest(r, events[0]) && HonestRun(Next(r, events[0]), events[1..]))
  }

  lemma NextLimits(r: Runner, e: Event)
    requires Enabled(r, e) && Honest(r, e) && !e.SubmitMessage?
    ensures SameSetting(r, Next(r, e))
  {
    match e
    case Complete(_, _) | FinishUnstarted(_, _) => FinishTables(r, e.job, EndStatus(r, e));
    case Start(_) =>
      FinishTables(r.(requested := r.requested + {e.job}), e.job, Cancelled);
      FinishTables(r, e.job, r.jobs[e.job].status);
    case Begin(_) | TakeSlot(_) | Publish(_) => PhaseMoves(r, e);
  }

  predicate SameSetting(r: Runner, r': Runner) {
    r'.limits == r.limits && r'.admission == r.admission && r'.jobs.Keys == r.jobs.Keys
  }

  lemma {:induction false} DrainsFrom(r: Runner) returns (events: seq<Event>, r': Runner)
    requires Inv(r) && r.limits.maxConcurrent > 0 && r.admission.None?
    ensures Runs(r, events, r') && HonestRun(r, events) && AllOver(r') && Inv(r') && r'.jobs.Keys == r.jobs.Keys
    ensures |events| <= Total(r)
    decreases Total(r)
  {
    if AllOver(r) {
      events, r' := [], r;
    } else {
      var id :| id in r.jobs && r.jobs[id].phase != Over;
      var e := SomeAdvances(r, id);
      MoveLowers(r, e);
      StepIsSafe(r, e);
      NextLimits(r, e);
      var rest;
      rest, r' := DrainsFrom(Next(r, e));
      events := [e] + rest;
      assert events[1..] == rest;
    }
  }

  lemma HonestCutsNothing(r: Runner, e: Event, id: JobId)
    requires Enabled(r, e) && Honest(r, e)
    ensures !Cuts(r, e, id)
  {
  }

  lemma {:induction false} HonestRunCutsNothing(r: Runner, events: seq<Event>, id: JobId)
    requires HonestRun(r, events)
    ensures !CutIn(r, events, id)
    decreases |events|
  {
    if events != [] {
      HonestCutsNothing(r, events[0], id);
      HonestRunCutsNothing(Next(r, events[0]), events[1..], id);
    }
  }

  lemma AdmittedNext(r: Runner, e: Event)
    requires Enabled(r, e) && e.SubmitMessage?
    ensures Next(r, e).jobs.Keys == r.jobs.Keys + {e.job} && Next(r, e).admission.None? && Next(r, e).limits == r.limits
    ensures |Next(r, e).jobs.Keys| == |r.jobs.Keys| + 1
  {
    SubmittedKeys(r, e.job, Some(AgentKey(r.admission.value)), r.admission);
    OneMore(r.jobs.Keys, e.job);
  }

  lemma SubmittedKeys(r: Runner, id: JobId, key: Option<Key>, agent: Option<AgentId>)
    ensures Submitted(r, id, key, agent).jobs.Keys == r.jobs.Keys + {id} && Submitted(r, id, key, agent).limits == r.limits
  {
  }

  lemma OneMore(ids: set<JobId>, id: JobId)
    requires id !in ids
    ensures |ids + {id}| == |ids| + 1
  {
  }

  /** An admitted message first becomes a job. */
  lemma Drains(r: Runner) returns (events: seq<Event>, r': Runner)
    requires Inv(r) && r.limits.maxConcurrent > 0
    ensures Runs(r, events, r') && HonestRun(r, events) && AllOver(r') && Inv(r') && r.jobs.Keys <= r'.jobs.Keys
    ensures |events| <= 5 * |r.jobs| + 6
  {
    if r.admission.None? {
      events, r' := DrainsFrom(r);
      LeftAtMost(r.jobs, r.jobs.Keys);
    } else {
      var e := AdmittedSubmits(r);
      var next := Next(r, e);
      StepIsSafe(r, e);
      AdmittedNext(r, e);
      var rest;
      rest, r' := DrainsFrom(next);
      events := [e] + rest;
      assert events[1..] == rest;
      LeftAtMost(next.jobs, next.jobs.Keys);
    }
  }

  /** Every run can be carried on, without a failure or a cancellation, to a state where
      every job submitted so far, and the message just admitted if there is one, is over: it
      has one terminal status, and that was published once, unless its publication had been
      cut before. */
  lemma EveryJobEnds(r: Runner, events: seq<Event>, r': Runner) returns (more: seq<Event>, end: Runner)
    requires Inv(r) && Runs(r, events, r') && r'.limits.maxConcurrent > 0
    ensures Runs(r', more, end) && HonestRun(r', more) && r'.jobs.Keys <= end.jobs.Keys
    ensures forall id :: id in end.jobs ==>
              Terminal(end.jobs[id].status) && end.jobs[id].published == (if Unpublished(r', id) then 0 else 1)
    ensures |more| <= 5 * |r'.jobs| + 6
  {
    RunsAreSafe(r, events, r');
    more, end := Drains(r');
    forall id | id in end.jobs
      ensures Terminal(end.jobs[id].status) && end.jobs[id].published == (if Unpublished(r', id) then 0 else 1)
    {
      EndedExactlyOnce(r', more, end, id);
      HonestRunCutsNothing(r', more, id);
    }
  }

  /** A run that comes to a standstill has come to the end of every job. With
      `MovesAreBounded`, one that takes no submissions and moves while it can gets there. */
  lemma StandstillIsTheEnd(r: Runner, events: seq<Event>, r': Runner)
    requires Inv(r) && Runs(r, events, r') && r'.limits.maxConcurrent > 0 && r'.admission.None?
    requires forall e :: Enabled(r', e) && Honest(r', e) ==> !Moves(e)
    ensures forall id :: id in r'.jobs ==>
              && Terminal(r'.jobs[id].status)
              && r'.jobs[id].published == (if CutIn(r, events, id) || Unpublished(r, id) then 0 else 1)
  {
    RunsAreSafe(r, events, r');
    forall id | id in r'.jobs
      ensures Terminal(r'.jobs[id].status)
      ensures r'.jobs[id].published == (if CutIn(r, events, id) || Unpublished(r, id) then 0 else 1)
    {
      if r'.jobs[id].phase != Over {
        var e := SomeAdvances(r', id);
      }
      EndedExactlyOnce(r, events, r', id);
    }
  }
}
