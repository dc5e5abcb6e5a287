/** The background runner's tables, updated by the steps of `BackgroundRunner`. */
module TurnRunnerTables {
  import opened Basics
  import opened BackgroundRunner

  class BackgroundTurnRunner {
    const limits: Limits
    /** The job records, as the store holds them, with where their workers are. */
    var jobs: map<JobId, Job>
    var running: set<JobId>
    var reserved: nat
    var requested: set<JobId>
    var slots: set<JobId>
    var orders: map<Key, Order>
    var nextLock: nat
    var admission: Option<AgentId>
    var stopped: set<AgentId>
    var stopping: map<AgentId, Stop>
    var awaited: set<JobId>
    /** The jobs whose worker a shutdown has cancelled. */
    ghost var killed: set<JobId>

    ghost function View(): Runner
      reads this
    {
      Runner(limits, jobs, running, reserved, requested, slots, orders, nextLock, admission, stopped, stopping, awaited, killed)
    }

    constructor (limits: Limits)
      ensures View() == NewRunner(limits)
    {
      this.limits := limits;
      jobs, running, reserved, requested, slots := map[], {}, 0, {}, {};
      orders, nextLock, admission, stopped, stopping, awaited := map[], 0, None, {}, map[], {};
      killed := {};
    }

    /** Capacity for a record that is about to be created; refused when there is none. */
    method ReserveCapacity() returns (granted: bool)
      modifies `reserved
      ensures granted <==> |running| + old(reserved) < limits.maxWaiting
      ensures reserved == if granted then old(reserved) + 1 else old(reserved)
      ensures View() == if granted then Next(old(View()), Reserve) else old(View())
    {
      var count := |running| + reserved;
      granted := count < limits.maxWaiting;
      if granted {
        reserved := reserved + 1;
      }
    }

    /** The reservation becomes a running job. */
    method Submit(id: JobId, key: Option<Key>, agent: Option<AgentId>)
      requires reserved > 0
      modifies this
      ensures View() == Submitted(old(View()), id, key, agent)
    {
      jobs := jobs[id := Job(key, agent, Created, None, false, Queued, 0)];
      running := running + {id};
      reserved := reserved - 1;
    }

    method Enter(key: Key, id: JobId) returns (lock: nat)
      modifies `orders, `nextLock
      ensures View() == EnterOrder(old(View()), key, id)
      ensures key in orders && lock == orders[key].lock
    {
      if key !in orders {
        orders := orders[key := Order(nextLock, [], 0)];
        nextLock := nextLock + 1;
      }
      var entry := orders[key];
      orders := orders[key := entry.(line := entry.line + [id], users := entry.users + 1)];
      lock := entry.lock;
    }

    method Exit(key: Key, id: JobId)
      requires key in orders && orders[key].users > 0
      modifies `orders
      ensures View() == LeaveOrder(old(View()), key, id)
    {
      var entry := orders[key];
      var users := entry.users - 1;
      orders := orders[key := entry.(line := Leave(entry.line, id), users := users)];
      if users == 0 {
        orders := orders - {key};
      }
    }

    /** The store's compare-and-set from an unfinished status; nothing when it has ended. */
    method UpdateUnfinished(id: JobId, status: Status) returns (final: bool)
      requires id in jobs
      modifies `jobs
      ensures final <==> !Terminal(old(jobs)[id].status)
      ensures jobs == if final then old(jobs)[id := old(jobs)[id].(status := status)] else old(jobs)
    {
      final := jobs[id].status == Queued || jobs[id].status == Running;
      if final {
        jobs := jobs[id := jobs[id].(status := status)];
      }
    }

    method LeaveLine(id: JobId)
      requires id in jobs
      requires jobs[id].lock.Some? && jobs[id].key.Some? ==> jobs[id].key.value in orders && orders[jobs[id].key.value].users > 0
      modifies `orders
      ensures View() == if jobs[id].lock.Some? && jobs[id].key.Some? then LeaveOrder(old(View()), jobs[id].key.value, id) else old(View())
    {
      if jobs[id].lock.Some? && jobs[id].key.Some? {
        Exit(jobs[id].key.value, id);
      }
    }

    /** The record and the tables of a job whose line is left. */
    method RecordEnd(id: JobId, status: Status) returns (final: bool)
      requires id in jobs
      modifies `jobs, `running, `requested, `slots
      ensures final <==> !Terminal(old(jobs)[id].status)
      ensures jobs == old(jobs)[id := Ended(old(jobs)[id], status)]
      ensures running == old(running) - {id} && requested == old(requested) - {id} && slots == old(slots) - {id}
    {
      slots := slots - {id};
      var publisher := if jobs[id].phase == Unstarted then Announcing else Publishing;
      final := UpdateUnfinished(id, status);
      running := running - {id};
      requested := requested - {id};
      jobs := jobs[id := jobs[id].(phase := if final then publisher else Over, lock := None)];
    }

    /** The end of an entered worker: its line and slot are left, its record updated and the
        tables cleared; the end is to be published if it was this one that recorded it. */
    method End(id: JobId, status: Status) returns (final: bool)
      requires id in jobs
      requires jobs[id].lock.Some? && jobs[id].key.Some? ==> jobs[id].key.value in orders && orders[jobs[id].key.value].users > 0
      modifies this
      ensures View() == Finish(old(View()), id, status)
      ensures final <==> !Terminal(old(jobs)[id].status)
    {
      LeaveLine(id);
      final := RecordEnd(id, status);
    }

    /** The handlers of a recorded end have all been awaited. */
    method Published(id: JobId)
      requires id in jobs && (jobs[id].phase == Publishing || jobs[id].phase == Announcing)
      modifies `jobs
      ensures View() == Next(old(View()), Publish(id))
    {
      jobs := jobs[id := jobs[id].(phase := Over, published := jobs[id].published + 1)];
    }

    method CancelJob(id: JobId) returns (known: bool)
      requires id in running ==> id in jobs
      modifies `jobs, `requested, `awaited
      ensures known <==> id in running
      ensures known ==> View() == Cancelling(old(View()), id)
      ensures !known ==> View() == old(View())
    {
      known := id in running;
      if known {
        requested, awaited := requested + {id}, awaited + {id};
        if jobs[id].phase == Created {
          jobs := jobs[id := jobs[id].(phase := Unstarted)];
        } else {
          jobs := jobs[id := jobs[id].(cancelling := true)];
        }
      }
    }

    /** A worker cancelled before its first step has nobody else to record its end. */
    method FinishUnstartedJob(id: JobId, status: Status) returns (final: bool)
      requires Inv(View()) && id in jobs && (jobs[id].phase == Unstarted || HasEnded(jobs[id].phase))
      modifies this
      ensures View() == if id in old(running) then Finish(old(View()), id, status) else old(View())
      ensures final <==> old(jobs)[id].phase == Unstarted
    {
      final := false;
      if id in running {
        InLineEntry(View(), id);
        UnstartedIsQueued(View(), id);
        final := End(id, status);
      }
    }
  }

  lemma UnstartedIsQueued(r: Runner, id: JobId)
    requires JobsOk(r) && id in r.jobs && id in r.running
    ensures !Terminal(r.jobs[id].status)
  {
    assert RecordOk(r.jobs[id]);
  }

  lemma InLineEntry(r: Runner, id: JobId)
    requires Inv(r) && id in r.jobs
    ensures r.jobs[id].lock.Some? && r.jobs[id].key.Some? ==>
              r.jobs[id].key.value in r.orders && r.orders[r.jobs[id].key.value].users > 0
  {
    assert InLineOk(r, id);
    if r.jobs[id].lock.Some? && r.jobs[id].key.Some? {
      assert OrderOk(r, r.jobs[id].key.value);
    }
  }
}
