/** The streaming service's tables, updated by the steps of `TurnSlots`.

    Each method is the code between two awaits; it does to its session what the step of
    `TurnSlots` says, and leaves every other session as it was. */
module StreamingService {
  import opened Basics
  import opened SessionCache
  import opened TurnSlots

  class Service {
    const sessions: Cache
    var activeTurns: map<SessionId, TaskId>
    var sessionLeases: map<SessionId, Lease>
    var sessionMutations: set<SessionId>

    constructor (sessions: Cache)
      requires sessions.Valid()
      ensures this.sessions == sessions && Valid()
      ensures forall id :: View(id) == Unused.(pins := sessions.Pins(id))
    {
      this.sessions := sessions;
      activeTurns, sessionLeases, sessionMutations := map[], map[], {};
    }

    ghost predicate Valid()
      reads this, sessions
    {
      sessions.Valid()
    }

    /** What the tables hold of one session. */
    ghost function View(id: SessionId): Shared
      reads this, sessions
    {
      Shared(if id in activeTurns then Some(activeTurns[id]) else None,
             if id in sessionLeases then Some(sessionLeases[id]) else None,
             id in sessionMutations,
             sessions.Pins(id))
    }

    twostate predicate OthersKept(id: SessionId)
      reads this, sessions
    {
      forall other :: other != id ==> View(other) == old(View(other))
    }

    method CheckSessionAvailable(id: SessionId, lease: Option<Lease>) returns (available: bool)
      ensures available == Available(View(id), lease)
      ensures available <==> id !in sessionMutations && (id in sessionLeases ==> lease == Some(sessionLeases[id]))
    {
      if id in sessionMutations {
        return false;
      }
      return id !in sessionLeases || Some(sessionLeases[id]) == lease;
    }

    /** The end of an admission: the free slot is taken, or the turn to wait for is named. */
    method Admit(id: SessionId, task: TaskId, lease: Option<Lease>) returns (admitted: bool, previous: Option<TaskId>)
      requires Valid()
      modifies this, sessions`pinned
      ensures Valid() && OthersKept(id)
      ensures var refused := id in old(sessionMutations) || (id in old(sessionLeases) && lease != Some(old(sessionLeases)[id]));
              && (admitted <==> !refused && id !in old(activeTurns))
              && previous == if !refused && id in old(activeTurns) then Some(old(activeTurns)[id]) else None
      ensures View(id) == if admitted then AdmitTurn(old(View(id)), task) else old(View(id))
      ensures admitted ==> activeTurns == old(activeTurns)[id := task] && sessions.Pins(id) == old(sessions.Pins(id)) + 1
      ensures sessionLeases == old(sessionLeases) && sessionMutations == old(sessionMutations)
    {
      admitted, previous := false, None;
      var available := CheckSessionAvailable(id, lease);
      if available {
        if id in activeTurns {
          previous := Some(activeTurns[id]);
        } else {
          activeTurns := activeTurns[id := task];
          sessions.Pin(id);
          admitted := true;
        }
      }
    }

    method FinishTurn(id: SessionId, task: TaskId)
      requires Valid()
      modifies this, sessions`pinned
      ensures Valid() && OthersKept(id) && View(id) == FinishSlot(old(View(id)), task)
      ensures id in old(activeTurns) && old(activeTurns)[id] == task ==>
                id !in activeTurns && (old(sessions.Pins(id)) > 0 ==> sessions.Pins(id) == old(sessions.Pins(id)) - 1)
      ensures !(id in old(activeTurns) && old(activeTurns)[id] == task) ==> View(id) == old(View(id))
    {
      if id in activeTurns && activeTurns[id] == task {
        activeTurns := activeTurns - {id};
        sessions.Unpin(id);
      }
    }

    method Hold(id: SessionId, task: TaskId) returns (held: bool)
      requires Valid()
      modifies this
      ensures Valid() && OthersKept(id)
      ensures held <==> id !in old(activeTurns)
      ensures View(id) == if held then HoldSlot(old(View(id)), task) else old(View(id))
      ensures held ==> activeTurns == old(activeTurns)[id := task]
    {
      held := id !in activeTurns;
      if held {
        activeTurns := activeTurns[id := task];
      }
    }

    method ReleaseSlot(id: SessionId, task: TaskId)
      requires Valid()
      modifies this
      ensures Valid() && OthersKept(id) && View(id) == ReleaseHold(old(View(id)), task)
      ensures id in activeTurns ==> id in old(activeTurns) && activeTurns[id] == old(activeTurns)[id] != task
    {
      if id in activeTurns && activeTurns[id] == task {
        activeTurns := activeTurns - {id};
      }
    }

    method ReserveSession(id: SessionId, lease: Lease) returns (reserved: bool)
      requires Valid()
      modifies this, sessions`pinned
      ensures Valid() && OthersKept(id)
      ensures reserved <==> id !in old(sessionMutations) && id !in old(sessionLeases) && id !in old(activeTurns)
      ensures View(id) == if reserved then ReserveFor(old(View(id)), lease) else old(View(id))
      ensures reserved ==> sessionLeases == old(sessionLeases)[id := lease] && sessions.Pins(id) == old(sessions.Pins(id)) + 1
    {
      reserved := CheckSessionAvailable(id, None);
      if !reserved {
        return;
      }
      if id in activeTurns {
        return false;
      }
      sessionLeases := sessionLeases[id := lease];
      sessions.Pin(id);
    }

    method ReleaseSession(id: SessionId, lease: Lease)
      requires Valid()
      modifies this, sessions`pinned
      ensures Valid() && OthersKept(id) && View(id) == ReleaseLease(old(View(id)), lease)
      ensures id in old(sessionLeases) && old(sessionLeases)[id] == lease ==>
                id !in sessionLeases && (old(sessions.Pins(id)) > 0 ==> sessions.Pins(id) == old(sessions.Pins(id)) - 1)
      ensures !(id in old(sessionLeases) && old(sessionLeases)[id] == lease) ==> View(id) == old(View(id))
    {
      if id in sessionLeases && sessionLeases[id] == lease {
        sessionLeases := sessionLeases - {id};
        sessions.Unpin(id);
      }
    }

    method BeginMutation(id: SessionId) returns (begun: bool)
      requires Valid()
      modifies this
      ensures Valid() && OthersKept(id)
      ensures begun <==> id !in old(sessionMutations) && id !in old(sessionLeases)
      ensures View(id) == if begun then old(View(id)).(mutation := true) else old(View(id))
    {
      begun := CheckSessionAvailable(id, None);
      if begun {
        sessionMutations := sessionMutations + {id};
      }
    }

    method EndMutation(id: SessionId)
      requires Valid()
      modifies this
      ensures Valid() && OthersKept(id) && View(id) == old(View(id)).(mutation := false)
    {
      sessionMutations := sessionMutations - {id};
    }
  }
}
