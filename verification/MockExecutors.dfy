/** The synthetic executor: a durable store of executions behind an unreliable endpoint. */
module MockExecutors {
  import opened Contracts
  import opened Executors

  class MockExecutor {
    var executions: map<ActionId, Execution>
    var worldVersion: nat
    var connected: bool
    var loseNextReply: bool
    var confirmCancel: bool
    ghost var events: set<Event>
    ghost var snapshots: set<Snapshot>
    ghost var submits: seq<ActionId>

    ghost function Model(): Executor
      reads this
    {
      Executor(executions, worldVersion, connected, loseNextReply, confirmCancel, events, snapshots, submits)
    }

    constructor ()
      ensures Model() == EMPTY_EXECUTOR
    {
      executions, worldVersion := map[], 0;
      connected, loseNextReply, confirmCancel := true, false, true;
      events, snapshots, submits := {}, {}, [];
    }

    method Submit(a: Action, newId: ExecutionId, d: Delivery) returns (reply: Reply)
      modifies this
      ensures (Model(), reply) == Executors.Submit(old(Model()), a, newId, d)
    {
      if !connected || d.RequestLost? {
        return NoReply;
      }
      submits := submits + [a.key];
      if a.key in executions {
        var previous := executions[a.key];
        reply := if SameRequest(previous.action, a) then Answer(previous.snapshot) else Refused(KeyReused);
      } else {
        var snapshot := Snapshot(newId, a.key, Running, false, None);
        executions := executions[a.key := Execution(a, snapshot)];
        snapshots := snapshots + {snapshot};
        if loseNextReply {
          loseNextReply := false;
          reply := NoReply;
        } else {
          reply := Answer(snapshot);
        }
      }
      if d.ReplyLost? {
        reply := NoReply;
      }
    }

    method Lookup(key: ActionId, d: Delivery) returns (reply: Reply)
      ensures reply == Executors.Lookup(Model(), key, d)
    {
      if !connected || d.RequestLost? {
        return NoReply;
      }
      reply := if key in executions then Answer(executions[key].snapshot) else Missing;
      if d.ReplyLost? {
        reply := NoReply;
      }
    }

    method Cancel(key: ActionId, wire: Wire) returns (reply: Reply)
      modifies this
      ensures (Model(), reply) == CancelCall(old(Model()), key, wire)
    {
      if !connected || wire.delivery.RequestLost? {
        return NoReply;
      }
      if key !in executions {
        reply := Refused(UnknownExecution);
      } else {
        if !Terminal(executions[key].snapshot.status) && confirmCancel {
          var _ := Inject(key, Canceled, true, wire.event, wire.at, false);
        }
        reply := Answer(executions[key].snapshot);
      }
      if wire.delivery.ReplyLost? {
        reply := NoReply;
      }
    }

    /** The execution reports progress or its end; the caller gets the event to deliver. */
    method Inject(key: ActionId, status: ActionStatus, stopped: bool, eventId: EventId, at: Time, changesWorld: bool)
      returns (o: Outcome<Event>)
      modifies this
      ensures var spec := Executors.Inject(old(Model()), key, status, stopped, eventId, at, changesWorld);
              if spec.Raised? then Model() == old(Model()) && o == Raised(spec.error)
              else Model() == spec.value.0 && o == Committed(spec.value.1)
    {
      if key !in executions {
        return Raised(UnknownExecution);
      }
      var execution := executions[key];
      if Terminal(execution.snapshot.status) {
        return Raised(AlreadyTerminal);
      }
      var ev := Report(execution, status, stopped, eventId, at);
      var snapshot := Reported(execution.snapshot, ev);
      executions := executions[key := execution.(snapshot := snapshot)];
      if changesWorld {
        worldVersion := worldVersion + 1;
      }
      events, snapshots := events + {ev}, snapshots + {snapshot};
      o := Committed(ev);
    }

    /** A fresh observation of the synthetic world. */
    method Observe(id: ObservationId, at: Time, source: int) returns (o: Option<Observation>)
      ensures o == Look(Model(), id, at, source)
    {
      o := if connected then Some(Observation(id, at, worldVersion, source, true)) else None;
    }
  }
}
