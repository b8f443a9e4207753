/** The authoritative executor: a store of executions keyed by idempotency key, and the
    endpoint in front of it that can be offline, lose a reply or leave a cancel unconfirmed. */
module Executors {
  import opened Contracts

  datatype Execution = Execution(action: Action, snapshot: Snapshot)

  /** `events`, `snapshots` and `submits` are history: every event ever emitted, every snapshot
      ever stored, and the key of every submit call that reached the store, in order. */
  datatype Executor = Executor(
    executions: map<ActionId, Execution>,
    worldVersion: nat,
    connected: bool,
    loseNextReply: bool,
    confirmCancel: bool,
    events: set<Event>,
    snapshots: set<Snapshot>,
    submits: seq<ActionId>)

  /** What the link does to one call: a timeout may fire before or after the call took effect. */
  datatype Delivery = Prompt | RequestLost | ReplyLost

  datatype Reply = Answer(snapshot: Snapshot) | Missing | NoReply | Refused(error: Error)

  /** The environment's part in a cancel call: the link, and the identity and time of the event
      that a confirmed cancel emits. */
  datatype Wire = Wire(delivery: Delivery, event: EventId, at: Time)

  const EMPTY_EXECUTOR := Executor(map[], 0, true, false, true, {}, {}, [])

  function Delivered(d: Delivery, answer: Reply): Reply {
    if d.ReplyLost? then NoReply else answer
  }

  predicate SameRequest(a: Action, b: Action) {
    a.proposal == b.proposal && a.id == b.id
  }

  /** The store's part of submit: start an execution, or return the one the key already has. */
  function Start(x: Executor, a: Action, newId: ExecutionId): (Executor, Reply) {
    var reached := x.(submits := x.submits + [a.key]);
    if a.key in x.executions then
      var e := x.executions[a.key];
      (reached, if SameRequest(e.action, a) then Answer(e.snapshot) else Refused(KeyReused))
    else
      var s := Snapshot(newId, a.key, Running, false, None);
      var started := reached.(executions := x.executions[a.key := Execution(a, s)], snapshots := x.snapshots + {s});
      (started.(loseNextReply := false), if x.loseNextReply then NoReply else Answer(s))
  }

  function Submit(x: Executor, a: Action, newId: ExecutionId, d: Delivery): (Executor, Reply) {
    if !x.connected || d.RequestLost? then (x, NoReply)
    else
      var (x', reply) := Start(x, a, newId);
      (x', Delivered(d, reply))
  }

  function Lookup(x: Executor, key: ActionId, d: Delivery): Reply {
    if !x.connected || d.RequestLost? then NoReply
    else Delivered(d, if key in x.executions then Answer(x.executions[key].snapshot) else Missing)
  }

  function NextSequence(s: Snapshot): nat {
    if s.lastEvent.None? then 0 else s.lastEvent.value.sequence + 1
  }

  function Report(e: Execution, status: ActionStatus, stopped: bool, event: EventId, at: Time): Event {
    Event(event, e.action.runId, e.action.id, e.snapshot.executionId, e.action.planVersion,
          NextSequence(e.snapshot), at, status, stopped)
  }

  function Reported(s: Snapshot, ev: Event): Snapshot {
    s.(status := ev.status, stopped := ev.stopped, lastEvent := Some(ev))
  }

  /** The execution reports a status; terminal snapshots absorb. */
  function Inject(x: Executor, key: ActionId, status: ActionStatus, stopped: bool, event: EventId, at: Time,
                  changesWorld: bool): Outcome<(Executor, Event)>
  {
    if key !in x.executions then Raised(UnknownExecution)
    else
      var e := x.executions[key];
      if Terminal(e.snapshot.status) then Raised(AlreadyTerminal)
      else
        var ev := Report(e, status, stopped, event, at);
        var s := Reported(e.snapshot, ev);
        Committed((x.(executions := x.executions[key := e.(snapshot := s)],
                      worldVersion := if changesWorld then x.worldVersion + 1 else x.worldVersion,
                      events := x.events + {ev},
                      snapshots := x.snapshots + {s}),
                   ev))
  }

  /** The store's part of cancel. */
  function Abort(x: Executor, key: ActionId, event: EventId, at: Time): (Executor, Reply) {
    if key !in x.executions then (x, Refused(UnknownExecution))
    else if !Terminal(x.executions[key].snapshot.status) && x.confirmCancel then
      var x' := Inject(x, key, Canceled, true, event, at, false).value.0;
      (x', Answer(x'.executions[key].snapshot))
    else (x, Answer(x.executions[key].snapshot))
  }

  function CancelCall(x: Executor, key: ActionId, wire: Wire): (Executor, Reply) {
    if !x.connected || wire.delivery.RequestLost? then (x, NoReply)
    else
      var (x', reply) := Abort(x, key, wire.event, wire.at);
      (x', Delivered(wire.delivery, reply))
  }

  /** A fresh observation of the synthetic world, if the endpoint can be reached. */
  function Look(x: Executor, id: ObservationId, at: Time, source: int): Option<Observation> {
    if x.connected then Some(Observation(id, at, x.worldVersion, source, true)) else None
  }

  /** An execution that may still move something. */
  predicate Live(e: Execution) {
    !(Terminal(e.snapshot.status) && e.snapshot.stopped)
  }
}
