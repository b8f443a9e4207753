/** The scheduler: every operation as it is carried out on the ledger and the executor. */
module Schedulers {
  import opened Contracts
  import Tx = Transactions
  import opened Executors
  import opened Protocol
  import opened Operations
  import opened Ledgers
  import opened MockExecutors

  type Draft = Tx.Draft
  type Tables = Tx.Tables

  /** The number of actions that are not terminal. */
  method CountOpen(actions: seq<Action>) returns (open: nat)
    ensures open == Tx.Open(actions)
  {
    open := 0;
    for i := 0 to |actions|
      invariant open == Tx.Open(actions[..i])
    {
      assert actions[..i + 1][..i] == actions[..i];
      if !Terminal(actions[i].status) {
        open := open + 1;
      }
    }
    assert actions[..|actions|] == actions;
  }

  /** Inserts the lock rows of one action, all of them or none. */
  method AcquireAll(rows: map<Resource, ActionId>, wanted: seq<Resource>, owner: ActionId)
    returns (o: Outcome<map<Resource, ActionId>>)
    ensures o == Tx.Acquire(rows, wanted, owner)
  {
    var held := rows;
    for i := 0 to |wanted|
      invariant Tx.Acquire(rows, wanted[..i], owner) == Committed(held)
    {
      assert wanted[..i + 1][..i] == wanted[..i];
      if wanted[i] in held {
        OccupiedStays(rows, wanted, owner, i + 1);
        return Raised(ResourceOccupied);
      }
      held := held[wanted[i] := owner];
    }
    assert wanted[..|wanted|] == wanted;
    o := Committed(held);
  }

  /** A prefix of resources that cannot be taken makes the whole unobtainable. */
  lemma {:induction false} OccupiedStays(rows: map<Resource, ActionId>, wanted: seq<Resource>, owner: ActionId, n: nat)
    requires n <= |wanted| && Tx.Acquire(rows, wanted[..n], owner) == Raised(ResourceOccupied)
    ensures Tx.Acquire(rows, wanted, owner) == Raised(ResourceOccupied)
    decreases |wanted| - n
  {
    if n == |wanted| {
      assert wanted[..n] == wanted;
    } else {
      assert wanted[..n + 1][..n] == wanted[..n];
      OccupiedStays(rows, wanted, owner, n + 1);
    }
  }

  /** A rejected proposal rejects the append that contains it. */
  lemma {:induction false} RejectedStays(run: Run, r: RunId, drafts: seq<Draft>, n: nat)
    requires n <= |drafts| && Tx.AppendAll(run, r, drafts[..n]) == Raised(ProposalRejected)
    ensures Tx.AppendAll(run, r, drafts) == Raised(ProposalRejected)
    decreases |drafts| - n
  {
    if n == |drafts| {
      assert drafts[..n] == drafts;
    } else {
      assert drafts[..n + 1][..n] == drafts[..n];
      RejectedStays(run, r, drafts, n + 1);
    }
  }

  /** Marks every action for stopping, in place. */
  method StopEach(actions: seq<Action>, reason: StopReason, now: Clock) returns (stopped: seq<Action>)
    ensures stopped == Tx.StopActions(actions, reason, now)
  {
    stopped := actions;
    for i := 0 to |actions|
      invariant |stopped| == |actions|
      invariant forall j :: 0 <= j < i ==> stopped[j] == Tx.StopAction(actions[j], reason, now(actions[j].id))
      invariant forall j :: i <= j < |actions| ==> stopped[j] == actions[j]
    {
      var a := stopped[i];
      if a.status.Queued? {
        stopped := stopped[i := a.(status := Invalidated)];
      } else if !Terminal(a.status) {
        if a.stopRequestedAt.None? {
          a := a.(stopRequestedAt := Some(now(a.id)));
        }
        stopped := stopped[i := a.(status := Stopping, stopReason := Some(reason))];
      }
    }
  }

  /** Gives up on every stop request that was not confirmed in time, in place. */
  method ExpireEach(actions: seq<Action>, stopSeconds: nat, now: Clock) returns (expired: seq<Action>, late: bool)
    ensures expired == Tx.ExpireAll(actions, stopSeconds, now)
    ensures late <==> exists i :: 0 <= i < |actions| && Tx.Overdue(actions[i], stopSeconds, now(actions[i].id))
  {
    expired, late := actions, false;
    for i := 0 to |actions|
      invariant |expired| == |actions|
      invariant forall j :: 0 <= j < i ==> expired[j] == Tx.Expire(actions[j], stopSeconds, now(actions[j].id))
      invariant forall j :: i <= j < |actions| ==> expired[j] == actions[j]
      invariant late <==> exists j :: 0 <= j < i && Tx.Overdue(actions[j], stopSeconds, now(actions[j].id))
    {
      if Tx.Overdue(expired[i], stopSeconds, now(expired[i].id)) {
        expired := expired[i := expired[i].(status := ExecutionUnknown)];
        late := true;
      }
    }
  }

  /** What a new event makes of its action and of the task. */
  method AbsorbEvent(state: Run, k: nat, ev: Event) returns (after: Run)
    requires k < |state.actions|
    ensures after == Tx.Absorb(state, k, ev)
  {
    var action, status := state.actions[k].(lastEventSequence := ev.sequence), state.status;
    if Terminal(ev.status) {
      if !ev.stopped || ev.status.Invalidated? {
        action, status := action.(status := ExecutionUnknown), Blocked;
      } else {
        action := action.(status := ev.status, finishedAt := Some(ev.occurredAt));
        if action.planVersion == state.planVersion {
          status := if ev.status.Completed? then Verifying else Recovering;
        }
      }
    } else if ev.status.Running? {
      action := action.(status := if action.stopRequestedAt.Some? then Stopping else Running);
    }
    after := state.(actions := state.actions[k := action], status := status);
  }

  /** What a snapshot makes of its action and of the run. */
  method TakeOver(before: Action, task: TaskStatus, s: Snapshot) returns (action: Action, status: TaskStatus)
    ensures action == Tx.AcceptAction(before, s) && status == Tx.AcceptStatus(task, before, s)
  {
    action, status := before.(executionId := Some(s.executionId)), task;
    if !Terminal(action.status) && !Terminal(s.status) {
      action := action.(status := if action.stopRequestedAt.Some? then Stopping else Running);
      if status.Blocked? {
        status := Executing;
      }
    }
  }

  class Scheduler {
    const ledger: Ledger
    const executor: MockExecutor
    ghost var pending: map<ActionId, Action>
    ghost var issued: map<ActionId, RunId>

    ghost function Now(): World
      reads this, ledger, executor
    {
      World(ledger.Contents(), executor.Model(), pending, issued)
    }

    constructor (ledger: Ledger, executor: MockExecutor)
      ensures this.ledger == ledger && this.executor == executor
      ensures Now() == World(ledger.Contents(), executor.Model(), map[], map[])
    {
      this.ledger, this.executor := ledger, executor;
      pending, issued := map[], map[];
    }

    /** Registers a run, once the registry admits its task. */
    method Create(r: RunId, budget: Budget, capabilities: map<ActionType, Capability>, observation: Observation,
                  capacity: nat, at: Time, required: set<ActionType>, admissible: bool) returns (created: bool)
      modifies ledger
      ensures created <==> required <= capabilities.Keys && admissible && r !in old(ledger.runs)
      ensures Now() == if created then old(Perform(Now(), DoCreate(r, budget, capabilities, observation, capacity, at)))
                       else old(Now())
    {
      if !Tx.AdmitsTask(capabilities, required, admissible) {
        return false;
      }
      created := ledger.Create(r, Tx.NewRun(budget, capabilities, observation, capacity, at));
    }

    /** Queues the proposals, all of them or none, and returns the last sequence number. */
    method Append(r: RunId, version: nat, drafts: seq<Draft>, call: Option<CallId>) returns (o: Outcome<int>)
      modifies this, ledger
      ensures Now() == old(Perform(Now(), DoAppend(r, version, drafts, call)))
      ensures var spec := Tx.Append(old(ledger.Contents()), r, version, drafts, call);
              o == if spec.Raised? then Raised(spec.error) else Committed(spec.value.runs[r].nextSequence - 1)
    {
      if drafts == [] {
        return Raised(EmptyAppend);
      }
      var row := ledger.Read(r);
      if row.Raised? {
        return Raised(row.error);
      }
      var state := row.value;
      if version != state.planVersion {
        return Raised(VersionConflict);
      }
      if state.closed || state.frozen || Over(state.status) {
        return Raised(StreamNotAccepting);
      }
      var load := CountOpen(state.actions);
      if load + |drafts| > state.capacity {
        return Raised(CapacityExceeded);
      }
      for i := 0 to |drafts|
        invariant Tx.AppendAll(row.value, r, drafts[..i]) == Committed(state)
        invariant Now() == old(Now())
      {
        assert drafts[..i + 1][..i] == drafts[..i];
        var d := drafts[i];
        if !Tx.Admits(state, d.proposal, d.now, d.admissible) {
          RejectedStays(row.value, r, drafts, i + 1);
          return Raised(ProposalRejected);
        }
        state := state.(actions := state.actions + [Tx.NewAction(state, r, d)],
                        nextSequence := state.nextSequence + 1);
      }
      assert drafts[..|drafts|] == drafts;
      state := Tx.Bind(state, call);
      ledger.Save(r, state, ActionsAccepted(r, version, |drafts|));
      issued := Issue(issued, r, drafts);
      o := Committed(state.nextSequence - 1);
    }

    method Close(r: RunId, version: nat, lastSequence: int) returns (o: Outcome<()>)
      modifies ledger
      ensures Now() == old(Perform(Now(), DoClose(r, version, lastSequence)))
      ensures var spec := Tx.Close(old(ledger.Contents()), r, version, lastSequence);
              o == if spec.Raised? then Raised(spec.error) else Committed(())
    {
      var row := ledger.Read(r);
      if row.Raised? {
        return Raised(row.error);
      }
      var state := row.value;
      if version != state.planVersion {
        return Raised(VersionConflict);
      }
      if state.frozen || lastSequence != state.nextSequence - 1 {
        return Raised(InvalidFinalSequence);
      }
      ledger.Save(r, state.(closed := true), StreamClosed(r, lastSequence));
      o := Committed(());
    }

    /** The first transaction of dispatch. */
    method RecordIntent(r: RunId, now: Time, at: Time, admissible: bool) returns (o: Outcome<Option<Action>>)
      modifies this, ledger
      ensures Now() == old(Perform(Now(), DoIntent(r, now, at, admissible)))
      ensures var spec := Tx.Intent(old(ledger.Contents()), r, now, at, admissible);
              o == if spec.Raised? then Raised(spec.error) else Committed(spec.value.1)
    {
      var row := ledger.Read(r);
      if row.Raised? {
        return Raised(row.error);
      }
      var state := row.value;
      if state.frozen || Over(state.status) || state.status.Blocked? {
        return Committed(None);
      }
      var k := Tx.NextAction(state, 0);
      if k == |state.actions| || !state.actions[k].status.Queued? {
        return Committed(None);
      }
      var action := state.actions[k];
      if !Tx.Admits(state, action.proposal.(observationId := state.observation.id), now, admissible) {
        return Raised(ProposalRejected);
      }
      var rows := AcquireAll(ledger.resources, action.resources, action.id);
      if rows.Raised? {
        return Raised(rows.error);
      }
      action := action.(executionObservationId := Some(state.observation.id), status := Submitting,
          submittedAt := Some(at));
      state := state.(actions := state.actions[k := action], status := Executing);
      ledger.Commit(r, state, rows.value, ledger.received, [SubmitIntent(r, action)]);
      pending := pending[action.id := action];
      o := Committed(Some(action));
    }

    method MarkUnknown(r: RunId, id: ActionId) returns (fate: Fate)
      modifies ledger
      ensures (Now(), fate) == old(Note(Now(), Tx.MarkUnknown(ledger.Contents(), r, id)))
    {
      var row := ledger.Read(r);
      if row.Raised? {
        return Threw(row.error);
      }
      var state := row.value;
      var k := Tx.FindAction(state.actions, id);
      if k == |state.actions| {
        return Threw(NoSuchAction);
      }
      if !Terminal(state.actions[k].status) {
        state := state.(actions := state.actions[k := state.actions[k].(status := ExecutionUnknown)],
            status := Blocked);
        ledger.Save(r, state, UnknownLogged(r, id));
      }
      fate := Fine;
    }

    /** The first transaction of adopting a snapshot. */
    method RecordSnapshot(r: RunId, id: ActionId, s: Snapshot) returns (fate: Fate)
      modifies ledger
      ensures (Now(), fate) == old(Note(Now(), Tx.Accept(ledger.Contents(), r, id, s)))
    {
      var row := ledger.Read(r);
      if row.Raised? {
        return Threw(row.error);
      }
      var state := row.value;
      var k := Tx.FindAction(state.actions, id);
      if k == |state.actions| {
        return Threw(NoSuchAction);
      }
      var action := state.actions[k];
      if s.key != action.key {
        return Threw(KeyMismatch);
      }
      if action.executionId.Some? && action.executionId.value != s.executionId {
        return Threw(ExecutionIdChanged);
      }
      if !Terminal(action.status) && Terminal(s.status) && s.lastEvent.None? {
        return Threw(NoTerminalEvidence);
      }
      var status;
      action, status := TakeOver(action, state.status, s);
      state := state.(actions := state.actions[k := action], status := status);
      assert ledger.journal + [] == ledger.journal;
      ledger.Commit(r, state, ledger.resources, ledger.received, []);
      fate := Fine;
    }

    method AcceptSnapshot(r: RunId, id: ActionId, s: Snapshot) returns (fate: Fate)
      modifies ledger
      ensures (Now(), fate) == old(Operations.AcceptSnapshot(Now(), r, id, s))
    {
      fate := RecordSnapshot(r, id, s);
      if fate.Fine? && s.lastEvent.Some? {
        fate := Apply(s.lastEvent.value);
      }
    }

    /** Accepts one execution event, at most once. */
    method Apply(ev: Event) returns (fate: Fate)
      modifies ledger
      ensures (Now(), fate) == old(Note(Now(), Tx.Apply(ledger.Contents(), ev)))
    {
      var row := ledger.Read(ev.runId);
      if row.Raised? {
        return Threw(row.error);
      }
      var state := row.value;
      var k := Tx.FindAction(state.actions, ev.actionId);
      if k == |state.actions| || state.actions[k].planVersion != ev.planVersion
         || state.actions[k].executionId != Some(ev.executionId)
      {
        return Threw(AssociationMismatch);
      }
      if (ev.runId, ev.id) in ledger.received {
        return if ledger.received[(ev.runId, ev.id)] != ev then Threw(ConflictingDuplicate) else Fine;
      }
      var seen := ledger.received[(ev.runId, ev.id) := ev];
      var rows := ledger.resources;
      var action := state.actions[k];
      if ev.sequence > action.lastEventSequence && !Terminal(action.status) {
        if Terminal(ev.status) && ev.stopped && !ev.status.Invalidated? {
          rows := Tx.Release(rows, action.id);
        }
        state := AbsorbEvent(state, k, ev);
      }
      assert ledger.runs[ev.runId := row.value] == ledger.runs;
      ledger.Commit(ev.runId, state, rows, seen, [EventLogged(ev.runId, ev)]);
      fate := Fine;
    }

    /** Submits the frontier of the stream, once its intent is durable. */
    method Dispatch(r: RunId, e: Launch) returns (fate: Fate)
      modifies this, ledger, executor
      ensures (Now(), fate) == old(Operations.Dispatch(Now(), r, e))
    {
      var intent := RecordIntent(r, e.now, e.at, e.admissible);
      if intent.Raised? {
        return Threw(intent.error);
      }
      if intent.value.None? {
        return Fine;
      }
      var action := intent.value.value;
      var reply := executor.Submit(action, e.newId, e.delivery);
      pending := pending - {action.id};
      match reply {
        case Answer(s) => fate := AcceptSnapshot(r, action.id, s);
        case NoReply => fate := MarkUnknown(r, action.id);
        case Missing => fate := Threw(UnknownExecution);
        case Refused(error) => fate := Threw(error);
      }
    }

    /** Asks the executor about every action in flight and adopts what it says. */
    method Reconcile(r: RunId, net: Net) returns (fate: Fate)
      modifies ledger
      ensures (Now(), fate) == old(Operations.Reconcile(Now(), r, net))
    {
      var row := ledger.Read(r);
      if row.Raised? {
        return Threw(row.error);
      }
      var actions := row.value.actions;
      fate := Fine;
      for i := 0 to |actions|
        invariant (Now(), fate) == old(ReconcileFirst(Now(), r, actions, i, net)) && fate.Fine?
      {
        if InFlight(actions[i].status) {
          var reply := executor.Lookup(actions[i].key, net(actions[i].id).delivery);
          if reply.Answer? {
            fate := AcceptSnapshot(r, actions[i].id, reply.snapshot);
          } else {
            fate := MarkUnknown(r, actions[i].id);
          }
          if fate.Threw? {
            ReconcileStops(old(Now()), r, actions, i + 1, net);
            return;
          }
        }
      }
    }

    /** One action's turn in request_stop: cancel it if its capability supports that. */
    method StopOne(r: RunId, action: Action, wire: Wire) returns (fate: Fate)
      modifies ledger, executor
      ensures (Now(), fate) == old(Operations.StopOne(Now(), r, action, wire))
    {
      var row := ledger.Read(r);
      if row.Raised? || action.proposal.actionType !in row.value.capabilities {
        return Threw(NoSuchAction);
      }
      if !row.value.capabilities[action.proposal.actionType].supportsCancel {
        fate := MarkUnknown(r, action.id);
        return;
      }
      var reply := executor.Cancel(action.key, wire);
      if reply.Answer? {
        fate := AcceptSnapshot(r, action.id, reply.snapshot);
        if fate.Fine? {
          return;
        }
      }
      fate := MarkUnknown(r, action.id);
    }

    /** The first transaction of request_stop. */
    method RecordStop(r: RunId, reason: StopReason, now: Clock) returns (fate: Fate)
      modifies ledger
      ensures (Now(), fate) == old(Note(Now(), Tx.Freeze(ledger.Contents(), r, reason, now)))
    {
      var row := ledger.Read(r);
      if row.Raised? {
        return Threw(row.error);
      }
      var actions := StopEach(row.value.actions, reason, now);
      ledger.Save(r, row.value.(frozen := true, stopIntent := Some(reason), actions := actions),
          StopRequested(r, reason));
      fate := Fine;
    }

    /** Asks the executor to stop each of these actions that is stopping. */
    method StopInFlight(r: RunId, actions: seq<Action>, net: Net) returns (fate: Fate)
      modifies ledger, executor
      ensures (Now(), fate) == old(StopFirst(Now(), r, actions, |actions|, net))
    {
      fate := Fine;
      ghost var w := Now();
      for i := 0 to |actions|
        invariant (Now(), fate) == StopFirst(w, r, actions, i, net) && fate.Fine?
      {
        StopFirstNext(w, r, actions, i, net);
        if actions[i].status.Stopping? {
          fate := StopOne(r, actions[i], net(actions[i].id));
          if fate.Threw? {
            StoppingStops(w, r, actions, i + 1, net);
            return;
          }
        }
      }
    }

    /** Freezes the stream, then asks the executor to stop what is in flight. */
    method RequestStop(r: RunId, reason: StopReason, now: Clock, net: Net) returns (fate: Fate)
      modifies ledger, executor
      ensures (Now(), fate) == old(Operations.RequestStop(Now(), r, reason, now, net))
    {
      fate := RecordStop(r, reason, now);
      if fate.Fine? {
        var row := ledger.Read(r);
        fate := StopInFlight(r, row.value.actions, net);
      }
    }

    method Revise(r: RunId, version: nat, o: Observation) returns (plan: Outcome<nat>)
      modifies ledger
      ensures Now() == old(Perform(Now(), DoRevise(r, version, o)))
      ensures var spec := Tx.Revise(old(ledger.Contents()), r, version, o);
              plan == if spec.Raised? then Raised(spec.error) else Committed(spec.value.runs[r].planVersion)
    {
      var row := ledger.Read(r);
      if row.Raised? {
        return Raised(row.error);
      }
      var state := row.value;
      if version != state.planVersion {
        return Raised(VersionConflict);
      }
      if !state.frozen {
        return Raised(NotFrozen);
      }
      if !Tx.AllTerminal(state.actions) {
        return Raised(NotStopped);
      }
      if !Tx.FreshFor(state, o) {
        return Raised(StaleObservation);
      }
      state := state.(planVersion := state.planVersion + 1, nextSequence := 1, closed := false, frozen := false,
                      stopIntent := None, observation := o, status := Ready);
      ledger.Save(r, state, StreamRevised(r, state.planVersion));
      plan := Committed(state.planVersion);
    }

    method Verify(r: RunId, v: VerificationResult, now: Time) returns (o: Outcome<()>)
      modifies ledger
      ensures Now() == old(Perform(Now(), DoVerify(r, v, now)))
      ensures var spec := Tx.Verify(old(ledger.Contents()), r, v, now);
              o == if spec.Raised? then Raised(spec.error) else Committed(())
    {
      var row := ledger.Read(r);
      if row.Raised? {
        return Raised(row.error);
      }
      var state := row.value;
      if v.observationId != state.observation.id || v.observedAt != state.observation.observedAt {
        return Raised(EvidenceMismatch);
      }
      if !state.observation.valid || !(0 <= now - v.observedAt <= state.budget.observationMaxAge) {
        return Raised(StaleEvidence);
      }
      if v.source != state.observation.source {
        return Raised(SourceMismatch);
      }
      if Tx.Predates(state, v) {
        return Raised(EvidencePredates);
      }
      var before := state;
      state := state.(verifications := state.verifications + [v]);
      if !v.verdict.Pass? {
        state := state.(status := Recovering);
      } else if v.checkpoint.AfterAction? {
        var k := Tx.FindAction(state.actions, v.checkpoint.action);
        if k == |state.actions| || !Tx.AwaitsVerdict(before, state.actions[k]) {
          return Raised(UnknownCheckpoint);
        }
        state := state.(actions := state.actions[k := state.actions[k].(verified := true)]);
      } else if before.closed && !before.frozen && Tx.AllDone(before) {
        state := state.(status := Succeeded);
      }
      ledger.Save(r, state, VerificationLogged(r, v));
      o := Committed(());
    }

    method Observe(r: RunId, o: Observation) returns (result: Outcome<()>)
      modifies ledger
      ensures Now() == old(Perform(Now(), DoObserve(r, o)))
      ensures var spec := Tx.Observe(old(ledger.Contents()), r, o);
              result == if spec.Raised? then Raised(spec.error) else Committed(())
    {
      var row := ledger.Read(r);
      if row.Raised? {
        return Raised(row.error);
      }
      var state := row.value;
      if o.worldVersion < state.observation.worldVersion || o.observedAt < state.observation.observedAt {
        return Raised(ObservationMovedBackwards);
      }
      ledger.Save(r, state.(observation := o), ObservationLogged(r, o));
      result := Committed(());
    }

    /** The last transaction of tick. */
    method Settle(r: RunId, now: Clock) returns (fate: Fate)
      modifies ledger
      ensures (Now(), fate) == old(Note(Now(), Tx.Settle(ledger.Contents(), r, now)))
    {
      var row := ledger.Read(r);
      if row.Raised? {
        return Threw(row.error);
      }
      var state := row.value;
      var actions, late := ExpireEach(state.actions, state.budget.stopSeconds, now);
      var status := if late then Blocked else state.status;
      if state.stopIntent.Some? && Tx.AllTerminal(actions) {
        status := Tx.StopOutcome(state.stopIntent.value);
      }
      assert ledger.journal + [] == ledger.journal;
      ledger.Commit(r, state.(actions := actions, status := status), ledger.resources, ledger.received, []);
      fate := Fine;
    }

    /** Enforces the deadlines, reconciles, and settles a stopped run. */
    method Tick(r: RunId, clock: TickClock, stopNet: Net, net: Net) returns (fate: Fate)
      modifies ledger, executor
      ensures (Now(), fate) == old(Operations.Tick(Now(), r, clock, stopNet, net))
    {
      var row := ledger.Read(r);
      if row.Raised? {
        return Threw(row.error);
      }
      var state := row.value;
      if Over(state.status) {
        return Fine;
      }
      if state.stopIntent.None? && Expired(state, clock.now, clock.each) {
        fate := RequestStop(r, Timeout, clock.stopAt, stopNet);
        if fate.Threw? {
          return;
        }
      }
      fate := Reconcile(r, net);
      if fate.Threw? {
        return;
      }
      fate := Settle(r, clock.settleAt);
    }
  }

  /** Once an action's turn raised, the loop is over. */
  lemma {:induction false} ReconcileStops(w: World, r: RunId, actions: seq<Action>, n: nat, net: Net)
    requires n <= |actions| && ReconcileFirst(w, r, actions, n, net).1.Threw?
    ensures ReconcileFirst(w, r, actions, |actions|, net) == ReconcileFirst(w, r, actions, n, net)
    decreases |actions| - n
  {
    if n < |actions| { ReconcileStops(w, r, actions, n + 1, net); }
  }

  /** The next turn of the loop. */
  lemma StopFirstNext(w: World, r: RunId, actions: seq<Action>, n: nat, net: Net)
    requires n < |actions| && StopFirst(w, r, actions, n, net).1.Fine?
    ensures StopFirst(w, r, actions, n + 1, net)
            == if actions[n].status.Stopping?
               then Operations.StopOne(StopFirst(w, r, actions, n, net).0, r, actions[n], net(actions[n].id))
               else StopFirst(w, r, actions, n, net)
  {}

  lemma {:induction false} StoppingStops(w: World, r: RunId, actions: seq<Action>, n: nat, net: Net)
    requires n <= |actions| && StopFirst(w, r, actions, n, net).1.Threw?
    ensures StopFirst(w, r, actions, |actions|, net) == StopFirst(w, r, actions, n, net)
    decreases |actions| - n
  {
    if n < |actions| { StoppingStops(w, r, actions, n + 1, net); }
  }
}
