/** What the scheduler's operations achieve: reconcile mirrors the executor, a confirmed cancel
    drains the run, and events converge in whatever order they arrive. */
module Outcomes {
  import opened Contracts
  import opened Transactions
  import opened Executors
  import opened Protocol
  import opened Preservation
  import opened Safety
  import opened Operations

  // ----- adopting the executor's current snapshot -----

  /** The ledger's action says what the executor's snapshot says. */
  ghost predicate Adopted(before: Action, after: Action, task: TaskStatus, s: Snapshot) {
    && after.executionId == Some(s.executionId)
    && (Terminal(s.status) && s.lastEvent.Some? && Conclusive(s.lastEvent.value) ==>
          && after.status == s.status && after.finishedAt == Some(s.lastEvent.value.occurredAt)
          && task == if s.status.Completed? then Verifying else Recovering)
    && (!Terminal(s.status) ==> after.status == Underway(before) && !task.Blocked?)
    && (Terminal(s.status) && s.lastEvent.Some? && !Conclusive(s.lastEvent.value) ==>
          && InFlight(after.status)
          && (before.lastEventSequence < LastSequence(s) ==> after.status.ExecutionUnknown? && task.Blocked?))
  }

  lemma AcceptShape(t: Tables, r: RunId, k: nat, s: Snapshot)
    requires r in t.runs && k < |t.runs[r].actions| && FindAction(t.runs[r].actions, t.runs[r].actions[k].id) == k
    requires Accept(t, r, t.runs[r].actions[k].id, s).Committed?
    ensures var t' := Accept(t, r, t.runs[r].actions[k].id, s).value;
            && t' == t.(runs := t.runs[r := Accepted(t.runs[r], k, s)])
            && t'.runs[r].actions[k] == AcceptAction(t.runs[r].actions[k], s)
            && FindAction(t'.runs[r].actions, t.runs[r].actions[k].id) == k
  {
    FindSame(t.runs[r].actions, Accepted(t.runs[r], k, s).actions, t.runs[r].actions[k].id);
  }

  lemma ApplyShape(t: Tables, r: RunId, k: nat, ev: Event)
    requires r in t.runs && k < |t.runs[r].actions| && FindAction(t.runs[r].actions, ev.actionId) == k && ev.runId == r
    requires Apply(t, ev).Committed?
    ensures var t', a := Apply(t, ev).value, t.runs[r].actions[k];
            && r in t'.runs && k < |t'.runs[r].actions|
            && (if (r, ev.id) in t.received then t' == t
                else if ev.sequence <= a.lastEventSequence || Terminal(a.status) then
                  t'.runs == t.runs && t'.resources == t.resources && t'.received == t.received[(r, ev.id) := ev]
                else
                  && t'.runs == t.runs[r := Absorb(t.runs[r], k, ev)]
                  && t'.received == t.received[(r, ev.id) := ev]
                  && t'.resources == if Conclusive(ev) then Release(t.resources, a.id) else t.resources)
  {}

  /** The snapshot's event was not absorbed yet. */
  predicate HasNews(a: Action, s: Snapshot) {
    s.lastEvent.Some? && a.lastEventSequence < s.lastEvent.value.sequence
  }

  function AdoptedAction(a: Action, s: Snapshot): Action {
    if HasNews(a, s) then AbsorbAction(AcceptAction(a, s), s.lastEvent.value) else AcceptAction(a, s)
  }

  function AdoptedStatus(run: Run, a: Action, s: Snapshot): TaskStatus {
    var status := AcceptStatus(run.status, a, s);
    if HasNews(a, s) then AbsorbStatus(status, a.planVersion == run.planVersion, s.lastEvent.value) else status
  }

  /** The run after adopting a snapshot and absorbing its event. */
  function AdoptedRun(run: Run, k: nat, s: Snapshot): Run
    requires k < |run.actions|
  {
    WithAction(run, k, AdoptedAction(run.actions[k], s)).(status := AdoptedStatus(run, run.actions[k], s))
  }

  lemma AdoptedInTwo(run: Run, k: nat, s: Snapshot)
    requires k < |run.actions|
    ensures AdoptedRun(run, k, s) == if HasNews(run.actions[k], s)
              then Absorb(Accepted(run, k, s), k, s.lastEvent.value)
                                     else Accepted(run, k, s)
  {
    var a := AcceptAction(run.actions[k], s);
    assert run.actions[k := a][k := AdoptedAction(run.actions[k], s)] ==
             run.actions[k := AdoptedAction(run.actions[k], s)];
  }

  lemma AdoptedIsFaithful(run: Run, a: Action, s: Snapshot)
    requires InFlight(a.status) && SnapshotOk(s) && a.planVersion == run.planVersion
    requires s.lastEvent.Some? && Conclusive(s.lastEvent.value) ==> a.lastEventSequence < LastSequence(s)
    ensures Adopted(a, AdoptedAction(a, s), AdoptedStatus(run, a, s), s)
  {}

  /** An action in flight has not absorbed the executor's conclusive event, and a received event
      was absorbed. */
  lemma NewsOf(w: World, r: RunId, k: nat, ev: Event)
    requires Inv(w) && r in w.t.runs && k < |w.t.runs[r].actions| && InFlight(w.t.runs[r].actions[k].status)
    requires w.t.runs[r].actions[k].id in w.x.executions
    requires w.x.executions[w.t.runs[r].actions[k].id].snapshot.lastEvent == Some(ev)
    ensures Conclusive(ev) ==> w.t.runs[r].actions[k].lastEventSequence < ev.sequence
    ensures (r, ev.id) in w.t.received ==> ev.sequence <= w.t.runs[r].actions[k].lastEventSequence
    ensures ev.runId == r && ev.actionId == w.t.runs[r].actions[k].id && ev in w.x.events
  {
    var a := w.t.runs[r].actions[k];
    WhereIs(w, r, k);
    assert RunOk(r, w.t.runs[r]) && ActionOk(r, w.t.runs[r], a) && Linked(w, a) && ExecutionOk(w.x, a.id);
    assert EventOk(w.x, ev);
    if (r, ev.id) in w.t.received {
      assert ReceivedOk(w, r, ev.id) && DistinctEvents(ev, w.t.received[(r, ev.id)]);
    }
  }

  /** Adopting the current snapshot of an action in flight rewrites the run by the snapshot, and
      nothing else. */
  lemma AdoptCurrent(w: World, r: RunId, k: nat)
    requires Inv(w) && r in w.t.runs && k < |w.t.runs[r].actions| && InFlight(w.t.runs[r].actions[k].status)
    requires w.t.runs[r].actions[k].id in w.x.executions
    ensures var a := w.t.runs[r].actions[k];
            var s := w.x.executions[a.id].snapshot;
            var (w', f) := AcceptSnapshot(w, r, a.id, s);
            && f.Fine? && Leads(w, w') && w'.x == w.x
            && w'.t.runs == w.t.runs[r := AdoptedRun(w.t.runs[r], k, s)]
            && Adopted(a, AdoptedAction(a, s), AdoptedStatus(w.t.runs[r], a, s), s)
  {
    AdoptWrites(w, r, k);
    AdoptMirrors(w, r, k);
  }

  lemma AdoptMirrors(w: World, r: RunId, k: nat)
    requires Inv(w) && r in w.t.runs && k < |w.t.runs[r].actions| && InFlight(w.t.runs[r].actions[k].status)
    requires w.t.runs[r].actions[k].id in w.x.executions
    ensures var a := w.t.runs[r].actions[k];
            var s := w.x.executions[a.id].snapshot;
            Adopted(a, AdoptedAction(a, s), AdoptedStatus(w.t.runs[r], a, s), s)
  {
    var a := w.t.runs[r].actions[k];
    var s := w.x.executions[a.id].snapshot;
    assert RunOk(r, w.t.runs[r]) && ActionOk(r, w.t.runs[r], a) && ExecutionOk(w.x, a.id);
    if s.lastEvent.Some? { NewsOf(w, r, k, s.lastEvent.value); }
    AdoptedIsFaithful(w.t.runs[r], a, s);
  }

  lemma AdoptWrites(w: World, r: RunId, k: nat)
    requires Inv(w) && r in w.t.runs && k < |w.t.runs[r].actions| && InFlight(w.t.runs[r].actions[k].status)
    requires w.t.runs[r].actions[k].id in w.x.executions
    ensures var a := w.t.runs[r].actions[k];
            var s := w.x.executions[a.id].snapshot;
            var (w', f) := AcceptSnapshot(w, r, a.id, s);
            && f.Fine? && Leads(w, w') && w'.x == w.x
            && w'.t.runs == w.t.runs[r := AdoptedRun(w.t.runs[r], k, s)]
  {
    var a := w.t.runs[r].actions[k];
    var s := w.x.executions[a.id].snapshot;
    WhereIs(w, r, k);
    assert ExecutionOk(w.x, a.id);
    AcceptSnapshotLeads(w, r, a.id, s);
    GenuineSnapshotCommits(w, r, a.id, s);
    AcceptShape(w.t, r, k, s);
    if s.lastEvent.Some? {
      NewsOf(w, r, k, s.lastEvent.value);
      AdoptEvent(w, r, k, s.lastEvent.value);
    }
  }

  /** The second transaction, after the snapshot was accepted. */
  lemma AdoptEvent(w: World, r: RunId, k: nat, ev: Event)
    requires Inv(w) && r in w.t.runs && k < |w.t.runs[r].actions| && InFlight(w.t.runs[r].actions[k].status)
    requires var a := w.t.runs[r].actions[k];
             && a.id in w.x.executions && w.x.executions[a.id].snapshot.lastEvent == Some(ev)
             && FindAction(w.t.runs[r].actions, a.id) == k
             && Accept(w.t, r, a.id, w.x.executions[a.id].snapshot).Committed?
    requires ev.runId == r && ev.actionId == w.t.runs[r].actions[k].id && ev in w.x.events
    requires Conclusive(ev) ==> w.t.runs[r].actions[k].lastEventSequence < ev.sequence
    requires (r, ev.id) in w.t.received ==> ev.sequence <= w.t.runs[r].actions[k].lastEventSequence
    ensures var a := w.t.runs[r].actions[k];
            var s := w.x.executions[a.id].snapshot;
            var t1 := Accept(w.t, r, a.id, s).value;
            Apply(t1, ev).Committed? && Apply(t1, ev).value.runs == w.t.runs[r := AdoptedRun(w.t.runs[r], k, s)]
  {
    var s := w.x.executions[w.t.runs[r].actions[k].id].snapshot;
    AcceptShape(w.t, r, k, s);
    AcceptedApplies(w, r, k, s, ev);
    EventWrites(Accept(w.t, r, w.t.runs[r].actions[k].id, s).value, w.t.runs[r], r, k, s, ev);
    assert w.t.runs[r := Accepted(w.t.runs[r], k, s)][r := AdoptedRun(w.t.runs[r], k, s)] ==
             w.t.runs[r := AdoptedRun(w.t.runs[r], k, s)];
  }

  /** An accepted snapshot's event applies. */
  lemma AcceptedApplies(w: World, r: RunId, k: nat, s: Snapshot, ev: Event)
    requires Inv(w) && r in w.t.runs && k < |w.t.runs[r].actions|
    requires var a := w.t.runs[r].actions[k];
             && a.id in w.x.executions && s == w.x.executions[a.id].snapshot
             && FindAction(w.t.runs[r].actions, a.id) == k && Accept(w.t, r, a.id, s).Committed?
    requires ev in w.x.events && ev.actionId == w.t.runs[r].actions[k].id
    ensures Apply(Accept(w.t, r, w.t.runs[r].actions[k].id, s).value, ev).Committed?
  {
    var a := w.t.runs[r].actions[k];
    AcceptShape(w.t, r, k, s);
    assert ExecutionOk(w.x, a.id);
    AcceptKeeps(w, r, a.id, s);
    GenuineEventsApply(w.(t := Accept(w.t, r, a.id, s).value), r, k, ev);
  }

  /** What applying a snapshot's event to the accepted run writes. */
  lemma EventWrites(t: Tables, run: Run, r: RunId, k: nat, s: Snapshot, ev: Event)
    requires k < |run.actions| && r in t.runs && t.runs[r] == Accepted(run, k, s) && s.lastEvent == Some(ev)
    requires ev.runId == r && FindAction(t.runs[r].actions, ev.actionId) == k && InFlight(run.actions[k].status)
    requires (r, ev.id) in t.received ==> ev.sequence <= run.actions[k].lastEventSequence
    requires Apply(t, ev).Committed?
    ensures Apply(t, ev).value.runs == t.runs[r := AdoptedRun(run, k, s)]
  {
    ApplyShape(t, r, k, ev);
    AdoptedInTwo(run, k, s);
    assert t.runs[r := t.runs[r]] == t.runs;
  }

  // ----- reconcile -----

  /** With a prompt link and an online executor, reconcile makes the ledger say of the action in
      flight what the executor says: its execution id; a stopped, finished report is adopted with
      its time and frees the locks; a running one reads RUNNING or STOPPING; a terminal but
      unstopped one stays in flight with its locks; and an action the executor never got is
      unknown, with the run blocked. */
  lemma ReconcileMirrorsExecutor(w: World, r: RunId, net: Net, k: nat)
    requires Inv(w) && r in w.t.runs && k < |w.t.runs[r].actions| && InFlight(w.t.runs[r].actions[k].status)
    requires w.x.connected && net(w.t.runs[r].actions[k].id).delivery.Prompt?
    ensures var (w', f) := Reconcile(w, r, net);
            && f.Fine? && Leads(w, w') && w'.x == w.x
            && w'.t.runs == w.t.runs[r := w'.t.runs[r]] && k < |w'.t.runs[r].actions|
            && var a, b := w.t.runs[r].actions[k], w'.t.runs[r].actions[k];
               && b.id == a.id && b.resources == a.resources
               && Locked(w'.t.resources, b)
               && if a.id in w.x.executions then Adopted(a, b, w'.t.runs[r].status, w.x.executions[a.id].snapshot)
                  else b.status.ExecutionUnknown? && w'.t.runs[r].status.Blocked?
  {
    var a := w.t.runs[r].actions[k];
    ReconcileIsOne(w, r, net, k);
    ReconcileLeads(w, r, net);
    ReconcileOneMirrors(w, r, k);
    StillTheSame(w, Reconcile(w, r, net).0, r, k);
  }

  /** A prompt lookup of one action in flight. */
  lemma ReconcileOneMirrors(w: World, r: RunId, k: nat)
    requires Inv(w) && r in w.t.runs && k < |w.t.runs[r].actions| && InFlight(w.t.runs[r].actions[k].status)
    requires var a := w.t.runs[r].actions[k]; a.key == a.id && FindAction(w.t.runs[r].actions, a.id) == k
    requires w.x.connected
    ensures var a := w.t.runs[r].actions[k];
            var w' := ReconcileOne(w, r, a, Prompt).0;
            && r in w'.t.runs && w'.t.runs == w.t.runs[r := w'.t.runs[r]] && k < |w'.t.runs[r].actions|
            && if a.id in w.x.executions
               then Adopted(a, w'.t.runs[r].actions[k], w'.t.runs[r].status, w.x.executions[a.id].snapshot)
               else w'.t.runs[r].actions[k].status.ExecutionUnknown? && w'.t.runs[r].status.Blocked?
  {
    if w.t.runs[r].actions[k].id in w.x.executions {
      AdoptCurrent(w, r, k);
    }
  }

  lemma StillTheSame(w: World, w': World, r: RunId, k: nat)
    requires Leads(w, w') && r in w.t.runs && k < |w.t.runs[r].actions|
    ensures r in w'.t.runs && k < |w'.t.runs[r].actions|
    ensures SameIntent(w.t.runs[r].actions[k], w'.t.runs[r].actions[k])
    ensures Locked(w'.t.resources, w'.t.runs[r].actions[k])
  {
    assert r in w'.t.runs && Evolves(w.t.runs[r].actions[k], w'.t.runs[r].actions[k]);
    assert Linked(w', w'.t.runs[r].actions[k]);
  }

  /** Reconciling a run is reconciling its one action in flight. */
  lemma ReconcileIsOne(w: World, r: RunId, net: Net, k: nat)
    requires Inv(w) && r in w.t.runs && k < |w.t.runs[r].actions| && InFlight(w.t.runs[r].actions[k].status)
    ensures var a := w.t.runs[r].actions[k];
            && Reconcile(w, r, net) == ReconcileOne(w, r, a, net(a.id).delivery)
            && a.key == a.id && FindAction(w.t.runs[r].actions, a.id) == k
  {
    var run := w.t.runs[r];
    assert RunOk(r, run) && ActionOk(r, run, run.actions[k]);
    WhereIs(w, r, k);
    forall i | 0 <= i < |run.actions| && i != k ensures !InFlight(run.actions[i].status) {
      if InFlight(run.actions[i].status) { OneInFlight(r, run, i, k); }
    }
    ReconcileFirstIsOne(w, r, run.actions, |run.actions|, net, k);
  }

  // ----- cancel -----

  /** The executor can confirm stopping this action: it is running, or already finished and stopped. */
  ghost predicate Stoppable(w: World, run: Run, a: Action, wire: Wire) {
    && a.proposal.actionType in run.capabilities && run.capabilities[a.proposal.actionType].supportsCancel
    && wire.delivery.Prompt?
    && a.id in w.x.executions
    && var s := w.x.executions[a.id].snapshot;
       !Terminal(s.status) || (Finished(s.status) && s.stopped)
  }

  /** What a prompt cancel call answers about an action the executor can confirm stopped. */
  lemma CancelAnswers(w: World, r: RunId, a: Action, wire: Wire)
    requires Inv(w) && SentIn(w, r, a.id) && w.x.connected && w.x.confirmCancel && FreshEvent(w.x, wire.event)
    requires Stoppable(w, w.t.runs[r], a, wire)
    ensures var (x', reply) := CancelCall(w.x, a.id, wire);
            && Inv(w.(x := x')) && a.id in x'.executions
            && reply == Answer(x'.executions[a.id].snapshot)
            && Finished(reply.snapshot.status) && reply.snapshot.lastEvent.Some?
                 && Conclusive(reply.snapshot.lastEvent.value)
  {
    CancelCallLeads(w, r, a.id, wire);
    assert ExecutionOk(w.x, a.id);
  }

  /** A confirmed cancel of one action leaves it finished. */
  lemma StopOneFinishes(w: World, r: RunId, k: nat, wire: Wire)
    requires Inv(w) && r in w.t.runs && k < |w.t.runs[r].actions| && InFlight(w.t.runs[r].actions[k].status)
    requires w.x.connected && w.x.confirmCancel && FreshEvent(w.x, wire.event)
    requires Stoppable(w, w.t.runs[r], w.t.runs[r].actions[k], wire)
    ensures var run, (w', f) := w.t.runs[r], StopOne(w, r, w.t.runs[r].actions[k], wire);
            && f.Fine? && r in w'.t.runs && |w'.t.runs[r].actions| == |run.actions|
            && w'.t.runs[r].actions == run.actions[k := w'.t.runs[r].actions[k]]
            && Finished(w'.t.runs[r].actions[k].status)
            && w'.t.runs[r].stopIntent == run.stopIntent
            && (Over(w'.t.runs[r].status) ==> Over(run.status))
  {
    var run := w.t.runs[r];
    var a := run.actions[k];
    OwnActionsRead(w, r);
    assert ReadFrom(w, r, a);
    CancelAnswers(w, r, a, wire);
    var x' := CancelCall(w.x, a.id, wire).0;
    var s := x'.executions[a.id].snapshot;
    AdoptCurrent(w.(x := x'), r, k);
    StopOneIsAdoption(w, r, a, wire);
    OverOnlyKept(run, a, s);
  }

  lemma OverOnlyKept(run: Run, a: Action, s: Snapshot)
    ensures Over(AdoptedStatus(run, a, s)) ==> AdoptedStatus(run, a, s) == run.status
  {}

  lemma StopOneIsAdoption(w: World, r: RunId, a: Action, wire: Wire)
    requires r in w.t.runs && a.key == a.id && a.proposal.actionType in w.t.runs[r].capabilities
    requires w.t.runs[r].capabilities[a.proposal.actionType].supportsCancel
    requires CancelCall(w.x, a.id, wire).1.Answer?
    requires var (x', reply) := CancelCall(w.x, a.id, wire);
             AcceptSnapshot(w.(x := x'), r, a.id, reply.snapshot).1.Fine?
    ensures var (x', reply) := CancelCall(w.x, a.id, wire);
            StopOne(w, r, a, wire) == AcceptSnapshot(w.(x := x'), r, a.id, reply.snapshot)
  {}

  /** On an unfinished run whose in-flight action the executor can confirm stopped, cancelling
      makes every action terminal and frees all the run's resources, and the next tick, whatever
      its link and clocks, returns CANCELED. */
  lemma CancelDrains(w: World, r: RunId, now: Clock, net: Net,
                                        clock: TickClock, stopNet: Net, lookNet: Net)
    requires Inv(w) && r in w.t.runs && !Over(w.t.runs[r].status)
    requires w.x.connected && w.x.confirmCancel && forall id :: FreshEvent(w.x, net(id).event)
    requires forall i :: 0 <= i < |w.t.runs[r].actions| && InFlight(w.t.runs[r].actions[i].status) ==>
               Stoppable(w, w.t.runs[r], w.t.runs[r].actions[i], net(w.t.runs[r].actions[i].id))
    ensures var (w1, f1) := RequestStop(w, r, Cancel, now, net);
            var (w2, f2) := Tick(w1, r, clock, stopNet, lookNet);
            && f1.Fine? && f2.Fine? && Leads(w, w1) && r in w1.t.runs
            && AllTerminal(w1.t.runs[r].actions)
            && (forall x, i :: 0 <= i < |w1.t.runs[r].actions| ==> !Owns(w1.t.resources, x, w1.t.runs[r].actions[i].id))
            && r in w2.t.runs && w2.t.runs[r] == w1.t.runs[r].(status := TaskCanceled)
  {
    StopDrains(w, r, Cancel, now, net);
    var w1 := RequestStop(w, r, Cancel, now, net).0;
    DrainedOwnsNothing(w1, r);
    TickSettlesCancel(w1, r, clock, stopNet, lookNet);
  }

  lemma DrainedOwnsNothing(w: World, r: RunId)
    requires Inv(w) && r in w.t.runs && AllTerminal(w.t.runs[r].actions)
    ensures forall x, i :: 0 <= i < |w.t.runs[r].actions| ==> !Owns(w.t.resources, x, w.t.runs[r].actions[i].id)
  {
    forall i | 0 <= i < |w.t.runs[r].actions| ensures forall x :: !Owns(w.t.resources, x, w.t.runs[r].actions[i].id) {
      assert Linked(w, w.t.runs[r].actions[i]);
    }
  }

  /** The stop request alone makes everything terminal, whatever its reason. */
  lemma StopDrains(w: World, r: RunId, reason: StopReason, now: Clock, net: Net)
    requires Inv(w) && r in w.t.runs && !Over(w.t.runs[r].status)
    requires w.x.connected && w.x.confirmCancel && forall id :: FreshEvent(w.x, net(id).event)
    requires forall i :: 0 <= i < |w.t.runs[r].actions| && InFlight(w.t.runs[r].actions[i].status) ==>
               Stoppable(w, w.t.runs[r], w.t.runs[r].actions[i], net(w.t.runs[r].actions[i].id))
    ensures var (w1, f1) := RequestStop(w, r, reason, now, net);
            && f1.Fine? && Leads(w, w1) && r in w1.t.runs
            && AllTerminal(w1.t.runs[r].actions) && !Over(w1.t.runs[r].status)
            && w1.t.runs[r].stopIntent == Some(reason)
  {
    FreezeKeeps(w, r, reason, now);
    RequestStopLeads(w, r, reason, now, net);
    DrainFrozen(w, Note(w, Freeze(w.t, r, reason, now)).0, r, reason, now, net);
  }

  /** After the freeze every action is terminal or, if it was in flight, stopping. */
  lemma FrozenStatuses(r: RunId, run: Run, reason: StopReason, now: Clock, i: nat)
    requires RunOk(r, run) && i < |run.actions|
    ensures var a, b := run.actions[i], StopActions(run.actions, reason, now)[i];
            if InFlight(a.status) then b.status.Stopping? && SameIntent(a, b) else Terminal(b.status)
  {}

  lemma DrainFrozen(w: World, w0: World, r: RunId, reason: StopReason, now: Clock, net: Net)
    requires Inv(w) && r in w.t.runs && !Over(w.t.runs[r].status)
    requires w.x.connected && w.x.confirmCancel && forall id :: FreshEvent(w.x, net(id).event)
    requires forall i :: 0 <= i < |w.t.runs[r].actions| && InFlight(w.t.runs[r].actions[i].status) ==>
               Stoppable(w, w.t.runs[r], w.t.runs[r].actions[i], net(w.t.runs[r].actions[i].id))
    requires w0 == Note(w, Freeze(w.t, r, reason, now)).0 && Inv(w0)
    ensures var (w1, f1) := StopFirst(w0, r, w0.t.runs[r].actions, |w0.t.runs[r].actions|, net);
            && r in w1.t.runs && AllTerminal(w1.t.runs[r].actions) && !Over(w1.t.runs[r].status)
            && w1.t.runs[r].stopIntent == Some(reason)
  {
    var run := w0.t.runs[r];
    assert RunOk(r, w.t.runs[r]) && RunOk(r, run);
    forall i | 0 <= i < |run.actions| ensures Terminal(run.actions[i].status) || run.actions[i].status.Stopping? {
      FrozenStatuses(r, w.t.runs[r], reason, now, i);
    }
    if run.actions != [] {
      var k := Flying(r, run);
      StopFirstIsOne(w0, r, run.actions, |run.actions|, net, k);
      if run.actions[k].status.Stopping? {
        FrozenStatuses(r, w.t.runs[r], reason, now, k);
        assert Stoppable(w0, run, run.actions[k], net(run.actions[k].id));
        StopOneFinishes(w0, r, k, net(run.actions[k].id));
      }
    }
  }

  lemma {:induction false} NothingToReconcile(w: World, r: RunId, actions: seq<Action>, n: nat, net: Net)
    requires n <= |actions| && AllTerminal(actions)
    ensures ReconcileFirst(w, r, actions, n, net) == (w, Fine)
    decreases n
  {
    if n > 0 { NothingToReconcile(w, r, actions, n - 1, net); }
  }

  /** Once all is terminal under a cancel, a tick cancels the task. */
  lemma TickSettlesCancel(w: World, r: RunId, clock: TickClock, stopNet: Net, net: Net)
    requires r in w.t.runs && AllTerminal(w.t.runs[r].actions) && !Over(w.t.runs[r].status)
    requires w.t.runs[r].stopIntent == Some(Cancel)
    ensures var (w', f) := Tick(w, r, clock, stopNet, net);
            f.Fine? && r in w'.t.runs && w'.t.runs[r] == w.t.runs[r].(status := TaskCanceled)
  {
    var run := w.t.runs[r];
    NothingToReconcile(w, r, run.actions, |run.actions|, net);
    assert Settled(run, clock.settleAt).actions == run.actions;
  }

  // ----- event delivery -----

  /** The tables after a sequence of deliveries; a delivery that raises changes nothing. */
  function DeliverAll(t: Tables, evs: seq<Event>): Tables {
    if evs == [] then t
    else
      var t' := DeliverAll(t, evs[..|evs| - 1]);
      var o := Apply(t', evs[|evs| - 1]);
      if o.Raised? then t' else o.value
  }

  /** Where the deliveries of one execution's events have got to: before its conclusive event only
      the action's own progress marks differ from the start, after it the run and the locks are as
      if that event had come alone. */
  ghost predicate Converging(t0: Tables, t: Tables, r: RunId, k: nat, last: Event, seen: bool)
    requires r in t0.runs && k < |t0.runs[r].actions|
  {
    if seen then t.runs == t0.runs[r := Absorb(t0.runs[r], k, last)]
                 && t.resources == Release(t0.resources, t0.runs[r].actions[k].id)
    else
      && r in t.runs && k < |t.runs[r].actions|
      && var a, b := t0.runs[r].actions[k], t.runs[r].actions[k];
         && b == a.(status := b.status, lastEventSequence := b.lastEventSequence)
         && InFlight(b.status) && b.lastEventSequence < last.sequence
         && t.runs == t0.runs[r := WithAction(t0.runs[r], k, b)]
         && t.resources == t0.resources
  }

  /** Absorbing into a run of which one action was already rewritten. */
  lemma AbsorbOver(run: Run, k: nat, b: Action, ev: Event)
    requires k < |run.actions|
    requires b == run.actions[k].(status := b.status, lastEventSequence := b.lastEventSequence)
    ensures Conclusive(ev) ==> Absorb(WithAction(run, k, b), k, ev) == Absorb(run, k, ev)
    ensures !Terminal(ev.status) ==> Absorb(WithAction(run, k, b), k, ev) == WithAction(run, k, AbsorbAction(b, ev))
  {
    assert run.actions[k := b][k := AbsorbAction(b, ev)] == run.actions[k := AbsorbAction(b, ev)];
  }

  /** The executor's facts about one event of an execution that ended conclusively. */
  lemma EventBeforeLast(x: Executor, last: Event, ev: Event)
    requires ExecutorOk(x) && ev in x.events
    requires ev.actionId in x.executions && x.executions[ev.actionId].snapshot.lastEvent == Some(last)
    ensures ev == last || (!Terminal(ev.status) && ev.sequence < last.sequence)
  {
    assert EventOk(x, ev);
  }

  lemma ConvergeStep(t0: Tables, w: World, r: RunId, k: nat, last: Event, seen: bool, ev: Event)
    requires Inv(w) && r in t0.runs && k < |t0.runs[r].actions|
    requires var a := t0.runs[r].actions[k];
             && a.executionId.Some? && a.id in w.x.executions
             && w.x.executions[a.id].snapshot.lastEvent == Some(last) && Conclusive(last)
             && ev in w.x.events && ev.actionId == a.id
    requires Converging(t0, w.t, r, k, last, seen)
    ensures Apply(w.t, ev).Committed?
    ensures Converging(t0, Apply(w.t, ev).value, r, k, last, seen || ev == last)
  {
    GenuineEventsApply(w, r, k, ev);
    ApplyShape(w.t, r, k, ev);
    EventBeforeLast(w.x, last, ev);
    if !seen {
      NewsOf(w, r, k, last);
      AbsorbOver(t0.runs[r], k, w.t.runs[r].actions[k], ev);
      assert w.t.runs[r] == WithAction(t0.runs[r], k, w.t.runs[r].actions[k]);
    }
  }

  /** Any finite sequence of one execution's events, repeated and in any order, that includes its
      conclusive event, ends with the run and the locks exactly as that event alone leaves them. */
  lemma DeliveryConverges(w: World, r: RunId, k: nat, last: Event, evs: seq<Event>)
    requires Inv(w) && r in w.t.runs && k < |w.t.runs[r].actions|
    requires var a := w.t.runs[r].actions[k];
             && a.executionId.Some? && !Terminal(a.status)
             && a.id in w.x.executions && w.x.executions[a.id].snapshot.lastEvent == Some(last) && Conclusive(last)
    requires forall i :: 0 <= i < |evs| ==> evs[i] in w.x.events && evs[i].actionId == w.t.runs[r].actions[k].id
    requires last in evs
    ensures Apply(w.t, last).Committed?
    ensures DeliverAll(w.t, evs).runs == Apply(w.t, last).value.runs
    ensures DeliverAll(w.t, evs).resources == Apply(w.t, last).value.resources
  {
    assert RunOk(r, w.t.runs[r]) && ActionOk(r, w.t.runs[r], w.t.runs[r].actions[k]);
    NewsOf(w, r, k, last);
    ConvergeAlong(w, r, k, last, evs);
    ConvergeAlong(w, r, k, last, [last]);
    assert [last][..0] == [];
    assert DeliverAll(w.t, [last]) == Apply(w.t, last).value;
  }

  lemma ConvergeStart(w: World, r: RunId, k: nat, last: Event)
    requires Inv(w) && r in w.t.runs && k < |w.t.runs[r].actions| && InFlight(w.t.runs[r].actions[k].status)
    requires var a := w.t.runs[r].actions[k];
             a.id in w.x.executions && w.x.executions[a.id].snapshot.lastEvent == Some(last) && Conclusive(last)
    ensures Converging(w.t, w.t, r, k, last, false)
  {
    NewsOf(w, r, k, last);
    assert w.t.runs[r].actions[k := w.t.runs[r].actions[k]] == w.t.runs[r].actions;
  }

  lemma ConvergeExtend(w: World, r: RunId, k: nat, last: Event, evs: seq<Event>)
    requires evs != [] && r in w.t.runs && k < |w.t.runs[r].actions|
    requires var a := w.t.runs[r].actions[k];
             && a.executionId.Some? && a.id in w.x.executions
             && w.x.executions[a.id].snapshot.lastEvent == Some(last) && Conclusive(last)
             && evs[|evs| - 1] in w.x.events && evs[|evs| - 1].actionId == a.id
    requires Inv(w.(t := DeliverAll(w.t, evs[..|evs| - 1])))
    requires Converging(w.t, DeliverAll(w.t, evs[..|evs| - 1]), r, k, last, last in evs[..|evs| - 1])
    ensures Inv(w.(t := DeliverAll(w.t, evs)))
    ensures Converging(w.t, DeliverAll(w.t, evs), r, k, last, last in evs)
    ensures Apply(DeliverAll(w.t, evs[..|evs| - 1]), evs[|evs| - 1]).Committed?
  {
    var n := |evs| - 1;
    DeliverNext(w.t, w.(t := DeliverAll(w.t, evs[..n])), r, k, last, last in evs[..n], evs[n]);
    SplitLast(evs, last);
  }

  lemma SplitLast(evs: seq<Event>, last: Event)
    requires evs != []
    ensures last in evs <==> last in evs[..|evs| - 1] || evs[|evs| - 1] == last
  {
    assert evs == evs[..|evs| - 1] + [evs[|evs| - 1]];
  }

  lemma DeliverNext(t0: Tables, w: World, r: RunId, k: nat, last: Event, seen: bool, ev: Event)
    requires Inv(w) && r in t0.runs && k < |t0.runs[r].actions|
    requires var a := t0.runs[r].actions[k];
             && a.executionId.Some? && a.id in w.x.executions
             && w.x.executions[a.id].snapshot.lastEvent == Some(last) && Conclusive(last)
             && ev in w.x.events && ev.actionId == a.id
    requires Converging(t0, w.t, r, k, last, seen)
    ensures Apply(w.t, ev).Committed? && Inv(w.(t := Apply(w.t, ev).value))
    ensures Converging(t0, Apply(w.t, ev).value, r, k, last, seen || ev == last)
  {
    ConvergeStep(t0, w, r, k, last, seen, ev);
    DeliverKeeps(w, ev);
  }

  lemma {:induction false} ConvergeAlong(w: World, r: RunId, k: nat, last: Event, evs: seq<Event>)
    requires Inv(w) && r in w.t.runs && k < |w.t.runs[r].actions| && InFlight(w.t.runs[r].actions[k].status)
    requires var a := w.t.runs[r].actions[k];
             && a.executionId.Some? && a.id in w.x.executions
             && w.x.executions[a.id].snapshot.lastEvent == Some(last) && Conclusive(last)
    requires forall i :: 0 <= i < |evs| ==> evs[i] in w.x.events && evs[i].actionId == w.t.runs[r].actions[k].id
    ensures Inv(w.(t := DeliverAll(w.t, evs)))
    ensures Converging(w.t, DeliverAll(w.t, evs), r, k, last, last in evs)
    ensures evs != [] ==> Apply(DeliverAll(w.t, evs[..|evs| - 1]), evs[|evs| - 1]).Committed?
    decreases |evs|
  {
    if evs == [] {
      ConvergeStart(w, r, k, last);
      assert w.(t := DeliverAll(w.t, evs)) == w;
    } else {
      ConvergeAlong(w, r, k, last, evs[..|evs| - 1]);
      ConvergeExtend(w, r, k, last, evs);
    }
  }
}
