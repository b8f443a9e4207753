/** What the operations that talk to the executor must achieve: answers are adopted, silence is unknown, and a
    confirmed stop ends the run as its reason says. */
module Progress {
  import opened Contracts
  import opened Transactions
  import opened Executors
  import opened Protocol
  import opened Preservation
  import opened Safety
  import opened Operations
  import opened Outcomes
  import opened Effects

  // ----- the executor -----

  /** A new key starts one running execution, even if its reply is lost; a known key starts nothing, and
      answers with the execution it has or refuses another request. A call that is lost does nothing. */
  lemma SubmitDecides(x: Executor, a: Action, newId: ExecutionId, d: Delivery)
    ensures var (x', reply) := Submit(x, a, newId, d);
            if !x.connected || d.RequestLost? then x' == x && reply.NoReply?
            else if a.key in x.executions then
              && x'.executions == x.executions && x'.loseNextReply == x.loseNextReply
              && var e := x.executions[a.key];
                 reply == if d.ReplyLost? then NoReply
                          else if e.action.proposal == a.proposal && e.action.id == a.id then Answer(e.snapshot)
                          else Refused(KeyReused)
            else
              && var s := Snapshot(newId, a.key, Running, false, None);
                 x'.executions == x.executions[a.key := Execution(a, s)] && !x'.loseNextReply
                 && reply == if d.ReplyLost? || x.loseNextReply then NoReply else Answer(s)
  {}

  /** A report of a live execution is numbered after the last one and becomes its snapshot; a terminal
      execution reports nothing more. */
  lemma InjectDecides(x: Executor, key: ActionId, status: ActionStatus, stopped: bool, event: EventId, at: Time,
      changes: bool)
    ensures var o := Inject(x, key, status, stopped, event, at, changes);
            && (o.Committed? <==> key in x.executions && !Terminal(x.executions[key].snapshot.status))
            && (o.Committed? ==>
                  var e, x', ev := x.executions[key], o.value.0, o.value.1;
                  && ev.id == event && ev.runId == e.action.runId && ev.actionId == e.action.id
                  && ev.executionId == e.snapshot.executionId && ev.planVersion == e.action.planVersion
                  && ev.sequence == (if e.snapshot.lastEvent.None? then 0 else e.snapshot.lastEvent.value.sequence + 1)
                  && ev.occurredAt == at && ev.status == status && ev.stopped == stopped
                  && x'.executions == x.executions[key := Execution(e.action,
                       Snapshot(e.snapshot.executionId, e.snapshot.key, status, stopped, Some(ev)))]
                  && x'.worldVersion == x.worldVersion + (if changes then 1 else 0))
  {}

  /** A cancel that arrives ends a running execution as CANCELED and stopped if cancels are confirmed, and
      otherwise changes nothing; it answers with the snapshot after it. */
  lemma CancelDecides(x: Executor, key: ActionId, wire: Wire)
    ensures var (x', reply) := CancelCall(x, key, wire);
            if !x.connected || wire.delivery.RequestLost? then x' == x && reply.NoReply?
            else if key !in x.executions then x' == x && (reply.NoReply? || reply == Refused(UnknownExecution))
            else
              && key in x'.executions
              && (reply == if wire.delivery.ReplyLost? then NoReply else Answer(x'.executions[key].snapshot))
              && if Terminal(x.executions[key].snapshot.status) || !x.confirmCancel then x' == x
                 else x'.executions[key].snapshot.status.Canceled? && x'.executions[key].snapshot.stopped
  {}

  // ----- silence -----

  /** The link brings no answer about this action. */
  predicate Silent(w: World, delivery: Delivery) {
    !w.x.connected || !delivery.Prompt?
  }

  lemma UnknownInFlight(w: World, r: RunId, k: nat)
    requires Inv(w) && r in w.t.runs && k < |w.t.runs[r].actions| && InFlight(w.t.runs[r].actions[k].status)
    ensures var (w', f) := Note(w, MarkUnknown(w.t, r, w.t.runs[r].actions[k].id));
            && f.Fine? && w'.x == w.x && r in w'.t.runs
            && Rewritten(w.t.runs[r], k, w.t.runs[r].actions[k].(status := ExecutionUnknown), Blocked, w'.t.runs[r])
  {
    WhereIs(w, r, k);
    UnknownDecides(w.t, r, k);
  }

  /** A lookup that brings no answer leaves the action in flight unknown and blocks the run. */
  lemma ReconcileUnanswered(w: World, r: RunId, net: Net, k: nat)
    requires Inv(w) && r in w.t.runs && k < |w.t.runs[r].actions| && InFlight(w.t.runs[r].actions[k].status)
    requires Silent(w, net(w.t.runs[r].actions[k].id).delivery)
    ensures var (w', f) := Reconcile(w, r, net);
            && f.Fine? && w'.x == w.x && r in w'.t.runs
            && Rewritten(w.t.runs[r], k, w.t.runs[r].actions[k].(status := ExecutionUnknown), Blocked, w'.t.runs[r])
  {
    ReconcileIsOne(w, r, net, k);
    UnknownInFlight(w, r, k);
  }

  /** With nothing in flight reconcile does nothing. */
  lemma ReconcileIdle(w: World, r: RunId, net: Net)
    requires r in w.t.runs && forall i :: 0 <= i < |w.t.runs[r].actions| ==> !InFlight(w.t.runs[r].actions[i].status)
    ensures Reconcile(w, r, net) == (w, Fine)
  {
    IdleFirst(w, r, w.t.runs[r].actions, |w.t.runs[r].actions|, net);
  }

  lemma {:induction false} IdleFirst(w: World, r: RunId, actions: seq<Action>, n: nat, net: Net)
    requires n <= |actions| && forall i :: 0 <= i < n ==> !InFlight(actions[i].status)
    ensures ReconcileFirst(w, r, actions, n, net) == (w, Fine)
    decreases n
  {
    if n > 0 { IdleFirst(w, r, actions, n - 1, net); }
  }

  // ----- stopping -----

  /** The stop request of one action comes to nothing: its capability does not support it, nobody answers, or
      the executor does not know it. */
  predicate Unstoppable(w: World, run: Run, a: Action, wire: Wire) {
    || (a.proposal.actionType in run.capabilities && !run.capabilities[a.proposal.actionType].supportsCancel)
    || Silent(w, wire.delivery) || a.id !in w.x.executions
  }

  /** The action in flight after the freeze, where it was. */
  lemma FrozenInFlight(w: World, r: RunId, reason: StopReason, now: Clock, net: Net, k: nat)
    requires Inv(w) && r in w.t.runs && k < |w.t.runs[r].actions| && InFlight(w.t.runs[r].actions[k].status)
    ensures var w0 := Note(w, Freeze(w.t, r, reason, now)).0;
            && Inv(w0) && w0.x == w.x && r in w0.t.runs && k < |w0.t.runs[r].actions|
            && w0.t.runs[r].actions[k].status.Stopping? && w0.t.runs[r].actions[k].id == w.t.runs[r].actions[k].id
            && w0.t.runs[r].actions[k].key == w0.t.runs[r].actions[k].id
            && w0.t.runs[r].actions[k].proposal == w.t.runs[r].actions[k].proposal
            && w0.t.runs[r].capabilities == w.t.runs[r].capabilities
            && w0.t.runs[r].actions[k].proposal.actionType in w0.t.runs[r].capabilities
            && RequestStop(w, r, reason, now, net) == StopOne(w0, r, w0.t.runs[r].actions[k],
                 net(w0.t.runs[r].actions[k].id))
  {
    var w0 := Note(w, Freeze(w.t, r, reason, now)).0;
    FreezeKeeps(w, r, reason, now);
    FreezeDecides(w.t, r, reason, now);
    var run := w0.t.runs[r];
    assert RunOk(r, w.t.runs[r]) && RunOk(r, run) && ActionOk(r, run, run.actions[k]);
    forall i | 0 <= i < |run.actions| && i != k ensures !run.actions[i].status.Stopping? {
      if run.actions[i].status.Stopping? { OneInFlight(r, run, i, k); }
    }
    StopFirstIsOne(w0, r, run.actions, |run.actions|, net, k);
  }

  /** A stop that cannot be confirmed leaves the action in flight unknown, marked with its stop request, and
      blocks the run, which is frozen for the reason; the executor is not asked, or does nothing. */
  lemma StopUnanswered(w: World, r: RunId, reason: StopReason, now: Clock, net: Net, k: nat)
    requires Inv(w) && r in w.t.runs && k < |w.t.runs[r].actions| && InFlight(w.t.runs[r].actions[k].status)
    requires var a := w.t.runs[r].actions[k]; Unstoppable(w, w.t.runs[r], a, net(a.id))
    ensures var (w', f) := RequestStop(w, r, reason, now, net);
            && f.Fine? && r in w'.t.runs && k < |w'.t.runs[r].actions|
            && var a, b, run' := w.t.runs[r].actions[k], w'.t.runs[r].actions[k], w'.t.runs[r];
               && run'.status.Blocked? && run'.frozen && run'.stopIntent == Some(reason)
               && b.status.ExecutionUnknown? && b.stopReason == Some(reason)
               && b.stopRequestedAt == (if a.stopRequestedAt.Some? then a.stopRequestedAt else Some(now(a.id)))
  {
    FrozenInFlight(w, r, reason, now, net, k);
    FreezeDecides(w.t, r, reason, now);
    var w0 := Note(w, Freeze(w.t, r, reason, now)).0;
    StopOneUnanswered(w0, r, k, net(w0.t.runs[r].actions[k].id));
  }

  lemma StopOneUnanswered(w: World, r: RunId, k: nat, wire: Wire)
    requires Inv(w) && r in w.t.runs && k < |w.t.runs[r].actions| && InFlight(w.t.runs[r].actions[k].status)
    requires var a := w.t.runs[r].actions[k];
             a.key == a.id && a.proposal.actionType in w.t.runs[r].capabilities && Unstoppable(w, w.t.runs[r], a, wire)
    ensures var (w', f) := StopOne(w, r, w.t.runs[r].actions[k], wire);
            && f.Fine? && r in w'.t.runs
            && Rewritten(w.t.runs[r], k, w.t.runs[r].actions[k].(status := ExecutionUnknown), Blocked, w'.t.runs[r])
  {
    WhereIs(w, r, k);
    UnknownDecides(w.t, r, k);
    CancelDecides(w.x, w.t.runs[r].actions[k].id, wire);
  }

  /** A run that is stopped and has nothing left in flight ends, in one tick, as its reason says: CANCELED
      after a cancel, RECOVERING after a replan, FAILED otherwise. */
  lemma StoppedTickEnds(w: World, r: RunId, clock: TickClock, stopNet: Net, net: Net)
    requires r in w.t.runs && AllTerminal(w.t.runs[r].actions) && !Over(w.t.runs[r].status)
               && w.t.runs[r].stopIntent.Some?
    ensures var (w', f) := Tick(w, r, clock, stopNet, net);
            && f.Fine? && w'.x == w.x
            && w'.t == w.t.(runs := w.t.runs[r := w.t.runs[r].(status := EndedBy(w.t.runs[r].stopIntent.value))])
  {
    var run := w.t.runs[r];
    ReconcileIdle(w, r, net);
    SettleDecides(w.t, r, clock.settleAt);
    assert Settled(run, clock.settleAt).actions == run.actions;
  }

  /** How a stopped run ends. */
  function EndedBy(reason: StopReason): TaskStatus {
    if reason.Cancel? then TaskCanceled else if reason.Replan? then Recovering else TaskFailed
  }

  /** Every action in flight can be confirmed stopped over this net. */
  ghost predicate CanStop(w: World, r: RunId, net: Net)
    requires r in w.t.runs
  {
    && w.x.connected && w.x.confirmCancel && (forall id :: FreshEvent(w.x, net(id).event))
    && forall i :: 0 <= i < |w.t.runs[r].actions| && InFlight(w.t.runs[r].actions[i].status) ==>
         Stoppable(w, w.t.runs[r], w.t.runs[r].actions[i], net(w.t.runs[r].actions[i].id))
  }

  /** Everything of the run is terminal and unlocked. */
  ghost predicate Drained(w: World, r: RunId) {
    && r in w.t.runs && AllTerminal(w.t.runs[r].actions)
    && forall x, i :: 0 <= i < |w.t.runs[r].actions| ==> !Owns(w.t.resources, x, w.t.runs[r].actions[i].id)
  }

  /** A stop for any reason that can be confirmed, and the tick after it, drain the run and end it as the
      reason says. */
  lemma StopThenTickEnds(w: World, r: RunId, reason: StopReason, now: Clock, net: Net,
                         clock: TickClock, stopNet: Net, lookNet: Net)
    requires Inv(w) && r in w.t.runs && !Over(w.t.runs[r].status) && CanStop(w, r, net)
    ensures var (w1, f1) := RequestStop(w, r, reason, now, net);
            var (w2, f2) := Tick(w1, r, clock, stopNet, lookNet);
            && f1.Fine? && f2.Fine? && Drained(w2, r) && w2.t.runs[r].status == EndedBy(reason)
  {
    StopDrains(w, r, reason, now, net);
    var w1 := RequestStop(w, r, reason, now, net).0;
    DrainedOwnsNothing(w1, r);
    StoppedTickEnds(w1, r, clock, stopNet, lookNet);
  }

  // ----- tick -----

  /** The run, or an action of it in flight, has used up its time. */
  predicate TimeIsUp(run: Run, now: Time, each: Clock) {
    || now - run.createdAt >= run.budget.totalSeconds
    || exists i :: 0 <= i < |run.actions| && InFlight(run.actions[i].status) && run.actions[i].submittedAt.Some?
                   && each(run.actions[i].id) - run.actions[i].submittedAt.value >= run.actions[i].timeoutSeconds
  }

  /** A tick that finds the time up stops the run first; with nothing left in flight then, it settles. */
  lemma TickStopsFirst(w: World, w1: World, r: RunId, clock: TickClock, stopNet: Net, net: Net)
    requires r in w.t.runs && !Over(w.t.runs[r].status)
    requires w.t.runs[r].stopIntent.None? && TimeIsUp(w.t.runs[r], clock.now, clock.each)
    requires RequestStop(w, r, Timeout, clock.stopAt, stopNet) == (w1, Fine) && Reconcile(w1, r, net) == (w1, Fine)
    ensures Tick(w, r, clock, stopNet, net) == Note(w1, Settle(w1.t, r, clock.settleAt))
  {
    assert Expired(w.t.runs[r], clock.now, clock.each);
  }

  lemma TimedOutEnds(w: World, r: RunId, now: Clock)
    requires Inv(w) && r in w.t.runs && AllTerminal(w.t.runs[r].actions) && w.t.runs[r].stopIntent == Some(Timeout)
    ensures var (w', f) := Note(w, Settle(w.t, r, now));
            && f.Fine? && Drained(w', r) && w'.t.runs[r].status.TaskFailed? && w'.t.runs[r].stopIntent == Some(Timeout)
  {
    DrainedOwnsNothing(w, r);
    SettledEnds(w, r, now);
  }

  /** A tick that finds the time up, on a run that is not stopping, drains it and fails it, if the executor can
      confirm that. */
  lemma TickTimesOut(w: World, r: RunId, clock: TickClock, stopNet: Net, net: Net)
    requires Inv(w) && r in w.t.runs && !Over(w.t.runs[r].status) && CanStop(w, r, stopNet)
    requires w.t.runs[r].stopIntent.None? && TimeIsUp(w.t.runs[r], clock.now, clock.each)
    ensures var (w', f) := Tick(w, r, clock, stopNet, net);
            && f.Fine? && Drained(w', r) && w'.t.runs[r].status.TaskFailed? && w'.t.runs[r].stopIntent == Some(Timeout)
  {
    var w1 := RequestStop(w, r, Timeout, clock.stopAt, stopNet).0;
    TimeoutDrains(w, w1, r, clock.stopAt, stopNet, net);
    TimedOutEnds(w1, r, clock.settleAt);
    TickStopsFirst(w, w1, r, clock, stopNet, net);
  }

  lemma TimeoutDrains(w: World, w1: World, r: RunId, now: Clock, stopNet: Net, net: Net)
    requires Inv(w) && r in w.t.runs && !Over(w.t.runs[r].status) && CanStop(w, r, stopNet)
    requires w1 == RequestStop(w, r, Timeout, now, stopNet).0
    ensures RequestStop(w, r, Timeout, now, stopNet) == (w1, Fine) && Reconcile(w1, r, net) == (w1, Fine)
    ensures Inv(w1) && r in w1.t.runs && AllTerminal(w1.t.runs[r].actions) && w1.t.runs[r].stopIntent == Some(Timeout)
  {
    StopDrains(w, r, Timeout, now, stopNet);
    ReconcileIdle(w1, r, net);
  }

  /** The last transaction of a tick, once everything of a stopping run is terminal. */
  lemma SettledEnds(w: World, r: RunId, now: Clock)
    requires r in w.t.runs && AllTerminal(w.t.runs[r].actions) && w.t.runs[r].stopIntent.Some?
    ensures var run := w.t.runs[r];
            Note(w, Settle(w.t, r, now))
            == (w.(t := w.t.(runs := w.t.runs[r := run.(status := EndedBy(run.stopIntent.value))])), Fine)
  {
    SettleDecides(w.t, r, now);
    assert Settled(w.t.runs[r], now).actions == w.t.runs[r].actions;
  }

  /** The end of the action in flight, as the executor reports it. */
  predicate EndsAs(b: Action, s: Snapshot) {
    && s.lastEvent.Some? && b.status == s.status && b.executionId == Some(s.executionId)
    && b.finishedAt == Some(s.lastEvent.value.occurredAt)
  }

  /** An action that was in flight, brought in line with the executor: a stopped ending is adopted and its
      locks are free; a running execution reads RUNNING, or STOPPING once a stop was requested; and an
      execution that does not exist, or an answer that does not come, is unknown and blocks the run. */
  ghost predicate InLine(w: World, a: Action, delivery: Delivery, w': World, b: Action, task: TaskStatus) {
    if Silent(w, delivery) || a.id !in w.x.executions then b.status.ExecutionUnknown? && task.Blocked?
    else
      var s := w.x.executions[a.id].snapshot;
      if Finished(s.status) && s.stopped then EndsAs(b, s) && forall x :: !Owns(w'.t.resources, x, a.id)
      else if Terminal(s.status) then InFlight(b.status)
      else b.status == if a.stopRequestedAt.Some? then Stopping else Running
  }

  /** Reconcile brings the action in flight in line with the executor, whatever the link does. */
  lemma ReconcileMirrors(w: World, r: RunId, net: Net, k: nat)
    requires Inv(w) && r in w.t.runs && k < |w.t.runs[r].actions| && InFlight(w.t.runs[r].actions[k].status)
    ensures var (w', f) := Reconcile(w, r, net);
            && f.Fine? && r in w'.t.runs && k < |w'.t.runs[r].actions|
            && var a, b := w.t.runs[r].actions[k], w'.t.runs[r].actions[k];
               b.id == a.id && InLine(w, a, net(a.id).delivery, w', b, w'.t.runs[r].status)
  {
    var a := w.t.runs[r].actions[k];
    if Silent(w, net(a.id).delivery) {
      ReconcileUnanswered(w, r, net, k);
    } else {
      ReconcileMirrorsExecutor(w, r, net, k);
      if a.id in w.x.executions { assert ExecutionOk(w.x, a.id); }
    }
  }

  /** The same for a tick of an unfinished run that does not time out: it reconciles, and then makes unknown
      what was not confirmed in time. */
  lemma TickMirrors(w: World, r: RunId, clock: TickClock, stopNet: Net, net: Net, k: nat)
    requires Inv(w) && r in w.t.runs && !Over(w.t.runs[r].status)
    requires w.t.runs[r].stopIntent.Some? || !TimeIsUp(w.t.runs[r], clock.now, clock.each)
    requires k < |w.t.runs[r].actions| && InFlight(w.t.runs[r].actions[k].status)
    ensures var (w', f) := Tick(w, r, clock, stopNet, net);
            && f.Fine? && r in w'.t.runs && k < |w'.t.runs[r].actions|
            && var a, b := w.t.runs[r].actions[k], w'.t.runs[r].actions[k];
               && b.id == a.id
               && if Unconfirmed(a, w.t.runs[r].budget.stopSeconds, clock.settleAt(a.id)) && InFlight(b.status)
                  then b.status.ExecutionUnknown? && w'.t.runs[r].status.Blocked?
                  else InLine(w, a, net(a.id).delivery, w', b, w'.t.runs[r].status)
  {
    var w1 := Reconcile(w, r, net).0;
    ReconcileMirrors(w, r, net, k);
    ReconcileKeepsStop(w, r, net, k);
    ReconcileThenSettles(w, r, clock, stopNet, net);
    SettlingKeepsLine(w, w.t.runs[r].actions[k], net(w.t.runs[r].actions[k].id).delivery, w1, r, k, clock.settleAt);
  }

  lemma ReconcileThenSettles(w: World, r: RunId, clock: TickClock, stopNet: Net, net: Net)
    requires r in w.t.runs && !Over(w.t.runs[r].status) && Reconcile(w, r, net).1.Fine?
    requires w.t.runs[r].stopIntent.Some? || !TimeIsUp(w.t.runs[r], clock.now, clock.each)
    ensures Tick(w, r, clock, stopNet, net)
            == Note(Reconcile(w, r, net).0, Settle(Reconcile(w, r, net).0.t, r, clock.settleAt))
  {
    assert Expired(w.t.runs[r], clock.now, clock.each) <==> TimeIsUp(w.t.runs[r], clock.now, clock.each);
  }

  lemma SettlingKeepsLine(w: World, a: Action, delivery: Delivery, w1: World, r: RunId, k: nat, now: Clock)
    requires r in w1.t.runs && k < |w1.t.runs[r].actions| && w1.t.runs[r].actions[k].id == a.id && InFlight(a.status)
    requires w1.t.runs[r].actions[k].stopRequestedAt == a.stopRequestedAt
    requires InLine(w, a, delivery, w1, w1.t.runs[r].actions[k], w1.t.runs[r].status)
    ensures var (w', f) := Note(w1, Settle(w1.t, r, now));
            && f.Fine? && r in w'.t.runs && k < |w'.t.runs[r].actions|
            && var b := w'.t.runs[r].actions[k];
               && b.id == a.id
               && if Unconfirmed(a, w1.t.runs[r].budget.stopSeconds, now(a.id)) && InFlight(b.status)
                  then b.status.ExecutionUnknown? && w'.t.runs[r].status.Blocked?
                  else InLine(w, a, delivery, w', b, w'.t.runs[r].status)
  {
    SettleDecides(w1.t, r, now);
  }

  /** Reconcile leaves the stop request of an action, and the run's budget and stop intent, alone. */
  lemma ReconcileKeepsStop(w: World, r: RunId, net: Net, k: nat)
    requires Inv(w) && r in w.t.runs && k < |w.t.runs[r].actions| && InFlight(w.t.runs[r].actions[k].status)
    ensures var w' := Reconcile(w, r, net).0;
            && r in w'.t.runs && k < |w'.t.runs[r].actions|
            && w'.t.runs[r].actions[k].stopRequestedAt == w.t.runs[r].actions[k].stopRequestedAt
            && w'.t.runs[r].budget == w.t.runs[r].budget && w'.t.runs[r].stopIntent == w.t.runs[r].stopIntent
  {
    var a := w.t.runs[r].actions[k];
    if !Silent(w, net(a.id).delivery) && a.id in w.x.executions {
      ReconcileAdopts(w, r, net, k);
      AdoptKeepsStop(w, r, k);
    } else if Silent(w, net(a.id).delivery) {
      ReconcileUnanswered(w, r, net, k);
    } else {
      UnknownInFlight(w, r, k);
      ReconcileIsOne(w, r, net, k);
    }
  }

  lemma AdoptKeepsStop(w: World, r: RunId, k: nat)
    requires Inv(w) && r in w.t.runs && k < |w.t.runs[r].actions| && InFlight(w.t.runs[r].actions[k].status)
    requires w.t.runs[r].actions[k].id in w.x.executions
    ensures var a := w.t.runs[r].actions[k];
            var w' := AcceptSnapshot(w, r, a.id, w.x.executions[a.id].snapshot).0;
            && r in w'.t.runs && k < |w'.t.runs[r].actions|
            && w'.t.runs[r].actions[k].stopRequestedAt == a.stopRequestedAt
            && w'.t.runs[r].budget == w.t.runs[r].budget && w'.t.runs[r].stopIntent == w.t.runs[r].stopIntent
  {
    AdoptCurrent(w, r, k);
  }

  /** An answer to the lookup is adopted. */
  lemma ReconcileAdopts(w: World, r: RunId, net: Net, k: nat)
    requires Inv(w) && r in w.t.runs && k < |w.t.runs[r].actions| && InFlight(w.t.runs[r].actions[k].status)
    requires var a := w.t.runs[r].actions[k]; !Silent(w, net(a.id).delivery) && a.id in w.x.executions
    ensures var a := w.t.runs[r].actions[k]; Reconcile(w, r, net) == AcceptSnapshot(w, r, a.id,
              w.x.executions[a.id].snapshot)
  {
    ReconcileIsOne(w, r, net, k);
  }

  /** A cancel that is answered and changes nothing -- it is not confirmed, or the execution has ended already --
      leaves the run as reconciling the frozen stream would. */
  lemma StopIsReconcile(w: World, r: RunId, reason: StopReason, now: Clock, net: Net, k: nat)
    requires Inv(w) && r in w.t.runs && k < |w.t.runs[r].actions| && InFlight(w.t.runs[r].actions[k].status)
    requires var a := w.t.runs[r].actions[k];
             && !Unstoppable(w, w.t.runs[r], a, net(a.id))
             && (!w.x.confirmCancel || Terminal(w.x.executions[a.id].snapshot.status))
    ensures RequestStop(w, r, reason, now, net) == Reconcile(Note(w, Freeze(w.t, r, reason, now)).0, r, net)
  {
    FrozenInFlight(w, r, reason, now, net, k);
    var w0 := Note(w, Freeze(w.t, r, reason, now)).0;
    var a := w0.t.runs[r].actions[k];
    CancelDecides(w0.x, a.key, net(a.id));
    ReconcileAdopts(w0, r, net, k);
    AdoptCurrent(w0, r, k);
    assert ExecutionOk(w0.x, a.id);
    assert CancelCall(w0.x, a.key, net(a.id)) == (w0.x, Answer(w0.x.executions[a.id].snapshot));
    assert w0.(x := w0.x) == w0;
  }

  /** Such a stop request freezes the run for its reason and brings the action in line: an ending is adopted, and
      what still runs reads STOPPING. */
  lemma StopMirrors(w: World, r: RunId, reason: StopReason, now: Clock, net: Net, k: nat)
    requires Inv(w) && r in w.t.runs && k < |w.t.runs[r].actions| && InFlight(w.t.runs[r].actions[k].status)
    requires var a := w.t.runs[r].actions[k];
             && !Unstoppable(w, w.t.runs[r], a, net(a.id))
             && (!w.x.confirmCancel || Terminal(w.x.executions[a.id].snapshot.status))
    ensures var (w', f) := RequestStop(w, r, reason, now, net);
            && f.Fine? && r in w'.t.runs && k < |w'.t.runs[r].actions|
            && var a, b, run' := w.t.runs[r].actions[k], w'.t.runs[r].actions[k], w'.t.runs[r];
               && b.id == a.id && run'.stopIntent == Some(reason)
               && b.stopRequestedAt == (if a.stopRequestedAt.Some? then a.stopRequestedAt else Some(now(a.id)))
               && InLine(w, a.(stopRequestedAt := b.stopRequestedAt), net(a.id).delivery, w', b, run'.status)
  {
    StopIsReconcile(w, r, reason, now, net, k);
    FrozenInFlight(w, r, reason, now, net, k);
    FrozenMarks(w, r, reason, now, k);
    var w0 := Note(w, Freeze(w.t, r, reason, now)).0;
    ReconcileMirrors(w0, r, net, k);
    ReconcileKeepsStop(w0, r, net, k);
  }

  lemma FrozenMarks(w: World, r: RunId, reason: StopReason, now: Clock, k: nat)
    requires r in w.t.runs && k < |w.t.runs[r].actions| && InFlight(w.t.runs[r].actions[k].status)
    ensures var w0, a := Note(w, Freeze(w.t, r, reason, now)).0, w.t.runs[r].actions[k];
            && r in w0.t.runs && k < |w0.t.runs[r].actions| && w0.t.runs[r].stopIntent == Some(reason)
            && w0.t.runs[r].actions[k].stopRequestedAt
               == (if a.stopRequestedAt.Some? then a.stopRequestedAt else Some(now(a.id)))
  {
    FreezeDecides(w.t, r, reason, now);
  }

  /** A tick does nothing to a run that is over, nor to one that is not stopping, has its time left and has nothing
      in flight. */
  lemma TickIdles(w: World, r: RunId, clock: TickClock, stopNet: Net, net: Net)
    requires Inv(w) && r in w.t.runs
    requires Over(w.t.runs[r].status)
             || (w.t.runs[r].stopIntent.None? && !TimeIsUp(w.t.runs[r], clock.now, clock.each)
                 && forall i :: 0 <= i < |w.t.runs[r].actions| ==> !InFlight(w.t.runs[r].actions[i].status))
    ensures Tick(w, r, clock, stopNet, net) == (w, Fine)
  {
    var run := w.t.runs[r];
    if !Over(run.status) {
      ReconcileIdle(w, r, net);
      ReconcileThenSettles(w, r, clock, stopNet, net);
      SettleDecides(w.t, r, clock.settleAt);
      assert RunOk(r, run);
      forall i | 0 <= i < |run.actions| ensures !Unconfirmed(run.actions[i], run.budget.stopSeconds,
          clock.settleAt(run.actions[i].id)) {
        assert ActionOk(r, run, run.actions[i]);
      }
      assert Settled(run, clock.settleAt).actions == run.actions;
      assert w.t.runs[r := run] == w.t.runs;
    }
  }
}
