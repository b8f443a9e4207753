/** What a cancel makes of a run, and that no later call undoes it. */
module Steadiness {
  import opened Contracts
  import opened Transactions
  import opened Executors
  import opened Protocol
  import opened Preservation
  import opened Histories
  import opened Safety
  import opened Operations

  /** A cancel was requested and neither success nor failure has been declared. */
  ghost predicate Canceling(run: Run) {
    run.frozen && run.stopIntent == Some(Cancel) && !run.status.Succeeded? && !run.status.TaskFailed?
  }

  /** A deadline stopped the run. */
  ghost predicate TimingOut(run: Run) {
    run.frozen && run.stopIntent == Some(Timeout)
  }

  /** While a cancel is pending nothing is submitted, appended or revised, neither success nor
      failure is declared, and the intent stands; a timeout's intent stands too. */
  ghost predicate Sticks(a: Run, b: Run) {
    && b.budget == a.budget && b.createdAt == a.createdAt
    && (Canceling(a) ==> Canceling(b) && b.planVersion == a.planVersion && SameIntents(a, b))
    && (TimingOut(a) ==> TimingOut(b))
  }

  /** ... no pending stop intent changes, no verdict is taken back, and the runtime's own fields are untouched. */
  ghost predicate Gentle(a: Run, b: Run) {
    && Sticks(a, b) && b.book == a.book && b.planVersion == a.planVersion && |b.actions| == |a.actions|
    && (a.frozen && a.stopIntent.Some? ==> b.frozen && b.stopIntent == a.stopIntent)
    && a.verifications <= b.verifications
  }

  /** ... and no stop is requested either. */
  ghost predicate Calm(a: Run, b: Run) {
    Gentle(a, b) && b.frozen == a.frozen && b.stopIntent == a.stopIntent
  }

  /** One run's view of a step of the ledger that records no verdict. */
  ghost predicate CalmIn(t: Tables, t': Tables, r: RunId)
    requires r in t.runs
  {
    r in t'.runs && Calm(t.runs[r], t'.runs[r]) && t'.runs[r].verifications == t.runs[r].verifications
  }

  /** A reason that does not overrule a pending cancel or timeout. */
  ghost predicate Yields(run: Run, reason: StopReason) {
    (Canceling(run) ==> reason.Cancel?) && (TimingOut(run) ==> reason.Timeout?)
  }

  // ----- transactions -----

  lemma MarkUnknownCalm(t: Tables, r: RunId, q: RunId, id: ActionId)
    requires r in t.runs && MarkUnknown(t, q, id).Committed?
    ensures CalmIn(t, MarkUnknown(t, q, id).value, r)
  {}

  lemma AcceptCalm(t: Tables, r: RunId, q: RunId, id: ActionId, s: Snapshot)
    requires r in t.runs && Accept(t, q, id, s).Committed?
    ensures CalmIn(t, Accept(t, q, id, s).value, r)
  {}

  lemma AbsorbCalm(run: Run, k: nat, ev: Event)
    requires k < |run.actions|
    ensures Calm(run, Absorb(run, k, ev))
  {}

  lemma ApplyCalm(t: Tables, r: RunId, ev: Event)
    requires r in t.runs && Apply(t, ev).Committed?
    ensures CalmIn(t, Apply(t, ev).value, r)
  {
    if ev.runId == r {
      AbsorbCalm(t.runs[r], FindAction(t.runs[r].actions, ev.actionId), ev);
    }
  }

  /** What a stop request with this reason makes of a run, to the runtime. */
  ghost predicate Stopped(a: Run, b: Run, reason: StopReason) {
    && b.book == a.book && b.budget == a.budget && b.createdAt == a.createdAt && b.planVersion == a.planVersion
    && |b.actions| == |a.actions| && b.verifications == a.verifications
    && b.frozen && b.stopIntent == Some(reason)
    && (Yields(a, reason) ==> Sticks(a, b))
    && (reason.Cancel? && !a.status.Succeeded? && !a.status.TaskFailed? ==> Canceling(b))
  }

  lemma FreezeStops(t: Tables, r: RunId, reason: StopReason, now: Clock)
    requires r in t.runs
    ensures Stopped(t.runs[r], Freeze(t, r, reason, now).value.runs[r], reason)
  {}

  lemma SettleCalm(t: Tables, r: RunId, now: Clock)
    requires r in t.runs
    ensures CalmIn(t, Settle(t, r, now).value, r)
  {}

  lemma VerifyCalm(t: Tables, r: RunId, v: VerificationResult, now: Time)
    requires r in t.runs && Verify(t, r, v, now).Committed?
    ensures r in Verify(t, r, v, now).value.runs && Calm(t.runs[r], Verify(t, r, v, now).value.runs[r])
  {}

  lemma IntentCalm(t: Tables, r: RunId, now: Time, at: Time, admissible: bool)
    requires r in t.runs && Intent(t, r, now, at, admissible).Committed?
    ensures CalmIn(t, Intent(t, r, now, at, admissible).value.0, r)
  {}

  // ----- operations -----

  lemma AcceptSnapshotCalm(w: World, r: RunId, q: RunId, id: ActionId, s: Snapshot)
    requires r in w.t.runs
    ensures CalmIn(w.t, AcceptSnapshot(w, q, id, s).0.t, r)
  {
    if Accept(w.t, q, id, s).Committed? {
      var t' := Accept(w.t, q, id, s).value;
      AcceptCalm(w.t, r, q, id, s);
      if s.lastEvent.Some? && Apply(t', s.lastEvent.value).Committed? {
        ApplyCalm(t', r, s.lastEvent.value);
      }
    }
  }

  lemma NoteUnknownCalm(w: World, r: RunId, q: RunId, id: ActionId)
    requires r in w.t.runs
    ensures CalmIn(w.t, Note(w, MarkUnknown(w.t, q, id)).0.t, r)
  {
    if MarkUnknown(w.t, q, id).Committed? { MarkUnknownCalm(w.t, r, q, id); }
  }

  lemma {:induction false} ReconcileFirstCalm(w: World, r: RunId, actions: seq<Action>, n: nat, net: Net)
    requires r in w.t.runs && n <= |actions|
    ensures CalmIn(w.t, ReconcileFirst(w, r, actions, n, net).0.t, r)
    decreases n
  {
    if n > 0 {
      ReconcileFirstCalm(w, r, actions, n - 1, net);
      var (w', f) := ReconcileFirst(w, r, actions, n - 1, net);
      var a := actions[n - 1];
      NoteUnknownCalm(w', r, r, a.id);
      var reply := Lookup(w'.x, a.key, net(a.id).delivery);
      if reply.Answer? { AcceptSnapshotCalm(w', r, r, a.id, reply.snapshot); }
    }
  }

  lemma StopOneCalm(w: World, r: RunId, a: Action, wire: Wire)
    requires r in w.t.runs
    ensures CalmIn(w.t, StopOne(w, r, a, wire).0.t, r)
  {
    NoteUnknownCalm(w, r, r, a.id);
    var (x', reply) := CancelCall(w.x, a.key, wire);
    var w' := w.(x := x');
    NoteUnknownCalm(w', r, r, a.id);
    if reply.Answer? {
      AcceptSnapshotCalm(w', r, r, a.id, reply.snapshot);
      NoteUnknownCalm(AcceptSnapshot(w', r, a.id, reply.snapshot).0, r, r, a.id);
    }
  }

  lemma {:induction false} StopFirstCalm(w: World, r: RunId, actions: seq<Action>, n: nat, net: Net)
    requires r in w.t.runs && n <= |actions|
    ensures CalmIn(w.t, StopFirst(w, r, actions, n, net).0.t, r)
    decreases n
  {
    if n > 0 {
      StopFirstCalm(w, r, actions, n - 1, net);
      StopOneCalm(StopFirst(w, r, actions, n - 1, net).0, r, actions[n - 1], net(actions[n - 1].id));
    }
  }

  /** A stop request leaves the run frozen with its reason, whatever its replies. */
  lemma RequestStopStops(w: World, r: RunId, reason: StopReason, now: Clock, net: Net)
    requires r in w.t.runs
    ensures r in RequestStop(w, r, reason, now, net).0.t.runs
    ensures Stopped(w.t.runs[r], RequestStop(w, r, reason, now, net).0.t.runs[r], reason)
  {
    var w' := w.(t := Freeze(w.t, r, reason, now).value);
    FreezeStops(w.t, r, reason, now);
    StopFirstCalm(w', r, w'.t.runs[r].actions, |w'.t.runs[r].actions|, net);
  }

  lemma ReconcileCalm(w: World, r: RunId, net: Net)
    requires r in w.t.runs
    ensures CalmIn(w.t, Reconcile(w, r, net).0.t, r)
  {
    ReconcileFirstCalm(w, r, w.t.runs[r].actions, |w.t.runs[r].actions|, net);
  }

  lemma TickGentle(w: World, r: RunId, clock: TickClock, stopNet: Net, net: Net)
    requires r in w.t.runs
    ensures var t' := Tick(w, r, clock, stopNet, net).0.t;
            r in t'.runs && Gentle(w.t.runs[r], t'.runs[r]) && t'.runs[r].verifications == w.t.runs[r].verifications
  {
    var run := w.t.runs[r];
    if !Over(run.status) {
      var stops := run.stopIntent.None? && Expired(run, clock.now, clock.each);
      var (w1, f1) := if stops then RequestStop(w, r, Timeout, clock.stopAt, stopNet) else (w, Fine);
      if stops { RequestStopStops(w, r, Timeout, clock.stopAt, stopNet); }
      if f1.Fine? { ReconcileAndSettleCalm(w1, r, net, clock.settleAt); }
    }
  }

  lemma ReconcileAndSettleCalm(w: World, r: RunId, net: Net, now: Clock)
    requires r in w.t.runs
    ensures CalmIn(w.t, Reconcile(w, r, net).0.t, r)
    ensures var w1 := Reconcile(w, r, net).0; CalmIn(w.t, Note(w1, Settle(w1.t, r, now)).0.t, r)
  {
    ReconcileCalm(w, r, net);
    SettleCalm(Reconcile(w, r, net).0.t, r, now);
  }

  /** What a tick of an unfinished run settles: a stop is requested exactly when there was none and
      time had run out; a stop request that was not confirmed in time is unknown and blocks the
      run; and a stopped run with nothing left in flight ends as its stop intent says. */
  lemma TickEnforcesDeadlines(w: World, r: RunId, clock: TickClock, stopNet: Net, net: Net)
    requires r in w.t.runs && !Over(w.t.runs[r].status) && Tick(w, r, clock, stopNet, net).1.Fine?
    ensures r in Tick(w, r, clock, stopNet, net).0.t.runs
    ensures var run, run' := w.t.runs[r], Tick(w, r, clock, stopNet, net).0.t.runs[r];
            && run'.stopIntent ==
                 (if run.stopIntent.None? && Expired(run, clock.now, clock.each) then Some(Timeout) else run.stopIntent)
            && (forall i ::
                  0 <= i < |run'.actions| &&
                  Overdue(run'.actions[i], run.budget.stopSeconds, clock.settleAt(run'.actions[i].id)) ==>
                    run'.actions[i].status.ExecutionUnknown? && run'.status.Blocked?)
            && (run'.stopIntent.Some? && AllTerminal(run'.actions) ==>
                 run'.status == StopOutcome(run'.stopIntent.value))
  {
    var run := w.t.runs[r];
    var stops := run.stopIntent.None? && Expired(run, clock.now, clock.each);
    var w1 := if stops then RequestStop(w, r, Timeout, clock.stopAt, stopNet).0 else w;
    if stops { RequestStopStops(w, r, Timeout, clock.stopAt, stopNet); }
    ReconcileCalm(w1, r, net);
    SettledEnforces(Reconcile(w1, r, net).0.t.runs[r], clock.settleAt);
  }

  lemma SettledEnforces(run: Run, now: Clock)
    ensures var run' := Settled(run, now);
            && run'.stopIntent == run.stopIntent
            && (forall i ::
                  0 <= i < |run'.actions| &&
                  Overdue(run'.actions[i], run.budget.stopSeconds, now(run'.actions[i].id)) ==>
                    run'.actions[i].status.ExecutionUnknown? && run'.status.Blocked?)
            && (run'.stopIntent.Some? && AllTerminal(run'.actions) ==>
                 run'.status == StopOutcome(run'.stopIntent.value))
  {
    var run' := Settled(run, now);
    forall i | 0 <= i < |run'.actions| && Overdue(run'.actions[i], run.budget.stopSeconds, now(run'.actions[i].id))
      ensures run'.actions[i].status.ExecutionUnknown? && run'.status.Blocked?
    {
      assert run'.actions[i] == Expire(run.actions[i], run.budget.stopSeconds, now(run.actions[i].id));
      assert Overdue(run.actions[i], run.budget.stopSeconds, now(run.actions[i].id));
    }
  }

  lemma DispatchCalm(w: World, r: RunId, e: Launch)
    requires r in w.t.runs
    ensures CalmIn(w.t, Dispatch(w, r, e).0.t, r)
  {
    var o := Intent(w.t, r, e.now, e.at, e.admissible);
    if o.Committed? {
      IntentCalm(w.t, r, e.now, e.at, e.admissible);
      if o.value.1.Some? {
        var a := o.value.1.value;
        var (w', reply) := SubmitPending(w.(t := o.value.0, pending := w.pending[a.id := a]), a, e.newId, e.delivery);
        NoteUnknownCalm(w', r, r, a.id);
        if reply.Answer? { AcceptSnapshotCalm(w', r, r, a.id, reply.snapshot); }
      }
    }
  }

  // ----- terminate and cancel -----

  /** The environment of one call: its clock readings, the behaviour of the link, and what the
      executor and the verifier would answer. */
  datatype Weather = Weather(
    now: Time,
    stopAt: Clock,
    stopNet: Net,
    clock: TickClock,
    tickStopNet: Net,
    net: Net,
    seen: Option<Observation>,
    verdict: Outcome<VerificationResult>)

  /** A cancel or a timeout that is already pending outranks any other reason to stop. */
  function Effective(run: Run, reason: StopReason): StopReason {
    if run.stopIntent == Some(Cancel) || run.stopIntent == Some(Timeout) then run.stopIntent.value else reason
  }

  /** A transaction of the runtime on its own fields. */
  function Post(w: World, r: RunId, book: Book): World
    requires r in w.t.runs
  {
    w.(t := Write(w.t, r, w.t.runs[r].(book := book), RuntimeLogged(r)))
  }

  /** Runtime.terminate: stop for the effective reason, then tick. */
  function Terminate(w: World, r: RunId, reason: StopReason, e: Weather): (World, Fate) {
    if r !in w.t.runs then (w, Threw(UnknownRun))
    else
      var w0 := Post(w, r, w.t.runs[r].book);
      var (w1, f1) := RequestStop(w0, r, Effective(w.t.runs[r], reason), e.stopAt, e.stopNet);
      if f1.Threw? then (w1, f1) else Tick(w1, r, e.clock, e.tickStopNet, e.net)
  }

  /** Runtime.cancel. */
  function CancelRun(w: World, r: RunId, e: Weather): (World, Fate) {
    if r !in w.t.runs then (w, Threw(UnknownRun))
    else if Over(w.t.runs[r].status) then (w, Fine)
    else Terminate(w, r, Cancel, e)
  }

  /** Terminating stops the run for the effective reason, which never overrules a cancel or a timeout. */
  lemma TerminateStops(w: World, r: RunId, reason: StopReason, e: Weather)
    requires r in w.t.runs
    ensures r in Terminate(w, r, reason, e).0.t.runs
    ensures var a, b := w.t.runs[r], Terminate(w, r, reason, e).0.t.runs[r];
            Stopped(a, b, Effective(a, reason)) && Sticks(a, b)
  {
    var w0 := Post(w, r, w.t.runs[r].book);
    var reason' := Effective(w.t.runs[r], reason);
    RequestStopStops(w0, r, reason', e.stopAt, e.stopNet);
    var (w1, f1) := RequestStop(w0, r, reason', e.stopAt, e.stopNet);
    TickGentle(w1, r, e.clock, e.tickStopNet, e.net);
  }

  /** Cancelling an unfinished run takes hold exactly when no deadline stopped it before. */
  lemma CancelTakesHold(w: World, r: RunId, e: Weather)
    requires r in w.t.runs && !Over(w.t.runs[r].status)
    ensures r in CancelRun(w, r, e).0.t.runs
    ensures Canceling(CancelRun(w, r, e).0.t.runs[r]) <==> w.t.runs[r].stopIntent != Some(Timeout)
  {
    TerminateStops(w, r, Cancel, e);
  }

  /** What overrules a cancel at the scheduler's own interface: a revision of the stopped plan, or a
      stop request with another reason. */
  predicate Overrules(l: Label, r: RunId) {
    || (l.DoRevise? && l.r == r)
    || (l.DoFreeze? && l.r == r && !l.reason.Cancel?)
  }

  lemma CancelStandsIff(t: Tables, l: Label, r: RunId)
    requires r in t.runs && Canceling(t.runs[r]) && !l.DoCreate? && Transact(t, l).Committed?
    ensures r in Transact(t, l).value.runs
    ensures Canceling(Transact(t, l).value.runs[r]) <==> !Overrules(l, r)
    ensures !Overrules(l, r) ==> Transact(t, l).value.runs[r].planVersion == t.runs[r].planVersion
  {
    if Subject(l) != Some(r) {
      TransactNames(t, l, r);
    } else if WritesOneAction(l) {
      OneActionCalm(t, l, r);
    } else if l.DoAppend? {
      AppendTools(t, r, l.version, l.drafts, l.call);
    }
  }

  lemma OneActionCalm(t: Tables, l: Label, r: RunId)
    requires r in t.runs && WritesOneAction(l) && Transact(t, l).Committed?
    ensures CalmIn(t, Transact(t, l).value, r)
  {
    match l
    case DoIntent(q, now, at, admissible) => if q == r { IntentCalm(t, r, now, at, admissible); }
    case DoMarkUnknown(q, id) => MarkUnknownCalm(t, r, q, id);
    case DoAccept(q, id, s) => AcceptCalm(t, r, q, id, s);
    case DoDeliver(ev) => ApplyCalm(t, r, ev);
  }

  /** Over any run of the system in which nobody overrules it, a cancel stands: the plan is not
      revised, nothing of the run is appended or submitted, and neither success nor failure is
      declared. */
  lemma CancelSticks(w: World, ls: seq<Label>, r: RunId)
    requires Inv(w) && Legal(w, ls) && r in w.t.runs && Canceling(w.t.runs[r])
    requires forall i :: 0 <= i < |ls| ==> !Overrules(ls[i], r)
    ensures r in Play(w, ls).t.runs
    ensures var run, run' := w.t.runs[r], Play(w, ls).t.runs[r];
            Canceling(run') && run'.planVersion == run.planVersion && SameIntents(run, run')
  {
    CancelLasts(w, ls, r);
    FreezeWindow(w, ls, r);
  }

  lemma {:induction false} CancelLasts(w: World, ls: seq<Label>, r: RunId)
    requires Inv(w) && Legal(w, ls) && r in w.t.runs && Canceling(w.t.runs[r])
    requires forall i :: 0 <= i < |ls| ==> !Overrules(ls[i], r)
    ensures r in Play(w, ls).t.runs
    ensures Canceling(Play(w, ls).t.runs[r]) && Play(w, ls).t.runs[r].planVersion == w.t.runs[r].planVersion
    decreases |ls|
  {
    if ls != [] {
      StepKeeps(w, ls[0]);
      if Transact(w.t, ls[0]).Committed? {
        if ls[0].DoCreate? {
          TransactNames(w.t, ls[0], r);
        } else {
          CancelStandsIff(w.t, ls[0], r);
        }
      }
      CancelLasts(Perform(w, ls[0]), ls[1..], r);
    }
  }

  /** Over any sequence of calls each of which keeps the accounts, as every entry point of the runtime
      does, a pending cancel stands: no call revises the plan, appends or submits an action, declares
      success or failure, or replaces the intent; and no revision goes unpaid. */
  lemma {:induction false} CallsKeepCancel(states: seq<Run>)
    requires states != []
    requires forall i :: 0 <= i < |states| - 1 ==> Accounts(states[i], states[i + 1])
    ensures var a, b := states[0], states[|states| - 1];
            && Accounts(a, b)
            && (Canceling(a) ==> Canceling(b) && b.planVersion == a.planVersion && SameIntents(a, b))
    decreases |states|
  {
    if |states| == 1 {
      TooledSelf(states[0]);
    } else {
      var before := states[..|states| - 1];
      CallsKeepCancel(before);
      assert Accounts(states[|states| - 2], states[|states| - 1]);
      AccountsTrans(states[0], states[|states| - 2], states[|states| - 1]);
    }
  }

  // ----- recover -----

  /** Runtime.refresh: pay for an observation, then record what the executor shows. */
  function Refresh(w: World, r: RunId, e: Weather): (World, Fate) {
    if r !in w.t.runs then (w, Threw(UnknownRun))
    else
      var book := w.t.runs[r].book;
      if book.observationCount >= w.t.runs[r].budget.maxObservations then (w, Threw(BudgetExceeded))
      else
        var w1 := Post(w, r, book.(observationCount := book.observationCount + 1));
        if e.seen.None? then (w1, Threw(Unreachable)) else Note(w1, Observe(w1.t, r, e.seen.value))
  }

  /** Revise to the observation that a refresh records. */
  function RefreshAndRevise(w: World, r: RunId, e: Weather): (World, Fate, bool) {
    var (w1, f1) := Refresh(w, r, e);
    if f1.Threw? || r !in w1.t.runs then (w1, f1, false)
    else
      var (w2, f2) := Note(w1, Revise(w1.t, r, w1.t.runs[r].planVersion, w1.t.runs[r].observation));
      (w2, f2, f2.Fine?)
  }

  /** Recovery once its replan is paid for: stop the old plan and tick. */
  function StopForReplan(w: World, r: RunId, e: Weather): (World, Fate) {
    var (w1, f1) := RequestStop(w, r, Replan, e.stopAt, e.stopNet);
    if f1.Threw? then (w1, f1) else Tick(w1, r, e.clock, e.tickStopNet, e.net)
  }

  function PaidRecovery(w: World, r: RunId, e: Weather): (World, Fate, bool) {
    var (w1, f1) := StopForReplan(w, r, e);
    if f1.Threw? || r !in w1.t.runs || !AllTerminal(w1.t.runs[r].actions) then (w1, f1, false)
    else RefreshAndRevise(w1, r, e)
  }

  /** Runtime.recover: pay for a replan, stop the old plan, and revise once all of it has stopped. */
  function Recover(w: World, r: RunId, e: Weather): (World, Fate, bool) {
    if r !in w.t.runs then (w, Threw(UnknownRun), false)
    else
      var book := w.t.runs[r].book;
      if book.replans >= w.t.runs[r].budget.maxReplans then
        var (w1, f1) := Terminate(w, r, Failure, e);
        (w1, f1, false)
      else PaidRecovery(Post(w, r, book.(replans := book.replans + 1)), r, e)
  }

  /** The accounts a call may move: only the replan and observation counts, by at most one each. */
  ghost predicate Paid(a: Book, b: Book) {
    && b == a.(replans := b.replans, observationCount := b.observationCount)
    && a.replans <= b.replans <= a.replans + 1
    && a.observationCount <= b.observationCount <= a.observationCount + 1
  }

  /** Refreshing writes the observation and its count, and nothing else. */
  lemma RefreshWrites(w: World, r: RunId, e: Weather)
    requires r in w.t.runs
    ensures r in Refresh(w, r, e).0.t.runs
    ensures var a, b := w.t.runs[r], Refresh(w, r, e).0.t.runs[r];
            && b == a.(observation := b.observation, book := a.book.(observationCount := b.book.observationCount))
            && a.book.observationCount <= b.book.observationCount <= a.book.observationCount + 1
  {
    var book := w.t.runs[r].book;
    if book.observationCount < w.t.runs[r].budget.maxObservations {
      var w1 := Post(w, r, book.(observationCount := book.observationCount + 1));
      assert w1.t.runs[r] == w.t.runs[r].(book := book.(observationCount := book.observationCount + 1));
      if e.seen.None? {
        assert Refresh(w, r, e).0 == w1;
      } else {
        assert Refresh(w, r, e).0 == Note(w1, Observe(w1.t, r, e.seen.value)).0;
        ObserveWrites(w1, r, e.seen.value);
      }
    } else {
      assert Refresh(w, r, e).0 == w;
    }
  }

  lemma ObserveWrites(w: World, r: RunId, o: Observation)
    requires r in w.t.runs
    ensures r in Note(w, Observe(w.t, r, o)).0.t.runs
    ensures var b := Note(w, Observe(w.t, r, o)).0.t.runs[r]; b == w.t.runs[r].(observation := b.observation)
  {}

  /** What recovering does to the run: at most one replan is paid for, it is paid for before anything
      else, and the plan is revised only on a paid replan with all actions stopped. */
  ghost predicate Recovered(a: Run, b: Run, revised: bool) {
    && b.budget == a.budget && b.createdAt == a.createdAt && Paid(a.book, b.book) && b.verifications == a.verifications
    && b.book.replans == (if a.book.replans < a.budget.maxReplans then a.book.replans + 1 else a.book.replans)
    && b.planVersion == (if revised then a.planVersion + 1 else a.planVersion)
    && (revised ==> a.book.replans < a.budget.maxReplans && AllTerminal(b.actions)
                    && b.status.Ready? && !b.frozen && b.stopIntent.None?)
    && (!revised ==> b.frozen && b.stopIntent == Some(if a.book.replans < a.budget.maxReplans then Replan
                                                      else Effective(a, Failure)))
  }

  lemma ReplanStops(w: World, r: RunId, e: Weather)
    requires r in w.t.runs
    ensures r in StopForReplan(w, r, e).0.t.runs
    ensures Stopped(w.t.runs[r], StopForReplan(w, r, e).0.t.runs[r], Replan)
  {
    RequestStopStops(w, r, Replan, e.stopAt, e.stopNet);
    var (w1, f1) := RequestStop(w, r, Replan, e.stopAt, e.stopNet);
    TickGentle(w1, r, e.clock, e.tickStopNet, e.net);
  }

  lemma RevisionWrites(w: World, r: RunId, e: Weather)
    requires r in w.t.runs
    ensures r in RefreshAndRevise(w, r, e).0.t.runs
    ensures var a, b := w.t.runs[r], RefreshAndRevise(w, r, e).0.t.runs[r];
            && b.actions == a.actions && b.budget == a.budget && b.createdAt == a.createdAt
            && Paid(a.book, b.book) && b.book.replans == a.book.replans && b.verifications == a.verifications
            && if RefreshAndRevise(w, r, e).2 then
                 b.planVersion == a.planVersion + 1 && b.status.Ready? && !b.frozen && b.stopIntent.None?
               else b.planVersion == a.planVersion && b.frozen == a.frozen && b.stopIntent == a.stopIntent
  {
    RefreshWrites(w, r, e);
  }

  lemma RecoverAccounts(w: World, r: RunId, e: Weather)
    requires r in w.t.runs
    ensures r in Recover(w, r, e).0.t.runs
    ensures Recovered(w.t.runs[r], Recover(w, r, e).0.t.runs[r], Recover(w, r, e).2)
  {
    var a := w.t.runs[r];
    if a.book.replans >= a.budget.maxReplans {
      TerminateStops(w, r, Failure, e);
    } else {
      var w0 := Post(w, r, a.book.(replans := a.book.replans + 1));
      assert Recover(w, r, e) == PaidRecovery(w0, r, e);
      PaidRecoveryWrites(w0, r, e);
    }
  }

  /** Recovery once its replan is paid for. */
  lemma PaidRecoveryWrites(w: World, r: RunId, e: Weather)
    requires r in w.t.runs
    ensures r in PaidRecovery(w, r, e).0.t.runs
    ensures var a, b := w.t.runs[r], PaidRecovery(w, r, e).0.t.runs[r];
            && b.budget == a.budget && b.createdAt == a.createdAt
            && Paid(a.book, b.book) && b.book.replans == a.book.replans && b.verifications == a.verifications
            && if PaidRecovery(w, r, e).2
               then b.planVersion == a.planVersion + 1 && AllTerminal(b.actions) && b.status.Ready? && !b.frozen
                   && b.stopIntent.None?
               else b.planVersion == a.planVersion && b.frozen && b.stopIntent == Some(Replan)
  {
    ReplanStops(w, r, e);
    RevisionWrites(StopForReplan(w, r, e).0, r, e);
  }

  lemma RevisedIsFine(w: World, r: RunId, e: Weather)
    ensures Recover(w, r, e).2 ==> Recover(w, r, e).1.Fine?
  {}

  /** Recovering a canceling run keeps the cancel exactly when no replan is left to pay for; the
      runtime's entry points only recover runs that are not being cancelled. */
  lemma RecoverKeepsCancelIff(w: World, r: RunId, e: Weather)
    requires r in w.t.runs && Canceling(w.t.runs[r])
    ensures r in Recover(w, r, e).0.t.runs
    ensures Canceling(Recover(w, r, e).0.t.runs[r])
            <==> w.t.runs[r].book.replans >= w.t.runs[r].budget.maxReplans
  {
    RecoverAccounts(w, r, e);
    TerminateStops(w, r, Failure, e);
  }

  // ----- what a call of the runtime may do to its run -----

  function Max(x: int, y: int): int {
    if x >= y then x else y
  }

  /** What every call may do: cancels stick, no verdict is taken back, every revision is paid for by a
      replan, and no budget is exceeded. */
  ghost predicate Accounts(a: Run, b: Run) {
    && Sticks(a, b) && a.verifications <= b.verifications
    && a.planVersion <= b.planVersion && b.planVersion - a.planVersion <= b.book.replans - a.book.replans
    && b.book.replans <= Max(a.book.replans, a.budget.maxReplans)
    && a.book.modelCalls <= b.book.modelCalls <= Max(a.book.modelCalls, a.budget.maxModelCalls)
    && a.book.apiRetries <= b.book.apiRetries <= Max(a.book.apiRetries, a.budget.maxApiRetries)
    && a.book.invalidProposals <= b.book.invalidProposals
  }

  /** What a tool may do: it neither asks the model nor touches the outbox. */
  ghost predicate Tooled(a: Run, b: Run) {
    && Accounts(a, b)
    && b.book == a.book.(binding := b.book.binding, replans := b.book.replans,
         observationCount := b.book.observationCount)
  }

  /** What driving the agent may do: the outbox stays, and a new tool binding costs a model call. */
  ghost predicate Proceeds(a: Run, b: Run) {
    && Accounts(a, b)
    && b.book.pendingFeedback == a.book.pendingFeedback
    && (b.book.binding != a.book.binding ==> a.book.modelCalls < b.book.modelCalls || a.book.binding.RejectedCall?)
  }

  lemma AccountsTrans(a: Run, b: Run, c: Run)
    requires Accounts(a, b) && Accounts(b, c)
    ensures Accounts(a, c)
  {}

  lemma ProceedsTrans(a: Run, b: Run, c: Run)
    requires Proceeds(a, b) && Proceeds(b, c)
    ensures Proceeds(a, c)
  {
    AccountsTrans(a, b, c);
  }

  /** A recovery is within the accounts when nothing outranks it. */
  lemma RecoveryAccounts(a: Run, b: Run, revised: bool)
    requires Recovered(a, b, revised) && !Canceling(a) && !TimingOut(a)
    ensures Tooled(a, b)
  {}

  lemma StopAccounts(a: Run, b: Run, reason: StopReason)
    requires Stopped(a, b, reason) && Sticks(a, b)
    ensures Tooled(a, b) && Proceeds(a, b)
  {}

  lemma CalmAccounts(a: Run, b: Run)
    requires Gentle(a, b)
    ensures Tooled(a, b) && Proceeds(a, b)
  {}

  /** An append is refused while the run is stopping, and otherwise binds the call. */
  lemma AppendTools(t: Tables, r: RunId, version: nat, drafts: seq<Draft>, call: Option<CallId>)
    requires r in t.runs && Append(t, r, version, drafts, call).Committed?
    ensures r in Append(t, r, version, drafts, call).value.runs
    ensures Tooled(t.runs[r], Append(t, r, version, drafts, call).value.runs[r])
  {
    AppendAllShape(t.runs[r], r, drafts);
  }

  lemma TooledTrans(a: Run, b: Run, c: Run)
    requires Tooled(a, b) && Tooled(b, c)
    ensures Tooled(a, c)
  {
    AccountsTrans(a, b, c);
  }

  /** A model request, paid for attempt by attempt; an answer costs at least one call. */
  ghost predicate Asked(a: Run, b: Run, answered: bool) {
    && b == a.(book := a.book.(modelCalls := b.book.modelCalls, apiRetries := b.book.apiRetries))
    && a.book.modelCalls <= b.book.modelCalls <= Max(a.book.modelCalls, a.budget.maxModelCalls)
    && a.book.apiRetries <= b.book.apiRetries <= Max(a.book.apiRetries, a.budget.maxApiRetries)
    && (answered ==> a.book.modelCalls < b.book.modelCalls)
  }

  /** A model request and then a tool: the outbox stays, and the binding may change. */
  lemma AskedThenTooled(a: Run, b: Run, c: Run)
    requires Asked(a, b, true) && Tooled(b, c)
    ensures Proceeds(a, c) && c.book.invalidProposals == a.book.invalidProposals
  {}

  lemma TooledSelf(a: Run)
    ensures Tooled(a, a) && Proceeds(a, a)
  {}
}
