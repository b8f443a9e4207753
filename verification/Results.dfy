/** What the runtime's calls must achieve: stops that end the run, observations and revisions that are made,
    tools that queue and submit, verdicts that are asked for and acted on. */
module Results {
  import opened Contracts
  import opened Transactions
  import opened Executors
  import opened Protocol
  import opened Preservation
  import opened Histories
  import opened Operations
  import opened Effects
  import opened Progress
  import opened Steadiness
  import opened RuntimeSteps
  import opened DrivenSteps

  // ----- terminate and cancel -----

  /** The reason that a stop is for: a pending cancel or timeout outranks any other. */
  predicate StandsFor(run: Run, reason: StopReason, effective: StopReason) {
    if run.stopIntent == Some(Cancel) then effective.Cancel?
    else if run.stopIntent == Some(Timeout) then effective.Timeout?
    else effective == reason
  }

  /** Terminating is a stop request for the effective reason and then a tick. */
  lemma TerminateIsStopThenTick(w: World, r: RunId, reason: StopReason, effective: StopReason, e: Weather)
    requires r in w.t.runs && StandsFor(w.t.runs[r], reason, effective)
    ensures var (w1, f1) := RequestStop(Post(w, r, w.t.runs[r].book), r, effective, e.stopAt, e.stopNet);
            f1.Fine? ==> Terminate(w, r, reason, e) == Tick(w1, r, e.clock, e.tickStopNet, e.net)
  {}

  /** With an executor that can confirm the stop, terminating an unfinished run drains it and ends it as the
      effective reason says. */
  lemma TerminateDrains(w: World, r: RunId, reason: StopReason, effective: StopReason, e: Weather)
    requires Inv(w) && r in w.t.runs && !Over(w.t.runs[r].status) && CanStop(w, r, e.stopNet)
    requires StandsFor(w.t.runs[r], reason, effective)
    ensures var (w', f) := Terminate(w, r, reason, e);
            f.Fine? && Drained(w', r) && w'.t.runs[r].status == EndedBy(effective)
  {
    var w0 := Post(w, r, w.t.runs[r].book);
    PostKeeps(w, r, w.t.runs[r].book);
    assert w0.t.runs[r] == w.t.runs[r] && CanStop(w0, r, e.stopNet);
    StopThenTickEnds(w0, r, effective, e.stopAt, e.stopNet, e.clock, e.tickStopNet, e.net);
    TerminateIsStopThenTick(w, r, reason, effective, e);
  }

  lemma PostKeeps(w: World, r: RunId, book: Book)
    requires Inv(w) && r in w.t.runs
    ensures Inv(Post(w, r, book))
  {
    StepKeeps(w, DoAnnotate(r, book));
    assert Post(w, r, book) == Perform(w, DoAnnotate(r, book));
  }

  /** Whatever the executor does: once nothing is left in flight, the run has ended as the effective reason
      says. */
  lemma TerminateEnds(w: World, r: RunId, reason: StopReason, effective: StopReason, e: Weather)
    requires r in w.t.runs && StandsFor(w.t.runs[r], reason, effective)
    requires Terminate(w, r, reason, e).1.Fine?
    requires var w0 := Post(w, r, w.t.runs[r].book);
             var w1 := RequestStop(w0, r, effective, e.stopAt, e.stopNet).0;
             r in w1.t.runs && !Over(w1.t.runs[r].status)
    ensures r in Terminate(w, r, reason, e).0.t.runs
    ensures var run' := Terminate(w, r, reason, e).0.t.runs[r];
            && run'.frozen && run'.stopIntent == Some(effective)
            && (AllTerminal(run'.actions) ==> run'.status == EndedBy(effective))
  {
    var w0 := Post(w, r, w.t.runs[r].book);
    var w1 := RequestStop(w0, r, effective, e.stopAt, e.stopNet).0;
    TerminateStops(w, r, reason, e);
    TerminateIsStopThenTick(w, r, reason, effective, e);
    RequestStopStops(w0, r, effective, e.stopAt, e.stopNet);
    TickEnforcesDeadlines(w1, r, e.clock, e.tickStopNet, e.net);
  }

  /** Whatever the executor does: with nothing in flight afterwards the run is over, or RECOVERING if it was to be
      stopped for a replan. */
  lemma TerminateSettles(w: World, r: RunId, reason: StopReason, e: Weather)
    requires r in w.t.runs
    ensures var (w', f) := Terminate(w, r, reason, e);
            f.Fine? && r in w'.t.runs && AllTerminal(w'.t.runs[r].actions) ==>
              w'.t.runs[r].status == EndedBy(Effective(w.t.runs[r], reason)) || Over(w'.t.runs[r].status)
  {
    var effective := Effective(w.t.runs[r], reason);
    var w0 := Post(w, r, w.t.runs[r].book);
    RequestStopStops(w0, r, effective, e.stopAt, e.stopNet);
    var w1 := RequestStop(w0, r, effective, e.stopAt, e.stopNet).0;
    TerminateIsStopThenTick(w, r, reason, effective, e);
    if Terminate(w, r, reason, e).1.Fine? && !Over(w1.t.runs[r].status) {
      TerminateEnds(w, r, reason, effective, e);
    }
  }

  /** The run is unfinished, no timeout stopped it, and the executor can confirm the stop of all its actions. */
  ghost predicate CanCancel(w: World, r: RunId, e: Weather) {
    && Inv(w) && r in w.t.runs && !Over(w.t.runs[r].status) && w.t.runs[r].stopIntent != Some(Timeout)
    && CanStop(w, r, e.stopNet)
  }

  /** The run is CANCELED, with everything terminal and unlocked. */
  ghost predicate IsCanceled(w: World, r: RunId) {
    Drained(w, r) && w.t.runs[r].status.TaskCanceled?
  }

  /** Cancelling a run that is over does nothing; an unfinished one that no timeout stopped is CANCELED, with
      everything terminal and unlocked, if the executor can confirm the stop. */
  lemma CancelEnds(w: World, r: RunId, e: Weather)
    requires r in w.t.runs
    ensures Over(w.t.runs[r].status) ==> CancelRun(w, r, e) == (w, Fine)
    ensures CanCancel(w, r, e) ==> CancelRun(w, r, e).1.Fine? && IsCanceled(CancelRun(w, r, e).0, r)
  {
    if CanCancel(w, r, e) { TerminateDrains(w, r, Cancel, Cancel, e); }
  }

  // ----- observing and revising -----

  /** The next observation of this environment can be paid for, and does not move backwards. */
  predicate Refreshable(run: Run, e: Weather) {
    && run.book.observationCount < run.budget.maxObservations && e.seen.Some?
    && run.observation.worldVersion <= e.seen.value.worldVersion
         && run.observation.observedAt <= e.seen.value.observedAt
  }

  /** A refresh records the observation if and only if it can; it is paid for as soon as the budget allows it,
      even if the executor does not answer. */
  lemma RefreshDecides(w: World, r: RunId, e: Weather)
    requires r in w.t.runs
    ensures var run, (w', f) := w.t.runs[r], Refresh(w, r, e);
            && (f.Fine? <==> Refreshable(run, e))
            && w'.x == w.x && r in w'.t.runs && w'.t.runs == w.t.runs[r := w'.t.runs[r]]
            && w'.t.runs[r] == run.(
                 observation := if f.Fine? then e.seen.value else run.observation,
                 book := run.book.(observationCount := run.book.observationCount
                           + if run.book.observationCount < run.budget.maxObservations then 1 else 0))
  {
    var run := w.t.runs[r];
    if run.book.observationCount < run.budget.maxObservations {
      var w1 := Post(w, r, run.book.(observationCount := run.book.observationCount + 1));
      if e.seen.Some? { ObserveDecides(w1.t, r, e.seen.value); }
    }
  }

  /** The run after its plan was given up for a new one on this observation. */
  predicate NewPlan(run: Run, o: Observation, run': Run) {
    run' == run.(planVersion := run.planVersion + 1, nextSequence := 1, closed := false, frozen := false,
                 stopIntent := None, observation := o, status := Ready, book := run'.book)
  }

  /** No action of the run ended after the observation, and the run was not created after it. */
  predicate NotAfter(run: Run, o: Observation) {
    && run.createdAt <= o.observedAt
    && forall i :: 0 <= i < |run.actions| && run.actions[i].finishedAt.Some? ==>
         run.actions[i].finishedAt.value <= o.observedAt
  }

  /** Revising to a fresh observation succeeds on a frozen run in which all is terminal, whenever the refresh
      does and the observation is valid and not outdated. */
  lemma RefreshAndReviseDecides(w: World, r: RunId, e: Weather)
    requires r in w.t.runs && w.t.runs[r].frozen && AllTerminal(w.t.runs[r].actions)
    ensures var run, (w', f, revised) := w.t.runs[r], RefreshAndRevise(w, r, e);
            && (revised ==> Refreshable(run, e) && e.seen.value.valid)
            && (Refreshable(run, e) && e.seen.value.valid && NotAfter(run, e.seen.value) ==>
                  revised && f.Fine? && r in w'.t.runs && NewPlan(run, e.seen.value, w'.t.runs[r]))
  {
    RefreshDecides(w, r, e);
    var (w1, f1) := Refresh(w, r, e);
    if f1.Fine? { ReviseDecides(w1.t, r, w1.t.runs[r].planVersion, w1.t.runs[r].observation); }
  }

  /** Recovering pays for a replan and, with an executor that can confirm the stop and a fresh observation,
      ends with the next plan. */
  lemma RecoverRevises(w: World, r: RunId, e: Weather)
    requires Inv(w) && r in w.t.runs && !Over(w.t.runs[r].status) && CanStop(w, r, e.stopNet)
    requires w.t.runs[r].book.replans < w.t.runs[r].budget.maxReplans
    requires var w0 := Post(w, r, w.t.runs[r].book.(replans := w.t.runs[r].book.replans + 1));
             var w1 := StopForReplan(w0, r, e).0;
             r in w1.t.runs && Refreshable(w1.t.runs[r], e) && e.seen.value.valid
                 && NotAfter(w1.t.runs[r], e.seen.value)
    ensures var (w', f, revised) := Recover(w, r, e);
            && revised && f.Fine? && r in w'.t.runs && w'.t.runs[r].planVersion == w.t.runs[r].planVersion + 1
            && w'.t.runs[r].status.Ready? && !w'.t.runs[r].frozen && w'.t.runs[r].observation == e.seen.value
            && w'.t.runs[r].book.replans == w.t.runs[r].book.replans + 1
  {
    var w0 := Post(w, r, w.t.runs[r].book.(replans := w.t.runs[r].book.replans + 1));
    PostKeeps(w, r, w.t.runs[r].book.(replans := w.t.runs[r].book.replans + 1));
    assert CanStop(w0, r, e.stopNet);
    StopThenTickEnds(w0, r, Replan, e.stopAt, e.stopNet, e.clock, e.tickStopNet, e.net);
    ReplanStops(w0, r, e);
    var w1 := StopForReplan(w0, r, e).0;
    RefreshAndReviseDecides(w1, r, e);
    RecoverAccounts(w, r, e);
    RecoverIsPaid(w, r, e);
  }

  lemma RecoverIsPaid(w: World, r: RunId, e: Weather)
    requires r in w.t.runs && w.t.runs[r].book.replans < w.t.runs[r].budget.maxReplans
    ensures var w0 := Post(w, r, w.t.runs[r].book.(replans := w.t.runs[r].book.replans + 1));
            && Recover(w, r, e) == PaidRecovery(w0, r, e)
            && var (w1, f1) := StopForReplan(w0, r, e);
               f1.Fine? && r in w1.t.runs && AllTerminal(w1.t.runs[r].actions) ==>
                 Recover(w, r, e) == RefreshAndRevise(w1, r, e)
  {}

  // ----- settling the bound action -----

  /** The last verdict on this action is not PASS. */
  predicate LastFails(verifications: seq<VerificationResult>, id: ActionId) {
    exists i ::
      && 0 <= i < |verifications| && verifications[i].checkpoint == AfterAction(id) && !verifications[i].verdict.Pass?
      && forall j :: i < j < |verifications| ==> verifications[j].checkpoint != AfterAction(id)
  }

  lemma {:induction false} LastVerdictIsLast(verifications: seq<VerificationResult>, id: ActionId)
    ensures var v := LastVerdict(verifications, id);
            v.Some? && !v.value.Pass? <==> LastFails(verifications, id)
    decreases |verifications|
  {
    if verifications != [] {
      var n := |verifications| - 1;
      var before := verifications[..n];
      LastVerdictIsLast(before, id);
      if LastFails(before, id) && verifications[n].checkpoint != AfterAction(id) {
        var i :| && 0 <= i < n && before[i].checkpoint == AfterAction(id) && !before[i].verdict.Pass?
                 && forall j :: i < j < n ==> before[j].checkpoint != AfterAction(id);
        assert verifications[i] == before[i];
        assert LastFails(verifications, id);
      }
      if LastFails(verifications, id) && verifications[n].checkpoint != AfterAction(id) {
        var i :| && 0 <= i <= n && verifications[i].checkpoint == AfterAction(id) && !verifications[i].verdict.Pass?
                 && forall j :: i < j <= n ==> verifications[j].checkpoint != AfterAction(id);
        assert before[i] == verifications[i];
        assert LastFails(before, id);
      }
    }
  }

  /** Completed, and not judged yet. */
  predicate ToJudge(a: Action) {
    a.status.Completed? && !a.verified
  }

  /** The plan has to be given up: this action of it ended short of completion, or its verdict is not PASS. */
  predicate MustReplan(run: Run, a: Action, e: Weather) {
    && a.planVersion == run.planVersion
    && if !a.status.Completed? then true
       else if a.verified then LastFails(run.verifications, a.id)
       else e.verdict.Committed? && !e.verdict.value.verdict.Pass?
  }

  /** What has become of a bound action that ended, once its result is due: a completed one was judged, on
      a new observation, and a PASS on it verifies it; and the plan was revised, for one replan, if and
      only if it had to be given up. */
  ghost predicate Settles(run: Run, a: Action, e: Weather, run': Run)
    requires IsBound(run, a)
  {
    var k := FindAction(run.actions, run.book.binding.action);
    && e.seen.Some? && run'.observation == e.seen.value
    && (ToJudge(a) ==> e.verdict.Committed?)
    && run'.verifications == run.verifications + (if ToJudge(a) then [e.verdict.value] else [])
    && (ToJudge(a) && e.verdict.value.verdict.Pass? && e.verdict.value.checkpoint == AfterAction(a.id) ==>
          k < |run'.actions| && run'.actions == run.actions[k := a.(verified := true)])
    && (if MustReplan(run, a, e) then
          && run'.book.replans == run.book.replans + 1 && run'.planVersion == run.planVersion + 1
          && AllTerminal(run'.actions) && run'.status.Ready? && !run'.frozen && run'.stopIntent.None?
        else
          && run'.book.replans == run.book.replans && run'.planVersion == run.planVersion
          && run'.frozen == run.frozen && run'.stopIntent == run.stopIntent)
    && run'.book.binding == run.book.binding && run'.book.pendingFeedback == Some(run.book.binding.call)
  }

  /** The judging, and nothing else. */
  ghost predicate JudgedSo(run: Run, a: Action, e: Weather, run': Run)
    requires IsBound(run, a)
  {
    var k := FindAction(run.actions, run.book.binding.action);
    && e.seen.Some? && (ToJudge(a) ==> e.verdict.Committed?)
    && run' == run.(observation := e.seen.value, actions := run'.actions, status := run'.status,
                    verifications := run.verifications + (if ToJudge(a) then [e.verdict.value] else []),
                    book := run.book.(observationCount := run.book.observationCount + 1))
    && (ToJudge(a) && e.verdict.value.verdict.Pass? && e.verdict.value.checkpoint == AfterAction(a.id) ==>
          run'.actions == run.actions[k := a.(verified := true)])
  }

  lemma JudgeEndedJudges(w: World, r: RunId, a: Action, e: Weather)
    requires r in w.t.runs && IsBound(w.t.runs[r], a) && JudgeEnded(w, r, a, e).1.Fine?
    ensures r in JudgeEnded(w, r, a, e).0.t.runs && JudgedSo(w.t.runs[r], a, e, JudgeEnded(w, r, a, e).0.t.runs[r])
  {
    RefreshDecides(w, r, e);
    var (w1, f1) := Refresh(w, r, e);
    if ToJudge(a) {
      assert JudgeEnded(w, r, a, e) == Judge(w1, f1, r, e);
      var v := e.verdict.value;
      assert Verify(w1.t, r, v, e.now).Committed?;
      assert JudgeEnded(w, r, a, e).0.t.runs[r] == Judged(w1.t.runs[r], v);
    } else {
      assert w.t.runs[r].verifications + [] == w.t.runs[r].verifications;
    }
  }

  /** Whenever the result of an ended action becomes due, the action was settled. */
  lemma PrepareSettles(w: World, r: RunId, a: Action, e: Weather)
    requires r in w.t.runs && IsBound(w.t.runs[r], a) && Prepare(w, r, a, e).2
    ensures r in Prepare(w, r, a, e).0.t.runs && Settles(w.t.runs[r], a, e, Prepare(w, r, a, e).0.t.runs[r])
  {
    var run := w.t.runs[r];
    JudgeEndedJudges(w, r, a, e);
    LastVerdictIsLast(run.verifications, a.id);
    var w1 := JudgeEnded(w, r, a, e).0;
    var verdict := VerdictOn(run, a, e);
    assert Prepare(w, r, a, e) == SettleOutcome(w1, r, a, verdict, e);
    assert FailedIn(w1.t.runs[r].planVersion, a, verdict) <==> MustReplan(run, a, e);
    RepairSettles(w1, r, a, verdict, e);
  }

  lemma RepairSettles(w: World, r: RunId, a: Action, verdict: Option<Verdict>, e: Weather)
    requires r in w.t.runs && w.t.runs[r].book.binding.BoundTo? && SettleOutcome(w, r, a, verdict, e).2
    requires e.seen.Some? && w.t.runs[r].observation == e.seen.value
    ensures r in SettleOutcome(w, r, a, verdict, e).0.t.runs
    ensures var run, run' := w.t.runs[r], SettleOutcome(w, r, a, verdict, e).0.t.runs[r];
            if FailedIn(run.planVersion, a, verdict) then
              && Recovered(run, run'.(book := run'.book.(pendingFeedback := run.book.pendingFeedback)), true)
              && run'.observation == e.seen.value && run'.book.pendingFeedback == Some(run.book.binding.call)
            else run' == run.(book := run.book.(pendingFeedback := Some(run.book.binding.call)))
  {
    if FailedIn(w.t.runs[r].planVersion, a, verdict) {
      RecoverAccounts(w, r, e);
      RecoverObserves(w, r, e);
    }
  }

  /** A revision is made on what the executor shows. */
  lemma RecoverObserves(w: World, r: RunId, e: Weather)
    requires r in w.t.runs && Recover(w, r, e).2
    ensures r in Recover(w, r, e).0.t.runs && e.seen.Some? && Recover(w, r, e).0.t.runs[r].observation == e.seen.value
  {
    var w0 := Post(w, r, w.t.runs[r].book.(replans := w.t.runs[r].book.replans + 1));
    var w1 := StopForReplan(w0, r, e).0;
    RecoverIsPaid(w, r, e);
    ReplanStops(w0, r, e);
    RevisionObserves(w1, r, e);
  }

  lemma RevisionObserves(w: World, r: RunId, e: Weather)
    requires r in w.t.runs && RefreshAndRevise(w, r, e).2
    ensures var w' := RefreshAndRevise(w, r, e).0;
            r in w'.t.runs && e.seen.Some? && w'.t.runs[r].observation == e.seen.value
  {
    RefreshDecides(w, r, e);
    var w1 := Refresh(w, r, e).0;
    assert Revise(w1.t, r, w1.t.runs[r].planVersion, w1.t.runs[r].observation).Committed?;
  }

  /** When the plan need not be given up, the result becomes due if and only if the observation can be made
      and, for an action that is to be judged, the verdict is one that can be recorded on it. */
  lemma PrepareReadyIff(w: World, r: RunId, a: Action, e: Weather)
    requires r in w.t.runs && DistinctActions(w.t.runs[r]) && IsBound(w.t.runs[r], a) && !MustReplan(w.t.runs[r], a, e)
    ensures Prepare(w, r, a, e).2
            <==> && Refreshable(w.t.runs[r], e)
                 && (ToJudge(a) ==> e.verdict.Committed?
                                    && Recordable(w.t.runs[r].(observation := e.seen.value), e.verdict.value, e.now))
  {
    var run := w.t.runs[r];
    RefreshDecides(w, r, e);
    LastVerdictIsLast(run.verifications, a.id);
    var (w1, f1) := Refresh(w, r, e);
    if f1.Fine? {
      var seen := w1.t.runs[r];
      if e.verdict.Committed? {
        VerifyRecordsIff(w1.t, r, e.verdict.value, e.now);
        assert Recordable(seen, e.verdict.value, e.now)
               <==> Recordable(run.(observation := e.seen.value), e.verdict.value, e.now);
      }
    }
  }

  // ----- the agent's tools -----

  /** The same actions in the same order, whatever became of them. */
  ghost predicate SameEntries(run: Run, run': Run) {
    && |run'.actions| == |run.actions|
    && forall i :: 0 <= i < |run.actions| ==> SameIntent(run.actions[i], run'.actions[i])
  }

  lemma ApplySpares(t: Tables, r: RunId, ev: Event)
    requires r in t.runs && Apply(t, ev).Committed?
    ensures r in Apply(t, ev).value.runs && SameEntries(t.runs[r], Apply(t, ev).value.runs[r])
  {}

  lemma AcceptSpares(t: Tables, r: RunId, id: ActionId, s: Snapshot)
    requires r in t.runs && Accept(t, r, id, s).Committed?
    ensures r in Accept(t, r, id, s).value.runs && SameEntries(t.runs[r], Accept(t, r, id, s).value.runs[r])
  {}

  lemma IntentSpares(t: Tables, r: RunId, e: Launch)
    requires r in t.runs && Intent(t, r, e.now, e.at, e.admissible).Committed?
    ensures var t' := Intent(t, r, e.now, e.at, e.admissible).value.0;
            r in t'.runs && SameEntries(t.runs[r], t'.runs[r])
  {}

  lemma ReplySpares(w: World, r: RunId, id: ActionId, reply: Reply)
    requires r in w.t.runs
    ensures var unknown := Note(w, MarkUnknown(w.t, r, id)).0;
            r in unknown.t.runs && SameEntries(w.t.runs[r], unknown.t.runs[r])
    ensures reply.Answer? ==>
              var w' := AcceptSnapshot(w, r, id, reply.snapshot).0;
              r in w'.t.runs && SameEntries(w.t.runs[r], w'.t.runs[r])
  {
    if reply.Answer? { AcceptSnapshotSpares(w, r, id, reply.snapshot); }
  }

  lemma AcceptSnapshotSpares(w: World, r: RunId, id: ActionId, s: Snapshot)
    requires r in w.t.runs
    ensures var w' := AcceptSnapshot(w, r, id, s).0; r in w'.t.runs && SameEntries(w.t.runs[r], w'.t.runs[r])
  {
    if Accept(w.t, r, id, s).Committed? {
      var t' := Accept(w.t, r, id, s).value;
      AcceptSpares(w.t, r, id, s);
      if s.lastEvent.Some? && Apply(t', s.lastEvent.value).Committed? { ApplySpares(t', r, s.lastEvent.value); }
    }
  }

  lemma DispatchSpares(w: World, r: RunId, e: Launch)
    requires r in w.t.runs
    ensures var w' := Dispatch(w, r, e).0; r in w'.t.runs && SameEntries(w.t.runs[r], w'.t.runs[r])
  {
    var o := Intent(w.t, r, e.now, e.at, e.admissible);
    if o.Committed? && o.value.1.Some? {
      var a := o.value.1.value;
      var (w1, reply) := SubmitPending(w.(t := o.value.0, pending := w.pending[a.id := a]), a, e.newId, e.delivery);
      IntentSpares(w.t, r, e);
      assert w1.t == o.value.0;
      ReplySpares(w1, r, a.id, reply);
    }
  }

  /** A repeated call changes nothing; a proposal that the stream does not take is remembered as rejected; one
      that it takes is the last of the stream, and the call is bound to it. */
  lemma ToolDecides(w: World, r: RunId, call: CallId, draft: Draft, launch: Launch)
    requires r in w.t.runs
    ensures var run, (w', f) := w.t.runs[r], ToolUsed(w, r, call, draft, launch);
            && r in w'.t.runs
            && var run', n := w'.t.runs[r], |run.actions|;
               if !run.book.binding.Unbound? && run.book.binding.call == call then w' == w
               else if !StreamTakes(w.t, r, run.planVersion, [draft]) then
                 f.Fine? && w'.x == w.x && run' == run.(book := run.book.(binding := RejectedCall(call)))
               else
                 && |run'.actions| == n + 1 && run'.actions[n].id == draft.id
                      && run'.actions[n].proposal == draft.proposal
                 && run'.actions[n].planVersion == run.planVersion
                 && run'.book == run.book.(binding := BoundTo(call, draft.id))
  {
    var run := w.t.runs[r];
    AppendQueuesIff(w.t, r, run.planVersion, [draft], Some(call));
    if !Repeats(run.book, call) && StreamTakes(w.t, r, run.planVersion, [draft]) {
      var w1 := Perform(w, DoAppend(r, run.planVersion, [draft], Some(call)));
      AppendQueues(w.t, r, run.planVersion, [draft], Some(call));
      assert ToolUsed(w, r, call, draft, launch) == Dispatch(w1, r, launch);
      DispatchSpares(w1, r, launch);
      DispatchTools(w1, r, launch);
    }
  }

  /** Nothing of the plan is unfinished, and what the draft asks for can be dispatched at once. */
  ghost predicate CanStart(w: World, r: RunId, draft: Draft, launch: Launch) {
    && r in w.t.runs && StreamTakes(w.t, r, w.t.runs[r].planVersion, [draft]) && draft.id !in w.issued
    && w.x.connected && launch.delivery.Prompt? && !w.x.loseNextReply && FreshExecution(w.x, launch.newId)
    && var run := w.t.runs[r];
       && TakesWork(run) && PlanIsDone(run) && launch.admissible
       && 0 <= launch.now - run.observation.observedAt <= run.budget.observationMaxAge
       && draft.proposal.actionType in run.capabilities
       && FreeFor(w.t.resources, run.capabilities[draft.proposal.actionType].resources)
  }

  /** The tool puts an action to work: when nothing before it is unfinished, its resources are free and the link
      works, the executor runs it and the ledger says so, on the observation that it was proposed on. */
  lemma ToolStarts(w: World, r: RunId, call: CallId, draft: Draft, launch: Launch)
    requires Inv(w) && CanStart(w, r, draft, launch)
    requires w.t.runs[r].book.binding.Unbound? || w.t.runs[r].book.binding.call != call
    ensures var (w', f) := ToolUsed(w, r, call, draft, launch);
            && f.Fine? && draft.id in w'.x.executions
            && w'.x.executions[draft.id].snapshot == Snapshot(launch.newId, draft.id, Running, false, None)
            && r in w'.t.runs
            && var run', n := w'.t.runs[r], |w.t.runs[r].actions|;
               && run'.status.Executing? && n < |run'.actions| && run'.actions[n].id == draft.id
               && run'.actions[n].status.Running? && run'.actions[n].executionId == Some(launch.newId)
               && run'.actions[n].executionObservationId == Some(draft.proposal.observationId)
  {
    var run := w.t.runs[r];
    var n := |run.actions|;
    AppendQueues(w.t, r, run.planVersion, [draft], Some(call));
    var l := DoAppend(r, run.planVersion, [draft], Some(call));
    var w1 := Perform(w, l);
    AppendedIsFrontier(w, r, call, draft);
    AppendKeeps(w, r, run.planVersion, [draft], Some(call));
    assert MustSubmit(w1.t, r, launch.now, launch.admissible, n);
    DispatchStarts(w1, r, launch, n);
  }

  /** The action that was appended is next when all before it is finished. */
  lemma AppendedIsFrontier(w: World, r: RunId, call: CallId, draft: Draft)
    requires r in w.t.runs && StreamTakes(w.t, r, w.t.runs[r].planVersion, [draft]) && PlanIsDone(w.t.runs[r])
    ensures var w1 := Perform(w, DoAppend(r, w.t.runs[r].planVersion, [draft], Some(call)));
            && w1.x == w.x && r in w1.t.runs && w1.t.resources == w.t.resources
            && var run, run1, n := w.t.runs[r], w1.t.runs[r], |w.t.runs[r].actions|;
               && IsFrontier(run1, n) && QueuedFrom(run, r, draft, run.nextSequence, run1.actions[n])
               && run1.observation == run.observation && run1.status == run.status && run1.frozen == run.frozen
               && run1.capabilities == run.capabilities && run1.budget == run.budget
  {
    var run := w.t.runs[r];
    var n := |run.actions|;
    AppendQueues(w.t, r, run.planVersion, [draft], Some(call));
    var run1 := Perform(w, DoAppend(r, run.planVersion, [draft], Some(call))).t.runs[r];
    assert QueuedFrom(run, r, [draft][0], run.nextSequence + 0, run1.actions[n + 0]);
    forall i | 0 <= i < n ensures run1.actions[i] == run.actions[i] {
      assert run1.actions[..n][i] == run.actions[i];
    }
  }

  /** Every action of the current plan, whatever its status, is completed and verified. */
  predicate PlanWasDone(run: Run) {
    forall i :: 0 <= i < |run.actions| && run.actions[i].planVersion == run.planVersion ==>
      run.actions[i].status.Completed? && run.actions[i].verified
  }

  /** The verifier's verdict on the whole, on what the executor shows now, can be recorded. */
  predicate Concludable(run: Run, e: Weather) {
    && PlanWasDone(run) && !run.frozen && Refreshable(run, e) && e.verdict.Committed?
    && Recordable(run.(closed := true, observation := e.seen.value), e.verdict.value, e.now)
  }

  /** Short of a plan that is done the tool that finishes does nothing. */
  lemma FinishDeclines(w: World, r: RunId, e: Weather)
    requires r in w.t.runs && !PlanWasDone(w.t.runs[r])
    ensures FinishUsed(w, r, e) == (w, Fine, false)
  {
    assert !AllCurrentDone(w.t.runs[r]);
  }

  /** Judging the whole succeeds exactly when the verdict can be recorded, and records it. */
  lemma CloseAndJudgeIff(w: World, r: RunId, e: Weather)
    requires r in w.t.runs && DistinctActions(w.t.runs[r]) && PlanWasDone(w.t.runs[r])
    ensures CloseAndJudge(w, r, e).1.Fine? <==> Concludable(w.t.runs[r], e)
    ensures Concludable(w.t.runs[r], e) ==>
              && r in CloseAndJudge(w, r, e).0.t.runs
              && var run, run', v := w.t.runs[r], CloseAndJudge(w, r, e).0.t.runs[r], e.verdict.value;
                 && run' == run.(closed := true, observation := e.seen.value, status := run'.status,
                                 verifications := run.verifications + [v],
                                 book := run.book.(observationCount := run.book.observationCount + 1))
                 && run'.status == (if v.verdict.Pass? then Succeeded else Recovering)
  {
    var run := w.t.runs[r];
    CloseDecides(w.t, r, run.planVersion, run.nextSequence - 1);
    if !run.frozen {
      var w1 := Note(w, Close(w.t, r, run.planVersion, run.nextSequence - 1)).0;
      RefreshDecides(w1, r, e);
      var (w2, f2) := Refresh(w1, r, e);
      assert CloseAndJudge(w, r, e) == Judge(w2, f2, r, e);
      if f2.Fine? && e.verdict.Committed? { JudgeWholeIff(run, w2, r, e); }
    }
  }

  lemma JudgeWholeIff(run: Run, w: World, r: RunId, e: Weather)
    requires e.seen.Some? && e.verdict.Committed? && !run.frozen
    requires r in w.t.runs && DistinctActions(w.t.runs[r]) && PlanWasDone(w.t.runs[r])
    requires w.t.runs[r] == run.(closed := true, observation := e.seen.value,
                                 book := run.book.(observationCount := run.book.observationCount + 1))
    ensures var seen, v, (w', f) := run.(closed := true, observation := e.seen.value), e.verdict.value,
              Judge(w, Fine, r, e);
            && (f.Fine? <==> Recordable(seen, v, e.now))
            && (f.Fine? ==>
                  && r in w'.t.runs
                  && w'.t.runs[r] == w.t.runs[r].(status := if v.verdict.Pass? then Succeeded else Recovering,
                                                  verifications := run.verifications + [v]))
  {
    var v := e.verdict.value;
    VerifyRecordsIff(w.t, r, v, e.now);
    assert Recordable(w.t.runs[r], v, e.now) <==>
             Recordable(run.(closed := true, observation := e.seen.value), v, e.now);
    if Verify(w.t, r, v, e.now).Committed? {
      VerdictDecides(w.t, r, v, e.now);
      assert PlanIsDone(w.t.runs[r]);
      assert v.verdict.Pass? ==> v.checkpoint.Final?;
      assert Judge(w, Fine, r, e).0.t.runs[r].actions == w.t.runs[r].actions;
    }
  }

  /** Finishing passes if and only if the plan is done and a PASS can be recorded on the whole of the unfrozen
      run, and then the task has SUCCEEDED. */
  lemma FinishPassesIff(w: World, r: RunId, e: Weather)
    requires r in w.t.runs && DistinctActions(w.t.runs[r])
    ensures FinishUsed(w, r, e).2 <==> Concludable(w.t.runs[r], e) && e.verdict.value.verdict.Pass?
    ensures FinishUsed(w, r, e).2 ==>
              && FinishUsed(w, r, e).1.Fine? && r in FinishUsed(w, r, e).0.t.runs
              && FinishUsed(w, r, e).0.t.runs[r].status.Succeeded? && FinishUsed(w, r, e).0.t.runs[r].closed
  {
    assert AllCurrentDone(w.t.runs[r]) <==> PlanWasDone(w.t.runs[r]);
    if PlanWasDone(w.t.runs[r]) { CloseAndJudgeIff(w, r, e); }
  }

  /** Any other verdict on the whole costs a replan, if there is one left, and leads to a new plan or leaves
      the run stopped; without one left it is stopped as failed, unless a cancel or timeout stands. */
  lemma FinishRecovers(w: World, r: RunId, e: Weather)
    requires r in w.t.runs && DistinctActions(w.t.runs[r]) && Concludable(w.t.runs[r], e)
               && !e.verdict.value.verdict.Pass?
    ensures var run, (w', f, passed) := w.t.runs[r], FinishUsed(w, r, e);
            && !passed && r in w'.t.runs
            && var run', left := w'.t.runs[r], run.book.replans < run.budget.maxReplans;
               && run'.verifications == run.verifications + [e.verdict.value]
               && run'.book.replans == run.book.replans + (if left then 1 else 0)
               && (run'.planVersion == run.planVersion + 1 || run'.planVersion == run.planVersion)
               && (run'.planVersion > run.planVersion ==>
                    left && run'.status.Ready? && !run'.frozen && AllTerminal(run'.actions))
               && (run'.planVersion == run.planVersion ==> run'.frozen && (left ==> run'.stopIntent == Some(Replan)))
  {
    CloseAndJudgeIff(w, r, e);
    var w1 := CloseAndJudge(w, r, e).0;
    assert AllCurrentDone(w.t.runs[r]);
    RecoverAccounts(w1, r, e);
  }

  // ----- one decision of the agent -----

  predicate DoesNothing(run: Run, move: AgentMove, answered: bool) {
    move.TooManyCalls? || move.Conclude? || (move.Finish? && !PlanWasDone(run)) || (move.Propose? && answered)
  }

  /** What ends a drive. Too many calls are invalid and a conclusion rests, and neither does anything, nor
      does a proposal that was answered; looking around goes on, if the observation can be made; finishing
      rests with success and goes on without it; and a proposal pauses the drive, bound or rejected. */
  lemma CarriedEnds(w: World, r: RunId, move: AgentMove, answered: bool, e: Weather)
    requires r in w.t.runs && DistinctActions(w.t.runs[r])
    ensures var run, (w', end) := w.t.runs[r], Carried(w, r, move, answered, e);
            && r in w'.t.runs
            && var run' := w'.t.runs[r];
               && (end == Some(Invalid) <==> move.TooManyCalls?)
               && (end == Some(Rested)
                   <==> move.Conclude? || (move.Finish? && Concludable(run, e) && e.verdict.value.verdict.Pass?))
               && (end == Some(Rested) && move.Finish? ==> run'.status.Succeeded?)
               && (end == Some(Paused) ==> move.Propose? && !answered
                                           && !run'.book.binding.Unbound? && run'.book.binding.call == move.call)
               && (move.LookAround? ==> (end.None? <==> Refreshable(run, e)))
               && (move.Finish? && !PlanWasDone(run) ==> end.None?)
               && (move.Propose? ==> (end.None? <==> answered))
               && (DoesNothing(run, move, answered) ==> w' == w)
  {
    match move
    case LookAround => RefreshDecides(w, r, e);
    case Finish =>
      FinishPassesIff(w, r, e);
      FinishStays(w, r, e);
      if !PlanWasDone(w.t.runs[r]) { FinishDeclines(w, r, e); }
    case Propose(call, draft, launch) => ToolAccounts(w, r, call, draft, launch);
    case _ =>
  }

  lemma FinishStays(w: World, r: RunId, e: Weather)
    requires r in w.t.runs
    ensures r in FinishUsed(w, r, e).0.t.runs
  {
    CloseAccounts(w, r, e);
    RecoverAccounts(CloseAndJudge(w, r, e).0, r, e);
  }
}
