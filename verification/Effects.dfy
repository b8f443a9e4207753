/** What each of the scheduler's operations does, field by field and in both directions: when it must act,
    what it then writes, and that it writes nothing otherwise. */
module Effects {
  import opened Contracts
  import opened Transactions
  import opened Protocol
  import opened Preservation
  import opened Safety
  import opened Operations

  // ----- dispatch -----

  /** Of the current plan, and neither invalidated nor completed and verified. */
  predicate Unfinished(run: Run, a: Action) {
    a.planVersion == run.planVersion && !a.status.Invalidated? && !(a.status.Completed? && a.verified)
  }

  predicate IsFrontier(run: Run, k: nat) {
    && k < |run.actions| && Unfinished(run, run.actions[k])
    && forall j :: 0 <= j < k ==> !Unfinished(run, run.actions[j])
  }

  /** The run takes work: it is not stopping, not over, and waits for nothing. */
  predicate TakesWork(run: Run) {
    !run.frozen && (run.status.Ready? || run.status.Executing? || run.status.Verifying? || run.status.Recovering?)
  }

  /** What the registry demands of a submission: a known capability, its schemas and preconditions, and a
      valid, fresh observation. */
  predicate Submittable(run: Run, a: Action, now: Time, admissible: bool) {
    && a.proposal.actionType in run.capabilities && admissible
    && run.observation.valid && 0 <= now - run.observation.observedAt <= run.budget.observationMaxAge
  }

  predicate FreeFor(rows: map<Resource, ActionId>, wanted: seq<Resource>) {
    && (forall x :: x in wanted ==> x !in rows)
    && (forall i, j :: 0 <= i < j < |wanted| ==> wanted[i] != wanted[j])
  }

  /** The rows before, and these resources for this owner. */
  ghost predicate Taken(rows: map<Resource, ActionId>, wanted: seq<Resource>, owner: ActionId,
      rows': map<Resource, ActionId>) {
    && (forall x :: x in rows' <==> x in rows || x in wanted)
    && (forall x :: x in wanted ==> x in rows' && rows'[x] == owner)
    && (forall x :: x in rows && x !in wanted ==> x in rows' && rows'[x] == rows[x])
  }

  lemma {:induction false} FreeIsAcquired(rows: map<Resource, ActionId>, wanted: seq<Resource>, owner: ActionId)
    requires FreeFor(rows, wanted)
    ensures Acquire(rows, wanted, owner).Committed?
    ensures Taken(rows, wanted, owner, Acquire(rows, wanted, owner).value)
    decreases |wanted|
  {
    if wanted != [] {
      var n := |wanted| - 1;
      FreeIsAcquired(rows, wanted[..n], owner);
      assert wanted == wanted[..n] + [wanted[n]];
      assert wanted[n] !in wanted[..n];
    }
  }

  /** Everything that a submission needs holds of this action. */
  predicate MustSubmit(t: Tables, r: RunId, now: Time, admissible: bool, k: nat) {
    && r in t.runs && TakesWork(t.runs[r]) && IsFrontier(t.runs[r], k)
    && var a := t.runs[r].actions[k];
       a.status.Queued? && Submittable(t.runs[r], a, now, admissible) && FreeFor(t.resources, a.resources)
  }

  /** The first unfinished action of the plan is submitted when it is queued, admitted and its resources
      are free: it reads SUBMITTING on the current observation, all its locks are taken, and the task is
      EXECUTING. */
  lemma DispatchSubmits(t: Tables, r: RunId, now: Time, at: Time, admissible: bool, k: nat)
    requires MustSubmit(t, r, now, admissible, k)
    ensures var o := Intent(t, r, now, at, admissible);
            var run := t.runs[r];
            var a := run.actions[k].(status := Submitting, submittedAt := Some(at),
                                     executionObservationId := Some(run.observation.id));
            && o.Committed? && o.value.1 == Some(a)
            && var t' := o.value.0;
               && t'.runs == t.runs[r := run.(actions := run.actions[k := a], status := Executing)]
               && Taken(t.resources, a.resources, a.id, t'.resources)
               && t'.received == t.received && t'.journal == t.journal + [SubmitIntent(r, a)]
  {
    FreeIsAcquired(t.resources, t.runs[r].actions[k].resources, t.runs[r].actions[k].id);
    assert NextAction(t.runs[r], 0) == k;
  }

  /** Dispatch records an intent if and only if some action must be submitted; otherwise nothing changes. */
  lemma DispatchSubmitsIff(t: Tables, r: RunId, now: Time, at: Time, admissible: bool)
    ensures var o := Intent(t, r, now, at, admissible);
            && (o.Committed? && o.value.1.Some? <==> exists k :: MustSubmit(t, r, now, admissible, k))
            && (o.Committed? && o.value.1.None? ==> o.value.0 == t)
  {
    var o := Intent(t, r, now, at, admissible);
    if k :| MustSubmit(t, r, now, admissible, k) {
      DispatchSubmits(t, r, now, at, admissible, k);
    }
    if o.Committed? && o.value.1.Some? {
      var run := t.runs[r];
      var k := NextAction(run, 0);
      AcquireNeedsFree(t.resources, run.actions[k].resources, run.actions[k].id);
      assert MustSubmit(t, r, now, admissible, k);
    }
  }

  /** Without an error and without a submission, there was nothing to submit: the run takes no work, or its
      plan is done, or its frontier was submitted already. */
  lemma DispatchDeclines(t: Tables, r: RunId, now: Time, at: Time, admissible: bool)
    requires r in t.runs
    ensures Intent(t, r, now, at, admissible) == Committed((t, None))
            <==> !TakesWork(t.runs[r])
                 || forall k: nat :: IsFrontier(t.runs[r], k) ==> !t.runs[r].actions[k].status.Queued?
  {
    var run := t.runs[r];
    if TakesWork(run) {
      var k := NextAction(run, 0);
      assert k < |run.actions| ==> IsFrontier(run, k);
    }
  }

  /** The whole of dispatch on a link that works: the executor runs the action, and the ledger says so. */
  lemma DispatchStarts(w: World, r: RunId, e: Launch, k: nat)
    requires Inv(w) && MustSubmit(w.t, r, e.now, e.admissible, k) && FreshExecution(w.x, e.newId)
    requires w.x.connected && e.delivery.Prompt? && !w.x.loseNextReply
    ensures var (w', f) := Dispatch(w, r, e);
            var a := w.t.runs[r].actions[k];
            && f.Fine? && a.id in w'.x.executions
            && w'.x.executions[a.id].snapshot == Snapshot(e.newId, a.key, Running, false, None)
            && r in w'.t.runs && k < |w'.t.runs[r].actions|
            && w'.t.runs[r].status.Executing?
            && w'.t.runs[r].actions[k]
               == a.(status := Running, submittedAt := Some(e.at), executionId := Some(e.newId),
                     executionObservationId := Some(w.t.runs[r].observation.id))
  {
    DispatchSubmits(w.t, r, e.now, e.at, e.admissible, k);
    DispatchUnsent(w, r, e, k);
  }

  /** A submission that is lost, or whose reply is lost, leaves the action unknown and the run blocked. */
  lemma DispatchUnanswered(w: World, r: RunId, e: Launch, k: nat)
    requires Inv(w) && MustSubmit(w.t, r, e.now, e.admissible, k) && FreshExecution(w.x, e.newId)
    requires !w.x.connected || !e.delivery.Prompt? || w.x.loseNextReply
    ensures var (w', f) := Dispatch(w, r, e);
            var a := w.t.runs[r].actions[k];
            && f.Fine? && r in w'.t.runs && k < |w'.t.runs[r].actions|
            && w'.t.runs[r].status.Blocked? && w'.t.runs[r].actions[k].status.ExecutionUnknown?
            && (a.id in w'.x.executions <==> w.x.connected && !e.delivery.RequestLost?)
  {
    DispatchSubmits(w.t, r, e.now, e.at, e.admissible, k);
    DispatchUnsent(w, r, e, k);
  }

  /** What is queued was never sent, and is where its id says, before and after the intent. */
  lemma DispatchUnsent(w: World, r: RunId, e: Launch, k: nat)
    requires Inv(w) && MustSubmit(w.t, r, e.now, e.admissible, k)
    ensures var run := w.t.runs[r];
            var a := run.actions[k];
            && a.id !in w.x.executions && a.key == a.id && a.executionId.None? && a.stopRequestedAt.None?
            && FindAction(run.actions, a.id) == k
            && FindAction(run.actions[k := a.(status := Submitting, submittedAt := Some(e.at),
                                              executionObservationId := Some(run.observation.id))], a.id) == k
  {
    var run := w.t.runs[r];
    var a := run.actions[k];
    assert RunOk(r, run) && ActionOk(r, run, a) && Linked(w, a);
    assert a.id in w.x.executions ==> ExecutionOk(w.x, a.id);
    WhereIs(w, r, k);
    FindSame(run.actions, run.actions[k := a.(status := Submitting, submittedAt := Some(e.at),
                                              executionObservationId := Some(run.observation.id))], a.id);
  }

  // ----- verify -----

  /** Completed in the current plan, and not verified yet. */
  predicate Unjudged(run: Run, a: Action) {
    a.planVersion == run.planVersion && a.status.Completed? && !a.verified
  }

  /** The verdict is about the run's current observation, which is valid and fresh and was made after all
      that it could be about; and a PASS is for the whole or for an action that awaits it. */
  predicate Recordable(run: Run, v: VerificationResult, now: Time) {
    && v.observationId == run.observation.id && v.observedAt == run.observation.observedAt
    && run.observation.valid && 0 <= now - v.observedAt <= run.budget.observationMaxAge
    && v.source == run.observation.source
    && (forall i :: 0 <= i < |run.actions| && Unjudged(run, run.actions[i]) ==>
          && run.actions[i].executionObservationId != Some(v.observationId)
          && (run.actions[i].finishedAt.Some? ==> run.actions[i].finishedAt.value <= v.observedAt))
    && (v.verdict.Pass? && v.checkpoint.AfterAction? ==>
          exists i :: 0 <= i < |run.actions| && run.actions[i].id == v.checkpoint.action
              && Unjudged(run, run.actions[i]))
  }

  /** No two actions of the stream have the same id. */
  predicate DistinctActions(run: Run) {
    forall i, j :: 0 <= i < j < |run.actions| ==> run.actions[i].id != run.actions[j].id
  }

  lemma ActionsAreDistinct(w: World, r: RunId)
    requires Inv(w) && r in w.t.runs
    ensures DistinctActions(w.t.runs[r])
  {
    var run := w.t.runs[r];
    assert RunOk(r, run);
    forall i, j | 0 <= i < j < |run.actions| ensures run.actions[i].id != run.actions[j].id {
      assert PairOk(run, i, j);
    }
  }

  /** A verdict is recorded if and only if it is recordable. */
  lemma VerifyRecordsIff(t: Tables, r: RunId, v: VerificationResult, now: Time)
    requires r in t.runs ==> DistinctActions(t.runs[r])
    ensures Verify(t, r, v, now).Committed? <==> r in t.runs && Recordable(t.runs[r], v, now)
  {
    if r in t.runs {
      CheckpointIff(t.runs[r], v);
      PredatesIff(t.runs[r], v);
    }
  }

  lemma CheckpointIff(run: Run, v: VerificationResult)
    requires DistinctActions(run)
    ensures KnownCheckpoint(run, v)
            <==> (v.verdict.Pass? && v.checkpoint.AfterAction? ==>
                    exists i :: 0 <= i < |run.actions| && run.actions[i].id == v.checkpoint.action
                        && Unjudged(run, run.actions[i]))
  {
    if v.checkpoint.AfterAction? {
      var k := FindAction(run.actions, v.checkpoint.action);
      assert k < |run.actions| ==> (AwaitsVerdict(run, run.actions[k]) <==> Unjudged(run, run.actions[k]));
      forall i | 0 <= i < |run.actions| && run.actions[i].id == v.checkpoint.action ensures i == k {
        FindIsAt(run.actions, i);
      }
    }
  }

  lemma PredatesIff(run: Run, v: VerificationResult)
    ensures !Predates(run, v)
            <==> forall i :: 0 <= i < |run.actions| && Unjudged(run, run.actions[i]) ==>
                   && run.actions[i].executionObservationId != Some(v.observationId)
                   && (run.actions[i].finishedAt.Some? ==> run.actions[i].finishedAt.value <= v.observedAt)
  {
    forall i | 0 <= i < |run.actions| ensures AwaitsVerdict(run, run.actions[i]) <==> Unjudged(run, run.actions[i]) {}
  }

  /** All of the current plan is completed and verified, up to what was invalidated. */
  predicate PlanIsDone(run: Run) {
    forall i :: 0 <= i < |run.actions| ==> !Unfinished(run, run.actions[i])
  }

  /** What a recorded verdict does: PASS on an action verifies that action and no other; PASS on the whole of
      a closed, unfrozen stream whose plan is done succeeds; anything but PASS is RECOVERING from every
      status. Nothing else changes. */
  lemma VerdictDecides(t: Tables, r: RunId, v: VerificationResult, now: Time)
    requires r in t.runs && DistinctActions(t.runs[r]) && Verify(t, r, v, now).Committed?
    ensures var run, t' := t.runs[r], Verify(t, r, v, now).value;
            && r in t'.runs
            && var run' := t'.runs[r];
               && t' == t.(runs := t.runs[r := run'], journal := t.journal + [VerificationLogged(r, v)])
               && run' == run.(status := run'.status, actions := run'.actions, verifications := run.verifications + [v])
               && |run'.actions| == |run.actions|
               && (forall i :: 0 <= i < |run.actions| ==>
                     run'.actions[i] == if v.verdict.Pass? && v.checkpoint == AfterAction(run.actions[i].id)
                                        then run.actions[i].(verified := true) else run.actions[i])
               && run'.status == (if !v.verdict.Pass? then Recovering
                                  else if v.checkpoint.Final? && run.closed && !run.frozen && PlanIsDone(run)
                                      then Succeeded
                                  else run.status)
  {
    var run := t.runs[r];
    if v.verdict.Pass? && v.checkpoint.AfterAction? {
      forall i | 0 <= i < |run.actions| && run.actions[i].id == v.checkpoint.action
        ensures FindAction(run.actions, v.checkpoint.action) == i
      {
        FindIsAt(run.actions, i);
      }
    }
    assert AllDone(run) <==> PlanIsDone(run);
  }

  // ----- observe, close, revise -----

  lemma ObserveDecides(t: Tables, r: RunId, o: Observation)
    ensures var run, out := if r in t.runs then Some(t.runs[r]) else None, Observe(t, r, o);
            if run.Some? && run.value.observation.worldVersion <= o.worldVersion
               && run.value.observation.observedAt <= o.observedAt
            then out == Committed(t.(runs := t.runs[r := run.value.(observation := o)],
                                     journal := t.journal + [ObservationLogged(r, o)]))
            else out.Raised?
  {}

  /** The stream closes at the number of its last action, in the current plan, unless it is frozen. */
  lemma CloseDecides(t: Tables, r: RunId, version: nat, last: int)
    ensures var out := Close(t, r, version, last);
            if r in t.runs && version == t.runs[r].planVersion && !t.runs[r].frozen
                && last == t.runs[r].nextSequence - 1
            then out == Committed(t.(runs := t.runs[r := t.runs[r].(closed := true)],
                                     journal := t.journal + [StreamClosed(r, last)]))
            else out.Raised?
  {}

  /** A frozen stream in which all is terminal is revised on any valid observation that is no older than
      the end of any action -- or than the run's creation, for an action without an end and for an empty
      stream; the new plan is open, unfrozen and READY, and keeps the actions of the old ones. */
  lemma ReviseDecides(t: Tables, r: RunId, version: nat, o: Observation)
    requires r in t.runs
    ensures var run, out := t.runs[r], Revise(t, r, version, o);
            if && version == run.planVersion && run.frozen && o.valid
               && (forall i :: 0 <= i < |run.actions| ==> Terminal(run.actions[i].status))
               && (run.actions == [] ==> run.createdAt <= o.observedAt)
               && (forall i :: 0 <= i < |run.actions| ==>
                     if run.actions[i].finishedAt.Some? && run.actions[i].finishedAt.value > 0
                     then run.actions[i].finishedAt.value <= o.observedAt else run.createdAt <= o.observedAt)
            then out == Committed(t.(runs := t.runs[r := run.(planVersion := run.planVersion + 1, nextSequence := 1,
                                                               closed := false, frozen := false, stopIntent := None,
                                                               observation := o, status := Ready)],
                                     journal := t.journal + [StreamRevised(r, run.planVersion + 1)]))
            else out.Raised?
  {}

  // ----- create and append -----

  /** A new run is READY for its first action, with nothing spent but the first observation. */
  lemma CreateStarts(t: Tables, r: RunId, budget: Budget, capabilities: map<ActionType, Capability>, o: Observation,
                     capacity: nat, at: Time)
    requires r !in t.runs
    ensures var out := Transact(t, DoCreate(r, budget, capabilities, o, capacity, at));
            && out.Committed? && out.value.resources == t.resources && out.value.received == t.received
            && out.value.journal == t.journal + [RunCreated(r)]
            && r in out.value.runs && out.value.runs == t.runs[r := out.value.runs[r]]
            && var run := out.value.runs[r];
               && run.budget == budget && run.capabilities == capabilities && run.observation == o
               && run.capacity == capacity && run.createdAt == at
               && run.planVersion == 1 && run.nextSequence == 1 && run.actions == [] && run.verifications == []
               && !run.closed && !run.frozen && run.stopIntent.None? && run.status.Ready?
               && run.book == Book(Unbound, None, 0, 0, 0, 0, 1)
  {}

  /** What the registry demands of a proposal when it is appended. */
  predicate Proposable(run: Run, d: Draft) {
    && d.proposal.actionType in run.capabilities && d.admissible
    && run.observation.valid && d.proposal.observationId == run.observation.id
    && 0 <= d.now - run.observation.observedAt <= run.budget.observationMaxAge
  }

  /** A proposal that was queued: numbered, keyed by its own id, never sent. */
  predicate QueuedFrom(run: Run, r: RunId, d: Draft, sequence: nat, a: Action) {
    && d.proposal.actionType in run.capabilities
    && a.runId == r && a.planVersion == run.planVersion && a.id == d.id && a.key == d.id && a.sequence == sequence
    && a.proposal == d.proposal && a.resources == run.capabilities[d.proposal.actionType].resources
    && a.timeoutSeconds == run.budget.actionSeconds && a.status.Queued? && !a.verified && a.lastEventSequence == -1
    && a.executionId.None? && a.executionObservationId.None? && a.submittedAt.None? && a.finishedAt.None?
    && a.stopRequestedAt.None? && a.stopReason.None?
  }

  /** The stream, and behind it the proposals in their order. */
  ghost predicate QueuedBehind(run: Run, r: RunId, drafts: seq<Draft>, run': Run)
    requires forall i :: 0 <= i < |drafts| ==> Proposable(run, drafts[i])
  {
    && run' == run.(actions := run'.actions, nextSequence := run.nextSequence + |drafts|)
    && |run'.actions| == |run.actions| + |drafts| && run'.actions[..|run.actions|] == run.actions
    && forall i :: 0 <= i < |drafts| ==>
         QueuedFrom(run, r, drafts[i], run.nextSequence + i, run'.actions[|run.actions| + i])
  }

  lemma {:induction false} ProposablesQueue(run: Run, r: RunId, drafts: seq<Draft>)
    requires forall i :: 0 <= i < |drafts| ==> Proposable(run, drafts[i])
    ensures AppendAll(run, r, drafts).Committed? && QueuedBehind(run, r, drafts, AppendAll(run, r, drafts).value)
    decreases |drafts|
  {
    if drafts != [] {
      var n := |drafts| - 1;
      ProposablesQueue(run, r, drafts[..n]);
      var before := AppendAll(run, r, drafts[..n]).value;
      var after := AppendAll(run, r, drafts).value;
      assert after.actions == before.actions + [NewAction(before, r, drafts[n])];
      forall i | 0 <= i < |drafts|
        ensures QueuedFrom(run, r, drafts[i], run.nextSequence + i, after.actions[|run.actions| + i])
      {
        assert i < n ==> drafts[..n][i] == drafts[i];
        assert i < n ==> after.actions[|run.actions| + i] == before.actions[|run.actions| + i];
      }
      assert after.actions[..|run.actions|] == before.actions[..|run.actions|];
    }
  }

  lemma {:induction false} QueuedWereProposable(run: Run, r: RunId, drafts: seq<Draft>)
    requires AppendAll(run, r, drafts).Committed?
    ensures forall i :: 0 <= i < |drafts| ==> Proposable(run, drafts[i])
    decreases |drafts|
  {
    if drafts != [] {
      var n := |drafts| - 1;
      QueuedWereProposable(run, r, drafts[..n]);
      AppendAllShape(run, r, drafts[..n]);
      assert Proposable(run, drafts[n]);
      forall i | 0 <= i < |drafts| ensures Proposable(run, drafts[i]) {
        assert i < n ==> drafts[..n][i] == drafts[i];
      }
    }
  }

  /** The stream takes these proposals, all of them. */
  predicate StreamTakes(t: Tables, r: RunId, version: nat, drafts: seq<Draft>) {
    && drafts != [] && r in t.runs
    && var run := t.runs[r];
       && version == run.planVersion && !run.closed && !run.frozen
       && !run.status.Succeeded? && !run.status.TaskFailed? && !run.status.TaskCanceled?
       && Open(run.actions) + |drafts| <= run.capacity
       && forall i :: 0 <= i < |drafts| ==> Proposable(run, drafts[i])
  }

  /** An append commits if and only if the stream takes all of its proposals. */
  lemma AppendQueuesIff(t: Tables, r: RunId, version: nat, drafts: seq<Draft>, call: Option<CallId>)
    ensures Append(t, r, version, drafts, call).Committed? <==> StreamTakes(t, r, version, drafts)
  {
    if r in t.runs {
      if StreamTakes(t, r, version, drafts) { ProposablesQueue(t.runs[r], r, drafts); }
      if AppendAll(t.runs[r], r, drafts).Committed? { QueuedWereProposable(t.runs[r], r, drafts); }
    }
  }

  /** It queues them in order behind the stream, and binds the call, if there is one, to the last of them. */
  lemma AppendQueues(t: Tables, r: RunId, version: nat, drafts: seq<Draft>, call: Option<CallId>)
    requires StreamTakes(t, r, version, drafts)
    ensures var out := Append(t, r, version, drafts, call);
            && out.Committed? && r in out.value.runs
            && var run, run' := t.runs[r], out.value.runs[r];
               && out.value == t.(runs := t.runs[r := run'],
                    journal := t.journal + [ActionsAccepted(r, version, |drafts|)])
               && QueuedBehind(run, r, drafts, run'.(book := run.book))
               && run'.book == if call.None? then run.book
                               else run.book.(binding := BoundTo(call.value, drafts[|drafts| - 1].id))
  {
    ProposablesQueue(t.runs[r], r, drafts);
    var run' := AppendAll(t.runs[r], r, drafts).value;
    assert run'.actions[|run'.actions| - 1] == run'.actions[|t.runs[r].actions| + (|drafts| - 1)];
  }

  // ----- unknown, snapshots, events -----

  /** The action at this position, and no other, is rewritten, and the status of the task. */
  predicate Rewritten(run: Run, k: nat, a: Action, status: TaskStatus, run': Run)
    requires k < |run.actions|
  {
    run' == run.(actions := run.actions[k := a], status := status)
  }

  /** An action that is not terminal becomes unknown and blocks the run; a terminal one stays. */
  lemma UnknownDecides(t: Tables, r: RunId, k: nat)
    requires r in t.runs && k < |t.runs[r].actions| && FindAction(t.runs[r].actions, t.runs[r].actions[k].id) == k
    ensures var run, a := t.runs[r], t.runs[r].actions[k];
            var out := MarkUnknown(t, r, a.id);
            && out.Committed?
            && if Terminal(a.status) then out.value == t
               else && out.value == t.(runs := out.value.runs, journal := t.journal + [UnknownLogged(r, a.id)])
                    && r in out.value.runs && out.value.runs == t.runs[r := out.value.runs[r]]
                    && Rewritten(run, k, a.(status := ExecutionUnknown), Blocked, out.value.runs[r])
  {}

  /** A snapshot of another key or execution, or a terminal one without its event, is refused; any other one
      gives the action its execution id, and a running one makes a live action RUNNING, or STOPPING once
      a stop was requested, and unblocks the run. */
  lemma AcceptDecides(t: Tables, r: RunId, k: nat, s: Snapshot)
    requires r in t.runs && k < |t.runs[r].actions| && FindAction(t.runs[r].actions, t.runs[r].actions[k].id) == k
    ensures var run, a := t.runs[r], t.runs[r].actions[k];
            var out := Accept(t, r, a.id, s);
            && (out.Committed? <==>
                  && s.key == a.key && (a.executionId.None? || a.executionId == Some(s.executionId))
                  && (Terminal(s.status) && !Terminal(a.status) ==> s.lastEvent.Some?))
            && (out.Committed? ==>
                  && r in out.value.runs && out.value == t.(runs := t.runs[r := out.value.runs[r]])
                  && Rewritten(run, k,
                       a.(executionId := Some(s.executionId),
                          status := if Terminal(a.status) || Terminal(s.status) then a.status
                                    else if a.stopRequestedAt.Some? then Stopping else Running),
                       if run.status.Blocked? && !Terminal(a.status) && !Terminal(s.status) then Executing
                           else run.status,
                       out.value.runs[r]))
  {}

  /** Stale for its action: not newer than the last event, or after its end. */
  predicate Stale(a: Action, ev: Event) {
    ev.sequence <= a.lastEventSequence || Terminal(a.status)
  }

  /** An event applies if and only if it names an action of the ledger with its plan and execution, and does
      not contradict an event of the same id. */
  lemma EventAppliesIff(t: Tables, ev: Event)
    ensures Apply(t, ev).Committed?
            <==> && ev.runId in t.runs
                 && var actions := t.runs[ev.runId].actions;
                    var k := FindAction(actions, ev.actionId);
                    && k < |actions| && actions[k].planVersion == ev.planVersion
                    && actions[k].executionId == Some(ev.executionId)
                    && ((ev.runId, ev.id) in t.received ==> t.received[(ev.runId, ev.id)] == ev)
  {}

  /** What an event that applies does. Received before: nothing. Stale: it is noted. Otherwise its mark is
      recorded, and a stopped ending ends the action at its time and frees its locks and, in the current
      plan, makes the task VERIFYING or RECOVERING; an unstopped ending is unknown and blocks; a running
      report reads RUNNING, or STOPPING once a stop was requested. */
  lemma EventDecides(t: Tables, ev: Event, k: nat)
    requires Apply(t, ev).Committed? && k == FindAction(t.runs[ev.runId].actions, ev.actionId)
    ensures k < |t.runs[ev.runId].actions|
    ensures var run, a, t' := t.runs[ev.runId], t.runs[ev.runId].actions[k], Apply(t, ev).value;
            if (ev.runId, ev.id) in t.received then t' == t
            else
              && t'.received == t.received[(ev.runId, ev.id) := ev]
                   && t'.journal == t.journal + [EventLogged(ev.runId, ev)]
              && if Stale(a, ev) then t'.runs == t.runs && t'.resources == t.resources
                 else
                   && ev.runId in t'.runs && t'.runs == t.runs[ev.runId := t'.runs[ev.runId]]
                   && EventRewrites(run, k, ev, t'.runs[ev.runId])
                   && t'.resources == (if Ends(ev) then map x | x in t.resources && t.resources[x] != a.id ::
                        t.resources[x]
                                       else t.resources)
  {}

  /** A report that the execution ended and stopped. */
  predicate Ends(ev: Event) {
    (ev.status.Completed? || ev.status.Failed? || ev.status.Canceled? || ev.status.TimedOut?) && ev.stopped
  }

  predicate EventRewrites(run: Run, k: nat, ev: Event, run': Run)
    requires k < |run.actions|
  {
    var a := run.actions[k].(lastEventSequence := ev.sequence);
    if Ends(ev) then
      Rewritten(run, k, a.(status := ev.status, finishedAt := Some(ev.occurredAt)),
                if a.planVersion != run.planVersion then run.status
                else if ev.status.Completed? then Verifying else Recovering, run')
    else if Terminal(ev.status) then Rewritten(run, k, a.(status := ExecutionUnknown), Blocked, run')
    else if ev.status.Running? then
      Rewritten(run, k, a.(status := if a.stopRequestedAt.Some? then Stopping else Running), run.status, run')
    else Rewritten(run, k, a, run.status, run')
  }

  // ----- freeze and settle -----

  /** A stop request freezes the stream for its reason: what is queued is invalidated, what is in flight reads
      STOPPING for that reason since its first stop request, what is terminal stays; no lock is freed. */
  lemma FreezeDecides(t: Tables, r: RunId, reason: StopReason, now: Clock)
    requires r in t.runs
    ensures var run, out := t.runs[r], Freeze(t, r, reason, now);
            && out.Committed? && r in out.value.runs
            && var run' := out.value.runs[r];
               && out.value == t.(runs := t.runs[r := run'], journal := t.journal + [StopRequested(r, reason)])
               && run' == run.(frozen := true, stopIntent := Some(reason), actions := run'.actions)
               && |run'.actions| == |run.actions|
               && forall i :: 0 <= i < |run.actions| ==>
                    var a := run.actions[i];
                    run'.actions[i] ==
                      if a.status.Queued? then a.(status := Invalidated)
                      else if Terminal(a.status) then a
                      else a.(status := Stopping, stopReason := Some(reason),
                              stopRequestedAt := if a.stopRequestedAt.Some? then a.stopRequestedAt else Some(now(a.id)))
  {}

  /** A stop request that is older than the limit, of an action that has not ended. */
  predicate Unconfirmed(a: Action, limit: nat, now: Time) {
    !Terminal(a.status) && a.stopRequestedAt.Some? && now - a.stopRequestedAt.value >= limit
  }

  /** The end of a tick: exactly the unconfirmed stop requests become unknown, and block the run; a run that
      is stopping with everything terminal is CANCELED after a cancel, RECOVERING after a replan and FAILED
      otherwise. Nothing else changes. */
  lemma SettleDecides(t: Tables, r: RunId, now: Clock)
    requires r in t.runs
    ensures var run, out := t.runs[r], Settle(t, r, now);
            && out.Committed? && r in out.value.runs && out.value == t.(runs := t.runs[r := out.value.runs[r]])
            && var run' := out.value.runs[r];
               && run' == run.(status := run'.status, actions := run'.actions) && |run'.actions| == |run.actions|
               && (forall i :: 0 <= i < |run.actions| ==>
                     run'.actions[i] == if Unconfirmed(run.actions[i], run.budget.stopSeconds, now(run.actions[i].id))
                                        then run.actions[i].(status := ExecutionUnknown) else run.actions[i])
               && run'.status ==
                    if run.stopIntent.Some? && (forall i :: 0 <= i < |run.actions| ==> Terminal(run.actions[i].status))
                    then (if run.stopIntent.value.Cancel? then TaskCanceled
                          else if run.stopIntent.value.Replan? then Recovering else TaskFailed)
                    else if exists i :: 0 <= i < |run.actions|
                                        && Unconfirmed(run.actions[i], run.budget.stopSeconds, now(run.actions[i].id))
                    then Blocked else run.status
  {
    var run := t.runs[r];
    var run' := Settled(run, now);
    forall i | 0 <= i < |run.actions|
      ensures Overdue(run.actions[i], run.budget.stopSeconds, now(run.actions[i].id))
              <==> Unconfirmed(run.actions[i], run.budget.stopSeconds, now(run.actions[i].id))
      ensures run'.actions[i] == Expire(run.actions[i], run.budget.stopSeconds, now(run.actions[i].id))
    {}
    assert AllTerminal(run'.actions) <==> forall i :: 0 <= i < |run.actions| ==> Terminal(run.actions[i].status);
  }
}
