/** The guarantees of the durable protocol, over every run of any number of streams, the executor,
    the lossy, duplicating and reordering network, and crashes anywhere. */
module Safety {
  import opened Contracts
  import opened Transactions
  import opened Executors
  import opened Protocol
  import opened Preservation
  import opened Histories

  // ----- the executor against the ledger -----

  /** The ledger's action behind an execution is in flight as long as the execution is live. */
  lemma LiveIsInFlight(w: World, k: ActionId)
    requires Inv(w) && k in w.x.executions && Live(w.x.executions[k])
    ensures k in w.issued && ActionOf(w, k).id == k && Locatable(w, k)
    ensures var a := ActionOf(w, k); SameIntent(w.x.executions[k].action, a) && InFlight(a.status) && Linked(w, a)
    ensures w.x.executions[k].action.runId == w.issued[k]
  {
    IssuedIsLinked(w, k);
    assert ExecutionOk(w.x, k);
  }

  lemma NotBothInFlight(r: RunId, run: Run, i: nat, j: nat)
    requires RunOk(r, run) && i < j < |run.actions|
    ensures !InFlight(run.actions[i].status) || !InFlight(run.actions[j].status)
  {
    assert PairOk(run, i, j) && ActionOk(r, run, run.actions[i]) && ActionOk(r, run, run.actions[j]);
  }

  /** At most one action of a run is in flight. */
  lemma OneInFlight(r: RunId, run: Run, i: nat, j: nat)
    requires RunOk(r, run) && i < |run.actions| && j < |run.actions|
    requires InFlight(run.actions[i].status) && InFlight(run.actions[j].status)
    ensures i == j
  {
    if i < j { NotBothInFlight(r, run, i, j); }
    if j < i { NotBothInFlight(r, run, j, i); }
  }

  /** Two executions that may still move never share a resource and never belong to one run. */
  lemma PhysicalExclusion(ls: seq<Label>, k: ActionId, m: ActionId)
    requires Legal(INITIAL, ls)
    requires var x := Play(INITIAL, ls).x;
             k != m && k in x.executions && m in x.executions && Live(x.executions[k]) && Live(x.executions[m])
    ensures var x := Play(INITIAL, ls).x;
            && x.executions[k].action.runId != x.executions[m].action.runId
            && forall res :: res in x.executions[k].action.resources ==> res !in x.executions[m].action.resources
  {
    var w := Play(INITIAL, ls);
    EveryRunIsSafe(ls);
    LiveIsInFlight(w, k);
    LiveIsInFlight(w, m);
    var a, b := ActionOf(w, k), ActionOf(w, m);
    if w.issued[k] == w.issued[m] {
      var run := w.t.runs[w.issued[k]];
      assert RunOk(w.issued[k], run);
      OneInFlight(w.issued[k], run, FindAction(run.actions, k), FindAction(run.actions, m));
    }
    forall res | res in a.resources ensures res !in b.resources {
      assert Owns(w.t.resources, res, k);
      assert res in b.resources ==> Owns(w.t.resources, res, m);
    }
  }

  /** Whatever the ledger records as finished the executor reports finished and stopped, with the
      same status and execution, now and ever after; what it records as invalidated never starts. */
  lemma LedgerNeverOutrunsExecutor(ls: seq<Label>, more: seq<Label>, r: RunId, i: nat)
    requires Legal(INITIAL, ls) && Legal(Play(INITIAL, ls), more)
    requires r in Play(INITIAL, ls).t.runs && i < |Play(INITIAL, ls).t.runs[r].actions|
    ensures var w, later := Play(INITIAL, ls), Play(Play(INITIAL, ls), more);
            var a := w.t.runs[r].actions[i];
            && (Finished(a.status) ==>
                  && a.id in later.x.executions
                  && later.x.executions[a.id].snapshot.status == a.status
                  && later.x.executions[a.id].snapshot.stopped
                  && Some(later.x.executions[a.id].snapshot.executionId) == a.executionId)
            && (a.status.Invalidated? ==> a.id !in later.x.executions && a.id !in later.x.submits)
            && (Terminal(a.status) ==> r in later.t.runs && i < |later.t.runs[r].actions|
                                       && later.t.runs[r].actions[i].id == a.id
                                       && later.t.runs[r].actions[i].status == a.status)
  {
    var w := Play(INITIAL, ls);
    var later := Play(w, more);
    EveryRunIsSafe(ls);
    PlayKeeps(w, more);
    var a := w.t.runs[r].actions[i];
    assert r in later.t.runs;
    var b := later.t.runs[r].actions[i];
    assert Evolves(a, b) && Linked(w, a) && Linked(later, b);
    if a.id in later.x.executions {
      assert ExecutionOk(later.x, a.id);
    }
  }

  /** Every action is sent to the executor at most once, every execution stems from one dispatched
      action, and no two actions share an execution id. */
  lemma AtMostOnceStart(ls: seq<Label>)
    requires Legal(INITIAL, ls)
    ensures var w := Play(INITIAL, ls);
            && (forall i, j :: 0 <= i < j < |w.x.submits| ==> w.x.submits[i] != w.x.submits[j])
            && (forall k :: k in w.x.executions <==> k in w.x.submits)
            && (forall k :: k in w.x.executions ==> DispatchedOnce(w, k))
            && (forall r, q, i: nat, j: nat :: SameExecution(w, r, i, q, j) ==> r == q && i == j)
  {
    var w := Play(INITIAL, ls);
    EveryRunIsSafe(ls);
    forall k | k in w.x.executions ensures k in w.x.submits && DispatchedOnce(w, k) {
      assert ExecutionOk(w.x, k);
      IssuedIsLinked(w, k);
      var r := w.issued[k];
      var i := FindAction(w.t.runs[r].actions, k);
      assert w.t.runs[r].actions[i] == ActionOf(w, k) && RunOk(r, w.t.runs[r]);
      assert NamedAt(w, k, r, i);
      forall q, j: nat | NamedAt(w, k, q, j) ensures q == r && j == i {
        WhereIs(w, q, j);
      }
    }
    forall r, q, i: nat, j: nat | SameExecution(w, r, i, q, j) ensures r == q && i == j {
      var a, b := w.t.runs[r].actions[i], w.t.runs[q].actions[j];
      assert Linked(w, a) && Linked(w, b) && DistinctExecutions(w.x, a.id, b.id);
      WhereIs(w, r, i);
      WhereIs(w, q, j);
    }
  }

  /** Two positions of the ledger record the same execution id. */
  ghost predicate SameExecution(w: World, r: RunId, i: nat, q: RunId, j: nat) {
    && r in w.t.runs && i < |w.t.runs[r].actions| && q in w.t.runs && j < |w.t.runs[q].actions|
    && w.t.runs[r].actions[i].executionId.Some?
    && w.t.runs[r].actions[i].executionId == w.t.runs[q].actions[j].executionId
  }

  ghost predicate NamedAt(w: World, k: ActionId, r: RunId, i: nat) {
    r in w.t.runs && i < |w.t.runs[r].actions| && w.t.runs[r].actions[i].id == k
  }

  /** Exactly one action of the ledger has this key, and its dispatch was recorded. */
  ghost predicate DispatchedOnce(w: World, k: ActionId) {
    exists r, i: nat :: NamedAt(w, k, r, i)
      && w.t.runs[r].actions[i].submittedAt.Some?
      && forall q, j: nat :: NamedAt(w, k, q, j) ==> q == r && j == i
  }

  // ----- locks -----

  /** A resource row exists exactly for each resource of each action in flight, over all runs. */
  lemma ExactLockTable(ls: seq<Label>, x: Resource, o: ActionId)
    requires Legal(INITIAL, ls)
    ensures var w := Play(INITIAL, ls);
            Owns(w.t.resources, x, o) <==>
              exists r, i: nat :: NamedAt(w, o, r, i) && InFlight(w.t.runs[r].actions[i].status)
                  && x in w.t.runs[r].actions[i].resources
  {
    var w := Play(INITIAL, ls);
    EveryRunIsSafe(ls);
    if Owns(w.t.resources, x, o) {
      IssuedIsLinked(w, o);
      var r := w.issued[o];
      var i := FindAction(w.t.runs[r].actions, o);
      assert NamedAt(w, o, r, i);
    }
    if r, i: nat :|
      NamedAt(w, o, r, i) && InFlight(w.t.runs[r].actions[i].status) && x in w.t.runs[r].actions[i].resources
    {
      assert Linked(w, w.t.runs[r].actions[i]);
    }
  }

  /** Only the delivery of a stopped, finished report of its owner frees a lock. */
  lemma OnlyStoppedReportsFree(w: World, l: Label, x: Resource, o: ActionId)
    requires Inv(w) && Enabled(w, l)
    requires Owns(w.t.resources, x, o) && !Owns(Perform(w, l).t.resources, x, o)
    ensures l.DoDeliver? && l.event.actionId == o && Conclusive(l.event)
    ensures o in w.x.executions && !Live(w.x.executions[o])
  {
    if l.DoIntent? {
      var o' := Intent(w.t, l.r, l.now, l.at, l.admissible);
      if o'.Committed? && o'.value.1.Some? {
        AcquireKeeps(w.t.resources, o'.value.1.value.resources, o'.value.1.value.id, x);
      }
    } else if l.DoDeliver? {
      assert EventOk(w.x, l.event) && ExecutionOk(w.x, l.event.actionId);
    }
  }

  lemma {:induction false} AcquireKeeps(rows: map<Resource, ActionId>, wanted: seq<Resource>, owner: ActionId,
      x: Resource)
    requires x in rows && Acquire(rows, wanted, owner).Committed?
    ensures x in Acquire(rows, wanted, owner).value && Acquire(rows, wanted, owner).value[x] == rows[x]
    decreases |wanted|
  {
    if wanted != [] {
      AcquireKeeps(rows, wanted[..|wanted| - 1], owner, x);
    }
  }

  // ----- the stream of one run -----

  /** Done actions, then at most one of any status, then only queued ones -- or, once frozen, only
      invalidated ones. */
  lemma SerialFrontier(ls: seq<Label>, r: RunId, i: nat, j: nat)
    requires Legal(INITIAL, ls) && r in Play(INITIAL, ls).t.runs
    requires i < j < |Play(INITIAL, ls).t.runs[r].actions|
    requires Play(INITIAL, ls).t.runs[r].actions[i].planVersion == Play(INITIAL, ls).t.runs[r].planVersion
    ensures var run := Play(INITIAL, ls).t.runs[r];
            && run.actions[j].planVersion == run.planVersion
            && (Done(run.actions[i]) || run.actions[j].status == if run.frozen then Invalidated else Queued)
  {
    EveryRunIsSafe(ls);
    var run := Play(INITIAL, ls).t.runs[r];
    assert RunOk(r, run) && PairOk(run, i, j) && ActionOk(r, run, run.actions[j]);
  }

  /** What is dispatched: the first action of the current plan that is not done, with nothing else
      of the run in flight, and with all of its resources free until then. */
  lemma DispatchOrder(w: World, r: RunId, now: Time, at: Time, admissible: bool)
    requires Inv(w)
    requires Intent(w.t, r, now, at, admissible).Committed? && Intent(w.t, r, now, at, admissible).value.1.Some?
    ensures var run, a := w.t.runs[r], Intent(w.t, r, now, at, admissible).value.1.value;
            var k := FindAction(run.actions, a.id);
            && k < |run.actions| && run.actions[k].status.Queued? && a == Intended(run, run.actions[k], at)
            && (forall i :: 0 <= i < k ==> run.actions[i].planVersion < run.planVersion || Done(run.actions[i]))
            && (forall i :: 0 <= i < |run.actions| ==> !InFlight(run.actions[i].status))
            && (forall x :: x in a.resources ==> x !in w.t.resources)
            && !run.frozen && run.observation.valid
            && 0 <= now - run.observation.observedAt <= run.budget.observationMaxAge
  {
    var run, a := w.t.runs[r], Intent(w.t, r, now, at, admissible).value.1.value;
    var k := NextAction(run, 0);
    WhereIs(w, r, k);
    assert RunOk(r, run);
    forall i | 0 <= i < |run.actions|
      ensures !InFlight(run.actions[i].status)
      ensures i < k ==> run.actions[i].planVersion < run.planVersion || Done(run.actions[i])
    {
      assert ActionOk(r, run, run.actions[i]);
      if k < i {
        assert PairOk(run, k, i);
      }
    }
    AcquireNeedsFree(w.t.resources, a.resources, a.id);
  }

  lemma AcquireNeedsFree(rows: map<Resource, ActionId>, wanted: seq<Resource>, owner: ActionId)
    requires Acquire(rows, wanted, owner).Committed?
    ensures forall x :: x in wanted ==> x !in rows
    ensures forall i, j :: 0 <= i < j < |wanted| ==> wanted[i] != wanted[j]
    ensures Acquire(rows, wanted, owner).value.Keys == rows.Keys + (set x | x in wanted)
  {
    AcquiredWereFree(rows, wanted, owner);
    AcquiredAreDistinct(rows, wanted, owner);
    AcquiredAreHeld(rows, wanted, owner);
  }

  lemma {:induction false} AcquiredWereFree(rows: map<Resource, ActionId>, wanted: seq<Resource>, owner: ActionId)
    requires Acquire(rows, wanted, owner).Committed?
    ensures forall x :: x in wanted ==> x !in rows
    decreases |wanted|
  {
    if wanted != [] {
      var n := |wanted| - 1;
      AcquiredWereFree(rows, wanted[..n], owner);
      AcquiredAreHeld(rows, wanted[..n], owner);
      assert wanted == wanted[..n] + [wanted[n]];
    }
  }

  lemma {:induction false} AcquiredAreDistinct(rows: map<Resource, ActionId>, wanted: seq<Resource>, owner: ActionId)
    requires Acquire(rows, wanted, owner).Committed?
    ensures forall i, j :: 0 <= i < j < |wanted| ==> wanted[i] != wanted[j]
    decreases |wanted|
  {
    if wanted != [] {
      var n := |wanted| - 1;
      AcquiredAreDistinct(rows, wanted[..n], owner);
      AcquiredAreHeld(rows, wanted[..n], owner);
      forall i, j | 0 <= i < j < |wanted| ensures wanted[i] != wanted[j] {
        assert wanted[i] == wanted[..n][i] && wanted[i] in wanted[..n];
        assert j < n ==> wanted[j] == wanted[..n][j];
      }
    }
  }

  lemma {:induction false} AcquiredAreHeld(rows: map<Resource, ActionId>, wanted: seq<Resource>, owner: ActionId)
    requires Acquire(rows, wanted, owner).Committed?
    ensures Acquire(rows, wanted, owner).value.Keys == rows.Keys + (set x | x in wanted)
    decreases |wanted|
  {
    if wanted != [] {
      var n := |wanted| - 1;
      AcquiredAreHeld(rows, wanted[..n], owner);
      assert wanted == wanted[..n] + [wanted[n]];
      assert (set x | x in wanted) == (set x | x in wanted[..n]) + {wanted[n]};
    }
  }

  /** A finished task has nothing left to do or to hold; a blocked one has exactly one action in
      flight. */
  lemma StatusTellsTheTruth(ls: seq<Label>, r: RunId)
    requires Legal(INITIAL, ls) && r in Play(INITIAL, ls).t.runs
    ensures var w := Play(INITIAL, ls);
            var run := w.t.runs[r];
            && (Over(run.status) ==>
                  && AllTerminal(run.actions)
                  && forall x, i :: 0 <= i < |run.actions| ==> !Owns(w.t.resources, x, run.actions[i].id))
            && (run.status.Blocked? ==>
                  exists i :: 0 <= i < |run.actions| && InFlight(run.actions[i].status)
                    && forall j :: 0 <= j < |run.actions| && InFlight(run.actions[j].status) ==> j == i)
  {
    var w := Play(INITIAL, ls);
    var run := w.t.runs[r];
    EveryRunIsSafe(ls);
    assert RunOk(r, run);
    forall i | 0 <= i < |run.actions| ensures ActionOk(r, run, run.actions[i]) && Linked(w, run.actions[i]) {}
    if run.status.Blocked? {
      var i :| 0 <= i < |run.actions| && InFlight(run.actions[i].status);
      forall j | 0 <= j < |run.actions| && InFlight(run.actions[j].status) ensures j == i {
        OneInFlight(r, run, i, j);
      }
    }
  }

  /** How many actions of a plan stand before a position. */
  function PlanCount(actions: seq<Action>, n: nat, plan: nat): nat
    requires n <= |actions|
  {
    if n == 0 then 0 else PlanCount(actions, n - 1, plan) + if actions[n - 1].planVersion == plan then 1 else 0
  }

  lemma {:induction false} NumberedByRank(r: RunId, run: Run, n: nat, plan: nat)
    requires RunOk(r, run) && n <= |run.actions|
    requires n < |run.actions| ==> run.actions[n].planVersion == plan
    requires n == |run.actions| ==> plan == run.planVersion
    ensures PlanCount(run.actions, n, plan) + 1
            == if n < |run.actions| then run.actions[n].sequence else run.nextSequence
    decreases n
  {
    if n < |run.actions| {
      assert run.actions[n].sequence == ExpectedSequence(run.actions, n);
    }
    if n > 0 {
      if run.actions[n - 1].planVersion == plan {
        NumberedByRank(r, run, n - 1, plan);
      } else {
        NoneBefore(r, run, n, plan);
      }
    }
  }

  lemma NoneBefore(r: RunId, run: Run, n: nat, plan: nat)
    requires RunOk(r, run) && 0 < n <= |run.actions| && run.actions[n - 1].planVersion != plan
    requires n < |run.actions| ==> run.actions[n].planVersion == plan
    requires n == |run.actions| ==> plan == run.planVersion
    ensures PlanCount(run.actions, n, plan) == 0
  {
    assert ActionOk(r, run, run.actions[n - 1]);
    assert n < |run.actions| ==> PairOk(run, n - 1, n);
    forall i | 0 <= i < n ensures run.actions[i].planVersion < plan {
      assert i < n - 1 ==> PairOk(run, i, n - 1);
    }
    CountIsZero(run.actions, n, plan);
  }

  lemma {:induction false} CountIsZero(actions: seq<Action>, n: nat, plan: nat)
    requires n <= |actions| && forall i :: 0 <= i < n ==> actions[i].planVersion != plan
    ensures PlanCount(actions, n, plan) == 0
    decreases n
  {
    if n > 0 { CountIsZero(actions, n - 1, plan); }
  }

  /** Plans follow one another along the stream, each action is numbered by its rank in its plan,
      and the load never exceeds the capacity. */
  lemma StreamLayout(ls: seq<Label>, r: RunId)
    requires Legal(INITIAL, ls) && r in Play(INITIAL, ls).t.runs
    ensures var run := Play(INITIAL, ls).t.runs[r];
            && (forall i, j :: 0 <= i < j < |run.actions| ==> run.actions[i].planVersion <= run.actions[j].planVersion)
            && (forall i :: 0 <= i < |run.actions| ==>
                  run.actions[i].sequence == PlanCount(run.actions, i, run.actions[i].planVersion) + 1)
            && run.nextSequence == PlanCount(run.actions, |run.actions|, run.planVersion) + 1
            && Open(run.actions) <= run.capacity
  {
    EveryRunIsSafe(ls);
    var run := Play(INITIAL, ls).t.runs[r];
    assert RunOk(r, run);
    forall i, j | 0 <= i < j < |run.actions| ensures run.actions[i].planVersion <= run.actions[j].planVersion {
      assert PairOk(run, i, j);
    }
    forall i | 0 <= i < |run.actions|
      ensures run.actions[i].sequence == PlanCount(run.actions, i, run.actions[i].planVersion) + 1
    {
      NumberedByRank(r, run, i, run.actions[i].planVersion);
    }
    NumberedByRank(r, run, |run.actions|, run.planVersion);
  }

  // ----- success -----

  /** The verdict is about the run's current observation, which is valid and not too old. */
  predicate OnCurrentEvidence(run: Run, v: VerificationResult, now: Time) {
    && v.observationId == run.observation.id && v.observedAt == run.observation.observedAt
    && v.source == run.observation.source && run.observation.valid
    && 0 <= now - run.observation.observedAt <= run.budget.observationMaxAge
  }

  /** The only step into SUCCEEDED is a PASS verdict on the whole task, on the run's current observation,
      valid and fresh, and no older than the end of any action the run ever executed, over all its
      plans. */
  lemma SuccessPostdatesAllWork(w: World, l: Label, r: RunId)
    requires Inv(w) && Enabled(w, l) && r in w.t.runs
    requires !w.t.runs[r].status.Succeeded? && Perform(w, l).t.runs[r].status.Succeeded?
    ensures l.DoVerify? && l.r == r && l.result.verdict.Pass? && l.result.checkpoint.Final?
    ensures w.t.runs[r].closed && !w.t.runs[r].frozen
    ensures OnCurrentEvidence(w.t.runs[r], l.result, l.now)
    ensures forall i :: 0 <= i < |w.t.runs[r].actions| ==>
              var a := w.t.runs[r].actions[i];
              && (a.submittedAt.Some? ==> a.finishedAt.Some? && a.finishedAt.value <= l.result.observedAt)
              && (a.planVersion == w.t.runs[r].planVersion ==> Done(a))
  {
    assert Transact(w.t, l).Committed? && Perform(w, l).t == Transact(w.t, l).value;
    OnlyVerifySucceeds(w.t, l, r);
    assert RunOk(r, w.t.runs[r]);
    DoneWorkIsPast(r, w.t.runs[r]);
  }

  /** With everything of the current plan done, all that was ever sent ended before the observation. */
  lemma DoneWorkIsPast(r: RunId, run: Run)
    requires RunOk(r, run) && AllDone(run) && !run.frozen
    ensures forall i :: 0 <= i < |run.actions| ==>
              var a := run.actions[i];
              && (a.submittedAt.Some? ==> a.finishedAt.Some? && a.finishedAt.value <= run.observation.observedAt)
              && (a.planVersion == run.planVersion ==> Done(a))
  {
    forall i | 0 <= i < |run.actions|
      ensures var a := run.actions[i];
              && (a.submittedAt.Some? ==> a.finishedAt.Some? && a.finishedAt.value <= run.observation.observedAt)
              && (a.planVersion == run.planVersion ==> Done(a))
    {
      assert ActionOk(r, run, run.actions[i]);
      assert !Awaits(run, run.actions[i]);
    }
  }

  lemma OnlyVerifySucceeds(t: Tables, l: Label, r: RunId)
    requires r in t.runs && !t.runs[r].status.Succeeded? && Transact(t, l).Committed?
    requires !l.DoCreate? && r in Transact(t, l).value.runs && Transact(t, l).value.runs[r].status.Succeeded?
    ensures l.DoVerify? && l.r == r && l.result.verdict.Pass? && l.result.checkpoint.Final?
    ensures t.runs[r].closed && !t.runs[r].frozen && AllDone(t.runs[r])
    ensures OnCurrentEvidence(t.runs[r], l.result, l.now)
  {
    if l.DoAppend? && l.r == r {
      AppendShape(t, r, l.version, l.drafts, l.call);
      AppendAllShape(t.runs[r], r, l.drafts);
    }
  }

  /** Only a PASS verdict on the action itself verifies it: on valid, fresh evidence of the current
      observation, which is not the one the action was submitted on and not older than its end. */
  lemma OnlyPassVerifies(w: World, l: Label, r: RunId, i: nat)
    requires Inv(w) && Enabled(w, l) && r in w.t.runs && i < |w.t.runs[r].actions|
    requires r in Perform(w, l).t.runs && i < |Perform(w, l).t.runs[r].actions|
    requires !w.t.runs[r].actions[i].verified && Perform(w, l).t.runs[r].actions[i].verified
    ensures var run, a := w.t.runs[r], w.t.runs[r].actions[i];
            && l.DoVerify? && l.r == r && l.result.verdict.Pass? && l.result.checkpoint == AfterAction(a.id)
            && a.status.Completed? && a.planVersion == run.planVersion
            && run.observation.valid && l.result.observationId == run.observation.id
                 && l.result.source == run.observation.source
            && 0 <= l.now - l.result.observedAt <= run.budget.observationMaxAge
            && Some(l.result.observationId) != a.executionObservationId
            && a.finishedAt.Some? && a.finishedAt.value <= l.result.observedAt
  {
    assert RunOk(r, w.t.runs[r]) && ActionOk(r, w.t.runs[r], w.t.runs[r].actions[i]);
    if Transact(w.t, l).Committed? {
      if l.DoVerify? && l.r == r {
        VerdictVerifies(w.t, r, l.result, l.now, i);
      } else {
        OthersVerifyNothing(w.t, l, r, i);
      }
    }
  }

  lemma VerdictVerifies(t: Tables, r: RunId, v: VerificationResult, now: Time, i: nat)
    requires r in t.runs && i < |t.runs[r].actions| && Verify(t, r, v, now).Committed?
    requires !t.runs[r].actions[i].verified && Verify(t, r, v, now).value.runs[r].actions[i].verified
    ensures var run, a := t.runs[r], t.runs[r].actions[i];
            && v.verdict.Pass? && v.checkpoint == AfterAction(a.id)
            && a.status.Completed? && a.planVersion == run.planVersion
            && run.observation.valid && v.observationId == run.observation.id && v.source == run.observation.source
            && 0 <= now - v.observedAt <= run.budget.observationMaxAge
            && Some(v.observationId) != a.executionObservationId
            && (a.finishedAt.Some? ==> a.finishedAt.value <= v.observedAt)
  {}

  lemma OthersVerifyNothing(t: Tables, l: Label, r: RunId, i: nat)
    requires r in t.runs && i < |t.runs[r].actions| && Transact(t, l).Committed?
    requires !(l.DoVerify? && l.r == r) && !(l.DoCreate? && l.r == r)
    requires r in Transact(t, l).value.runs && i < |Transact(t, l).value.runs[r].actions|
    ensures Transact(t, l).value.runs[r].actions[i].verified == t.runs[r].actions[i].verified
  {
    if Subject(l) != Some(r) {
      TransactNames(t, l, r);
    } else if WritesOneAction(l) {
      ReportVerifiesNothing(t, l, r, i);
    } else if l.DoAppend? {
      AppendKeepsOld(t, r, l.version, l.drafts, l.call, i);
    }
  }

  lemma ReportVerifiesNothing(t: Tables, l: Label, r: RunId, i: nat)
    requires r in t.runs && i < |t.runs[r].actions| && Subject(l) == Some(r) && WritesOneAction(l)
    requires Transact(t, l).Committed?
    ensures r in Transact(t, l).value.runs && i < |Transact(t, l).value.runs[r].actions|
    ensures Transact(t, l).value.runs[r].actions[i].verified == t.runs[r].actions[i].verified
  {
    if l.DoDeliver? {
      DeliveryVerifiesNothing(t, l.event, i);
    } else if l.DoIntent? {
      IntentVerifiesNothing(t, r, l.now, l.at, l.admissible, i);
    }
  }

  lemma DeliveryVerifiesNothing(t: Tables, ev: Event, i: nat)
    requires ev.runId in t.runs && i < |t.runs[ev.runId].actions| && Apply(t, ev).Committed?
    ensures var t' := Apply(t, ev).value;
            && ev.runId in t'.runs && i < |t'.runs[ev.runId].actions|
            && t'.runs[ev.runId].actions[i].verified == t.runs[ev.runId].actions[i].verified
  {}

  lemma IntentVerifiesNothing(t: Tables, r: RunId, now: Time, at: Time, admissible: bool, i: nat)
    requires r in t.runs && i < |t.runs[r].actions| && Intent(t, r, now, at, admissible).Committed?
    ensures var t' := Intent(t, r, now, at, admissible).value.0;
            && r in t'.runs && i < |t'.runs[r].actions|
            && t'.runs[r].actions[i].verified == t.runs[r].actions[i].verified
  {}

  lemma AppendKeepsOld(t: Tables, r: RunId, version: nat, drafts: seq<Draft>, call: Option<CallId>, i: nat)
    requires r in t.runs && i < |t.runs[r].actions| && Append(t, r, version, drafts, call).Committed?
    ensures var t' := Append(t, r, version, drafts, call).value;
            r in t'.runs && i < |t'.runs[r].actions| && t'.runs[r].actions[i] == t.runs[r].actions[i]
  {
    AppendShape(t, r, version, drafts, call);
    AppendAllShape(t.runs[r], r, drafts);
    var after := AppendAll(t.runs[r], r, drafts).value.actions;
    assert after[..|t.runs[r].actions|][i] == after[i];
  }

  /** Looking again never moves backwards: after any further steps, with a clock that does not run
      backwards, the executor's next observation is accepted in place of its last. */
  lemma LaterSightingsAreAccepted(w: World, ls: seq<Label>, r: RunId, id: ObservationId, at: Time,
      id': ObservationId, at': Time,
                                  source: int)
    requires Inv(w) && Legal(w, ls) && at <= at'
    requires r in Play(w, ls).t.runs && Look(w.x, id, at, source) == Some(Play(w, ls).t.runs[r].observation)
    requires Look(Play(w, ls).x, id', at', source).Some?
    ensures Observe(Play(w, ls).t, r, Look(Play(w, ls).x, id', at', source).value).Committed?
  {
    PlayKeeps(w, ls);
  }

  // ----- received events -----

  /** Once accepted, an event stays accepted: delivering it again, after any further steps, commits
      and changes nothing at all. */
  lemma ReceivedIsInert(ls: seq<Label>, more: seq<Label>, r: RunId, e: EventId)
    requires Legal(INITIAL, ls) && Legal(Play(INITIAL, ls), more)
    requires (r, e) in Play(INITIAL, ls).t.received
    ensures var w, later := Play(INITIAL, ls), Play(Play(INITIAL, ls), more);
            Apply(later.t, w.t.received[(r, e)]) == Committed(later.t)
  {
    var w := Play(INITIAL, ls);
    EveryRunIsSafe(ls);
    PlayKeeps(w, more);
    var later := Play(w, more);
    assert (r, e) in later.t.received && later.t.received[(r, e)] == w.t.received[(r, e)];
    assert ReceivedOk(later, r, e);
  }

  /** An event of an older plan, delivered late, is noted and nothing more. */
  lemma LateEventsAreInert(w: World, ev: Event)
    requires Inv(w) && ev in w.x.events && ev.runId in w.t.runs
    requires ev.planVersion < w.t.runs[ev.runId].planVersion && Apply(w.t, ev).Committed?
    ensures Apply(w.t, ev).value.runs == w.t.runs && Apply(w.t, ev).value.resources == w.t.resources
  {
    var run := w.t.runs[ev.runId];
    var k := FindAction(run.actions, ev.actionId);
    assert RunOk(ev.runId, run) && ActionOk(ev.runId, run, run.actions[k]);
  }

  // ----- freezing and closing -----

  /** An action in flight shows exactly whether its run is being stopped: it carries a stop request
      and the run's stop reason and never reads RUNNING then, and neither of them otherwise. */
  lemma StopsShow(ls: seq<Label>, r: RunId, i: nat)
    requires Legal(INITIAL, ls) && r in Play(INITIAL, ls).t.runs
    requires i < |Play(INITIAL, ls).t.runs[r].actions| && InFlight(Play(INITIAL, ls).t.runs[r].actions[i].status)
    ensures var run, a := Play(INITIAL, ls).t.runs[r], Play(INITIAL, ls).t.runs[r].actions[i];
            && (run.frozen <==> run.stopIntent.Some?) && (run.frozen <==> a.stopRequestedAt.Some?)
            && (run.frozen ==> a.stopReason == run.stopIntent && !a.status.Running? && !a.status.Submitting?)
            && (!run.frozen ==> !a.status.Stopping?)
            && a.planVersion == run.planVersion
  {
    EveryRunIsSafe(ls);
    var run := Play(INITIAL, ls).t.runs[r];
    assert RunOk(r, run) && ActionOk(r, run, run.actions[i]);
  }

  /** The intents to submit, and the length of the stream, are as before. */
  ghost predicate SameIntents(run: Run, run': Run) {
    && |run'.actions| == |run.actions|
    && forall i :: 0 <= i < |run.actions| ==> run'.actions[i].submittedAt == run.actions[i].submittedAt
  }

  /** A step that does not revise leaves a frozen run frozen, a closed one closed, and neither grows. */
  lemma WindowStep(t: Tables, l: Label, r: RunId)
    requires r in t.runs && !l.DoCreate? && Transact(t, l).Committed? && r in Transact(t, l).value.runs
    requires Transact(t, l).value.runs[r].planVersion == t.runs[r].planVersion
    ensures t.runs[r].frozen ==> Transact(t, l).value.runs[r].frozen
    ensures t.runs[r].closed ==> Transact(t, l).value.runs[r].closed
    ensures t.runs[r].frozen || t.runs[r].closed ==> |Transact(t, l).value.runs[r].actions| == |t.runs[r].actions|
  {
    if Subject(l) != Some(r) {
      TransactNames(t, l, r);
    } else if WritesOneAction(l) {
      ReportWindow(t, l, r);
    }
  }

  lemma ReportWindow(t: Tables, l: Label, r: RunId)
    requires r in t.runs && Subject(l) == Some(r) && WritesOneAction(l) && Transact(t, l).Committed?
    ensures r in Transact(t, l).value.runs
    ensures var run, run' := t.runs[r], Transact(t, l).value.runs[r];
            run'.frozen == run.frozen && run'.closed == run.closed && |run'.actions| == |run.actions|
  {}

  /** A frozen stream queues nothing, so whatever was not sent stays unsent. */
  lemma FrozenIntents(r: RunId, run: Run, run': Run)
    requires RunOk(r, run) && run.frozen && RunEvolves(run, run') && |run'.actions| == |run.actions|
    ensures SameIntents(run, run')
  {
    forall i | 0 <= i < |run.actions| ensures run'.actions[i].submittedAt == run.actions[i].submittedAt {
      assert ActionOk(r, run, run.actions[i]) && Evolves(run.actions[i], run'.actions[i]);
    }
  }

  /** Between a stop request and the next revision nothing new is submitted or appended, and the
      stop intent stands; a closed plan's actions stay the same until the next revision. */
  lemma FreezeWindow(w: World, ls: seq<Label>, r: RunId)
    requires Inv(w) && Legal(w, ls) && r in w.t.runs
    requires r in Play(w, ls).t.runs && Play(w, ls).t.runs[r].planVersion == w.t.runs[r].planVersion
    ensures var run, run' := w.t.runs[r], Play(w, ls).t.runs[r];
            && (run.frozen ==> run'.frozen && run'.stopIntent.Some? && SameIntents(run, run'))
            && (run.closed ==> run'.closed && |run'.actions| == |run.actions|)
  {
    PlayKeeps(w, ls);
    assert RunOk(r, w.t.runs[r]) && RunOk(r, Play(w, ls).t.runs[r]);
    WindowLasts(w, ls, r);
    if w.t.runs[r].frozen {
      FrozenIntents(r, w.t.runs[r], Play(w, ls).t.runs[r]);
    }
  }

  lemma {:induction false} WindowLasts(w: World, ls: seq<Label>, r: RunId)
    requires Inv(w) && Legal(w, ls) && r in w.t.runs
    requires r in Play(w, ls).t.runs && Play(w, ls).t.runs[r].planVersion == w.t.runs[r].planVersion
    ensures w.t.runs[r].frozen ==> Play(w, ls).t.runs[r].frozen
    ensures w.t.runs[r].closed ==> Play(w, ls).t.runs[r].closed
    ensures w.t.runs[r].frozen || w.t.runs[r].closed ==> |Play(w, ls).t.runs[r].actions| == |w.t.runs[r].actions|
    decreases |ls|
  {
    if ls != [] {
      var w1 := Perform(w, ls[0]);
      StepKeeps(w, ls[0]);
      StepAdvances(w, ls[0]);
      assert r in w1.t.runs;
      PlayKeeps(w1, ls[1..]);
      if Transact(w.t, ls[0]).Committed? && !ls[0].DoCreate? {
        WindowStep(w.t, ls[0], r);
      }
      WindowLasts(w1, ls[1..], r);
    }
  }
}
