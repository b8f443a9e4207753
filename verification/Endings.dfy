/** How a run ends, what can still reopen it, and what never ends. */
module Endings {
  import opened Contracts
  import opened Transactions
  import opened Protocol
  import opened Preservation
  import opened Histories
  import opened Safety
  import opened Operations
  import opened Steadiness

  // ----- SUCCEEDED, FAILED and CANCELED -----

  /** What takes a run out of SUCCEEDED, FAILED or CANCELED: a revision, a verdict other than PASS, or
      the end of a tick under a replan that was requested meanwhile. */
  predicate Reopens(run: Run, l: Label, r: RunId) {
    || (l.DoRevise? && l.r == r)
    || (l.DoVerify? && l.r == r && !l.result.verdict.Pass?)
    || (l.DoSettle? && l.r == r && run.stopIntent == Some(Replan))
  }

  /** A finished task stays finished over a transaction if and only if that does not reopen it. */
  lemma OverLeavesIff(w: World, l: Label, r: RunId)
    requires Inv(w) && Enabled(w, l) && r in w.t.runs && Over(w.t.runs[r].status) && Transact(w.t, l).Committed?
    ensures r in Transact(w.t, l).value.runs
    ensures Over(Transact(w.t, l).value.runs[r].status) <==> !Reopens(w.t.runs[r], l, r)
  {
    if Subject(l) != Some(r) {
      TransactNames(w.t, l, r);
    } else {
      OverIsDone(w, r);
      OverTransacts(w.t, l, r);
    }
  }

  lemma OverIsDone(w: World, r: RunId)
    requires Inv(w) && r in w.t.runs && Over(w.t.runs[r].status)
    ensures AllTerminal(w.t.runs[r].actions)
  {
    var run := w.t.runs[r];
    assert RunOk(r, run);
    forall i | 0 <= i < |run.actions| ensures Terminal(run.actions[i].status) {
      assert ActionOk(r, run, run.actions[i]);
    }
  }

  lemma OverTransacts(t: Tables, l: Label, r: RunId)
    requires r in t.runs && Over(t.runs[r].status) && AllTerminal(t.runs[r].actions)
    requires Subject(l) == Some(r) && !l.DoCreate? && Transact(t, l).Committed?
    ensures r in Transact(t, l).value.runs
    ensures Over(Transact(t, l).value.runs[r].status) <==> !Reopens(t.runs[r], l, r)
  {}

  /** Over any run of the system in which nothing reopens it, a finished task stays finished. */
  lemma {:induction false} OverLasts(w: World, ls: seq<Label>, r: RunId)
    requires Inv(w) && Legal(w, ls) && r in w.t.runs && Over(w.t.runs[r].status)
    requires forall i :: 0 <= i < |ls| && r in Play(w, ls[..i]).t.runs ==>
               !Reopens(Play(w, ls[..i]).t.runs[r], ls[i], r)
    ensures r in Play(w, ls).t.runs && Over(Play(w, ls).t.runs[r].status)
    decreases |ls|
  {
    if ls != [] {
      assert ls[..0] == [];
      if Transact(w.t, ls[0]).Committed? { OverLeavesIff(w, ls[0], r); }
      StepKeeps(w, ls[0]);
      forall i | 0 <= i < |ls| - 1 ensures Play(Perform(w, ls[0]), ls[1..][..i]) == Play(w, ls[..i + 1]) {
        assert ls[..i + 1][1..] == ls[1..][..i];
      }
      OverLasts(Perform(w, ls[0]), ls[1..], r);
    }
  }

  // ----- runs that are reopened -----

  const AT_ZERO: Clock := id => 0
  const SIGHT := Observation(0, 0, 0, 0, true)
  const CREATION := DoCreate(0, Budget(1, 1, 1, 1, 1, 1, 1, 1, 1), map[], SIGHT, 1, 0)
  const NEW_RUN := NewRun(Budget(1, 1, 1, 1, 1, 1, 1, 1, 1), map[], SIGHT, 1, 0)

  function Judge(verdict: Verdict): Label {
    DoVerify(0, VerificationResult(verdict, Final, 0, 0, 0), 0)
  }

  /** Performing one more step. */
  lemma PlayMore(w: World, ls: seq<Label>, l: Label)
    requires Legal(w, ls) && Enabled(Play(w, ls), l)
    ensures Legal(w, ls + [l]) && Play(w, ls + [l]) == Perform(Play(w, ls), l)
  {
    assert [l][1..] == [];
    PlayOn(w, ls, [l]);
  }

  lemma Created()
    ensures Legal(INITIAL, [CREATION]) && 0 in Play(INITIAL, [CREATION]).t.runs
    ensures Play(INITIAL, [CREATION]).t.runs[0] == NEW_RUN
  {
    assert [CREATION] == [] + [CREATION];
    PlayMore(INITIAL, [], CREATION);
  }

  /** A verdict other than PASS takes a run out of SUCCEEDED. */
  lemma VerdictLeavesSuccess()
    ensures var won := [CREATION] + [DoClose(0, 1, 0)] + [Judge(Pass)];
            && Legal(INITIAL, won + [Judge(Fail)])
            && 0 in Play(INITIAL, won).t.runs && Play(INITIAL, won).t.runs[0].status.Succeeded?
            && 0 in Play(INITIAL, won + [Judge(Fail)]).t.runs
            && Play(INITIAL, won + [Judge(Fail)]).t.runs[0].status.Recovering?
  {
    Created();
    PlayMore(INITIAL, [CREATION], DoClose(0, 1, 0));
    PlayMore(INITIAL, [CREATION] + [DoClose(0, 1, 0)], Judge(Pass));
    PlayMore(INITIAL, [CREATION] + [DoClose(0, 1, 0)] + [Judge(Pass)], Judge(Fail));
  }

  /** The last transaction of a tick that began earlier takes a run out of FAILED, when a replan was
      requested in between. */
  lemma LateTickLeavesFailure()
    ensures var lost := [CREATION] + [DoFreeze(0, Failure, AT_ZERO)] + [DoSettle(0, AT_ZERO)];
            var more := lost + [DoFreeze(0, Replan, AT_ZERO)] + [DoSettle(0, AT_ZERO)];
            && Legal(INITIAL, more)
            && 0 in Play(INITIAL, lost).t.runs && Play(INITIAL, lost).t.runs[0].status.TaskFailed?
            && 0 in Play(INITIAL, more).t.runs && Play(INITIAL, more).t.runs[0].status.Recovering?
  {
    var lost := [CREATION] + [DoFreeze(0, Failure, AT_ZERO)] + [DoSettle(0, AT_ZERO)];
    Created();
    PlayMore(INITIAL, [CREATION], DoFreeze(0, Failure, AT_ZERO));
    PlayMore(INITIAL, [CREATION] + [DoFreeze(0, Failure, AT_ZERO)], DoSettle(0, AT_ZERO));
    PlayMore(INITIAL, lost, DoFreeze(0, Replan, AT_ZERO));
    PlayMore(INITIAL, lost + [DoFreeze(0, Replan, AT_ZERO)], DoSettle(0, AT_ZERO));
  }

  /** The scheduler's own revision brings a cancelled run back. */
  lemma RevisionOverrulesCancel()
    ensures var gone := [CREATION] + [DoFreeze(0, Cancel, AT_ZERO)] + [DoSettle(0, AT_ZERO)];
            var more := gone + [DoRevise(0, 1, SIGHT)];
            && Legal(INITIAL, more)
            && 0 in Play(INITIAL, gone).t.runs && 0 in Play(INITIAL, more).t.runs
            && Canceling(Play(INITIAL, gone).t.runs[0]) && Play(INITIAL, gone).t.runs[0].status.TaskCanceled?
            && var run := Play(INITIAL, more).t.runs[0]; !Canceling(run) && run.status.Ready? && run.planVersion == 2
  {
    Created();
    PlayMore(INITIAL, [CREATION], DoFreeze(0, Cancel, AT_ZERO));
    PlayMore(INITIAL, [CREATION] + [DoFreeze(0, Cancel, AT_ZERO)], DoSettle(0, AT_ZERO));
    PlayMore(INITIAL, [CREATION] + [DoFreeze(0, Cancel, AT_ZERO)] + [DoSettle(0, AT_ZERO)], DoRevise(0, 1, SIGHT));
  }

  // ----- submissions that were dropped -----

  /** The intent was recorded, but the process that recorded it crashed before it submitted. */
  ghost predicate Dropped(w: World, r: RunId, i: nat) {
    && r in w.t.runs && i < |w.t.runs[r].actions|
    && var a := w.t.runs[r].actions[i];
       InFlight(a.status) && a.id !in w.pending && a.id !in w.x.executions
  }

  lemma DroppedStep(w: World, l: Label, r: RunId, i: nat)
    requires Inv(w) && Enabled(w, l) && Dropped(w, r, i)
    ensures Dropped(Perform(w, l), r, i)
  {
    var w' := Perform(w, l);
    StepKeeps(w, l);
    StepAdvances(w, l);
    WhereIs(w, r, i);
    NeverSent(w, l, w.t.runs[r].actions[i].id);
    UnsentIsInFlight(w, w', r, i);
  }

  /** What was in flight and has no execution is in flight still. */
  lemma UnsentIsInFlight(w: World, w': World, r: RunId, i: nat)
    requires Inv(w') && Advances(w, w') && r in w.t.runs && i < |w.t.runs[r].actions|
    requires InFlight(w.t.runs[r].actions[i].status) && w.t.runs[r].actions[i].id !in w'.x.executions
    ensures r in w'.t.runs && i < |w'.t.runs[r].actions|
    ensures InFlight(w'.t.runs[r].actions[i].status) && w'.t.runs[r].actions[i].id == w.t.runs[r].actions[i].id
  {
    assert r in w'.t.runs;
    assert Evolves(w.t.runs[r].actions[i], w'.t.runs[r].actions[i]) && Linked(w', w'.t.runs[r].actions[i]);
  }

  /** An action in flight that is neither pending nor executing will not be sent by the next step. */
  lemma NeverSent(w: World, l: Label, id: ActionId)
    requires Inv(w) && Enabled(w, l) && id in w.issued && InFlight(ActionOf(w, id).status)
    requires id !in w.pending && id !in w.x.executions
    ensures id !in Hold(w, l) && id !in Operate(w, l).executions
  {
    if l.DoIntent? {
      IntentIsOfQueued(w, l, id);
    } else if l.DoSubmit? {
      IssuedIsLinked(w, l.id);
      StartKeepsExecutor(w.x, w.pending[l.id], l.newId);
    }
  }

  /** Only an action that is queued becomes pending. */
  lemma IntentIsOfQueued(w: World, l: Label, id: ActionId)
    requires Inv(w) && l.DoIntent? && id in w.issued && InFlight(ActionOf(w, id).status)
    requires id !in w.pending
    ensures id !in Hold(w, l)
  {
    if Intent(w.t, l.r, l.now, l.at, l.admissible).Committed?
        && Intent(w.t, l.r, l.now, l.at, l.admissible).value.1.Some? {
      WhereIs(w, l.r, NextAction(w.t.runs[l.r], 0));
    }
  }

  /** A dropped submission stays in flight for ever: it is never sent, its run is never over nor
      revised again, and nothing else of the run is ever in flight. */
  lemma DroppedForever(w: World, ls: seq<Label>, r: RunId, i: nat)
    requires Inv(w) && Legal(w, ls) && Dropped(w, r, i)
    ensures var later := Play(w, ls);
            && Dropped(later, r, i)
            && var run := later.t.runs[r];
               && !Over(run.status) && run.planVersion == w.t.runs[r].planVersion
               && forall j :: 0 <= j < |run.actions| && InFlight(run.actions[j].status) ==> j == i
  {
    DroppedLasts(w, ls, r, i);
    PlayKeeps(w, ls);
    var run, run' := w.t.runs[r], Play(w, ls).t.runs[r];
    assert RunOk(r, run) && ActionOk(r, run, run.actions[i]);
    assert RunOk(r, run') && ActionOk(r, run', run'.actions[i]);
    assert Evolves(run.actions[i], run'.actions[i]);
    forall j | 0 <= j < |run'.actions| && InFlight(run'.actions[j].status) ensures j == i {
      OneInFlight(r, run', i, j);
    }
  }

  lemma {:induction false} DroppedLasts(w: World, ls: seq<Label>, r: RunId, i: nat)
    requires Inv(w) && Legal(w, ls) && Dropped(w, r, i)
    ensures Dropped(Play(w, ls), r, i)
    decreases |ls|
  {
    if ls != [] {
      DroppedStep(w, ls[0], r, i);
      StepKeeps(w, ls[0]);
      DroppedLasts(Perform(w, ls[0]), ls[1..], r, i);
    }
  }
}
