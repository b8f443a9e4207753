/** A cancel that arrives while another call of the runtime is under way: it does not wait for the driver,
    so it may fall between any two of the driver's moves. */
module Overlaps {
  import opened Contracts
  import opened Transactions
  import opened Protocol
  import opened Histories
  import opened Steadiness
  import opened Drivers
  import opened DrivenSteps
  import opened Endings

  /** A stop request with another reason, by somebody else. */
  predicate Overruled(m: Move, r: RunId) {
    m.Elsewhere? && m.l.DoFreeze? && m.l.r == r && !m.l.reason.Cancel?
  }

  /** A paid replan is carried out, and its revision commits. */
  predicate Revises(d: Desk, r: RunId, m: Move)
    requires r in d.w.t.runs
  {
    m.CarryOut? && d.charge.Charged? && Revise(d.w.t, r, d.w.t.runs[r].planVersion, m.observation).Committed?
  }

  /** A pending cancel survives a move of the driver or of others if and only if that neither carries out
      a revision nor requests a stop for another reason. */
  lemma CancelSurvivesIff(d: Desk, r: RunId, m: Move)
    requires DeskOk(d, r) && Possible(d, r, m) && Canceling(d.w.t.runs[r])
    ensures r in Step(d, r, m).w.t.runs
    ensures Canceling(Step(d, r, m).w.t.runs[r]) <==> !Revises(d, r, m) && !Overruled(m, r)
  {
    var l := LabelOf(d, r, m);
    LabelIsPerformed(d, r, m);
    LabelOverrules(d, r, m);
    if l.Some? && Transact(d.w.t, l.value).Committed? {
      LabelStandsIff(d.w, l.value, r);
    }
  }

  /** The moves that overrule a cancel are those that perform a label that does. */
  lemma LabelOverrules(d: Desk, r: RunId, m: Move)
    requires r in d.w.t.runs && Possible(d, r, m)
    ensures var l := LabelOf(d, r, m);
            (l.Some? && Transact(d.w.t, l.value).Committed? && Overrules(l.value, r)) <==>
            (Revises(d, r, m) || Overruled(m, r))
  {}

  /** The same for the label that the move performs. */
  lemma LabelStandsIff(w: World, l: Label, r: RunId)
    requires r in w.t.runs && Enabled(w, l) && Canceling(w.t.runs[r]) && Transact(w.t, l).Committed?
    ensures r in Transact(w.t, l).value.runs
    ensures Canceling(Transact(w.t, l).value.runs[r]) <==> !Overrules(l, r)
  {
    if l.DoCreate? {
      TransactNames(w.t, l, r);
    } else {
      CancelStandsIff(w.t, l, r);
    }
  }

  /** The run is being cancelled at every point of these moves. */
  ghost predicate Survives(d: Desk, r: RunId, ms: seq<Move>)
    requires Driven(d, r, ms)
    decreases |ms|
  {
    Canceling(d.w.t.runs[r]) && (ms == [] || Survives(Step(d, r, ms[0]), r, ms[1..]))
  }

  ghost predicate NeverRevises(d: Desk, r: RunId, ms: seq<Move>)
    requires Driven(d, r, ms)
    decreases |ms|
  {
    ms == [] || (!Revises(d, r, ms[0]) && NeverRevises(Step(d, r, ms[0]), r, ms[1..]))
  }

  /** Over any driven run in which nobody requests a stop for another reason, a pending cancel survives
      if and only if no replan that was paid for before is carried out. */
  lemma {:induction false} CancelSurvivesDriveIff(d: Desk, r: RunId, ms: seq<Move>)
    requires DeskOk(d, r) && Driven(d, r, ms) && Canceling(d.w.t.runs[r])
    requires forall i :: 0 <= i < |ms| ==> !Overruled(ms[i], r)
    ensures Survives(d, r, ms) <==> NeverRevises(d, r, ms)
    decreases |ms|
  {
    if ms != [] {
      CancelSurvivesIff(d, r, ms[0]);
      MoveKeeps(d, r, ms[0]);
      if !Revises(d, r, ms[0]) {
        CancelSurvivesDriveIff(Step(d, r, ms[0]), r, ms[1..]);
      }
    }
  }

  /** In particular it survives when no replan is outstanding and none is taken. */
  lemma {:induction false} UnchargedCancelSurvives(d: Desk, r: RunId, ms: seq<Move>)
    requires DeskOk(d, r) && Driven(d, r, ms) && Canceling(d.w.t.runs[r]) && d.charge.NoCharge?
    requires forall i :: 0 <= i < |ms| ==> !Overruled(ms[i], r) && !ms[i].ChargeReplan?
    ensures Survives(d, r, ms)
    decreases |ms|
  {
    if ms != [] {
      CancelSurvivesIff(d, r, ms[0]);
      MoveKeeps(d, r, ms[0]);
      UnchargedCancelSurvives(Step(d, r, ms[0]), r, ms[1..]);
    }
  }

  // ----- a cancel that a recovery overrules -----

  /** Performing one more move. */
  lemma DriveMore(d: Desk, r: RunId, ms: seq<Move>, m: Move)
    requires DeskOk(d, r) && Driven(d, r, ms) && r in Drive(d, r, ms).w.t.runs && Possible(Drive(d, r, ms), r, m)
    ensures Driven(d, r, ms + [m]) && Drive(d, r, ms + [m]) == Step(Drive(d, r, ms), r, m)
    ensures r in Step(Drive(d, r, ms), r, m).w.t.runs
  {
    var d' := Drive(d, r, ms);
    DriveKeeps(d, r, ms);
    MoveKeeps(d', r, m);
    assert [m][0] == m && [m][1..] == [];
    assert Driven(Step(d', r, m), r, []) && Drive(Step(d', r, m), r, []) == Step(d', r, m);
    assert Driven(d', r, [m]) && Drive(d', r, [m]) == Step(d', r, m);
    DriveOn(d, r, ms, [m]);
  }

  const NEW_DESK := Desk(Play(INITIAL, [CREATION]), [], Outside, NoCharge, [])

  const CHARGED: seq<Move> := [ChargeReplan(false)]

  const STOPPING: seq<Move> := CHARGED + [Elsewhere(DoFreeze(0, Replan, AT_ZERO))]

  /** A recovery that stopped its plan and is about to observe, when a cancel arrives. */
  const STOPPED: seq<Move> := STOPPING + [Elsewhere(DoSettle(0, AT_ZERO))]

  const CANCELED: seq<Move> := STOPPED + [Elsewhere(DoFreeze(0, Cancel, AT_ZERO))]

  lemma NewDeskIsNew()
    ensures NewDesk(NEW_DESK, 0) && DeskOk(NEW_DESK, 0) && NEW_DESK.w.t.runs[0] == NEW_RUN
    ensures Driven(NEW_DESK, 0, []) && Drive(NEW_DESK, 0, []) == NEW_DESK
  {
    Created();
    EveryRunIsSafe([CREATION]);
  }

  lemma ChargedForReplan()
    ensures Driven(NEW_DESK, 0, CHARGED) && 0 in Drive(NEW_DESK, 0, CHARGED).w.t.runs
    ensures Drive(NEW_DESK, 0, CHARGED).charge.Charged?
    ensures var run := Drive(NEW_DESK, 0, CHARGED).w.t.runs[0]; run == NEW_RUN.(book := run.book)
  {
    NewDeskIsNew();
    assert [] + [ChargeReplan(false)] == CHARGED;
    DriveMore(NEW_DESK, 0, [], ChargeReplan(false));
  }

  lemma StoppingForReplan()
    ensures Driven(NEW_DESK, 0, STOPPING) && 0 in Drive(NEW_DESK, 0, STOPPING).w.t.runs
    ensures Drive(NEW_DESK, 0, STOPPING).charge.Charged?
    ensures var run := Drive(NEW_DESK, 0, STOPPING).w.t.runs[0];
            run == NEW_RUN.(book := run.book, frozen := true, stopIntent := Some(Replan))
  {
    NewDeskIsNew();
    ChargedForReplan();
    DriveMore(NEW_DESK, 0, CHARGED, Elsewhere(DoFreeze(0, Replan, AT_ZERO)));
  }

  lemma StoppedForReplan()
    ensures Driven(NEW_DESK, 0, STOPPED) && 0 in Drive(NEW_DESK, 0, STOPPED).w.t.runs
    ensures Drive(NEW_DESK, 0, STOPPED).charge.Charged?
    ensures var run := Drive(NEW_DESK, 0, STOPPED).w.t.runs[0];
            run == NEW_RUN.(book := run.book, frozen := true, stopIntent := Some(Replan), status := Recovering)
  {
    NewDeskIsNew();
    StoppingForReplan();
    DriveMore(NEW_DESK, 0, STOPPING, Elsewhere(DoSettle(0, AT_ZERO)));
  }

  lemma StoppedThenCanceled()
    ensures Driven(NEW_DESK, 0, CANCELED) && 0 in Drive(NEW_DESK, 0, CANCELED).w.t.runs
    ensures Drive(NEW_DESK, 0, CANCELED).charge.Charged?
    ensures var run := Drive(NEW_DESK, 0, CANCELED).w.t.runs[0];
            run == NEW_RUN.(book := run.book, frozen := true, stopIntent := Some(Cancel), status := Recovering)
  {
    NewDeskIsNew();
    StoppedForReplan();
    DriveMore(NEW_DESK, 0, STOPPED, Elsewhere(DoFreeze(0, Cancel, AT_ZERO)));
  }

  /** A recovery overrules a cancel that arrives after it paid for its replan. */
  lemma RecoveryOverrulesCancel()
    ensures NewDesk(NEW_DESK, 0) && Driven(NEW_DESK, 0, CANCELED) && Driven(NEW_DESK, 0, CANCELED + [CarryOut(SIGHT)])
    ensures var w := Drive(NEW_DESK, 0, CANCELED).w; 0 in w.t.runs && Canceling(w.t.runs[0])
    ensures var w := Drive(NEW_DESK, 0, CANCELED + [CarryOut(SIGHT)]).w;
            0 in w.t.runs && !Canceling(w.t.runs[0]) && w.t.runs[0].status.Ready? && w.t.runs[0].planVersion == 2
  {
    NewDeskIsNew();
    StoppedThenCanceled();
    DriveMore(NEW_DESK, 0, CANCELED, CarryOut(SIGHT));
  }
}
