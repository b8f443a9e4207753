/** What each tool and each settled outcome does to the whole world, and what it may do to the run. */
module RuntimeSteps {
  import opened Contracts
  import opened Transactions
  import opened Protocol
  import opened Operations
  import opened Steadiness
  import Drivers

  datatype AgentMove =
    | Propose(call: CallId, draft: Draft, launch: Launch)
    | Finish
    | LookAround
    | Conclude
    | TooManyCalls

  /** How one request to the delegated model ends: an answer, a transient failure before or after
      some of the answer was received, or another error. */
  datatype Attempt = Replies | Fails(received: bool) | Breaks(error: Error)

  /** One decision of the agent: the attempts its model request takes, then what the answer asks. */
  datatype Decision = Decision(attempts: nat -> Attempt, move: AgentMove)

  /** How a drive of the agent ends. */
  datatype DriveEnd = Paused | Rested | Invalid | Errored(error: Error)

  /** An ended action of the current plan that did not complete, or did not pass. */
  predicate FailedIn(plan: nat, a: Action, verdict: Option<Verdict>) {
    a.planVersion == plan && (!a.status.Completed? || (verdict.Some? && !verdict.value.Pass?))
  }

  /** The tool's step of the driver, and the dispatch that follows unless the call was bound already
      or its proposal was refused. */
  function ToolUsed(w: World, r: RunId, call: CallId, draft: Draft, launch: Launch): (World, Fate)
    requires r in w.t.runs
  {
    var run := w.t.runs[r];
    var w' := Drivers.ExecuteTool(w, r, call, run.planVersion, [draft]);
    if Repeats(run.book, call) then (w', if run.book.binding.BoundTo? then Fine else Threw(KeyMissing))
    else if Append(w.t, r, run.planVersion, [draft], Some(call)).Raised? then (w', Fine)
    else Dispatch(w', r, launch)
  }

  predicate Repeats(book: Book, call: CallId) {
    !book.binding.Unbound? && book.binding.call == call
  }

  /** The last verdict recorded for an action. */
  function LastVerdict(verifications: seq<VerificationResult>, id: ActionId): Option<Verdict> {
    if verifications == [] then None
    else if verifications[|verifications| - 1].checkpoint == AfterAction(id)
        then Some(verifications[|verifications| - 1].verdict)
    else LastVerdict(verifications[..|verifications| - 1], id)
  }

  /** No action of the current plan, of whatever status, is short of completed and verified. */
  predicate AllCurrentDone(run: Run) {
    forall i :: 0 <= i < |run.actions| && run.actions[i].planVersion == run.planVersion ==> Done(run.actions[i])
  }

  /** Closes the stream at its end and has the whole task judged on a fresh observation. */
  function CloseAndJudge(w: World, r: RunId, e: Weather): (World, Fate)
    requires r in w.t.runs
  {
    var (w1, f1) := Note(w, Close(w.t, r, w.t.runs[r].planVersion, w.t.runs[r].nextSequence - 1));
    if f1.Threw? then (w1, f1)
    else
      var (w2, f2) := Refresh(w1, r, e);
      Judge(w2, f2, r, e)
  }

  /** The user verifier's verdict, unless it or what came before raised. */
  function Judge(w: World, f: Fate, r: RunId, e: Weather): (World, Fate) {
    if f.Threw? then (w, f)
    else if e.verdict.Raised? then (w, Threw(e.verdict.error))
    else Note(w, Verify(w.t, r, e.verdict.value, e.now))
  }

  predicate Passing(e: Weather) {
    e.verdict.Committed? && e.verdict.value.verdict.Pass?
  }

  /** The tool that finishes the task; the last component tells whether the verdict was PASS. */
  function FinishUsed(w: World, r: RunId, e: Weather): (World, Fate, bool)
    requires r in w.t.runs
  {
    if !AllCurrentDone(w.t.runs[r]) then (w, Fine, false)
    else
      var (w1, f1) := CloseAndJudge(w, r, e);
      if f1.Threw? || Passing(e) then (w1, f1, f1.Fine?)
      else
        var (w2, f2, _) := Recover(w1, r, e);
        (w2, f2, false)
  }

  /** What one answer of the model makes of the world, and how it leaves the drive. */
  function Carried(w: World, r: RunId, move: AgentMove, answered: bool, e: Weather): (World, Option<DriveEnd>)
    requires r in w.t.runs
  {
    match move
    case TooManyCalls => (w, Some(Invalid))
    case Conclude => (w, Some(Rested))
    case LookAround =>
      var (w1, f) := Refresh(w, r, e);
      (w1, if f.Fine? then None else Some(Errored(f.error)))
    case Finish =>
      var (w1, f, passed) := FinishUsed(w, r, e);
      (w1, if f.Threw? then Some(Errored(f.error)) else if passed then Some(Rested) else None)
    case Propose(call, draft, launch) =>
      if answered then (w, None)
      else
        var (w1, f) := ToolUsed(w, r, call, draft, launch);
        (w1, if f.Fine? then Some(Paused) else Some(Errored(f.error)))
  }

  /** Observes again and, if the action completed without having been judged, has it judged. */
  function JudgeEnded(w: World, r: RunId, a: Action, e: Weather): (World, Fate) {
    var (w1, f1) := Refresh(w, r, e);
    if !a.status.Completed? || a.verified then (w1, f1) else Judge(w1, f1, r, e)
  }

  function VerdictOn(run: Run, a: Action, e: Weather): Option<Verdict> {
    if !a.status.Completed? || a.verified then LastVerdict(run.verifications, a.id)
    else if e.verdict.Raised? then None
    else Some(e.verdict.value.verdict)
  }

  /** Replans after an action of the current plan that failed; the last component tells whether the
      driver may go on. */
  function RepairFailed(w: World, r: RunId, a: Action, verdict: Option<Verdict>, e: Weather): (World, Fate, bool)
    requires r in w.t.runs
  {
    if FailedIn(w.t.runs[r].planVersion, a, verdict) then
      var (w1, f1, revised) := Recover(w, r, e);
      (w1, f1, revised && f1.Fine?)
    else (w, Fine, true)
  }

  /** ... and makes the bound call's result due. */
  function SettleOutcome(w: World, r: RunId, a: Action, verdict: Option<Verdict>, e: Weather): (World, Fate, bool)
    requires r in w.t.runs
  {
    var (w1, f1, ready) := RepairFailed(w, r, a, verdict, e);
    if !ready || r !in w1.t.runs || w1.t.runs[r].book.binding.Unbound? then (w1, f1, ready)
    else (Post(w1, r, w1.t.runs[r].book.(pendingFeedback := Some(w1.t.runs[r].book.binding.call))), f1, true)
  }

  /** Settles the outcome of the bound action: judges it, replans if it failed, makes its result due. */
  function Prepare(w: World, r: RunId, a: Action, e: Weather): (World, Fate, bool)
    requires r in w.t.runs
  {
    var (w1, f1) := JudgeEnded(w, r, a, e);
    if f1.Threw? || r !in w1.t.runs then (w1, f1, false) else SettleOutcome(w1, r, a, VerdictOn(w.t.runs[r], a, e), e)
  }

  // ----- what the tools may do to their run -----

  /** The tool that submits an action keeps the accounts, whatever becomes of the submission. */
  lemma ToolAccounts(w: World, r: RunId, call: CallId, draft: Draft, launch: Launch)
    requires r in w.t.runs
    ensures var w' := ToolUsed(w, r, call, draft, launch).0;
            && r in w'.t.runs && Tooled(w.t.runs[r], w'.t.runs[r])
            && var binding := w'.t.runs[r].book.binding;
               && (binding == w.t.runs[r].book.binding || (!binding.Unbound? && binding.call == call))
               && (ToolUsed(w, r, call, draft, launch).1.Fine? ==> !binding.Unbound? && binding.call == call)
  {
    var run := w.t.runs[r];
    TooledSelf(run);
    if !Repeats(run.book, call) && Append(w.t, r, run.planVersion, [draft], Some(call)).Committed? {
      var w1 := Perform(w, DoAppend(r, run.planVersion, [draft], Some(call)));
      AppendTools(w.t, r, run.planVersion, [draft], Some(call));
      Drivers.AppendBinds(w.t, r, run.planVersion, [draft], call);
      DispatchTools(w1, r, launch);
      TooledTrans(run, w1.t.runs[r], Dispatch(w1, r, launch).0.t.runs[r]);
    }
  }

  lemma DispatchTools(w: World, r: RunId, launch: Launch)
    requires r in w.t.runs
    ensures var w' := Dispatch(w, r, launch).0;
            r in w'.t.runs && Tooled(w.t.runs[r], w'.t.runs[r]) && w'.t.runs[r].book == w.t.runs[r].book
  {
    DispatchCalm(w, r, launch);
    CalmAccounts(w.t.runs[r], Dispatch(w, r, launch).0.t.runs[r]);
  }

  /** A verdict is recorded calmly, or not at all. */
  lemma VerifyNotes(w: World, r: RunId, v: VerificationResult, now: Time)
    requires r in w.t.runs
    ensures var (w', f) := Note(w, Verify(w.t, r, v, now));
            && r in w'.t.runs && Calm(w.t.runs[r], w'.t.runs[r]) && w'.t.runs[r].closed == w.t.runs[r].closed
            && (f.Fine? ==> w'.t.runs[r].verifications == w.t.runs[r].verifications + [v])
  {
    if Verify(w.t, r, v, now).Committed? { VerifyCalm(w.t, r, v, now); }
  }

  /** The run was closed and observed again, and perhaps judged. */
  ghost predicate Closing(a: Run, b: Run) {
    b == a.(closed := true, observation := b.observation, book := a.book.(observationCount := b.book.observationCount))
  }

  lemma ClosingTools(a: Run, b: Run, c: Run)
    requires !a.frozen && Closing(a, b) && Calm(b, c)
    ensures Tooled(a, c) && c.book.binding == a.book.binding && !c.frozen
  {}

  /** Closing commits on an unfrozen run only, and the refresh that follows writes the observation. */
  lemma CloseRefreshes(w: World, r: RunId, e: Weather)
    requires r in w.t.runs
    ensures var (w1, f1) := Note(w, Close(w.t, r, w.t.runs[r].planVersion, w.t.runs[r].nextSequence - 1));
            if f1.Threw? then w1 == w
            else
              && !w.t.runs[r].frozen && r in Refresh(w1, r, e).0.t.runs
              && Closing(w.t.runs[r], Refresh(w1, r, e).0.t.runs[r])
  {
    var w1 := Note(w, Close(w.t, r, w.t.runs[r].planVersion, w.t.runs[r].nextSequence - 1)).0;
    RefreshWrites(w1, r, e);
  }

  lemma CloseAccounts(w: World, r: RunId, e: Weather)
    requires r in w.t.runs
    ensures r in CloseAndJudge(w, r, e).0.t.runs
    ensures CloseKeeps(w.t.runs[r], CloseAndJudge(w, r, e).0.t.runs[r], CloseAndJudge(w, r, e).1, e)
  {
    var a := w.t.runs[r];
    CloseRefreshes(w, r, e);
    var (w1, f1) := Note(w, Close(w.t, r, a.planVersion, a.nextSequence - 1));
    if f1.Threw? {
      assert CloseAndJudge(w, r, e) == (w, f1);
      TooledSelf(a);
    } else {
      var (w2, f2) := Refresh(w1, r, e);
      assert CloseAndJudge(w, r, e) == Judge(w2, f2, r, e);
      JudgeClosed(a, w2, f2, r, e);
    }
  }

  lemma JudgeClosed(a: Run, w: World, f: Fate, r: RunId, e: Weather)
    requires r in w.t.runs && !a.frozen && Closing(a, w.t.runs[r])
    ensures var (w', f') := Judge(w, f, r, e);
            r in w'.t.runs && CloseKeeps(a, w'.t.runs[r], f', e)
  {
    if e.verdict.Committed? { VerifyNotes(w, r, e.verdict.value, e.now); }
    ClosingTools(a, w.t.runs[r], Judge(w, f, r, e).0.t.runs[r]);
  }

  /** What closing and judging may do to the run. */
  ghost predicate CloseKeeps(a: Run, b: Run, f: Fate, e: Weather) {
    && Tooled(a, b) && b.book.binding == a.book.binding
    && (a.frozen ==> b == a && f.Threw?)
    && (f.Fine? ==>
          && e.verdict.Committed? && !b.frozen && b.closed
          && b.verifications == a.verifications + [e.verdict.value])
  }

  /** Finishing passes with SUCCEEDED only: with the plan done, no action is left that a PASS could be for. */
  lemma FinishSucceeds(w: World, r: RunId, e: Weather)
    requires r in w.t.runs && FinishUsed(w, r, e).2
    ensures r in FinishUsed(w, r, e).0.t.runs && FinishUsed(w, r, e).0.t.runs[r].status.Succeeded?
  {
    var w1 := Note(w, Close(w.t, r, w.t.runs[r].planVersion, w.t.runs[r].nextSequence - 1)).0;
    CloseRefreshes(w, r, e);
    var w2 := Refresh(w1, r, e).0;
    assert FinishUsed(w, r, e).0 == Judge(w2, Fine, r, e).0;
    JudgeSucceeds(w2, r, e);
  }

  lemma JudgeSucceeds(w: World, r: RunId, e: Weather)
    requires r in w.t.runs && AllCurrentDone(w.t.runs[r]) && w.t.runs[r].closed && !w.t.runs[r].frozen
    requires Judge(w, Fine, r, e).1.Fine? && Passing(e)
    ensures r in Judge(w, Fine, r, e).0.t.runs && Judge(w, Fine, r, e).0.t.runs[r].status.Succeeded?
  {
    PassIsFinal(w.t.runs[r], e.verdict.value);
  }

  /** With all of the plan done a PASS can only be for the whole. */
  lemma PassIsFinal(run: Run, v: VerificationResult)
    requires AllCurrentDone(run) && KnownCheckpoint(run, v) && v.verdict.Pass?
    ensures AllDone(run) && v.checkpoint.Final?
  {}

  /** A decision after which the agent goes on: it looked around, could not finish, or proposed what had its
      answer already. */
  predicate GoesOn(move: AgentMove, answered: bool) {
    match move
    case LookAround => true
    case Finish => true
    case Propose(_, _, _) => answered
    case _ => false
  }

  /** What a drive that ends so, in this state of its run, has decided last. */
  predicate EndsAs(move: AgentMove, end: DriveEnd, run: Run) {
    match end
    case Invalid => move.TooManyCalls?
    case Paused => move.Propose? && !run.book.binding.Unbound? && run.book.binding.call == move.call
    case Rested => move.Conclude? || (move.Finish? && run.status.Succeeded?)
    case Errored(_) => move.LookAround? || move.Finish? || move.Propose?
  }

  /** Every decision either lets the agent go on or ends its drive, as it should. */
  lemma CarriedGoesOn(w: World, r: RunId, move: AgentMove, answered: bool, e: Weather)
    requires r in w.t.runs
    ensures var (w', end) := Carried(w, r, move, answered, e);
            && (end.None? ==> GoesOn(move, answered))
            && (end.Some? ==> r in w'.t.runs && EndsAs(move, end.value, w'.t.runs[r]))
  {
    match move
    case LookAround => RefreshWrites(w, r, e);
    case Finish =>
      CloseAccounts(w, r, e);
      RecoverAccounts(CloseAndJudge(w, r, e).0, r, e);
      if FinishUsed(w, r, e).2 { FinishSucceeds(w, r, e); }
    case Propose(call, draft, launch) => ToolAccounts(w, r, call, draft, launch);
    case _ =>
  }

  lemma TickAccounts(w: World, r: RunId, e: Weather)
    requires r in w.t.runs
    ensures var w' := Tick(w, r, e.clock, e.tickStopNet, e.net).0;
            && r in w'.t.runs && Accounts(w.t.runs[r], w'.t.runs[r])
            && w'.t.runs[r].book == w.t.runs[r].book && |w'.t.runs[r].actions| == |w.t.runs[r].actions|
  {
    TickGentle(w, r, e.clock, e.tickStopNet, e.net);
    CalmAccounts(w.t.runs[r], Tick(w, r, e.clock, e.tickStopNet, e.net).0.t.runs[r]);
  }
}
