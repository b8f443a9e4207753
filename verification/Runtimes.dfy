/** The runtime: it drives an agent over one run, within its budgets, and answers each tool call. */
module Runtimes {
  import opened Contracts
  import Tx = Transactions
  import opened Operations
  import opened Steadiness
  import opened Schedulers
  import opened Drivers
  import opened RuntimeSteps
  import opened DrivenSteps
  import opened Refinements
  import opened Repairs
  import Progress
  import Results

  class Runtime {
    const scheduler: Scheduler
    const r: RunId
    /** The environment of each successive call that depends on it. */
    const weather: nat -> Weather
    var hour: nat
    var session: Option<seq<Turn>>
    /** What the agent decides at each of its turns. */
    const decisions: nat -> Decision
    var turn: nat

    ghost predicate Valid()
      reads scheduler.ledger
    {
      r in scheduler.ledger.runs
    }

    /** The committed state of the run. */
    function State(): Run
      requires r in scheduler.ledger.runs
      reads scheduler.ledger
    {
      scheduler.ledger.runs[r]
    }

    /** What the session holds; nothing before it began. */
    ghost function Said(): seq<Turn>
      reads this`session
    {
      if session.Some? then session.value else []
    }

    /** The session has at most one result for each call and will get no second one. */
    ghost predicate Orderly()
      requires r in scheduler.ledger.runs
      reads this, scheduler.ledger
    {
      session.Some? ==> Outbox(session.value, State().book)
    }

    /** A result is only prepared for an action of the stream. */
    ghost predicate NothingOwedBefore()
      requires r in scheduler.ledger.runs
      reads this, scheduler.ledger
    {
      session.None? && State().actions == [] ==> State().book.pendingFeedback.None?
    }

    ghost function Env(): Supply
      reads this`hour, this`turn
    {
      Supply(weather, decisions, hour, turn)
    }

    /** Since then the whole system made moves of the driver's machine, which is in this stage now. */
    ghost predicate Moved(since: Desk, stage: Stage)
      reads this`hour, this`turn, this`session, scheduler, scheduler.ledger, scheduler.executor
    {
      Tracks(since, r, Env(), scheduler.Now(), Said(), stage)
    }

    /** The identifiers of this decision are fresh, and no later one has them. */
    ghost predicate CurrentMove(move: AgentMove)
      reads this`turn, scheduler`issued, scheduler.executor
    {
      ToCome(decisions, turn, scheduler.issued, scheduler.executor.Model(), move)
    }

    constructor (scheduler: Scheduler, r: RunId, weather: nat -> Weather, decisions: nat -> Decision,
        session: Option<seq<Turn>>)
      ensures this.scheduler == scheduler && this.r == r && this.session == session
      ensures this.weather == weather && this.decisions == decisions && hour == 0 && turn == 0
    {
      this.scheduler, this.r, this.weather, this.decisions := scheduler, r, weather, decisions;
      this.hour, this.turn, this.session := 0, 0, session;
    }

    method NextWeather() returns (e: Weather)
      modifies this`hour
      ensures e == weather(old(hour)) && hour == old(hour) + 1
    {
      e, hour := weather(hour), hour + 1;
    }

    method ReadClock(ghost since: Desk, ghost stage: Stage) returns (now: Time)
      modifies this`hour
      ensures now == weather(old(hour)).now && hour == old(hour) + 1
      ensures old(Moved(since, stage)) ==> Moved(since, stage)
    {
      if Moved(since, stage) { LaterTracks(since, r, Env(), scheduler.Now(), Said(), stage); }
      var e := NextWeather();
      now := e.now;
    }

    /** A transaction on the runtime's own fields. */
    method SaveBook(book: Book)
      requires Valid()
      modifies scheduler.ledger
      ensures Valid() && scheduler.Now() == old(Post(scheduler.Now(), r, book))
      ensures State() == old(State()).(book := book)
    {
      scheduler.ledger.Save(r, State().(book := book), RuntimeLogged(r));
    }

    // ----- budgets -----

    /** Pays for one model request, if the run still takes decisions and can afford it. */
    method TakeModelCall(ghost since: Desk, now: Time) returns (paid: bool)
      requires Valid()
      modifies scheduler.ledger
      ensures Valid()
      ensures paid <==> var run := old(State());
                        && !run.frozen && !run.status.TaskCanceled? && !run.status.TaskFailed?
                        && run.book.modelCalls < run.budget.maxModelCalls
                        && now - run.createdAt < run.budget.totalSeconds
      ensures scheduler.Now() == if paid then old(Post(scheduler.Now(), r, Remarked(State().book, ModelCall(now))))
                                 else old(scheduler.Now())
      ensures old(Moved(since, Driving)) ==> Moved(since, Driving)
    {
      var run := State();
      if run.frozen || run.status.TaskCanceled? || run.status.TaskFailed? {
        return false;
      }
      if run.book.modelCalls >= run.budget.maxModelCalls || now - run.createdAt >= run.budget.totalSeconds {
        return false;
      }
      if Moved(since, Driving) {
        RemarkTracks(since, r, Env(), scheduler.Now(), Said(), Driving, ModelCall(now));
      }
      SaveBook(run.book.(modelCalls := run.book.modelCalls + 1));
      paid := true;
    }

    /** Pays for one retry, if any is left. */
    method TakeRetry(ghost since: Desk) returns (paid: bool)
      requires Valid()
      modifies scheduler.ledger
      ensures Valid() && (paid <==> old(State()).book.apiRetries < old(State()).budget.maxApiRetries)
      ensures scheduler.Now() == if paid then old(Post(scheduler.Now(), r, Remarked(State().book, ApiRetry)))
                                 else old(scheduler.Now())
      ensures old(Moved(since, Driving)) ==> Moved(since, Driving)
    {
      var book := State().book;
      paid := book.apiRetries < State().budget.maxApiRetries;
      if paid {
        if Moved(since, Driving) {
          RemarkTracks(since, r, Env(), scheduler.Now(), Said(), Driving, ApiRetry);
        }
        SaveBook(book.(apiRetries := book.apiRetries + 1));
      }
    }

    /** One attempt at a request: paid for with a model call, and with a retry if it is to be made again. */
    method TryOnce(ghost since: Desk, attempt: Attempt) returns (paid: bool, again: bool)
      requires Valid()
      modifies this`hour, scheduler.ledger
      ensures Valid() && hour == old(hour) + 1
      ensures Tried(old(State()), attempt, weather(old(hour)).now, paid, again, State())
      ensures old(Moved(since, Driving)) ==> Moved(since, Driving)
    {
      again := false;
      var now := ReadClock(since, Driving);
      paid := TakeModelCall(since, now);
      if paid && attempt.Fails? && !attempt.received {
        again := TakeRetry(since);
      }
    }

    /** One request to the model, retried after transient failures: at most one attempt more than the
        retries that are left, each paid for with a model call and each retry with a retry. */
    method GenerateContent(ghost since: Desk, attempts: nat -> Attempt) returns (failure: Option<Error>, asked: nat)
      requires Valid()
      modifies this`hour, scheduler.ledger
      ensures Valid() && Requested(old(State()), attempts, weather, old(hour), asked, failure, State())
      ensures old(Moved(since, Driving)) ==> Moved(since, Driving)
    {
      asked := 0;
      ghost var start, before := State(), hour;
      while true
        invariant Valid() && hour == before + asked
        invariant State() == Spent(start, asked, asked)
        invariant AllRetried(start, attempts, weather, before, asked)
        invariant old(Moved(since, Driving)) ==> Moved(since, Driving)
        decreases start.budget.maxApiRetries - start.book.apiRetries - asked
      {
        ghost var paying := State();
        var attempt := attempts(asked);
        var paid, again := TryOnce(since, attempt);
        ghost var trying := State();
        RequestGoesOn(start, attempts, weather, before, asked, paying, paid, again, trying);
        if !paid {
          assert Requested(start, attempts, weather, before, asked, Some(BudgetExceeded), trying);
          return Some(BudgetExceeded), asked;
        }
        asked := asked + 1;
        if !again {
          assert Requested(start, attempts, weather, before, asked, FailureOf(attempt), trying);
          return FailureOf(attempt), asked;
        }
      }
    }

    // ----- stopping, observing, revising -----

    method TerminateRun(reason: StopReason, e: Weather) returns (fate: Fate)
      requires Valid()
      modifies scheduler.ledger, scheduler.executor
      ensures (scheduler.Now(), fate) == old(Steadiness.Terminate(scheduler.Now(), r, reason, e))
      ensures Valid() && Stopped(old(State()), State(), Effective(old(State()), reason))
                && Sticks(old(State()), State())
      ensures fate.Fine? && Tx.AllTerminal(State().actions) ==>
                State().status == Progress.EndedBy(Effective(old(State()), reason)) || Over(State().status)
    {
      TerminateStops(scheduler.Now(), r, reason, e);
      Results.TerminateSettles(scheduler.Now(), r, reason, e);
      var stopping := Effective(State(), reason);
      SaveBook(State().book);
      fate := scheduler.RequestStop(r, stopping, e.stopAt, e.stopNet);
      if fate.Fine? {
        fate := scheduler.Tick(r, e.clock, e.tickStopNet, e.net);
      }
    }

    /** Cancels an unfinished run, and ends it as CANCELED if the executor confirms that; a deadline that already
        stopped it keeps precedence. */
    method Cancel(ghost since: Desk, ghost stage: Stage) returns (fate: Fate)
      requires Valid()
      modifies this`hour, scheduler.ledger, scheduler.executor
      ensures (scheduler.Now(), fate) == old(CancelRun(scheduler.Now(), r, weather(hour))) && hour == old(hour) + 1
      ensures Valid() && Accounts(old(State()), State())
      ensures !Over(old(State()).status) ==> (Canceling(State()) <==> old(State()).stopIntent != Some(Timeout))
      ensures Results.CanCancel(old(scheduler.Now()), r, weather(old(hour))) ==> Results.IsCanceled(scheduler.Now(), r)
      ensures old(Moved(since, stage)) ==> Moved(since, stage)
    {
      ghost var w := scheduler.Now();
      var e := NextWeather();
      fate := CancelExactly(e);
      if old(Moved(since, stage)) {
        CancelTracks(since, r, old(Env()), w, scheduler.Now(), Said(), stage, e);
      }
    }

    method CancelExactly(e: Weather) returns (fate: Fate)
      requires Valid()
      modifies scheduler.ledger, scheduler.executor
      ensures (scheduler.Now(), fate) == old(CancelRun(scheduler.Now(), r, e))
      ensures Valid() && Accounts(old(State()), State())
      ensures !Over(old(State()).status) ==> (Canceling(State()) <==> old(State()).stopIntent != Some(Timeout))
      ensures Results.CanCancel(old(scheduler.Now()), r, e) ==> Results.IsCanceled(scheduler.Now(), r)
    {
      Results.CancelEnds(scheduler.Now(), r, e);
      if Over(State().status) {
        TooledSelf(State());
        return Fine;
      }
      CancelTakesHold(scheduler.Now(), r, e);
      fate := TerminateRun(StopReason.Cancel, e);
      StopAccounts(old(State()), State(), Effective(old(State()), StopReason.Cancel));
    }

    method RefreshObservation(e: Weather) returns (fate: Fate)
      requires Valid()
      modifies scheduler.ledger
      ensures (scheduler.Now(), fate) == old(Refresh(scheduler.Now(), r, e))
      ensures Valid()
      ensures State() == old(State()).(observation := State().observation,
                                       book := old(State()).book.(observationCount := State().book.observationCount))
    {
      RefreshWrites(scheduler.Now(), r, e);
      var book := State().book;
      if book.observationCount >= State().budget.maxObservations {
        return Threw(BudgetExceeded);
      }
      SaveBook(book.(observationCount := book.observationCount + 1));
      if e.seen.None? {
        return Threw(Unreachable);
      }
      var noted := scheduler.Observe(r, e.seen.value);
      fate := if noted.Raised? then Threw(noted.error) else Fine;
    }

    method StopOldPlan(e: Weather) returns (fate: Fate)
      requires Valid()
      modifies scheduler.ledger, scheduler.executor
      ensures (scheduler.Now(), fate) == old(StopForReplan(scheduler.Now(), r, e))
      ensures Valid()
    {
      ReplanStops(scheduler.Now(), r, e);
      fate := scheduler.RequestStop(r, Replan, e.stopAt, e.stopNet);
      if fate.Fine? {
        fate := scheduler.Tick(r, e.clock, e.tickStopNet, e.net);
      }
    }

    method ReviseToFreshObservation(e: Weather) returns (fate: Fate, revised: bool)
      requires Valid()
      modifies scheduler.ledger
      ensures (scheduler.Now(), fate, revised) == old(RefreshAndRevise(scheduler.Now(), r, e))
      ensures Valid()
    {
      RevisionWrites(scheduler.Now(), r, e);
      fate := RefreshObservation(e);
      if fate.Threw? {
        return fate, false;
      }
      var plan := scheduler.Revise(r, State().planVersion, State().observation);
      return if plan.Raised? then Threw(plan.error) else Fine, plan.Committed?;
    }

    method RecoverPaid(e: Weather) returns (fate: Fate, revised: bool)
      requires Valid()
      modifies scheduler.ledger, scheduler.executor
      ensures (scheduler.Now(), fate, revised) == old(PaidRecovery(scheduler.Now(), r, e))
      ensures Valid()
    {
      fate := StopOldPlan(e);
      if fate.Threw? || !Tx.AllTerminal(State().actions) {
        return fate, false;
      }
      fate, revised := ReviseToFreshObservation(e);
    }

    /** Pays for a replan, stops the old plan, and revises once all of it has stopped. */
    method RecoverRun(e: Weather) returns (fate: Fate, revised: bool)
      requires Valid()
      modifies scheduler.ledger, scheduler.executor
      ensures (scheduler.Now(), fate, revised) == old(Recover(scheduler.Now(), r, e))
      ensures Valid() && Recovered(old(State()), State(), revised)
    {
      RecoverAccounts(scheduler.Now(), r, e);
      fate, revised := RecoverExactly(e);
    }

    method RecoverExactly(e: Weather) returns (fate: Fate, revised: bool)
      requires Valid()
      modifies scheduler.ledger, scheduler.executor
      ensures (scheduler.Now(), fate, revised) == old(Recover(scheduler.Now(), r, e))
    {
      var book := State().book;
      if book.replans >= State().budget.maxReplans {
        fate := TerminateRun(Failure, e);
        return fate, false;
      }
      SaveBook(book.(replans := book.replans + 1));
      fate, revised := RecoverPaid(e);
    }

    // ----- the agent's tools -----

    /** The tool that submits one action. A call that is already bound is not executed again; a
        proposal that is refused is remembered as rejected. */
    method ExecuteAction(call: CallId, draft: Draft, launch: Launch) returns (fate: Fate)
      requires Valid()
      modifies scheduler, scheduler.ledger, scheduler.executor
      ensures (scheduler.Now(), fate) == old(ToolUsed(scheduler.Now(), r, call, draft, launch))
      ensures Valid() && Tooled(old(State()), State())
      ensures State().book.binding == old(State()).book.binding
              || (!State().book.binding.Unbound? && State().book.binding.call == call)
      ensures fate.Fine? ==> !State().book.binding.Unbound? && State().book.binding.call == call
    {
      ToolAccounts(scheduler.Now(), r, call, draft, launch);
      var run := State();
      if Repeats(run.book, call) {
        return if run.book.binding.BoundTo? then Fine else Threw(KeyMissing);
      }
      var appended := scheduler.Append(r, run.planVersion, [draft], Some(call));
      if appended.Raised? {
        SaveBook(run.book.(binding := RejectedCall(call)));
        return Fine;
      }
      fate := scheduler.Dispatch(r, launch);
    }

    /** Runtime.verify: record the user verifier's verdict. */
    method RecordVerdict(v: VerificationResult, now: Time) returns (fate: Fate)
      requires Valid()
      modifies scheduler.ledger
      ensures (scheduler.Now(), fate) == old(Note(scheduler.Now(), Tx.Verify(scheduler.Now().t, r, v, now)))
      ensures Valid() && Calm(old(State()), State())
      ensures fate.Fine? ==> Tx.KnownCheckpoint(old(State()), v) && State() == Tx.Judged(old(State()), v)
      ensures fate.Threw? ==> State() == old(State())
    {
      if Tx.Verify(scheduler.ledger.Contents(), r, v, now).Committed? {
        VerifyCalm(scheduler.ledger.Contents(), r, v, now);
      }
      var verified := scheduler.Verify(r, v, now);
      fate := if verified.Raised? then Threw(verified.error) else Fine;
    }

    /** Has the user verifier judge, unless something raised before. */
    method JudgeUnless(before: Fate, e: Weather) returns (fate: Fate)
      requires Valid()
      modifies scheduler.ledger
      ensures (scheduler.Now(), fate) == old(Judge(scheduler.Now(), before, r, e))
      ensures Valid() && Calm(old(State()), State())
    {
      fate := before;
      if fate.Fine? {
        if e.verdict.Raised? {
          return Threw(e.verdict.error);
        }
        fate := RecordVerdict(e.verdict.value, e.now);
      }
    }

    /** Closes the stream at its end and has the whole task judged on a fresh observation. */
    method CloseAndVerify(e: Weather) returns (fate: Fate)
      requires Valid()
      modifies scheduler.ledger
      ensures (scheduler.Now(), fate) == old(CloseAndJudge(scheduler.Now(), r, e))
      ensures Valid() && Tooled(old(State()), State()) && State().book.binding == old(State()).book.binding
      ensures old(State()).frozen ==> State() == old(State()) && fate.Threw?
      ensures fate.Fine? ==> !State().frozen && State().closed
                             && e.verdict.Committed? && State().verifications ==
                                  old(State()).verifications + [e.verdict.value]
    {
      ghost var w := scheduler.Now();
      CloseAccounts(w, r, e);
      var closed := scheduler.Close(r, State().planVersion, State().nextSequence - 1);
      if closed.Raised? {
        return Threw(closed.error);
      }
      ghost var w1 := scheduler.Now();
      fate := RefreshObservation(e);
      ghost var w2, f2 := scheduler.Now(), fate;
      fate := JudgeUnless(fate, e);
      assert CloseAndJudge(w, r, e) == Judge(w2, f2, r, e) by { assert (w2, f2) == Refresh(w1, r, e); }
    }

    /** The tool that closes the stream and has the whole task verified. */
    method FinishTask(e: Weather) returns (fate: Fate, passed: bool)
      requires Valid()
      modifies scheduler.ledger, scheduler.executor
      ensures (scheduler.Now(), fate, passed) == old(FinishUsed(scheduler.Now(), r, e))
      ensures Valid() && Tooled(old(State()), State()) && State().book.binding == old(State()).book.binding
      ensures old(State()).frozen ==> State() == old(State())
      ensures passed ==> AllCurrentDone(old(State())) && State().closed && Passing(e) && State().status.Succeeded?
                         && State().verifications == old(State()).verifications + [e.verdict.value]
    {
      if FinishUsed(scheduler.Now(), r, e).2 { FinishSucceeds(scheduler.Now(), r, e); }
      if !AllCurrentDone(State()) {
        return Fine, false;
      }
      fate := CloseAndVerify(e);
      if fate.Threw? || Passing(e) {
        return fate, fate.Fine?;
      }
      ghost var judged := State();
      var revised;
      fate, revised := RecoverRun(e);
      RecoveryAccounts(judged, State(), revised);
      TooledTrans(old(State()), judged, State());
      passed := false;
    }

    // ----- driving the agent -----

    method Say(turns: seq<Turn>)
      requires session.Some?
      modifies this`session
      ensures session == Some(old(session).value + turns)
    {
      session := Some(session.value + turns);
    }

    /** Carries out what one answer of the model asks for; `None` lets the agent go on. The agent
        framework does not run a call that has its result. */
    method CarryOut(move: AgentMove) returns (end: Option<DriveEnd>)
      requires Valid() && session.Some? && AllSent(session.value, State().book)
      modifies this`hour, this`session, scheduler, scheduler.ledger, scheduler.executor
      ensures (scheduler.Now(), end) ==
                old(Carried(scheduler.Now(), r, move, HasResult(session.value, move), weather(hour)))
      ensures session == Some(old(session).value + old(ToolTurns(session.value, move))) && hour == old(hour) + 1
      ensures Valid() && Tooled(old(State()), State()) && AllSent(session.value, State().book)
    {
      TooledSelf(State());
      assert old(session).value + [] == old(session).value;
      var e := NextWeather();
      match move {
        case TooManyCalls => end := Some(Invalid);
        case Conclude => end := Some(Rested);
        case LookAround =>
          var fate := RefreshObservation(e);
          end := if fate.Fine? then None else Some(Errored(fate.error));
        case Finish =>
          var fate, passed := FinishTask(e);
          end := if fate.Threw? then Some(Errored(fate.error)) else if passed then Some(Rested) else None;
        case Propose(call, draft, launch) =>
          if UserResult(call) in session.value {
            return None;
          }
          var fate := ExecuteAction(call, draft, launch);
          Say([ToolCall(call), Receipt(call)]);
          OutboxGrows(old(session).value, [ToolCall(call), Receipt(call)], old(State()).book, State().book);
          end := if fate.Fine? then Some(Paused) else Some(Errored(fate.error));
      }
    }

    /** ... as moves of the driver's machine. */
    method CarryOutFreshly(ghost since: Desk, move: AgentMove) returns (end: Option<DriveEnd>)
      requires Valid() && session.Some? && AllSent(session.value, State().book)
      modifies this`hour, this`session, scheduler, scheduler.ledger, scheduler.executor
      ensures session.Some? && old(session).value <= session.value
      ensures Valid() && Tooled(old(State()), State()) && AllSent(session.value, State().book)
      ensures end.None? ==> GoesOn(move, HasResult(session.value, move))
      ensures end.Some? ==> EndsAs(move, end.value, State())
      ensures old(Moved(since, Driving) && CurrentMove(move)) ==> Moved(since, Driving)
    {
      CarriedGoesOn(scheduler.Now(), r, move, HasResult(session.value, move), weather(hour));
      ResultStays(session.value, session.value + ToolTurns(session.value, move), move);
      end := CarryOut(move);
      if old(Moved(since, Driving) && CurrentMove(move)) {
        CarriedTracks(since, r, old(Env()), old(scheduler.Now()), scheduler.Now(), old(Said()), move,
            weather(old(hour)));
        assert Env() == Later(old(Env()));
      }
    }

    /** Asks the model for the agent's next decision. */
    method Ask(ghost since: Desk) returns (decision: Decision, failure: Option<Error>, ghost asked: nat)
      requires Valid()
      modifies this`hour, this`turn, scheduler.ledger
      ensures decision == decisions(old(turn)) && turn == old(turn) + 1
      ensures Valid() && Requested(old(State()), decision.attempts, weather, old(hour), asked, failure, State())
      ensures Asked(old(State()), State(), failure.None?)
      ensures old(Moved(since, Driving)) ==> Moved(since, Driving) && CurrentMove(decision.move)
    {
      if Moved(since, Driving) { TurnTracks(since, r, Env(), scheduler.Now(), Said(), Driving); }
      decision := decisions(turn);
      turn := turn + 1;
      var attempts;
      failure, attempts := GenerateContent(since, decision.attempts);
      asked := attempts;
      RequestStaysWithin(old(State()), decision.attempts, weather, old(hour), asked, failure, State());
    }

    /** One decision of the agent: asks the model, then carries out its answer; `None` lets the agent
        go on, and has cost a model call. */
    method Decide(ghost since: Desk) returns (end: Option<DriveEnd>)
      requires Valid() && session.Some? && AllSent(session.value, State().book)
      modifies this, scheduler, scheduler.ledger, scheduler.executor
      ensures Valid() && DecidedWithin(old(State()), State(), if end.None? then 1 else 0)
      ensures session.Some? && old(session).value <= session.value && AllSent(session.value, State().book)
      ensures turn == old(turn) + 1 && Decided(decisions(old(turn)), Said(), State(), end)
      ensures old(Moved(since, Driving)) ==> Moved(since, Driving)
    {
      var decision, failure, asked := Ask(since);
      if failure.Some? {
        return Some(Errored(failure.value));
      }
      ghost var asking := State();
      end := CarryOutFreshly(since, decision.move);
      AskedThenTooled(old(State()), asking, State());
    }

    /** Sends the agent its message, if there is one. */
    method Open(ghost since: Desk, ghost stage: Stage, message: Option<CallId>)
      requires Valid() && session.Some? && MayDrive(stage, session.value, State().book, message)
      modifies this`session
      ensures session == Some(old(session).value + Turns(message)) && AllSent(session.value, State().book)
      ensures old(Moved(since, stage)) ==> Moved(since, Driving)
    {
      if Moved(since, stage) { OpenTracks(since, r, Env(), scheduler.Now(), Said(), stage, message); }
      Say(Turns(message));
    }

    /** One uninterrupted run of the agent: it starts from the message, if there is one, and ends when
        a tool leaves it waiting, when it concludes, or when something fails -- after at most one
        decision more than the model calls it spent. */
    method Drive(ghost since: Desk, ghost stage: Stage, message: Option<CallId>) returns (end: DriveEnd, decided: nat)
      requires Valid() && session.Some? && MayDrive(stage, session.value, State().book, message)
      modifies this, scheduler, scheduler.ledger, scheduler.executor
      ensures Valid() && Proceeds(old(State()), State())
      ensures State().book.invalidProposals == old(State()).book.invalidProposals
      ensures decided <= State().book.modelCalls - old(State()).book.modelCalls + 1 <= Remaining(old(State())) + 1
      ensures session.Some? && Told(old(session).value, message, session.value)
                && AllSent(session.value, State().book)
      ensures turn == old(turn) + decided && DrivenOnce(decisions, old(turn), turn, Said(), State(), end)
      ensures old(Moved(since, stage)) ==> Moved(since, Driving)
    {
      Open(since, stage, message);
      end, decided := KeepDeciding(since);
      SpentWithinBudget(old(State()), State(), decided - 1);
    }

    /** The agent's decisions, until one ends the drive. */
    method KeepDeciding(ghost since: Desk) returns (end: DriveEnd, decided: nat)
      requires Valid() && session.Some? && AllSent(session.value, State().book)
      modifies this, scheduler, scheduler.ledger, scheduler.executor
      ensures Valid() && decided > 0 && DecidedWithin(old(State()), State(), decided - 1)
      ensures session.Some? && old(session).value <= session.value && AllSent(session.value, State().book)
      ensures turn == old(turn) + decided && DrivenOnce(decisions, old(turn), turn, Said(), State(), end)
      ensures old(Moved(since, Driving)) ==> Moved(since, Driving)
    {
      decided := 0;
      ghost var start, told, first := State(), Said(), turn;
      TooledSelf(start);
      while true
        invariant Valid() && DecidedWithin(start, State(), decided)
        invariant session.Some? && told <= session.value && AllSent(session.value, State().book)
        invariant turn == first + decided && AllWentOn(decisions, first, turn, Said())
        invariant old(Moved(since, Driving)) ==> Moved(since, Driving)
        decreases Remaining(State())
      {
        ghost var before, said := State(), Said();
        var over := Decide(since);
        OneMoreDecided(decisions, first, turn - 1, said, Said(), State(), over);
        OneMoreWithin(start, before, State(), decided, if over.None? then 1 else 0);
        decided := decided + 1;
        if over.Some? {
          assert DrivenOnce(decisions, first, turn, Said(), State(), over.value);
          return over.value, decided;
        }
      }
    }

    /** Records an invalid decision and whether the budget for them is exhausted. */
    method CountInvalid(ghost since: Desk) returns (exhausted: bool)
      requires Valid()
      modifies scheduler.ledger
      ensures Valid()
      ensures var a := old(State());
              State() == a.(book := a.book.(invalidProposals := a.book.invalidProposals + 1))
      ensures exhausted <==> State().book.invalidProposals > State().budget.maxInvalidProposals
      ensures old(Moved(since, Between)) ==> Moved(since, Between)
    {
      if Moved(since, Between) {
        RemarkTracks(since, r, Env(), scheduler.Now(), Said(), Between, InvalidDecision);
      }
      SaveBook(State().book.(invalidProposals := State().book.invalidProposals + 1));
      exhausted := State().book.invalidProposals > State().budget.maxInvalidProposals;
    }

    /** One drive of the repair loop, and what it amounts to. */
    method DriveAndJudge(ghost since: Desk, ghost stage: Stage, message: Option<CallId>)
        returns (j: Judgement, ghost end: DriveEnd)
      requires Valid() && session.Some? && MayDrive(stage, session.value, State().book, message)
      modifies this, scheduler, scheduler.ledger, scheduler.executor
      ensures Valid() && Proceeds(old(State()), State())
      ensures State().book.invalidProposals == old(State()).book.invalidProposals
      ensures session.Some? && Told(old(session).value, message, session.value)
                && AllSent(session.value, State().book)
      ensures DrivenOnce(decisions, old(turn), turn, Said(), State(), end)
      ensures JudgedAs(end, State(), session.value, j)
      ensures old(Moved(since, stage)) ==> Moved(since, Between)
    {
      var ended, _ := Drive(since, stage, message);
      end := ended;
      if old(Moved(since, stage)) { CloseTracks(since, r, Env(), scheduler.Now(), Said()); }
      var run := State();
      var binding := run.book.binding;
      var paused := ended.Paused? || (binding.BoundTo? && UserResult(binding.call) !in session.value);
      if ended.Errored? {
        j := Broken(ended.error);
      } else if ended.Invalid? {
        j := Again(None);
      } else if binding.RejectedCall? {
        j := Again(Some(binding.call));
      } else if !Over(run.status) && !run.status.Blocked? && !run.closed && !paused && Tx.AllTerminal(run.actions) {
        j := Again(None);
      } else {
        j := Sound;
      }
    }

    /** The repair loop: drives the agent again after each invalid decision, at most as often as the
        budget for invalid decisions has left, and stops the run when that is exhausted or on an
        expected error. */
    method Repair(ghost since: Desk, message: Option<CallId>)
        returns (drives: nat, fate: Fate, ghost judged: seq<Judgement>)
      requires Valid() && session.Some? && Outbox(session.value, State().book)
      requires message == Due(session.value, State().book)
      modifies this, scheduler, scheduler.ledger, scheduler.executor
      ensures Valid() && Proceeds(old(State()), State())
      ensures session.Some? && Outbox(session.value, State().book)
      ensures |judged| == drives && Repaired(old(State()), State(), old(Said()), Said(), message, judged, fate)
      ensures old(turn) + drives <= turn && Resettled(decisions, old(turn), turn, Said(), State(), fate)
      ensures old(Moved(since, Outside)) ==> Moved(since, Outside)
    {
      drives, judged := 0, [];
      ghost var start, heard := State(), session.value;
      var next := message;
      ghost var stage := Outside;
      RepairBegins(start, heard, message);
      DueMayBeSent(session.value, State().book);
      while true
        invariant Valid() && session.Some? && Outbox(session.value, State().book)
        invariant Proceeds(start, State())
        invariant Repairing(start, State(), heard, Said(), message, next, judged)
        invariant |judged| == drives && old(turn) + drives <= turn
        invariant MayDrive(stage, session.value, State().book, next)
        invariant old(Moved(since, Outside)) ==> Moved(since, stage)
        decreases start.budget.maxInvalidProposals - State().book.invalidProposals
      {
        ghost var said, run, before, first := Said(), State(), judged, turn;
        var drove, over, refused;
        ghost var j, driven;
        drove, over, fate, refused, j, driven := Round(since, stage, start, next);
        if drove {
          drives, judged := drives + 1, judged + [j];
        }
        RoundRepairs(start, run, driven, State(), heard, said, Said(), message, next, before, drove, j, over, fate,
            refused);
        if over {
          ResettledSince(decisions, old(turn), first, turn, Said(), State(), fate);
          return;
        }
        next, stage := refused, StageFor(refused);
      }
    }

    /** One round of the repair loop: a drive, unless the run's time is over. */
    method Round(ghost since: Desk, ghost stage: Stage, ghost start: Run, message: Option<CallId>)
        returns (drove: bool, over: bool, fate: Fate, refused: Option<CallId>, ghost j: Judgement, ghost driven: Run)
      requires Valid() && Proceeds(start, State()) && session.Some? && Outbox(session.value, State().book)
      requires MayDrive(stage, session.value, State().book, message)
      modifies this, scheduler, scheduler.ledger, scheduler.executor
      ensures Valid() && Proceeds(start, State()) && session.Some? && Outbox(session.value, State().book)
      ensures drove <==> weather(old(hour)).now - old(State()).createdAt < old(State()).budget.totalSeconds
      ensures Rounded(old(State()), State(), old(Said()), Said(), message, drove, j, driven, over, fate, refused)
      ensures if drove then Drove(decisions, old(turn), turn, Said(), driven, j) else turn == old(turn)
      ensures over ==> Resettled(decisions, old(turn), turn, Said(), State(), fate)
      ensures !over ==> MayDrive(StageFor(refused), session.value, State().book, refused)
      ensures old(Moved(since, stage)) ==> Moved(since, if over then Outside else StageFor(refused))
    {
      refused, j, driven := None, Sound, State();
      var now := ReadClock(since, stage);
      drove := now - State().createdAt < State().budget.totalSeconds;
      if drove {
        over, fate, refused, j, driven := DriveOnce(since, stage, start, message);
      } else {
        over := true;
        fate := FailLoop(since, stage, start);
      }
    }

    /** Stops the run as failed and leaves the repair loop. */
    method FailLoop(ghost since: Desk, ghost stage: Stage, ghost start: Run) returns (fate: Fate)
      requires Valid() && Proceeds(start, State()) && !stage.Driving?
      modifies this`hour, scheduler.ledger, scheduler.executor
      ensures Valid() && Proceeds(start, State()) && State().book == old(State()).book && Halted(State(), fate)
      ensures old(Moved(since, stage)) ==> Moved(since, Outside)
    {
      fate := Fail(since, stage, start);
      if old(Moved(since, stage)) { LeaveTracks(since, r, Env(), scheduler.Now(), Said(), stage); }
    }

    /** One drive, the refusal of an invalid decision while there is budget for it, and otherwise the
        end of the loop. */
    method DriveOnce(ghost since: Desk, ghost stage: Stage, ghost start: Run, message: Option<CallId>)
        returns (over: bool, fate: Fate, refused: Option<CallId>, ghost j: Judgement, ghost driven: Run)
      requires Valid() && Proceeds(start, State()) && session.Some?
      requires MayDrive(stage, session.value, State().book, message)
      modifies this, scheduler, scheduler.ledger, scheduler.executor
      ensures Valid() && Proceeds(start, State()) && session.Some?
      ensures Outbox(session.value, State().book)
      ensures Rounded(old(State()), State(), old(Said()), Said(), message, true, j, driven, over, fate, refused)
      ensures Drove(decisions, old(turn), turn, Said(), driven, j)
      ensures over ==> Resettled(decisions, old(turn), turn, Said(), State(), fate)
      ensures !over ==> MayDrive(StageFor(refused), session.value, State().book, refused)
      ensures old(Moved(since, stage)) ==> Moved(since, if over then Outside else StageFor(refused))
    {
      var judgement;
      ghost var end;
      judgement, end := DriveAndJudge(since, stage, message);
      j, driven := judgement, State();
      assert DrivenOnce(decisions, old(turn), turn, Said(), driven, end) && JudgedAs(end, driven, Said(), j);
      ProceedsTrans(start, old(State()), State());
      over, fate, refused := Conclude(since, start, judgement);
      if over { DriveResettles(decisions, old(turn), turn, Said(), driven, j, State(), fate, refused); }
    }

    /** What a drive leads to. */
    method Conclude(ghost since: Desk, ghost start: Run, j: Judgement)
        returns (over: bool, fate: Fate, refused: Option<CallId>)
      requires Valid() && Proceeds(start, State()) && session.Some? && AllSent(session.value, State().book)
      requires j.Again? && j.refused.Some? ==>
                 State().book.binding.RejectedCall? && State().book.binding.call == j.refused.value
      modifies this`hour, scheduler.ledger, scheduler.executor
      ensures Valid() && Proceeds(start, State()) && Outbox(session.value, State().book)
      ensures Concludes(j, old(State()), State(), over, fate, refused)
      ensures !over ==> MayDrive(StageFor(refused), session.value, State().book, refused)
      ensures old(Moved(since, Between)) ==> Moved(since, if over then Outside else StageFor(refused))
    {
      refused, fate, over := None, Fine, true;
      if j.Again? {
        over, fate := Reconsider(since, start, j.refused);
        refused := j.refused;
      } else if j.Broken? && Caught(j.error) {
        fate := FailLoop(since, Between, start);
      } else {
        if j.Broken? {
          fate := Threw(j.error);
        }
        if old(Moved(since, Between)) { LeaveTracks(since, r, Env(), scheduler.Now(), Said(), Between); }
      }
    }

    /** Refuses an invalid decision, or stops the run when there were too many of them. */
    method Reconsider(ghost since: Desk, ghost start: Run, refused: Option<CallId>) returns (over: bool, fate: Fate)
      requires Valid() && Proceeds(start, State()) && session.Some? && AllSent(session.value, State().book)
      requires refused.Some? ==> State().book.binding.RejectedCall? && State().book.binding.call == refused.value
      modifies this`hour, scheduler.ledger, scheduler.executor
      ensures Valid() && Proceeds(start, State()) && Outbox(session.value, State().book)
      ensures Concludes(Again(refused), old(State()), State(), over, fate, refused)
      ensures !over ==> MayDrive(StageFor(refused), session.value, State().book, refused)
      ensures old(Moved(since, Between)) ==> Moved(since, if over then Outside else StageFor(refused))
    {
      fate := Fine;
      over := Refuse(since, start, refused);
      if over {
        fate := FailLoop(since, Between, start);
      }
    }

    /** Counts an invalid decision and, while the budget for them lasts, prepares its refusal. */
    method Refuse(ghost since: Desk, ghost start: Run, refused: Option<CallId>) returns (exhausted: bool)
      requires Valid() && Proceeds(start, State()) && session.Some? && AllSent(session.value, State().book)
      requires refused.Some? ==> State().book.binding.RejectedCall? && State().book.binding.call == refused.value
      modifies scheduler.ledger
      ensures Valid() && Proceeds(start, State()) && AllSent(session.value, State().book)
      ensures State() == old(State()).(book := State().book)
      ensures State().book.invalidProposals == old(State()).book.invalidProposals + 1
      ensures exhausted <==> State().book.invalidProposals > State().budget.maxInvalidProposals
      ensures !exhausted ==> !State().book.binding.RejectedCall?
      ensures !exhausted ==> MayDrive(StageFor(refused), session.value, State().book, refused)
      ensures old(Moved(since, Between)) ==> Moved(since, if exhausted then Between else StageFor(refused))
    {
      exhausted := CountInvalid(since);
      RefusalProceeds(start, old(State()), State());
      if !exhausted {
        DropRejection(since, start, refused);
        if refused.Some? {
          ResultSettles(session.value, refused.value, State().book);
        } else {
          assert session.value + [] == session.value;
        }
      }
    }

    method ForgetRejection(ghost since: Desk)
      requires Valid() && State().book.binding.RejectedCall?
      modifies scheduler.ledger
      ensures Valid() && State() == old(State()).(book := old(State()).book.(binding := Unbound))
      ensures old(Moved(since, Between)) ==> Moved(since, Refusing(old(State()).book.binding.call))
    {
      if Moved(since, Between) { RefuseTracks(since, r, Env(), scheduler.Now(), Said()); }
      SaveBook(State().book.(binding := Unbound));
    }

    /** Forgets a rejected call before its refusal is sent. */
    method DropRejection(ghost since: Desk, ghost start: Run, ghost refused: Option<CallId>)
      requires Valid() && Proceeds(start, State())
      requires refused.Some? ==> State().book.binding.RejectedCall? && State().book.binding.call == refused.value
      modifies scheduler.ledger
      ensures Valid() && Proceeds(start, State()) && !State().book.binding.RejectedCall?
      ensures State() == old(State()).(book := Unrejected(old(State()).book))
      ensures old(Moved(since, Between)) ==> Moved(since, StageFor(refused))
    {
      ghost var stage := Between;
      if State().book.binding.RejectedCall? {
        stage := Refusing(State().book.binding.call);
        ForgetRejection(since);
      }
      if refused.None? && old(Moved(since, Between)) { LeaveTracks(since, r, Env(), scheduler.Now(), Said(), stage); }
    }

    /** Stops the run as failed, unless a cancel or a timeout outranks that. */
    method Fail(ghost since: Desk, ghost stage: Stage, ghost start: Run) returns (fate: Fate)
      requires Valid() && Proceeds(start, State())
      modifies this`hour, scheduler.ledger, scheduler.executor
      ensures Valid() && Proceeds(start, State())
      ensures (scheduler.Now(), fate) == old(Terminate(scheduler.Now(), r, StopReason.Failure, weather(hour)))
      ensures State().book == old(State()).book && Halted(State(), fate)
      ensures old(Moved(since, stage)) ==> Moved(since, stage)
    {
      fate := TerminateFreshly(since, stage);
      StopAccounts(old(State()), State(), Effective(old(State()), StopReason.Failure));
      ProceedsTrans(start, old(State()), State());
    }

    method TerminateFreshly(ghost since: Desk, ghost stage: Stage) returns (fate: Fate)
      requires Valid()
      modifies this`hour, scheduler.ledger, scheduler.executor
      ensures var reason := Effective(old(State()), StopReason.Failure);
              && Valid() && Stopped(old(State()), State(), reason) && Sticks(old(State()), State())
              && (fate.Fine? && Tx.AllTerminal(State().actions) ==>
                    State().status == Progress.EndedBy(reason) || Over(State().status))
      ensures (scheduler.Now(), fate) == old(Terminate(scheduler.Now(), r, StopReason.Failure, weather(hour)))
      ensures old(Moved(since, stage)) ==> Moved(since, stage)
    {
      var e := NextWeather();
      fate := TerminateRun(StopReason.Failure, e);
      if old(Moved(since, stage)) {
        TerminateTracks(since, r, old(Env()), old(scheduler.Now()), scheduler.Now(), Said(), stage,
            StopReason.Failure, e);
        assert Env() == Later(old(Env()));
      }
    }

    // ----- answering tool calls -----

    /** Sends the prepared result of a tool call, unless the session already has it, and lets the agent
        go on. */
    method SendResult(ghost since: Desk, call: CallId) returns (fate: Fate)
      requires Valid() && Orderly() && session.Some? && State().book.pendingFeedback == Some(call)
      modifies this, scheduler, scheduler.ledger, scheduler.executor
      ensures Valid() && Proceeds(old(State()), State())
      ensures session.Some? && old(session).value <= session.value && Outbox(session.value, State().book)
      ensures fate.Threw? ==> State().frozen || Escapes(fate)
      ensures Answered(session.value, call) || State().frozen
      ensures Resettled(decisions, old(turn), turn, Said(), State(), fate)
      ensures fate.Fine? && !State().frozen ==> !State().book.binding.RejectedCall?
      ensures old(Moved(since, Outside)) ==> Moved(since, Outside)
    {
      var message := if UserResult(call) in session.value then None else Some(call);
      var drives;
      ghost var judged;
      drives, fate, judged := Repair(since, message);
      if drives > 0 {
        AnswerArrives(old(session).value, message, call, session.value);
      }
    }

    /** ... and empties the outbox. The result stays unsent only if the run is stopped instead; an error
        that escapes leaves the outbox as it is. */
    method SendPrepared(ghost since: Desk, call: CallId) returns (fate: Fate)
      requires Valid() && Orderly() && session.Some? && State().book.pendingFeedback == Some(call)
      modifies this, scheduler, scheduler.ledger, scheduler.executor
      ensures Valid() && Accounts(old(State()), State()) && Orderly() && session.Some? && old(Said()) <= Said()
      ensures Delivered(old(State()), State(), Said(), call, fate)
      ensures Halted(State(), fate) || Escapes(fate) || old(turn) < turn
      ensures old(Moved(since, Outside)) ==> Moved(since, Outside)
    {
      fate := SendResult(since, call);
      ghost var driven := State();
      if fate.Fine? {
        ClearFeedback(since);
      }
      OutboxEmptied(old(State()), driven, State());
    }

    method ClearFeedback(ghost since: Desk)
      requires Valid()
      modifies scheduler.ledger
      ensures Valid() && State() == old(State()).(book := old(State()).book.(pendingFeedback := None))
      ensures old(Moved(since, Outside)) ==> Moved(since, Outside)
    {
      if Moved(since, Outside) { ClearTracks(since, r, Env(), scheduler.Now(), Said()); }
      SaveBook(State().book.(pendingFeedback := None));
    }

    /** Delivers the prepared result, if there is one, and goes on with whatever the agent bound
        meanwhile. */
    method DeliverFeedback(ghost since: Desk) returns (fate: Fate)
      requires Valid() && Orderly()
      modifies this, scheduler, scheduler.ledger, scheduler.executor
      ensures Valid() && Accounts(old(State()), State()) && Orderly() && old(Said()) <= Said()
      ensures old(State()).book.pendingFeedback.Some? ==>
                NothingOwed(State(), Said(), fate) && (Answered(Said(),
                    old(State()).book.pendingFeedback.value) || Excused(State(), session.None?, fate))
      ensures old(Moved(since, Outside)) ==> Moved(since, Outside)
      decreases Remaining(State()), Outdated(State().book), 0
    {
      var pending := State().book.pendingFeedback;
      if pending.None? || session.None? {
        TooledSelf(State());
        return if pending.None? then Fine else Threw(MissingSession);
      }
      fate := SendPrepared(since, pending.value);
      ghost var a, b, told, e := old(State()), State(), Said(), weather(hour);
      if fate.Fine? && (State().book.binding.Unbound? || State().book.binding.call != pending.value) {
        LessToDo(a, b, told, pending.value);
        fate := ContinueExecution(since);
        ContinuedAfter(a, b, told, pending.value, e, State(), Said(), fate);
      } else {
        DeliveredAll(a, b, told, pending.value, fate);
      }
    }

    /** Observes again and, if the action completed without having been judged, has it judged. */
    method JudgeAction(action: Action, e: Weather) returns (fate: Fate)
      requires Valid()
      modifies scheduler.ledger
      ensures (scheduler.Now(), fate) == old(JudgeEnded(scheduler.Now(), r, action, e))
      ensures Valid() && Tooled(old(State()), State())
      ensures State().book == old(State()).book.(observationCount := State().book.observationCount)
      ensures State().frozen == old(State()).frozen && State().stopIntent == old(State()).stopIntent
    {
      fate := RefreshObservation(e);
      if action.status.Completed? && !action.verified {
        ghost var seen := State();
        fate := JudgeUnless(fate, e);
        CalmAccounts(seen, State());
        TooledTrans(old(State()), seen, State());
      }
    }

    /** Replans if the action failed, in the plan it belongs to; a crash after the revision therefore
        costs no second replan. The driver goes on unless the run is stopped. */
    method RepairPlan(action: Action, verdict: Option<Verdict>, e: Weather) returns (fate: Fate, ready: bool)
      requires Valid() && !Canceling(State()) && !TimingOut(State())
      modifies scheduler.ledger, scheduler.executor
      ensures (scheduler.Now(), fate, ready) == old(RepairFailed(scheduler.Now(), r, action, verdict, e))
      ensures Valid() && Tooled(old(State()), State())
      ensures State().book == old(State()).book.(replans := State().book.replans,
                observationCount := State().book.observationCount)
      ensures if FailedIn(old(State()).planVersion, action, verdict) then Recovered(old(State()), State(), ready)
              else State() == old(State()) && ready
      ensures ready ==> fate.Fine?
      ensures !ready ==> State().frozen
    {
      TooledSelf(State());
      fate, ready := Fine, true;
      if FailedIn(State().planVersion, action, verdict) {
        RevisedIsFine(scheduler.Now(), r, e);
        fate, ready := RecoverRun(e);
        RecoveryAccounts(old(State()), State(), ready);
      }
    }

    /** Settles the outcome of the bound action: has its completion judged, replans if it failed, and
        prepares its result for the agent. */
    method PrepareAnswer(action: Action, e: Weather) returns (fate: Fate, ready: bool)
      requires Valid() && State().book.binding.BoundTo?
      requires State().stopIntent.None? || State().stopIntent.value.Replan?
      modifies scheduler.ledger, scheduler.executor
      ensures (scheduler.Now(), fate, ready) == old(Prepare(scheduler.Now(), r, action, e))
      ensures Valid() && Prepared(old(State()), State(), fate, ready)
      ensures ready && IsBound(old(State()), action) ==> Results.Settles(old(State()), action, e, State())
    {
      if Prepare(scheduler.Now(), r, action, e).2 && IsBound(State(), action) {
        Results.PrepareSettles(scheduler.Now(), r, action, e);
      }
      fate, ready := PrepareExactly(action, e);
    }

    method PrepareExactly(action: Action, e: Weather) returns (fate: Fate, ready: bool)
      requires Valid() && State().book.binding.BoundTo?
      requires State().stopIntent.None? || State().stopIntent.value.Replan?
      modifies scheduler.ledger, scheduler.executor
      ensures (scheduler.Now(), fate, ready) == old(Prepare(scheduler.Now(), r, action, e))
      ensures Valid() && Prepared(old(State()), State(), fate, ready)
    {
      ready := false;
      var verdict := VerdictOn(State(), action, e);
      fate := JudgeAction(action, e);
      if fate.Threw? {
        return;
      }
      ghost var judged := State();
      fate, ready := RepairPlan(action, verdict, e);
      AccountsTrans(old(State()), judged, State());
      if ready {
        ghost var recovered := State();
        SaveBook(State().book.(pendingFeedback := Some(State().book.binding.call)));
        AccountsTrans(old(State()), recovered, State());
      }
    }

    /** ... as moves of the driver's machine. */
    method PrepareFreshly(ghost since: Desk, action: Action) returns (fate: Fate, ready: bool)
      requires Valid() && IsBound(State(), action) && State().book.pendingFeedback.None?
      requires State().stopIntent.None? || State().stopIntent.value.Replan?
      modifies this`hour, scheduler.ledger, scheduler.executor
      ensures Valid() && Prepared(old(State()), State(), fate, ready)
      ensures ready ==> Results.Settles(old(State()), action, weather(old(hour)), State())
      ensures old(Moved(since, Outside)) ==> Moved(since, Outside)
    {
      ghost var s, w, said, tracked := Env(), scheduler.Now(), Said(), Moved(since, Outside);
      var e := NextWeather();
      fate, ready := PrepareAnswer(action, e);
      if tracked {
        PrepareTracks(since, r, s, w, scheduler.Now(), said, action, e);
        assert Env() == Later(s) && Said() == said;
      }
    }

    /** Goes on after the bound action ended. A run that is over, cancelled, timed out or failed, or has
        nothing that ended, is left alone; otherwise the call gets its result or the run is stopped. */
    method ContinueExecution(ghost since: Desk) returns (fate: Fate)
      requires Valid() && Orderly()
      modifies this, scheduler, scheduler.ledger, scheduler.executor
      ensures Valid() && Answers(old(State()), weather(old(hour)), State(), Said(), session.None?, fate) && Orderly()
                && old(Said()) <= Said()
      ensures Owed(old(State())).None? ==> scheduler.Now() == old(scheduler.Now()) && session == old(session)
      ensures old(Moved(since, Outside)) ==> Moved(since, Outside)
      decreases Remaining(State()), Outdated(State().book), 3
    {
      TooledSelf(State());
      var run := State();
      if Over(run.status) || (run.stopIntent.Some? && !run.stopIntent.value.Replan?) {
        return Fine;
      }
      if run.book.pendingFeedback.Some? {
        fate := DeliverFeedback(since);
        return;
      }
      if !run.book.binding.BoundTo? {
        return Fine;
      }
      var k := Tx.FindAction(run.actions, run.book.binding.action);
      if k == |run.actions| {
        return Threw(NoSuchAction);
      }
      if !Terminal(run.actions[k].status) {
        return Fine;
      }
      fate := AnswerEnded(since, run.actions[k]);
    }

    /** Answers the bound call, whose action ended, or stops the run. */
    method AnswerEnded(ghost since: Desk, action: Action) returns (fate: Fate)
      requires Valid() && Orderly() && IsBound(State(), action) && State().book.pendingFeedback.None?
      requires State().stopIntent.None? || State().stopIntent.value.Replan?
      modifies this, scheduler, scheduler.ledger, scheduler.executor
      ensures Valid() && Accounts(old(State()), State()) && Orderly() && old(Said()) <= Said()
      ensures Answered(Said(), old(State()).book.binding.call) || State().frozen || Escapes(fate)
      ensures NothingOwed(State(), Said(), fate)
      ensures fate.Fine? && !State().frozen ==> Lasting(old(State()), action, weather(old(hour)), State())
      ensures old(Moved(since, Outside)) ==> Moved(since, Outside)
      decreases Remaining(State()), Outdated(State().book), 2
    {
      fate := TryToAnswer(since, action);
      ghost var settled := State();
      fate := StopOnError(since, fate);
      AccountsTrans(old(State()), settled, State());
    }

    /** Settles what became of the bound action, and delivers the result. */
    method TryToAnswer(ghost since: Desk, action: Action) returns (fate: Fate)
      requires Valid() && Orderly() && IsBound(State(), action) && State().book.pendingFeedback.None?
      requires State().stopIntent.None? || State().stopIntent.value.Replan?
      modifies this, scheduler, scheduler.ledger, scheduler.executor
      ensures Valid() && Accounts(old(State()), State()) && Orderly() && old(Said()) <= Said()
      ensures fate.Threw? || Answered(Said(), old(State()).book.binding.call) || State().frozen
      ensures NothingOwed(State(), Said(), fate)
      ensures fate.Fine? && !State().frozen ==> Lasting(old(State()), action, weather(old(hour)), State())
      ensures old(Moved(since, Outside)) ==> Moved(since, Outside)
      decreases Remaining(State()), Outdated(State().book), 1
    {
      var ready;
      fate, ready := PrepareFreshly(since, action);
      if ready {
        ghost var prepared := State();
        fate := DeliverFeedback(since);
        SettlingLasts(old(State()), action, weather(old(hour)), prepared, State());
      }
    }

    /** Answers an expected error by stopping the run; the others escape. */
    method StopOnError(ghost since: Desk, before: Fate) returns (fate: Fate)
      requires Valid()
      modifies this`hour, scheduler.ledger, scheduler.executor
      ensures Valid() && Accounts(old(State()), State()) && State().book == old(State()).book
      ensures if before.Fine? then fate.Fine? && State() == old(State()) else State().frozen || Escapes(fate)
      ensures old(Moved(since, Outside)) ==> Moved(since, Outside)
    {
      fate := before;
      TooledSelf(State());
      if fate.Threw? && Caught(fate.error) {
        fate := Fail(since, Outside, State());
      }
    }

    // ----- entry points -----

    /** An execution event arrives. */
    method Feedback(ghost since: Desk, ev: Event) returns (fate: Fate)
      requires Valid() && Orderly()
      modifies this, scheduler, scheduler.ledger, scheduler.executor
      ensures Valid() && Accounts(old(State()), State()) && Orderly() && old(Said()) <= Said()
      ensures old(Tx.Apply(scheduler.Now().t, ev)).Raised? ==> fate.Threw? && scheduler.Now() == old(scheduler.Now())
      ensures old(Tx.Apply(scheduler.Now().t, ev)).Committed? ==>
                Answers(old(Tx.Apply(scheduler.Now().t, ev)).value.runs[r], weather(old(hour)),
                    State(), Said(), session.None?, fate)
      ensures old(Moved(since, Outside) && ev in scheduler.executor.events) ==> Moved(since, Outside)
    {
      if Moved(since, Outside) && ev in scheduler.executor.events {
        DeliveryTracks(since, r, Env(), scheduler.Now(), Said(), Outside, ev);
      }
      TooledSelf(State());
      if Tx.Apply(scheduler.ledger.Contents(), ev).Committed? {
        ApplyCalm(scheduler.ledger.Contents(), r, ev);
      }
      fate := scheduler.Apply(ev);
      if fate.Fine? {
        ghost var applied := State();
        CalmAccounts(old(State()), applied);
        fate := ContinueExecution(since);
        AccountsTrans(old(State()), applied, State());
      }
    }

    /** Begins the agent's session. */
    method Begin(ghost since: Desk) returns (fate: Fate)
      requires Valid() && Orderly() && (session.None? ==> State().book.pendingFeedback.None?)
      modifies this, scheduler, scheduler.ledger, scheduler.executor
      ensures Valid() && Accounts(old(State()), State()) && Orderly() && old(Said()) <= Said()
      ensures session.Some?
      ensures old(session).Some? ==>
                fate == Threw(SessionExists) && session == old(session) && scheduler.Now() == old(scheduler.Now())
      ensures old(session).None? ==> Resettled(decisions, old(turn), turn, Said(), State(), fate)
      ensures old(Moved(since, Outside)) ==> Moved(since, Outside)
    {
      TooledSelf(State());
      if session.Some? {
        return Threw(SessionExists);
      }
      session := Some([]);
      var drives;
      ghost var judged;
      drives, fate, judged := Repair(since, None);
    }

    /** Picks a run up again after a crash: reconcile first, then finish what was prepared or bound,
        without executing any tool call again. */
    method Resume(ghost since: Desk) returns (fate: Fate)
      requires Valid() && Orderly() && NothingOwedBefore()
      modifies this, scheduler, scheduler.ledger, scheduler.executor
      ensures Valid() && Accounts(old(State()), State()) && Orderly() && old(Said()) <= Said()
      ensures var (w, f) := old(Tick(scheduler.Now(), r, weather(hour).clock, weather(hour).tickStopNet,
                weather(hour).net));
              && r in w.t.runs
              && if f.Threw? || Over(w.t.runs[r].status) then scheduler.Now() == w && fate == f
                 else PickedUp(decisions, old(turn), turn, w.t.runs[r], old(session), weather(old(hour) + 1), State(),
                          Said(), fate)
      ensures old(Moved(since, Outside)) ==> Moved(since, Outside)
    {
      fate := TickRun(since);
      if fate.Fine? && !Over(State().status) {
        ghost var ticked := State();
        fate := PickUp(since);
        AccountsTrans(old(State()), ticked, State());
      }
    }

    /** The tick that a resume begins with. */
    method TickRun(ghost since: Desk) returns (fate: Fate)
      requires Valid()
      modifies this`hour, scheduler.ledger, scheduler.executor
      ensures (scheduler.Now(), fate) ==
                old(Tick(scheduler.Now(), r, weather(hour).clock, weather(hour).tickStopNet, weather(hour).net))
      ensures Valid() && Accounts(old(State()), State()) && State().book == old(State()).book
      ensures |State().actions| == |old(State()).actions| && hour == old(hour) + 1
      ensures old(Moved(since, Outside)) ==> Moved(since, Outside)
    {
      var e := NextWeather();
      fate := TickExactly(e);
      if old(Moved(since, Outside)) {
        TickTracks(since, r, old(Env()), old(scheduler.Now()), scheduler.Now(), Said(), Outside, e);
        assert Env() == Later(old(Env()));
      }
    }

    method TickExactly(e: Weather) returns (fate: Fate)
      requires Valid()
      modifies scheduler.ledger, scheduler.executor
      ensures (scheduler.Now(), fate) == old(Tick(scheduler.Now(), r, e.clock, e.tickStopNet, e.net))
      ensures Valid() && Accounts(old(State()), State()) && State().book == old(State()).book
      ensures |State().actions| == |old(State()).actions|
    {
      TickAccounts(scheduler.Now(), r, e);
      fate := scheduler.Tick(r, e.clock, e.tickStopNet, e.net);
    }

    /** Goes on with the bound call, once its receipt is in the session again. */
    method PickUpBound(ghost since: Desk) returns (fate: Fate)
      requires Valid() && Orderly() && CallsTurn(State(), session)
      modifies this, scheduler, scheduler.ledger, scheduler.executor
      ensures Valid() && Accounts(old(State()), State()) && Orderly() && old(Said()) <= Said()
      ensures PickedUp(decisions, old(turn), turn, old(State()), old(session), weather(old(hour)), State(), Said(),
                fate)
      ensures old(Moved(since, Outside)) ==> Moved(since, Outside)
    {
      TooledSelf(State());
      var call := State().book.binding.call;
      if Receipt(call) !in session.value {
        if ToolCall(call) !in session.value {
          return Threw(NoMatchingCall);
        }
        RestoreReceipt(since, call);
      }
      ghost var received := Said();
      fate := ContinueExecution(since);
      ReceiptStays(received, Said(), call);
    }

    /** Finishes what was prepared or bound, begins what never began, and otherwise lets the agent go
        on. A session that is lost while the stream has actions is an error. */
    method PickUp(ghost since: Desk) returns (fate: Fate)
      requires Valid() && Orderly() && NothingOwedBefore()
      modifies this, scheduler, scheduler.ledger, scheduler.executor
      ensures Valid() && Accounts(old(State()), State()) && Orderly() && old(Said()) <= Said()
      ensures PickedUp(decisions, old(turn), turn, old(State()), old(session), weather(old(hour)), State(), Said(),
                fate)
      ensures old(session).None? && old(State()).actions != [] ==>
                fate == Threw(MissingSession) && session == old(session) && scheduler.Now() == old(scheduler.Now())
      ensures old(Moved(since, Outside)) ==> Moved(since, Outside)
    {
      TooledSelf(State());
      if session.None? {
        if State().actions != [] {
          return Threw(MissingSession);
        }
        fate := Begin(since);
      } else if State().book.pendingFeedback.Some? {
        fate := DeliverFeedback(since);
      } else if !State().book.binding.Unbound? {
        fate := PickUpBound(since);
      } else {
        var drives;
        ghost var judged;
        drives, fate, judged := Repair(since, None);
      }
    }

    /** Restores the receipt of the bound call, which a crash inside the tool had lost. */
    method RestoreReceipt(ghost since: Desk, call: CallId)
      requires Valid() && Orderly() && session.Some?
      requires !State().book.binding.Unbound? && State().book.binding.call == call
      modifies this`session
      ensures session == Some(old(session).value + [Receipt(call)]) && Orderly()
      ensures old(Moved(since, Outside)) ==> Moved(since, Outside)
    {
      if Moved(since, Outside) { ReceiptTracks(since, r, Env(), scheduler.Now(), Said()); }
      OutboxGrows(session.value, [Receipt(call)], State().book, State().book);
      Say([Receipt(call)]);
    }
  }
}
