/** What one request to the model, one drive of the agent, the repair loop and the settling of an ended action
    amount to: in terms of the run and the session before and after. */
module Repairs {
  import opened Contracts
  import Tx = Transactions
  import opened Operations
  import opened Steadiness
  import opened Drivers
  import opened RuntimeSteps
  import opened DrivenSteps
  import opened Refinements
  import Results

  /** What a drive amounts to: nothing to repair, an error, or an invalid decision -- with the call that
      is to be told it was refused, if there is one. */
  datatype Judgement = Sound | Broken(error: Error) | Again(refused: Option<CallId>)

  /** Driving the agent and then emptying the outbox, or not. */
  lemma OutboxEmptied(a: Run, b: Run, c: Run)
    requires Proceeds(a, b) && (c == b || c == b.(book := b.book.(pendingFeedback := None)))
    ensures Accounts(a, c)
    ensures c.book.binding != a.book.binding ==> a.book.modelCalls < c.book.modelCalls || a.book.binding.RejectedCall?
  {
    AccountsTrans(a, b, c);
  }

  /** An error that the runtime does not answer by stopping the run. */
  predicate Unforeseen(error: Error) {
    error.KeyMissing? || error.Unexpected?
  }

  predicate Escapes(fate: Fate) {
    fate.Threw? && Unforeseen(fate.error)
  }

  /** What is in the session stays there. */
  lemma ResultStays(before: seq<Turn>, after: seq<Turn>, move: AgentMove)
    requires before <= after
    ensures HasResult(before, move) ==> HasResult(after, move)
  {
    if HasResult(before, move) {
      var i :| 0 <= i < |before| && before[i] == UserResult(move.call);
      assert after[i] == before[i];
    }
  }

  lemma ReceiptStays(before: seq<Turn>, after: seq<Turn>, call: CallId)
    requires before <= after && Receipt(call) in before
    ensures Receipt(call) in after
  {
    var i :| 0 <= i < |before| && before[i] == Receipt(call);
    assert after[i] == before[i];
  }

  /** After this decision the agent went on. */
  ghost predicate WentOn(decision: Decision, said: seq<Turn>) {
    GoesOn(decision.move, HasResult(said, decision.move))
  }

  ghost predicate AllWentOn(decisions: nat -> Decision, first: nat, last: nat, said: seq<Turn>) {
    forall n :: first <= n < last ==> WentOn(decisions(n), said)
  }

  lemma WentOnStays(decisions: nat -> Decision, first: nat, last: nat, before: seq<Turn>, after: seq<Turn>)
    requires AllWentOn(decisions, first, last, before) && before <= after
    ensures AllWentOn(decisions, first, last, after)
  {
    forall n | first <= n < last ensures WentOn(decisions(n), after) {
      assert WentOn(decisions(n), before);
      ResultStays(before, after, decisions(n).move);
    }
  }

  /** A drive that ended so decided last what the end tells, or could not ask for it. */
  ghost predicate EndedWith(decision: Decision, end: DriveEnd, run: Run) {
    EndsAs(decision.move, end, run) || (end.Errored? && Blames(decision.attempts, end.error))
  }

  ghost predicate Decided(decision: Decision, said: seq<Turn>, run: Run, end: Option<DriveEnd>) {
    if end.None? then WentOn(decision, said) else EndedWith(decision, end.value, run)
  }

  lemma OneMoreDecided(decisions: nat -> Decision, first: nat, n: nat, before: seq<Turn>, after: seq<Turn>, run: Run,
      end: Option<DriveEnd>)
    requires first <= n && AllWentOn(decisions, first, n, before) && before <= after
    requires Decided(decisions(n), after, run, end)
    ensures if end.None? then AllWentOn(decisions, first, n + 1, after)
            else DrivenOnce(decisions, first, n + 1, after, run, end.value)
  {
    WentOnStays(decisions, first, n, before, after);
  }

  /** Each of these decisions cost a model call at least. */
  ghost predicate DecidedWithin(a: Run, b: Run, decided: nat) {
    && Proceeds(a, b) && b.book.invalidProposals == a.book.invalidProposals
    && decided <= b.book.modelCalls - a.book.modelCalls
  }

  lemma OneMoreWithin(a: Run, b: Run, c: Run, decided: nat, more: nat)
    requires DecidedWithin(a, b, decided) && DecidedWithin(b, c, more)
    ensures DecidedWithin(a, c, decided + more) && (more > 0 ==> Remaining(c) < Remaining(b))
  {
    ProceedsTrans(a, b, c);
  }

  lemma SpentWithinBudget(a: Run, b: Run, decided: nat)
    requires DecidedWithin(a, b, decided)
    ensures decided <= b.book.modelCalls - a.book.modelCalls <= Remaining(a)
  {}

  /** From the first of these turns on there was one drive, and it ended so, in this state of the run. */
  ghost predicate DrivenOnce(decisions: nat -> Decision, first: nat, turn: nat, said: seq<Turn>, run: Run,
      end: DriveEnd) {
    first < turn && AllWentOn(decisions, first, turn - 1, said) && EndedWith(decisions(turn - 1), end, run)
  }

  /** ... and was rightly judged so. */
  ghost predicate Drove(decisions: nat -> Decision, first: nat, turn: nat, said: seq<Turn>, run: Run, j: Judgement) {
    exists end :: DrivenOnce(decisions, first, turn, said, run, end) && JudgedAs(end, run, said, j)
  }

  /** The run is stopped for good, and over once nothing is left in flight. */
  ghost predicate Halted(run: Run, fate: Fate) {
    && run.frozen && run.stopIntent.Some? && !run.stopIntent.value.Replan?
    && (fate.Fine? && (forall i :: 0 <= i < |run.actions| ==> Terminal(run.actions[i].status)) ==> Over(run.status))
  }

  /** What a judgement of the run leads to. An invalid decision is counted, and unless that exhausts the budget
      for them the rejection is dropped and the loop goes on with the refusal; an exhausted budget and an
      expected error stop the run; an unforeseen one escapes; and a sound drive ends the loop as it is. */
  ghost predicate Concludes(j: Judgement, run: Run, run': Run, over: bool, fate: Fate, refused: Option<CallId>) {
    if !j.Again? then
      && over && run'.book == run.book
      && (j.Sound? ==> fate.Fine? && run' == run)
      && (j.Broken? ==> if Unforeseen(j.error) then fate == Threw(j.error) && run' == run else Halted(run', fate))
    else
      && run'.book.invalidProposals == run.book.invalidProposals + 1
      && (over <==> run'.book.invalidProposals > run'.budget.maxInvalidProposals)
      && if over then Halted(run', fate)
         else refused == j.refused && fate.Fine? && !run'.book.binding.RejectedCall? && run' == run.(book := run'.book)
  }

  /** The refusals of these drives were sent, but for the one that is the next message. */
  ghost predicate RefusalsSent(said: seq<Turn>, judged: seq<Judgement>, next: Option<CallId>) {
    forall i :: 0 <= i < |judged| && judged[i].Again? && judged[i].refused.Some? ==>
      Answered(said, judged[i].refused.value) || next == judged[i].refused
  }

  /** Where the repair loop is after these drives, each of which was to be repaired. */
  ghost predicate Repairing(start: Run, run: Run, heard: seq<Turn>, said: seq<Turn>, message: Option<CallId>,
      next: Option<CallId>, judged: seq<Judgement>) {
    && (if judged == [] then next == message && said == heard else Told(heard, message, said))
    && run.budget == start.budget && run.book.invalidProposals == start.book.invalidProposals + |judged|
    && (judged != [] ==> run.book.invalidProposals <= start.budget.maxInvalidProposals)
    && (forall i :: 0 <= i < |judged| ==> judged[i].Again?)
    && RefusalsSent(said, judged, next)
  }

  /** How the repair loop ended, given the judgements of its drives: with the last one sound, and no rejected
      call left; with its error, if that was unforeseen; and otherwise -- an expected error, no budget for
      another invalid decision, or no time for another drive -- with the run stopped. All drives but the last
      were invalid; each invalid one was counted, and its refusal sent unless the run was stopped. */
  ghost predicate Repaired(start: Run, run: Run, heard: seq<Turn>, said: seq<Turn>, message: Option<CallId>,
      judged: seq<Judgement>, fate: Fate) {
    var n := |judged|;
    && n <= Max(0, start.budget.maxInvalidProposals - start.book.invalidProposals) + 1
    && Told(heard, None, said) && (n > 0 ==> Told(heard, message, said))
    && (forall i :: 0 <= i < n - 1 ==> judged[i].Again?)
    && run.book.invalidProposals
       == start.book.invalidProposals + (if n > 0 && !judged[n - 1].Again? then n - 1 else n)
    && (run.frozen || RefusalsSent(said, judged, None))
    && if n > 0 && judged[n - 1].Sound? then fate.Fine? && !run.book.binding.RejectedCall?
       else if n > 0 && judged[n - 1].Broken? && Unforeseen(judged[n - 1].error) then fate == Threw(judged[n - 1].error)
       else Halted(run, fate)
  }

  lemma RepairBegins(start: Run, heard: seq<Turn>, message: Option<CallId>)
    ensures Proceeds(start, start) && Repairing(start, start, heard, heard, message, message, [])
  {
    TooledSelf(start);
  }

  lemma RepairGoesOn(start: Run, run: Run, driven: Run, run': Run, heard: seq<Turn>, said: seq<Turn>, said': seq<Turn>,
      message: Option<CallId>, next: Option<CallId>, judged: seq<Judgement>, j: Judgement, fate: Fate,
      refused: Option<CallId>)
    requires Repairing(start, run, heard, said, message, next, judged) && Told(said, next, said')
    requires driven.book.invalidProposals == run.book.invalidProposals && run'.budget == run.budget
    requires Concludes(j, driven, run', false, fate, refused)
    ensures Repairing(start, run', heard, said', message, refused, judged + [j])
  {
    if judged != [] { ToldOn(heard, message, said, next, said'); }
    RefusalSent(said, next, said', judged);
  }

  lemma RepairEnds(start: Run, run: Run, driven: Run, run': Run, heard: seq<Turn>, said: seq<Turn>, said': seq<Turn>,
      message: Option<CallId>, next: Option<CallId>, judged: seq<Judgement>, j: Judgement, fate: Fate,
      refused: Option<CallId>)
    requires Repairing(start, run, heard, said, message, next, judged) && Told(said, next, said')
    requires driven.book.invalidProposals == run.book.invalidProposals && run'.budget == run.budget
    requires Concludes(j, driven, run', true, fate, refused) && (j.Sound? ==> !driven.book.binding.RejectedCall?)
    ensures Repaired(start, run', heard, said', message, judged + [j], fate)
  {
    if judged != [] { ToldOn(heard, message, said, next, said'); }
    ToldAnyway(heard, message, said', true);
    RefusalSent(said, next, said', judged);
  }

  /** One round of the repair loop: a drive that starts with the message, and what its judgement leads to; or no
      drive, and the run stopped. */
  ghost predicate Rounded(run: Run, run': Run, said: seq<Turn>, said': seq<Turn>, message: Option<CallId>, drove: bool,
      j: Judgement, driven: Run, over: bool, fate: Fate, refused: Option<CallId>) {
    if drove then
      && Told(said, message, said') && driven.book.invalidProposals == run.book.invalidProposals
      && Concludes(j, driven, run', over, fate, refused) && (j.Sound? ==> !driven.book.binding.RejectedCall?)
    else over && said' == said && run'.book == run.book && Halted(run', fate)
  }

  /** What a round makes of the loop, with a drive or without. */
  lemma RoundRepairs(start: Run, run: Run, driven: Run, run': Run, heard: seq<Turn>, said: seq<Turn>, said': seq<Turn>,
      message: Option<CallId>, next: Option<CallId>, judged: seq<Judgement>, drove: bool, j: Judgement, over: bool,
      fate: Fate, refused: Option<CallId>)
    requires Repairing(start, run, heard, said, message, next, judged) && run'.budget == run.budget
    requires Rounded(run, run', said, said', next, drove, j, driven, over, fate, refused)
    ensures var judged' := if drove then judged + [j] else judged;
            if over then Repaired(start, run', heard, said', message, judged', fate)
            else Repairing(start, run', heard, said', message, refused, judged')
  {
    if drove && over {
      RepairEnds(start, run, driven, run', heard, said, said', message, next, judged, j, fate, refused);
    } else if drove {
      RepairGoesOn(start, run, driven, run', heard, said, said', message, next, judged, j, fate, refused);
    } else {
      ToldAnyway(heard, message, said', judged != []);
    }
  }

  /** The message of a drive was the refusal that was still to be sent. */
  lemma RefusalSent(before: seq<Turn>, next: Option<CallId>, after: seq<Turn>, judged: seq<Judgement>)
    requires RefusalsSent(before, judged, next) && Told(before, next, after)
    ensures RefusalsSent(after, judged, None)
  {
    forall i | 0 <= i < |judged| && judged[i].Again? && judged[i].refused.Some?
      ensures Answered(after, judged[i].refused.value)
    {
      AnswerArrives(before, next, judged[i].refused.value, after);
    }
  }

  /** The agent was asked again and its last drive was sound, or the run is stopped for good, or an error that
      was unforeseen escaped. */
  ghost predicate Resettled(decisions: nat -> Decision, since: nat, turn: nat, said: seq<Turn>, run: Run, fate: Fate) {
    || Halted(run, fate) || Escapes(fate)
    || (fate.Fine? && !run.book.binding.RejectedCall?
        && exists first :: since <= first < turn && Drove(decisions, first, turn, said, run, Sound))
  }

  lemma DriveResettles(decisions: nat -> Decision, first: nat, turn: nat, said: seq<Turn>, driven: Run, j: Judgement,
      run: Run, fate: Fate, refused: Option<CallId>)
    requires Drove(decisions, first, turn, said, driven, j) && Concludes(j, driven, run, true, fate, refused)
    ensures Resettled(decisions, first, turn, said, run, fate)
  {
    var end :| DrivenOnce(decisions, first, turn, said, driven, end) && JudgedAs(end, driven, said, j);
    assert j.Sound? ==> run == driven && !run.book.binding.RejectedCall?;
  }

  lemma ResettledSince(decisions: nat -> Decision, since: nat, first: nat, turn: nat, said: seq<Turn>, run: Run,
      fate: Fate)
    requires since <= first && Resettled(decisions, first, turn, said, run, fate)
    ensures Resettled(decisions, since, turn, said, run, fate)
  {}

  /** An error that one of these attempts at a request can end with, or the want of a budget for it. */
  ghost predicate Blames(attempts: nat -> Attempt, error: Error) {
    || error.BudgetExceeded? || (error.Unreachable? && exists i: nat :: attempts(i).Fails?)
    || exists i: nat :: attempts(i) == Breaks(error)
  }

  /** How a drive is to be judged: an error is broken; too many calls, a rejected call and an agent that left
      the run idle are to be repaired, the rejected call by its refusal; everything else is sound. */
  ghost predicate JudgedAs(end: DriveEnd, run: Run, said: seq<Turn>, j: Judgement) {
    && (j.Broken? <==> end.Errored?) && (j.Broken? ==> j.error == end.error)
    && (j.Again? && j.refused.Some? <==> !end.Errored? && !end.Invalid? && run.book.binding.RejectedCall?)
    && (j.Again? && j.refused.Some? ==> run.book.binding == RejectedCall(j.refused.value))
    && (j == Again(None)
        <==> end.Invalid? || (!end.Errored? && !run.book.binding.RejectedCall? && LeftIdle(end, run, said)))
  }

  /** No tool call waits for its result, no action is queued or under way, and the run is neither over nor
      blocked nor closed. */
  ghost predicate LeftIdle(end: DriveEnd, run: Run, said: seq<Turn>) {
    && !end.Paused? && (run.book.binding.BoundTo? ==> Answered(said, run.book.binding.call))
    && (run.status.Ready? || run.status.Executing? || run.status.Verifying? || run.status.Recovering?) && !run.closed
    && forall i :: 0 <= i < |run.actions| ==> Terminal(run.actions[i].status)
  }

  /** The run takes decisions and is within its budgets, for one more model call after these. */
  predicate PaysFor(run: Run, now: Time, calls: nat) {
    && !run.frozen && !run.status.TaskCanceled? && !run.status.TaskFailed?
    && run.book.modelCalls + calls < run.budget.maxModelCalls && now - run.createdAt < run.budget.totalSeconds
  }

  /** This attempt at a request is paid for, after as many calls as there were attempts before it. */
  predicate Afforded(run: Run, weather: nat -> Weather, hour: nat, attempt: nat) {
    PaysFor(run, weather(hour + attempt).now, attempt)
  }

  /** It failed before anything was received, and a retry is left for it. */
  predicate Retried(run: Run, attempts: nat -> Attempt, attempt: nat) {
    attempts(attempt) == Fails(false) && run.book.apiRetries + attempt < run.budget.maxApiRetries
  }

  /** How a request goes: each attempt is paid for, and made again exactly if it is to be. It ends with the first
      one that is not to be made again, as that one did, or when the next one cannot be paid for. */
  ghost predicate Requested(run: Run, attempts: nat -> Attempt, weather: nat -> Weather, hour: nat, asked: nat,
      failure: Option<Error>, run': Run) {
    var unpaid := asked == 0 || Retried(run, attempts, asked - 1);
    && (forall i :: 0 <= i < asked ==> Afforded(run, weather, hour, i))
    && (forall i :: 0 <= i < asked - 1 ==> Retried(run, attempts, i))
    && run' == run.(book := run.book.(modelCalls := run.book.modelCalls + asked,
                                      apiRetries := run.book.apiRetries + (if unpaid then asked else asked - 1)))
    && (if unpaid then failure == Some(BudgetExceeded) && !Afforded(run, weather, hour, asked)
        else if attempts(asked - 1).Replies? then failure.None?
        else failure == Some(if attempts(asked - 1).Breaks? then attempts(asked - 1).error else Unreachable))
  }

  /** All attempts so far were paid for and are to be made again. */
  ghost predicate AllRetried(run: Run, attempts: nat -> Attempt, weather: nat -> Weather, hour: nat, asked: nat) {
    forall i :: 0 <= i < asked ==> Afforded(run, weather, hour, i) && Retried(run, attempts, i)
  }

  /** These many model calls and retries later. */
  function Spent(run: Run, calls: nat, retries: nat): Run {
    run.(book := run.book.(modelCalls := run.book.modelCalls + calls, apiRetries := run.book.apiRetries + retries))
  }

  /** One attempt: it is paid for if it can be, and made again after a transient failure if a retry is left. */
  predicate Tried(run: Run, attempt: Attempt, now: Time, paid: bool, again: bool, run': Run) {
    && (paid <==> PaysFor(run, now, 0))
    && (again <==> paid && attempt == Fails(false) && run.book.apiRetries < run.budget.maxApiRetries)
    && run' == Spent(run, if paid then 1 else 0, if again then 1 else 0)
  }

  /** A rejection is forgotten. */
  function Unrejected(book: Book): Book {
    if book.binding.RejectedCall? then book.(binding := Unbound) else book
  }

  /** One attempt more: it is the last, or all attempts are to be made again still. */
  lemma RequestGoesOn(run: Run, attempts: nat -> Attempt, weather: nat -> Weather, hour: nat, asked: nat,
      before: Run, paid: bool, again: bool, run': Run)
    requires AllRetried(run, attempts, weather, hour, asked) && before == Spent(run, asked, asked)
    requires Tried(before, attempts(asked), weather(hour + asked).now, paid, again, run')
    ensures if !paid then Requested(run, attempts, weather, hour, asked, Some(BudgetExceeded), run')
            else if again then AllRetried(run, attempts, weather, hour, asked + 1)
                && run' == Spent(run, asked + 1, asked + 1)
            else Requested(run, attempts, weather, hour, asked + 1, FailureOf(attempts(asked)), run')
    ensures again ==> run.book.apiRetries + asked < run.budget.maxApiRetries
  {
    assert paid == Afforded(run, weather, hour, asked);
    assert asked > 0 ==> Afforded(run, weather, hour, asked - 1) && Retried(run, attempts, asked - 1);
  }

  /** A request stays within the budgets: at most one attempt more than the retries that are left, each paid for
      with a model call. */
  lemma RequestStaysWithin(run: Run, attempts: nat -> Attempt, weather: nat -> Weather, hour: nat, asked: nat,
      failure: Option<Error>, run': Run)
    requires Requested(run, attempts, weather, hour, asked, failure, run')
    ensures Asked(run, run', failure.None?)
    ensures asked <= Max(0, run.budget.maxApiRetries - run.book.apiRetries) + 1
    ensures run'.book.apiRetries - run.book.apiRetries <= asked <= run'.book.apiRetries - run.book.apiRetries + 1
  {
    assert asked > 0 ==> Afforded(run, weather, hour, asked - 1);
    assert asked > 1 ==> Retried(run, attempts, asked - 2);
  }

  /** The error that a request to the model ends with, if it is not made again. */
  function FailureOf(attempt: Attempt): Option<Error> {
    match attempt
    case Replies => None
    case Fails(_) => Some(Unreachable)
    case Breaks(error) => Some(error)
  }

  /** The bound call's result is due, or something raised or stopped the run; the binding stays. */
  ghost predicate Prepared(a: Run, b: Run, fate: Fate, ready: bool)
    requires a.book.binding.BoundTo?
  {
    && Accounts(a, b) && b.book.modelCalls == a.book.modelCalls && b.book.binding == a.book.binding
    && b.book.pendingFeedback == (if ready then Some(a.book.binding.call) else a.book.pendingFeedback)
    && (ready ==> fate.Fine?)
    && (!ready && fate.Fine? ==> b.frozen)
  }

  /** What stays of the settling of an action, whatever is done afterwards: its verdict, and the revision. */
  ghost predicate Lasting(run: Run, a: Action, e: Weather, run': Run) {
    && (Results.ToJudge(a) ==> e.verdict.Committed? && run.verifications + [e.verdict.value] <= run'.verifications)
    && (Results.MustReplan(run, a, e) ==>
          run.planVersion < run'.planVersion && run.book.replans < run'.book.replans)
  }

  lemma SettlingLasts(run: Run, a: Action, e: Weather, settled: Run, run': Run)
    requires IsBound(run, a) && Results.Settles(run, a, e, settled) && Accounts(run, settled) && Accounts(settled, run')
    ensures Lasting(run, a, e, run') && Accounts(run, run')
  {
    AccountsTrans(run, settled, run');
  }

  /** If the bound action had ended and no result was prepared for it, it was settled. */
  ghost predicate OutcomeKept(run: Run, e: Weather, run': Run) {
    Owed(run).Some? && run.book.pendingFeedback.None? && run.book.binding.BoundTo? ==>
      var k := Tx.FindAction(run.actions, run.book.binding.action);
      k < |run.actions| ==> Lasting(run, run.actions[k], e, run')
  }

  /** Counting an invalid decision stays within the accounts. */
  lemma RefusalProceeds(start: Run, a: Run, b: Run)
    requires Proceeds(start, a)
    requires b == a.(book := a.book.(invalidProposals := a.book.invalidProposals + 1))
    ensures Proceeds(start, b)
  {}

  /** The session went on from before, first with the message. */
  ghost predicate Told(before: seq<Turn>, message: Option<CallId>, after: seq<Turn>) {
    before + Turns(message) <= after
  }

  /** A result that was sent, or was there before, is there. */
  lemma AnswerArrives(before: seq<Turn>, message: Option<CallId>, call: CallId, after: seq<Turn>)
    requires Told(before, message, after)
    ensures message == Some(call) || Answered(before, call) ==> Answered(after, call)
  {
    if message == Some(call) {
      assert after[|before|] == UserResult(call);
    } else if i :| 0 <= i < |before| && before[i] == UserResult(call) {
      assert after[i] == UserResult(call);
    }
  }

  lemma ToldOn(a: seq<Turn>, first: Option<CallId>, b: seq<Turn>, next: Option<CallId>, c: seq<Turn>)
    requires Told(a, first, b) && Told(b, next, c)
    ensures Told(a, first, c)
  {
    var x := a + Turns(first);
    assert b <= b + Turns(next);
    assert c[..|b|] == b && b[..|x|] == x;
    assert c[..|x|] == c[..|b|][..|x|];
  }

  lemma ToldAnyway(a: seq<Turn>, message: Option<CallId>, b: seq<Turn>, told: bool)
    requires if told then Told(a, message, b) else a == b
    ensures Told(a, None, b) && a <= b
  {
    assert a + [] == a;
    assert a <= a + Turns(message);
  }

  /** The call whose result the driver owes: the one whose result is prepared, or the bound one once its
      action ended. A run that is over or stopped for good owes nothing. */
  function Owed(run: Run): Option<CallId> {
    if Over(run.status) || (run.stopIntent.Some? && !run.stopIntent.value.Replan?) then None
    else if run.book.pendingFeedback.Some? then run.book.pendingFeedback
    else if !run.book.binding.BoundTo? then None
    else
      var k := Tx.FindAction(run.actions, run.book.binding.action);
      if k < |run.actions| && Terminal(run.actions[k].status) then Some(run.book.binding.call) else None
  }

  /** What is left of the model budget: each new tool call uses some of it. */
  ghost function Remaining(run: Run): int {
    Max(0, run.budget.maxModelCalls - run.book.modelCalls)
  }

  /** A prepared result is not that of the bound call: something was bound since. */
  ghost function Outdated(book: Book): nat {
    if book.pendingFeedback.Some? && !(book.binding.BoundTo? && book.binding.call == book.pendingFeedback.value)
        then 1 else 0
  }

  // ----- what a call of the runtime leaves -----

  /** After a call that ended well, on a run that is not stopped, every bound call whose action ended has its
      result. */
  ghost predicate NothingOwed(run: Run, said: seq<Turn>, fate: Fate) {
    fate.Fine? && !run.frozen && Owed(run).Some? ==> Answered(said, Owed(run).value)
  }

  /** Why a result may still be unsent. */
  ghost predicate Excused(run: Run, lost: bool, fate: Fate) {
    run.frozen || Escapes(fate) || (lost && fate == Threw(MissingSession))
  }

  /** What going on from this state of the run amounted to: the accounts hold, nothing happened if nothing was
      owed, and otherwise the bound action was settled and the call has its result, or the run is stopped --
      unless an unexpected error escaped or the session is lost. */
  ghost predicate Answers(run: Run, e: Weather, run': Run, said: seq<Turn>, lost: bool, fate: Fate) {
    && Accounts(run, run') && NothingOwed(run', said, fate)
    && (fate.Fine? && !run'.frozen ==> OutcomeKept(run, e, run'))
    && (Owed(run).None? ==> run' == run)
    && (Owed(run).Some? ==> Answered(said, Owed(run).value) || Excused(run', lost, fate))
  }

  /** Nothing was prepared and no call is bound: it is the agent's turn, to begin or to go on. */
  predicate AgentsTurn(run: Run, session: Option<seq<Turn>>) {
    if session.None? then run.actions == [] else run.book.pendingFeedback.None? && run.book.binding.Unbound?
  }

  /** A call is bound, and no result was prepared. */
  predicate CallsTurn(run: Run, session: Option<seq<Turn>>) {
    session.Some? && run.book.pendingFeedback.None? && !run.book.binding.Unbound?
  }

  /** What picking a run up amounted to. A session that is lost while the stream has actions is an error. On the
      agent's turn it was driven. A bound call has its receipt again, unless the session never had the call, and what
      it was owed. Otherwise the prepared result was delivered. */
  ghost predicate PickedUp(decisions: nat -> Decision, since: nat, turn: nat, run: Run, session: Option<seq<Turn>>,
      e: Weather, run': Run, said: seq<Turn>, fate: Fate) {
    && Accounts(run, run')
    && (session.None? && run.actions != [] ==> fate == Threw(MissingSession) && run' == run)
    && (AgentsTurn(run, session) ==> Resettled(decisions, since, turn, said, run', fate))
    && (CallsTurn(run, session) ==>
          if Receipt(run.book.binding.call) in session.value || ToolCall(run.book.binding.call) in session.value
          then Receipt(run.book.binding.call) in said && (fate.Fine? && !run'.frozen ==> OutcomeKept(run, e, run'))
          else fate == Threw(NoMatchingCall) && run' == run)
    && (session.Some? && !AgentsTurn(run, session) ==> NothingOwed(run', said, fate))
    && (fate.Fine? && Owed(run).Some? ==> Answered(said, Owed(run).value) || run'.frozen)
  }

  /** What sending a prepared result amounts to: the outbox is emptied unless an error escaped, and the result is
      unsent only if the run is stopped instead. */
  ghost predicate Delivered(run: Run, run': Run, said: seq<Turn>, call: CallId, fate: Fate) {
    && Accounts(run, run')
    && run'.book.pendingFeedback == (if fate.Fine? then None else Some(call))
    && (fate.Threw? ==> run'.frozen || Escapes(fate))
    && (fate.Fine? ==> Answered(said, call)
                       || (run'.frozen && run'.book.binding.BoundTo? && run'.book.binding.call == call))
    && (run'.book.binding != run.book.binding ==>
          run.book.modelCalls < run'.book.modelCalls || run.book.binding.RejectedCall?)
    && (fate.Fine? && !run'.frozen ==> !run'.book.binding.RejectedCall?)
  }

  /** After a result was delivered, going on with another call leaves less of the model budget, or nothing
      outdated. */
  lemma LessToDo(a: Run, b: Run, said: seq<Turn>, call: CallId)
    requires Delivered(a, b, said, call, Fine) && a.book.pendingFeedback == Some(call)
    requires b.book.binding.Unbound? || b.book.binding.call != call
    ensures Remaining(b) < Remaining(a) || (Remaining(b) == Remaining(a) && Outdated(b.book) < Outdated(a.book))
  {}

  lemma ContinuedAfter(a: Run, b: Run, told: seq<Turn>, call: CallId, e: Weather, c: Run, said: seq<Turn>, fate: Fate)
    requires Delivered(a, b, told, call, Fine) && (b.book.binding.Unbound? || b.book.binding.call != call)
    requires Answers(b, e, c, said, false, fate) && told <= said
    ensures Accounts(a, c) && Answered(said, call) && NothingOwed(c, said, fate)
  {
    AccountsTrans(a, b, c);
    assert told + [] == told;
    AnswerArrives(told, None, call, said);
  }

  lemma DeliveredAll(a: Run, b: Run, told: seq<Turn>, call: CallId, fate: Fate)
    requires Delivered(a, b, told, call, fate)
    requires fate.Fine? ==> !b.book.binding.Unbound? && b.book.binding.call == call
    ensures NothingOwed(b, told, fate) && (Answered(told, call) || Excused(b, false, fate))
  {}
}
