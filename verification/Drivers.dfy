/** The runtime's driver of one run, as the durable steps it takes between which a crash may fall:
    charging and carrying out a revision, and the outbox that answers each tool call once. */
module Drivers {
  import opened Contracts
  import opened Transactions
  import opened Protocol
  import opened Preservation
  import opened Histories

  /** What the append-only agent session records of a tool call: the agent's call, the tool's own
      receipt, and the result that the runtime sends as the user. */
  datatype Turn = UserResult(call: CallId) | ToolCall(call: CallId) | Receipt(call: CallId)

  /** Where the driver is in its repair loop: outside it, inside the agent, between two drives, or
      about to send the refusal of a rejected call. */
  datatype Stage = Outside | Driving | Between | Refusing(call: CallId)

  /** A revision that was paid for and not yet carried out, and the bound action it is for. */
  datatype Charge = NoCharge | Charged(subject: Option<ActionId>)

  /** One run's ledger, session and driver. `stage` and `charge` are the driver's memory and are lost
      in a crash; `revisedFor` is history: the bound actions whose outcome caused a revision. */
  datatype Desk = Desk(w: World, session: seq<Turn>, stage: Stage, charge: Charge, revisedFor: seq<ActionId>)

  /** The transactions of the runtime that leave the binding, the outbox and the replans alone: paying for
      a model call, a retry or an observation, journalling an event of the agent or
      a termination, and counting an invalid
      decision. */
  datatype Remark = ModelCall(now: Time) | ApiRetry | Sighting | AgentEvent | InvalidDecision

  datatype Move =
    | Elsewhere(l: Label)
    | CallTool(call: CallId, version: nat, drafts: seq<Draft>)
    | BeginDrive
    | AgentSpeaks(turn: Turn)
    | Write(remark: Remark)
    | EndDrive
    | BeginRefusal
    | SendRefusal
    | LeaveLoop
    | PrepareFeedback
    | ClearFeedback
    | RestoreReceipt
    | ChargeReplan(bound: bool)
    | CarryOut(observation: Observation)
    | GiveUp
    | Crash

  predicate Answered(session: seq<Turn>, call: CallId) {
    UserResult(call) in session
  }

  /** Steps of others -- deliveries, ticks, stop requests, other runs -- that leave this run's
      revisions and book to its driver. */
  predicate Foreign(l: Label, r: RunId) {
    match l
    case DoRevise(q, _, _) => q != r
    case DoAnnotate(q, _) => q != r
    case DoAppend(q, _, _, call) => q != r || call.None?
    case DoCreate(q, _, _, _, _, _) => q != r
    case _ => true
  }

  /** The action that the binding names, if it belongs to the current plan. */
  predicate BoundNow(run: Run) {
    && run.book.binding.BoundTo?
    && var k := FindAction(run.actions, run.book.binding.action);
       k < |run.actions| && run.actions[k].planVersion == run.planVersion
  }

  /** The run still takes decisions of the model and can pay for one. */
  predicate CanAsk(run: Run, now: Time) {
    && !run.frozen && !run.status.TaskCanceled? && !run.status.TaskFailed?
    && run.book.modelCalls < run.budget.maxModelCalls && now - run.createdAt < run.budget.totalSeconds
  }

  predicate Affords(run: Run, stage: Stage, remark: Remark) {
    match remark
    case ModelCall(now) => stage.Driving? && CanAsk(run, now)
    case ApiRetry => stage.Driving? && run.book.apiRetries < run.budget.maxApiRetries
    case Sighting => run.book.observationCount < run.budget.maxObservations
    case AgentEvent => true
    case InvalidDecision => stage.Between?
  }

  function Remarked(book: Book, remark: Remark): Book {
    match remark
    case ModelCall(_) => book.(modelCalls := book.modelCalls + 1)
    case ApiRetry => book.(apiRetries := book.apiRetries + 1)
    case Sighting => book.(observationCount := book.observationCount + 1)
    case AgentEvent => book
    case InvalidDecision => book.(invalidProposals := book.invalidProposals + 1)
  }

  predicate Possible(d: Desk, r: RunId, m: Move)
    requires r in d.w.t.runs
  {
    var book := d.w.t.runs[r].book;
    match m
    case Elsewhere(l) => Enabled(d.w, l) && Foreign(l, r)
    case CallTool(call, _, drafts) => d.stage.Driving? && !Answered(d.session, call) && FreshDrafts(d.w, drafts)
    case BeginDrive => d.stage.Outside?
    case AgentSpeaks(turn) => d.stage.Driving? && !turn.UserResult?
    case Write(remark) => Affords(d.w.t.runs[r], d.stage, remark)
    case EndDrive => d.stage.Driving?
    case BeginRefusal => d.stage.Between? && book.binding.RejectedCall?
    case SendRefusal => d.stage.Refusing?
    case LeaveLoop => d.stage.Between? || d.stage.Refusing?
    case PrepareFeedback => d.stage.Outside? && book.pendingFeedback.None? && book.binding.BoundTo?
    case ClearFeedback => d.stage.Outside?
    case RestoreReceipt => d.stage.Outside? && !book.binding.Unbound?
    case ChargeReplan(bound) =>
      && book.replans < d.w.t.runs[r].budget.maxReplans && d.charge.NoCharge?
      && (bound ==> BoundNow(d.w.t.runs[r]))
    case CarryOut(_) => d.charge.Charged?
    case GiveUp => d.charge.Charged?
    case Crash => true
  }

  function SetBook(w: World, r: RunId, book: Book): World {
    Perform(w, DoAnnotate(r, book))
  }

  /** execute_action: an already bound call is not executed again, a rejected one is remembered. */
  function ExecuteTool(w: World, r: RunId, call: CallId, version: nat, drafts: seq<Draft>): World
    requires r in w.t.runs
  {
    var book := w.t.runs[r].book;
    if !book.binding.Unbound? && book.binding.call == call then w
    else if Append(w.t, r, version, drafts, Some(call)).Committed?
        then Perform(w, DoAppend(r, version, drafts, Some(call)))
    else SetBook(w, r, book.(binding := RejectedCall(call)))
  }

  /** The user message a drive starts with: the prepared result, unless the session has it already. */
  function Delivery(d: Desk, book: Book): seq<Turn> {
    if book.pendingFeedback.Some? && !Answered(d.session, book.pendingFeedback.value)
    then [UserResult(book.pendingFeedback.value)] else []
  }

  function Step(d: Desk, r: RunId, m: Move): Desk
    requires r in d.w.t.runs
  {
    var run := d.w.t.runs[r];
    var book := run.book;
    match m
    case Elsewhere(l) => d.(w := Perform(d.w, l))
    case CallTool(call, version, drafts) => d.(w := ExecuteTool(d.w, r, call, version, drafts))
    case BeginDrive => d.(session := d.session + Delivery(d, book), stage := Driving)
    case AgentSpeaks(turn) => d.(session := d.session + [turn])
    case Write(remark) => d.(w := SetBook(d.w, r, Remarked(book, remark)))
    case EndDrive => d.(stage := Between)
    case BeginRefusal =>
      if !book.binding.RejectedCall? then d
      else d.(w := SetBook(d.w, r, book.(binding := Unbound)), stage := Refusing(book.binding.call))
    case SendRefusal =>
      if !d.stage.Refusing? then d
      else d.(session := d.session + [UserResult(d.stage.call)], stage := Driving)
    case LeaveLoop => d.(stage := Outside)
    case PrepareFeedback =>
      if !book.binding.BoundTo? then d
      else d.(w := SetBook(d.w, r, book.(pendingFeedback := Some(book.binding.call))))
    case ClearFeedback => d.(w := SetBook(d.w, r, book.(pendingFeedback := None)))
    case RestoreReceipt =>
      if book.binding.Unbound? then d else d.(session := d.session + [Receipt(book.binding.call)])
    case ChargeReplan(bound) =>
      d.(w := SetBook(d.w, r, book.(replans := book.replans + 1)),
         charge := Charged(if bound && book.binding.BoundTo? then Some(book.binding.action) else None))
    case CarryOut(o) =>
      if d.charge.NoCharge? then d
      else
        d.(w := Perform(d.w, DoRevise(r, run.planVersion, o)), charge := NoCharge,
           revisedFor := if Revise(d.w.t, r, run.planVersion, o).Committed? && d.charge.subject.Some?
                         then d.revisedFor + [d.charge.subject.value] else d.revisedFor)
    case GiveUp => d.(charge := NoCharge)
    case Crash => d.(stage := Outside, charge := NoCharge)
  }

  // ----- the driver's invariant -----

  /** The plan in which an action of this run was appended. */
  ghost predicate OfPlan(run: Run, id: ActionId, plan: nat) {
    var k := FindAction(run.actions, id);
    k < |run.actions| && run.actions[k].planVersion == plan
  }

  ghost predicate OfOlderPlan(run: Run, id: ActionId) {
    var k := FindAction(run.actions, id);
    k < |run.actions| && run.actions[k].planVersion < run.planVersion
  }

  ghost predicate PaidFor(d: Desk, run: Run) {
    && run.planVersion - 1 <= run.book.replans <= run.budget.maxReplans
    && (d.charge.Charged? ==> run.planVersion <= run.book.replans)
    && (d.charge.Charged? && d.charge.subject.Some? ==> OfPlan(run, d.charge.subject.value, run.planVersion))
    && (forall i :: 0 <= i < |d.revisedFor| ==> OfOlderPlan(run, d.revisedFor[i]))
    && (forall i, j :: 0 <= i < j < |d.revisedFor| ==> d.revisedFor[i] != d.revisedFor[j])
  }

  ghost predicate OneResultEach(session: seq<Turn>) {
    forall i, j :: 0 <= i < j < |session| && session[i].UserResult? ==> session[i] != session[j]
  }

  /** What the outbox and the session promise each other: one result for each call, none for a
      rejected call that was not refused yet, and a result that is still to be sent is that of the
      bound call. */
  ghost predicate Outbox(session: seq<Turn>, book: Book) {
    && OneResultEach(session)
    && (book.binding.RejectedCall? ==> !Answered(session, book.binding.call))
    && (book.pendingFeedback.Some? && !Answered(session, book.pendingFeedback.value) ==>
          book.binding.BoundTo? && book.binding.call == book.pendingFeedback.value)
  }

  /** ... and nothing is left to be sent. */
  ghost predicate AllSent(session: seq<Turn>, book: Book) {
    Outbox(session, book) && (book.pendingFeedback.Some? ==> Answered(session, book.pendingFeedback.value))
  }

  ghost predicate OutboxOk(d: Desk, book: Book) {
    && (if d.stage.Outside? then Outbox(d.session, book) else AllSent(d.session, book))
    && (d.stage.Refusing? ==> book.binding.Unbound? && !Answered(d.session, d.stage.call))
  }

  /** Turns of the agent and its tools answer nothing; a new binding is of an unanswered call. */
  lemma OutboxGrows(session: seq<Turn>, more: seq<Turn>, book: Book, book': Book)
    requires forall i :: 0 <= i < |more| ==> !more[i].UserResult?
    requires book'.pendingFeedback == book.pendingFeedback
    requires book'.binding == book.binding || (!book'.binding.Unbound? && !Answered(session, book'.binding.call))
    ensures AllSent(session, book) ==> AllSent(session + more, book')
    ensures Outbox(session, book) && book'.binding == book.binding ==> Outbox(session + more, book')
  {
    assert forall c :: Answered(session + more, c) <==> Answered(session, c);
  }

  /** Sending the result that is due, and nothing else is, settles the outbox. */
  lemma ResultSettles(session: seq<Turn>, call: CallId, book: Book)
    requires Outbox(session, book) && !Answered(session, call)
    requires book.binding.RejectedCall? ==> book.binding.call != call
    requires book.pendingFeedback.Some? && !Answered(session, book.pendingFeedback.value) ==>
               book.pendingFeedback.value == call
    ensures AllSent(session + [UserResult(call)], book)
  {
    assert forall c :: Answered(session + [UserResult(call)], c) <==> Answered(session, c) || c == call;
  }

  /** What the runtime spends on the model and on observing is within the budget; the first
      observation comes with the run. */
  predicate WithinBudget(run: Run) {
    && run.book.modelCalls <= run.budget.maxModelCalls
    && run.book.apiRetries <= run.budget.maxApiRetries
    && (run.book.observationCount <= 1 || run.book.observationCount <= run.budget.maxObservations)
  }

  ghost predicate DeskOk(d: Desk, r: RunId) {
    && Inv(d.w) && r in d.w.t.runs
    && PaidFor(d, d.w.t.runs[r]) && WithinBudget(d.w.t.runs[r])
    && OutboxOk(d, d.w.t.runs[r].book)
  }

  // ----- every step keeps it -----

  lemma ForeignSpares(t: Tables, l: Label, r: RunId)
    requires r in t.runs && Foreign(l, r) && Transact(t, l).Committed?
    ensures r in Transact(t, l).value.runs
    ensures Transact(t, l).value.runs[r].book == t.runs[r].book
    ensures Transact(t, l).value.runs[r].planVersion == t.runs[r].planVersion
  {
    if l.DoAppend? && l.r == r {
      AppendShape(t, r, l.version, l.drafts, l.call);
      AppendAllShape(t.runs[r], r, l.drafts);
    }
  }

  lemma PlansStay(run: Run, run': Run, id: ActionId, plan: nat)
    requires RunEvolves(run, run') && run'.planVersion == run.planVersion
    ensures OfPlan(run, id, plan) ==> OfPlan(run', id, plan)
    ensures OfOlderPlan(run, id) ==> OfOlderPlan(run', id)
  {
    if FindAction(run.actions, id) < |run.actions| {
      forall i | 0 <= i < |run.actions| ensures run'.actions[i].id == run.actions[i].id {
        assert Evolves(run.actions[i], run'.actions[i]);
      }
      FindSame(run.actions, run'.actions, id);
      assert Evolves(run.actions[FindAction(run.actions, id)], run'.actions[FindAction(run.actions, id)]);
    }
  }

  /** A world step that keeps the plan and the replan count keeps what was paid for. */
  lemma PaidStays(d: Desk, d': Desk, run: Run, run': Run)
    requires PaidFor(d, run) && RunEvolves(run, run') && run'.planVersion == run.planVersion
    requires run'.book.replans == run.book.replans
    requires d'.revisedFor == d.revisedFor && (d'.charge == d.charge || d'.charge.NoCharge?)
    ensures PaidFor(d', run')
  {
    if d'.charge.Charged? && d'.charge.subject.Some? {
      PlansStay(run, run', d.charge.subject.value, run.planVersion);
    }
    forall i | 0 <= i < |d.revisedFor| ensures OfOlderPlan(run', d.revisedFor[i]) {
      PlansStay(run, run', d.revisedFor[i], 0);
    }
  }

  lemma ToolKeeps(d: Desk, r: RunId, call: CallId, version: nat, drafts: seq<Draft>)
    requires DeskOk(d, r) && Possible(d, r, CallTool(call, version, drafts))
    ensures DeskOk(Step(d, r, CallTool(call, version, drafts)), r)
  {
    var book := d.w.t.runs[r].book;
    if book.binding.Unbound? || book.binding.call != call {
      if Append(d.w.t, r, version, drafts, Some(call)).Committed? {
        BindKeeps(d, r, call, version, drafts);
      } else {
        BookKeeps(d, Step(d, r, CallTool(call, version, drafts)), r, book.(binding := RejectedCall(call)));
      }
    }
  }

  /** A tool call whose proposal is accepted. */
  lemma BindKeeps(d: Desk, r: RunId, call: CallId, version: nat, drafts: seq<Draft>)
    requires DeskOk(d, r) && d.stage.Driving? && !Answered(d.session, call) && FreshDrafts(d.w, drafts)
    requires Append(d.w.t, r, version, drafts, Some(call)).Committed?
    ensures DeskOk(d.(w := Perform(d.w, DoAppend(r, version, drafts, Some(call)))), r)
  {
    var d' := d.(w := Perform(d.w, DoAppend(r, version, drafts, Some(call))));
    StepKeeps(d.w, DoAppend(r, version, drafts, Some(call)));
    StepAdvances(d.w, DoAppend(r, version, drafts, Some(call)));
    assert r in d'.w.t.runs;
    AppendBinds(d.w.t, r, version, drafts, call);
    PaidStays(d, d', d.w.t.runs[r], d'.w.t.runs[r]);
  }

  lemma AppendBinds(t: Tables, r: RunId, version: nat, drafts: seq<Draft>, call: CallId)
    requires Append(t, r, version, drafts, Some(call)).Committed?
    ensures var book, book' := t.runs[r].book, Append(t, r, version, drafts, Some(call)).value.runs[r].book;
            book'.binding.BoundTo? && book'.binding.call == call && book' == book.(binding := book'.binding)
    ensures Append(t, r, version, drafts, Some(call)).value.runs[r].planVersion == t.runs[r].planVersion
  {
    AppendShape(t, r, version, drafts, Some(call));
    AppendAllShape(t.runs[r], r, drafts);
  }

  /** A step that only writes the book, other than its replan count. */
  lemma BookKeeps(d: Desk, d': Desk, r: RunId, book: Book)
    requires DeskOk(d, r) && d'.w == SetBook(d.w, r, book)
    requires book.replans == d.w.t.runs[r].book.replans && WithinBudget(d.w.t.runs[r].(book := book))
    requires d'.revisedFor == d.revisedFor && (d'.charge == d.charge || d'.charge.NoCharge?)
    ensures Inv(d'.w) && r in d'.w.t.runs && PaidFor(d', d'.w.t.runs[r]) && d'.w.t.runs[r].book == book
    ensures WithinBudget(d'.w.t.runs[r])
  {
    StepKeeps(d.w, DoAnnotate(r, book));
    StepAdvances(d.w, DoAnnotate(r, book));
    assert r in d'.w.t.runs;
    PaidStays(d, d', d.w.t.runs[r], d'.w.t.runs[r]);
  }

  lemma ElsewhereKeeps(d: Desk, r: RunId, l: Label)
    requires DeskOk(d, r) && Possible(d, r, Elsewhere(l))
    ensures DeskOk(Step(d, r, Elsewhere(l)), r)
  {
    var d' := Step(d, r, Elsewhere(l));
    StepKeeps(d.w, l);
    StepAdvances(d.w, l);
    assert r in d'.w.t.runs;
    if Transact(d.w.t, l).Committed? {
      ForeignSpares(d.w.t, l, r);
    }
    PaidStays(d, d', d.w.t.runs[r], d'.w.t.runs[r]);
  }

  lemma CarryOutKeeps(d: Desk, r: RunId, o: Observation)
    requires DeskOk(d, r) && d.charge.Charged?
    ensures DeskOk(Step(d, r, CarryOut(o)), r)
  {
    var d' := Step(d, r, CarryOut(o));
    var run := d.w.t.runs[r];
    StepKeeps(d.w, DoRevise(r, run.planVersion, o));
    if Revise(d.w.t, r, run.planVersion, o).Committed? {
      var run' := d'.w.t.runs[r];
      forall i | 0 <= i < |d.revisedFor| ensures OfOlderPlan(run', d.revisedFor[i]) {
        assert OfOlderPlan(run, d.revisedFor[i]);
      }
      if d.charge.subject.Some? {
        assert OfPlan(run, d.charge.subject.value, run.planVersion);
        forall i | 0 <= i < |d.revisedFor| ensures d.revisedFor[i] != d.charge.subject.value {
          assert OfOlderPlan(run, d.revisedFor[i]);
        }
      }
    }
  }

  lemma ChargeKeeps(d: Desk, r: RunId, bound: bool)
    requires DeskOk(d, r) && Possible(d, r, ChargeReplan(bound))
    ensures DeskOk(Step(d, r, ChargeReplan(bound)), r)
  {
    var book := d.w.t.runs[r].book;
    StepKeeps(d.w, DoAnnotate(r, book.(replans := book.replans + 1)));
  }

  lemma OutboxKeeps(d: Desk, r: RunId, m: Move)
    requires DeskOk(d, r) && Possible(d, r, m)
    requires || m.BeginDrive? || m.AgentSpeaks? || m.EndDrive? || m.SendRefusal?
             || m.LeaveLoop? || m.RestoreReceipt? || m.GiveUp? || m.Crash?
    ensures DeskOk(Step(d, r, m), r)
  {
    var d' := Step(d, r, m);
    assert d.session <= d'.session;
    assert forall c :: Answered(d.session, c) ==> Answered(d'.session, c);
  }

  lemma RemarkedStays(run: Run, stage: Stage, remark: Remark)
    requires WithinBudget(run) && Affords(run, stage, remark)
    ensures WithinBudget(run.(book := Remarked(run.book, remark)))
    ensures var a, b := run.book, Remarked(run.book, remark);
            b.binding == a.binding && b.pendingFeedback == a.pendingFeedback && b.replans == a.replans
  {}

  lemma WriteKeeps(d: Desk, r: RunId, remark: Remark)
    requires DeskOk(d, r) && Affords(d.w.t.runs[r], d.stage, remark)
    ensures DeskOk(Step(d, r, Write(remark)), r)
  {
    RemarkedStays(d.w.t.runs[r], d.stage, remark);
    BookKeeps(d, Step(d, r, Write(remark)), r, Remarked(d.w.t.runs[r].book, remark));
  }

  lemma BookMoveKeeps(d: Desk, r: RunId, m: Move)
    requires DeskOk(d, r) && Possible(d, r, m)
    requires m.BeginRefusal? || m.PrepareFeedback? || m.ClearFeedback?
    ensures DeskOk(Step(d, r, m), r)
  {
    var d' := Step(d, r, m);
    var book := d.w.t.runs[r].book;
    match m
    case BeginRefusal => BookKeeps(d, d', r, book.(binding := Unbound));
    case PrepareFeedback => BookKeeps(d, d', r, book.(pendingFeedback := Some(book.binding.call)));
    case ClearFeedback => BookKeeps(d, d', r, book.(pendingFeedback := None));
  }

  lemma MoveKeeps(d: Desk, r: RunId, m: Move)
    requires DeskOk(d, r) && Possible(d, r, m)
    ensures DeskOk(Step(d, r, m), r)
  {
    match m
    case Elsewhere(l) => ElsewhereKeeps(d, r, l);
    case CallTool(call, version, drafts) => ToolKeeps(d, r, call, version, drafts);
    case CarryOut(o) => CarryOutKeeps(d, r, o);
    case ChargeReplan(bound) => ChargeKeeps(d, r, bound);
    case BeginDrive | AgentSpeaks(_) | EndDrive | SendRefusal | LeaveLoop | RestoreReceipt | GiveUp | Crash =>
      OutboxKeeps(d, r, m);
    case Write(remark) => WriteKeeps(d, r, remark);
    case _ => BookMoveKeeps(d, r, m);
  }

  // ----- whole driven runs -----

  /** A finite run of the driver and its surroundings, crashes included. */
  ghost predicate Driven(d: Desk, r: RunId, ms: seq<Move>)
    decreases |ms|
  {
    r in d.w.t.runs && (ms == [] || (Possible(d, r, ms[0]) && Driven(Step(d, r, ms[0]), r, ms[1..])))
  }

  ghost function Drive(d: Desk, r: RunId, ms: seq<Move>): Desk
    requires Driven(d, r, ms)
    decreases |ms|
  {
    if ms == [] then d else Drive(Step(d, r, ms[0]), r, ms[1..])
  }

  lemma {:induction false} DriveKeeps(d: Desk, r: RunId, ms: seq<Move>)
    requires DeskOk(d, r) && Driven(d, r, ms)
    ensures DeskOk(Drive(d, r, ms), r)
    decreases |ms|
  {
    if ms != [] {
      MoveKeeps(d, r, ms[0]);
      DriveKeeps(Step(d, r, ms[0]), r, ms[1..]);
    }
  }

  /** A run that was just created, in any good world, with no driver at work. */
  ghost predicate NewDesk(d: Desk, r: RunId) {
    && Inv(d.w) && r in d.w.t.runs
    && d.w.t.runs[r].planVersion == 1
    && d.w.t.runs[r].book == Book(Unbound, None, 0, 0, 0, 0, 1)
    && d.session == [] && d.stage.Outside? && d.charge.NoCharge? && d.revisedFor == []
  }

  /** Over every driven run with crashes anywhere: every revision was paid for out of the replan
      budget, model calls, retries and observations are within theirs, no bound action causes two of
      them, and no call gets two user-authored results. */
  lemma DrivenRunsAreBounded(d: Desk, r: RunId, ms: seq<Move>)
    requires NewDesk(d, r) && Driven(d, r, ms)
    ensures var end := Drive(d, r, ms);
            && r in end.w.t.runs
            && var run := end.w.t.runs[r];
               && run.planVersion - 1 <= run.book.replans <= run.budget.maxReplans
               && WithinBudget(run)
               && (forall i, j :: 0 <= i < j < |end.revisedFor| ==> end.revisedFor[i] != end.revisedFor[j])
               && (forall i, j :: 0 <= i < j < |end.session| && end.session[i].UserResult? ==>
                    end.session[i] != end.session[j])
  {
    DriveKeeps(d, r, ms);
  }
}
