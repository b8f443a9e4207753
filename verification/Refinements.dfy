/** The runtime refines the driver's crash machine: as long as the environment supplies fresh identifiers,
    whatever a call of the runtime does is a sequence of the driver's moves. */
module Refinements {
  import opened Contracts
  import opened Transactions
  import opened Executors
  import opened Protocol
  import opened Operations
  import opened Steadiness
  import opened Drivers
  import opened RuntimeSteps
  import opened DrivenSteps

  // ----- the environment's supply of identifiers -----

  /** The environments and decisions that a runtime will meet, and how far it has got. */
  datatype Supply = Supply(weather: nat -> Weather, decisions: nat -> Decision, hour: nat, turn: nat)

  function Later(s: Supply): Supply {
    s.(hour := s.hour + 1)
  }

  ghost predicate Unlike(e: Weather, e': Weather) {
    forall id :: OfWeather(id, e) ==> !OfWeather(id, e')
  }

  predicate UnlikeMoves(a: AgentMove, b: AgentMove) {
    a.Propose? && b.Propose? ==> a.draft.id != b.draft.id && a.launch.newId != b.launch.newId
  }

  /** The environments and decisions to come have fresh identifiers, and no two of them the same. */
  ghost predicate Provides(s: Supply, w: World) {
    && (forall h: nat :: s.hour <= h ==> FreshWeather(w.x, s.weather(h)))
    && (forall h: nat, h': nat :: h != h' ==> Unlike(s.weather(h), s.weather(h')))
    && (forall n: nat :: s.turn <= n ==> FreshMove(w.issued, w.x, s.decisions(n).move))
    && (forall n: nat, m: nat :: n != m ==> UnlikeMoves(s.decisions(n).move, s.decisions(m).move))
  }

  /** A decision whose identifiers are fresh and unlike those of all decisions to come. */
  ghost predicate ToCome(decisions: nat -> Decision, turn: nat, issued: map<ActionId, RunId>, x: Executor,
      move: AgentMove) {
    FreshMove(issued, x, move) && forall n: nat :: turn <= n ==> UnlikeMoves(move, decisions(n).move)
  }

  lemma LaterProvides(s: Supply, w: World)
    requires Provides(s, w)
    ensures Provides(Later(s), w)
  {}

  /** A step that the executor does not see leaves the supply fresh. */
  lemma PostProvides(s: Supply, w: World, r: RunId, book: Book)
    requires Provides(s, w) && r in w.t.runs
    ensures Provides(s, Post(w, r, book))
  {}

  lemma DeliveryProvides(s: Supply, w: World, ev: Event)
    requires Provides(s, w)
    ensures Provides(s, Note(w, Apply(w.t, ev)).0)
  {
    NoteSpares(w, Apply(w.t, ev));
  }

  /** Taking a decision out of the supply. */
  lemma TurnProvides(s: Supply, w: World)
    requires Provides(s, w)
    ensures Provides(s.(turn := s.turn + 1), w)
              && ToCome(s.decisions, s.turn + 1, w.issued, w.x, s.decisions(s.turn).move)
  {}

  /** Using up one environment leaves the others fresh. */
  lemma WeatherSpent(s: Supply, w: World, w': World)
    requires Provides(s, w) && Uses(w, w', s.weather(s.hour))
    ensures Provides(Later(s), w')
  {
    forall h: nat | s.hour + 1 <= h ensures FreshWeather(w'.x, s.weather(h)) {
      StaysFresh(w, w', s.weather(s.hour), s.weather(h));
    }
    forall n: nat | s.turn <= n ensures FreshMove(w'.issued, w'.x, s.decisions(n).move) {
      assert FreshMove(w.issued, w.x, s.decisions(n).move);
    }
  }

  lemma StaysFresh(w: World, w': World, e: Weather, later: Weather)
    requires FreshWeather(w.x, later) && Uses(w, w', e) && Unlike(e, later)
    ensures FreshWeather(w'.x, later)
  {
    forall id ensures FreshEvent(w'.x, later.stopNet(id).event) && FreshEvent(w'.x, later.tickStopNet(id).event) {
      assert FreshEvent(w.x, later.stopNet(id).event) && FreshEvent(w.x, later.tickStopNet(id).event);
      assert OfWeather(later.stopNet(id).event, later) && OfWeather(later.tickStopNet(id).event, later);
    }
  }

  /** Using up one decision leaves the others fresh. */
  lemma MoveSpent(s: Supply, w: World, w': World, move: AgentMove)
    requires Provides(s, w) && Spends(w, w', move)
    requires forall n: nat :: s.turn <= n ==> UnlikeMoves(move, s.decisions(n).move)
    ensures Provides(s, w')
  {
    forall h: nat | s.hour <= h ensures FreshWeather(w'.x, s.weather(h)) {
      assert FreshWeather(w.x, s.weather(h));
    }
    forall n: nat | s.turn <= n ensures FreshMove(w'.issued, w'.x, s.decisions(n).move) {
      assert FreshMove(w.issued, w.x, s.decisions(n).move) && UnlikeMoves(move, s.decisions(n).move);
    }
  }

  // ----- such a supply exists -----

  function NumberedNet(n: nat): Net {
    id => Wire(Prompt, n, 0)
  }

  function NumberedWeather(n: nat): Weather {
    Weather(0, id => 0, NumberedNet(n), TickClock(0, id => 0, id => 0, id => 0), NumberedNet(n), NumberedNet(n), None,
            Raised(Unexpected))
  }

  function NumberedDecision(n: nat): Decision {
    Decision(i => Replies, Propose(n, Draft(Proposal(0, 0, 0), n, 0, true), Launch(0, 0, true, n, Prompt)))
  }

  /** Counting gives every environment and every decision identifiers of its own. */
  lemma CountingProvides()
    ensures Provides(Supply(NumberedWeather, NumberedDecision, 0, 0), INITIAL)
  {
    forall h: nat, h': nat | h != h' ensures Unlike(NumberedWeather(h), NumberedWeather(h')) {
      forall id | OfWeather(id, NumberedWeather(h)) ensures !OfWeather(id, NumberedWeather(h')) {
        assert id == h;
      }
    }
  }

  // ----- the driver's machine, as the runtime sees it -----

  /** Some sequence of the driver's moves since then ends with this world, session and stage, and with
      no replan outstanding. */
  ghost predicate Followed(since: Desk, r: RunId, w: World, session: seq<Turn>, stage: Stage) {
    exists d :: Follows(since, d, r) && At(d, r, w, session, stage)
  }

  ghost predicate At(d: Desk, r: RunId, w: World, session: seq<Turn>, stage: Stage) {
    DeskOk(d, r) && d.w == w && d.session == session && d.stage == stage && d.charge.NoCharge?
  }

  /** What a call that followed the driver's machine keeps: its budgets, one revision for each bound
      action and one result for each call -- from a run that was just created. */
  lemma FollowedIsBounded(since: Desk, r: RunId, w: World, session: seq<Turn>, stage: Stage)
    requires NewDesk(since, r) && Followed(since, r, w, session, stage)
    ensures Inv(w) && Reach(since.w, w) && r in w.t.runs
    ensures var run := w.t.runs[r];
            && run.planVersion - 1 <= run.book.replans <= run.budget.maxReplans && WithinBudget(run)
            && forall i, j :: 0 <= i < j < |session| && session[i].UserResult? ==> session[i] != session[j]
  {
    var d :| Follows(since, d, r) && At(d, r, w, session, stage);
    FollowsReaches(since, d, r);
  }

  // ----- calls -----

  /** The driver's machine is there, and the environment can go on supplying identifiers. The quantifier
      ranges over this one world: it keeps the solver from unfolding the rest where that is not needed. */
  ghost predicate Tracks(since: Desk, r: RunId, s: Supply, w: World, said: seq<Turn>, stage: Stage) {
    forall v {:trigger Followed(since, r, v, said, stage)} ::
      v == w ==> Followed(since, r, v, said, stage) && Provides(s, v)
  }

  lemma TerminateTracks(since: Desk, r: RunId, s: Supply, w: World, w': World, said: seq<Turn>, stage: Stage,
      reason: StopReason, e: Weather)
    requires Tracks(since, r, s, w, said, stage)
    requires e == s.weather(s.hour) && r in w.t.runs && w' == Terminate(w, r, reason, e).0
    ensures r in w.t.runs && Tracks(since, r, Later(s), w', said, stage)
  {
    assert Followed(since, r, w, said, stage);
    var d :| Follows(since, d, r) && At(d, r, w, said, stage);
    TerminatePasses(d, r, reason, e);
    WeatherSpent(s, w, w');
    FollowsTrans(since, d, d.(w := w'), r);
    assert At(d.(w := w'), r, w', said, stage);
  }

  lemma CancelTracks(since: Desk, r: RunId, s: Supply, w: World, w': World, said: seq<Turn>, stage: Stage, e: Weather)
    requires Tracks(since, r, s, w, said, stage)
    requires e == s.weather(s.hour) && r in w.t.runs && w' == CancelRun(w, r, e).0
    ensures r in w.t.runs && Tracks(since, r, Later(s), w', said, stage)
  {
    assert Followed(since, r, w, said, stage);
    var d :| Follows(since, d, r) && At(d, r, w, said, stage);
    CancelPasses(d, r, e);
    WeatherSpent(s, w, w');
    FollowsTrans(since, d, d.(w := w'), r);
    assert At(d.(w := w'), r, w', said, stage);
  }

  lemma TickTracks(since: Desk, r: RunId, s: Supply, w: World, w': World, said: seq<Turn>, stage: Stage, e: Weather)
    requires Tracks(since, r, s, w, said, stage)
    requires e == s.weather(s.hour) && r in w.t.runs && w' == Tick(w, r, e.clock, e.tickStopNet, e.net).0
    ensures r in w.t.runs && Tracks(since, r, Later(s), w', said, stage)
  {
    assert Followed(since, r, w, said, stage);
    var d :| Follows(since, d, r) && At(d, r, w, said, stage);
    TickLeads(w, r, e.clock, e.tickStopNet, e.net);
    TickEmits(w, r, e.clock, e.tickStopNet, e.net);
    WorkPasses(d, r, w', e.tickStopNet, e);
    WeatherSpent(s, w, w');
    FollowsTrans(since, d, d.(w := w'), r);
    assert At(d.(w := w'), r, w', said, stage);
  }

  lemma DeliveryTracks(since: Desk, r: RunId, s: Supply, w: World, said: seq<Turn>, stage: Stage, ev: Event)
    requires Tracks(since, r, s, w, said, stage) && ev in w.x.events
    ensures r in w.t.runs && Tracks(since, r, s, Note(w, Apply(w.t, ev)).0, said, stage)
  {
    assert Followed(since, r, w, said, stage);
    var d :| Follows(since, d, r) && At(d, r, w, said, stage);
    var w' := Note(w, Apply(w.t, ev)).0;
    DeliveryProvides(s, w, ev);
    FollowsOne(d, r, Elsewhere(DoDeliver(ev)));
    assert w' == Perform(w, DoDeliver(ev));
    FollowsTrans(since, d, d.(w := w'), r);
    assert At(d.(w := w'), r, w', said, stage);
  }

  lemma RemarkTracks(since: Desk, r: RunId, s: Supply, w: World, said: seq<Turn>, stage: Stage, remark: Remark)
    requires Tracks(since, r, s, w, said, stage) && r in w.t.runs && Affords(w.t.runs[r], stage, remark)
    ensures r in w.t.runs && Tracks(since, r, s, Post(w, r, Remarked(w.t.runs[r].book, remark)), said, stage)
  {
    assert Followed(since, r, w, said, stage);
    var d :| Follows(since, d, r) && At(d, r, w, said, stage);
    var w' := Post(w, r, Remarked(w.t.runs[r].book, remark));
    PostProvides(s, w, r, Remarked(w.t.runs[r].book, remark));
    RemarkPasses(d, r, remark, s.weather(s.hour));
    FollowsTrans(since, d, d.(w := w'), r);
    assert At(d.(w := w'), r, w', said, stage);
  }

  /** Settling the bound action's outcome. */
  lemma PrepareTracks(since: Desk, r: RunId, s: Supply, w: World, w': World, said: seq<Turn>, a: Action, e: Weather)
    requires Tracks(since, r, s, w, said, Outside) && r in w.t.runs
    requires IsBound(w.t.runs[r], a) && w.t.runs[r].book.pendingFeedback.None?
    requires e == s.weather(s.hour) && r in w.t.runs && w' == Prepare(w, r, a, e).0
    ensures Tracks(since, r, Later(s), w', said, Outside)
  {
    assert Followed(since, r, w, said, Outside);
    var d :| Follows(since, d, r) && At(d, r, w, said, Outside);
    var d' := PreparePasses(d, r, a, e);
    WeatherSpent(s, w, d'.w);
    FollowsTrans(since, d, d', r);
    assert At(d', r, d'.w, said, Outside);
  }

  /** Carrying out a decision. */
  lemma CarriedTracks(since: Desk, r: RunId, s: Supply, w: World, w': World, said: seq<Turn>, move: AgentMove,
      e: Weather)
    requires Tracks(since, r, s, w, said, Driving) && r in w.t.runs && ToCome(s.decisions, s.turn, w.issued, w.x, move)
    requires e == s.weather(s.hour) && r in w.t.runs && w' == Carried(w, r, move, HasResult(said, move), e).0
    ensures Tracks(since, r, Later(s), w', said + ToolTurns(said, move), Driving)
  {
    assert Followed(since, r, w, said, Driving);
    var d :| Follows(since, d, r) && At(d, r, w, said, Driving);
    var d' := CarriedFollows(d, r, move, e);
    if Uses(w, d'.w, e) {
      WeatherSpent(s, w, d'.w);
    } else {
      MoveSpent(s, w, d'.w, move);
      LaterProvides(s, d'.w);
    }
    FollowsTrans(since, d, d', r);
    assert At(d', r, d'.w, said + ToolTurns(said, move), Driving);
  }

  /** Waiting, or reading a clock, costs an environment. */
  lemma LaterTracks(since: Desk, r: RunId, s: Supply, w: World, said: seq<Turn>, stage: Stage)
    requires Tracks(since, r, s, w, said, stage)
    ensures Tracks(since, r, Later(s), w, said, stage)
  {
    assert Followed(since, r, w, said, stage);
    LaterProvides(s, w);
  }

  /** Taking a decision. */
  lemma TurnTracks(since: Desk, r: RunId, s: Supply, w: World, said: seq<Turn>, stage: Stage)
    requires Tracks(since, r, s, w, said, stage)
    ensures Tracks(since, r, s.(turn := s.turn + 1), w, said, stage)
    ensures ToCome(s.decisions, s.turn + 1, w.issued, w.x, s.decisions(s.turn).move)
  {
    assert Followed(since, r, w, said, stage);
    TurnProvides(s, w);
  }

  // ----- stages -----

  /** The result that is due and not in the session yet. */
  function Due(said: seq<Turn>, book: Book): Option<CallId> {
    if book.pendingFeedback.Some? && !Answered(said, book.pendingFeedback.value) then book.pendingFeedback else None
  }

  /** The turn that a message for the agent becomes. */
  function Turns(message: Option<CallId>): seq<Turn> {
    if message.Some? then [UserResult(message.value)] else []
  }

  /** The message that a drive may start with: what is due, or the refusal that the loop is about to send. */
  predicate Opens(stage: Stage, said: seq<Turn>, book: Book, message: Option<CallId>) {
    match stage
    case Outside => message == Due(said, book)
    case Refusing(call) => message == Some(call)
    case _ => false
  }

  /** While the loop is between two drives: a refusal is about to be sent, or nothing. */
  function StageFor(refused: Option<CallId>): Stage {
    if refused.Some? then Refusing(refused.value) else Outside
  }

  /** Sending the message leaves nothing unsent, and no call with two results. */
  ghost predicate Sendable(said: seq<Turn>, book: Book, message: Option<CallId>) {
    AllSent(said + Turns(message), book)
  }

  /** The loop may drive with this message next. */
  ghost predicate MayDrive(stage: Stage, said: seq<Turn>, book: Book, message: Option<CallId>) {
    Sendable(said, book, message) && Opens(stage, said, book, message)
  }

  /** What is due can be sent. */
  lemma DueMayBeSent(said: seq<Turn>, book: Book)
    requires Outbox(said, book)
    ensures MayDrive(Outside, said, book, Due(said, book))
  {
    if Due(said, book).Some? {
      ResultSettles(said, book.pendingFeedback.value, book);
    } else {
      assert said + [] == said;
    }
  }

  lemma OpenTracks(since: Desk, r: RunId, s: Supply, w: World, said: seq<Turn>, stage: Stage, message: Option<CallId>)
    requires Tracks(since, r, s, w, said, stage) && r in w.t.runs && Opens(stage, said, w.t.runs[r].book, message)
    ensures Tracks(since, r, s, w, said + Turns(message), Driving)
  {
    assert Followed(since, r, w, said, stage);
    var d :| Follows(since, d, r) && At(d, r, w, said, stage);
    var m := if stage.Outside? then BeginDrive else SendRefusal;
    FollowsOne(d, r, m);
    FollowsTrans(since, d, Step(d, r, m), r);
    assert At(Step(d, r, m), r, w, said + Turns(message), Driving);
  }

  lemma CloseTracks(since: Desk, r: RunId, s: Supply, w: World, said: seq<Turn>)
    requires Tracks(since, r, s, w, said, Driving)
    ensures Tracks(since, r, s, w, said, Between)
  {
    assert Followed(since, r, w, said, Driving);
    var d :| Follows(since, d, r) && At(d, r, w, said, Driving);
    FollowsOne(d, r, EndDrive);
    FollowsTrans(since, d, Step(d, r, EndDrive), r);
    assert At(Step(d, r, EndDrive), r, w, said, Between);
  }

  lemma LeaveTracks(since: Desk, r: RunId, s: Supply, w: World, said: seq<Turn>, stage: Stage)
    requires Tracks(since, r, s, w, said, stage) && !stage.Driving?
    ensures Tracks(since, r, s, w, said, Outside)
  {
    if !stage.Outside? {
      assert Followed(since, r, w, said, stage);
      var d :| Follows(since, d, r) && At(d, r, w, said, stage);
      FollowsOne(d, r, LeaveLoop);
      FollowsTrans(since, d, Step(d, r, LeaveLoop), r);
      assert At(Step(d, r, LeaveLoop), r, w, said, Outside);
    }
  }

  lemma RefuseTracks(since: Desk, r: RunId, s: Supply, w: World, said: seq<Turn>)
    requires Tracks(since, r, s, w, said, Between) && r in w.t.runs && w.t.runs[r].book.binding.RejectedCall?
    ensures var book := w.t.runs[r].book;
            Tracks(since, r, s, Post(w, r, book.(binding := Unbound)), said, Refusing(book.binding.call))
  {
    assert Followed(since, r, w, said, Between);
    var d :| Follows(since, d, r) && At(d, r, w, said, Between);
    PostProvides(s, w, r, w.t.runs[r].book.(binding := Unbound));
    RefusalFollows(d, r);
    var book := w.t.runs[r].book;
    var d' := d.(w := Post(w, r, book.(binding := Unbound)), stage := Refusing(book.binding.call));
    FollowsTrans(since, d, d', r);
    assert At(d', r, d'.w, said, d'.stage);
  }

  lemma ClearTracks(since: Desk, r: RunId, s: Supply, w: World, said: seq<Turn>)
    requires Tracks(since, r, s, w, said, Outside) && r in w.t.runs
    ensures Tracks(since, r, s, Post(w, r, w.t.runs[r].book.(pendingFeedback := None)), said, Outside)
  {
    assert Followed(since, r, w, said, Outside);
    var d :| Follows(since, d, r) && At(d, r, w, said, Outside);
    PostProvides(s, w, r, w.t.runs[r].book.(pendingFeedback := None));
    ClearingFollows(d, r);
    var d' := d.(w := Post(w, r, w.t.runs[r].book.(pendingFeedback := None)));
    FollowsTrans(since, d, d', r);
    assert At(d', r, d'.w, said, Outside);
  }

  lemma ReceiptTracks(since: Desk, r: RunId, s: Supply, w: World, said: seq<Turn>)
    requires Tracks(since, r, s, w, said, Outside) && r in w.t.runs && !w.t.runs[r].book.binding.Unbound?
    ensures Tracks(since, r, s, w, said + [Receipt(w.t.runs[r].book.binding.call)], Outside)
  {
    assert Followed(since, r, w, said, Outside);
    var d :| Follows(since, d, r) && At(d, r, w, said, Outside);
    FollowsOne(d, r, RestoreReceipt);
    FollowsTrans(since, d, Step(d, r, RestoreReceipt), r);
    assert At(Step(d, r, RestoreReceipt), r, w, said + [Receipt(w.t.runs[r].book.binding.call)], Outside);
  }
}
