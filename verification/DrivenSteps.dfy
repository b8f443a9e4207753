/** The calls of the runtime as runs of the driver's crash machine: each tool, each settled outcome and
    each stop is a sequence of the driver's moves, which uses up only its own fresh identifiers. */
module DrivenSteps {
  import opened Contracts
  import opened Transactions
  import opened Executors
  import opened Protocol
  import opened Histories
  import opened Operations
  import opened Steadiness
  import opened Drivers
  import opened RuntimeSteps

  // ----- sequences of moves -----

  ghost predicate Follows(d: Desk, d': Desk, r: RunId) {
    exists ms :: Driven(d, r, ms) && Drive(d, r, ms) == d'
  }

  lemma FollowsSelf(d: Desk, r: RunId)
    requires r in d.w.t.runs
    ensures Follows(d, d, r)
  {
    assert Driven(d, r, []) && Drive(d, r, []) == d;
  }

  lemma FollowsOne(d: Desk, r: RunId, m: Move)
    requires DeskOk(d, r) && Possible(d, r, m)
    ensures Follows(d, Step(d, r, m), r) && DeskOk(Step(d, r, m), r)
  {
    MoveKeeps(d, r, m);
    assert [m][0] == m && [m][1..] == [];
    assert Driven(Step(d, r, m), r, []) && Drive(Step(d, r, m), r, []) == Step(d, r, m);
    assert Driven(d, r, [m]) && Drive(d, r, [m]) == Step(d, r, m);
  }

  lemma {:induction false} DriveOn(d: Desk, r: RunId, ms: seq<Move>, more: seq<Move>)
    requires Driven(d, r, ms) && Driven(Drive(d, r, ms), r, more)
    ensures Driven(d, r, ms + more) && Drive(d, r, ms + more) == Drive(Drive(d, r, ms), r, more)
    decreases |ms|
  {
    if ms == [] {
      assert ms + more == more;
    } else {
      DriveOn(Step(d, r, ms[0]), r, ms[1..], more);
      assert (ms + more)[1..] == ms[1..] + more;
    }
  }

  lemma FollowsTrans(d: Desk, d': Desk, d'': Desk, r: RunId)
    requires Follows(d, d', r) && Follows(d', d'', r)
    ensures Follows(d, d'', r)
  {
    var ms :| Driven(d, r, ms) && Drive(d, r, ms) == d';
    var more :| Driven(d', r, more) && Drive(d', r, more) == d'';
    DriveOn(d, r, ms, more);
  }

  /** The steps of an operation are steps of others to the driver. */
  lemma {:induction false} PlayIsDriven(d: Desk, r: RunId, ls: seq<Label>) returns (ms: seq<Move>)
    requires DeskOk(d, r) && Legal(d.w, ls) && AllOperational(ls)
    ensures Driven(d, r, ms) && Drive(d, r, ms) == d.(w := Play(d.w, ls)) && DeskOk(d.(w := Play(d.w, ls)), r)
    decreases |ls|
  {
    if ls == [] {
      ms := [];
    } else {
      assert Operational(ls[0]);
      MoveKeeps(d, r, Elsewhere(ls[0]));
      var d' := Step(d, r, Elsewhere(ls[0]));
      var rest := PlayIsDriven(d', r, ls[1..]);
      ms := [Elsewhere(ls[0])] + rest;
      assert ms[0] == Elsewhere(ls[0]) && ms[1..] == rest;
    }
  }

  lemma WorkFollows(d: Desk, r: RunId, w: World)
    requires DeskOk(d, r) && Works(d.w, w)
    ensures Follows(d, d.(w := w), r) && DeskOk(d.(w := w), r)
  {
    var ls :| Legal(d.w, ls) && Play(d.w, ls) == w && AllOperational(ls);
    var ms := PlayIsDriven(d, r, ls);
  }

  /** What the driver's machine reaches the small-step machine reaches. */
  lemma {:induction false} DrivenIsPlayed(d: Desk, r: RunId, ms: seq<Move>)
    requires DeskOk(d, r) && Driven(d, r, ms)
    ensures Reach(d.w, Drive(d, r, ms).w)
    decreases |ms|
  {
    if ms == [] {
      assert Legal(d.w, []) && Play(d.w, []) == d.w;
    } else {
      MoveKeeps(d, r, ms[0]);
      MoveIsPlayed(d, r, ms[0]);
      DrivenIsPlayed(Step(d, r, ms[0]), r, ms[1..]);
      ReachTrans(d.w, Step(d, r, ms[0]).w, Drive(d, r, ms).w);
    }
  }

  /** The label that a move performs, if it touches the ledger, the executor or the network. */
  function LabelOf(d: Desk, r: RunId, m: Move): Option<Label>
    requires r in d.w.t.runs
  {
    var book := d.w.t.runs[r].book;
    match m
    case Elsewhere(l) => Some(l)
    case CallTool(call, version, drafts) =>
      if !book.binding.Unbound? && book.binding.call == call then None
      else if Append(d.w.t, r, version, drafts, Some(call)).Committed?
          then Some(DoAppend(r, version, drafts, Some(call)))
      else Some(DoAnnotate(r, book.(binding := RejectedCall(call))))
    case Write(remark) => Some(DoAnnotate(r, Remarked(book, remark)))
    case BeginRefusal => if book.binding.RejectedCall? then Some(DoAnnotate(r, book.(binding := Unbound))) else None
    case PrepareFeedback =>
      if book.binding.BoundTo? then Some(DoAnnotate(r, book.(pendingFeedback := Some(book.binding.call)))) else None
    case ClearFeedback => Some(DoAnnotate(r, book.(pendingFeedback := None)))
    case ChargeReplan(_) => Some(DoAnnotate(r, book.(replans := book.replans + 1)))
    case CarryOut(o) => if d.charge.NoCharge? then None else Some(DoRevise(r, d.w.t.runs[r].planVersion, o))
    case _ => None
  }

  lemma LabelIsPerformed(d: Desk, r: RunId, m: Move)
    requires r in d.w.t.runs && Possible(d, r, m)
    ensures LabelOf(d, r, m).None? ==> Step(d, r, m).w == d.w
    ensures var l := LabelOf(d, r, m); l.Some? ==> Step(d, r, m).w == Perform(d.w, l.value) && Enabled(d.w, l.value)
  {}

  lemma MoveIsPlayed(d: Desk, r: RunId, m: Move)
    requires r in d.w.t.runs && Possible(d, r, m)
    ensures Reach(d.w, Step(d, r, m).w)
  {
    LabelIsPerformed(d, r, m);
    var l := LabelOf(d, r, m);
    if l.None? {
      assert Legal(d.w, []) && Play(d.w, []) == d.w;
    } else {
      ReachOne(d.w, l.value);
    }
  }

  lemma ReachOne(w: World, l: Label)
    requires Enabled(w, l)
    ensures Reach(w, Perform(w, l))
  {
    assert [l][0] == l && [l][1..] == [];
    assert Legal(Perform(w, l), []) && Play(Perform(w, l), []) == Perform(w, l);
    assert Legal(w, [l]) && Play(w, [l]) == Play(Perform(w, l), []);
  }

  lemma ReachTrans(u: World, v: World, w: World)
    requires Reach(u, v) && Reach(v, w)
    ensures Reach(u, w)
  {
    var ls :| Legal(u, ls) && Play(u, ls) == v;
    var more :| Legal(v, more) && Play(v, more) == w;
    PlayOn(u, ls, more);
  }

  lemma FollowsReaches(d: Desk, d': Desk, r: RunId)
    requires DeskOk(d, r) && Follows(d, d', r)
    ensures Reach(d.w, d'.w) && DeskOk(d', r) && Advances(d.w, d'.w)
  {
    var ms :| Driven(d, r, ms) && Drive(d, r, ms) == d';
    DriveKeeps(d, r, ms);
    DrivenIsPlayed(d, r, ms);
    ReachKeeps(d.w, d'.w);
  }

  // ----- what a call uses up of the environment's fresh identifiers -----

  ghost predicate FromNet(id: EventId, net: Net) {
    exists a :: net(a).event == id
  }

  /** Only events that this link named were added, and no execution, action or submission. */
  ghost predicate Emits(w: World, w': World, net: Net) {
    && w'.issued == w.issued && w'.x.executions.Keys == w.x.executions.Keys
    && (forall k :: k in w.x.executions ==>
          w'.x.executions[k].snapshot.executionId == w.x.executions[k].snapshot.executionId)
    && forall ev :: ev in w'.x.events ==> ev in w.x.events || FromNet(ev.id, net)
  }

  /** The same world to the executor and to whoever hands out identifiers. */
  ghost predicate OnlyLedger(w: World, w': World) {
    w'.x == w.x && w'.issued == w.issued
  }

  lemma NoteSpares(w: World, o: Outcome<Tables>)
    ensures OnlyLedger(w, Note(w, o).0)
  {}

  lemma AcceptSnapshotSpares(w: World, r: RunId, id: ActionId, s: Snapshot)
    ensures OnlyLedger(w, AcceptSnapshot(w, r, id, s).0)
  {
    NoteSpares(w, Accept(w.t, r, id, s));
    var w' := Note(w, Accept(w.t, r, id, s)).0;
    if s.lastEvent.Some? { NoteSpares(w', Apply(w'.t, s.lastEvent.value)); }
  }

  lemma CancelCallEmits(w: World, key: ActionId, a: ActionId, net: Net)
    ensures Emits(w, w.(x := CancelCall(w.x, key, net(a)).0), net)
  {}

  lemma StopOneEmits(w: World, r: RunId, a: Action, net: Net)
    ensures Emits(w, StopOne(w, r, a, net(a.id)).0, net)
  {
    CancelCallEmits(w, a.key, a.id, net);
    NoteSpares(w, MarkUnknown(w.t, r, a.id));
    var (x', reply) := CancelCall(w.x, a.key, net(a.id));
    var w' := w.(x := x');
    NoteSpares(w', MarkUnknown(w'.t, r, a.id));
    if reply.Answer? {
      AcceptSnapshotSpares(w', r, a.id, reply.snapshot);
      var w2 := AcceptSnapshot(w', r, a.id, reply.snapshot).0;
      NoteSpares(w2, MarkUnknown(w2.t, r, a.id));
    }
  }

  lemma {:induction false} StopFirstEmits(w: World, r: RunId, actions: seq<Action>, n: nat, net: Net)
    requires n <= |actions|
    ensures Emits(w, StopFirst(w, r, actions, n, net).0, net)
    decreases n
  {
    if n > 0 {
      StopFirstEmits(w, r, actions, n - 1, net);
      StopOneEmits(StopFirst(w, r, actions, n - 1, net).0, r, actions[n - 1], net);
    }
  }

  lemma RequestStopEmits(w: World, r: RunId, reason: StopReason, now: Clock, net: Net)
    ensures Emits(w, RequestStop(w, r, reason, now, net).0, net)
  {
    var w' := Note(w, Freeze(w.t, r, reason, now)).0;
    if r in w'.t.runs {
      StopFirstEmits(w', r, w'.t.runs[r].actions, |w'.t.runs[r].actions|, net);
    }
  }

  lemma {:induction false} ReconcileFirstSpares(w: World, r: RunId, actions: seq<Action>, n: nat, net: Net)
    requires n <= |actions|
    ensures var w' := ReconcileFirst(w, r, actions, n, net).0; w'.x == w.x && w'.issued == w.issued
    decreases n
  {
    if n > 0 { ReconcileFirstSpares(w, r, actions, n - 1, net); }
  }

  lemma TickEmits(w: World, r: RunId, clock: TickClock, stopNet: Net, net: Net)
    ensures Emits(w, Tick(w, r, clock, stopNet, net).0, stopNet)
  {
    RequestStopEmits(w, r, Timeout, clock.stopAt, stopNet);
    if r in w.t.runs && !Over(w.t.runs[r].status) {
      var run := w.t.runs[r];
      var w1 := if run.stopIntent.None? && Expired(run, clock.now, clock.each)
                then RequestStop(w, r, Timeout, clock.stopAt, stopNet).0 else w;
      if r in w1.t.runs {
        ReconcileFirstSpares(w1, r, w1.t.runs[r].actions, |w1.t.runs[r].actions|, net);
      }
    }
  }

  // ----- calls are sequences of moves -----

  /** The event ids that the executor would give in this environment are fresh. */
  ghost predicate FreshWeather(x: Executor, e: Weather) {
    && (forall id :: FreshEvent(x, e.stopNet(id).event))
    && (forall id :: FreshEvent(x, e.tickStopNet(id).event))
  }

  ghost predicate OfWeather(id: EventId, e: Weather) {
    FromNet(id, e.stopNet) || FromNet(id, e.tickStopNet)
  }

  /** Only events of this environment were added, and no execution or action. */
  ghost predicate Uses(w: World, w': World, e: Weather) {
    && w'.issued == w.issued && w'.x.executions.Keys == w.x.executions.Keys
    && (forall k :: k in w.x.executions ==>
          w'.x.executions[k].snapshot.executionId == w.x.executions[k].snapshot.executionId)
    && forall ev :: ev in w'.x.events ==> ev in w.x.events || OfWeather(ev.id, e)
  }

  /** A sequence of the driver's moves that used only this environment's event ids. */
  ghost predicate Passes(d: Desk, d': Desk, r: RunId, e: Weather) {
    Follows(d, d', r) && DeskOk(d', r) && Uses(d.w, d'.w, e)
  }

  lemma PassesSelf(d: Desk, r: RunId, e: Weather)
    requires DeskOk(d, r)
    ensures Passes(d, d, r, e)
  {
    FollowsSelf(d, r);
  }

  lemma PassesTrans(d: Desk, d': Desk, d'': Desk, r: RunId, e: Weather)
    requires Passes(d, d', r, e) && Passes(d', d'', r, e)
    ensures Passes(d, d'', r, e)
  {
    FollowsTrans(d, d', d'', r);
  }

  /** A ledger transaction of the runtime that leaves plan and book alone. */
  predicate OnLedger(l: Label) {
    l.DoClose? || l.DoVerify? || l.DoObserve?
  }

  lemma NotePasses(d: Desk, r: RunId, l: Label, e: Weather)
    requires DeskOk(d, r) && OnLedger(l)
    ensures var w' := Note(d.w, Transact(d.w.t, l)).0; Passes(d, d.(w := w'), r, e) && w'.x == d.w.x
  {
    FollowsOne(d, r, Elsewhere(l));
    assert Note(d.w, Transact(d.w.t, l)).0 == Perform(d.w, l);
  }

  lemma RemarkPasses(d: Desk, r: RunId, remark: Remark, e: Weather)
    requires DeskOk(d, r) && Affords(d.w.t.runs[r], d.stage, remark)
    ensures var w' := Post(d.w, r, Remarked(d.w.t.runs[r].book, remark)); Passes(d, d.(w := w'), r, e) && w'.x == d.w.x
  {
    FollowsOne(d, r, Write(remark));
  }

  /** Dropping a rejection, about to refuse it. */
  lemma RefusalFollows(d: Desk, r: RunId)
    requires DeskOk(d, r) && d.stage.Between? && d.w.t.runs[r].book.binding.RejectedCall?
    ensures var book := d.w.t.runs[r].book;
            var d' := d.(w := Post(d.w, r, book.(binding := Unbound)), stage := Refusing(book.binding.call));
            Follows(d, d', r) && DeskOk(d', r)
  {
    FollowsOne(d, r, BeginRefusal);
  }

  lemma ClearingFollows(d: Desk, r: RunId)
    requires DeskOk(d, r) && d.stage.Outside?
    ensures var d' := d.(w := Post(d.w, r, d.w.t.runs[r].book.(pendingFeedback := None)));
            Follows(d, d', r) && DeskOk(d', r)
  {
    FollowsOne(d, r, ClearFeedback);
  }

  /** The steps of an operation that named only this environment's events. */
  lemma WorkPasses(d: Desk, r: RunId, w: World, net: Net, e: Weather)
    requires DeskOk(d, r) && Leads(d.w, w) && Emits(d.w, w, net) && (net == e.stopNet || net == e.tickStopNet)
    ensures Passes(d, d.(w := w), r, e)
  {
    WorkFollows(d, r, w);
  }

  /** A stop request for a reason, then a tick. */
  lemma StopAndTickPasses(d: Desk, r: RunId, reason: StopReason, e: Weather)
    requires DeskOk(d, r) && FreshWeather(d.w.x, e)
    ensures var (w1, f1) := RequestStop(d.w, r, reason, e.stopAt, e.stopNet);
            var (w2, f2) := Tick(w1, r, e.clock, e.tickStopNet, e.net);
            f1.Fine? && f2.Fine? && Passes(d, d.(w := w2), r, e)
  {
    RequestStopLeads(d.w, r, reason, e.stopAt, e.stopNet);
    RequestStopEmits(d.w, r, reason, e.stopAt, e.stopNet);
    RequestStopStops(d.w, r, reason, e.stopAt, e.stopNet);
    var w1 := RequestStop(d.w, r, reason, e.stopAt, e.stopNet).0;
    WorkPasses(d, r, w1, e.stopNet, e);
    TickLeads(w1, r, e.clock, e.tickStopNet, e.net);
    TickEmits(w1, r, e.clock, e.tickStopNet, e.net);
    var w2 := Tick(w1, r, e.clock, e.tickStopNet, e.net).0;
    WorkPasses(d.(w := w1), r, w2, e.tickStopNet, e);
    PassesTrans(d, d.(w := w1), d.(w := w2), r, e);
  }

  /** Terminating never raises on genuine replies. */
  lemma TerminatePasses(d: Desk, r: RunId, reason: StopReason, e: Weather)
    requires DeskOk(d, r) && FreshWeather(d.w.x, e)
    ensures var (w', f) := Terminate(d.w, r, reason, e); f.Fine? && Passes(d, d.(w := w'), r, e)
  {
    var w0 := Post(d.w, r, d.w.t.runs[r].book);
    RemarkPasses(d, r, AgentEvent, e);
    StopAndTickPasses(d.(w := w0), r, Effective(d.w.t.runs[r], reason), e);
    PassesTrans(d, d.(w := w0), d.(w := Terminate(d.w, r, reason, e).0), r, e);
  }

  lemma CancelPasses(d: Desk, r: RunId, e: Weather)
    requires DeskOk(d, r) && FreshWeather(d.w.x, e)
    ensures var (w', f) := CancelRun(d.w, r, e); f.Fine? && Passes(d, d.(w := w'), r, e)
  {
    PassesSelf(d, r, e);
    TerminatePasses(d, r, Cancel, e);
  }

  lemma LookPasses(d: Desk, d1: Desk, r: RunId, o: Observation, e: Weather)
    requires DeskOk(d, r) && Passes(d, d1, r, e) && d1 == d.(w := d1.w) && d1.w.x == d.w.x
    ensures var w' := Note(d1.w, Observe(d1.w.t, r, o)).0; Passes(d, d.(w := w'), r, e) && w'.x == d.w.x
  {
    NotePasses(d1, r, DoObserve(r, o), e);
    PassesTrans(d, d1, d1.(w := Note(d1.w, Observe(d1.w.t, r, o)).0), r, e);
  }

  lemma RefreshPasses(d: Desk, r: RunId, e: Weather)
    requires DeskOk(d, r)
    ensures var w' := Refresh(d.w, r, e).0; Passes(d, d.(w := w'), r, e) && w'.x == d.w.x
  {
    PassesSelf(d, r, e);
    var book := d.w.t.runs[r].book;
    if book.observationCount < d.w.t.runs[r].budget.maxObservations {
      var w1 := Post(d.w, r, book.(observationCount := book.observationCount + 1));
      RemarkPasses(d, r, Sighting, e);
      if e.seen.None? {
        assert Refresh(d.w, r, e).0 == w1;
      } else {
        var w2 := Note(w1, Observe(w1.t, r, e.seen.value)).0;
        assert Refresh(d.w, r, e).0 == w2;
        LookPasses(d, d.(w := w1), r, e.seen.value, e);
      }
    } else {
      assert Refresh(d.w, r, e).0 == d.w;
    }
  }

  // ----- recovery -----

  /** A replan that was paid for: refresh, then revise or give up. */
  lemma RevisionPasses(d: Desk, r: RunId, e: Weather) returns (d': Desk)
    requires DeskOk(d, r) && d.charge.Charged?
    ensures d'.w == RefreshAndRevise(d.w, r, e).0 && d'.session == d.session && d'.stage == d.stage
              && d'.charge.NoCharge?
    ensures Passes(d, d', r, e)
  {
    RefreshPasses(d, r, e);
    var (w1, f1) := Refresh(d.w, r, e);
    var d1 := d.(w := w1);
    if f1.Threw? {
      assert RefreshAndRevise(d.w, r, e).0 == w1;
      d' := GiveUpPasses(d1, r, e);
    } else {
      assert RefreshAndRevise(d.w, r, e).0
          == Note(w1, Revise(w1.t, r, w1.t.runs[r].planVersion, w1.t.runs[r].observation)).0;
      d' := SpendPasses(d1, r, e);
    }
    PassesTrans(d, d1, d', r, e);
  }

  /** Carrying a paid replan out on the present observation. */
  lemma SpendPasses(d: Desk, r: RunId, e: Weather) returns (d': Desk)
    requires DeskOk(d, r) && d.charge.Charged?
    ensures var run := d.w.t.runs[r]; d'.w == Note(d.w, Revise(d.w.t, r, run.planVersion, run.observation)).0
    ensures d'.session == d.session && d'.stage == d.stage && d'.charge.NoCharge?
    ensures Passes(d, d', r, e)
  {
    var o := d.w.t.runs[r].observation;
    FollowsOne(d, r, CarryOut(o));
    d' := Step(d, r, CarryOut(o));
  }

  lemma GiveUpPasses(d: Desk, r: RunId, e: Weather) returns (d': Desk)
    requires DeskOk(d, r) && d.charge.Charged?
    ensures d' == d.(charge := NoCharge) && Passes(d, d', r, e)
  {
    FollowsOne(d, r, GiveUp);
    d' := Step(d, r, GiveUp);
  }

  lemma ChargePasses(d: Desk, r: RunId, e: Weather, bound: bool) returns (d': Desk)
    requires DeskOk(d, r) && Possible(d, r, ChargeReplan(bound))
    ensures var book := d.w.t.runs[r].book; d'.w == Post(d.w, r, book.(replans := book.replans + 1))
    ensures d'.session == d.session && d'.stage == d.stage && d'.charge.Charged?
    ensures Passes(d, d', r, e)
  {
    FollowsOne(d, r, ChargeReplan(bound));
    d' := Step(d, r, ChargeReplan(bound));
  }

  lemma PaidRecoveryPasses(d: Desk, r: RunId, e: Weather) returns (d': Desk)
    requires DeskOk(d, r) && d.charge.Charged? && FreshWeather(d.w.x, e)
    ensures d'.w == PaidRecovery(d.w, r, e).0 && d'.session == d.session && d'.stage == d.stage && d'.charge.NoCharge?
    ensures Passes(d, d', r, e)
  {
    StopAndTickPasses(d, r, Replan, e);
    var w1 := StopForReplan(d.w, r, e).0;
    var d1 := d.(w := w1);
    if AllTerminal(w1.t.runs[r].actions) {
      d' := RevisionPasses(d1, r, e);
    } else {
      d' := GiveUpPasses(d1, r, e);
    }
    PassesTrans(d, d1, d', r, e);
  }

  /** A replan is charged, and carried out or given up. */
  lemma ChargedPasses(d: Desk, r: RunId, e: Weather, bound: bool) returns (d': Desk)
    requires DeskOk(d, r) && FreshWeather(d.w.x, e) && Possible(d, r, ChargeReplan(bound))
    ensures var book := d.w.t.runs[r].book;
            d'.w == PaidRecovery(Post(d.w, r, book.(replans := book.replans + 1)), r, e).0
    ensures d'.session == d.session && d'.stage == d.stage && d'.charge.NoCharge?
    ensures Passes(d, d', r, e)
  {
    var d1 := ChargePasses(d, r, e, bound);
    d' := PaidRecoveryPasses(d1, r, e);
    PassesTrans(d, d1, d', r, e);
  }

  /** Recovering: a replan is charged, for the bound action or for none, and carried out or given up. */
  lemma RecoverPasses(d: Desk, r: RunId, e: Weather, bound: bool) returns (d': Desk)
    requires DeskOk(d, r) && d.charge.NoCharge? && FreshWeather(d.w.x, e)
    requires bound ==> BoundNow(d.w.t.runs[r])
    ensures d'.w == Recover(d.w, r, e).0 && d'.session == d.session && d'.stage == d.stage && d'.charge.NoCharge?
    ensures Passes(d, d', r, e)
  {
    var book := d.w.t.runs[r].book;
    if book.replans >= d.w.t.runs[r].budget.maxReplans {
      TerminatePasses(d, r, Failure, e);
      d' := d.(w := Terminate(d.w, r, Failure, e).0);
    } else {
      assert Recover(d.w, r, e) == PaidRecovery(Post(d.w, r, book.(replans := book.replans + 1)), r, e);
      d' := ChargedPasses(d, r, e, bound);
    }
  }

  // ----- verdicts -----

  lemma JudgePasses(d: Desk, f: Fate, r: RunId, e: Weather)
    requires DeskOk(d, r)
    ensures var w' := Judge(d.w, f, r, e).0; Passes(d, d.(w := w'), r, e) && w'.x == d.w.x
  {
    PassesSelf(d, r, e);
    if e.verdict.Committed? { NotePasses(d, r, DoVerify(r, e.verdict.value, e.now), e); }
  }

  lemma CloseAndJudgePasses(d: Desk, r: RunId, e: Weather)
    requires DeskOk(d, r)
    ensures var w' := CloseAndJudge(d.w, r, e).0; Passes(d, d.(w := w'), r, e) && w'.x == d.w.x
  {
    var l := DoClose(r, d.w.t.runs[r].planVersion, d.w.t.runs[r].nextSequence - 1);
    var (w1, f1) := Note(d.w, Transact(d.w.t, l));
    NotePasses(d, r, l, e);
    if f1.Threw? {
      assert CloseAndJudge(d.w, r, e) == (w1, f1);
    } else {
      var (w2, f2) := Refresh(w1, r, e);
      assert CloseAndJudge(d.w, r, e) == Judge(w2, f2, r, e);
      RefreshPasses(d.(w := w1), r, e);
      PassesTrans(d, d.(w := w1), d.(w := w2), r, e);
      JudgePasses(d.(w := w2), f2, r, e);
      PassesTrans(d, d.(w := w2), d.(w := Judge(w2, f2, r, e).0), r, e);
    }
  }

  lemma FinishPasses(d: Desk, r: RunId, e: Weather) returns (d': Desk)
    requires DeskOk(d, r) && d.charge.NoCharge? && FreshWeather(d.w.x, e)
    ensures d'.w == FinishUsed(d.w, r, e).0 && d'.session == d.session && d'.stage == d.stage && d'.charge.NoCharge?
    ensures Passes(d, d', r, e)
  {
    PassesSelf(d, r, e);
    d' := d;
    if AllCurrentDone(d.w.t.runs[r]) {
      CloseAndJudgePasses(d, r, e);
      var (w1, f1) := CloseAndJudge(d.w, r, e);
      d' := d.(w := w1);
      if f1.Fine? && !Passing(e) {
        d' := RecoverPasses(d.(w := w1), r, e, false);
        PassesTrans(d, d.(w := w1), d', r, e);
      }
    }
  }

  lemma JudgeEndedPasses(d: Desk, r: RunId, a: Action, e: Weather)
    requires DeskOk(d, r)
    ensures var w' := JudgeEnded(d.w, r, a, e).0; Passes(d, d.(w := w'), r, e) && w'.x == d.w.x
  {
    RefreshPasses(d, r, e);
    var (w1, f1) := Refresh(d.w, r, e);
    JudgePasses(d.(w := w1), f1, r, e);
    PassesTrans(d, d.(w := w1), d.(w := Judge(w1, f1, r, e).0), r, e);
  }

  /** The bound action, where the binding says it is. */
  predicate IsBound(run: Run, a: Action) {
    && run.book.binding.BoundTo?
    && var k := FindAction(run.actions, run.book.binding.action); k < |run.actions| && a == run.actions[k]
  }

  lemma StillBound(d: Desk, d': Desk, r: RunId, a: Action)
    requires DeskOk(d, r) && Follows(d, d', r) && IsBound(d.w.t.runs[r], a)
    ensures r in d'.w.t.runs
    ensures d'.w.t.runs[r].book.binding == d.w.t.runs[r].book.binding
            && d'.w.t.runs[r].planVersion == d.w.t.runs[r].planVersion && a.planVersion == d.w.t.runs[r].planVersion ==>
              BoundNow(d'.w.t.runs[r])
  {
    FollowsReaches(d, d', r);
    assert r in d'.w.t.runs;
    if d'.w.t.runs[r].planVersion == d.w.t.runs[r].planVersion {
      PlansStay(d.w.t.runs[r], d'.w.t.runs[r], d.w.t.runs[r].book.binding.action, a.planVersion);
    }
  }

  lemma RepairFailedPasses(d: Desk, r: RunId, a: Action, verdict: Option<Verdict>, e: Weather) returns (d': Desk)
    requires DeskOk(d, r) && d.charge.NoCharge? && FreshWeather(d.w.x, e)
    requires FailedIn(d.w.t.runs[r].planVersion, a, verdict) ==> BoundNow(d.w.t.runs[r])
    ensures d'.w == RepairFailed(d.w, r, a, verdict, e).0 && d'.session == d.session && d'.stage == d.stage
              && d'.charge.NoCharge?
    ensures Passes(d, d', r, e)
  {
    if FailedIn(d.w.t.runs[r].planVersion, a, verdict) {
      d' := RecoverPasses(d, r, e, true);
    } else {
      PassesSelf(d, r, e);
      d' := d;
    }
  }

  /** Making the bound call's result due. */
  lemma ReadyPasses(d: Desk, r: RunId, e: Weather)
    requires DeskOk(d, r) && Possible(d, r, PrepareFeedback)
    ensures var book := d.w.t.runs[r].book;
            Passes(d, d.(w := Post(d.w, r, book.(pendingFeedback := Some(book.binding.call)))), r, e)
  {
    FollowsOne(d, r, PrepareFeedback);
  }

  /** Replanning after the bound action failed, and making its result due. */
  lemma SettlePasses(d: Desk, r: RunId, a: Action, verdict: Option<Verdict>, e: Weather) returns (d': Desk)
    requires DeskOk(d, r) && d.charge.NoCharge? && d.stage.Outside? && FreshWeather(d.w.x, e)
    requires FailedIn(d.w.t.runs[r].planVersion, a, verdict) ==> BoundNow(d.w.t.runs[r])
    requires d.w.t.runs[r].book.binding.BoundTo? && d.w.t.runs[r].book.pendingFeedback.None?
    ensures d'.w == SettleOutcome(d.w, r, a, verdict, e).0 && d'.session == d.session && d'.stage.Outside?
              && d'.charge.NoCharge?
    ensures Passes(d, d', r, e)
  {
    var d1 := RepairFailedPasses(d, r, a, verdict, e);
    RepairFailedKeeps(d.w, r, a, verdict, e);
    d' := d1;
    if RepairFailed(d.w, r, a, verdict, e).2 {
      var book := d1.w.t.runs[r].book;
      ReadyPasses(d1, r, e);
      d' := d1.(w := Post(d1.w, r, book.(pendingFeedback := Some(book.binding.call))));
      PassesTrans(d, d1, d', r, e);
    }
  }

  /** Settling the outcome of the bound action and making its result due. */
  lemma PreparePasses(d: Desk, r: RunId, a: Action, e: Weather) returns (d': Desk)
    requires DeskOk(d, r) && d.charge.NoCharge? && d.stage.Outside? && FreshWeather(d.w.x, e)
    requires IsBound(d.w.t.runs[r], a) && d.w.t.runs[r].book.pendingFeedback.None?
    ensures d'.w == Prepare(d.w, r, a, e).0 && d'.session == d.session && d'.stage.Outside? && d'.charge.NoCharge?
    ensures Passes(d, d', r, e)
  {
    JudgeEndedPasses(d, r, a, e);
    JudgeEndedKeeps(d.w, r, a, e);
    var (w1, f1) := JudgeEnded(d.w, r, a, e);
    var d1 := d.(w := w1);
    if f1.Threw? {
      d' := d1;
    } else {
      StillBound(d, d1, r, a);
      d' := SettlePasses(d1, r, a, VerdictOn(d.w.t.runs[r], a, e), e);
      PassesTrans(d, d1, d', r, e);
    }
  }

  lemma JudgeEndedKeeps(w: World, r: RunId, a: Action, e: Weather)
    requires r in w.t.runs
    ensures r in JudgeEnded(w, r, a, e).0.t.runs
    ensures var run, run' := w.t.runs[r], JudgeEnded(w, r, a, e).0.t.runs[r];
            && run'.book.binding == run.book.binding && run'.book.pendingFeedback == run.book.pendingFeedback
            && run'.planVersion == run.planVersion
  {
    RefreshWrites(w, r, e);
    var (w1, f1) := Refresh(w, r, e);
    if e.verdict.Committed? { VerifyNotes(w1, r, e.verdict.value, e.now); }
  }

  lemma RepairFailedKeeps(w: World, r: RunId, a: Action, verdict: Option<Verdict>, e: Weather)
    requires r in w.t.runs
    ensures r in RepairFailed(w, r, a, verdict, e).0.t.runs
    ensures var run, run' := w.t.runs[r], RepairFailed(w, r, a, verdict, e).0.t.runs[r];
            run'.book.binding == run.book.binding && run'.book.pendingFeedback == run.book.pendingFeedback
  {
    if FailedIn(w.t.runs[r].planVersion, a, verdict) { RecoverAccounts(w, r, e); }
  }

  // ----- the tool that submits an action -----

  /** The identifiers that a proposal would use are fresh. */
  ghost predicate FreshMove(issued: map<ActionId, RunId>, x: Executor, move: AgentMove) {
    move.Propose? ==> move.draft.id !in issued && FreshExecution(x, move.launch.newId)
  }

  /** No event was emitted, and only the proposal's own identifiers were used. */
  ghost predicate Spends(w: World, w': World, move: AgentMove) {
    && w'.x.events == w.x.events
    && (forall id :: id in w'.issued ==> id in w.issued || (move.Propose? && id == move.draft.id))
    && forall k :: k in w'.x.executions ==>
         || (k in w.x.executions && w'.x.executions[k].snapshot.executionId == w.x.executions[k].snapshot.executionId)
         || (move.Propose? && w'.x.executions[k].snapshot.executionId == move.launch.newId)
  }

  lemma IssueOne(issued: map<ActionId, RunId>, r: RunId, draft: Draft)
    ensures Issue(issued, r, [draft]) == issued[draft.id := r]
  {
    assert [draft][..0] == [];
    assert Issue(issued, r, []) == issued;
  }

  lemma SubmitSpends(w: World, a: Action, newId: ExecutionId, d: Delivery)
    ensures Starts(w, SubmitPending(w, a, newId, d).0, newId)
  {}

  /** At most an execution with this id was added. */
  ghost predicate Starts(w: World, w': World, newId: ExecutionId) {
    && w'.issued == w.issued && w'.x.events == w.x.events
    && forall k :: k in w'.x.executions ==>
         || (k in w.x.executions && w'.x.executions[k].snapshot.executionId == w.x.executions[k].snapshot.executionId)
         || w'.x.executions[k].snapshot.executionId == newId
  }

  lemma DispatchSpends(w: World, r: RunId, e: Launch)
    ensures Starts(w, Dispatch(w, r, e).0, e.newId)
  {
    var o := Intent(w.t, r, e.now, e.at, e.admissible);
    if o.Committed? && o.value.1.Some? {
      var a := o.value.1.value;
      var w0 := w.(t := o.value.0, pending := w.pending[a.id := a]);
      SubmitSpends(w0, a, e.newId, e.delivery);
      var (w1, reply) := SubmitPending(w0, a, e.newId, e.delivery);
      NoteSpares(w1, MarkUnknown(w1.t, r, a.id));
      if reply.Answer? { AcceptSnapshotSpares(w1, r, a.id, reply.snapshot); }
    }
  }

  lemma DispatchFollows(d: Desk, r: RunId, launch: Launch)
    requires DeskOk(d, r) && FreshExecution(d.w.x, launch.newId)
    ensures var w' := Dispatch(d.w, r, launch).0;
            Follows(d, d.(w := w'), r) && DeskOk(d.(w := w'), r) && Starts(d.w, w', launch.newId)
  {
    DispatchLeads(d.w, r, launch);
    DispatchSpends(d.w, r, launch);
    WorkFollows(d, r, Dispatch(d.w, r, launch).0);
  }

  /** Using the tool: the call, and the dispatch that follows. */
  lemma ToolFollows(d: Desk, r: RunId, move: AgentMove)
    requires DeskOk(d, r) && d.stage.Driving? && move.Propose? && !Answered(d.session, move.call)
    requires FreshMove(d.w.issued, d.w.x, move)
    ensures var w' := ToolUsed(d.w, r, move.call, move.draft, move.launch).0;
            Follows(d, d.(w := w'), r) && DeskOk(d.(w := w'), r) && Spends(d.w, w', move)
  {
    var version := d.w.t.runs[r].planVersion;
    var m := CallTool(move.call, version, [move.draft]);
    FollowsOne(d, r, m);
    var d1 := Step(d, r, m);
    CallSpends(d.w, r, move);
    if !Repeats(d.w.t.runs[r].book, move.call) && Append(d.w.t, r, version, [move.draft], Some(move.call)).Committed? {
      var w2 := Dispatch(d1.w, r, move.launch).0;
      assert ToolUsed(d.w, r, move.call, move.draft, move.launch).0 == w2;
      DispatchFollows(d1, r, move.launch);
      FollowsTrans(d, d1, d1.(w := w2), r);
    }
  }

  /** The call itself hands out at most the proposal's own id. */
  lemma CallSpends(w: World, r: RunId, move: AgentMove)
    requires r in w.t.runs && move.Propose?
    ensures var w' := ExecuteTool(w, r, move.call, w.t.runs[r].planVersion, [move.draft]);
            w'.x == w.x && w'.issued.Keys <= w.issued.Keys + {move.draft.id}
  {
    IssueOne(w.issued, r, move.draft);
  }

  // ----- whole decisions -----

  /** The agent asks for a call that has its result already. */
  predicate HasResult(session: seq<Turn>, move: AgentMove) {
    move.Propose? && UserResult(move.call) in session
  }

  /** What the session records of a move. */
  function ToolTurns(session: seq<Turn>, move: AgentMove): seq<Turn> {
    if move.Propose? && !HasResult(session, move) then [ToolCall(move.call), Receipt(move.call)] else []
  }

  /** The session records the agent's call and the tool's receipt. */
  lemma SpeaksFollows(d: Desk, r: RunId, call: CallId)
    requires DeskOk(d, r) && d.stage.Driving?
    ensures var d' := d.(session := d.session + [ToolCall(call), Receipt(call)]); Follows(d, d', r) && DeskOk(d', r)
  {
    FollowsOne(d, r, AgentSpeaks(ToolCall(call)));
    var d1 := Step(d, r, AgentSpeaks(ToolCall(call)));
    FollowsOne(d1, r, AgentSpeaks(Receipt(call)));
    var d2 := Step(d1, r, AgentSpeaks(Receipt(call)));
    FollowsTrans(d, d1, d2, r);
    assert d.session + [ToolCall(call)] + [Receipt(call)] == d.session + [ToolCall(call), Receipt(call)];
  }

  /** Only this environment's events, or this decision's identifiers, were used. */
  ghost predicate Takes(w: World, w': World, e: Weather, move: AgentMove) {
    Uses(w, w', e) || Spends(w, w', move)
  }

  /** Carrying out a decision. */
  lemma CarriedFollows(d: Desk, r: RunId, move: AgentMove, e: Weather) returns (d': Desk)
    requires DeskOk(d, r) && d.stage.Driving? && d.charge.NoCharge?
    requires FreshMove(d.w.issued, d.w.x, move) && FreshWeather(d.w.x, e)
    ensures d'.w == Carried(d.w, r, move, HasResult(d.session, move), e).0
    ensures d'.session == d.session + ToolTurns(d.session, move) && d'.stage.Driving? && d'.charge.NoCharge?
    ensures Follows(d, d', r) && DeskOk(d', r) && Takes(d.w, d'.w, e, move)
  {
    assert d.session + [] == d.session;
    PassesSelf(d, r, e);
    d' := d;
    match move {
      case Propose(call, draft, launch) =>
        if !HasResult(d.session, move) {
          ToolFollows(d, r, move);
          var d1 := d.(w := ToolUsed(d.w, r, call, draft, launch).0);
          SpeaksFollows(d1, r, call);
          d' := d1.(session := d1.session + [ToolCall(call), Receipt(call)]);
          FollowsTrans(d, d1, d', r);
        }
      case Finish =>
        d' := FinishPasses(d, r, e);
      case LookAround =>
        RefreshPasses(d, r, e);
        d' := d.(w := Refresh(d.w, r, e).0);
      case _ =>
    }
  }
}
