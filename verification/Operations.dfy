/** The scheduler's operations as sequences of transactions and executor calls, without a crash
    in between, and what they achieve. */
module Operations {
  import opened Contracts
  import opened Transactions
  import opened Executors
  import opened Protocol
  import opened Preservation
  import opened Histories
  import opened Safety

  /** An operation ends normally or raises after the transactions it already committed. */
  datatype Fate = Fine | Threw(error: Error)

  /** The environment of one dispatch: clock readings, the registry's verdict, the UUID the executor
      would give a new execution, and the link. */
  datatype Launch = Launch(now: Time, at: Time, admissible: bool, newId: ExecutionId, delivery: Delivery)

  /** What the link does to the call about each action. */
  type Net = ActionId -> Wire

  /** The clock readings of one tick. */
  datatype TickClock = TickClock(now: Time, each: Clock, stopAt: Clock, settleAt: Clock)

  function Note(w: World, o: Outcome<Tables>): (World, Fate) {
    if o.Raised? then (w, Threw(o.error)) else (w.(t := o.value), Fine)
  }

  /** `_accept_snapshot`: adopt the snapshot, then apply the event it carries. */
  function AcceptSnapshot(w: World, r: RunId, id: ActionId, s: Snapshot): (World, Fate) {
    var (w', f) := Note(w, Accept(w.t, r, id, s));
    if f.Threw? || s.lastEvent.None? then (w', f) else Note(w', Apply(w'.t, s.lastEvent.value))
  }

  function SubmitPending(w: World, a: Action, newId: ExecutionId, d: Delivery): (World, Reply) {
    var (x', reply) := Submit(w.x, a, newId, d);
    (w.(x := x', pending := w.pending - {a.id}), reply)
  }

  function Dispatch(w: World, r: RunId, e: Launch): (World, Fate) {
    var o := Intent(w.t, r, e.now, e.at, e.admissible);
    if o.Raised? then (w, Threw(o.error))
    else if o.value.1.None? then (w.(t := o.value.0), Fine)
    else
      var a := o.value.1.value;
      var (w', reply) := SubmitPending(w.(t := o.value.0, pending := w.pending[a.id := a]), a, e.newId, e.delivery);
      match reply
      case Answer(s) => AcceptSnapshot(w', r, a.id, s)
      case NoReply => Note(w', MarkUnknown(w'.t, r, a.id))
      case Missing => (w', Threw(UnknownExecution))
      case Refused(error) => (w', Threw(error))
  }

  /** One action's turn in reconcile. */
  function ReconcileOne(w: World, r: RunId, a: Action, d: Delivery): (World, Fate) {
    match Lookup(w.x, a.key, d)
    case Answer(s) => AcceptSnapshot(w, r, a.id, s)
    case _ => Note(w, MarkUnknown(w.t, r, a.id))
  }

  /** Reconcile after `n` of the actions it read at its start. */
  function ReconcileFirst(w: World, r: RunId, actions: seq<Action>, n: nat, net: Net): (World, Fate)
    requires n <= |actions|
  {
    if n == 0 then (w, Fine)
    else
      var (w', f) := ReconcileFirst(w, r, actions, n - 1, net);
      if f.Threw? || !InFlight(actions[n - 1].status) then (w', f)
      else ReconcileOne(w', r, actions[n - 1], net(actions[n - 1].id).delivery)
  }

  function Reconcile(w: World, r: RunId, net: Net): (World, Fate) {
    if r !in w.t.runs then (w, Threw(UnknownRun))
    else ReconcileFirst(w, r, w.t.runs[r].actions, |w.t.runs[r].actions|, net)
  }

  /** One action's turn in request_stop. */
  function StopOne(w: World, r: RunId, a: Action, wire: Wire): (World, Fate) {
    if r !in w.t.runs || a.proposal.actionType !in w.t.runs[r].capabilities then (w, Threw(NoSuchAction))
    else if !w.t.runs[r].capabilities[a.proposal.actionType].supportsCancel then Note(w, MarkUnknown(w.t, r, a.id))
    else
      var (x', reply) := CancelCall(w.x, a.key, wire);
      var w' := w.(x := x');
      match reply
      case Answer(s) =>
        var (w2, f) := AcceptSnapshot(w', r, a.id, s);
        if f.Threw? then Note(w2, MarkUnknown(w2.t, r, a.id)) else (w2, f)
      case _ => Note(w', MarkUnknown(w'.t, r, a.id))
  }

  function StopFirst(w: World, r: RunId, actions: seq<Action>, n: nat, net: Net): (World, Fate)
    requires n <= |actions|
  {
    if n == 0 then (w, Fine)
    else
      var (w', f) := StopFirst(w, r, actions, n - 1, net);
      if f.Threw? || !actions[n - 1].status.Stopping? then (w', f)
      else StopOne(w', r, actions[n - 1], net(actions[n - 1].id))
  }

  function RequestStop(w: World, r: RunId, reason: StopReason, now: Clock, net: Net): (World, Fate) {
    var (w', f) := Note(w, Freeze(w.t, r, reason, now));
    if f.Threw? || r !in w'.t.runs then (w', f)
    else StopFirst(w', r, w'.t.runs[r].actions, |w'.t.runs[r].actions|, net)
  }

  /** The run, or an action of it in flight, has used up its time. */
  predicate Expired(run: Run, now: Time, each: Clock) {
    || now - run.createdAt >= run.budget.totalSeconds
    || exists i :: 0 <= i < |run.actions| && InFlight(run.actions[i].status) && run.actions[i].submittedAt.Some?
                   && each(run.actions[i].id) - run.actions[i].submittedAt.value >= run.actions[i].timeoutSeconds
  }

  function Tick(w: World, r: RunId, clock: TickClock, stopNet: Net, net: Net): (World, Fate) {
    if r !in w.t.runs then (w, Threw(UnknownRun))
    else if Over(w.t.runs[r].status) then (w, Fine)
    else
      var run := w.t.runs[r];
      var (w1, f1) := if run.stopIntent.None? && Expired(run, clock.now, clock.each)
                      then RequestStop(w, r, Timeout, clock.stopAt, stopNet) else (w, Fine);
      if f1.Threw? then (w1, f1)
      else
        var (w2, f2) := Reconcile(w1, r, net);
        if f2.Threw? then (w2, f2) else Note(w2, Settle(w2.t, r, clock.settleAt))
  }

  // ----- operations are runs of the small-step machine -----

  /** The steps that the scheduler's operations are made of: those of a dispatch, of adopting reports, of
      stopping and of settling. */
  predicate Operational(l: Label) {
    || l.DoIntent? || l.DoSubmit? || l.DoDrop? || l.DoMarkUnknown? || l.DoAccept? || l.DoDeliver?
    || l.DoFreeze? || l.DoSettle? || l.DoInject?
  }

  predicate AllOperational(ls: seq<Label>) {
    forall i :: 0 <= i < |ls| ==> Operational(ls[i])
  }

  /** Reached through such steps alone. */
  ghost predicate Works(w: World, w': World) {
    exists ls :: Legal(w, ls) && Play(w, ls) == w' && AllOperational(ls)
  }

  lemma WorksSelf(w: World)
    ensures Works(w, w)
  {
    assert Legal(w, []) && Play(w, []) == w && AllOperational([]);
  }

  lemma WorksOne(w: World, l: Label)
    requires Enabled(w, l) && Operational(l)
    ensures Works(w, Perform(w, l))
  {
    assert [l][0] == l && [l][1..] == [];
    assert Legal(Perform(w, l), []) && Play(Perform(w, l), []) == Perform(w, l);
    assert Legal(w, [l]) && Play(w, [l]) == Play(Perform(w, l), []) && AllOperational([l]);
  }

  lemma {:induction false} PlayOn(w: World, ls: seq<Label>, more: seq<Label>)
    requires Legal(w, ls) && Legal(Play(w, ls), more)
    ensures Legal(w, ls + more) && Play(w, ls + more) == Play(Play(w, ls), more)
    decreases |ls|
  {
    if ls == [] {
      assert ls + more == more;
    } else {
      PlayOn(Perform(w, ls[0]), ls[1..], more);
      assert (ls + more)[1..] == ls[1..] + more;
    }
  }

  lemma WorksTrans(u: World, v: World, w: World)
    requires Works(u, v) && Works(v, w)
    ensures Works(u, w)
  {
    var ls :| Legal(u, ls) && Play(u, ls) == v && AllOperational(ls);
    var more :| Legal(v, more) && Play(v, more) == w && AllOperational(more);
    PlayOn(u, ls, more);
    assert AllOperational(ls + more);
  }

  lemma WorksKeeps(w: World, w': World)
    requires Inv(w) && Works(w, w')
    ensures Reach(w, w') && Inv(w') && Advances(w, w')
  {
    var ls :| Legal(w, ls) && Play(w, ls) == w' && AllOperational(ls);
    PlayKeeps(w, ls);
  }

  /** A good world that the small-step machine reaches through the steps of an operation. */
  ghost predicate Leads(w: World, w': World) {
    Works(w, w') && Inv(w') && Advances(w, w')
  }

  lemma LeadsSelf(w: World)
    requires Inv(w)
    ensures Leads(w, w)
  {
    WorksSelf(w);
    WorksKeeps(w, w);
  }

  lemma LeadsOne(w: World, l: Label)
    requires Inv(w) && Enabled(w, l) && Operational(l)
    ensures Leads(w, Perform(w, l))
  {
    WorksOne(w, l);
    WorksKeeps(w, Perform(w, l));
  }

  lemma LeadsTrans(u: World, v: World, w: World)
    requires Inv(u) && Leads(u, v) && Leads(v, w)
    ensures Leads(u, w)
  {
    WorksTrans(u, v, w);
    WorksKeeps(u, w);
  }

  /** An id of the run that was dispatched. */
  ghost predicate SentIn(w: World, r: RunId, id: ActionId) {
    && r in w.t.runs
    && var k := FindAction(w.t.runs[r].actions, id);
       k < |w.t.runs[r].actions| && !Unsent(w.t.runs[r].actions[k].status)
  }

  lemma SentStays(w: World, w': World, r: RunId, id: ActionId)
    requires SentIn(w, r, id) && Advances(w, w')
    ensures SentIn(w', r, id)
  {
    assert r in w'.t.runs;
    forall i | 0 <= i < |w.t.runs[r].actions| ensures w'.t.runs[r].actions[i].id == w.t.runs[r].actions[i].id {
      assert Evolves(w.t.runs[r].actions[i], w'.t.runs[r].actions[i]);
    }
    FindSame(w.t.runs[r].actions, w'.t.runs[r].actions, id);
    var k := FindAction(w.t.runs[r].actions, id);
    assert Evolves(w.t.runs[r].actions[k], w'.t.runs[r].actions[k]);
  }

  lemma MarkLeads(w: World, r: RunId, id: ActionId)
    requires Inv(w) && SentIn(w, r, id)
    ensures Leads(w, Note(w, MarkUnknown(w.t, r, id)).0) && Note(w, MarkUnknown(w.t, r, id)).1.Fine?
  {
    LeadsOne(w, DoMarkUnknown(r, id));
  }

  lemma GenuineSnapshotCommits(w: World, r: RunId, id: ActionId, s: Snapshot)
    requires Inv(w) && SentIn(w, r, id) && s in w.x.snapshots && s.key == id
    ensures Accept(w.t, r, id, s).Committed?
    ensures s.lastEvent.Some? ==> s.lastEvent.value in w.x.events && s.lastEvent.value.actionId == id
  {
    var a := w.t.runs[r].actions[FindAction(w.t.runs[r].actions, id)];
    assert PastSnapshotOk(w.x, s) && Linked(w, a) && RunOk(r, w.t.runs[r]) && ActionOk(r, w.t.runs[r], a);
  }

  /** Adopting a genuine snapshot of a dispatched action never raises. */
  lemma AcceptSnapshotLeads(w: World, r: RunId, id: ActionId, s: Snapshot)
    requires Inv(w) && SentIn(w, r, id) && s in w.x.snapshots && s.key == id
    ensures Leads(w, AcceptSnapshot(w, r, id, s).0) && AcceptSnapshot(w, r, id, s).1.Fine?
    ensures AcceptSnapshot(w, r, id, s).0.x == w.x
  {
    GenuineSnapshotCommits(w, r, id, s);
    LeadsOne(w, DoAccept(r, id, s));
    var w1 := Note(w, Accept(w.t, r, id, s)).0;
    assert w1 == Perform(w, DoAccept(r, id, s));
    if s.lastEvent.Some? {
      AcceptRecords(w.t, r, id, s);
      GenuineEventsApply(w1, r, FindAction(w.t.runs[r].actions, id), s.lastEvent.value);
      LeadsOne(w1, DoDeliver(s.lastEvent.value));
      LeadsTrans(w, w1, Perform(w1, DoDeliver(s.lastEvent.value)));
      assert AcceptSnapshot(w, r, id, s) == (Perform(w1, DoDeliver(s.lastEvent.value)), Fine);
    }
  }

  lemma AcceptRecords(t: Tables, r: RunId, id: ActionId, s: Snapshot)
    requires Accept(t, r, id, s).Committed?
    ensures var k, run' := FindAction(t.runs[r].actions, id), Accept(t, r, id, s).value.runs[r];
            k < |run'.actions| && run'.actions[k].id == id && run'.actions[k].executionId == Some(s.executionId)
  {}

  /** A genuine event of an action whose execution id is recorded always applies. */
  lemma GenuineEventsApply(w: World, r: RunId, k: nat, ev: Event)
    requires Inv(w) && r in w.t.runs && k < |w.t.runs[r].actions|
    requires ev in w.x.events && ev.actionId == w.t.runs[r].actions[k].id
    requires w.t.runs[r].actions[k].executionId.Some?
    ensures ev.runId == r && FindAction(w.t.runs[r].actions, ev.actionId) == k
    ensures Associated(w.t, ev) && Apply(w.t, ev).Committed?
  {
    var a := w.t.runs[r].actions[k];
    WhereIs(w, r, k);
    assert EventOk(w.x, ev) && Linked(w, a) && RunOk(r, w.t.runs[r]) && ActionOk(r, w.t.runs[r], a);
    if (r, ev.id) in w.t.received {
      assert ReceivedOk(w, r, ev.id);
      assert DistinctEvents(ev, w.t.received[(r, ev.id)]);
    }
  }

  // ----- each operation is a run of the machine -----

  lemma ReconcileOneLeads(w: World, r: RunId, a: Action, d: Delivery)
    requires Inv(w) && SentIn(w, r, a.id) && a.key == a.id
    ensures Leads(w, ReconcileOne(w, r, a, d).0) && ReconcileOne(w, r, a, d).1.Fine?
    ensures ReconcileOne(w, r, a, d).0.x == w.x
  {
    var reply := Lookup(w.x, a.key, d);
    if reply.Answer? {
      assert ExecutionOk(w.x, a.key);
      AcceptSnapshotLeads(w, r, a.id, reply.snapshot);
    } else {
      MarkLeads(w, r, a.id);
    }
  }

  /** An action of the run as read, that is or was in flight. */
  ghost predicate ReadFrom(w: World, r: RunId, a: Action) {
    InFlight(a.status) ==> a.key == a.id && SentIn(w, r, a.id)
  }

  lemma ReadStays(w: World, w': World, r: RunId, a: Action)
    requires ReadFrom(w, r, a) && Advances(w, w')
    ensures ReadFrom(w', r, a)
  {
    if InFlight(a.status) { SentStays(w, w', r, a.id); }
  }

  lemma OwnActionsRead(w: World, r: RunId)
    requires Inv(w) && r in w.t.runs
    ensures forall i :: 0 <= i < |w.t.runs[r].actions| ==> ReadFrom(w, r, w.t.runs[r].actions[i])
  {
    forall i | 0 <= i < |w.t.runs[r].actions| ensures ReadFrom(w, r, w.t.runs[r].actions[i]) {
      WhereIs(w, r, i);
      assert RunOk(r, w.t.runs[r]) && ActionOk(r, w.t.runs[r], w.t.runs[r].actions[i]);
    }
  }

  lemma ThenReconcileOne(w: World, w': World, r: RunId, a: Action, d: Delivery)
    requires Inv(w) && Leads(w, w') && w'.x == w.x && ReadFrom(w, r, a) && InFlight(a.status)
    ensures var (w2, f) := ReconcileOne(w', r, a, d); Leads(w, w2) && f.Fine? && w2.x == w.x
  {
    ReadStays(w, w', r, a);
    ReconcileOneLeads(w', r, a, d);
    LeadsTrans(w, w', ReconcileOne(w', r, a, d).0);
  }

  lemma {:induction false} ReconcileFirstLeads(w: World, r: RunId, actions: seq<Action>, n: nat, net: Net)
    requires Inv(w) && n <= |actions| && forall i :: 0 <= i < n ==> ReadFrom(w, r, actions[i])
    ensures Leads(w, ReconcileFirst(w, r, actions, n, net).0) && ReconcileFirst(w, r, actions, n, net).1.Fine?
    ensures ReconcileFirst(w, r, actions, n, net).0.x == w.x
    decreases n
  {
    if n == 0 {
      LeadsSelf(w);
    } else {
      ReconcileFirstLeads(w, r, actions, n - 1, net);
      var a, d := actions[n - 1], net(actions[n - 1].id).delivery;
      var w' := ReconcileFirst(w, r, actions, n - 1, net).0;
      ReconcileFirstNext(w, r, actions, n - 1, net);
      if InFlight(a.status) {
        ThenReconcileOne(w, w', r, a, d);
      }
    }
  }

  /** The next turn of the loop. */
  lemma ReconcileFirstNext(w: World, r: RunId, actions: seq<Action>, n: nat, net: Net)
    requires n < |actions| && ReconcileFirst(w, r, actions, n, net).1.Fine?
    ensures ReconcileFirst(w, r, actions, n + 1, net)
            == if InFlight(actions[n].status)
               then ReconcileOne(ReconcileFirst(w, r, actions, n, net).0, r, actions[n], net(actions[n].id).delivery)
               else ReconcileFirst(w, r, actions, n, net)
  {}

  /** Reconcile never raises on genuine replies, and is a run of the machine. */
  lemma ReconcileLeads(w: World, r: RunId, net: Net)
    requires Inv(w) && r in w.t.runs
    ensures Leads(w, Reconcile(w, r, net).0) && Reconcile(w, r, net).1.Fine? && Reconcile(w, r, net).0.x == w.x
  {
    OwnActionsRead(w, r);
    ReconcileFirstLeads(w, r, w.t.runs[r].actions, |w.t.runs[r].actions|, net);
  }

  lemma CancelCallLeads(w: World, r: RunId, id: ActionId, wire: Wire)
    requires Inv(w) && SentIn(w, r, id) && FreshEvent(w.x, wire.event)
    ensures var (x', reply) := CancelCall(w.x, id, wire);
            && Leads(w, w.(x := x')) && SentIn(w.(x := x'), r, id)
            && (reply.Answer? ==> reply.snapshot in x'.snapshots && reply.snapshot.key == id)
  {
    var (x', reply) := CancelCall(w.x, id, wire);
    LeadsSelf(w);
    if id in w.x.executions {
      assert ExecutionOk(w.x, id);
      LeadsOne(w, DoInject(id, Canceled, true, wire.event, wire.at, false));
      assert x' == w.x || w.(x := x') == Perform(w, DoInject(id, Canceled, true, wire.event, wire.at, false));
    }
    assert x' == w.x ==> w.(x := x') == w;
  }

  lemma StopOneLeads(w: World, r: RunId, a: Action, wire: Wire)
    requires Inv(w) && SentIn(w, r, a.id) && a.key == a.id && FreshEvent(w.x, wire.event)
    requires a.proposal.actionType in w.t.runs[r].capabilities
    ensures Leads(w, StopOne(w, r, a, wire).0) && StopOne(w, r, a, wire).1.Fine?
  {
    if !w.t.runs[r].capabilities[a.proposal.actionType].supportsCancel {
      MarkLeads(w, r, a.id);
    } else {
      CancelCallLeads(w, r, a.id, wire);
      var (x', reply) := CancelCall(w.x, a.key, wire);
      var w' := w.(x := x');
      if reply.Answer? {
        AcceptSnapshotLeads(w', r, a.id, reply.snapshot);
      } else {
        MarkLeads(w', r, a.id);
      }
      LeadsTrans(w, w', StopOne(w, r, a, wire).0);
    }
  }

  /** With at most one action to stop, stopping the stream is stopping that action. */
  lemma {:induction false} StopFirstIsOne(w: World, r: RunId, actions: seq<Action>, n: nat, net: Net, k: nat)
    requires n <= |actions| && k < |actions|
    requires forall i :: 0 <= i < n && i != k ==> !actions[i].status.Stopping?
    ensures StopFirst(w, r, actions, n, net)
            == if k < n && actions[k].status.Stopping? then StopOne(w, r, actions[k], net(actions[k].id)) else (w, Fine)
    decreases n
  {
    if n > 0 { StopFirstIsOne(w, r, actions, n - 1, net, k); }
  }

  lemma {:induction false} ReconcileFirstIsOne(w: World, r: RunId, actions: seq<Action>, n: nat, net: Net, k: nat)
    requires n <= |actions| && k < |actions|
    requires forall i :: 0 <= i < n && i != k ==> !InFlight(actions[i].status)
    ensures ReconcileFirst(w, r, actions, n, net)
            == if k < n && InFlight(actions[k].status) then ReconcileOne(w, r, actions[k], net(actions[k].id).delivery)
               else (w, Fine)
    decreases n
  {
    if n > 0 { ReconcileFirstIsOne(w, r, actions, n - 1, net, k); }
  }

  /** All but one action of a stream are out of flight: for some position, every other one is. */
  lemma Flying(r: RunId, run: Run) returns (k: nat)
    requires RunOk(r, run) && run.actions != []
    ensures k < |run.actions| && forall i :: 0 <= i < |run.actions| && i != k ==> !InFlight(run.actions[i].status)
  {
    k := 0;
    if i :| 0 <= i < |run.actions| && InFlight(run.actions[i].status) {
      k := i;
      forall j | 0 <= j < |run.actions| && j != k ensures !InFlight(run.actions[j].status) {
        if InFlight(run.actions[j].status) { OneInFlight(r, run, j, k); }
      }
    }
  }

  lemma StopStreamLeads(w: World, r: RunId, net: Net)
    requires Inv(w) && r in w.t.runs && forall id :: FreshEvent(w.x, net(id).event)
    ensures var (w', f) := StopFirst(w, r, w.t.runs[r].actions, |w.t.runs[r].actions|, net);
            Leads(w, w') && f.Fine?
  {
    var actions := w.t.runs[r].actions;
    LeadsSelf(w);
    assert RunOk(r, w.t.runs[r]);
    if actions != [] {
      var k := Flying(r, w.t.runs[r]);
      StopFirstIsOne(w, r, actions, |actions|, net, k);
      if actions[k].status.Stopping? {
        OwnActionsRead(w, r);
        assert ReadFrom(w, r, actions[k]) && ActionOk(r, w.t.runs[r], actions[k]);
        StopOneLeads(w, r, actions[k], net(actions[k].id));
      }
    }
  }

  /** A stop request never raises on genuine replies, and is a run of the machine. */
  lemma RequestStopLeads(w: World, r: RunId, reason: StopReason, now: Clock, net: Net)
    requires Inv(w) && r in w.t.runs && forall id :: FreshEvent(w.x, net(id).event)
    ensures Leads(w, RequestStop(w, r, reason, now, net).0) && RequestStop(w, r, reason, now, net).1.Fine?
  {
    LeadsOne(w, DoFreeze(r, reason, now));
    var w' := Perform(w, DoFreeze(r, reason, now));
    assert w' == Note(w, Freeze(w.t, r, reason, now)).0;
    assert r in w'.t.runs;
    StopStreamLeads(w', r, net);
    LeadsTrans(w, w', RequestStop(w, r, reason, now, net).0);
  }

  /** A tick never raises on genuine replies, and is a run of the machine. */
  lemma TickLeads(w: World, r: RunId, clock: TickClock, stopNet: Net, net: Net)
    requires Inv(w) && r in w.t.runs
    requires w.t.runs[r].stopIntent.None? ==> forall id :: FreshEvent(w.x, stopNet(id).event)
    ensures Leads(w, Tick(w, r, clock, stopNet, net).0) && Tick(w, r, clock, stopNet, net).1.Fine?
  {
    LeadsSelf(w);
    var run := w.t.runs[r];
    if !Over(run.status) {
      var (w1, f1) := if run.stopIntent.None? && Expired(run, clock.now, clock.each)
                      then RequestStop(w, r, Timeout, clock.stopAt, stopNet) else (w, Fine);
      if run.stopIntent.None? { RequestStopLeads(w, r, Timeout, clock.stopAt, stopNet); }
      SettlingLeads(w, w1, r, clock.settleAt, net);
      assert Tick(w, r, clock, stopNet, net)
          == Note(Reconcile(w1, r, net).0, Settle(Reconcile(w1, r, net).0.t, r, clock.settleAt));
    }
  }

  /** The second half of a tick. */
  lemma SettlingLeads(w: World, w1: World, r: RunId, settleAt: Clock, net: Net)
    requires Inv(w) && Leads(w, w1) && r in w.t.runs
    ensures Reconcile(w1, r, net).1.Fine?
    ensures var (w2, f) := Note(Reconcile(w1, r, net).0, Settle(Reconcile(w1, r, net).0.t, r, settleAt));
            Leads(w, w2) && f.Fine?
  {
    assert r in w1.t.runs;
    ReconcileLeads(w1, r, net);
    var w2 := Reconcile(w1, r, net).0;
    LeadsTrans(w, w1, w2);
    assert r in w2.t.runs;
    LeadsOne(w2, DoSettle(r, settleAt));
    LeadsTrans(w, w2, Perform(w2, DoSettle(r, settleAt)));
  }

  lemma SubmitLeads(w: World, a: Action, newId: ExecutionId, d: Delivery)
    requires Inv(w) && a.id in w.pending && w.pending[a.id] == a && FreshExecution(w.x, newId)
    ensures var (w', reply) := SubmitPending(w, a, newId, d);
            && Leads(w, w') && !reply.Refused? && !reply.Missing?
            && (reply.Answer? ==> reply.snapshot in w'.x.snapshots && reply.snapshot.key == a.id)
  {
    IssuedIsLinked(w, a.id);
    StartKeepsExecutor(w.x, a, newId);
    if !w.x.connected || d.RequestLost? {
      LeadsOne(w, DoDrop(a.id));
    } else {
      LeadsOne(w, DoSubmit(a.id, newId));
    }
  }

  /** A dispatch is a run of the machine; it raises only before anything was committed. */
  lemma DispatchLeads(w: World, r: RunId, e: Launch)
    requires Inv(w) && FreshExecution(w.x, e.newId)
    ensures Leads(w, Dispatch(w, r, e).0)
    ensures Dispatch(w, r, e).1.Threw? ==> Dispatch(w, r, e).0 == w
  {
    LeadsSelf(w);
    var o := Intent(w.t, r, e.now, e.at, e.admissible);
    if o.Committed? && o.value.1.Some? {
      var a := o.value.1.value;
      var w1 := Perform(w, DoIntent(r, e.now, e.at, e.admissible));
      LeadsOne(w, DoIntent(r, e.now, e.at, e.admissible));
      IntentSends(w, r, e);
      SubmitLeads(w1, a, e.newId, e.delivery);
      var (w2, reply) := SubmitPending(w1, a, e.newId, e.delivery);
      LeadsTrans(w, w1, w2);
      SentStays(w1, w2, r, a.id);
      if reply.Answer? {
        AcceptSnapshotLeads(w2, r, a.id, reply.snapshot);
      } else {
        MarkLeads(w2, r, a.id);
      }
      LeadsTrans(w, w2, Dispatch(w, r, e).0);
    }
  }

  lemma IntentSends(w: World, r: RunId, e: Launch)
    requires Inv(w)
    requires var o := Intent(w.t, r, e.now, e.at, e.admissible); o.Committed? && o.value.1.Some?
    ensures var a, w1 := Intent(w.t, r, e.now, e.at, e.admissible).value.1.value,
              Perform(w, DoIntent(r, e.now, e.at, e.admissible));
            SentIn(w1, r, a.id) && a.id in w1.pending && w1.pending[a.id] == a
  {
    var w1 := Perform(w, DoIntent(r, e.now, e.at, e.admissible));
    var k := NextAction(w.t.runs[r], 0);
    WhereIs(w, r, k);
    FindSame(w.t.runs[r].actions, w1.t.runs[r].actions, w.t.runs[r].actions[k].id);
  }
}
