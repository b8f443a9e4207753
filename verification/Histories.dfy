/** Whole runs of the system: the joint invariant holds in every reachable world, and what a
    world records is never taken back. */
module Histories {
  import opened Contracts
  import opened Transactions
  import opened Executors
  import opened Protocol
  import opened Preservation

  // ----- what a step never takes back -----

  /** Executions persist with their identity, terminal snapshots absorb, history only grows. */
  ghost predicate ExecutorAdvances(x: Executor, x': Executor) {
    && (forall k :: k in x.executions ==>
          && k in x'.executions
          && x'.executions[k].action == x.executions[k].action
          && x'.executions[k].snapshot.executionId == x.executions[k].snapshot.executionId
          && (Terminal(x.executions[k].snapshot.status) ==> x'.executions[k].snapshot == x.executions[k].snapshot))
    && x.events <= x'.events && x.snapshots <= x'.snapshots
    && x.submits <= x'.submits
    && x.worldVersion <= x'.worldVersion
  }

  ghost predicate Advances(w: World, w': World) {
    && (forall r {:trigger r in w'.t.runs} :: r in w.t.runs ==> r in w'.t.runs && RunEvolves(w.t.runs[r], w'.t.runs[r]))
    && (forall p :: p in w.t.received ==> p in w'.t.received && w'.t.received[p] == w.t.received[p])
    && w.t.journal <= w'.t.journal
    && ExecutorAdvances(w.x, w'.x)
  }

  lemma AdvancesTransitive(u: World, v: World, w: World)
    requires Advances(u, v) && Advances(v, w)
    ensures Advances(u, w)
  {
    forall r | r in u.t.runs ensures r in w.t.runs && RunEvolves(u.t.runs[r], w.t.runs[r]) {
      assert r in v.t.runs;
      RunEvolvesTransitive(u.t.runs[r], v.t.runs[r], w.t.runs[r]);
    }
  }

  lemma RunEvolvesTransitive(a: Run, b: Run, c: Run)
    requires RunEvolves(a, b) && RunEvolves(b, c)
    ensures RunEvolves(a, c)
  {
    forall i | 0 <= i < |a.actions| ensures Evolves(a.actions[i], c.actions[i]) {
      assert Evolves(a.actions[i], b.actions[i]) && Evolves(b.actions[i], c.actions[i]);
    }
  }

  lemma OneActionEvolves(run: Run, run': Run, k: nat)
    requires k < |run.actions| && |run'.actions| == |run.actions|
    requires run'.actions == run.actions[k := run'.actions[k]]
    requires run'.planVersion == run.planVersion && run'.createdAt == run.createdAt && run'.capacity == run.capacity
    requires run'.capabilities == run.capabilities && run'.budget == run.budget
    requires Evolves(run.actions[k], run'.actions[k])
    ensures RunEvolves(run, run')
  {}

  lemma AcceptEvolves(t: Tables, r: RunId, id: ActionId, s: Snapshot)
    requires r in t.runs && RunOk(r, t.runs[r]) && Accept(t, r, id, s).Committed?
    ensures RunEvolves(t.runs[r], Accept(t, r, id, s).value.runs[r])
    ensures FindAction(t.runs[r].actions, id) < |t.runs[r].actions|
  {
    var k := FindAction(t.runs[r].actions, id);
    assert ActionOk(r, t.runs[r], t.runs[r].actions[k]);
    OneActionEvolves(t.runs[r], Accept(t, r, id, s).value.runs[r], k);
  }

  lemma AbsorbEvolves(r: RunId, run: Run, k: nat, ev: Event)
    requires k < |run.actions| && ActionOk(r, run, run.actions[k]) && !Terminal(run.actions[k].status)
    requires run.actions[k].executionId.Some? && run.actions[k].lastEventSequence < ev.sequence
    ensures RunEvolves(run, Absorb(run, k, ev))
  {
    OneActionEvolves(run, Absorb(run, k, ev), k);
  }

  lemma ApplyEvolves(t: Tables, ev: Event)
    requires ev.runId in t.runs && RunOk(ev.runId, t.runs[ev.runId]) && Apply(t, ev).Committed?
    ensures RunEvolves(t.runs[ev.runId], Apply(t, ev).value.runs[ev.runId])
  {
    var run := t.runs[ev.runId];
    var k := FindAction(run.actions, ev.actionId);
    assert ActionOk(ev.runId, run, run.actions[k]);
    if ev.sequence > run.actions[k].lastEventSequence && !Terminal(run.actions[k].status) {
      AbsorbEvolves(ev.runId, run, k, ev);
    }
  }

  lemma MarkUnknownEvolves(t: Tables, r: RunId, id: ActionId)
    requires r in t.runs && RunOk(r, t.runs[r]) && MarkUnknown(t, r, id).Committed?
    ensures RunEvolves(t.runs[r], MarkUnknown(t, r, id).value.runs[r])
  {
    var k := FindAction(t.runs[r].actions, id);
    assert ActionOk(r, t.runs[r], t.runs[r].actions[k]);
    OneActionEvolves(t.runs[r], MarkUnknown(t, r, id).value.runs[r], k);
  }

  lemma IntentEvolves(t: Tables, r: RunId, now: Time, at: Time, admissible: bool)
    requires r in t.runs && RunOk(r, t.runs[r]) && Intent(t, r, now, at, admissible).Committed?
    ensures RunEvolves(t.runs[r], Intent(t, r, now, at, admissible).value.0.runs[r])
  {
    if Intent(t, r, now, at, admissible).value.1.Some? {
      var k := NextAction(t.runs[r], 0);
      assert ActionOk(r, t.runs[r], t.runs[r].actions[k]);
      OneActionEvolves(t.runs[r], Intent(t, r, now, at, admissible).value.0.runs[r], k);
    }
  }

  lemma JudgedEvolves(run: Run, v: VerificationResult)
    requires KnownCheckpoint(run, v)
    ensures RunEvolves(run, Judged(run, v))
  {}

  lemma StopEvolves(run: Run, r: RunId, reason: StopReason, now: Clock)
    requires RunOk(r, run)
    ensures RunEvolves(run, run.(frozen := true, stopIntent := Some(reason),
              actions := StopActions(run.actions, reason, now)))
  {
    forall i | 0 <= i < |run.actions| ensures Evolves(run.actions[i], StopActions(run.actions, reason, now)[i]) {
      assert ActionOk(r, run, run.actions[i]);
    }
  }

  lemma SettledEvolves(run: Run, r: RunId, now: Clock)
    requires RunOk(r, run)
    ensures RunEvolves(run, Settled(run, now))
  {
    forall i | 0 <= i < |run.actions| ensures Evolves(run.actions[i], Settled(run, now).actions[i]) {
      assert ActionOk(r, run, run.actions[i]);
    }
  }

  lemma AppendEvolves(t: Tables, r: RunId, version: nat, drafts: seq<Draft>, call: Option<CallId>)
    requires Append(t, r, version, drafts, call).Committed?
    ensures r in t.runs && RunEvolves(t.runs[r], Append(t, r, version, drafts, call).value.runs[r])
  {
    AppendShape(t, r, version, drafts, call);
    AppendAllShape(t.runs[r], r, drafts);
    var run, run' := t.runs[r], AppendAll(t.runs[r], r, drafts).value;
    forall i | 0 <= i < |run.actions| ensures Evolves(run.actions[i], run'.actions[i]) {
      assert run'.actions[..|run.actions|][i] == run.actions[i];
    }
  }

  /** The run that a ledger step names, if any. */
  function Subject(l: Label): Option<RunId> {
    match l
    case DoCreate(r, _, _, _, _, _) => Some(r)
    case DoAppend(r, _, _, _) => Some(r)
    case DoClose(r, _, _) => Some(r)
    case DoIntent(r, _, _, _) => Some(r)
    case DoMarkUnknown(r, _) => Some(r)
    case DoAccept(r, _, _) => Some(r)
    case DoDeliver(ev) => Some(ev.runId)
    case DoFreeze(r, _, _) => Some(r)
    case DoRevise(r, _, _) => Some(r)
    case DoVerify(r, _, _) => Some(r)
    case DoObserve(r, _) => Some(r)
    case DoSettle(r, _) => Some(r)
    case DoAnnotate(r, _) => Some(r)
    case _ => None
  }

  /** A transaction writes the run it names and no other. */
  lemma TransactNames(t: Tables, l: Label, r: RunId)
    requires r in t.runs && Subject(l) != Some(r) && Transact(t, l).Committed?
    ensures r in Transact(t, l).value.runs && Transact(t, l).value.runs[r] == t.runs[r]
  {}

  predicate WritesOneAction(l: Label) {
    l.DoIntent? || l.DoMarkUnknown? || l.DoAccept? || l.DoDeliver?
  }

  predicate WritesStream(l: Label) {
    l.DoAppend? || l.DoFreeze? || l.DoSettle? || l.DoVerify?
  }

  lemma OneActionTransacts(t: Tables, l: Label, r: RunId)
    requires r in t.runs && RunOk(r, t.runs[r]) && Subject(l) == Some(r) && WritesOneAction(l)
    requires Transact(t, l).Committed?
    ensures r in Transact(t, l).value.runs && RunEvolves(t.runs[r], Transact(t, l).value.runs[r])
  {
    if l.DoIntent? {
      IntentTransacts(t, l, r);
    } else if l.DoDeliver? {
      DeliverTransacts(t, l, r);
    } else if l.DoAccept? {
      AcceptEvolves(t, r, l.id, l.snapshot);
    } else {
      MarkUnknownEvolves(t, r, l.id);
    }
  }

  lemma IntentTransacts(t: Tables, l: Label, r: RunId)
    requires r in t.runs && RunOk(r, t.runs[r]) && l.DoIntent? && l.r == r && Transact(t, l).Committed?
    ensures r in Transact(t, l).value.runs && RunEvolves(t.runs[r], Transact(t, l).value.runs[r])
  {
    IntentEvolves(t, r, l.now, l.at, l.admissible);
  }

  lemma DeliverTransacts(t: Tables, l: Label, r: RunId)
    requires r in t.runs && RunOk(r, t.runs[r]) && l.DoDeliver? && l.event.runId == r && Transact(t, l).Committed?
    ensures r in Transact(t, l).value.runs && RunEvolves(t.runs[r], Transact(t, l).value.runs[r])
  {
    ApplyEvolves(t, l.event);
  }

  lemma StreamTransacts(t: Tables, l: Label, r: RunId)
    requires r in t.runs && RunOk(r, t.runs[r]) && Subject(l) == Some(r) && WritesStream(l)
    requires Transact(t, l).Committed?
    ensures r in Transact(t, l).value.runs && RunEvolves(t.runs[r], Transact(t, l).value.runs[r])
  {
    match l
    case DoAppend(_, version, drafts, call) => AppendEvolves(t, r, version, drafts, call);
    case DoFreeze(_, reason, now) => StopEvolves(t.runs[r], r, reason, now);
    case DoSettle(_, now) => SettledEvolves(t.runs[r], r, now);
    case DoVerify(_, v, now) => JudgedEvolves(t.runs[r], v);
  }

  lemma TransactSpares(t: Tables, l: Label, r: RunId)
    requires r in t.runs && Subject(l) == Some(r) && !WritesOneAction(l) && !WritesStream(l) && !l.DoCreate?
    requires Transact(t, l).Committed?
    ensures r in Transact(t, l).value.runs && RunEvolves(t.runs[r], Transact(t, l).value.runs[r])
  {}

  lemma TransactKeepsRecords(t: Tables, l: Label)
    requires Transact(t, l).Committed?
    ensures forall p :: p in t.received ==>
              p in Transact(t, l).value.received && Transact(t, l).value.received[p] == t.received[p]
    ensures t.journal <= Transact(t, l).value.journal
  {}

  lemma OperateAdvances(w: World, l: Label)
    requires Inv(w) && Enabled(w, l)
    ensures ExecutorAdvances(w.x, Operate(w, l))
  {
    if l.DoSubmit? {
      IssuedIsLinked(w, l.id);
      StartKeepsExecutor(w.x, w.pending[l.id], l.newId);
    }
  }

  lemma StepEvolves(w: World, l: Label, r: RunId)
    requires Inv(w) && Enabled(w, l) && r in w.t.runs && Transact(w.t, l).Committed?
    ensures r in Transact(w.t, l).value.runs && RunEvolves(w.t.runs[r], Transact(w.t, l).value.runs[r])
  {
    assert RunOk(r, w.t.runs[r]);
    if Subject(l) == Some(r) {
      if WritesOneAction(l) { OneActionTransacts(w.t, l, r); }
      else if WritesStream(l) { StreamTransacts(w.t, l, r); }
      else { TransactSpares(w.t, l, r); }
    } else {
      TransactNames(w.t, l, r);
    }
  }

  lemma StepAdvances(w: World, l: Label)
    requires Inv(w) && Enabled(w, l)
    ensures Advances(w, Perform(w, l))
  {
    var w' := Perform(w, l);
    OperateAdvances(w, l);
    if Transact(w.t, l).Committed? {
      forall r | r in w.t.runs ensures r in w'.t.runs && RunEvolves(w.t.runs[r], w'.t.runs[r]) {
        StepEvolves(w, l, r);
      }
      TransactKeepsRecords(w.t, l);
    }
  }

  lemma LinkKeeps(w: World, w': World)
    requires Inv(w)
    requires w' == w.(x := w.x.(connected := w'.x.connected, loseNextReply := w'.x.loseNextReply,
                                confirmCancel := w'.x.confirmCancel))
    ensures Inv(w')
  {
    assert ExecutorOk(w'.x) by {
      forall k | k in w'.x.executions ensures ExecutionOk(w'.x, k) { assert ExecutionOk(w.x, k); }
      forall k, m | k in w'.x.executions && m in w'.x.executions ensures DistinctExecutions(w'.x, k, m) {
        assert DistinctExecutions(w.x, k, m);
      }
      forall ev | ev in w'.x.events ensures EventOk(w'.x, ev) { assert EventOk(w.x, ev); }
      forall ev, ev' | ev in w'.x.events && ev' in w'.x.events ensures DistinctEvents(ev, ev') {}
      forall s | s in w'.x.snapshots ensures PastSnapshotOk(w'.x, s) { assert PastSnapshotOk(w.x, s); }
    }
    forall r | r in w'.t.runs ensures RunOk(r, w'.t.runs[r]) { assert RunOk(r, w.t.runs[r]); }
    forall r, i | r in w'.t.runs && 0 <= i < |w'.t.runs[r].actions|
      ensures Issued(w', r, w'.t.runs[r].actions[i]) && Linked(w', w'.t.runs[r].actions[i])
    {
      assert Issued(w, r, w.t.runs[r].actions[i]) && Linked(w, w.t.runs[r].actions[i]);
    }
    forall id | id in w'.issued ensures Locatable(w', id) { assert Locatable(w, id); }
    forall r, e | (r, e) in w'.t.received ensures ReceivedOk(w', r, e) { assert ReceivedOk(w, r, e); }
  }

  /** A step off the ledger keeps the joint invariant. */
  lemma OperateKeeps(w: World, l: Label)
    requires Inv(w) && Enabled(w, l) && Subject(l).None?
    ensures Inv(Perform(w, l))
  {
    match l
    case DoSubmit(id, newId) => SubmitKeeps(w, id, newId);
    case DoDrop(id) => DropKeeps(w, id);
    case DoInject(key, status, stopped, eventId, at, changes) =>
      if Inject(w.x, key, status, stopped, eventId, at, changes).Committed? {
        InjectKeeps(w, key, status, stopped, eventId, at, changes);
      }
    case DoLink(connected, lose, confirm) => LinkKeeps(w, Perform(w, l));
  }

  /** A ledger transaction keeps the joint invariant. */
  lemma TransactKeeps(w: World, l: Label)
    requires Inv(w) && Enabled(w, l) && Subject(l).Some? && Transact(w.t, l).Committed?
    ensures Inv(Perform(w, l))
  {
    match l
    case DoCreate(r, budget, capabilities, o, capacity, at) => CreateKeeps(w, Perform(w, l), r);
    case DoAppend(r, version, drafts, call) => AppendKeeps(w, r, version, drafts, call);
    case DoClose(r, version, last) => FieldsKeep(w, Perform(w, l), r);
    case DoIntent(r, now, at, admissible) =>
      if Intent(w.t, r, now, at, admissible).value.1.Some? { IntentKeeps(w, r, now, at, admissible); }
    case DoMarkUnknown(r, id) => MarkUnknownKeeps(w, r, id);
    case DoAccept(r, id, s) => AcceptKeeps(w, r, id, s);
    case DoDeliver(ev) => DeliverKeeps(w, ev);
    case DoFreeze(r, reason, now) => FreezeKeeps(w, r, reason, now);
    case DoRevise(r, version, o) => ReviseKeeps(w, r, version, o);
    case DoVerify(r, v, now) => VerifyKeeps(w, r, v, now);
    case DoObserve(r, o) => FieldsKeep(w, Perform(w, l), r);
    case DoSettle(r, now) => SettleKeeps(w, r, now);
    case DoAnnotate(r, book) => FieldsKeep(w, Perform(w, l), r);
  }

  /** Every enabled step keeps the joint invariant. */
  lemma StepKeeps(w: World, l: Label)
    requires Inv(w) && Enabled(w, l)
    ensures Inv(Perform(w, l))
  {
    if Subject(l).None? {
      OperateKeeps(w, l);
    } else if Transact(w.t, l).Committed? {
      TransactKeeps(w, l);
    }
  }

  // ----- whole runs -----

  /** Any legal continuation of a good world keeps the invariant and takes nothing back. */
  lemma {:induction false} PlayKeeps(w: World, ls: seq<Label>)
    requires Inv(w) && Legal(w, ls)
    ensures Inv(Play(w, ls)) && Advances(w, Play(w, ls))
    decreases |ls|
  {
    if ls != [] {
      StepKeeps(w, ls[0]);
      StepAdvances(w, ls[0]);
      PlayKeeps(Perform(w, ls[0]), ls[1..]);
      AdvancesTransitive(w, Perform(w, ls[0]), Play(w, ls));
    }
  }

  lemma ReachKeeps(w: World, w': World)
    requires Inv(w) && Reach(w, w')
    ensures Inv(w') && Advances(w, w')
  {
    var ls :| Legal(w, ls) && Play(w, ls) == w';
    PlayKeeps(w, ls);
  }

  lemma InitialIsGood()
    ensures Inv(INITIAL)
  {}

  /** The joint invariant holds at every point of every run. */
  lemma EveryRunIsSafe(ls: seq<Label>)
    requires Legal(INITIAL, ls)
    ensures Inv(Play(INITIAL, ls))
  {
    InitialIsGood();
    PlayKeeps(INITIAL, ls);
  }
}
