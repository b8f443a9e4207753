/** Every enabled step keeps the joint invariant and only lets runs evolve. */
module Preservation {
  import opened Contracts
  import opened Transactions
  import opened Executors
  import opened Protocol

  // ----- stream lemmas -----

  lemma FindIsAt(actions: seq<Action>, k: nat)
    requires k < |actions|
    requires forall i, j :: 0 <= i < j < |actions| ==> actions[i].id != actions[j].id
    ensures FindAction(actions, actions[k].id) == k
  {
    assert forall j :: 0 <= j < k ==> actions[j].id != actions[k].id;
  }

  /** Streams with the same identities are searched alike. */
  lemma FindSame(actions: seq<Action>, actions': seq<Action>, id: ActionId)
    requires |actions| <= |actions'|
    requires forall i :: 0 <= i < |actions| ==> actions'[i].id == actions[i].id
    requires FindAction(actions, id) < |actions|
    ensures FindAction(actions', id) == FindAction(actions, id)
  {
    assert actions'[FindAction(actions, id)].id == id;
  }

  lemma {:induction false} OpenShrinks(actions: seq<Action>, actions': seq<Action>)
    requires |actions| == |actions'|
    requires forall i :: 0 <= i < |actions| && Terminal(actions[i].status) ==> Terminal(actions'[i].status)
    ensures Open(actions') <= Open(actions)
    decreases |actions|
  {
    if actions != [] {
      OpenShrinks(actions[..|actions| - 1], actions'[..|actions| - 1]);
    }
  }

  lemma {:induction false} AcquireRows(rows: map<Resource, ActionId>, wanted: seq<Resource>, owner: ActionId)
    requires forall x :: !Owns(rows, x, owner)
    requires Acquire(rows, wanted, owner).Committed?
    ensures forall x, o :: o != owner ==> (Owns(Acquire(rows, wanted, owner).value, x, o) <==> Owns(rows, x, o))
    ensures forall x :: Owns(Acquire(rows, wanted, owner).value, x, owner) <==> x in wanted
    decreases |wanted|
  {
    if wanted != [] {
      var n := |wanted| - 1;
      AcquireRows(rows, wanted[..n], owner);
      assert wanted == wanted[..n] + [wanted[n]];
    }
  }

  lemma ReleaseRows(rows: map<Resource, ActionId>, owner: ActionId)
    ensures forall x, o :: o != owner ==> (Owns(Release(rows, owner), x, o) <==> Owns(rows, x, o))
    ensures forall x :: !Owns(Release(rows, owner), x, owner)
  {}

  // ----- one run -----

  /** A stream whose order and numbering an in-place change respects stays well formed. */
  lemma RewrittenRunOk(r: RunId, run: Run, run': Run)
    requires RunOk(r, run) && RunEvolves(run, run') && |run'.actions| == |run.actions|
    requires run'.planVersion == run.planVersion && run'.nextSequence == run.nextSequence
    requires run'.frozen <==> run'.stopIntent.Some?
    requires forall i {:trigger ActionOk(r, run', run'.actions[i])} :: 0 <= i < |run.actions| ==>
               ActionOk(r, run', run'.actions[i])
    requires forall i, j {:trigger PairOk(run', i, j)} :: 0 <= i < j < |run.actions| ==> PairOk(run', i, j)
    requires run'.status.Blocked? ==> SomeInFlight(run'.actions)
    ensures RunOk(r, run')
  {
    OpenShrinks(run.actions, run'.actions);
    forall i | 0 <= i < |run.actions|
      ensures run'.actions[i].sequence == ExpectedSequence(run'.actions, i)
    {
      assert run.actions[i].sequence == ExpectedSequence(run.actions, i);
    }
  }

  /** The fields of a run that order its stream. */
  ghost predicate SameStream(run: Run, run': Run) {
    && run'.planVersion == run.planVersion && run'.nextSequence == run.nextSequence
    && run'.frozen == run.frozen && run'.stopIntent == run.stopIntent
    && run'.observation == run.observation
    && run'.createdAt == run.createdAt && run'.capacity == run.capacity
    && run'.capabilities == run.capabilities && run'.budget == run.budget
  }

  /** Everything of the current plan before this action is done. */
  ghost predicate AtFrontier(run: Run, k: nat)
    requires k < |run.actions|
  {
    forall i :: 0 <= i < k ==> run.actions[i].planVersion < run.planVersion || Done(run.actions[i])
  }

  /** One action changes in place, and is at the frontier if it leaves the queue. */
  lemma OneActionRunOk(r: RunId, run: Run, run': Run, k: nat)
    requires RunOk(r, run) && k < |run.actions| && |run'.actions| == |run.actions|
    requires run'.actions == run.actions[k := run'.actions[k]]
    requires SameStream(run, run')
    requires Evolves(run.actions[k], run'.actions[k])
    requires ActionOk(r, run', run'.actions[k])
    requires Over(run'.status) ==> run'.status == run.status
    requires Unsent(run.actions[k].status) && !Unsent(run'.actions[k].status) ==> AtFrontier(run, k)
    requires run'.status.Blocked? ==> SomeInFlight(run'.actions)
    ensures RunOk(r, run') && RunEvolves(run, run')
  {
    forall i | 0 <= i < |run.actions|
      ensures ActionOk(r, run', run'.actions[i]) && Evolves(run.actions[i], run'.actions[i])
    {
      assert ActionOk(r, run, run.actions[i]);
    }
    forall i, j | 0 <= i < j < |run.actions| ensures PairOk(run', i, j) {
      assert PairOk(run, i, j);
    }
    RewrittenRunOk(r, run, run');
  }

  // ----- the joint invariant under a ledger step -----

  /** A linked action stays linked when its rows and its pending submission are untouched. */
  lemma LinkedFrame(w: World, w': World, a: Action)
    requires Linked(w, a) && w'.x == w.x
    requires forall x :: Owns(w'.t.resources, x, a.id) <==> Owns(w.t.resources, x, a.id)
    requires a.id in w'.pending <==> a.id in w.pending
    requires a.id in w.pending ==> w'.pending[a.id] == w.pending[a.id]
    ensures Linked(w', a)
  {}

  ghost predicate RowsOf(w: World, w': World, r: RunId) {
    forall x, o :: o in w.issued && w.issued[o] != r ==>
      (Owns(w'.t.resources, x, o) <==> Owns(w.t.resources, x, o))
  }

  ghost predicate PendingOf(w: World, w': World, r: RunId) {
    forall o :: o in w.issued && w.issued[o] != r ==>
      ((o in w'.pending <==> o in w.pending) && (o in w.pending ==> w'.pending[o] == w.pending[o]))
  }

  lemma ConsumedEvolves(t: Tables, t': Tables, ev: Event)
    requires Associated(t, ev) && ev.runId in t'.runs
    requires RunEvolves(t.runs[ev.runId], t'.runs[ev.runId])
    ensures Associated(t', ev)
    ensures Consumed(t, ev) ==> Consumed(t', ev)
  {
    FindSame(t.runs[ev.runId].actions, t'.runs[ev.runId].actions, ev.actionId);
    var k := FindAction(t.runs[ev.runId].actions, ev.actionId);
    assert Evolves(t.runs[ev.runId].actions[k], t'.runs[ev.runId].actions[k]);
  }

  /** How a step that rewrites run `r`, and what its actions own, relates two worlds. */
  ghost predicate Rewrites(w: World, w': World, r: RunId) {
    && r in w.t.runs && r in w'.t.runs
    && w'.x == w.x && w'.issued == w.issued
    && w'.t.runs == w.t.runs[r := w'.t.runs[r]]
    && RunEvolves(w.t.runs[r], w'.t.runs[r])
    && |w'.t.runs[r].actions| == |w.t.runs[r].actions|
    && RowsOf(w, w', r) && PendingOf(w, w', r)
  }

  lemma RewriteLinks(w: World, w': World, r: RunId, q: RunId, i: nat)
    requires Inv(w) && Rewrites(w, w', r)
    requires forall i {:trigger Linked(w', w'.t.runs[r].actions[i])} :: 0 <= i < |w.t.runs[r].actions| ==>
      Linked(w', w'.t.runs[r].actions[i])
    requires q in w'.t.runs && i < |w'.t.runs[q].actions|
    ensures Issued(w', q, w'.t.runs[q].actions[i]) && Linked(w', w'.t.runs[q].actions[i])
  {
    assert Issued(w, q, w.t.runs[q].actions[i]) && Linked(w, w.t.runs[q].actions[i]);
    if q != r {
      LinkedFrame(w, w', w'.t.runs[q].actions[i]);
    } else {
      assert Evolves(w.t.runs[r].actions[i], w'.t.runs[r].actions[i]);
    }
  }

  lemma RewriteLocates(w: World, w': World, r: RunId, id: ActionId)
    requires Inv(w) && Rewrites(w, w', r) && id in w.issued
    ensures Locatable(w', id)
  {
    assert Locatable(w, id);
    if w.issued[id] == r {
      forall i | 0 <= i < |w.t.runs[r].actions| ensures w'.t.runs[r].actions[i].id == w.t.runs[r].actions[i].id {
        assert Evolves(w.t.runs[r].actions[i], w'.t.runs[r].actions[i]);
      }
      FindSame(w.t.runs[r].actions, w'.t.runs[r].actions, id);
    }
  }

  lemma RewriteReceived(w: World, w': World, r: RunId, q: RunId, e: EventId)
    requires Inv(w) && Rewrites(w, w', r)
    requires (q, e) in w.t.received && (q, e) in w'.t.received && w'.t.received[(q, e)] == w.t.received[(q, e)]
    ensures ReceivedOk(w', q, e)
  {
    assert ReceivedOk(w, q, e);
    if q == r {
      ConsumedEvolves(w.t, w'.t, w.t.received[(q, e)]);
    }
  }

  /** A rewriting step keeps the invariant if it keeps what concerns its own run. */
  lemma RunStep(w: World, w': World, r: RunId)
    requires Inv(w) && Rewrites(w, w', r)
    requires RunOk(r, w'.t.runs[r])
    requires forall i {:trigger Linked(w', w'.t.runs[r].actions[i])} :: 0 <= i < |w.t.runs[r].actions| ==>
      Linked(w', w'.t.runs[r].actions[i])
    requires forall x :: x in w'.t.resources ==> w'.t.resources[x] in w.issued
    requires w'.pending.Keys <= w.issued.Keys
    requires forall q, e :: (q, e) in w'.t.received ==>
      ((q, e) in w.t.received && w'.t.received[(q, e)] == w.t.received[(q, e)]) || ReceivedOk(w', q, e)
    ensures Inv(w')
  {
    forall q, i | q in w'.t.runs && 0 <= i < |w'.t.runs[q].actions|
      ensures Issued(w', q, w'.t.runs[q].actions[i]) && Linked(w', w'.t.runs[q].actions[i])
    {
      RewriteLinks(w, w', r, q, i);
    }
    forall id | id in w'.issued ensures Locatable(w', id) {
      RewriteLocates(w, w', r, id);
    }
    forall q, e | (q, e) in w'.t.received ensures ReceivedOk(w', q, e) {
      if (q, e) in w.t.received && w'.t.received[(q, e)] == w.t.received[(q, e)] {
        RewriteReceived(w, w', r, q, e);
      }
    }
  }

  /** A step on one action of one run keeps the invariant. */
  lemma OneActionStep(w: World, w': World, r: RunId, k: nat)
    requires Inv(w) && r in w.t.runs && r in w'.t.runs
    requires w'.x == w.x && w'.issued == w.issued && w'.t.runs == w.t.runs[r := w'.t.runs[r]]
    requires k < |w.t.runs[r].actions| && |w'.t.runs[r].actions| == |w.t.runs[r].actions|
    requires w'.t.runs[r].actions == w.t.runs[r].actions[k := w'.t.runs[r].actions[k]]
    requires SameStream(w.t.runs[r], w'.t.runs[r])
    requires Evolves(w.t.runs[r].actions[k], w'.t.runs[r].actions[k])
    requires RunOk(r, w'.t.runs[r])
    requires Linked(w', w'.t.runs[r].actions[k])
    requires forall x, o :: o != w.t.runs[r].actions[k].id ==>
               (Owns(w'.t.resources, x, o) <==> Owns(w.t.resources, x, o))
    requires forall x :: x in w'.t.resources ==> w'.t.resources[x] in w.issued
    requires forall o :: o != w.t.runs[r].actions[k].id ==>
      ((o in w'.pending <==> o in w.pending) && (o in w.pending ==> w'.pending[o] == w.pending[o]))
    requires forall q, e :: (q, e) in w'.t.received ==>
      ((q, e) in w.t.received && w'.t.received[(q, e)] == w.t.received[(q, e)]) || ReceivedOk(w', q, e)
    ensures Inv(w')
  {
    var run, run' := w.t.runs[r], w'.t.runs[r];
    var a := run.actions[k];
    assert RunOk(r, run) && Issued(w, r, a);
    assert RunEvolves(run, run');
    assert RowsOf(w, w', r) && PendingOf(w, w', r);
    forall i | 0 <= i < |run.actions| ensures Linked(w', run'.actions[i]) {
      if i != k {
        assert if i < k then PairOk(run, i, k) else PairOk(run, k, i);
        assert Linked(w, run.actions[i]);
        LinkedFrame(w, w', run.actions[i]);
      }
    }
    forall o | o in w'.pending.Keys ensures o in w.issued.Keys {
      assert o == a.id || o in w.pending;
    }
    RunStep(w, w', r);
  }

  /** What a change that takes and frees no lock may make of one action. */
  ghost predicate Quiet(x: Executor, a: Action, b: Action) {
    && Evolves(a, b)
    && (InFlight(a.status) <==> InFlight(b.status))
    && (Unsent(b.status) <==> Unsent(a.status))
    && Mirrors(x, b)
  }

  /** A step that only rewrites one run, with no lock taken or freed, keeps the invariant. */
  lemma QuietStep(w: World, w': World, r: RunId)
    requires Inv(w) && r in w.t.runs && r in w'.t.runs
    requires w' == w.(t := w.t.(runs := w.t.runs[r := w'.t.runs[r]], journal := w'.t.journal))
    requires |w'.t.runs[r].actions| == |w.t.runs[r].actions|
    requires RunEvolves(w.t.runs[r], w'.t.runs[r]) && RunOk(r, w'.t.runs[r])
    requires forall i {:trigger Quiet(w.x, w.t.runs[r].actions[i], w'.t.runs[r].actions[i])} ::
      0 <= i < |w.t.runs[r].actions| ==> Quiet(w.x, w.t.runs[r].actions[i], w'.t.runs[r].actions[i])
    ensures Inv(w')
  {
    forall i | 0 <= i < |w.t.runs[r].actions| ensures Linked(w', w'.t.runs[r].actions[i]) {
      assert Linked(w, w.t.runs[r].actions[i]);
      assert Quiet(w.x, w.t.runs[r].actions[i], w'.t.runs[r].actions[i]);
    }
    RunStep(w, w', r);
  }

  /** ... of one action of that run. */
  lemma QuietActionStep(w: World, w': World, r: RunId, k: nat)
    requires Inv(w) && r in w.t.runs && r in w'.t.runs
    requires w' == w.(t := w.t.(runs := w.t.runs[r := w'.t.runs[r]], journal := w'.t.journal))
    requires k < |w.t.runs[r].actions| && |w'.t.runs[r].actions| == |w.t.runs[r].actions|
    requires w'.t.runs[r].actions == w.t.runs[r].actions[k := w'.t.runs[r].actions[k]]
    requires SameStream(w.t.runs[r], w'.t.runs[r])
    requires Quiet(w.x, w.t.runs[r].actions[k], w'.t.runs[r].actions[k])
    requires ActionOk(r, w'.t.runs[r], w'.t.runs[r].actions[k])
    requires Over(w'.t.runs[r].status) ==> w'.t.runs[r].status == w.t.runs[r].status
    requires w'.t.runs[r].status.Blocked? ==>
      w.t.runs[r].status.Blocked? || InFlight(w'.t.runs[r].actions[k].status)
    ensures Inv(w')
  {
    var run, run' := w.t.runs[r], w'.t.runs[r];
    assert RunOk(r, run);
    assert run'.status.Blocked? ==> SomeInFlight(run'.actions) by {
      if run'.status.Blocked? && !InFlight(run'.actions[k].status) {
        var i :| 0 <= i < |run.actions| && InFlight(run.actions[i].status);
        assert InFlight(run'.actions[i].status);
      }
    }
    OneActionRunOk(r, run, run', k);
    forall i | 0 <= i < |run.actions| ensures Quiet(w.x, run.actions[i], run'.actions[i]) {
      assert Linked(w, run.actions[i]);
    }
    QuietStep(w, w', r);
  }

  // ----- the transactions -----

  lemma IntentKeeps(w: World, r: RunId, now: Time, at: Time, admissible: bool)
    requires Inv(w)
    requires Intent(w.t, r, now, at, admissible).Committed? && Intent(w.t, r, now, at, admissible).value.1.Some?
    ensures var (t', sent) := Intent(w.t, r, now, at, admissible).value;
            Inv(w.(t := t', pending := w.pending[sent.value.id := sent.value]))
  {
    var (t', sent) := Intent(w.t, r, now, at, admissible).value;
    var w' := w.(t := t', pending := w.pending[sent.value.id := sent.value]);
    var run, run' := w.t.runs[r], t'.runs[r];
    var k := NextAction(run, 0);
    var a := run.actions[k];
    assert RunOk(r, run) && ActionOk(r, run, a) && Linked(w, a) && Issued(w, r, a);
    assert forall x :: !Owns(w.t.resources, x, a.id);
    AcquireRows(w.t.resources, a.resources, a.id);
    forall i | 0 <= i < k ensures run.actions[i].planVersion < run.planVersion || Done(run.actions[i]) {
      assert ActionOk(r, run, run.actions[i]);
    }
    OneActionRunOk(r, run, run', k);
    forall x | x in t'.resources ensures t'.resources[x] in w.issued {
      assert Owns(t'.resources, x, t'.resources[x]);
    }
    OneActionStep(w, w', r, k);
  }

  lemma MarkUnknownKeeps(w: World, r: RunId, id: ActionId)
    requires Inv(w) && Sent(w.t, r, id)
    requires MarkUnknown(w.t, r, id).Committed?
    ensures Inv(w.(t := MarkUnknown(w.t, r, id).value))
  {
    var w' := w.(t := MarkUnknown(w.t, r, id).value);
    var run := w.t.runs[r];
    var k := FindAction(run.actions, id);
    if Terminal(run.actions[k].status) {
      assert w' == w;
    } else {
      assert RunOk(r, run) && ActionOk(r, run, run.actions[k]) && Linked(w, run.actions[k]);
      QuietActionStep(w, w', r, k);
    }
  }

  lemma AcceptMirrors(w: World, a: Action, s: Snapshot)
    requires ExecutorOk(w.x) && s in w.x.snapshots && Mirrors(w.x, a) && SentOnce(w, a)
    requires s.key == a.id
    ensures !Unsent(a.status)
    ensures Mirrors(w.x, AcceptAction(a, s))
  {
    assert PastSnapshotOk(w.x, s) && ExecutionOk(w.x, a.id);
  }

  lemma AcceptActionOk(r: RunId, run: Run, run': Run, a: Action, s: Snapshot)
    requires ActionOk(r, run, a) && !Unsent(a.status) && Keeps(a.executionId, Some(s.executionId))
    requires SameStream(run, run') && run'.status == AcceptStatus(run.status, a, s)
    ensures ActionOk(r, run', AcceptAction(a, s)) && Evolves(a, AcceptAction(a, s))
    ensures InFlight(a.status) <==> InFlight(AcceptAction(a, s).status)
    ensures !Unsent(AcceptAction(a, s).status)
  {}

  lemma AcceptKeeps(w: World, r: RunId, id: ActionId, s: Snapshot)
    requires Inv(w) && s in w.x.snapshots
    requires Accept(w.t, r, id, s).Committed?
    ensures Inv(w.(t := Accept(w.t, r, id, s).value))
  {
    var w' := w.(t := Accept(w.t, r, id, s).value);
    var run := w.t.runs[r];
    var k := FindAction(run.actions, id);
    var a := run.actions[k];
    assert RunOk(r, run) && ActionOk(r, run, a) && Linked(w, a);
    AcceptMirrors(w, a, s);
    AcceptActionOk(r, run, w'.t.runs[r], a, s);
    QuietActionStep(w, w', r, k);
  }

  /** Why an event that moves an action tells the truth about it. */
  lemma AbsorbMirrors(x: Executor, ev: Event, a: Action)
    requires ExecutorOk(x) && ev in x.events && Mirrors(x, a)
    requires a.id == ev.actionId && a.executionId == Some(ev.executionId) && !Terminal(a.status)
    requires a.lastEventSequence < ev.sequence
    ensures Mirrors(x, AbsorbAction(a, ev))
  {
    assert EventOk(x, ev) && ExecutionOk(x, a.id);
  }

  lemma AbsorbActionOk(r: RunId, run: Run, run': Run, a: Action, ev: Event)
    requires ActionOk(r, run, a) && InFlight(a.status) && a.executionId.Some? && a.lastEventSequence < ev.sequence
    requires SameStream(run, run')
    requires run'.status == AbsorbStatus(run.status, a.planVersion == run.planVersion, ev)
    ensures ActionOk(r, run', AbsorbAction(a, ev)) && Evolves(a, AbsorbAction(a, ev))
    ensures a.planVersion == run.planVersion
    ensures !Unsent(AbsorbAction(a, ev).status)
    ensures InFlight(AbsorbAction(a, ev).status) <==> !Conclusive(ev)
  {}

  lemma AbsorbRunOk(r: RunId, run: Run, k: nat, ev: Event)
    requires RunOk(r, run) && k < |run.actions| && InFlight(run.actions[k].status)
    requires run.actions[k].lastEventSequence < ev.sequence && run.actions[k].executionId.Some?
    ensures RunOk(r, Absorb(run, k, ev)) && RunEvolves(run, Absorb(run, k, ev))
  {
    assert ActionOk(r, run, run.actions[k]);
    var run' := Absorb(run, k, ev);
    AbsorbActionOk(r, run, run', run.actions[k], ev);
    assert run'.status.Blocked? ==> InFlight(run'.actions[k].status);
    OneActionRunOk(r, run, run', k);
  }

  /** A delivery that is stale only grows the received table and the journal. */
  lemma StaleDeliveryKeeps(w: World, w': World, ev: Event)
    requires Inv(w) && ev in w.x.events && Consumed(w.t, ev)
    requires w' == w.(t := w.t.(received := w.t.received[(ev.runId, ev.id) := ev], journal := w'.t.journal))
    ensures Inv(w')
  {
    var r := ev.runId;
    assert RunOk(r, w.t.runs[r]);
    forall i | 0 <= i < |w.t.runs[r].actions| ensures Linked(w', w'.t.runs[r].actions[i]) {
      assert Linked(w, w.t.runs[r].actions[i]);
    }
    assert w'.t.runs == w.t.runs[r := w.t.runs[r]];
    RunStep(w, w', r);
  }

  lemma AbsorbConsumes(t: Tables, t': Tables, ev: Event)
    requires Associated(t, ev)
    requires var run := t.runs[ev.runId];
             t'.runs == t.runs[ev.runId := Absorb(run, FindAction(run.actions, ev.actionId), ev)]
    ensures Consumed(t', ev)
  {
    FindSame(t.runs[ev.runId].actions, t'.runs[ev.runId].actions, ev.actionId);
  }

  lemma FreshDeliveryKeeps(w: World, w': World, ev: Event)
    requires Inv(w) && ev in w.x.events && Associated(w.t, ev) && (ev.runId, ev.id) !in w.t.received
    requires var run := w.t.runs[ev.runId];
             var k := FindAction(run.actions, ev.actionId);
             && !Terminal(run.actions[k].status) && run.actions[k].lastEventSequence < ev.sequence
             && w' == w.(t := w.t.(runs := w.t.runs[ev.runId := Absorb(run, k, ev)],
                                   received := w.t.received[(ev.runId, ev.id) := ev],
                                   resources := w'.t.resources, journal := w'.t.journal))
             && w'.t.resources == if Conclusive(ev) then Release(w.t.resources, run.actions[k].id) else w.t.resources
    ensures Inv(w')
  {
    var r := ev.runId;
    var run, run' := w.t.runs[r], w'.t.runs[r];
    var k := FindAction(run.actions, ev.actionId);
    var a := run.actions[k];
    assert RunOk(r, run) && ActionOk(r, run, a) && Linked(w, a) && Issued(w, r, a);
    AbsorbRunOk(r, run, k, ev);
    AbsorbActionOk(r, run, run', a, ev);
    AbsorbMirrors(w.x, ev, a);
    ReleaseRows(w.t.resources, a.id);
    AbsorbConsumes(w.t, w'.t, ev);
    OneActionStep(w, w', r, k);
  }

  lemma DeliverKeeps(w: World, ev: Event)
    requires Inv(w) && ev in w.x.events && Apply(w.t, ev).Committed?
    ensures Inv(w.(t := Apply(w.t, ev).value))
  {
    var w' := w.(t := Apply(w.t, ev).value);
    var run := w.t.runs[ev.runId];
    var a := run.actions[FindAction(run.actions, ev.actionId)];
    if (ev.runId, ev.id) in w.t.received {
      assert w' == w;
    } else if ev.sequence <= a.lastEventSequence || Terminal(a.status) {
      StaleDeliveryKeeps(w, w', ev);
    } else {
      FreshDeliveryKeeps(w, w', ev);
    }
  }

  lemma StopActionOk(r: RunId, run: Run, run': Run, x: Executor, a: Action, reason: StopReason, now: Time)
    requires ActionOk(r, run, a) && Mirrors(x, a)
    requires run' == run.(frozen := true, stopIntent := Some(reason), actions := run'.actions)
    ensures ActionOk(r, run', StopAction(a, reason, now)) && Quiet(x, a, StopAction(a, reason, now))
    ensures Done(a) ==> StopAction(a, reason, now) == a
  {}

  lemma FreezeKeeps(w: World, r: RunId, reason: StopReason, now: Clock)
    requires Inv(w) && r in w.t.runs
    ensures Inv(w.(t := Freeze(w.t, r, reason, now).value))
  {
    var w' := w.(t := Freeze(w.t, r, reason, now).value);
    var run, run' := w.t.runs[r], w'.t.runs[r];
    assert RunOk(r, run);
    forall i | 0 <= i < |run.actions|
      ensures ActionOk(r, run', run'.actions[i]) && Quiet(w.x, run.actions[i], run'.actions[i])
      ensures Done(run.actions[i]) ==> Done(run'.actions[i])
    {
      assert ActionOk(r, run, run.actions[i]) && Linked(w, run.actions[i]);
      StopActionOk(r, run, run', w.x, run.actions[i], reason, now(run.actions[i].id));
    }
    StreamRunOk(w.x, r, run, run');
    QuietStep(w, w', r);
  }

  /** Changes all over the stream that neither send nor undo anything keep it well formed. */
  lemma StreamRunOk(x: Executor, r: RunId, run: Run, run': Run)
    requires RunOk(r, run) && |run'.actions| == |run.actions|
    requires SameStream(run, run'.(frozen := run.frozen, stopIntent := run.stopIntent, observation := run.observation))
    requires run'.frozen <==> run'.stopIntent.Some?
    requires forall i {:trigger ActionOk(r, run', run'.actions[i])}
                      {:trigger Quiet(x, run.actions[i], run'.actions[i])} ::
      0 <= i < |run.actions| ==>
        ActionOk(r, run', run'.actions[i]) && Quiet(x, run.actions[i], run'.actions[i])
    requires run'.status.Blocked? ==> run.status.Blocked? || SomeInFlight(run'.actions)
    ensures RunOk(r, run') && RunEvolves(run, run')
  {
    assert run'.status.Blocked? ==> SomeInFlight(run'.actions) by {
      if run'.status.Blocked? && run.status.Blocked? {
        var i :| 0 <= i < |run.actions| && InFlight(run.actions[i].status);
        assert Quiet(x, run.actions[i], run'.actions[i]);
      }
    }
    forall i | 0 <= i < |run.actions| ensures Evolves(run.actions[i], run'.actions[i]) {
      assert Quiet(x, run.actions[i], run'.actions[i]);
    }
    forall i, j | 0 <= i < j < |run.actions| ensures PairOk(run', i, j) {
      assert PairOk(run, i, j) && Quiet(x, run.actions[i], run'.actions[i])
               && Quiet(x, run.actions[j], run'.actions[j]);
    }
    RewrittenRunOk(r, run, run');
  }

  lemma ExpireActionOk(r: RunId, run: Run, run': Run, x: Executor, a: Action, stopSeconds: nat, now: Time)
    requires ActionOk(r, run, a) && Mirrors(x, a)
    requires run' == run.(status := run'.status, actions := run'.actions)
    requires Over(run'.status) ==> Terminal(Expire(a, stopSeconds, now).status)
    requires run'.status.Succeeded? ==> run.status.Succeeded?
    ensures ActionOk(r, run', Expire(a, stopSeconds, now)) && Quiet(x, a, Expire(a, stopSeconds, now))
    ensures Overdue(a, stopSeconds, now) ==> InFlight(Expire(a, stopSeconds, now).status)
  {}

  lemma SettleKeeps(w: World, r: RunId, now: Clock)
    requires Inv(w) && r in w.t.runs
    ensures Inv(w.(t := Settle(w.t, r, now).value))
  {
    var w' := w.(t := Settle(w.t, r, now).value);
    var run, run' := w.t.runs[r], w'.t.runs[r];
    assert RunOk(r, run);
    forall i | 0 <= i < |run.actions|
      ensures ActionOk(r, run', run'.actions[i]) && Quiet(w.x, run.actions[i], run'.actions[i])
      ensures Overdue(run.actions[i], run.budget.stopSeconds, now(run.actions[i].id)) ==>
                InFlight(run'.actions[i].status)
    {
      assert ActionOk(r, run, run.actions[i]) && Linked(w, run.actions[i]);
      ExpireActionOk(r, run, run', w.x, run.actions[i], run.budget.stopSeconds, now(run.actions[i].id));
    }
    StreamRunOk(w.x, r, run, run');
    QuietStep(w, w', r);
  }

  lemma ReviseActionOk(r: RunId, run: Run, run': Run, a: Action, o: Observation)
    requires ActionOk(r, run, a) && Terminal(a.status) && EndedAt(a, run.createdAt) <= o.observedAt
    requires run' == run.(planVersion := run.planVersion + 1, nextSequence := 1, closed := false, frozen := false,
                          stopIntent := None, observation := o, status := Ready)
    ensures ActionOk(r, run', a)
  {}

  lemma ReviseKeeps(w: World, r: RunId, version: nat, o: Observation)
    requires Inv(w) && Revise(w.t, r, version, o).Committed?
    ensures Inv(w.(t := Revise(w.t, r, version, o).value))
  {
    var w' := w.(t := Revise(w.t, r, version, o).value);
    var run, run' := w.t.runs[r], w'.t.runs[r];
    assert RunOk(r, run);
    forall i | 0 <= i < |run.actions|
      ensures ActionOk(r, run', run'.actions[i]) && Quiet(w.x, run.actions[i], run'.actions[i])
      ensures run'.actions[i].sequence == ExpectedSequence(run'.actions, i)
    {
      assert ActionOk(r, run, run.actions[i]) && Linked(w, run.actions[i]);
      assert run.actions[i].sequence == ExpectedSequence(run.actions, i);
      ReviseActionOk(r, run, run', run.actions[i], o);
    }
    forall i, j | 0 <= i < j < |run.actions| ensures PairOk(run', i, j) {
      assert PairOk(run, i, j) && ActionOk(r, run, run.actions[i]);
    }
    assert run.actions != [] ==> ActionOk(r, run, run.actions[|run.actions| - 1]);
    QuietStep(w, w', r);
  }

  /** Changes to a run's own fields that the stream does not depend on. */
  lemma FieldsKeep(w: World, w': World, r: RunId)
    requires Inv(w) && r in w.t.runs && r in w'.t.runs
    requires w' == w.(t := w.t.(runs := w.t.runs[r := w'.t.runs[r]], journal := w'.t.journal))
    requires w'.t.runs[r].actions == w.t.runs[r].actions
    requires SameStream(w.t.runs[r], w'.t.runs[r].(observation := w.t.runs[r].observation))
    requires w.t.runs[r].observation.observedAt <= w'.t.runs[r].observation.observedAt
    requires w'.t.runs[r].status == w.t.runs[r].status || w'.t.runs[r].status.Recovering?
      || (w'.t.runs[r].status.Succeeded? && !w.t.runs[r].frozen && AllDone(w.t.runs[r]))
    ensures Inv(w')
  {
    var run, run' := w.t.runs[r], w'.t.runs[r];
    assert RunOk(r, run);
    forall i | 0 <= i < |run.actions|
      ensures ActionOk(r, run', run'.actions[i]) && Quiet(w.x, run.actions[i], run'.actions[i])
    {
      assert ActionOk(r, run, run.actions[i]) && Linked(w, run.actions[i]);
    }
    StreamRunOk(w.x, r, run, run');
    QuietStep(w, w', r);
  }

  lemma VerifyKeeps(w: World, r: RunId, v: VerificationResult, now: Time)
    requires Inv(w) && Verify(w.t, r, v, now).Committed?
    ensures Inv(w.(t := Verify(w.t, r, v, now).value))
  {
    var w' := w.(t := Verify(w.t, r, v, now).value);
    var run, run' := w.t.runs[r], w'.t.runs[r];
    if v.verdict.Pass? && v.checkpoint.AfterAction? {
      var k := FindAction(run.actions, v.checkpoint.action);
      assert RunOk(r, run) && ActionOk(r, run, run.actions[k]) && Linked(w, run.actions[k]);
      assert AwaitsVerdict(run, run.actions[k]);
      QuietActionStep(w, w', r, k);
    } else {
      FieldsKeep(w, w', r);
    }
  }

  // ----- appending and creating -----

  /** A run that may still take `room` more actions. */
  ghost predicate Accepting(r: RunId, run: Run, room: nat) {
    RunOk(r, run) && !run.frozen && !Over(run.status) && Open(run.actions) + room <= run.capacity
  }

  lemma AppendOneOk(r: RunId, run: Run, d: Draft)
    requires Accepting(r, run, 1) && AppendOne(run, r, d).Committed?
    requires forall i :: 0 <= i < |run.actions| ==> run.actions[i].id != d.id
    ensures RunOk(r, AppendOne(run, r, d).value)
    ensures Open(AppendOne(run, r, d).value.actions) == Open(run.actions) + 1
  {
    var run' := AppendOne(run, r, d).value;
    var n := |run.actions|;
    assert run'.actions[..n] == run.actions;
    forall i | 0 <= i <= n
      ensures ActionOk(r, run', run'.actions[i]) && run'.actions[i].sequence == ExpectedSequence(run'.actions, i)
    {
      if i < n {
        assert ActionOk(r, run, run.actions[i]) && run.actions[i].sequence == ExpectedSequence(run.actions, i);
      }
    }
    forall i, j | 0 <= i < j <= n ensures PairOk(run', i, j) {
      assert ActionOk(r, run, run.actions[i]);
      assert j < n ==> PairOk(run, i, j);
    }
    if run.status.Blocked? {
      var i :| 0 <= i < |run.actions| && InFlight(run.actions[i].status);
      assert InFlight(run'.actions[i].status);
    }
  }

  /** Ids that were never handed out appear nowhere. */
  lemma UnissuedIsLinked(w: World, w': World, a: Action)
    requires Inv(w) && a.id !in w.issued && a.status.Queued? && a.executionId.None?
    requires w'.x == w.x && w'.pending == w.pending && w'.t.resources == w.t.resources
    ensures Linked(w', a)
  {}

  /** The world after one more action was issued and queued. */
  function Grown(w: World, r: RunId, run': Run, id: ActionId): World {
    w.(t := w.t.(runs := w.t.runs[r := run']), issued := w.issued[id := r])
  }

  lemma GrownLocates(w: World, r: RunId, run': Run, a: Action, id: ActionId)
    requires Inv(w) && r in w.t.runs && a.id !in w.issued
    requires run'.actions == w.t.runs[r].actions + [a]
    requires id in w.issued || id == a.id
    ensures Locatable(Grown(w, r, run', a.id), id)
  {
    var n := |w.t.runs[r].actions|;
    if id == a.id {
      assert run'.actions[n].id == id;
    } else {
      assert Locatable(w, id);
      if w.issued[id] == r {
        FindSame(w.t.runs[r].actions, run'.actions, id);
      }
    }
  }

  lemma GrownReceived(w: World, r: RunId, run': Run, a: Action, q: RunId, e: EventId)
    requires Inv(w) && r in w.t.runs && (q, e) in w.t.received
    requires run'.actions == w.t.runs[r].actions + [a]
    ensures ReceivedOk(Grown(w, r, run', a.id), q, e)
  {
    assert ReceivedOk(w, q, e);
    if q == r {
      FindSame(w.t.runs[r].actions, run'.actions, w.t.received[(q, e)].actionId);
    }
  }

  lemma GrowOneKeeps(w: World, r: RunId, run': Run, a: Action)
    requires Inv(w) && r in w.t.runs && a.id !in w.issued && a.status.Queued? && a.executionId.None?
    requires run'.actions == w.t.runs[r].actions + [a] && RunOk(r, run')
    ensures Inv(Grown(w, r, run', a.id))
  {
    var w' := Grown(w, r, run', a.id);
    forall q | q in w'.t.runs ensures RunOk(q, w'.t.runs[q]) {
      assert q != r ==> RunOk(q, w.t.runs[q]);
    }
    forall q, i | q in w'.t.runs && 0 <= i < |w'.t.runs[q].actions|
      ensures Issued(w', q, w'.t.runs[q].actions[i]) && Linked(w', w'.t.runs[q].actions[i])
    {
      if q == r && i == |w.t.runs[r].actions| {
        UnissuedIsLinked(w, w', a);
      } else {
        assert Issued(w, q, w.t.runs[q].actions[i]) && Linked(w, w.t.runs[q].actions[i]);
        LinkedFrame(w, w', w.t.runs[q].actions[i]);
      }
    }
    forall id | id in w'.issued ensures Locatable(w', id) {
      GrownLocates(w, r, run', a, id);
    }
    forall q, e | (q, e) in w'.t.received ensures ReceivedOk(w', q, e) {
      GrownReceived(w, r, run', a, q, e);
    }
  }

  /** The world after all proposals of an append were queued, before its journal entry. */
  function Filled(w: World, r: RunId, drafts: seq<Draft>): World
    requires r in w.t.runs && AppendAll(w.t.runs[r], r, drafts).Committed?
  {
    w.(t := w.t.(runs := w.t.runs[r := AppendAll(w.t.runs[r], r, drafts).value]), issued := Issue(w.issued, r, drafts))
  }

  /** What appending changes of a run besides growing its stream. */
  lemma {:induction false} AppendAllShape(run: Run, r: RunId, drafts: seq<Draft>)
    requires AppendAll(run, r, drafts).Committed?
    ensures var run' := AppendAll(run, r, drafts).value;
            && run' == run.(actions := run'.actions, nextSequence := run.nextSequence + |drafts|)
            && |run'.actions| == |run.actions| + |drafts|
            && run'.actions[..|run.actions|] == run.actions
            && Open(run'.actions) == Open(run.actions) + |drafts|
    decreases |drafts|
  {
    if drafts != [] {
      AppendAllShape(run, r, drafts[..|drafts| - 1]);
      var before := AppendAll(run, r, drafts[..|drafts| - 1]).value;
      var after := AppendAll(run, r, drafts).value;
      assert after.actions[..|before.actions|] == before.actions;
      assert after.actions[..|run.actions|] == before.actions[..|run.actions|];
    }
  }

  lemma {:induction false} StaysUnissued(issued: map<ActionId, RunId>, r: RunId, drafts: seq<Draft>, id: ActionId)
    requires id !in issued && forall j :: 0 <= j < |drafts| ==> drafts[j].id != id
    ensures id !in Issue(issued, r, drafts)
    decreases |drafts|
  {
    if drafts != [] {
      StaysUnissued(issued, r, drafts[..|drafts| - 1], id);
    }
  }

  /** Queuing one proposal. */
  lemma FillStep(w: World, r: RunId, d: Draft)
    requires Inv(w) && r in w.t.runs && d.id !in w.issued
    requires Accepting(r, w.t.runs[r], 1) && AppendOne(w.t.runs[r], r, d).Committed?
    ensures Inv(Grown(w, r, AppendOne(w.t.runs[r], r, d).value, d.id))
    ensures RunOk(r, AppendOne(w.t.runs[r], r, d).value)
  {
    var run := w.t.runs[r];
    forall i | 0 <= i < |run.actions| ensures run.actions[i].id != d.id {
      assert Issued(w, r, run.actions[i]);
    }
    AppendOneOk(r, run, d);
    GrowOneKeeps(w, r, AppendOne(run, r, d).value, NewAction(run, r, d));
  }

  lemma FilledGrows(w: World, r: RunId, drafts: seq<Draft>)
    requires drafts != [] && r in w.t.runs && AppendAll(w.t.runs[r], r, drafts).Committed?
    ensures var n := |drafts| - 1;
            var w0 := Filled(w, r, drafts[..n]);
            && AppendOne(w0.t.runs[r], r, drafts[n]) == AppendAll(w.t.runs[r], r, drafts)
            && Filled(w, r, drafts) == Grown(w0, r, AppendAll(w.t.runs[r], r, drafts).value, drafts[n].id)
  {
    var n := |drafts| - 1;
    var w0 := Filled(w, r, drafts[..n]);
    var run' := AppendAll(w.t.runs[r], r, drafts).value;
    assert w0.t.runs[r := run'] == w.t.runs[r := run'];
  }

  lemma FreshPrefix(w: World, drafts: seq<Draft>)
    requires drafts != [] && FreshDrafts(w, drafts)
    ensures FreshDrafts(w, drafts[..|drafts| - 1])
  {}

  lemma FillLast(w: World, r: RunId, drafts: seq<Draft>)
    requires drafts != [] && r in w.t.runs && FreshDrafts(w, drafts)
    requires AppendAll(w.t.runs[r], r, drafts).Committed?
    requires Inv(Filled(w, r, drafts[..|drafts| - 1]))
    requires Accepting(r, AppendAll(w.t.runs[r], r, drafts[..|drafts| - 1]).value, 1)
    ensures Inv(Filled(w, r, drafts)) && RunOk(r, AppendAll(w.t.runs[r], r, drafts).value)
  {
    var n := |drafts| - 1;
    StaysUnissued(w.issued, r, drafts[..n], drafts[n].id);
    FilledGrows(w, r, drafts);
    FillStep(Filled(w, r, drafts[..n]), r, drafts[n]);
  }

  lemma RoomLeft(run: Run, r: RunId, drafts: seq<Draft>)
    requires drafts != [] && AppendAll(run, r, drafts[..|drafts| - 1]).Committed?
    requires Accepting(r, run, |drafts|) && RunOk(r, AppendAll(run, r, drafts[..|drafts| - 1]).value)
    ensures Accepting(r, AppendAll(run, r, drafts[..|drafts| - 1]).value, 1)
  {
    AppendAllShape(run, r, drafts[..|drafts| - 1]);
  }

  lemma {:induction false} FillKeeps(w: World, r: RunId, drafts: seq<Draft>)
    requires Inv(w) && FreshDrafts(w, drafts) && r in w.t.runs
    requires Accepting(r, w.t.runs[r], |drafts|) && AppendAll(w.t.runs[r], r, drafts).Committed?
    ensures Inv(Filled(w, r, drafts))
    ensures RunOk(r, AppendAll(w.t.runs[r], r, drafts).value)
    decreases |drafts|
  {
    if drafts == [] {
      assert Filled(w, r, drafts).t.runs == w.t.runs;
      assert Filled(w, r, drafts) == w;
    } else {
      var n := |drafts| - 1;
      FreshPrefix(w, drafts);
      FillKeeps(w, r, drafts[..n]);
      RoomLeft(w.t.runs[r], r, drafts);
      FillLast(w, r, drafts);
    }
  }

  /** Binding the call and journaling are all that an append adds to the queued proposals. */
  lemma AppendShape(t: Tables, r: RunId, version: nat, drafts: seq<Draft>, call: Option<CallId>)
    requires Append(t, r, version, drafts, call).Committed?
    ensures r in t.runs && AppendAll(t.runs[r], r, drafts).Committed?
    ensures !t.runs[r].frozen && !Over(t.runs[r].status) && Open(t.runs[r].actions) + |drafts| <= t.runs[r].capacity
    ensures var run', t' := AppendAll(t.runs[r], r, drafts).value, Append(t, r, version, drafts, call).value;
            t'.runs == t.runs[r := run'.(book := t'.runs[r].book)]
            && t' == t.(runs := t'.runs, journal := t'.journal)
  {}

  lemma AppendKeeps(w: World, r: RunId, version: nat, drafts: seq<Draft>, call: Option<CallId>)
    requires Inv(w) && FreshDrafts(w, drafts) && Append(w.t, r, version, drafts, call).Committed?
    ensures Inv(w.(t := Append(w.t, r, version, drafts, call).value, issued := Issue(w.issued, r, drafts)))
  {
    var w' := w.(t := Append(w.t, r, version, drafts, call).value, issued := Issue(w.issued, r, drafts));
    AppendShape(w.t, r, version, drafts, call);
    assert RunOk(r, w.t.runs[r]);
    FillKeeps(w, r, drafts);
    var filled := Filled(w, r, drafts);
    assert w'.t.runs == filled.t.runs[r := w'.t.runs[r]];
    FieldsKeep(filled, w', r);
  }

  lemma CreateKeeps(w: World, w': World, r: RunId)
    requires Inv(w) && r !in w.t.runs && r in w'.t.runs
    requires w' == w.(t := w.t.(runs := w.t.runs[r := w'.t.runs[r]], journal := w'.t.journal))
    requires RunOk(r, w'.t.runs[r]) && w'.t.runs[r].actions == []
    ensures Inv(w')
  {
    forall q | q in w'.t.runs ensures RunOk(q, w'.t.runs[q]) {
      assert q != r ==> RunOk(q, w.t.runs[q]);
    }
    forall q, i | q in w'.t.runs && 0 <= i < |w'.t.runs[q].actions|
      ensures Issued(w', q, w'.t.runs[q].actions[i]) && Linked(w', w'.t.runs[q].actions[i])
    {
      assert Issued(w, q, w.t.runs[q].actions[i]) && Linked(w, w.t.runs[q].actions[i]);
      LinkedFrame(w, w', w.t.runs[q].actions[i]);
    }
    forall id | id in w'.issued ensures Locatable(w', id) {
      assert Locatable(w, id);
    }
    forall q, e | (q, e) in w'.t.received ensures ReceivedOk(w', q, e) {
      assert ReceivedOk(w, q, e);
    }
  }

  // ----- the executor's steps -----

  /** An executor step at one key keeps the joint invariant if it keeps the executor's own and the
      link of that key's action. */
  lemma ExecutorStep(w: World, w': World, key: ActionId, a: Action)
    requires Inv(w) && ExecutorOk(w'.x) && w'.t == w.t && w'.issued == w.issued
    requires key in w.issued && a == ActionOf(w, key)
    requires Linked(w', a)
    requires forall k :: k != key ==> (k in w'.x.executions <==> k in w.x.executions)
    requires forall k :: k != key && k in w.x.executions ==> w'.x.executions[k] == w.x.executions[k]
    requires forall k :: k != key ==> (k in w'.x.submits <==> k in w.x.submits)
    requires forall k :: k != key ==> (k in w'.pending <==> k in w.pending)
    requires forall k :: k != key && k in w.pending ==> w'.pending[k] == w.pending[k]
    requires w.x.events <= w'.x.events
    ensures Inv(w')
  {
    forall q | q in w'.t.runs ensures RunOk(q, w'.t.runs[q]) {
      assert RunOk(q, w.t.runs[q]);
    }
    forall q, i | q in w'.t.runs && 0 <= i < |w'.t.runs[q].actions|
      ensures Issued(w', q, w'.t.runs[q].actions[i]) && Linked(w', w'.t.runs[q].actions[i])
    {
      var b := w.t.runs[q].actions[i];
      assert Issued(w, q, b) && Linked(w, b);
      if b.id == key {
        WhereIs(w, q, i);
      }
    }
    forall id | id in w'.issued ensures Locatable(w', id) {
      assert Locatable(w, id);
    }
    forall o | o in w'.pending.Keys ensures o in w'.issued.Keys {
      assert o == key || o in w.pending.Keys;
    }
    forall o | o in w'.x.executions.Keys ensures o in w'.issued.Keys {
      assert o == key || o in w.x.executions.Keys;
    }
    forall q, e | (q, e) in w'.t.received ensures ReceivedOk(w', q, e) {
      assert ReceivedOk(w, q, e);
    }
  }

  /** The ledger's record of an issued id. */
  ghost function ActionOf(w: World, id: ActionId): Action
    requires Inv(w) && id in w.issued
  {
    assert Locatable(w, id);
    var actions := w.t.runs[w.issued[id]].actions;
    actions[FindAction(actions, id)]
  }

  /** An id names one action in all the ledger. */
  lemma WhereIs(w: World, r: RunId, i: nat)
    requires Inv(w) && r in w.t.runs && i < |w.t.runs[r].actions|
    ensures Issued(w, r, w.t.runs[r].actions[i])
    ensures FindAction(w.t.runs[r].actions, w.t.runs[r].actions[i].id) == i
    ensures ActionOf(w, w.t.runs[r].actions[i].id) == w.t.runs[r].actions[i]
  {
    var actions := w.t.runs[r].actions;
    assert Issued(w, r, actions[i]) && RunOk(r, w.t.runs[r]);
    forall m, n | 0 <= m < n < |actions| ensures actions[m].id != actions[n].id {
      assert PairOk(w.t.runs[r], m, n);
    }
    FindIsAt(actions, i);
  }

  /** An issued id's record is linked and belongs to the run it was issued to. */
  lemma IssuedIsLinked(w: World, id: ActionId)
    requires Inv(w) && id in w.issued
    ensures Linked(w, ActionOf(w, id)) && ActionOf(w, id).id == id && Locatable(w, id)
    ensures w.issued[id] in w.t.runs && ActionOk(w.issued[id], w.t.runs[w.issued[id]], ActionOf(w, id))
  {
    assert Locatable(w, id);
    var r := w.issued[id];
    var k := FindAction(w.t.runs[r].actions, id);
    assert Linked(w, w.t.runs[r].actions[k]) && RunOk(r, w.t.runs[r])
             && ActionOk(r, w.t.runs[r], w.t.runs[r].actions[k]);
  }

  lemma StartKeepsExecutor(x: Executor, a: Action, newId: ExecutionId)
    requires ExecutorOk(x) && a.id == a.key && a.id !in x.submits && FreshExecution(x, newId)
    ensures a.id !in x.executions
    ensures ExecutorOk(Start(x, a, newId).0)
  {
    assert a.id in x.executions ==> ExecutionOk(x, a.id);
    var x' := Start(x, a, newId).0;
    forall k | k in x'.executions ensures ExecutionOk(x', k) {
      assert k != a.id ==> ExecutionOk(x, k);
    }
    forall k, m | k in x'.executions && m in x'.executions ensures DistinctExecutions(x', k, m) {
      assert k != a.id && m != a.id ==> DistinctExecutions(x, k, m);
    }
    forall ev | ev in x'.events ensures EventOk(x', ev) {
      assert EventOk(x, ev);
    }
    forall ev, ev' | ev in x'.events && ev' in x'.events ensures DistinctEvents(ev, ev') {
      assert DistinctEvents(ev, ev');
    }
    forall s | s in x'.snapshots ensures PastSnapshotOk(x', s) {
      assert s in x.snapshots ==> PastSnapshotOk(x, s);
    }
  }

  lemma SubmitKeeps(w: World, id: ActionId, newId: ExecutionId)
    requires Inv(w) && id in w.pending && FreshExecution(w.x, newId)
    ensures Inv(w.(x := Start(w.x, w.pending[id], newId).0, pending := w.pending - {id}))
  {
    IssuedIsLinked(w, id);
    var a := ActionOf(w, id);
    var w' := w.(x := Start(w.x, w.pending[id], newId).0, pending := w.pending - {id});
    StartKeepsExecutor(w.x, w.pending[id], newId);
    ExecutorStep(w, w', id, a);
  }

  lemma DropKeeps(w: World, id: ActionId)
    requires Inv(w)
    ensures Inv(w.(pending := w.pending - {id}))
  {
    if id in w.pending {
      IssuedIsLinked(w, id);
      ExecutorStep(w, w.(pending := w.pending - {id}), id, ActionOf(w, id));
    } else {
      assert w.pending - {id} == w.pending;
    }
  }

  lemma InjectKeepsExecutor(x: Executor, key: ActionId, status: ActionStatus, stopped: bool,
                                               eventId: EventId, at: Time, changes: bool)
    requires ExecutorOk(x) && FreshEvent(x, eventId)
    requires Inject(x, key, status, stopped, eventId, at, changes).Committed?
    ensures ExecutorOk(Inject(x, key, status, stopped, eventId, at, changes).value.0)
  {
    var (x', new_) := Inject(x, key, status, stopped, eventId, at, changes).value;
    assert ExecutionOk(x, key);
    forall k | k in x'.executions ensures ExecutionOk(x', k) {
      assert ExecutionOk(x, k);
    }
    forall k, m | k in x'.executions && m in x'.executions ensures DistinctExecutions(x', k, m) {
      assert DistinctExecutions(x, k, m);
    }
    forall ev | ev in x'.events ensures EventOk(x', ev) {
      assert ev in x.events ==> EventOk(x, ev);
    }
    forall ev, ev' | ev in x'.events && ev' in x'.events ensures DistinctEvents(ev, ev') {
      assert ev in x.events && ev' in x.events ==> DistinctEvents(ev, ev');
    }
    forall s | s in x'.snapshots ensures PastSnapshotOk(x', s) {
      assert s in x.snapshots ==> PastSnapshotOk(x, s);
    }
  }

  lemma InjectKeeps(w: World, key: ActionId, status: ActionStatus, stopped: bool,
                                       eventId: EventId, at: Time, changes: bool)
    requires Inv(w) && FreshEvent(w.x, eventId)
    requires Inject(w.x, key, status, stopped, eventId, at, changes).Committed?
    ensures Inv(w.(x := Inject(w.x, key, status, stopped, eventId, at, changes).value.0))
  {
    IssuedIsLinked(w, key);
    InjectKeepsExecutor(w.x, key, status, stopped, eventId, at, changes);
    assert ExecutionOk(w.x, key);
    ExecutorStep(w, w.(x := Inject(w.x, key, status, stopped, eventId, at, changes).value.0), key, ActionOf(w, key));
  }
}
