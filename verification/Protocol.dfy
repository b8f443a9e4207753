/** The whole system as a small-step machine: one label per ledger transaction, per executor
    call that takes effect, and per environment move. A crash is any stop between two labels. */
module Protocol {
  import opened Contracts
  import opened Transactions
  import opened Executors

  /** `pending` holds the submissions that a live scheduler process has intended durably but not
      yet sent; it is volatile. `issued` records which run each action UUID was handed out to. */
  datatype World = World(
    t: Tables,
    x: Executor,
    pending: map<ActionId, Action>,
    issued: map<ActionId, RunId>)

  const INITIAL := World(Tables(map[], map[], map[], []), EMPTY_EXECUTOR, map[], map[])

  datatype Label =
    | DoCreate(r: RunId, budget: Budget, capabilities: map<ActionType, Capability>, observation: Observation,
               capacity: nat, at: Time)
    | DoAppend(r: RunId, version: nat, drafts: seq<Draft>, call: Option<CallId>)
    | DoClose(r: RunId, version: nat, lastSequence: int)
    | DoIntent(r: RunId, now: Time, at: Time, admissible: bool)
    | DoSubmit(id: ActionId, newId: ExecutionId)
    | DoDrop(id: ActionId)
    | DoMarkUnknown(r: RunId, id: ActionId)
    | DoAccept(r: RunId, id: ActionId, snapshot: Snapshot)
    | DoDeliver(event: Event)
    | DoFreeze(r: RunId, reason: StopReason, clock: Clock)
    | DoRevise(r: RunId, version: nat, observation: Observation)
    | DoVerify(r: RunId, result: VerificationResult, now: Time)
    | DoObserve(r: RunId, observation: Observation)
    | DoSettle(r: RunId, clock: Clock)
    | DoInject(key: ActionId, status: ActionStatus, stopped: bool, eventId: EventId, at: Time, changesWorld: bool)
    | DoLink(connected: bool, loseNextReply: bool, confirmCancel: bool)
    | DoAnnotate(r: RunId, book: Book)

  predicate FreshDrafts(w: World, drafts: seq<Draft>) {
    && (forall i :: 0 <= i < |drafts| ==> drafts[i].id !in w.issued)
    && (forall i, j :: 0 <= i < j < |drafts| ==> drafts[i].id != drafts[j].id)
  }

  predicate FreshEvent(x: Executor, id: EventId) {
    forall ev :: ev in x.events ==> ev.id != id
  }

  predicate FreshExecution(x: Executor, id: ExecutionId) {
    forall k :: k in x.executions ==> x.executions[k].snapshot.executionId != id
  }

  /** Some dispatch of this action was durably intended (so a caller may hold its id). */
  predicate Sent(t: Tables, r: RunId, id: ActionId) {
    r in t.runs ==>
      var k := FindAction(t.runs[r].actions, id);
      k < |t.runs[r].actions| ==> !Unsent(t.runs[r].actions[k].status)
  }

  /** What the environment guarantees: UUIDs are fresh, a submission is sent only by the process
      that intended it, only dispatched actions are marked unknown, and only what the executor
      said is ever delivered -- at any later time, in any order, any number of times. */
  predicate Enabled(w: World, l: Label) {
    match l
    case DoCreate(r, _, _, _, _, _) => r !in w.t.runs
    case DoAppend(_, _, drafts, _) => FreshDrafts(w, drafts)
    case DoSubmit(id, newId) => id in w.pending && FreshExecution(w.x, newId)
    case DoMarkUnknown(r, id) => Sent(w.t, r, id)
    case DoAccept(_, _, s) => s in w.x.snapshots
    case DoDeliver(ev) => ev in w.x.events
    case DoInject(_, _, _, eventId, _, _) => FreshEvent(w.x, eventId)
    case _ => true
  }

  function Issue(issued: map<ActionId, RunId>, r: RunId, drafts: seq<Draft>): map<ActionId, RunId> {
    if drafts == [] then issued
    else Issue(issued, r, drafts[..|drafts| - 1])[drafts[|drafts| - 1].id := r]
  }

  /** The ledger transaction of a label; other labels leave the ledger alone. */
  function Transact(t: Tables, l: Label): Outcome<Tables> {
    match l
    case DoCreate(r, budget, capabilities, o, capacity, at) =>
      Committed(Write(t, r, NewRun(budget, capabilities, o, capacity, at), RunCreated(r)))
    case DoAppend(r, version, drafts, call) => Append(t, r, version, drafts, call)
    case DoClose(r, version, last) => Close(t, r, version, last)
    case DoIntent(r, now, at, admissible) =>
      var o := Intent(t, r, now, at, admissible);
      if o.Raised? then Raised(o.error) else Committed(o.value.0)
    case DoMarkUnknown(r, id) => MarkUnknown(t, r, id)
    case DoAccept(r, id, s) => Accept(t, r, id, s)
    case DoDeliver(ev) => Apply(t, ev)
    case DoFreeze(r, reason, now) => Freeze(t, r, reason, now)
    case DoRevise(r, version, o) => Revise(t, r, version, o)
    case DoVerify(r, v, now) => Verify(t, r, v, now)
    case DoObserve(r, o) => Observe(t, r, o)
    case DoSettle(r, now) => Settle(t, r, now)
    case DoAnnotate(r, book) => Annotate(t, r, book)
    case _ => Committed(t)
  }

  /** What a label does to the executor. */
  function Operate(w: World, l: Label): Executor {
    match l
    case DoSubmit(id, newId) => if id in w.pending then Start(w.x, w.pending[id], newId).0 else w.x
    case DoInject(key, status, stopped, eventId, at, changes) =>
      var o := Inject(w.x, key, status, stopped, eventId, at, changes);
      if o.Raised? then w.x else o.value.0
    case DoLink(connected, lose, confirm) =>
      w.x.(connected := connected, loseNextReply := lose, confirmCancel := confirm)
    case _ => w.x
  }

  /** What a label does to the submissions that a live process is about to send. */
  function Hold(w: World, l: Label): map<ActionId, Action> {
    match l
    case DoIntent(r, now, at, admissible) =>
      var o := Intent(w.t, r, now, at, admissible);
      if o.Raised? || o.value.1.None? then w.pending else w.pending[o.value.1.value.id := o.value.1.value]
    case DoSubmit(id, _) => w.pending - {id}
    case DoDrop(id) => w.pending - {id}
    case _ => w.pending
  }

  function HandOut(w: World, l: Label): map<ActionId, RunId> {
    match l
    case DoAppend(r, version, drafts, call) =>
      if Append(w.t, r, version, drafts, call).Raised? then w.issued else Issue(w.issued, r, drafts)
    case _ => w.issued
  }

  /** One step; a transaction that raises changes nothing. */
  function Perform(w: World, l: Label): World {
    var o := Transact(w.t, l);
    World(if o.Raised? then w.t else o.value, Operate(w, l), Hold(w, l), HandOut(w, l))
  }

  /** Runs of the system: finite sequences of enabled labels. */
  predicate Legal(w: World, ls: seq<Label>)
    decreases |ls|
  {
    ls == [] || (Enabled(w, ls[0]) && Legal(Perform(w, ls[0]), ls[1..]))
  }

  function Play(w: World, ls: seq<Label>): World
    decreases |ls|
  {
    if ls == [] then w else Play(Perform(w, ls[0]), ls[1..])
  }

  ghost predicate Reach(w: World, w': World) {
    exists ls :: Legal(w, ls) && Play(w, ls) == w'
  }

  // ----- what a step may do to a run -----

  /** The part of an action that never changes. */
  predicate SameIntent(a: Action, b: Action) {
    && a.runId == b.runId && a.planVersion == b.planVersion && a.id == b.id && a.key == b.key
    && a.sequence == b.sequence && a.proposal == b.proposal && a.resources == b.resources
    && a.timeoutSeconds == b.timeoutSeconds
  }

  predicate Keeps<T(==)>(before: Option<T>, after: Option<T>) {
    before.Some? ==> after == before
  }

  /** Identity is fixed, recorded facts are write-once, terminal statuses absorb, a dispatched
      action stays dispatched, and event marks never decrease. */
  predicate Evolves(a: Action, b: Action) {
    && SameIntent(a, b)
    && (Terminal(a.status) ==> b.status == a.status && b.finishedAt == a.finishedAt && b.submittedAt == a.submittedAt)
    && (!Unsent(a.status) ==> !Unsent(b.status))
    && Keeps(a.executionId, b.executionId)
    && Keeps(a.submittedAt, b.submittedAt)
    && Keeps(a.finishedAt, b.finishedAt)
    && Keeps(a.stopRequestedAt, b.stopRequestedAt)
    && a.lastEventSequence <= b.lastEventSequence
    && (a.verified ==> b.verified)
  }

  predicate RunEvolves(a: Run, b: Run) {
    && |a.actions| <= |b.actions|
    && (forall i :: 0 <= i < |a.actions| ==> Evolves(a.actions[i], b.actions[i]))
    && a.planVersion <= b.planVersion
    && a.createdAt == b.createdAt && a.capacity == b.capacity && a.capabilities == b.capabilities
    && a.budget == b.budget
  }

  // ----- the invariant of one run -----

  /** An action in flight shows whether the stream is being stopped, and for what reason. */
  predicate StopShows(run: Run, a: Action) {
    if run.frozen then
      a.stopRequestedAt.Some? && a.stopReason == run.stopIntent && (a.status.Stopping? || a.status.ExecutionUnknown?)
    else a.stopRequestedAt.None? && !a.status.Stopping?
  }

  ghost predicate ActionOk(r: RunId, run: Run, a: Action) {
    && a.runId == r && a.key == a.id
    && 1 <= a.planVersion <= run.planVersion
    && a.proposal.actionType in run.capabilities
    && (a.submittedAt.Some? <==> !Unsent(a.status))
    && (a.finishedAt.Some? <==> Finished(a.status))
    && (a.verified ==> a.status.Completed?)
    && (Unsent(a.status) ==> a.executionId.None? && a.stopRequestedAt.None?)
    && -1 <= a.lastEventSequence && (a.executionId.None? ==> a.lastEventSequence == -1)
    && (a.planVersion < run.planVersion ==> Terminal(a.status))
    && (run.frozen ==> !a.status.Queued?)
    && (InFlight(a.status) ==> StopShows(run, a))
    && (!run.frozen && a.planVersion == run.planVersion ==> !a.status.Invalidated?)
    && (a.finishedAt.Some? && (a.verified || a.planVersion < run.planVersion) ==>
          a.finishedAt.value <= run.observation.observedAt)
    && (Over(run.status) ==> Terminal(a.status))
    && (run.status.Succeeded? && a.planVersion == run.planVersion ==> Done(a))
  }

  /** Two actions of a stream are distinct and ordered by plan; behind an action of the current
      plan that is not done, nothing was ever sent. */
  ghost predicate PairOk(run: Run, i: nat, j: nat)
    requires i < j < |run.actions|
  {
    var a, b := run.actions[i], run.actions[j];
    && a.id != b.id
    && a.planVersion <= b.planVersion
    && (a.planVersion == run.planVersion && !Done(a) ==> Unsent(b.status))
  }

  ghost predicate Numbered(run: Run) {
    && (forall i {:trigger ExpectedSequence(run.actions, i)} :: 0 <= i < |run.actions| ==>
          run.actions[i].sequence == ExpectedSequence(run.actions, i))
    && run.nextSequence ==
         (if run.actions != [] && run.actions[|run.actions| - 1].planVersion == run.planVersion
          then run.actions[|run.actions| - 1].sequence + 1 else 1)
  }

  function ExpectedSequence(actions: seq<Action>, i: nat): nat
    requires i < |actions|
  {
    if i > 0 && actions[i - 1].planVersion == actions[i].planVersion then actions[i - 1].sequence + 1 else 1
  }

  ghost predicate SomeInFlight(actions: seq<Action>) {
    exists i :: 0 <= i < |actions| && InFlight(actions[i].status)
  }

  ghost predicate RunOk(r: RunId, run: Run) {
    && 1 <= run.planVersion
    && (run.frozen <==> run.stopIntent.Some?)
    && (forall i {:trigger ActionOk(r, run, run.actions[i])} :: 0 <= i < |run.actions| ==>
         ActionOk(r, run, run.actions[i]))
    && (forall i, j {:trigger PairOk(run, i, j)} :: 0 <= i < j < |run.actions| ==> PairOk(run, i, j))
    && Numbered(run)
    && (run.status.Blocked? ==> SomeInFlight(run.actions))
    && Open(run.actions) <= run.capacity
  }

  // ----- the executor's own invariant -----

  ghost predicate SnapshotOk(s: Snapshot) {
    if s.lastEvent.None? then s.status.Running? && !s.stopped
    else s.lastEvent.value.status == s.status && s.lastEvent.value.stopped == s.stopped
         && s.lastEvent.value.actionId == s.key && s.lastEvent.value.executionId == s.executionId
  }

  ghost predicate ExecutionOk(x: Executor, k: ActionId)
    requires k in x.executions
  {
    var e := x.executions[k];
    && e.action.id == k && e.snapshot.key == k
    && SnapshotOk(e.snapshot)
    && e.snapshot in x.snapshots
    && (e.snapshot.lastEvent.Some? ==> e.snapshot.lastEvent.value in x.events)
    && k in x.submits
  }

  function LastSequence(s: Snapshot): int {
    if s.lastEvent.None? then -1 else s.lastEvent.value.sequence
  }

  ghost predicate EventOk(x: Executor, ev: Event) {
    && ev.actionId in x.executions
    && var e := x.executions[ev.actionId];
       && ev.runId == e.action.runId && ev.planVersion == e.action.planVersion
       && ev.executionId == e.snapshot.executionId
       && ev.sequence <= LastSequence(e.snapshot)
       && (ev.sequence == LastSequence(e.snapshot) || Terminal(ev.status) ==> e.snapshot.lastEvent == Some(ev))
  }

  ghost predicate PastSnapshotOk(x: Executor, s: Snapshot) {
    && s.key in x.executions
    && s.executionId == x.executions[s.key].snapshot.executionId
    && SnapshotOk(s)
    && (s.lastEvent.Some? ==> s.lastEvent.value in x.events)
    && (Terminal(s.status) ==> s == x.executions[s.key].snapshot)
  }

  ghost predicate DistinctExecutions(x: Executor, k: ActionId, m: ActionId)
    requires k in x.executions && m in x.executions
  {
    k != m ==> x.executions[k].snapshot.executionId != x.executions[m].snapshot.executionId
  }

  ghost predicate DistinctEvents(ev: Event, ev': Event) {
    ev.id == ev'.id ==> ev == ev'
  }

  ghost predicate ExecutorOk(x: Executor) {
    && (forall k {:trigger ExecutionOk(x, k)} :: k in x.executions ==> ExecutionOk(x, k))
    && (forall k, m {:trigger DistinctExecutions(x, k, m)} :: k in x.executions && m in x.executions ==>
          DistinctExecutions(x, k, m))
    && (forall ev {:trigger EventOk(x, ev)} :: ev in x.events ==> EventOk(x, ev))
    && (forall ev, ev' {:trigger DistinctEvents(ev, ev')} :: ev in x.events && ev' in x.events ==>
         DistinctEvents(ev, ev'))
    && (forall s {:trigger PastSnapshotOk(x, s)} :: s in x.snapshots ==> PastSnapshotOk(x, s))
    && (forall i, j :: 0 <= i < j < |x.submits| ==> x.submits[i] != x.submits[j])
    && (forall k :: k in x.submits ==> k in x.executions)
  }

  // ----- the joint invariant -----

  ghost predicate Owns(rows: map<Resource, ActionId>, x: Resource, owner: ActionId) {
    x in rows && rows[x] == owner
  }

  /** Every row of this action is one of its resources, and it holds them all, exactly while it
      is in flight. */
  ghost predicate Locked(rows: map<Resource, ActionId>, a: Action) {
    forall x {:trigger Owns(rows, x, a.id)} :: Owns(rows, x, a.id) <==> InFlight(a.status) && x in a.resources
  }

  /** What the ledger may believe about an action, given the executor's row for its key. */
  ghost predicate Mirrors(x: Executor, a: Action) {
    && (a.executionId.Some? ==> a.id in x.executions)
    && (Finished(a.status) ==> a.executionId.Some?)
    && (a.id in x.executions ==>
          var e := x.executions[a.id];
          && SameIntent(e.action, a)
          && Keeps(a.executionId, Some(e.snapshot.executionId))
          && a.lastEventSequence <= LastSequence(e.snapshot)
          && (Finished(a.status) ==>
                e.snapshot.status == a.status && e.snapshot.stopped && e.snapshot.lastEvent.Some?
                && a.finishedAt == Some(e.snapshot.lastEvent.value.occurredAt))
          && (a.lastEventSequence == LastSequence(e.snapshot) && Finished(e.snapshot.status) && e.snapshot.stopped ==>
                a.status == e.snapshot.status))
  }

  /** A submission is sent at most once: it is either still pending or already sent. */
  ghost predicate SentOnce(w: World, a: Action) {
    && (Unsent(a.status) ==> a.id !in w.x.submits && a.id !in w.pending)
    && (a.id in w.pending ==> a.id !in w.x.submits && SameIntent(w.pending[a.id], a))
  }

  ghost predicate Linked(w: World, a: Action) {
    Locked(w.t.resources, a) && Mirrors(w.x, a) && SentOnce(w, a)
  }

  ghost predicate Locatable(w: World, id: ActionId)
    requires id in w.issued
  {
    && w.issued[id] in w.t.runs
    && FindAction(w.t.runs[w.issued[id]].actions, id) < |w.t.runs[w.issued[id]].actions|
  }

  /** The event's effect, if it had any, is in the ledger. */
  ghost predicate Consumed(t: Tables, ev: Event) {
    && Associated(t, ev)
    && var run := t.runs[ev.runId];
       var a := run.actions[FindAction(run.actions, ev.actionId)];
       ev.sequence <= a.lastEventSequence || Terminal(a.status)
  }

  ghost predicate ReceivedOk(w: World, r: RunId, e: EventId)
    requires (r, e) in w.t.received
  {
    var ev := w.t.received[(r, e)];
    ev.runId == r && ev.id == e && ev in w.x.events && Consumed(w.t, ev)
  }

  ghost predicate Issued(w: World, r: RunId, a: Action) {
    a.id in w.issued && w.issued[a.id] == r
  }

  ghost predicate Inv(w: World) {
    && (forall r {:trigger RunOk(r, w.t.runs[r])} :: r in w.t.runs ==> RunOk(r, w.t.runs[r]))
    && (forall r, i {:trigger Linked(w, w.t.runs[r].actions[i])} {:trigger Issued(w, r, w.t.runs[r].actions[i])} ::
          r in w.t.runs && 0 <= i < |w.t.runs[r].actions| ==>
            Issued(w, r, w.t.runs[r].actions[i]) && Linked(w, w.t.runs[r].actions[i]))
    && (forall id {:trigger Locatable(w, id)} :: id in w.issued ==> Locatable(w, id))
    && (forall x :: x in w.t.resources ==> w.t.resources[x] in w.issued)
    && w.pending.Keys <= w.issued.Keys
    && w.x.executions.Keys <= w.issued.Keys
    && ExecutorOk(w.x)
    && (forall r, e {:trigger ReceivedOk(w, r, e)} :: (r, e) in w.t.received ==> ReceivedOk(w, r, e))
  }
}
