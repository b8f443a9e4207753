/** The ledger's tables and the scheduler's transactions on them, as functions.
    A transaction that raises returns `Raised` and so leaves the tables as they were; one that
    returns early or runs to its end commits. */
module Transactions {
  import opened Contracts

  datatype Tables = Tables(
    runs: map<RunId, Run>,
    resources: map<Resource, ActionId>,
    received: map<(RunId, EventId), Event>,
    journal: seq<Entry>)

  /** What the environment contributes to appending one proposal: the proposal, the fresh UUID,
      the clock reading, and the verdict of the JSON schemas and preconditions. */
  datatype Draft = Draft(proposal: Proposal, id: ActionId, now: Time, admissible: bool)

  /** The position of the first action with this id, or the length of the stream. */
  function FindAction(actions: seq<Action>, id: ActionId): (k: nat)
    ensures k <= |actions|
    ensures k < |actions| ==> actions[k].id == id
    ensures forall j :: 0 <= j < k ==> actions[j].id != id
  {
    if actions == [] then 0
    else if actions[0].id == id then 0
    else 1 + FindAction(actions[1..], id)
  }

  /** Rewrites one run and journals one entry. */
  function Write(t: Tables, r: RunId, run: Run, entry: Entry): Tables {
    t.(runs := t.runs[r := run], journal := t.journal + [entry])
  }

  function WithAction(run: Run, k: nat, a: Action): Run
    requires k < |run.actions|
  {
    run.(actions := run.actions[k := a])
  }

  /** How many actions are not terminal: the load that the stream capacity bounds. */
  function Open(actions: seq<Action>): nat {
    if actions == [] then 0
    else Open(actions[..|actions| - 1]) + if Terminal(actions[|actions| - 1].status) then 0 else 1
  }

  /** The registry's validation of a proposal against the current observation. */
  predicate Admits(run: Run, p: Proposal, now: Time, admissible: bool) {
    && p.actionType in run.capabilities
    && run.observation.valid
    && p.observationId == run.observation.id
    && 0 <= now - run.observation.observedAt <= run.budget.observationMaxAge
    && admissible
  }

  function NewAction(run: Run, r: RunId, d: Draft): Action
    requires d.proposal.actionType in run.capabilities
  {
    Action(r, run.planVersion, d.id, run.nextSequence, d.proposal,
           run.capabilities[d.proposal.actionType].resources, d.id, run.budget.actionSeconds,
           Queued, None, None, None, None, None, None, -1, false)
  }

  function AppendOne(run: Run, r: RunId, d: Draft): Outcome<Run> {
    if !Admits(run, d.proposal, d.now, d.admissible) then Raised(ProposalRejected)
    else Committed(run.(actions := run.actions + [NewAction(run, r, d)],
                        nextSequence := run.nextSequence + 1))
  }

  function AppendAll(run: Run, r: RunId, drafts: seq<Draft>): Outcome<Run> {
    if drafts == [] then Committed(run)
    else
      match AppendAll(run, r, drafts[..|drafts| - 1])
      case Raised(e) => Raised(e)
      case Committed(before) => AppendOne(before, r, drafts[|drafts| - 1])
  }

  function Bind(run: Run, call: Option<CallId>): Run {
    if call.None? || run.actions == [] then run
    else run.(book := run.book.(binding := BoundTo(call.value, run.actions[|run.actions| - 1].id)))
  }

  function Append(t: Tables, r: RunId, version: nat, drafts: seq<Draft>, call: Option<CallId>): Outcome<Tables> {
    if drafts == [] then Raised(EmptyAppend)
    else if r !in t.runs then Raised(UnknownRun)
    else
      var run := t.runs[r];
      if version != run.planVersion then Raised(VersionConflict)
      else if run.closed || run.frozen || Over(run.status) then Raised(StreamNotAccepting)
      else if Open(run.actions) + |drafts| > run.capacity then Raised(CapacityExceeded)
      else
        match AppendAll(run, r, drafts)
        case Raised(e) => Raised(e)
        case Committed(run') =>
          Committed(Write(t, r, Bind(run', call), ActionsAccepted(r, version, |drafts|)))
  }

  function Close(t: Tables, r: RunId, version: nat, lastSequence: int): Outcome<Tables> {
    if r !in t.runs then Raised(UnknownRun)
    else
      var run := t.runs[r];
      if version != run.planVersion then Raised(VersionConflict)
      else if run.frozen || lastSequence != run.nextSequence - 1 then Raised(InvalidFinalSequence)
      else Committed(Write(t, r, run.(closed := true), StreamClosed(r, lastSequence)))
  }

  /** The frontier of the current plan: the first action that is neither invalidated nor done. */
  function NextAction(run: Run, from: nat): (k: nat)
    requires from <= |run.actions|
    ensures from <= k <= |run.actions|
    ensures k < |run.actions| ==> Awaits(run, run.actions[k])
    ensures forall j :: from <= j < k ==> !Awaits(run, run.actions[j])
    decreases |run.actions| - from
  {
    if from == |run.actions| || Awaits(run, run.actions[from]) then from else NextAction(run, from + 1)
  }

  predicate Awaits(run: Run, a: Action) {
    a.planVersion == run.planVersion && !a.status.Invalidated? && !Done(a)
  }

  /** Inserts one row per resource; a row that exists already violates the primary key. */
  function Acquire(rows: map<Resource, ActionId>, wanted: seq<Resource>, owner: ActionId): Outcome<map<Resource,
      ActionId>> {
    if wanted == [] then Committed(rows)
    else
      match Acquire(rows, wanted[..|wanted| - 1], owner)
      case Raised(e) => Raised(e)
      case Committed(rows') =>
        var x := wanted[|wanted| - 1];
        if x in rows' then Raised(ResourceOccupied) else Committed(rows'[x := owner])
  }

  function Release(rows: map<Resource, ActionId>, owner: ActionId): map<Resource, ActionId> {
    map x | x in rows && rows[x] != owner :: rows[x]
  }

  /** The action dispatched as SUBMITTING. */
  function Intended(run: Run, a: Action, at: Time): Action {
    a.(executionObservationId := Some(run.observation.id), status := Submitting, submittedAt := Some(at))
  }

  /** The first transaction of dispatch: locks the frontier's resources and records the intent
      to submit it. Commits `None` when nothing is to be submitted. */
  function Intent(t: Tables, r: RunId, now: Time, at: Time, admissible: bool): Outcome<(Tables, Option<Action>)> {
    if r !in t.runs then Raised(UnknownRun)
    else
      var run := t.runs[r];
      if run.frozen || Over(run.status) || run.status.Blocked? then Committed((t, None))
      else
        var k := NextAction(run, 0);
        if k == |run.actions| || !run.actions[k].status.Queued? then Committed((t, None))
        else
          var a := run.actions[k];
          if !Admits(run, a.proposal.(observationId := run.observation.id), now, admissible)
              then Raised(ProposalRejected)
          else
            match Acquire(t.resources, a.resources, a.id)
            case Raised(e) => Raised(e)
            case Committed(rows) =>
              var a' := Intended(run, a, at);
              Committed((Write(t, r, WithAction(run, k, a').(status := Executing),
                  SubmitIntent(r, a')).(resources := rows),
                         Some(a')))
  }

  function MarkUnknown(t: Tables, r: RunId, id: ActionId): Outcome<Tables> {
    if r !in t.runs then Raised(UnknownRun)
    else
      var run := t.runs[r];
      var k := FindAction(run.actions, id);
      if k == |run.actions| then Raised(NoSuchAction)
      else if Terminal(run.actions[k].status) then Committed(t)
      else Committed(Write(t, r, WithAction(run, k, run.actions[k].(status := ExecutionUnknown)).(status := Blocked),
                           UnknownLogged(r, id)))
  }

  /** What a report of a running execution makes of an action. */
  function Underway(a: Action): ActionStatus {
    if a.stopRequestedAt.Some? then Stopping else Running
  }

  function AcceptAction(a: Action, s: Snapshot): Action {
    a.(executionId := Some(s.executionId),
       status := if Terminal(a.status) || Terminal(s.status) then a.status else Underway(a))
  }

  function AcceptStatus(status: TaskStatus, a: Action, s: Snapshot): TaskStatus {
    if !Terminal(a.status) && !Terminal(s.status) && status.Blocked? then Executing else status
  }

  function Accepted(run: Run, k: nat, s: Snapshot): Run
    requires k < |run.actions|
  {
    WithAction(run, k, AcceptAction(run.actions[k], s)).(status := AcceptStatus(run.status, run.actions[k], s))
  }

  function Accept(t: Tables, r: RunId, id: ActionId, s: Snapshot): Outcome<Tables> {
    if r !in t.runs then Raised(UnknownRun)
    else
      var run := t.runs[r];
      var k := FindAction(run.actions, id);
      if k == |run.actions| then Raised(NoSuchAction)
      else
        var a := run.actions[k];
        if s.key != a.key then Raised(KeyMismatch)
        else if a.executionId.Some? && a.executionId.value != s.executionId then Raised(ExecutionIdChanged)
        else if !Terminal(a.status) && Terminal(s.status) && s.lastEvent.None? then Raised(NoTerminalEvidence)
        else Committed(t.(runs := t.runs[r := Accepted(run, k, s)]))
  }

  predicate Associated(t: Tables, ev: Event) {
    && ev.runId in t.runs
    && var run := t.runs[ev.runId];
       var k := FindAction(run.actions, ev.actionId);
       && k < |run.actions|
       && run.actions[k].planVersion == ev.planVersion
       && run.actions[k].executionId == Some(ev.executionId)
  }

  /** The execution ended and is known to have stopped. */
  predicate Conclusive(ev: Event) {
    Finished(ev.status) && ev.stopped
  }

  function AbsorbAction(a: Action, ev: Event): Action {
    if Conclusive(ev) then a.(lastEventSequence := ev.sequence, status := ev.status, finishedAt := Some(ev.occurredAt))
    else if Terminal(ev.status) then a.(lastEventSequence := ev.sequence, status := ExecutionUnknown)
    else a.(lastEventSequence := ev.sequence, status := if ev.status.Running? then Underway(a) else a.status)
  }

  function AbsorbStatus(status: TaskStatus, current: bool, ev: Event): TaskStatus {
    if Conclusive(ev) then
      if !current then status else if ev.status.Completed? then Verifying else Recovering
    else if Terminal(ev.status) then Blocked
    else status
  }

  /** The run after an event that no earlier delivery or terminal status makes stale. */
  function Absorb(run: Run, k: nat, ev: Event): Run
    requires k < |run.actions|
  {
    WithAction(run, k, AbsorbAction(run.actions[k], ev))
    .(status := AbsorbStatus(run.status, run.actions[k].planVersion == run.planVersion, ev))
  }

  function Apply(t: Tables, ev: Event): Outcome<Tables> {
    if ev.runId !in t.runs then Raised(UnknownRun)
    else if !Associated(t, ev) then Raised(AssociationMismatch)
    else if (ev.runId, ev.id) in t.received then
      if t.received[(ev.runId, ev.id)] != ev then Raised(ConflictingDuplicate) else Committed(t)
    else
      var noted := t.(received := t.received[(ev.runId, ev.id) := ev],
                      journal := t.journal + [EventLogged(ev.runId, ev)]);
      var run := t.runs[ev.runId];
      var k := FindAction(run.actions, ev.actionId);
      var a := run.actions[k];
      if ev.sequence <= a.lastEventSequence || Terminal(a.status) then Committed(noted)
      else
        Committed(noted.(
          runs := t.runs[ev.runId := Absorb(run, k, ev)],
          resources := if Conclusive(ev) then Release(t.resources, a.id) else t.resources))
  }

  function StopAction(a: Action, reason: StopReason, now: Time): Action {
    if a.status.Queued? then a.(status := Invalidated)
    else if Terminal(a.status) then a
    else
      a.(status := Stopping,
         stopRequestedAt := if a.stopRequestedAt.None? then Some(now) else a.stopRequestedAt,
         stopReason := Some(reason))
  }

  function StopActions(actions: seq<Action>, reason: StopReason, now: Clock): (stopped: seq<Action>)
    ensures |stopped| == |actions|
    ensures forall i :: 0 <= i < |actions| ==> stopped[i] == StopAction(actions[i], reason, now(actions[i].id))
  {
    if actions == [] then []
    else StopActions(actions[..|actions| - 1], reason,
        now) + [StopAction(actions[|actions| - 1], reason, now(actions[|actions| - 1].id))]
  }

  /** The first transaction of request_stop. */
  function Freeze(t: Tables, r: RunId, reason: StopReason, now: Clock): Outcome<Tables> {
    if r !in t.runs then Raised(UnknownRun)
    else
      var run := t.runs[r];
      Committed(Write(t, r, run.(frozen := true, stopIntent := Some(reason),
                                 actions := StopActions(run.actions, reason, now)),
                      StopRequested(r, reason)))
  }

  /** The time a revision takes an action to have ended; an absent or zero time reads as the
      creation time of the run. */
  function EndedAt(a: Action, createdAt: Time): Time {
    if a.finishedAt.Some? && a.finishedAt.value != 0 then a.finishedAt.value else createdAt
  }

  /** No observation of an unfinished past: not before any action of the run ended. */
  predicate FreshFor(run: Run, o: Observation) {
    && o.valid
    && (run.actions == [] ==> run.createdAt <= o.observedAt)
    && forall i :: 0 <= i < |run.actions| ==> EndedAt(run.actions[i], run.createdAt) <= o.observedAt
  }

  predicate AllTerminal(actions: seq<Action>) {
    forall i :: 0 <= i < |actions| ==> Terminal(actions[i].status)
  }

  function Revise(t: Tables, r: RunId, version: nat, o: Observation): Outcome<Tables> {
    if r !in t.runs then Raised(UnknownRun)
    else
      var run := t.runs[r];
      if version != run.planVersion then Raised(VersionConflict)
      else if !run.frozen then Raised(NotFrozen)
      else if !AllTerminal(run.actions) then Raised(NotStopped)
      else if !FreshFor(run, o) then Raised(StaleObservation)
      else
        Committed(Write(t, r, run.(planVersion := run.planVersion + 1, nextSequence := 1,
                                   closed := false, frozen := false, stopIntent := None,
                                   observation := o, status := Ready),
                        StreamRevised(r, run.planVersion + 1)))
  }

  /** Completed in the current plan and not yet verified. */
  predicate AwaitsVerdict(run: Run, a: Action) {
    a.planVersion == run.planVersion && a.status.Completed? && !a.verified
  }

  /** The evidence is the run's current observation. */
  predicate OfCurrent(run: Run, v: VerificationResult) {
    v.observationId == run.observation.id && v.observedAt == run.observation.observedAt
  }

  predicate FreshEvidence(run: Run, v: VerificationResult, now: Time) {
    run.observation.valid && 0 <= now - v.observedAt <= run.budget.observationMaxAge
  }

  predicate Predates(run: Run, v: VerificationResult) {
    exists i :: 0 <= i < |run.actions| && AwaitsVerdict(run, run.actions[i])
      && (Some(v.observationId) == run.actions[i].executionObservationId
          || (run.actions[i].finishedAt.Some? && v.observedAt < run.actions[i].finishedAt.value))
  }

  predicate AllDone(run: Run) {
    forall i :: 0 <= i < |run.actions| ==> !Awaits(run, run.actions[i])
  }

  /** The checkpoint names an action that awaits its verdict, or the whole task. */
  predicate KnownCheckpoint(run: Run, v: VerificationResult) {
    v.verdict.Pass? && v.checkpoint.AfterAction? ==>
      var k := FindAction(run.actions, v.checkpoint.action);
      k < |run.actions| && AwaitsVerdict(run, run.actions[k])
  }

  /** The run after a verdict on admissible evidence. */
  function Judged(run: Run, v: VerificationResult): Run
    requires KnownCheckpoint(run, v)
  {
    var run' := run.(verifications := run.verifications + [v]);
    if !v.verdict.Pass? then run'.(status := Recovering)
    else
      match v.checkpoint
      case Final => if run.closed && !run.frozen && AllDone(run) then run'.(status := Succeeded) else run'
      case AfterAction(id) =>
        var k := FindAction(run.actions, id);
        WithAction(run', k, run.actions[k].(verified := true))
  }

  /** Why a verdict is not recorded, if it is not. */
  function Objection(run: Run, v: VerificationResult, now: Time): Option<Error> {
    if !OfCurrent(run, v) then Some(EvidenceMismatch)
    else if !FreshEvidence(run, v, now) then Some(StaleEvidence)
    else if v.source != run.observation.source then Some(SourceMismatch)
    else if Predates(run, v) then Some(EvidencePredates)
    else if !KnownCheckpoint(run, v) then Some(UnknownCheckpoint)
    else None
  }

  function Verify(t: Tables, r: RunId, v: VerificationResult, now: Time): Outcome<Tables> {
    if r !in t.runs then Raised(UnknownRun)
    else
      var objection := Objection(t.runs[r], v, now);
      if objection.Some? then Raised(objection.value)
      else Committed(Write(t, r, Judged(t.runs[r], v), VerificationLogged(r, v)))
  }

  function Observe(t: Tables, r: RunId, o: Observation): Outcome<Tables> {
    if r !in t.runs then Raised(UnknownRun)
    else
      var run := t.runs[r];
      if o.worldVersion < run.observation.worldVersion || o.observedAt < run.observation.observedAt
      then Raised(ObservationMovedBackwards)
      else Committed(Write(t, r, run.(observation := o), ObservationLogged(r, o)))
  }

  /** A stop request that was not confirmed in time. */
  predicate Overdue(a: Action, stopSeconds: nat, now: Time) {
    !Terminal(a.status) && a.stopRequestedAt.Some? && now - a.stopRequestedAt.value >= stopSeconds
  }

  function Expire(a: Action, stopSeconds: nat, now: Time): Action {
    if Overdue(a, stopSeconds, now) then a.(status := ExecutionUnknown) else a
  }

  function ExpireAll(actions: seq<Action>, stopSeconds: nat, now: Clock): (expired: seq<Action>)
    ensures |expired| == |actions|
    ensures forall i :: 0 <= i < |actions| ==> expired[i] == Expire(actions[i], stopSeconds, now(actions[i].id))
  {
    if actions == [] then []
    else ExpireAll(actions[..|actions| - 1], stopSeconds,
        now) + [Expire(actions[|actions| - 1], stopSeconds, now(actions[|actions| - 1].id))]
  }

  function StopOutcome(reason: StopReason): TaskStatus {
    match reason
    case Cancel => TaskCanceled
    case Replan => Recovering
    case Timeout => TaskFailed
    case Failure => TaskFailed
  }

  function Settled(run: Run, now: Clock): Run {
    var expired := ExpireAll(run.actions, run.budget.stopSeconds, now);
    var late := exists i ::
      0 <= i < |run.actions| && Overdue(run.actions[i], run.budget.stopSeconds, now(run.actions[i].id));
    var status := if late then Blocked else run.status;
    run.(actions := expired,
         status := if run.stopIntent.Some? && AllTerminal(expired) then StopOutcome(run.stopIntent.value) else status)
  }

  /** The last transaction of tick. */
  function Settle(t: Tables, r: RunId, now: Clock): Outcome<Tables> {
    if r !in t.runs then Raised(UnknownRun)
    else Committed(t.(runs := t.runs[r := Settled(t.runs[r], now)]))
  }

  /** Any transaction of the runtime, which writes only its own fields. */
  function Annotate(t: Tables, r: RunId, book: Book): Outcome<Tables> {
    if r !in t.runs then Raised(UnknownRun)
    else Committed(Write(t, r, t.runs[r].(book := book), RuntimeLogged(r)))
  }

  /** The registry's validation of a task: the capabilities it requires exist, and their schemas
      admit its constraints. */
  predicate AdmitsTask(capabilities: map<ActionType, Capability>, required: set<ActionType>, admissible: bool) {
    required <= capabilities.Keys && admissible
  }

  function NewRun(budget: Budget, capabilities: map<ActionType, Capability>, o: Observation,
                  capacity: nat, createdAt: Time): Run
  {
    Run(budget, o, capabilities, createdAt, capacity, 1, 1, false, false, Ready, [], [], None,
        Book(Unbound, None, 0, 0, 0, 0, 1))
  }
}
