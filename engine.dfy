/** The engine that drives the cluster environment-variable update operation
    (lib/environ/internal/fsm/engine.go): configuration checks, progress
    entries, the final operation state, the phase change log, the remote
    command line, the mapping of phases to executors and the retry policy
    wrapped around every call into the operator service. */
module EnvironFsm {
  import opened Common

  // ---------------------------------------------------------------------
  // The operation plan

  datatype PhaseState = Unstarted | InProgress | Completed | Failed

  /** The server a phase acts on. */
  datatype Server = Server(hostname: string, advertiseIP: string)

  /** The optional payload of a phase: its `Server` may itself be missing. */
  datatype PhaseData = PhaseData(server: Option<Server>)

  /** A phase of the plan: a tree, since a phase may hold sub-phases. */
  datatype Phase = Phase(
    id: string,
    description: string,
    step: int,
    data: Option<PhaseData>,
    state: PhaseState,
    phases: seq<Phase>)

  datatype Plan = Plan(accountID: string, clusterName: string, operationID: string, phases: seq<Phase>)

  datatype SiteOperationKey = SiteOperationKey(accountID: string, siteDomain: string, operationID: string)

  datatype SiteOperation = SiteOperation(accountID: string, siteDomain: string, id: string) {
    function Key(): SiteOperationKey {
      SiteOperationKey(accountID, siteDomain, id)
    }
  }

  /** Every phase of a forest, each one before its sub-phases, in plan
      order. */
  function Flatten(phases: seq<Phase>): seq<Phase> {
    if phases == [] then [] else [phases[0]] + Flatten(phases[0].phases) + Flatten(phases[1..])
  }

  /** The flattened plan holds every top-level phase and, with any phase,
      all of that phase's sub-phases: lookups reach nested phases. */
  lemma {:induction false} FlattenCovers(phases: seq<Phase>)
    ensures forall k :: 0 <= k < |phases| ==> phases[k] in Flatten(phases)
    ensures forall q, j :: q in Flatten(phases) && 0 <= j < |q.phases| ==> q.phases[j] in Flatten(phases)
  {
    if phases != [] {
      var head, rest := phases[0], phases[1..];
      FlattenCovers(head.phases);
      FlattenCovers(rest);
      assert Flatten(phases) == [head] + Flatten(head.phases) + Flatten(rest);
      forall k | 0 < k < |phases|
        ensures phases[k] in Flatten(phases)
      {
        assert phases[k] == rest[k - 1];
      }
    }
  }

  function PhaseNotFoundMessage(id: string): string {
    "phase " + id + " not found"
  }

  /** The first phase of `phases` with the given ID. */
  function FirstWithID(phases: seq<Phase>, id: string): (r: Result<Phase>)
    ensures r.Ok? <==> exists k :: 0 <= k < |phases| && phases[k].id == id
    ensures r.Ok? ==> exists k :: 0 <= k < |phases| && phases[k] == r.value && r.value.id == id
                        && forall j :: 0 <= j < k ==> phases[j].id != id
    ensures r.Err? ==> r.error == NotFound(PhaseNotFoundMessage(id))
  {
    if phases == [] then Err(NotFound(PhaseNotFoundMessage(id)))
    else if phases[0].id == id then Ok(phases[0])
    else
      var r := FirstWithID(phases[1..], id);
      assert forall k :: 0 < k < |phases| ==> phases[k] == phases[1..][k - 1];
      r
  }

  /** `FindPhase`: exact lookup by ID among all phases of the plan, nested
      ones included, the first in plan order winning; NotFound otherwise. */
  function FindPhase(plan: Plan, id: string): (r: Result<Phase>)
    ensures r.Ok? ==> r.value.id == id && r.value in Flatten(plan.phases)
    ensures r.Err? <==> forall q :: q in Flatten(plan.phases) ==> q.id != id
    ensures r.Err? ==> r.error.NotFound?
  {
    FirstWithID(Flatten(plan.phases), id)
  }

  /** A nested phase is found by its ID. */
  lemma FindPhaseNested(plan: Plan, parent: Phase, child: Phase)
    requires parent in Flatten(plan.phases)
    requires child in parent.phases
    ensures FindPhase(plan, child.id).Ok?
    ensures FindPhase(plan, child.id).value.id == child.id
  {
    FlattenCovers(plan.phases);
    var j :| 0 <= j < |parent.phases| && parent.phases[j] == child;
    assert child in Flatten(plan.phases);
  }

  /** Every leaf below these phases is Completed. */
  predicate LeavesCompleted(phases: seq<Phase>) {
    forall k :: 0 <= k < |phases| ==>
      if phases[k].phases == [] then phases[k].state == Completed else LeavesCompleted(phases[k].phases)
  }


  /** Every phase without sub-phases in the list is Completed. */
  predicate LeafStatesCompleted(qs: seq<Phase>) {
    forall q :: q in qs && q.phases == [] ==> q.state == Completed
  }

  lemma {:induction false} LeavesCompletedFlat(phases: seq<Phase>)
    ensures LeavesCompleted(phases) <==> LeafStatesCompleted(Flatten(phases))
  {
    if phases != [] {
      var head, rest := phases[0], phases[1..];
      LeavesCompletedFlat(head.phases);
      LeavesCompletedFlat(rest);
      assert Flatten(phases) == [head] + Flatten(head.phases) + Flatten(rest);
      assert forall k :: 0 < k < |phases| ==> phases[k] == rest[k - 1];
      assert LeavesCompleted(phases) <==>
        (if head.phases == [] then head.state == Completed else LeavesCompleted(head.phases))
        && LeavesCompleted(rest);
      if head.phases == [] {
        assert Flatten(head.phases) == [];
      }
    }
  }

  /** `IsCompleted`: the plan is done when all of its leaf phases are, at
      any depth. */
  predicate IsCompleted(plan: Plan)
    ensures IsCompleted(plan) <==> LeafStatesCompleted(Flatten(plan.phases))
  {
    LeavesCompletedFlat(plan.phases);
    LeavesCompleted(plan.phases)
  }

  // ---------------------------------------------------------------------
  // Progress entries

  function Max(a: int, b: int): int {
    if a > b then a else b
  }

  /** `100 / utils.Max(len(plan.Phases), 1) * phase.Step`, the division
      done first, over the top-level phases only. */
  function Completion(phaseCount: nat, step: int): (r: int)
    ensures phaseCount >= 1 ==> r == (100 / phaseCount) * step
    ensures phaseCount == 0 ==> r == 100 * step
  {
    100 / Max(phaseCount, 1) * step
  }

  /** Four phases at step two are half done; an empty plan divides by one;
      dividing first loses the remainder, so step three of three is 99. */
  lemma CompletionExamples()
    ensures Completion(4, 2) == 50
    ensures Completion(0, 1) == 100
    ensures Completion(3, 3) == 99
  {
  }

  /** A step within the plan yields a percentage, and the last step falls
      short of 100 by less than the number of phases. */
  lemma CompletionBounds(phaseCount: nat, step: int)
    requires 0 <= step <= phaseCount
    ensures 0 <= Completion(phaseCount, step) <= 100
    ensures phaseCount >= 1 && step == phaseCount ==> Completion(phaseCount, step) > 100 - phaseCount
  {
  }

  datatype ProgressState = ProgressInProgress | ProgressCompleted | ProgressFailed

  /** `ops.ProgressEntry`; `created` is the time stamp the caller supplies. */
  datatype ProgressEntry = ProgressEntry(
    siteDomain: string,
    operationID: string,
    completion: int,
    step: int,
    state: ProgressState,
    message: string,
    created: int)

  /** The entry `UpdateProgress` reports for a phase: in progress, on the
      phase's step, described by the phase, for the operation of `key`. */
  function ProgressEntryFor(key: SiteOperationKey, plan: Plan, phase: Phase, created: int): (e: ProgressEntry)
    ensures e.siteDomain == key.siteDomain && e.operationID == key.operationID
    ensures e.state == ProgressInProgress && e.step == phase.step && e.message == phase.description
    ensures e.completion == Completion(|plan.phases|, phase.step) && e.created == created
  {
    ProgressEntry(
      key.siteDomain, key.operationID, Completion(|plan.phases|, phase.step), phase.step,
      ProgressInProgress, phase.description, created)
  }

  // ---------------------------------------------------------------------
  // The retry policy

  /** What `retry` makes of the outcome of one call. */
  datatype Verdict = Succeeded | Retryable(error: Error) | Permanent(error: Error)

  /** Success stops; a refused connection is retried; any other error is
      made permanent. */
  function Classify(outcome: Option<Error>): (v: Verdict)
    ensures v.Succeeded? <==> outcome.None?
    ensures v.Retryable? <==> outcome.Some? && outcome.value.ConnectionRefused?
    ensures !v.Succeeded? ==> v.error == outcome.value
  {
    match outcome
    case None => Succeeded
    case Some(e) => if e.ConnectionRefused? then Retryable(e) else Permanent(e)
  }

  /** The outcome of call number k of a scripted sequence of calls; calls
      beyond the script succeed. */
  function Outcome(outcomes: seq<Option<Error>>, k: nat): Option<Error> {
    if k < |outcomes| then outcomes[k] else None
  }

  /** The error `retry` returns and the number of calls it makes. */
  datatype Attempts = Attempts(error: Option<Error>, calls: nat)

  /** `retry` from call k on, with `budget` retries left before the elapsed
      time ceiling is reached. */
  function RetryFrom(outcomes: seq<Option<Error>>, k: nat, budget: nat): (r: Attempts)
    ensures 1 <= r.calls <= budget + 1
    ensures r.error == Outcome(outcomes, k + r.calls - 1)
    decreases budget
  {
    match Classify(Outcome(outcomes, k))
    case Succeeded => Attempts(None, 1)
    case Permanent(e) => Attempts(Some(e), 1)
    case Retryable(e) =>
      if budget == 0 then Attempts(Some(e), 1)
      else
        var r := RetryFrom(outcomes, k + 1, budget - 1);
        Attempts(r.error, r.calls + 1)
  }

  /** `retry` from the first call: between one and budget + 1 calls, the last
      one's outcome returned. */
  function RetryRun(outcomes: seq<Option<Error>>, budget: nat): (r: Attempts)
    ensures 1 <= r.calls <= budget + 1
    ensures r.error == Outcome(outcomes, r.calls - 1)
  {
    RetryFrom(outcomes, 0, budget)
  }

  /** `retry` makes between one and budget + 1 calls, every call but the last
      refused a connection, the last call's outcome is returned, and it
      stops early only on success or a permanent error. */
  lemma {:induction false} RetryFromStops(outcomes: seq<Option<Error>>, k: nat, budget: nat)
    ensures var r := RetryFrom(outcomes, k, budget);
      && 1 <= r.calls <= budget + 1
      && (forall j :: k <= j < k + r.calls - 1 ==>
            Outcome(outcomes, j).Some? && Outcome(outcomes, j).value.ConnectionRefused?)
      && r.error == Outcome(outcomes, k + r.calls - 1)
      && (r.error.None? || !r.error.value.ConnectionRefused? || r.calls == budget + 1)
    decreases budget
  {
    var o := Outcome(outcomes, k);
    if o.Some? && o.value.ConnectionRefused? && budget > 0 {
      RetryFromStops(outcomes, k + 1, budget - 1);
    }
  }

  lemma RetryStops(outcomes: seq<Option<Error>>, budget: nat)
    ensures var r := RetryRun(outcomes, budget);
      && 1 <= r.calls <= budget + 1
      && (forall j :: 0 <= j < r.calls - 1 ==> Outcome(outcomes, j).Some? && Outcome(outcomes, j).value.ConnectionRefused?)
      && r.error == Outcome(outcomes, r.calls - 1)
      && (r.error.None? || !r.error.value.ConnectionRefused? || r.calls == budget + 1)
  {
    RetryFromStops(outcomes, 0, budget);
  }

  /** Two refused connections then a success: success after three calls. */
  lemma RetryTransientThenSuccess(first: string, second: string, rest: seq<Option<Error>>, budget: nat)
    requires budget >= 2
    ensures RetryRun([Some(ConnectionRefused(first)), Some(ConnectionRefused(second)), None] + rest, budget)
         == Attempts(None, 3)
  {
    var outcomes := [Some(ConnectionRefused(first)), Some(ConnectionRefused(second)), None] + rest;
    assert Outcome(outcomes, 0) == Some(ConnectionRefused(first));
    assert Outcome(outcomes, 1) == Some(ConnectionRefused(second));
    assert Outcome(outcomes, 2) == None;
    assert RetryFrom(outcomes, 2, budget - 2) == Attempts(None, 1);
    assert RetryFrom(outcomes, 1, budget - 1) == Attempts(None, 2);
  }

  /** Any other error is returned after a single call. */
  lemma RetryPermanentOnce(e: Error, rest: seq<Option<Error>>, budget: nat)
    requires !e.ConnectionRefused?
    ensures RetryRun([Some(e)] + rest, budget) == Attempts(Some(e), 1)
  {
  }

  /** `retry`: call until success, a permanent error, or the ceiling. */
  method Retry(outcomes: seq<Option<Error>>, budget: nat) returns (error: Option<Error>, calls: nat)
    ensures Attempts(error, calls) == RetryRun(outcomes, budget)
  {
    var k := 0;
    while true
      invariant k <= budget
      invariant RetryRun(outcomes, budget)
             == Attempts(RetryFrom(outcomes, k, budget - k).error, RetryFrom(outcomes, k, budget - k).calls + k)
      decreases budget - k
    {
      var outcome := Outcome(outcomes, k);
      if outcome.None? {
        return None, k + 1;
      }
      if !outcome.value.ConnectionRefused? || k == budget {
        return outcome, k + 1;
      }
      k := k + 1;
    }
  }

  /** What is left of the script after n calls. */
  function Drop(outcomes: seq<Option<Error>>, n: nat): seq<Option<Error>> {
    if n <= |outcomes| then outcomes[n..] else []
  }

  /** One retried call into the operator service: the error it returns and
      the script of outcomes left for later calls. */
  function Attempt(script: seq<Option<Error>>, budget: nat): (Option<Error>, seq<Option<Error>>) {
    var r := RetryRun(script, budget);
    (r.error, Drop(script, r.calls))
  }

  // ---------------------------------------------------------------------
  // The operator service

  /** `storage.PlanChange`: one record of the phase change log; `id` and
      `created` are the identifier and time stamp the caller supplies. */
  datatype PlanChange = PlanChange(
    id: string,
    clusterName: string,
    operationID: string,
    phaseID: string,
    newState: PhaseState,
    error: Option<Error>,
    created: int)

  /** The final state `CompleteOperation` or `FailOperation` requests. */
  datatype OperationState = OperationCompleted | OperationFailed(message: string)

  /** A write the operator service has accepted. */
  datatype Write =
    | ProgressCreated(key: SiteOperationKey, entry: ProgressEntry)
    | PlanChangeCreated(key: SiteOperationKey, change: PlanChange)
    | OperationStateSet(key: SiteOperationKey, state: OperationState)

  /** The operator service behind the engine, reached through the retrying
      wrapper.  `script` holds the outcomes of the calls still to come,
      `log` the writes accepted so far, `plan` the stored plan and `retries`
      the number of retries the elapsed time ceiling allows. */
  class Operator {
    var script: seq<Option<Error>>
    var log: seq<Write>
    const plan: Plan
    const retries: nat

    constructor (plan: Plan, retries: nat, script: seq<Option<Error>>)
      ensures this.plan == plan && this.retries == retries && this.script == script && log == []
    {
      this.plan := plan;
      this.retries := retries;
      this.script := script;
      log := [];
    }

    /** A write under `retry`: it is stored only when some call succeeds. */
    method RetriedWrite(write: Write) returns (err: Option<Error>)
      modifies this
      ensures (err, script) == Attempt(old(script), retries)
      ensures log == old(log) + (if err.None? then [write] else [])
    {
      var calls;
      err, calls := Retry(script, retries);
      script := Drop(script, calls);
      if err.None? {
        log := log + [write];
      }
    }

    method CreateProgressEntry(key: SiteOperationKey, entry: ProgressEntry) returns (err: Option<Error>)
      modifies this
      ensures (err, script) == Attempt(old(script), retries)
      ensures log == old(log) + (if err.None? then [ProgressCreated(key, entry)] else [])
    {
      err := RetriedWrite(ProgressCreated(key, entry));
    }

    method CreateOperationPlanChange(key: SiteOperationKey, change: PlanChange) returns (err: Option<Error>)
      modifies this
      ensures (err, script) == Attempt(old(script), retries)
      ensures log == old(log) + (if err.None? then [PlanChangeCreated(key, change)] else [])
    {
      err := RetriedWrite(PlanChangeCreated(key, change));
    }

    method SetOperationState(key: SiteOperationKey, state: OperationState) returns (err: Option<Error>)
      modifies this
      ensures (err, script) == Attempt(old(script), retries)
      ensures log == old(log) + (if err.None? then [OperationStateSet(key, state)] else [])
    {
      err := RetriedWrite(OperationStateSet(key, state));
    }

    /** The stored plan, read under `retry`. */
    method GetOperationPlan(key: SiteOperationKey) returns (r: Result<Plan>)
      modifies this
      ensures var (e, rest) := Attempt(old(script), retries);
        && script == rest
        && r == (if e.None? then Ok(plan) else Err(e.value))
      ensures log == old(log)
    {
      var err, calls := Retry(script, retries);
      script := Drop(script, calls);
      if err.Some? {
        return Err(err.value);
      }
      return Ok(plan);
    }
  }

  // ---------------------------------------------------------------------
  // What one engine call does to the operator service

  /** The error an engine call returns, the writes it adds to the log and the
      script left afterwards. */
  datatype Run = Run(error: Option<Error>, writes: seq<Write>, rest: seq<Option<Error>>)

  /** `UpdateProgress`: read the plan, find the phase, write an entry.  Only
      a failure to read the plan or to find the phase is returned; a failed
      write is dropped, and the one entry written describes the phase. */
  function UpdateProgressRun(
    script: seq<Option<Error>>, retries: nat, plan: Plan, key: SiteOperationKey, phaseID: string, created: int): (run: Run)
    ensures var (planErr, _) := Attempt(script, retries);
      && (run.error.None? <==> planErr.None? && FindPhase(plan, phaseID).Ok?)
      && (planErr.Some? ==> run.error == planErr)
      && (planErr.None? && FindPhase(plan, phaseID).Err? ==> run.error == Some(FindPhase(plan, phaseID).error))
      && |run.writes| <= 1
      && (run.error.Some? ==> run.writes == [])
    ensures var (planErr, afterPlan) := Attempt(script, retries);
      && (|run.writes| == 1 <==>
            planErr.None? && FindPhase(plan, phaseID).Ok? && Attempt(afterPlan, retries).0.None?)
      && run.rest == (if planErr.None? && FindPhase(plan, phaseID).Ok? then Attempt(afterPlan, retries).1 else afterPlan)
    ensures forall w :: w in run.writes ==>
      var phase := FindPhase(plan, phaseID).value;
      && FindPhase(plan, phaseID).Ok? && phase.id == phaseID
      && w.ProgressCreated? && w.key == key
      && w.entry.siteDomain == key.siteDomain && w.entry.operationID == key.operationID
      && w.entry.state == ProgressInProgress
      && w.entry.step == phase.step && w.entry.message == phase.description
      && w.entry.completion == Completion(|plan.phases|, phase.step)
  {
    var (planErr, afterPlan) := Attempt(script, retries);
    if planErr.Some? then Run(planErr, [], afterPlan)
    else
      match FindPhase(plan, phaseID)
      case Err(e) => Run(Some(e), [], afterPlan)
      case Ok(phase) =>
        var entry := ProgressEntryFor(key, plan, phase, created);
        var (writeErr, afterWrite) := Attempt(afterPlan, retries);
        Run(None, if writeErr.None? then [ProgressCreated(key, entry)] else [], afterWrite)
  }

  /** The final state `Complete` asks for: Completed exactly when the plan
      is, Failed with the message of the error that ended the run
      otherwise. */
  function FinalState(plan: Plan, fsmErr: Option<Error>): (s: OperationState)
    requires IsCompleted(plan) || fsmErr.Some?
    ensures s.OperationCompleted? <==> IsCompleted(plan)
    ensures s.OperationFailed? ==> s.message == fsmErr.value.message
  {
    if IsCompleted(plan) then OperationCompleted else OperationFailed(fsmErr.value.message)
  }

  /** The message of the error that ended the run is needed only when the
      plan was read and is not completed. */
  predicate CompleteDefined(script: seq<Option<Error>>, retries: nat, plan: Plan, fsmErr: Option<Error>) {
    fsmErr.Some? || IsCompleted(plan) || Attempt(script, retries).0.Some?
  }

  /** `Complete`: read the plan, then set the final operation state once.
      Nothing is written when the plan cannot be read. */
  function CompleteRun(
    script: seq<Option<Error>>, retries: nat, plan: Plan, key: SiteOperationKey, fsmErr: Option<Error>): (run: Run)
    requires CompleteDefined(script, retries, plan, fsmErr)
    ensures var (planErr, afterPlan) := Attempt(script, retries);
      && (planErr.Some? ==> run == Run(planErr, [], afterPlan))
      && (planErr.None? ==>
            var (writeErr, afterWrite) := Attempt(afterPlan, retries);
            && run.error == writeErr
            && run.writes == (if writeErr.None? then [OperationStateSet(key, FinalState(plan, fsmErr))] else [])
            && run.rest == afterWrite)
  {
    var (planErr, afterPlan) := Attempt(script, retries);
    if planErr.Some? then Run(planErr, [], afterPlan)
    else
      var state := FinalState(plan, fsmErr);
      var (writeErr, afterWrite) := Attempt(afterPlan, retries);
      Run(writeErr, if writeErr.None? then [OperationStateSet(key, state)] else [], afterWrite)
  }

  /** `Complete` never sets both outcomes: at most one state is written, it
      is Completed exactly when the plan is, and the call succeeds exactly
      when that write was stored. */
  lemma CompleteDecides(
    script: seq<Option<Error>>, retries: nat, plan: Plan, key: SiteOperationKey, fsmErr: Option<Error>)
    requires CompleteDefined(script, retries, plan, fsmErr)
    ensures var run := CompleteRun(script, retries, plan, key, fsmErr);
      && |run.writes| <= 1
      && (run.error.None? <==> |run.writes| == 1)
      && (forall w :: w in run.writes ==>
            && w.OperationStateSet? && w.key == key
            && (w.state.OperationCompleted? <==> IsCompleted(plan))
            && (w.state.OperationFailed? ==> w.state.message == fsmErr.value.message))
  {
  }

  /** `libfsm.StateChange`: a phase moving to a new state. */
  datatype StateChange = StateChange(phase: string, state: PhaseState, error: Option<Error>)

  /** The change log record for a state change of the given operation. */
  function ChangeRecord(operation: SiteOperation, change: StateChange, id: string, created: int): (c: PlanChange)
    ensures c.id == id && c.created == created
    ensures c.clusterName == operation.siteDomain && c.operationID == operation.id
    ensures c.phaseID == change.phase && c.newState == change.state && c.error == change.error
  {
    PlanChange(id, operation.siteDomain, operation.id, change.phase, change.state, change.error, created)
  }

  /** `ChangePhaseState`: one change log record, written under `retry`; the
      store's error is returned. */
  function ChangePhaseStateRun(
    script: seq<Option<Error>>, retries: nat, operation: SiteOperation, change: StateChange,
    id: string, created: int): (run: Run)
    ensures run.error == Attempt(script, retries).0
    ensures run.rest == Attempt(script, retries).1
    ensures run.error.None? <==> |run.writes| == 1
    ensures |run.writes| <= 1
    ensures forall w :: w in run.writes ==>
      && w.PlanChangeCreated? && w.key == operation.Key()
      && w.change.phaseID == change.phase && w.change.newState == change.state
      && w.change.clusterName == operation.siteDomain && w.change.operationID == operation.id
      && w.change == ChangeRecord(operation, change, id, created)
  {
    var (err, rest) := Attempt(script, retries);
    Run(err, if err.None? then [PlanChangeCreated(operation.Key(), ChangeRecord(operation, change, id, created))] else [], rest)
  }

  // ---------------------------------------------------------------------
  // Remote commands

  /** `libfsm.Params`: the phase to run and whether to force it. */
  datatype Params = Params(phaseID: string, force: bool)

  /** The command line `RunCommand` hands to the runner. */
  function CommandArgs(params: Params): (args: seq<string>)
    ensures |args| >= 4
    ensures args[..4] == ["system", "envars", "--phase", params.phaseID]
    ensures args[4..] == (if params.force then ["--force"] else [])
  {
    var args := ["system", "envars", "--phase", params.phaseID];
    if params.force then args + ["--force"] else args
  }

  datatype Invocation = Invocation(server: Server, args: seq<string>)

  /** The remote command runner: the commands it was asked to run. */
  class RemoteRunner {
    var invocations: seq<Invocation>

    constructor ()
      ensures invocations == []
    {
      invocations := [];
    }

    /** Run a command on a server; `outcome` is what the server reports. */
    method Run(server: Server, args: seq<string>, outcome: Option<Error>) returns (err: Option<Error>)
      modifies this
      ensures err == outcome
      ensures invocations == old(invocations) + [Invocation(server, args)]
    {
      invocations := invocations + [Invocation(server, args)];
      err := outcome;
    }
  }

  // ---------------------------------------------------------------------
  // Phase executors

  /** Phase ID prefixes of the master and node phases. */
  const MastersPrefix := "/masters"
  const NodesPrefix := "/nodes"

  /** Log field names. */
  const ComponentField := "trace.component"
  const PhaseField := "phase"

  /** `libfsm.Logger`: its structured fields, the operation it reports to
      and the server it speaks for. */
  datatype Logger = Logger(fields: seq<(string, string)>, key: SiteOperationKey, server: Option<Server>)

  /** `libfsm.ExecutorParams`: the plan and the phase to execute. */
  datatype ExecutorParams = ExecutorParams(plan: Plan, phase: Phase) {
    function Key(): SiteOperationKey {
      SiteOperationKey(plan.accountID, plan.clusterName, plan.operationID)
    }
  }

  /** The arguments handed to `libphase.NewSync`. */
  datatype Executor = SyncExecutor(params: ExecutorParams, operation: SiteOperation, logger: Logger)

  function PhaseLogger(params: ExecutorParams): Logger {
    var server := match params.phase.data
      case Some(data) => data.server
      case None => None;
    Logger([(PhaseField, params.phase.id)], params.Key(), server)
  }

  function UnknownPhaseMessage(id: string): string {
    "unknown phase " + Quote(id)
  }

  /** The executor function `configToExecutor` builds: master and node
      phases are synchronised, any other phase is refused. */
  function ExecutorFor(operation: SiteOperation, params: ExecutorParams): (r: Result<Executor>)
    ensures r.Ok? <==> HasPrefix(params.phase.id, MastersPrefix) || HasPrefix(params.phase.id, NodesPrefix)
    ensures r.Err? ==> r.error == BadParameter(UnknownPhaseMessage(params.phase.id))
    ensures r.Ok? ==>
      && r.value.params == params && r.value.operation == operation
      && r.value.logger.key == params.Key()
      && r.value.logger.fields == [(PhaseField, params.phase.id)]
      && (params.phase.data.None? ==> r.value.logger.server.None?)
      && (params.phase.data.Some? ==> r.value.logger.server == params.phase.data.value.server)
  {
    var logger := PhaseLogger(params);
    if HasPrefix(params.phase.id, MastersPrefix) || HasPrefix(params.phase.id, NodesPrefix) then
      Ok(SyncExecutor(params, operation, logger))
    else
      Err(BadParameter(UnknownPhaseMessage(params.phase.id)))
  }

  /** Dispatch is a plain prefix test on the phase ID, with no separator:
      a sub-phase of the master phase is synchronised, and so is any ID that
      merely begins with the master prefix; a shorter ID is refused, and a
      refusal names the phase quoted. */
  lemma DispatchByPrefix(operation: SiteOperation, plan: Plan, phase: Phase)
    ensures ExecutorFor(operation, ExecutorParams(plan, phase.(id := "/masters/node-1"))).Ok?
    ensures ExecutorFor(operation, ExecutorParams(plan, phase.(id := "/mastersfoo"))).Ok?
    ensures ExecutorFor(operation, ExecutorParams(plan, phase.(id := "/nodes"))).Ok?
    ensures ExecutorFor(operation, ExecutorParams(plan, phase.(id := "/node"))).Err?
    ensures ExecutorFor(operation, ExecutorParams(plan, phase.(id := "/init")))
         == Err(BadParameter("unknown phase \"/init\""))
  {
    assert "/masters/node-1"[..|MastersPrefix|] == MastersPrefix;
    assert "/mastersfoo"[..|MastersPrefix|] == MastersPrefix;
    assert "/nodes"[..|NodesPrefix|] == NodesPrefix;
    QuotePlain("/init");
    assert UnknownPhaseMessage("/init") == "unknown phase \"/init\"";
  }

  // ---------------------------------------------------------------------
  // Configuration

  /** The first missing dependency, in the order they are checked. */
  function ConfigError(hasOperation: bool, hasOperator: bool, hasRunner: bool): (r: Option<Error>)
    ensures r.None? <==> hasOperation && hasOperator && hasRunner
    ensures !hasOperation ==> r == Some(BadParameter("operation is required"))
    ensures hasOperation && !hasOperator ==> r == Some(BadParameter("operator service is required"))
    ensures hasOperation && hasOperator && !hasRunner ==> r == Some(BadParameter("remote command runner is required"))
  {
    if !hasOperation then Some(BadParameter("operation is required"))
    else if !hasOperator then Some(BadParameter("operator service is required"))
    else if !hasRunner then Some(BadParameter("remote command runner is required"))
    else None
  }

  function DefaultLogger(key: SiteOperationKey): Logger {
    Logger([(ComponentField, "environ")], key, None)
  }

  /** `Config`: what the engine is built from. */
  class Config {
    var operation: Option<SiteOperation>
    var operator: Option<Operator>
    var runner: Option<RemoteRunner>
    var logger: Option<Logger>

    constructor (operation: Option<SiteOperation>, operator: Option<Operator>,
                 runner: Option<RemoteRunner>, logger: Option<Logger>)
      ensures this.operation == operation && this.operator == operator
      ensures this.runner == runner && this.logger == logger
    {
      this.operation := operation;
      this.operator := operator;
      this.runner := runner;
      this.logger := logger;
    }

    /** `checkAndSetDefaults`: the first missing dependency is reported;
      a complete configuration keeps its logger or gets the default one
      for its operation. */
    method CheckAndSetDefaults() returns (err: Option<Error>)
      modifies this
      ensures err == ConfigError(operation.Some?, operator.Some?, runner.Some?)
      ensures operation == old(operation) && operator == old(operator) && runner == old(runner)
      ensures logger == (if err.None? && old(logger).None? then Some(DefaultLogger(operation.value.Key())) else old(logger))
    {
      if operation.None? {
        return Some(BadParameter("operation is required"));
      }
      if operator.None? {
        return Some(BadParameter("operator service is required"));
      }
      if runner.None? {
        return Some(BadParameter("remote command runner is required"));
      }
      if logger.None? {
        logger := Some(DefaultLogger(operation.value.Key()));
      }
      return None;
    }
  }

  // ---------------------------------------------------------------------
  // The engine

  /** The engine embeds the checked configuration: its operation, operator
      service and logger. */
  class Engine {
    const operation: SiteOperation
    const operator: Operator
    const logger: Logger

    constructor (operation: SiteOperation, operator: Operator, logger: Logger)
      ensures this.operation == operation && this.operator == operator && this.logger == logger
    {
      this.operation := operation;
      this.operator := operator;
      this.logger := logger;
    }

    /** `GetExecutor`: the executor function built from the configuration. */
    function GetExecutor(params: ExecutorParams): (r: Result<Executor>)
      ensures r.Ok? ==> r.value.operation == operation
      ensures r.Err? ==> r.error.BadParameter?
    {
      ExecutorFor(operation, params)
    }

    /** `GetPlan`: the latest stored plan, read under `retry`. */
    method GetPlan() returns (r: Result<Plan>)
      modifies operator
      ensures var (e, rest) := Attempt(old(operator.script), operator.retries);
        && operator.script == rest
        && r == (if e.None? then Ok(operator.plan) else Err(e.value))
      ensures operator.log == old(operator.log)
    {
      r := operator.GetOperationPlan(operation.Key());
    }

    method UpdateProgress(params: Params, created: int) returns (err: Option<Error>)
      modifies operator
      ensures var run := UpdateProgressRun(
          old(operator.script), operator.retries, operator.plan, operation.Key(), params.phaseID, created);
        && err == run.error
        && operator.script == run.rest
        && operator.log == old(operator.log) + run.writes
    {
      var plan := GetPlan();
      if plan.Err? {
        return Some(plan.error);
      }
      var phase := FindPhase(plan.value, params.phaseID);
      if phase.Err? {
        return Some(phase.error);
      }
      var key := operation.Key();
      var entry := ProgressEntryFor(key, plan.value, phase.value, created);
      var writeErr := operator.CreateProgressEntry(key, entry);
      // a failed write is only logged
      return None;
    }

    method Complete(fsmErr: Option<Error>) returns (err: Option<Error>)
      requires CompleteDefined(operator.script, operator.retries, operator.plan, fsmErr)
      modifies operator
      ensures var run := CompleteRun(old(operator.script), operator.retries, operator.plan, operation.Key(), fsmErr);
        && err == run.error
        && operator.script == run.rest
        && operator.log == old(operator.log) + run.writes
    {
      var plan := GetPlan();
      if plan.Err? {
        return Some(plan.error);
      }
      if IsCompleted(plan.value) {
        err := operator.SetOperationState(operation.Key(), OperationCompleted);
      } else {
        err := operator.SetOperationState(operation.Key(), OperationFailed(fsmErr.value.message));
      }
    }

    method ChangePhaseState(change: StateChange, id: string, created: int) returns (err: Option<Error>)
      modifies operator
      ensures var run := ChangePhaseStateRun(old(operator.script), operator.retries, operation, change, id, created);
        && err == run.error
        && operator.script == run.rest
        && operator.log == old(operator.log) + run.writes
    {
      err := operator.CreateOperationPlanChange(operation.Key(), ChangeRecord(operation, change, id, created));
    }

    /** `RunCommand`: the runner is asked to run the phase on the server;
      `outcome` is what the server reports. */
    method RunCommand(runner: RemoteRunner, server: Server, params: Params, outcome: Option<Error>)
      returns (err: Option<Error>)
      modifies runner
      ensures err == outcome
      ensures runner.invocations == old(runner.invocations) + [Invocation(server, CommandArgs(params))]
    {
      var args := ["system", "envars", "--phase", params.phaseID];
      if params.force {
        args := args + ["--force"];
      }
      err := runner.Run(server, args, outcome);
    }
  }

  /** `New`: the configuration is passed by value, so validation and
      defaults act on a copy; the engine is built over the copy's operation,
      operator service and logger, and the caller's configuration is left
      as it was. */
  method New(config: Config) returns (engine: Option<Engine>, err: Option<Error>)
    ensures unchanged(config)
    ensures err == ConfigError(config.operation.Some?, config.operator.Some?, config.runner.Some?)
    ensures err.None? <==> engine.Some?
    ensures engine.Some? ==>
      && fresh(engine.value)
      && engine.value.operation == config.operation.value
      && engine.value.operator == config.operator.value
      && engine.value.logger == (if config.logger.Some? then config.logger.value
                                 else DefaultLogger(config.operation.value.Key()))
  {
    var copy := new Config(config.operation, config.operator, config.runner, config.logger);
    err := copy.CheckAndSetDefaults();
    if err.Some? {
      return None, err;
    }
    var e := new Engine(copy.operation.value, copy.operator.value, copy.logger.value);
    return Some(e), None;
  }
}
