/**
 The durable run document (`RunState`) and the records inside it.

 Identifiers (execution, action, contract, reconciliation and Actor ids) are
 natural numbers: only their equality matters.  Times are the ticks of one
 monotone clock.
 */
module RunModel {
  import opened Options

  type Id = nat
  type Text = string

  /** The ten graph nodes.  The first seven run a role. */
  datatype Node =
    | Architect | DriverRed | DriverGreen | ReviewerRed | ReviewerGreen
    | Refactorer | ReviewerRefactor
    | DoneNode | PauseNode | BlockedNode
  {
    predicate RunsRole() { !DoneNode? && !PauseNode? && !BlockedNode? }
    predicate IsDriver() { DriverRed? || DriverGreen? }
    predicate IsReviewer() { ReviewerRed? || ReviewerGreen? || ReviewerRefactor? }
  }

  datatype Status = NotStarted | InProgress | BlockedStatus | AwaitingHuman | DoneStatus | FailedInfra

  /** The phase label: usually a node name, sometimes one of the lossy or terminal labels. */
  datatype Phase = At(node: Node) | DriverPhase | ReviewerPhase | RecursionLimitExceeded | TargetsCancelled

  datatype Budget = Budget(limit: int, used: int) {
    predicate Exceeded() { used >= limit }
  }

  /** The durable cursor. */
  datatype Stage = BeforeAttempt | AttemptCreated | AttemptStarted | AttemptCompleted | OutcomeCheckpointed

  datatype Progress = Progress(
    stage: Stage,
    nextNode: Node,
    execution: Option<Id>,
    correction: Option<Text>,
    correctionAttempt: nat)
  {
    predicate Unfinished() { stage.AttemptCreated? || stage.AttemptStarted? }
  }

  /** Links a resume to the human authorization that allowed it. */
  datatype Intent = Intent(action: Id, completed: bool)

  datatype Trigger =
    | SameRootCause | ScopeViolation | BudgetExceeded | RoleEdit
    | InfraFailure | ManualCheckpoint | RoleEscalation

  datatype Interrupt = Interrupt(trigger: Trigger, resolution: Option<Text>, next: Option<Node>)
  {
    predicate DriverCheckpoint() { trigger.ManualCheckpoint? && next.Some? && next.value.IsDriver() }
  }

  datatype AttemptOutcome = Unfinished | Succeeded | Rejected | Interrupted

  /** One attempt to run one role node; `blocked` records a typed blocked role result. */
  datatype Attempt = Attempt(
    id: Id,
    node: Node,
    outcome: AttemptOutcome,
    blocked: bool,
    contract: Option<Id>,
    startedAt: nat)

  datatype Intervention = Intervention(action: Id, target: Node, text: Text, deliveredTo: Option<Id>)

  datatype ActionKind = InterruptResolution | InterventionRequest
  datatype ActionTarget = InterruptAt(index: nat) | LegacyPause | RoleResult(execution: Id) | TargetNode(node: Node)
  datatype Disposition = Applied | Queued | Delivered

  /** One human-authorized action in the audit log. */
  datatype Action = Action(
    id: Id,
    kind: ActionKind,
    actor: Id,
    target: ActionTarget,
    disposition: Disposition,
    detail: Text,
    contract: Option<Id>)

  // ----- the artifact-target handoff -----

  datatype Reason =
    | MissingTargets | MissingEvidence | AmbiguousTargets | DuplicateTargets | UnsafePath
    | StaleEvidence | OutOfScope | ContradictoryEvidence | IncompatibleRecipe

  /** A sealed contract, reduced to the fields the run-level policy reads. */
  datatype Contract = Contract(
    id: Id,
    supersedes: Option<Id>,
    sourceRevision: Id,
    architectExecution: Option<Id>,
    driverPhases: set<Node>)

  /** The external policy snapshot one reconciliation pins. */
  datatype Snapshot = Snapshot(recipe: Id, sourceRevision: Option<Id>, scopeDigest: Id, pathDigest: Id)

  datatype Reconciliation = Reconciliation(
    id: Id,
    contract: Id,
    at: nat,
    reasons: set<Reason>,
    snapshot: Snapshot,
    references: set<Id>)
  {
    predicate Ready() { reasons == {} }

    /** Equality without the record's own id and time. */
    predicate SameEvidence(other: Reconciliation) {
      contract == other.contract && reasons == other.reasons
      && snapshot == other.snapshot && references == other.references
    }
  }

  datatype CorrectionKind = ApproveCorrection | ReturnToArchitect | CancelHandoff

  datatype Correction = Correction(
    action: Id,
    actor: Id,
    at: nat,
    kind: CorrectionKind,
    previous: Option<Id>,
    corrected: Option<Id>,
    reason: Text)

  datatype Handoff = Handoff(
    contracts: seq<Contract>,
    reconciliations: seq<Reconciliation>,
    corrections: seq<Correction>,
    active: Option<Id>)

  const EMPTY_HANDOFF := Handoff([], [], [], None)

  /** What workflow admission retained: whether its recipe has an Architecture stage. */
  datatype Admission = Admission(hasArchitecture: bool)

  datatype RunState = RunState(
    status: Status,
    phase: Phase,
    resumeTarget: Option<Node>,
    budget: Budget,
    interrupts: seq<Interrupt>,
    rejections: seq<Node>,
    progress: Option<Progress>,
    intent: Option<Intent>,
    attempts: seq<Attempt>,
    interventions: seq<Intervention>,
    actions: seq<Action>,
    admission: Option<Admission>,
    handoff: Option<Handoff>)
  {
    predicate IntentPending() { intent.Some? && !intent.value.completed }

    function History(): Handoff { if handoff.Some? then handoff.value else EMPTY_HANDOFF }

    predicate HandoffCancelled() {
      handoff.Some? && handoff.value.corrections != []
      && handoff.value.corrections[|handoff.value.corrections| - 1].kind.CancelHandoff?
    }

    predicate Terminal() { status.DoneStatus? || status.FailedInfra? }
  }

  ghost predicate UniqueAttempts(attempts: seq<Attempt>) {
    forall i, j :: 0 <= i < j < |attempts| ==> attempts[i].id != attempts[j].id
  }

  /** The attempts without the one named `id`, in order. */
  function WithoutAttempt(attempts: seq<Attempt>, id: Id): seq<Attempt> {
    if attempts == [] then []
    else if attempts[0].id == id then WithoutAttempt(attempts[1..], id)
    else [attempts[0]] + WithoutAttempt(attempts[1..], id)
  }

  /** Replacing the last attempt by its finished form keeps every other attempt where it was. */
  lemma {:induction false} WithoutLast(before: seq<Attempt>, last: Attempt)
    requires forall i :: 0 <= i < |before| ==> before[i].id != last.id
    ensures WithoutAttempt(before + [last], last.id) == before
  {
    if before == [] {
      assert (before + [last])[1..] == [];
    } else {
      assert (before + [last])[1..] == before[1..] + [last];
      WithoutLast(before[1..], last);
    }
  }
}
