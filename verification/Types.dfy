/** The records exchanged by the public service and the privileged broker. */
module Types {
  import opened Text

  datatype Option<+T> = None | Some(value: T)
  datatype Result<+T, +E> = Ok(value: T) | Err(error: E)

  /** Nanoseconds since Go's zero time, so that IsZero is `== ZERO_TIME`. */
  type Time = int
  const ZERO_TIME: Time := 0
  const SECOND: Time := 1_000_000_000
  const MINUTE: Time := 60 * SECOND

  const PLAN_SCHEMA := "quantum.control/operation-plan/v1alpha1"
  const GRANT_SCHEMA := "quantum.control/confirmation-grant/v1alpha1"
  const GRANT_STORE_SCHEMA := "quantum.control/confirmation-store/v1alpha1"
  const AUDIT_SCHEMA := "quantum.control/audit-record/v1alpha1"

  datatype ActorKind = Human | Service | Tci | OtherKind(name: string)

  const CONTROL_READ := "control.read"
  const INVENTORY_READ := "inventory.read"
  const CATALOG_READ := "operations.catalog.read"
  const PLAN := "operations.plan"
  const EXECUTE_READONLY := "operations.execute.readonly"
  const EXECUTE_MUTATE := "operations.execute.mutate"
  const AUDIT_READ := "audit.read"
  const CONFIRM := "operations.confirm"
  const PROPOSE := "operations.propose"

  datatype Actor = Actor(id: string, kind: ActorKind, displayName: string, roles: seq<string>, permissions: seq<string>)

  predicate HasPermission(actor: Actor, permission: string) {
    permission in actor.permissions
  }

  datatype Parameter = Parameter(name: string, value: string)

  function NameOf(p: Parameter): string { p.name }

  datatype OperationPlan = OperationPlan(
    schema: string, id: string, digest: string, requestID: string, sessionID: string, actor: Actor,
    action: string, parameters: seq<Parameter>, risk: string, requiresConfirmation: bool, valid: bool,
    createdAt: Time, expiresAt: Time, errorCode: string)

  /** Why the broker refuses a request or a plan. */
  datatype Problem =
    | InvalidAction | UnknownAction | NotImplemented | ConfirmationVerifierRequired
    | InvalidParameters | PolicyError
    | InvalidPlan | InvalidPlanDigest | InvalidPlanTime | ExpiredPlan | StalePlanPolicy
    | MutationForbidden | ApproverUnauthorized | ApproverForbidden | ConfirmationRejected

  function Code(p: Problem): string {
    match p
    case InvalidAction => "invalid_action"
    case UnknownAction => "unknown_action"
    case NotImplemented => "not_implemented"
    case ConfirmationVerifierRequired => "confirmation_verifier_required"
    case InvalidParameters => "invalid_parameters"
    case PolicyError => "policy_error"
    case InvalidPlan => "invalid_plan"
    case InvalidPlanDigest => "invalid_plan_digest"
    case InvalidPlanTime => "invalid_plan_time"
    case ExpiredPlan => "expired_plan"
    case StalePlanPolicy => "stale_plan_policy"
    case MutationForbidden => "mutation_forbidden"
    case ApproverUnauthorized => "approver_unauthorized"
    case ApproverForbidden => "approver_forbidden"
    case ConfirmationRejected => "confirmation_rejected"
  }

  datatype ParameterPattern = NoPattern | UncompilablePattern | ServiceUnitPattern

  datatype ParameterDefinition = ParameterDefinition(
    name: string, required: bool, pattern: ParameterPattern, allowedValues: Option<seq<string>>)

  datatype OperationDefinition = OperationDefinition(
    action: string, risk: string, requiresConfirmation: bool, implemented: bool,
    parameters: seq<ParameterDefinition>)

  datatype Handler = SnapshotHandler | StatusHandler | TransactionHandler(action: string)

  datatype Operation = Operation(definition: OperationDefinition, handler: Handler)

  type Operations = map<string, Operation>

  datatype OperationRequest = OperationRequest(
    requestID: string, action: string, actor: string, parameters: map<string, string>)

  /** The broker's answer to a planning request; `error` is set exactly when it is not valid. */
  datatype BrokerPlan = BrokerPlan(
    request: OperationRequest, definition: Option<OperationDefinition>, valid: bool,
    requiresConfirmation: bool, error: Option<Problem>)
}
