/** The broker's catalog of operations: what it admits, what it revalidates, and which handler runs. */
module Broker {
  import opened Text
  import opened Ordering
  import opened Types
  import opened Plans
  import opened Policy

  const RISK_READ_ONLY := "read-only"
  const RISK_LOW := "low"
  const RISK_HIGH := "high"

  const SNAPSHOT := "system.snapshot"
  const STATUS := "service.status"
  const START := "service.start"
  const STOP := "service.stop"
  const RESTART := "service.restart"
  const UNIT := "unit"

  // ---- Admission of a request ----

  /** ^[A-Za-z0-9][A-Za-z0-9_.@:-]{0,127}$ */
  predicate IsServiceUnit(s: string) {
    && 1 <= |s| <= 128 && IsAlphanumeric(s[0])
    && forall i :: 1 <= i < |s| ==> IsAlphanumeric(s[i]) || s[i] in {'_', '.', '@', ':', '-'}
  }

  function ParameterProblem(definition: ParameterDefinition, value: string): Option<Problem> {
    if definition.pattern.UncompilablePattern? then Some(PolicyError)
    else if definition.pattern.ServiceUnitPattern? && !IsServiceUnit(value) then Some(InvalidParameters)
    else if definition.allowedValues.Some? && value !in definition.allowedValues.value then Some(InvalidParameters)
    else None
  }

  function DefinitionProblem(definition: ParameterDefinition, given: map<string, string>): Option<Problem> {
    if definition.name !in given then (if definition.required then Some(InvalidParameters) else None)
    else if definition.required && Blank(given[definition.name]) then Some(InvalidParameters)
    else ParameterProblem(definition, given[definition.name])
  }

  /** The problem of the first definition that has one. */
  function FirstProblem(definitions: seq<ParameterDefinition>, given: map<string, string>): (r: Option<Problem>)
    ensures r.None? <==> forall i :: 0 <= i < |definitions| ==> DefinitionProblem(definitions[i], given).None?
  {
    if definitions == [] then None
    else
      var p := DefinitionProblem(definitions[0], given);
      if p.Some? then p else FirstProblem(definitions[1..], given)
  }

  lemma FirstProblemStep(definitions: seq<ParameterDefinition>, given: map<string, string>, i: nat)
    requires i < |definitions|
    ensures FirstProblem(definitions[i..], given) ==
            var p := DefinitionProblem(definitions[i], given);
            if p.Some? then p else FirstProblem(definitions[i + 1..], given)
  {
    assert definitions[i..][1..] == definitions[i + 1..];
  }

  function DefinedNames(definitions: seq<ParameterDefinition>): set<string> {
    set i | 0 <= i < |definitions| :: definitions[i].name
  }

  function Validate(operations: Operations, request: OperationRequest, execution: bool): Result<Operation, Problem> {
    var action := Trim(request.action);
    if action == "" then Err(InvalidAction)
    else if action !in operations then Err(UnknownAction)
    else
      var operation := operations[action];
      if !operation.definition.implemented then Err(NotImplemented)
      else if execution && operation.definition.requiresConfirmation then Err(ConfirmationVerifierRequired)
      else
        match FirstProblem(operation.definition.parameters, request.parameters)
        case Some(p) => Err(p)
        case None =>
          if request.parameters.Keys <= DefinedNames(operation.definition.parameters) then Ok(operation)
          else Err(InvalidParameters)
  }

  // ---- Revalidation of a plan ----

  function ApprovedRequest(plan: OperationPlan, parameters: map<string, string>): OperationRequest {
    OperationRequest(plan.requestID, plan.action, plan.actor.id, parameters)
  }

  /** ValidateApprovedPlan at time `now`; None is acceptance. */
  function ApprovedPlanProblem(hash: PlanHash, operations: Operations, plan: OperationPlan,
                               now: Time): Option<Problem> {
    var problem := BoundsProblem(hash, plan, now);
    if problem.Some? then problem else PolicyProblem(operations, plan)
  }

  /** The checks of a plan that need no catalog: its form, its digest, its identity and its times. */
  function BoundsProblem(hash: PlanHash, plan: OperationPlan, now: Time): Option<Problem> {
    if plan.schema != PLAN_SCHEMA || !plan.valid || !plan.requiresConfirmation then Some(InvalidPlan)
    else if !VerifyPlanDigest(hash, plan) then Some(InvalidPlanDigest)
    else if Blank(plan.id) || Blank(plan.actor.id) || Blank(plan.sessionID) then Some(InvalidPlan)
    else if plan.createdAt == ZERO_TIME || plan.expiresAt == ZERO_TIME || plan.expiresAt <= plan.createdAt
    then Some(InvalidPlanTime)
    else if plan.createdAt > now + 30 * SECOND || plan.expiresAt <= now then Some(ExpiredPlan)
    else if plan.expiresAt - plan.createdAt > 15 * MINUTE then Some(InvalidPlanTime)
    else None
  }

  /** The policy replayed over the plan: its parameters, its admission, its standing. */
  function PolicyProblem(operations: Operations, plan: OperationPlan): Option<Problem> {
    match ExactParameters(plan.parameters)
    case None => Some(InvalidPlan)
    case Some(parameters) => StandingProblem(plan.risk, Validate(operations, ApprovedRequest(plan, parameters), false))
  }

  /** The operation as the catalog has it now must still be one that confirmation covers, at the risk the plan
      states. */
  function StandingProblem(risk: string, admitted: Result<Operation, Problem>): (r: Option<Problem>)
    ensures r.None? <==>
              && admitted.Ok? && admitted.value.definition.requiresConfirmation
              && admitted.value.definition.risk == risk
  {
    match admitted
    case Err(p) => Some(p)
    case Ok(operation) =>
      if !operation.definition.requiresConfirmation || operation.definition.risk != risk then Some(StalePlanPolicy)
      else None
  }

  /** A plan accepted once can later be refused for one reason only, and that reason is visible to the caller. */
  lemma RevalidationOnlyExpires(hash: PlanHash, operations: Operations, plan: OperationPlan, before: Time, now: Time)
    requires before <= now && ApprovedPlanProblem(hash, operations, plan, before).None?
    ensures ApprovedPlanProblem(hash, operations, plan, now)
              == (if plan.expiresAt <= now then Some(ExpiredPlan) else None)
  {
    BoundsOnlyExpire(hash, plan, before, now);
  }

  lemma BoundsOnlyExpire(hash: PlanHash, plan: OperationPlan, before: Time, now: Time)
    requires before <= now && BoundsProblem(hash, plan, before).None?
    ensures BoundsProblem(hash, plan, now) == if plan.expiresAt <= now then Some(ExpiredPlan) else None
  {}

  /** A plan whose digested fields were altered under a digest it keeps is refused: for its digest, unless already for a
      form that is not executable. */
  lemma AlteredPlanRefused(hash: PlanHash, operations: Operations, plan: OperationPlan, altered: OperationPlan,
                           now: Time)
    requires VerifyPlanDigest(hash, plan) && EqualFold(plan.digest, altered.digest)
    requires CollisionFree(hash, {plan, altered}) && KeyedApart(NameOf, plan.parameters)
    requires !SameDigestedFields(plan, altered)
    ensures ApprovedPlanProblem(hash, operations, altered, now) ==
            if altered.schema == PLAN_SCHEMA && altered.valid && altered.requiresConfirmation
            then Some(InvalidPlanDigest)
            else Some(InvalidPlan)
  {
    DigestBinds(hash, plan, altered);
  }

  /** For one: a built plan with a later expiry and its old digest. */
  lemma RaisedExpiryRefused(hash: PlanHash, operations: Operations, plan: OperationPlan, later: Time, now: Time)
    requires VerifyPlanDigest(hash, plan) && KeyedApart(NameOf, plan.parameters) && plan.expiresAt < later
    requires plan.schema == PLAN_SCHEMA && plan.valid && plan.requiresConfirmation
    requires CollisionFree(hash, {plan, plan.(expiresAt := later)})
    ensures ApprovedPlanProblem(hash, operations, plan.(expiresAt := later), now) == Some(InvalidPlanDigest)
  {
    AlteredPlanRefused(hash, operations, plan, plan.(expiresAt := later), now);
  }

  // ---- The catalog with service mutations enabled ----

  const READ_OPERATIONS: Operations := map[
    SNAPSHOT := Operation(OperationDefinition(SNAPSHOT, RISK_READ_ONLY, false, true, []), SnapshotHandler),
    STATUS := Operation(
      OperationDefinition(STATUS, RISK_READ_ONLY, false, true,
                          [ParameterDefinition(UNIT, true, ServiceUnitPattern, None)]),
      StatusHandler)]

  function MutationOperation(action: string, risk: string, units: seq<string>): Operation {
    Operation(
      OperationDefinition(action, risk, true, true, [ParameterDefinition(UNIT, true, NoPattern, Some(units))]),
      TransactionHandler(action))
  }

  function WithMutations(operations: Operations, units: seq<string>): Operations {
    operations[START := MutationOperation(START, RISK_LOW, units)]
              [STOP := MutationOperation(STOP, RISK_HIGH, units)]
              [RESTART := MutationOperation(RESTART, RISK_LOW, units)]
  }

  /** The catalog of a broker that enabled service mutations under a narrowing policy. */
  ghost predicate ServiceCatalog(operations: Operations, targets: map<string, string>, policy: ServicePolicy) {
    && Narrows(policy) && targets.Keys == policy.Keys
    && (forall unit :: unit in targets ==> targets[unit] == policy[unit].healthURL)
    && exists units: seq<string> ::
         operations == WithMutations(READ_OPERATIONS, units) && forall u :: u in units <==> u in policy
  }

  predicate IsMutation(action: string) {
    action in {START, STOP, RESTART}
  }

  /** The catalog, entry by entry. */
  lemma CatalogEntry(operations: Operations, targets: map<string, string>, policy: ServicePolicy, action: string)
    requires ServiceCatalog(operations, targets, policy) && action in operations
    ensures Trimmed(action) && operations[action].definition.implemented
    ensures operations[action].definition.requiresConfirmation <==> IsMutation(action)
    ensures operations[action].handler.TransactionHandler? <==> IsMutation(action)
    ensures IsMutation(action) ==> operations[action].handler == TransactionHandler(action)
    ensures IsMutation(action) ==> operations[action].definition.risk == if action == STOP then RISK_HIGH else RISK_LOW
    ensures IsMutation(action) ==>
              exists units: seq<string> ::
                && operations[action].definition.parameters == [ParameterDefinition(UNIT, true, NoPattern, Some(units))]
                && forall u :: u in units <==> u in policy
  {
    assert START != STOP && RESTART != START && RESTART != STOP && SNAPSHOT[1] != RESTART[1];
  }

  /** The mutation surface only narrows: an admitted mutation names one unit, which is in the deployment
      policy, in the compiled set, and among the transaction targets with its compiled health URL. */
  lemma SurfaceOnlyNarrows(operations: Operations, targets: map<string, string>, policy: ServicePolicy,
                           request: OperationRequest)
    requires ServiceCatalog(operations, targets, policy)
    requires Validate(operations, request, false).Ok?
    requires Validate(operations, request, false).value.definition.requiresConfirmation
    ensures IsMutation(Trim(request.action))
    ensures Validate(operations, request, false).value.handler == TransactionHandler(Trim(request.action))
    ensures request.parameters.Keys == {UNIT}
    ensures request.parameters[UNIT] in policy && request.parameters[UNIT] in COMPILED
    ensures request.parameters[UNIT] in targets
    ensures targets[request.parameters[UNIT]] == COMPILED[request.parameters[UNIT]].healthURL
  {
    var action := Trim(request.action);
    CatalogEntry(operations, targets, policy, action);
    var definitions := operations[action].definition.parameters;
    assert DefinitionProblem(definitions[0], request.parameters).None?;
    assert DefinedNames(definitions) == {UNIT} by {
      assert definitions[0].name in DefinedNames(definitions);
    }
  }

  /** An empty policy admits no mutation at all. */
  lemma EmptyPolicyAdmitsNothing(operations: Operations, targets: map<string, string>, request: OperationRequest)
    requires ServiceCatalog(operations, targets, map[])
    ensures IsMutation(Trim(request.action)) ==> Validate(operations, request, false).Err?
  {
    if Validate(operations, request, false).Ok? && IsMutation(Trim(request.action)) {
      CatalogEntry(operations, targets, map[], Trim(request.action));
      SurfaceOnlyNarrows(operations, targets, map[], request);
      assert false;
    }
  }

  /** Every policy unit stays reachable: narrowing never disables what the policy lists. */
  lemma PolicyUnitsAdmitted(operations: Operations, targets: map<string, string>, policy: ServicePolicy,
                            action: string, unit: string, requestID: string, actor: string)
    requires ServiceCatalog(operations, targets, policy) && IsMutation(action)
    ensures Validate(operations, OperationRequest(requestID, action, actor, map[UNIT := unit]), false).Ok? <==>
              unit in policy
  {
    assert Trimmed(START) && Trimmed(STOP) && Trimmed(RESTART);
    MutationAdmission(operations, targets, policy, OperationRequest(requestID, action, actor, map[UNIT := unit]));
  }

  /** What the catalog holds under each name, in full: two read-only operations and three mutations. */
  lemma CatalogOutright(operations: Operations, targets: map<string, string>, policy: ServicePolicy)
    requires ServiceCatalog(operations, targets, policy)
    ensures operations.Keys == {"system.snapshot", "service.status", "service.start", "service.stop", "service.restart"}
    ensures operations["system.snapshot"] ==
            Operation(OperationDefinition("system.snapshot", "read-only", false, true, []), SnapshotHandler)
    ensures operations["service.status"] ==
            Operation(OperationDefinition("service.status", "read-only", false, true,
                                          [ParameterDefinition("unit", true, ServiceUnitPattern, None)]), StatusHandler)
    ensures exists units: seq<string> ::
              && (forall u :: u in units <==> u in policy)
              && var unit := [ParameterDefinition("unit", true, NoPattern, Some(units))];
                 && operations["service.start"] ==
                    Operation(OperationDefinition("service.start", "low", true, true, unit),
                              TransactionHandler("service.start"))
                 && operations["service.stop"] ==
                    Operation(OperationDefinition("service.stop", "high", true, true, unit),
                              TransactionHandler("service.stop"))
                 && operations["service.restart"] ==
                    Operation(OperationDefinition("service.restart", "low", true, true, unit),
                              TransactionHandler("service.restart"))
  {
    assert START != STOP && RESTART != START && RESTART != STOP && SNAPSHOT[1] != RESTART[1] && SNAPSHOT != STATUS;
    assert STATUS[10] == 'a' && START[10] == 'a' && STATUS[11] != START[11] && STATUS != STOP && STATUS != RESTART;
  }

  /** An operation with one required parameter takes exactly that parameter, if its value is not blank and allowed. */
  lemma OneParameterAdmission(operations: Operations, request: OperationRequest, execution: bool,
                              d: ParameterDefinition)
    requires Trim(request.action) != "" && Trim(request.action) in operations
    requires operations[Trim(request.action)].definition.implemented
    requires execution ==> !operations[Trim(request.action)].definition.requiresConfirmation
    requires operations[Trim(request.action)].definition.parameters == [d] && d.required
             && !d.pattern.UncompilablePattern?
    ensures Validate(operations, request, execution) ==
            if && request.parameters.Keys == {d.name} && !Blank(request.parameters[d.name])
               && (d.pattern.ServiceUnitPattern? ==> IsServiceUnit(request.parameters[d.name]))
               && (d.allowedValues.Some? ==> request.parameters[d.name] in d.allowedValues.value)
            then Ok(operations[Trim(request.action)]) else Err(InvalidParameters)
  {
    OneDefinition(d, request.parameters);
  }

  lemma OneDefinition(d: ParameterDefinition, given: map<string, string>)
    requires d.required && !d.pattern.UncompilablePattern?
    ensures FirstProblem([d], given) in {None, Some(InvalidParameters)}
    ensures FirstProblem([d], given).None? && given.Keys <= DefinedNames([d]) <==>
              && given.Keys == {d.name} && !Blank(given[d.name])
              && (d.pattern.ServiceUnitPattern? ==> IsServiceUnit(given[d.name]))
              && (d.allowedValues.Some? ==> given[d.name] in d.allowedValues.value)
  {
    assert [d][0] == d && [d][1..] == [];
    assert DefinedNames([d]) == {d.name} by { assert [d][0].name in DefinedNames([d]); }
    assert FirstProblem([d], given) == DefinitionProblem(d, given);
  }

  /** What one definition says to a set of parameters. */
  lemma DefinitionOutright(d: ParameterDefinition, given: map<string, string>)
    ensures DefinitionProblem(d, given) == Some(PolicyError) <==>
              d.name in given && !(d.required && Blank(given[d.name])) && d.pattern.UncompilablePattern?
    ensures DefinitionProblem(d, given) == Some(InvalidParameters) <==>
              if d.name !in given then d.required
              else
                || (d.required && Blank(given[d.name]))
                || (d.pattern.ServiceUnitPattern? && !IsServiceUnit(given[d.name]))
                || (!d.pattern.UncompilablePattern? && d.allowedValues.Some? && given[d.name] !in d.allowedValues.value)
    ensures DefinitionProblem(d, given) in {None, Some(InvalidParameters), Some(PolicyError)}
  {}

  /** ^[A-Za-z0-9][A-Za-z0-9_.@:-]{0,127}$, character by character. */
  lemma ServiceUnitOutright(s: string)
    ensures IsServiceUnit(s) <==>
              && s != "" && |s| <= 128 && s[0] != '_' && s[0] != '.' && s[0] != '@' && s[0] != ':' && s[0] != '-'
              && forall i :: 0 <= i < |s| ==>
                   'A' <= s[i] <= 'Z' || 'a' <= s[i] <= 'z' || '0' <= s[i] <= '9' || s[i] in "_.@:-"
    ensures IsServiceUnit(s) ==> !Blank(s)
  {
    if IsServiceUnit(s) {
      assert !IsSpace(s[0]) && !IsSpace(s[|s| - 1]);
      LettersAreNotBlank(s);
    }
  }

  /** What the broker says to every request for a read-only operation, and to every other request on the ordinary
      path. */
  lemma OrdinaryAdmission(operations: Operations, targets: map<string, string>, policy: ServicePolicy,
                          request: OperationRequest)
    requires ServiceCatalog(operations, targets, policy)
    ensures var r := Validate(operations, request, true);
            match Trim(request.action)
            case "" => r == Err(InvalidAction)
            case "system.snapshot" =>
              if request.parameters == map[] then r.Ok? && r.value.handler == SnapshotHandler
              else r == Err(InvalidParameters)
            case "service.status" =>
              if request.parameters.Keys == {"unit"} && IsServiceUnit(request.parameters["unit"])
              then r.Ok? && r.value.handler == StatusHandler
              else r == Err(InvalidParameters)
            case "service.start" => r == Err(ConfirmationVerifierRequired)
            case "service.stop" => r == Err(ConfirmationVerifierRequired)
            case "service.restart" => r == Err(ConfirmationVerifierRequired)
            case _ => r == Err(UnknownAction)
  {
    CatalogOutright(operations, targets, policy);
    if Trim(request.action) == STATUS {
      OneParameterAdmission(operations, request, true, ParameterDefinition(UNIT, true, ServiceUnitPattern, None));
      if UNIT in request.parameters {
        ServiceUnitOutright(request.parameters[UNIT]);
      }
    }
  }

  /** A request for a mutation is planned exactly for one unit of the policy. */
  lemma MutationAdmission(operations: Operations, targets: map<string, string>, policy: ServicePolicy,
                          request: OperationRequest)
    requires ServiceCatalog(operations, targets, policy) && IsMutation(Trim(request.action))
    ensures Validate(operations, request, false) ==
            if request.parameters.Keys == {"unit"} && request.parameters["unit"] in policy
            then Ok(operations[Trim(request.action)]) else Err(InvalidParameters)
  {
    CatalogOutright(operations, targets, policy);
    var action := Trim(request.action);
    var units: seq<string> :|
      && operations[action].definition.parameters == [ParameterDefinition(UNIT, true, NoPattern, Some(units))]
      && forall u :: u in units <==> u in policy;
    OneParameterAdmission(operations, request, false, ParameterDefinition(UNIT, true, NoPattern, Some(units)));
    LettersAreNotBlank(RUNTIME);
  }

  /** Exactly which plans the broker accepts: verified, identified, in time, and for a mutation of one unit of the
      policy at the risk of the mutation. */
  lemma AcceptedExactly(hash: PlanHash, operations: Operations, targets: map<string, string>, policy: ServicePolicy,
                        plan: OperationPlan, now: Time)
    requires ServiceCatalog(operations, targets, policy)
    ensures ApprovedPlanProblem(hash, operations, plan, now).None? <==>
              && plan.schema == PLAN_SCHEMA && plan.valid && plan.requiresConfirmation && VerifyPlanDigest(hash, plan)
              && Trim(plan.id) != "" && Trim(plan.actor.id) != "" && Trim(plan.sessionID) != ""
              && plan.createdAt != ZERO_TIME && plan.expiresAt != ZERO_TIME
              && plan.createdAt < plan.expiresAt <= plan.createdAt + 15 * MINUTE
              && plan.createdAt <= now + 30 * SECOND && now < plan.expiresAt
              && Trim(plan.action) in {"service.start", "service.stop", "service.restart"}
              && plan.risk == (if Trim(plan.action) == "service.stop" then "high" else "low")
              && exists unit :: unit in policy && ExactParameters(plan.parameters) == Some(map["unit" := unit])
  {
    CatalogOutright(operations, targets, policy);
    PolicyExactly(operations, targets, policy, plan);
    BoundsExactly(hash, plan, now);
  }

  lemma BoundsExactly(hash: PlanHash, plan: OperationPlan, now: Time)
    ensures BoundsProblem(hash, plan, now).None? <==>
              && plan.schema == PLAN_SCHEMA && plan.valid && plan.requiresConfirmation && VerifyPlanDigest(hash, plan)
              && Trim(plan.id) != "" && Trim(plan.actor.id) != "" && Trim(plan.sessionID) != ""
              && plan.createdAt != ZERO_TIME && plan.expiresAt != ZERO_TIME
              && plan.createdAt < plan.expiresAt <= plan.createdAt + 15 * MINUTE
              && plan.createdAt <= now + 30 * SECOND && now < plan.expiresAt
  {}

  lemma PolicyExactly(operations: Operations, targets: map<string, string>, policy: ServicePolicy, plan: OperationPlan)
    requires ServiceCatalog(operations, targets, policy)
    ensures PolicyProblem(operations, plan).None? <==>
              && Trim(plan.action) in {"service.start", "service.stop", "service.restart"}
              && plan.risk == (if Trim(plan.action) == "service.stop" then "high" else "low")
              && exists unit :: unit in policy && ExactParameters(plan.parameters) == Some(map["unit" := unit])
  {
    if ExactParameters(plan.parameters).Some? {
      var given := ExactParameters(plan.parameters).value;
      StandsExactly(operations, targets, policy, ApprovedRequest(plan, given), plan.risk);
      if given.Keys == {UNIT} {
        assert given == map[UNIT := given[UNIT]];
      }
    }
  }

  lemma StandsExactly(operations: Operations, targets: map<string, string>, policy: ServicePolicy,
                      request: OperationRequest, risk: string)
    requires ServiceCatalog(operations, targets, policy)
    ensures StandingProblem(risk, Validate(operations, request, false)).None? <==>
              && Trim(request.action) in {"service.start", "service.stop", "service.restart"}
              && risk == (if Trim(request.action) == "service.stop" then "high" else "low")
              && request.parameters.Keys == {"unit"} && request.parameters["unit"] in policy
  {
    var action := Trim(request.action);
    if action in operations {
      CatalogEntry(operations, targets, policy, action);
    }
    if IsMutation(action) {
      assert action in operations;
      MutationAdmission(operations, targets, policy, request);
    } else if Validate(operations, request, false).Ok? {
      ValidatesCatalogued(operations, request, false);
    }
  }

  /** The ordinary execution path never runs a transaction. */
  lemma ExecuteNeverMutates(operations: Operations, targets: map<string, string>, policy: ServicePolicy,
                            request: OperationRequest)
    requires ServiceCatalog(operations, targets, policy)
    ensures match Validate(operations, request, true)
            case Ok(operation) => operation.handler.SnapshotHandler? || operation.handler.StatusHandler?
            case Err(p) => IsMutation(Trim(request.action)) ==> p == ConfirmationVerifierRequired
  {
    if Trim(request.action) in operations {
      CatalogEntry(operations, targets, policy, Trim(request.action));
    } else {
      assert !IsMutation(Trim(request.action));
    }
  }

  lemma AcceptedPlanPolicy(hash: PlanHash, operations: Operations, plan: OperationPlan, now: Time)
    requires ApprovedPlanProblem(hash, operations, plan, now).None?
    ensures PolicyProblem(operations, plan).None?
  {}

  /** An accepted plan has readable parameters, with which it is admitted as an operation to confirm, at its stated
      risk. */
  lemma AcceptedPlanValidates(hash: PlanHash, operations: Operations, plan: OperationPlan, now: Time)
    requires ApprovedPlanProblem(hash, operations, plan, now).None?
    ensures ExactParameters(plan.parameters).Some?
    ensures var r := Validate(operations, ApprovedRequest(plan, ExactParameters(plan.parameters).value), false);
            r.Ok? && r.value.definition.requiresConfirmation && r.value.definition.risk == plan.risk
  {
    AcceptedPlanPolicy(hash, operations, plan, now);
    PolicyAdmits(operations, plan);
  }

  lemma PolicyAdmits(operations: Operations, plan: OperationPlan)
    requires PolicyProblem(operations, plan).None?
    ensures ExactParameters(plan.parameters).Some?
    ensures var r := Validate(operations, ApprovedRequest(plan, ExactParameters(plan.parameters).value), false);
            r.Ok? && r.value.definition.requiresConfirmation && r.value.definition.risk == plan.risk
  {}

  lemma ValidatesCatalogued(operations: Operations, request: OperationRequest, execution: bool)
    requires Validate(operations, request, execution).Ok?
    ensures Trim(request.action) in operations
            && Validate(operations, request, execution).value == operations[Trim(request.action)]
  {}

  /** An accepted plan is a mutation that states the catalog's risk: high for a stop, low otherwise. */
  lemma AcceptedPlanRisk(hash: PlanHash, operations: Operations, targets: map<string, string>, policy: ServicePolicy,
                         plan: OperationPlan, now: Time)
    requires ServiceCatalog(operations, targets, policy)
    requires ApprovedPlanProblem(hash, operations, plan, now).None?
    ensures IsMutation(Trim(plan.action)) && plan.risk == if Trim(plan.action) == STOP then RISK_HIGH else RISK_LOW
  {
    AcceptedPlanValidates(hash, operations, plan, now);
    ValidatesCatalogued(operations, ApprovedRequest(plan, ExactParameters(plan.parameters).value), false);
    CatalogEntry(operations, targets, policy, Trim(plan.action));
  }

  lemma ApprovedIsCatalogued(hash: PlanHash, operations: Operations, plan: OperationPlan, now: Time)
    requires ApprovedPlanProblem(hash, operations, plan, now).None?
    ensures Trim(plan.action) in operations
  {}

  /** ExecuteApproved looks the action up untrimmed: of the plans that validate, it finds a handler
      exactly for those whose action carries no surrounding space. */
  lemma HandlerFoundIffTrimmed(hash: PlanHash, operations: Operations, targets: map<string, string>,
                               policy: ServicePolicy, plan: OperationPlan, now: Time)
    requires ServiceCatalog(operations, targets, policy)
    requires ApprovedPlanProblem(hash, operations, plan, now).None?
    ensures plan.action in operations <==> Trimmed(plan.action)
  {
    ApprovedIsCatalogued(hash, operations, plan, now);
    if plan.action in operations {
      CatalogEntry(operations, targets, policy, plan.action);
    }
  }

  /** A well-formed, correctly digested start of the runtime unit, under a chosen ID and wording of the action. */
  function StartPlan(hash: PlanHash, id: string, action: string): OperationPlan {
    var unsigned := OperationPlan(
      PLAN_SCHEMA, id, "", "", "s", Actor("human:a", Human, "a", [], []), action, [Parameter(UNIT, RUNTIME)], RISK_LOW,
      true, true, 1, 2, "");
    unsigned.(digest := hash(Canonical(unsigned)))
  }

  lemma StartPlanSigned(hash: PlanHash, id: string, action: string)
    ensures VerifyPlanDigest(hash, StartPlan(hash, id, action))
  {
    var plan := StartPlan(hash, id, action);
    assert Canonical(plan) == Canonical(plan.(digest := ""));
    BuiltDigestVerifies(hash, plan);
  }

  lemma StartPlanReads(hash: PlanHash, id: string, action: string)
    ensures ExactParameters(StartPlan(hash, id, action).parameters) == Some(map[UNIT := RUNTIME])
  {
    var listed := StartPlan(hash, id, action).parameters;
    assert Lists(listed, map[UNIT := RUNTIME]);
    ListedIsRead(listed, map[UNIT := RUNTIME]);
  }

  lemma LettersAreNotBlank(s: string)
    requires s != "" && !IsSpace(s[0]) && !IsSpace(s[|s| - 1])
    ensures !Blank(s) && Trimmed(s)
  {}

  lemma StartIsLowRisk(operations: Operations, targets: map<string, string>, policy: ServicePolicy,
                       request: OperationRequest)
    requires ServiceCatalog(operations, targets, policy) && RUNTIME in policy
    requires request.action == START && request.parameters == map[UNIT := RUNTIME]
    ensures Validate(operations, request, false).Ok?
    ensures Validate(operations, request, false).value.definition.requiresConfirmation
    ensures Validate(operations, request, false).value.definition.risk == RISK_LOW
  {
    PolicyUnitsAdmitted(operations, targets, policy, START, RUNTIME, request.requestID, request.actor);
    ValidatesCatalogued(operations, request, false);
    CatalogEntry(operations, targets, policy, START);
  }

  /** It is accepted at its creation under every catalog whose policy lists the unit. */
  lemma StartPlanAccepted(hash: PlanHash, operations: Operations, targets: map<string, string>, policy: ServicePolicy,
                          id: string, action: string)
    requires ServiceCatalog(operations, targets, policy) && RUNTIME in policy
    requires !Blank(id) && Trim(action) == START
    ensures ApprovedPlanProblem(hash, operations, StartPlan(hash, id, action), 1).None?
  {
    var request := OperationRequest("", START, "human:a", map[UNIT := RUNTIME]);
    StartPlanSigned(hash, id, action);
    StartPlanReads(hash, id, action);
    StartPlanNamed(hash, id, action);
    StartIsLowRisk(operations, targets, policy, request);
    AcceptedFields(hash, operations, StartPlan(hash, id, action), request, 1);
  }

  lemma StartPlanNamed(hash: PlanHash, id: string, action: string)
    ensures !Blank(StartPlan(hash, id, action).actor.id) && !Blank(StartPlan(hash, id, action).sessionID)
            && Trim(START) == START
  {
    LettersAreNotBlank("s");
    LettersAreNotBlank("human:a");
    LettersAreNotBlank(START);
  }

  /** Such a plan exists in every catalog whose policy lists the unit: with a space before its action it is accepted,
      and no handler is found for it. */
  lemma UntrimmedActionAccepted(hash: PlanHash, operations: Operations, targets: map<string, string>,
                                policy: ServicePolicy)
    requires ServiceCatalog(operations, targets, policy) && RUNTIME in policy
    ensures ApprovedPlanProblem(hash, operations, StartPlan(hash, "p", " " + START), 1).None?
    ensures StartPlan(hash, "p", " " + START).action !in operations
  {
    LettersAreNotBlank("p");
    LettersAreNotBlank(START);
    TrimStrips(" ", START, "");
    assert " " + START + "" == " " + START;
    StartPlanAccepted(hash, operations, targets, policy, "p", " " + START);
    assert IsSpace((" " + START)[0]);
    HandlerFoundIffTrimmed(hash, operations, targets, policy, StartPlan(hash, "p", " " + START), 1);
  }

  /** Revalidation never answers for the actors. */
  lemma PlanProblems(hash: PlanHash, operations: Operations, plan: OperationPlan, now: Time)
    ensures ApprovedPlanProblem(hash, operations, plan, now) !in
              {Some(MutationForbidden), Some(ApproverUnauthorized), Some(ApproverForbidden), Some(ConfirmationRejected)}
  {
    BoundsProblems(hash, plan, now);
    PolicyProblems(operations, plan);
  }

  lemma BoundsProblems(hash: PlanHash, plan: OperationPlan, now: Time)
    ensures BoundsProblem(hash, plan, now) in
              {None, Some(InvalidPlan), Some(InvalidPlanDigest), Some(InvalidPlanTime), Some(ExpiredPlan)}
  {}

  lemma PolicyProblems(operations: Operations, plan: OperationPlan)
    ensures PolicyProblem(operations, plan) !in
              {Some(MutationForbidden), Some(ApproverUnauthorized), Some(ApproverForbidden), Some(ConfirmationRejected)}
  {
    if ExactParameters(plan.parameters).Some? {
      ValidateProblems(operations, ApprovedRequest(plan, ExactParameters(plan.parameters).value), false);
    }
  }

  lemma ValidateProblems(operations: Operations, request: OperationRequest, execution: bool)
    ensures match Validate(operations, request, execution)
            case Ok(_) => true
            case Err(p) => p in {InvalidAction, UnknownAction, NotImplemented, ConfirmationVerifierRequired,
                                 InvalidParameters, PolicyError}
  {
    if Trim(request.action) in operations {
      FirstProblems(operations[Trim(request.action)].definition.parameters, request.parameters);
    }
  }

  lemma {:induction false} FirstProblems(definitions: seq<ParameterDefinition>, given: map<string, string>)
    ensures FirstProblem(definitions, given) in {None, Some(InvalidParameters), Some(PolicyError)}
  {
    if definitions != [] {
      DefinitionOutright(definitions[0], given);
      FirstProblems(definitions[1..], given);
    }
  }

  // ---- The registry object ----

  datatype EnableError = NoMutator | NoHealthChecker | BadTimeout | BadPollInterval

  class Registry {
    var operations: Operations
    var serviceTargets: map<string, string>
    var transactionTimeout: Time
    var pollInterval: Time

    constructor ()
      ensures operations == READ_OPERATIONS && serviceTargets == map[]
    {
      operations := map[];
      serviceTargets := map[];
      transactionTimeout, pollInterval := 0, 0;
      new;
      Register(SNAPSHOT, READ_OPERATIONS[SNAPSHOT]);
      Register(STATUS, READ_OPERATIONS[STATUS]);
      assert SNAPSHOT[1] != STATUS[1];
    }

    method Register(action: string, operation: Operation)
      modifies this`operations
      ensures operations == old(operations)[action := operation]
    {
      operations := operations[action := operation];
    }

    method EnableServiceMutations(mutator: bool, health: bool, policy: ServicePolicy, timeout: Time, interval: Time)
      returns (error: Option<EnableError>)
      modifies this
      ensures error.None? <==>
                && mutator && health && SECOND <= timeout <= 2 * MINUTE
                && SECOND / 100 <= interval <= 5 * SECOND
      ensures error == if !mutator then Some(NoMutator)
                       else if !health then Some(NoHealthChecker)
                       else if !(SECOND <= timeout <= 2 * MINUTE) then Some(BadTimeout)
                       else if !(SECOND / 100 <= interval <= 5 * SECOND) then Some(BadPollInterval)
                       else None
      ensures error.Some? ==> unchanged(this)
      ensures error.None? ==>
                && transactionTimeout == timeout && pollInterval == interval
                && serviceTargets == (map unit | unit in policy :: policy[unit].healthURL)
                && exists units: seq<string> ::
                     operations == WithMutations(old(operations), units) && forall u :: u in units <==> u in policy
      ensures error.None? && old(operations) == READ_OPERATIONS && Narrows(policy) ==>
                ServiceCatalog(operations, serviceTargets, policy)
    {
      if !mutator { return Some(NoMutator); }
      if !health { return Some(NoHealthChecker); }
      if timeout < SECOND || timeout > 2 * MINUTE { return Some(BadTimeout); }
      if interval < SECOND / 100 || interval > 5 * SECOND { return Some(BadPollInterval); }
      transactionTimeout, pollInterval := timeout, interval;
      var units := AllowedUnits(policy);
      FillTargets(policy, units);
      Register(START, MutationOperation(START, RISK_LOW, units));
      Register(STOP, MutationOperation(STOP, RISK_HIGH, units));
      Register(RESTART, MutationOperation(RESTART, RISK_LOW, units));
      assert operations == WithMutations(old(operations), units);
      return None;
    }

    method FillTargets(policy: ServicePolicy, units: seq<string>)
      requires forall u :: u in units <==> u in policy
      modifies this`serviceTargets
      ensures serviceTargets == (map unit | unit in policy :: policy[unit].healthURL)
    {
      serviceTargets := map[];
      for i := 0 to |units|
        invariant serviceTargets.Keys == set j | 0 <= j < i :: units[j]
        invariant forall u :: u in serviceTargets ==> u in policy && serviceTargets[u] == policy[u].healthURL
      {
        assert units[i] in policy;
        serviceTargets := serviceTargets[units[i] := policy[units[i]].healthURL];
      }
    }

    method ValidateRequest(request: OperationRequest, execution: bool) returns (r: Result<Operation, Problem>)
      ensures r == Validate(operations, request, execution)
    {
      var action := Trim(request.action);
      if action == "" { return Err(InvalidAction); }
      if action !in operations { return Err(UnknownAction); }
      var operation := operations[action];
      if !operation.definition.implemented { return Err(NotImplemented); }
      if execution && operation.definition.requiresConfirmation { return Err(ConfirmationVerifierRequired); }
      var definitions, given := operation.definition.parameters, request.parameters;
      var allowed: set<string> := {};
      for i := 0 to |definitions|
        invariant allowed == set j | 0 <= j < i :: definitions[j].name
        invariant FirstProblem(definitions, given) == FirstProblem(definitions[i..], given)
      {
        FirstProblemStep(definitions, given, i);
        allowed := allowed + {definitions[i].name};
        var problem := DefinitionProblem(definitions[i], given);
        if problem.Some? { return Err(problem.value); }
      }
      var rest := given.Keys;
      while rest != {}
        invariant rest <= given.Keys && given.Keys - rest <= allowed
        decreases |rest|
      {
        var name :| name in rest;
        if name !in allowed { return Err(InvalidParameters); }
        rest := rest - {name};
      }
      return Ok(operation);
    }

    method Plan(request: OperationRequest) returns (plan: BrokerPlan)
      ensures plan == Planned(operations, request)
      ensures plan.request == request && plan.valid == Validate(operations, request, false).Ok?
      ensures plan.valid ==>
                && Trim(request.action) in operations && plan.error == None
                && plan.definition == Some(operations[Trim(request.action)].definition)
                && plan.requiresConfirmation == operations[Trim(request.action)].definition.requiresConfirmation
      ensures !plan.valid ==>
                && plan.error == Some(Validate(operations, request, false).error)
                && plan.definition == None && !plan.requiresConfirmation
    {
      var r := ValidateRequest(request, false);
      match r {
        case Err(problem) => return Refused(request, problem);
        case Ok(operation) => return Admitted(request, operation.definition);
      }
    }

    method ValidateApprovedPlan(hash: PlanHash, plan: OperationPlan, now: Time) returns (problem: Option<Problem>)
      ensures problem == ApprovedPlanProblem(hash, operations, plan, now)
    {
      if plan.schema != PLAN_SCHEMA || !plan.valid || !plan.requiresConfirmation { return Some(InvalidPlan); }
      if !VerifyPlanDigest(hash, plan) { return Some(InvalidPlanDigest); }
      if Blank(plan.id) || Blank(plan.actor.id) || Blank(plan.sessionID) { return Some(InvalidPlan); }
      if plan.createdAt == ZERO_TIME || plan.expiresAt == ZERO_TIME || plan.expiresAt <= plan.createdAt {
        return Some(InvalidPlanTime);
      }
      if plan.createdAt > now + 30 * SECOND || plan.expiresAt <= now { return Some(ExpiredPlan); }
      if plan.expiresAt - plan.createdAt > 15 * MINUTE { return Some(InvalidPlanTime); }
      var parameters := ReadParameters(plan.parameters);
      if parameters.None? { return Some(InvalidPlan); }
      var r := ValidateRequest(ApprovedRequest(plan, parameters.value), false);
      if r.Err? { return Some(r.error); }
      if !r.value.definition.requiresConfirmation || r.value.definition.risk != plan.risk {
        return Some(StalePlanPolicy);
      }
      return None;
    }
  }

  function Planned(operations: Operations, request: OperationRequest): BrokerPlan {
    match Validate(operations, request, false)
    case Err(problem) => Refused(request, problem)
    case Ok(operation) => Admitted(request, operation.definition)
  }

  function Refused(request: OperationRequest, problem: Problem): BrokerPlan {
    BrokerPlan(request, None, false, false, Some(problem))
  }

  function Admitted(request: OperationRequest, definition: OperationDefinition): BrokerPlan {
    BrokerPlan(request, Some(definition), true, definition.requiresConfirmation, None)
  }

  // ---- Round trip ----

  /** Every plan built from a valid planning answer of a confirmation-required operation is accepted back
      by the broker from its creation until its expiry, under any order of its parameters; the broker reads
      exactly the requested parameters and finds the handler. */
  lemma PlanRoundTrip(hash: PlanHash, operations: Operations, targets: map<string, string>, policy: ServicePolicy,
                      request: OperationRequest, actor: Actor, sessionID: string, id: string, created: Time, ttl: Time,
                      plan: OperationPlan, order: seq<Parameter>, now: Time)
    requires ServiceCatalog(operations, targets, policy)
    requires Planned(operations, request).valid && Planned(operations, request).requiresConfirmation
    requires !Blank(actor.id) && !Blank(sessionID) && !Blank(id) && ttl <= 15 * MINUTE
    requires created > ZERO_TIME
    requires BuiltFrom(hash, plan, actor, sessionID, Planned(operations, request), id, created, ttl)
    requires multiset(order) == multiset(plan.parameters)
    requires created <= now + 30 * SECOND
    ensures VerifyPlanDigest(hash, plan.(parameters := order))
    ensures ExactParameters(order) == Some(request.parameters)
    ensures ApprovedPlanProblem(hash, operations, plan.(parameters := order), now)
              == (if now < plan.expiresAt then None else Some(ExpiredPlan))
    ensures plan.action in operations && operations[plan.action].handler == TransactionHandler(Trim(request.action))
  {
    assert request.parameters.Keys == {UNIT} && plan.action in operations
           && operations[plan.action].handler == TransactionHandler(Trim(request.action)) by {
      SurfaceOnlyNarrows(operations, targets, policy, request);
    }
    BuiltReadsBack(hash, plan, request.parameters, order);
    BuiltFieldsAccepted(actor, sessionID, request, plan);
    AcceptedFields(hash, operations, plan.(parameters := order), request, now);
  }

  lemma BuiltReadsBack(hash: PlanHash, plan: OperationPlan, m: map<string, string>, order: seq<Parameter>)
    requires plan.digest == hash(Canonical(plan)) && Lists(plan.parameters, m)
    requires multiset(order) == multiset(plan.parameters) && m.Keys == {UNIT}
    ensures VerifyPlanDigest(hash, plan.(parameters := order))
    ensures ExactParameters(order) == Some(m)
  {
    ListedIsRead(plan.parameters, m);
    DigestOrderFree(hash, plan, order);
    ExactParametersOrderFree(plan.parameters, order);
    BuiltDigestVerifies(hash, plan);
  }

  lemma BuiltDigestVerifies(hash: PlanHash, plan: OperationPlan)
    requires plan.digest == hash(Canonical(plan))
    ensures VerifyPlanDigest(hash, plan)
  {}

  lemma BuiltFieldsAccepted(actor: Actor, sessionID: string, request: OperationRequest, plan: OperationPlan)
    requires plan.sessionID == Trim(sessionID) && plan.action == Trim(request.action)
    ensures Blank(plan.sessionID) <==> Blank(sessionID)
    ensures Trim(plan.action) == plan.action
  {
    assert Trimmed(Trim(sessionID)) && Trimmed(Trim(request.action));
  }

  lemma AcceptedFields(hash: PlanHash, operations: Operations, plan: OperationPlan, request: OperationRequest,
                       now: Time)
    requires plan.schema == PLAN_SCHEMA && plan.valid && plan.requiresConfirmation && VerifyPlanDigest(hash, plan)
    requires !Blank(plan.id) && !Blank(plan.actor.id) && !Blank(plan.sessionID)
    requires ZERO_TIME < plan.createdAt < plan.expiresAt <= plan.createdAt + 15 * MINUTE
             && plan.createdAt <= now + 30 * SECOND
    requires ExactParameters(plan.parameters) == Some(request.parameters)
    requires Trim(plan.action) == Trim(request.action) && Validate(operations, request, false).Ok?
    requires Validate(operations, request, false).value.definition.requiresConfirmation
    requires Validate(operations, request, false).value.definition.risk == plan.risk
    ensures ApprovedPlanProblem(hash, operations, plan, now)
              == (if now < plan.expiresAt then None else Some(ExpiredPlan))
  {
    assert Validate(operations, ApprovedRequest(plan, request.parameters), false)
             == Validate(operations, request, false);
  }
}
