/** The broker's request handlers as the sequential code they are. Each is proved to answer, and to leave the shared
    store, exactly as the steps of its task in the protocol do. */
module Server {
  import opened Text
  import opened Types
  import opened Plans
  import opened Policy
  import opened Broker
  import opened Grants
  import opened Protocol
  import opened Safety
  import opened Handlers
  import Transaction

  datatype Response = Rejected(problem: Problem) | Panicked | Ran(outcome: Transaction.Outcome)

  class Server {
    const registry: Registry
    const store: GrantStore
    const actors: Authenticator
    ghost const size: EncodedSize

    constructor (registry: Registry, store: GrantStore, actors: Authenticator, ghost size: EncodedSize)
      ensures this.registry == registry && this.store == store && this.actors == actors && this.size == size
    {
      this.registry, this.store, this.actors, this.size := registry, store, actors, size;
    }

    ghost function Settings(): Config {
      Config(store.hash, store.tokenHash, size, store.ttl)
    }

    /** The state s is what this server's objects hold. */
    ghost predicate Mirrors(s: State)
      reads registry, store, store.file
    {
      && s.process.Up? && s.process.grants == store.grants && s.disk == store.file.contents
      && s.process.operations == registry.operations && s.process.targets == registry.serviceTargets
      && s.process.actors == actors
    }

    /** The timings that start-up admits. */
    predicate Configured()
      reads registry
    {
      SECOND <= registry.transactionTimeout <= 2 * MINUTE && SECOND / 100 <= registry.pollInterval <= 5 * SECOND
    }

    /** In a reachable state that the objects hold, a handler may be called for any unused task, at any later time. */
    lemma Ready(s: State, now: Time)
      requires Mirrors(s) && Reachable(Settings(), s) && s.clock <= now
      ensures store.InSync() && ServiceCatalog(s.process.operations, s.process.targets, s.process.policy)
      ensures Mirrors(s.(clock := now)) && Reachable(Settings(), s.(clock := now))
    {
      ReachableInv(Settings(), s);
      Advances(Settings(), s, now);
      RunSnoc(Settings(), s, [], Advance(now));
      ReachableGoesOn(Settings(), s, [] + [Advance(now)]);
    }

    /** The answer, the store and the file are exactly those of the steps of one confirmation of this very plan,
        credential, token and clock; nothing else changes. */
    method HandleConfirm(call: ConfirmCall, ghost s: State, ghost task: nat)
      returns (r: Result<(Grant, string), Problem>)
      requires Mirrors(s) && store.InSync() && task !in s.process.confirmations
      requires s.clock == call.now <= call.issueAt && FreshChoice(Settings(), store.grants, call.token, call.id)
      modifies store, store.file
      ensures match ConfirmAnswer(Settings(), registry.operations, actors, old(store.grants), call)
              case Err(p) =>
                r == Err(p) && store.grants == old(store.grants) && store.file.contents == old(store.file.contents)
              case Ok(stored) => r == Ok((stored.grant, call.token)) && store.grants == old(store.grants) + [stored]
      ensures r.Ok? ==>
                var g, approver := r.value.0, Authenticate(actors, call.actorToken).value;
                && g.approver == approver && approver.kind == Human && CONFIRM in approver.permissions
                && g.id == call.id && g.planID == call.plan.id && g.planDigest == call.plan.digest
                && g.subjectActorID == call.plan.actor.id && g.sessionID == call.plan.sessionID
                && g.action == call.plan.action && g.issuedAt == call.issueAt && g.usedAt == ZERO_TIME
      ensures var approver := Authenticate(actors, call.actorToken);
              r == Err(ApproverForbidden) <==>
                && ApprovedPlanProblem(store.hash, registry.operations, call.plan, call.now).None? && approver.Some?
                && (approver.value.kind != Human || CONFIRM !in approver.value.permissions)
      ensures Mirrors(Confirmed(Settings(), s, task, call))
      ensures Run(Settings(), s, ConfirmSteps(task, call)) == Confirmed(Settings(), s, task, call)
    {
      ConfirmRuns(Settings(), s, task, call);
      ApproverExactly(store.hash, registry.operations, actors, call);
      var approver := ScreenConfirmation(call);
      if approver.Err? {
        return Err(approver.error);
      }
      var issued := store.Issue(call.plan, approver.value, call.issueAt, Some(call.token), call.id, call.diskWorks);
      match issued {
        case Err(_) => return Err(ConfirmationRejected);
        case Ok(pair) => return Ok(pair);
      }
    }

    /** The checks before `Issue`: the plan first, then the approver. */
    method ScreenConfirmation(call: ConfirmCall) returns (r: Result<Actor, Problem>)
      ensures match ConfirmRefusal(store.hash, registry.operations, actors, call)
              case Some(p) => r == Err(p)
              case None =>
                Authenticate(actors, call.actorToken).Some? && r == Ok(Authenticate(actors, call.actorToken).value)
      ensures var approver := Authenticate(actors, call.actorToken);
              var accepted := ApprovedPlanProblem(store.hash, registry.operations, call.plan, call.now).None?;
              && (r == Err(ApproverUnauthorized) <==> accepted && approver.None?)
              && (r == Err(ApproverForbidden) <==>
                    && accepted && approver.Some?
                    && (approver.value.kind != Human || CONFIRM !in approver.value.permissions))
    {
      ApproverExactly(store.hash, registry.operations, actors, call);
      var problem := registry.ValidateApprovedPlan(store.hash, call.plan, call.now);
      if problem.Some? {
        return Err(problem.value);
      }
      var actor := Authenticate(actors, call.actorToken);
      if actor.None? {
        return Err(ApproverUnauthorized);
      }
      if !MayConfirm(actor.value) {
        return Err(ApproverForbidden);
      }
      return Ok(actor.value);
    }

    /** The answer, the store and the file are exactly those of the steps of one execution of this very plan, token,
        credential and clock. The mutator is called only if its handler runs, and then as the transaction reports. */
    method HandleExecuteApproved(call: ExecuteCall, env: Transaction.Environment, cancelled: Option<Time>,
                                 ghost s: State, ghost task: nat)
      returns (r: Response, w: Transaction.World)
      requires Mirrors(s) && store.InSync() && Configured() && task !in s.process.executions
      requires ServiceCatalog(s.process.operations, s.process.targets, s.process.policy)
      requires s.clock == call.now <= call.consumeAt <= call.enterAt
      modifies store, store.file
      ensures match ConsumeAnswer(Settings(), registry.operations, actors, old(store.grants), call)
              case Err(p) =>
                r == Rejected(p) && store.grants == old(store.grants) && store.file.contents == old(store.file.contents)
              case Ok(i) =>
                && store.grants == Used(old(store.grants), i, call.consumeAt)
                && match FateOf(call)
                   case Expires => r == Rejected(ExpiredPlan)
                   case Panics => r == Panicked
                   case Runs => Performed(call.plan.action, UnitOf(call.plan), call.enterAt, env, cancelled, r, w)
      ensures var executor := Authenticate(actors, call.actorToken);
              r == Rejected(MutationForbidden) <==>
                executor.None? || executor.value.kind == Tci || EXECUTE_MUTATE !in executor.value.permissions
      ensures r.Ran? ==> call.enterAt < call.plan.expiresAt && Trimmed(call.plan.action)
      ensures !r.Ran? ==> w.calls == []
      ensures Mirrors(Executed(Settings(), s, task, call))
      ensures Run(Settings(), s, ExecuteSteps(task, call)) == Executed(Settings(), s, task, call)
    {
      ExecuteRuns(Settings(), s, task, call);
      ForbiddenExactly(store.hash, registry.operations, actors, call);
      w := Transaction.Fresh(call.enterAt);
      var executor := Admit(call);
      if executor.Err? {
        return Rejected(executor.error), w;
      }
      RevalidationOnlyExpires(store.hash, registry.operations, call.plan, call.now, call.enterAt);
      r, w := ExecuteApproved(call.plan, executor.value, call.enterAt, env, cancelled, s);
    }

    /** The handler ran the transaction of the action on the unit, which is a target, and answers with its outcome. */
    ghost predicate Performed(action: string, unit: string, now: Time, env: Transaction.Environment,
                              cancelled: Option<Time>, r: Response, w: Transaction.World)
      requires Configured()
      reads registry
    {
      && r.Ran? && unit in registry.serviceTargets
      && Transaction.Reports(env, registry.serviceTargets[unit], registry.transactionTimeout, registry.pollInterval,
                             action, unit, now, cancelled, r.outcome, w)
    }

    /** The checks before the handler, ending in the consumption of the grant. */
    method Admit(call: ExecuteCall) returns (r: Result<Actor, Problem>)
      requires store.InSync()
      modifies store, store.file
      ensures store.InSync()
      ensures match ConsumeAnswer(Settings(), registry.operations, actors, old(store.grants), call)
              case Err(p) =>
                r == Err(p) && store.grants == old(store.grants) && store.file.contents == old(store.file.contents)
              case Ok(i) =>
                && Authenticate(actors, call.actorToken).Some? && r == Ok(Authenticate(actors, call.actorToken).value)
                && store.grants == Used(old(store.grants), i, call.consumeAt)
    {
      r := ScreenExecution(call);
      if r.Err? {
        return;
      }
      var consumed :=
        store.Consume(call.token, call.plan, call.plan.actor.id, call.plan.action, call.consumeAt, call.diskWorks);
      if consumed.Err? {
        r := Err(ConfirmationRejected);
      }
    }

    /** The checks before `Consume`: the executor first, then the plan. */
    method ScreenExecution(call: ExecuteCall) returns (r: Result<Actor, Problem>)
      ensures match ExecuteRefusal(store.hash, registry.operations, actors, call)
              case Some(p) => r == Err(p)
              case None =>
                Authenticate(actors, call.actorToken).Some? && r == Ok(Authenticate(actors, call.actorToken).value)
      ensures var executor := Authenticate(actors, call.actorToken);
              r == Err(MutationForbidden) <==>
                executor.None? || executor.value.kind == Tci || EXECUTE_MUTATE !in executor.value.permissions
    {
      ForbiddenExactly(store.hash, registry.operations, actors, call);
      var executor := Authenticate(actors, call.actorToken);
      if executor.None? || !MayMutate(executor.value) {
        return Err(MutationForbidden);
      }
      var problem := registry.ValidateApprovedPlan(store.hash, call.plan, call.now);
      if problem.Some? {
        return Err(problem.value);
      }
      return Ok(executor.value);
    }

    /** Registry.ExecuteApproved: authorize, revalidate, look the raw action up, run its handler. */
    method ExecuteApproved(plan: OperationPlan, executor: Actor, now: Time, env: Transaction.Environment,
                           cancelled: Option<Time>, ghost s: State)
      returns (r: Response, w: Transaction.World)
      requires s.process.Up? && s.process.operations == registry.operations
               && s.process.targets == registry.serviceTargets
      requires ServiceCatalog(s.process.operations, s.process.targets, s.process.policy) && Configured()
      ensures var problem := ApprovedPlanProblem(store.hash, registry.operations, plan, now);
              if executor.kind == Tci || EXECUTE_MUTATE !in executor.permissions then r == Rejected(MutationForbidden)
              else if problem.Some? then r == Rejected(problem.value)
              else if Trimmed(plan.action) then
                plan.action in registry.operations && Performed(plan.action, UnitOf(plan), now, env, cancelled, r, w)
              else r.Panicked? && plan.action !in registry.operations
      ensures !r.Ran? ==> w.calls == []
    {
      w := Transaction.Fresh(now);
      if !MayMutate(executor) {
        return Rejected(MutationForbidden), w;
      }
      var problem := registry.ValidateApprovedPlan(store.hash, plan, now);
      if problem.Some? {
        return Rejected(problem.value), w;
      }
      ghost var cfg := Settings();
      HandlerFoundIffTrimmed(store.hash, registry.operations, registry.serviceTargets, s.process.policy, plan, now);
      if plan.action !in registry.operations {
        return Panicked, w;
      }
      EntryFacts(cfg, registry.operations, registry.serviceTargets, s.process.policy, plan, now);
      r, w := RunHandler(registry.operations[plan.action].handler.action, plan, now, env, cancelled);
    }

    method RunHandler(action: string, plan: OperationPlan, now: Time, env: Transaction.Environment,
                      cancelled: Option<Time>)
      returns (r: Response, w: Transaction.World)
      requires ExactParameters(plan.parameters) == Some(map[UNIT := UnitOf(plan)])
      requires UnitOf(plan) in registry.serviceTargets && Configured()
      ensures Performed(action, UnitOf(plan), now, env, cancelled, r, w)
    {
      var parameters := ReadParameters(plan.parameters);
      var outcome;
      outcome, w := Transaction.RunServiceTransaction(
        env, registry.serviceTargets, registry.transactionTimeout, registry.pollInterval, action,
        parameters.value[UNIT], now, cancelled);
      r := Ran(outcome);
    }

    /** Registry.Execute behind handleExecute: a confirmation-required operation is refused, whatever the request
        says. */
    method HandleExecute(request: OperationRequest, ghost s: State) returns (r: Result<Handler, Problem>)
      requires s.process.Up? && s.process.operations == registry.operations
      requires ServiceCatalog(s.process.operations, s.process.targets, s.process.policy)
      ensures match Trim(request.action)
              case "" => r == Err(InvalidAction)
              case "system.snapshot" =>
                r == if request.parameters == map[] then Ok(SnapshotHandler) else Err(InvalidParameters)
              case "service.status" =>
                r == if request.parameters.Keys == {"unit"} && IsServiceUnit(request.parameters["unit"])
                     then Ok(StatusHandler) else Err(InvalidParameters)
              case "service.start" => r == Err(ConfirmationVerifierRequired)
              case "service.stop" => r == Err(ConfirmationVerifierRequired)
              case "service.restart" => r == Err(ConfirmationVerifierRequired)
              case _ => r == Err(UnknownAction)
      ensures r.Ok? ==> r.value == SnapshotHandler || r.value == StatusHandler
      ensures IsMutation(Trim(request.action)) ==> r == Err(ConfirmationVerifierRequired)
      ensures r.Ok? <==> Validate(registry.operations, request, true).Ok?
    {
      var admitted := registry.ValidateRequest(request, true);
      ExecuteNeverMutates(s.process.operations, s.process.targets, s.process.policy, request);
      OrdinaryAdmission(s.process.operations, s.process.targets, s.process.policy, request);
      match admitted {
        case Err(problem) => return Err(problem);
        case Ok(operation) => return Ok(operation.handler);
      }
    }
  }

  /** How the broker comes up: policy, grant store, registry, mutations. It comes up exactly when each of them does;
      then it holds the state that a restart from the file leads to, with no request in flight, and keeps the file as
      it is. */
  method Start(policyPath: string, policyFile: PolicyFile, storePath: string, file: GrantFile, ttl: Time,
               hash: PlanHash, tokenHash: TokenHash, size: EncodedSize, timeout: Time, interval: Time,
               actors: Authenticator, ghost s: State)
    returns (r: Option<Server>, ghost policy: ServicePolicy, ghost units: seq<string>)
    requires s.process.Down? && s.disk == file.contents
    ensures r.Some? <==>
              && (Blank(policyPath) || FileProblem(policyFile).None?)
              && !Blank(storePath) && 0 < ttl <= MAX_GRANT_TTL && LoadResult(size, file.contents).Ok?
              && SECOND <= timeout <= 2 * MINUTE && SECOND / 100 <= interval <= 5 * SECOND
    ensures r.Some? ==>
              && fresh(r.value) && r.value.store.file == file
              && r.value.Settings() == Config(hash, tokenHash, size, ttl)
              && r.value.Configured() && LegalPolicy(policy, units)
              && r.value.Mirrors(Apply(r.value.Settings(), s, Restart(policy, units, actors)))
              && var p := Apply(r.value.Settings(), s, Restart(policy, units, actors)).process;
                 p.confirmations == map[] && p.executions == map[]
  {
    policy, units := map[], [];
    var loaded := LoadPolicy(policyPath, policyFile);
    if loaded.Err? {
      return None, policy, units;
    }
    policy := loaded.value;
    var store := GrantStore.Open(storePath, file, ttl, hash, tokenHash, size);
    if store.Err? {
      return None, policy, units;
    }
    var registry := new Registry();
    var error := registry.EnableServiceMutations(true, true, loaded.value, timeout, interval);
    if error.Some? {
      return None, policy, units;
    }
    units :| registry.operations == WithMutations(READ_OPERATIONS, units) && forall u :: u in units <==> u in policy;
    var server := new Server(registry, store.value, actors, size);
    Restarts(server.Settings(), s, policy, units, actors);
    return Some(server), policy, units;
  }
}
