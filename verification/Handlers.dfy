/** One handler as the steps of its task: what it answers, and the state its steps lead to, stated outright. */
module Handlers {
  import opened Text
  import opened Types
  import opened Plans
  import opened Policy
  import opened Broker
  import opened Grants
  import opened Protocol
  import opened Safety
  import opened Guarantees

  /** A confirmation request with what the world supplies to it: the clock at validation and at `Issue`, the random
      token and ID, and whether the write works. */
  datatype ConfirmCall = ConfirmCall(
    plan: OperationPlan, actorToken: string, now: Time, issueAt: Time, token: string, id: string, diskWorks: bool)

  /** An approved-execution request likewise: the clock at validation, at `Consume` and at the handler. */
  datatype ExecuteCall = ExecuteCall(
    plan: OperationPlan, token: string, actorToken: string, now: Time, consumeAt: Time, enterAt: Time, diskWorks: bool)

  function WriteOf(diskWorks: bool): Write {
    if diskWorks then WriteSucceeds else WriteFails
  }

  function ConfirmSteps(task: nat, call: ConfirmCall): seq<Step> {
    [ConfirmArrives(task, call.plan, call.actorToken), ConfirmValidates(task), ConfirmAuthenticates(task),
     Advance(call.issueAt), ConfirmIssues(task, call.token, call.id, WriteOf(call.diskWorks))]
  }

  function ExecuteSteps(task: nat, call: ExecuteCall): seq<Step> {
    [ExecuteArrives(task, call.plan, call.token, call.actorToken), ExecuteAuthenticates(task), ExecuteValidates(task),
     Advance(call.consumeAt), ExecuteConsumes(task, WriteOf(call.diskWorks)), Advance(call.enterAt),
     ExecuteEnters(task)]
  }

  // ---- What the handlers answer ----

  /** Why handleConfirm refuses before it issues: the plan first, then the approver's credential, then their
      authority. */
  function ConfirmRefusal(hash: PlanHash, operations: Operations, actors: Authenticator,
                          call: ConfirmCall): Option<Problem> {
    var problem := ApprovedPlanProblem(hash, operations, call.plan, call.now);
    var actor := Authenticate(actors, call.actorToken);
    if problem.Some? then problem
    else if actor.None? then Some(ApproverUnauthorized)
    else if !MayConfirm(actor.value) then Some(ApproverForbidden)
    else None
  }

  /** Why handleExecuteApproved refuses before it consumes: the executor first, then the plan. */
  function ExecuteRefusal(hash: PlanHash, operations: Operations, actors: Authenticator,
                          call: ExecuteCall): Option<Problem> {
    var executor := Authenticate(actors, call.actorToken);
    if executor.None? || !MayMutate(executor.value) then Some(MutationForbidden)
    else ApprovedPlanProblem(hash, operations, call.plan, call.now)
  }

  /** A credential is known exactly if its trimmed text is one to 4096 bytes long and names an actor. */
  lemma AuthenticateExactly(actors: Authenticator, token: string, a: Actor)
    ensures Authenticate(actors, token) == Some(a) <==>
              Trim(token) != "" && ByteLength(Trim(token)) <= 4096 && actors(Trim(token)) == Some(a)
  {}

  /** Whom the execution endpoint turns away: exactly the unknown, the TCI actors, and those without the permission. */
  lemma ForbiddenExactly(hash: PlanHash, operations: Operations, actors: Authenticator, call: ExecuteCall)
    ensures ExecuteRefusal(hash, operations, actors, call) == Some(MutationForbidden) <==>
              Authenticate(actors, call.actorToken).None?
              || Authenticate(actors, call.actorToken).value.kind == Tci
              || EXECUTE_MUTATE !in Authenticate(actors, call.actorToken).value.permissions
    ensures ExecuteRefusal(hash, operations, actors, call) !in {Some(ConfirmationRejected), Some(ApproverForbidden),
                                                                Some(ApproverUnauthorized)}
  {
    PlanProblems(hash, operations, call.plan, call.now);
  }

  /** Whom the confirmation endpoint turns away, once the plan is accepted: exactly the unknown, the actors that are not
      human, and those without the permission. */
  lemma ApproverExactly(hash: PlanHash, operations: Operations, actors: Authenticator, call: ConfirmCall)
    ensures var accepted := ApprovedPlanProblem(hash, operations, call.plan, call.now).None?;
            var approver := Authenticate(actors, call.actorToken);
            var refusal := ConfirmRefusal(hash, operations, actors, call);
            && (refusal == Some(ApproverUnauthorized) <==> accepted && approver.None?)
            && (refusal == Some(ApproverForbidden) <==>
                  && accepted && approver.Some?
                  && (approver.value.kind != Human || CONFIRM !in approver.value.permissions))
            && (refusal == None <==>
                  accepted && approver.Some? && approver.value.kind == Human && CONFIRM in approver.value.permissions)
            && refusal != Some(ConfirmationRejected)
  {
    PlanProblems(hash, operations, call.plan, call.now);
  }

  /** Exactly when a confirmation is accepted. */
  lemma ConfirmExactly(cfg: Config, operations: Operations, actors: Authenticator, grants: seq<StoredGrant>,
                       call: ConfirmCall)
    ensures ConfirmAnswer(cfg, operations, actors, grants, call).Ok? <==>
              && ApprovedPlanProblem(cfg.hash, operations, call.plan, call.now).None?
              && call.issueAt < call.plan.expiresAt && call.diskWorks
              && Authenticate(actors, call.actorToken).Some?
              && var approver := Authenticate(actors, call.actorToken).value;
                 && approver.kind == Human && CONFIRM in approver.permissions && approver.id != call.plan.actor.id
                 && forall i :: 0 <= i < |grants| ==>
                      !(grants[i].grant.planID == call.plan.id
                        && EqualFold(grants[i].grant.planDigest, call.plan.digest))
  {
    ApproverExactly(cfg.hash, operations, actors, call);
    if ConfirmRefusal(cfg.hash, operations, actors, call).None? {
      IssueExactly(cfg.hash, grants, call.plan, Authenticate(actors, call.actorToken).value, call.issueAt);
      BoundsExactly(cfg.hash, call.plan, call.now);
    }
  }

  /** Exactly when an execution consumes the i-th grant. */
  lemma ExecuteExactly(cfg: Config, operations: Operations, actors: Authenticator, grants: seq<StoredGrant>,
                       call: ExecuteCall, i: nat)
    requires i < |grants|
    ensures ConsumeAnswer(cfg, operations, actors, grants, call) == Ok(i) <==>
              && Authenticate(actors, call.actorToken).Some?
              && Authenticate(actors, call.actorToken).value.kind != Tci
              && EXECUTE_MUTATE in Authenticate(actors, call.actorToken).value.permissions
              && ApprovedPlanProblem(cfg.hash, operations, call.plan, call.now).None?
              && call.consumeAt < call.plan.expiresAt && call.diskWorks && Trim(call.token) != ""
              && DecodeSHA256(grants[i].tokenSHA256) == Some(cfg.tokenHash(call.token))
              && (forall j :: 0 <= j < i ==> DecodeSHA256(grants[j].tokenSHA256) != Some(cfg.tokenHash(call.token)))
              && var g := grants[i].grant;
                 && g.usedAt == ZERO_TIME && call.consumeAt < g.expiresAt
                 && g.planID == call.plan.id && EqualFold(g.planDigest, call.plan.digest)
                 && g.subjectActorID == call.plan.actor.id && g.sessionID == call.plan.sessionID
                 && g.action == call.plan.action
  {
    ConsumeExactly(cfg.hash, cfg.tokenHash, grants, call.token, call.plan, call.plan.actor.id, call.plan.action,
                   call.consumeAt, i);
    BoundsExactly(cfg.hash, call.plan, call.now);
  }

  /** What `Issue` makes of a screened confirmation. */
  function IssueAnswer(cfg: Config, grants: seq<StoredGrant>, approver: Actor, call: ConfirmCall)
    : Result<StoredGrant, Problem>
  {
    if call.diskWorks && IssueProblem(cfg.hash, grants, call.plan, approver, call.issueAt).None?
    then Ok(NewGrant(cfg.tokenHash, cfg.ttl, call.plan, approver, call.issueAt, call.token, call.id))
    else Err(ConfirmationRejected)
  }

  /** The grant handleConfirm adds, or its refusal. */
  function ConfirmAnswer(cfg: Config, operations: Operations, actors: Authenticator, grants: seq<StoredGrant>,
                         call: ConfirmCall)
    : Result<StoredGrant, Problem>
  {
    match ConfirmRefusal(cfg.hash, operations, actors, call)
    case Some(p) => Err(p)
    case None => IssueAnswer(cfg, grants, Authenticate(actors, call.actorToken).value, call)
  }

  /** The grant handleExecuteApproved consumes, or its refusal. */
  function ConsumeAnswer(cfg: Config, operations: Operations, actors: Authenticator, grants: seq<StoredGrant>,
                         call: ExecuteCall)
    : (r: Result<nat, Problem>)
    ensures r.Ok? ==> r.value < |grants|
  {
    match ExecuteRefusal(cfg.hash, operations, actors, call)
    case Some(p) => Err(p)
    case None => SpendAnswer(cfg, grants, call)
  }

  function SpendAnswer(cfg: Config, grants: seq<StoredGrant>, call: ExecuteCall): (r: Result<nat, Problem>)
    ensures r.Ok? ==> r.value < |grants|
  {
    var plan := call.plan;
    var decision :=
      ConsumeDecision(cfg.hash, cfg.tokenHash, grants, call.token, plan, plan.actor.id, plan.action, call.consumeAt);
    if call.diskWorks && decision.Ok? then Ok(decision.value) else Err(ConfirmationRejected)
  }

  /** What becomes of a consumed execution. */
  datatype Fate = Expires | Runs | Panics

  function FateOf(call: ExecuteCall): Fate {
    if call.plan.expiresAt <= call.enterAt then Expires else if Trimmed(call.plan.action) then Runs else Panics
  }

  // ---- What the handlers leave ----

  /** The state handleConfirm leaves: its task is gone and the clock has moved on; on acceptance the one new grant is in
      memory and on disk, and the history has its issue. */
  function Confirmed(cfg: Config, s: State, task: nat, call: ConfirmCall): State
    requires s.process.Up?
  {
    var p, gone := s.process, WithoutConfirmation(s, task).(clock := call.issueAt);
    match ConfirmAnswer(cfg, p.operations, p.actors, p.grants, call)
    case Err(_) => gone
    case Ok(stored) =>
      var approver := Authenticate(p.actors, call.actorToken).value;
      Issued(gone, IssueRecord(call.plan, approver, call.token, call.id, call.issueAt, p.operations, call.now), stored)
  }

  function Issued(gone: State, record: IssueRecord, stored: StoredGrant): State
    requires gone.process.Up?
  {
    var grants := gone.process.grants + [stored];
    gone.(disk := Saved(grants), process := gone.process.(grants := grants),
          history := gone.history.(issued := gone.history.issued + [record]))
  }

  /** The state handleExecuteApproved leaves: its task is gone and the clock has moved on; once its grant is consumed,
      that grant alone is marked in memory and on disk, the history has the consumption, and, exactly if the handler
      runs, its entry on behalf of that consumption. */
  function Executed(cfg: Config, s: State, task: nat, call: ExecuteCall): State
    requires s.process.Up?
  {
    var p, gone := s.process, WithoutExecution(s, task).(clock := call.enterAt);
    match ConsumeAnswer(cfg, p.operations, p.actors, p.grants, call)
    case Err(_) => gone
    case Ok(i) => Consumed(gone, i, Authenticate(p.actors, call.actorToken).value, call)
  }

  function Consumed(gone: State, i: nat, executor: Actor, call: ExecuteCall): State
    requires gone.process.Up? && i < |gone.process.grants|
  {
    var grants, h := Used(gone.process.grants, i, call.consumeAt), gone.history;
    var entry := EntryRecord(|h.consumed|, call.plan, executor, call.plan.action, UnitOf(call.plan), call.enterAt);
    gone.(disk := Saved(grants), process := gone.process.(grants := grants),
          history := h.(consumed := h.consumed + [ConsumeRecord(i, call.plan, executor, call.consumeAt)],
                        entered := h.entered + if FateOf(call).Runs? then [entry] else []))
  }

  lemma RunSnoc(cfg: Config, s: State, steps: seq<Step>, step: Step)
    ensures Run(cfg, s, steps + [step]) == Apply(cfg, Run(cfg, s, steps), step)
  {
    assert (steps + [step])[..|steps|] == steps;
  }

  // ---- One task's steps, seen from its own state ----

  function WithConfirmation(s: State, task: nat, c: Confirmation): State
    requires s.process.Up?
  {
    s.(process := s.process.(confirmations := s.process.confirmations[task := c]))
  }

  function WithoutConfirmation(s: State, task: nat): State
    requires s.process.Up?
  {
    s.(process := s.process.(confirmations := s.process.confirmations - {task}))
  }

  function WithExecution(s: State, task: nat, x: Execution): State
    requires s.process.Up?
  {
    s.(process := s.process.(executions := s.process.executions[task := x]))
  }

  function WithoutExecution(s: State, task: nat): State
    requires s.process.Up?
  {
    s.(process := s.process.(executions := s.process.executions - {task}))
  }

  lemma ConfirmationReplaced(s: State, task: nat, c: Confirmation, d: Confirmation)
    requires s.process.Up?
    ensures WithConfirmation(WithConfirmation(s, task, c), task, d) == WithConfirmation(s, task, d)
    ensures WithoutConfirmation(WithConfirmation(s, task, c), task) == WithoutConfirmation(s, task)
  {
    var m: map<nat, Confirmation> := s.process.confirmations;
    var once: map<nat, Confirmation> := m[task := c];
    assert once[task := d] == m[task := d];
    assert once - {task} == m - {task};
  }

  lemma ExecutionReplaced(s: State, task: nat, x: Execution, y: Execution)
    requires s.process.Up?
    ensures WithExecution(WithExecution(s, task, x), task, y) == WithExecution(s, task, y)
    ensures WithoutExecution(WithExecution(s, task, x), task) == WithoutExecution(s, task)
  {
    var m: map<nat, Execution> := s.process.executions;
    var once: map<nat, Execution> := m[task := x];
    assert once[task := y] == m[task := y];
    assert once - {task} == m - {task};
  }

  lemma ConfirmationArrives(cfg: Config, s: State, task: nat, plan: OperationPlan, actorToken: string)
    requires s.process.Up? && task !in s.process.confirmations
    ensures Apply(cfg, s, ConfirmArrives(task, plan, actorToken))
              == WithConfirmation(s, task, ConfirmReceived(plan, actorToken))
  {}

  lemma ConfirmationValidates(cfg: Config, s: State, task: nat)
    requires s.process.Up? && task in s.process.confirmations && s.process.confirmations[task].ConfirmReceived?
    ensures var c := s.process.confirmations[task];
            Apply(cfg, s, ConfirmValidates(task)) ==
              if ApprovedPlanProblem(cfg.hash, s.process.operations, c.plan, s.clock).Some?
                then WithoutConfirmation(s, task)
              else WithConfirmation(s, task, ConfirmValidated(c.plan, c.actorToken, s.clock))
  {}

  lemma ConfirmationAuthenticates(cfg: Config, s: State, task: nat)
    requires s.process.Up? && task in s.process.confirmations && s.process.confirmations[task].ConfirmValidated?
    ensures var c := s.process.confirmations[task];
            var a := Authenticate(s.process.actors, c.actorToken);
            Apply(cfg, s, ConfirmAuthenticates(task)) ==
              if a.None? || !MayConfirm(a.value) then WithoutConfirmation(s, task)
              else WithConfirmation(s, task, ConfirmAllowed(c.plan, a.value, c.validatedAt))
  {}

  lemma ConfirmationIssues(cfg: Config, s: State, task: nat, token: string, id: string, write: Write)
    requires s.process.Up? && task in s.process.confirmations && s.process.confirmations[task].ConfirmAllowed?
    requires FreshChoice(cfg, s.process.grants, token, id)
    ensures Apply(cfg, s, ConfirmIssues(task, token, id, write)) == IssueStep(cfg, s, task, token, id, write)
  {}

  lemma ExecutionArrives(cfg: Config, s: State, task: nat, plan: OperationPlan, token: string, actorToken: string)
    requires s.process.Up? && task !in s.process.executions
    ensures Apply(cfg, s, ExecuteArrives(task, plan, token, actorToken))
              == WithExecution(s, task, ExecuteReceived(plan, token, actorToken))
  {}

  lemma ExecutionAuthenticates(cfg: Config, s: State, task: nat)
    requires s.process.Up? && task in s.process.executions && s.process.executions[task].ExecuteReceived?
    ensures var x := s.process.executions[task];
            var a := Authenticate(s.process.actors, x.actorToken);
            Apply(cfg, s, ExecuteAuthenticates(task)) ==
              if a.None? || !MayMutate(a.value) then WithoutExecution(s, task)
              else WithExecution(s, task, ExecuteAllowed(x.plan, x.token, a.value))
  {}

  lemma ExecutionValidates(cfg: Config, s: State, task: nat)
    requires s.process.Up? && task in s.process.executions && s.process.executions[task].ExecuteAllowed?
    ensures var x := s.process.executions[task];
            Apply(cfg, s, ExecuteValidates(task)) ==
              if ApprovedPlanProblem(cfg.hash, s.process.operations, x.plan, s.clock).Some?
                then WithoutExecution(s, task)
              else WithExecution(s, task, ExecuteValidated(x.plan, x.token, x.executor, s.clock))
  {
    ExecutionValidatesStep(cfg, s, task);
    assert Apply(cfg, s, ExecuteValidates(task)) == ExecuteStep(cfg, s, ExecuteValidates(task));
  }

  lemma ExecutionValidatesStep(cfg: Config, s: State, task: nat)
    requires s.process.Up? && task in s.process.executions && s.process.executions[task].ExecuteAllowed?
    ensures var x := s.process.executions[task];
            ExecuteStep(cfg, s, ExecuteValidates(task)) ==
              if ApprovedPlanProblem(cfg.hash, s.process.operations, x.plan, s.clock).Some?
                then WithoutExecution(s, task)
              else WithExecution(s, task, ExecuteValidated(x.plan, x.token, x.executor, s.clock))
  {}

  lemma ExecutionConsumes(cfg: Config, s: State, task: nat, write: Write)
    requires s.process.Up? && task in s.process.executions && s.process.executions[task].ExecuteValidated?
    ensures Apply(cfg, s, ExecuteConsumes(task, write)) == ConsumeStep(cfg, s, task, write)
  {}


  lemma ConfirmationIdle(cfg: Config, s: State, task: nat, token: string, id: string, write: Write)
    requires s.process.Up? && task !in s.process.confirmations
    ensures Apply(cfg, s, ConfirmAuthenticates(task)) == s && Apply(cfg, s, ConfirmIssues(task, token, id, write)) == s
  {}

  lemma ExecutionIdle(cfg: Config, s: State, task: nat, write: Write)
    requires s.process.Up? && task !in s.process.executions
    ensures Apply(cfg, s, ExecuteValidates(task)) == s && Apply(cfg, s, ExecuteConsumes(task, write)) == s
    ensures Apply(cfg, s, ExecuteEnters(task)) == s
  {}

  /** What entering leaves, in the terms of the handler's own checks. */
  lemma EntersUnlessRefused(cfg: Config, s: State, task: nat)
    requires s.process.Up? && task in s.process.executions && s.process.executions[task].ExecuteConsumed?
    requires ServiceCatalog(s.process.operations, s.process.targets, s.process.policy)
    ensures var x := s.process.executions[task];
            EnterStep(cfg, s, task) ==
              if MayMutate(x.executor) && PassedAt(cfg, s.process.operations, x.plan, s.clock)
                && x.plan.action in s.process.operations
              then
                var record := EntryRecord(x.consumption, x.plan, x.executor, x.plan.action, UnitOf(x.plan), s.clock);
                WithoutExecution(s, task).(history := s.history.(entered := s.history.entered + [record]))
              else WithoutExecution(s, task)
  {
    var p, x := s.process, s.process.executions[task];
    if PassedAt(cfg, p.operations, x.plan, s.clock) && x.plan.action in p.operations {
      EntryFacts(cfg, p.operations, p.targets, p.policy, x.plan, s.clock);
    }
  }

  lemma ScreenedProposal(cfg: Config, s: State, task: nat, plan: OperationPlan, actorToken: string)
    requires s.process.Up?
    ensures Apply(cfg, WithConfirmation(s, task, ConfirmReceived(plan, actorToken)), ConfirmValidates(task)) ==
              if ApprovedPlanProblem(cfg.hash, s.process.operations, plan, s.clock).Some?
                then WithoutConfirmation(s, task)
              else WithConfirmation(s, task, ConfirmValidated(plan, actorToken, s.clock))
  {
    var received := ConfirmReceived(plan, actorToken);
    ConfirmationValidates(cfg, WithConfirmation(s, task, received), task);
    ConfirmationReplaced(s, task, received, ConfirmValidated(plan, actorToken, s.clock));
  }

  lemma ScreenedApprover(cfg: Config, s: State, task: nat, plan: OperationPlan, actorToken: string)
    requires s.process.Up?
    ensures var a := Authenticate(s.process.actors, actorToken);
            Apply(cfg, WithConfirmation(s, task, ConfirmValidated(plan, actorToken, s.clock)),
                  ConfirmAuthenticates(task)) ==
              if a.None? || !MayConfirm(a.value) then WithoutConfirmation(s, task)
              else WithConfirmation(s, task, ConfirmAllowed(plan, a.value, s.clock))
  {
    var validated := ConfirmValidated(plan, actorToken, s.clock);
    ConfirmationAuthenticates(cfg, WithConfirmation(s, task, validated), task);
    var a := Authenticate(s.process.actors, actorToken);
    ConfirmationReplaced(s, task, validated, if a.Some? then ConfirmAllowed(plan, a.value, s.clock) else validated);
  }

  lemma ScreenedExecutor(cfg: Config, s: State, task: nat, plan: OperationPlan, token: string, actorToken: string)
    requires s.process.Up?
    ensures var a := Authenticate(s.process.actors, actorToken);
            Apply(cfg, WithExecution(s, task, ExecuteReceived(plan, token, actorToken)), ExecuteAuthenticates(task)) ==
              if a.None? || !MayMutate(a.value) then WithoutExecution(s, task)
              else WithExecution(s, task, ExecuteAllowed(plan, token, a.value))
  {
    var received := ExecuteReceived(plan, token, actorToken);
    ExecutionAuthenticates(cfg, WithExecution(s, task, received), task);
    var a := Authenticate(s.process.actors, actorToken);
    ExecutionReplaced(s, task, received, if a.Some? then ExecuteAllowed(plan, token, a.value) else received);
  }

  lemma ScreenedPlan(cfg: Config, s: State, task: nat, plan: OperationPlan, token: string, executor: Actor)
    requires s.process.Up?
    ensures Apply(cfg, WithExecution(s, task, ExecuteAllowed(plan, token, executor)), ExecuteValidates(task)) ==
              if ApprovedPlanProblem(cfg.hash, s.process.operations, plan, s.clock).Some? then WithoutExecution(s, task)
              else WithExecution(s, task, ExecuteValidated(plan, token, executor, s.clock))
  {
    var allowed := ExecuteAllowed(plan, token, executor);
    ExecutionValidates(cfg, WithExecution(s, task, allowed), task);
    ExecutionReplaced(s, task, allowed, ExecuteValidated(plan, token, executor, s.clock));
  }

  /** The checks before `Issue`. */
  lemma ScreenedConfirmation(cfg: Config, s: State, task: nat, call: ConfirmCall)
    requires s.process.Up? && task !in s.process.confirmations && s.clock == call.now
    ensures var arrived := Apply(cfg, s, ConfirmArrives(task, call.plan, call.actorToken));
            Apply(cfg, Apply(cfg, arrived, ConfirmValidates(task)), ConfirmAuthenticates(task)) ==
              if ConfirmRefusal(cfg.hash, s.process.operations, s.process.actors, call).Some?
                then WithoutConfirmation(s, task)
              else WithConfirmation(s, task,
                                    ConfirmAllowed(call.plan, Authenticate(s.process.actors, call.actorToken).value,
                                                   call.now))
  {
    ConfirmationArrives(cfg, s, task, call.plan, call.actorToken);
    ScreenedProposal(cfg, s, task, call.plan, call.actorToken);
    if ApprovedPlanProblem(cfg.hash, s.process.operations, call.plan, s.clock).None? {
      ScreenedApprover(cfg, s, task, call.plan, call.actorToken);
    } else {
      ConfirmationIdle(cfg, WithoutConfirmation(s, task), task, call.token, call.id, WriteOf(call.diskWorks));
    }
  }

  /** The checks before `Consume`. */
  lemma ScreenedExecution(cfg: Config, s: State, task: nat, call: ExecuteCall)
    requires s.process.Up? && task !in s.process.executions && s.clock == call.now
    ensures var arrived := Apply(cfg, s, ExecuteArrives(task, call.plan, call.token, call.actorToken));
            Apply(cfg, Apply(cfg, arrived, ExecuteAuthenticates(task)), ExecuteValidates(task)) ==
              if ExecuteRefusal(cfg.hash, s.process.operations, s.process.actors, call).Some?
                then WithoutExecution(s, task)
              else WithExecution(s, task,
                                 ExecuteValidated(call.plan, call.token,
                                                  Authenticate(s.process.actors, call.actorToken).value, call.now))
  {
    ExecutionArrives(cfg, s, task, call.plan, call.token, call.actorToken);
    ScreenedExecutor(cfg, s, task, call.plan, call.token, call.actorToken);
    var a := Authenticate(s.process.actors, call.actorToken);
    if a.Some? && MayMutate(a.value) {
      ScreenedPlan(cfg, s, task, call.plan, call.token, a.value);
    } else {
      ExecutionIdle(cfg, WithoutExecution(s, task), task, WriteOf(call.diskWorks));
    }
  }

  lemma IssuesAsAnswered(cfg: Config, s: State, task: nat, approver: Actor, call: ConfirmCall)
    requires s.process.Up?
    ensures var t := WithConfirmation(s, task, ConfirmAllowed(call.plan, approver, call.now)).(clock := call.issueAt);
            var gone := WithoutConfirmation(s, task).(clock := call.issueAt);
            IssueStep(cfg, t, task, call.token, call.id, WriteOf(call.diskWorks)) ==
              match IssueAnswer(cfg, s.process.grants, approver, call)
              case Err(_) => gone
              case Ok(stored) =>
                Issued(gone,
                       IssueRecord(call.plan, approver, call.token, call.id, call.issueAt, s.process.operations,
                                   call.now), stored)
  {
    var allowed := ConfirmAllowed(call.plan, approver, call.now);
    ConfirmationReplaced(s, task, allowed, allowed);
  }

  lemma FiveSteps(cfg: Config, s: State, a: Step, b: Step, c: Step, d: Step, e: Step)
    ensures Run(cfg, s, [a, b, c, d, e]) == Apply(cfg, Apply(cfg, Apply(cfg, Apply(cfg, Apply(cfg, s, a), b), c), d), e)
  {
    assert [] + [a] == [a] && [a] + [b] == [a, b] && [a, b] + [c] == [a, b, c] && [a, b, c] + [d] == [a, b, c, d];
    assert [a, b, c, d] + [e] == [a, b, c, d, e];
    RunSnoc(cfg, s, [], a);
    RunSnoc(cfg, s, [a], b);
    RunSnoc(cfg, s, [a, b], c);
    RunSnoc(cfg, s, [a, b, c], d);
    RunSnoc(cfg, s, [a, b, c, d], e);
  }

  lemma Advances(cfg: Config, s: State, to: Time)
    requires s.clock <= to
    ensures Apply(cfg, s, Advance(to)) == s.(clock := to)
  {}

  /** The steps of a confirmation, run on their own, lead to exactly the state stated. */
  lemma ConfirmRuns(cfg: Config, s: State, task: nat, call: ConfirmCall)
    requires s.process.Up? && task !in s.process.confirmations && s.clock == call.now <= call.issueAt
    requires FreshChoice(cfg, s.process.grants, call.token, call.id)
    ensures Run(cfg, s, ConfirmSteps(task, call)) == Confirmed(cfg, s, task, call)
  {
    var write := WriteOf(call.diskWorks);
    FiveSteps(cfg, s, ConfirmArrives(task, call.plan, call.actorToken), ConfirmValidates(task),
              ConfirmAuthenticates(task),
              Advance(call.issueAt), ConfirmIssues(task, call.token, call.id, write));
    ScreenedConfirmation(cfg, s, task, call);
    if ConfirmRefusal(cfg.hash, s.process.operations, s.process.actors, call).Some? {
      Advances(cfg, WithoutConfirmation(s, task), call.issueAt);
      ConfirmationIdle(cfg, WithoutConfirmation(s, task).(clock := call.issueAt), task, call.token, call.id, write);
    } else {
      var approver := Authenticate(s.process.actors, call.actorToken).value;
      var t := WithConfirmation(s, task, ConfirmAllowed(call.plan, approver, call.now));
      Advances(cfg, t, call.issueAt);
      ConfirmationIssues(cfg, t.(clock := call.issueAt), task, call.token, call.id, write);
      IssuesAsAnswered(cfg, s, task, approver, call);
    }
  }

  lemma ConsumesAsAnswered(cfg: Config, s: State, task: nat, executor: Actor, call: ExecuteCall)
    requires s.process.Up?
    ensures var t := WithExecution(s, task,
                                   ExecuteValidated(call.plan, call.token, executor,
                                                    call.now)).(clock := call.consumeAt);
            ConsumeStep(cfg, t, task, WriteOf(call.diskWorks)) ==
              match SpendAnswer(cfg, s.process.grants, call)
              case Err(_) => WithoutExecution(s, task).(clock := call.consumeAt)
              case Ok(i) => Spending(s, task, i, executor, call)
  {
    var validated := ExecuteValidated(call.plan, call.token, executor, call.now);
    ExecutionReplaced(s, task, validated, ExecuteConsumed(call.plan, executor, call.now, |s.history.consumed|));
  }

  /** Between `Consume` and the handler. */
  function Spending(s: State, task: nat, i: nat, executor: Actor, call: ExecuteCall): State
    requires s.process.Up? && i < |s.process.grants|
  {
    var x := ExecuteConsumed(call.plan, executor, call.now, |s.history.consumed|);
    var grants := Used(s.process.grants, i, call.consumeAt);
    var t := WithExecution(s, task, x);
    t.(clock := call.consumeAt, disk := Saved(grants), process := t.process.(grants := grants),
       history := s.history.(consumed := s.history.consumed + [ConsumeRecord(i, call.plan, executor, call.consumeAt)]))
  }

  lemma EntersAsFated(cfg: Config, s: State, task: nat, i: nat, executor: Actor, call: ExecuteCall)
    requires s.process.Up? && i < |s.process.grants| && call.now <= call.enterAt
    requires ServiceCatalog(s.process.operations, s.process.targets, s.process.policy)
    requires MayMutate(executor) && ApprovedPlanProblem(cfg.hash, s.process.operations, call.plan, call.now).None?
    ensures EnterStep(cfg, Spending(s, task, i, executor, call).(clock := call.enterAt), task) ==
            Consumed(WithoutExecution(s, task).(clock := call.enterAt), i, executor, call)
  {
    var p := s.process;
    FateDecides(cfg, p.operations, p.targets, p.policy, call);
    EntersUnlessRefused(cfg, Spending(s, task, i, executor, call).(clock := call.enterAt), task);
    var x := ExecuteConsumed(call.plan, executor, call.now, |s.history.consumed|);
    ExecutionReplaced(s, task, x, x);
  }

  lemma FateDecides(cfg: Config, operations: Operations, targets: map<string, string>, policy: ServicePolicy,
                    call: ExecuteCall)
    requires ServiceCatalog(operations, targets, policy) && call.now <= call.enterAt
    requires ApprovedPlanProblem(cfg.hash, operations, call.plan, call.now).None?
    ensures PassedAt(cfg, operations, call.plan, call.enterAt) && call.plan.action in operations <==> FateOf(call).Runs?
  {
    RevalidationOnlyExpires(cfg.hash, operations, call.plan, call.now, call.enterAt);
    if !FateOf(call).Expires? {
      HandlerFoundIffTrimmed(cfg.hash, operations, targets, policy, call.plan, call.enterAt);
    }
  }

  lemma SevenSteps(cfg: Config, s: State, a: Step, b: Step, c: Step, d: Step, e: Step, f: Step, g: Step)
    ensures Run(cfg, s, [a, b, c, d, e, f, g]) == Apply(cfg, Apply(cfg, Run(cfg, s, [a, b, c, d, e]), f), g)
  {
    assert [a, b, c, d, e] + [f] == [a, b, c, d, e, f] && [a, b, c, d, e, f] + [g] == [a, b, c, d, e, f, g];
    RunSnoc(cfg, s, [a, b, c, d, e], f);
    RunSnoc(cfg, s, [a, b, c, d, e, f], g);
  }

  /** The steps of an approved execution up to its `Consume`. */
  lemma ConsumeRuns(cfg: Config, s: State, task: nat, call: ExecuteCall)
    requires s.process.Up? && task !in s.process.executions && s.clock == call.now <= call.consumeAt
    ensures var p := s.process;
            Run(cfg, s, ExecuteSteps(task, call)[..5]) ==
              match ConsumeAnswer(cfg, p.operations, p.actors, p.grants, call)
              case Err(_) => WithoutExecution(s, task).(clock := call.consumeAt)
              case Ok(i) => Spending(s, task, i, Authenticate(p.actors, call.actorToken).value, call)
  {
    var write := WriteOf(call.diskWorks);
    var arrives := ExecuteArrives(task, call.plan, call.token, call.actorToken);
    FiveSteps(cfg, s, arrives, ExecuteAuthenticates(task), ExecuteValidates(task), Advance(call.consumeAt),
              ExecuteConsumes(task, write));
    assert ExecuteSteps(task, call)[..5] ==
      [arrives, ExecuteAuthenticates(task), ExecuteValidates(task), Advance(call.consumeAt),
       ExecuteConsumes(task, write)];
    ScreenedExecution(cfg, s, task, call);
    if ExecuteRefusal(cfg.hash, s.process.operations, s.process.actors, call).Some? {
      Advances(cfg, WithoutExecution(s, task), call.consumeAt);
      ExecutionIdle(cfg, WithoutExecution(s, task).(clock := call.consumeAt), task, write);
    } else {
      var executor := Authenticate(s.process.actors, call.actorToken).value;
      var t := WithExecution(s, task, ExecuteValidated(call.plan, call.token, executor, call.now));
      Advances(cfg, t, call.consumeAt);
      ExecutionConsumes(cfg, t.(clock := call.consumeAt), task, write);
      ConsumesAsAnswered(cfg, s, task, executor, call);
    }
  }

  /** The steps of an approved execution, run on their own, lead to exactly the state stated. */
  lemma ExecuteRuns(cfg: Config, s: State, task: nat, call: ExecuteCall)
    requires s.process.Up? && task !in s.process.executions && s.clock == call.now <= call.consumeAt <= call.enterAt
    requires ServiceCatalog(s.process.operations, s.process.targets, s.process.policy)
    ensures Run(cfg, s, ExecuteSteps(task, call)) == Executed(cfg, s, task, call)
  {
    var all, p := ExecuteSteps(task, call), s.process;
    SevenSteps(cfg, s, all[0], all[1], all[2], all[3], all[4], all[5], all[6]);
    assert all[..5] == [all[0], all[1], all[2], all[3], all[4]];
    ConsumeRuns(cfg, s, task, call);
    var t := Run(cfg, s, all[..5]);
    Advances(cfg, t, call.enterAt);
    match ConsumeAnswer(cfg, p.operations, p.actors, p.grants, call) {
      case Err(_) => ExecutionIdle(cfg, t.(clock := call.enterAt), task, WriteOf(call.diskWorks));
      case Ok(i) =>
        ExecutionEnters(cfg, t.(clock := call.enterAt), task);
        EntersAsFated(cfg, s, task, i, Authenticate(p.actors, call.actorToken).value, call);
    }
  }

  // ---- One handler after another ----

  lemma {:induction false} ClockGrows(cfg: Config, s: State, steps: seq<Step>)
    ensures s.clock <= Run(cfg, s, steps).clock
  {
    if steps != [] {
      ClockGrows(cfg, s, steps[..|steps| - 1]);
      StepAdvances(cfg, Run(cfg, s, steps[..|steps| - 1]), steps[|steps| - 1]);
    }
  }

  lemma StepAdvances(cfg: Config, s: State, step: Step)
    ensures s.clock <= Apply(cfg, s, step).clock
  {}

  /** In every reachable state, an execution that presents the i-th token with its plan consumes exactly the i-th grant,
      if the executor may mutate and the plan stands, the grant is unspent and unexpired, and the write works. */
  lemma IssuedTokenConsumes(cfg: Config, s: State, i: nat, call: ExecuteCall)
    requires Reachable(cfg, s) && s.process.Up? && i < |s.history.issued|
    requires call.plan == s.history.issued[i].plan && call.token == s.history.issued[i].token
    requires s.clock == call.now <= call.consumeAt && call.diskWorks
    requires ExecuteRefusal(cfg.hash, s.process.operations, s.process.actors, call).None?
    ensures ConsumeAnswer(cfg, s.process.operations, s.process.actors, s.process.grants, call) ==
            if Live(cfg, s.(clock := call.consumeAt), i) then Ok(i) else Err(ConfirmationRejected)
  {
    var t := s.(clock := call.consumeAt);
    Advances(cfg, s, call.consumeAt);
    RunSnoc(cfg, s, [], Advance(call.consumeAt));
    ReachableGoesOn(cfg, s, [] + [Advance(call.consumeAt)]);
    TokenUsable(cfg, t, i);
    OnlyItsToken(cfg, t, i);
  }

  /** Whatever grant the i-th token would consume, it is the i-th. */
  lemma OnlyItsToken(cfg: Config, s: State, i: nat)
    requires Reachable(cfg, s) && s.process.Up? && i < |s.history.issued|
    ensures var r := s.history.issued[i];
            var d := ConsumeDecision(cfg.hash, cfg.tokenHash, s.process.grants, r.token, r.plan, r.plan.actor.id,
                                     r.plan.action, s.clock);
            d.Ok? ==> d.value == i
  {
    ReachableInv(cfg, s);
    var r := s.history.issued[i];
    if ConsumeDecision(cfg.hash, cfg.tokenHash, s.process.grants, r.token, r.plan, r.plan.actor.id, r.plan.action,
                       s.clock).Ok? {
      BoundInState(cfg, s, i, r.plan, r.plan.actor.id, r.plan.action);
    }
  }

  /** The grant that an accepted confirmation adds belongs to its plan. */
  lemma ConfirmationIssued(cfg: Config, s: State, task: nat, call: ConfirmCall)
    requires s.process.Up? && ConfirmAnswer(cfg, s.process.operations, s.process.actors, s.process.grants, call).Ok?
    ensures var t := Confirmed(cfg, s, task, call);
            && |t.history.issued| == |s.history.issued| + 1
            && var r := t.history.issued[|s.history.issued|];
               r.plan == call.plan && r.token == call.token && r.at == call.issueAt
    ensures ApprovedPlanProblem(cfg.hash, s.process.operations, call.plan, call.now).None?
  {}

  /** A confirmation that is accepted, followed by anything at all, followed by an execution with its token: as long
      as the process serves the same catalog, the executor may mutate and the write works, the execution consumes
      that grant exactly if it is unspent and unexpired, and leaves the state stated by `Executed`. */
  lemma ConfirmThenExecute(cfg: Config, s: State, confirmTask: nat, confirm: ConfirmCall, between: seq<Step>,
                           executeTask: nat, execute: ExecuteCall)
    requires Reachable(cfg, s) && s.process.Up?
    requires confirmTask !in s.process.confirmations && s.clock == confirm.now <= confirm.issueAt
    requires FreshChoice(cfg, s.process.grants, confirm.token, confirm.id)
    requires ConfirmAnswer(cfg, s.process.operations, s.process.actors, s.process.grants, confirm).Ok?
    requires var u := Run(cfg, Confirmed(cfg, s, confirmTask, confirm), between);
             && u.process.Up? && u.process.operations == s.process.operations && u.clock == execute.now
             && executeTask !in u.process.executions
             && Authenticate(u.process.actors, execute.actorToken).Some?
             && var executor := Authenticate(u.process.actors, execute.actorToken).value;
                executor.kind != Tci && EXECUTE_MUTATE in executor.permissions
    requires execute.plan == confirm.plan && execute.token == confirm.token && execute.diskWorks
    requires execute.now < confirm.plan.expiresAt && execute.now <= execute.consumeAt <= execute.enterAt
    ensures var u, i := Run(cfg, Confirmed(cfg, s, confirmTask, confirm), between), |s.history.issued|;
            var v := Executed(cfg, u, executeTask, execute);
            && i < |u.history.issued| && v == Run(cfg, u, ExecuteSteps(executeTask, execute))
            && ConsumeAnswer(cfg, u.process.operations, u.process.actors, u.process.grants, execute) ==
               (if !Spent(u.history, i) && execute.consumeAt < Min(confirm.issueAt + cfg.ttl, confirm.plan.expiresAt)
                then Ok(i)
                else Err(ConfirmationRejected))
  {
    var i, t := |s.history.issued|, Confirmed(cfg, s, confirmTask, confirm);
    var u := Run(cfg, t, between);
    ConfirmedIsReachable(cfg, s, confirmTask, confirm);
    ReachableGoesOn(cfg, t, between);
    ConfirmationIssued(cfg, s, confirmTask, confirm);
    StaysIssued(cfg, t, between, i);
    RevalidationOnlyExpires(cfg.hash, s.process.operations, confirm.plan, confirm.now, execute.now);
    IssuedTokenConsumes(cfg, u, i, execute);
    ExecutesReachably(cfg, u, executeTask, execute);
  }

  lemma ConfirmedIsReachable(cfg: Config, s: State, task: nat, call: ConfirmCall)
    requires Reachable(cfg, s) && s.process.Up? && task !in s.process.confirmations
             && s.clock == call.now <= call.issueAt
    requires FreshChoice(cfg, s.process.grants, call.token, call.id)
    ensures Reachable(cfg, Confirmed(cfg, s, task, call)) && Confirmed(cfg, s, task, call).clock == call.issueAt
  {
    ConfirmRuns(cfg, s, task, call);
    ReachableGoesOn(cfg, s, ConfirmSteps(task, call));
  }

  lemma StaysIssued(cfg: Config, s: State, steps: seq<Step>, i: nat)
    requires i < |s.history.issued|
    ensures var t := Run(cfg, s, steps);
            i < |t.history.issued| && t.history.issued[i] == s.history.issued[i] && s.clock <= t.clock
  {
    HistoryGrows(cfg, s, steps);
    ClockGrows(cfg, s, steps);
  }

  lemma ExecutesReachably(cfg: Config, s: State, task: nat, call: ExecuteCall)
    requires Reachable(cfg, s) && s.process.Up? && task !in s.process.executions
    requires s.clock == call.now <= call.consumeAt <= call.enterAt
    ensures Run(cfg, s, ExecuteSteps(task, call)) == Executed(cfg, s, task, call)
  {
    ReachableInv(cfg, s);
    ExecuteRuns(cfg, s, task, call);
  }

  lemma NewGrantUnspent(cfg: Config, s: State, task: nat, call: ConfirmCall)
    requires Reachable(cfg, s) && s.process.Up?
    ensures !Spent(Confirmed(cfg, s, task, call).history, |s.history.issued|)
  {
    ReachableInv(cfg, s);
    forall c | 0 <= c < |s.history.consumed| ensures s.history.consumed[c].grant != |s.history.issued| {
      assert ConsumeOk(cfg, s.clock, OnDisk(s.disk), s.history.consumed[c]);
    }
  }

  lemma FreshlyConsumed(cfg: Config, t: State, task: nat, call: ExecuteCall)
    requires t.process.Up? && FateOf(call).Runs?
    requires ConsumeAnswer(cfg, t.process.operations, t.process.actors, t.process.grants, call).Ok?
    ensures Executed(cfg, t, task, call).history.entered == t.history.entered +
            [EntryRecord(|t.history.consumed|, call.plan, Authenticate(t.process.actors, call.actorToken).value,
                         call.plan.action, UnitOf(call.plan), call.enterAt)]
  {}

  /** Confirmed and executed at once, a plan with a trimmed action runs: the handler is entered, for this plan and
      executor. */
  lemma ConfirmedThenRuns(cfg: Config, s: State, confirmTask: nat, confirm: ConfirmCall, executeTask: nat,
                          execute: ExecuteCall)
    requires Reachable(cfg, s) && s.process.Up?
    requires confirmTask !in s.process.confirmations && s.clock == confirm.now <= confirm.issueAt
    requires FreshChoice(cfg, s.process.grants, confirm.token, confirm.id)
    requires ConfirmAnswer(cfg, s.process.operations, s.process.actors, s.process.grants, confirm).Ok?
    requires executeTask !in s.process.executions && confirm.issueAt == execute.now
    requires Authenticate(s.process.actors, execute.actorToken).Some?
    requires var executor := Authenticate(s.process.actors, execute.actorToken).value;
             executor.kind != Tci && EXECUTE_MUTATE in executor.permissions
    requires execute.plan == confirm.plan && execute.token == confirm.token && execute.diskWorks
    requires execute.now <= execute.consumeAt < confirm.issueAt + cfg.ttl
    requires execute.consumeAt <= execute.enterAt < confirm.plan.expiresAt && Trimmed(confirm.plan.action)
    ensures var t := Confirmed(cfg, s, confirmTask, confirm);
            Executed(cfg, t, executeTask, execute).history.entered == s.history.entered +
            [EntryRecord(|s.history.consumed|, execute.plan, Authenticate(s.process.actors, execute.actorToken).value,
                         execute.plan.action, UnitOf(execute.plan), execute.enterAt)]
  {
    var t := Confirmed(cfg, s, confirmTask, confirm);
    assert Run(cfg, t, []) == t;
    NewGrantUnspent(cfg, s, confirmTask, confirm);
    ConfirmThenExecute(cfg, s, confirmTask, confirm, [], executeTask, execute);
    FreshlyConsumed(cfg, t, executeTask, execute);
  }
}
