/** Every step of the protocol keeps the invariant, and what follows for every run. */
module Safety {
  import opened Text
  import opened Types
  import opened Plans
  import opened Policy
  import opened Broker
  import opened Grants
  import opened Protocol

  // ---- What validation supplies ----

  lemma TrimOfEmpty()
    ensures Trim("") == ""
  {}

  /** A validated plan carries the nonblank fields that `Issue` alone does not check. */
  lemma PassedFacts(cfg: Config, catalog: Operations, plan: OperationPlan, t: Time)
    requires PassedAt(cfg, catalog, plan, t)
    ensures VerifyPlanDigest(cfg.hash, plan) && CleanNames(plan.parameters)
    ensures plan.schema == PLAN_SCHEMA && plan.valid && plan.requiresConfirmation
    ensures plan.id != "" && plan.actor.id != "" && plan.sessionID != "" && plan.action != "" && plan.digest != ""
    ensures plan.createdAt - 30 * SECOND <= t < plan.expiresAt <= plan.createdAt + 15 * MINUTE
  {
    TrimOfEmpty();
    assert |Fold(plan.digest)| == |Fold(cfg.hash(Canonical(plan)))| == 64;
  }

  // ---- The ledger ----

  lemma LedgerAdvances(cfg: Config, clock: Time, later: Time, grants: seq<StoredGrant>, h: History)
    requires LedgerOk(cfg, clock, grants, h) && clock <= later
    ensures LedgerOk(cfg, later, grants, h)
  {
    forall i | 0 <= i < |h.issued| ensures IssueOk(cfg, later, h.issued[i]) {
      assert IssueOk(cfg, clock, h.issued[i]);
    }
  }

  lemma FaithfulFields(cfg: Config, g: StoredGrant, r: IssueRecord)
    requires Faithful(cfg, g, r)
    ensures g.tokenSHA256 == cfg.tokenHash(r.token) && g.grant.id == r.id && g.grant.schema == GRANT_SCHEMA
    ensures g.grant.planID == r.plan.id && g.grant.planDigest == r.plan.digest
            && g.grant.subjectActorID == r.plan.actor.id
    ensures g.grant.sessionID == r.plan.sessionID && g.grant.action == r.plan.action && g.grant.approver == r.approver
    ensures g.grant.issuedAt == r.at && g.grant.expiresAt == Min(r.at + cfg.ttl, r.plan.expiresAt)
  {}

  lemma NotGrantedApart(cfg: Config, clock: Time, grants: seq<StoredGrant>, issued: seq<IssueRecord>,
                        plan: OperationPlan, i: nat)
    requires IssuesOk(cfg, clock, grants, issued) && !Granted(grants, plan) && i < |issued|
    ensures !SamePlan(issued[i].plan, plan)
  {
    FaithfulFields(cfg, grants[i], issued[i]);
    assert !ForPlan(grants[i].grant, plan);
  }

  lemma IssuesOkMore(cfg: Config, clock: Time, grants: seq<StoredGrant>, issued: seq<IssueRecord>, stored: StoredGrant,
                     r: IssueRecord)
    requires IssuesOk(cfg, clock, grants, issued) && IssueOk(cfg, clock, r) && Faithful(cfg, stored, r)
    requires forall i :: 0 <= i < |issued| ==> IssuesApart(cfg, issued[i], r)
    ensures IssuesOk(cfg, clock, grants + [stored], issued + [r])
  {
    var more, all := grants + [stored], issued + [r];
    forall i | 0 <= i < |all| ensures IssueOk(cfg, clock, all[i]) && Faithful(cfg, more[i], all[i]) {
      if i < |issued| { assert IssueOk(cfg, clock, issued[i]) && Faithful(cfg, grants[i], issued[i]); }
    }
    forall i, j | 0 <= i < j < |all| ensures IssuesApart(cfg, all[i], all[j]) {
      if j < |issued| { assert IssuesApart(cfg, issued[i], issued[j]); }
    }
  }

  lemma ConsumesOkMore(cfg: Config, clock: Time, grants: seq<StoredGrant>, consumed: seq<ConsumeRecord>,
                       stored: StoredGrant)
    requires ConsumesOk(cfg, clock, grants, consumed) && stored.grant.usedAt == ZERO_TIME
    ensures ConsumesOk(cfg, clock, grants + [stored], consumed)
  {
    var more := grants + [stored];
    forall c | 0 <= c < |consumed| ensures ConsumeOk(cfg, clock, more, consumed[c]) {
      assert ConsumeOk(cfg, clock, grants, consumed[c]);
    }
    forall i | 0 <= i < |more| && more[i].grant.usedAt != ZERO_TIME
      ensures exists c :: 0 <= c < |consumed| && consumed[c].grant == i
    {
      assert grants[i].grant.usedAt != ZERO_TIME;
    }
  }

  lemma LedgerIssues(cfg: Config, clock: Time, grants: seq<StoredGrant>, h: History, r: IssueRecord)
    requires LedgerOk(cfg, clock, grants, h)
    requires IssueOk(cfg, clock, r) && r.at == clock
    requires !Granted(grants, r.plan) && FreshChoice(cfg, grants, r.token, r.id)
    ensures LedgerOk(cfg, clock, grants + [NewGrant(cfg.tokenHash, cfg.ttl, r.plan, r.approver, r.at, r.token, r.id)],
                     h.(issued := h.issued + [r]))
  {
    var stored := NewGrant(cfg.tokenHash, cfg.ttl, r.plan, r.approver, r.at, r.token, r.id);
    forall i | 0 <= i < |h.issued| ensures IssuesApart(cfg, h.issued[i], r) {
      NotGrantedApart(cfg, clock, grants, h.issued, r.plan, i);
      FaithfulFields(cfg, grants[i], h.issued[i]);
    }
    IssuesOkMore(cfg, clock, grants, h.issued, stored, r);
    ConsumesOkMore(cfg, clock, grants, h.consumed, stored);
  }

  lemma IssuesOkUsed(cfg: Config, clock: Time, grants: seq<StoredGrant>, issued: seq<IssueRecord>, i: nat, t: Time)
    requires IssuesOk(cfg, clock, grants, issued) && i < |grants|
    ensures IssuesOk(cfg, clock, Used(grants, i, t), issued)
  {
    forall k | 0 <= k < |issued| ensures Faithful(cfg, Used(grants, i, t)[k], issued[k]) {
      assert Faithful(cfg, grants[k], issued[k]);
    }
  }

  lemma OthersStayConsumed(cfg: Config, clock: Time, grants: seq<StoredGrant>, consumed: seq<ConsumeRecord>, i: nat,
                           t: Time, k: nat)
    requires ConsumesOk(cfg, clock, grants, consumed) && i < |grants| && grants[i].grant.usedAt == ZERO_TIME
             && k < |consumed|
    ensures ConsumeOk(cfg, clock, Used(grants, i, t), consumed[k]) && consumed[k].grant != i
  {
    assert ConsumeOk(cfg, clock, grants, consumed[k]);
  }

  lemma ConsumesOkUsed(cfg: Config, clock: Time, grants: seq<StoredGrant>, consumed: seq<ConsumeRecord>,
                       c: ConsumeRecord)
    requires ConsumesOk(cfg, clock, grants, consumed)
    requires c.grant < |grants| && grants[c.grant].grant.usedAt == ZERO_TIME
    requires ConsumeOk(cfg, clock, Used(grants, c.grant, c.at), c)
    ensures ConsumesOk(cfg, clock, Used(grants, c.grant, c.at), consumed + [c])
  {
    var used, more := Used(grants, c.grant, c.at), consumed + [c];
    forall k | 0 <= k < |more|
      ensures ConsumeOk(cfg, clock, used, more[k]) && (k < |consumed| ==> more[k].grant != c.grant)
    {
      if k < |consumed| { OthersStayConsumed(cfg, clock, grants, consumed, c.grant, c.at, k); }
    }
    forall i | 0 <= i < |used| && used[i].grant.usedAt != ZERO_TIME
      ensures exists k :: 0 <= k < |more| && more[k].grant == i
    {
      if i == c.grant {
        assert more[|consumed|].grant == i;
      } else {
        assert grants[i].grant.usedAt != ZERO_TIME;
        var k :| 0 <= k < |consumed| && consumed[k].grant == i;
        assert more[k].grant == i;
      }
    }
  }

  lemma LedgerConsumes(cfg: Config, clock: Time, grants: seq<StoredGrant>, h: History, c: ConsumeRecord)
    requires LedgerOk(cfg, clock, grants, h) && clock > ZERO_TIME
    requires c.grant < |grants| && grants[c.grant].grant.usedAt == ZERO_TIME && grants[c.grant].grant.expiresAt > clock
    requires c.at == clock && MayMutate(c.executor) && VerifyPlanDigest(cfg.hash, c.plan)
    requires Binds(grants[c.grant].grant, c.plan, c.plan.actor.id, c.plan.action)
    ensures LedgerOk(cfg, clock, Used(grants, c.grant, clock), h.(consumed := h.consumed + [c]))
  {
    IssuesOkUsed(cfg, clock, grants, h.issued, c.grant, clock);
    assert IssueOk(cfg, clock, h.issued[c.grant]) && Faithful(cfg, grants[c.grant], h.issued[c.grant]);
    FaithfulFields(cfg, grants[c.grant], h.issued[c.grant]);
    ConsumesOkUsed(cfg, clock, grants, h.consumed, c);
    var consumed := h.consumed + [c];
    forall e | 0 <= e < |h.entered| ensures EntryOk(cfg, clock, consumed, h.entered[e]) {
      assert EntryOk(cfg, clock, h.consumed, h.entered[e]);
    }
  }

  lemma LedgerEnters(cfg: Config, clock: Time, grants: seq<StoredGrant>, h: History, e: EntryRecord)
    requires LedgerOk(cfg, clock, grants, h) && EntryOk(cfg, clock, h.consumed, e)
    requires forall k :: 0 <= k < |h.entered| ==> h.entered[k].consumption != e.consumption
    ensures LedgerOk(cfg, clock, grants, h.(entered := h.entered + [e]))
  {}

  lemma LedgerWellFormed(cfg: Config, clock: Time, grants: seq<StoredGrant>, h: History)
    requires LedgerOk(cfg, clock, grants, h)
    ensures WellFormed(grants)
  {
    forall i | 0 <= i < |grants| ensures Complete(grants[i].grant) && DecodeSHA256(grants[i].tokenSHA256).Some? {
      GrantWellFormed(cfg, clock, grants[i], h.issued[i]);
    }
    forall i, j | 0 <= i < j < |grants| ensures grants[i].grant.id != grants[j].grant.id {
      assert IssuesApart(cfg, h.issued[i], h.issued[j]);
      FaithfulFields(cfg, grants[i], h.issued[i]);
      FaithfulFields(cfg, grants[j], h.issued[j]);
    }
  }

  lemma GrantWellFormed(cfg: Config, clock: Time, g: StoredGrant, r: IssueRecord)
    requires IssueOk(cfg, clock, r) && Faithful(cfg, g, r)
    ensures Complete(g.grant) && DecodeSHA256(g.tokenSHA256).Some?
  {
    FaithfulFields(cfg, g, r);
    PassedFacts(cfg, r.catalog, r.plan, r.validatedAt);
    DecodeDigest(cfg.tokenHash(r.token));
  }

  // ---- Steps ----

  lemma InitInv(cfg: Config, clock: Time)
    requires clock > ZERO_TIME
    ensures Inv(cfg, Init(clock))
  {}

  lemma AdvanceInv(cfg: Config, s: State, to: Time)
    requires Inv(cfg, s) && s.clock <= to
    ensures Inv(cfg, s.(clock := to))
  {
    LedgerAdvances(cfg, s.clock, to, OnDisk(s.disk), s.history);
    var p := s.process;
    if p.Up? {
      forall i | i in p.confirmations ensures ConfirmationOk(cfg, to, p.operations, p.confirmations[i]) {
        assert ConfirmationOk(cfg, s.clock, p.operations, p.confirmations[i]);
      }
      forall i | i in p.executions ensures ExecutionOk(cfg, to, p.operations, s.history, p.executions[i]) {
        assert ExecutionOk(cfg, s.clock, p.operations, s.history, p.executions[i]);
      }
    }
  }

  lemma RestartInv(cfg: Config, s: State, policy: ServicePolicy, units: seq<string>, actors: Authenticator)
    requires Inv(cfg, s) && LegalPolicy(policy, units)
    ensures Inv(cfg, s.(process := RestartProcess(cfg, s.disk, policy, units, actors)))
  {
    var operations := WithMutations(READ_OPERATIONS, units);
    var targets := map u | u in policy :: policy[u].healthURL;
    assert ServiceCatalog(operations, targets, policy);
  }

  lemma ConfirmationSet(cfg: Config, s: State, task: nat, c: Confirmation)
    requires Inv(cfg, s) && s.process.Up? && ConfirmationOk(cfg, s.clock, s.process.operations, c)
    ensures Inv(cfg, s.(process := s.process.(confirmations := s.process.confirmations[task := c])))
  {}

  lemma ConfirmationGone(cfg: Config, s: State, task: nat)
    requires Inv(cfg, s) && s.process.Up?
    ensures Inv(cfg, s.(process := s.process.(confirmations := s.process.confirmations - {task})))
  {}

  lemma ConfirmInv(cfg: Config, s: State, step: Step)
    requires Inv(cfg, s) && s.process.Up?
    requires step.ConfirmArrives? || step.ConfirmValidates? || step.ConfirmAuthenticates?
    ensures Inv(cfg, ConfirmStep(cfg, s, step))
  {
    var p := s.process;
    if step.ConfirmArrives? {
      ConfirmationSet(cfg, s, step.task, ConfirmReceived(step.plan, step.actorToken));
    } else if step.task in p.confirmations {
      var c := p.confirmations[step.task];
      assert ConfirmationOk(cfg, s.clock, p.operations, c);
      ConfirmationGone(cfg, s, step.task);
      if step.ConfirmValidates? && PassedAt(cfg, p.operations, c.plan, s.clock) && c.ConfirmReceived? {
        ConfirmationSet(cfg, s, step.task, ConfirmValidated(c.plan, c.actorToken, s.clock));
      } else if step.ConfirmAuthenticates? && c.ConfirmValidated? {
        var a := Authenticate(p.actors, c.actorToken);
        if a.Some? && MayConfirm(a.value) {
          ConfirmationSet(cfg, s, step.task, ConfirmAllowed(c.plan, a.value, c.validatedAt));
        }
      }
    }
  }

  lemma IssueInv(cfg: Config, s: State, task: nat, token: string, id: string, write: Write)
    requires Inv(cfg, s) && s.process.Up? && task in s.process.confirmations
             && s.process.confirmations[task].ConfirmAllowed?
    requires FreshChoice(cfg, s.process.grants, token, id)
    ensures Inv(cfg, IssueStep(cfg, s, task, token, id, write))
  {
    var c := s.process.confirmations[task];
    if IssueProblem(cfg.hash, s.process.grants, c.plan, c.approver, s.clock).None? && !write.WriteFails? {
      IssuedInv(cfg, s, task, token, id, write);
    } else {
      ConfirmationGone(cfg, s, task);
    }
  }

  lemma IssuedInv(cfg: Config, s: State, task: nat, token: string, id: string, write: Write)
    requires Inv(cfg, s) && s.process.Up? && task in s.process.confirmations
             && s.process.confirmations[task].ConfirmAllowed?
    requires FreshChoice(cfg, s.process.grants, token, id)
    requires var c := s.process.confirmations[task];
             IssueProblem(cfg.hash, s.process.grants, c.plan, c.approver, s.clock).None?
    ensures Inv(cfg, IssuedState(cfg, s, task, token, id, write))
  {
    var p, c := s.process, s.process.confirmations[task];
    assert p.grants == OnDisk(s.disk);
    assert ConfirmationOk(cfg, s.clock, p.operations, c);
    LedgerIssues(cfg, s.clock, p.grants, s.history,
                 IssueRecord(c.plan, c.approver, token, id, s.clock, p.operations, c.validatedAt));
    var t := IssuedState(cfg, s, task, token, id, write);
    forall i | i in p.executions ensures ExecutionOk(cfg, s.clock, p.operations, t.history, p.executions[i]) {
      assert ExecutionOk(cfg, s.clock, p.operations, s.history, p.executions[i]);
    }
  }

  lemma ExecutionSet(cfg: Config, s: State, task: nat, x: Execution)
    requires Inv(cfg, s) && s.process.Up? && ExecutionOk(cfg, s.clock, s.process.operations, s.history, x)
             && !x.ExecuteConsumed?
    ensures Inv(cfg, s.(process := s.process.(executions := s.process.executions[task := x])))
  {}

  lemma ExecutionGone(cfg: Config, s: State, task: nat)
    requires Inv(cfg, s) && s.process.Up?
    ensures Inv(cfg, s.(process := s.process.(executions := s.process.executions - {task})))
  {}

  lemma ExecuteInv(cfg: Config, s: State, step: Step)
    requires Inv(cfg, s) && s.process.Up?
    requires step.ExecuteArrives? || step.ExecuteAuthenticates? || step.ExecuteValidates?
    ensures Inv(cfg, ExecuteStep(cfg, s, step))
  {
    var p := s.process;
    if step.ExecuteArrives? {
      ExecutionSet(cfg, s, step.task, ExecuteReceived(step.plan, step.token, step.actorToken));
    } else if step.task in p.executions {
      var x := p.executions[step.task];
      assert ExecutionOk(cfg, s.clock, p.operations, s.history, x);
      ExecutionGone(cfg, s, step.task);
      if step.ExecuteAuthenticates? && x.ExecuteReceived? {
        var a := Authenticate(p.actors, x.actorToken);
        if a.Some? && MayMutate(a.value) {
          ExecutionSet(cfg, s, step.task, ExecuteAllowed(x.plan, x.token, a.value));
        }
      } else if step.ExecuteValidates? && x.ExecuteAllowed? && PassedAt(cfg, p.operations, x.plan, s.clock) {
        ExecutionSet(cfg, s, step.task, ExecuteValidated(x.plan, x.token, x.executor, s.clock));
      }
    }
  }

  lemma DecisionFacts(cfg: Config, grants: seq<StoredGrant>, token: string, plan: OperationPlan, now: Time)
    requires ConsumeDecision(cfg.hash, cfg.tokenHash, grants, token, plan, plan.actor.id, plan.action, now).Ok?
    ensures var i := ConsumeDecision(cfg.hash, cfg.tokenHash, grants, token, plan, plan.actor.id, plan.action,
                                     now).value;
            && grants[i].grant.expiresAt > now && VerifyPlanDigest(cfg.hash, plan)
            && Binds(grants[i].grant, plan, plan.actor.id, plan.action)
  {
    var i := ConsumeDecision(cfg.hash, cfg.tokenHash, grants, token, plan, plan.actor.id, plan.action, now).value;
    ConsumeExactly(cfg.hash, cfg.tokenHash, grants, token, plan, plan.actor.id, plan.action, now, i);
  }

  lemma ConsumeInv(cfg: Config, s: State, task: nat, write: Write)
    requires Inv(cfg, s) && s.process.Up? && task in s.process.executions
             && s.process.executions[task].ExecuteValidated?
    ensures Inv(cfg, ConsumeStep(cfg, s, task, write))
  {
    var p, x := s.process, s.process.executions[task];
    var decision := ConsumeDecision(cfg.hash, cfg.tokenHash, p.grants, x.token, x.plan, x.plan.actor.id, x.plan.action,
                                    s.clock);
    if decision.Ok? && !write.WriteFails? {
      DecisionFacts(cfg, p.grants, x.token, x.plan, s.clock);
      ConsumedInv(cfg, s, task, decision.value, write);
    } else {
      ExecutionGone(cfg, s, task);
    }
  }

  lemma ConsumedInv(cfg: Config, s: State, task: nat, i: nat, write: Write)
    requires Inv(cfg, s) && s.process.Up? && task in s.process.executions
             && s.process.executions[task].ExecuteValidated?
    requires i < |s.process.grants| && s.process.grants[i].grant.usedAt == ZERO_TIME
    requires s.process.grants[i].grant.expiresAt > s.clock
    requires var plan := s.process.executions[task].plan;
             VerifyPlanDigest(cfg.hash, plan) && Binds(s.process.grants[i].grant, plan, plan.actor.id, plan.action)
    ensures Inv(cfg, ConsumedState(s, task, i, write))
  {
    var p, x := s.process, s.process.executions[task];
    assert p.grants == OnDisk(s.disk);
    assert ExecutionOk(cfg, s.clock, p.operations, s.history, x);
    var record := ConsumeRecord(i, x.plan, x.executor, s.clock);
    LedgerConsumes(cfg, s.clock, p.grants, s.history, record);
    ConsumedTasks(cfg, s, task, record);
  }

  /** An execution that is in order stays so when another grant is consumed. */
  lemma OthersAfterConsumption(cfg: Config, clock: Time, operations: Operations, h: History, x: Execution,
                               record: ConsumeRecord)
    requires ExecutionOk(cfg, clock, operations, h, x)
    ensures ExecutionOk(cfg, clock, operations, h.(consumed := h.consumed + [record]), x)
    ensures x.ExecuteConsumed? ==> x.consumption < |h.consumed|
  {}

  lemma ConsumerAfterConsumption(cfg: Config, clock: Time, operations: Operations, h: History, x: Execution,
                                 record: ConsumeRecord)
    requires x.ExecuteValidated? && ExecutionOk(cfg, clock, operations, h, x)
             && EntriesOk(cfg, clock, h.consumed, h.entered)
    requires record.plan == x.plan && record.executor == x.executor
    ensures ExecutionOk(cfg, clock, operations, h.(consumed := h.consumed + [record]),
                        ExecuteConsumed(x.plan, x.executor, x.validatedAt, |h.consumed|))
  {
    forall e | 0 <= e < |h.entered| ensures h.entered[e].consumption != |h.consumed| {
      assert EntryOk(cfg, clock, h.consumed, h.entered[e]);
    }
  }

  lemma ConsumedTasks(cfg: Config, s: State, task: nat, record: ConsumeRecord)
    requires s.process.Up? && task in s.process.executions && s.process.executions[task].ExecuteValidated?
    requires EntriesOk(cfg, s.clock, s.history.consumed, s.history.entered) && ExecutionsApart(s.process.executions)
    requires forall i :: i in s.process.executions ==>
                           ExecutionOk(cfg, s.clock, s.process.operations, s.history, s.process.executions[i])
    requires record.plan == s.process.executions[task].plan && record.executor == s.process.executions[task].executor
    ensures var x, h := s.process.executions[task], s.history.(consumed := s.history.consumed + [record]);
            var executions := s.process.executions[task := ExecuteConsumed(x.plan, x.executor, x.validatedAt,
                                                                           |s.history.consumed|)];
            && (forall i :: i in executions ==> ExecutionOk(cfg, s.clock, s.process.operations, h, executions[i]))
            && ExecutionsApart(executions)
  {
    var p := s.process;
    ConsumerAfterConsumption(cfg, s.clock, p.operations, s.history, p.executions[task], record);
    forall i | i in p.executions
      ensures ExecutionOk(cfg, s.clock, p.operations, s.history.(consumed := s.history.consumed + [record]),
                          p.executions[i])
      ensures p.executions[i].ExecuteConsumed? ==> p.executions[i].consumption < |s.history.consumed|
    {
      OthersAfterConsumption(cfg, s.clock, p.operations, s.history, p.executions[i], record);
    }
  }

  /** What a plan that is about to enter carries. */
  lemma EntryFacts(cfg: Config, operations: Operations, targets: map<string, string>, policy: ServicePolicy,
                   plan: OperationPlan, t: Time)
    requires ServiceCatalog(operations, targets, policy) && PassedAt(cfg, operations, plan, t)
             && plan.action in operations
    ensures IsMutation(plan.action) && operations[plan.action].handler == TransactionHandler(plan.action)
    ensures ExactParameters(plan.parameters) == Some(map[UNIT := UnitOf(plan)])
    ensures UnitOf(plan) in COMPILED && UnitOf(plan) in targets
  {
    AcceptedPlanValidates(cfg.hash, operations, plan, t);
    CatalogEntry(operations, targets, policy, plan.action);
    AdmittedUnit(operations, targets, policy, ApprovedRequest(plan, ExactParameters(plan.parameters).value));
  }

  lemma AdmittedUnit(operations: Operations, targets: map<string, string>, policy: ServicePolicy,
                     request: OperationRequest)
    requires ServiceCatalog(operations, targets, policy) && Trimmed(request.action)
    requires Validate(operations, request, false).Ok?
             && Validate(operations, request, false).value.definition.requiresConfirmation
    ensures IsMutation(request.action) && UNIT in request.parameters
    ensures request.parameters == map[UNIT := request.parameters[UNIT]]
    ensures request.parameters[UNIT] in COMPILED && request.parameters[UNIT] in targets
  {
    SurfaceOnlyNarrows(operations, targets, policy, request);
  }

  lemma OneAfterEntry(cfg: Config, clock: Time, operations: Operations, h: History, x: Execution, e: EntryRecord)
    requires ExecutionOk(cfg, clock, operations, h, x)
    requires x.ExecuteConsumed? ==> x.consumption != e.consumption
    ensures ExecutionOk(cfg, clock, operations, h.(entered := h.entered + [e]), x)
  {}

  lemma OthersAfterEntry(cfg: Config, s: State, task: nat, e: EntryRecord)
    requires Inv(cfg, s) && s.process.Up? && task in s.process.executions && s.process.executions[task].ExecuteConsumed?
    requires e.consumption == s.process.executions[task].consumption
    ensures var p, h := s.process, s.history.(entered := s.history.entered + [e]);
            forall i :: i in p.executions - {task} ==> ExecutionOk(cfg, s.clock, p.operations, h, p.executions[i])
  {
    var p, h := s.process, s.history.(entered := s.history.entered + [e]);
    forall i | i in p.executions - {task} ensures ExecutionOk(cfg, s.clock, p.operations, h, p.executions[i]) {
      assert i in p.executions && i != task;
      OneAfterEntry(cfg, s.clock, p.operations, s.history, p.executions[i], e);
    }
  }

  lemma Entered(cfg: Config, s: State, task: nat, e: EntryRecord)
    requires Inv(cfg, s) && s.process.Up? && task in s.process.executions && s.process.executions[task].ExecuteConsumed?
    requires e.consumption == s.process.executions[task].consumption && EntryOk(cfg, s.clock, s.history.consumed, e)
    ensures Inv(cfg, s.(process := s.process.(executions := s.process.executions - {task}),
                        history := s.history.(entered := s.history.entered + [e])))
  {
    assert ExecutionOk(cfg, s.clock, s.process.operations, s.history, s.process.executions[task]);
    LedgerEnters(cfg, s.clock, OnDisk(s.disk), s.history, e);
    OthersAfterEntry(cfg, s, task, e);
  }

  lemma EnterInv(cfg: Config, s: State, task: nat)
    requires Inv(cfg, s) && s.process.Up? && task in s.process.executions && s.process.executions[task].ExecuteConsumed?
    ensures Inv(cfg, EnterStep(cfg, s, task))
  {
    var p, x := s.process, s.process.executions[task];
    assert ExecutionOk(cfg, s.clock, p.operations, s.history, x);
    ExecutionGone(cfg, s, task);
    if PassedAt(cfg, p.operations, x.plan, s.clock) && x.plan.action in p.operations && MayMutate(x.executor) {
      EntryFacts(cfg, p.operations, p.targets, p.policy, x.plan, s.clock);
      assert ConsumeOk(cfg, s.clock, OnDisk(s.disk), s.history.consumed[x.consumption]);
      Entered(cfg, s, task, EntryRecord(x.consumption, x.plan, x.executor, x.plan.action, UnitOf(x.plan), s.clock));
    }
  }

  lemma ConfirmStepInv(cfg: Config, s: State, step: Step)
    requires Inv(cfg, s) && OfConfirm(step)
    ensures Inv(cfg, Apply(cfg, s, step))
  {
    if s.process.Up? {
      ConfirmApplied(cfg, s, step);
      if step.ConfirmIssues? {
        IssueStepInv(cfg, s, step);
      } else {
        ConfirmInv(cfg, s, step);
      }
    }
  }

  lemma IssueStepInv(cfg: Config, s: State, step: Step)
    requires Inv(cfg, s) && s.process.Up? && step.ConfirmIssues?
    ensures Inv(cfg, ConfirmStep(cfg, s, step))
  {
    IssueApplied(cfg, s, step);
    if IssueEnabled(cfg, s, step) {
      IssueInv(cfg, s, step.task, step.token, step.id, step.write);
    }
  }

  lemma ExecuteStepInv(cfg: Config, s: State, step: Step)
    requires Inv(cfg, s) && OfExecute(step)
    ensures Inv(cfg, Apply(cfg, s, step))
  {
    if s.process.Up? {
      ExecuteApplied(cfg, s, step);
      if step.ExecuteConsumes? || step.ExecuteEnters? {
        LateStepInv(cfg, s, step);
      } else {
        ExecuteInv(cfg, s, step);
      }
    }
  }

  lemma LateStepInv(cfg: Config, s: State, step: Step)
    requires Inv(cfg, s) && s.process.Up? && (step.ExecuteConsumes? || step.ExecuteEnters?)
    ensures Inv(cfg, ExecuteStep(cfg, s, step))
  {
    if step.task in s.process.executions {
      if step.ExecuteConsumes? && s.process.executions[step.task].ExecuteValidated? {
        ConsumeInv(cfg, s, step.task, step.write);
      }
      if step.ExecuteEnters? && s.process.executions[step.task].ExecuteConsumed? {
        EnterInv(cfg, s, step.task);
      }
    }
  }

  lemma OutsideStepInv(cfg: Config, s: State, step: Step)
    requires Inv(cfg, s) && !OfConfirm(step) && !OfExecute(step)
    ensures Inv(cfg, Apply(cfg, s, step))
  {
    if step.Advance? && s.clock <= step.to {
      AdvanceInv(cfg, s, step.to);
    } else if step.Restart? && s.process.Down? && LegalPolicy(step.policy, step.units) {
      RestartInv(cfg, s, step.policy, step.units, step.actors);
    }
  }

  lemma StepInv(cfg: Config, s: State, step: Step)
    requires Inv(cfg, s)
    ensures Inv(cfg, Apply(cfg, s, step))
  {
    if OfConfirm(step) {
      ConfirmStepInv(cfg, s, step);
    } else if OfExecute(step) {
      ExecuteStepInv(cfg, s, step);
    } else {
      OutsideStepInv(cfg, s, step);
    }
  }

  /** The invariant holds in every state of every run. */
  lemma {:induction false} RunInv(cfg: Config, clock: Time, steps: seq<Step>)
    requires clock > ZERO_TIME
    ensures Inv(cfg, Run(cfg, Init(clock), steps))
  {
    if steps == [] {
      InitInv(cfg, clock);
    } else {
      RunInv(cfg, clock, steps[..|steps| - 1]);
      StepInv(cfg, Run(cfg, Init(clock), steps[..|steps| - 1]), steps[|steps| - 1]);
    }
  }

  lemma ReachableInv(cfg: Config, s: State)
    requires Reachable(cfg, s)
    ensures Inv(cfg, s)
  {
    var clock: Time, steps: seq<Step> :| clock > ZERO_TIME && s == Run(cfg, Init(clock), steps);
    RunInv(cfg, clock, steps);
  }
}
