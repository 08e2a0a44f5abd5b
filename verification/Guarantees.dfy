/** The promises of the approval protocol, over every run: any interleaving of confirmations and approved
    executions, failed writes, crashes and restarts. */
module Guarantees {
  import opened Text
  import opened Types
  import opened Plans
  import opened Policy
  import opened Broker
  import opened Grants
  import opened Protocol
  import opened Safety

  /** The consumption an entry acts for, and the issue that consumption used. */
  function ConsumptionOf(h: History, e: EntryRecord): ConsumeRecord
    requires e.consumption < |h.consumed|
  {
    h.consumed[e.consumption]
  }

  function IssueOf(h: History, c: ConsumeRecord): IssueRecord
    requires c.grant < |h.issued|
  {
    h.issued[c.grant]
  }

  /** The plans a run confirmed or executed. */
  function PlansOf(h: History): set<OperationPlan> {
    (set i | 0 <= i < |h.issued| :: h.issued[i].plan) + (set e | 0 <= e < |h.entered| :: h.entered[e].plan)
  }

  // ---- What was approved is what runs ----

  lemma ConsumptionMatchesIssue(cfg: Config, s: State, k: nat)
    requires Inv(cfg, s) && k < |s.history.consumed|
    ensures s.history.consumed[k].grant < |s.history.issued|
    ensures var c := s.history.consumed[k]; var r := IssueOf(s.history, c);
            && SamePlan(r.plan, c.plan) && r.plan.actor.id == c.plan.actor.id && r.plan.sessionID == c.plan.sessionID
            && r.plan.action == c.plan.action && VerifyPlanDigest(cfg.hash, r.plan)
            && VerifyPlanDigest(cfg.hash, c.plan)
            && MayApprove(r.approver, r.plan) && MayMutate(c.executor)
            && r.at <= c.at < Min(r.at + cfg.ttl, r.plan.expiresAt)
            && r.plan.createdAt - 30 * SECOND <= r.at && r.plan.expiresAt <= r.plan.createdAt + 15 * MINUTE
  {
    var c, grants := s.history.consumed[k], OnDisk(s.disk);
    assert ConsumeOk(cfg, s.clock, grants, c);
    var r := s.history.issued[c.grant];
    assert IssueOk(cfg, s.clock, r) && Faithful(cfg, grants[c.grant], r);
    FaithfulFields(cfg, grants[c.grant], r);
    PassedFacts(cfg, r.catalog, r.plan, r.validatedAt);
  }

  /** Every mutation that a run performs was approved as it stands: the same action on the same compiled unit,
      for a plan earlier confirmed by a human with the confirm permission who is not the plan's actor, and on
      behalf of an executor that is not a TCI and may mutate. The only assumption on SHA-256 is that the
      plans of this run do not collide. */
  lemma ApprovedIsWhatRuns(cfg: Config, s: State, n: nat)
    requires Reachable(cfg, s)
    requires n < |s.history.entered|
    requires CollisionFree(cfg.hash, PlansOf(s.history))
    ensures var h := s.history;
            var e := h.entered[n];
            && e.consumption < |h.consumed| && ConsumptionOf(h, e).grant < |h.issued|
            && (var c := ConsumptionOf(h, e); var r := IssueOf(h, c);
                && Canonical(r.plan) == Canonical(e.plan)
                && e.action == r.plan.action && IsMutation(e.action)
                && ExactParameters(r.plan.parameters) == Some(map[UNIT := e.unit]) && e.unit in COMPILED
                && r.approver.kind == Human && HasPermission(r.approver, CONFIRM) && r.approver.id != r.plan.actor.id
                && e.executor.kind != Tci && HasPermission(e.executor, EXECUTE_MUTATE)
                && r.at <= c.at <= e.at)
  {
    ReachableInv(cfg, s);
    var h, e := s.history, s.history.entered[n];
    assert EntryOk(cfg, s.clock, h.consumed, e);
    ConsumptionMatchesIssue(cfg, s, e.consumption);
    var r := IssueOf(h, ConsumptionOf(h, e));
    SameDigestSameHash(cfg.hash, r.plan, e.plan);
    assert r.plan in PlansOf(h) && e.plan in PlansOf(h);
    SameCanonicalSameOrder(r.plan, e.plan);
  }

  // ---- At most once ----

  lemma IssuesKeepApart(cfg: Config, s: State, c: nat, d: nat)
    requires Inv(cfg, s) && c < |s.history.consumed| && d < |s.history.consumed|
    requires s.history.consumed[c].grant != s.history.consumed[d].grant
    ensures !SamePlan(s.history.consumed[c].plan, s.history.consumed[d].plan)
  {
    ConsumptionMatchesIssue(cfg, s, c);
    ConsumptionMatchesIssue(cfg, s, d);
    var i, j := s.history.consumed[c].grant, s.history.consumed[d].grant;
    assert IssuesApart(cfg, s.history.issued[if i < j then i else j], s.history.issued[if i < j then j else i]);
  }

  /** A list of distinct indices below n is no longer than n. */
  lemma {:induction false} Pigeonhole(indices: seq<nat>, n: nat)
    requires forall i :: 0 <= i < |indices| ==> indices[i] < n
    requires forall i, j :: 0 <= i < j < |indices| ==> indices[i] != indices[j]
    ensures |indices| <= n
  {
    if indices != [] {
      assert 0 <= indices[0] < n;
      var m := n - 1;
      if m in indices {
        var k :| 0 <= k < |indices| && indices[k] == m;
        var rest := indices[..k] + indices[k + 1..];
        forall i | 0 <= i < |rest| ensures rest[i] < m {
          assert rest[i] == indices[if i < k then i else i + 1];
        }
        forall i, j | 0 <= i < j < |rest| ensures rest[i] != rest[j] {
          assert rest[i] == indices[if i < k then i else i + 1] && rest[j] == indices[if j < k then j else j + 1];
        }
        Pigeonhole(rest, m);
      } else {
        forall i | 0 <= i < |indices| ensures indices[i] < m {
          assert indices[i] in indices;
        }
        Pigeonhole(indices, m);
      }
    }
  }

  /** For each plan, identified by its ID and its digest up to case, at most one grant is ever issued, at most one
      is consumed, and the mutation handler is entered at most once, across crashes and restarts. */
  lemma AtMostOnce(cfg: Config, s: State)
    requires Reachable(cfg, s)
    ensures var h := s.history;
            && (forall i, j :: 0 <= i < j < |h.issued| ==> !SamePlan(h.issued[i].plan, h.issued[j].plan))
            && (forall c, d :: 0 <= c < d < |h.consumed| ==> !SamePlan(h.consumed[c].plan, h.consumed[d].plan))
            && (forall e, f :: 0 <= e < f < |h.entered| ==> !SamePlan(h.entered[e].plan, h.entered[f].plan))
            && |h.entered| <= |h.consumed| <= |h.issued|
  {
    ReachableInv(cfg, s);
    var h, grants := s.history, OnDisk(s.disk);
    forall i, j | 0 <= i < j < |h.issued| ensures !SamePlan(h.issued[i].plan, h.issued[j].plan) {
      assert IssuesApart(cfg, h.issued[i], h.issued[j]);
    }
    forall c, d | 0 <= c < d < |h.consumed| ensures !SamePlan(h.consumed[c].plan, h.consumed[d].plan) {
      IssuesKeepApart(cfg, s, c, d);
    }
    forall e, f | 0 <= e < f < |h.entered| ensures !SamePlan(h.entered[e].plan, h.entered[f].plan) {
      var c, d := h.entered[e].consumption, h.entered[f].consumption;
      assert EntryOk(cfg, s.clock, h.consumed, h.entered[e]) && EntryOk(cfg, s.clock, h.consumed, h.entered[f]);
      assert h.consumed[if c < d then c else d].grant != h.consumed[if c < d then d else c].grant;
      IssuesKeepApart(cfg, s, c, d);
    }
    CountsOrdered(cfg, s);
  }

  lemma CountsOrdered(cfg: Config, s: State)
    requires Inv(cfg, s)
    ensures |s.history.entered| <= |s.history.consumed| <= |s.history.issued|
  {
    var h, grants := s.history, OnDisk(s.disk);
    var acted := seq(|h.entered|, e requires 0 <= e < |h.entered| => h.entered[e].consumption);
    forall e | 0 <= e < |acted| ensures acted[e] < |h.consumed| {
      assert EntryOk(cfg, s.clock, h.consumed, h.entered[e]);
    }
    Pigeonhole(acted, |h.consumed|);
    var spent := seq(|h.consumed|, c requires 0 <= c < |h.consumed| => h.consumed[c].grant);
    forall c | 0 <= c < |spent| ensures spent[c] < |h.issued| {
      assert ConsumeOk(cfg, s.clock, grants, h.consumed[c]);
    }
    Pigeonhole(spent, |h.issued|);
  }

  // ---- Crash consistency ----

  /** In every reachable state the file holds well-formed grants, and while the process is up memory holds the same. */
  lemma MemoryIsDisk(cfg: Config, s: State)
    requires Reachable(cfg, s)
    ensures WellFormed(OnDisk(s.disk)) && Records(s.disk, OnDisk(s.disk))
    ensures s.process.Up? ==> s.process.grants == OnDisk(s.disk)
  {
    ReachableInv(cfg, s);
    LedgerWellFormed(cfg, s.clock, OnDisk(s.disk), s.history);
  }

  /** In every reachable state each stored grant names as its approver a human with the confirm permission, other than
      the actor whose plan it grants: the very approver whose confirmation issued it. */
  lemma ApproversOnRecord(cfg: Config, s: State, i: nat)
    requires Reachable(cfg, s) && i < |OnDisk(s.disk)|
    ensures var g := OnDisk(s.disk)[i].grant;
            && g.approver.kind == Human && CONFIRM in g.approver.permissions && g.approver.id != g.subjectActorID
            && i < |s.history.issued| && g.approver == s.history.issued[i].approver
            && g.subjectActorID == s.history.issued[i].plan.actor.id && g.issuedAt == s.history.issued[i].at
  {
    ReachableInv(cfg, s);
    assert IssueOk(cfg, s.clock, s.history.issued[i]) && Faithful(cfg, OnDisk(s.disk)[i], s.history.issued[i]);
    FaithfulFields(cfg, OnDisk(s.disk)[i], s.history.issued[i]);
  }

  /** Hence memory is always what reopening the file would give, exactly as long as the encoding stays within what
      `load` accepts. */
  lemma CrashConsistency(cfg: Config, s: State)
    requires Reachable(cfg, s) && s.process.Up?
    ensures LoadResult(cfg.size, s.disk) == Ok(s.process.grants) <==> Fits(cfg.size, s.disk)
  {
    MemoryIsDisk(cfg, s);
    ReopenIff(cfg.size, s.disk, OnDisk(s.disk));
  }

  /** A crash loses no grant: restarting brings back exactly the grants memory held, if and only if the file fits. */
  lemma CrashThenRestart(cfg: Config, s: State, policy: ServicePolicy, units: seq<string>, actors: Authenticator)
    requires Reachable(cfg, s) && s.process.Up? && LegalPolicy(policy, units)
    ensures var t := Apply(cfg, Apply(cfg, s, Crash), Restart(policy, units, actors));
            && (t.process.Up? <==> Fits(cfg.size, s.disk))
            && (t.process.Up? ==> t.process.grants == s.process.grants)
            && t.disk == s.disk && t.history == s.history
  {
    MemoryIsDisk(cfg, s);
    ReopenIff(cfg.size, s.disk, OnDisk(s.disk));
  }

  // ---- Time window ----

  /** Every consumption lies in the window of its plan and its grant. */
  lemma TimeWindow(cfg: Config, s: State, k: nat)
    requires Reachable(cfg, s) && LegalConfig(cfg) && k < |s.history.consumed|
    ensures var c := s.history.consumed[k];
            && c.grant < |OnDisk(s.disk)| && c.grant < |s.history.issued|
            && (var g, plan := OnDisk(s.disk)[c.grant].grant, IssueOf(s.history, c).plan;
                && plan.createdAt - 30 * SECOND <= g.issuedAt <= g.usedAt < g.expiresAt
                && g.expiresAt <= g.issuedAt + 15 * MINUTE && g.expiresAt <= plan.expiresAt
                && g.usedAt < plan.createdAt + 15 * MINUTE && g.usedAt == c.at)
  {
    ReachableInv(cfg, s);
    var c := s.history.consumed[k];
    ConsumptionMatchesIssue(cfg, s, k);
    assert ConsumeOk(cfg, s.clock, OnDisk(s.disk), c);
    assert Faithful(cfg, OnDisk(s.disk)[c.grant], s.history.issued[c.grant]);
    FaithfulFields(cfg, OnDisk(s.disk)[c.grant], s.history.issued[c.grant]);
  }

  // ---- The grant list refines a map from tokens to unused or used ----

  lemma OnlyItsGrantOpens(cfg: Config, clock: Time, grants: seq<StoredGrant>, issued: seq<IssueRecord>, i: nat)
    requires IssuesOk(cfg, clock, grants, issued) && i < |issued|
    ensures FirstOpened(cfg.tokenHash, grants, issued[i].token, 0) == i
  {
    var j := FirstOpened(cfg.tokenHash, grants, issued[i].token, 0);
    FaithfulFields(cfg, grants[i], issued[i]);
    DecodeDigest(cfg.tokenHash(issued[i].token));
    assert Opens(cfg.tokenHash, grants[i], issued[i].token);
    if j < i {
      assert IssuesApart(cfg, issued[j], issued[i]);
      FaithfulFields(cfg, grants[j], issued[j]);
      DecodeDigest(cfg.tokenHash(issued[j].token));
    }
  }

  /** Some consumption used this grant. */
  ghost predicate Spent(h: History, i: nat) {
    exists c :: 0 <= c < |h.consumed| && h.consumed[c].grant == i
  }

  lemma SpentIffUsed(cfg: Config, s: State, i: nat)
    requires Inv(cfg, s) && i < |OnDisk(s.disk)|
    ensures Spent(s.history, i) <==> OnDisk(s.disk)[i].grant.usedAt != ZERO_TIME
  {
    if Spent(s.history, i) {
      var c :| 0 <= c < |s.history.consumed| && s.history.consumed[c].grant == i;
      assert ConsumeOk(cfg, s.clock, OnDisk(s.disk), s.history.consumed[c]);
    }
  }

  lemma DecisionOnBound(cfg: Config, grants: seq<StoredGrant>, token: string, plan: OperationPlan, now: Time, i: nat)
    requires i < |grants| && FirstOpened(cfg.tokenHash, grants, token, 0) == i && !Blank(token)
    requires plan.schema == PLAN_SCHEMA && plan.valid && plan.requiresConfirmation && VerifyPlanDigest(cfg.hash, plan)
    requires Binds(grants[i].grant, plan, plan.actor.id, plan.action) && grants[i].grant.expiresAt <= plan.expiresAt
    ensures ConsumeDecision(cfg.hash, cfg.tokenHash, grants, token, plan, plan.actor.id, plan.action, now) == Ok(i) <==>
            grants[i].grant.usedAt == ZERO_TIME && now < grants[i].grant.expiresAt
  {}

  lemma IssuedGrantBinds(cfg: Config, s: State, i: nat)
    requires Inv(cfg, s) && i < |s.history.issued|
    ensures var g, r := OnDisk(s.disk)[i].grant, s.history.issued[i];
            && Binds(g, r.plan, r.plan.actor.id, r.plan.action) && g.expiresAt == Min(r.at + cfg.ttl, r.plan.expiresAt)
            && !Blank(r.token) && VerifyPlanDigest(cfg.hash, r.plan)
            && r.plan.schema == PLAN_SCHEMA && r.plan.valid && r.plan.requiresConfirmation
  {
    var r := s.history.issued[i];
    assert IssueOk(cfg, s.clock, r) && Faithful(cfg, OnDisk(s.disk)[i], r);
    FaithfulFields(cfg, OnDisk(s.disk)[i], r);
    PassedFacts(cfg, r.catalog, r.plan, r.validatedAt);
  }

  /** `Consume` would now accept the i-th token for its own plan, and mark its own grant. */
  predicate Consumable(cfg: Config, s: State, i: nat)
    requires s.process.Up? && i < |s.history.issued|
  {
    var r := s.history.issued[i];
    ConsumeDecision(cfg.hash, cfg.tokenHash, s.process.grants, r.token, r.plan, r.plan.actor.id, r.plan.action, s.clock)
      == Ok(i)
  }

  /** The i-th token, looked at as an entry of a map from tokens to unused or used, with its expiry. */
  ghost predicate Live(cfg: Config, s: State, i: nat)
    requires i < |s.history.issued|
  {
    !Spent(s.history, i) && s.clock < Min(s.history.issued[i].at + cfg.ttl, s.history.issued[i].plan.expiresAt)
  }

  lemma UsableInState(cfg: Config, s: State, i: nat)
    requires Inv(cfg, s) && s.process.Up? && i < |s.history.issued|
    ensures Consumable(cfg, s, i) <==> Live(cfg, s, i)
  {
    IssuedGrantBinds(cfg, s, i);
    OnlyItsGrantOpens(cfg, s.clock, OnDisk(s.disk), s.history.issued, i);
    SpentIffUsed(cfg, s, i);
    DecisionOnBound(cfg, OnDisk(s.disk), s.history.issued[i].token, s.history.issued[i].plan, s.clock, i);
  }

  /** In every state of every run with the process up, the token of an issued grant can be consumed for its plan
      exactly as long as it was not consumed before and has not expired, whatever else happened in between. */
  lemma TokenUsable(cfg: Config, s: State, i: nat)
    requires Reachable(cfg, s)
    requires s.process.Up? && i < |s.history.issued|
    ensures Consumable(cfg, s, i) <==> Live(cfg, s, i)
  {
    ReachableInv(cfg, s);
    UsableInState(cfg, s, i);
  }

  lemma DecisionMeans(cfg: Config, grants: seq<StoredGrant>, token: string, plan: OperationPlan, subject: string,
                      action: string, now: Time)
    requires ConsumeDecision(cfg.hash, cfg.tokenHash, grants, token, plan, subject, action, now).Ok?
    ensures var i := ConsumeDecision(cfg.hash, cfg.tokenHash, grants, token, plan, subject, action, now).value;
            && i == FirstOpened(cfg.tokenHash, grants, token, 0) && Binds(grants[i].grant, plan, subject, action)
            && VerifyPlanDigest(cfg.hash, plan)
  {}

  lemma BoundInState(cfg: Config, s: State, i: nat, plan: OperationPlan, subject: string, action: string)
    requires Inv(cfg, s) && s.process.Up? && i < |s.history.issued|
    requires ConsumeDecision(cfg.hash, cfg.tokenHash, s.process.grants, s.history.issued[i].token, plan, subject,
                             action, s.clock).Ok?
    ensures ConsumeDecision(cfg.hash, cfg.tokenHash, s.process.grants, s.history.issued[i].token, plan, subject, action,
                            s.clock).value == i
    ensures Binds(OnDisk(s.disk)[i].grant, plan, subject, action) && VerifyPlanDigest(cfg.hash, plan)
  {
    OnlyItsGrantOpens(cfg, s.clock, OnDisk(s.disk), s.history.issued, i);
    DecisionMeans(cfg, s.process.grants, s.history.issued[i].token, plan, subject, action, s.clock);
  }

  /** A token is refused for every plan other than the one it was issued for. */
  lemma TokenBound(cfg: Config, s: State, i: nat, plan: OperationPlan, subject: string, action: string)
    requires Reachable(cfg, s)
    requires s.process.Up? && i < |s.history.issued|
    requires ConsumeDecision(cfg.hash, cfg.tokenHash, s.process.grants, s.history.issued[i].token, plan, subject,
                             action, s.clock).Ok?
    ensures var r := s.history.issued[i];
            && SamePlan(r.plan, plan) && subject == r.plan.actor.id && action == r.plan.action
            && plan.sessionID == r.plan.sessionID && cfg.hash(Canonical(plan)) == cfg.hash(Canonical(r.plan))
  {
    ReachableInv(cfg, s);
    BoundInState(cfg, s, i, plan, subject, action);
    IssuedGrantBinds(cfg, s, i);
    SameDigestSameHash(cfg.hash, s.history.issued[i].plan, plan);
  }

  ghost predicate Extends(h: History, k: History) {
    h.issued <= k.issued && h.consumed <= k.consumed && h.entered <= k.entered
  }

  lemma StepExtends(cfg: Config, s: State, step: Step)
    ensures Extends(s.history, Apply(cfg, s, step).history)
  {}

  /** Nothing a run did is undone: an issued grant keeps its index through every continuation. */
  lemma {:induction false} HistoryGrows(cfg: Config, s: State, steps: seq<Step>)
    ensures Extends(s.history, Run(cfg, s, steps).history)
  {
    if steps != [] {
      var front := steps[..|steps| - 1];
      HistoryGrows(cfg, s, front);
      StepExtends(cfg, Run(cfg, s, front), steps[|steps| - 1]);
    }
  }

  /** A token handed out at some point of a run stays usable through every continuation, whatever failed attempts,
      other issues and consumptions, crashes and restarts it holds: until it is used or expires, and not after. */
  lemma TokenSurvives(cfg: Config, s: State, steps: seq<Step>, i: nat)
    requires Reachable(cfg, s) && i < |s.history.issued|
    ensures i < |Run(cfg, s, steps).history.issued| && Run(cfg, s, steps).history.issued[i] == s.history.issued[i]
    ensures Run(cfg, s, steps).process.Up? ==>
              (Consumable(cfg, Run(cfg, s, steps), i) <==> Live(cfg, Run(cfg, s, steps), i))
  {
    HistoryGrows(cfg, s, steps);
    ReachableGoesOn(cfg, s, steps);
    if Run(cfg, s, steps).process.Up? {
      TokenUsable(cfg, Run(cfg, s, steps), i);
    }
  }

  // ---- Revalidation after consumption ----

  /** After a grant was consumed, the checks repeated before the handler can refuse only because the plan expired
      in the meantime; the executor's authority is never what fails. */
  lemma OnlyExpiryAfterConsumption(cfg: Config, s: State, task: nat)
    requires Reachable(cfg, s)
    requires s.process.Up? && task in s.process.executions && s.process.executions[task].ExecuteConsumed?
    ensures var x := s.process.executions[task];
            && MayMutate(x.executor)
            && ApprovedPlanProblem(cfg.hash, s.process.operations, x.plan, s.clock)
               == (if x.plan.expiresAt <= s.clock then Some(ExpiredPlan) else None)
  {
    ReachableInv(cfg, s);
    var x := s.process.executions[task];
    assert ExecutionOk(cfg, s.clock, s.process.operations, s.history, x);
    RevalidationOnlyExpires(cfg.hash, s.process.operations, x.plan, x.validatedAt, s.clock);
  }

  lemma EnterOutcome(cfg: Config, s: State, task: nat)
    requires s.process.Up? && task in s.process.executions && s.process.executions[task].ExecuteConsumed?
    requires MayMutate(s.process.executions[task].executor)
    requires ServiceCatalog(s.process.operations, s.process.targets, s.process.policy)
    requires var plan := s.process.executions[task].plan;
             ApprovedPlanProblem(cfg.hash, s.process.operations, plan, s.clock)
               == (if plan.expiresAt <= s.clock then Some(ExpiredPlan) else None)
    ensures var plan, entered := s.process.executions[task].plan, EnterStep(cfg, s, task).history.entered;
            if s.clock < plan.expiresAt && Trimmed(plan.action) then
              && UnitOf(plan) in s.process.targets
              && entered
                 == s.history.entered + [EntryRecord(s.process.executions[task].consumption, plan,
                                                     s.process.executions[task].executor,
                                                             plan.action, UnitOf(plan), s.clock)]
            else entered == s.history.entered
  {
    var p, plan := s.process, s.process.executions[task].plan;
    if s.clock < plan.expiresAt {
      HandlerFoundIffTrimmed(cfg.hash, p.operations, p.targets, p.policy, plan, s.clock);
      if plan.action in p.operations {
        EntryFacts(cfg, p.operations, p.targets, p.policy, plan, s.clock);
      }
    }
  }

  /** Hence a consumed execution that goes on enters the handler exactly when the plan has not expired and its action
      carries no surrounding space; it then acts on its own plan, and its unit is a transaction target. */
  lemma EntersExactlyWhen(cfg: Config, s: State, task: nat)
    requires Reachable(cfg, s)
    requires s.process.Up? && task in s.process.executions && s.process.executions[task].ExecuteConsumed?
    ensures var x := s.process.executions[task];
            var entered := Apply(cfg, s, ExecuteEnters(task)).history.entered;
            if s.clock < x.plan.expiresAt && Trimmed(x.plan.action) then
              && UnitOf(x.plan) in s.process.targets
              && entered
                 == s.history.entered + [EntryRecord(x.consumption, x.plan, x.executor, x.plan.action, UnitOf(x.plan),
                                                     s.clock)]
            else entered == s.history.entered
  {
    OnlyExpiryAfterConsumption(cfg, s, task);
    ReachableInv(cfg, s);
    EnterOutcome(cfg, s, task);
    ExecutionEnters(cfg, s, task);
  }
}
