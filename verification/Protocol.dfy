/** The approval protocol as a transition system: concurrent confirm and execute-approved handlers, each
    broken into its steps, over one grant store whose writes may fail, in a process that may crash and be
    restarted from disk under another policy and other credentials.

    A run is a sequence of steps. A step that is not enabled leaves the state alone, so every interleaving
    of handlers, failures and restarts is some sequence. `Issue` and `Consume` are single steps because
    both run under the store's mutex. */
module Protocol {
  import opened Text
  import opened Types
  import opened Plans
  import opened Policy
  import opened Broker
  import opened Grants

  datatype Config = Config(hash: PlanHash, tokenHash: TokenHash, size: EncodedSize, ttl: Time)

  predicate LegalConfig(cfg: Config) {
    0 < cfg.ttl <= MAX_GRANT_TTL
  }

  type Authenticator = string -> Option<Actor>

  const MAX_ACTOR_TOKEN := 4096

  function Authenticate(actors: Authenticator, token: string): Option<Actor> {
    var t := Trim(token);
    if t == "" || ByteLength(t) > MAX_ACTOR_TOKEN then None else actors(t)
  }

  predicate MayConfirm(a: Actor) {
    a.kind == Human && HasPermission(a, CONFIRM)
  }

  predicate MayMutate(a: Actor) {
    a.kind != Tci && HasPermission(a, EXECUTE_MUTATE)
  }

  // ---- What a run leaves behind ----

  /** A grant that became durable: the plan confirmed, its approver, and the token handed out. */
  datatype IssueRecord = IssueRecord(
    plan: OperationPlan, approver: Actor, token: string, id: string, at: Time, catalog: Operations, validatedAt: Time)

  /** A grant durably marked as used, by its index in the store. */
  datatype ConsumeRecord = ConsumeRecord(grant: nat, plan: OperationPlan, executor: Actor, at: Time)

  /** The mutation handler was entered: the primary mutator call, on behalf of one consumption. */
  datatype EntryRecord = EntryRecord(
    consumption: nat, plan: OperationPlan, executor: Actor, action: string, unit: string, at: Time)

  datatype History = History(issued: seq<IssueRecord>, consumed: seq<ConsumeRecord>, entered: seq<EntryRecord>)

  // ---- States ----

  datatype Confirmation =
    | ConfirmReceived(plan: OperationPlan, actorToken: string)
    | ConfirmValidated(plan: OperationPlan, actorToken: string, validatedAt: Time)
    | ConfirmAllowed(plan: OperationPlan, approver: Actor, validatedAt: Time)

  datatype Execution =
    | ExecuteReceived(plan: OperationPlan, token: string, actorToken: string)
    | ExecuteAllowed(plan: OperationPlan, token: string, executor: Actor)
    | ExecuteValidated(plan: OperationPlan, token: string, executor: Actor, validatedAt: Time)
    | ExecuteConsumed(plan: OperationPlan, executor: Actor, validatedAt: Time, consumption: nat)

  datatype Process =
    | Down
    | Up(policy: ServicePolicy, operations: Operations, targets: map<string, string>, actors: Authenticator,
         grants: seq<StoredGrant>, confirmations: map<nat, Confirmation>, executions: map<nat, Execution>)

  datatype State = State(clock: Time, disk: Contents, process: Process, history: History)

  function Init(clock: Time): State {
    State(clock, Absent, Down, History([], [], []))
  }

  /** How a write ends: it fails and leaves the file, it succeeds, or the process dies right after the rename. */
  datatype Write = WriteFails | WriteSucceeds | WriteThenCrash

  datatype Step =
    | Advance(to: Time)
    | Crash
    | Restart(policy: ServicePolicy, units: seq<string>, actors: Authenticator)
    | ConfirmArrives(task: nat, plan: OperationPlan, actorToken: string)
    | ConfirmValidates(task: nat)
    | ConfirmAuthenticates(task: nat)
    | ConfirmIssues(task: nat, token: string, id: string, write: Write)
    | ExecuteArrives(task: nat, plan: OperationPlan, token: string, actorToken: string)
    | ExecuteAuthenticates(task: nat)
    | ExecuteValidates(task: nat)
    | ExecuteConsumes(task: nat, write: Write)
    | ExecuteEnters(task: nat)

  /** Tokens and identifiers come from the system's random source. */
  predicate FreshChoice(cfg: Config, grants: seq<StoredGrant>, token: string, id: string) {
    && !Blank(token) && id != ""
    && forall i :: 0 <= i < |grants| ==> grants[i].tokenSHA256 != cfg.tokenHash(token) && grants[i].grant.id != id
  }

  function Saved(grants: seq<StoredGrant>): Contents {
    Stored(GrantState(GRANT_STORE_SCHEMA, grants))
  }

  function UnitOf(plan: OperationPlan): string {
    match ExactParameters(plan.parameters)
    case Some(m) => if UNIT in m then m[UNIT] else ""
    case None => ""
  }

  function RestartProcess(cfg: Config, disk: Contents, policy: ServicePolicy, units: seq<string>,
                          actors: Authenticator): Process {
    match LoadResult(cfg.size, disk)
    case Err(_) => Down
    case Ok(grants) =>
      Up(policy, WithMutations(READ_OPERATIONS, units), map u | u in policy :: policy[u].healthURL, actors, grants,
         map[], map[])
  }

  predicate LegalPolicy(policy: ServicePolicy, units: seq<string>) {
    && Narrows(policy)
    && (forall i :: 0 <= i < |units| ==> units[i] in policy)
    && (forall u :: u in policy ==> u in units)
  }

  function IssueStep(cfg: Config, s: State, task: nat, token: string, id: string, write: Write): State
    requires s.process.Up? && task in s.process.confirmations && s.process.confirmations[task].ConfirmAllowed?
  {
    var p, c := s.process, s.process.confirmations[task];
    if IssueProblem(cfg.hash, p.grants, c.plan, c.approver, s.clock).Some? || write.WriteFails?
    then s.(process := p.(confirmations := p.confirmations - {task}))
    else IssuedState(cfg, s, task, token, id, write)
  }

  /** The new grant is durable; the process may be gone. */
  function IssuedState(cfg: Config, s: State, task: nat, token: string, id: string, write: Write): State
    requires s.process.Up? && task in s.process.confirmations && s.process.confirmations[task].ConfirmAllowed?
  {
    var p, c := s.process, s.process.confirmations[task];
    var grants := p.grants + [NewGrant(cfg.tokenHash, cfg.ttl, c.plan, c.approver, s.clock, token, id)];
    var record := IssueRecord(c.plan, c.approver, token, id, s.clock, p.operations, c.validatedAt);
    State(
      s.clock, Saved(grants),
      if write.WriteThenCrash? then Down else p.(grants := grants, confirmations := p.confirmations - {task}),
      s.history.(issued := s.history.issued + [record]))
  }

  function ConsumeStep(cfg: Config, s: State, task: nat, write: Write): State
    requires s.process.Up? && task in s.process.executions && s.process.executions[task].ExecuteValidated?
  {
    var p, x := s.process, s.process.executions[task];
    var rejected := s.(process := p.(executions := p.executions - {task}));
    match ConsumeDecision(cfg.hash, cfg.tokenHash, p.grants, x.token, x.plan, x.plan.actor.id, x.plan.action, s.clock)
    case Err(_) => rejected
    case Ok(i) => if write.WriteFails? then rejected else ConsumedState(s, task, i, write)
  }

  /** The use of the i-th grant is durable; the process may be gone. */
  function ConsumedState(s: State, task: nat, i: nat, write: Write): State
    requires s.process.Up? && task in s.process.executions && s.process.executions[task].ExecuteValidated?
    requires i < |s.process.grants|
  {
    var p, x := s.process, s.process.executions[task];
    var grants := Used(p.grants, i, s.clock);
    var next := ExecuteConsumed(x.plan, x.executor, x.validatedAt, |s.history.consumed|);
    State(
      s.clock, Saved(grants),
      if write.WriteThenCrash? then Down else p.(grants := grants, executions := p.executions[task := next]),
      s.history.(consumed := s.history.consumed + [ConsumeRecord(i, x.plan, x.executor, s.clock)]))
  }

  /** ExecuteApproved: authorize and validate again, look the raw action up, and run its handler. An action
      that is not found calls a nil handler, which ends the request. */
  function EnterStep(cfg: Config, s: State, task: nat): State
    requires s.process.Up? && task in s.process.executions && s.process.executions[task].ExecuteConsumed?
  {
    var p, x := s.process, s.process.executions[task];
    var done := s.(process := p.(executions := p.executions - {task}));
    if !MayMutate(x.executor) || ApprovedPlanProblem(cfg.hash, p.operations, x.plan, s.clock).Some? then done
    else if x.plan.action !in p.operations then done
    else
      match p.operations[x.plan.action].handler
      case TransactionHandler(action) =>
        var record := EntryRecord(x.consumption, x.plan, x.executor, action, UnitOf(x.plan), s.clock);
        done.(history := s.history.(entered := s.history.entered + [record]))
      case _ => done
  }

  function ConfirmStep(cfg: Config, s: State, step: Step): State
    requires s.process.Up?
    requires step.ConfirmArrives? || step.ConfirmValidates? || step.ConfirmAuthenticates? || step.ConfirmIssues?
  {
    var p := s.process;
    if step.ConfirmArrives? then
      if step.task in p.confirmations then s
      else s.(process := p.(confirmations := p.confirmations[step.task := ConfirmReceived(step.plan, step.actorToken)]))
    else if step.task !in p.confirmations then s
    else
      var c, gone := p.confirmations[step.task], s.(process := p.(confirmations := p.confirmations - {step.task}));
      match step
      case ConfirmValidates(task) =>
        if !c.ConfirmReceived? then s
        else if ApprovedPlanProblem(cfg.hash, p.operations, c.plan, s.clock).Some? then gone
        else s.(process := p.(confirmations := p.confirmations[task := ConfirmValidated(c.plan, c.actorToken,
                                                                                        s.clock)]))
      case ConfirmAuthenticates(task) =>
        if !c.ConfirmValidated? then s
        else
          (match Authenticate(p.actors, c.actorToken)
           case None => gone
           case Some(a) =>
             if !MayConfirm(a) then gone
             else s.(process := p.(confirmations := p.confirmations[task := ConfirmAllowed(c.plan, a, c.validatedAt)])))
      case ConfirmIssues(task, token, id, write) =>
        if c.ConfirmAllowed? && FreshChoice(cfg, p.grants, token, id) then IssueStep(cfg, s, task, token, id, write)
        else s
  }

  function ExecuteStep(cfg: Config, s: State, step: Step): State
    requires s.process.Up?
    requires step.ExecuteArrives? || step.ExecuteAuthenticates? || step.ExecuteValidates? || step.ExecuteConsumes?
             || step.ExecuteEnters?
  {
    var p := s.process;
    if step.ExecuteArrives? then
      if step.task in p.executions then s
      else s.(process := p.(executions := p.executions[step.task := ExecuteReceived(step.plan, step.token,
                                                                                    step.actorToken)]))
    else if step.task !in p.executions then s
    else
      var x, gone := p.executions[step.task], s.(process := p.(executions := p.executions - {step.task}));
      match step
      case ExecuteAuthenticates(task) =>
        if !x.ExecuteReceived? then s
        else
          (match Authenticate(p.actors, x.actorToken)
           case None => gone
           case Some(a) =>
             if !MayMutate(a) then gone
             else s.(process := p.(executions := p.executions[task := ExecuteAllowed(x.plan, x.token, a)])))
      case ExecuteValidates(task) =>
        if !x.ExecuteAllowed? then s
        else if ApprovedPlanProblem(cfg.hash, p.operations, x.plan, s.clock).Some? then gone
        else s.(process := p.(executions := p.executions[task := ExecuteValidated(x.plan, x.token, x.executor,
                                                                                  s.clock)]))
      case ExecuteConsumes(task, write) =>
        if x.ExecuteValidated? then ConsumeStep(cfg, s, task, write) else s
      case ExecuteEnters(task) =>
        if x.ExecuteConsumed? then EnterStep(cfg, s, task) else s
  }

  function Apply(cfg: Config, s: State, step: Step): State {
    match step
    case Advance(to) => if s.clock <= to then s.(clock := to) else s
    case Crash => s.(process := Down)
    case Restart(policy, units, actors) =>
      if s.process.Down? && LegalPolicy(policy, units)
      then s.(process := RestartProcess(cfg, s.disk, policy, units, actors))
      else s
    case ConfirmArrives(_, _, _) => if s.process.Up? then ConfirmStep(cfg, s, step) else s
    case ConfirmValidates(_) => if s.process.Up? then ConfirmStep(cfg, s, step) else s
    case ConfirmAuthenticates(_) => if s.process.Up? then ConfirmStep(cfg, s, step) else s
    case ConfirmIssues(_, _, _, _) => if s.process.Up? then ConfirmStep(cfg, s, step) else s
    case _ => if s.process.Up? then ExecuteStep(cfg, s, step) else s
  }

  predicate OfConfirm(step: Step) {
    step.ConfirmArrives? || step.ConfirmValidates? || step.ConfirmAuthenticates? || step.ConfirmIssues?
  }

  predicate OfExecute(step: Step) {
    || step.ExecuteArrives? || step.ExecuteAuthenticates? || step.ExecuteValidates? || step.ExecuteConsumes?
    || step.ExecuteEnters?
  }

  lemma ConfirmApplied(cfg: Config, s: State, step: Step)
    requires s.process.Up? && OfConfirm(step)
    ensures Apply(cfg, s, step) == ConfirmStep(cfg, s, step)
  {}

  predicate IssueEnabled(cfg: Config, s: State, step: Step)
    requires s.process.Up? && step.ConfirmIssues?
  {
    && step.task in s.process.confirmations && s.process.confirmations[step.task].ConfirmAllowed?
    && FreshChoice(cfg, s.process.grants, step.token, step.id)
  }

  lemma IssueApplied(cfg: Config, s: State, step: Step)
    requires s.process.Up? && step.ConfirmIssues?
    ensures ConfirmStep(cfg, s, step) ==
            if IssueEnabled(cfg, s, step) then IssueStep(cfg, s, step.task, step.token, step.id, step.write) else s
  {}

  lemma ExecuteApplied(cfg: Config, s: State, step: Step)
    requires s.process.Up? && OfExecute(step)
    ensures Apply(cfg, s, step) == ExecuteStep(cfg, s, step)
  {}

  /** The state after a run. */
  function Run(cfg: Config, s: State, steps: seq<Step>): State {
    if steps == [] then s else Apply(cfg, Run(cfg, s, steps[..|steps| - 1]), steps[|steps| - 1])
  }

  /** Some run from an empty disk, started after the zero time, ends in this state. */
  ghost predicate Reachable(cfg: Config, s: State) {
    exists clock: Time, steps: seq<Step> :: clock > ZERO_TIME && s == Run(cfg, Init(clock), steps)
  }

  lemma {:induction false} RunsCompose(cfg: Config, s: State, before: seq<Step>, after: seq<Step>)
    ensures Run(cfg, Run(cfg, s, before), after) == Run(cfg, s, before + after)
    decreases |after|
  {
    var steps := before + after;
    if after == [] {
      assert steps == before;
    } else {
      assert steps[..|steps| - 1] == before + after[..|after| - 1];
      RunsCompose(cfg, s, before, after[..|after| - 1]);
    }
  }

  /** What follows a reachable state is reachable. */
  lemma ReachableGoesOn(cfg: Config, s: State, steps: seq<Step>)
    requires Reachable(cfg, s)
    ensures Reachable(cfg, Run(cfg, s, steps))
  {
    var clock: Time, before: seq<Step> :| clock > ZERO_TIME && s == Run(cfg, Init(clock), before);
    RunsCompose(cfg, Init(clock), before, steps);
  }

  lemma Restarts(cfg: Config, s: State, policy: ServicePolicy, units: seq<string>, actors: Authenticator)
    requires s.process.Down? && LegalPolicy(policy, units)
    ensures Apply(cfg, s, Restart(policy, units, actors))
              == s.(process := RestartProcess(cfg, s.disk, policy, units, actors))
  {}

  lemma ExecutionEnters(cfg: Config, s: State, task: nat)
    requires s.process.Up? && task in s.process.executions && s.process.executions[task].ExecuteConsumed?
    ensures Apply(cfg, s, ExecuteEnters(task)) == EnterStep(cfg, s, task)
  {}

  // ---- The ledger invariant: grants, and what they record ----

  /** The plan passed the broker's validation at `t` under the catalog of that moment. */
  predicate PassedAt(cfg: Config, catalog: Operations, plan: OperationPlan, t: Time) {
    ApprovedPlanProblem(cfg.hash, catalog, plan, t).None?
  }

  predicate SamePlan(p: OperationPlan, q: OperationPlan) {
    p.id == q.id && EqualFold(p.digest, q.digest)
  }

  predicate IssueOk(cfg: Config, clock: Time, r: IssueRecord) {
    && PassedAt(cfg, r.catalog, r.plan, r.validatedAt) && r.validatedAt <= r.at
    && ZERO_TIME < r.at <= clock && r.at < r.plan.expiresAt
    && MayApprove(r.approver, r.plan) && !Blank(r.token) && r.id != ""
  }

  /** The stored grant is the one issued, up to its use. */
  predicate Faithful(cfg: Config, g: StoredGrant, r: IssueRecord) {
    g.(grant := g.grant.(usedAt := ZERO_TIME))
      == NewGrant(cfg.tokenHash, cfg.ttl, r.plan, r.approver, r.at, r.token, r.id)
  }

  predicate IssuesApart(cfg: Config, a: IssueRecord, b: IssueRecord) {
    !SamePlan(a.plan, b.plan) && a.id != b.id && cfg.tokenHash(a.token) != cfg.tokenHash(b.token)
  }

  predicate IssuesOk(cfg: Config, clock: Time, grants: seq<StoredGrant>, issued: seq<IssueRecord>) {
    && |grants| == |issued|
    && (forall i :: 0 <= i < |issued| ==> IssueOk(cfg, clock, issued[i]) && Faithful(cfg, grants[i], issued[i]))
    && (forall i, j :: 0 <= i < j < |issued| ==> IssuesApart(cfg, issued[i], issued[j]))
  }

  predicate ConsumeOk(cfg: Config, clock: Time, grants: seq<StoredGrant>, c: ConsumeRecord) {
    && c.grant < |grants| && MayMutate(c.executor)
    && ZERO_TIME < c.at <= clock && grants[c.grant].grant.usedAt == c.at
    && grants[c.grant].grant.issuedAt <= c.at < grants[c.grant].grant.expiresAt
    && Binds(grants[c.grant].grant, c.plan, c.plan.actor.id, c.plan.action)
    && VerifyPlanDigest(cfg.hash, c.plan)
  }

  ghost predicate ConsumesOk(cfg: Config, clock: Time, grants: seq<StoredGrant>, consumed: seq<ConsumeRecord>) {
    && (forall c :: 0 <= c < |consumed| ==> ConsumeOk(cfg, clock, grants, consumed[c]))
    && (forall c, d :: 0 <= c < d < |consumed| ==> consumed[c].grant != consumed[d].grant)
    && (forall i :: 0 <= i < |grants| && grants[i].grant.usedAt != ZERO_TIME ==>
          exists c :: 0 <= c < |consumed| && consumed[c].grant == i)
  }

  predicate EntryOk(cfg: Config, clock: Time, consumed: seq<ConsumeRecord>, e: EntryRecord) {
    && e.consumption < |consumed| && e.plan == consumed[e.consumption].plan
    && e.executor == consumed[e.consumption].executor
    && consumed[e.consumption].at <= e.at <= clock
    && e.action == e.plan.action && IsMutation(e.action)
    && ExactParameters(e.plan.parameters) == Some(map[UNIT := e.unit]) && e.unit in COMPILED
  }

  predicate EntriesOk(cfg: Config, clock: Time, consumed: seq<ConsumeRecord>, entered: seq<EntryRecord>) {
    && (forall e :: 0 <= e < |entered| ==> EntryOk(cfg, clock, consumed, entered[e]))
    && (forall e, f :: 0 <= e < f < |entered| ==> entered[e].consumption != entered[f].consumption)
  }

  ghost predicate LedgerOk(cfg: Config, clock: Time, grants: seq<StoredGrant>, h: History) {
    && IssuesOk(cfg, clock, grants, h.issued)
    && ConsumesOk(cfg, clock, grants, h.consumed)
    && EntriesOk(cfg, clock, h.consumed, h.entered)
  }

  // ---- The handlers' invariant ----

  predicate ConfirmationOk(cfg: Config, clock: Time, operations: Operations, c: Confirmation) {
    match c
    case ConfirmReceived(_, _) => true
    case ConfirmValidated(plan, _, t) => PassedAt(cfg, operations, plan, t) && t <= clock
    case ConfirmAllowed(plan, a, t) => PassedAt(cfg, operations, plan, t) && t <= clock && MayConfirm(a)
  }

  predicate ExecutionOk(cfg: Config, clock: Time, operations: Operations, h: History, x: Execution) {
    match x
    case ExecuteReceived(_, _, _) => true
    case ExecuteAllowed(_, _, a) => MayMutate(a)
    case ExecuteValidated(plan, _, a, t) => PassedAt(cfg, operations, plan, t) && t <= clock && MayMutate(a)
    case ExecuteConsumed(plan, a, t, k) =>
      && PassedAt(cfg, operations, plan, t) && t <= clock && MayMutate(a)
      && k < |h.consumed| && h.consumed[k].plan == plan && h.consumed[k].executor == a
      && forall e :: 0 <= e < |h.entered| ==> h.entered[e].consumption != k
  }

  predicate ExecutionsApart(executions: map<nat, Execution>) {
    forall i, j ::
      && i in executions && j in executions && i != j
      && executions[i].ExecuteConsumed? && executions[j].ExecuteConsumed? ==>
        executions[i].consumption != executions[j].consumption
  }

  ghost predicate ProcessOk(cfg: Config, s: State) {
    var p := s.process;
    p.Up? ==>
      && Records(s.disk, p.grants)
      && ServiceCatalog(p.operations, p.targets, p.policy)
      && (forall i :: i in p.confirmations ==> ConfirmationOk(cfg, s.clock, p.operations, p.confirmations[i]))
      && (forall i :: i in p.executions ==> ExecutionOk(cfg, s.clock, p.operations, s.history, p.executions[i]))
      && ExecutionsApart(p.executions)
  }

  /** The grants on disk. */
  function OnDisk(disk: Contents): seq<StoredGrant> {
    if disk.Stored? then disk.state.grants else []
  }

  ghost predicate Inv(cfg: Config, s: State) {
    && s.clock > ZERO_TIME
    && Records(s.disk, OnDisk(s.disk))
    && LedgerOk(cfg, s.clock, OnDisk(s.disk), s.history)
    && ProcessOk(cfg, s)
  }
}
