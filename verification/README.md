# Approval protocol of Quantum Control: a Dafny model

Quantum Control lets an actor propose a change to a system service. A human confirms the immutable plan, the privileged
broker `qcored` stores a single-use grant, and an executor consumes that grant before the service is touched. This project
models that path and the durable state it relies on, and proves what it promises over every interleaving of requests,
failed writes, crashes and restarts.

| file | what it models |
|---|---|
| `Text.dfy`, `Bytes.dfy`, `Ordering.dfy`, `Types.dfy` | trimming, case folding, cutting text at a byte limit, sorting by a key, the records exchanged |
| `Plans.dfy`, `PlanCache.dfy` | plans, what their digest covers, reading parameters back, the expiring cache |
| `Policy.dfy`, `Broker.dfy` | the deployment policy, the catalog of operations, admission and revalidation |
| `Grants.dfy` | the grant store: load, issue, consume, persist, roll back |
| `Protocol.dfy`, `Safety.dfy`, `Guarantees.dfy` | the protocol as a transition system, its invariant, the whole-run theorems |
| `Transaction.dfy` | one service transaction against an arbitrary environment and deadline |
| `Handlers.dfy` | one handler as the steps of its task: its answer and the state it leaves, and one handler after another |
| `Server.dfy` | start-up and the request handlers as sequential code, proved to be those steps |
| `Capacity.dfy` | a run whose grant file no restart accepts |
| `Audit.dfy` | the hash-chained audit log |
| `Actors.dfy` | normalization of actors, roles and permissions |

Three layers meet. The classes `GrantStore`, `Registry` and `Server` are the imperative code, each method proved against a
specification function. `Protocol` composes the same functions into a transition system with concurrent handlers.
`Handlers` states outright what a handler answers and the whole state it leaves, and proves this to be where the steps of
its task lead. The methods of `Server` answer and leave exactly that, so the theorems of `Guarantees` are about the code.
`Server.Start` brings the objects up in the state a restart leads to. In every reachable state that the objects hold, with
the clock moved on to the present, a handler may be called for any unused task (`Server.Server.Ready`), and the state it
leaves is reachable again (`Protocol.ReachableGoesOn`).

Lemmas named `…Outright` and `…Exactly` say what a specification function means in the terms of the request, the plan,
the grant or the record at hand, without naming the function's own parts.

## Assumptions

- SHA-256 (FIPS 180-4) over a canonical JSON text is an arbitrary function from canonical records to 64 lower-case
  hexadecimal characters. Where a theorem needs more, it assumes only that the records it speaks of do not collide.
  JSON decoding gives back what was encoded (but for stray bytes, below), and timestamps (section 5.6 of RFC 3339) are formatted injectively, so both
  are represented by the values themselves.
- Tokens and identifiers from the random source are fresh among the stored grants (`Protocol.FreshChoice`). A failing
  random source is one of the ways `Issue` fails.
- Time is a number of nanoseconds since the zero time. The clock starts after it and never goes back. The first half is
  needed: `Grants.SingleUseIffClockRuns` shows what a clock at zero would do.
- A rename replaces the grant file or leaves it alone; the process may die right after it. An audit append writes the
  whole line or nothing; `Audit.UnacknowledgedLineIsFatal` shows why the code needs that.
- Text arrives as valid UTF-8, since it was decoded from JSON. Lengths that the code takes in bytes are in bytes here. A
  text that the audit log cuts is a list of characters and stray bytes (`Bytes`); parameter names and actor fields are
  never cut. Encoding to JSON and decoding again turns a stray byte into the replacement character.
- Case-insensitive comparison folds ASCII letters. Of two compared digests at least one is always hexadecimal.
- Map iteration is in an arbitrary order. The library's sort is modelled by insertion sort where keys are distinct, so
  that the result does not depend on the algorithm (`Plans.DigestOrderFree`).
- When the deadline and a tick fall together, the polling loop takes the deadline. A ticker keeps one undelivered tick.

## Where the code and its documentation differ

The model follows the code.

- docs/SECURITY.md:201 says that truncation makes the audit store fail closed. Dropping whole trailing records leaves a
  valid chain; only a comparison with a head hash kept elsewhere shows it (`Audit.TruncationShowsInHeadOnly`).
- docs/SERVICE-MUTATIONS.md:121 lets a failed transaction attempt a recovery. A transaction that misses its postcondition
  never does: its deadline is shared with recovery and has passed. Recovery acts only after a failed primary call.
- `ExecuteApproved` looks the action up untrimmed although validation trims it. A plan whose action carries a space is
  confirmed, its grant is consumed, and the call of a nil handler ends the request (`Broker.HandlerFoundIffTrimmed`,
  `Broker.UntrimmedActionAccepted`). Plans from `Build` are trimmed.
- `Issue` alone accepts plans whose grants `load` refuses (`Grants.IssueAloneIsNotEnough`); every grant issued through
  the handlers loads, because validation comes first (`Guarantees.MemoryIsDisk`).
- The grant file is written without the 8 MiB bound that `load` enforces (`Grants.ReopenIff`), and the audit log accepts
  a line one byte longer than its scanner can read back (`Audit.LongestLineNeverReopens`). Grants are never removed, so the
  file does outgrow the bound (`Capacity.StoreOutgrowsLoad`).
- Audit labels and values are cut by bytes. A cut inside a character is logged, and the log never opens again
  (`Audit.SplitEventIsCut`, `Audit.CutRecordNeverReopens`).
- Nothing keeps the executor apart from the approver; only the approver and the plan's actor must differ.

## Model

| member | source | states |
|---|---|---|
| Guarantees.ApprovedIsWhatRuns | internal/broker/server.go:79-151 | in every run each handler entry acts on exactly the action and compiled unit of a plan issued earlier, with the same canonical form, approved by a human with confirm permission who is not the plan's actor, executed by a non-TCI actor with mutate permission, in the order issue, consume, enter |
| Guarantees.AtMostOnce | internal/security/grants.go:80-84 | per plan ID and case-folded digest at most one grant is issued, one consumed and one entry made, across crashes and restarts; entries ≤ consumptions ≤ issues |
| Guarantees.MemoryIsDisk | internal/security/grants.go:108-113 | in every reachable state the file lists well-formed grants, and while the process is up memory holds the same, after failed and rolled-back writes too |
| Guarantees.ApproversOnRecord | internal/security/grants.go:74-107 | in every reachable state each stored grant names as approver a human with confirm permission other than its subject: the one whose confirmation issued it, for the actor of that plan |
| Guarantees.CrashConsistency | internal/security/grants.go:164-208 | hence reopening the file gives back what memory holds, exactly as long as the encoding fits |
| Guarantees.CrashThenRestart | internal/security/grants.go:164-208 | a crash and a restart under any policy bring back exactly the grants memory held, if and only if the file fits |
| Guarantees.TimeWindow | internal/security/grants.go:92-107 | CreatedAt − 30 s ≤ IssuedAt ≤ UsedAt < ExpiresAt ≤ IssuedAt + 15 min and plan expiry, and UsedAt < CreatedAt + 15 min, for every consumed grant |
| Guarantees.TokenUsable | internal/security/grants.go:116-162 | in every reachable state an issued token can be consumed for its plan exactly while it is neither consumed nor expired: the list refines a map from tokens to unused or used |
| Guarantees.TokenSurvives | internal/security/grants.go:116-162 | this stays so, for the same grant, through every continuation of the run |
| Guarantees.TokenBound | internal/security/grants.go:147-153 | a token is accepted only for the plan, subject, session and action it was issued for, and the two plans hash alike |
| Guarantees.HistoryGrows | internal/security/grants.go:57-162 | no continuation of a run undoes an issue, a consumption or an entry |
| Guarantees.OnlyExpiryAfterConsumption | internal/broker/mutations.go:180-189 | once a grant is consumed, the repeated checks can refuse for expiry alone |
| Guarantees.EntersExactlyWhen | internal/broker/mutations.go:191-200 | a consumed execution enters its handler exactly when the plan is unexpired and its action is trimmed; it then acts on its own plan's unit, which is a transaction target |
| Safety.StepInv | internal/broker/server.go:79-151 | every step of every handler, every failed write, crash and restart keeps the invariant tying disk, memory, handlers in flight and history together |
| Safety.RunInv | internal/broker/server.go:79-151 | hence it holds in every state of every run |
| Safety.IssueInv | internal/security/grants.go:57-114 | issuing keeps the invariant whether the write succeeds, fails or is followed by a crash |
| Safety.ConsumeInv | internal/security/grants.go:116-162 | consuming keeps the invariant in the same three cases |
| Safety.EnterInv | internal/broker/mutations.go:168-217 | entering the handler keeps the invariant; each consumption is entered at most once |
| Safety.RestartInv | internal/security/grants.go:164-208 | loading after a crash keeps the invariant under a new policy and new credentials |
| Safety.PassedFacts | internal/broker/mutations.go:110-149 | a validated plan carries the nonblank ID, actor, session and action and the time bounds that the grant store relies on |
| Safety.EntryFacts | internal/broker/mutations.go:191-200 | a validated plan whose raw action is catalogued names its own transaction handler and one unit that is a target and compiled |
| Safety.ReachableInv | internal/broker/server.go:79-151 | every reachable state satisfies the invariant |
| Protocol.ReachableGoesOn | internal/broker/server.go:79-151 | what any sequence of steps makes of a reachable state is reachable |
| Server.Server.Ready | internal/broker/server.go:79-151 | objects holding a reachable state meet the handlers' preconditions at any later time: memory and file agree, and the catalog is the broker's own |
| Server.Start | cmd/qcored/main.go:70-134 | the broker comes up exactly when policy, grant store and registry do; it then holds the state that a restart from the file leads to, without requests in flight and with admissible timings |
| Server.Server.HandleConfirm | internal/broker/server.go:79-115 | for this plan, credential, token and clock: its exact answer; a grant answered names this plan, its actor and session, and as approver the authenticated human with confirm permission; forbidden is answered exactly to a known actor who is not that, once the plan is accepted; store and file exactly as the state that the steps of one confirmation lead to |
| Server.Server.HandleExecuteApproved | internal/broker/server.go:117-151 | for this plan, token, credential and clock: its exact answer; forbidden is answered exactly to the unknown, to TCI actors and to those without mutate permission; a refusal leaves store and file alone; otherwise exactly the opened grant is marked, and the handler runs, expires or panics as stated, with the whole report of its transaction; store and file exactly as the state that the steps of one execution lead to |
| Server.Server.Admit | internal/broker/server.go:129-147 | the handler is reached exactly after authorization, validation and consumption of the opened grant, which alone is marked; every refusal leaves store and file alone |
| Server.Server.ScreenConfirmation | internal/broker/server.go:88-100 | the plan is checked before the credential, the credential before the authority, with the refusal of the first that fails; whom it turns away is spelled out |
| Server.Server.ScreenExecution | internal/broker/server.go:129-141 | the executor is checked before the plan; turned away are exactly the unknown, TCI actors and those without mutate permission |
| Server.Server.ExecuteApproved | internal/broker/mutations.go:168-217 | refusal, handler or nil handler, exactly by authority, revalidation and trimming; the handler reports the transaction of the plan's action on its unit, and without it the mutator is not called |
| Server.Server.RunHandler | internal/broker/mutations.go:97-99 | the registered action on the plan's unit, which is a target, with the full report of the transaction |
| Server.Server.HandleExecute | internal/broker/server.go:69-77 | its answer to every request: which read-only handler for which action and parameters, the confirmation refusal for every mutation, and the problem of every other request |
| Handlers.ConfirmRuns | internal/broker/server.go:88-106 | the steps of a confirmation lead to the stated state: on refusal nothing but its task is gone; on acceptance exactly the new grant is in memory, on disk and in the history |
| Handlers.ExecuteRuns | internal/broker/server.go:129-148 | the steps of an execution lead to the stated state: one grant marked, its consumption by this executor and, exactly if the handler runs, one entry on its behalf |
| Handlers.AuthenticateExactly | internal/broker/approval.go:40-53 | a credential is known exactly if its trimmed text is one to 4096 bytes and names an actor |
| Handlers.ForbiddenExactly | internal/broker/server.go:129-135 | an execution is forbidden exactly to the unknown, to TCI actors and to those without mutate permission |
| Handlers.ApproverExactly | internal/broker/server.go:92-100 | once the plan is accepted, a confirmation is unauthorized exactly for the unknown, and forbidden exactly to non-humans and to those without confirm permission |
| Handlers.ConfirmExactly | internal/broker/server.go:88-106 | the exact condition, in the request's own terms, under which a confirmation is accepted |
| Handlers.ExecuteExactly | internal/broker/server.go:129-147 | the exact condition under which an execution consumes the i-th grant |
| Handlers.IssuedTokenConsumes | internal/security/grants.go:116-162 | in every reachable state the i-th token with its plan consumes exactly the i-th grant, if and only if that is unspent and unexpired |
| Handlers.ConfirmThenExecute | internal/broker/server.go:79-151 | an accepted confirmation, anything in between, then an execution with its token: it consumes that very grant exactly if unspent and unexpired |
| Handlers.ConfirmedThenRuns | internal/broker/server.go:79-151 | executed at once and in time, a confirmed plan with a trimmed action enters its handler, for this executor |
| Capacity.StoreOutgrowsLoad | internal/security/grants.go:172-174 | with more distinct tokens than `load` accepts bytes, some reachable state has written a file that no restart accepts |
| Capacity.GrantsPileUp | internal/security/grants.go:108 | as many grants are reachable as there are distinct tokens |
| Grants.GrantStore.Open | internal/security/grants.go:38-55 | opens exactly for a path, a TTL in (0, 15 min] and a loadable file, and holds what the file lists |
| Grants.GrantStore.Load | internal/security/grants.go:164-208 | the scan with its set of seen IDs reports what the list specification says, first problem first |
| Grants.GrantStore.Persist | internal/security/grants.go:210-244 | replaces the file by the state in memory or leaves it untouched |
| Grants.GrantStore.Issue | internal/security/grants.go:57-114 | succeeds exactly when no problem is found, randomness is available and the write succeeds; appends the one new grant, of which every field is stated, the approver among them; otherwise memory and file are unchanged; both always agree |
| Grants.GrantStore.Consume | internal/security/grants.go:116-162 | marks exactly the first grant the token opens, if it is unused, unexpired and bound, with this time and nothing else changed; every failure, of the write too, leaves all grants unchanged; a loadable store stays loadable |
| Grants.NewGrantOutright | internal/security/grants.go:92-108 | every field of a new grant: its plan, proposer, session, action, approver, times and token hash |
| Grants.IssueExactly | internal/security/grants.go:62-84 | the exact condition under which a plan may be granted |
| Grants.ConsumeExactly | internal/security/grants.go:120-153 | the exact condition under which the i-th grant is consumed |
| Grants.WellFormedOutright | internal/security/grants.go:184-202 | the loading loop's demands, field by field |
| Grants.DecodesExactly | internal/security/auth.go:243-249 | a digest is read in either case and with space around it, and nothing else is one |
| Grants.AcceptedIffWellFormed | internal/security/grants.go:184-202 | the loading loop accepts exactly complete grants with distinct IDs and decodable digests |
| Grants.LoadsExactly | internal/security/grants.go:164-208 | exactly which files load, and what they give |
| Grants.ReopenIff | internal/security/grants.go:172-183 | a stored list of well-formed grants reopens as itself if and only if its encoding is within 8 MiB |
| Grants.IssuedReopensIff | internal/security/grants.go:96-108 | an issued grant keeps the store loadable exactly when plan ID, actor and action are nonempty and the grant's ID is new |
| Grants.IssueAloneIsNotEnough | internal/security/grants.go:57-79 | a plan without an action passes every check of `Issue`, and its grant would not load |
| Grants.SingleUseIffClockRuns | internal/security/grants.go:141-154 | a consumed token is refused for every plan at every time if and only if it was consumed at a nonzero time |
| Grants.ConsumeDecision | internal/security/grants.go:120-153 | only an unused grant of the list is ever chosen |
| Grants.FirstOpened | internal/security/grants.go:134-139 | the first grant whose stored digest is the token's, and none before it |
| Broker.Registry.ValidateApprovedPlan | internal/broker/mutations.go:110-149 | reports the first failing check of the revalidation, in the code's order |
| Broker.AcceptedExactly | internal/broker/mutations.go:110-149 | under the broker's catalog, a plan is accepted if and only if it is verified, identified, in time, and a mutation of one unit of the policy at that mutation's risk |
| Broker.AlteredPlanRefused | internal/broker/mutations.go:112-117 | a plan altered in any digested field under a digest it keeps is refused for that digest, unless it is not executable at all |
| Broker.RaisedExpiryRefused | internal/broker/mutations.go:115-117 | so a later expiry under the old digest is refused |
| Broker.RevalidationOnlyExpires | internal/broker/mutations.go:110-149 | a plan accepted once is later refused exactly by its expiry |
| Broker.AcceptedPlanRisk | internal/broker/mutations.go:145-147 | an accepted plan is a mutation stating the catalog's risk: high for a stop, low otherwise |
| Broker.HandlerFoundIffTrimmed | internal/broker/mutations.go:198-200 | of the accepted plans, the raw lookup finds a handler exactly for those with a trimmed action |
| Broker.UntrimmedActionAccepted | internal/broker/mutations.go:198-200 | under every policy listing the runtime unit there is an accepted plan with no handler |
| Broker.PlanRoundTrip | internal/security/plan.go:23-111 | a plan built from a valid planning answer verifies under any order of its parameters, reads back the requested parameters, is accepted exactly until its expiry, and finds the handler of the requested action |
| Broker.Registry.constructor | internal/broker/registry.go:37-69 | a new registry holds the two read-only operations and no target |
| Broker.Registry.Register | internal/broker/registry.go:71-73 | sets one action and keeps the others |
| Broker.Registry.EnableServiceMutations | internal/broker/mutations.go:50-105 | succeeds exactly within the timeout and interval ranges, else reports the first requirement that fails and changes nothing; adds the three mutations over exactly the policy's units and the targets with the policy's URLs |
| Broker.Registry.FillTargets | internal/broker/mutations.go:74-82 | the targets are the policy's units with their health URLs; the lookup never misses |
| Broker.Registry.ValidateRequest | internal/broker/registry.go:135-172 | the loops over definitions and supplied names decide as the admission specification does |
| Broker.Registry.Plan | internal/broker/registry.go:91-102 | a planning answer is valid exactly when the request is admitted, and then carries the request, the catalogued definition and its confirmation flag; otherwise the problem |
| Broker.FirstProblem | internal/broker/registry.go:153-165 | no problem exactly when every definition is satisfied |
| Broker.CatalogEntry | internal/broker/mutations.go:84-103 | every catalogued action is trimmed; confirmation, transaction handler and mutation action coincide; mutations take exactly one unit from the policy |
| Broker.CatalogOutright | internal/broker/mutations.go:84-103 | the whole catalog: five actions, each with its risk, flags, parameters and handler |
| Broker.OrdinaryAdmission | internal/broker/registry.go:135-172 | what the ordinary path admits and answers, for every action and every set of parameters |
| Broker.MutationAdmission | internal/broker/registry.go:135-172 | a mutation is planned exactly for one unit of the policy |
| Broker.ServiceUnitOutright | internal/broker/registry.go:17 | the unit name pattern, character by character |
| Broker.DefinitionOutright | internal/broker/registry.go:153-193 | what one definition says to a set of parameters, problem by problem |
| Broker.SurfaceOnlyNarrows | internal/broker/registry.go:174-193 | an admitted mutation names one unit, in the policy, in the compiled set, and among the targets with its compiled URL |
| Broker.EmptyPolicyAdmitsNothing | internal/servicecontrol/policy.go:66-78 | an empty policy admits no mutation |
| Broker.PolicyUnitsAdmitted | internal/broker/registry.go:184-191 | a mutation of a unit is admitted exactly when the policy lists the unit |
| Broker.ExecuteNeverMutates | internal/broker/registry.go:104-152 | the ordinary execution path reaches read-only handlers only |
| Policy.DefaultPolicy | internal/servicecontrol/policy.go:37-43 | the default policy is the compiled set |
| Policy.LoadPolicy | internal/servicecontrol/policy.go:45-79 | a file is accepted exactly when each line names a compiled unit, else its first problem is reported; the result is those units with their compiled specification; a blank path gives the compiled set |
| Policy.AllowUnits | internal/servicecontrol/policy.go:66-78 | the same about the list of units |
| Policy.AllowedUnits | internal/servicecontrol/policy.go:91-98 | the policy's units, sorted, each once |
| Plans.Build | internal/security/plan.go:23-62 | for any order of the parameter map, lists exactly the requested parameters in name order under a digest of the whole plan |
| Plans.DigestOrderFree | internal/security/plan.go:64-103 | the digest of a plan with distinct trimmed names does not depend on the order of its parameters |
| Plans.DuplicateNamesKeepOrder | internal/security/plan.go:96 | with duplicate names the order shows in what is digested |
| Plans.SameDigestSameHash | internal/security/plan.go:105-111 | plans that verify under digests equal up to case were hashed to the same sum |
| Plans.CanonicalCovers | internal/security/plan.go:64-95 | the digest covers exactly all fields but itself, the actor's display name, roles and permissions, and, for distinct names, the order of parameters |
| Plans.CanonicalOutright | internal/security/plan.go:80-96 | each digested field is the plan's own of that name, the parameters in name order |
| Plans.DigestBinds | internal/security/plan.go:105-111 | under a digest it keeps, a plan verifies if and only if every digested field is unchanged, unless SHA-256 collides |
| Plans.SameCanonicalSameOrder | internal/security/plan.go:65-95 | equal canonical forms mean the same action, actor and exact parameters |
| Plans.ReadParameters | internal/broker/mutations.go:151-164 | the loop agrees with the specification of the exact parameters |
| Plans.ExactParameters | internal/broker/mutations.go:151-164 | succeeds exactly for nonempty distinct trimmed names, and then holds exactly the listed values |
| Plans.ExactlyTrimmed | internal/broker/mutations.go:151-164 | the parameters read are exactly the listed values under their trimmed names, if those are nonempty and differ |
| Plans.ExactParametersOrderFree | internal/broker/mutations.go:151-164 | the parameters read do not depend on their order |
| Plans.ListedIsRead | internal/broker/mutations.go:151-164 | a listing of a request under trimmed names reads back as the request |
| PlanCaching.PlanCache.Put | internal/security/plan.go:131-136 | purges and puts, as one more entry of the log of puts |
| PlanCaching.PlanCache.Get | internal/security/plan.go:138-147 | answers the latest plan ever put under the ID exactly when it is unexpired, so earlier purges do not show |
| PlanCaching.AnswerExactly | internal/security/plan.go:138-147 | that answer is a plan put under its own ID, with nothing put under it since, and unexpired |
| PlanCaching.PlanCache.PurgeExpired | internal/security/plan.go:149-156 | removes exactly the expired plans and keeps agreement with the log |
| PlanCaching.LookupAgrees | internal/security/plan.go:138-147 | in a purged cache that agrees with the log, a lookup is a lookup in the log |
| Transaction.RunServiceTransaction | internal/broker/mutations.go:219-265 | over every environment, deadline and cancellation: the trace holds exactly the environment's answers; at most two calls, all on the unit, the first the approved one; no error exactly when the single call succeeded and polling ended on the expected state with its health check; after a failed call, one recovery call exactly if the context is still live and the precondition has a recovery action, and success exactly if that call succeeded and polling saw the restored state; a missed postcondition is always past the deadline with one call and failed recovery; one polling loop and at most timeout / interval + 3 probes in all |
| Transaction.CompletionOutright | internal/broker/mutations.go:253-285 | a start and a restart are without error exactly when the one call succeeded and polling ended on an active service, healthy where there is a URL; a stop, on an inactive one; health is verified only for the first two |
| Transaction.PrimaryCallOutright | internal/broker/mutations.go:227-246 | the primary call's action, unit, time and result, and the health asked before it |
| Transaction.RecoveryOutright | internal/broker/mutations.go:246-329 | whether a recovery call is made, which, when and with what result, against the deadline the timeout and the caller set |
| Transaction.ObservedOutright | internal/broker/mutations.go:331-334 | the case of a state's letters and the space around it do not matter |
| Transaction.Perform | internal/broker/mutations.go:246-264 | the same about the action, the wait and the recovery from an observed precondition, call by call |
| Transaction.AfterFailedAction | internal/broker/mutations.go:246-250 | after a failed call, one look, and the recovery call made or not made exactly as the clock and the precondition say, with its result |
| Transaction.WaitForPostcondition | internal/broker/mutations.go:287-307 | ends satisfied or once the context is done, without calling the mutator; every round but the last ends before the timeout |
| Transaction.RoundsBound | internal/broker/mutations.go:287-307 | hence at most floor(timeout / interval) + 1 rounds, for every timeout and interval |
| Transaction.Poll | internal/broker/mutations.go:292-300 | a round is satisfied exactly when it ends on the expected state and, where due, a passing health check |
| Transaction.RecoverPrecondition | internal/broker/mutations.go:309-329 | acts only on a live context and a known precondition, and succeeds exactly when its call succeeded and polling saw the restored state |
| Transaction.ApplyServiceAction | internal/broker/mutations.go:267-278 | calls the mutator with the given action and unit, and with no other action |
| Transaction.ObservePrecondition | internal/broker/mutations.go:227-244 | the first probe, and a health check exactly for an active service with a URL |
| Audit.HeadDeterminesHistory | internal/security/audit.go:139-186 | two nonempty verifying logs with the same head hash up to case have the same length and agree on every hashed field of every record |
| Audit.AgreementGoesBack | internal/security/audit.go:166-177 | agreement at one record goes back along the chain to the first |
| Audit.CanonicalCovers | internal/security/audit.go:188-245 | the entry hash covers exactly all fields but the display name and the order of roles and permissions |
| Audit.CanonicalOutright | internal/security/audit.go:215-238 | each hashed field is the record's own of that name, roles and permissions in order |
| Audit.TruncationShowsInHeadOnly | internal/security/audit.go:154-185 | every nonempty prefix of a valid chain verifies, and its head differs from the whole chain's unless nothing was dropped |
| Audit.VerifiesExactlyChains | internal/security/audit.go:139-186 | verification accepts exactly the files that list a valid chain of records short enough for the scanner |
| Audit.ReopenIff | internal/security/audit.go:149-186 | the file of a valid log reopens to it if and only if every line is strictly shorter than the limit and no text was cut inside a character |
| Audit.ReopensOrFails | internal/security/audit.go:169-172 | otherwise it does not reopen at all, unless SHA-256 collides |
| Audit.EveryLogIsValid | internal/security/audit.go:40-101 | after any sequence of accepted and rejected appends the log is a valid chain numbered without gaps |
| Audit.RunReopens | internal/security/audit.go:29-186 | after any run of appends and restarts, an open store holds exactly the log of the appends, and opening its file again gives that log if and only if every record can be read back; a store is closed only over a record that cannot |
| Audit.LongestLineNeverReopens | internal/security/audit.go:75 | a record of exactly the largest accepted length is logged on any log, and the log never opens again |
| Audit.SplitEventIsCut | internal/security/audit.go:275-279 | an event name of 95 letters and one two-byte character becomes a record with a stray byte |
| Audit.CutRecordNeverReopens | internal/security/audit.go:169-172 | a record with a stray byte is logged on any log, and the log never opens again |
| Audit.AsciiEventIsWhole | internal/security/audit.go:45-61 | an event in ASCII never becomes such a record |
| Bytes.WholeIffOnBoundary | internal/security/audit.go:277-279 | a cut text has no stray bytes if and only if the limit falls between two characters or past the end |
| Bytes.TruncateKeeps | internal/security/audit.go:277-279 | a cut keeps exactly the first bytes of the text |
| Audit.UnacknowledgedLineIsFatal | internal/security/audit.go:86-96 | a line that reached the file but not memory leaves a valid file, which the next accepted append breaks for good |
| Audit.AuditStore.Open | internal/security/audit.go:29-38 | opens exactly the files that verify and holds what they list: the restart of the log's run |
| Audit.AuditStore.LoadAndVerify | internal/security/audit.go:139-186 | the scan against the running head and sequence gives what the chain specification says |
| Audit.AuditStore.Append | internal/security/audit.go:40-101 | an accepted event becomes the next record in memory and file, every field the clean cut of the event's own; a rejected one changes nothing and reports the first of field, length and disk that fails: the append of the log's run |
| Audit.AuditStore.MakeRecord | internal/security/audit.go:44-69 | the record of an event, field by field, numbered, linked and hashed |
| Audit.LinkOutright | internal/security/audit.go:154-175 | which line is refused and why |
| Audit.AuditStore.Reopens | internal/security/audit.go:139-186 | at any moment, reopening the file rebuilds exactly the records of the store, if and only if all lines are readable and no text was cut inside a character |
| Audit.AuditStore.Query | internal/security/audit.go:103-126 | the last min(limit, n) matching records in their order, for every log, filter and limit: each has the wanted actor and action, and no newer one that has them is missing |
| Audit.ScanBack | internal/security/audit.go:110-122 | the reverse scan finds exactly those records, newest first |
| Audit.ReverseInPlace | internal/security/audit.go:123-125 | the swapping loop reverses the slice |
| Audit.RedactParameters | internal/security/audit.go:247-263 | no value under a secret-looking name is kept; of other values exactly the first 512 bytes, with the marker exactly if there was more |
| Audit.SecretOutright | internal/security/audit.go:265-273 | the secret names are those with one of nine words, in any case, with dashes and dots for underscores |
| Audit.DigestIsClean | internal/security/audit.go:288-297 | a digest is kept, lower-case, exactly if it is one |
| Audit.LabelIsClean | internal/security/audit.go:275-286 | a label fits its limit and has no control character; it is the trimmed text cut to the limit, empty exactly for a blank text, no limit or a control character |
| Actors.NormalizeActor | internal/security/auth.go:194-235 | accepts exactly the acceptable actors and rewrites them to sorted distinct roles and exactly the permissions those grant, else reports the first problem; no accepted TCI actor may confirm, mutate or execute |
| Actors.NormalizeRoles | internal/security/auth.go:210-233 | the same about roles and permissions alone |
| Actors.CollectPermissions | internal/security/auth.go:214-223 | succeeds exactly when every role is known and fits the kind, and collects what they grant |
| Actors.NormalFormDetermined | internal/security/auth.go:194-235 | the result depends on the set of roles only: not on order, duplicates or supplied permissions |
| Actors.NormalizeIdempotent | internal/security/auth.go:194-235 | normalizing a normalized actor is accepted and changes nothing |
| Actors.GrantedIsUnion | internal/security/auth.go:213-223 | the collected permissions are the union of the roles' |
| Actors.NormalForm | internal/security/auth.go:260-285 | sorting and removing neighbours gives the strictly sorted list of the same elements |
| Actors.UniqueInPlace | internal/security/auth.go:260-271 | the in-place compaction equals the removal of equal neighbours: the slot it compares with still holds its original value |
| Actors.TciRolesGrantLittle | internal/security/auth.go:18-67 | the roles open to TCI actors grant no confirm, mutate or read-only execute permission |
| Actors.RolesOutright | internal/security/auth.go:18-67 | which of the seven roles grants which of the nine permissions |
| Actors.AuthorityByRole | internal/security/auth.go:194-235 | a normalized actor may confirm exactly as an approver and mutate exactly as a mutator |
| Actors.ActorIDOutright | internal/security/auth.go:16 | the actor ID pattern, character by character |
| Text.TrimStrips | internal/security/plan.go:43 | trimming removes exactly the space around a text |
| Text.SpaceOutright | internal/security/plan.go:43 | which characters are space |
| Text.LowerAt | internal/security/auth.go:244 | lowering changes exactly the capitals |
| Text.FoldsAsLowered | internal/security/plan.go:110 | equality up to case is equality of the lowered texts, for ASCII |
| Text.HexOutright | internal/security/auth.go:245-248 | a digest is 64 lower-case hexadecimal digits |
| Text.WidthOutright | internal/security/audit.go:277 | how many bytes a character takes |

## Left out

- HTTP transport, JSON decoding and body limits, status codes, the broker's own bearer token, logging, request and audit IDs of responses, response timestamps: transport and display only.
- A server whose grant store or authenticator is not configured: both handlers refuse at once.
- The authenticators and the actor registry file: an authenticator is an arbitrary function from tokens to actors, fixed while the process is up.
- The systemd controller, the health client, the system probe and the listener: arbitrary answers and durations in `Transaction.Environment`.
- The read-only handlers' results, the catalog listing, the component inventory, configuration loading and the public service's own flow around the broker: no property here depends on them.
- Server.Server.HandleConfirm: takes a fresh token and ID as given, and does not model the crash of the process inside the handler; `Protocol` has that step.
- Server.Server.HandleExecuteApproved: likewise; interleaving with other handlers is the subject of `Protocol`, where each step is atomic as under the store's mutex and the catalog is fixed after start.
- Server.Start: the actor registry file, the listener and the signals that end the process.
- Broker.Registry.EnableServiceMutations: a target missing from its own policy cannot be expressed, because `AllowedUnits` and `Spec` read one map, so that error has no case.
- Plans.Build: the failure of JSON encoding, which cannot occur for these records, is not modelled.
- Audit.AuditStore.Append: the sequence number does not wrap at 64 bits.
- Transaction.RunServiceTransaction: the result map's keys are a record; a probe state that is not text counts as the empty state.
- Copies made to avoid aliasing (`cloneActor`, `clonePlan`, `cloneGrant`, `cloneAuditRecord`) are the identity on values; `Integrity` reports fields already described.
