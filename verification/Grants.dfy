/** The durable store of single-use confirmation grants. */
module Grants {
  import opened Text
  import opened Types
  import opened Plans

  datatype Grant = Grant(
    schema: string, id: string, planID: string, planDigest: string, subjectActorID: string, sessionID: string,
    approver: Actor, action: string, issuedAt: Time, expiresAt: Time, usedAt: Time)

  datatype StoredGrant = StoredGrant(grant: Grant, tokenSHA256: string)

  datatype GrantState = GrantState(schema: string, grants: seq<StoredGrant>)

  /** What the grant file holds. JSON is an injective encoding, so a written state is read back as itself. */
  datatype Contents = Absent | Unreadable | Undecodable | Stored(state: GrantState)

  /** SHA-256 of a confirmation token: an arbitrary function here. */
  type TokenHash = string -> HexDigest

  /** The encoded size of a state in bytes: an arbitrary function here. */
  type EncodedSize = GrantState -> nat

  const MAX_STORE_BYTES := 8 * 1024 * 1024
  const MAX_GRANT_TTL := 15 * MINUTE

  function DecodeSHA256(value: string): Option<HexDigest> {
    var v := Trim(Lower(value));
    if IsHexDigest(v) then Some(v) else None
  }

  lemma DecodeDigest(d: HexDigest)
    ensures DecodeSHA256(d) == Some(d)
  {
    HexIsTrimmed(d);
  }

  /** A stored digest is read in either case and with space around it, and nothing else is a digest. */
  lemma DecodesExactly(v: string, d: HexDigest)
    ensures DecodeSHA256(v) == Some(d) <==>
              exists a, t, b :: AllSpace(a) && AllSpace(b) && Lower(v) == a + t + b && t == d
  {
    if DecodeSHA256(v) == Some(d) {
      var a, b := TrimShape(Lower(v));
      assert AllSpace(a) && AllSpace(b) && Lower(v) == a + d + b && d == d;
    }
    if a, t, b :| AllSpace(a) && AllSpace(b) && Lower(v) == a + t + b && t == d {
      HexIsTrimmed(d);
      TrimStrips(a, t, b);
    }
  }

  // ---- Loading ----

  datatype LoadError = CannotRead | StoreTooLarge | CannotDecode | UnsupportedSchema | InvalidGrant | DuplicateGrantID
                     | InvalidTokenDigest

  predicate Complete(g: Grant) {
    && g.schema == GRANT_SCHEMA && g.id != "" && g.planID != "" && g.planDigest != ""
    && g.subjectActorID != "" && g.sessionID != "" && g.action != ""
  }

  /** What `load` demands of a list of grants. */
  predicate WellFormed(grants: seq<StoredGrant>) {
    && (forall i :: 0 <= i < |grants| ==> Complete(grants[i].grant) && DecodeSHA256(grants[i].tokenSHA256).Some?)
    && (forall i, j :: 0 <= i < j < |grants| ==> grants[i].grant.id != grants[j].grant.id)
  }

  function EntryProblem(seen: set<string>, stored: StoredGrant): Option<LoadError> {
    if !Complete(stored.grant) then Some(InvalidGrant)
    else if stored.grant.id in seen then Some(DuplicateGrantID)
    else if DecodeSHA256(stored.tokenSHA256).None? then Some(InvalidTokenDigest)
    else None
  }

  function GrantIDs(grants: seq<StoredGrant>): set<string> {
    set i | 0 <= i < |grants| :: grants[i].grant.id
  }

  type EntryCheck = (set<string>, StoredGrant) -> Option<LoadError>

  /** The first problem a check of every entry against the IDs before it meets. */
  function FirstProblem(check: EntryCheck, grants: seq<StoredGrant>): Option<LoadError> {
    if grants == [] then None
    else
      var front := grants[..|grants| - 1];
      var p := FirstProblem(check, front);
      if p.Some? then p else check(GrantIDs(front), grants[|grants| - 1])
  }

  function ListProblem(grants: seq<StoredGrant>): Option<LoadError> {
    FirstProblem(EntryProblem, grants)
  }

  /** `load` accepts exactly the well-formed lists. */
  lemma {:induction false} AcceptedIffWellFormed(grants: seq<StoredGrant>)
    ensures ListProblem(grants).None? <==> WellFormed(grants)
  {
    if grants != [] {
      var front, last := grants[..|grants| - 1], grants[|grants| - 1];
      AcceptedIffWellFormed(front);
      assert grants == front + [last];
      if WellFormed(front) && EntryProblem(GrantIDs(front), last).None? {
        IssuedStaysWellFormed(front, last);
      } else if WellFormed(grants) {
        assert WellFormed(front);
        forall i | 0 <= i < |front| ensures front[i].grant.id != last.grant.id {
          assert grants[i].grant.id != grants[|front|].grant.id;
        }
      }
    }
  }

  /** What `load` demands, field by field. */
  lemma WellFormedOutright(grants: seq<StoredGrant>)
    ensures ListProblem(grants).None? <==>
              && (forall i :: 0 <= i < |grants| ==>
                    var g := grants[i].grant;
                    && g.schema == GRANT_SCHEMA && g.id != "" && g.planID != "" && g.planDigest != ""
                    && g.subjectActorID != "" && g.sessionID != "" && g.action != ""
                    && IsHexDigest(Trim(Lower(grants[i].tokenSHA256))))
              && (forall i, j :: 0 <= i < j < |grants| ==> grants[i].grant.id != grants[j].grant.id)
  {
    AcceptedIffWellFormed(grants);
  }

  function LoadResult(size: EncodedSize, contents: Contents): Result<seq<StoredGrant>, LoadError> {
    match contents
    case Absent => Ok([])
    case Unreadable => Err(CannotRead)
    case Undecodable => Err(CannotDecode)
    case Stored(state) =>
      if size(state) > MAX_STORE_BYTES then Err(StoreTooLarge)
      else if state.schema != GRANT_STORE_SCHEMA then Err(UnsupportedSchema)
      else
        match ListProblem(state.grants)
        case Some(p) => Err(p)
        case None => Ok(state.grants)
  }

  /** Exactly which files load, and what they give. */
  lemma LoadsExactly(size: EncodedSize, contents: Contents, grants: seq<StoredGrant>)
    ensures LoadResult(size, contents) == Ok(grants) <==>
              || (contents.Absent? && grants == [])
              || (contents.Stored? && contents.state == GrantState(GRANT_STORE_SCHEMA, grants)
                  && size(contents.state) <= 8 * 1024 * 1024 && WellFormed(grants))
  {
    AcceptedIffWellFormed(grants);
    if contents.Stored? {
      AcceptedIffWellFormed(contents.state.grants);
    }
  }

  /** The file holds these grants. */
  predicate Records(contents: Contents, grants: seq<StoredGrant>) {
    (contents.Absent? && grants == []) || contents == Stored(GrantState(GRANT_STORE_SCHEMA, grants))
  }

  /** The encoding is within what `load` accepts. */
  predicate Fits(size: EncodedSize, contents: Contents) {
    contents.Stored? ==> size(contents.state) <= MAX_STORE_BYTES
  }

  /** Reopening a file that holds well-formed grants gives them back, exactly when the file was never
      written or its encoding is small enough for `load`; writing has no such bound. */
  lemma ReopenIff(size: EncodedSize, contents: Contents, grants: seq<StoredGrant>)
    requires Records(contents, grants) && WellFormed(grants)
    ensures LoadResult(size, contents) == Ok(grants) <==> Fits(size, contents)
    ensures LoadResult(size, contents).Err? ==> LoadResult(size, contents).error == StoreTooLarge
  {
    AcceptedIffWellFormed(grants);
  }

  // ---- Issuing ----

  datatype IssueError = NotConfirmable | DigestMismatch | PlanExpired | NoSession | NotHumanApprover | SameActor
                      | AlreadyGranted | NoEntropy | NotPersisted

  /** A grant for this plan, identified by its ID and its digest up to case. */
  predicate ForPlan(g: Grant, plan: OperationPlan) {
    g.planID == plan.id && EqualFold(g.planDigest, plan.digest)
  }

  predicate Granted(grants: seq<StoredGrant>, plan: OperationPlan) {
    exists i :: 0 <= i < |grants| && ForPlan(grants[i].grant, plan)
  }

  predicate MayApprove(approver: Actor, plan: OperationPlan) {
    approver.kind == Human && HasPermission(approver, CONFIRM) && plan.actor.id != approver.id
  }

  function IssueProblem(hash: PlanHash, grants: seq<StoredGrant>, plan: OperationPlan, approver: Actor,
                        now: Time): Option<IssueError> {
    if plan.schema != PLAN_SCHEMA || !plan.valid || !plan.requiresConfirmation then Some(NotConfirmable)
    else if !VerifyPlanDigest(hash, plan) then Some(DigestMismatch)
    else if plan.expiresAt <= now then Some(PlanExpired)
    else if Blank(plan.sessionID) then Some(NoSession)
    else if approver.kind != Human || !HasPermission(approver, CONFIRM) then Some(NotHumanApprover)
    else if plan.actor.id == approver.id then Some(SameActor)
    else if Granted(grants, plan) then Some(AlreadyGranted)
    else None
  }

  function Min(a: int, b: int): int { if a < b then a else b }

  function NewGrant(tokenHash: TokenHash, ttl: Time, plan: OperationPlan, approver: Actor, now: Time, token: string,
                    id: string): StoredGrant {
    StoredGrant(
      Grant(GRANT_SCHEMA, id, plan.id, plan.digest, plan.actor.id, plan.sessionID, approver, plan.action, now,
            Min(now + ttl, plan.expiresAt), ZERO_TIME),
      tokenHash(token))
  }

  /** The grant for a plan names its plan, proposer, session, action and approver, the token's hash, and expires with
      the shorter of the time to live and the plan. */
  lemma NewGrantOutright(tokenHash: TokenHash, ttl: Time, plan: OperationPlan, approver: Actor, now: Time,
                         token: string, id: string)
    ensures var stored := NewGrant(tokenHash, ttl, plan, approver, now, token, id);
            var g := stored.grant;
            && stored.tokenSHA256 == tokenHash(token) && g.schema == GRANT_SCHEMA && g.id == id
            && g.planID == plan.id && g.planDigest == plan.digest && g.subjectActorID == plan.actor.id
            && g.sessionID == plan.sessionID && g.approver == approver && g.action == plan.action
            && g.issuedAt == now && g.usedAt == ZERO_TIME
            && g.expiresAt <= now + ttl && g.expiresAt <= plan.expiresAt
            && (g.expiresAt == now + ttl || g.expiresAt == plan.expiresAt)
  {}

  /** Exactly when a plan may be granted: it is executable, verified, unexpired and in a session; the approver is a
      human with the confirm permission other than its actor; and no grant was made for the same ID and digest. */
  lemma IssueExactly(hash: PlanHash, grants: seq<StoredGrant>, plan: OperationPlan, approver: Actor, now: Time)
    ensures IssueProblem(hash, grants, plan, approver, now).None? <==>
              && plan.schema == PLAN_SCHEMA && plan.valid && plan.requiresConfirmation && VerifyPlanDigest(hash, plan)
              && now < plan.expiresAt && Trim(plan.sessionID) != ""
              && approver.kind == Human && CONFIRM in approver.permissions && approver.id != plan.actor.id
              && forall i :: 0 <= i < |grants| ==>
                   !(grants[i].grant.planID == plan.id && EqualFold(grants[i].grant.planDigest, plan.digest))
  {
    forall i | 0 <= i < |grants|
      ensures ForPlan(grants[i].grant, plan) <==>
                grants[i].grant.planID == plan.id && EqualFold(grants[i].grant.planDigest, plan.digest)
    {}
  }

  /** What `Issue` adds can be reopened exactly when the plan carries an ID, an actor and an action, which `Issue`
      itself does not check, and the grant's own ID is fresh. */
  lemma IssuedReopensIff(hash: PlanHash, tokenHash: TokenHash, ttl: Time, grants: seq<StoredGrant>, plan: OperationPlan,
                         approver: Actor, now: Time, token: string, id: string)
    requires WellFormed(grants) && IssueProblem(hash, grants, plan, approver, now).None?
    ensures WellFormed(grants + [NewGrant(tokenHash, ttl, plan, approver, now, token, id)]) <==>
            id != "" && id !in GrantIDs(grants) && plan.id != "" && plan.actor.id != "" && plan.action != ""
  {
    var stored := NewGrant(tokenHash, ttl, plan, approver, now, token, id);
    DecodeDigest(tokenHash(token));
    assert |Fold(plan.digest)| == |Fold(hash(Canonical(plan)))| == 64;
    assert plan.sessionID != "" by { assert Trim("") == ""; }
    if EntryProblem(GrantIDs(grants), stored).None? {
      IssuedStaysWellFormed(grants, stored);
    } else if WellFormed(grants + [stored]) {
      assert (grants + [stored])[|grants|] == stored;
      forall i | 0 <= i < |grants| ensures grants[i].grant.id != stored.grant.id {
        assert (grants + [stored])[i].grant.id != (grants + [stored])[|grants|].grant.id;
      }
    }
  }

  /** `Issue` alone would store a grant that the next start refuses to load: a plan without an action passes its
      checks. */
  lemma IssueAloneIsNotEnough(hash: PlanHash, tokenHash: TokenHash)
    ensures exists plan: OperationPlan, approver: Actor ::
              && IssueProblem(hash, [], plan, approver, 1).None?
              && !WellFormed([NewGrant(tokenHash, MINUTE, plan, approver, 1, "t", "grant-1")])
  {
    var approver := Actor("human:b", Human, "b", [], [CONFIRM]);
    var unsigned := OperationPlan(
      PLAN_SCHEMA, "plan-1", "", "", "s", Actor("human:a", Human, "a", [], []), "", [], "low", true, true, 1, MINUTE,
      "");
    var plan := unsigned.(digest := hash(Canonical(unsigned)));
    assert Canonical(plan) == Canonical(unsigned);
    assert Trimmed("s");
    assert IssueProblem(hash, [], plan, approver, 1).None?;
    assert !Complete([NewGrant(tokenHash, MINUTE, plan, approver, 1, "t", "grant-1")][0].grant);
  }

  // ---- Consuming ----

  datatype ConsumeError = NoToken | NotExecutable | ConsumeDigestMismatch | OperationExpired | AlreadyConsumed
                        | GrantExpired | NotBound | NotFound | ConsumeNotPersisted

  predicate Opens(tokenHash: TokenHash, stored: StoredGrant, token: string) {
    DecodeSHA256(stored.tokenSHA256) == Some(tokenHash(token))
  }

  /** The first grant at or after `from` that the token opens. */
  function FirstOpened(tokenHash: TokenHash, grants: seq<StoredGrant>, token: string, from: nat): (r: nat)
    requires from <= |grants|
    ensures from <= r <= |grants|
    ensures r < |grants| ==> Opens(tokenHash, grants[r], token)
    ensures forall i :: from <= i < r ==> !Opens(tokenHash, grants[i], token)
    decreases |grants| - from
  {
    if from == |grants| || Opens(tokenHash, grants[from], token) then from
    else FirstOpened(tokenHash, grants, token, from + 1)
  }

  predicate Binds(g: Grant, plan: OperationPlan, subject: string, action: string) {
    ForPlan(g, plan) && g.subjectActorID == subject && g.sessionID == plan.sessionID && g.action == action
  }

  /** The grant `Consume` would mark, or why it refuses. Only the first grant the token opens is considered. */
  function ConsumeDecision(hash: PlanHash, tokenHash: TokenHash, grants: seq<StoredGrant>, token: string,
                           plan: OperationPlan, subject: string, action: string,
                           now: Time): (r: Result<nat, ConsumeError>)
    ensures r.Ok? ==> r.value < |grants| && grants[r.value].grant.usedAt == ZERO_TIME
  {
    if Blank(token) then Err(NoToken)
    else if plan.schema != PLAN_SCHEMA || !plan.valid || !plan.requiresConfirmation then Err(NotExecutable)
    else if !VerifyPlanDigest(hash, plan) then Err(ConsumeDigestMismatch)
    else if plan.expiresAt <= now then Err(OperationExpired)
    else
      var i := FirstOpened(tokenHash, grants, token, 0);
      if i == |grants| then Err(NotFound)
      else if grants[i].grant.usedAt != ZERO_TIME then Err(AlreadyConsumed)
      else if grants[i].grant.expiresAt <= now then Err(GrantExpired)
      else if !Binds(grants[i].grant, plan, subject, action) then Err(NotBound)
      else Ok(i)
  }

  function Used(grants: seq<StoredGrant>, i: nat, now: Time): (r: seq<StoredGrant>)
    requires i < |grants|
    ensures |r| == |grants|
  {
    grants[i := grants[i].(grant := grants[i].grant.(usedAt := now))]
  }

  /** Exactly when the i-th grant is consumed: it is the first whose stored digest is the token's; it is unused and
      unexpired; and its plan ID, its digest up to case, its subject, session and action are those presented. */
  lemma ConsumeExactly(hash: PlanHash, tokenHash: TokenHash, grants: seq<StoredGrant>, token: string,
                       plan: OperationPlan, subject: string, action: string, now: Time, i: nat)
    requires i < |grants|
    ensures ConsumeDecision(hash, tokenHash, grants, token, plan, subject, action, now) == Ok(i) <==>
              && plan.schema == PLAN_SCHEMA && plan.valid && plan.requiresConfirmation && VerifyPlanDigest(hash, plan)
              && now < plan.expiresAt && Trim(token) != ""
              && DecodeSHA256(grants[i].tokenSHA256) == Some(tokenHash(token))
              && (forall j :: 0 <= j < i ==> DecodeSHA256(grants[j].tokenSHA256) != Some(tokenHash(token)))
              && var g := grants[i].grant;
                 && g.usedAt == ZERO_TIME && now < g.expiresAt
                 && g.planID == plan.id && EqualFold(g.planDigest, plan.digest)
                 && g.subjectActorID == subject && g.sessionID == plan.sessionID && g.action == action
  {
    FirstOpenedExactly(tokenHash, grants, token, i);
    BindsOutright(grants[i].grant, plan, subject, action);
  }

  lemma FirstOpenedExactly(tokenHash: TokenHash, grants: seq<StoredGrant>, token: string, i: nat)
    requires i < |grants|
    ensures FirstOpened(tokenHash, grants, token, 0) == i <==>
              && DecodeSHA256(grants[i].tokenSHA256) == Some(tokenHash(token))
              && forall j :: 0 <= j < i ==> DecodeSHA256(grants[j].tokenSHA256) != Some(tokenHash(token))
  {
    var first := FirstOpened(tokenHash, grants, token, 0);
    forall j | 0 <= j < |grants|
      ensures Opens(tokenHash, grants[j], token) <==> DecodeSHA256(grants[j].tokenSHA256) == Some(tokenHash(token))
    {}
    if first < |grants| {
      assert Opens(tokenHash, grants[first], token);
    }
  }

  lemma BindsOutright(g: Grant, plan: OperationPlan, subject: string, action: string)
    ensures Binds(g, plan, subject, action) <==>
              && g.planID == plan.id && EqualFold(g.planDigest, plan.digest)
              && g.subjectActorID == subject && g.sessionID == plan.sessionID && g.action == action
  {}

  /** Marking a grant as used changes no token. */
  lemma {:induction false} UseOpensNothing(tokenHash: TokenHash, grants: seq<StoredGrant>, i: nat, now: Time,
                                           token: string, from: nat)
    requires i < |grants| && from <= |grants|
    ensures FirstOpened(tokenHash, Used(grants, i, now), token, from) == FirstOpened(tokenHash, grants, token, from)
    decreases |grants| - from
  {
    if from < |grants| {
      assert Opens(tokenHash, Used(grants, i, now)[from], token) == Opens(tokenHash, grants[from], token);
      UseOpensNothing(tokenHash, grants, i, now, token, from + 1);
    }
  }

  lemma DecisionAt(hash: PlanHash, tokenHash: TokenHash, grants: seq<StoredGrant>, token: string, plan: OperationPlan,
                   subject: string, action: string, now: Time, i: nat)
    requires ConsumeDecision(hash, tokenHash, grants, token, plan, subject, action, now) == Ok(i)
    ensures FirstOpened(tokenHash, grants, token, 0) == i && grants[i].grant.usedAt == ZERO_TIME
  {}

  lemma RefusedOnceUsed(hash: PlanHash, tokenHash: TokenHash, grants: seq<StoredGrant>, token: string,
                        plan: OperationPlan, subject: string, action: string, now: Time)
    requires FirstOpened(tokenHash, grants, token, 0) < |grants|
    requires grants[FirstOpened(tokenHash, grants, token, 0)].grant.usedAt != ZERO_TIME
    ensures ConsumeDecision(hash, tokenHash, grants, token, plan, subject, action, now).Err?
  {}

  /** A consumed token is refused for every plan and at every later time exactly when the clock had left its zero: a use
      recorded at the zero time reads as no use, and the same call would succeed again. */
  lemma SingleUseIffClockRuns(hash: PlanHash, tokenHash: TokenHash, grants: seq<StoredGrant>, token: string,
                              plan: OperationPlan, subject: string, action: string, now: Time, i: nat)
    requires ConsumeDecision(hash, tokenHash, grants, token, plan, subject, action, now) == Ok(i)
    ensures now == ZERO_TIME <==>
              ConsumeDecision(hash, tokenHash, Used(grants, i, now), token, plan, subject, action, now).Ok?
    ensures now != ZERO_TIME ==> forall other: OperationPlan, later: Time ::
              ConsumeDecision(hash, tokenHash, Used(grants, i, now), token, other, other.actor.id, other.action,
                              later).Err?
  {
    DecisionAt(hash, tokenHash, grants, token, plan, subject, action, now, i);
    UseOpensNothing(tokenHash, grants, i, now, token, 0);
    if now == ZERO_TIME {
      assert Used(grants, i, now) == grants;
    } else {
      RefusedOnceUsed(hash, tokenHash, Used(grants, i, now), token, plan, subject, action, now);
      forall other: OperationPlan, later: Time
        ensures ConsumeDecision(hash, tokenHash, Used(grants, i, now), token, other, other.actor.id, other.action,
                                later).Err?
      {
        RefusedOnceUsed(hash, tokenHash, Used(grants, i, now), token, other, other.actor.id, other.action, later);
      }
    }
  }

  lemma UsedStaysWellFormed(grants: seq<StoredGrant>, i: nat, now: Time)
    requires i < |grants| && WellFormed(grants)
    ensures WellFormed(Used(grants, i, now))
  {
    var r := Used(grants, i, now);
    assert forall k :: 0 <= k < |r| ==> r[k].grant.id == grants[k].grant.id;
  }

  lemma IssuedStaysWellFormed(grants: seq<StoredGrant>, stored: StoredGrant)
    requires WellFormed(grants) && EntryProblem(GrantIDs(grants), stored).None?
    ensures WellFormed(grants + [stored])
  {
    forall i | 0 <= i < |grants| ensures grants[i].grant.id != stored.grant.id {
      assert grants[i].grant.id in GrantIDs(grants);
    }
  }

  // ---- The store object ----

  class GrantFile {
    var contents: Contents

    constructor (contents: Contents)
      ensures this.contents == contents
    {
      this.contents := contents;
    }
  }

  datatype OpenError = NoPath | BadTTL | LoadFailed(error: LoadError)

  class GrantStore {
    const file: GrantFile
    const ttl: Time
    const hash: PlanHash
    const tokenHash: TokenHash
    var grants: seq<StoredGrant>

    /** Memory agrees with the file. */
    predicate InSync()
      reads this, file
    {
      Records(file.contents, grants)
    }

    constructor (file: GrantFile, ttl: Time, hash: PlanHash, tokenHash: TokenHash, grants: seq<StoredGrant>)
      ensures this.file == file && this.ttl == ttl && this.hash == hash && this.tokenHash == tokenHash
              && this.grants == grants
    {
      this.file, this.ttl, this.hash, this.tokenHash, this.grants := file, ttl, hash, tokenHash, grants;
    }

    /** OpenGrantStore: a store opens exactly when the settings are legal and the file loads, and then holds what it
        loaded. */
    static method Open(path: string, file: GrantFile, ttl: Time, hash: PlanHash, tokenHash: TokenHash,
                       size: EncodedSize)
      returns (r: Result<GrantStore, OpenError>)
      ensures r.Ok? <==> !Blank(path) && 0 < ttl <= MAX_GRANT_TTL && LoadResult(size, file.contents).Ok?
      ensures r.Ok? ==>
                && fresh(r.value) && r.value.file == file && r.value.ttl == ttl && r.value.hash == hash
                && r.value.tokenHash == tokenHash
      ensures r.Ok? ==>
                && r.value.grants == LoadResult(size, file.contents).value && WellFormed(r.value.grants)
                && r.value.InSync()
    {
      if Blank(path) { return Err(NoPath); }
      if ttl <= 0 || ttl > MAX_GRANT_TTL { return Err(BadTTL); }
      var loaded := Load(file.contents, size);
      if loaded.Err? { return Err(LoadFailed(loaded.error)); }
      AcceptedIffWellFormed(loaded.value);
      var store := new GrantStore(file, ttl, hash, tokenHash, loaded.value);
      return Ok(store);
    }

    static method Load(contents: Contents, size: EncodedSize) returns (r: Result<seq<StoredGrant>, LoadError>)
      ensures r == LoadResult(size, contents)
    {
      match contents {
        case Absent => return Ok([]);
        case Unreadable => return Err(CannotRead);
        case Undecodable => return Err(CannotDecode);
        case Stored(state) =>
          if size(state) > MAX_STORE_BYTES { return Err(StoreTooLarge); }
          if state.schema != GRANT_STORE_SCHEMA { return Err(UnsupportedSchema); }
          var seen: set<string> := {};
          for i := 0 to |state.grants|
            invariant seen == GrantIDs(state.grants[..i])
            invariant ListProblem(state.grants[..i]).None?
          {
            var problem := EntryProblem(seen, state.grants[i]);
            FirstProblemStep(EntryProblem, state.grants, i);
            FirstProblemPrefix(EntryProblem, state.grants, i + 1);
            GrantIDsStep(state.grants, i);
            if problem.Some? { return Err(problem.value); }
            seen := seen + {state.grants[i].grant.id};
          }
          assert state.grants[..|state.grants|] == state.grants;
          return Ok(state.grants);
      }
    }

    /** Writes a temporary file and renames it over the store; on failure the store file is untouched. */
    method Persist(diskWorks: bool) returns (ok: bool)
      modifies file
      ensures ok == diskWorks
      ensures file.contents == if ok then Stored(GrantState(GRANT_STORE_SCHEMA, grants)) else old(file.contents)
    {
      if diskWorks {
        file.contents := Stored(GrantState(GRANT_STORE_SCHEMA, grants));
      }
      return diskWorks;
    }

    method Issue(plan: OperationPlan, approver: Actor, now: Time, entropy: Option<string>, id: string, diskWorks: bool)
      returns (r: Result<(Grant, string), IssueError>)
      requires InSync()
      modifies this, file
      ensures InSync()
      ensures r.Ok? <==> IssueProblem(hash, old(grants), plan, approver, now).None? && entropy.Some? && diskWorks
      ensures IssueProblem(hash, old(grants), plan, approver, now).Some? ==>
                r == Err(IssueProblem(hash, old(grants), plan, approver, now).value)
      ensures IssueProblem(hash, old(grants), plan, approver, now).None? ==>
                r.Err? ==> r == Err(if entropy.None? then NoEntropy else NotPersisted)
      ensures r.Ok? ==> var stored := NewGrant(tokenHash, ttl, plan, approver, now, entropy.value, id);
                        grants == old(grants) + [stored] && r.value == (stored.grant, entropy.value)
      ensures r.Ok? ==>
                var g := r.value.0;
                && g.schema == GRANT_SCHEMA && g.id == id && g.planID == plan.id && g.planDigest == plan.digest
                && g.subjectActorID == plan.actor.id && g.sessionID == plan.sessionID && g.approver == approver
                && g.action == plan.action && g.issuedAt == now && g.usedAt == ZERO_TIME
                && g.expiresAt == (if plan.expiresAt < now + ttl then plan.expiresAt else now + ttl)
                && grants[|old(grants)|] == StoredGrant(g, tokenHash(entropy.value))
      ensures r.Err? ==> grants == old(grants) && file.contents == old(file.contents)
    {
      if plan.schema != PLAN_SCHEMA || !plan.valid || !plan.requiresConfirmation { return Err(NotConfirmable); }
      if !VerifyPlanDigest(hash, plan) { return Err(DigestMismatch); }
      if plan.expiresAt <= now { return Err(PlanExpired); }
      if Blank(plan.sessionID) { return Err(NoSession); }
      if approver.kind != Human || !HasPermission(approver, CONFIRM) { return Err(NotHumanApprover); }
      if plan.actor.id == approver.id { return Err(SameActor); }
      for i := 0 to |grants|
        invariant grants == old(grants) && file.contents == old(file.contents)
        invariant forall k :: 0 <= k < i ==> !ForPlan(grants[k].grant, plan)
      {
        if ForPlan(grants[i].grant, plan) { return Err(AlreadyGranted); }
      }
      if entropy.None? { return Err(NoEntropy); }
      var expires := now + ttl;
      if plan.expiresAt < expires { expires := plan.expiresAt; }
      var stored := StoredGrant(
        Grant(GRANT_SCHEMA, id, plan.id, plan.digest, plan.actor.id, plan.sessionID, approver, plan.action, now,
              expires, ZERO_TIME),
        tokenHash(entropy.value));
      grants := grants + [stored];
      var persisted := Persist(diskWorks);
      if !persisted {
        grants := grants[..|grants| - 1];
        assert grants == old(grants);
        return Err(NotPersisted);
      }
      return Ok((stored.grant, entropy.value));
    }

    method Consume(token: string, plan: OperationPlan, subject: string, action: string, now: Time, diskWorks: bool)
      returns (r: Result<Grant, ConsumeError>)
      requires InSync()
      modifies this, file
      ensures InSync()
      ensures var decision := ConsumeDecision(hash, tokenHash, old(grants), token, plan, subject, action, now);
              && (r.Ok? <==> decision.Ok? && diskWorks)
              && (r.Ok? ==> grants == Used(old(grants), decision.value, now) && r.value == grants[decision.value].grant)
              && (decision.Err? ==> r == Err(decision.error))
              && (decision.Ok? && !diskWorks ==> r == Err(ConsumeNotPersisted))
      ensures r.Ok? ==>
                && |grants| == |old(grants)|
                && exists i :: 0 <= i < |grants| && old(grants)[i].grant.usedAt == ZERO_TIME
                     && DecodeSHA256(old(grants)[i].tokenSHA256) == Some(tokenHash(token))
                     && r.value == old(grants)[i].grant.(usedAt := now)
                     && grants[i] == StoredGrant(r.value, old(grants)[i].tokenSHA256)
                     && forall k :: 0 <= k < |grants| && k != i ==> grants[k] == old(grants)[k]
      ensures WellFormed(old(grants)) ==> WellFormed(grants)
      ensures r.Err? ==> grants == old(grants) && file.contents == old(file.contents)
    {
      if Blank(token) { return Err(NoToken); }
      if plan.schema != PLAN_SCHEMA || !plan.valid || !plan.requiresConfirmation { return Err(NotExecutable); }
      if !VerifyPlanDigest(hash, plan) { return Err(ConsumeDigestMismatch); }
      if plan.expiresAt <= now { return Err(OperationExpired); }
      var i := 0;
      while i < |grants|
        invariant 0 <= i <= |grants| && grants == old(grants) && file.contents == old(file.contents)
        invariant FirstOpened(tokenHash, grants, token, 0) == FirstOpened(tokenHash, grants, token, i)
      {
        var stored := grants[i];
        if !Opens(tokenHash, stored, token) {
          i := i + 1;
          continue;
        }
        if stored.grant.usedAt != ZERO_TIME { return Err(AlreadyConsumed); }
        if stored.grant.expiresAt <= now { return Err(GrantExpired); }
        if !Binds(stored.grant, plan, subject, action) { return Err(NotBound); }
        grants := Used(grants, i, now);
        var persisted := Persist(diskWorks);
        if !persisted {
          grants := Used(grants, i, ZERO_TIME);
          assert grants == old(grants);
          return Err(ConsumeNotPersisted);
        }
        if WellFormed(old(grants)) {
          UsedStaysWellFormed(old(grants), i, now);
        }
        return Ok(grants[i].grant);
      }
      return Err(NotFound);
    }
  }

  lemma FirstProblemStep(check: EntryCheck, grants: seq<StoredGrant>, i: nat)
    requires i < |grants| && FirstProblem(check, grants[..i]).None?
    ensures FirstProblem(check, grants[..i + 1]) == check(GrantIDs(grants[..i]), grants[i])
  {
    assert grants[..i + 1][..i] == grants[..i];
  }

  lemma GrantIDsStep(grants: seq<StoredGrant>, i: nat)
    requires i < |grants|
    ensures GrantIDs(grants[..i + 1]) == GrantIDs(grants[..i]) + {grants[i].grant.id}
  {
    assert grants[..i + 1] == grants[..i] + [grants[i]];
    GrantIDsAppend(grants[..i], grants[i]);
  }

  lemma GrantIDsAppend(grants: seq<StoredGrant>, stored: StoredGrant)
    ensures GrantIDs(grants + [stored]) == GrantIDs(grants) + {stored.grant.id}
  {
    var longer := grants + [stored];
    forall id | id in GrantIDs(grants) + {stored.grant.id} ensures id in GrantIDs(longer) {
      if id in GrantIDs(grants) {
        var k :| 0 <= k < |grants| && grants[k].grant.id == id;
        assert longer[k].grant.id == id;
      } else {
        assert longer[|grants|].grant.id == id;
      }
    }
  }

  /** The first problem is found in every longer list. */
  lemma {:induction false} FirstProblemPrefix(check: EntryCheck, grants: seq<StoredGrant>, n: nat)
    requires n <= |grants|
    ensures FirstProblem(check, grants[..n]).Some? ==> FirstProblem(check, grants) == FirstProblem(check, grants[..n])
    decreases |grants|
  {
    if n < |grants| {
      var front := grants[..|grants| - 1];
      assert front[..n] == grants[..n];
      FirstProblemPrefix(check, front, n);
    } else {
      assert grants[..n] == grants;
    }
  }
}
