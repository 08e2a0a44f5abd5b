/** Actors of the registry: a role list is normalized to a sorted set of roles and exactly their permissions. */
module Actors {
  import opened Text
  import opened Ordering
  import opened Types

  const READER := "reader"
  const OPERATOR := "operator"
  const MUTATOR := "mutator"
  const AUDITOR := "auditor"
  const APPROVER := "approver"
  const TCI_PROPOSER := "tci-proposer"
  const SERVICE := "service"

  const ROLE_PERMISSIONS: map<string, seq<string>> := map[
    READER := [CONTROL_READ, INVENTORY_READ, CATALOG_READ],
    OPERATOR := [CONTROL_READ, INVENTORY_READ, CATALOG_READ, PLAN, EXECUTE_READONLY],
    MUTATOR := [CONTROL_READ, INVENTORY_READ, CATALOG_READ, PLAN, EXECUTE_READONLY, EXECUTE_MUTATE],
    AUDITOR := [CONTROL_READ, AUDIT_READ],
    APPROVER := [CONTROL_READ, INVENTORY_READ, CATALOG_READ, PLAN, EXECUTE_READONLY, AUDIT_READ, CONFIRM],
    TCI_PROPOSER := [CONTROL_READ, INVENTORY_READ, CATALOG_READ, PLAN, PROPOSE],
    SERVICE := [CONTROL_READ, INVENTORY_READ, CATALOG_READ, PLAN, EXECUTE_READONLY, AUDIT_READ]]

  datatype ActorError = BadID | BadKind | BadDisplayName | NoRoles | UnknownRole | ElevatedTciRole | TciMayNotConfirm
                      | TciMayNotMutate

  predicate IsPrefixChar(c: char) { 'a' <= c <= 'z' || '0' <= c <= '9' || c == '.' || c == '-' }

  predicate IsSubjectChar(c: char) { IsAlphanumeric(c) || c == '_' || c == '.' || c == '@' || c == ':' || c == '-' }

  /** The prefix before a colon at k, and the subject after it. */
  predicate IsActorIDSplit(s: string, k: nat) {
    && 2 <= k <= 32 && k + 1 < |s| && |s| <= k + 97 && s[k] == ':' && 'a' <= s[0] <= 'z' && IsAlphanumeric(s[k + 1])
    && (forall i :: 1 <= i < k ==> IsPrefixChar(s[i]))
    && (forall i :: k + 2 <= i < |s| ==> IsSubjectChar(s[i]))
  }

  /** ^[a-z][a-z0-9.-]{1,31}:[A-Za-z0-9][A-Za-z0-9_.@:-]{0,95}$ */
  predicate IsActorID(s: string) {
    exists k: nat :: k < |s| && IsActorIDSplit(s, k)
  }

  /** Runs of equal neighbours shrink to one. */
  function Dedupe(s: seq<string>): (r: seq<string>)
    ensures |r| <= |s|
    ensures s != [] ==> r != [] && r[|r| - 1] == s[|s| - 1]
    ensures forall x :: x in r <==> x in s
  {
    if |s| <= 1 then s
    else
      var front, last := s[..|s| - 1], s[|s| - 1];
      assert s == front + [last];
      if last == s[|s| - 2] then Dedupe(front) else Dedupe(front) + [last]
  }

  lemma {:induction false} DedupeSorted(s: seq<string>)
    requires SortedBy(Itself, s)
    ensures StrictlySortedBy(Itself, Dedupe(s))
  {
    if |s| > 1 {
      var front, last := s[..|s| - 1], s[|s| - 1];
      DedupeSorted(front);
      var r := Dedupe(front);
      if last != s[|s| - 2] {
        forall i | 0 <= i < |r| ensures Leq(r[i], last) && r[i] != last {
          assert r[i] in front;
          var k :| 0 <= k < |front| && front[k] == r[i];
          assert Leq(Itself(s[k]), Itself(s[|s| - 1]));
          if r[i] == last {
            assert Leq(Itself(s[k]), Itself(s[|s| - 2])) || k == |s| - 2;
            assert Leq(Itself(s[|s| - 2]), Itself(s[|s| - 1]));
            LeqAntisymmetric(s[|s| - 2], last);
          }
        }
      }
    }
  }

  /** Compacts a slice in place, comparing each element with the slot before it. That slot always still holds its
      original value, because the write position never passes the read position. */
  method UniqueInPlace(a: array<string>) returns (n: nat)
    modifies a
    ensures n <= a.Length && a[..n] == Dedupe(old(a[..]))
  {
    ghost var original := a[..];
    n := 0;
    for index := 0 to a.Length
      invariant 0 <= n <= index
      invariant a[..n] == Dedupe(original[..index])
      invariant index > 0 ==> a[index - 1] == original[index - 1]
      invariant a[index..] == original[index..]
    {
      var value := a[index];
      assert value == original[index..][0] == original[index] by { assert a[index..][0] == a[index]; }
      DedupeStep(original, index);
      ghost var kept := a[..n];
      if index == 0 || value != a[index - 1] {
        a[n] := value;
        n := n + 1;
        assert a[..n] == kept + [value];
      }
      assert a[index + 1..] == original[index..][1..];
    }
    assert original[..a.Length] == original;
  }

  lemma DedupeStep(s: seq<string>, i: nat)
    requires i < |s|
    ensures Dedupe(s[..i + 1]) == if i == 0 || s[i] != s[i - 1] then Dedupe(s[..i]) + [s[i]] else Dedupe(s[..i])
  {
    assert s[..i + 1][..i] == s[..i];
  }

  function Normal(s: seq<string>): seq<string> {
    Dedupe(Sort(Itself, s))
  }

  /** The normal form of a list of strings is the one strictly sorted list with its elements. */
  lemma NormalForm(s: seq<string>)
    ensures StrictlySortedBy(Itself, Normal(s))
    ensures forall x :: x in Normal(s) <==> x in s
  {
    SortSorts(Itself, s);
    SortPermutes(Itself, s);
    DedupeSorted(Sort(Itself, s));
    SameElements(s, Sort(Itself, s));
  }

  method SortedUnique(s: seq<string>) returns (r: seq<string>)
    ensures r == Normal(s)
  {
    var sorted := Sort(Itself, s);
    var slice := new string[|sorted|](i requires 0 <= i < |sorted| => sorted[i]);
    assert slice[..] == sorted;
    var n := UniqueInPlace(slice);
    r := slice[..n];
  }

  /** The permission lists of the roles, one after the other. */
  function Granted(roles: seq<string>): seq<string>
    requires forall i :: 0 <= i < |roles| ==> roles[i] in ROLE_PERMISSIONS
  {
    if roles == [] then [] else Granted(roles[..|roles| - 1]) + ROLE_PERMISSIONS[roles[|roles| - 1]]
  }

  lemma GrantedStep(roles: seq<string>, i: nat)
    requires i < |roles| && forall k :: 0 <= k <= i ==> roles[k] in ROLE_PERMISSIONS
    ensures Granted(roles[..i + 1]) == Granted(roles[..i]) + ROLE_PERMISSIONS[roles[i]]
  {
    assert roles[..i + 1][..i] == roles[..i];
  }

  /** Some role of the list grants the permission. */
  predicate Grants(roles: seq<string>, permission: string) {
    exists i :: 0 <= i < |roles| && roles[i] in ROLE_PERMISSIONS && permission in ROLE_PERMISSIONS[roles[i]]
  }

  lemma {:induction false} GrantedIsUnion(roles: seq<string>, permission: string)
    requires forall i :: 0 <= i < |roles| ==> roles[i] in ROLE_PERMISSIONS
    ensures permission in Granted(roles) <==> Grants(roles, permission)
  {
    if roles != [] {
      var front, last := roles[..|roles| - 1], roles[|roles| - 1];
      GrantedIsUnion(front, permission);
      if Grants(front, permission) {
        var i :| 0 <= i < |front| && permission in ROLE_PERMISSIONS[front[i]];
        assert roles[i] == front[i];
      }
      if Grants(roles, permission) && permission !in ROLE_PERMISSIONS[last] {
        var i :| 0 <= i < |roles| && permission in ROLE_PERMISSIONS[roles[i]];
        assert front[i] == roles[i];
      }
    }
  }

  /** Which roles grant which permission. */
  lemma RolesOutright(role: string)
    ensures role in ROLE_PERMISSIONS <==>
              role in {"reader", "operator", "mutator", "auditor", "approver", "tci-proposer", "service"}
    ensures role in ROLE_PERMISSIONS ==>
              var granted := ROLE_PERMISSIONS[role];
              && "control.read" in granted
              && ("inventory.read" in granted <==> role != "auditor")
              && ("operations.catalog.read" in granted <==> role != "auditor")
              && ("operations.plan" in granted <==> role != "auditor" && role != "reader")
              && ("operations.execute.readonly" in granted <==> role in {"operator", "mutator", "approver", "service"})
              && ("operations.execute.mutate" in granted <==> role == "mutator")
              && ("audit.read" in granted <==> role in {"auditor", "approver", "service"})
              && ("operations.confirm" in granted <==> role == "approver")
              && ("operations.propose" in granted <==> role == "tci-proposer")
  {
    PermissionsApart();
    RolesApart();
  }

  /** The permissions differ: in length or in a letter. */
  lemma PermissionsApart()
    ensures |CONTROL_READ| == 12 && |INVENTORY_READ| == 14 && |CATALOG_READ| == 23 && |PLAN| == 15 && |PROPOSE| == 18
    ensures |CONFIRM| == 18 && |EXECUTE_MUTATE| == 25 && |EXECUTE_READONLY| == 27 && |AUDIT_READ| == 10
    ensures CONFIRM != PROPOSE
  {
    assert CONFIRM[11] == 'c' && PROPOSE[11] == 'p';
  }

  lemma RolesApart()
    ensures |READER| == 6 && |OPERATOR| == 8 && |MUTATOR| == 7 && |AUDITOR| == 7 && |APPROVER| == 8
            && |TCI_PROPOSER| == 12
    ensures |SERVICE| == 7 && MUTATOR != AUDITOR && MUTATOR != SERVICE && AUDITOR != SERVICE && OPERATOR != APPROVER
  {
    assert MUTATOR[0] == 'm' && AUDITOR[0] == 'a' && SERVICE[0] == 's' && OPERATOR[0] == 'o' && APPROVER[0] == 'a';
  }

  /** Hence a normalized actor may confirm exactly as an approver, and mutate exactly as a mutator. */
  lemma AuthorityByRole(actor: Actor, r: Actor)
    requires Acceptable(actor) && IsNormalOf(actor, r)
    ensures CONFIRM in r.permissions <==> APPROVER in actor.roles
    ensures EXECUTE_MUTATE in r.permissions <==> MUTATOR in actor.roles
  {
    GrantedOnlyBy(r.roles, CONFIRM, APPROVER);
    GrantedOnlyBy(r.roles, EXECUTE_MUTATE, MUTATOR);
  }

  lemma GrantedOnlyBy(roles: seq<string>, permission: string, role: string)
    requires (permission == CONFIRM && role == APPROVER) || (permission == EXECUTE_MUTATE && role == MUTATOR)
    ensures Grants(roles, permission) <==> role in roles
  {
    forall i | 0 <= i < |roles| && roles[i] in ROLE_PERMISSIONS
      ensures permission in ROLE_PERMISSIONS[roles[i]] <==> roles[i] == role
    {
      RolesOutright(roles[i]);
    }
    if role in roles {
      var i :| 0 <= i < |roles| && roles[i] == role;
      RolesOutright(role);
    }
  }

  /** ^[a-z][a-z0-9.-]{1,31}:[A-Za-z0-9][A-Za-z0-9_.@:-]{0,95}$, character by character, with its first colon at k. */
  lemma ActorIDOutright(s: string, k: nat)
    ensures k < |s| && IsActorIDSplit(s, k) <==>
              && k < |s| && s[k] == ':' && 2 <= k <= 32 && 1 <= |s| - k - 1 <= 96 && 'a' <= s[0] <= 'z'
              && (forall i :: 0 <= i < k ==> 'a' <= s[i] <= 'z' || '0' <= s[i] <= '9' || s[i] == '.' || s[i] == '-')
              && (forall i :: k < i < |s| ==>
                    || 'A' <= s[i] <= 'Z' || 'a' <= s[i] <= 'z' || '0' <= s[i] <= '9'
                    || (i > k + 1 && (s[i] == '_' || s[i] == '.' || s[i] == '@' || s[i] == ':' || s[i] == '-')))
    ensures k < |s| && IsActorIDSplit(s, k) ==> IsActorID(s) && ':' !in s[..k]
  {}

  /** What normalization accepts. */
  predicate Acceptable(actor: Actor) {
    && IsActorID(Trim(actor.id)) && !actor.kind.OtherKind?
    && 0 < ByteLength(Trim(actor.displayName)) <= 160 && actor.roles != []
    && RolesFit(actor.kind, actor.roles)
  }

  /** Every role is known, and a TCI actor holds no elevated one. */
  predicate RolesFit(kind: ActorKind, roles: seq<string>) {
    && (forall i :: 0 <= i < |roles| ==> roles[i] in ROLE_PERMISSIONS)
    && (kind == Tci ==> forall i :: 0 <= i < |roles| ==> roles[i] == TCI_PROPOSER || roles[i] == READER)
  }

  /** The problem of the first role that is unknown or too high for the kind. */
  function RoleProblem(kind: ActorKind, roles: seq<string>): (p: Option<ActorError>)
    ensures p.None? <==> RolesFit(kind, roles)
  {
    if roles == [] then None
    else if roles[0] !in ROLE_PERMISSIONS then Some(UnknownRole)
    else if kind == Tci && roles[0] != TCI_PROPOSER && roles[0] != READER then Some(ElevatedTciRole)
    else
      assert roles == [roles[0]] + roles[1..];
      RoleProblem(kind, roles[1..])
  }

  /** Why an actor is refused: its texts and kind first, then the first bad role in sorted order. */
  function ActorProblem(actor: Actor): (p: Option<ActorError>) {
    if !IsActorID(Trim(actor.id)) then Some(BadID)
    else if actor.kind.OtherKind? then Some(BadKind)
    else if Blank(actor.displayName) || ByteLength(Trim(actor.displayName)) > 160 then Some(BadDisplayName)
    else if actor.roles == [] then Some(NoRoles)
    else RoleProblem(actor.kind, Normal(actor.roles))
  }

  lemma AcceptableRoles(kind: ActorKind, a: seq<string>, b: seq<string>)
    requires forall x :: x in a <==> x in b
    ensures RolesFit(kind, a) <==> RolesFit(kind, b)
  {
    assert forall i :: 0 <= i < |a| ==> a[i] in b;
    assert forall i :: 0 <= i < |b| ==> b[i] in a;
  }

  /** The permissions of the roles, unless one is unknown or too high for the kind. */
  method CollectPermissions(kind: ActorKind, roles: seq<string>) returns (r: Result<seq<string>, ActorError>)
    ensures r.Ok? <==> RolesFit(kind, roles)
    ensures r.Ok? ==> r.value == Granted(roles)
    ensures r.Err? ==> RoleProblem(kind, roles) == Some(r.error)
  {
    var permissions: seq<string> := [];
    for i := 0 to |roles|
      invariant forall k :: 0 <= k < i ==> roles[k] in ROLE_PERMISSIONS
      invariant permissions == Granted(roles[..i])
      invariant RoleProblem(kind, roles[i..]) == RoleProblem(kind, roles)
    {
      if roles[i] !in ROLE_PERMISSIONS { return Err(UnknownRole); }
      if kind == Tci && roles[i] != TCI_PROPOSER && roles[i] != READER { return Err(ElevatedTciRole); }
      GrantedStep(roles, i);
      permissions := permissions + ROLE_PERMISSIONS[roles[i]];
    }
    assert roles[..|roles|] == roles;
    return Ok(permissions);
  }

  /** The normal form of an actor: its sorted distinct roles, and exactly the permissions they grant, sorted and
      distinct, whatever permissions were supplied. */
  ghost predicate IsNormalOf(actor: Actor, r: Actor) {
    && r.kind == actor.kind && r.id == Trim(actor.id) && r.displayName == Trim(actor.displayName)
    && StrictlySortedBy(Itself, r.roles) && StrictlySortedBy(Itself, r.permissions)
    && (forall x :: x in r.roles <==> x in actor.roles)
    && (forall p :: p in r.permissions <==> Grants(r.roles, p))
  }

  /** The permissions of a TCI actor's roles leave out confirmation, mutation and read-only execution. */
  lemma TciRolesGrantLittle(roles: seq<string>)
    requires forall i :: 0 <= i < |roles| ==> roles[i] == TCI_PROPOSER || roles[i] == READER
    ensures !Grants(roles, CONFIRM) && !Grants(roles, EXECUTE_MUTATE) && !Grants(roles, EXECUTE_READONLY)
  {
    Apart(CONFIRM);
    Apart(EXECUTE_MUTATE);
    Apart(EXECUTE_READONLY);
  }

  lemma Apart(permission: string)
    requires permission in {CONFIRM, EXECUTE_MUTATE, EXECUTE_READONLY}
    ensures permission !in ROLE_PERMISSIONS[TCI_PROPOSER] && permission !in ROLE_PERMISSIONS[READER]
  {
    assert |CONTROL_READ| == 12 && |INVENTORY_READ| == 14 && |CATALOG_READ| == 23 && |PLAN| == 15 && |PROPOSE| == 18;
    assert |CONFIRM| == 18 && |EXECUTE_MUTATE| == 25 && |EXECUTE_READONLY| == 27;
    assert CONFIRM[11] == 'c' && PROPOSE[11] == 'p';
  }

  class ActorRef {
    var value: Actor

    constructor (value: Actor)
      ensures this.value == value
    {
      this.value := value;
    }
  }

  /** Rewrites the actor in place. A refused actor keeps its kind, roles and permissions; its texts are trimmed even
      so. */
  method NormalizeActor(actor: ActorRef) returns (error: Option<ActorError>)
    modifies actor
    ensures error.None? <==> Acceptable(old(actor.value))
    ensures error == ActorProblem(old(actor.value))
    ensures error.None? ==> IsNormalOf(old(actor.value), actor.value)
    ensures error.None? && actor.value.kind == Tci ==>
              && !HasPermission(actor.value, CONFIRM) && !HasPermission(actor.value, EXECUTE_MUTATE)
              && !HasPermission(actor.value, EXECUTE_READONLY)
    ensures error.Some? ==>
              actor.value
                == old(actor.value).(id := Trim(old(actor.value.id)), displayName := Trim(old(actor.value.displayName)))
  {
    actor.value := actor.value.(id := Trim(actor.value.id), displayName := Trim(actor.value.displayName));
    var trimmed := actor.value;
    if !IsActorID(trimmed.id) { return Some(BadID); }
    if trimmed.kind.OtherKind? { return Some(BadKind); }
    if trimmed.displayName == "" || ByteLength(trimmed.displayName) > 160 { return Some(BadDisplayName); }
    if trimmed.roles == [] { return Some(NoRoles); }
    var roles, permissions;
    roles, permissions, error := NormalizeRoles(trimmed.kind, trimmed.roles);
    if error.None? {
      actor.value := trimmed.(roles := roles, permissions := permissions);
    }
  }

  /** The roles sorted, each once, and exactly what they grant. */
  method NormalizeRoles(kind: ActorKind, given: seq<string>)
    returns (roles: seq<string>, permissions: seq<string>, error: Option<ActorError>)
    ensures error.None? <==> RolesFit(kind, given)
    ensures error == RoleProblem(kind, Normal(given))
    ensures error.None? ==>
              && StrictlySortedBy(Itself, roles) && StrictlySortedBy(Itself, permissions)
              && (forall x :: x in roles <==> x in given) && (forall p :: p in permissions <==> Grants(roles, p))
    ensures error.None? && kind == Tci ==>
              CONFIRM !in permissions && EXECUTE_MUTATE !in permissions && EXECUTE_READONLY !in permissions
  {
    roles := SortedUnique(given);
    NormalForm(given);
    var collected := CollectPermissions(kind, roles);
    forall x ensures x in roles <==> x in given {}
    AcceptableRoles(kind, given, roles);
    permissions := [];
    if collected.Err? { return roles, permissions, Some(collected.error); }
    NormalForm(collected.value);
    permissions := SortedUnique(collected.value);
    forall p ensures p in permissions <==> Grants(roles, p) {
      GrantedIsUnion(roles, p);
    }
    if kind == Tci {
      TciRolesGrantLittle(roles);
    }
    if kind == Tci && CONFIRM in permissions { return roles, permissions, Some(TciMayNotConfirm); }
    if kind == Tci && EXECUTE_MUTATE in permissions { return roles, permissions, Some(TciMayNotMutate); }
    return roles, permissions, None;
  }

  /** The normal form is determined by the set of roles: their order, duplicates and any supplied permissions cannot
      show. */
  lemma NormalFormDetermined(a: Actor, b: Actor, r: Actor, q: Actor)
    requires IsNormalOf(a, r) && IsNormalOf(b, q) && forall x :: x in a.roles <==> x in b.roles
    ensures r.roles == q.roles && r.permissions == q.permissions
  {
    StrictlySortedDetermined(r.roles, q.roles);
    StrictlySortedDetermined(r.permissions, q.permissions);
  }

  /** Normalizing a normal form is accepted and changes nothing. */
  lemma NormalizeIdempotent(actor: Actor, once: Actor, twice: Actor)
    requires Acceptable(actor) && IsNormalOf(actor, once) && IsNormalOf(once, twice)
    ensures Acceptable(once) && twice == once
  {
    NormalFormDetermined(actor, once, once, twice);
    assert actor.roles[0] in once.roles;
    AcceptableRoles(actor.kind, actor.roles, once.roles);
  }
}
