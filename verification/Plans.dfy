/** Immutable operation plans: how they are built, what their digest covers, and how the broker
    reads their parameters back. */
module Plans {
  import opened Text
  import opened Ordering
  import opened Types

  /** The digested fields. Times are formatted injectively (section 5.6 of RFC 3339), so they stay numbers. */
  datatype CanonicalPlan = CanonicalPlan(
    schema: string, id: string, requestID: string, sessionID: string, actorID: string, actorKind: ActorKind,
    action: string, parameters: seq<Parameter>, risk: string, requiresConfirmation: bool, valid: bool,
    createdAt: Time, expiresAt: Time, errorCode: string)

  /** SHA-256 over the JSON text of the canonical plan: an arbitrary function here. */
  type PlanHash = CanonicalPlan -> HexDigest

  function Canonical(plan: OperationPlan): CanonicalPlan {
    CanonicalPlan(
      plan.schema, plan.id, plan.requestID, plan.sessionID, plan.actor.id, plan.actor.kind,
      plan.action, Sort(NameOf, plan.parameters), plan.risk, plan.requiresConfirmation, plan.valid,
      plan.createdAt, plan.expiresAt, plan.errorCode)
  }

  predicate VerifyPlanDigest(hash: PlanHash, plan: OperationPlan) {
    EqualFold(hash(Canonical(plan)), plan.digest)
  }

  /** No two of these plans exhibit a SHA-256 collision. */
  ghost predicate CollisionFree(hash: PlanHash, plans: set<OperationPlan>) {
    forall p, q :: p in plans && q in plans && hash(Canonical(p)) == hash(Canonical(q)) ==> Canonical(p) == Canonical(q)
  }

  /** Two verifying plans with the same digest up to case were hashed to the same sum. */
  lemma SameDigestSameHash(hash: PlanHash, p: OperationPlan, q: OperationPlan)
    requires VerifyPlanDigest(hash, p) && VerifyPlanDigest(hash, q) && EqualFold(p.digest, q.digest)
    ensures hash(Canonical(p)) == hash(Canonical(q))
  {
    HexIsTrimmed(hash(Canonical(p)));
    HexIsTrimmed(hash(Canonical(q)));
  }

  // ---- What the digest covers ----

  /** Equality of two plans up to what is not digested: the digest itself, the actor's display name, roles and
      permissions, and the order of the parameters. */
  predicate SameDigestedFields(p: OperationPlan, q: OperationPlan) {
    && p.schema == q.schema && p.id == q.id && p.requestID == q.requestID && p.sessionID == q.sessionID
    && p.actor.id == q.actor.id && p.actor.kind == q.actor.kind && p.action == q.action
    && multiset(p.parameters) == multiset(q.parameters) && p.risk == q.risk
    && p.requiresConfirmation == q.requiresConfirmation && p.valid == q.valid
    && p.createdAt == q.createdAt && p.expiresAt == q.expiresAt && p.errorCode == q.errorCode
  }

  /** Each digested field is the plan's own of that name. */
  lemma CanonicalOutright(p: OperationPlan)
    ensures var c := Canonical(p);
            && c.schema == p.schema && c.id == p.id && c.requestID == p.requestID && c.sessionID == p.sessionID
            && c.actorID == p.actor.id && c.actorKind == p.actor.kind && c.action == p.action && c.risk == p.risk
            && c.requiresConfirmation == p.requiresConfirmation && c.valid == p.valid
            && c.createdAt == p.createdAt && c.expiresAt == p.expiresAt && c.errorCode == p.errorCode
            && multiset(c.parameters) == multiset(p.parameters) && SortedBy(NameOf, c.parameters)
  {
    SortPermutes(NameOf, p.parameters);
    SortSorts(NameOf, p.parameters);
  }

  /** The digest covers all those fields, and for distinct parameter names nothing else. */
  lemma CanonicalCovers(p: OperationPlan, q: OperationPlan)
    ensures Canonical(p) == Canonical(q) ==> SameDigestedFields(p, q)
    ensures KeyedApart(NameOf, p.parameters) ==> (Canonical(p) == Canonical(q) <==> SameDigestedFields(p, q))
  {
    SortPermutes(NameOf, p.parameters);
    SortPermutes(NameOf, q.parameters);
    if KeyedApart(NameOf, p.parameters) && SameDigestedFields(p, q) {
      SortOrderFree(NameOf, p.parameters, q.parameters);
    }
  }

  /** A digest binds its plan: another plan under the same digest, up to case, verifies exactly if it agrees on every
      digested field. */
  lemma DigestBinds(hash: PlanHash, p: OperationPlan, q: OperationPlan)
    requires VerifyPlanDigest(hash, p) && EqualFold(p.digest, q.digest)
    requires CollisionFree(hash, {p, q}) && KeyedApart(NameOf, p.parameters)
    ensures VerifyPlanDigest(hash, q) <==> SameDigestedFields(p, q)
  {
    CanonicalCovers(p, q);
    if VerifyPlanDigest(hash, q) {
      SameDigestSameHash(hash, p, q);
    }
  }

  // ---- Reading the parameters back ----

  function TrimmedName(p: Parameter): string { Trim(p.name) }

  /** Under the key, every parameter has a name and no two share one. */
  predicate Apart(key: Parameter -> string, ps: seq<Parameter>) {
    && (forall i :: 0 <= i < |ps| ==> key(ps[i]) != "")
    && (forall i, j :: 0 <= i < j < |ps| ==> key(ps[i]) != key(ps[j]))
  }

  /** The map m holds exactly the parameters ps under their keys. */
  ghost predicate Holds(key: Parameter -> string, ps: seq<Parameter>, m: map<string, string>) {
    && (forall p :: p in ps ==> key(p) in m && m[key(p)] == p.value)
    && m.Keys == KeysOf(key, ps)
  }

  function KeysOf(key: Parameter -> string, ps: seq<Parameter>): set<string> {
    if ps == [] then {} else KeysOf(key, ps[..|ps| - 1]) + {key(ps[|ps| - 1])}
  }

  lemma {:induction false} KeysOfMember(key: Parameter -> string, ps: seq<Parameter>, name: string)
    ensures name in KeysOf(key, ps) <==> exists p :: p in ps && key(p) == name
  {
    if ps != [] {
      var front, last := ps[..|ps| - 1], ps[|ps| - 1];
      KeysOfMember(key, front, name);
      forall p ensures p in ps <==> p in front || p == last {
        assert ps == front + [last];
      }
    }
  }

  lemma ApartSnoc(key: Parameter -> string, ps: seq<Parameter>)
    requires ps != []
    ensures var front, last := ps[..|ps| - 1], ps[|ps| - 1];
            Apart(key, ps) <==> Apart(key, front) && key(last) != "" && key(last) !in KeysOf(key, front)
  {
    var n := |ps| - 1;
    var front := ps[..n];
    KeysOfMember(key, front, key(ps[n]));
    if Apart(key, ps) {
      forall i, j | 0 <= i < j < n ensures key(front[i]) != key(front[j]) {
        assert key(ps[i]) != key(ps[j]);
      }
      forall p | p in front ensures key(p) != key(ps[n]) {
        var i :| 0 <= i < n && front[i] == p;
        assert key(ps[i]) != key(ps[n]);
      }
    }
    if Apart(key, front) && key(ps[n]) != "" && key(ps[n]) !in KeysOf(key, front) {
      forall i | 0 <= i <= n ensures key(ps[i]) != "" {
        assert i < n ==> key(front[i]) != "";
      }
      forall i, j | 0 <= i < j <= n ensures key(ps[i]) != key(ps[j]) {
        assert front[i] in front;
        assert j < n ==> key(front[i]) != key(front[j]);
      }
    }
  }

  lemma HoldsSnoc(key: Parameter -> string, ps: seq<Parameter>, m: map<string, string>)
    requires ps != [] && Holds(key, ps[..|ps| - 1], m)
    ensures var last := ps[|ps| - 1]; key(last) !in m ==> Holds(key, ps, m[key(last) := last.value])
  {
    var front, last := ps[..|ps| - 1], ps[|ps| - 1];
    assert ps == front + [last];
    if key(last) !in m {
      forall p | p in ps ensures key(p) in m[key(last) := last.value] && m[key(last) := last.value][key(p)] == p.value {
        assert p in front || p == last;
      }
    }
  }

  function Collect(key: Parameter -> string, ps: seq<Parameter>): (r: Option<map<string, string>>)
    ensures r.Some? <==> Apart(key, ps)
    ensures r.Some? ==> Holds(key, ps, r.value)
  {
    if ps == [] then Some(map[])
    else
      var front, last := ps[..|ps| - 1], ps[|ps| - 1];
      ApartSnoc(key, ps);
      match Collect(key, front)
      case None => None
      case Some(m) =>
        HoldsSnoc(key, ps, m);
        if key(last) == "" || key(last) in m then None else Some(m[key(last) := last.value])
  }

  /** Names that survive trimming and stay apart. */
  predicate CleanNames(ps: seq<Parameter>) {
    Apart(TrimmedName, ps)
  }

  function ExactParameters(ps: seq<Parameter>): (r: Option<map<string, string>>)
    ensures r.Some? <==> CleanNames(ps)
    ensures r.Some? ==> Holds(TrimmedName, ps, r.value)
  {
    Collect(TrimmedName, ps)
  }

  /** Exactly which parameters are read from a list: its values under their trimmed names, if those are nonempty and
      differ. */
  lemma ExactlyTrimmed(ps: seq<Parameter>, m: map<string, string>)
    ensures ExactParameters(ps) == Some(m) <==>
              && (forall i :: 0 <= i < |ps| ==> Trim(ps[i].name) != "")
              && (forall i, j :: 0 <= i < j < |ps| ==> Trim(ps[i].name) != Trim(ps[j].name))
              && (forall i :: 0 <= i < |ps| ==> Trim(ps[i].name) in m && m[Trim(ps[i].name)] == ps[i].value)
              && (forall name :: name in m ==> exists i :: 0 <= i < |ps| && Trim(ps[i].name) == name)
  {
    CollectExactly(TrimmedName, ps, m);
    assert Collect(TrimmedName, ps) == ExactParameters(ps);
  }

  lemma CollectExactly(key: Parameter -> string, ps: seq<Parameter>, m: map<string, string>)
    ensures Collect(key, ps) == Some(m) <==> Apart(key, ps) && HoldsAt(key, ps, m)
  {
    HoldsExactly(key, ps, m);
    if Apart(key, ps) && Holds(key, ps, m) {
      HoldsDetermines(key, ps, m, Collect(key, ps).value);
    }
  }

  /** Every listed value under its key, and nothing else. */
  predicate HoldsAt(key: Parameter -> string, ps: seq<Parameter>, m: map<string, string>) {
    && (forall i :: 0 <= i < |ps| ==> key(ps[i]) in m && m[key(ps[i])] == ps[i].value)
    && (forall name :: name in m ==> exists i :: 0 <= i < |ps| && key(ps[i]) == name)
  }

  lemma HoldsExactly(key: Parameter -> string, ps: seq<Parameter>, m: map<string, string>)
    ensures Holds(key, ps, m) <==> HoldsAt(key, ps, m)
  {
    forall name ensures name in KeysOf(key, ps) <==> exists i :: 0 <= i < |ps| && key(ps[i]) == name {
      KeysOfMember(key, ps, name);
    }
    if Holds(key, ps, m) {
      forall i | 0 <= i < |ps| ensures key(ps[i]) in m && m[key(ps[i])] == ps[i].value {
        assert ps[i] in ps;
      }
    }
    if HoldsAt(key, ps, m) {
      forall name ensures name in m <==> name in KeysOf(key, ps) {}
      assert m.Keys == KeysOf(key, ps);
    }
  }

  /** The loop of the source, which stops at the first bad name. */
  method ReadParameters(ps: seq<Parameter>) returns (r: Option<map<string, string>>)
    ensures r == ExactParameters(ps)
  {
    var m := map[];
    for i := 0 to |ps|
      invariant Collect(TrimmedName, ps[..i]) == Some(m)
    {
      var name := TrimmedName(ps[i]);
      CollectStep(TrimmedName, ps, i);
      if name == "" || name in m {
        BadPrefix(TrimmedName, ps, i + 1);
        return None;
      }
      m := m[name := ps[i].value];
    }
    assert ps[..|ps|] == ps;
    return Some(m);
  }

  lemma CollectStep(key: Parameter -> string, ps: seq<Parameter>, i: nat)
    requires i < |ps| && Collect(key, ps[..i]).Some?
    ensures Collect(key, ps[..i + 1]) ==
            var m, name := Collect(key, ps[..i]).value, key(ps[i]);
            if name == "" || name in m then None else Some(m[name := ps[i].value])
  {
    assert ps[..i + 1][..i] == ps[..i];
  }

  lemma BadPrefix(key: Parameter -> string, ps: seq<Parameter>, n: nat)
    requires n <= |ps| && !Apart(key, ps[..n])
    ensures !Apart(key, ps)
  {
    if Apart(key, ps) {
      forall i, j | 0 <= i < j < n ensures key(ps[..n][i]) != key(ps[..n][j]) {
        assert key(ps[i]) != key(ps[j]);
      }
      assert false;
    }
  }

  /** Parameters that are apart occur once. */
  lemma {:induction false} ApartOccursOnce(key: Parameter -> string, ps: seq<Parameter>, x: Parameter)
    requires Apart(key, ps)
    ensures multiset(ps)[x] <= 1
  {
    if ps != [] {
      ApartOccursOnce(key, ps[1..], x);
      TailOfMultiset(ps);
      forall i | 0 <= i < |ps| - 1 ensures ps[1..][i] != ps[0] {
        assert key(ps[0]) != key(ps[i + 1]);
      }
    }
  }

  lemma OccursTwice(qs: seq<Parameter>, i: nat, j: nat)
    requires i < j < |qs| && qs[i] == qs[j]
    ensures multiset(qs)[qs[i]] >= 2
  {
    assert qs == qs[..j] + qs[j..];
    assert qs[i] in multiset(qs[..j]) by { assert qs[..j][i] == qs[i]; }
    assert qs[j] in multiset(qs[j..]) by { assert qs[j..][0] == qs[j]; }
  }

  lemma ApartPermute(key: Parameter -> string, ps: seq<Parameter>, qs: seq<Parameter>)
    requires multiset(ps) == multiset(qs) && Apart(key, ps)
    ensures Apart(key, qs)
  {
    forall i | 0 <= i < |qs| ensures key(qs[i]) != "" {
      assert qs[i] in multiset(ps);
    }
    forall i, j | 0 <= i < j < |qs| ensures key(qs[i]) != key(qs[j]) {
      assert qs[i] in multiset(ps) && qs[j] in multiset(ps);
      if qs[i] == qs[j] {
        OccursTwice(qs, i, j);
        ApartOccursOnce(key, ps, qs[i]);
      }
    }
  }

  lemma HoldsDetermines(key: Parameter -> string, ps: seq<Parameter>, m: map<string, string>, n: map<string, string>)
    requires Holds(key, ps, m) && Holds(key, ps, n)
    ensures m == n
  {
    forall name | name in m ensures m[name] == n[name] {
      KeysOfMember(key, ps, name);
    }
  }

  lemma HoldsOrderFree(key: Parameter -> string, ps: seq<Parameter>, qs: seq<Parameter>, m: map<string, string>)
    requires multiset(ps) == multiset(qs) && Holds(key, ps, m)
    ensures Holds(key, qs, m)
  {
    SameElements(ps, qs);
    forall name ensures name in KeysOf(key, ps) <==> name in KeysOf(key, qs) {
      KeysOfMember(key, ps, name);
      KeysOfMember(key, qs, name);
    }
    assert KeysOf(key, ps) == KeysOf(key, qs);
  }

  lemma CollectOrderFree(key: Parameter -> string, ps: seq<Parameter>, qs: seq<Parameter>)
    requires multiset(ps) == multiset(qs)
    ensures Collect(key, ps) == Collect(key, qs)
  {
    if Apart(key, ps) {
      ApartPermute(key, ps, qs);
      HoldsOrderFree(key, ps, qs, Collect(key, ps).value);
      HoldsDetermines(key, qs, Collect(key, ps).value, Collect(key, qs).value);
    } else if Apart(key, qs) {
      ApartPermute(key, qs, ps);
    }
  }

  /** The broker reads the same parameters whatever order the plan lists them in. */
  lemma ExactParametersOrderFree(ps: seq<Parameter>, qs: seq<Parameter>)
    requires multiset(ps) == multiset(qs)
    ensures ExactParameters(ps) == ExactParameters(qs)
  {
    CollectOrderFree(TrimmedName, ps, qs);
  }

  lemma CleanNamesKeyedApart(ps: seq<Parameter>)
    requires CleanNames(ps)
    ensures KeyedApart(NameOf, ps)
  {
    forall i, j | 0 <= i < |ps| && 0 <= j < |ps| && i != j ensures NameOf(ps[i]) != NameOf(ps[j]) {
      assert TrimmedName(ps[i]) != TrimmedName(ps[j]);
    }
  }

  /** The digest of an acceptable plan does not depend on the order of its parameters, however the
      unstable library sort breaks ties. */
  lemma DigestOrderFree(hash: PlanHash, plan: OperationPlan, ps: seq<Parameter>)
    requires multiset(ps) == multiset(plan.parameters) && CleanNames(plan.parameters)
    ensures Canonical(plan.(parameters := ps)) == Canonical(plan)
    ensures VerifyPlanDigest(hash, plan.(parameters := ps)) == VerifyPlanDigest(hash, plan)
  {
    CleanNamesKeyedApart(plan.parameters);
    SortOrderFree(NameOf, plan.parameters, ps);
  }

  /** Without distinct names the order shows: the digest covers the order of two values of one parameter. */
  lemma DuplicateNamesKeepOrder()
    ensures exists ps: seq<Parameter>, qs: seq<Parameter> ::
              multiset(ps) == multiset(qs) && Sort(NameOf, ps) != Sort(NameOf, qs)
  {
    var a, b := Parameter("unit", "a"), Parameter("unit", "b");
    SortPair(a, b);
    SortPair(b, a);
    assert multiset([a, b]) == multiset([b, a]);
    assert [a, b][0] != [b, a][0];
  }

  /** Two parameters of one name stay in the order they came. */
  lemma SortPair(a: Parameter, b: Parameter)
    requires a.name == b.name
    ensures Sort(NameOf, [a, b]) == [a, b]
  {
    LeqTotal(a.name, b.name);
    assert [a, b][1..] == [b] && [b][1..] == [];
    assert Sort(NameOf, [b]) == [b];
  }

  /** Plans with equal canonical forms and clean names are the same order: action, actor and parameters agree. */
  lemma SameCanonicalSameOrder(p: OperationPlan, q: OperationPlan)
    requires Canonical(p) == Canonical(q)
    ensures p.action == q.action && p.actor.id == q.actor.id && p.actor.kind == q.actor.kind && p.risk == q.risk
    ensures multiset(p.parameters) == multiset(q.parameters)
    ensures ExactParameters(p.parameters) == ExactParameters(q.parameters)
  {
    SortPermutes(NameOf, p.parameters);
    SortPermutes(NameOf, q.parameters);
    ExactParametersOrderFree(p.parameters, q.parameters);
  }

  // ---- Building plans ----

  /** The parameters of a plan list a request's parameters in the order of their names. */
  ghost predicate Lists(ps: seq<Parameter>, m: map<string, string>) {
    && StrictlySortedBy(NameOf, ps)
    && (forall i :: 0 <= i < |ps| ==> ps[i].name in m && m[ps[i].name] == ps[i].value)
    && (forall name :: name in m ==> Parameter(name, m[name]) in ps)
  }

  /** What `Build` makes of a broker plan. */
  ghost predicate BuiltFrom(hash: PlanHash, plan: OperationPlan, actor: Actor, sessionID: string, broker: BrokerPlan,
                            id: string, created: Time, ttl: Time)
  {
    && Lists(plan.parameters, broker.request.parameters)
    && plan.schema == PLAN_SCHEMA && plan.id == id && plan.requestID == broker.request.requestID
    && plan.sessionID == Trim(sessionID) && plan.actor == actor && plan.action == Trim(broker.request.action)
    && plan.risk == (if broker.definition.Some? then broker.definition.value.risk else "")
    && plan.requiresConfirmation == broker.requiresConfirmation && plan.valid == broker.valid
    && plan.createdAt == created && plan.expiresAt == created + (if ttl <= 0 then 5 * MINUTE else ttl)
    && plan.errorCode == (if broker.error.Some? then Code(broker.error.value) else "")
    && plan.digest == hash(Canonical(plan))
  }

  /** A listing under trimmed, nonempty names reads back as the map it lists. */
  lemma ListedIsRead(ps: seq<Parameter>, m: map<string, string>)
    requires Lists(ps, m) && forall name :: name in m ==> name != "" && Trimmed(name)
    ensures ExactParameters(ps) == Some(m)
  {
    forall i | 0 <= i < |ps| ensures TrimmedName(ps[i]) == ps[i].name && ps[i].name != "" {
      assert ps[i].name in m;
    }
    ListedIsCollected(TrimmedName, ps, m);
  }

  lemma ListedIsCollected(key: Parameter -> string, ps: seq<Parameter>, m: map<string, string>)
    requires Lists(ps, m)
    requires forall i :: 0 <= i < |ps| ==> key(ps[i]) == ps[i].name && ps[i].name != ""
    ensures Collect(key, ps) == Some(m)
  {
    forall i, j | 0 <= i < j < |ps| ensures key(ps[i]) != key(ps[j]) {
      assert NameOf(ps[i]) != NameOf(ps[j]);
    }
    forall name ensures name in KeysOf(key, ps) <==> name in m {
      KeysOfMember(key, ps, name);
      if name in m {
        var p := Parameter(name, m[name]);
        assert p in ps && key(p) == name;
      }
    }
    assert m.Keys == KeysOf(key, ps);
    HoldsDetermines(key, ps, m, Collect(key, ps).value);
  }

  lemma SortedListing(ps: seq<Parameter>, m: map<string, string>)
    requires forall i :: 0 <= i < |ps| ==> ps[i].name in m && m[ps[i].name] == ps[i].value
    requires forall i, j :: 0 <= i < j < |ps| ==> ps[i].name != ps[j].name
    requires forall name :: name in m ==> Parameter(name, m[name]) in ps
    ensures Lists(Sort(NameOf, ps), m)
  {
    var r := Sort(NameOf, ps);
    SortSorts(NameOf, ps);
    SortPermutes(NameOf, ps);
    NamesStayApart(ps, r);
    SameEntries(ps, r, m);
  }

  lemma SameEntries(ps: seq<Parameter>, r: seq<Parameter>, m: map<string, string>)
    requires multiset(r) == multiset(ps)
    requires forall i :: 0 <= i < |ps| ==> ps[i].name in m && m[ps[i].name] == ps[i].value
    requires forall name :: name in m ==> Parameter(name, m[name]) in ps
    ensures forall i :: 0 <= i < |r| ==> r[i].name in m && m[r[i].name] == r[i].value
    ensures forall name :: name in m ==> Parameter(name, m[name]) in r
  {
    SameElements(ps, r);
    forall i | 0 <= i < |r| ensures r[i].name in m && m[r[i].name] == r[i].value {
      assert r[i] in ps;
    }
  }

  /** Distinctness of names survives reordering, the empty name included. */
  lemma NamesStayApart(ps: seq<Parameter>, qs: seq<Parameter>)
    requires multiset(ps) == multiset(qs)
    requires forall i, j :: 0 <= i < j < |ps| ==> ps[i].name != ps[j].name
    ensures forall i, j :: 0 <= i < j < |qs| ==> qs[i].name != qs[j].name
  {
    forall i, j | 0 <= i < j < |ps| ensures Marked(ps[i]) != Marked(ps[j]) {
      MarkedApart(ps[i], ps[j]);
    }
    ApartPermute(Marked, ps, qs);
    forall i, j | 0 <= i < j < |qs| ensures qs[i].name != qs[j].name {
      assert Marked(qs[i]) != Marked(qs[j]);
    }
  }

  function Marked(p: Parameter): string { "n" + p.name }

  lemma MarkedApart(p: Parameter, q: Parameter)
    requires p.name != q.name
    ensures Marked(p) != Marked(q)
  {
    assert Marked(p)[1..] == p.name && Marked(q)[1..] == q.name;
  }

  /** `Build`: the map is read in an arbitrary order and then sorted. */
  method Build(hash: PlanHash, actor: Actor, sessionID: string, broker: BrokerPlan,
               id: string, now: Time, ttl: Time)
    returns (r: Option<OperationPlan>)
    ensures r.None? <==> Blank(actor.id)
    ensures r.Some? ==> BuiltFrom(hash, r.value, actor, sessionID, broker, id, now, ttl)
  {
    if Blank(actor.id) {
      return None;
    }
    var m := broker.request.parameters;
    var rest := m.Keys;
    var parameters: seq<Parameter> := [];
    while rest != {}
      invariant rest <= m.Keys
      invariant forall i :: 0 <= i < |parameters| ==>
                              parameters[i].name in m.Keys - rest && m[parameters[i].name] == parameters[i].value
      invariant forall i, j :: 0 <= i < j < |parameters| ==> parameters[i].name != parameters[j].name
      invariant forall name :: name in m.Keys - rest ==> Parameter(name, m[name]) in parameters
      decreases |rest|
    {
      var name :| name in rest;
      parameters := parameters + [Parameter(name, m[name])];
      rest := rest - {name};
    }
    SortedListing(parameters, m);
    var plan := OperationPlan(
      PLAN_SCHEMA, id, "", broker.request.requestID, Trim(sessionID), actor, Trim(broker.request.action),
      Sort(NameOf, parameters), if broker.definition.Some? then broker.definition.value.risk else "",
      broker.requiresConfirmation, broker.valid, now, now + (if ttl <= 0 then 5 * MINUTE else ttl),
      if broker.error.Some? then Code(broker.error.value) else "");
    r := Some(plan.(digest := hash(Canonical(plan))));
    assert Canonical(r.value) == Canonical(plan);
  }
}
