/** The deployment policy: a file that can only narrow the compiled set of services. */
module Policy {
  import opened Text
  import opened Ordering
  import opened Types

  datatype ServiceSpec = ServiceSpec(unit: string, healthURL: string)

  type ServicePolicy = map<string, ServiceSpec>

  const RUNTIME := "quantum-runtime.service"
  const COMPILED: ServicePolicy := map[RUNTIME := ServiceSpec(RUNTIME, "http://127.0.0.1:11450/healthz")]
  const POLICY_SCHEMA := "quantum.control/service-mutation-policy/v1alpha1"

  /** What reading and decoding the policy file gives. */
  datatype PolicyFile = Unreadable | Oversized | Undecodable | Document(schema: string, units: seq<string>)

  datatype PolicyError = ReadFailed | TooLarge | DecodeFailed | UnsupportedSchema | EmptyUnit | Broadens

  predicate Narrows(policy: ServicePolicy) {
    forall unit :: unit in policy ==> unit in COMPILED && policy[unit] == COMPILED[unit]
  }

  /** The problem of the first line that names no compiled service. */
  function UnitsProblem(units: seq<string>): (p: Option<PolicyError>)
    ensures p.None? <==> forall i :: 0 <= i < |units| ==> Trim(units[i]) in COMPILED
  {
    if units == [] then None
    else if Trim(units[0]) in COMPILED then UnitsProblem(units[1..])
    else if Blank(units[0]) then Some(EmptyUnit)
    else Some(Broadens)
  }

  /** Why a policy file is rejected. */
  function FileProblem(file: PolicyFile): Option<PolicyError> {
    match file
    case Unreadable => Some(ReadFailed)
    case Oversized => Some(TooLarge)
    case Undecodable => Some(DecodeFailed)
    case Document(schema, units) => if schema != POLICY_SCHEMA then Some(UnsupportedSchema) else UnitsProblem(units)
  }

  method DefaultPolicy() returns (policy: ServicePolicy)
    ensures policy == COMPILED
    ensures policy == map["quantum-runtime.service" :=
                          ServiceSpec("quantum-runtime.service", "http://127.0.0.1:11450/healthz")]
  {
    policy := map[];
    var rest := COMPILED.Keys;
    while rest != {}
      invariant rest <= COMPILED.Keys && policy.Keys == COMPILED.Keys - rest
      invariant forall unit :: unit in policy ==> policy[unit] == COMPILED[unit]
      decreases |rest|
    {
      var unit :| unit in rest;
      policy := policy[unit := COMPILED[unit]];
      rest := rest - {unit};
    }
  }

  /** A policy is accepted exactly when every line names a compiled service; then it is those services
      with their compiled specifications. Only a blank path selects the whole compiled set. */
  method LoadPolicy(path: string, file: PolicyFile) returns (r: Result<ServicePolicy, PolicyError>)
    ensures Blank(path) ==> r == Ok(COMPILED)
    ensures !Blank(path) ==>
              (r.Ok? <==> && file.Document? && file.schema == POLICY_SCHEMA
                          && forall i :: 0 <= i < |file.units| ==> Trim(file.units[i]) in COMPILED)
    ensures !Blank(path) ==> (match FileProblem(file)
                              case Some(p) => r == Err(p)
                              case None => r.Ok?)
    ensures r.Ok? ==> Narrows(r.value)
    ensures r.Ok? && !Blank(path) ==> r.value.Keys == set i | 0 <= i < |file.units| :: Trim(file.units[i])
  {
    if Trim(path) == "" {
      var whole := DefaultPolicy();
      return Ok(whole);
    }
    match file {
      case Unreadable => return Err(ReadFailed);
      case Oversized => return Err(TooLarge);
      case Undecodable => return Err(DecodeFailed);
      case Document(schema, units) =>
        if schema != POLICY_SCHEMA {
          return Err(UnsupportedSchema);
        }
        var allowed := AllowUnits(units);
        return allowed;
    }
  }

  /** The policy of a list of units, or the problem of the first that names no compiled service. */
  method AllowUnits(units: seq<string>) returns (r: Result<ServicePolicy, PolicyError>)
    ensures r.Err? <==> UnitsProblem(units).Some?
    ensures r.Err? ==> UnitsProblem(units) == Some(r.error)
    ensures r.Ok? ==> Narrows(r.value) && r.value.Keys == set i | 0 <= i < |units| :: Trim(units[i])
  {
    var allowed: ServicePolicy := map[];
    for n := 0 to |units|
      invariant Narrows(allowed)
      invariant UnitsProblem(units[n..]) == UnitsProblem(units)
      invariant allowed.Keys == set i | 0 <= i < n :: Trim(units[i])
    {
      UnitsProblemStep(units, n);
      UnitsStep(units, n);
      var unit := Trim(units[n]);
      if unit == "" {
        return Err(EmptyUnit);
      }
      if unit !in COMPILED {
        return Err(Broadens);
      }
      allowed := allowed[unit := COMPILED[unit]];
    }
    return Ok(allowed);
  }

  lemma UnitsProblemStep(units: seq<string>, n: nat)
    requires n < |units|
    ensures UnitsProblem(units[n..]) == if Trim(units[n]) in COMPILED then UnitsProblem(units[n + 1..])
                                        else Some(if Trim(units[n]) == "" then EmptyUnit else Broadens)
  {
    assert units[n..][1..] == units[n + 1..];
  }

  lemma UnitsStep(units: seq<string>, n: nat)
    requires n < |units|
    ensures (set i | 0 <= i < n + 1 :: Trim(units[i])) == (set i | 0 <= i < n :: Trim(units[i])) + {Trim(units[n])}
  {}

  /** The units of a policy, sorted, each once. */
  method AllowedUnits(policy: ServicePolicy) returns (units: seq<string>)
    ensures forall unit :: unit in units <==> unit in policy
    ensures SortedBy(Itself, units) && |units| == |policy|
  {
    var found: seq<string> := [];
    var rest := policy.Keys;
    while rest != {}
      invariant rest <= policy.Keys && |found| + |rest| == |policy.Keys|
      invariant forall unit :: unit in found <==> unit in policy.Keys - rest
      decreases |rest|
    {
      var unit :| unit in rest;
      found := found + [unit];
      rest := rest - {unit};
    }
    units := Sort(Itself, found);
    SortSorts(Itself, found);
    SortPermutes(Itself, found);
    SameElements(found, units);
    assert |policy| == |policy.Keys|;
  }
}
