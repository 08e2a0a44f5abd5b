/** The grant store only ever grows, and nothing bounds what is written: a reachable file that the next start
    refuses. */
module Capacity {
  import opened Text
  import opened Types
  import opened Plans
  import opened Policy
  import opened Broker
  import opened Grants
  import opened Protocol
  import opened Safety
  import opened Guarantees
  import opened Handlers

  const APPROVED_BY := Actor("human:b", Human, "b", [], [CONFIRM])

  /** The k-th of arbitrarily many names. */
  function Name(k: nat): (name: string)
    ensures |name| == k + 1 && !Blank(name)
  {
    var name := seq(k + 1, _ => 'p');
    LettersAreNotBlank(name);
    name
  }

  /** Distinct usable tokens. */
  predicate Tokens(tokenHash: TokenHash, tokens: seq<string>) {
    && (forall i :: 0 <= i < |tokens| ==> !Blank(tokens[i]))
    && (forall i, j :: 0 <= i < j < |tokens| ==> tokenHash(tokens[i]) != tokenHash(tokens[j]))
  }

  /** A broker that has served n confirmations at time 1 and nothing else. */
  predicate Served(cfg: Config, s: State, tokens: seq<string>, n: nat)
    requires n <= |tokens|
  {
    && s.clock == 1 && s.process.Up? && s.process.confirmations == map[]
    && s.process.operations == WithMutations(READ_OPERATIONS, [RUNTIME]) && s.process.policy == COMPILED
    && s.process.actors("t") == Some(APPROVED_BY)
    && |s.process.grants| == n
    && forall i :: 0 <= i < n ==>
         var g := s.process.grants[i];
         g.tokenSHA256 == cfg.tokenHash(tokens[i]) && g.grant.id == Name(i) && g.grant.planID == Name(i)
  }

  lemma FirstStart(cfg: Config, tokens: seq<string>) returns (s: State)
    ensures Reachable(cfg, s) && Served(cfg, s, tokens, 0)
  {
    var actors: Authenticator := _ => Some(APPROVED_BY);
    s := Apply(cfg, Init(1), Restart(COMPILED, [RUNTIME], actors));
    Restarts(cfg, Init(1), COMPILED, [RUNTIME], actors);
    RunSnoc(cfg, Init(1), [], Restart(COMPILED, [RUNTIME], actors));
  }

  function NextCall(cfg: Config, tokens: seq<string>, n: nat): ConfirmCall
    requires n < |tokens|
  {
    ConfirmCall(StartPlan(cfg.hash, Name(n), START), "t", 1, 1, tokens[n], Name(n), true)
  }

  lemma ReachableCatalog(cfg: Config, s: State)
    requires Reachable(cfg, s) && s.process.Up?
    ensures ServiceCatalog(s.process.operations, s.process.targets, s.process.policy)
  {
    ReachableInv(cfg, s);
  }

  lemma Recognized(actors: Authenticator)
    requires actors("t") == Some(APPROVED_BY)
    ensures Authenticate(actors, "t") == Some(APPROVED_BY)
  {
    LettersAreNotBlank("t");
    assert "t"[1..] == "" && ByteLength("t") == 1;
  }

  lemma NextConfirms(cfg: Config, s: State, tokens: seq<string>, n: nat)
    requires n < |tokens| && Served(cfg, s, tokens, n)
    requires ServiceCatalog(s.process.operations, s.process.targets, s.process.policy)
    ensures ConfirmRefusal(cfg.hash, s.process.operations, s.process.actors, NextCall(cfg, tokens, n)).None?
  {
    Recognized(s.process.actors);
    StartPlanNamed(cfg.hash, Name(n), START);
    StartPlanAccepted(cfg.hash, s.process.operations, s.process.targets, s.process.policy, Name(n), START);
  }

  lemma NextIssues(cfg: Config, s: State, tokens: seq<string>, n: nat)
    requires n < |tokens| && Served(cfg, s, tokens, n)
    ensures IssueProblem(cfg.hash, s.process.grants, StartPlan(cfg.hash, Name(n), START), APPROVED_BY, 1).None?
  {
    StartPlanSigned(cfg.hash, Name(n), START);
    LettersAreNotBlank("s");
    assert "human:a"[6] != "human:b"[6];
    forall i | 0 <= i < n ensures !ForPlan(s.process.grants[i].grant, StartPlan(cfg.hash, Name(n), START)) {
      assert |s.process.grants[i].grant.planID| == i + 1;
    }
  }

  lemma Serve(cfg: Config, s: State, tokens: seq<string>, n: nat) returns (t: State)
    requires Tokens(cfg.tokenHash, tokens) && n < |tokens| && Reachable(cfg, s) && Served(cfg, s, tokens, n)
    ensures Reachable(cfg, t) && Served(cfg, t, tokens, n + 1)
  {
    var call := NextCall(cfg, tokens, n);
    NextIsFresh(cfg, s, tokens, n);
    ConfirmRuns(cfg, s, 0, call);
    ReachableGoesOn(cfg, s, ConfirmSteps(0, call));
    NextAnswered(cfg, s, tokens, n);
    t := Confirmed(cfg, s, 0, call);
    ConfirmedLeaves(cfg, s, 0, call);
    OneMoreServed(cfg, s, t, tokens, n);
  }

  lemma ConfirmedLeaves(cfg: Config, s: State, task: nat, call: ConfirmCall)
    requires s.process.Up? && ConfirmAnswer(cfg, s.process.operations, s.process.actors, s.process.grants, call).Ok?
    ensures var t := Confirmed(cfg, s, task, call);
            && t.clock == call.issueAt
            && t.process == s.process.(
                 confirmations := s.process.confirmations - {task},
                 grants := s.process.grants + [ConfirmAnswer(cfg, s.process.operations, s.process.actors,
                                                             s.process.grants, call).value])
  {}

  lemma OneMoreServed(cfg: Config, s: State, t: State, tokens: seq<string>, n: nat)
    requires n < |tokens| && Served(cfg, s, tokens, n) && t.clock == 1
    requires var stored := NewGrant(cfg.tokenHash, cfg.ttl, StartPlan(cfg.hash, Name(n), START), APPROVED_BY, 1,
                                    tokens[n], Name(n));
             t.process
               == s.process.(confirmations := s.process.confirmations - {0}, grants := s.process.grants + [stored])
    ensures Served(cfg, t, tokens, n + 1)
  {
    assert t.process.confirmations == map[];
  }

  lemma NextIsFresh(cfg: Config, s: State, tokens: seq<string>, n: nat)
    requires Tokens(cfg.tokenHash, tokens) && n < |tokens| && Served(cfg, s, tokens, n)
    ensures FreshChoice(cfg, s.process.grants, tokens[n], Name(n))
  {
    forall i | 0 <= i < n
      ensures s.process.grants[i].tokenSHA256 != cfg.tokenHash(tokens[n]) && s.process.grants[i].grant.id != Name(n)
    {
      assert |s.process.grants[i].grant.id| == i + 1;
    }
  }

  lemma NextAnswered(cfg: Config, s: State, tokens: seq<string>, n: nat)
    requires n < |tokens| && Reachable(cfg, s) && Served(cfg, s, tokens, n)
    ensures ConfirmAnswer(cfg, s.process.operations, s.process.actors, s.process.grants, NextCall(cfg, tokens, n)) ==
            Ok(NewGrant(cfg.tokenHash, cfg.ttl, StartPlan(cfg.hash, Name(n), START), APPROVED_BY, 1, tokens[n],
                        Name(n)))
  {
    ReachableCatalog(cfg, s);
    Recognized(s.process.actors);
    NextConfirms(cfg, s, tokens, n);
    NextIssues(cfg, s, tokens, n);
  }

  /** As many grants as there are distinct tokens. */
  lemma {:induction false} GrantsPileUp(cfg: Config, tokens: seq<string>, n: nat) returns (s: State)
    requires Tokens(cfg.tokenHash, tokens) && n <= |tokens|
    ensures Reachable(cfg, s) && Served(cfg, s, tokens, n)
  {
    if n == 0 {
      s := FirstStart(cfg, tokens);
    } else {
      var before := GrantsPileUp(cfg, tokens, n - 1);
      s := Serve(cfg, before, tokens, n - 1);
    }
  }

  /** With more distinct tokens than `load` accepts bytes, and a byte at least for every grant, some reachable state has
      written a file that no restart accepts, under any policy and credentials. */
  lemma StoreOutgrowsLoad(cfg: Config, tokens: seq<string>)
    requires Tokens(cfg.tokenHash, tokens) && |tokens| > MAX_STORE_BYTES
    requires forall state: GrantState :: cfg.size(state) >= |state.grants|
    ensures exists s: State ::
              && Reachable(cfg, s) && s.process.Up? && !Fits(cfg.size, s.disk)
              && forall policy, units, actors | LegalPolicy(policy, units) ::
                   Apply(cfg, Apply(cfg, s, Crash), Restart(policy, units, actors)).process.Down?
  {
    var s := GrantsPileUp(cfg, tokens, |tokens|);
    MemoryIsDisk(cfg, s);
    assert cfg.size(GrantState(GRANT_STORE_SCHEMA, s.process.grants)) >= |tokens|;
    forall policy, units, actors | LegalPolicy(policy, units)
      ensures Apply(cfg, Apply(cfg, s, Crash), Restart(policy, units, actors)).process.Down?
    {
      CrashThenRestart(cfg, s, policy, units, actors);
    }
  }
}
