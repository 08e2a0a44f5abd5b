/** The cache of plans awaiting execution, which purges expired plans on every call, against the plain log of
    everything ever put into it. */
module PlanCaching {
  import opened Types

  /** The latest plan put under an ID. */
  function Latest(log: seq<OperationPlan>, id: string): Option<OperationPlan> {
    if log == [] then None
    else if log[|log| - 1].id == id then Some(log[|log| - 1])
    else Latest(log[..|log| - 1], id)
  }

  /** What a cache that never forgot would answer. */
  function Answer(log: seq<OperationPlan>, id: string, now: Time): Option<OperationPlan> {
    var latest := Latest(log, id);
    if latest.Some? && latest.value.expiresAt > now then latest else None
  }

  /** A cache that never forgot answers a plan exactly if it was put under its own ID, nothing was put under that ID
      since, and it has not expired. */
  lemma {:induction false} AnswerExactly(log: seq<OperationPlan>, id: string, now: Time, plan: OperationPlan)
    ensures Answer(log, id, now) == Some(plan) <==>
              && plan.id == id && now < plan.expiresAt
              && exists i :: 0 <= i < |log| && log[i] == plan && forall k :: i < k < |log| ==> log[k].id != id
  {
    if Latest(log, id).Some? {
      var i := LatestIndex(log, id);
    }
    if i :| 0 <= i < |log| && log[i] == plan && plan.id == id && forall k :: i < k < |log| ==> log[k].id != id {
      LatestIs(log, id, i);
    }
  }

  lemma {:induction false} LatestIndex(log: seq<OperationPlan>, id: string) returns (i: nat)
    requires Latest(log, id).Some?
    ensures i < |log| && log[i] == Latest(log, id).value && log[i].id == id
    ensures forall k :: i < k < |log| ==> log[k].id != id
  {
    i := |log| - 1;
    if log[i].id != id {
      i := LatestIndex(log[..|log| - 1], id);
    }
  }

  lemma {:induction false} LatestIs(log: seq<OperationPlan>, id: string, i: nat)
    requires i < |log| && log[i].id == id && forall k :: i < k < |log| ==> log[k].id != id
    ensures Latest(log, id) == Some(log[i])
  {
    if i < |log| - 1 {
      LatestIs(log[..|log| - 1], id, i);
    }
  }

  /** The plans agree with the log as far as a clock that has reached `now` can tell. */
  predicate Agrees(plans: map<string, OperationPlan>, log: seq<OperationPlan>, now: Time) {
    && (forall id :: id in plans ==> Latest(log, id) == Some(plans[id]))
    && (forall i :: 0 <= i < |log| && Latest(log, log[i].id) == Some(log[i]) && log[i].expiresAt > now ==>
        log[i].id in plans)
  }

  lemma {:induction false} LatestIsPut(log: seq<OperationPlan>, id: string)
    requires Latest(log, id).Some?
    ensures Latest(log, id).value in log && Latest(log, id).value.id == id
  {
    if log[|log| - 1].id != id {
      LatestIsPut(log[..|log| - 1], id);
    }
  }

  lemma LatestAfterPut(log: seq<OperationPlan>, plan: OperationPlan, id: string)
    ensures Latest(log + [plan], id) == if plan.id == id then Some(plan) else Latest(log, id)
  {
    assert (log + [plan])[..|log|] == log;
  }

  /** A lookup in agreeing plans, once they are purged, is a lookup in the log. */
  lemma LookupAgrees(plans: map<string, OperationPlan>, log: seq<OperationPlan>, now: Time, id: string)
    requires Agrees(plans, log, now) && forall k :: k in plans ==> plans[k].expiresAt > now
    ensures (if id in plans then Some(plans[id]) else None) == Answer(log, id, now)
  {
    if Latest(log, id).Some? {
      LatestIsPut(log, id);
      var i :| 0 <= i < |log| && log[i] == Latest(log, id).value;
      assert log[i].id == id;
    }
  }

  lemma PutAgrees(plans: map<string, OperationPlan>, log: seq<OperationPlan>, now: Time, plan: OperationPlan)
    requires Agrees(plans, log, now)
    ensures Agrees(plans[plan.id := plan], log + [plan], now)
  {
    var more := log + [plan];
    forall id | id in plans[plan.id := plan] ensures Latest(more, id) == Some(plans[plan.id := plan][id]) {
      LatestAfterPut(log, plan, id);
    }
    forall i | 0 <= i < |more| && Latest(more, more[i].id) == Some(more[i]) && more[i].expiresAt > now
      ensures more[i].id in plans[plan.id := plan]
    {
      LatestAfterPut(log, plan, more[i].id);
    }
  }

  class PlanCache {
    var plans: map<string, OperationPlan>
    /** Everything ever put, and the latest clock reading. */
    ghost var log: seq<OperationPlan>
    ghost var clock: Time

    ghost predicate Valid()
      reads this
    {
      Agrees(plans, log, clock)
    }

    constructor (now: Time)
      ensures Valid() && log == [] && clock == now
    {
      plans, log, clock := map[], [], now;
    }

    method Put(plan: OperationPlan, now: Time)
      requires Valid() && clock <= now
      modifies this
      ensures Valid() && log == old(log) + [plan] && clock == now
    {
      PurgeExpired(now);
      PutAgrees(plans, log, now, plan);
      plans := plans[plan.id := plan];
      log := log + [plan];
    }

    /** Purging in this and every earlier call is unobservable. */
    method Get(id: string, now: Time) returns (r: Option<OperationPlan>)
      requires Valid() && clock <= now
      modifies this
      ensures Valid() && log == old(log) && clock == now
      ensures r == Answer(log, id, now)
      ensures r.Some? ==> r.value.id == id && now < r.value.expiresAt && r.value in log
    {
      PurgeExpired(now);
      LookupAgrees(plans, log, now, id);
      if id !in plans {
        return None;
      }
      LatestIsPut(log, id);
      return Some(plans[id]);
    }

    method PurgeExpired(now: Time)
      requires Valid() && clock <= now
      modifies this
      ensures Valid() && log == old(log) && clock == now
      ensures plans == Unexpired(old(plans), now)
    {
      ghost var before := plans;
      var rest := plans.Keys;
      while rest != {}
        invariant rest <= plans.Keys <= before.Keys
        invariant forall id :: id in plans ==> plans[id] == before[id]
        invariant forall id :: id in before && id !in rest ==> (id in plans <==> before[id].expiresAt > now)
        invariant log == old(log) && clock == old(clock)
        decreases |rest|
      {
        var id :| id in rest;
        if plans[id].expiresAt <= now {
          plans := plans - {id};
        }
        rest := rest - {id};
      }
      assert plans == Unexpired(before, now);
      UnexpiredAgrees(before, log, clock, now);
      clock := now;
    }
  }

  function Unexpired(plans: map<string, OperationPlan>, now: Time): map<string, OperationPlan> {
    map id | id in plans && plans[id].expiresAt > now :: plans[id]
  }

  lemma UnexpiredAgrees(plans: map<string, OperationPlan>, log: seq<OperationPlan>, before: Time, now: Time)
    requires Agrees(plans, log, before) && before <= now
    ensures Agrees(Unexpired(plans, now), log, now)
  {}
}
