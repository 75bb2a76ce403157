/**
 * The health rule shared by both agent implementations
 * (Agents/Agent.cs and the older Agents/AgentController.cs):
 * subtract the damage, then raise the result to 0 with Mathf.Max.
 * There is no upper clamp at the maximum.
 */
module Health {
  import opened UnityMath

  /** health - damage, floored at 0. */
  function AfterDamage(health: real, damage: int): (r: real)
    ensures r >= 0.0
    ensures r == 0.0 <==> health - damage as real <= 0.0
    ensures r > 0.0 ==> r == health - damage as real
    ensures damage >= 0 && health >= 0.0 ==> r <= health
    ensures damage < 0 && health >= 0.0 ==> r == health - damage as real
  {
    MaxReal(0.0, health - damage as real)
  }

  /** The number of death callbacks a run of hits produces when nothing guards against repeats: one per hit that leaves health at 0. */
  function DeathCallbacks(health: real, hits: seq<int>): (n: nat)
    ensures n <= |hits|
    decreases |hits|
  {
    if hits == [] then 0
    else
      var h := AfterDamage(health, hits[0]);
      (if h <= 0.0 then 1 else 0) + DeathCallbacks(h, hits[1..])
  }

  /** The health left after a run of hits. */
  function HealthAfter(health: real, hits: seq<int>): (r: real)
    ensures hits != [] ==> r >= 0.0
    decreases |hits|
  {
    if hits == [] then health else HealthAfter(AfterDamage(health, hits[0]), hits[1..])
  }

  /** One more hit adds the callback that hit produces from the health reached so far. */
  lemma {:induction false} DeathCallbacksAppend(health: real, hits: seq<int>, damage: int)
    ensures HealthAfter(health, hits + [damage]) == AfterDamage(HealthAfter(health, hits), damage)
    ensures DeathCallbacks(health, hits + [damage])
      == DeathCallbacks(health, hits) + (if AfterDamage(HealthAfter(health, hits), damage) <= 0.0 then 1 else 0)
    decreases |hits|
  {
    if hits == [] {
      assert [damage][1..] == [];
    } else {
      assert (hits + [damage])[1..] == hits[1..] + [damage];
      DeathCallbacksAppend(AfterDamage(health, hits[0]), hits[1..], damage);
    }
  }

  /** Once health is 0, every further non-negative hit produces another death callback. */
  lemma {:induction false} DeathRepeatsAtZero(hits: seq<int>)
    requires forall i :: 0 <= i < |hits| ==> hits[i] >= 0
    ensures DeathCallbacks(0.0, hits) == |hits|
    decreases |hits|
  {
    if hits != [] {
      assert AfterDamage(0.0, hits[0]) == 0.0;
      DeathRepeatsAtZero(hits[1..]);
    }
  }
}
