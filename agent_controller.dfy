/** Agents/AgentController.cs: the older, health-only agent base class. */
module AgentController {
  import opened Health

  class Agent {
    const maxHealth: real
    var health: real
    /** How many times the abstract Die() has been called. */
    var deaths: nat
    /** Animator triggers this component has set. */
    var triggers: set<string>

    /** Start: health begins at maxHealth. */
    constructor (maxHealth: real)
      ensures this.maxHealth == maxHealth && health == maxHealth
      ensures deaths == 0 && triggers == {}
    {
      this.maxHealth := maxHealth;
      health := maxHealth;
      deaths := 0;
      triggers := {};
    }

    /**
     * TakeDamage: health drops by damage and is floored at 0, never capped at
     * maxHealth; Die() runs after every hit that leaves health at 0, with no
     * guard against running again.
     */
    method TakeDamage(damage: int)
      modifies this`health, this`deaths
      ensures health == AfterDamage(old(health), damage)
      ensures health >= 0.0
      ensures deaths == old(deaths) + (if health <= 0.0 then 1 else 0)
      ensures health == HealthAfter(old(health), [damage])
      ensures deaths == old(deaths) + DeathCallbacks(old(health), [damage])
    {
      health := health - damage as real;
      health := UnityMath.MaxReal(0.0, health);
      if health <= 0.0 {
        deaths := deaths + 1;
      }
      assert [damage][1..] == [];
    }

    /** TriggerHook: sets the "Right_Hook" animator trigger. */
    method TriggerHook()
      modifies this`triggers
      ensures triggers == old(triggers) + {"Right_Hook"}
    {
      triggers := triggers + {"Right_Hook"};
    }
  }

  /** Negative damage heals past the maximum: only the lower bound is clamped. */
  lemma NoUpperClamp(health: real, damage: int)
    requires health >= 0.0 && damage < 0
    ensures AfterDamage(health, damage) == health + (-damage) as real
    ensures AfterDamage(health, damage) > health
  {
  }
}
