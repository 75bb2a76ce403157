/**
 * The left/right strike colliders of a fighter and their enable/disable
 * rule, shared by Agents/Hitbox.cs and Agents/Agent.cs (which repeat the
 * same code), and the Hitbox component of Agents/Hitbox.cs.
 */
module Hitboxes {
  import AgentController
  import opened Health

  /** A collider reference: Missing stands for a null reference. */
  datatype Collider = Missing | Present(enabled: bool)

  datatype HitboxPair = HitboxPair(left: Collider, right: Collider)

  /** Tag of the collider that makes a Hitbox deal damage. */
  const ParryTag: string := "Parry"

  /**
   * EnableHitbox / DisableHitbox: "left" switches only the left collider and
   * "right" only the right one, each only when it is present; any other name
   * changes nothing.
   */
  function Switched(p: HitboxPair, name: string, on: bool): (r: HitboxPair)
    ensures r.left == (if name == "left" && p.left.Present? then Present(on) else p.left)
    ensures r.right == (if name == "right" && p.right.Present? then Present(on) else p.right)
    ensures name != "left" && name != "right" ==> r == p
  {
    if name == "left" && p.left != Missing then p.(left := Present(on))
    else if name == "right" && p.right != Missing then p.(right := Present(on))
    else p
  }

  /** Enabling and then disabling a collider leaves the pair as disabling alone would. */
  lemma EnableThenDisable(p: HitboxPair, name: string)
    ensures Switched(Switched(p, name, true), name, false) == Switched(p, name, false)
  {
  }

  class Hitbox {
    var hitboxes: HitboxPair
    const hookDamage: int

    /** The inspector supplies the colliders and hookDamage (25 unless changed). */
    constructor (hitboxes: HitboxPair, hookDamage: int)
      ensures this.hitboxes == hitboxes && this.hookDamage == hookDamage
    {
      this.hitboxes := hitboxes;
      this.hookDamage := hookDamage;
    }

    method EnableHitbox(hitboxName: string)
      modifies this`hitboxes
      ensures hitboxes == Switched(old(hitboxes), hitboxName, true)
    {
      if hitboxName == "left" && hitboxes.left != Missing {
        hitboxes := hitboxes.(left := Present(true));
      } else if hitboxName == "right" && hitboxes.right != Missing {
        hitboxes := hitboxes.(right := Present(true));
      }
    }

    method DisableHitbox(hitboxName: string)
      modifies this`hitboxes
      ensures hitboxes == Switched(old(hitboxes), hitboxName, false)
    {
      if hitboxName == "left" && hitboxes.left != Missing {
        hitboxes := hitboxes.(left := Present(false));
      } else if hitboxName == "right" && hitboxes.right != Missing {
        hitboxes := hitboxes.(right := Present(false));
      }
    }

    /**
     * OnTriggerEnter: only a "Parry" collider whose parent has an agent does
     * anything, and then that agent takes hookDamage.
     */
    method OnTriggerEnter(otherTag: string, agent: AgentController.Agent?)
      modifies agent
      ensures otherTag != ParryTag || agent == null ==> agent == null || (agent.health == old(agent.health) && agent.deaths == old(agent.deaths))
      ensures otherTag == ParryTag && agent != null ==>
        && agent.health == AfterDamage(old(agent.health), hookDamage)
        && agent.deaths == old(agent.deaths) + (if agent.health <= 0.0 then 1 else 0)
      ensures agent != null ==> agent.triggers == old(agent.triggers)
    {
      if otherTag != ParryTag {
        return;
      }
      if agent != null {
        agent.TakeDamage(hookDamage);
      }
    }
  }
}
