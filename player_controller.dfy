/**
 * Player/PlayerController.cs, the earlier player component: health and
 * stamina without clamping, a blocking flag with two block objects, and a
 * stamina regeneration that waits 2 seconds and then adds 0.1 per frame.
 *
 * StartBlocking stops regeneration with StopCoroutine(nameof(...)), the
 * overload that only stops coroutines started by name; the regenerations
 * here are started from an enumerator, so none is ever stopped and every
 * StopBlocking adds one more. They are all kept in `regens` and resumed
 * together once per frame.
 */
module LegacyPlayer {

  /** RegenerateStamina's waitTime, in seconds. */
  const WaitTime: real := 2.0
  /** Stamina added per frame once the wait is over. */
  const RefillStep: real := 0.1

  /** A running regeneration: waiting (elapsed seconds so far) or refilling frame by frame. */
  datatype Regen = Waiting(elapsed: real) | Refilling

  /** Stamina, isRegeneratingStamina and the regenerations still running after some of them are resumed. */
  datatype RegenFrame = RegenFrame(stamina: real, regenerating: bool, running: seq<Regen>)

  /** One pass of the refill loop: add 0.1 while below max and stay, otherwise clear the flag and end. */
  function Refill(f: RegenFrame, max: real): (r: RegenFrame)
    ensures f.stamina < max ==> r == f.(stamina := f.stamina + RefillStep, running := f.running + [Refilling])
    ensures f.stamina >= max ==> r == f.(regenerating := false)
  {
    if f.stamina < max then f.(stamina := f.stamina + RefillStep, running := f.running + [Refilling])
    else f.(regenerating := false)
  }

  /**
   * Resume one regeneration in a frame of length dt. A wait completes in
   * the first frame by which 2 seconds have elapsed; it then sets the flag
   * and runs the first pass of the refill loop at once.
   */
  function StepRegen(f: RegenFrame, g: Regen, max: real, dt: real): (r: RegenFrame)
    ensures f.stamina <= r.stamina <= f.stamina + RefillStep
    ensures r.stamina > f.stamina ==> f.stamina < max
    ensures |r.running| == |f.running| + 1 || (|r.running| == |f.running| && r.stamina >= max && !r.regenerating)
    ensures r.running[..|f.running|] == f.running
    ensures g.Waiting? && g.elapsed + dt < WaitTime ==> r == f.(running := f.running + [Waiting(g.elapsed + dt)])
  {
    match g
    case Waiting(elapsed) =>
      if elapsed + dt < WaitTime then f.(running := f.running + [Waiting(elapsed + dt)])
      else Refill(f.(regenerating := true), max)
    case Refilling => Refill(f, max)
  }

  /** Resume every running regeneration, in the order they were started. */
  function ResumeAll(f: RegenFrame, gs: seq<Regen>, max: real, dt: real): RegenFrame
    decreases |gs|
  {
    if gs == [] then f
    else StepRegen(ResumeAll(f, gs[..|gs| - 1], max, dt), gs[|gs| - 1], max, dt)
  }

  /**
   * A frame with k regenerations running adds at most 0.1 per regeneration,
   * never carries stamina past max + 0.1 from below it, and leaves at most k
   * of them running.
   */
  lemma {:induction false} ResumeAllBounds(f: RegenFrame, gs: seq<Regen>, max: real, dt: real)
    ensures var r := ResumeAll(f, gs, max, dt);
      && f.stamina <= r.stamina <= f.stamina + RefillStep * (|gs| as real)
      && (f.stamina < max + RefillStep ==> r.stamina < max + RefillStep)
      && |f.running| <= |r.running| <= |f.running| + |gs|
    decreases |gs|
  {
    if gs != [] {
      var prefix := gs[..|gs| - 1];
      ResumeAllBounds(f, prefix, max, dt);
      var mid := ResumeAll(f, prefix, max, dt);
      var r := StepRegen(mid, gs[|gs| - 1], max, dt);
      assert RefillStep * (|gs| as real) == RefillStep * (|prefix| as real) + RefillStep;
      assert r.stamina <= mid.stamina + RefillStep;
    }
  }

  /**
   * WaitForSeconds(2): regenerations whose 2 seconds are not yet up by the
   * end of this frame leave stamina and the flag alone; each only waits on.
   */
  lemma {:induction false} WaitingLeavesStamina(f: RegenFrame, gs: seq<Regen>, max: real, dt: real)
    requires forall i :: 0 <= i < |gs| ==> gs[i].Waiting? && gs[i].elapsed + dt < WaitTime
    ensures var r := ResumeAll(f, gs, max, dt);
      && r.stamina == f.stamina && r.regenerating == f.regenerating
      && |r.running| == |f.running| + |gs|
    decreases |gs|
  {
    if gs != [] {
      var prefix := gs[..|gs| - 1];
      assert forall i :: 0 <= i < |prefix| ==> prefix[i] == gs[i];
      WaitingLeavesStamina(f, prefix, max, dt);
      assert gs[|gs| - 1].Waiting?;
    }
  }

  /** Resuming one more regeneration is one more step on the frame reached so far. */
  lemma ResumeAllSnoc(f: RegenFrame, gs: seq<Regen>, i: nat, max: real, dt: real)
    requires i < |gs|
    ensures ResumeAll(f, gs[..i + 1], max, dt) == StepRegen(ResumeAll(f, gs[..i], max, dt), gs[i], max, dt)
  {
    assert gs[..i + 1][..i] == gs[..i];
  }

  class PlayerController {
    const maxHealth: real := 100.0
    const maxStamina: real := 100.0
    var health: real
    var stamina: real
    var isBlocking: bool
    var isRegeneratingStamina: bool
    /** Whether the Block_Large and Block_Small objects are active. */
    var blockLarge: bool
    var blockSmall: bool
    var regens: seq<Regen>
    /** Destroy(gameObject) has been requested. */
    var destroyed: bool
    /** The component's enabled flag, which the earlier interim screen switches. */
    var enabled: bool

    /** The component before Start: both maxima are 100 and the public fields hold what the inspector gave them. */
    constructor (health: real, stamina: real, blockLarge: bool, blockSmall: bool)
      ensures maxHealth == 100.0 && maxStamina == 100.0
      ensures this.health == health && this.stamina == stamina
      ensures this.blockLarge == blockLarge && this.blockSmall == blockSmall
      ensures !isBlocking && !isRegeneratingStamina && regens == [] && !destroyed && enabled
    {
      this.health := health;
      this.stamina := stamina;
      this.blockLarge := blockLarge;
      this.blockSmall := blockSmall;
      isBlocking := false;
      isRegeneratingStamina := false;
      regens := [];
      destroyed := false;
      enabled := true;
    }

    method Start()
      modifies this`health, this`stamina
      ensures health == 100.0 && stamina == 100.0
    {
      health := maxHealth;
      stamina := maxStamina;
    }

    /** With no stamina nothing happens; otherwise blocking shows the large block object. No regeneration is stopped either way. */
    method StartBlocking()
      modifies this`isBlocking, this`blockLarge, this`blockSmall
      ensures old(stamina) <= 0.0 ==> isBlocking == old(isBlocking) && blockLarge == old(blockLarge) && blockSmall == old(blockSmall)
      ensures old(stamina) > 0.0 ==> isBlocking && blockLarge && !blockSmall
      ensures regens == old(regens)
    {
      if stamina <= 0.0 {
        return;
      }
      isBlocking := true;
      blockLarge := true;
      blockSmall := false;
    }

    /** Blocking ends, both block objects hide, and one more regeneration starts its wait. */
    method StopBlocking()
      modifies this`isBlocking, this`blockLarge, this`blockSmall, this`regens
      ensures !isBlocking && !blockLarge && !blockSmall
      ensures regens == old(regens) + [Waiting(0.0)]
    {
      isBlocking := false;
      blockLarge := false;
      blockSmall := false;
      regens := regens + [Waiting(0.0)];
    }

    method TakeHealthDamage(damage: int)
      modifies this`health, this`destroyed
      ensures health == old(health) - damage as real
      ensures destroyed == (old(destroyed) || health <= 0.0)
    {
      health := health - damage as real;
      if health <= 0.0 {
        destroyed := true;
      }
    }

    /** No clamp: stamina can go negative, and reaching 0 or less forces StopBlocking. */
    method TakeStaminaDamage(damage: int)
      modifies this`stamina, this`isBlocking, this`blockLarge, this`blockSmall, this`regens
      ensures stamina == old(stamina) - damage as real
      ensures stamina <= 0.0 ==> !isBlocking && !blockLarge && !blockSmall && regens == old(regens) + [Waiting(0.0)]
      ensures stamina > 0.0 ==> isBlocking == old(isBlocking) && blockLarge == old(blockLarge) && blockSmall == old(blockSmall) && regens == old(regens)
    {
      stamina := stamina - damage as real;
      if stamina <= 0.0 {
        StopBlocking();
      }
    }

    /** Every running regeneration resumed in a frame of length dt. */
    method ResumeRegens(dt: real)
      modifies this`stamina, this`isRegeneratingStamina, this`regens
      ensures RegenFrame(stamina, isRegeneratingStamina, regens)
        == ResumeAll(RegenFrame(old(stamina), old(isRegeneratingStamina), []), old(regens), maxStamina, dt)
    {
      var gs := regens;
      var running: seq<Regen> := [];
      var i := 0;
      while i < |gs|
        invariant 0 <= i <= |gs|
        invariant RegenFrame(stamina, isRegeneratingStamina, running)
          == ResumeAll(RegenFrame(old(stamina), old(isRegeneratingStamina), []), gs[..i], maxStamina, dt)
      {
        ghost var before := RegenFrame(stamina, isRegeneratingStamina, running);
        ResumeAllSnoc(RegenFrame(old(stamina), old(isRegeneratingStamina), []), gs, i, maxStamina, dt);
        match gs[i] {
        case Waiting(elapsed) =>
          if elapsed + dt < WaitTime {
            running := running + [Waiting(elapsed + dt)];
          } else {
            isRegeneratingStamina := true;
            if stamina < maxStamina {
              stamina := stamina + RefillStep;
              running := running + [Refilling];
            } else {
              isRegeneratingStamina := false;
            }
          }
        case Refilling =>
          if stamina < maxStamina {
            stamina := stamina + RefillStep;
            running := running + [Refilling];
          } else {
            isRegeneratingStamina := false;
          }
        }
        assert RegenFrame(stamina, isRegeneratingStamina, running) == StepRegen(before, gs[i], maxStamina, dt);
        i := i + 1;
      }
      assert gs[..i] == gs;
      regens := running;
    }
  }

  /** Two regenerations started by two releases run side by side: both survive their first refill frame unless max is reached. */
  lemma TwoReleasesTwoRegens(r: RegenFrame, max: real, dt: real)
    requires r.running == [] && r.stamina < max && dt >= WaitTime
    ensures var after := ResumeAll(r, [Waiting(0.0), Waiting(0.0)], max, dt);
      |after.running| == 2 || after.stamina >= max
    ensures ResumeAll(r, [Waiting(0.0), Waiting(0.0)], max, dt).stamina > r.stamina
    ensures r.stamina + RefillStep < max ==>
      ResumeAll(r, [Waiting(0.0), Waiting(0.0)], max, dt).stamina == r.stamina + 2.0 * RefillStep
  {
    var gs := [Waiting(0.0), Waiting(0.0)];
    assert gs[..1] == [Waiting(0.0)];
    assert gs[..1][..0] == [];
  }
}
