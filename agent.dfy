/**
 * Agents/Agent.cs: the fighter component both the player and the enemy
 * derive from. Its fields are updated in place by the methods below; each
 * method is proved against a transition on a Fighter value, so that whole
 * exchanges (a hit resolved by OnTriggerStay, a counter) can be reasoned
 * about as functions.
 *
 * Animator queries (state name, tag, normalized time, in-transition,
 * transition duration) and Time.deltaTime are parameters; the animator's
 * trigger set is a field (`triggers`) that SetTrigger adds to and
 * ResetTrigger removes from. Started coroutines are fields too: the stamina
 * regeneration (see module Stamina) and the ClearTriggerIfNotUsed checks
 * waiting for the next frame (`pendingChecks`).
 */
module Fighters {
  import opened UnityMath
  import opened Wrappers
  import opened Health
  import opened Combat
  import opened Hitboxes
  import opened PunchTargets
  import Stamina
  import Stats

  /** A ClearTriggerIfNotUsed coroutine waiting for the next frame. */
  datatype ClearCheck = ClearCheck(trigger: string, cost: real)

  /** Calls into the combo tracker, which is not part of this model; only the calls are recorded. */
  datatype ComboCall = AddPunchToCombo(punch: string) | FinalizeCombo

  /**
   * A fighter's state as a value: health, the dead flag and the number of
   * OnDeath calls, the stamina economy, the hurtbox tag, the animator's
   * pending triggers, the waiting trigger checks and the IK punch target.
   */
  datatype Fighter = Fighter(
    health: real, isDead: bool, deaths: nat,
    econ: Stamina.Economy, tag: string, triggers: set<string>,
    pending: seq<ClearCheck>, punchTarget: Option<Target>)

  predicate FighterValid(f: Fighter, maxStamina: real) {
    && f.health >= 0.0
    && Stamina.Valid(f.econ, maxStamina)
    && IsDefenseTag(f.tag)
  }

  /**
   * TakeHealthDamage: ignored once isDead; otherwise health drops to
   * max(0, health - damage), the hit-reaction trigger is set, and OnDeath
   * runs whenever health is then 0.
   */
  function Hurt(f: Fighter, damage: int, stateName: string): (r: Fighter)
    ensures f.isDead ==> r == f
    ensures !f.isDead ==> r == f.(health := AfterDamage(f.health, damage),
      deaths := f.deaths + (if AfterDamage(f.health, damage) <= 0.0 then 1 else 0),
      triggers := f.triggers + HitReaction(damage, stateName))
    ensures r.econ == f.econ && r.tag == f.tag && r.pending == f.pending
  {
    if f.isDead then f
    else
      var h := AfterDamage(f.health, damage);
      f.(health := h, deaths := f.deaths + (if h <= 0.0 then 1 else 0),
        triggers := f.triggers + HitReaction(damage, stateName))
  }

  /** A run of TakeHealthDamage calls, all taken in the same animator state. */
  function HurtAll(f: Fighter, hits: seq<int>, stateName: string): Fighter
    decreases |hits|
  {
    if hits == [] then f else HurtAll(Hurt(f, hits[0], stateName), hits[1..], stateName)
  }

  /**
   * isDead is never set, so a run of hits reaches the health the damage rule
   * gives and calls OnDeath exactly DeathCallbacks times: once per hit that
   * leaves health at 0, repeats included.
   */
  lemma {:induction false} HurtAllCountsDeaths(f: Fighter, hits: seq<int>, stateName: string)
    requires !f.isDead
    ensures var r := HurtAll(f, hits, stateName);
      && !r.isDead && r.health == HealthAfter(f.health, hits)
      && r.deaths == f.deaths + DeathCallbacks(f.health, hits)
    decreases |hits|
  {
    if hits != [] {
      HurtAllCountsDeaths(Hurt(f, hits[0], stateName), hits[1..], stateName);
    }
  }

  /** ModifyStamina on the value: only the economy changes. */
  function Drain(f: Fighter, amount: real, maxStamina: real, dt: real): (r: Fighter)
    requires 0.0 <= maxStamina
    ensures r == f.(econ := Stamina.Modify(f.econ, amount, maxStamina, dt))
    ensures 0.0 <= r.econ.stamina <= maxStamina
  {
    f.(econ := Stamina.Modify(f.econ, amount, maxStamina, dt))
  }

  /** SetPunchTarget: with an opponent, the punch target becomes the opponent's point for this punch. */
  function Aim(f: Fighter, punch: string, hasOpponent: bool): (r: Fighter)
    ensures hasOpponent ==> r == f.(punchTarget := Some(GetTarget(punch)))
    ensures !hasOpponent ==> r == f
  {
    if hasOpponent then f.(punchTarget := Some(GetTarget(punch))) else f
  }

  /**
   * ThrowPunch, apart from the combo record: in transition or too tired
   * nothing happens; blocking sets the trigger for free; from Idle the
   * trigger is set and the cost charged at once; in the combo window the
   * trigger is set and the cost check is left to the next frame. With
   * enough stamina the punch target is aimed in every case.
   */
  function Punch(f: Fighter, punch: string, cost: real, anim: AnimatorView, maxStamina: real, dt: real, hasOpponent: bool): (r: Fighter)
    requires FighterValid(f, maxStamina) && dt >= 0.0
    ensures FighterValid(r, maxStamina)
    ensures r.health == f.health && r.isDead == f.isDead && r.deaths == f.deaths && r.tag == f.tag
    ensures DecidePunch(anim, f.econ.blocking, f.econ.stamina, cost) != FromIdle ==> r.econ == f.econ
    ensures DecidePunch(anim, f.econ.blocking, f.econ.stamina, cost) == FromIdle ==>
      r.econ == Stamina.Modify(f.econ, -cost, maxStamina, dt)
    ensures r.triggers == f.triggers +
      (if DecidePunch(anim, f.econ.blocking, f.econ.stamina, cost) in {WhileBlocking, FromIdle, ComboCancel} then {punch} else {})
    ensures r.pending == f.pending +
      (if DecidePunch(anim, f.econ.blocking, f.econ.stamina, cost) == ComboCancel then [ClearCheck(punch, cost)] else [])
    ensures r.punchTarget ==
      (if DecidePunch(anim, f.econ.blocking, f.econ.stamina, cost) in {FromIdle, ComboCancel, NoMatch} && hasOpponent
       then Some(GetTarget(punch)) else f.punchTarget)
  {
    match DecidePunch(anim, f.econ.blocking, f.econ.stamina, cost)
    case InTransition => f
    case WhileBlocking => f.(triggers := f.triggers + {punch})
    case TooTired => f
    case FromIdle =>
      Aim(f.(triggers := f.triggers + {punch}, econ := Stamina.Modify(f.econ, -cost, maxStamina, dt)), punch, hasOpponent)
    case ComboCancel =>
      Aim(f.(triggers := f.triggers + {punch}, pending := f.pending + [ClearCheck(punch, cost)]), punch, hasOpponent)
    case NoMatch => Aim(f, punch, hasOpponent)
  }

  /** The calls ThrowPunch makes into the combo tracker: always the punch, and the finalization only from Idle. */
  function ComboCallsOf(punch: string, d: PunchDecision): seq<ComboCall> {
    [AddPunchToCombo(punch)] + (if d == FromIdle then [FinalizeCombo] else [])
  }

  /** The economy after the waiting checks are resumed with the given transition duration, in the order they were started. */
  function ChargeAll(e: Stamina.Economy, checks: seq<ClearCheck>, duration: real, maxStamina: real, dt: real): (r: Stamina.Economy)
    requires Stamina.Valid(e, maxStamina) && dt >= 0.0
    ensures Stamina.Valid(r, maxStamina)
    ensures duration <= 0.0 ==> r == e
    decreases |checks|
  {
    if checks == [] then e
    else
      var prior := ChargeAll(e, checks[..|checks| - 1], duration, maxStamina, dt);
      if duration > 0.0 then Stamina.Modify(prior, -checks[|checks| - 1].cost, maxStamina, dt) else prior
  }

  /** Checks with non-negative costs can only lower stamina. */
  lemma {:induction false} ChargeAllNeverRaises(e: Stamina.Economy, checks: seq<ClearCheck>, duration: real, maxStamina: real, dt: real)
    requires Stamina.Valid(e, maxStamina) && dt >= 0.0
    requires forall i :: 0 <= i < |checks| ==> checks[i].cost >= 0.0
    ensures ChargeAll(e, checks, duration, maxStamina, dt).stamina <= e.stamina
    decreases |checks|
  {
    if checks != [] {
      var prefix := checks[..|checks| - 1];
      assert forall i :: 0 <= i < |prefix| ==> prefix[i] == checks[i];
      ChargeAllNeverRaises(e, prefix, duration, maxStamina, dt);
    }
  }

  /** The triggers of the given checks. */
  function TriggerNames(checks: seq<ClearCheck>): set<string>
    decreases |checks|
  {
    if checks == [] then {} else TriggerNames(checks[..|checks| - 1]) + {checks[|checks| - 1].trigger}
  }

  /** Resuming one more waiting check charges it after the earlier ones and resets one more trigger. */
  lemma ChecksSnoc(e: Stamina.Economy, checks: seq<ClearCheck>, i: nat, duration: real, maxStamina: real, dt: real)
    requires Stamina.Valid(e, maxStamina) && dt >= 0.0 && i < |checks|
    ensures ChargeAll(e, checks[..i + 1], duration, maxStamina, dt) ==
      (if duration > 0.0 then Stamina.Modify(ChargeAll(e, checks[..i], duration, maxStamina, dt), -checks[i].cost, maxStamina, dt)
       else ChargeAll(e, checks[..i], duration, maxStamina, dt))
    ensures TriggerNames(checks[..i + 1]) == TriggerNames(checks[..i]) + {checks[i].trigger}
  {
    assert checks[..i + 1][..i] == checks[..i];
    assert checks[..i + 1] == checks[..i] + [checks[i]];
  }

  /**
   * One frame after ThrowPunch's combo branch: every waiting check resets
   * its trigger, and charges its cost only if a transition of positive
   * duration is under way.
   */
  function FinishChecks(f: Fighter, duration: real, maxStamina: real, dt: real): (r: Fighter)
    requires FighterValid(f, maxStamina) && dt >= 0.0
    ensures FighterValid(r, maxStamina)
    ensures r.pending == [] && r.triggers == f.triggers - TriggerNames(f.pending)
    ensures r.health == f.health && r.deaths == f.deaths && r.tag == f.tag
    ensures duration <= 0.0 ==> r.econ == f.econ
  {
    f.(econ := ChargeAll(f.econ, f.pending, duration, maxStamina, dt),
      triggers := f.triggers - TriggerNames(f.pending), pending := [])
  }

  /**
   * What a hit does to the defender, by the tag of the collider touched:
   * a Hurtbox hit costs health; a Block hit costs stamina equal to the
   * damage; a Counter hit costs 20 stamina and then either makes the
   * defender throw "Counter" at cost -40 (success) or costs health as a
   * Hurtbox hit would (failure). Any other tag does nothing.
   */
  function Resolve(f: Fighter, otherTag: string, damage: int, countered: bool,
                   anim: AnimatorView, maxStamina: real, dt: real, hasOpponent: bool): (r: Fighter)
    requires FighterValid(f, maxStamina) && dt >= 0.0
    ensures FighterValid(r, maxStamina)
  {
    if otherTag == HurtboxTag then Hurt(f, damage, anim.stateName)
    else if otherTag == BlockTag then Drain(f, -(damage as real), maxStamina, dt)
    else if otherTag == CounterTag then
      var g := Drain(f, -20.0, maxStamina, dt);
      if countered then Punch(g, "Counter", -40.0, anim, maxStamina, dt, hasOpponent)
      else Hurt(g, damage, anim.stateName)
    else f
  }

  /** A blocked hit never costs health and costs exactly the damage in stamina, down to 0. */
  lemma BlockedHitSparesHealth(f: Fighter, damage: int, countered: bool, anim: AnimatorView, maxStamina: real, dt: real, hasOpponent: bool)
    requires FighterValid(f, maxStamina) && dt >= 0.0 && damage >= 0
    ensures var r := Resolve(f, BlockTag, damage, countered, anim, maxStamina, dt, hasOpponent);
      && r.health == f.health && r.deaths == f.deaths
      && r.econ.stamina == MaxReal(0.0, f.econ.stamina - damage as real)
  {
  }

  /** A hit on the hurtbox leaves the stamina economy alone. */
  lemma HurtboxHitSparesStamina(f: Fighter, damage: int, countered: bool, anim: AnimatorView, maxStamina: real, dt: real, hasOpponent: bool)
    requires FighterValid(f, maxStamina) && dt >= 0.0
    ensures Resolve(f, HurtboxTag, damage, countered, anim, maxStamina, dt, hasOpponent).econ == f.econ
  {
  }

  /**
   * A successful counter never costs the defender health, and the stamina
   * it ends with is at least what the 20-point charge left: the "Counter"
   * punch has a negative cost, so it can only give stamina back.
   */
  lemma SuccessfulCounterSparesHealth(f: Fighter, damage: int, anim: AnimatorView, maxStamina: real, dt: real, hasOpponent: bool)
    requires FighterValid(f, maxStamina) && dt >= 0.0
    ensures var r := Resolve(f, CounterTag, damage, true, anim, maxStamina, dt, hasOpponent);
      && r.health == f.health && r.deaths == f.deaths
      && r.econ.stamina >= MaxReal(0.0, f.econ.stamina - 20.0)
  {
    var g := Drain(f, -20.0, maxStamina, dt);
    assert g.econ.stamina == MaxReal(0.0, f.econ.stamina - 20.0);
    CounterPunchNeverCosts(g, anim, maxStamina, dt, hasOpponent);
  }

  /** Throwing with a negative cost never lowers stamina. */
  lemma CounterPunchNeverCosts(f: Fighter, anim: AnimatorView, maxStamina: real, dt: real, hasOpponent: bool)
    requires FighterValid(f, maxStamina) && dt >= 0.0
    ensures Punch(f, "Counter", -40.0, anim, maxStamina, dt, hasOpponent).econ.stamina >= f.econ.stamina
  {
  }

  /** A failed counter costs both: 20 stamina and the hit's damage in health. */
  lemma FailedCounterCostsBoth(f: Fighter, damage: int, anim: AnimatorView, maxStamina: real, dt: real, hasOpponent: bool)
    requires FighterValid(f, maxStamina) && dt >= 0.0 && !f.isDead
    ensures var r := Resolve(f, CounterTag, damage, false, anim, maxStamina, dt, hasOpponent);
      && r.health == AfterDamage(f.health, damage)
      && r.econ.stamina == MaxReal(0.0, f.econ.stamina - 20.0)
  {
  }

  /** Touching a collider with any other tag changes nothing. */
  lemma OtherTagsIgnored(f: Fighter, otherTag: string, damage: int, countered: bool, anim: AnimatorView, maxStamina: real, dt: real, hasOpponent: bool)
    requires FighterValid(f, maxStamina) && dt >= 0.0 && !IsDefenseTag(otherTag)
    ensures Resolve(f, otherTag, damage, countered, anim, maxStamina, dt, hasOpponent) == f
  {
  }

  /**
   * isDead is never set, so a fighter at 0 health calls OnDeath again on
   * every hurtbox hit, even one from a state outside the damage table.
   */
  lemma DeathRepeatsOnEveryHit(f: Fighter, attackerState: string, anim: AnimatorView, maxStamina: real, dt: real, hasOpponent: bool)
    requires FighterValid(f, maxStamina) && dt >= 0.0 && !f.isDead && f.health == 0.0
    ensures var r := Resolve(f, HurtboxTag, DamageFor(attackerState), false, anim, maxStamina, dt, hasOpponent);
      r.deaths == f.deaths + 1 && r.health == 0.0
  {
  }

  class Agent {
    const maxHealth: real
    const maxStamina: real
    var health: real
    var isDead: bool
    var deaths: nat
    var stamina: real
    var blocking: bool
    var regen: Stamina.RegenPhase
    var regenHandle: bool
    var delayBar: real
    var hurtboxTag: string
    var triggers: set<string>
    var pendingChecks: seq<ClearCheck>
    var punchTarget: Option<Target>
    var hitboxes: HitboxPair
    var slowdowns: nat
    ghost var comboLog: seq<ComboCall>
    const clips: seq<string>
    const stats: Stats.PlayerStats
    const hasOpponent: bool

    function Econ(): Stamina.Economy
      reads this
    {
      Stamina.Economy(stamina, blocking, regen, regenHandle, delayBar)
    }

    function Snapshot(): Fighter
      reads this
    {
      Fighter(health, isDead, deaths, Econ(), hurtboxTag, triggers, pendingChecks, punchTarget)
    }

    predicate Valid()
      reads this
    {
      FighterValid(Snapshot(), maxStamina)
    }

    /**
     * Awake fills health and stamina; the hurtbox starts with the "Hurtbox"
     * tag, no coroutine runs and nothing is pending.
     */
    constructor (maxHealth: real, maxStamina: real, hitboxes: HitboxPair, clips: seq<string>,
                 stats: Stats.PlayerStats, hasOpponent: bool)
      requires maxHealth >= 0.0 && maxStamina >= 0.0
      ensures Valid()
      ensures health == maxHealth && stamina == maxStamina && !isDead && deaths == 0
      ensures !blocking && regen == Stamina.NoRegen && !regenHandle && delayBar == 0.0
      ensures hurtboxTag == HurtboxTag && triggers == {} && pendingChecks == [] && punchTarget == None
      ensures this.maxHealth == maxHealth && this.maxStamina == maxStamina && this.hitboxes == hitboxes
      ensures this.clips == clips && this.stats == stats && this.hasOpponent == hasOpponent
      ensures slowdowns == 0 && comboLog == []
    {
      this.maxHealth := maxHealth;
      this.maxStamina := maxStamina;
      health := maxHealth;
      stamina := maxStamina;
      isDead := false;
      deaths := 0;
      blocking := false;
      regen := Stamina.NoRegen;
      regenHandle := false;
      delayBar := 0.0;
      hurtboxTag := HurtboxTag;
      triggers := {};
      pendingChecks := [];
      punchTarget := None;
      this.hitboxes := hitboxes;
      slowdowns := 0;
      comboLog := [];
      this.clips := clips;
      this.stats := stats;
      this.hasOpponent := hasOpponent;
    }

    /** StartCoroutine(RegenerateStamina()) stored in staminaRegenCoroutine. */
    method StartRegen(dt: real)
      modifies this`regen, this`regenHandle, this`delayBar
      ensures Econ() == Stamina.Launch(old(Econ()), dt)
    {
      if blocking {
        delayBar := 0.0;
        regen := Stamina.NoRegen;
      } else {
        regen := Stamina.Delay(dt);
        delayBar := Clamp01(dt / Stamina.RegenDelay);
      }
      regenHandle := true;
    }

    method ModifyStamina(amount: real, dt: real)
      requires Valid() && dt >= 0.0
      modifies this`stamina, this`blocking, this`regen, this`regenHandle, this`delayBar
      ensures Valid()
      ensures Econ() == Stamina.Modify(old(Econ()), amount, maxStamina, dt)
    {
      stamina := stamina + amount;
      stamina := Clamp(stamina, 0.0, maxStamina);
      if stamina <= 0.0 {
        blocking := false;
      }
      if amount < 0.0 && stamina < maxStamina {
        StartRegen(dt);
      }
    }

    /** One pass of the ramp loop. */
    method RampPass(dt: real)
      requires Valid() && dt >= 0.0 && regen == Stamina.Ramp
      modifies this`stamina, this`blocking, this`regen, this`regenHandle, this`delayBar
      ensures Valid()
      ensures Econ() == Stamina.RampStep(old(Econ()), maxStamina, dt)
    {
      if stamina < maxStamina {
        if blocking {
          regen := Stamina.NoRegen;
          regenHandle := false;
          return;
        }
        ModifyStamina(Stamina.RegenRate * dt, dt);
        stamina := MinReal(stamina, maxStamina);
      } else {
        regen := Stamina.NoRegen;
        regenHandle := false;
      }
    }

    /** The regeneration coroutine resumed in a frame of length dt. */
    method ResumeRegen(dt: real)
      requires Valid() && dt >= 0.0
      modifies this`stamina, this`blocking, this`regen, this`regenHandle, this`delayBar
      ensures Valid()
      ensures Econ() == Stamina.Resume(old(Econ()), maxStamina, dt)
    {
      match regen
      case NoRegen =>
      case Delay(timer) =>
        if timer < Stamina.RegenDelay {
          if blocking {
            delayBar := 0.0;
            regen := Stamina.NoRegen;
            regenHandle := false;
          } else {
            regen := Stamina.Delay(timer + dt);
            delayBar := Clamp01((timer + dt) / Stamina.RegenDelay);
          }
        } else {
          delayBar := 0.0;
          regen := Stamina.Ramp;
          RampPass(dt);
        }
      case Ramp =>
        RampPass(dt);
    }

    /** TakeHealthDamage; stateName is this fighter's current animator state. */
    method TakeHealthDamage(damage: int, stateName: string)
      requires Valid()
      modifies this`health, this`deaths, this`triggers
      ensures Valid()
      ensures Snapshot() == Hurt(old(Snapshot()), damage, stateName)
    {
      if isDead {
        return;
      }
      health := health - damage as real;
      health := MaxReal(0.0, health);
      triggers := triggers + HitReaction(damage, stateName);
      if health <= 0.0 {
        deaths := deaths + 1;
      }
    }

    method ThrowPunch(punch: string, cost: real, anim: AnimatorView, dt: real)
      requires Valid() && dt >= 0.0
      modifies this`comboLog, this`triggers, this`pendingChecks, this`punchTarget
      modifies this`stamina, this`blocking, this`regen, this`regenHandle, this`delayBar
      ensures Valid()
      ensures Snapshot() == Punch(old(Snapshot()), punch, cost, anim, maxStamina, dt, hasOpponent)
      ensures comboLog == old(comboLog) + ComboCallsOf(punch, DecidePunch(anim, old(blocking), old(stamina), cost))
    {
      comboLog := comboLog + [AddPunchToCombo(punch)];
      if anim.inTransition {
        return;
      } else if blocking {
        triggers := triggers + {punch};
      } else if stamina > cost {
        if anim.tag == "Idle" {
          triggers := triggers + {punch};
          ModifyStamina(-cost, dt);
          comboLog := comboLog + [FinalizeCombo];
        } else if anim.tag == "Punch" {
          if InComboWindow(anim.normalizedTime) {
            triggers := triggers + {punch};
            pendingChecks := pendingChecks + [ClearCheck(punch, cost)];
          }
        }
        if hasOpponent {
          punchTarget := Some(GetTarget(punch));
        }
      }
    }

    /**
     * ClearTriggerIfNotUsed resumed after its one-frame wait: the trigger is
     * reset, and the cost is charged only when a transition of positive
     * duration is under way.
     */
    method ClearTriggerIfNotUsed(check: ClearCheck, transitionDuration: real, dt: real)
      requires Valid() && dt >= 0.0
      modifies this`triggers, this`stamina, this`blocking, this`regen, this`regenHandle, this`delayBar
      ensures Valid()
      ensures triggers == old(triggers) - {check.trigger}
      ensures Econ() == if transitionDuration > 0.0 then Stamina.Modify(old(Econ()), -check.cost, maxStamina, dt) else old(Econ())
    {
      triggers := triggers - {check.trigger};
      if transitionDuration > 0.0 {
        ModifyStamina(-check.cost, dt);
      }
    }

    /** The given waiting checks resumed one after another, in the order they were started. */
    method ClearTriggers(checks: seq<ClearCheck>, transitionDuration: real, dt: real)
      requires Valid() && dt >= 0.0
      modifies this`triggers, this`stamina, this`blocking, this`regen, this`regenHandle, this`delayBar
      ensures Valid()
      ensures Econ() == ChargeAll(old(Econ()), checks, transitionDuration, maxStamina, dt)
      ensures triggers == old(triggers) - TriggerNames(checks)
    {
      ghost var start := Econ();
      ghost var startTriggers := triggers;
      var i := 0;
      while i < |checks|
        invariant 0 <= i <= |checks|
        invariant Valid()
        invariant Econ() == ChargeAll(start, checks[..i], transitionDuration, maxStamina, dt)
        invariant triggers == startTriggers - TriggerNames(checks[..i])
      {
        ChecksSnoc(start, checks, i, transitionDuration, maxStamina, dt);
        ClearTriggerIfNotUsed(checks[i], transitionDuration, dt);
        i := i + 1;
      }
      assert checks[..i] == checks;
    }

    /** The waiting ClearTriggerIfNotUsed coroutines resumed a frame later; none is left waiting. */
    method ResumeTriggerChecks(transitionDuration: real, dt: real)
      requires Valid() && dt >= 0.0
      modifies this`triggers, this`pendingChecks
      modifies this`stamina, this`blocking, this`regen, this`regenHandle, this`delayBar
      ensures Valid()
      ensures Snapshot() == FinishChecks(old(Snapshot()), transitionDuration, maxStamina, dt)
    {
      ClearTriggers(pendingChecks, transitionDuration, dt);
      pendingChecks := [];
    }

    method HandleBlocking(isBlocking: bool, dt: real)
      requires Valid() && dt >= 0.0
      modifies this`stamina, this`blocking, this`regen, this`regenHandle, this`delayBar
      ensures Valid()
      ensures Econ() == Stamina.SetBlocking(old(Econ()), isBlocking, maxStamina, dt)
    {
      blocking := isBlocking;
      if isBlocking {
        if regenHandle {
          regen := Stamina.NoRegen;
          regenHandle := false;
          delayBar := 0.0;
        }
      } else {
        if stamina < maxStamina && !regenHandle {
          StartRegen(dt);
        }
      }
    }

    /** The hurtbox-tag part of Update. */
    method Update()
      requires Valid()
      modifies this`hurtboxTag
      ensures Valid()
      ensures hurtboxTag == TagAfterUpdate(old(hurtboxTag), blocking)
    {
      if blocking {
        hurtboxTag := BlockTag;
      } else if hurtboxTag != CounterTag {
        hurtboxTag := HurtboxTag;
      }
    }

    /** StartCounter clears the animator's blocking flag directly, so no regeneration is started. */
    method StartCounter()
      requires Valid()
      modifies this`blocking, this`hurtboxTag
      ensures Valid()
      ensures !blocking && hurtboxTag == CounterTag
    {
      blocking := false;
      hurtboxTag := CounterTag;
    }

    method StopCounter()
      requires Valid()
      modifies this`hurtboxTag
      ensures Valid()
      ensures hurtboxTag == HurtboxTag
    {
      hurtboxTag := HurtboxTag;
    }

    method EnableHitbox(hitboxName: string)
      modifies this`hitboxes
      ensures hitboxes == Switched(old(hitboxes), hitboxName, true)
    {
      if hitboxName == "left" && hitboxes.left != Missing {
        hitboxes := hitboxes.(left := Present(true));
      } else if hitboxName == "right" && hitboxes.right != Missing {
        hitboxes := hitboxes.(right := Present(true));
      }
    }

    method DisableHitbox(hitboxName: string)
      modifies this`hitboxes
      ensures hitboxes == Switched(old(hitboxes), hitboxName, false)
    {
      if hitboxName == "left" && hitboxes.left != Missing {
        hitboxes := hitboxes.(left := Present(false));
      } else if hitboxName == "right" && hitboxes.right != Missing {
        hitboxes := hitboxes.(right := Present(false));
      }
    }
    /**
     * HandleCounter, with the defender as the opponent found on the touched
     * collider's root: the counter succeeds iff the defender's state is the
     * attacker's state name, looked up among the defender's clips, plus
     * "_Counter_Windup". Success makes the defender throw "Counter" at cost
     * -40 and starts the slowdown effect here; failure costs the defender
     * the hit's damage in health.
     */
    method HandleCounter(defender: Agent, damage: int, attackerState: string, defenderAnim: AnimatorView, dt: real)
      requires defender.Valid() && dt >= 0.0
      modifies this`slowdowns
      modifies defender`health, defender`deaths, defender`triggers, defender`comboLog, defender`pendingChecks, defender`punchTarget
      modifies defender`stamina, defender`blocking, defender`regen, defender`regenHandle, defender`delayBar
      ensures defender.Valid()
      ensures CounterSucceeds(defenderAnim.stateName, attackerState, defender.clips) ==>
        && defender.Snapshot() == Punch(old(defender.Snapshot()), "Counter", -40.0, defenderAnim, defender.maxStamina, dt, defender.hasOpponent)
        && slowdowns == old(slowdowns) + 1
      ensures !CounterSucceeds(defenderAnim.stateName, attackerState, defender.clips) ==>
        && defender.Snapshot() == Hurt(old(defender.Snapshot()), damage, defenderAnim.stateName)
        && slowdowns == old(slowdowns)
    {
      var opponentAnimationName := GetCurrentStateName(attackerState, defender.clips);
      var expectedCounterState := opponentAnimationName + CounterWindupSuffix;
      if defenderAnim.stateName == expectedCounterState {
        defender.ThrowPunch("Counter", -40.0, defenderAnim, dt);
        slowdowns := slowdowns + 1;
      } else {
        defender.TakeHealthDamage(damage, defenderAnim.stateName);
      }
    }

    /** The by-tag part of OnTriggerStay, once a defender has been found. */
    method ResolveHit(otherTag: string, defender: Agent, attackerState: string, defenderAnim: AnimatorView, dt: real)
      requires defender.Valid() && dt >= 0.0
      modifies this`slowdowns, stats
      modifies defender`health, defender`deaths, defender`triggers, defender`comboLog, defender`pendingChecks, defender`punchTarget
      modifies defender`stamina, defender`blocking, defender`regen, defender`regenHandle, defender`delayBar
      ensures defender.Valid()
      ensures defender.Snapshot() == Resolve(old(defender.Snapshot()), otherTag, DamageFor(attackerState),
        CounterSucceeds(defenderAnim.stateName, attackerState, defender.clips),
        defenderAnim, defender.maxStamina, dt, defender.hasOpponent)
      ensures stats.totalDamageDealt == old(stats.totalDamageDealt) + (if otherTag == HurtboxTag then DamageFor(attackerState) else 0)
      ensures stats.totalCombos == old(stats.totalCombos)
      ensures slowdowns == old(slowdowns) +
        (if otherTag == CounterTag && CounterSucceeds(defenderAnim.stateName, attackerState, defender.clips) then 1 else 0)
    {
      var damage := DamageFor(attackerState);
      if otherTag == HurtboxTag {
        defender.TakeHealthDamage(damage, defenderAnim.stateName);
        stats.AddDamage(damage);
      } else if otherTag == BlockTag {
        defender.ModifyStamina(-(damage as real), dt);
      } else if otherTag == CounterTag {
        defender.ModifyStamina(-20.0, dt);
        HandleCounter(defender, damage, attackerState, defenderAnim, dt);
      }
    }

    /**
     * OnTriggerStay: this fighter's strike collider overlaps a collider
     * tagged otherTag whose parent carries the fighter `defender` (null when
     * it has none). With a defender, the left collider is read first, so a
     * missing one faults before anything happens (`faulted`), and a missing
     * right one faults after the left one is disabled. Otherwise the hit is
     * resolved by tag with the table damage of this fighter's current state,
     * and both strike colliders are disabled.
     */
    method OnTriggerStay(otherTag: string, defender: Agent?, attackerState: string, defenderAnim: AnimatorView, dt: real)
      returns (faulted: bool)
      requires defender != null ==> defender.Valid()
      requires dt >= 0.0
      modifies this`hitboxes, this`slowdowns, stats, if defender == null then {} else {defender}
      ensures defender == null || old(hitboxes).left == Missing ==>
        && faulted == (defender != null)
        && hitboxes == old(hitboxes) && slowdowns == old(slowdowns)
        && stats.totalDamageDealt == old(stats.totalDamageDealt)
        && (defender != null ==> defender.Snapshot() == old(defender.Snapshot()))
      ensures defender != null && old(hitboxes).left != Missing ==>
        && defender.Valid()
        && faulted == (old(hitboxes).right == Missing)
        && hitboxes == HitboxPair(Present(false), if old(hitboxes).right == Missing then Missing else Present(false))
        && defender.Snapshot() == Resolve(old(defender.Snapshot()), otherTag, DamageFor(attackerState),
             CounterSucceeds(defenderAnim.stateName, attackerState, defender.clips),
             defenderAnim, defender.maxStamina, dt, defender.hasOpponent)
        && stats.totalDamageDealt == old(stats.totalDamageDealt) + (if otherTag == HurtboxTag then DamageFor(attackerState) else 0)
        && slowdowns == old(slowdowns) +
             (if otherTag == CounterTag && CounterSucceeds(defenderAnim.stateName, attackerState, defender.clips) then 1 else 0)
      ensures stats.totalCombos == old(stats.totalCombos)
      ensures defender != null && defender != this ==>
        defender.hitboxes == old(defender.hitboxes) && defender.slowdowns == old(defender.slowdowns)
    {
      if defender == null {
        return false;
      }
      if hitboxes.left == Missing {
        return true;
      }
      ResolveHit(otherTag, defender, attackerState, defenderAnim, dt);
      hitboxes := hitboxes.(left := Present(false));
      if hitboxes.right == Missing {
        return true;
      }
      hitboxes := hitboxes.(right := Present(false));
      return false;
    }
  }
}
