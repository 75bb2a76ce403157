/**
 * The value-level rules of Agents/Agent.cs: the punch damage table, the
 * defense-zone tags, the punch guard of ThrowPunch, the hit reaction of
 * TakeHealthDamage, the clip-name lookup and the counter comparison of
 * HandleCounter.
 *
 * Animator.StringToHash is taken to be injective, so comparing hashes is
 * comparing names.
 */
module Combat {
  import opened UnityMath

  /** What a fighter reads from its animator's base layer in one frame. */
  datatype AnimatorView = AnimatorView(stateName: string, tag: string, normalizedTime: real, inTransition: bool)

  /** punchDamageMap, as built in Start. */
  const PunchDamage: map<string, int> := map[
    "Jab" := 1, "Jab_Counter" := 10,
    "Straight" := 3, "Straight_Counter" := 15,
    "Left_Hook" := 5, "Left_Hook_Counter" := 25,
    "Right_Hook" := 5, "Right_Hook_Counter" := 25]

  /** The four basic punches; each has a "_Counter" variant in the table. */
  const BasicPunches: set<string> := {"Jab", "Straight", "Left_Hook", "Right_Hook"}

  /** The damage of the attacker's current state: its table value, or 0 when the state is not a punch. */
  function DamageFor(stateName: string): (d: int)
    ensures 0 <= d <= 25
    ensures stateName in PunchDamage ==> d == PunchDamage[stateName]
    ensures d > 0 <==> stateName in PunchDamage
  {
    if stateName in PunchDamage then PunchDamage[stateName] else 0
  }

  /** Reactions to a hit: a basic punch never causes "Big_Hit", its counter variant always does and hurts more. */
  lemma CounterVariantsHitHarder(p: string)
    requires p in BasicPunches
    ensures DamageFor(p) < 10 <= DamageFor(p + "_Counter")
    ensures DamageFor(p) > 0
  {
    if p == "Jab" {
      assert p + "_Counter" == "Jab_Counter";
    } else if p == "Straight" {
      assert p + "_Counter" == "Straight_Counter";
    } else if p == "Left_Hook" {
      assert p + "_Counter" == "Left_Hook_Counter";
    } else {
      assert p + "_Counter" == "Right_Hook_Counter";
    }
  }

  // The tags the hurtbox can carry.
  const HurtboxTag: string := "Hurtbox"
  const BlockTag: string := "Block"
  const CounterTag: string := "Counter"

  predicate IsDefenseTag(tag: string) {
    tag == HurtboxTag || tag == BlockTag || tag == CounterTag
  }

  /**
   * Update's tag rule: "Block" while blocking; otherwise "Hurtbox" unless the
   * tag is "Counter", which only StopCounter or blocking replaces.
   */
  function TagAfterUpdate(tag: string, blocking: bool): (r: string)
    ensures IsDefenseTag(r)
    ensures blocking ==> r == BlockTag
    ensures !blocking && tag == CounterTag ==> r == CounterTag
    ensures !blocking && tag != CounterTag ==> r == HurtboxTag
  {
    if blocking then BlockTag
    else if tag != CounterTag then HurtboxTag
    else tag
  }

  /** Update applied twice in the same state gives the same tag as once. */
  lemma TagUpdateIdempotent(tag: string, blocking: bool)
    ensures TagAfterUpdate(TagAfterUpdate(tag, blocking), blocking) == TagAfterUpdate(tag, blocking)
  {
  }

  /** The position within the current loop of the animation: normalizedTime % 1. */
  function Progress(normalizedTime: real): real {
    FloatRem(normalizedTime, 1.0)
  }

  /** The combo window tested by ThrowPunch: 0.3 <= progress <= 0.7. */
  predicate InComboWindow(normalizedTime: real) {
    0.3 <= Progress(normalizedTime) <= 0.7
  }

  /** For a non-negative normalized time the progress lies in [0, 1): the fractional part. */
  lemma ProgressIsFraction(t: real)
    requires t >= 0.0
    ensures 0.0 <= Progress(t) < 1.0
    ensures Progress(t) == t - (t.Floor as real)
  {
    FloatRemNonNegative(t, 1.0);
    assert t / 1.0 == t;
  }

  /** Which branch of ThrowPunch a call takes. */
  datatype PunchDecision =
    | InTransition  // nothing beyond the combo record
    | WhileBlocking // trigger set, no cost
    | TooTired      // stamina not strictly above cost: no trigger, no cost
    | FromIdle      // trigger set, cost charged now, combo finalized
    | ComboCancel   // trigger set, cost checked one frame later
    | NoMatch       // stamina sufficient but neither Idle nor in the combo window

  /** ThrowPunch's guards, in the order the source tests them. */
  function DecidePunch(anim: AnimatorView, blocking: bool, stamina: real, cost: real): (d: PunchDecision)
    ensures d == InTransition <==> anim.inTransition
    ensures d == WhileBlocking <==> !anim.inTransition && blocking
    ensures d == TooTired <==> !anim.inTransition && !blocking && stamina <= cost
    ensures d == FromIdle <==> !anim.inTransition && !blocking && stamina > cost && anim.tag == "Idle"
    ensures d == ComboCancel <==>
      !anim.inTransition && !blocking && stamina > cost && anim.tag == "Punch" && InComboWindow(anim.normalizedTime)
  {
    if anim.inTransition then InTransition
    else if blocking then WhileBlocking
    else if !(stamina > cost) then TooTired
    else if anim.tag == "Idle" then FromIdle
    else if anim.tag == "Punch" && InComboWindow(anim.normalizedTime) then ComboCancel
    else NoMatch
  }

  /** A cost is only ever charged, now or later, when stamina strictly exceeds it and the fighter is neither blocking nor in transition. */
  lemma ChargeNeedsStrictMargin(anim: AnimatorView, blocking: bool, stamina: real, cost: real)
    requires DecidePunch(anim, blocking, stamina, cost) in {FromIdle, ComboCancel}
    ensures stamina > cost && !blocking && !anim.inTransition
  {
  }

  /** A punch whose cost equals the stamina left is refused outright. */
  lemma ExactCostRefused(anim: AnimatorView, stamina: real)
    requires !anim.inTransition
    ensures DecidePunch(anim, false, stamina, stamina) == TooTired
  {
  }

  /** The trigger set by TakeHealthDamage, if any: "Big_Hit" from 10 damage up, else "Hit" when in state Idle. */
  function HitReaction(damage: int, stateName: string): (t: set<string>)
    ensures damage >= 10 ==> t == {"Big_Hit"}
    ensures damage < 10 && stateName == "Idle" ==> t == {"Hit"}
    ensures damage < 10 && stateName != "Idle" ==> t == {}
  {
    if damage >= 10 then {"Big_Hit"}
    else if stateName == "Idle" then {"Hit"}
    else {}
  }

  /**
   * The name GetCurrentStateName returns: the first clip of the controller
   * whose name matches the state, else "Unknown".
   */
  function ClipName(stateName: string, clips: seq<string>): (r: string)
    ensures stateName in clips ==> r == stateName
    ensures stateName !in clips ==> r == "Unknown"
    decreases |clips|
  {
    if clips == [] then "Unknown"
    else if clips[0] == stateName then clips[0]
    else ClipName(stateName, clips[1..])
  }

  /** GetCurrentStateName: the foreach over the controller's animation clips. */
  method GetCurrentStateName(stateName: string, clips: seq<string>) returns (r: string)
    ensures r == ClipName(stateName, clips)
  {
    var i := 0;
    while i < |clips|
      invariant 0 <= i <= |clips|
      invariant stateName !in clips[..i]
    {
      if clips[i] == stateName {
        assert stateName in clips;
        return clips[i];
      }
      i := i + 1;
    }
    assert clips[..i] == clips;
    return "Unknown";
  }

  /** The suffix HandleCounter appends to the attacker's state name. */
  const CounterWindupSuffix: string := "_Counter_Windup"

  /**
   * HandleCounter's test: the defender's state must be named after the
   * attacker's state, looked up among the defender's clips, plus
   * "_Counter_Windup".
   */
  predicate CounterSucceeds(defenderState: string, attackerState: string, defenderClips: seq<string>) {
    defenderState == ClipName(attackerState, defenderClips) + CounterWindupSuffix
  }

  /**
   * The counter succeeds iff the defender is in the windup named after the
   * attacker's state; an attacker state the defender's controller has no
   * clip for can only be countered from a state named "Unknown_Counter_Windup".
   */
  lemma CounterRule(defenderState: string, attackerState: string, defenderClips: seq<string>)
    ensures attackerState in defenderClips ==>
      (CounterSucceeds(defenderState, attackerState, defenderClips) <==> defenderState == attackerState + CounterWindupSuffix)
    ensures attackerState !in defenderClips ==>
      (CounterSucceeds(defenderState, attackerState, defenderClips) <==> defenderState == "Unknown" + CounterWindupSuffix)
  {
  }
}
