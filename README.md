# Capstone boxing game: a Dafny model of the fighting core

This project models the rules of a two-fighter boxing game written in C# for
Unity:

- **Fighters.** A fighter has health, stamina, and a stamina regeneration
  that waits two seconds and then refills at 50 per second. It also has a
  hurtbox whose tag says whether it is open, blocking or countering, a
  damage table keyed by the attacker's animation state, and the rules for
  throwing a punch (transition, block, stamina, idle, combo window).
- **Hits.** When a strike collider touches the other fighter, the hit is
  resolved by tag: a hurtbox hit costs health, a blocked hit costs stamina,
  and a counter either makes the defender throw a free "Counter" punch or
  costs health.
- **Match flow.** A round timer counts down and shows a clock. An interim
  screen between rounds shows each player's damage and top combos, and ends
  when both players skip or its own timer runs out. A round winner is
  chosen by damage, and the match winner by rounds won.
- **Earlier versions.** The project also keeps an earlier player
  controller, round timer and interim screen, plus the small `Agent`,
  `Hitbox`, `PlayerStats` and `PunchTarget` components.

Single-precision floats are modelled as `real`. Animator queries,
`Time.deltaTime` and input events become parameters. A coroutine becomes
explicit state that a per-frame method advances.

Modules:

| module | file | models |
|---|---|---|
| `Wrappers` | wrappers.dfy | `Option` |
| `UnityMath` | unity_math.dfy | `Mathf.Clamp`, `Clamp01`, `Max`, `Min`; C# float `%` |
| `Format` | format.dfy | integer-to-text, `{x:00}` formatting and `FloorToInt` clock parts |
| `Health` | health.dfy | the damage rule `health = max(0, health - damage)` |
| `PunchTargets` | punch_target.dfy | `PunchTarget.GetTarget` |
| `Stats` | player_stats.dfy | `PlayerStats` |
| `AgentController` | agent_controller.dfy | the earlier `Agent` component |
| `Hitboxes` | hitboxes.dfy | strike-collider switching and the earlier `Hitbox` |
| `Stamina` | stamina.dfy | the stamina economy of `Agent.cs` as a state machine |
| `Combat` | combat.dfy | the damage table, hurtbox tags, punch decision, state-name lookup, counter rule |
| `Fighters` | agent.dfy | the `Agent` class and whole-hit transitions |
| `LegacyPlayer` | player_controller.dfy | the earlier `Player/PlayerController` |
| `MatchRules` | match_rules.dfy | round and match winners, timer text, skip prompt, combo keys and icons |
| `MatchFlow` | match_ui.dfy | `GameManager`, UI `RoundTimerManager` and UI `InterimManager` |
| `LegacyMatchFlow` | legacy_managers.dfy | the earlier `RoundTimerManager` and `InterimManager` |

## How the model reads the code

**Stamina regeneration.**

- `RegenerateStamina` is a phase: `NoRegen`, `Delay(timer)` or `Ramp`.
  `Stamina.Resume` performs one frame of it.
- The coroutine handle (`staminaRegenCoroutine != null`) is kept apart from
  the phase. Unity runs a started coroutine up to its first `yield` before
  `StartCoroutine` returns and the handle is stored.
- So `ModifyStamina` can leave a stale handle. This happens when it lowers
  stamina while the fighter is blocking: the new coroutine ends at once,
  but the handle is still stored. The later `HandleBlocking(false)` then
  starts no regeneration. `Stamina.BlockedHitThenReleaseStartsNoRegen` and
  `Stamina.ThreeBlockedHitsScenario` state this.

**Animator triggers and combo checks.**

- An animator trigger is an element of a set. `SetTrigger` adds it and
  `ResetTrigger` removes it.
- Each `ClearTriggerIfNotUsed` coroutine waits one frame. The model queues
  it in `pendingChecks`, and `ResumeTriggerChecks` resumes every waiting
  check one frame later.

**Names and hashes.** `Animator.StringToHash` is taken to be injective, so
comparing hashes is modelled as comparing names.

**Death.** `isDead` is never set to true in `Agent.cs`. A fighter at zero
health therefore calls `OnDeath` again on every further hurtbox hit. The
model counts those calls in `deaths`.

**Round timer.**

- The UI timer shows "00:00" whenever the seconds part is 0 or less. This
  includes every whole minute, for example 120.5 s.
- The earlier timer formats negative values, so it shows "-01:-01" on the
  frame that crosses zero.
- A tied round goes to player 2.
- The match is decided at the first round end at which `currentRound`
  exceeds `totalRounds`. If the rounds won are level, no game-over is
  raised and play continues.

**Earlier player controller.**

- `StopCoroutine(nameof(RegenerateStamina))` does not stop a coroutine
  that was started from an `IEnumerator`, so `StartBlocking` stops nothing.
- Each `StopBlocking` adds another running regeneration, so several can
  refill stamina in the same frame.

**Combo tracker.** The combo tracker (`AddPunchToCombo`, `FinalizeCombo`,
`GetTopCombos`) is not part of this model. The calls `ThrowPunch` makes to
it are kept in a ghost log. The top combos the interim screen shows are
parameters.

## Model

| member | source | states |
|---|---|---|
| `UnityMath.Clamp` | Capstone/Assets/Prefabs/Agents/Agent.cs:216 | the result lies in [lo, hi] and is x itself when x is already inside |
| `UnityMath.Clamp01` | Capstone/Assets/Prefabs/Managers/UI/InterimManager.cs:183 | the result lies in [0, 1] (fill amounts) |
| `UnityMath.MaxReal` | Capstone/Assets/Prefabs/Agents/Agent.cs:196 | the result is one of the two arguments and at least both |
| `UnityMath.MinReal` | Capstone/Assets/Prefabs/Agents/Agent.cs:270 | the result is one of the two arguments and at most both |
| `UnityMath.Trunc` | Capstone/Assets/Prefabs/Managers/UI/RoundTimer.cs:53 | truncation toward zero: the integer within 1 of x on x's side of zero |
| `UnityMath.FloatRemNonNegative` | Capstone/Assets/Prefabs/Managers/UI/RoundTimer.cs:53 | for x ≥ 0, `x % y` lies in [0, y) and equals x minus the whole multiples of y |
| `UnityMath.FloatRemSmallNegative` | Capstone/Assets/Prefabs/Managers/RoundTimer.cs:50 | for -y < x < 0, C#'s `x % y` is x itself, which is negative |
| `Format.Digit` | Capstone/Assets/Prefabs/Managers/UI/RoundTimer.cs:60 | a digit value becomes a character '0'..'9' |
| `Format.NatToString` | Capstone/Assets/Prefabs/Managers/UI/InterimManager.cs:92 | the decimal text is non-empty digits, one character exactly for n < 10 |
| `Format.ParseNatToString` | Capstone/Assets/Prefabs/Managers/UI/InterimManager.cs:92 | reading the decimal text back gives n |
| `Format.IntToStringReadsBack` | Capstone/Assets/Prefabs/Managers/UI/InterimManager.cs:92-93 | integer interpolation: non-empty; digits reading back to i for i ≥ 0; '-' then digits reading back to -i for i < 0 |
| `Format.TwoDigits` | Capstone/Assets/Prefabs/Managers/UI/RoundTimer.cs:60 | `{x:00}`: exactly two digits reading back to x for 0 ≤ x < 100, all digits above, a '-' before the positive form below 0 |
| `Format.ClockParts` | Capstone/Assets/Prefabs/Managers/UI/RoundTimer.cs:52-53 | for t ≥ 0, minutes ≥ 0, seconds in [0, 60), and 60·minutes + seconds is the whole seconds of t |
| `Format.ClockPartsJustBelowZero` | Capstone/Assets/Prefabs/Managers/RoundTimer.cs:49-50 | for -1 ≤ t < 0 both clock parts are -1 |
| `Health.AfterDamage` | Capstone/Assets/Prefabs/Agents/Agent.cs:195-196 | the new health is never negative, is 0 exactly when the damage reaches it, is otherwise health − damage, and never rises for non-negative damage |
| `Health.DeathCallbacks` | Capstone/Assets/Prefabs/Agents/Agent.cs:193-210 | the number of OnDeath calls over a run of hits is at most the number of hits |
| `Health.HealthAfter` | Capstone/Assets/Prefabs/Agents/Agent.cs:195-196 | after at least one hit the health left is never negative |
| `Health.DeathCallbacksAppend` | Capstone/Assets/Prefabs/Agents/Agent.cs:193-210 | one more hit moves health by the damage rule and adds one callback exactly when it leaves health at 0 |
| `Fighters.HurtAllCountsDeaths` | Capstone/Assets/Prefabs/Agents/Agent.cs:193-210 | a run of TakeHealthDamage calls leaves the health `HealthAfter` gives, never sets isDead, and raises `deaths` (the OnDeath calls) by exactly `DeathCallbacks` |
| `Health.DeathRepeatsAtZero` | Capstone/Assets/Prefabs/Agents/Agent.cs:193-210 | at zero health every non-negative hit calls OnDeath again, because isDead is never set |
| `PunchTargets.GetTarget` | Capstone/Assets/Prefabs/Agents/PunchTarget.cs:10-19 | the left cheek for "Right_Hook", the right cheek for "Left_Hook", the chin for every other punch, each as an iff |
| `Stats.PlayerStats.constructor` | Capstone/Assets/Prefabs/Agents/PlayerStats.cs:5-6 | both totals start at 0 |
| `Stats.PlayerStats.AddDamage` | Capstone/Assets/Prefabs/Agents/PlayerStats.cs:8-11 | the damage total grows by the amount and the combo count is unchanged |
| `Stats.PlayerStats.AddCombo` | Capstone/Assets/Prefabs/Agents/PlayerStats.cs:13-16 | the combo count grows by one and the damage total is unchanged |
| `Stats.PlayerStats.ResetStats` | Capstone/Assets/Prefabs/Agents/PlayerStats.cs:18-22 | both totals are 0 |
| `AgentController.Agent.constructor` | Capstone/Assets/Prefabs/Agents/AgentController.cs:10-14 | health starts at maxHealth |
| `AgentController.Agent.TakeDamage` | Capstone/Assets/Prefabs/Agents/AgentController.cs:16-24 | health becomes max(0, health − damage), and Die is called exactly when it is then 0, i.e. `DeathCallbacks` of this one hit, so a run of calls adds up by `DeathCallbacksAppend` |
| `AgentController.Agent.TriggerHook` | Capstone/Assets/Prefabs/Agents/AgentController.cs:28-31 | the "Right_Hook" trigger is set |
| `AgentController.NoUpperClamp` | Capstone/Assets/Prefabs/Agents/AgentController.cs:18-19 | negative damage heals without any upper bound |
| `Hitboxes.Switched` | Capstone/Assets/Prefabs/Agents/Hitbox.cs:12-34 | only the named collider that exists changes, and any other name changes nothing |
| `Hitboxes.EnableThenDisable` | Capstone/Assets/Prefabs/Agents/Hitbox.cs:12-34 | disabling after enabling leaves the pair as disabling alone would |
| `Hitboxes.Hitbox.constructor` | Capstone/Assets/Prefabs/Agents/Hitbox.cs:6-10 | the colliders and hook damage are as configured |
| `Hitboxes.Hitbox.EnableHitbox` | Capstone/Assets/Prefabs/Agents/Hitbox.cs:12-22 | the pair becomes `Switched(old, name, true)` |
| `Hitboxes.Hitbox.DisableHitbox` | Capstone/Assets/Prefabs/Agents/Hitbox.cs:24-34 | the pair becomes `Switched(old, name, false)` |
| `Hitboxes.Hitbox.OnTriggerEnter` | Capstone/Assets/Prefabs/Agents/Hitbox.cs:36-51 | only a "Parry" collider with an agent costs that agent the hook damage; anything else changes no health; the agent's triggers never change |
| `Stamina.Launch` | Capstone/Assets/Prefabs/Agents/Agent.cs:236-252 | starting the regeneration stores the handle; while blocking the coroutine ends on its first check, otherwise it is one frame into the delay |
| `Stamina.Modify` | Capstone/Assets/Prefabs/Agents/Agent.cs:213-234 | stamina becomes the clamped sum; blocking stops at 0; a loss that leaves stamina below max restarts the delay; everything else is kept; validity is preserved |
| `Stamina.RampStep` | Capstone/Assets/Prefabs/Agents/Agent.cs:256-277 | a refill pass adds 50·dt up to max, or, when full or blocking, ends the coroutine and clears the handle |
| `Stamina.Resume` | Capstone/Assets/Prefabs/Agents/Agent.cs:236-278 | one frame of the regeneration never lowers stamina; with no coroutine it changes nothing; blocking ends it; an ended coroutine clears the handle; below 2 s an unblocked wait only advances its timer and bar; from 2 s on the bar resets and the ramp's first pass runs in the same frame |
| `Stamina.SetBlocking` | Capstone/Assets/Prefabs/Agents/Agent.cs:425-450 | starting to block stops a running regeneration; stopping starts one only below max and only with no handle stored; validity is preserved |
| `Stamina.Apply` | Capstone/Assets/Prefabs/Agents/Agent.cs:213-278 | every stamina event (change, block input, frame) keeps the economy valid |
| `Stamina.Run` | Capstone/Assets/Prefabs/Agents/Agent.cs:213-278 | any sequence of events with non-negative frame times keeps the economy valid |
| `Stamina.RunSnoc` | Capstone/Assets/Prefabs/Agents/Agent.cs:213-278 | running one more event is applying it to the state reached so far |
| `Stamina.RestartReplaces` | Capstone/Assets/Prefabs/Agents/Agent.cs:225-233 | a loss while regeneration is eligible restarts the delay from one frame in |
| `Stamina.GainNeverRestarts` | Capstone/Assets/Prefabs/Agents/Agent.cs:225 | a gain never touches the coroutine or its handle |
| `Stamina.ResumeN` | Capstone/Assets/Prefabs/Agents/Agent.cs:236-278 | n frames of regeneration keep the economy valid |
| `Stamina.RampReachesMax` | Capstone/Assets/Prefabs/Agents/Agent.cs:256-270 | n unblocked refill frames reach min(max, stamina + 50·n·dt) |
| `Stamina.BlockedHitThenReleaseStartsNoRegen` | Capstone/Assets/Prefabs/Agents/Agent.cs:225-233 | a blocked hit leaves a stored handle with no coroutine, so releasing the block starts no regeneration |
| `Stamina.ThreeBlockedHitsScenario` | Capstone/Assets/Prefabs/Agents/Agent.cs:425-450 | three blocked 10-point hits from 100 leave 70 after release, and 100 further frames do not refill it |
| `Stamina.IdleStaysPut` | Capstone/Assets/Prefabs/Agents/Agent.cs:236-278 | with no coroutine running, any number of frames changes nothing |
| `Stamina.ElapsedIsProduct` | Capstone/Assets/Prefabs/Agents/Agent.cs:253 | n frames of length dt add up to n · dt |
| `Stamina.ElapsedNonNegative` | Capstone/Assets/Prefabs/Agents/Agent.cs:253 | frame times that are never negative add up to a non-negative time |
| `Stamina.WaitHoldsStamina` | Capstone/Assets/Prefabs/Agents/Agent.cs:243-256 | while the timer is below 2 s at each frame and nobody blocks, frames leave stamina, flag and handle alone and add their time to the timer |
| `Stamina.LaunchThenWait` | Capstone/Assets/Prefabs/Agents/Agent.cs:236-256 | a regeneration started unblocked changes no stamina for any k frames totalling under 2 s, and is then still waiting with the time of k + 1 frames |
| `Stamina.WaitEndsInRamp` | Capstone/Assets/Prefabs/Agents/Agent.cs:243-271 | the first frame at or past 2 s switches to the ramp, clears the bar and adds min(50 · dt, room to max) |
| `Stamina.BlockAbortsDelay` | Capstone/Assets/Prefabs/Agents/Agent.cs:243-249 | blocking during the delay ends the coroutine without any stamina change |
| `Combat.DamageFor` | Capstone/Assets/Prefabs/Agents/Agent.cs:69-75 | the damage is the table value for a listed state and 0 otherwise (positive iff listed), always between 0 and 25 |
| `Combat.CounterVariantsHitHarder` | Capstone/Assets/Prefabs/Agents/Agent.cs:69-75 | each basic punch does 1 to 9 damage and its "_Counter" state does at least 10 |
| `Combat.TagAfterUpdate` | Capstone/Assets/Prefabs/Agents/Agent.cs:84-92 | "Block" while blocking; otherwise "Counter" is kept and anything else becomes "Hurtbox" |
| `Combat.TagUpdateIdempotent` | Capstone/Assets/Prefabs/Agents/Agent.cs:84-92 | applying the tag update twice equals applying it once |
| `Combat.ProgressIsFraction` | Capstone/Assets/Prefabs/Agents/Agent.cs:396 | `normalizedTime % 1` is the fractional part, in [0, 1) |
| `Combat.DecidePunch` | Capstone/Assets/Prefabs/Agents/Agent.cs:376-404 | each branch of ThrowPunch as an iff on transition, blocking, stamina > cost, the Idle/Punch tag and the 0.3–0.7 window |
| `Combat.ChargeNeedsStrictMargin` | Capstone/Assets/Prefabs/Agents/Agent.cs:386 | a punch is only charged with stamina strictly above its cost, not blocking and not in transition |
| `Combat.ExactCostRefused` | Capstone/Assets/Prefabs/Agents/Agent.cs:386 | a punch whose cost equals the remaining stamina is refused |
| `Combat.HitReaction` | Capstone/Assets/Prefabs/Agents/Agent.cs:199-203 | "Big_Hit" for damage ≥ 10, "Hit" for smaller damage only from Idle, else no trigger |
| `Combat.ClipName` | Capstone/Assets/Prefabs/Agents/Agent.cs:611-621 | the state's own name when a clip has it, "Unknown" otherwise |
| `Combat.GetCurrentStateName` | Capstone/Assets/Prefabs/Agents/Agent.cs:611-621 | the clip loop returns `ClipName`: the name when some clip matches, else "Unknown" |
| `Combat.CounterRule` | Capstone/Assets/Prefabs/Agents/Agent.cs:581-588 | a counter succeeds iff the defender is in the attacker's state + "_Counter_Windup"; an attacker state missing from the defender's clips needs "Unknown_Counter_Windup" |
| `Fighters.Hurt` | Capstone/Assets/Prefabs/Agents/Agent.cs:191-211 | dead: nothing; else health after damage, one more OnDeath exactly at 0, the hit reaction trigger; stamina and tag untouched |
| `Fighters.Drain` | Capstone/Assets/Prefabs/Agents/Agent.cs:213-234 | only the stamina economy changes, by `Stamina.Modify`, staying within [0, max] |
| `Fighters.Aim` | Capstone/Assets/Prefabs/Agents/Agent.cs:99-115 | with an opponent the punch target is its point for this punch, otherwise nothing changes |
| `Fighters.Punch` | Capstone/Assets/Prefabs/Agents/Agent.cs:369-410 | ThrowPunch by decision: only the Idle branch charges; the trigger is set when blocking, from Idle or in the window; the window queues a check; health and tag untouched; the punch target is aimed, with an opponent, in every branch with enough stamina and kept otherwise; validity kept |
| `Fighters.ChargeAll` | Capstone/Assets/Prefabs/Agents/Agent.cs:412-423 | the waiting checks keep the economy valid and charge nothing without a positive transition duration |
| `Fighters.ChargeAllNeverRaises` | Capstone/Assets/Prefabs/Agents/Agent.cs:412-423 | with non-negative costs, resuming the waiting checks never raises stamina |
| `Fighters.Agent.ClearTriggerIfNotUsed` | Capstone/Assets/Prefabs/Agents/Agent.cs:412-423 | one resumed check: its trigger is reset, and the cost is charged through `ModifyStamina` exactly when the transition duration is positive |
| `Fighters.Agent.ClearTriggers` | Capstone/Assets/Prefabs/Agents/Agent.cs:412-423 | the checks resumed in start order: the economy becomes `ChargeAll` of the old one and every check's trigger is reset |
| `Fighters.FinishChecks` | Capstone/Assets/Prefabs/Agents/Agent.cs:412-423 | one frame later every waiting trigger is reset and the queue is empty; health and tag untouched |
| `Fighters.Resolve` | Capstone/Assets/Prefabs/Agents/Agent.cs:522-609 | resolving a hit of any tag keeps the defender valid |
| `Fighters.BlockedHitSparesHealth` | Capstone/Assets/Prefabs/Agents/Agent.cs:545-550 | a blocked hit leaves health and deaths alone and costs exactly the damage in stamina, down to 0 |
| `Fighters.HurtboxHitSparesStamina` | Capstone/Assets/Prefabs/Agents/Agent.cs:535-544 | a hurtbox hit leaves the stamina economy alone |
| `Fighters.SuccessfulCounterSparesHealth` | Capstone/Assets/Prefabs/Agents/Agent.cs:551-555 | a successful counter costs no health and leaves at least the stamina the 20-point charge left |
| `Fighters.CounterPunchNeverCosts` | Capstone/Assets/Prefabs/Agents/Agent.cs:594-597 | throwing "Counter" at cost -40 never lowers stamina |
| `Fighters.FailedCounterCostsBoth` | Capstone/Assets/Prefabs/Agents/Agent.cs:551-608 | a failed counter costs 20 stamina and the damage in health |
| `Fighters.OtherTagsIgnored` | Capstone/Assets/Prefabs/Agents/Agent.cs:535-556 | a collider with any other tag leaves the defender unchanged |
| `Fighters.DeathRepeatsOnEveryHit` | Capstone/Assets/Prefabs/Agents/Agent.cs:191-211 | at 0 health every hurtbox hit calls OnDeath once more |
| `Fighters.Agent.constructor` | Capstone/Assets/Prefabs/Agents/Agent.cs:60-65 | health and stamina start full, no coroutine runs, nothing pending; the "Hurtbox" tag is the prefab's, assumed |
| `Fighters.Agent.StartRegen` | Capstone/Assets/Prefabs/Agents/Agent.cs:232 | the economy becomes `Stamina.Launch` of the old one |
| `Fighters.Agent.ModifyStamina` | Capstone/Assets/Prefabs/Agents/Agent.cs:213-234 | the economy becomes `Stamina.Modify` of the old one, and validity is kept |
| `Fighters.Agent.RampPass` | Capstone/Assets/Prefabs/Agents/Agent.cs:256-277 | the economy becomes `Stamina.RampStep` of the old one |
| `Fighters.Agent.ResumeRegen` | Capstone/Assets/Prefabs/Agents/Agent.cs:236-278 | the economy becomes `Stamina.Resume` of the old one |
| `Fighters.Agent.TakeHealthDamage` | Capstone/Assets/Prefabs/Agents/Agent.cs:191-211 | the fighter becomes `Hurt` of the old one |
| `Fighters.Agent.ThrowPunch` | Capstone/Assets/Prefabs/Agents/Agent.cs:369-410 | the fighter becomes `Punch` of the old one; the combo log gains the punch, plus FinalizeCombo only from Idle |
| `Fighters.Agent.ResumeTriggerChecks` | Capstone/Assets/Prefabs/Agents/Agent.cs:412-423 | the fighter becomes `FinishChecks` of the old one |
| `Fighters.Agent.HandleBlocking` | Capstone/Assets/Prefabs/Agents/Agent.cs:425-450 | the economy becomes `Stamina.SetBlocking` of the old one |
| `Fighters.Agent.Update` | Capstone/Assets/Prefabs/Agents/Agent.cs:81-93 | the hurtbox tag becomes `TagAfterUpdate` of the old tag |
| `Fighters.Agent.StartCounter` | Capstone/Assets/Prefabs/Agents/Agent.cs:499-503 | blocking is off and the tag is "Counter", with no regeneration started |
| `Fighters.Agent.StopCounter` | Capstone/Assets/Prefabs/Agents/Agent.cs:505-508 | the tag is "Hurtbox" |
| `Fighters.Agent.EnableHitbox` | Capstone/Assets/Prefabs/Agents/Agent.cs:475-485 | the strike colliders become `Switched(old, name, true)` |
| `Fighters.Agent.DisableHitbox` | Capstone/Assets/Prefabs/Agents/Agent.cs:487-497 | the strike colliders become `Switched(old, name, false)` |
| `Fighters.Agent.HandleCounter` | Capstone/Assets/Prefabs/Agents/Agent.cs:562-609 | success: the defender becomes `Punch(…, "Counter", -40)` and one slowdown starts; failure: the defender becomes `Hurt` with the hit's damage |
| `Fighters.Agent.ResolveHit` | Capstone/Assets/Prefabs/Agents/Agent.cs:535-556 | the defender becomes `Resolve`; only a hurtbox hit adds the damage to the attacker's stats; a slowdown only on a successful counter |
| `Fighters.Agent.OnTriggerStay` | Capstone/Assets/Prefabs/Agents/Agent.cs:522-560 | no defender: nothing; a missing left collider faults before any effect; otherwise the hit is resolved, both colliders are disabled, and a missing right collider faults |
| `LegacyPlayer.Refill` | Capstone/Assets/Prefabs/Player/PlayerController.cs:119-126 | one refill step adds 0.1 below max, and at max the coroutine ends |
| `LegacyPlayer.StepRegen` | Capstone/Assets/Prefabs/Player/PlayerController.cs:110-127 | one frame of one coroutine adds at most 0.1, and only below max; a coroutine continues unless it finished at max; before its 2 s are up it only waits on, leaving stamina and the flag alone |
| `LegacyPlayer.WaitingLeavesStamina` | Capstone/Assets/Prefabs/Player/PlayerController.cs:114 | a frame in which every running coroutine is still within its 2 s wait changes neither stamina nor the flag, and all of them keep running |
| `LegacyPlayer.ResumeAllBounds` | Capstone/Assets/Prefabs/Player/PlayerController.cs:110-127 | k coroutines in a frame add at most 0.1·k and never lower stamina, stamina below max + 0.1 stays below it, and at most k coroutines are still running |
| `LegacyPlayer.PlayerController.constructor` | Capstone/Assets/Prefabs/Player/PlayerController.cs:12-23 | not blocking, no coroutine, enabled |
| `LegacyPlayer.PlayerController.Start` | Capstone/Assets/Prefabs/Player/PlayerController.cs:27-31 | health and stamina become 100 |
| `LegacyPlayer.PlayerController.StartBlocking` | Capstone/Assets/Prefabs/Player/PlayerController.cs:70-81 | blocking with the large indicator only when stamina is positive; no regeneration is stopped |
| `LegacyPlayer.PlayerController.StopBlocking` | Capstone/Assets/Prefabs/Player/PlayerController.cs:83-90 | not blocking, both indicators hidden, one more regeneration running |
| `LegacyPlayer.PlayerController.TakeHealthDamage` | Capstone/Assets/Prefabs/Player/PlayerController.cs:92-99 | health drops by the damage with no clamp, and the object is destroyed once health is 0 or less |
| `LegacyPlayer.PlayerController.TakeStaminaDamage` | Capstone/Assets/Prefabs/Player/PlayerController.cs:101-108 | stamina drops by the damage; at 0 or less blocking stops and a regeneration starts |
| `LegacyPlayer.PlayerController.ResumeRegens` | Capstone/Assets/Prefabs/Player/PlayerController.cs:110-127 | the frame equals `ResumeAll` over the running coroutines |
| `LegacyPlayer.TwoReleasesTwoRegens` | Capstone/Assets/Prefabs/Player/PlayerController.cs:72-89 | after two releases, two coroutines refill in the same frame: stamina always rises, and by exactly 0.2 when it was more than 0.1 below max |
| `MatchRules.RoundWinner` | Capstone/Assets/Prefabs/Managers/UI/RoundTimer.cs:71-75 | the winner is 1 or 2; it is 1 iff player 1 dealt more damage, so a tie goes to 2 |
| `MatchRules.MatchOutcome` | Capstone/Assets/Prefabs/Managers/UI/RoundTimer.cs:109-123 | a win iff player 1 has more rounds, a loss iff player 2 has more, nothing iff level |
| `MatchRules.MatchOutcomeSymmetric` | Capstone/Assets/Prefabs/Managers/UI/RoundTimer.cs:109-123 | swapping the players flips the outcome |
| `MatchRules.LegacyTimerTextReadsBack` | Capstone/Assets/Prefabs/Managers/RoundTimer.cs:47-52 | below 100 minutes the text is "mm:ss", and it reads back to the whole seconds left with ss < 60 |
| `MatchRules.MinutesBelow100` | Capstone/Assets/Prefabs/Managers/RoundTimer.cs:49 | under 6000 s the minutes fit two digits |
| `MatchRules.TimerTextAgreesOffZero` | Capstone/Assets/Prefabs/Managers/UI/RoundTimer.cs:50-62 | whenever the UI timer does not show "00:00", it shows what the earlier one shows, and the seconds are positive |
| `MatchRules.TimerTextAtEnd` | Capstone/Assets/Prefabs/Managers/UI/RoundTimer.cs:54-57 | at or just below zero the UI timer shows "00:00" |
| `MatchRules.TimerTextZeroAtWholeMinute` | Capstone/Assets/Prefabs/Managers/UI/RoundTimer.cs:53-57 | within the first second of each whole minute the UI timer shows "00:00" although minutes remain |
| `MatchRules.LegacyTimerTextJustBelowZero` | Capstone/Assets/Prefabs/Managers/RoundTimer.cs:49-51 | in the last second below zero the earlier timer shows "-01:-01" |
| `MatchRules.SkipPromptContents` | Capstone/Assets/Prefabs/Managers/UI/InterimManager.cs:210-222 | the prompt starts with "Player 1 Ready" iff player 1 is ready, is just the two ready lines iff both are, and ends with the skip hint iff not both |
| `MatchRules.SplitKey` | Capstone/Assets/Prefabs/Managers/UI/InterimManager.cs:144 | splitting on " -> " always gives at least one part |
| `MatchRules.JoinSplitKey` | Capstone/Assets/Prefabs/Managers/UI/InterimManager.cs:144 | joining the parts with " -> " gives back the key |
| `MatchRules.SplitJoinKey` | Capstone/Assets/Prefabs/Managers/UI/InterimManager.cs:144 | splitting a join of space-free punch names gives back the names |
| `MatchRules.SplitSpaceFree` | Capstone/Assets/Prefabs/Managers/UI/InterimManager.cs:144 | a space-free name splits to itself |
| `MatchRules.SplitAfterSeparator` | Capstone/Assets/Prefabs/Managers/UI/InterimManager.cs:144 | a leading " -> " yields an empty first part |
| `MatchRules.SplitShort` | Capstone/Assets/Prefabs/Managers/UI/InterimManager.cs:144 | text shorter than the separator splits to itself |
| `MatchRules.SplitPrefix` | Capstone/Assets/Prefabs/Managers/UI/InterimManager.cs:144 | a space-free prefix joins the first part of what follows |
| `MatchRules.JoinHead` | Capstone/Assets/Prefabs/Managers/UI/InterimManager.cs:144 | a character in front of the first part is in front of the whole join |
| `MatchRules.SpriteTable` | Capstone/Assets/Prefabs/Managers/UI/InterimManager.cs:66-73 | Left_Hook→A, Right_Hook→B, Jab→X, Straight→Y, each as an iff; nothing else has an icon |
| `MatchRules.KnownIcons` | Capstone/Assets/Prefabs/Managers/UI/InterimManager.cs:146-161 | unknown punches are skipped, so there are never more icons than punches |
| `MatchRules.AllKnownAllShown` | Capstone/Assets/Prefabs/Managers/UI/InterimManager.cs:146-161 | when every punch has an icon, each is shown, in order |
| `MatchFlow.GameManager.constructor` | Capstone/Assets/Prefabs/Managers/GameManager.cs:6-26 | no rounds won and no game-over yet |
| `MatchFlow.GameManager.HandleGameOver` | Capstone/Assets/Prefabs/Managers/GameManager.cs:28-40 | the game-over (win or lose) is recorded |
| `MatchFlow.RoundTimerManager.constructor` | Capstone/Assets/Prefabs/Managers/UI/RoundTimer.cs:5-15 | the timer starts stopped with no interim connected |
| `MatchFlow.RoundTimerManager.Connect` | Capstone/Assets/Prefabs/Managers/UI/RoundTimer.cs:17-21 | the interim screen is connected |
| `MatchFlow.RoundTimerManager.StartRoundTimer` | Capstone/Assets/Prefabs/Managers/UI/RoundTimer.cs:43-48 | the round counter grows by one and the timer is full and running |
| `MatchFlow.RoundTimerManager.UpdateTimerUI` | Capstone/Assets/Prefabs/Managers/UI/RoundTimer.cs:50-62 | the text is `TimerText` of the time left |
| `MatchFlow.RoundTimerManager.EndRound` | Capstone/Assets/Prefabs/Managers/UI/RoundTimer.cs:64-68 | the timer stops and the interim starts, showing the given top combos |
| `MatchFlow.RoundTimerManager.EndRoundDueToTimer` | Capstone/Assets/Prefabs/Managers/UI/RoundTimer.cs:77-107 | the interim starts, the round winner gains a round and is announced, and a game-over follows only when past the final round and not level |
| `MatchFlow.RoundTimerManager.DetermineMatchWinnerByRounds` | Capstone/Assets/Prefabs/Managers/UI/RoundTimer.cs:109-123 | game-over calls follow `GameOverCalls` of the rounds won |
| `MatchFlow.RoundTimerManager.Update` | Capstone/Assets/Prefabs/Managers/UI/RoundTimer.cs:29-41 | stopped: nothing; running: time drops by dt and is shown; at 0 or less the round ends and exactly one player gains a round |
| `MatchFlow.GameOverCalls` | Capstone/Assets/Prefabs/Managers/UI/RoundTimer.cs:109-123 | at most one call; none iff the rounds are level; a win iff player 1 leads |
| `MatchFlow.InterimManager.constructor` | Capstone/Assets/Prefabs/Managers/UI/InterimManager.cs:11-45 | visible exactly as the scene left it, timer 0, nobody ready, no skip subscription |
| `MatchFlow.InterimManager.StartInterim` | Capstone/Assets/Prefabs/Managers/UI/InterimManager.cs:76-120 | shown with UI controls, the damage texts, one combo row per top combo and the skip hint; nobody ready; full timer; one more skip subscription |
| `MatchFlow.InterimManager.ShowRoundWinner` | Capstone/Assets/Prefabs/Managers/UI/InterimManager.cs:173-176 | the message is shown |
| `MatchFlow.InterimManager.UpdateSkipPrompt` | Capstone/Assets/Prefabs/Managers/UI/InterimManager.cs:210-222 | the prompt is `SkipPromptText` of the ready flags |
| `MatchFlow.InterimManager.OnPlayer1Skip` | Capstone/Assets/Prefabs/Managers/UI/InterimManager.cs:191-199 | player 1 is ready; the prompt is refreshed only on the first press |
| `MatchFlow.InterimManager.OnPlayer2Skip` | Capstone/Assets/Prefabs/Managers/UI/InterimManager.cs:201-208 | player 2 is ready; the prompt is refreshed only on the first press |
| `MatchFlow.InterimManager.EndInterim` | Capstone/Assets/Prefabs/Managers/UI/InterimManager.cs:224-242 | hidden, gameplay controls, stats reset, one subscription fewer, and the next round started |
| `MatchFlow.InterimManager.Update` | Capstone/Assets/Prefabs/Managers/UI/InterimManager.cs:178-189 | hidden: nothing; shown: the timer drops by dt and the fill follows it; the interim ends iff both are ready or the time is up, and only then does a round start |
| `MatchFlow.InterimManager.ShowCombos` | Capstone/Assets/Prefabs/Managers/UI/InterimManager.cs:107-111 | each player's panel holds one row per top combo, in order |
| `MatchRules.KnownIconsAppend` | Capstone/Assets/Prefabs/Managers/UI/InterimManager.cs:146-161 | the icons of two runs of pieces are those of each, in order |
| `MatchRules.KnownIconsSnoc` | Capstone/Assets/Prefabs/Managers/UI/InterimManager.cs:146-161 | one more piece appends its icon, or nothing when it has none |
| `MatchFlow.IconsFor` | Capstone/Assets/Prefabs/Managers/UI/InterimManager.cs:144-161 | the forward loop over the split pieces yields the icons of the known punches of the key, in order |
| `MatchFlow.DisplayCombosWithIcons` | Capstone/Assets/Prefabs/Managers/UI/InterimManager.cs:123-170 | one row per top combo, in order, each with its icons and " (xN)" |
| `LegacyMatchFlow.RoundTimerManager.constructor` | Capstone/Assets/Prefabs/Managers/RoundTimer.cs:5-14 | the timer starts stopped with no interim connected |
| `LegacyMatchFlow.RoundTimerManager.Connect` | Capstone/Assets/Prefabs/Managers/RoundTimer.cs:16-19 | the interim screen is connected |
| `LegacyMatchFlow.RoundTimerManager.StartRoundTimer` | Capstone/Assets/Prefabs/Managers/RoundTimer.cs:41-45 | the timer is full and running |
| `LegacyMatchFlow.RoundTimerManager.UpdateTimerUI` | Capstone/Assets/Prefabs/Managers/RoundTimer.cs:47-52 | the text is `LegacyTimerText` of the time left |
| `LegacyMatchFlow.RoundTimerManager.EndRound` | Capstone/Assets/Prefabs/Managers/RoundTimer.cs:54-58 | the timer stops and the interim starts with both controllers disabled and the stats shown |
| `LegacyMatchFlow.RoundTimerManager.Update` | Capstone/Assets/Prefabs/Managers/RoundTimer.cs:27-39 | stopped: nothing; running: time drops by dt and is shown; at 0 or less the interim starts |
| `LegacyMatchFlow.InterimManager.constructor` | Capstone/Assets/Prefabs/Managers/InterimManager.cs:8-27 | the references are as configured and nobody is ready |
| `LegacyMatchFlow.InterimManager.Start` | Capstone/Assets/Prefabs/Managers/InterimManager.cs:40-43 | the screen is hidden |
| `LegacyMatchFlow.InterimManager.StartInterim` | Capstone/Assets/Prefabs/Managers/InterimManager.cs:45-59 | both controllers disabled, shown, "Damage: d\nCombos: c" for each player, nobody ready, full timer |
| `LegacyMatchFlow.InterimManager.EndInterim` | Capstone/Assets/Prefabs/Managers/InterimManager.cs:77-91 | hidden, both stats reset, both controllers enabled, the next round started |
| `LegacyMatchFlow.InterimManager.Update` | Capstone/Assets/Prefabs/Managers/InterimManager.cs:61-75 | hidden: nothing; shown: the timer drops by dt, a press marks that player ready, and the interim ends iff both are ready or the time is up |

## Left out

- Inverse kinematics (`OnAnimatorIK`, `ApplyIK`, `ResetIK`), movement and wall checks (`Move`), `RotateToMidpoint`, and the `Midpoint` component are left out. They are transform and physics work; the punch target is kept only as which point is aimed at.
- Audio, particles, health and stamina bars (`UpdateUI`), menus, options and the start screen are left out. They are presentation only.
- `CounterSlowdownEffect` is left out. It changes the time scale and music; the model only counts how often it is started (`slowdowns`).
- `GameManager` singleton handling, `HandleGameOver`'s UI and time scale, and `ResetScene` are left out. Scene loading and UI are not modelled; a game-over is recorded as its win flag.
- The combo tracker and `GetTopCombos` are left out. `Agents/PlayerStats.cs` declares no `AddPunchToCombo`, `FinalizeCombo` or `GetTopCombos`; `ThrowPunch`'s calls to them are logged, and the top combos are inputs of the interim screen.
- Input glue is left out: `PlayerInput` callbacks, `Agents/Player/PlayerController.cs`, the enemy's `Invoke` schedule, and the input-subscription dispatch (kept as a subscription count). The model takes the resulting calls as its inputs.
- `EnableUIControls` and `EnableGameplayControls` are left out. Their bodies are not part of this model; only which of them was called last is kept (`uiControls`).
- `Player/Hitbox.cs` is left out. It calls `OnHitboxTrigger`, which the earlier player controller does not define.
- The animator's internals are left out: state machine, transitions, `Rebind`/`Play`. The current state name, tag, normalized time, in-transition flag and transition duration are parameters.
- Hash collisions of `Animator.StringToHash` are left out. Names are compared directly.
- Frame scheduling is left out: the order in which Unity resumes coroutines and calls `Update`, and the order in which colliders report contacts. A caller advances each coroutine kind once per frame, in the order it chooses.
- Waits (`WaitForSeconds`, the regeneration delay) are approximated by summing the frame times given.
- Null references are kept only where a branch tests them: the defender lookup, the strike colliders in `OnTriggerStay`, `Hitbox` colliders and parry agent. Every other component reference is assumed present. This covers `GetComponent` results, `HandleCounter`'s own root and animator checks (the defender is taken to be the opponent found on the root), the interim screen behind the round timer (required non-null), and the punch-target component and its transforms in `SetPunchTarget` (reduced to whether an opponent exists).
- `Rigidbody` repositioning at the start of the interim screen is left out. It is physics placement.
- Single-precision rounding is left out. Floats are exact reals; `50 * dt` per frame and `+= 0.1` are exact sums.
- `Stats.PlayerStats.AddDamage`: does not model 32-bit wrap-around of the C# `int` totals, because the totals are unbounded integers.
- `Stats.PlayerStats.AddCombo`: does not model 32-bit wrap-around of the C# `int` total, for the same reason.
- `MatchFlow.InterimManager.Update`: the timer fill is stated only when the interim duration is nonzero, since C# float division by zero gives an infinity or NaN that the model does not represent.
- `isRegeneratingStamina` in `Agents/Agent.cs` is left out. It is written but never read there; the phase and the handle carry the same information.
- The starting value of `GameManager.currentRound` is a constructor parameter. `Managers/GameManager.cs` declares no `currentRound`, so its initial value is not given anywhere.
- Scene set-up is a parameter or a stated assumption. Nothing in `Managers/UI/InterimManager.cs` hides `interimUI`, so whether the screen starts visible is the constructor's `uiActive`. The `Agent` constructor gives the hurtbox the "Hurtbox" tag, which `Agents/Agent.cs` never sets in `Awake` or `Start`: the model assumes the prefab ships with that tag.
