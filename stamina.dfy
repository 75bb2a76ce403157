/**
 * The stamina economy of Agents/Agent.cs as a value-level state machine:
 * ModifyStamina's clamp-and-restart rule, the RegenerateStamina coroutine
 * (a delay phase, then a ramp phase) resumed once per frame, and the
 * regeneration part of HandleBlocking.
 *
 * A coroutine is represented by its phase. Starting one runs its body up to
 * the first `yield`, as StartCoroutine does, and the handle it returns is
 * stored afterwards even when the body already ended there; `handle`
 * records whether staminaRegenCoroutine is non-null.
 */
module Stamina {
  import opened UnityMath

  /** RegenerateStamina's default waitTime, in seconds. */
  const RegenDelay: real := 2.0
  /** Stamina regained per second during the ramp. */
  const RegenRate: real := 50.0

  /** Where the single regeneration coroutine is: none, waiting (with its timer), or ramping. */
  datatype RegenPhase = NoRegen | Delay(timer: real) | Ramp

  /**
   * The stamina-related state of one agent: the stamina value, the animator's
   * "isBlocking" flag, the regeneration coroutine, whether its handle is
   * non-null, and the fill of the delay bar.
   */
  datatype Economy = Economy(stamina: real, blocking: bool, regen: RegenPhase, handle: bool, delayBar: real)

  /**
   * The invariant every operation keeps: stamina within [0, max]; a running
   * coroutine always has its handle; the delay bar shows timer / 2 while
   * waiting and 0 otherwise.
   */
  predicate Valid(e: Economy, max: real) {
    && 0.0 <= max
    && 0.0 <= e.stamina <= max
    && (e.regen != NoRegen ==> e.handle)
    && (e.regen.Delay? ==> e.regen.timer >= 0.0 && e.delayBar == Clamp01(e.regen.timer / RegenDelay))
    && (!e.regen.Delay? ==> e.delayBar == 0.0)
  }

  /**
   * StartCoroutine(RegenerateStamina()) assigned to staminaRegenCoroutine:
   * the body runs to its first yield. While blocking it ends at once, so
   * no coroutine runs, yet the returned handle is still stored.
   */
  function Launch(e: Economy, dt: real): (r: Economy)
    ensures r.handle && r.stamina == e.stamina && r.blocking == e.blocking
    ensures e.blocking ==> r.regen == NoRegen && r.delayBar == 0.0
    ensures !e.blocking ==> r.regen == Delay(dt) && r.delayBar == Clamp01(dt / RegenDelay)
  {
    if e.blocking then e.(regen := NoRegen, handle := true, delayBar := 0.0)
    else e.(regen := Delay(dt), handle := true, delayBar := Clamp01(dt / RegenDelay))
  }

  /**
   * ModifyStamina(amount): add and clamp to [0, max]; reaching 0 forces
   * blocking off; a negative amount that leaves stamina below max replaces
   * whatever regeneration was running by a fresh one. Any other call leaves
   * the regeneration alone.
   */
  function Modify(e: Economy, amount: real, max: real, dt: real): (r: Economy)
    requires 0.0 <= max
    ensures 0.0 <= r.stamina <= max
    ensures r.stamina == Clamp(e.stamina + amount, 0.0, max)
    ensures r.blocking == (e.blocking && r.stamina > 0.0)
    ensures amount < 0.0 && r.stamina < max ==>
      r.handle && r.regen == (if r.blocking then NoRegen else Delay(dt))
    ensures !(amount < 0.0 && r.stamina < max) ==>
      r.regen == e.regen && r.handle == e.handle && r.delayBar == e.delayBar
    ensures Valid(e, max) && dt >= 0.0 ==> Valid(r, max)
  {
    var s := Clamp(e.stamina + amount, 0.0, max);
    var e1 := e.(stamina := s, blocking := if s <= 0.0 then false else e.blocking);
    if amount < 0.0 && s < max then Launch(e1, dt) else e1
  }

  /**
   * One pass of the ramp loop: while stamina is below max, blocking aborts
   * the coroutine and otherwise ModifyStamina(50 * dt) is applied; at max
   * the coroutine finishes. Abort and finish both clear the handle.
   */
  function RampStep(e: Economy, max: real, dt: real): (r: Economy)
    requires Valid(e, max) && e.regen == Ramp && dt >= 0.0
    ensures Valid(r, max)
    ensures e.stamina < max && !e.blocking ==>
      r.regen == Ramp && r.stamina == MinReal(e.stamina + RegenRate * dt, max) && !r.blocking
    ensures e.stamina >= max || e.blocking ==> r == e.(regen := NoRegen, handle := false)
  {
    if e.stamina < max then
      if e.blocking then e.(regen := NoRegen, handle := false)
      else
        var m := Modify(e, RegenRate * dt, max, dt);
        m.(stamina := MinReal(m.stamina, max))
    else e.(regen := NoRegen, handle := false)
  }

  /**
   * The coroutine resumed at the next frame with that frame's deltaTime.
   * Waiting: blocking aborts (bar back to 0), otherwise the timer advances
   * by dt. Once the timer has reached 2 s the bar resets and the first ramp
   * pass runs in the same frame.
   */
  function Resume(e: Economy, max: real, dt: real): (r: Economy)
    requires Valid(e, max) && dt >= 0.0
    ensures Valid(r, max)
    ensures r.stamina >= e.stamina && r.blocking == e.blocking
    ensures e.regen == NoRegen ==> r == e
    ensures e.blocking && e.regen != NoRegen ==> r.regen == NoRegen && !r.handle && r.stamina == e.stamina
    ensures r.regen == NoRegen && e.regen != NoRegen ==> !r.handle
    ensures !e.blocking && e.regen.Delay? && e.regen.timer < RegenDelay ==>
      r == e.(regen := Delay(e.regen.timer + dt), delayBar := Clamp01((e.regen.timer + dt) / RegenDelay))
    ensures e.regen.Delay? && e.regen.timer >= RegenDelay ==> r == RampStep(e.(regen := Ramp, delayBar := 0.0), max, dt)
  {
    match e.regen
    case NoRegen => e
    case Delay(timer) =>
      if timer < RegenDelay then
        if e.blocking then e.(regen := NoRegen, handle := false, delayBar := 0.0)
        else e.(regen := Delay(timer + dt), delayBar := Clamp01((timer + dt) / RegenDelay))
      else RampStep(e.(regen := Ramp, delayBar := 0.0), max, dt)
    case Ramp => RampStep(e, max, dt)
  }

  /**
   * HandleBlocking(isBlocking): sets the flag. Starting to block stops the
   * coroutine the handle names and clears the handle and the bar. Stopping
   * starts a regeneration only when stamina is below max and the handle is
   * null.
   */
  function SetBlocking(e: Economy, isBlocking: bool, max: real, dt: real): (r: Economy)
    ensures r.blocking == isBlocking && r.stamina == e.stamina
    ensures isBlocking && e.handle ==> r.regen == NoRegen && !r.handle && r.delayBar == 0.0
    ensures isBlocking && !e.handle ==> r == e.(blocking := true)
    ensures !isBlocking && e.stamina < max && !e.handle ==> r.regen == Delay(dt) && r.handle
    ensures !isBlocking && (e.stamina >= max || e.handle) ==> r == e.(blocking := false)
    ensures Valid(e, max) && dt >= 0.0 ==> Valid(r, max)
  {
    var e1 := e.(blocking := isBlocking);
    if isBlocking then
      if e1.handle then e1.(regen := NoRegen, handle := false, delayBar := 0.0) else e1
    else if e1.stamina < max && !e1.handle then Launch(e1, dt)
    else e1
  }

  /** The calls that drive the economy, each with the deltaTime of the frame it happens in. */
  datatype Event = Change(amount: real, dt: real) | Block(on: bool, dt: real) | Tick(dt: real)

  predicate NonNegativeTimes(events: seq<Event>) {
    forall i :: 0 <= i < |events| ==> events[i].dt >= 0.0
  }

  function Apply(e: Economy, ev: Event, max: real): (r: Economy)
    requires Valid(e, max) && ev.dt >= 0.0
    ensures Valid(r, max)
  {
    match ev
    case Change(amount, dt) => Modify(e, amount, max, dt)
    case Block(on, dt) => SetBlocking(e, on, max, dt)
    case Tick(dt) => Resume(e, max, dt)
  }

  /** Any sequence of calls keeps the invariant, in particular 0 <= stamina <= max after every call. */
  function Run(e: Economy, events: seq<Event>, max: real): (r: Economy)
    requires Valid(e, max) && NonNegativeTimes(events)
    ensures Valid(r, max)
    decreases |events|
  {
    if events == [] then e else Run(Apply(e, events[0], max), events[1..], max)
  }

  /** The last state of Run is the state after its last call. */
  lemma {:induction false} RunSnoc(e: Economy, events: seq<Event>, ev: Event, max: real)
    requires Valid(e, max) && NonNegativeTimes(events) && ev.dt >= 0.0
    ensures NonNegativeTimes(events + [ev])
    ensures Run(e, events + [ev], max) == Apply(Run(e, events, max), ev, max)
    decreases |events|
  {
    assert NonNegativeTimes(events + [ev]);
    if events != [] {
      assert (events + [ev])[1..] == events[1..] + [ev];
      RunSnoc(Apply(e, events[0], max), events[1..], ev, max);
    }
  }

  /**
   * Cancel and replace: while not blocking, a negative change that leaves
   * stamina below max discards whatever phase the running regeneration was
   * in and starts a new delay, so only one regeneration ever exists.
   */
  lemma RestartReplaces(e: Economy, amount: real, max: real, dt: real)
    requires Valid(e, max) && amount < 0.0 && dt >= 0.0
    requires Modify(e, amount, max, dt).stamina < max && Modify(e, amount, max, dt).blocking
      == false
    ensures Modify(e, amount, max, dt).regen == Delay(dt)
    ensures Modify(e, amount, max, dt).delayBar == Clamp01(dt / RegenDelay)
  {
  }

  /** Positive amounts, in particular the ramp's own 50 * dt steps, never restart the regeneration. */
  lemma GainNeverRestarts(e: Economy, amount: real, max: real, dt: real)
    requires Valid(e, max) && amount >= 0.0
    ensures Modify(e, amount, max, dt).regen == e.regen
    ensures Modify(e, amount, max, dt).handle == e.handle
  {
  }

  /** Resuming n frames in a row with the same deltaTime. */
  function ResumeN(e: Economy, n: nat, max: real, dt: real): (r: Economy)
    requires Valid(e, max) && dt >= 0.0
    ensures Valid(r, max)
    decreases n
  {
    if n == 0 then e else ResumeN(Resume(e, max, dt), n - 1, max, dt)
  }

  /**
   * Once ramping without blocking, n frames of length dt bring stamina to
   * min(max, stamina + 50 * n * dt); after max is reached the coroutine ends
   * and stamina stays at max.
   */
  lemma {:induction false} RampReachesMax(e: Economy, n: nat, max: real, dt: real)
    requires Valid(e, max) && dt >= 0.0 && !e.blocking
    requires e.regen == Ramp || (e.regen == NoRegen && e.stamina == max)
    ensures ResumeN(e, n, max, dt).stamina == MinReal(max, e.stamina + RegenRate * (n as real) * dt)
  {
    RampReachesMaxBySteps(e, n, max, dt);
    StepsTotal(n, dt);
  }

  /** The stamina gained in n ramp frames of length dt, one frame at a time. */
  function Steps(n: nat, dt: real): real
    decreases n
  {
    if n == 0 then 0.0 else Steps(n - 1, dt) + RegenRate * dt
  }

  lemma {:induction false} StepsTotal(n: nat, dt: real)
    ensures Steps(n, dt) == RegenRate * (n as real) * dt
    decreases n
  {
    if n > 0 {
      StepsTotal(n - 1, dt);
      StepCount(n, dt);
    }
  }

  lemma {:induction false} RampReachesMaxBySteps(e: Economy, n: nat, max: real, dt: real)
    requires Valid(e, max) && dt >= 0.0 && !e.blocking
    requires e.regen == Ramp || (e.regen == NoRegen && e.stamina == max)
    ensures ResumeN(e, n, max, dt).stamina == MinReal(max, e.stamina + Steps(n, dt))
    decreases n
  {
    if n > 0 {
      var e1 := Resume(e, max, dt);
      RampFrame(e, max, dt);
      RampReachesMaxBySteps(e1, n - 1, max, dt);
      StepsNonNegative(n - 1, dt);
      ShiftSteps(n, dt);
      MinAbsorbs(max, e.stamina + RegenRate * dt, Steps(n - 1, dt));
    }
  }

  lemma {:induction false} StepsNonNegative(n: nat, dt: real)
    requires dt >= 0.0
    ensures Steps(n, dt) >= 0.0
    decreases n
  {
    if n > 0 {
      StepsNonNegative(n - 1, dt);
    }
  }

  lemma ShiftSteps(n: nat, dt: real)
    requires n > 0
    ensures Steps(n, dt) == RegenRate * dt + Steps(n - 1, dt)
  {
  }

  /** One frame of the ramp: stamina moves to min(max, stamina + 50 * dt) and the ramp (or its end) persists. */
  lemma RampFrame(e: Economy, max: real, dt: real)
    requires Valid(e, max) && dt >= 0.0 && !e.blocking
    requires e.regen == Ramp || (e.regen == NoRegen && e.stamina == max)
    ensures var e1 := Resume(e, max, dt);
      && e1.stamina == MinReal(max, e.stamina + RegenRate * dt)
      && !e1.blocking
      && (e1.regen == Ramp || (e1.regen == NoRegen && e1.stamina == max))
  {
  }

  lemma StepCount(n: nat, dt: real)
    requires n > 0
    ensures RegenRate * (n as real) * dt == RegenRate * ((n - 1) as real) * dt + RegenRate * dt
  {
  }

  /** min(m, min(m, a) + k) == min(m, a + k) for k >= 0. */
  lemma MinAbsorbs(m: real, a: real, k: real)
    requires k >= 0.0
    ensures MinReal(m, MinReal(m, a) + k) == MinReal(m, a + k)
  {
  }

  /**
   * A consequence of storing the handle of a coroutine that already ended:
   * a hit taken while blocking (ModifyStamina(-damage) on a Block hit) leaves
   * a non-null handle and no regeneration, and releasing the block then
   * starts none, because HandleBlocking(false) only starts one when the
   * handle is null.
   */
  lemma BlockedHitThenReleaseStartsNoRegen(e: Economy, damage: real, max: real, dt: real)
    requires Valid(e, max) && e.blocking && damage > 0.0 && dt >= 0.0
    requires 0.0 < e.stamina - damage
    ensures var hit := Modify(e, -damage, max, dt);
      && hit.regen == NoRegen && hit.handle
      && SetBlocking(hit, false, max, dt).regen == NoRegen
  {
  }

  /**
   * The same with concrete numbers: at 100 of 100, blocking, three Block hits
   * of 10 take stamina to 90, 80, 70, and releasing the block after them
   * leaves stamina at 70 with no regeneration running.
   */
  lemma ThreeBlockedHitsScenario(dt: real)
    requires dt >= 0.0
    ensures var start := Economy(100.0, false, NoRegen, false, 0.0);
      var blocked := SetBlocking(start, true, 100.0, dt);
      var h1 := Modify(blocked, -10.0, 100.0, dt);
      var h2 := Modify(h1, -10.0, 100.0, dt);
      var h3 := Modify(h2, -10.0, 100.0, dt);
      var released := SetBlocking(h3, false, 100.0, dt);
      && h1.stamina == 90.0 && h2.stamina == 80.0 && h3.stamina == 70.0
      && released.stamina == 70.0 && released.regen == NoRegen
      && ResumeN(released, 100, 100.0, dt).stamina == 70.0
  {
    var start := Economy(100.0, false, NoRegen, false, 0.0);
    var released := SetBlocking(Modify(Modify(Modify(SetBlocking(start, true, 100.0, dt), -10.0, 100.0, dt), -10.0, 100.0, dt), -10.0, 100.0, dt), false, 100.0, dt);
    IdleStaysPut(released, 100, 100.0, dt);
  }

  /** With no coroutine running, resuming frames changes nothing. */
  lemma {:induction false} IdleStaysPut(e: Economy, n: nat, max: real, dt: real)
    requires Valid(e, max) && dt >= 0.0 && e.regen == NoRegen
    ensures ResumeN(e, n, max, dt) == e
    decreases n
  {
    if n > 0 {
      IdleStaysPut(Resume(e, max, dt), n - 1, max, dt);
    }
  }

  /** The time n frames of length dt add up to, the first frame first. */
  function Elapsed(n: nat, dt: real): real
    decreases n
  {
    if n == 0 then 0.0 else dt + Elapsed(n - 1, dt)
  }

  lemma {:induction false} ElapsedIsProduct(n: nat, dt: real)
    ensures Elapsed(n, dt) == (n as real) * dt
    decreases n
  {
    if n > 0 {
      ElapsedIsProduct(n - 1, dt);
      assert (n as real) * dt == dt + ((n - 1) as real) * dt;
    }
  }

  lemma {:induction false} ElapsedNonNegative(n: nat, dt: real)
    requires dt >= 0.0
    ensures Elapsed(n, dt) >= 0.0
    decreases n
  {
    if n > 0 {
      ElapsedNonNegative(n - 1, dt);
    }
  }

  /**
   * The wait: while not blocking, frames whose timer is still below 2 s
   * only advance the timer; stamina, the flag and the handle stay put.
   */
  lemma {:induction false} WaitHoldsStamina(e: Economy, n: nat, max: real, dt: real)
    requires Valid(e, max) && dt >= 0.0 && !e.blocking && e.regen.Delay?
    requires n == 0 || e.regen.timer + Elapsed(n - 1, dt) < RegenDelay
    ensures var r := ResumeN(e, n, max, dt);
      && r.stamina == e.stamina && !r.blocking && r.handle == e.handle
      && r.regen == Delay(e.regen.timer + Elapsed(n, dt))
    decreases n
  {
    if n > 0 {
      var t := e.regen.timer;
      ElapsedNonNegative(n - 1, dt);
      var e1 := Resume(e, max, dt);
      assert e1.regen == Delay(t + dt);
      WaitHoldsStamina(e1, n - 1, max, dt);
    }
  }

  /**
   * A regeneration started without blocking leaves stamina untouched for
   * every frame before its timer reaches 2 s: after k more frames whose
   * total time is below 2 s it is still waiting, its timer holding the time
   * of all k + 1 frames (ElapsedIsProduct: (k + 1) * dt).
   */
  lemma LaunchThenWait(e: Economy, k: nat, max: real, dt: real)
    requires Valid(e, max) && dt >= 0.0 && !e.blocking && Elapsed(k, dt) < RegenDelay
    ensures Valid(Launch(e, dt), max)
    ensures var r := ResumeN(Launch(e, dt), k, max, dt);
      r.stamina == e.stamina && r.regen == Delay(Elapsed(k + 1, dt))
  {
    var l := Launch(e, dt);
    assert l.regen == Delay(dt);
    WaitHoldsStamina(l, k, max, dt);
  }

  /** The first frame whose timer has reached 2 s clears the bar and runs the first ramp pass at once. */
  lemma WaitEndsInRamp(e: Economy, max: real, dt: real)
    requires Valid(e, max) && dt >= 0.0 && !e.blocking && e.regen.Delay? && e.regen.timer >= RegenDelay
    requires e.stamina < max
    ensures var r := Resume(e, max, dt);
      r.regen == Ramp && r.delayBar == 0.0 && r.stamina == MinReal(e.stamina + RegenRate * dt, max)
  {
  }

  /** After a release that does start a regeneration, blocking again before it ramps aborts it. */
  lemma BlockAbortsDelay(e: Economy, max: real, dt: real)
    requires Valid(e, max) && e.regen.Delay? && dt >= 0.0
    ensures var r := Resume(SetBlocking(e, true, max, dt), max, dt);
      r.regen == NoRegen && !r.handle && r.delayBar == 0.0 && r.stamina == e.stamina
  {
  }
}
