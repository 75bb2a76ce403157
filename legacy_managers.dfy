/**
 * The earlier round flow in Managers/RoundTimer.cs and
 * Managers/InterimManager.cs: a countdown that starts the interim when it
 * runs out, and an interim screen that disables both player controllers,
 * shows each player's damage and combos, and starts the next round when
 * both players press Start or its own countdown runs out. There are no
 * round counters and no winner here.
 */
module LegacyMatchFlow {
  import opened Format
  import opened MatchRules
  import Stats
  import LegacyPlayer

  class RoundTimerManager {
    const roundDuration: real
    var currentTime: real
    var timerText: string
    var timerActive: bool
    var interim: InterimManager?

    constructor (roundDuration: real)
      ensures this.roundDuration == roundDuration && !timerActive && interim == null && timerText == ""
    {
      this.roundDuration := roundDuration;
      currentTime := 0.0;
      timerText := "";
      timerActive := false;
      interim := null;
    }

    /** Awake: the InterimManager next to this component. */
    method Connect(interim: InterimManager)
      modifies this`interim
      ensures this.interim == interim
    {
      this.interim := interim;
    }

    method StartRoundTimer()
      modifies this`currentTime, this`timerActive
      ensures currentTime == roundDuration && timerActive
    {
      currentTime := roundDuration;
      timerActive := true;
    }

    /** UpdateTimerUI: mm:ss with no special case, so the last frame can show a negative clock. */
    method UpdateTimerUI()
      modifies this`timerText
      ensures timerText == LegacyTimerText(currentTime)
    {
      var minutes := MinutesOf(currentTime);
      var seconds := SecondsOf(currentTime);
      timerText := TwoDigits(minutes) + ":" + TwoDigits(seconds);
    }

    /** EndRound: the timer stops, so the interim is started once per round. */
    method EndRound()
      requires interim != null
      modifies this`timerActive, interim`active, interim`player1Ready, interim`player2Ready, interim`timer
      modifies interim`player1StatsText, interim`player2StatsText
      modifies interim.player1Controller`enabled, interim.player2Controller`enabled
      ensures !timerActive
      ensures interim.active && !interim.player1Ready && !interim.player2Ready && interim.timer == interim.interimDuration
      ensures !interim.player1Controller.enabled && !interim.player2Controller.enabled
      ensures interim.StatsShown()
    {
      timerActive := false;
      interim.StartInterim();
    }

    /**
     * Update in a frame of length dt: a stopped timer changes nothing; a
     * running one loses dt, refreshes the clock, and at 0 or less ends the
     * round.
     */
    method Update(dt: real)
      requires interim != null
      modifies this`currentTime, this`timerText
      modifies this`timerActive, interim`active, interim`player1Ready, interim`player2Ready, interim`timer
      modifies interim`player1StatsText, interim`player2StatsText
      modifies interim.player1Controller`enabled, interim.player2Controller`enabled
      ensures !old(timerActive) ==>
        && currentTime == old(currentTime) && timerText == old(timerText) && !timerActive
        && interim.active == old(interim.active) && interim.timer == old(interim.timer)
      ensures old(timerActive) ==> currentTime == old(currentTime) - dt && timerText == LegacyTimerText(currentTime)
      ensures old(timerActive) && currentTime > 0.0 ==> timerActive && interim.active == old(interim.active)
      ensures old(timerActive) && currentTime <= 0.0 ==>
        && !timerActive && interim.active && interim.timer == interim.interimDuration
        && !interim.player1Controller.enabled && !interim.player2Controller.enabled
    {
      if timerActive {
        currentTime := currentTime - dt;
        UpdateTimerUI();
        if currentTime <= 0.0 {
          EndRound();
        }
      }
    }
  }

  class InterimManager {
    const interimDuration: real
    /** interimUI.activeSelf */
    var active: bool
    var timer: real
    var player1Ready: bool
    var player2Ready: bool
    var player1StatsText: string
    var player2StatsText: string
    const player1Stats: Stats.PlayerStats
    const player2Stats: Stats.PlayerStats
    const player1Controller: LegacyPlayer.PlayerController
    const player2Controller: LegacyPlayer.PlayerController
    const roundTimer: RoundTimerManager

    constructor (interimDuration: real, player1Stats: Stats.PlayerStats, player2Stats: Stats.PlayerStats,
                 player1Controller: LegacyPlayer.PlayerController, player2Controller: LegacyPlayer.PlayerController,
                 roundTimer: RoundTimerManager, uiActive: bool)
      ensures this.interimDuration == interimDuration && this.roundTimer == roundTimer
      ensures this.player1Stats == player1Stats && this.player2Stats == player2Stats
      ensures this.player1Controller == player1Controller && this.player2Controller == player2Controller
      ensures active == uiActive && !player1Ready && !player2Ready
    {
      this.interimDuration := interimDuration;
      this.player1Stats := player1Stats;
      this.player2Stats := player2Stats;
      this.player1Controller := player1Controller;
      this.player2Controller := player2Controller;
      this.roundTimer := roundTimer;
      active := uiActive;
      timer := 0.0;
      player1Ready := false;
      player2Ready := false;
      player1StatsText := "";
      player2StatsText := "";
    }

    /** Start: the interim screen starts hidden. */
    method Start()
      modifies this`active
      ensures !active
    {
      active := false;
    }

    /** The stats text StartInterim writes for one player. */
    static function StatsText(damage: int, combos: int): string {
      "Damage: " + IntToString(damage) + "\nCombos: " + IntToString(combos)
    }

    predicate StatsShown()
      reads this, player1Stats, player2Stats
    {
      && player1StatsText == StatsText(player1Stats.totalDamageDealt, player1Stats.totalCombos)
      && player2StatsText == StatsText(player2Stats.totalDamageDealt, player2Stats.totalCombos)
    }

    method StartInterim()
      modifies this`active, this`player1Ready, this`player2Ready, this`timer, this`player1StatsText, this`player2StatsText
      modifies player1Controller`enabled, player2Controller`enabled
      ensures active && !player1Ready && !player2Ready && timer == interimDuration
      ensures !player1Controller.enabled && !player2Controller.enabled
      ensures StatsShown()
    {
      player1Controller.enabled := false;
      player2Controller.enabled := false;
      active := true;
      player1StatsText := StatsText(player1Stats.totalDamageDealt, player1Stats.totalCombos);
      player2StatsText := StatsText(player2Stats.totalDamageDealt, player2Stats.totalCombos);
      player1Ready := false;
      player2Ready := false;
      timer := interimDuration;
    }

    /** EndInterim: the screen hides, both stats reset, both controllers are enabled again and the next round starts. */
    method EndInterim()
      modifies this`active, player1Stats, player2Stats, player1Controller`enabled, player2Controller`enabled
      modifies roundTimer`currentTime, roundTimer`timerActive
      ensures !active
      ensures player1Stats.totalDamageDealt == 0 && player1Stats.totalCombos == 0
      ensures player2Stats.totalDamageDealt == 0 && player2Stats.totalCombos == 0
      ensures player1Controller.enabled && player2Controller.enabled
      ensures roundTimer.timerActive && roundTimer.currentTime == roundTimer.roundDuration
    {
      active := false;
      player1Stats.ResetStats();
      player2Stats.ResetStats();
      player1Controller.enabled := true;
      player2Controller.enabled := true;
      roundTimer.StartRoundTimer();
    }

    /**
     * Update in a frame of length dt, with whether each player's Start
     * button went down this frame: nothing while hidden; otherwise the
     * countdown loses dt, a press marks that player ready, and the interim
     * ends iff both are ready or the time is up.
     */
    method Update(dt: real, player1Pressed: bool, player2Pressed: bool)
      modifies this`timer, this`player1Ready, this`player2Ready
      modifies this`active, player1Stats, player2Stats, player1Controller`enabled, player2Controller`enabled
      modifies roundTimer`currentTime, roundTimer`timerActive
      ensures !old(active) ==>
        && !active && timer == old(timer) && player1Ready == old(player1Ready) && player2Ready == old(player2Ready)
        && roundTimer.timerActive == old(roundTimer.timerActive)
      ensures old(active) ==>
        && timer == old(timer) - dt
        && player1Ready == (old(player1Ready) || player1Pressed)
        && player2Ready == (old(player2Ready) || player2Pressed)
        && (!active <==> (player1Ready && player2Ready) || timer <= 0.0)
      ensures old(active) && !active ==>
        && roundTimer.timerActive && player1Controller.enabled && player2Controller.enabled
        && player1Stats.totalDamageDealt == 0 && player2Stats.totalDamageDealt == 0
    {
      if !active {
        return;
      }
      timer := timer - dt;
      if player1Pressed {
        player1Ready := true;
      }
      if player2Pressed {
        player2Ready := true;
      }
      if (player1Ready && player2Ready) || timer <= 0.0 {
        EndInterim();
      }
    }
  }
}
