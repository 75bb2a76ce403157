/**
 * The current round flow: Managers/UI/RoundTimer.cs (RoundTimerManager)
 * counts a round down and decides it, Managers/UI/InterimManager.cs runs
 * the pause between rounds and starts the next one. The round counters
 * live on the GameManager; the two managers hold references to each
 * other, as the components GetComponent finds on the same object.
 */
module MatchFlow {
  import opened Wrappers
  import opened UnityMath
  import opened Format
  import opened MatchRules
  import Stats

  /** The match state both managers read and write, and the HandleGameOver calls made (with their win flag). */
  class GameManager {
    var currentRound: int
    const totalRounds: int
    var player1RoundsWon: int
    var player2RoundsWon: int
    var gameOvers: seq<bool>

    constructor (currentRound: int, totalRounds: int)
      ensures this.currentRound == currentRound && this.totalRounds == totalRounds
      ensures player1RoundsWon == 0 && player2RoundsWon == 0 && gameOvers == []
    {
      this.currentRound := currentRound;
      this.totalRounds := totalRounds;
      player1RoundsWon := 0;
      player2RoundsWon := 0;
      gameOvers := [];
    }

    /** HandleGameOver: only the call and its argument are kept; the game-over screen and time scale are not modelled. */
    method HandleGameOver(win: bool)
      modifies this`gameOvers
      ensures gameOvers == old(gameOvers) + [win]
    {
      gameOvers := gameOvers + [win];
    }
  }

  class RoundTimerManager {
    const roundDuration: real
    var currentTime: real
    var timerText: string
    var timerActive: bool
    var interim: InterimManager?
    const game: GameManager

    constructor (roundDuration: real, game: GameManager)
      ensures this.roundDuration == roundDuration && this.game == game
      ensures !timerActive && interim == null && timerText == ""
    {
      this.roundDuration := roundDuration;
      this.game := game;
      currentTime := 0.0;
      timerText := "";
      timerActive := false;
      interim := null;
    }

    /** Awake: the InterimManager next to this component. */
    method Connect(interim: InterimManager)
      modifies this`interim
      ensures this.interim == interim
    {
      this.interim := interim;
    }

    /** StartRoundTimer: the next round begins with the full duration on the clock. */
    method StartRoundTimer()
      modifies this`currentTime, this`timerActive, game`currentRound
      ensures game.currentRound == old(game.currentRound) + 1
      ensures currentTime == roundDuration && timerActive
    {
      game.currentRound := game.currentRound + 1;
      currentTime := roundDuration;
      timerActive := true;
    }

    method UpdateTimerUI()
      modifies this`timerText
      ensures timerText == TimerText(currentTime)
    {
      var minutes := MinutesOf(currentTime);
      var seconds := SecondsOf(currentTime);
      if seconds <= 0 {
        timerText := "00:00";
      } else {
        timerText := TwoDigits(minutes) + ":" + TwoDigits(seconds);
      }
    }

    /** EndRound: the timer stops, so the round ends once, and the interim starts. */
    method EndRound(topCombos1: seq<(string, int)>, topCombos2: seq<(string, int)>)
      requires interim != null
      modifies this`timerActive, interim`active, interim`player1Ready, interim`player2Ready, interim`timer
      modifies interim`skipPromptText, interim`player1StatsText, interim`player2StatsText
      modifies interim`player1Rows, interim`player2Rows, interim`uiControls, interim`skipSubscriptions
      ensures !timerActive
      ensures interim.active && !interim.player1Ready && !interim.player2Ready && interim.timer == interim.interimDuration
      ensures interim.uiControls && interim.skipSubscriptions == old(interim.skipSubscriptions) + 1
      ensures interim.Shows(topCombos1, topCombos2)
    {
      timerActive := false;
      interim.StartInterim(topCombos1, topCombos2);
    }

    /**
     * EndRoundDueToTimer: ends the round, credits it to the winner by
     * damage (ties to player 2; the draw branch cannot be taken), and after
     * the last round asks for the match winner.
     */
    method EndRoundDueToTimer(player1Damage: int, player2Damage: int, topCombos1: seq<(string, int)>, topCombos2: seq<(string, int)>)
      requires interim != null
      modifies this`timerActive, interim`active, interim`player1Ready, interim`player2Ready, interim`timer
      modifies interim`skipPromptText, interim`player1StatsText, interim`player2StatsText
      modifies interim`player1Rows, interim`player2Rows, interim`uiControls, interim`skipSubscriptions
      modifies interim`roundWinnerText, game`player1RoundsWon, game`player2RoundsWon, game`gameOvers
      ensures !timerActive && interim.active && !interim.player1Ready && !interim.player2Ready
      ensures interim.timer == interim.interimDuration && interim.Shows(topCombos1, topCombos2)
      ensures interim.uiControls && interim.skipSubscriptions == old(interim.skipSubscriptions) + 1
      ensures RoundWinner(player1Damage, player2Damage) == 1 ==>
        && game.player1RoundsWon == old(game.player1RoundsWon) + 1 && game.player2RoundsWon == old(game.player2RoundsWon)
        && interim.roundWinnerText == "Player 1 Wins Round!"
      ensures RoundWinner(player1Damage, player2Damage) == 2 ==>
        && game.player2RoundsWon == old(game.player2RoundsWon) + 1 && game.player1RoundsWon == old(game.player1RoundsWon)
        && interim.roundWinnerText == "Player 2 Wins Round!"
      ensures game.gameOvers == old(game.gameOvers) +
        (if game.currentRound > game.totalRounds then GameOverCalls(game.player1RoundsWon, game.player2RoundsWon) else [])
    {
      EndRound(topCombos1, topCombos2);
      var roundWinner := RoundWinner(player1Damage, player2Damage);
      if roundWinner == 1 {
        game.player1RoundsWon := game.player1RoundsWon + 1;
        interim.ShowRoundWinner("Player 1 Wins Round!");
      } else if roundWinner == 2 {
        game.player2RoundsWon := game.player2RoundsWon + 1;
        interim.ShowRoundWinner("Player 2 Wins Round!");
      }
      if game.currentRound > game.totalRounds {
        DetermineMatchWinnerByRounds();
      }
    }

    method DetermineMatchWinnerByRounds()
      modifies game`gameOvers
      ensures game.gameOvers == old(game.gameOvers) + GameOverCalls(game.player1RoundsWon, game.player2RoundsWon)
    {
      if game.player1RoundsWon > game.player2RoundsWon {
        game.HandleGameOver(true);
      } else if game.player2RoundsWon > game.player1RoundsWon {
        game.HandleGameOver(false);
      } else {
        return;
      }
    }

    /**
     * Update in a frame of length dt: while the timer runs it loses dt and
     * the clock text is refreshed; reaching 0 or less ends the round with
     * the damage both players' stats hold. A stopped timer changes nothing.
     */
    method Update(dt: real, topCombos1: seq<(string, int)>, topCombos2: seq<(string, int)>)
      requires interim != null
      modifies this`currentTime, this`timerText
      modifies this`timerActive, interim`active, interim`player1Ready, interim`player2Ready, interim`timer
      modifies interim`skipPromptText, interim`player1StatsText, interim`player2StatsText
      modifies interim`player1Rows, interim`player2Rows, interim`uiControls, interim`skipSubscriptions
      modifies interim`roundWinnerText, game`player1RoundsWon, game`player2RoundsWon, game`gameOvers
      ensures !old(timerActive) ==>
        && currentTime == old(currentTime) && timerText == old(timerText) && !timerActive
        && interim.active == old(interim.active) && interim.timer == old(interim.timer)
        && game.player1RoundsWon == old(game.player1RoundsWon) && game.player2RoundsWon == old(game.player2RoundsWon)
        && game.gameOvers == old(game.gameOvers)
      ensures old(timerActive) ==> currentTime == old(currentTime) - dt && timerText == TimerText(currentTime)
      ensures old(timerActive) && currentTime > 0.0 ==>
        && timerActive && interim.active == old(interim.active)
        && game.player1RoundsWon == old(game.player1RoundsWon) && game.player2RoundsWon == old(game.player2RoundsWon)
      ensures old(timerActive) && currentTime <= 0.0 ==>
        && !timerActive && interim.active && interim.timer == interim.interimDuration
        && !interim.player1Ready && !interim.player2Ready
        && game.player1RoundsWon + game.player2RoundsWon == old(game.player1RoundsWon) + old(game.player2RoundsWon) + 1
        && (game.player1RoundsWon > old(game.player1RoundsWon) <==>
              old(interim.player1Stats.totalDamageDealt) > old(interim.player2Stats.totalDamageDealt))
    {
      if timerActive {
        currentTime := currentTime - dt;
        UpdateTimerUI();
        if currentTime <= 0.0 {
          EndRoundDueToTimer(interim.player1Stats.totalDamageDealt, interim.player2Stats.totalDamageDealt, topCombos1, topCombos2);
        }
      }
    }
  }

  /** The HandleGameOver calls DetermineMatchWinnerByRounds makes: one with the outcome, none on a tie. */
  function GameOverCalls(player1RoundsWon: int, player2RoundsWon: int): (calls: seq<bool>)
    ensures |calls| <= 1
    ensures calls == [] <==> player1RoundsWon == player2RoundsWon
    ensures calls == [true] <==> player1RoundsWon > player2RoundsWon
  {
    match MatchOutcome(player1RoundsWon, player2RoundsWon)
    case None => []
    case Some(w) => [w]
  }

  class InterimManager {
    const interimDuration: real
    /** interimUI.activeSelf */
    var active: bool
    var timer: real
    var player1Ready: bool
    var player2Ready: bool
    var skipPromptText: string
    var player1StatsText: string
    var player2StatsText: string
    var roundWinnerText: string
    /** InterimTimer.fillAmount */
    var timerFill: real
    var player1Rows: seq<ComboRow>
    var player2Rows: seq<ComboRow>
    /** Whether both controllers are switched to UI controls (EnableUIControls) rather than gameplay controls. */
    var uiControls: bool
    /** How many times the skip handlers are subscribed to the players' Skip actions. */
    var skipSubscriptions: nat
    const player1Stats: Stats.PlayerStats
    const player2Stats: Stats.PlayerStats
    const roundTimer: RoundTimerManager

    /**
     * The component as the scene sets it up: interimUI is visible or not as
     * the scene left it (nothing here hides it), the timer holds 0 and
     * nobody is ready.
     */
    constructor (interimDuration: real, player1Stats: Stats.PlayerStats, player2Stats: Stats.PlayerStats,
                 roundTimer: RoundTimerManager, uiActive: bool)
      ensures this.interimDuration == interimDuration && this.roundTimer == roundTimer
      ensures this.player1Stats == player1Stats && this.player2Stats == player2Stats
      ensures active == uiActive && timer == 0.0
      ensures !player1Ready && !player2Ready && skipSubscriptions == 0 && !uiControls
    {
      this.interimDuration := interimDuration;
      this.player1Stats := player1Stats;
      this.player2Stats := player2Stats;
      this.roundTimer := roundTimer;
      active := uiActive;
      timer := 0.0;
      player1Ready := false;
      player2Ready := false;
      skipPromptText := "";
      player1StatsText := "";
      player2StatsText := "";
      roundWinnerText := "";
      timerFill := 0.0;
      player1Rows := [];
      player2Rows := [];
      uiControls := false;
      skipSubscriptions := 0;
    }

    /** What StartInterim puts on screen for the given top combos and the current stats. */
    predicate Shows(topCombos1: seq<(string, int)>, topCombos2: seq<(string, int)>)
      reads this, player1Stats, player2Stats
    {
      && skipPromptText == SkipHint
      && player1StatsText == DamageText(player1Stats.totalDamageDealt)
      && player2StatsText == DamageText(player2Stats.totalDamageDealt)
      && RowsShow(player1Rows, topCombos1) && RowsShow(player2Rows, topCombos2)
    }

    /**
     * StartInterim's state: controls switch to the UI, the screen shows
     * each player's damage and top combos, both ready flags clear, the
     * countdown restarts and the skip handlers are subscribed once more.
     * The top combos come from the combo tracker, which is not part of this
     * model.
     */
    method StartInterim(topCombos1: seq<(string, int)>, topCombos2: seq<(string, int)>)
      modifies this`active, this`player1Ready, this`player2Ready, this`timer, this`skipPromptText
      modifies this`player1StatsText, this`player2StatsText, this`player1Rows, this`player2Rows
      modifies this`uiControls, this`skipSubscriptions
      ensures active && !player1Ready && !player2Ready && timer == interimDuration
      ensures uiControls && skipSubscriptions == old(skipSubscriptions) + 1
      ensures Shows(topCombos1, topCombos2)
    {
      uiControls := true;
      active := true;
      skipPromptText := SkipHint;
      player1StatsText := DamageText(player1Stats.totalDamageDealt);
      player2StatsText := DamageText(player2Stats.totalDamageDealt);
      ShowCombos(topCombos1, topCombos2);
      player1Ready := false;
      player2Ready := false;
      timer := interimDuration;
      skipSubscriptions := skipSubscriptions + 1;
    }

    /** Both players' combo panels rebuilt from their top combos. */
    method ShowCombos(topCombos1: seq<(string, int)>, topCombos2: seq<(string, int)>)
      modifies this`player1Rows, this`player2Rows
      ensures RowsShow(player1Rows, topCombos1) && RowsShow(player2Rows, topCombos2)
    {
      player1Rows := DisplayCombosWithIcons(topCombos1);
      player2Rows := DisplayCombosWithIcons(topCombos2);
    }

    method ShowRoundWinner(winnerMessage: string)
      modifies this`roundWinnerText
      ensures roundWinnerText == winnerMessage
    {
      roundWinnerText := winnerMessage;
    }

    /** UpdateSkipPrompt: the prompt appended piece by piece. */
    method UpdateSkipPrompt()
      modifies this`skipPromptText
      ensures skipPromptText == SkipPromptText(player1Ready, player2Ready)
    {
      var prompt := "";
      if player1Ready {
        prompt := prompt + "Player 1 Ready\n";
      }
      if player2Ready {
        prompt := prompt + "Player 2 Ready\n";
      }
      if player1Ready && player2Ready {
        prompt := prompt + "";
      } else {
        prompt := prompt + SkipHint;
      }
      skipPromptText := prompt;
    }

    /** Player 1's skip press: sets only player 1's flag; a repeated press changes nothing. */
    method OnPlayer1Skip()
      modifies this`player1Ready, this`skipPromptText
      ensures player1Ready
      ensures old(player1Ready) ==> skipPromptText == old(skipPromptText)
      ensures !old(player1Ready) ==> skipPromptText == SkipPromptText(true, player2Ready)
    {
      if !player1Ready {
        player1Ready := true;
        UpdateSkipPrompt();
      }
    }

    /** Player 2's skip press: sets only player 2's flag; a repeated press changes nothing. */
    method OnPlayer2Skip()
      modifies this`player2Ready, this`skipPromptText
      ensures player2Ready
      ensures old(player2Ready) ==> skipPromptText == old(skipPromptText)
      ensures !old(player2Ready) ==> skipPromptText == SkipPromptText(player1Ready, true)
    {
      if !player2Ready {
        player2Ready := true;
        UpdateSkipPrompt();
      }
    }

    /**
     * EndInterim: the screen hides, so the interim ends once; both players'
     * stats reset, controls return to gameplay, the skip handlers are
     * unsubscribed and the next round's timer starts.
     */
    method EndInterim()
      modifies this`active, this`uiControls, this`skipSubscriptions, player1Stats, player2Stats
      modifies roundTimer`currentTime, roundTimer`timerActive, roundTimer.game`currentRound
      ensures !active && !uiControls
      ensures skipSubscriptions == if old(skipSubscriptions) > 0 then old(skipSubscriptions) - 1 else 0
      ensures player1Stats.totalDamageDealt == 0 && player1Stats.totalCombos == 0
      ensures player2Stats.totalDamageDealt == 0 && player2Stats.totalCombos == 0
      ensures roundTimer.game.currentRound == old(roundTimer.game.currentRound) + 1
      ensures roundTimer.timerActive && roundTimer.currentTime == roundTimer.roundDuration
    {
      active := false;
      player1Stats.ResetStats();
      player2Stats.ResetStats();
      uiControls := false;
      if skipSubscriptions > 0 {
        skipSubscriptions := skipSubscriptions - 1;
      }
      roundTimer.StartRoundTimer();
    }

    /**
     * Update in a frame of length dt: nothing while the screen is hidden;
     * otherwise the countdown loses dt, its bar shows the fraction left, and
     * the interim ends iff both players are ready or the time is up.
     */
    method Update(dt: real)
      modifies this`timer, this`timerFill
      modifies this`active, this`uiControls, this`skipSubscriptions, player1Stats, player2Stats
      modifies roundTimer`currentTime, roundTimer`timerActive, roundTimer.game`currentRound
      ensures !old(active) ==>
        && timer == old(timer) && !active && uiControls == old(uiControls)
        && roundTimer.game.currentRound == old(roundTimer.game.currentRound)
        && roundTimer.timerActive == old(roundTimer.timerActive)
      ensures old(active) ==> timer == old(timer) - dt
      ensures old(active) && interimDuration != 0.0 ==> timerFill == Clamp01(timer / interimDuration)
      ensures old(active) ==> (!active <==> (player1Ready && player2Ready) || timer <= 0.0)
      ensures old(active) && !active ==>
        && roundTimer.timerActive && roundTimer.game.currentRound == old(roundTimer.game.currentRound) + 1
        && player1Stats.totalDamageDealt == 0 && player2Stats.totalDamageDealt == 0
      ensures old(active) && active ==> roundTimer.game.currentRound == old(roundTimer.game.currentRound)
    {
      if !active {
        return;
      }
      timer := timer - dt;
      if interimDuration != 0.0 {
        timerFill := Clamp01(timer / interimDuration);
      }
      if (player1Ready && player2Ready) || timer <= 0.0 {
        EndInterim();
      }
    }
  }

  /** The rows DisplayCombosWithIcons builds: one per combo, in order, row i showing combo i. */
  predicate RowsShow(rows: seq<ComboRow>, topCombos: seq<(string, int)>) {
    RowsUpTo(rows, topCombos, |topCombos|)
  }

  /** The rows built for the first n combos. */
  predicate RowsUpTo(rows: seq<ComboRow>, topCombos: seq<(string, int)>, n: nat)
    requires n <= |topCombos|
  {
    && |rows| == n
    && forall i :: 0 <= i < n ==> rows[i] == RowFor(topCombos[i])
  }

  /** Building one more row appends the row of the next combo. */
  lemma RowsUpToSnoc(rows: seq<ComboRow>, topCombos: seq<(string, int)>, n: nat, row: ComboRow)
    requires n < |topCombos| && RowsUpTo(rows, topCombos, n) && row == RowFor(topCombos[n])
    ensures RowsUpTo(rows + [row], topCombos, n + 1)
  {
    var extended := rows + [row];
    forall i | 0 <= i < n + 1
      ensures extended[i] == RowFor(topCombos[i])
    {
      if i < n {
        assert extended[i] == rows[i];
      } else {
        assert extended[i] == row;
      }
    }
  }

  /** The row of one combo: the icons of its split key and its count. */
  function RowFor(combo: (string, int)): ComboRow {
    ComboRow(KnownIcons(SplitKey(combo.0)), CountText(combo.1))
  }

  /** One row's icons: the loop over the split pieces, skipping those without a sprite. */
  method IconsFor(comboKey: string) returns (icons: seq<Icon>)
    ensures icons == KnownIcons(SplitKey(comboKey))
  {
    var punches := SplitKey(comboKey);
    icons := [];
    var i := 0;
    while i < |punches|
      invariant 0 <= i <= |punches|
      invariant icons == KnownIcons(punches[..i])
    {
      KnownIconsSnoc(punches, i);
      match SpriteFor(punches[i]) {
        case Some(icon) => icons := icons + [icon];
        case None =>
      }
      i := i + 1;
    }
    assert punches[..i] == punches;
  }

  /**
   * DisplayCombosWithIcons: the old rows are cleared and one row is built
   * per combo, in order.
   */
  method DisplayCombosWithIcons(topCombos: seq<(string, int)>) returns (rows: seq<ComboRow>)
    ensures RowsShow(rows, topCombos)
  {
    rows := [];
    var i := 0;
    while i < |topCombos|
      invariant 0 <= i <= |topCombos|
      invariant RowsUpTo(rows, topCombos, i)
    {
      var icons := IconsFor(topCombos[i].0);
      var row := ComboRow(icons, CountText(topCombos[i].1));
      RowsUpToSnoc(rows, topCombos, i, row);
      rows := rows + [row];
      i := i + 1;
    }
  }
}
