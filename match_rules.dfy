/**
 * The value-level rules of the round and interim managers
 * (Managers/UI/RoundTimer.cs, Managers/UI/InterimManager.cs and their
 * earlier versions in Managers/): who wins a round and the match, the
 * mm:ss timer text, the skip prompt, and the reading of a combo key into
 * button icons.
 */
module MatchRules {
  import opened Wrappers
  import opened UnityMath
  import opened Format

  /** DetermineRoundWinner: 1 when player 1 dealt strictly more damage, otherwise 2, ties included. */
  function RoundWinner(player1Damage: int, player2Damage: int): (w: int)
    ensures w == 1 || w == 2
    ensures w == 1 <==> player1Damage > player2Damage
    ensures player1Damage == player2Damage ==> w == 2
  {
    if player1Damage > player2Damage then 1 else 2
  }

  /**
   * DetermineMatchWinnerByRounds: the argument of HandleGameOver, if it is
   * called at all: true when player 1 won more rounds, false when player 2
   * did, and no call on a tie.
   */
  function MatchOutcome(player1RoundsWon: int, player2RoundsWon: int): (o: Option<bool>)
    ensures o == Some(true) <==> player1RoundsWon > player2RoundsWon
    ensures o == Some(false) <==> player2RoundsWon > player1RoundsWon
    ensures o == None <==> player1RoundsWon == player2RoundsWon
  {
    if player1RoundsWon > player2RoundsWon then Some(true)
    else if player2RoundsWon > player1RoundsWon then Some(false)
    else None
  }

  /** Swapping the players swaps the match outcome. */
  lemma MatchOutcomeSymmetric(a: int, b: int)
    ensures MatchOutcome(b, a) == (match MatchOutcome(a, b) case None => None case Some(w) => Some(!w))
  {
  }

  /** The clock in the current RoundTimerManager: "00:00" whenever the seconds part is 0 or less, else mm:ss. */
  function TimerText(t: real): string {
    if SecondsOf(t) <= 0 then "00:00" else TwoDigits(MinutesOf(t)) + ":" + TwoDigits(SecondsOf(t))
  }

  /** The clock in the earlier RoundTimerManager: always mm:ss, with no special case. */
  function LegacyTimerText(t: real): string {
    TwoDigits(MinutesOf(t)) + ":" + TwoDigits(SecondsOf(t))
  }

  /**
   * Below 100 minutes, a non-negative time is shown as five characters
   * whose two fields read back as the whole minutes and the remaining whole
   * seconds of t.
   */
  lemma LegacyTimerTextReadsBack(t: real)
    requires 0.0 <= t < 6000.0
    ensures var s := LegacyTimerText(t);
      && |s| == 5 && s[2] == ':' && IsDigits(s[..2]) && IsDigits(s[3..])
      && 60 * ParseNat(s[..2]) + ParseNat(s[3..]) == t.Floor
      && ParseNat(s[3..]) < 60
  {
    ClockParts(t);
    MinutesBelow100(t);
    var s := LegacyTimerText(t);
    assert s[..2] == TwoDigits(MinutesOf(t));
    assert s[3..] == TwoDigits(SecondsOf(t));
  }

  lemma MinutesBelow100(t: real)
    requires 0.0 <= t < 6000.0
    ensures MinutesOf(t) < 100
  {
    DivStrict(t, 6000.0, 60.0);
  }

  /** Whenever the current clock shows anything but "00:00", it shows what the earlier clock shows. */
  lemma TimerTextAgreesOffZero(t: real)
    requires TimerText(t) != "00:00"
    ensures TimerText(t) == LegacyTimerText(t) && SecondsOf(t) >= 1
  {
  }

  /** Once the time has run out (down to a minute below zero) the current clock shows "00:00". */
  lemma TimerTextAtEnd(t: real)
    requires -60.0 < t <= 0.0
    ensures TimerText(t) == "00:00"
  {
    if t < 0.0 {
      FloatRemSmallNegative(t, 60.0);
    } else {
      FloatRemNonNegative(t, 60.0);
      assert FloatRem(t, 60.0) == 0.0;
    }
  }

  /**
   * The zero case also catches whole minutes: during the first second of
   * any minute from the second one on, the current clock reads "00:00"
   * though at least a minute remains (reachable when roundDuration exceeds 60).
   */
  lemma TimerTextZeroAtWholeMinute(t: real, m: nat)
    requires m >= 1 && (60 * m) as real <= t < (60 * m) as real + 1.0
    ensures TimerText(t) == "00:00" && MinutesOf(t) == m
  {
    ClockParts(t);
    var mm := MinutesOf(t);
    assert t.Floor == 60 * m;
    assert 60 * mm + SecondsOf(t) == 60 * m;
  }

  /** The earlier clock goes negative: in the last frame, when time overshoots below zero by less than a second, it reads "-01:-01". */
  lemma LegacyTimerTextJustBelowZero(t: real)
    requires -1.0 <= t < 0.0
    ensures LegacyTimerText(t) == "-01:-01"
  {
    ClockPartsJustBelowZero(t);
    assert TwoDigits(-1) == "-" + TwoDigits(1);
    assert TwoDigits(1) == "01";
  }

  /** UpdateSkipPrompt's text, built in the order the source appends it. */
  function SkipPromptText(player1Ready: bool, player2Ready: bool): string {
    (if player1Ready then "Player 1 Ready\n" else "")
    + (if player2Ready then "Player 2 Ready\n" else "")
    + (if player1Ready && player2Ready then "" else "Press Any Button to Skip")
  }

  const SkipHint: string := "Press Any Button to Skip"

  /**
   * The prompt announces player 1 first when ready, then player 2, and
   * ends with the skip hint exactly when someone is still not ready.
   */
  lemma SkipPromptContents(p1: bool, p2: bool)
    ensures var s := SkipPromptText(p1, p2);
      && (p1 <==> |s| >= 15 && s[..15] == "Player 1 Ready\n")
      && (p1 && p2 <==> s == "Player 1 Ready\nPlayer 2 Ready\n")
      && (!(p1 && p2) <==> |s| >= |SkipHint| && s[|s| - |SkipHint|..] == SkipHint)
  {
    var s := SkipPromptText(p1, p2);
    if p1 && p2 {
      assert s == "Player 1 Ready\nPlayer 2 Ready\n";
      assert s[..15] == "Player 1 Ready\n";
      var tail := s[|s| - |SkipHint|..];
      assert tail[|tail| - 1] == '\n';
      assert SkipHint[|SkipHint| - 1] == 'p';
      assert tail != SkipHint;
    } else if p1 {
      assert s == "Player 1 Ready\n" + SkipHint;
      assert s[..15] == "Player 1 Ready\n";
    } else if p2 {
      assert s == "Player 2 Ready\n" + SkipHint;
      assert s[..15] != "Player 1 Ready\n" by {
        assert s[7] == '2';
      }
    } else {
      assert s == SkipHint;
      assert s[..15] != "Player 1 Ready\n" by {
        assert s[0] == 'P' && s[1] == 'r';
      }
    }
  }

  /** The separator combo keys are written with. */
  const Separator: string := " -> "

  /**
   * comboKey.Split(new[] { " -> " }, StringSplitOptions.None): the pieces
   * between the occurrences of the separator found scanning from the
   * left, empty pieces kept.
   */
  function SplitKey(s: string): (parts: seq<string>)
    ensures |parts| >= 1
    decreases |s|
  {
    if |s| < |Separator| then [s]
    else if s[..|Separator|] == Separator then [""] + SplitKey(s[|Separator|..])
    else
      var rest := SplitKey(s[1..]);
      [[s[0]] + rest[0]] + rest[1..]
  }

  /** The pieces joined back with the separator, the way combo keys are composed. */
  function JoinKey(parts: seq<string>): string
    requires |parts| >= 1
    decreases |parts|
  {
    if |parts| == 1 then parts[0] else parts[0] + (Separator + JoinKey(parts[1..]))
  }

  /** Joining the pieces of any key gives the key back. */
  lemma {:induction false} JoinSplitKey(s: string)
    ensures JoinKey(SplitKey(s)) == s
    decreases |s|
  {
    if |s| < |Separator| {
    } else if s[..|Separator|] == Separator {
      JoinSplitKey(s[|Separator|..]);
      var rest := SplitKey(s[|Separator|..]);
      assert SplitKey(s) == [""] + rest;
      assert JoinKey([""] + rest) == "" + Separator + JoinKey(rest) by {
        assert ([""] + rest)[1..] == rest;
      }
    } else {
      JoinSplitKey(s[1..]);
      var rest := SplitKey(s[1..]);
      JoinHead(s[0], rest);
    }
  }

  /** Prepending a character to the first piece prepends it to the joined key. */
  lemma JoinHead(c: char, rest: seq<string>)
    requires |rest| >= 1
    ensures JoinKey([[c] + rest[0]] + rest[1..]) == [c] + JoinKey(rest)
  {
    var ps := [[c] + rest[0]] + rest[1..];
    if |rest| > 1 {
      assert ps[1..] == rest[1..];
      var tail := Separator + JoinKey(rest[1..]);
      assert JoinKey(ps) == ps[0] + tail;
      assert JoinKey(rest) == rest[0] + tail;
      Assoc([c], rest[0], tail);
    }
  }

  lemma Assoc(a: string, b: string, c: string)
    ensures (a + b) + c == a + (b + c)
  {
  }

  /** No space in a piece. */
  predicate SpaceFree(p: string) {
    forall i :: 0 <= i < |p| ==> p[i] != ' '
  }

  /** Splitting a key joined from space-free names (every punch name is one) gives the names back. */
  lemma {:induction false} SplitJoinKey(parts: seq<string>)
    requires |parts| >= 1
    requires forall i :: 0 <= i < |parts| ==> SpaceFree(parts[i])
    ensures SplitKey(JoinKey(parts)) == parts
    decreases |parts|
  {
    if |parts| == 1 {
      SplitSpaceFree(parts[0]);
    } else {
      SplitJoinKey(parts[1..]);
      var tail := JoinKey(parts[1..]);
      SplitAfterSeparator(tail);
      SplitPrefix(parts[0], Separator + tail);
      assert JoinKey(parts) == parts[0] + (Separator + tail);
      assert SplitKey(Separator + tail) == [""] + parts[1..];
      assert ([""] + parts[1..])[1..] == parts[1..];
      assert parts[0] + "" == parts[0];
      assert [parts[0]] + parts[1..] == parts;
    }
  }

  /** A space-free string contains no separator and is its own single piece. */
  lemma {:induction false} SplitSpaceFree(p: string)
    requires SpaceFree(p)
    ensures SplitKey(p) == [p]
    decreases |p|
  {
    if |p| >= |Separator| {
      assert p[..|Separator|] != Separator by {
        assert p[0] != ' ';
      }
      SplitSpaceFree(p[1..]);
      assert [p[0]] + p[1..] == p;
    }
  }

  lemma SplitAfterSeparator(t: string)
    ensures SplitKey(Separator + t) == [""] + SplitKey(t)
  {
    var s := Separator + t;
    assert s[..|Separator|] == Separator;
    assert s[|Separator|..] == t;
  }

  /**
   * A space-free prefix before a string that starts with a space joins the
   * first piece: the separator cannot start inside the prefix.
   */
  lemma {:induction false} SplitPrefix(p: string, r: string)
    requires SpaceFree(p) && |r| >= 1 && r[0] == ' '
    ensures var rs := SplitKey(r); SplitKey(p + r) == [p + rs[0]] + rs[1..]
    decreases |p|
  {
    var rs := SplitKey(r);
    var s := p + r;
    if |p| == 0 {
      assert s == r && p + rs[0] == rs[0];
      assert [rs[0]] + rs[1..] == rs;
    } else if |s| < |Separator| {
      SplitShort(r);
      assert rs == [r];
      assert SplitKey(s) == [s];
      assert [p + rs[0]] + rs[1..] == [s];
    } else {
      assert s[..|Separator|] != Separator by {
        assert s[0] == p[0] && p[0] != ' ';
      }
      assert s[1..] == p[1..] + r;
      SplitPrefix(p[1..], r);
      var rest := SplitKey(s[1..]);
      assert rest == [p[1..] + rs[0]] + rs[1..];
      assert SplitKey(s) == [[s[0]] + rest[0]] + rest[1..];
      assert rest[0] == p[1..] + rs[0];
      assert rest[1..] == rs[1..];
      assert [s[0]] + (p[1..] + rs[0]) == p + rs[0];
    }
  }

  lemma SplitShort(r: string)
    requires |r| < |Separator|
    ensures SplitKey(r) == [r]
  {
  }

  /** The controller button icons the interim screen shows punches with. */
  datatype Icon = AButton | BButton | XButton | YButton

  /** punchSprites: the four punch names that have an icon. */
  function SpriteFor(punch: string): Option<Icon> {
    if punch == "Left_Hook" then Some(AButton)
    else if punch == "Right_Hook" then Some(BButton)
    else if punch == "Jab" then Some(XButton)
    else if punch == "Straight" then Some(YButton)
    else None
  }

  /** The sprite table: exactly the four basic punches have icons, each its own button. */
  lemma SpriteTable(punch: string)
    ensures SpriteFor(punch).Some? <==> punch in {"Left_Hook", "Right_Hook", "Jab", "Straight"}
    ensures SpriteFor(punch) == Some(AButton) <==> punch == "Left_Hook"
    ensures SpriteFor(punch) == Some(BButton) <==> punch == "Right_Hook"
    ensures SpriteFor(punch) == Some(XButton) <==> punch == "Jab"
    ensures SpriteFor(punch) == Some(YButton) <==> punch == "Straight"
  {
  }

  /** The icons of a row: one per piece that has a sprite, in order; other pieces are skipped. */
  function KnownIcons(punches: seq<string>): (icons: seq<Icon>)
    ensures |icons| <= |punches|
    decreases |punches|
  {
    if punches == [] then []
    else
      var rest := KnownIcons(punches[1..]);
      match SpriteFor(punches[0])
      case Some(i) => [i] + rest
      case None => rest
  }

  /** The icons of two runs of pieces are the icons of each, in order. */
  lemma {:induction false} KnownIconsAppend(a: seq<string>, b: seq<string>)
    ensures KnownIcons(a + b) == KnownIcons(a) + KnownIcons(b)
    decreases |a|
  {
    if a == [] {
      assert a + b == b;
    } else {
      assert (a + b)[0] == a[0];
      assert (a + b)[1..] == a[1..] + b;
      KnownIconsAppend(a[1..], b);
      match SpriteFor(a[0]) {
        case Some(icon) => assert KnownIcons(a + b) == [icon] + KnownIcons(a[1..] + b);
        case None =>
      }
    }
  }

  /** Looking at one more piece appends its icon, if it has one. */
  lemma KnownIconsSnoc(punches: seq<string>, i: nat)
    requires i < |punches|
    ensures KnownIcons(punches[..i + 1])
      == KnownIcons(punches[..i]) + (match SpriteFor(punches[i]) case Some(icon) => [icon] case None => [])
  {
    assert punches[..i + 1] == punches[..i] + [punches[i]];
    KnownIconsAppend(punches[..i], [punches[i]]);
    assert [punches[i]][1..] == [];
  }

  /** A key made only of punch names with icons gets exactly one icon per punch. */
  lemma {:induction false} AllKnownAllShown(punches: seq<string>)
    requires forall i :: 0 <= i < |punches| ==> SpriteFor(punches[i]).Some?
    ensures |KnownIcons(punches)| == |punches|
    ensures forall i :: 0 <= i < |punches| ==> KnownIcons(punches)[i] == SpriteFor(punches[i]).value
    decreases |punches|
  {
    if punches != [] {
      AllKnownAllShown(punches[1..]);
    }
  }

  /** One row of the interim screen: the icons of a combo and its count text. */
  datatype ComboRow = ComboRow(icons: seq<Icon>, countText: string)

  /** The damage line of the interim screen, $"Damage: {totalDamageDealt}". */
  function DamageText(damage: int): string {
    "Damage: " + IntToString(damage)
  }

  /** The count text $" (x{timesUsed})". */
  function CountText(timesUsed: int): string {
    " (x" + IntToString(timesUsed) + ")"
  }
}
