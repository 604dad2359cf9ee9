// The shell around the levels: which screen is showing, which level is
// current, the best score so far, and the mm:ss clock on the result screen.
// React's state setters become assignments to the fields of `AppState`;
// the setters one handler calls take effect together, as React batches them.

module App {
  import opened Common

  /** GameStatus, with the INTRO screen the shell switches to. */
  datatype GameStatus = Menu | Intro | Playing | LevelComplete | GameOver | Victory

  // ---------------------------------------------------------------------
  // Numbers as text

  function DigitChar(d: nat): (c: char)
    requires d < 10
    ensures '0' <= c <= '9' && c as int - '0' as int == d
  {
    (d + '0' as int) as char
  }

  /** The decimal digits of n, most significant first, with no leading zeros. */
  function Digits(n: nat): (s: string)
    ensures |s| >= 1
    ensures forall i :: 0 <= i < |s| ==> '0' <= s[i] <= '9'
    ensures n < 10 <==> |s| == 1
    ensures 10 <= n < 100 ==> |s| == 2
  {
    if n < 10 then [DigitChar(n)] else Digits(n / 10) + [DigitChar(n % 10)]
  }

  /** Number.prototype.toString for integers: a minus sign, then the digits. */
  function IntToString(i: int): (s: string)
    ensures i >= 0 ==> s == Digits(i)
    ensures i < 0 ==> s == "-" + Digits(-i)
  {
    if i < 0 then "-" + Digits(-i) else Digits(i)
  }

  /** The value of a string of decimal digits. */
  function ParseDigits(s: string): int
  {
    if s == [] then 0 else ParseDigits(s[..|s| - 1]) * 10 + (s[|s| - 1] as int - '0' as int)
  }

  /** Reading the digits back gives the number. */
  lemma {:induction false} DigitsRoundTrip(n: nat)
    ensures ParseDigits(Digits(n)) == n
  {
    if n >= 10 {
      var s := Digits(n / 10) + [DigitChar(n % 10)];
      assert s[..|s| - 1] == Digits(n / 10);
      DigitsRoundTrip(n / 10);
    }
  }

  /** String.prototype.padStart(2, '0'). */
  function PadStart2(s: string): (r: string)
    ensures |s| >= 2 ==> r == s
    ensures |s| < 2 ==> |r| == 2 && r[2 - |s|..] == s && forall i :: 0 <= i < 2 - |s| ==> r[i] == '0'
  {
    if |s| >= 2 then s else if |s| == 1 then "0" + s else "00"
  }

  /** A leading zero does not change the value read. */
  lemma {:induction false} LeadingZero(s: string)
    ensures ParseDigits("0" + s) == ParseDigits(s)
    decreases |s|
  {
    if s != [] {
      var t := "0" + s;
      assert t[..|t| - 1] == "0" + s[..|s| - 1];
      LeadingZero(s[..|s| - 1]);
    } else {
      assert ParseDigits("0"[..0]) == 0;
    }
  }

  /** Two digits for anything below 100, which read back as the number. */
  lemma TwoDigits(n: nat)
    requires n < 100
    ensures |PadStart2(IntToString(n))| == 2
    ensures ParseDigits(PadStart2(IntToString(n))) == n
    ensures forall i :: 0 <= i < 2 ==> '0' <= PadStart2(IntToString(n))[i] <= '9'
  {
    DigitsRoundTrip(n);
    if n < 10 {
      LeadingZero(Digits(n));
    }
  }

  // ---------------------------------------------------------------------
  // formatTime

  /** Math.trunc */
  function Trunc(x: real): (t: int)
    ensures x >= 0.0 ==> t == x.Floor
    ensures x < 0.0 ==> t == -((-x).Floor)
  {
    if x >= 0.0 then x.Floor else -((-x).Floor)
  }

  /**
   * JavaScript's `seconds % 60`: the remainder of the truncated division,
   * which takes the sign of the dividend.
   */
  function Mod60(seconds: real): (r: real)
    ensures seconds >= 0.0 ==> 0.0 <= r < 60.0
    ensures seconds < 0.0 ==> -60.0 < r <= 0.0
  {
    TruncFraction(seconds / 60.0);
    seconds - 60.0 * Trunc(seconds / 60.0) as real
  }

  /** What Math.trunc cuts off lies in [0, 1) for a non-negative number and in (-1, 0] for a negative one. */
  lemma TruncFraction(q: real)
    ensures q >= 0.0 ==> 0.0 <= q - Trunc(q) as real < 1.0
    ensures q < 0.0 ==> -1.0 < q - Trunc(q) as real <= 0.0
  {
    if q < 0.0 {
      assert (-q).Floor as real <= -q < (-q).Floor as real + 1.0;
    }
  }

  /** 0 <= f < 1 scales into [0, b); -1 < f <= 0 into (-b, 0]. */
  lemma FractionScales(b: real, f: real)
    requires b > 0.0
    ensures 0.0 <= f < 1.0 ==> 0.0 <= b * f < b
    ensures -1.0 < f <= 0.0 ==> -b < b * f <= 0.0
  {
  }

  /**
   * formatTime: whole minutes and the whole seconds left over, each padded
   * to two digits, joined by a colon.
   */
  function FormatTime(seconds: real): (r: string)
    ensures |r| >= 5
    ensures 0.0 <= seconds ==> r[|r| - 3] == ':'
  {
    var mins := (seconds / 60.0).Floor;
    var secs := Mod60(seconds).Floor;
    PadStart2(IntToString(mins)) + ":" + PadStart2(IntToString(secs))
  }

  /** The minutes and seconds formatTime shows, as whole numbers. */
  lemma MinutesAndSeconds(seconds: real)
    requires seconds >= 0.0
    ensures (seconds / 60.0).Floor == seconds.Floor / 60
    ensures Mod60(seconds).Floor == seconds.Floor % 60
  {
    var n := seconds.Floor;
    var q := n / 60;
    var d := seconds / 60.0;
    assert 60 * q <= n < 60 * q + 60;
    assert (60 * q) as real <= seconds < (60 * q + 60) as real;
    assert q as real <= d < (q + 1) as real;
    assert d.Floor == q && Trunc(d) == q;
    var r := Mod60(seconds);
    assert r == seconds - (60 * q) as real;
    assert (n - 60 * q) as real <= r < (n - 60 * q + 1) as real;
  }

  /** formatTime's text, split into its minutes field, the colon and its seconds field. */
  lemma FormatTimeFields(seconds: real)
    requires 0.0 <= seconds < 6000.0
    ensures var r := FormatTime(seconds);
      |r| == 5 && r[2] == ':' &&
      r[..2] == PadStart2(IntToString(seconds.Floor / 60)) && r[3..] == PadStart2(IntToString(seconds.Floor % 60))
  {
    MinutesAndSeconds(seconds);
    var mm := PadStart2(IntToString(seconds.Floor / 60));
    var ss := PadStart2(IntToString(seconds.Floor % 60));
    TwoDigits(seconds.Floor / 60);
    TwoDigits(seconds.Floor % 60);
    var r := mm + ":" + ss;
    assert FormatTime(seconds) == r;
    assert r[..2] == mm;
    assert r[3..] == ss;
  }

  /** Below 100 minutes the clock is exactly mm:ss. */
  lemma FormatTimeLength(seconds: real)
    requires 0.0 <= seconds < 6000.0
    ensures |FormatTime(seconds)| == 5
  {
    FormatTimeFields(seconds);
  }

  /** Below 100 minutes the clock reads back as the whole seconds it was given. */
  lemma FormatTimeReadsBack(seconds: real)
    requires 0.0 <= seconds < 6000.0
    ensures var r := FormatTime(seconds);
      |r| == 5 && r[2] == ':' && ParseDigits(r[3..]) < 60 &&
      60 * ParseDigits(r[..2]) + ParseDigits(r[3..]) == seconds.Floor
  {
    FormatTimeFields(seconds);
    TwoDigits(seconds.Floor / 60);
    TwoDigits(seconds.Floor % 60);
  }

  // ---------------------------------------------------------------------
  // The high score

  /** The best score after one more result: replaced only by a strictly higher one. */
  function NewHighScore(highScore: int, finalScore: int): (h: int)
    ensures h >= highScore && h >= finalScore
    ensures h == highScore || h == finalScore
    ensures h != highScore <==> finalScore > highScore
  {
    if finalScore > highScore then finalScore else highScore
  }

  /** The best score after a run of results. */
  function HighScoreAfter(highScore: int, scores: seq<int>): int
  {
    if scores == [] then highScore else NewHighScore(HighScoreAfter(highScore, scores[..|scores| - 1]), scores[|scores| - 1])
  }

  /** After any run of results the best score is the largest of them and the start, and is one of them. */
  lemma {:induction false} HighScoreIsBest(highScore: int, scores: seq<int>)
    ensures HighScoreAfter(highScore, scores) >= highScore
    ensures forall i :: 0 <= i < |scores| ==> HighScoreAfter(highScore, scores) >= scores[i]
    ensures HighScoreAfter(highScore, scores) == highScore || HighScoreAfter(highScore, scores) in scores
  {
    if scores != [] {
      var init := scores[..|scores| - 1];
      HighScoreIsBest(highScore, init);
      forall i | 0 <= i < |scores| - 1
        ensures HighScoreAfter(highScore, scores) >= scores[i]
      {
        assert scores[i] == init[i];
      }
      if HighScoreAfter(highScore, init) in init {
        var j :| 0 <= j < |init| && init[j] == HighScoreAfter(highScore, init);
        assert scores[j] == init[j];
      }
    }
  }

  // ---------------------------------------------------------------------
  // The shell's state

  /** What renderLevel puts on screen. */
  datatype LevelView =
    | Level2Game(key: string, isActive: bool, isGameOver: bool, startAtBoss: bool)
    | Level1Game(key: string, isActive: bool, isGameOver: bool)
    | ComingSoon
    | NoLevel

  datatype Stats = Stats(score: int, distance: int)
  datatype LevelResult = LevelResult(score: int, time: real, level: int)

  const DRIVER_NAMES_COUNT: nat := 15

  class AppState {
    var status: GameStatus
    var currentLevel: int
    var highScore: int
    var gameStats: Stats
    var levelResult: LevelResult
    /** Index into the list of driver names; -1 while none is chosen. */
    var driverName: int
    var restartKey: nat
    var showLevelSelect: bool
    var transitioning: bool
    var transitionLabel: string
    var isBossRush: bool

    /** The initial state of the component; the saved high score is loaded separately. */
    constructor ()
      ensures status == Menu && currentLevel == 1 && highScore == 0 && restartKey == 0
      ensures !isBossRush && !transitioning && !showLevelSelect && driverName == -1
    {
      status := Menu;
      currentLevel := 1;
      highScore := 0;
      gameStats := Stats(0, 0);
      levelResult := LevelResult(0, 0.0, 1);
      driverName := -1;
      restartKey := 0;
      showLevelSelect := false;
      transitioning := false;
      transitionLabel := "";
      isBossRush := false;
    }

    /**
     * handleGameOver: the crash screen, with a driver's name picked by
     * `roll` on the ring-road level, and the best score kept.
     */
    method HandleGameOver(finalScore: int, roll: real)
      requires 0.0 <= roll < 1.0
      modifies this`gameStats, this`driverName, this`status, this`highScore
      ensures status == GameOver && gameStats == Stats(finalScore, 0)
      ensures highScore == NewHighScore(old(highScore), finalScore)
      ensures currentLevel == 2 ==> 0 <= driverName < DRIVER_NAMES_COUNT
      ensures currentLevel != 2 ==> driverName == old(driverName)
    {
      gameStats := Stats(finalScore, 0);
      if currentLevel == 2 {
        driverName := PickIndex(roll, DRIVER_NAMES_COUNT);
      }
      status := GameOver;
      if finalScore > highScore {
        highScore := finalScore;
      }
    }

    /** handleLevelComplete: the result screen for the current level, and the best score kept. */
    method HandleLevelComplete(finalScore: int, timeSpent: real)
      modifies this`levelResult, this`status, this`highScore
      ensures levelResult == LevelResult(finalScore, timeSpent, currentLevel)
      ensures status == LevelComplete
      ensures highScore == NewHighScore(old(highScore), finalScore)
    {
      levelResult := LevelResult(finalScore, timeSpent, currentLevel);
      status := LevelComplete;
      if finalScore > highScore {
        highScore := finalScore;
      }
    }

    /** handleNextLevel: after the first level comes the second's intro; after any other, the menu. */
    method HandleNextLevel()
      modifies this`currentLevel, this`isBossRush, this`status
      ensures old(currentLevel) == 1 ==> currentLevel == 2 && status == Intro
      ensures old(currentLevel) != 1 ==> currentLevel == 1 && status == Menu
      ensures !isBossRush
    {
      if currentLevel == 1 {
        currentLevel := 2;
        isBossRush := false;
        status := Intro;
      } else {
        status := Menu;
        currentLevel := 1;
        isBossRush := false;
      }
    }

    /** The curtain's caption when a level starts. */
    static function StartLabel(targetLevel: int, bossRush: bool): (caption: string)
      ensures bossRush ==> caption == "BOSS BATTLE"
      ensures !bossRush ==> |caption| >= 6 && caption[..6] == "LEVEL " && caption[6..] == IntToString(targetLevel)
    {
      if bossRush then "BOSS BATTLE" else "LEVEL " + IntToString(targetLevel)
    }

    /**
     * startLevel: closes the level picker, sets the boss-rush mode, bumps
     * the restart key so the level starts afresh, runs the curtain with the
     * level's caption and starts playing. A missing level index means the
     * current level. The current level itself is not changed.
     */
    method StartLevel(levelIndex: Option<int>, bossRush: bool)
      modifies this`showLevelSelect, this`isBossRush, this`restartKey, this`transitionLabel, this`transitioning, this`status
      ensures restartKey == old(restartKey) + 1
      ensures status == Playing && transitioning && !showLevelSelect && isBossRush == bossRush
      ensures transitionLabel == StartLabel(if levelIndex.Some? then levelIndex.value else currentLevel, bossRush)
    {
      showLevelSelect := false;
      isBossRush := bossRush;
      var targetLevel := if levelIndex.Some? then levelIndex.value else currentLevel;
      restartKey := restartKey + 1;
      transitionLabel := StartLabel(targetLevel, bossRush);
      transitioning := true;
      status := Playing;
    }

    /** `${currentLevel}-${restartKey}` */
    function LevelKey(): string
      reads this
    {
      IntToString(currentLevel) + "-" + IntToString(restartKey)
    }

    /**
     * renderLevel: level 1 is the platformer, level 2 the ring-road race,
     * level 3 a placeholder; a level is live while playing or on the crash
     * screen.
     */
    function RenderLevel(): (v: LevelView)
      reads this
      ensures currentLevel == 1 <==> v.Level2Game?
      ensures currentLevel == 2 <==> v.Level1Game?
      ensures currentLevel == 3 <==> v == ComingSoon
      ensures v.Level2Game? || v.Level1Game? ==>
        v.isGameOver == (status == GameOver) && v.isActive == (status == Playing || status == GameOver)
      ensures v.Level2Game? ==> v.startAtBoss == isBossRush
    {
      var isGameOver := status == GameOver;
      var isActive := status == Playing || isGameOver;
      if currentLevel == 1 then Level2Game(LevelKey(), isActive, isGameOver, isBossRush)
      else if currentLevel == 2 then Level1Game(LevelKey(), isActive, isGameOver)
      else if currentLevel == 3 then ComingSoon
      else NoLevel
    }
  }

  /** Each restart gives the level a new key, so it is built afresh. */
  lemma RestartChangesKey(level: int, key: nat)
    ensures IntToString(level) + "-" + IntToString(key) != IntToString(level) + "-" + IntToString(key + 1)
  {
    DigitsRoundTrip(key);
    DigitsRoundTrip(key + 1);
    var a := IntToString(level) + "-";
    assert (a + IntToString(key))[|a|..] == IntToString(key);
    assert (a + IntToString(key + 1))[|a|..] == IntToString(key + 1);
  }
}
