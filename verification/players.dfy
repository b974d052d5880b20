/**
 * A player's record: games played, games won, and the win percentage
 * derived from them.
 */
module Players {
  import opened Pieces

  datatype Player = Player(name: string, played: nat, won: nat)

  /** A new player has played and won nothing. */
  function NewPlayer(name: string): (r: Player)
    ensures r.name == name && r.played == 0 && r.won == 0
  {
    Player(name, 0, 0)
  }

  /** `updateGamesPlayed`: one more game played; nothing else changes. */
  function UpdateGamesPlayed(p: Player): (r: Player)
    ensures r.played == p.played + 1
    ensures r.name == p.name && r.won == p.won
  {
    p.(played := p.played + 1)
  }

  /** `updateGamesWon`: one more game won; nothing else changes. */
  function UpdateGamesWon(p: Player): (r: Player)
    ensures r.won == p.won + 1
    ensures r.name == p.name && r.played == p.played
  {
    p.(won := p.won + 1)
  }

  /**
   * `winpercent`: the whole percentage of games won, rounded down. The
   * source divides by the games played, so a player with none has no
   * percentage: the division fails.
   */
  function WinPercent(p: Player): (r: Option<nat>)
    ensures r.None? <==> p.played == 0
    ensures r.Some? ==> r.value * p.played <= 100 * p.won < (r.value + 1) * p.played
  {
    if p.played == 0 then None else Some(Quotient(100 * p.won, p.played))
  }

  /** Whole division of non-negative numbers, as Java's `/` on such ints. */
  function Quotient(n: nat, d: nat): (q: nat)
    requires d > 0
    ensures q * d <= n < (q + 1) * d
    decreases n
  {
    if n < d then 0 else 1 + Quotient(n - d, d)
  }

  /** Multiplying by the same positive count keeps the order of two numbers. */
  lemma MulCancel(a: int, b: int, n: int)
    requires n > 0 && a * n <= b * n
    ensures a <= b
  {
  }

  lemma MulCancelStrict(a: int, b: int, n: int)
    requires n > 0 && a * n < b * n
    ensures a < b
  {
  }

  /** A quotient of 100 * won by played, with won at most played, is at most 100, and is 100 only for all games won. */
  lemma QuotientBounds(q: int, won: int, played: int)
    requires played > 0 && 0 <= won <= played
    requires q * played <= 100 * won < (q + 1) * played
    ensures q <= 100 && (q == 100 <==> won == played)
  {
    MulCancel(q, 100, played);
    if won == played {
      MulCancelStrict(100, q + 1, played);
    }
  }

  /** A player who has won no more games than played has a percentage between 0 and 100. */
  lemma PercentInRange(p: Player)
    requires p.played > 0 && p.won <= p.played
    ensures WinPercent(p).Some? && WinPercent(p).value <= 100
    ensures WinPercent(p).value == 100 <==> p.won == p.played
  {
    var q := WinPercent(p).value;
    QuotientBounds(q, p.won, p.played);
  }

  /** Winning more games never lowers the percentage, for the same number played. */
  lemma PercentMonotone(p: Player, q: Player)
    requires p.played == q.played > 0 && p.won <= q.won
    ensures WinPercent(p).value <= WinPercent(q).value
  {
    var a, b := WinPercent(p).value, WinPercent(q).value;
    MulCancelStrict(a, b + 1, p.played);
  }

  /** Losing a game never raises the percentage. */
  lemma LossNeverRaisesPercent(p: Player)
    requires p.played > 0
    ensures WinPercent(UpdateGamesPlayed(p)).value <= WinPercent(p).value
  {
    var before, after := WinPercent(p).value, WinPercent(UpdateGamesPlayed(p)).value;
    QuotientAfterLoss(before, after, p.won, p.played);
  }

  /** The quotient for won of played + 1 is at most that for won of played. */
  lemma QuotientAfterLoss(before: int, after: int, won: int, played: int)
    requires played > 0 && after >= 0
    requires 100 * won < (before + 1) * played
    requires after * (played + 1) <= 100 * won
    ensures after <= before
  {
    assert after * played <= after * (played + 1);
    MulCancelStrict(after, before + 1, played);
  }

  /** Winning a game never lowers the percentage of a record with no more wins than games. */
  lemma WinNeverLowersPercent(p: Player)
    requires p.played > 0 && p.won <= p.played
    ensures WinPercent(UpdateGamesWon(UpdateGamesPlayed(p))).value >= WinPercent(p).value
  {
    var before := WinPercent(p).value;
    var after := WinPercent(UpdateGamesWon(UpdateGamesPlayed(p))).value;
    QuotientAfterWin(before, after, p.won, p.played);
  }

  /** The quotient for won + 1 of played + 1 is at least that for won of played, when won <= played. */
  lemma QuotientAfterWin(before: int, after: int, won: int, played: int)
    requires played > 0 && 0 <= won <= played
    requires before * played <= 100 * won < (before + 1) * played
    requires after * (played + 1) <= 100 * (won + 1) < (after + 1) * (played + 1)
    ensures before <= after
  {
    QuotientBounds(before, won, played);
    assert before * (played + 1) == before * played + before;
    MulCancelStrict(before, after + 1, played + 1);
  }

  /** Recording a game and recording a win are independent: either order gives the same record. */
  lemma UpdatesCommute(p: Player)
    ensures UpdateGamesWon(UpdateGamesPlayed(p)) == UpdateGamesPlayed(UpdateGamesWon(p))
  {
  }

  /* ---------------------------------------------------------------------
   * The records of the player tests.
   * ------------------------------------------------------------------- */

  /** Played, won, played, played, won, played: 2 of 4, which is 50 per cent. */
  lemma HalfWon()
    ensures var p := UpdateGamesPlayed(UpdateGamesWon(UpdateGamesPlayed(UpdateGamesPlayed(
              UpdateGamesWon(UpdateGamesPlayed(NewPlayer("test")))))));
      p.played == 4 && p.won == 2 && WinPercent(p) == Some(50)
  {
  }

  /** Three games played and three won: 100 per cent. */
  lemma AllWon()
    ensures var p := UpdateGamesWon(UpdateGamesPlayed(UpdateGamesWon(UpdateGamesPlayed(
              UpdateGamesWon(UpdateGamesPlayed(NewPlayer("test")))))));
      p.played == 3 && p.won == 3 && WinPercent(p) == Some(100)
  {
  }

  /** A fresh player has no win percentage: the source's division by zero. */
  lemma FreshPlayerHasNoPercent()
    ensures WinPercent(NewPlayer("test")) == None
  {
  }
}
