/**
 * Per-game statistic records of skaters and goalies, with their derived values. Counting fields
 * default to 0, and the optional faceoff percentage and goalie decision default to absent.
 */
module Stats {
  import opened Wrappers

  datatype SkaterGameStats = SkaterGameStats(
    playerId: int,
    gameId: int,
    teamAbbrev: string,
    goals: int := 0,
    assists: int := 0,
    points: int := 0,
    shots: int := 0,
    hits: int := 0,
    blockedShots: int := 0,
    pim: int := 0,
    toiSeconds: int := 0,
    plusMinus: int := 0,
    powerPlayGoals: int := 0,
    powerPlayPoints: int := 0,
    shorthandedGoals: int := 0,
    faceoffPct: Option<real> := None)

  datatype GoalieGameStats = GoalieGameStats(
    playerId: int,
    gameId: int,
    teamAbbrev: string,
    decision: Option<string> := None,
    shotsAgainst: int := 0,
    saves: int := 0,
    goalsAgainst: int := 0,
    toiSeconds: int := 0,
    powerPlaySaves: int := 0,
    shorthandedSaves: int := 0,
    evenStrengthSaves: int := 0)

  /** `toi_minutes`: time on ice in minutes. */
  function ToiMinutes(toiSeconds: int): (minutes: real)
    ensures minutes * 60.0 == toiSeconds as real
  {
    toiSeconds as real / 60.0
  }

  function SkaterToiMinutes(s: SkaterGameStats): (minutes: real)
    ensures minutes * 60.0 == s.toiSeconds as real
  {
    ToiMinutes(s.toiSeconds)
  }

  function GoalieToiMinutes(g: GoalieGameStats): (minutes: real)
    ensures minutes * 60.0 == g.toiSeconds as real
  {
    ToiMinutes(g.toiSeconds)
  }

  /** `save_pct`: absent without shots against, otherwise the share of shots saved. */
  function SavePct(g: GoalieGameStats): (pct: Option<real>)
    ensures pct.None? <==> g.shotsAgainst == 0
    ensures pct.Some? ==> pct.value * g.shotsAgainst as real == g.saves as real
  {
    if g.shotsAgainst == 0 then None else Some(g.saves as real / g.shotsAgainst as real)
  }

  /** With no more saves than shots against, the save percentage lies between 0 and 1. */
  lemma SavePctBounds(g: GoalieGameStats)
    requires 0 <= g.saves <= g.shotsAgainst
    ensures SavePct(g).Some? ==> 0.0 <= SavePct(g).value <= 1.0
  {
    if g.shotsAgainst != 0 {
      var p := SavePct(g).value;
      var n := g.shotsAgainst as real;
      assert p * n == g.saves as real;
      assert 0.0 <= p by { NonNegativeFactor(p, n); }
      assert p <= 1.0 by { NonNegativeFactor(1.0 - p, n); }
    }
  }

  /** A product of a positive number that is not negative has a factor that is not negative. */
  lemma NonNegativeFactor(x: real, n: real)
    requires n > 0.0 && x * n >= 0.0
    ensures x >= 0.0
  {
  }

  /** A record built from the identifying fields alone has every count 0 and nothing optional set. */
  lemma SkaterDefaults(playerId: int, gameId: int, teamAbbrev: string)
    ensures var s := SkaterGameStats(playerId, gameId, teamAbbrev);
      s.goals == s.assists == s.points == s.shots == s.hits == s.blockedShots == s.pim == 0
      && s.toiSeconds == s.plusMinus == s.powerPlayGoals == s.powerPlayPoints == s.shorthandedGoals == 0
      && s.faceoffPct.None?
  {
  }

  lemma GoalieDefaults(playerId: int, gameId: int, teamAbbrev: string)
    ensures var g := GoalieGameStats(playerId, gameId, teamAbbrev);
      g.decision.None? && g.shotsAgainst == g.saves == g.goalsAgainst == g.toiSeconds == 0
      && g.powerPlaySaves == g.shorthandedSaves == g.evenStrengthSaves == 0
      && SavePct(g).None?
  {
  }
}
