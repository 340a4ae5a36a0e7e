/**
 * The game-environment classifier: a divergence detector, a tier decision tree over the game
 * total and each side's high-danger Corsi share (HDCF%), the shot-quality registry lookup, and
 * the slate aggregator that classifies every game and orders the slate by tier and total.
 */
module GameEnvironment {
  import opened Wrappers
  import opened Slate
  import Text
  import Dict
  import StableSort

  // ---------------------------------------------------------------------------------------------
  // Thresholds

  const HighTotalThreshold: real := 6.0
  const ModerateTotalThreshold: real := 5.5
  const StrongHdcfPct: real := 52.0
  const WeakHdcfPct: real := 47.0
  /** Declared alongside the HDCF% thresholds; no rule consults the xGF% pair. */
  const StrongXgfPct: real := 52.0
  const WeakXgfPct: real := 47.0
  const HighPdo: real := 101.5
  /** Declared alongside `HighPdo`; no rule consults it, so a cold team is never flagged. */
  const LowPdo: real := 98.5
  const DivergenceTotalThreshold: real := 3.0
  const DivergenceHdcfThreshold: real := 47.0

  /** The HDCF% used for decisions: a missing value counts as the league-average 50.0. */
  function DecisionHdcf(q: TeamShotQuality): real {
    q.hdcfPct.GetOr(50.0)
  }

  // ---------------------------------------------------------------------------------------------
  // Building the entry

  /** The entry before any checks: the odds fields, and each present side's metrics. */
  function Attached(odds: GameOdds, hq: Option<TeamShotQuality>, aq: Option<TeamShotQuality>): GameSlateEntry {
    var e := NewEntry(odds.homeTeam, odds.awayTeam).(
      commenceTime := odds.commenceTime, total := odds.total,
      homeImpliedTotal := odds.homeImpliedTotal, awayImpliedTotal := odds.awayImpliedTotal,
      homeMl := odds.homeMl, awayMl := odds.awayMl, homeSpread := odds.homeSpread);
    var e1 := if hq.Some? then e.(
      homeHdcfPct := hq.value.hdcfPct, homeXgfPct := hq.value.xgfPct,
      homeHdcfPer60 := hq.value.hdcfPer60, homeHdcaPer60 := hq.value.hdcaPer60,
      homePdo := hq.value.pdo) else e;
    if aq.Some? then e1.(
      awayHdcfPct := aq.value.hdcfPct, awayXgfPct := aq.value.xgfPct,
      awayHdcfPer60 := aq.value.hdcfPer60, awayHdcaPer60 := aq.value.hdcaPer60,
      awayPdo := aq.value.pdo) else e1
  }

  // ---------------------------------------------------------------------------------------------
  // Divergence

  /** The offense-divergence message for one side, if it fires. */
  function OffenseMessage(team: string, implied: real, q: Option<TeamShotQuality>): seq<DivergenceMessage> {
    if q.Some? && q.value.hdcfPct.Some?
       && implied >= DivergenceTotalThreshold && q.value.hdcfPct.value < DivergenceHdcfThreshold
    then [OverpricedOffense(team, implied, q.value.hdcfPct.value)]
    else []
  }

  /** The running-hot message for one side, if it fires. */
  function LuckMessage(team: string, q: Option<TeamShotQuality>): seq<DivergenceMessage> {
    if q.Some? && q.value.pdo.Some? && q.value.pdo.value > HighPdo
    then [RunningHot(team, q.value.pdo.value)]
    else []
  }

  /** All divergence messages, in the order home offense, away offense, home luck, away luck. */
  function DivergenceMessages(e: GameSlateEntry, hq: Option<TeamShotQuality>, aq: Option<TeamShotQuality>): seq<DivergenceMessage> {
    OffenseMessage(e.homeTeam, e.homeImpliedTotal, hq) + OffenseMessage(e.awayTeam, e.awayImpliedTotal, aq)
    + LuckMessage(e.homeTeam, hq) + LuckMessage(e.awayTeam, aq)
  }

  /** The entry after the divergence check: flag and detail are written only when a message fired. */
  function WithDivergence(e: GameSlateEntry, hq: Option<TeamShotQuality>, aq: Option<TeamShotQuality>): GameSlateEntry {
    var msgs := DivergenceMessages(e, hq, aq);
    if msgs != [] then e.(divergenceFlag := true, divergenceDetail := msgs) else e
  }

  method CheckDivergence(entry: GameSlateEntry, hq: Option<TeamShotQuality>, aq: Option<TeamShotQuality>)
    returns (e: GameSlateEntry)
    ensures e == WithDivergence(entry, hq, aq)
    ensures e.divergenceFlag == (entry.divergenceFlag || DivergenceMessages(entry, hq, aq) != [])
  {
    var flags: seq<DivergenceMessage> := [];
    if hq.Some? && hq.value.hdcfPct.Some? {
      if entry.homeImpliedTotal >= DivergenceTotalThreshold && hq.value.hdcfPct.value < DivergenceHdcfThreshold {
        flags := flags + [OverpricedOffense(entry.homeTeam, entry.homeImpliedTotal, hq.value.hdcfPct.value)];
      }
    }
    assert flags == OffenseMessage(entry.homeTeam, entry.homeImpliedTotal, hq);
    if aq.Some? && aq.value.hdcfPct.Some? {
      if entry.awayImpliedTotal >= DivergenceTotalThreshold && aq.value.hdcfPct.value < DivergenceHdcfThreshold {
        flags := flags + [OverpricedOffense(entry.awayTeam, entry.awayImpliedTotal, aq.value.hdcfPct.value)];
      }
    }
    assert flags == OffenseMessage(entry.homeTeam, entry.homeImpliedTotal, hq)
                    + OffenseMessage(entry.awayTeam, entry.awayImpliedTotal, aq);
    if hq.Some? && hq.value.pdo.Some? && hq.value.pdo.value > HighPdo {
      flags := flags + [RunningHot(entry.homeTeam, hq.value.pdo.value)];
    }
    if aq.Some? && aq.value.pdo.Some? && aq.value.pdo.value > HighPdo {
      flags := flags + [RunningHot(entry.awayTeam, aq.value.pdo.value)];
    }
    assert flags == DivergenceMessages(entry, hq, aq);
    e := entry;
    if flags != [] {
      e := e.(divergenceFlag := true, divergenceDetail := flags);
    }
  }

  /** Every message quotes numbers on the firing side of its strict thresholds. */
  lemma DivergenceMessagesSound(e: GameSlateEntry, hq: Option<TeamShotQuality>, aq: Option<TeamShotQuality>)
    ensures forall m :: m in DivergenceMessages(e, hq, aq) && m.OverpricedOffense? ==>
      m.impliedTotal >= DivergenceTotalThreshold && m.hdcfPct < DivergenceHdcfThreshold
    ensures forall m :: m in DivergenceMessages(e, hq, aq) && m.RunningHot? ==> m.pdo > HighPdo
  {
  }

  /** At most four messages, and every offense message comes before every luck message. */
  lemma DivergenceMessagesOrder(e: GameSlateEntry, hq: Option<TeamShotQuality>, aq: Option<TeamShotQuality>)
    ensures |DivergenceMessages(e, hq, aq)| <= 4
    ensures forall i, j :: 0 <= i < j < |DivergenceMessages(e, hq, aq)| && DivergenceMessages(e, hq, aq)[i].RunningHot? ==>
      DivergenceMessages(e, hq, aq)[j].RunningHot?
  {
    var off := OffenseMessage(e.homeTeam, e.homeImpliedTotal, hq) + OffenseMessage(e.awayTeam, e.awayImpliedTotal, aq);
    var luck := LuckMessage(e.homeTeam, hq) + LuckMessage(e.awayTeam, aq);
    assert DivergenceMessages(e, hq, aq) == off + luck;
    assert forall i :: 0 <= i < |off| ==> off[i].OverpricedOffense?;
    assert forall i :: 0 <= i < |luck| ==> luck[i].RunningHot?;
  }

  /** A side whose offense is overpriced is reported first among that side's messages, home before away. */
  lemma HomeOffenseFirst(e: GameSlateEntry, hq: Option<TeamShotQuality>, aq: Option<TeamShotQuality>, h: real)
    requires hq.Some? && hq.value.hdcfPct == Some(h)
    requires e.homeImpliedTotal >= DivergenceTotalThreshold && h < DivergenceHdcfThreshold
    ensures DivergenceMessages(e, hq, aq)[0] == OverpricedOffense(e.homeTeam, e.homeImpliedTotal, h)
  {
  }

  /** Every firing condition produces its message. */
  lemma DivergenceMessagesComplete(e: GameSlateEntry, hq: Option<TeamShotQuality>, aq: Option<TeamShotQuality>)
    ensures hq.Some? && hq.value.hdcfPct.Some? && e.homeImpliedTotal >= DivergenceTotalThreshold
            && hq.value.hdcfPct.value < DivergenceHdcfThreshold
            ==> OverpricedOffense(e.homeTeam, e.homeImpliedTotal, hq.value.hdcfPct.value) in DivergenceMessages(e, hq, aq)
    ensures aq.Some? && aq.value.hdcfPct.Some? && e.awayImpliedTotal >= DivergenceTotalThreshold
            && aq.value.hdcfPct.value < DivergenceHdcfThreshold
            ==> OverpricedOffense(e.awayTeam, e.awayImpliedTotal, aq.value.hdcfPct.value) in DivergenceMessages(e, hq, aq)
    ensures hq.Some? && hq.value.pdo.Some? && hq.value.pdo.value > HighPdo
            ==> RunningHot(e.homeTeam, hq.value.pdo.value) in DivergenceMessages(e, hq, aq)
    ensures aq.Some? && aq.value.pdo.Some? && aq.value.pdo.value > HighPdo
            ==> RunningHot(e.awayTeam, aq.value.pdo.value) in DivergenceMessages(e, hq, aq)
  {
  }

  /** A PDO at or below 101.5 (the "cold" threshold 98.5 included) never produces a luck message. */
  lemma NoLuckMessageAtOrBelowHighPdo(team: string, q: TeamShotQuality)
    requires q.pdo.Some? && q.pdo.value <= HighPdo
    ensures LuckMessage(team, Some(q)) == []
    ensures q.pdo == Some(LowPdo) ==> LuckMessage(team, Some(q)) == []
  {
  }

  /** Without shot-quality records, nothing is flagged. */
  lemma NoQualityNoDivergence(e: GameSlateEntry)
    ensures DivergenceMessages(e, None, None) == []
    ensures WithDivergence(e, None, None) == e
  {
  }

  /** On a fresh entry, the flag is set exactly when the detail is non-empty, and the detail is the message list. */
  lemma FlagIffDetail(e: GameSlateEntry, hq: Option<TeamShotQuality>, aq: Option<TeamShotQuality>)
    requires !e.divergenceFlag && e.divergenceDetail == []
    ensures WithDivergence(e, hq, aq).divergenceFlag <==> WithDivergence(e, hq, aq).divergenceDetail != []
    ensures WithDivergence(e, hq, aq).divergenceDetail == DivergenceMessages(e, hq, aq)
  {
  }

  // ---------------------------------------------------------------------------------------------
  // Tier decision tree

  /** The tier and its reason, from the total, the divergence flag and the two records. */
  function Classification(total: real, homeTeam: string, awayTeam: string, flagged: bool,
                          hq: Option<TeamShotQuality>, aq: Option<TeamShotQuality>): (Environment, Reason)
  {
    if hq.None? || aq.None? then
      if total >= HighTotalThreshold then (Chalk, HighTotalNoData(total))
      else if total >= ModerateTotalThreshold then (Leverage, ModerateTotalNoData(total))
      else (Contrarian, LowTotalNoData(total))
    else
      var h := DecisionHdcf(hq.value);
      var a := DecisionHdcf(aq.value);
      var homeStrong, awayStrong := h >= StrongHdcfPct, a >= StrongHdcfPct;
      var homeWeak, awayWeak := h < WeakHdcfPct, a < WeakHdcfPct;
      if total >= HighTotalThreshold && homeStrong && awayStrong then (Chalk, StrongBothSides(total, h, a))
      else if total >= ModerateTotalThreshold then
        if homeStrong && awayWeak then (Leverage, SideDominates(total, Home, homeTeam, h, a))
        else if awayStrong && homeWeak then (Leverage, SideDominates(total, Away, awayTeam, a, h))
        else if total >= HighTotalThreshold then (Chalk, HighTotalModerateQuality(total, h, a))
        else (Leverage, BalancedQuality(total, h, a))
      else if flagged then (Contrarian, DivergenceTrap(total))
      else if total < ModerateTotalThreshold then
        if homeStrong || awayStrong then (Contrarian, SneakyUpside(total, if homeStrong then Home else Away))
        else (Avoid, NoEdge(total, h, a))
      else (Avoid, InsufficientSignal)
  }

  function WithTier(e: GameSlateEntry, hq: Option<TeamShotQuality>, aq: Option<TeamShotQuality>): GameSlateEntry {
    var c := Classification(e.total, e.homeTeam, e.awayTeam, e.divergenceFlag, hq, aq);
    e.(environment := c.0, environmentReason := c.1)
  }

  method ClassifyEnvironment(entry: GameSlateEntry, hq: Option<TeamShotQuality>, aq: Option<TeamShotQuality>)
    returns (e: GameSlateEntry)
    ensures e == WithTier(entry, hq, aq)
  {
    var total := entry.total;
    e := entry;
    if hq.None? || aq.None? {
      if total >= HighTotalThreshold {
        e := e.(environment := Chalk, environmentReason := HighTotalNoData(total));
      } else if total >= ModerateTotalThreshold {
        e := e.(environment := Leverage, environmentReason := ModerateTotalNoData(total));
      } else {
        e := e.(environment := Contrarian, environmentReason := LowTotalNoData(total));
      }
      return;
    }
    var h := if hq.value.hdcfPct.Some? then hq.value.hdcfPct.value else 50.0;
    var a := if aq.value.hdcfPct.Some? then aq.value.hdcfPct.value else 50.0;
    var homeStrong := h >= StrongHdcfPct;
    var awayStrong := a >= StrongHdcfPct;
    var homeWeak := h < WeakHdcfPct;
    var awayWeak := a < WeakHdcfPct;
    if total >= HighTotalThreshold && homeStrong && awayStrong {
      e := e.(environment := Chalk, environmentReason := StrongBothSides(total, h, a));
      return;
    }
    if total >= ModerateTotalThreshold {
      if homeStrong && awayWeak {
        e := e.(environment := Leverage, environmentReason := SideDominates(total, Home, entry.homeTeam, h, a));
        return;
      }
      if awayStrong && homeWeak {
        e := e.(environment := Leverage, environmentReason := SideDominates(total, Away, entry.awayTeam, a, h));
        return;
      }
      if total >= HighTotalThreshold {
        e := e.(environment := Chalk, environmentReason := HighTotalModerateQuality(total, h, a));
        return;
      }
      e := e.(environment := Leverage, environmentReason := BalancedQuality(total, h, a));
      return;
    }
    if entry.divergenceFlag {
      e := e.(environment := Contrarian, environmentReason := DivergenceTrap(total));
      return;
    }
    if total < ModerateTotalThreshold {
      if homeStrong || awayStrong {
        e := e.(environment := Contrarian, environmentReason := SneakyUpside(total, if homeStrong then Home else Away));
      } else {
        e := e.(environment := Avoid, environmentReason := NoEdge(total, h, a));
      }
      return;
    }
    e := e.(environment := Avoid, environmentReason := InsufficientSignal);
  }

  /** If either record is missing, the tier follows the total alone: 6.0 and up CHALK, 5.5 and up LEVERAGE, else CONTRARIAN. */
  lemma NoDataTierByTotal(total: real, home: string, away: string, flagged: bool,
                          hq: Option<TeamShotQuality>, aq: Option<TeamShotQuality>)
    requires hq.None? || aq.None?
    ensures var c := Classification(total, home, away, flagged, hq, aq);
      && (c.0 == Chalk <==> total >= 6.0)
      && (c.0 == Leverage <==> 5.5 <= total < 6.0)
      && (c.0 == Contrarian <==> total < 5.5)
      && c.1 != Unset
  {
  }

  /** With both records and a total of 6.0 or more: LEVERAGE exactly when one side is strong and the other weak, otherwise CHALK. */
  lemma HighTotalTier(total: real, home: string, away: string, flagged: bool, hq: TeamShotQuality, aq: TeamShotQuality)
    requires total >= HighTotalThreshold
    ensures var c := Classification(total, home, away, flagged, Some(hq), Some(aq));
      var h, a := DecisionHdcf(hq), DecisionHdcf(aq);
      && (c.0 == Leverage <==> (h >= 52.0 && a < 47.0) || (a >= 52.0 && h < 47.0))
      && (c.0 == Chalk <==> !((h >= 52.0 && a < 47.0) || (a >= 52.0 && h < 47.0)))
  {
  }

  /** With both records and 5.5 <= total < 6.0 the tier is always LEVERAGE. */
  lemma ModerateTotalTier(total: real, home: string, away: string, flagged: bool, hq: TeamShotQuality, aq: TeamShotQuality)
    requires ModerateTotalThreshold <= total < HighTotalThreshold
    ensures Classification(total, home, away, flagged, Some(hq), Some(aq)).0 == Leverage
  {
  }

  /** With both records and a total below 5.5: CONTRARIAN exactly when flagged or either side is strong, otherwise AVOID. */
  lemma LowTotalTier(total: real, home: string, away: string, flagged: bool, hq: TeamShotQuality, aq: TeamShotQuality)
    requires total < ModerateTotalThreshold
    ensures var c := Classification(total, home, away, flagged, Some(hq), Some(aq));
      var strong := DecisionHdcf(hq) >= 52.0 || DecisionHdcf(aq) >= 52.0;
      && (c.0 == Contrarian <==> flagged || strong)
      && (c.0 == Avoid <==> !(flagged || strong))
  {
  }

  /** A missing HDCF% decides exactly as a reported 50.0 would. */
  lemma MissingHdcfIsNeutral(total: real, home: string, away: string, flagged: bool, hq: TeamShotQuality, aq: TeamShotQuality)
    requires hq.hdcfPct.None?
    ensures Classification(total, home, away, flagged, Some(hq), Some(aq))
         == Classification(total, home, away, flagged, Some(hq.(hdcfPct := Some(50.0))), Some(aq))
  {
  }

  /** Every outcome carries a reason quoting the total; the fallback "insufficient signal" is unreachable. */
  lemma ReasonAlwaysGiven(total: real, home: string, away: string, flagged: bool,
                          hq: Option<TeamShotQuality>, aq: Option<TeamShotQuality>)
    ensures var r := Classification(total, home, away, flagged, hq, aq).1;
      !r.Unset? && !r.InsufficientSignal? && r.total == total
  {
  }

  // ---------------------------------------------------------------------------------------------
  // One game

  function ClassifiedEntry(odds: GameOdds, hq: Option<TeamShotQuality>, aq: Option<TeamShotQuality>): GameSlateEntry {
    WithTier(WithDivergence(Attached(odds, hq, aq), hq, aq), hq, aq)
  }

  /** `classify_game`: copy the odds, attach each present side's metrics, check divergence, then pick the tier. */
  method ClassifyGame(odds: GameOdds, hq: Option<TeamShotQuality>, aq: Option<TeamShotQuality>)
    returns (entry: GameSlateEntry)
    ensures entry == ClassifiedEntry(odds, hq, aq)
    ensures entry.homeTeam == odds.homeTeam && entry.awayTeam == odds.awayTeam
    ensures entry.commenceTime == odds.commenceTime && entry.total == odds.total
    ensures entry.homeImpliedTotal == odds.homeImpliedTotal && entry.awayImpliedTotal == odds.awayImpliedTotal
    ensures entry.homeMl == odds.homeMl && entry.awayMl == odds.awayMl && entry.homeSpread == odds.homeSpread
    ensures hq.Some? ==> (entry.homeHdcfPct == hq.value.hdcfPct && entry.homeXgfPct == hq.value.xgfPct
      && entry.homeHdcfPer60 == hq.value.hdcfPer60 && entry.homeHdcaPer60 == hq.value.hdcaPer60 && entry.homePdo == hq.value.pdo)
    ensures hq.None? ==> (entry.homeHdcfPct.None? && entry.homeXgfPct.None? && entry.homeHdcfPer60.None?
      && entry.homeHdcaPer60.None? && entry.homePdo.None?)
    ensures aq.Some? ==> (entry.awayHdcfPct == aq.value.hdcfPct && entry.awayXgfPct == aq.value.xgfPct
      && entry.awayHdcfPer60 == aq.value.hdcfPer60 && entry.awayHdcaPer60 == aq.value.hdcaPer60 && entry.awayPdo == aq.value.pdo)
    ensures aq.None? ==> (entry.awayHdcfPct.None? && entry.awayXgfPct.None? && entry.awayHdcfPer60.None?
      && entry.awayHdcaPer60.None? && entry.awayPdo.None?)
    ensures entry.divergenceFlag <==> entry.divergenceDetail != []
    ensures entry.homeLines.None? && entry.awayLines.None?
  {
    entry := NewEntry(odds.homeTeam, odds.awayTeam);
    entry := entry.(commenceTime := odds.commenceTime, total := odds.total,
                    homeImpliedTotal := odds.homeImpliedTotal, awayImpliedTotal := odds.awayImpliedTotal,
                    homeMl := odds.homeMl, awayMl := odds.awayMl, homeSpread := odds.homeSpread);
    if hq.Some? {
      entry := entry.(homeHdcfPct := hq.value.hdcfPct, homeXgfPct := hq.value.xgfPct,
                      homeHdcfPer60 := hq.value.hdcfPer60, homeHdcaPer60 := hq.value.hdcaPer60,
                      homePdo := hq.value.pdo);
    }
    if aq.Some? {
      entry := entry.(awayHdcfPct := aq.value.hdcfPct, awayXgfPct := aq.value.xgfPct,
                      awayHdcfPer60 := aq.value.hdcfPer60, awayHdcaPer60 := aq.value.hdcaPer60,
                      awayPdo := aq.value.pdo);
    }
    assert entry == Attached(odds, hq, aq);
    FlagIffDetail(entry, hq, aq);
    entry := CheckDivergence(entry, hq, aq);
    entry := ClassifyEnvironment(entry, hq, aq);
  }

  /** A test record: only the HDCF% and PDO vary. */
  function TestQuality(hdcf: real, pdo: real): TeamShotQuality {
    TeamShotQuality("TST", 50, None, None, None, None, Some(50.0), Some(hdcf), None, None, None, None, Some(pdo))
  }

  /** Test odds: implied totals are 55% and 45% of the total. */
  function TestOdds(total: real): GameOdds {
    GameOdds("test", "Home Team", "Away Team", None, -150, 130, Some(-1.5), total, total * 0.55, total * 0.45, "test")
  }

  /** The classifier's documented cases: strong both sides at 6.5 is CHALK, a dominant side at 5.5 is LEVERAGE, weak both sides at 5.0 is AVOID, a strong side at 5.0 is CONTRARIAN. */
  lemma ClassifierExamples()
    ensures ClassifiedEntry(TestOdds(6.5), Some(TestQuality(54.0, 100.0)), Some(TestQuality(53.0, 100.0))).environment == Chalk
    ensures ClassifiedEntry(TestOdds(6.5), None, None).environment == Chalk
    ensures ClassifiedEntry(TestOdds(5.5), Some(TestQuality(55.0, 100.0)), Some(TestQuality(44.0, 100.0))).environmentReason.SideDominates?
    ensures ClassifiedEntry(TestOdds(5.5), Some(TestQuality(44.0, 100.0)), Some(TestQuality(55.0, 100.0))).environment == Leverage
    ensures ClassifiedEntry(TestOdds(5.0), Some(TestQuality(54.0, 100.0)), Some(TestQuality(44.0, 100.0))).environment == Contrarian
    ensures ClassifiedEntry(TestOdds(5.0), None, None).environment == Contrarian
    ensures ClassifiedEntry(TestOdds(5.0), Some(TestQuality(46.0, 100.0)), Some(TestQuality(45.0, 100.0))).environment == Avoid
  {
  }

  /** The documented divergence cases: a 3.5 implied total at 44% HDCF is overpriced offense; a 103.0 PDO runs hot; matching quality is not flagged. */
  lemma DivergenceExamples()
    ensures ClassifiedEntry(TestOdds(6.0).(homeImpliedTotal := 3.5), Some(TestQuality(44.0, 100.0)), Some(TestQuality(52.0, 100.0))).divergenceDetail
         == [OverpricedOffense("Home Team", 3.5, 44.0)]
    ensures ClassifiedEntry(TestOdds(6.0), Some(TestQuality(53.0, 103.0)), Some(TestQuality(53.0, 99.0))).divergenceDetail
         == [RunningHot("Home Team", 103.0)]
    ensures !ClassifiedEntry(TestOdds(6.0), Some(TestQuality(54.0, 100.0)), Some(TestQuality(53.0, 100.0))).divergenceFlag
  {
  }

  // ---------------------------------------------------------------------------------------------
  // Registry lookup

  /** A key matches a team name loosely when either is a (case-sensitive) substring of the other. */
  predicate LooseMatch(key: string, name: string) {
    Text.Contains(name, key) || Text.Contains(key, name)
  }

  /** The first position at or after `from` whose key matches `name` loosely. */
  function FirstLooseMatch(name: string, registry: Dict.Dict<TeamShotQuality>, from: nat): (r: Option<nat>)
    ensures r.Some? ==> from <= r.value < |registry| && LooseMatch(registry[r.value].0, name)
    ensures r.Some? ==> forall j :: from <= j < r.value ==> !LooseMatch(registry[j].0, name)
    ensures r.None? ==> forall j :: from <= j < |registry| ==> !LooseMatch(registry[j].0, name)
    decreases |registry| - from
  {
    if from >= |registry| then None
    else if LooseMatch(registry[from].0, name) then Some(from)
    else FirstLooseMatch(name, registry, from + 1)
  }

  /** The record for a team name: an exact key first, then the first loose match in map order, else none. */
  function TeamQuality(name: string, registry: Dict.Dict<TeamShotQuality>): (r: Option<TeamShotQuality>)
    ensures Dict.HasKey(registry, name) ==> r == Dict.Get(registry, name)
    ensures !Dict.HasKey(registry, name) ==>
      (r.Some? <==> exists i :: 0 <= i < |registry| && LooseMatch(registry[i].0, name))
    ensures !Dict.HasKey(registry, name) && r.Some? ==>
      exists i :: 0 <= i < |registry| && LooseMatch(registry[i].0, name) && r.value == registry[i].1
        && forall j :: 0 <= j < i ==> !LooseMatch(registry[j].0, name)
  {
    if Dict.HasKey(registry, name) then Dict.Get(registry, name)
    else
      match FirstLooseMatch(name, registry, 0)
      case Some(i) => Some(registry[i].1)
      case None => None
  }

  method FindTeamQuality(name: string, registry: Dict.Dict<TeamShotQuality>) returns (r: Option<TeamShotQuality>)
    ensures r == TeamQuality(name, registry)
  {
    if Dict.HasKey(registry, name) {
      return Dict.Get(registry, name);
    }
    var i := 0;
    while i < |registry|
      invariant 0 <= i <= |registry|
      invariant FirstLooseMatch(name, registry, 0) == FirstLooseMatch(name, registry, i)
    {
      var (key, quality) := registry[i];
      if Text.Contains(name, key) || Text.Contains(key, name) {
        return Some(quality);
      }
      i := i + 1;
    }
    return None;
  }

  /** The loose match is case-sensitive: an abbreviation key "CAR" does not find "Carolina Hurricanes". */
  lemma AbbreviationKeyDoesNotMatchFullName(q: TeamShotQuality)
    ensures TeamQuality("Carolina Hurricanes", [("CAR", q)]) == None
  {
    assert "CAR"[1] == 'A';
    Text.NotContainsMissingChar("Carolina Hurricanes", "CAR", 'A');
    assert !LooseMatch("CAR", "Carolina Hurricanes");
    assert FirstLooseMatch("Carolina Hurricanes", [("CAR", q)], 0) == None;
  }

  // ---------------------------------------------------------------------------------------------
  // The slate

  /** The tier's place in the slate: CHALK 0, LEVERAGE 1, CONTRARIAN 2, AVOID 3. */
  function TierRank(env: Environment): int {
    match env
    case Chalk => 0
    case Leverage => 1
    case Contrarian => 2
    case Avoid => 3
  }

  /** The slate's sort key: tier rank, then the total, largest first. */
  function SlateRank(g: GameSlateEntry): StableSort.Rank {
    StableSort.Rank(TierRank(g.environment), -g.total)
  }

  function GameFor(odds: GameOdds, registry: Dict.Dict<TeamShotQuality>): GameSlateEntry {
    ClassifiedEntry(odds, TeamQuality(odds.homeTeam, registry), TeamQuality(odds.awayTeam, registry))
  }

  /** The classified games, one per odds record and in input order, before sorting. */
  function ClassifiedGames(oddsList: seq<GameOdds>, registry: Dict.Dict<TeamShotQuality>): (r: seq<GameSlateEntry>)
    ensures |r| == |oddsList|
  {
    seq(|oddsList|, i requires 0 <= i < |oddsList| => GameFor(oddsList[i], registry))
  }

  /** In slate order, tiers come CHALK, LEVERAGE, CONTRARIAN, AVOID, and within a tier the larger total first. */
  predicate InSlateOrder(games: seq<GameSlateEntry>) {
    forall i, j :: 0 <= i < j < |games| ==>
      TierRank(games[i].environment) < TierRank(games[j].environment)
      || (games[i].environment == games[j].environment && games[i].total >= games[j].total)
  }

  lemma SortedIsSlateOrder(games: seq<GameSlateEntry>)
    requires StableSort.Sorted(games, SlateRank)
    ensures InSlateOrder(games)
  {
    forall i, j | 0 <= i < j < |games|
      ensures TierRank(games[i].environment) < TierRank(games[j].environment)
        || (games[i].environment == games[j].environment && games[i].total >= games[j].total)
    {
      assert StableSort.RankLe(SlateRank(games[i]), SlateRank(games[j]));
    }
  }

  lemma ClassifiedGamesSnoc(oddsList: seq<GameOdds>, odds: GameOdds, registry: Dict.Dict<TeamShotQuality>)
    ensures ClassifiedGames(oddsList + [odds], registry) == ClassifiedGames(oddsList, registry) + [GameFor(odds, registry)]
  {
  }

  /** The body of the slate loop: looks up both teams and classifies the game. */
  method ClassifyAgainst(odds: GameOdds, registry: Dict.Dict<TeamShotQuality>) returns (entry: GameSlateEntry)
    ensures entry == GameFor(odds, registry)
  {
    var homeQ := FindTeamQuality(odds.homeTeam, registry);
    var awayQ := FindTeamQuality(odds.awayTeam, registry);
    entry := ClassifyGame(odds, homeQ, awayQ);
  }

  /** Classifies every odds record against the registry, in input order. */
  method ClassifySlate(oddsList: seq<GameOdds>, registry: Dict.Dict<TeamShotQuality>) returns (games: seq<GameSlateEntry>)
    ensures games == ClassifiedGames(oddsList, registry)
  {
    games := [];
    var i := 0;
    while i < |oddsList|
      invariant 0 <= i <= |oddsList|
      invariant games == ClassifiedGames(oddsList[..i], registry)
    {
      var entry := ClassifyAgainst(oddsList[i], registry);
      ClassifiedGamesSnoc(oddsList[..i], oddsList[i], registry);
      assert oddsList[..i] + [oddsList[i]] == oddsList[..i + 1];
      games := games + [entry];
      i := i + 1;
    }
    assert oddsList[..i] == oddsList;
  }

  method BuildSlateBreakdown(oddsList: seq<GameOdds>, registry: Dict.Dict<TeamShotQuality>) returns (b: SlateBreakdown)
    ensures b.games == StableSort.Sort(ClassifiedGames(oddsList, registry), SlateRank)
    ensures |b.games| == |oddsList|
    ensures multiset(b.games) == multiset(ClassifiedGames(oddsList, registry))
    ensures InSlateOrder(b.games)
  {
    var games := ClassifySlate(oddsList, registry);
    var sorted := StableSort.Sort(games, SlateRank);
    SortedIsSlateOrder(sorted);
    assert |multiset(sorted)| == |multiset(games)|;
    b := SlateBreakdown(sorted);
  }

  /** Games that share a tier and a total keep their input order. */
  lemma SlateSortIsStable(oddsList: seq<GameOdds>, registry: Dict.Dict<TeamShotQuality>, k: StableSort.Rank)
    ensures StableSort.WithRank(StableSort.Sort(ClassifiedGames(oddsList, registry), SlateRank), SlateRank, k)
         == StableSort.WithRank(ClassifiedGames(oddsList, registry), SlateRank, k)
  {
    StableSort.SortStable(ClassifiedGames(oddsList, registry), SlateRank, k);
  }

  /** Every classified game has its divergence flag set exactly when its detail is non-empty. */
  lemma ClassifiedFlagIffDetail(odds: GameOdds, hq: Option<TeamShotQuality>, aq: Option<TeamShotQuality>)
    ensures ClassifiedEntry(odds, hq, aq).divergenceFlag <==> ClassifiedEntry(odds, hq, aq).divergenceDetail != []
  {
    FlagIffDetail(Attached(odds, hq, aq), hq, aq);
  }

  /** The four tier views, one after another. */
  function TierViews(games: seq<GameSlateEntry>): seq<GameSlateEntry> {
    InTier(games, Chalk) + InTier(games, Leverage) + InTier(games, Contrarian) + InTier(games, Avoid)
  }

  /** Games all of a later tier than `env` contribute nothing to its view. */
  lemma LaterTiersMissView(r: seq<GameSlateEntry>, env: Environment)
    requires forall i :: 0 <= i < |r| ==> TierRank(env) < TierRank(r[i].environment)
    ensures InTier(r, env) == []
  {
    forall i | 0 <= i < |r|
      ensures !HasTier(env)(r[i])
    {
      assert TierRank(env) < TierRank(r[i].environment);
    }
    FilterNone(r, HasTier(env));
  }

  /** The tier views of a non-empty sequence, given how each view of its tail starts. */
  lemma TierViewsUnfold(gs: seq<GameSlateEntry>)
    requires gs != []
    ensures var k := TierRank(gs[0].environment);
      TierViews(gs) == (if k == 0 then [gs[0]] else []) + InTier(gs[1..], Chalk)
                       + ((if k == 1 then [gs[0]] else []) + InTier(gs[1..], Leverage))
                       + ((if k == 2 then [gs[0]] else []) + InTier(gs[1..], Contrarian))
                       + ((if k == 3 then [gs[0]] else []) + InTier(gs[1..], Avoid))
  {
    InTierCons(gs, Chalk);
    InTierCons(gs, Leverage);
    InTierCons(gs, Contrarian);
    InTierCons(gs, Avoid);
  }

  /** A game whose tier is no later than any that follows it heads the tier views. */
  lemma TierViewsCons(gs: seq<GameSlateEntry>)
    requires gs != []
    requires forall i :: 1 <= i < |gs| ==> TierRank(gs[0].environment) <= TierRank(gs[i].environment)
    ensures TierViews(gs) == [gs[0]] + TierViews(gs[1..])
  {
    var x, r := gs[0], gs[1..];
    var k := TierRank(x.environment);
    assert forall i :: 0 <= i < |r| ==> k <= TierRank(r[i].environment) by {
      forall i | 0 <= i < |r|
        ensures k <= TierRank(r[i].environment)
      {
        assert r[i] == gs[i + 1];
      }
    }
    if k >= 1 {
      LaterTiersMissView(r, Chalk);
    }
    if k >= 2 {
      LaterTiersMissView(r, Leverage);
    }
    if k >= 3 {
      LaterTiersMissView(r, Contrarian);
    }
    TierViewsUnfold(gs);
    PrependToView(x, k, InTier(r, Chalk), InTier(r, Leverage), InTier(r, Contrarian), InTier(r, Avoid));
  }

  /** Sequence algebra behind `TierViewsCons`: the game joins the view of its own tier, and earlier views are empty. */
  lemma PrependToView<T>(x: T, k: int, c: seq<T>, l: seq<T>, o: seq<T>, a: seq<T>)
    requires 0 <= k <= 3
    requires k >= 1 ==> c == []
    requires k >= 2 ==> l == []
    requires k >= 3 ==> o == []
    ensures (if k == 0 then [x] else []) + c + ((if k == 1 then [x] else []) + l)
          + ((if k == 2 then [x] else []) + o) + ((if k == 3 then [x] else []) + a)
         == [x] + (c + l + o + a)
  {
  }

  /** In slate order the four tier views, one after another, are the games themselves. */
  lemma {:induction false} TierViewsConcatenate(games: seq<GameSlateEntry>)
    requires InSlateOrder(games)
    ensures TierViews(games) == games
  {
    if games != [] {
      var r := games[1..];
      assert forall i :: 0 <= i < |r| ==> r[i] == games[i + 1];
      TierViewsConcatenate(r);
      TierViewsCons(games);
      assert [games[0]] + r == games;
    }
  }

  /** The breakdown's tier views, in tier order, list every game exactly as the slate does. */
  lemma BreakdownViewsInSlateOrder(b: SlateBreakdown)
    requires InSlateOrder(b.games)
    ensures b.games == b.ChalkGames() + b.LeverageGames() + b.ContrarianGames() + b.AvoidGames()
  {
    TierViewsConcatenate(b.games);
    assert TierViews(b.games) == b.ChalkGames() + b.LeverageGames() + b.ContrarianGames() + b.AvoidGames();
  }
}
