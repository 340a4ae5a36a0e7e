/**
 * The slate data model: odds, shot quality, line combinations and the per-game slate entry that
 * the classifier fills in, plus the breakdown's tier and divergence views.
 */
module Slate {
  import opened Wrappers

  /** The four game-environment tiers. */
  datatype Environment = Chalk | Leverage | Contrarian | Avoid

  datatype Side = Home | Away

  datatype PlayerLine = PlayerLine(
    name: string,
    position: string,
    injuryStatus: Option<string>,
    gameTimeDecision: bool)

  datatype LineCombination = LineCombination(
    groupType: string,
    groupName: string,
    groupId: string,
    players: seq<PlayerLine>)

  datatype TeamLines = TeamLines(
    teamAbbrev: string,
    forwardLines: seq<LineCombination>,
    defensePairs: seq<LineCombination>,
    powerPlay: seq<LineCombination>,
    penaltyKill: seq<LineCombination>,
    startingGoalie: Option<PlayerLine>,
    backupGoalie: Option<PlayerLine>)

  /** `TeamLines(team_abbrev=abbrev)`: every other field at its default. */
  function NewTeamLines(abbrev: string): (t: TeamLines)
    ensures t.teamAbbrev == abbrev
    ensures t.forwardLines == [] && t.defensePairs == [] && t.powerPlay == [] && t.penaltyKill == []
    ensures t.startingGoalie.None? && t.backupGoalie.None?
  {
    TeamLines(abbrev, [], [], [], [], None, None)
  }

  /** Vegas odds for one game; the start time is kept as its text. */
  datatype GameOdds = GameOdds(
    eventId: string,
    homeTeam: string,
    awayTeam: string,
    commenceTime: Option<string>,
    homeMl: int,
    awayMl: int,
    homeSpread: Option<real>,
    total: real,
    homeImpliedTotal: real,
    awayImpliedTotal: real,
    bookmaker: string)

  /** The bookmaker recorded when none is given. */
  const DefaultBookmaker: string := "draftkings"

  /** Team-level shot-quality metrics; a metric that is missing is None. */
  datatype TeamShotQuality = TeamShotQuality(
    teamAbbrev: string,
    games: int,
    cfPct: Option<real>,
    ffPct: Option<real>,
    sfPct: Option<real>,
    gfPct: Option<real>,
    xgfPct: Option<real>,
    hdcfPct: Option<real>,
    hdcfPer60: Option<real>,
    hdcaPer60: Option<real>,
    shPct: Option<real>,
    svPct: Option<real>,
    pdo: Option<real>)

  /** One divergence message, by kind and with the numbers it quotes. */
  datatype DivergenceMessage =
    | OverpricedOffense(team: string, impliedTotal: real, hdcfPct: real)
    | RunningHot(team: string, pdo: real)

  /** Why a game got its tier, by case and with the numbers the explanation quotes. */
  datatype Reason =
    | Unset
    | HighTotalNoData(total: real)
    | ModerateTotalNoData(total: real)
    | LowTotalNoData(total: real)
    | StrongBothSides(total: real, homeHdcf: real, awayHdcf: real)
    | SideDominates(total: real, side: Side, team: string, leaderHdcf: real, trailerHdcf: real)
    | HighTotalModerateQuality(total: real, homeHdcf: real, awayHdcf: real)
    | BalancedQuality(total: real, homeHdcf: real, awayHdcf: real)
    | DivergenceTrap(total: real)
    | SneakyUpside(total: real, strongSide: Side)
    | NoEdge(total: real, homeHdcf: real, awayHdcf: real)
    | InsufficientSignal

  /** A single game's slate analysis. */
  datatype GameSlateEntry = GameSlateEntry(
    homeTeam: string,
    awayTeam: string,
    commenceTime: Option<string>,
    total: real,
    homeImpliedTotal: real,
    awayImpliedTotal: real,
    homeMl: int,
    awayMl: int,
    homeSpread: Option<real>,
    homeHdcfPct: Option<real>,
    homeXgfPct: Option<real>,
    homeHdcfPer60: Option<real>,
    homeHdcaPer60: Option<real>,
    homePdo: Option<real>,
    awayHdcfPct: Option<real>,
    awayXgfPct: Option<real>,
    awayHdcfPer60: Option<real>,
    awayHdcaPer60: Option<real>,
    awayPdo: Option<real>,
    environment: Environment,
    environmentReason: Reason,
    divergenceFlag: bool,
    divergenceDetail: seq<DivergenceMessage>,
    homeLines: Option<TeamLines>,
    awayLines: Option<TeamLines>)
  {
    /** `"<away> @ <home>"` when both names are non-empty, "" otherwise. */
    function Matchup(): (m: string)
      ensures awayTeam != "" && homeTeam != "" ==> |m| == |awayTeam| + 3 + |homeTeam|
      ensures awayTeam != "" && homeTeam != "" ==>
        m[..|awayTeam|] == awayTeam && m[|awayTeam|..|awayTeam| + 3] == " @ " && m[|awayTeam| + 3..] == homeTeam
      ensures awayTeam == "" || homeTeam == "" ==> m == ""
    {
      if awayTeam != "" && homeTeam != "" then awayTeam + " @ " + homeTeam else ""
    }

    predicate IsHighTotal() {
      total >= 6.0
    }

    predicate IsModerateTotal() {
      5.5 <= total < 6.0
    }
  }

  /** A game is never both a high-total and a moderate-total game, and below 6.0 exactly one test decides. */
  lemma TotalBands(e: GameSlateEntry)
    ensures !(e.IsHighTotal() && e.IsModerateTotal())
    ensures e.IsHighTotal() <==> e.total >= 6.0
    ensures e.IsModerateTotal() <==> 5.5 <= e.total && !e.IsHighTotal()
  {
  }

  /** `GameSlateEntry(home_team=..., away_team=...)`: every other field at its default. */
  function NewEntry(homeTeam: string, awayTeam: string): (e: GameSlateEntry)
    ensures e.homeTeam == homeTeam && e.awayTeam == awayTeam
    ensures e.environment == Avoid && e.environmentReason == Unset
    ensures !e.divergenceFlag && e.divergenceDetail == []
    ensures e.total == 0.0 && e.homeImpliedTotal == 0.0 && e.awayImpliedTotal == 0.0
    ensures e.homeMl == 0 && e.awayMl == 0 && e.homeSpread.None? && e.commenceTime.None?
    ensures e.homeHdcfPct.None? && e.homeXgfPct.None? && e.homeHdcfPer60.None? && e.homeHdcaPer60.None? && e.homePdo.None?
    ensures e.awayHdcfPct.None? && e.awayXgfPct.None? && e.awayHdcfPer60.None? && e.awayHdcaPer60.None? && e.awayPdo.None?
    ensures e.homeLines.None? && e.awayLines.None?
  {
    GameSlateEntry(homeTeam, awayTeam, None, 0.0, 0.0, 0.0, 0, 0, None,
                   None, None, None, None, None, None, None, None, None, None,
                   Avoid, Unset, false, [], None, None)
  }

  // ---------------------------------------------------------------------------------------------
  // Views

  /** `[g for g in games if p(g)]`. */
  function Filter(games: seq<GameSlateEntry>, p: GameSlateEntry -> bool): (r: seq<GameSlateEntry>)
    ensures |r| <= |games|
  {
    if games == [] then [] else (if p(games[0]) then [games[0]] else []) + Filter(games[1..], p)
  }

  /** A game is kept exactly when it is in the list and passes the test. */
  lemma {:induction false} FilterMember(games: seq<GameSlateEntry>, p: GameSlateEntry -> bool, g: GameSlateEntry)
    ensures g in Filter(games, p) <==> g in games && p(g)
  {
    if games != [] {
      FilterMember(games[1..], p, g);
      assert games == [games[0]] + games[1..];
    }
  }

  /** `FilterMember`, for every game at once. */
  lemma FilterMembers(games: seq<GameSlateEntry>, p: GameSlateEntry -> bool)
    ensures forall g :: g in Filter(games, p) <==> g in games && p(g)
  {
    forall g {
      FilterMember(games, p, g);
    }
  }

  lemma {:induction false} FilterAppend(a: seq<GameSlateEntry>, b: seq<GameSlateEntry>, p: GameSlateEntry -> bool)
    ensures Filter(a + b, p) == Filter(a, p) + Filter(b, p)
  {
    if a != [] {
      var head := if p(a[0]) then [a[0]] else [];
      assert (a + b)[0] == a[0] && (a + b)[1..] == a[1..] + b;
      assert Filter(a + b, p) == head + Filter(a[1..] + b, p);
      FilterAppend(a[1..], b, p);
      assert Filter(a, p) == head + Filter(a[1..], p);
    } else {
      assert a + b == b;
    }
  }

  lemma {:induction false} FilterNone(games: seq<GameSlateEntry>, p: GameSlateEntry -> bool)
    requires forall i :: 0 <= i < |games| ==> !p(games[i])
    ensures Filter(games, p) == []
  {
    if games != [] {
      FilterNone(games[1..], p);
    }
  }

  lemma {:induction false} FilterAll(games: seq<GameSlateEntry>, p: GameSlateEntry -> bool)
    requires forall i :: 0 <= i < |games| ==> p(games[i])
    ensures Filter(games, p) == games
  {
    if games != [] {
      FilterAll(games[1..], p);
      assert [games[0]] + games[1..] == games;
    }
  }

  /** The test `g.environment == env`, as a value. */
  function HasTier(env: Environment): GameSlateEntry -> bool {
    (g: GameSlateEntry) => g.environment == env
  }

  predicate IsFlagged(g: GameSlateEntry) {
    g.divergenceFlag
  }

  /** `[g for g in games if g.environment == env]`. */
  function InTier(games: seq<GameSlateEntry>, env: Environment): seq<GameSlateEntry> {
    Filter(games, HasTier(env))
  }

  datatype SlateBreakdown = SlateBreakdown(games: seq<GameSlateEntry>) {
    function ChalkGames(): seq<GameSlateEntry> {
      InTier(games, Chalk)
    }

    function LeverageGames(): seq<GameSlateEntry> {
      InTier(games, Leverage)
    }

    function ContrarianGames(): seq<GameSlateEntry> {
      InTier(games, Contrarian)
    }

    function AvoidGames(): seq<GameSlateEntry> {
      InTier(games, Avoid)
    }

    function DivergenceGames(): (r: seq<GameSlateEntry>)
      ensures forall g :: g in r <==> g in games && g.divergenceFlag
    {
      FilterMembers(games, IsFlagged);
      Filter(games, IsFlagged)
    }
  }

  /** Each tier view holds exactly the games of that tier. */
  lemma TierViewMembers(b: SlateBreakdown, env: Environment, g: GameSlateEntry)
    ensures g in InTier(b.games, env) <==> g in b.games && g.environment == env
  {
    FilterMember(b.games, HasTier(env), g);
  }

  lemma MultisetCons<T>(s: seq<T>)
    requires s != []
    ensures multiset(s) == multiset{s[0]} + multiset(s[1..])
  {
    assert s == [s[0]] + s[1..];
  }

  lemma InTierCons(gs: seq<GameSlateEntry>, env: Environment)
    requires gs != []
    ensures InTier(gs, env) == (if gs[0].environment == env then [gs[0]] else []) + InTier(gs[1..], env)
  {
  }

  lemma {:induction false} TiersPartition(gs: seq<GameSlateEntry>)
    ensures multiset(InTier(gs, Chalk)) + multiset(InTier(gs, Leverage)) + multiset(InTier(gs, Contrarian))
            + multiset(InTier(gs, Avoid)) == multiset(gs)
  {
    if gs != [] {
      var r := gs[1..];
      TiersPartition(r);
      MultisetCons(gs);
      TierCons(gs, Chalk);
      TierCons(gs, Leverage);
      TierCons(gs, Contrarian);
      TierCons(gs, Avoid);
      AddToOnePart(multiset(gs), multiset{gs[0]}, multiset(r),
                   multiset(InTier(gs, Chalk)), multiset(InTier(gs, Leverage)),
                   multiset(InTier(gs, Contrarian)), multiset(InTier(gs, Avoid)),
                   multiset(InTier(r, Chalk)), multiset(InTier(r, Leverage)),
                   multiset(InTier(r, Contrarian)), multiset(InTier(r, Avoid)),
                   gs[0].environment);
    }
  }

  /** Adding `x` to the part of `env` among four parts adds it to their union. */
  lemma AddToOnePart<T>(whole: multiset<T>, x: multiset<T>, rest: multiset<T>,
                        c0: multiset<T>, l0: multiset<T>, o0: multiset<T>, a0: multiset<T>,
                        c: multiset<T>, l: multiset<T>, o: multiset<T>, a: multiset<T>, env: Environment)
    requires whole == x + rest && rest == c + l + o + a
    requires c0 == (if env == Chalk then x else multiset{}) + c
    requires l0 == (if env == Leverage then x else multiset{}) + l
    requires o0 == (if env == Contrarian then x else multiset{}) + o
    requires a0 == (if env == Avoid then x else multiset{}) + a
    ensures c0 + l0 + o0 + a0 == whole
  {
  }

  /** The first game adds itself to its own tier's view and to no other. */
  lemma TierCons(gs: seq<GameSlateEntry>, env: Environment)
    requires gs != []
    ensures multiset(InTier(gs, env))
            == (if gs[0].environment == env then multiset{gs[0]} else multiset{}) + multiset(InTier(gs[1..], env))
  {
    InTierCons(gs, env);
  }

  /** The four tier views partition the games: together they hold each game exactly once. */
  lemma TierViewsPartition(b: SlateBreakdown)
    ensures multiset(b.ChalkGames()) + multiset(b.LeverageGames()) + multiset(b.ContrarianGames())
            + multiset(b.AvoidGames()) == multiset(b.games)
    ensures |b.ChalkGames()| + |b.LeverageGames()| + |b.ContrarianGames()| + |b.AvoidGames()| == |b.games|
  {
    TiersPartition(b.games);
    assert |multiset(b.games)| == |b.games|;
  }
}
