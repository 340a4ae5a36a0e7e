/**
 * Parsing of NHL API responses: the games of a scores response, and the skater lines, goalie
 * lines and players of a box score.
 *
 * Responses are decoded JSON values. Python raises on a missing required key, on `.get` of a
 * value that is not an object and on iterating a value that is not iterable; any such error
 * escapes the parser, which the model renders as an absent result (None).
 */
module Parse {
  import opened Wrappers
  import Text
  import Dict
  import Json
  import Clean
  import Stats

  type Object = Json.Object

  // ---------------------------------------------------------------------------------------------
  // Failing conversions over sequences

  /** Converting every element in order, or None as soon as one conversion fails. */
  function Collect<T, U>(xs: seq<T>, f: T -> Option<U>): (r: Option<seq<U>>)
    ensures r.Some? <==> forall i :: 0 <= i < |xs| ==> f(xs[i]).Some?
    ensures r.Some? ==> |r.value| == |xs| && forall i :: 0 <= i < |xs| ==> f(xs[i]) == Some(r.value[i])
  {
    if xs == [] then Some([])
    else
      var init :- Collect(xs[..|xs| - 1], f);
      var last :- f(xs[|xs| - 1]);
      assert forall i :: 0 <= i < |xs| - 1 ==> xs[..|xs| - 1][i] == xs[i];
      Some(init + [last])
  }

  lemma CollectSnoc<T, U>(xs: seq<T>, x: T, f: T -> Option<U>)
    ensures Collect(xs + [x], f) == (var init :- Collect(xs, f); var last :- f(x); Some(init + [last]))
  {
    assert (xs + [x])[..|xs|] == xs;
  }

  /** A left fold whose step may fail: None as soon as one step fails. */
  function Fold<T, S>(xs: seq<T>, s0: S, step: (S, T) -> Option<S>): Option<S> {
    if xs == [] then Some(s0)
    else
      var s :- Fold(xs[..|xs| - 1], s0, step);
      step(s, xs[|xs| - 1])
  }

  lemma FoldSnoc<T, S>(xs: seq<T>, x: T, s0: S, step: (S, T) -> Option<S>)
    ensures Fold(xs + [x], s0, step) == (var s :- Fold(xs, s0, step); step(s, x))
  {
    assert (xs + [x])[..|xs|] == xs;
  }

  /** Folding over two pieces is folding over the first, then over the second from there. */
  lemma {:induction false} FoldAppend<T, S>(xs: seq<T>, ys: seq<T>, s0: S, step: (S, T) -> Option<S>)
    ensures Fold(xs + ys, s0, step) == (var s :- Fold(xs, s0, step); Fold(ys, s, step))
  {
    if ys == [] {
      assert xs + ys == xs;
    } else {
      var init := ys[..|ys| - 1];
      var last := ys[|ys| - 1];
      assert xs + ys == (xs + init) + [last];
      FoldAppend(xs, init, s0, step);
      FoldSnoc(xs + init, last, s0, step);
    }
  }

  // ---------------------------------------------------------------------------------------------
  // Reading decoded JSON

  /** `obj[key]`: None when the key is missing (a KeyError). */
  function Index(obj: Object, key: string): Option<Json.Json> {
    Dict.Get(obj, key)
  }

  /** A value used with `.get` or `[...]` must be an object. */
  function AsObject(j: Json.Json): (r: Option<Object>)
    ensures r.Some? <==> j.Obj?
  {
    if j.Obj? then Some(j.fields) else None
  }

  function AsInt(j: Json.Json): (r: Option<int>)
    ensures r.Some? <==> j.Int?
  {
    if j.Int? then Some(j.i) else None
  }

  function AsString(j: Json.Json): (r: Option<string>)
    ensures r.Some? <==> j.Str?
  {
    if j.Str? then Some(j.s) else None
  }

  /** A field declared `int | None`: None for JSON null, and a failure for anything else but an integer. */
  function AsOptionalInt(j: Json.Json): (r: Option<Option<int>>)
    ensures r.Some? <==> j.Null? || j.Int?
  {
    match j
    case Null => Some(None)
    case Int(i) => Some(Some(i))
    case _ => None
  }

  function AsOptionalString(j: Json.Json): (r: Option<Option<string>>)
    ensures r.Some? <==> j.Null? || j.Str?
  {
    match j
    case Null => Some(None)
    case Str(s) => Some(Some(s))
    case _ => None
  }

  /**
   * Iterating `j` and indexing each element: a list of objects gives its objects; an empty
   * object or string iterates nothing; any other value fails (a non-empty object or string yields
   * strings, which cannot be indexed by key, and other values are not iterable).
   */
  function Objects(j: Json.Json): (r: Option<seq<Object>>)
    ensures j.Arr? ==> (r.Some? <==> forall i :: 0 <= i < |j.items| ==> j.items[i].Obj?)
    ensures j.Arr? && r.Some? ==> |r.value| == |j.items| && forall i :: 0 <= i < |j.items| ==> j.items[i] == Json.Obj(r.value[i])
  {
    match j
    case Arr(items) => Collect(items, AsObject)
    case Obj(fields) => if fields == [] then Some([]) else None
    case Str(s) => if s == "" then Some([]) else None
    case _ => None
  }

  // ---------------------------------------------------------------------------------------------
  // The side / position-group / player loop nest of the box-score parsers

  /** A player entry of a box score, with the abbreviation of its side's team. */
  datatype Entry = Entry(player: Object, teamAbbrev: string)

  /** What the loop over sides reads for one side: the side's player groups and its team abbreviation. */
  datatype SideData = SideData(teamData: Object, teamAbbrev: string)

  const Sides: seq<string> := ["homeTeam", "awayTeam"]

  /**
   * `boxscore.get("playerByGameStats", {}).get(side, {})` and `boxscore.get(side, {}).get("abbrev", "")`.
   * The abbreviation is read as a string.
   */
  function SideOf(boxscore: Object, side: string): Option<SideData> {
    var byGame :- AsObject(Json.Get(boxscore, "playerByGameStats", Json.Obj([])));
    var teamData :- AsObject(Json.Get(byGame, side, Json.Obj([])));
    var team :- AsObject(Json.Get(boxscore, side, Json.Obj([])));
    var abbrev :- AsString(Json.Get(team, "abbrev", Json.Str("")));
    Some(SideData(teamData, abbrev))
  }

  /** `team_data.get(group, [])`, iterated. */
  function GroupOf(teamData: Object, group: string): Option<seq<Object>> {
    Objects(Json.Get(teamData, group, Json.Arr([])))
  }

  function Tagged(players: seq<Object>, abbrev: string): (es: seq<Entry>)
    ensures |es| == |players|
    ensures forall i :: 0 <= i < |players| ==> es[i] == Entry(players[i], abbrev)
  {
    seq(|players|, i requires 0 <= i < |players| => Entry(players[i], abbrev))
  }

  /** The entries of `groups`, in that order, for one side. */
  function GroupsEntries(data: SideData, groups: seq<string>): Option<seq<Entry>> {
    if groups == [] then Some([])
    else
      var init :- GroupsEntries(data, groups[..|groups| - 1]);
      var players :- GroupOf(data.teamData, groups[|groups| - 1]);
      Some(init + Tagged(players, data.teamAbbrev))
  }

  /** The entries of `groups` for each of `sides`, in that order. */
  function SidesEntries(boxscore: Object, sides: seq<string>, groups: seq<string>): Option<seq<Entry>> {
    if sides == [] then Some([])
    else
      var init :- SidesEntries(boxscore, sides[..|sides| - 1], groups);
      var data :- SideOf(boxscore, sides[|sides| - 1]);
      var entries :- GroupsEntries(data, groups);
      Some(init + entries)
  }

  /** Every entry the loop nest visits, home side first, and within a side group by group. */
  function Traversal(boxscore: Object, groups: seq<string>): Option<seq<Entry>> {
    SidesEntries(boxscore, Sides, groups)
  }

  /** The home side's entries come first, then the away side's. */
  lemma TraversalOrder(boxscore: Object, groups: seq<string>)
    ensures Traversal(boxscore, groups)
      == (var home :- SideOf(boxscore, "homeTeam");
          var homeEntries :- GroupsEntries(home, groups);
          var away :- SideOf(boxscore, "awayTeam");
          var awayEntries :- GroupsEntries(away, groups);
          Some(homeEntries + awayEntries))
  {
    assert Sides[..1] == ["homeTeam"] && ["homeTeam"][..0] == [];
    assert SidesEntries(boxscore, Sides[..1], groups)
      == (var home :- SideOf(boxscore, "homeTeam"); var homeEntries :- GroupsEntries(home, groups); Some([] + homeEntries));
    var home := SideOf(boxscore, "homeTeam");
    if home.Some? && GroupsEntries(home.value, groups).Some? {
      var homeEntries := GroupsEntries(home.value, groups).value;
      assert [] + homeEntries == homeEntries;
    }
  }

  /** Every entry of a side carries that side's team abbreviation. */
  lemma {:induction false} GroupsEntriesTagged(data: SideData, groups: seq<string>)
    ensures GroupsEntries(data, groups).Some? ==>
      forall i :: 0 <= i < |GroupsEntries(data, groups).value| ==> GroupsEntries(data, groups).value[i].teamAbbrev == data.teamAbbrev
  {
    if groups != [] {
      GroupsEntriesTagged(data, groups[..|groups| - 1]);
    }
  }

  /** The entries of two groups are those of the first group, then those of the second. */
  lemma TwoGroups(data: SideData, first: string, second: string)
    ensures GroupsEntries(data, [first, second])
      == (var a :- GroupOf(data.teamData, first);
          var b :- GroupOf(data.teamData, second);
          Some(Tagged(a, data.teamAbbrev) + Tagged(b, data.teamAbbrev)))
  {
    assert [first, second][..1] == [first] && [first][..0] == [];
    var a := GroupOf(data.teamData, first);
    if a.Some? {
      assert [] + Tagged(a.value, data.teamAbbrev) == Tagged(a.value, data.teamAbbrev);
      assert GroupsEntries(data, [first]) == Some(Tagged(a.value, data.teamAbbrev));
    }
  }

  /** Failing on a prefix of the visited entries fails the whole fold. */
  lemma FoldFailsOnPrefix<S>(xs: seq<Entry>, all: seq<Entry>, s0: S, step: (S, Entry) -> Option<S>)
    requires xs <= all
    requires Fold(xs, s0, step).None?
    ensures Fold(all, s0, step).None?
  {
    assert all == xs + all[|xs|..];
    FoldAppend(xs, all[|xs|..], s0, step);
  }

  /** The entries of the first groups are a prefix of the entries of all groups, and fail when they do. */
  lemma {:induction false} GroupsPrefix(data: SideData, groups: seq<string>, n: nat)
    requires n <= |groups|
    ensures GroupsEntries(data, groups).Some? ==>
      GroupsEntries(data, groups[..n]).Some? && GroupsEntries(data, groups[..n]).value <= GroupsEntries(data, groups).value
  {
    if n < |groups| {
      var init := groups[..|groups| - 1];
      assert init[..n] == groups[..n];
      GroupsPrefix(data, init, n);
    } else {
      assert groups[..n] == groups;
    }
  }

  lemma {:induction false} SidesPrefix(boxscore: Object, sides: seq<string>, n: nat, groups: seq<string>)
    requires n <= |sides|
    ensures SidesEntries(boxscore, sides, groups).Some? ==>
      SidesEntries(boxscore, sides[..n], groups).Some? && SidesEntries(boxscore, sides[..n], groups).value <= SidesEntries(boxscore, sides, groups).value
  {
    if n < |sides| {
      var init := sides[..|sides| - 1];
      assert init[..n] == sides[..n];
      SidesPrefix(boxscore, init, n, groups);
    } else {
      assert sides[..n] == sides;
    }
  }

  /** The entries of one player group, visited in order from `state0`. */
  method VisitGroup<S>(players: seq<Object>, abbrev: string, state0: S, step: (S, Entry) -> Option<S>)
    returns (r: Option<S>)
    ensures r == Fold(Tagged(players, abbrev), state0, step)
  {
    var state := state0;
    for k := 0 to |players|
      invariant Fold(Tagged(players[..k], abbrev), state0, step) == Some(state)
    {
      var entry := Entry(players[k], abbrev);
      assert Tagged(players[..k + 1], abbrev) == Tagged(players[..k], abbrev) + [entry];
      FoldSnoc(Tagged(players[..k], abbrev), entry, state0, step);
      var next := step(state, entry);
      if next.None? {
        FoldFailsOnPrefix(Tagged(players[..k + 1], abbrev), Tagged(players, abbrev), state0, step);
        return None;
      }
      state := next.value;
    }
    assert players[..|players|] == players;
    return Some(state);
  }

  /** The player groups of one side, visited in order from `state0`. */
  method VisitSide<S>(data: SideData, groups: seq<string>, state0: S, step: (S, Entry) -> Option<S>)
    returns (r: Option<S>)
    ensures r == (var entries :- GroupsEntries(data, groups); Fold(entries, state0, step))
  {
    var state := state0;
    ghost var done: seq<Entry> := [];
    for g := 0 to |groups|
      invariant GroupsEntries(data, groups[..g]) == Some(done)
      invariant Fold(done, state0, step) == Some(state)
    {
      assert groups[..g + 1][..g] == groups[..g];
      GroupsPrefix(data, groups, g + 1);
      var players := GroupOf(data.teamData, groups[g]);
      if players.None? {
        return None;
      }
      var next := VisitGroup(players.value, data.teamAbbrev, state, step);
      FoldAppend(done, Tagged(players.value, data.teamAbbrev), state0, step);
      if next.None? {
        if GroupsEntries(data, groups).Some? {
          FoldFailsOnPrefix(done + Tagged(players.value, data.teamAbbrev), GroupsEntries(data, groups).value, state0, step);
        }
        return None;
      }
      state := next.value;
      done := done + Tagged(players.value, data.teamAbbrev);
    }
    assert groups[..|groups|] == groups;
    return Some(state);
  }

  /**
   * The loop nest shared by `parse_skater_stats`, `parse_goalie_stats` and `parse_players`: for
   * each side, for each position group, for each player, one step from the current state.
   */
  method VisitPlayers<S>(boxscore: Object, groups: seq<string>, s0: S, step: (S, Entry) -> Option<S>)
    returns (r: Option<S>)
    ensures r == (var entries :- Traversal(boxscore, groups); Fold(entries, s0, step))
  {
    var state := s0;
    ghost var done: seq<Entry> := [];
    for s := 0 to |Sides|
      invariant SidesEntries(boxscore, Sides[..s], groups) == Some(done)
      invariant Fold(done, s0, step) == Some(state)
    {
      assert Sides[..s + 1][..s] == Sides[..s];
      SidesPrefix(boxscore, Sides, s + 1, groups);
      var data := SideOf(boxscore, Sides[s]);
      if data.None? {
        return None;
      }
      var next := VisitSide(data.value, groups, state, step);
      ghost var entries := GroupsEntries(data.value, groups);
      if next.None? {
        if entries.Some? && Traversal(boxscore, groups).Some? {
          FoldAppend(done, entries.value, s0, step);
          FoldFailsOnPrefix(done + entries.value, Traversal(boxscore, groups).value, s0, step);
        }
        return None;
      }
      FoldAppend(done, entries.value, s0, step);
      state := next.value;
      done := done + entries.value;
    }
    assert Sides[..|Sides|] == Sides;
    return Some(state);
  }

  // ---------------------------------------------------------------------------------------------
  // Field conversions

  /**
   * `_toi_str_to_seconds(player.get("toi", "0:00"))`: a string converts as `toi_to_seconds` does;
   * any other value has no `split` and fails.
   */
  function ToiField(player: Object): Option<int> {
    var toi :- AsString(Json.Get(player, "toi", Json.Str("0:00")));
    Some(Clean.ToiToSeconds(toi))
  }

  /** A missing time on ice reads as 0 seconds, a string as `toi_to_seconds` reads it, and anything else fails. */
  lemma ToiFieldCases(player: Object)
    ensures !Dict.HasKey(player, "toi") ==> ToiField(player) == Some(0)
    ensures Dict.HasKey(player, "toi") ==>
      ToiField(player) == (match Dict.Get(player, "toi").value case Str(s) => Some(Clean.ToiToSeconds(s)) case _ => None)
  {
    Clean.ZeroToiExample();
  }

  /** `float(value)` for the values `_parse_faceoff_pct` can meet; None where Python raises. */
  function AsFloat(value: Json.Json): Option<real> {
    match value
    case Bool(b) => Some(if b then 1.0 else 0.0)
    case Int(i) => Some(i as real)
    case Float(r) => Some(r)
    case Str(s) => Text.ParseDecimal(s)
    case _ => None
  }

  /**
   * `_parse_faceoff_pct`: a positive number, or positive numeric text, is the percentage; null,
   * zero, negative values, text that is not a number and values with no float conversion give
   * none. It never fails.
   */
  function FaceoffPct(value: Json.Json): (pct: Option<real>)
    ensures pct.Some? ==> pct.value > 0.0
    ensures value.Null? ==> pct.None?
    ensures value.Int? ==> (pct.Some? <==> value.i > 0) && (pct.Some? ==> pct.value == value.i as real)
    ensures value.Float? ==> (pct.Some? <==> value.r > 0.0) && (pct.Some? ==> pct.value == value.r)
    ensures value.Arr? || value.Obj? ==> pct.None?
  {
    if value.Null? then None
    else
      match AsFloat(value)
      case Some(x) => if x > 0.0 then Some(x) else None
      case None => None
  }

  /** Text holding a positive integer gives that integer as the percentage, and other integer text gives none. */
  lemma FaceoffPctOfIntegerText(s: string)
    requires Text.ParseInt(s).Some?
    ensures FaceoffPct(Json.Str(s)) == if Text.ParseInt(s).value > 0 then Some(Text.ParseInt(s).value as real) else None
  {
    Text.ParseDecimalExtendsParseInt(s);
  }

  /** A JSON `true` reads as 1.0 and `false` as none. */
  lemma FaceoffPctOfBool(b: bool)
    ensures FaceoffPct(Json.Bool(b)) == if b then Some(1.0) else None
  {
  }

  /** A count field, `player.get(key, 0)`, read as an integer. */
  function CountField(player: Object, key: string): Option<int> {
    AsInt(Json.Get(player, key, Json.Int(0)))
  }

  /** A missing count reads as 0, a present one must be an integer and reads as itself. */
  lemma CountFieldCases(player: Object, key: string)
    ensures !Dict.HasKey(player, key) ==> CountField(player, key) == Some(0)
    ensures Dict.HasKey(player, key) ==>
      CountField(player, key) == (match Dict.Get(player, key).value case Int(i) => Some(i) case _ => None)
  {
  }

  /** `player["playerId"]`: a missing key fails. */
  function PlayerId(player: Object): (r: Option<int>)
    ensures r.Some? <==> Dict.Get(player, "playerId").Some? && Dict.Get(player, "playerId").value.Int?
    ensures r.Some? ==> Dict.Get(player, "playerId") == Some(Json.Int(r.value))
  {
    var id :- Index(player, "playerId");
    AsInt(id)
  }

  // ---------------------------------------------------------------------------------------------
  // Skater and goalie stat lines

  const SkaterGroups: seq<string> := ["forwards", "defense"]
  const GoalieGroups: seq<string> := ["goalies"]
  const PlayerGroups: seq<string> := ["forwards", "defense", "goalies"]

  /** One skater's line of the box score (`parse_skater_stats`, loop body). */
  function SkaterStat(gameId: int, e: Entry): (r: Option<Stats.SkaterGameStats>)
    ensures r.Some? ==> Dict.Get(e.player, "playerId") == Some(Json.Int(r.value.playerId))
    ensures r.Some? ==> r.value.gameId == gameId && r.value.teamAbbrev == e.teamAbbrev
    ensures r.Some? && r.value.faceoffPct.Some? ==> r.value.faceoffPct.value > 0.0
  {
    var p := e.player;
    var playerId :- PlayerId(p);
    var goals :- CountField(p, "goals");
    var assists :- CountField(p, "assists");
    var points :- CountField(p, "points");
    var shots :- CountField(p, "sog");
    var hits :- CountField(p, "hits");
    var blockedShots :- CountField(p, "blockedShots");
    var pim :- CountField(p, "pim");
    var toiSeconds :- ToiField(p);
    var plusMinus :- CountField(p, "plusMinus");
    var powerPlayGoals :- CountField(p, "powerPlayGoals");
    var powerPlayPoints :- CountField(p, "powerPlayPoints");
    var shorthandedGoals :- CountField(p, "shorthandedGoals");
    Some(Stats.SkaterGameStats(playerId, gameId, e.teamAbbrev, goals, assists, points, shots, hits, blockedShots, pim,
      toiSeconds, plusMinus, powerPlayGoals, powerPlayPoints, shorthandedGoals,
      FaceoffPct(Json.Get(p, "faceoffWinningPctg", Json.Null))))
  }

  /** One goalie's line of the box score (`parse_goalie_stats`, loop body). */
  function GoalieStat(gameId: int, e: Entry): (r: Option<Stats.GoalieGameStats>)
    ensures r.Some? ==> Dict.Get(e.player, "playerId") == Some(Json.Int(r.value.playerId))
    ensures r.Some? ==> r.value.gameId == gameId && r.value.teamAbbrev == e.teamAbbrev
  {
    var p := e.player;
    var playerId :- PlayerId(p);
    var decision :- AsOptionalString(Json.Get(p, "decision", Json.Null));
    var shotsAgainst :- CountField(p, "shotsAgainst");
    var saves :- CountField(p, "saves");
    var goalsAgainst :- CountField(p, "goalsAgainst");
    var toiSeconds :- ToiField(p);
    var powerPlaySaves :- CountField(p, "powerPlaySaves");
    var shorthandedSaves :- CountField(p, "shorthandedSaves");
    var evenStrengthSaves :- CountField(p, "evenStrengthSaves");
    Some(Stats.GoalieGameStats(playerId, gameId, e.teamAbbrev, decision, shotsAgainst, saves, goalsAgainst,
      toiSeconds, powerPlaySaves, shorthandedSaves, evenStrengthSaves))
  }

  /** The object of a player entry holding only its id. */
  function BareEntry(playerId: int): Object {
    [("playerId", Json.Int(playerId))]
  }

  lemma BareEntryGet(playerId: int, key: string, default: Json.Json)
    requires key != "playerId"
    ensures Json.Get(BareEntry(playerId), key, default) == default
  {
    assert !Dict.HasKey(BareEntry(playerId), key);
  }

  /** A player entry holding only its id gives a line with every count 0 and no faceoff percentage. */
  lemma SkaterStatOfBareEntry(gameId: int, playerId: int, abbrev: string)
    ensures SkaterStat(gameId, Entry(BareEntry(playerId), abbrev)) == Some(Stats.SkaterGameStats(playerId, gameId, abbrev))
  {
    var p := BareEntry(playerId);
    BareEntryGet(playerId, "goals", Json.Int(0));
    BareEntryGet(playerId, "assists", Json.Int(0));
    BareEntryGet(playerId, "points", Json.Int(0));
    BareEntryGet(playerId, "sog", Json.Int(0));
    BareEntryGet(playerId, "hits", Json.Int(0));
    BareEntryGet(playerId, "blockedShots", Json.Int(0));
    BareEntryGet(playerId, "pim", Json.Int(0));
    BareEntryGet(playerId, "toi", Json.Str("0:00"));
    BareEntryGet(playerId, "plusMinus", Json.Int(0));
    BareEntryGet(playerId, "powerPlayGoals", Json.Int(0));
    BareEntryGet(playerId, "powerPlayPoints", Json.Int(0));
    BareEntryGet(playerId, "shorthandedGoals", Json.Int(0));
    BareEntryGet(playerId, "faceoffWinningPctg", Json.Null);
    Clean.ZeroToiExample();
  }

  lemma GoalieStatOfBareEntry(gameId: int, playerId: int, abbrev: string)
    ensures GoalieStat(gameId, Entry(BareEntry(playerId), abbrev)) == Some(Stats.GoalieGameStats(playerId, gameId, abbrev))
  {
    BareEntryGet(playerId, "decision", Json.Null);
    BareEntryGet(playerId, "shotsAgainst", Json.Int(0));
    BareEntryGet(playerId, "saves", Json.Int(0));
    BareEntryGet(playerId, "goalsAgainst", Json.Int(0));
    BareEntryGet(playerId, "toi", Json.Str("0:00"));
    BareEntryGet(playerId, "powerPlaySaves", Json.Int(0));
    BareEntryGet(playerId, "shorthandedSaves", Json.Int(0));
    BareEntryGet(playerId, "evenStrengthSaves", Json.Int(0));
    Clean.ZeroToiExample();
  }

  /** An entry without a player id fails, as `player["playerId"]` raises. */
  lemma StatNeedsPlayerId(gameId: int, e: Entry)
    requires !Dict.HasKey(e.player, "playerId")
    ensures SkaterStat(gameId, e).None? && GoalieStat(gameId, e).None?
  {
  }

  /** Collecting in one pass is folding with a step that appends each converted element. */
  function Appending<T, U>(f: T -> Option<U>): (seq<U>, T) -> Option<seq<U>> {
    (acc: seq<U>, x: T) => match f(x) case Some(u) => Some(acc + [u]) case None => None
  }

  lemma {:induction false} FoldAppendingIsCollect<T, U>(xs: seq<T>, f: T -> Option<U>)
    ensures Fold(xs, [], Appending(f)) == Collect(xs, f)
  {
    if xs != [] {
      var init := xs[..|xs| - 1];
      assert xs == init + [xs[|xs| - 1]];
      FoldAppendingIsCollect(init, f);
      FoldSnoc(init, xs[|xs| - 1], [], Appending(f));
      CollectSnoc(init, xs[|xs| - 1], f);
    }
  }

  function SkaterStatOf(gameId: int): Entry -> Option<Stats.SkaterGameStats> {
    e => SkaterStat(gameId, e)
  }

  function GoalieStatOf(gameId: int): Entry -> Option<Stats.GoalieGameStats> {
    e => GoalieStat(gameId, e)
  }

  /** The skater lines of a box score: one per forward and defenceman, home side first. */
  function SkaterStats(boxscore: Object, gameId: int): Option<seq<Stats.SkaterGameStats>> {
    var entries :- Traversal(boxscore, SkaterGroups);
    Collect(entries, SkaterStatOf(gameId))
  }

  function GoalieStats(boxscore: Object, gameId: int): Option<seq<Stats.GoalieGameStats>> {
    var entries :- Traversal(boxscore, GoalieGroups);
    Collect(entries, GoalieStatOf(gameId))
  }

  /** `parse_skater_stats`. */
  method ParseSkaterStats(boxscore: Object, gameId: int) returns (r: Option<seq<Stats.SkaterGameStats>>)
    ensures r == SkaterStats(boxscore, gameId)
  {
    r := VisitPlayers(boxscore, SkaterGroups, [], Appending(SkaterStatOf(gameId)));
    var entries := Traversal(boxscore, SkaterGroups);
    if entries.Some? {
      FoldAppendingIsCollect(entries.value, SkaterStatOf(gameId));
    }
  }

  /** `parse_goalie_stats`. */
  method ParseGoalieStats(boxscore: Object, gameId: int) returns (r: Option<seq<Stats.GoalieGameStats>>)
    ensures r == GoalieStats(boxscore, gameId)
  {
    r := VisitPlayers(boxscore, GoalieGroups, [], Appending(GoalieStatOf(gameId)));
    var entries := Traversal(boxscore, GoalieGroups);
    if entries.Some? {
      FoldAppendingIsCollect(entries.value, GoalieStatOf(gameId));
    }
  }

  /**
   * The skater lines are the visited entries, one for one and in order: each line carries its
   * entry's player id, the game id and its side's team abbreviation.
   */
  lemma SkaterStatsLines(boxscore: Object, gameId: int)
    requires SkaterStats(boxscore, gameId).Some?
    ensures Traversal(boxscore, SkaterGroups).Some?
    ensures var entries := Traversal(boxscore, SkaterGroups).value;
      var lines := SkaterStats(boxscore, gameId).value;
      |lines| == |entries|
      && forall i :: 0 <= i < |lines| ==>
        Dict.Get(entries[i].player, "playerId") == Some(Json.Int(lines[i].playerId))
        && lines[i].gameId == gameId && lines[i].teamAbbrev == entries[i].teamAbbrev
  {
    var entries := Traversal(boxscore, SkaterGroups).value;
    var lines := SkaterStats(boxscore, gameId).value;
    forall i | 0 <= i < |lines|
      ensures Dict.Get(entries[i].player, "playerId") == Some(Json.Int(lines[i].playerId))
      ensures lines[i].gameId == gameId && lines[i].teamAbbrev == entries[i].teamAbbrev
    {
      assert SkaterStat(gameId, entries[i]) == Some(lines[i]);
    }
  }

  lemma GoalieStatsLines(boxscore: Object, gameId: int)
    requires GoalieStats(boxscore, gameId).Some?
    ensures Traversal(boxscore, GoalieGroups).Some?
    ensures var entries := Traversal(boxscore, GoalieGroups).value;
      var lines := GoalieStats(boxscore, gameId).value;
      |lines| == |entries|
      && forall i :: 0 <= i < |lines| ==>
        Dict.Get(entries[i].player, "playerId") == Some(Json.Int(lines[i].playerId))
        && lines[i].gameId == gameId && lines[i].teamAbbrev == entries[i].teamAbbrev
  {
    var entries := Traversal(boxscore, GoalieGroups).value;
    var lines := GoalieStats(boxscore, gameId).value;
    forall i | 0 <= i < |lines|
      ensures Dict.Get(entries[i].player, "playerId") == Some(Json.Int(lines[i].playerId))
      ensures lines[i].gameId == gameId && lines[i].teamAbbrev == entries[i].teamAbbrev
    {
      assert GoalieStat(gameId, entries[i]) == Some(lines[i]);
    }
  }

  // ---------------------------------------------------------------------------------------------
  // Players

  /** A player of the `dim_player` table. */
  datatype Player = Player(
    playerId: int,
    firstName: string,
    lastName: string,
    position: string,
    teamAbbrev: string,
    jerseyNumber: Option<int> := None,
    shootsCatches: Option<string> := None,
    birthDate: Option<string> := None)

  /** `Player.full_name`. */
  function FullName(p: Player): string {
    p.firstName + " " + p.lastName
  }

  lemma NoSpaceBefore(full: string, i: nat)
    requires i <= |full|
    requires forall j :: 0 <= j < i ==> !Text.OccursAt(full, " ", j)
    ensures ' ' !in full[..i]
  {
    forall j | 0 <= j < i
      ensures full[j] != ' '
    {
      assert !Text.OccursAt(full, " ", j);
      assert full[j..j + 1] == [full[j]];
    }
  }

  /**
   * `full.split(" ", 1)`, first and last name: the text before and after the first space, or
   * the whole name twice when there is no space.
   */
  function SplitName(full: string): (names: (string, string))
    ensures ' ' in full ==> names.0 + " " + names.1 == full && ' ' !in names.0
    ensures ' ' !in full ==> names == (full, full)
  {
    match Text.Find(full, " ", 0)
    case Some(i) =>
      NoSpaceBefore(full, i);
      assert full == full[..i] + " " + full[i + 1..];
      (full[..i], full[i + 1..])
    case None =>
      NoSpaceBefore(full, |full|);
      assert full[..|full|] == full;
      (full, full)
  }

  /**
   * The name shown for a player: `name.default` of a name object (which must be a string), or
   * `str()` of any other value.
   */
  function RawName(player: Object): (r: Option<string>)
    ensures !Dict.HasKey(player, "name") ==> r == Some("")
  {
    var raw := Json.Get(player, "name", Json.Obj([]));
    if raw.Obj? then AsString(Json.Get(raw.fields, "default", Json.Str(""))) else Json.TryStr(raw)
  }

  /** A visited entry with the player id read from it. */
  datatype Keyed = Keyed(id: int, entry: Entry)

  function KeyOf(e: Entry): (r: Option<Keyed>)
    ensures r.Some? <==> PlayerId(e.player).Some?
    ensures r.Some? ==> r.value == Keyed(PlayerId(e.player).value, e)
  {
    var id :- PlayerId(e.player);
    Some(Keyed(id, e))
  }

  /** The player of an entry seen for the first time (`parse_players`, loop body after the `seen_ids` test). */
  function BuildPlayer(k: Keyed): (r: Option<Player>)
    ensures r.Some? ==> r.value.playerId == k.id && r.value.teamAbbrev == k.entry.teamAbbrev
    ensures r.Some? ==> RawName(k.entry.player).Some?
    ensures r.Some? && ' ' in RawName(k.entry.player).value ==> FullName(r.value) == RawName(k.entry.player).value
    ensures r.Some? && ' ' !in RawName(k.entry.player).value ==>
      r.value.firstName == r.value.lastName == RawName(k.entry.player).value
  {
    var p := k.entry.player;
    var full :- RawName(p);
    var names := SplitName(full);
    var position :- AsString(Json.Get(p, "position", Json.Str("")));
    var jersey :- AsOptionalInt(Json.Get(p, "sweaterNumber", Json.Null));
    Some(Player(k.id, names.0, names.1, position, k.entry.teamAbbrev, jersey))
  }

  /** The ids of a sequence of keyed entries. */
  function Ids(ks: seq<Keyed>): set<int> {
    set i | 0 <= i < |ks| :: ks[i].id
  }

  lemma IdsSnoc(ks: seq<Keyed>, k: Keyed)
    ensures Ids(ks + [k]) == Ids(ks) + {k.id}
  {
    var both := ks + [k];
    assert forall i :: 0 <= i < |ks| ==> both[i] == ks[i];
    assert both[|ks|] == k;
  }

  /** `k` is the first entry of `ks` with its id. */
  ghost predicate FirstWithId(ks: seq<Keyed>, k: Keyed) {
    exists j :: 0 <= j < |ks| && ks[j] == k && forall i :: 0 <= i < j ==> ks[i].id != k.id
  }

  /** The first entry of each id, in order: what the `seen_ids` test lets through. */
  function KeepFirst(ks: seq<Keyed>): (kept: seq<Keyed>)
    ensures Ids(kept) == Ids(ks)
    ensures forall i, j :: 0 <= i < j < |kept| ==> kept[i].id != kept[j].id
  {
    if ks == [] then []
    else
      var init := ks[..|ks| - 1];
      var last := ks[|ks| - 1];
      assert ks == init + [last];
      IdsSnoc(init, last);
      var keptInit := KeepFirst(init);
      if last.id in Ids(init) then keptInit
      else
        IdsSnoc(keptInit, last);
        keptInit + [last]
  }

  /** Every kept entry is the first entry with its id. */
  lemma {:induction false} KeepFirstKeepsFirst(ks: seq<Keyed>)
    ensures forall i :: 0 <= i < |KeepFirst(ks)| ==> FirstWithId(ks, KeepFirst(ks)[i])
  {
    if ks != [] {
      var init := ks[..|ks| - 1];
      var last := ks[|ks| - 1];
      KeepFirstKeepsFirst(init);
      var kept := KeepFirst(ks);
      forall i | 0 <= i < |kept|
        ensures FirstWithId(ks, kept[i])
      {
        if i < |KeepFirst(init)| {
          var k := kept[i];
          assert FirstWithId(init, k);
          var j :| 0 <= j < |init| && init[j] == k && forall i' :: 0 <= i' < j ==> init[i'].id != k.id;
          assert ks[j] == k;
        } else {
          assert kept[i] == last && last.id !in Ids(init);
          assert forall i' :: 0 <= i' < |init| ==> ks[i'].id != last.id by {
            forall i' | 0 <= i' < |init|
              ensures ks[i'].id != last.id
            {
              assert ks[i'] == init[i'] && init[i'].id in Ids(init);
            }
          }
          assert ks[|ks| - 1] == last;
        }
      }
    }
  }

  /** The state of `parse_players`' loop: the players kept so far and the ids already seen. */
  datatype PlayersState = PlayersState(players: seq<Player>, seen: set<int>)

  /** One iteration of `parse_players`' innermost loop. */
  function PlayerStep(state: PlayersState, e: Entry): Option<PlayersState> {
    var id :- PlayerId(e.player);
    if id in state.seen then Some(state)
    else
      var player :- BuildPlayer(Keyed(id, e));
      Some(PlayersState(state.players + [player], state.seen + {id}))
  }

  /**
   * Reference definition of the players of a sequence of entries: every entry must have an id;
   * the first entry of each id makes a player.
   */
  function PlayersOf(entries: seq<Entry>): Option<seq<Player>> {
    var keyed :- Collect(entries, KeyOf);
    Collect(KeepFirst(keyed), BuildPlayer)
  }

  /** Folding `PlayerStep` computes the reference players, and the seen set is the set of all ids. */
  lemma {:induction false} PlayerStepsFold(entries: seq<Entry>)
    ensures Fold(entries, PlayersState([], {}), PlayerStep)
      == (var keyed :- Collect(entries, KeyOf);
          var players :- Collect(KeepFirst(keyed), BuildPlayer);
          Some(PlayersState(players, Ids(keyed))))
  {
    if entries == [] {
      assert Ids([]) == {};
    } else {
      var init := entries[..|entries| - 1];
      var e := entries[|entries| - 1];
      assert entries == init + [e];
      PlayerStepsFold(init);
      FoldSnoc(init, e, PlayersState([], {}), PlayerStep);
      CollectSnoc(init, e, KeyOf);
      var keyedInit := Collect(init, KeyOf);
      var key := KeyOf(e);
      if keyedInit.Some? && key.Some? {
        var keyed := keyedInit.value + [key.value];
        assert keyed[..|keyed| - 1] == keyedInit.value;
        IdsSnoc(keyedInit.value, key.value);
        if key.value.id !in Ids(keyedInit.value) {
          CollectSnoc(KeepFirst(keyedInit.value), key.value, BuildPlayer);
        }
      }
    }
  }

  function Players(boxscore: Object): Option<seq<Player>> {
    var entries :- Traversal(boxscore, PlayerGroups);
    PlayersOf(entries)
  }

  /** `parse_players`. */
  method ParsePlayers(boxscore: Object) returns (r: Option<seq<Player>>)
    ensures r == Players(boxscore)
  {
    var state := VisitPlayers(boxscore, PlayerGroups, PlayersState([], {}), PlayerStep);
    var entries := Traversal(boxscore, PlayerGroups);
    if entries.Some? {
      PlayerStepsFold(entries.value);
    }
    r := if state.Some? then Some(state.value.players) else None;
  }

  /**
   * The players have distinct ids, and there is one for each id among the entries, built from
   * the first entry carrying that id.
   */
  lemma PlayersOfDistinct(entries: seq<Entry>)
    requires PlayersOf(entries).Some?
    ensures var keyed := Collect(entries, KeyOf).value;
      var players := PlayersOf(entries).value;
      (forall i, j :: 0 <= i < j < |players| ==> players[i].playerId != players[j].playerId)
      && (set i | 0 <= i < |players| :: players[i].playerId) == Ids(keyed)
  {
    var keyed := Collect(entries, KeyOf).value;
    var kept := KeepFirst(keyed);
    var players := PlayersOf(entries).value;
    assert forall i :: 0 <= i < |players| ==> players[i].playerId == kept[i].id by {
      forall i | 0 <= i < |players|
        ensures players[i].playerId == kept[i].id
      {
        assert BuildPlayer(kept[i]) == Some(players[i]);
      }
    }
    assert (set i | 0 <= i < |players| :: players[i].playerId) == Ids(kept);
  }

  lemma PlayersOfFirstEntries(entries: seq<Entry>)
    requires PlayersOf(entries).Some?
    ensures var keyed := Collect(entries, KeyOf).value;
      var players := PlayersOf(entries).value;
      |players| == |KeepFirst(keyed)|
      && forall i :: 0 <= i < |players| ==>
        (FirstWithId(keyed, KeepFirst(keyed)[i]) && BuildPlayer(KeepFirst(keyed)[i]) == Some(players[i]))
  {
    KeepFirstKeepsFirst(Collect(entries, KeyOf).value);
  }

  /** An entry whose id was already seen adds no player; one with a new id adds its own player at the end. */
  lemma PlayersOfSnoc(entries: seq<Entry>, e: Entry)
    requires Collect(entries, KeyOf).Some? && KeyOf(e).Some?
    ensures var k := KeyOf(e).value;
      PlayersOf(entries + [e])
        == if k.id in Ids(Collect(entries, KeyOf).value) then PlayersOf(entries)
           else (var players :- PlayersOf(entries); var player :- BuildPlayer(k); Some(players + [player]))
  {
    var keyed := Collect(entries, KeyOf).value;
    var k := KeyOf(e).value;
    CollectSnoc(entries, e, KeyOf);
    assert (keyed + [k])[..|keyed|] == keyed;
    CollectSnoc(KeepFirst(keyed), k, BuildPlayer);
  }

  /** A name whose first word has no space splits into that word and the rest, whatever the rest holds. */
  lemma SplitNameAtFirstSpace(first: string, rest: string)
    requires ' ' !in first
    ensures SplitName(first + " " + rest) == (first, rest)
  {
    var full := first + " " + rest;
    assert full[|first|] == ' ';
    var names := SplitName(full);
    assert names.0 == full[..|first|] == first;
    assert names.1 == full[|first| + 1..] == rest;
  }

  // ---------------------------------------------------------------------------------------------
  // Games

  /**
   * A game of a scores response. The date and start time keep the response's text: calendar
   * and ISO-8601 timestamp parsing are not part of this model.
   */
  datatype Game = Game(
    gameId: int,
    season: string,
    gameType: int,
    gameDate: string,
    homeTeamAbbrev: string,
    awayTeamAbbrev: string,
    homeScore: Option<int> := None,
    awayScore: Option<int> := None,
    venue: Option<string> := None,
    startTimeUtc: Option<string> := None,
    gameState: Option<string> := None)

  /** `g[key]["abbrev"]`, and the side object `g.get(key, {})` it was read from. */
  function TeamOfGame(g: Object, key: string): Option<(Object, string)> {
    var teamJson :- Index(g, key);
    var team :- AsObject(teamJson);
    var abbrevJson :- Index(team, "abbrev");
    var abbrev :- AsString(abbrevJson);
    Some((team, abbrev))
  }

  /** The venue: read only when truthy, and then `venue.get("default")` of an object. */
  function VenueOf(g: Object): (r: Option<Option<string>>)
    ensures !Json.Truthy(Json.Get(g, "venue", Json.Null)) ==> r == Some(None)
  {
    var venue := Json.Get(g, "venue", Json.Null);
    if !Json.Truthy(venue) then Some(None)
    else
      var fields :- AsObject(venue);
      AsOptionalString(Json.Get(fields, "default", Json.Null))
  }

  /** The start time: read only when truthy, and then it must be a string (`.replace` of anything else raises). */
  function StartTimeOf(g: Object): (r: Option<Option<string>>)
    ensures !Json.Truthy(Json.Get(g, "startTimeUTC", Json.Null)) ==> r == Some(None)
  {
    var start := Json.Get(g, "startTimeUTC", Json.Null);
    if !Json.Truthy(start) then Some(None)
    else
      var text :- AsString(start);
      Some(Some(text))
  }

  /** One game of `parse_games` (loop body). */
  function ParseGame(g: Object): (r: Option<Game>)
    ensures r.Some? ==> Dict.Get(g, "id") == Some(Json.Int(r.value.gameId))
    ensures r.Some? ==> Dict.Get(g, "gameDate") == Some(Json.Str(r.value.gameDate))
    ensures r.Some? ==> TeamOfGame(g, "homeTeam").Some? && r.value.homeTeamAbbrev == TeamOfGame(g, "homeTeam").value.1
    ensures r.Some? ==> TeamOfGame(g, "awayTeam").Some? && r.value.awayTeamAbbrev == TeamOfGame(g, "awayTeam").value.1
    ensures r.Some? && !Dict.HasKey(g, "gameType") ==> r.value.gameType == 2
  {
    var startTime :- StartTimeOf(g);
    var idJson :- Index(g, "id");
    var gameId :- AsInt(idJson);
    var season :- Json.TryStr(Json.Get(g, "season", Json.Str("")));
    var gameType :- AsInt(Json.Get(g, "gameType", Json.Int(2)));
    var dateJson :- Index(g, "gameDate");
    var gameDate :- AsString(dateJson);
    var home :- TeamOfGame(g, "homeTeam");
    var away :- TeamOfGame(g, "awayTeam");
    var homeScore :- AsOptionalInt(Json.Get(home.0, "score", Json.Null));
    var awayScore :- AsOptionalInt(Json.Get(away.0, "score", Json.Null));
    var venue :- VenueOf(g);
    var gameState :- AsOptionalString(Json.Get(g, "gameState", Json.Null));
    Some(Game(gameId, season, gameType, gameDate, home.1, away.1, homeScore, awayScore, venue, startTime, gameState))
  }

  /** The games of a scores response: every element of `games` must be an object that parses. */
  function Games(scores: Object): Option<seq<Game>> {
    var games :- Objects(Json.Get(scores, "games", Json.Arr([])));
    Collect(games, ParseGame)
  }

  /** Converting each element in turn, stopping at the first failure. */
  method CollectEach<T, U>(xs: seq<T>, f: T -> Option<U>) returns (r: Option<seq<U>>)
    ensures r == Collect(xs, f)
  {
    var out: seq<U> := [];
    for i := 0 to |xs|
      invariant Collect(xs[..i], f) == Some(out)
    {
      assert xs[..i + 1] == xs[..i] + [xs[i]];
      CollectSnoc(xs[..i], xs[i], f);
      var u := f(xs[i]);
      if u.None? {
        assert !(forall j :: 0 <= j < |xs| ==> f(xs[j]).Some?) by { assert f(xs[i]).None?; }
        return None;
      }
      out := out + [u.value];
    }
    assert xs[..|xs|] == xs;
    return Some(out);
  }

  /** `parse_games`. */
  method ParseGames(scores: Object) returns (r: Option<seq<Game>>)
    ensures r == Games(scores)
  {
    var games := Objects(Json.Get(scores, "games", Json.Arr([])));
    if games.None? {
      return None;
    }
    r := CollectEach(games.value, ParseGame);
  }

  /** A list of games gives one game per element, in order. */
  lemma GamesOnePerElement(scores: Object)
    requires Json.Get(scores, "games", Json.Arr([])).Arr?
    requires Games(scores).Some?
    ensures var items := Json.Get(scores, "games", Json.Arr([])).items;
      |Games(scores).value| == |items|
      && forall i :: 0 <= i < |items| ==> items[i].Obj? && ParseGame(items[i].fields) == Some(Games(scores).value[i])
  {
  }

  /** A response without a `games` key has no games. */
  lemma NoGamesKey(scores: Object)
    requires !Dict.HasKey(scores, "games")
    ensures Games(scores) == Some([])
  {
  }

  /** A game object with only its required keys: id, date and the two teams' abbreviations. */
  function MinimalGame(id: int, date: string, home: string, away: string): Object {
    [("id", Json.Int(id)), ("gameDate", Json.Str(date)),
     ("homeTeam", Json.Obj([("abbrev", Json.Str(home))])), ("awayTeam", Json.Obj([("abbrev", Json.Str(away))]))]
  }

  lemma MinimalGameGet(id: int, date: string, home: string, away: string, key: string, default: Json.Json)
    requires key != "id" && key != "gameDate" && key != "homeTeam" && key != "awayTeam"
    ensures Json.Get(MinimalGame(id, date, home, away), key, default) == default
  {
    assert !Dict.HasKey(MinimalGame(id, date, home, away), key);
  }

  /**
   * Only the id, date and team abbreviations are required: the season defaults to "", the game
   * type to 2 (regular season), and scores, venue, start time and state to absent.
   */
  lemma MinimalGameParses(id: int, date: string, home: string, away: string)
    ensures ParseGame(MinimalGame(id, date, home, away)) == Some(Game(id, "", 2, date, home, away))
  {
    MinimalGameGet(id, date, home, away, "startTimeUTC", Json.Null);
    MinimalGameGet(id, date, home, away, "season", Json.Str(""));
    MinimalGameGet(id, date, home, away, "gameType", Json.Int(2));
    MinimalGameGet(id, date, home, away, "venue", Json.Null);
    MinimalGameGet(id, date, home, away, "gameState", Json.Null);
    MinimalGameRequired(id, date, home, away);
    AbbrevOnlyTeamHasNoScore(home);
    AbbrevOnlyTeamHasNoScore(away);
  }

  /** The required keys of the minimal game read back as given. */
  lemma MinimalGameRequired(id: int, date: string, home: string, away: string)
    ensures Index(MinimalGame(id, date, home, away), "id") == Some(Json.Int(id))
    ensures Index(MinimalGame(id, date, home, away), "gameDate") == Some(Json.Str(date))
    ensures TeamOfGame(MinimalGame(id, date, home, away), "homeTeam") == Some(([("abbrev", Json.Str(home))], home))
    ensures TeamOfGame(MinimalGame(id, date, home, away), "awayTeam") == Some(([("abbrev", Json.Str(away))], away))
  {
    var g := MinimalGame(id, date, home, away);
    assert g[0].0 == "id" && g[1].0 == "gameDate" && g[2].0 == "homeTeam" && g[3].0 == "awayTeam";
  }

  lemma AbbrevOnlyTeamHasNoScore(abbrev: string)
    ensures Json.Get([("abbrev", Json.Str(abbrev))], "score", Json.Null) == Json.Null
  {
    assert !Dict.HasKey([("abbrev", Json.Str(abbrev))], "score");
  }

  /** A game without an id, a date or a home or away team fails, as indexing the missing key raises. */
  lemma GameNeedsRequiredKeys(g: Object)
    requires !Dict.HasKey(g, "id") || !Dict.HasKey(g, "gameDate") || !Dict.HasKey(g, "homeTeam") || !Dict.HasKey(g, "awayTeam")
    ensures ParseGame(g).None?
  {
  }
}
