/**
 * DailyFaceoff line combinations: the page's embedded data block, the player-field
 * normalisation, the position ordering inside a line, and the grouping of the flat player list
 * into forward lines, defense pairs, special-teams units and goalies.
 *
 * A player entry is a decoded JSON object; the JSON decoder itself is a parameter.
 */
module DailyFaceoff {
  import opened Wrappers
  import Text
  import Dict
  import Json
  import StableSort
  import opened Slate

  type Player = Json.Object

  // ---------------------------------------------------------------------------------------------
  // The embedded data block

  // Written in two pieces: the verifier does not index into a literal this long.
  const DataMarker: string := "<script id=\"__NEXT_DATA__\"" + " type=\"application/json\">"
  const ScriptEnd: string := "</script>"

  /**
   * The text `_extract_next_data` hands to the decoder: from the end of the first marker to the
   * next closing script tag, or None when either is missing.
   */
  function NextDataText(html: string): (r: Option<string>)
    ensures (forall j :: !Text.OccursAt(html, DataMarker, j)) ==> r.None?
  {
    match Text.Find(html, DataMarker, 0)
    case None => None
    case Some(start) =>
      var from := start + |DataMarker|;
      match Text.Find(html, ScriptEnd, from)
      case None => None
      case Some(end) => Some(html[from..end])
  }

  /** `_extract_next_data`, with `json.loads` passed in as `decode` (None for a decoding error). */
  function ExtractNextData(html: string, decode: string -> Option<Json.Json>): (r: Option<Json.Json>)
    ensures NextDataText(html).None? ==> r.None?
    ensures NextDataText(html).Some? ==> r == decode(NextDataText(html).value)
  {
    match NextDataText(html)
    case None => None
    case Some(text) => decode(text)
  }

  /** `at` is the first position at or after `from` where `needle` occurs in `hay`. */
  predicate FirstOccurrence(hay: string, needle: string, from: nat, at: nat) {
    from <= at && Text.OccursAt(hay, needle, at) && forall j :: from <= j < at ==> !Text.OccursAt(hay, needle, j)
  }

  /** The block is exactly the text between the first marker and the first closing tag after it. */
  lemma NextDataTextIsBetweenTags(html: string, start: nat, end: nat)
    requires FirstOccurrence(html, DataMarker, 0, start)
    requires FirstOccurrence(html, ScriptEnd, start + |DataMarker|, end)
    ensures NextDataText(html) == Some(html[start + |DataMarker|..end])
  {
    var found := Text.Find(html, DataMarker, 0);
    assert found == Some(start);
    var closing := Text.Find(html, ScriptEnd, start + |DataMarker|);
    assert closing == Some(end);
  }

  /** With no closing tag after the first marker there is no block. */
  lemma UnclosedTagNoData(html: string, start: nat)
    requires FirstOccurrence(html, DataMarker, 0, start)
    requires forall j :: start + |DataMarker| <= j ==> !Text.OccursAt(html, ScriptEnd, j)
    ensures NextDataText(html).None?
  {
    var found := Text.Find(html, DataMarker, 0);
    assert found == Some(start);
  }

  /** A page that wraps `payload` in the data tag yields `payload`, when nothing before it and nothing in it opens a tag. */
  lemma WrappedPayloadExtracted(before: string, payload: string, after: string)
    requires '<' !in before && '<' !in payload
    ensures NextDataText(before + DataMarker + payload + ScriptEnd + after) == Some(payload)
  {
    var html := before + DataMarker + payload + ScriptEnd + after;
    var start := |before|;
    assert DataMarker[0] == '<' && ScriptEnd[0] == '<';
    assert html[start..start + |DataMarker|] == DataMarker;
    forall j | 0 <= j < start
      ensures !Text.OccursAt(html, DataMarker, j)
    {
      assert html[j] == before[j] && before[j] in before;
      Text.NotOccursAtMismatch(html, DataMarker, j);
    }
    var from := start + |DataMarker|;
    var end := from + |payload|;
    assert html[end..end + |ScriptEnd|] == ScriptEnd;
    forall j | from <= j < end
      ensures !Text.OccursAt(html, ScriptEnd, j)
    {
      assert html[j] == payload[j - from] && payload[j - from] in payload;
      Text.NotOccursAtMismatch(html, ScriptEnd, j);
    }
    NextDataTextIsBetweenTags(html, start, end);
    assert html[from..end] == payload;
  }

  lemma MissingTagExample()
    ensures NextDataText("<html><body>No data here</body></html>").None?
  {
    var html := "<html><body>No data here</body></html>";
    assert DataMarker[12] == '_';
    Text.NotContainsMissingChar(html, DataMarker, '_');
  }

  // ---------------------------------------------------------------------------------------------
  // One player

  /** `str(player.get(key, default))`; renderings of floats, lists and objects are read as "". */
  function FieldText(player: Player, key: string, default: string): string {
    Json.TryStr(Json.Get(player, key, Json.Str(default))).GetOr("")
  }

  function PositionId(player: Player): string {
    FieldText(player, "positionIdentifier", "")
  }

  function GroupId(player: Player): string {
    FieldText(player, "groupIdentifier", "")
  }

  /** `_POSITION_DISPLAY`. */
  function PositionDisplay(positionId: string): (r: Option<string>)
    ensures positionId in {"g1", "g2"} ==> r == Some("G")
    ensures r.Some? && positionId !in {"g1", "g2"} ==> r.value == Text.Upper(positionId)
  {
    match positionId
    case "lw" => Some("LW")
    case "c" => Some("C")
    case "rw" => Some("RW")
    case "ld" => Some("LD")
    case "rd" => Some("RD")
    case "g1" => Some("G")
    case "g2" => Some("G")
    case _ => None
  }

  /** `_build_player_line`. */
  function BuildPlayerLine(player: Player): (line: PlayerLine)
    ensures line.name == FieldText(player, "name", "")
    ensures line.position == if PositionId(player) in {"g1", "g2"} then "G" else Text.Upper(PositionId(player))
    ensures line.injuryStatus.None? <==> !Json.Truthy(Json.Get(player, "injuryStatus", Json.Null))
    ensures !Dict.HasKey(player, "gameTimeDecision") ==> !line.gameTimeDecision
  {
    var positionId := PositionId(player);
    var injury := Json.Get(player, "injuryStatus", Json.Null);
    var decision := Json.Get(player, "gameTimeDecision", Json.Null);
    PlayerLine(
      FieldText(player, "name", ""),
      PositionDisplay(positionId).GetOr(Text.Upper(positionId)),
      if Json.Truthy(injury) then Some(Json.TryStr(injury).GetOr("")) else None,
      if decision.Null? then false else Json.Truthy(decision))
  }

  lemma PlayerLineExamples()
    ensures BuildPlayerLine([("positionIdentifier", Json.Str("sk1"))]).position == "SK1"
    ensures BuildPlayerLine([("positionIdentifier", Json.Str("g2"))]).position == "G"
    ensures BuildPlayerLine([("injuryStatus", Json.Str(""))]).injuryStatus == None
    ensures BuildPlayerLine([("injuryStatus", Json.Str("out"))]).injuryStatus == Some("out")
    ensures !BuildPlayerLine([]).gameTimeDecision && BuildPlayerLine([]).name == ""
  {
    assert Text.Upper("sk1") == "SK1";
  }

  // ---------------------------------------------------------------------------------------------
  // Position order inside a line

  /** `_FORWARD_POSITIONS` order, 99 for anything else. */
  function ForwardOrder(positionId: string): int {
    match positionId
    case "lw" => 0
    case "c" => 1
    case "rw" => 2
    case _ => 99
  }

  /** `_DEFENSE_POSITIONS` order, 99 for anything else. */
  function DefenseOrder(positionId: string): int {
    match positionId
    case "ld" => 0
    case "rd" => 1
    case _ => 99
  }

  function ForwardRank(player: Player): StableSort.Rank {
    StableSort.Rank(ForwardOrder(PositionId(player)), 0.0)
  }

  function DefenseRank(player: Player): StableSort.Rank {
    StableSort.Rank(DefenseOrder(PositionId(player)), 0.0)
  }

  /** `_sort_players_by_position`: stable sort of forward and defense groups, any other group as given. */
  function SortPlayersByPosition(players: seq<Player>, groupId: string): (r: seq<Player>)
    ensures multiset(r) == multiset(players)
    ensures Text.StartsWith(groupId, "f") ==> StableSort.Sorted(r, ForwardRank)
    ensures !Text.StartsWith(groupId, "f") && Text.StartsWith(groupId, "d") ==> StableSort.Sorted(r, DefenseRank)
    ensures !Text.StartsWith(groupId, "f") && !Text.StartsWith(groupId, "d") ==> r == players
  {
    if Text.StartsWith(groupId, "f") then StableSort.Sort(players, ForwardRank)
    else if Text.StartsWith(groupId, "d") then StableSort.Sort(players, DefenseRank)
    else players
  }

  /** Players that share a position keep their relative order. */
  lemma SortKeepsOrderWithinPosition(players: seq<Player>, groupId: string, k: StableSort.Rank)
    ensures Text.StartsWith(groupId, "f") ==>
      StableSort.WithRank(SortPlayersByPosition(players, groupId), ForwardRank, k) == StableSort.WithRank(players, ForwardRank, k)
    ensures !Text.StartsWith(groupId, "f") && Text.StartsWith(groupId, "d") ==>
      StableSort.WithRank(SortPlayersByPosition(players, groupId), DefenseRank, k) == StableSort.WithRank(players, DefenseRank, k)
  {
    StableSort.SortStable(players, ForwardRank, k);
    StableSort.SortStable(players, DefenseRank, k);
  }

  /** In a sorted forward line, a player at an unknown position is followed only by such players. */
  lemma UnknownForwardsLast(players: seq<Player>, groupId: string, i: nat, j: nat)
    requires Text.StartsWith(groupId, "f")
    requires i < j < |SortPlayersByPosition(players, groupId)|
    requires ForwardOrder(PositionId(SortPlayersByPosition(players, groupId)[i])) == 99
    ensures ForwardOrder(PositionId(SortPlayersByPosition(players, groupId)[j])) == 99
  {
    var r := SortPlayersByPosition(players, groupId);
    assert StableSort.RankLe(ForwardRank(r[i]), ForwardRank(r[j]));
  }

  /** A line already in lw, c, rw order comes back unchanged. */
  lemma OrderedForwardLineUnchanged(players: seq<Player>, groupId: string)
    requires Text.StartsWith(groupId, "f") && StableSort.Sorted(players, ForwardRank)
    ensures SortPlayersByPosition(players, groupId) == players
  {
    StableSort.SortSorted(players, ForwardRank);
  }

  // ---------------------------------------------------------------------------------------------
  // One line combination

  /** `[_build_player_line(p) for p in players]`. */
  function PlayerLines(players: seq<Player>): (lines: seq<PlayerLine>)
    ensures |lines| == |players|
    ensures forall i :: 0 <= i < |players| ==> lines[i].name == FieldText(players[i], "name", "")
  {
    seq(|players|, i requires 0 <= i < |players| => BuildPlayerLine(players[i]))
  }

  /** `_build_line_combination`: None only for an empty group; type and name come from its first player. */
  function BuildLineCombination(players: seq<Player>, groupId: string): (r: Option<LineCombination>)
    ensures r.None? <==> players == []
    ensures r.Some? ==> r.value.groupId == groupId && |r.value.players| == |players|
    ensures r.Some? ==> r.value.groupType == FieldText(players[0], "categoryIdentifier", "ev")
    ensures r.Some? ==> r.value.groupName == FieldText(players[0], "groupName", "")
    ensures r.Some? ==> r.value.players == PlayerLines(SortPlayersByPosition(players, groupId))
  {
    if players == [] then None
    else
      var sorted := SortPlayersByPosition(players, groupId);
      assert |sorted| == |multiset(sorted)| == |players|;
      Some(LineCombination(
        FieldText(players[0], "categoryIdentifier", "ev"),
        FieldText(players[0], "groupName", ""),
        groupId,
        PlayerLines(sorted)))
  }

  // ---------------------------------------------------------------------------------------------
  // The whole team

  /** The entries of `xs` whose key is `k`, in order. */
  function Members<T>(xs: seq<T>, key: T -> string, k: string): (r: seq<T>)
    ensures |r| <= |xs|
    ensures forall x :: x in r ==> x in xs && key(x) == k
    ensures forall x :: x in xs && key(x) == k ==> x in r
  {
    if xs == [] then []
    else
      var last := xs[|xs| - 1];
      var init := xs[..|xs| - 1];
      assert xs == init + [last];
      Members(init, key, k) + (if key(last) == k then [last] else [])
  }

  lemma MembersSnoc<T>(xs: seq<T>, x: T, key: T -> string, k: string)
    ensures Members(xs + [x], key, k) == Members(xs, key, k) + if key(x) == k then [x] else []
  {
    assert (xs + [x])[..|xs|] == xs;
  }

  /** The value of `groups[groupId]` after grouping `players`, None when the key is absent. */
  function GroupEntry(players: seq<Player>, groupId: string): Option<seq<Player>> {
    if groupId == "" || Members(players, GroupId, groupId) == [] then None else Some(Members(players, GroupId, groupId))
  }

  /** The identifiers `prefix1` … `prefixN`. */
  function SlotIds(prefix: string, n: nat): seq<string> {
    if n == 0 then [] else SlotIds(prefix, n - 1) + [prefix + Text.NatToString(n)]
  }

  /** The group identifiers `_build_team_lines` reads. */
  const KnownGroups: seq<string> := ["f1", "f2", "f3", "f4", "d1", "d2", "d3", "pp1", "pp2", "pk1", "pk2", "g"]

  /** The combinations built for `ids`, in that order, skipping identifiers with no players. */
  function Combinations(players: seq<Player>, ids: seq<string>): seq<LineCombination> {
    if ids == [] then []
    else
      var id := ids[|ids| - 1];
      Combinations(players, ids[..|ids| - 1])
        + match BuildLineCombination(Members(players, GroupId, id), id) case None => [] case Some(c) => [c]
  }

  /** The `i`-th identifier of `ids` whose group has players. */
  function PresentIds(players: seq<Player>, ids: seq<string>): seq<string> {
    if ids == [] then []
    else
      var id := ids[|ids| - 1];
      PresentIds(players, ids[..|ids| - 1]) + if Members(players, GroupId, id) != [] then [id] else []
  }

  /** `xs[i]` is the last entry of `xs` whose key is `k`. */
  predicate LastAt<T>(xs: seq<T>, key: T -> string, k: string, i: nat) {
    i < |xs| && key(xs[i]) == k && forall j :: i < j < |xs| ==> key(xs[j]) != k
  }

  /** The position of the last entry of `xs` whose key is `k`. */
  function LastIndexOf<T>(xs: seq<T>, key: T -> string, k: string): (r: Option<nat>)
    ensures r.Some? ==> LastAt(xs, key, k, r.value)
    ensures r.None? ==> forall i :: 0 <= i < |xs| ==> key(xs[i]) != k
  {
    if xs == [] then None
    else if key(xs[|xs| - 1]) == k then Some(|xs| - 1)
    else LastIndexOf(xs[..|xs| - 1], key, k)
  }

  /** What `render` makes of the last entry of `xs` whose key is `k`: later entries overwrite earlier ones. */
  function LastRendered<T, U>(xs: seq<T>, key: T -> string, render: T -> U, k: string): (r: Option<U>)
    ensures r.None? <==> forall i :: 0 <= i < |xs| ==> key(xs[i]) != k
    ensures r.Some? ==> exists i: nat :: LastAt(xs, key, k, i) && r.value == render(xs[i])
  {
    match LastIndexOf(xs, key, k)
    case None => None
    case Some(i) => Some(render(xs[i]))
  }

  /** One more entry overwrites the slot of its own key and leaves the others as they were. */
  lemma LastRenderedSnoc<T, U>(xs: seq<T>, x: T, key: T -> string, render: T -> U, k: string)
    ensures LastRendered(xs + [x], key, render, k)
      == if key(x) == k then Some(render(x)) else LastRendered(xs, key, render, k)
  {
    var more := xs + [x];
    assert more[..|xs|] == xs && more[|xs|] == x;
  }

  /** The goalie slot for `positionId`: the line of the last goalie listed with that position. */
  function LastGoalie(goalies: seq<Player>, positionId: string): Option<PlayerLine> {
    LastRendered(goalies, PositionId, BuildPlayerLine, positionId)
  }

  /** What `_build_team_lines` returns for `players`. */
  function TeamLinesOf(players: seq<Player>, abbrev: string): TeamLines {
    var goalies := Members(players, GroupId, "g");
    TeamLines(abbrev,
              Combinations(players, SlotIds("f", 4)),
              Combinations(players, SlotIds("d", 3)),
              Combinations(players, SlotIds("pp", 2)),
              Combinations(players, SlotIds("pk", 2)),
              LastGoalie(goalies, "g1"),
              LastGoalie(goalies, "g2"))
  }

  /** The `groups` dictionary holds, for every non-empty identifier met so far, its players in order. */
  ghost predicate GroupsOf(groups: Dict.Dict<seq<Player>>, players: seq<Player>) {
    forall groupId :: Dict.Get(groups, groupId) == GroupEntry(players, groupId)
  }

  /** One step of the grouping loop keeps the dictionary in step with the players seen. */
  lemma GroupsStep(groups: Dict.Dict<seq<Player>>, players: seq<Player>, player: Player, next: Dict.Dict<seq<Player>>)
    requires GroupsOf(groups, players)
    requires next == if GroupId(player) == "" then groups
                     else Dict.Put(groups, GroupId(player), Dict.Get(groups, GroupId(player)).GetOr([]) + [player])
    ensures GroupsOf(next, players + [player])
  {
    var own := GroupId(player);
    forall g
      ensures Dict.Get(next, g) == GroupEntry(players + [player], g)
    {
      MembersSnoc(players, player, GroupId, g);
      var before := Members(players, GroupId, g);
      var after := Members(players + [player], GroupId, g);
      assert Dict.Get(groups, g) == GroupEntry(players, g);
      if g == own && g != "" {
        assert after == before + [player];
        assert Dict.Get(groups, g).GetOr([]) == before;
        assert Dict.Get(next, g) == Some(before + [player]);
      } else if own == "" {
        assert next == groups;
        assert g != "" ==> after == before;
      } else {
        assert after == before;
        assert Dict.Get(next, g) == Dict.Get(groups, g);
      }
    }
  }

  /** One step of the grouping loop: `groups.setdefault(gid, []).append(player)` for a non-empty identifier. */
  function AddToGroups(groups: Dict.Dict<seq<Player>>, player: Player): Dict.Dict<seq<Player>> {
    if GroupId(player) == "" then groups
    else Dict.Put(groups, GroupId(player), Dict.Get(groups, GroupId(player)).GetOr([]) + [player])
  }

  /** The `groups` dictionary after the grouping loop has seen `players`. */
  function Groups(players: seq<Player>): Dict.Dict<seq<Player>> {
    if players == [] then [] else AddToGroups(Groups(players[..|players| - 1]), players[|players| - 1])
  }

  /** The grouping keeps, under each non-empty identifier met, exactly that group's players in input order. */
  lemma {:induction false} GroupsHoldMembers(players: seq<Player>)
    ensures GroupsOf(Groups(players), players)
  {
    if players != [] {
      var init := players[..|players| - 1];
      GroupsHoldMembers(init);
      assert players == init + [players[|players| - 1]];
      GroupsStep(Groups(init), init, players[|players| - 1], Groups(players));
    }
  }

  /** `_build_team_lines`. */
  method BuildTeamLines(players: seq<Player>, abbrev: string) returns (team: TeamLines)
    ensures team == TeamLinesOf(players, abbrev)
  {
    team := NewTeamLines(abbrev);
    var groups := GroupPlayers(players);
    var forwardLines := SlotLines(players, groups, "f", 4);
    var defensePairs := SlotLines(players, groups, "d", 3);
    var powerPlay := SlotLines(players, groups, "pp", 2);
    var penaltyKill := SlotLines(players, groups, "pk", 2);
    var starting, backup := GoaliesOf(players, groups);
    team := team.(forwardLines := forwardLines, defensePairs := defensePairs,
                  powerPlay := powerPlay, penaltyKill := penaltyKill,
                  startingGoalie := starting, backupGoalie := backup);
  }

  /** One slot family of `_build_team_lines`, read out of the grouped dictionary. */
  method SlotLines(players: seq<Player>, groups: Dict.Dict<seq<Player>>, prefix: string, n: nat)
    returns (combos: seq<LineCombination>)
    requires groups == Groups(players)
    ensures combos == Combinations(players, SlotIds(prefix, n))
  {
    combos := SlotCombinations(groups, prefix, n, BuildLineCombination);
    SlotIdsNonEmpty(prefix, n);
    SlotResultsAreCombinations(players, SlotIds(prefix, n));
  }

  /** The goalie part of `_build_team_lines`: nothing unless the "g" group exists. */
  method GoaliesOf(players: seq<Player>, groups: Dict.Dict<seq<Player>>)
    returns (starting: Option<PlayerLine>, backup: Option<PlayerLine>)
    requires groups == Groups(players)
    ensures starting == LastGoalie(Members(players, GroupId, "g"), "g1")
    ensures backup == LastGoalie(Members(players, GroupId, "g"), "g2")
  {
    starting, backup := None, None;
    GroupsHoldMembers(players);
    assert Dict.Get(groups, "g") == GroupEntry(players, "g");
    if Dict.HasKey(groups, "g") {
      starting, backup := PickGoalies(Dict.Get(groups, "g").value, PositionId, BuildPlayerLine);
    }
  }

  /** The grouping loop of `_build_team_lines`. */
  method GroupPlayers(players: seq<Player>) returns (groups: Dict.Dict<seq<Player>>)
    ensures groups == Groups(players)
  {
    groups := [];
    var i := 0;
    while i < |players|
      invariant 0 <= i <= |players|
      invariant groups == Groups(players[..i])
    {
      var player := players[i];
      var groupId := GroupId(player);
      assert players[..i + 1][..i] == players[..i];
      if groupId != "" {
        groups := Dict.Put(groups, groupId, Dict.Get(groups, groupId).GetOr([]) + [player]);
      }
      i := i + 1;
    }
    assert players[..i] == players;
  }

  /**
   * The goalie loop of `_build_team_lines`: a g1 entry sets the starter, a g2 entry the backup.
   * It is written over any entry type, given the entry's position and its line.
   */
  method PickGoalies<T, U>(goalies: seq<T>, positionId: T -> string, line: T -> U)
    returns (starting: Option<U>, backup: Option<U>)
    ensures starting == LastRendered(goalies, positionId, line, "g1")
    ensures backup == LastRendered(goalies, positionId, line, "g2")
  {
    starting, backup := None, None;
    var j := 0;
    while j < |goalies|
      invariant 0 <= j <= |goalies|
      invariant starting == LastRendered(goalies[..j], positionId, line, "g1")
      invariant backup == LastRendered(goalies[..j], positionId, line, "g2")
    {
      var player := goalies[j];
      var pos := positionId(player);
      var pl := line(player);
      assert goalies[..j + 1] == goalies[..j] + [player];
      LastRenderedSnoc(goalies[..j], player, positionId, line, "g1");
      LastRenderedSnoc(goalies[..j], player, positionId, line, "g2");
      if pos == "g1" {
        starting := Some(pl);
      } else if pos == "g2" {
        backup := Some(pl);
      }
      j := j + 1;
    }
    assert goalies[..j] == goalies;
  }

  /**
   * The combinations the slot loops read out of `groups` for `ids`, in that order: an identifier
   * absent from the dictionary, or whose group `combine` turns into nothing, adds nothing.
   */
  function SlotResults<G, C>(groups: Dict.Dict<G>, ids: seq<string>, combine: (G, string) -> Option<C>): seq<C> {
    if ids == [] then []
    else SlotResults(groups, ids[..|ids| - 1], combine) + SlotStep(groups, ids[|ids| - 1], combine)
  }

  /** What one identifier adds: nothing when it is absent or its group combines into nothing. */
  function SlotStep<G, C>(groups: Dict.Dict<G>, id: string, combine: (G, string) -> Option<C>): seq<C> {
    match Dict.Get(groups, id)
    case None => []
    case Some(g) => match combine(g, id) case None => [] case Some(c) => [c]
  }

  /** Reading slot `i` extends the combinations of the slots before it. */
  lemma SlotResultsStep<G, C>(groups: Dict.Dict<G>, prefix: string, i: nat, combine: (G, string) -> Option<C>)
    requires i >= 1
    ensures SlotResults(groups, SlotIds(prefix, i), combine)
            == SlotResults(groups, SlotIds(prefix, i - 1), combine) + SlotStep(groups, prefix + Text.NatToString(i), combine)
  {
    var ids := SlotIds(prefix, i);
    assert ids[..|ids| - 1] == SlotIds(prefix, i - 1);
  }

  /**
   * The loops over `f1`-`f4`, `d1`-`d3`, `pp1`-`pp2` and `pk1`-`pk2`, written over any group and
   * combination type.
   */
  method SlotCombinations<G, C>(groups: Dict.Dict<G>, prefix: string, n: nat, combine: (G, string) -> Option<C>)
    returns (combos: seq<C>)
    ensures combos == SlotResults(groups, SlotIds(prefix, n), combine)
  {
    combos := [];
    var i := 1;
    while i <= n
      invariant 1 <= i <= n + 1
      invariant combos == SlotResults(groups, SlotIds(prefix, i - 1), combine)
    {
      var groupId := prefix + Text.NatToString(i);
      var step := ReadSlot(groups, groupId, combine);
      SlotResultsStep(groups, prefix, i, combine);
      combos := combos + step;
      i := i + 1;
    }
  }

  /** One pass of a slot loop: the combination of `groupId`'s group, when it is present and combines. */
  method ReadSlot<G, C>(groups: Dict.Dict<G>, groupId: string, combine: (G, string) -> Option<C>) returns (step: seq<C>)
    ensures step == SlotStep(groups, groupId, combine)
  {
    step := [];
    if Dict.HasKey(groups, groupId) {
      var combo := combine(Dict.Get(groups, groupId).value, groupId);
      if combo.Some? {
        step := [combo.value];
      }
    }
  }

  /** Read out of the grouped dictionary, the slot combinations are those of the players' groups. */
  lemma {:induction false} SlotResultsAreCombinations(players: seq<Player>, ids: seq<string>)
    requires "" !in ids
    ensures SlotResults(Groups(players), ids, BuildLineCombination) == Combinations(players, ids)
  {
    if ids != [] {
      var id := ids[|ids| - 1];
      assert id in ids;
      SlotResultsAreCombinations(players, ids[..|ids| - 1]);
      GroupsHoldMembers(players);
      assert Dict.Get(Groups(players), id) == GroupEntry(players, id);
    }
  }

  /** Slot identifiers are never empty. */
  lemma {:induction false} SlotIdsNonEmpty(prefix: string, n: nat)
    ensures "" !in SlotIds(prefix, n)
  {
    if n > 0 {
      SlotIdsNonEmpty(prefix, n - 1);
      assert |prefix + Text.NatToString(n)| >= 1;
    }
  }

  // ---------------------------------------------------------------------------------------------
  // Properties of the grouping

  /**
   * The combinations follow the slot identifiers in order: one per identifier with players, built
   * from exactly that group's players.
   */
  lemma {:induction false} CombinationsFollowSlots(players: seq<Player>, ids: seq<string>)
    ensures |Combinations(players, ids)| == |PresentIds(players, ids)|
    ensures forall k :: 0 <= k < |PresentIds(players, ids)| ==>
      Members(players, GroupId, PresentIds(players, ids)[k]) != []
      && Some(Combinations(players, ids)[k])
         == BuildLineCombination(Members(players, GroupId, PresentIds(players, ids)[k]), PresentIds(players, ids)[k])
  {
    if ids != [] {
      CombinationsFollowSlots(players, ids[..|ids| - 1]);
    }
  }

  /** Every identifier kept is one of the slot identifiers, and every slot with players is kept. */
  lemma {:induction false} PresentIdsExact(players: seq<Player>, ids: seq<string>)
    ensures forall id :: id in PresentIds(players, ids) <==> id in ids && Members(players, GroupId, id) != []
  {
    if ids != [] {
      PresentIdsExact(players, ids[..|ids| - 1]);
      assert ids == ids[..|ids| - 1] + [ids[|ids| - 1]];
    }
  }

  /** Groups whose players are the same give the same combinations. */
  lemma {:induction false} CombinationsDependOnGroups(players: seq<Player>, others: seq<Player>, ids: seq<string>)
    requires forall id :: id in ids ==> Members(players, GroupId, id) == Members(others, GroupId, id)
    ensures Combinations(players, ids) == Combinations(others, ids)
  {
    if ids != [] {
      CombinationsDependOnGroups(players, others, ids[..|ids| - 1]);
    }
  }

  lemma ForwardSlotIds()
    ensures SlotIds("f", 4) == ["f1", "f2", "f3", "f4"]
  {
    assert Text.NatToString(1) == "1" && Text.NatToString(2) == "2";
    assert Text.NatToString(3) == "3" && Text.NatToString(4) == "4";
    assert "f" + "1" == "f1" && "f" + "2" == "f2" && "f" + "3" == "f3" && "f" + "4" == "f4";
    assert SlotIds("f", 1) == ["f1"];
    assert SlotIds("f", 2) == ["f1", "f2"];
    assert SlotIds("f", 3) == ["f1", "f2", "f3"];
  }

  lemma DefenseSlotIds()
    ensures SlotIds("d", 3) == ["d1", "d2", "d3"]
  {
    assert Text.NatToString(1) == "1" && Text.NatToString(2) == "2" && Text.NatToString(3) == "3";
    assert "d" + "1" == "d1" && "d" + "2" == "d2" && "d" + "3" == "d3";
    assert SlotIds("d", 1) == ["d1"];
    assert SlotIds("d", 2) == ["d1", "d2"];
  }

  lemma SpecialTeamsSlotIds()
    ensures SlotIds("pp", 2) == ["pp1", "pp2"] && SlotIds("pk", 2) == ["pk1", "pk2"]
  {
    assert Text.NatToString(1) == "1" && Text.NatToString(2) == "2";
    assert "pp" + "1" == "pp1" && "pp" + "2" == "pp2" && "pk" + "1" == "pk1" && "pk" + "2" == "pk2";
    assert SlotIds("pp", 1) == ["pp1"];
    assert SlotIds("pk", 1) == ["pk1"];
  }

  /** The slot identifiers read are `f1`-`f4`, `d1`-`d3`, `pp1`-`pp2` and `pk1`-`pk2`; with `g`, these are all the groups used. */
  lemma SlotIdsListed()
    ensures SlotIds("f", 4) + SlotIds("d", 3) + SlotIds("pp", 2) + SlotIds("pk", 2) + ["g"] == KnownGroups
  {
    ForwardSlotIds();
    DefenseSlotIds();
    SpecialTeamsSlotIds();
  }

  /** A player whose group is not among `ids` leaves their combinations as they were. */
  lemma UnreadGroupKeepsCombinations(players: seq<Player>, player: Player, ids: seq<string>)
    requires GroupId(player) !in ids
    ensures Combinations(players + [player], ids) == Combinations(players, ids)
  {
    forall id | id in ids
      ensures Members(players + [player], GroupId, id) == Members(players, GroupId, id)
    {
      MembersSnoc(players, player, GroupId, id);
    }
    CombinationsDependOnGroups(players + [player], players, ids);
  }

  /** A player of any other group (an injured-reserve entry, say) changes nothing. */
  lemma OtherGroupIgnored(players: seq<Player>, player: Player, abbrev: string)
    requires GroupId(player) !in KnownGroups
    ensures TeamLinesOf(players + [player], abbrev) == TeamLinesOf(players, abbrev)
  {
    var own := GroupId(player);
    SlotIdsListed();
    assert own !in SlotIds("f", 4) && own !in SlotIds("d", 3);
    assert own !in SlotIds("pp", 2) && own !in SlotIds("pk", 2) && own != "g";
    UnreadGroupKeepsCombinations(players, player, SlotIds("f", 4));
    UnreadGroupKeepsCombinations(players, player, SlotIds("d", 3));
    UnreadGroupKeepsCombinations(players, player, SlotIds("pp", 2));
    UnreadGroupKeepsCombinations(players, player, SlotIds("pk", 2));
    MembersSnoc(players, player, GroupId, "g");
    var goalies := Members(players, GroupId, "g");
    assert Members(players + [player], GroupId, "g") == goalies;
    assert TeamLinesOf(players + [player], abbrev).startingGoalie == LastGoalie(goalies, "g1");
    assert TeamLinesOf(players + [player], abbrev).backupGoalie == LastGoalie(goalies, "g2");
  }

  /** With no players, the result is the bare team: no lines and no goalies. */
  lemma EmptyInputBareTeam(abbrev: string)
    ensures TeamLinesOf([], abbrev) == NewTeamLines(abbrev)
  {
    NoPlayersNoCombinations(SlotIds("f", 4));
    NoPlayersNoCombinations(SlotIds("d", 3));
    NoPlayersNoCombinations(SlotIds("pp", 2));
    NoPlayersNoCombinations(SlotIds("pk", 2));
  }

  lemma {:induction false} NoPlayersNoCombinations(ids: seq<string>)
    ensures Combinations([], ids) == []
  {
    if ids != [] {
      NoPlayersNoCombinations(ids[..|ids| - 1]);
    }
  }
}
