/**
 * Natural Stat Trick team tables: the full-name to abbreviation tables, the defensive cell
 * readers, and the conversion of the season table's rows into the shot-quality registry that
 * the game-environment classifier looks teams up in.
 */
module NaturalStatTrick {
  import opened Wrappers
  import Text
  import Dict
  import Team
  import ExtractUtils
  import opened Slate
  import GameEnvironment

  // ---------------------------------------------------------------------------------------------
  // Name tables

  /** `TEAM_NAME_TO_ABBREV.get(name)`: the site's full team names, both spellings of Montreal and of St. Louis. */
  function NstTeamAbbrev(name: string): (r: Option<string>)
    ensures r.Some? ==> Team.IsCanonical(r.value) && |name| > 3
  {
    match name
    case "Anaheim Ducks" => Some("ANA")
    case "Boston Bruins" => Some("BOS")
    case "Buffalo Sabres" => Some("BUF")
    case "Carolina Hurricanes" => Some("CAR")
    case "Columbus Blue Jackets" => Some("CBJ")
    case "Calgary Flames" => Some("CGY")
    case "Chicago Blackhawks" => Some("CHI")
    case "Colorado Avalanche" => Some("COL")
    case "Dallas Stars" => Some("DAL")
    case "Detroit Red Wings" => Some("DET")
    case "Edmonton Oilers" => Some("EDM")
    case "Florida Panthers" => Some("FLA")
    case "Los Angeles Kings" => Some("LAK")
    case "Minnesota Wild" => Some("MIN")
    case "Montréal Canadiens" => Some("MTL")
    case "Montreal Canadiens" => Some("MTL")
    case "New Jersey Devils" => Some("NJD")
    case "Nashville Predators" => Some("NSH")
    case "New York Islanders" => Some("NYI")
    case "New York Rangers" => Some("NYR")
    case "Ottawa Senators" => Some("OTT")
    case "Philadelphia Flyers" => Some("PHI")
    case "Pittsburgh Penguins" => Some("PIT")
    case "Seattle Kraken" => Some("SEA")
    case "San Jose Sharks" => Some("SJS")
    case "St. Louis Blues" => Some("STL")
    case "St Louis Blues" => Some("STL")
    case "Tampa Bay Lightning" => Some("TBL")
    case "Toronto Maple Leafs" => Some("TOR")
    case "Utah Mammoth" => Some("UTA")
    case "Vancouver Canucks" => Some("VAN")
    case "Vegas Golden Knights" => Some("VGK")
    case "Winnipeg Jets" => Some("WPG")
    case "Washington Capitals" => Some("WSH")
    case _ => None
  }

  /** `ODDS_API_NAME_TO_ABBREV.get(name)`: the table above plus the odds feed's legacy Arizona name. */
  function OddsApiTeamAbbrev(name: string): (r: Option<string>)
  {
    if name == "Arizona Coyotes" then Some("UTA") else NstTeamAbbrev(name)
  }

  /** `team_name_to_abbrev`. */
  function TeamNameToAbbrev(name: string): (r: Option<string>)
    ensures r == OddsApiTeamAbbrev(name)
  {
    OddsApiTeamAbbrev(name)
  }

  /** The odds-feed table keeps every entry of the site's table and adds only Arizona. */
  lemma OddsApiTableExtendsNst(name: string)
    ensures NstTeamAbbrev(name).Some? ==> OddsApiTeamAbbrev(name) == NstTeamAbbrev(name)
    ensures OddsApiTeamAbbrev(name).Some? ==> NstTeamAbbrev(name).Some? || name == "Arizona Coyotes"
    ensures OddsApiTeamAbbrev("Arizona Coyotes") == Some("UTA")
  {
    assert NstTeamAbbrev("Arizona Coyotes") == None;
  }

  /** A full name for the `i`-th canonical code. */
  function FullName(i: nat): string
    requires i < 32
  {
    match i
    case 0 => "Anaheim Ducks"
    case 1 => "Boston Bruins"
    case 2 => "Buffalo Sabres"
    case 3 => "Carolina Hurricanes"
    case 4 => "Columbus Blue Jackets"
    case 5 => "Calgary Flames"
    case 6 => "Chicago Blackhawks"
    case 7 => "Colorado Avalanche"
    case 8 => "Dallas Stars"
    case 9 => "Detroit Red Wings"
    case 10 => "Edmonton Oilers"
    case 11 => "Florida Panthers"
    case 12 => "Los Angeles Kings"
    case 13 => "Minnesota Wild"
    case 14 => "Montreal Canadiens"
    case 15 => "New Jersey Devils"
    case 16 => "Nashville Predators"
    case 17 => "New York Islanders"
    case 18 => "New York Rangers"
    case 19 => "Ottawa Senators"
    case 20 => "Philadelphia Flyers"
    case 21 => "Pittsburgh Penguins"
    case 22 => "Seattle Kraken"
    case 23 => "San Jose Sharks"
    case 24 => "St. Louis Blues"
    case 25 => "Tampa Bay Lightning"
    case 26 => "Toronto Maple Leafs"
    case 27 => "Utah Mammoth"
    case 28 => "Vancouver Canucks"
    case 29 => "Vegas Golden Knights"
    case 30 => "Winnipeg Jets"
    case _ => "Washington Capitals"
  }

  /** Every canonical code is the abbreviation of some full name: the table covers all 32 teams. */
  lemma NstCoversAllTeams(i: nat)
    requires i < 32
    ensures NstTeamAbbrev(FullName(i)) == Some(Team.CanonicalAt(i))
  {
    if i < 4 { CoversTeams0(i); }
    else if i < 8 { CoversTeams4(i); }
    else if i < 12 { CoversTeams8(i); }
    else if i < 16 { CoversTeams12(i); }
    else if i < 20 { CoversTeams16(i); }
    else if i < 24 { CoversTeams20(i); }
    else if i < 26 { CoversTeams24(i); }
    else if i < 28 { CoversTeams26(i); }
    else if i < 29 { CoversTeams28(i); }
    else if i < 30 { CoversTeams29(i); }
    else if i < 31 { CoversTeams30(i); }
    else { CoversTeams31(i); }
  }

  // The table lookups split into small groups: each name is matched against every earlier case.

  lemma CoversTeams0(i: nat)
    requires i < 4
    ensures NstTeamAbbrev(FullName(i)) == Some(Team.CanonicalAt(i))
  {
  }

  lemma CoversTeams4(i: nat)
    requires 4 <= i < 8
    ensures NstTeamAbbrev(FullName(i)) == Some(Team.CanonicalAt(i))
  {
  }

  lemma CoversTeams8(i: nat)
    requires 8 <= i < 12
    ensures NstTeamAbbrev(FullName(i)) == Some(Team.CanonicalAt(i))
  {
  }

  lemma CoversTeams12(i: nat)
    requires 12 <= i < 16
    ensures NstTeamAbbrev(FullName(i)) == Some(Team.CanonicalAt(i))
  {
  }

  lemma CoversTeams16(i: nat)
    requires 16 <= i < 20
    ensures NstTeamAbbrev(FullName(i)) == Some(Team.CanonicalAt(i))
  {
  }

  lemma CoversTeams20(i: nat)
    requires 20 <= i < 24
    ensures NstTeamAbbrev(FullName(i)) == Some(Team.CanonicalAt(i))
  {
  }

  lemma CoversTeams24(i: nat)
    requires 24 <= i < 26
    ensures NstTeamAbbrev(FullName(i)) == Some(Team.CanonicalAt(i))
  {
  }

  lemma CoversTeams26(i: nat)
    requires 26 <= i < 28
    ensures NstTeamAbbrev(FullName(i)) == Some(Team.CanonicalAt(i))
  {
  }

  lemma CoversTeams28(i: nat)
    requires i == 28
    ensures NstTeamAbbrev(FullName(i)) == Some(Team.CanonicalAt(i))
  {
  }

  lemma CoversTeams29(i: nat)
    requires i == 29
    ensures NstTeamAbbrev(FullName(i)) == Some(Team.CanonicalAt(i))
  {
  }

  lemma CoversTeams30(i: nat)
    requires i == 30
    ensures NstTeamAbbrev(FullName(i)) == Some(Team.CanonicalAt(i))
  {
  }

  lemma CoversTeams31(i: nat)
    requires i == 31
    ensures NstTeamAbbrev(FullName(i)) == Some(Team.CanonicalAt(i))
  {
  }

  lemma NameTableExamples()
    ensures NstTeamAbbrev("Montréal Canadiens") == Some("MTL") && NstTeamAbbrev("Montreal Canadiens") == Some("MTL")
    ensures NstTeamAbbrev("St. Louis Blues") == Some("STL") && NstTeamAbbrev("St Louis Blues") == Some("STL")
  {
  }

  /** Utah is in neither table; `team_name_to_abbrev` finds listed names and misses the rest. */
  lemma NameTableMisses()
    ensures NstTeamAbbrev("Utah Hockey Club") == None
    ensures TeamNameToAbbrev("Colorado Avalanche") == Some("COL")
    ensures TeamNameToAbbrev("Nonexistent Team") == None
  {
  }

  // ---------------------------------------------------------------------------------------------
  // Cells and rows

  /** One cell of the scraped table. */
  datatype Cell =
    | Missing           // the column is absent
    | NaN               // an empty cell, which the table reader turns into NaN
    | Number(r: real)
    | Text(s: string)

  /** A table row, keyed by column header. */
  type Row = Dict.Dict<Cell>

  /** `row.get(col)`. */
  function CellAt(row: Row, col: string): Cell {
    Dict.Get(row, col).GetOr(Missing)
  }

  /** `_safe_float`: the cell as a number, or None when it is missing, NaN or not numeric text. */
  function SafeFloat(row: Row, col: string): (r: Option<real>)
    ensures CellAt(row, col).Missing? || CellAt(row, col).NaN? ==> r.None?
    ensures CellAt(row, col).Number? ==> r == Some(CellAt(row, col).r)
    ensures CellAt(row, col).Text? ==> r == Text.ParseDecimal(CellAt(row, col).s)
  {
    match CellAt(row, col)
    case Missing => None
    case NaN => None
    case Number(x) => Some(x)
    case Text(s) => Text.ParseDecimal(s)
  }

  /** `int(x)` for a number: truncation toward zero. */
  function Truncate(x: real): (n: int)
    ensures x >= 0.0 ==> 0.0 <= n as real <= x < n as real + 1.0
    ensures x < 0.0 ==> n as real - 1.0 < x <= n as real <= 0.0
  {
    if x >= 0.0 then x.Floor else -((-x).Floor)
  }

  /** `_safe_int`: the cell as an integer, or 0 when it is missing, NaN or not integer text. */
  function SafeInt(row: Row, col: string): (r: int)
    ensures CellAt(row, col).Missing? || CellAt(row, col).NaN? ==> r == 0
    ensures CellAt(row, col).Text? ==> r == Text.ParseInt(CellAt(row, col).s).GetOr(0)
    ensures CellAt(row, col).Number? ==> r == Truncate(CellAt(row, col).r)
  {
    match CellAt(row, col)
    case Missing => 0
    case NaN => 0
    case Number(x) => Truncate(x)
    case Text(s) => Text.ParseInt(s).GetOr(0)
  }

  /** `str(row.get("Team", "")).strip()`, for the cells whose text the model renders. */
  function RowTeamName(row: Row): string {
    match CellAt(row, "Team")
    case Text(s) => Text.Strip(s)
    case NaN => "nan"
    case _ => ""
  }

  /** The record built from an accepted row. */
  function RowQuality(row: Row, abbrev: string): (q: TeamShotQuality)
    ensures q.teamAbbrev == abbrev && q.games == SafeInt(row, "GP")
    ensures q.hdcfPct == SafeFloat(row, "HDCF%") && q.xgfPct == SafeFloat(row, "xGF%") && q.pdo == SafeFloat(row, "PDO")
  {
    TeamShotQuality(abbrev, SafeInt(row, "GP"),
                    SafeFloat(row, "CF%"), SafeFloat(row, "FF%"), SafeFloat(row, "SF%"), SafeFloat(row, "GF%"),
                    SafeFloat(row, "xGF%"), SafeFloat(row, "HDCF%"), SafeFloat(row, "HDCF"), SafeFloat(row, "HDCA"),
                    SafeFloat(row, "SH%"), SafeFloat(row, "SV%"), SafeFloat(row, "PDO"))
  }

  /** A row is accepted when its team name is non-blank and in the site's table. */
  predicate Accepted(row: Row) {
    RowTeamName(row) != "" && NstTeamAbbrev(RowTeamName(row)).Some?
  }

  /** One step of `_dataframe_to_shot_quality`: an accepted row is stored under its abbreviation, then its full name. */
  function AddRow(registry: Dict.Dict<TeamShotQuality>, row: Row): Dict.Dict<TeamShotQuality> {
    if !Accepted(row) then registry
    else
      var name := RowTeamName(row);
      var abbrev := NstTeamAbbrev(name).value;
      var q := RowQuality(row, abbrev);
      Dict.Put(Dict.Put(registry, abbrev, q), name, q)
  }

  /** The registry built from `rows`, in order. */
  function Registry(rows: seq<Row>): Dict.Dict<TeamShotQuality> {
    if rows == [] then [] else AddRow(Registry(rows[..|rows| - 1]), rows[|rows| - 1])
  }

  /** `_dataframe_to_shot_quality`. */
  method DataframeToShotQuality(rows: seq<Row>) returns (result: Dict.Dict<TeamShotQuality>)
    ensures result == Registry(rows)
  {
    result := [];
    var i := 0;
    while i < |rows|
      invariant 0 <= i <= |rows|
      invariant result == Registry(rows[..i])
    {
      assert rows[..i + 1][..i] == rows[..i];
      var row := rows[i];
      var teamName := RowTeamName(row);
      if teamName == "" {
        i := i + 1;
        continue;
      }
      var abbrev := NstTeamAbbrev(teamName);
      if abbrev.None? {
        i := i + 1;
        continue;
      }
      var quality := RowQuality(row, abbrev.value);
      result := Dict.Put(result, abbrev.value, quality);
      result := Dict.Put(result, teamName, quality);
      i := i + 1;
    }
    assert rows[..i] == rows;
  }

  /** An accepted row's record can be found under both its abbreviation and its full name. */
  lemma AcceptedRowStoredTwice(rows: seq<Row>, row: Row)
    requires Accepted(row)
    ensures var name := RowTeamName(row);
      var q := RowQuality(row, NstTeamAbbrev(name).value);
      Dict.Get(Registry(rows + [row]), name) == Some(q)
      && Dict.Get(Registry(rows + [row]), NstTeamAbbrev(name).value) == Some(q)
  {
    var name := RowTeamName(row);
    var abbrev := NstTeamAbbrev(name).value;
    assert (rows + [row])[..|rows|] == rows;
    Team.CanonicalCodes();
  }

  /** A blank or unknown team name leaves the registry as it was. */
  lemma RejectedRowSkipped(rows: seq<Row>, row: Row)
    requires !Accepted(row)
    ensures Registry(rows + [row]) == Registry(rows)
  {
    assert (rows + [row])[..|rows|] == rows;
  }

  /**
   * Every key of the registry is either the abbreviation of the record stored under it or a full
   * name that the table maps to that abbreviation; and no key appears twice.
   */
  lemma {:induction false} RegistryKeysConsistent(rows: seq<Row>)
    ensures Dict.DistinctKeys(Registry(rows))
    ensures forall k :: Dict.Get(Registry(rows), k).Some? ==>
      (k == Dict.Get(Registry(rows), k).value.teamAbbrev
       || NstTeamAbbrev(k) == Some(Dict.Get(Registry(rows), k).value.teamAbbrev))
  {
    if rows != [] {
      var prev := rows[..|rows| - 1];
      RegistryKeysConsistent(prev);
    }
  }

  /**
   * With the full name stored as a key, the classifier's lookup of a site name succeeds by exact
   * match and returns the record of the last row for that team.
   */
  lemma LookupByFullName(rows: seq<Row>, row: Row)
    requires Accepted(row)
    ensures var name := RowTeamName(row);
      GameEnvironment.TeamQuality(name, Registry(rows + [row])) == Some(RowQuality(row, NstTeamAbbrev(name).value))
  {
    AcceptedRowStoredTwice(rows, row);
  }

  /** `_current_season`: the same season string as the extract layer's helper. */
  function CurrentSeason(year: int, month: int): (s: string)
    ensures s == ExtractUtils.CurrentSeasonString(year, month)
  {
    if month >= 9 then Text.IntToString(year) + Text.IntToString(year + 1)
    else Text.IntToString(year - 1) + Text.IntToString(year)
  }
}
