/**
 * The three text helpers of the slate dashboard: the short team label, the moneyline label and
 * the player label with injury and game-time-decision markers.
 */
module SlateDisplay {
  import opened Wrappers
  import Text
  import Team
  import opened Slate
  import NaturalStatTrick

  /** The label of a name with no words: `split()[-1]` fails, so there is none. */
  function LastWordLabel(team: string): (r: Option<string>)
    ensures r.None? <==> Text.Words(team) == []
    ensures r.Some? ==> 1 <= |r.value| <= 4
  {
    var words := Text.Words(team);
    if words == [] then None
    else
      var last := words[|words| - 1];
      assert Text.IsWord(last);
      Some(Text.Upper(if |last| <= 4 then last else last[..4]))
  }

  /**
   * `_short_name`: the mapped abbreviation of a known full team name, otherwise the first four
   * characters of the name's last word, upper-cased. A name with no word at all has no label.
   */
  function ShortName(team: string): (r: Option<string>)
    ensures NaturalStatTrick.OddsApiTeamAbbrev(team).Some? && NaturalStatTrick.OddsApiTeamAbbrev(team).value != ""
      ==> r == NaturalStatTrick.OddsApiTeamAbbrev(team)
    ensures NaturalStatTrick.OddsApiTeamAbbrev(team).None? ==> r == LastWordLabel(team)
  {
    var abbrev := NaturalStatTrick.OddsApiTeamAbbrev(team);
    if abbrev.Some? && abbrev.value != "" then abbrev else LastWordLabel(team)
  }

  /** Every one of the 32 full team names is labelled with its own canonical abbreviation. */
  lemma KnownTeamLabel(i: nat)
    requires i < 32
    ensures ShortName(NaturalStatTrick.FullName(i)) == Some(Team.CanonicalAt(i))
  {
    NaturalStatTrick.NstCoversAllTeams(i);
    NaturalStatTrick.OddsApiTableExtendsNst(NaturalStatTrick.FullName(i));
  }

  /** An unknown name written as words is labelled by its last word, cut to four upper-cased characters. */
  lemma UnknownTeamLabel(words: seq<string>)
    requires words != [] && forall i :: 0 <= i < |words| ==> Text.IsWord(words[i])
    requires NaturalStatTrick.OddsApiTeamAbbrev(Text.Join(words, " ")).None?
    ensures var last := words[|words| - 1];
      ShortName(Text.Join(words, " ")) == Some(Text.Upper(if |last| <= 4 then last else last[..4]))
  {
    Text.WordsOfSpacedWords(words);
  }

  /** `_format_ml`: a plus sign exactly for positive moneylines; the label reads back as the moneyline. */
  function FormatMl(ml: int): (r: string)
    ensures |r| >= 1
    ensures r[0] == '+' <==> ml > 0
    ensures r[0] == '-' <==> ml < 0
    ensures Text.ParseInt(r) == Some(ml)
  {
    Text.ParseIntOfIntToString(ml);
    if ml > 0 then
      Text.ParseIntOfPlus(ml);
      "+" + Text.IntToString(ml)
    else Text.IntToString(ml)
  }

  lemma PlusMoneylineExample()
    ensures FormatMl(150) == "+150"
  {
    assert Text.NatToString(1) == "1" && Text.NatToString(15) == "15" && Text.NatToString(150) == "150";
  }

  lemma MinusMoneylineExample()
    ensures FormatMl(-200) == "-200"
  {
    assert Text.NatToString(2) == "2" && Text.NatToString(20) == "20" && Text.NatToString(200) == "200";
  }

  /**
   * `_format_player`: an "out" player is struck through and marked OUT, a "dtd" player marked DTD;
   * any other player is marked GTD when a game-time decision, and otherwise shown by name alone.
   */
  function FormatPlayer(player: PlayerLine): (r: string)
    ensures player.injuryStatus == Some("out") ==> r == "~~" + player.name + "~~ (OUT)"
    ensures player.injuryStatus == Some("dtd") ==> r == player.name + " (DTD)"
    ensures player.injuryStatus != Some("out") && player.injuryStatus != Some("dtd") ==>
      r == if player.gameTimeDecision then player.name + " (GTD)" else player.name
  {
    var name := player.name;
    if player.injuryStatus == Some("out") then "~~" + name + "~~ (OUT)"
    else if player.injuryStatus == Some("dtd") then name + " (DTD)"
    else if player.gameTimeDecision then name + " (GTD)"
    else name
  }

  /** The injury marker takes precedence: the game-time-decision flag only matters for other players. */
  lemma InjuryOverridesDecision(player: PlayerLine)
    ensures player.injuryStatus == Some("out") || player.injuryStatus == Some("dtd")
      <==> FormatPlayer(player.(gameTimeDecision := true)) == FormatPlayer(player.(gameTimeDecision := false))
  {
    var flagged := player.(gameTimeDecision := true);
    var plain := player.(gameTimeDecision := false);
    if player.injuryStatus != Some("out") && player.injuryStatus != Some("dtd") {
      assert |FormatPlayer(flagged)| == |FormatPlayer(plain)| + 6;
    }
  }

  /** The label always shows the name: at its start, or after the strike-through marker. */
  lemma LabelShowsName(player: PlayerLine)
    ensures var r := FormatPlayer(player);
      Text.StartsWith(r, player.name) || (player.injuryStatus == Some("out") && r[2..2 + |player.name|] == player.name)
  {
  }
}
