/** Team and position code normalisation applied to NHL API data. */
module Normalize {
  import opened Wrappers
  import Text
  import Team

  /** `normalize_team`: the team table's normalisation. */
  function NormalizeTeam(code: string): (r: string)
    ensures r == Team.NormalizeAbbrev(code)
    ensures Team.IsCanonical(r) || r == Text.Upper(code)
  {
    Team.NormalizeAbbrev(code)
  }

  /** The position table: the NHL API's one-letter wing codes become LW and RW; C, D and G stay. */
  function PositionCode(code: string): Option<string> {
    match code
    case "L" => Some("LW")
    case "R" => Some("RW")
    case "C" => Some("C")
    case "D" => Some("D")
    case "G" => Some("G")
    case _ => None
  }

  /** `normalize_position`: look up the upper-cased code, falling back to the upper-cased code itself. */
  function NormalizePosition(code: string): (r: string)
    ensures PositionCode(Text.Upper(code)).None? ==> r == Text.Upper(code)
    ensures PositionCode(Text.Upper(code)).Some? ==> r in {"LW", "RW", "C", "D", "G"}
  {
    PositionCode(Text.Upper(code)).GetOr(Text.Upper(code))
  }

  lemma PositionExamples()
    ensures NormalizePosition("L") == "LW" && NormalizePosition("R") == "RW"
    ensures NormalizePosition("C") == "C" && NormalizePosition("D") == "D" && NormalizePosition("G") == "G"
    ensures NormalizePosition("l") == "LW" && NormalizePosition("r") == "RW"
    ensures NormalizePosition("lw") == "LW"
  {
    assert Text.Upper("L") == "L" && Text.Upper("R") == "R";
    assert Text.Upper("C") == "C" && Text.Upper("D") == "D" && Text.Upper("G") == "G";
    assert Text.Upper("l") == "L" && Text.Upper("r") == "R";
    assert Text.Upper("lw") == "LW";
  }

  /** Letter case does not matter. */
  lemma PositionIgnoresCase(code: string)
    ensures NormalizePosition(Text.Upper(code)) == NormalizePosition(code)
  {
    Text.UpperIdempotent(code);
  }

  /** Normalising a position twice is normalising it once. */
  lemma PositionIdempotent(code: string)
    ensures NormalizePosition(NormalizePosition(code)) == NormalizePosition(code)
  {
    var u := Text.Upper(code);
    Text.UpperIdempotent(code);
    var r := NormalizePosition(code);
    if PositionCode(u).Some? {
      assert r in {"LW", "RW", "C", "D", "G"};
      assert Text.Upper("LW") == "LW" && Text.Upper("RW") == "RW";
      assert Text.Upper("C") == "C" && Text.Upper("D") == "D" && Text.Upper("G") == "G";
    }
  }
}
