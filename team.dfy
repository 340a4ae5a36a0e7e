/**
 * NHL team codes: the 32 canonical abbreviations, the table that maps canonical codes and
 * common alternates (relocations, two-letter forms) to canonical codes, and the
 * case-insensitive normalisation built on it.
 */
module Team {
  import opened Wrappers
  import Text

  /** Three upper-case ASCII letters. */
  predicate IsUpperCode(code: string) {
    |code| == 3 && forall k :: 0 <= k < 3 ==> 'A' <= code[k] <= 'Z'
  }

  /** The canonical abbreviation at position `i` of the source table. */
  function CanonicalAt(i: nat): (code: string)
    requires i < 32
    ensures IsUpperCode(code)
  {
    match i
    case 0 => "ANA"
    case 1 => "BOS"
    case 2 => "BUF"
    case 3 => "CAR"
    case 4 => "CBJ"
    case 5 => "CGY"
    case 6 => "CHI"
    case 7 => "COL"
    case 8 => "DAL"
    case 9 => "DET"
    case 10 => "EDM"
    case 11 => "FLA"
    case 12 => "LAK"
    case 13 => "MIN"
    case 14 => "MTL"
    case 15 => "NJD"
    case 16 => "NSH"
    case 17 => "NYI"
    case 18 => "NYR"
    case 19 => "OTT"
    case 20 => "PHI"
    case 21 => "PIT"
    case 22 => "SEA"
    case 23 => "SJS"
    case 24 => "STL"
    case 25 => "TBL"
    case 26 => "TOR"
    case 27 => "UTA"
    case 28 => "VAN"
    case 29 => "VGK"
    case 30 => "WPG"
    case _ => "WSH"
  }

  /** The position of a canonical abbreviation in the source table, or None for any other string. */
  function CanonicalIndex(code: string): (r: Option<nat>)
    ensures r.Some? ==> r.value < 32 && CanonicalAt(r.value) == code
  {
    match code
    case "ANA" => Some(0)
    case "BOS" => Some(1)
    case "BUF" => Some(2)
    case "CAR" => Some(3)
    case "CBJ" => Some(4)
    case "CGY" => Some(5)
    case "CHI" => Some(6)
    case "COL" => Some(7)
    case "DAL" => Some(8)
    case "DET" => Some(9)
    case "EDM" => Some(10)
    case "FLA" => Some(11)
    case "LAK" => Some(12)
    case "MIN" => Some(13)
    case "MTL" => Some(14)
    case "NJD" => Some(15)
    case "NSH" => Some(16)
    case "NYI" => Some(17)
    case "NYR" => Some(18)
    case "OTT" => Some(19)
    case "PHI" => Some(20)
    case "PIT" => Some(21)
    case "SEA" => Some(22)
    case "SJS" => Some(23)
    case "STL" => Some(24)
    case "TBL" => Some(25)
    case "TOR" => Some(26)
    case "UTA" => Some(27)
    case "VAN" => Some(28)
    case "VGK" => Some(29)
    case "WPG" => Some(30)
    case "WSH" => Some(31)
    case _ => None
  }

  predicate IsCanonical(code: string) {
    CanonicalIndex(code).Some?
  }

  lemma CanonicalAtIndexed0(i: nat)
    requires 0 <= i < 4
    ensures CanonicalIndex(CanonicalAt(i)) == Some(i)
  {
    match i
    case 0 => assert CanonicalAt(0) == "ANA";
    case 1 => assert CanonicalAt(1) == "BOS";
    case 2 => assert CanonicalAt(2) == "BUF";
    case _ => assert CanonicalAt(3) == "CAR";
  }

  lemma CanonicalAtIndexed4(i: nat)
    requires 4 <= i < 8
    ensures CanonicalIndex(CanonicalAt(i)) == Some(i)
  {
    match i
    case 4 => assert CanonicalAt(4) == "CBJ";
    case 5 => assert CanonicalAt(5) == "CGY";
    case 6 => assert CanonicalAt(6) == "CHI";
    case _ => assert CanonicalAt(7) == "COL";
  }

  lemma CanonicalAtIndexed8(i: nat)
    requires 8 <= i < 12
    ensures CanonicalIndex(CanonicalAt(i)) == Some(i)
  {
    match i
    case 8 => assert CanonicalAt(8) == "DAL";
    case 9 => assert CanonicalAt(9) == "DET";
    case 10 => assert CanonicalAt(10) == "EDM";
    case _ => assert CanonicalAt(11) == "FLA";
  }

  lemma CanonicalAtIndexed12(i: nat)
    requires 12 <= i < 16
    ensures CanonicalIndex(CanonicalAt(i)) == Some(i)
  {
    match i
    case 12 => assert CanonicalAt(12) == "LAK";
    case 13 => assert CanonicalAt(13) == "MIN";
    case 14 => assert CanonicalAt(14) == "MTL";
    case _ => assert CanonicalAt(15) == "NJD";
  }

  lemma CanonicalAtIndexed16(i: nat)
    requires 16 <= i < 20
    ensures CanonicalIndex(CanonicalAt(i)) == Some(i)
  {
    match i
    case 16 => assert CanonicalAt(16) == "NSH";
    case 17 => assert CanonicalAt(17) == "NYI";
    case 18 => assert CanonicalAt(18) == "NYR";
    case _ => assert CanonicalAt(19) == "OTT";
  }

  lemma CanonicalAtIndexed20(i: nat)
    requires 20 <= i < 24
    ensures CanonicalIndex(CanonicalAt(i)) == Some(i)
  {
    match i
    case 20 => assert CanonicalAt(20) == "PHI";
    case 21 => assert CanonicalAt(21) == "PIT";
    case 22 => assert CanonicalAt(22) == "SEA";
    case _ => assert CanonicalAt(23) == "SJS";
  }

  lemma CanonicalAtIndexed24(i: nat)
    requires 24 <= i < 28
    ensures CanonicalIndex(CanonicalAt(i)) == Some(i)
  {
    match i
    case 24 => assert CanonicalAt(24) == "STL";
    case 25 => assert CanonicalAt(25) == "TBL";
    case 26 => assert CanonicalAt(26) == "TOR";
    case _ => assert CanonicalAt(27) == "UTA";
  }

  lemma CanonicalAtIndexed28(i: nat)
    requires 28 <= i < 32
    ensures CanonicalIndex(CanonicalAt(i)) == Some(i)
  {
    match i
    case 28 => assert CanonicalAt(28) == "VAN";
    case 29 => assert CanonicalAt(29) == "VGK";
    case 30 => assert CanonicalAt(30) == "WPG";
    case _ => assert CanonicalAt(31) == "WSH";
  }

  /** There are exactly 32 canonical codes: `CanonicalAt` lists each of them once. */
  lemma CanonicalCodes()
    ensures forall i :: 0 <= i < 32 ==> CanonicalIndex(CanonicalAt(i)) == Some(i)
    ensures forall i, j :: 0 <= i < j < 32 ==> CanonicalAt(i) != CanonicalAt(j)
    ensures forall code :: IsCanonical(code) <==> exists i :: 0 <= i < 32 && CanonicalAt(i) == code
  {
    forall i | 0 <= i < 32
      ensures CanonicalIndex(CanonicalAt(i)) == Some(i)
    {
      if i < 4 {
        CanonicalAtIndexed0(i);
      } else if i < 8 {
        CanonicalAtIndexed4(i);
      } else if i < 12 {
        CanonicalAtIndexed8(i);
      } else if i < 16 {
        CanonicalAtIndexed12(i);
      } else if i < 20 {
        CanonicalAtIndexed16(i);
      } else if i < 24 {
        CanonicalAtIndexed20(i);
      } else if i < 28 {
        CanonicalAtIndexed24(i);
      } else {
        CanonicalAtIndexed28(i);
      }
    }
  }

  /** `TEAM_ABBREVIATIONS.get(code)`: canonical codes map to themselves, alternates to their canonical code. */
  function TeamAbbreviation(code: string): (r: Option<string>)
  {
    match code
    case "ARI" => Some("UTA")
    case "MON" => Some("MTL")
    case "NAS" => Some("NSH")
    case "SJ" => Some("SJS")
    case "TB" => Some("TBL")
    case "LA" => Some("LAK")
    case "NJ" => Some("NJD")
    case "WAS" => Some("WSH")
    case "VEG" => Some("VGK")
    case "CLB" => Some("CBJ")
    case "CAL" => Some("CGY")
    case _ => if IsCanonical(code) then Some(code) else None
  }

  /** Every value of the table is a canonical code, and every canonical code maps to itself. */
  lemma TableValuesCanonical(code: string)
    ensures TeamAbbreviation(code).Some? ==> IsCanonical(TeamAbbreviation(code).value)
    ensures IsCanonical(code) ==> TeamAbbreviation(code) == Some(code)
  {
  }

  lemma AlternateExamples()
    ensures TeamAbbreviation("ARI") == Some("UTA")
    ensures TeamAbbreviation("MON") == Some("MTL")
    ensures TeamAbbreviation("NAS") == Some("NSH")
    ensures TeamAbbreviation("VEG") == Some("VGK")
    ensures TeamAbbreviation("XYZ") == None
  {
  }

  /** Canonical codes are upper-case already. */
  lemma CanonicalIsUpper(code: string)
    requires IsCanonical(code)
    ensures Text.Upper(code) == code
  {
    assert forall k :: 0 <= k < |code| ==> Text.UpperChar(code[k]) == code[k];
  }

  /** `Team.normalize_abbrev`: look up the upper-cased code, falling back to the upper-cased code itself. */
  function NormalizeAbbrev(code: string): (r: string)
    ensures TeamAbbreviation(Text.Upper(code)).Some? ==> IsCanonical(r)
    ensures TeamAbbreviation(Text.Upper(code)).None? ==> r == Text.Upper(code)
  {
    TableValuesCanonical(Text.Upper(code));
    TeamAbbreviation(Text.Upper(code)).GetOr(Text.Upper(code))
  }

  /** Letter case does not matter. */
  lemma NormalizeIgnoresCase(code: string)
    ensures NormalizeAbbrev(Text.Upper(code)) == NormalizeAbbrev(code)
  {
    Text.UpperIdempotent(code);
  }

  /** Normalising twice is normalising once. */
  lemma NormalizeIdempotent(code: string)
    ensures NormalizeAbbrev(NormalizeAbbrev(code)) == NormalizeAbbrev(code)
  {
    var u := Text.Upper(code);
    Text.UpperIdempotent(code);
    var r := NormalizeAbbrev(code);
    if TeamAbbreviation(u).Some? {
      CanonicalIsUpper(r);
      TableValuesCanonical(r);
    }
  }

  lemma NormalizeExamples()
    ensures NormalizeAbbrev("ari") == "UTA"
    ensures NormalizeAbbrev("Col") == "COL"
    ensures NormalizeAbbrev("xyz") == "XYZ"
  {
    assert Text.Upper("ari") == "ARI";
    assert Text.Upper("Col") == "COL";
    assert Text.Upper("xyz") == "XYZ";
  }
}
