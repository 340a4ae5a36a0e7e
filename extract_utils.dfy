/**
 * Date and season helpers of the extract layer. Dates are day numbers (consecutive calendar days
 * are consecutive integers); today's date is passed in as a year and a month.
 */
module ExtractUtils {
  import opened Wrappers
  import Text

  /** `date_range(start, end)`: every day from `start` to `end`, both included, in order. */
  method DateRange(start: int, end: int) returns (dates: seq<int>)
    ensures start > end ==> dates == []
    ensures start <= end ==> |dates| == end - start + 1
    ensures forall i :: 0 <= i < |dates| ==> dates[i] == start + i
  {
    dates := [];
    var current := start;
    while current <= end
      invariant start <= end + 1 ==> start <= current <= end + 1
      invariant start > end ==> current == start
      invariant |dates| == current - start
      invariant forall i :: 0 <= i < |dates| ==> dates[i] == start + i
    {
      dates := dates + [current];
      current := current + 1;
    }
  }

  /** The first calendar year of the season in progress: seasons start in September. */
  function SeasonStartYear(year: int, month: int): (y: int)
    ensures month >= 9 ==> y == year
    ensures month < 9 ==> y == year - 1
  {
    if month >= 9 then year else year - 1
  }

  /** `current_season_string()` for the given date: the two years of the season, written together. */
  function CurrentSeasonString(year: int, month: int): (s: string)
    ensures s == Text.IntToString(SeasonStartYear(year, month)) + Text.IntToString(SeasonStartYear(year, month) + 1)
  {
    if month >= 9 then Text.IntToString(year) + Text.IntToString(year + 1)
    else Text.IntToString(year - 1) + Text.IntToString(year)
  }

  /** For four-digit years the season string is eight digits that read back as the two years. */
  lemma SeasonStringReadsBack(year: int, month: int)
    requires 1001 <= year <= 9998
    ensures var s := CurrentSeasonString(year, month);
      |s| == 8 && Text.AllDigits(s)
      && Text.ParseInt(s[..4]) == Some(SeasonStartYear(year, month))
      && Text.ParseInt(s[4..]) == Some(SeasonStartYear(year, month) + 1)
  {
    var y := SeasonStartYear(year, month);
    var s := CurrentSeasonString(year, month);
    Text.NatToStringFourDigits(y);
    Text.NatToStringFourDigits(y + 1);
    assert s[..4] == Text.IntToString(y) && s[4..] == Text.IntToString(y + 1);
    Text.ParseIntOfIntToString(y);
    Text.ParseIntOfIntToString(y + 1);
  }

  lemma SeasonExamples()
    ensures CurrentSeasonString(2025, 10) == "20252026"
    ensures CurrentSeasonString(2026, 2) == "20252026"
  {
    assert Text.NatToString(2025) == "2025" by {
      assert Text.NatToString(2) == "2";
      assert Text.NatToString(20) == "20";
      assert Text.NatToString(202) == "202";
    }
    assert Text.NatToString(2026) == "2026" by {
      assert Text.NatToString(2) == "2";
      assert Text.NatToString(20) == "20";
      assert Text.NatToString(202) == "202";
    }
  }
}
