/**
 * Cleaning of NHL box-score text: time-on-ice strings to seconds, and the whitespace part of
 * player-name normalisation. Accent stripping (Unicode NFKD decomposition) is not part of this model.
 */
module Clean {
  import opened Wrappers
  import Text

  /**
   * `toi_to_seconds`: minutes and seconds from the first two `:`-separated fields; any field
   * after the second is ignored, and a missing second field or a field that is not an integer
   * gives 0.
   */
  function ToiToSeconds(toi: string): (seconds: int)
    ensures |Text.Split(toi, ':')| < 2 ==> seconds == 0
    ensures |Text.Split(toi, ':')| >= 2 && Text.ParseInt(Text.Split(toi, ':')[0]).None? ==> seconds == 0
    ensures |Text.Split(toi, ':')| >= 2 && Text.ParseInt(Text.Split(toi, ':')[1]).None? ==> seconds == 0
  {
    var parts := Text.Split(toi, ':');
    if |parts| < 2 then 0
    else
      match (Text.ParseInt(parts[0]), Text.ParseInt(parts[1]))
      case (Some(minutes), Some(secs)) => minutes * 60 + secs
      case _ => 0
  }

  /** Two digit strings joined by a colon read as minutes and seconds: `M*60+S`. */
  lemma ToiOfDigits(m: string, s: string)
    requires |m| >= 1 && Text.AllDigits(m) && |s| >= 1 && Text.AllDigits(s)
    ensures ToiToSeconds(m + ":" + s) == Text.DigitsValue(m) * 60 + Text.DigitsValue(s)
  {
    assert ':' !in m && ':' !in s by {
      assert forall k :: 0 <= k < |m| ==> Text.IsDigit(m[k]);
      assert forall k :: 0 <= k < |s| ==> Text.IsDigit(s[k]);
    }
    Text.SplitAfterField(m, ':', s);
    Text.SplitNoSep(s, ':');
    assert m + ":" + s == m + [':'] + s;
    Text.ParseIntOfDigits(m);
    Text.ParseIntOfDigits(s);
  }

  /** The text `M:S` of a minute and second count reads back as `M*60+S` seconds. */
  lemma ToiOfMinutesSeconds(minutes: nat, secs: nat)
    ensures ToiToSeconds(Text.NatToString(minutes) + ":" + Text.NatToString(secs)) == minutes * 60 + secs
  {
    ToiOfDigits(Text.NatToString(minutes), Text.NatToString(secs));
  }

  /** Fields after the second one do not change the result. */
  lemma ToiIgnoresLaterFields(m: string, s: string, rest: string)
    requires ':' !in m && ':' !in s
    ensures ToiToSeconds(m + ":" + s + ":" + rest) == ToiToSeconds(m + ":" + s)
  {
    Text.SplitAfterField(m, ':', s + ":" + rest);
    Text.SplitAfterField(s, ':', rest);
    Text.SplitAfterField(m, ':', s);
    Text.SplitNoSep(s, ':');
    assert m + ":" + s + ":" + rest == m + [':'] + (s + [':'] + rest);
    assert m + ":" + s == m + [':'] + s;
  }

  /** A string without a colon has no second field and gives 0. */
  lemma ToiWithoutColon(toi: string)
    requires ':' !in toi
    ensures ToiToSeconds(toi) == 0
  {
    Text.SplitNoSep(toi, ':');
  }

  lemma ToiExample()
    ensures ToiToSeconds("18:45") == 1125
  {
    ToiOfDigits("18", "45");
    assert "18" + ":" + "45" == "18:45";
    assert Text.DigitsValue("18") == 18 by { assert "18"[..1] == "1"; }
    assert Text.DigitsValue("45") == 45 by { assert "45"[..1] == "4"; }
  }

  lemma ZeroToiExample()
    ensures ToiToSeconds("0:00") == 0
  {
    ToiOfDigits("0", "00");
    assert "0" + ":" + "00" == "0:00";
    assert Text.DigitsValue("00") == 0 by { assert "00"[..1] == "0"; }
  }

  /**
   * The whitespace part of `normalize_player_name`: strip the ends, then join the words with
   * single spaces. The result is single-spaced and has the same words as the input.
   */
  function NormalizeSpacing(name: string): (r: string)
    ensures Text.IsSingleSpaced(r)
    ensures Text.Words(r) == Text.Words(name)
  {
    var words := Text.Words(Text.Strip(name));
    Text.SpacedWordsAreSingleSpaced(words);
    Text.WordsOfSpacedWords(words);
    Text.WordsOfStrip(name);
    Text.Join(words, " ")
  }

  /** Normalising keeps every non-blank character, in order. */
  lemma NormalizeKeepsCharacters(name: string)
    ensures Text.NonWs(NormalizeSpacing(name)) == Text.NonWs(name)
  {
    Text.ConcatWords(name);
    Text.ConcatWords(NormalizeSpacing(name));
  }

  /** A name comes back unchanged exactly when it is already clean: single-spaced, no blank at either end. */
  lemma CleanNameUnchanged(name: string)
    ensures NormalizeSpacing(name) == name <==> Text.IsSingleSpaced(name)
  {
    if Text.IsSingleSpaced(name) {
      assert name == [] || (!Text.IsWs(name[0]) && !Text.IsWs(name[|name| - 1]));
      Text.StripUnchanged(name);
      Text.SingleSpacedIsJoinOfWords(name);
    }
  }

  /** Normalising twice is normalising once. */
  lemma NormalizeSpacingIdempotent(name: string)
    ensures NormalizeSpacing(NormalizeSpacing(name)) == NormalizeSpacing(name)
  {
    CleanNameUnchanged(NormalizeSpacing(name));
  }
}
