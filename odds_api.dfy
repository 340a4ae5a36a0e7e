/**
 * Turning one event of The Odds API's NHL odds response into a `GameOdds` record: the first
 * bookmaker's moneyline, total and puck-line markets, and implied team totals obtained by
 * removing the bookmaker's margin from the two moneyline probabilities. Arithmetic is exact
 * (`real`); the source rounds the implied totals to two decimals, which is not modelled.
 */
module OddsApi {
  import opened Wrappers
  import opened Slate

  /** One priced outcome of a market. `point` is the line of a total or spread market. */
  datatype Outcome = Outcome(name: string, price: int, point: real)

  /** A market of one bookmaker: "h2h" (moneyline), "spreads" (puck line) or "totals". */
  datatype Market = Market(key: string, outcomes: seq<Outcome>)

  datatype Bookmaker = Bookmaker(key: string, markets: seq<Market>)

  /** An event of the odds response; a missing "bookmakers" list is an empty one. */
  datatype Event = Event(
    id: string,
    homeTeam: string,
    awayTeam: string,
    commenceTime: Option<string>,
    bookmakers: seq<Bookmaker>)

  /** The implied win probability of an American moneyline, margin included. */
  function MlToImpliedProb(ml: int): (p: real)
    ensures 0.0 < p <= 1.0
  {
    if ml < 0 then (-ml) as real / ((-ml) as real + 100.0)
    else 100.0 / (ml as real + 100.0)
  }

  /** A favourite's line (-100 or shorter) is at least even money; an underdog's (+100 or longer) at most. */
  lemma FavouriteAndUnderdog(ml: int)
    ensures ml <= -100 ==> MlToImpliedProb(ml) >= 0.5
    ensures ml >= 100 ==> MlToImpliedProb(ml) <= 0.5
  {
    if ml <= -100 {
      var x := (-ml) as real + 100.0;
      assert MlToImpliedProb(ml) == 1.0 - 100.0 / x;
      DivAtMostHalf(100.0, x);
    } else if ml >= 100 {
      DivAtMostHalf(100.0, ml as real + 100.0);
    }
  }

  /** A longer price on either side of even money means a smaller probability. */
  lemma ImpliedProbDecreasing(a: int, b: int)
    requires a < b
    requires (a < 0 && b < 0) || (a >= 0 && b >= 0)
    ensures MlToImpliedProb(a) > MlToImpliedProb(b)
  {
    if a < 0 {
      var x, y := (-a) as real + 100.0, (-b) as real + 100.0;
      assert MlToImpliedProb(a) == 1.0 - 100.0 / x;
      assert MlToImpliedProb(b) == 1.0 - 100.0 / y;
      DivDecreasing(100.0, y, x);
    } else {
      DivDecreasing(100.0, a as real + 100.0, b as real + 100.0);
    }
  }

  lemma DivAtMostHalf(c: real, u: real)
    requires c > 0.0 && u >= 2.0 * c
    ensures c / u <= 0.5
  {
  }

  lemma DivDecreasing(c: real, u: real, v: real)
    requires c > 0.0 && 0.0 < u < v
    ensures c / u > c / v
  {
  }

  lemma ImpliedProbExamples()
    ensures MlToImpliedProb(-200) == 2.0 / 3.0
    ensures MlToImpliedProb(150) == 0.4
    ensures MlToImpliedProb(100) == 0.5
    ensures MlToImpliedProb(-110) == 11.0 / 21.0
  {
  }

  predicate NoKeyAfter(markets: seq<Market>, i: nat, key: string) {
    forall j :: i < j < |markets| ==> markets[j].key != key
  }

  predicate NoNameAfter(outcomes: seq<Outcome>, i: nat, name: string) {
    forall j :: i < j < |outcomes| ==> outcomes[j].name != name
  }

  predicate NoNameBefore(outcomes: seq<Outcome>, i: nat, name: string) {
    forall j :: 0 <= j < i && j < |outcomes| ==> outcomes[j].name != name
  }

  /** The market stored under `key` by `{m["key"]: m for m in markets}`: the last one with that key. */
  function MarketByKey(markets: seq<Market>, key: string): (r: Option<Market>)
    ensures r.Some? ==> r.value in markets && r.value.key == key
    ensures r.None? <==> forall i :: 0 <= i < |markets| ==> markets[i].key != key
    ensures r.Some? ==> exists i :: 0 <= i < |markets| && markets[i] == r.value && NoKeyAfter(markets, i, key)
  {
    if markets == [] then None
    else if markets[|markets| - 1].key == key then Some(markets[|markets| - 1])
    else
      var r := MarketByKey(markets[..|markets| - 1], key);
      assert forall i :: 0 <= i < |markets| - 1 ==> markets[..|markets| - 1][i] == markets[i];
      r
  }

  /** The price of the last outcome named `name`: each match overwrites the previous one. */
  function LastPrice(outcomes: seq<Outcome>, name: string): (r: Option<int>)
    ensures r.None? <==> forall i :: 0 <= i < |outcomes| ==> outcomes[i].name != name
    ensures r.Some? ==> exists i :: 0 <= i < |outcomes| && outcomes[i].name == name
                                   && outcomes[i].price == r.value && NoNameAfter(outcomes, i, name)
  {
    if outcomes == [] then None
    else if outcomes[|outcomes| - 1].name == name then Some(outcomes[|outcomes| - 1].price)
    else
      var r := LastPrice(outcomes[..|outcomes| - 1], name);
      assert forall i :: 0 <= i < |outcomes| - 1 ==> outcomes[..|outcomes| - 1][i] == outcomes[i];
      r
  }

  /** The away moneyline: an outcome counts for the away team only if it is not the home team's. */
  function AwayPrice(outcomes: seq<Outcome>, homeTeam: string, awayTeam: string): (r: Option<int>)
    ensures awayTeam == homeTeam ==> r.None?
    ensures awayTeam != homeTeam ==> r == LastPrice(outcomes, awayTeam)
  {
    if awayTeam == homeTeam then None else LastPrice(outcomes, awayTeam)
  }

  /** The point of the first outcome named `name`. */
  function FirstPoint(outcomes: seq<Outcome>, name: string): (r: Option<real>)
    ensures r.None? <==> forall i :: 0 <= i < |outcomes| ==> outcomes[i].name != name
    ensures r.Some? ==> exists i :: 0 <= i < |outcomes| && outcomes[i].name == name
                                   && outcomes[i].point == r.value && NoNameBefore(outcomes, i, name)
  {
    if outcomes == [] then None
    else if outcomes[0].name == name then Some(outcomes[0].point)
    else
      var r := FirstPoint(outcomes[1..], name);
      assert forall i :: 1 <= i < |outcomes| ==> outcomes[1..][i - 1] == outcomes[i];
      r
  }

  /** A side's margin-free win probability: its implied probability over the sum of both sides'. */
  function Share(ml: int, otherMl: int): (s: real)
    ensures 0.0 < s < 1.0
  {
    MlToImpliedProb(ml) / (MlToImpliedProb(ml) + MlToImpliedProb(otherMl))
  }

  /** A side's implied team total: its margin-free share of the game total. */
  function ImpliedTotal(total: real, ml: int, otherMl: int): real {
    total * Share(ml, otherMl)
  }

  /** The two margin-free shares sum to one. */
  lemma SharesSumToOne(homeMl: int, awayMl: int)
    ensures Share(homeMl, awayMl) + Share(awayMl, homeMl) == 1.0
  {
    var h, a := MlToImpliedProb(homeMl), MlToImpliedProb(awayMl);
    assert h / (h + a) + a / (a + h) == (h + a) / (h + a);
  }

  /** The event's odds, or None when it has no bookmaker or the first one's markets are incomplete. */
  function ParsedOdds(event: Event): (r: Option<GameOdds>)
  {
    if event.bookmakers == [] then None
    else OddsFromBookmaker(event.id, event.homeTeam, event.awayTeam, event.commenceTime, event.bookmakers[0])
  }

  /**
   * The odds read from one bookmaker: None when it lacks a moneyline or totals market, when no
   * "Over" outcome gives a total, or when either team's moneyline is missing.
   */
  function OddsFromBookmaker(id: string, homeTeam: string, awayTeam: string, commenceTime: Option<string>,
                             book: Bookmaker): (r: Option<GameOdds>)
  {
    var h2h := MarketByKey(book.markets, "h2h");
    var spreads := MarketByKey(book.markets, "spreads");
    var totals := MarketByKey(book.markets, "totals");
    if h2h.None? || totals.None? then None
    else
      var homeMl := LastPrice(h2h.value.outcomes, homeTeam);
      var awayMl := AwayPrice(h2h.value.outcomes, homeTeam, awayTeam);
      var total := FirstPoint(totals.value.outcomes, "Over");
      var homeSpread := if spreads.Some? then FirstPoint(spreads.value.outcomes, homeTeam) else None;
      if total.None? || homeMl.None? || awayMl.None? then None
      else
        Some(GameOdds(id, homeTeam, awayTeam, commenceTime,
                      homeMl.value, awayMl.value, homeSpread, total.value,
                      ImpliedTotal(total.value, homeMl.value, awayMl.value),
                      ImpliedTotal(total.value, awayMl.value, homeMl.value),
                      book.key))
  }

  /** The moneyline loop: a home-team outcome sets the home price, otherwise an away-team outcome the away price. */
  method ScanMoneylines(outcomes: seq<Outcome>, home: string, away: string) returns (homeMl: Option<int>, awayMl: Option<int>)
    ensures homeMl == LastPrice(outcomes, home)
    ensures awayMl == AwayPrice(outcomes, home, away)
  {
    homeMl, awayMl := None, None;
    var i := 0;
    while i < |outcomes|
      invariant 0 <= i <= |outcomes|
      invariant homeMl == LastPrice(outcomes[..i], home)
      invariant awayMl == AwayPrice(outcomes[..i], home, away)
    {
      assert outcomes[..i + 1][..i] == outcomes[..i];
      if outcomes[i].name == home {
        homeMl := Some(outcomes[i].price);
      } else if outcomes[i].name == away {
        awayMl := Some(outcomes[i].price);
      }
      i := i + 1;
    }
    assert outcomes[..i] == outcomes;
  }

  /** The point of the first outcome named `name`, stopping at the first match. */
  method ScanFirstPoint(outcomes: seq<Outcome>, name: string) returns (point: Option<real>)
    ensures point == FirstPoint(outcomes, name)
  {
    var i := 0;
    while i < |outcomes|
      invariant 0 <= i <= |outcomes|
      invariant FirstPoint(outcomes, name) == FirstPoint(outcomes[i..], name)
    {
      if outcomes[i].name == name {
        return Some(outcomes[i].point);
      }
      assert outcomes[i..][1..] == outcomes[i + 1..];
      i := i + 1;
    }
    assert outcomes[i..] == [];
    return None;
  }

  /** `parse_game_odds`. */
  method ParseGameOdds(event: Event) returns (r: Option<GameOdds>)
    ensures r == ParsedOdds(event)
  {
    if event.bookmakers == [] {
      return None;
    }
    r := ReadBookmaker(event.id, event.homeTeam, event.awayTeam, event.commenceTime, event.bookmakers[0]);
  }

  /** The body of `parse_game_odds` once the first bookmaker is chosen. */
  method ReadBookmaker(id: string, homeTeam: string, awayTeam: string, commenceTime: Option<string>, book: Bookmaker)
    returns (r: Option<GameOdds>)
    ensures r == OddsFromBookmaker(id, homeTeam, awayTeam, commenceTime, book)
  {
    var h2h := MarketByKey(book.markets, "h2h");
    var spreads := MarketByKey(book.markets, "spreads");
    var totals := MarketByKey(book.markets, "totals");
    if h2h.None? || totals.None? {
      return None;
    }
    var homeMl, awayMl := ScanMoneylines(h2h.value.outcomes, homeTeam, awayTeam);
    var total := ScanFirstPoint(totals.value.outcomes, "Over");
    var homeSpread: Option<real> := None;
    if spreads.Some? {
      homeSpread := ScanFirstPoint(spreads.value.outcomes, homeTeam);
    }
    if total.None? || homeMl.None? || awayMl.None? {
      return None;
    }
    var homeImplied := ImpliedTotal(total.value, homeMl.value, awayMl.value);
    var awayImplied := ImpliedTotal(total.value, awayMl.value, homeMl.value);
    r := Some(GameOdds(id, homeTeam, awayTeam, commenceTime, homeMl.value, awayMl.value,
                       homeSpread, total.value, homeImplied, awayImplied, book.key));
  }

  predicate NoMarket(book: Bookmaker, key: string) {
    forall i :: 0 <= i < |book.markets| ==> book.markets[i].key != key
  }

  /** When odds are produced, they come from the first bookmaker's markets and every required value was found. */
  lemma ParsedOddsPresent(event: Event)
    ensures ParsedOdds(event).Some? <==>
      (event.bookmakers != []
       && MarketByKey(event.bookmakers[0].markets, "h2h").Some?
       && MarketByKey(event.bookmakers[0].markets, "totals").Some?
       && (exists i :: 0 <= i < |MarketByKey(event.bookmakers[0].markets, "totals").value.outcomes|
             && MarketByKey(event.bookmakers[0].markets, "totals").value.outcomes[i].name == "Over")
       && (exists i :: 0 <= i < |MarketByKey(event.bookmakers[0].markets, "h2h").value.outcomes|
             && MarketByKey(event.bookmakers[0].markets, "h2h").value.outcomes[i].name == event.homeTeam)
       && event.awayTeam != event.homeTeam
       && (exists i :: 0 <= i < |MarketByKey(event.bookmakers[0].markets, "h2h").value.outcomes|
             && MarketByKey(event.bookmakers[0].markets, "h2h").value.outcomes[i].name == event.awayTeam))
  {
  }

  /** No bookmakers, or a first bookmaker without moneyline or totals market, gives no odds. */
  lemma IncompleteEventHasNoOdds(event: Event)
    ensures event.bookmakers == [] ==> ParsedOdds(event).None?
    ensures event.bookmakers != [] && NoMarket(event.bookmakers[0], "h2h") ==> ParsedOdds(event).None?
    ensures event.bookmakers != [] && NoMarket(event.bookmakers[0], "totals") ==> ParsedOdds(event).None?
  {
  }

  /** Only the first bookmaker is read: the others can be anything. */
  lemma OnlyFirstBookmakerCounts(event: Event, others: seq<Bookmaker>)
    requires event.bookmakers != []
    ensures ParsedOdds(event.(bookmakers := [event.bookmakers[0]] + others)) == ParsedOdds(event)
  {
  }

  /** The produced record carries the event's identity and the first bookmaker's key. */
  lemma ParsedOddsIdentity(event: Event)
    requires ParsedOdds(event).Some?
    ensures ParsedOdds(event).value.eventId == event.id
    ensures ParsedOdds(event).value.homeTeam == event.homeTeam && ParsedOdds(event).value.awayTeam == event.awayTeam
    ensures ParsedOdds(event).value.commenceTime == event.commenceTime
    ensures ParsedOdds(event).value.bookmaker == event.bookmakers[0].key
  {
  }

  /** Without a spreads market there is no puck line. */
  lemma NoSpreadsNoSpread(event: Event)
    requires ParsedOdds(event).Some?
    requires NoMarket(event.bookmakers[0], "spreads")
    ensures ParsedOdds(event).value.homeSpread.None?
  {
  }

  /** The two implied team totals add up to the game total. */
  lemma SharesSplitTotal(total: real, homeMl: int, awayMl: int)
    ensures ImpliedTotal(total, homeMl, awayMl) + ImpliedTotal(total, awayMl, homeMl) == total
  {
    SharesSumToOne(homeMl, awayMl);
    var sh, sa := Share(homeMl, awayMl), Share(awayMl, homeMl);
    assert total * sh + total * sa == total * (sh + sa);
  }

  /** With a positive total, the more likely winner's implied total is the larger. */
  lemma FavouriteShare(total: real, ml: int, otherMl: int)
    requires total > 0.0
    requires MlToImpliedProb(ml) > MlToImpliedProb(otherMl)
    ensures ImpliedTotal(total, ml, otherMl) > ImpliedTotal(total, otherMl, ml)
  {
    var p, q := MlToImpliedProb(ml), MlToImpliedProb(otherMl);
    DivIncreasing(p, q, p + q);
    assert q / (q + p) == q / (p + q);
    MulIncreasing(total, Share(ml, otherMl), Share(otherMl, ml));
  }

  /** The implied team totals split the game total exactly (before rounding). */
  lemma ImpliedTotalsSumToTotal(event: Event)
    requires ParsedOdds(event).Some?
    ensures ParsedOdds(event).value.homeImpliedTotal + ParsedOdds(event).value.awayImpliedTotal
         == ParsedOdds(event).value.total
  {
    var o := ParsedOdds(event).value;
    SharesSplitTotal(o.total, o.homeMl, o.awayMl);
  }

  lemma DivIncreasing(x: real, y: real, d: real)
    requires d > 0.0 && x > y
    ensures x / d > y / d
  {
  }

  lemma MulIncreasing(t: real, x: real, y: real)
    requires t > 0.0 && x > y
    ensures t * x > t * y
  {
  }

  /** With a positive total, the side more likely to win gets the larger implied total. */
  lemma FavouriteGetsLargerShare(event: Event)
    requires ParsedOdds(event).Some?
    requires ParsedOdds(event).value.total > 0.0
    ensures var o := ParsedOdds(event).value;
      MlToImpliedProb(o.homeMl) > MlToImpliedProb(o.awayMl) ==> o.homeImpliedTotal > o.awayImpliedTotal
    ensures var o := ParsedOdds(event).value;
      MlToImpliedProb(o.homeMl) < MlToImpliedProb(o.awayMl) ==> o.homeImpliedTotal < o.awayImpliedTotal
  {
    var o := ParsedOdds(event).value;
    if MlToImpliedProb(o.homeMl) > MlToImpliedProb(o.awayMl) {
      FavouriteShare(o.total, o.homeMl, o.awayMl);
    } else if MlToImpliedProb(o.homeMl) < MlToImpliedProb(o.awayMl) {
      FavouriteShare(o.total, o.awayMl, o.homeMl);
    }
  }
}
