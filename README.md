# NHL DFS slate pipeline — a Dafny model of its decision core

This project models the core of an NHL daily-fantasy-sports data pipeline. The pipeline gathers
three things for each night's slate of games:

- Vegas odds from The Odds API;
- team shot-quality metrics from Natural Stat Trick;
- projected line combinations from DailyFaceoff.

From these it sorts every game into one of four **game environments**: chalk, leverage,
contrarian or avoid. It also flags **divergence**: a team whose implied total is high while its
high-danger chance share (HDCF%) is poor, or a team whose PDO says it is running hot.

Beside the classifier the pipeline has parsers and normalisers, and this project models them
too:

- the NHL box-score and score parsers;
- time-on-ice and name cleaning;
- team and position code normalisation;
- the date and season helpers;
- the derived statistics properties;
- three display formatters of the slate dashboard.

One Dafny module per source file:

| module | source file |
|---|---|
| `GameEnvironment` | `src/analysis/game_environment.py` |
| `Slate` | `src/models/slate.py` |
| `OddsApi` | `src/extract/odds_api.py` |
| `NaturalStatTrick` | `src/extract/natural_stat_trick.py` |
| `DailyFaceoff` | `src/extract/daily_faceoff.py` |
| `Parse` | `src/extract/parse.py` |
| `Clean` | `src/transform/clean.py` |
| `Normalize` | `src/transform/normalize.py` |
| `Team` | `src/models/team.py` |
| `ExtractUtils` | `src/extract/utils.py` |
| `Stats` | `src/models/stats.py` |
| `SlateDisplay` | `src/dashboard/slate_breakdown.py` |

Helper modules:

- `Wrappers`: `Option`.
- `Text`: substring search, split and join, decimal text to and from integers, ASCII upper case,
  whitespace words.
- `Dict`: an insertion-ordered dictionary, kept as a sequence of key/value pairs with Python's
  `d[k] = v` semantics.
- `Json`: decoded JSON values.
- `StableSort`: a stable insertion sort by a rank key, standing in for Python's `sorted` and
  `list.sort`.

## How the source's form is kept

**Pure code.** Code that only computes a value becomes a function, with lemmas about it.
Examples: thresholds, tier tests, name tables, position maps and formatters.

**Loops.** Code that works by appending to lists, filling dictionaries or assigning variables in
a loop becomes a `method` with a `while` loop. The loops modelled this way:

- `_check_divergence`, `_classify_environment`, `build_slate_breakdown` and
  `_find_team_quality`;
- the outcome loops of `parse_game_odds`;
- `_dataframe_to_shot_quality`;
- `_build_team_lines`;
- the `parse_*` functions;
- `date_range`.

Each such method's `ensures` ties its result to a specification function. Lemmas then state what
the source promises about that function.

**Freshly built records.** The source mutates a freshly built `GameSlateEntry` or `TeamLines`
that nothing else references. The model therefore treats these records as values: a method
returns the updated record.

**Dictionaries.** Every dictionary is a sequence of pairs, so that "the first key in iteration
order" is well defined. Examples: the shot-quality registry, the `groups` dictionary of
`_build_team_lines`, JSON objects.

**Exceptions.** An exception in the NHL parsers becomes `None`. These are a `KeyError` on a
required key, and an operation on a value of the wrong JSON type.

### Where the code and its description differ (the code is followed)

- **Registry lookup.** It is described as matching "Carolina Hurricanes" against the key "CAR".
  The substring test at `src/analysis/game_environment.py:316-318` is case-sensitive, so that
  match never happens.
  - `GameEnvironment.AbbreviationKeyDoesNotMatchFullName` proves this.
  - Lookups still succeed in practice because the registry is keyed by full name as well
    (`NaturalStatTrick.AcceptedRowStoredTwice`).
- **Order of registry keys.** The loose-match fallback at
  `src/analysis/game_environment.py:316-318` tries the registry's keys in insertion order and
  takes the first that matches. The model keeps that order (`GameEnvironment.FirstLooseMatch`).
- **A missing team record.** When either side has no record, `classify_environment` takes the
  total-only branch at `src/analysis/game_environment.py:164`
  (`GameEnvironment.NoDataTierByTotal`). Only a missing HDCF% inside a present record is read as
  50.0 (`GameEnvironment.MissingHdcfIsNeutral`).

## Model

| member | source | states |
|---|---|---|
| GameEnvironment.ClassifyGame | src/analysis/game_environment.py:61-109 | every odds field is copied unchanged; a side's five metric fields are copied exactly when its record is present and stay None otherwise; the flag holds iff the detail is non-empty; no line data |
| GameEnvironment.CheckDivergence | src/analysis/game_environment.py:112-154 | the new entry is the old one with flag and detail set exactly when at least one divergence message is produced |
| GameEnvironment.DivergenceMessagesSound | src/analysis/game_environment.py:121-150 | an offense message only for implied total ≥ 3.0 and HDCF% < 47.0; a luck message only for PDO > 101.5 |
| GameEnvironment.DivergenceMessagesComplete | src/analysis/game_environment.py:121-150 | conversely, each of the four conditions that holds produces its message |
| GameEnvironment.DivergenceMessagesOrder | src/analysis/game_environment.py:118-150 | at most four messages, every offense message before every luck message |
| GameEnvironment.HomeOffenseFirst | src/analysis/game_environment.py:121-129 | when the home offense is overpriced, its message comes first |
| GameEnvironment.NoLuckMessageAtOrBelowHighPdo | src/analysis/game_environment.py:53-54 | a PDO at or below 101.5, the unused LOW_PDO included, never yields a luck message |
| GameEnvironment.NoQualityNoDivergence | src/analysis/game_environment.py:118-154 | without records no message is produced and the entry is unchanged |
| GameEnvironment.FlagIffDetail | src/analysis/game_environment.py:152-154 | from a fresh entry, the flag is set iff the detail is non-empty, and the detail is the message list |
| GameEnvironment.ClassifiedFlagIffDetail | src/analysis/game_environment.py:104 | a classified game is flagged iff its detail is non-empty |
| GameEnvironment.ClassifyEnvironment | src/analysis/game_environment.py:157-265 | the new entry is the old one with the tier and reason of the decision tree |
| GameEnvironment.NoDataTierByTotal | src/analysis/game_environment.py:164-181 | when either record is absent: chalk iff total ≥ 6.0, leverage iff 5.5 ≤ total < 6.0, contrarian iff total < 5.5, always with a reason |
| GameEnvironment.HighTotalTier | src/analysis/game_environment.py:185-234 | with both records and total ≥ 6.0: leverage iff one side is strong and the other weak, chalk otherwise |
| GameEnvironment.ModerateTotalTier | src/analysis/game_environment.py:204-234 | with both records and 5.5 ≤ total < 6.0 the tier is always leverage |
| GameEnvironment.LowTotalTier | src/analysis/game_environment.py:237-261 | with both records and total < 5.5: contrarian iff flagged or either side strong, avoid otherwise |
| GameEnvironment.MissingHdcfIsNeutral | src/analysis/game_environment.py:185-186 | a missing HDCF% decides exactly as 50.0 does |
| GameEnvironment.ReasonAlwaysGiven | src/analysis/game_environment.py:163-265 | every outcome has a reason that quotes the total; the fallback at 263-265 is never reached |
| GameEnvironment.ClassifierExamples | src/analysis/game_environment.py:163-261 | sample games land in chalk, leverage, contrarian and avoid as the thresholds say |
| GameEnvironment.DivergenceExamples | src/analysis/game_environment.py:121-154 | sample games yield an offense message, a luck message, and no flag |
| GameEnvironment.FirstLooseMatch | src/analysis/game_environment.py:316-318 | the index found is the first key from the start that is a substring of the name or contains it; None when there is none |
| GameEnvironment.TeamQuality | src/analysis/game_environment.py:300-320 | an exact key wins; otherwise the value of the first loosely matching key in registry order; None iff nothing matches |
| GameEnvironment.FindTeamQuality | src/analysis/game_environment.py:310-320 | the lookup loop returns exactly `TeamQuality` |
| GameEnvironment.AbbreviationKeyDoesNotMatchFullName | src/analysis/game_environment.py:315-318 | a registry keyed only by "CAR" gives nothing for "Carolina Hurricanes", because the match is case-sensitive |
| GameEnvironment.ClassifiedGames | src/analysis/game_environment.py:281-286 | one classified entry per odds record |
| GameEnvironment.ClassifySlate | src/analysis/game_environment.py:281-286 | the classification loop returns exactly `ClassifiedGames` |
| GameEnvironment.BuildSlateBreakdown | src/analysis/game_environment.py:268-297 | the slate is the stable sort of the classified games: the same multiset, one entry per odds record, in tier order and then by total descending |
| GameEnvironment.SortedIsSlateOrder | src/analysis/game_environment.py:289-295 | sorted by (tier rank, −total) means chalk < leverage < contrarian < avoid, and totals descend within a tier |
| GameEnvironment.SlateSortIsStable | src/analysis/game_environment.py:295 | games of equal tier and total keep their input order |
| GameEnvironment.TierViewsConcatenate | src/models/slate.py:175-189 | for a slate in slate order, the four tier views concatenated give back the slate |
| GameEnvironment.BreakdownViewsInSlateOrder | src/analysis/game_environment.py:297 | the games of a built breakdown are its chalk, leverage, contrarian and avoid views, in that order |
| GameEnvironment.TierViewsCons | src/models/slate.py:175-189 | a lowest-rank first game heads the concatenated views |
| GameEnvironment.LaterTiersMissView | src/models/slate.py:175-189 | games of a later tier are absent from an earlier tier's view |
| GameEnvironment.TierViewsUnfold | src/models/slate.py:175-189 | the concatenated views of a non-empty slate split at its first game |
| Slate.NewTeamLines | src/models/slate.py:33-42 | a fresh `TeamLines` has its abbreviation, four empty line lists and no goalies |
| Slate.NewEntry | src/models/slate.py:109-152 | a fresh entry has the two teams, tier avoid, no reason, no flag, empty detail, zero odds and no metrics or lines |
| Slate.GameSlateEntry.Matchup | src/models/slate.py:154-158 | "away @ home" when both names are non-empty, "" otherwise |
| Slate.TotalBands | src/models/slate.py:160-166 | high iff total ≥ 6.0, moderate iff 5.5 ≤ total and not high, never both |
| Slate.FilterMember | src/models/slate.py:175-193 | a game is kept exactly when it is in the list and satisfies the test |
| Slate.FilterAppend | src/models/slate.py:175-193 | filtering distributes over concatenation, so order is preserved |
| Slate.FilterNone | src/models/slate.py:175-193 | nothing passes when no game satisfies the test |
| Slate.FilterAll | src/models/slate.py:175-193 | the whole list passes when every game satisfies the test |
| Slate.TierViewMembers | src/models/slate.py:175-189 | a game is in a tier view iff it is in the slate with that tier |
| Slate.TiersPartition | src/models/slate.py:175-189 | the four views together are the slate as a multiset |
| Slate.TierViewsPartition | src/models/slate.py:175-189 | the views partition the breakdown, and their lengths add up to the number of games |
| Slate.SlateBreakdown.DivergenceGames | src/models/slate.py:191-193 | exactly the flagged games of the slate |
| OddsApi.MlToImpliedProb | src/extract/odds_api.py:201-211 | the implied probability lies in (0, 1] |
| OddsApi.ImpliedProbExamples | src/extract/odds_api.py:204-211 | −200 → 2/3, +150 → 2/5, +100 → 1/2, −110 → 11/21 |
| OddsApi.FavouriteAndUnderdog | src/extract/odds_api.py:208-211 | a line of −100 or shorter is at least 1/2, a line of +100 or longer at most 1/2 |
| OddsApi.ImpliedProbDecreasing | src/extract/odds_api.py:208-211 | on each side of zero, a larger moneyline means a smaller probability |
| OddsApi.MarketByKey | src/extract/odds_api.py:133-140 | the market found has the key and is the last with it (later duplicates overwrite); None iff no market has the key |
| OddsApi.LastPrice | src/extract/odds_api.py:148-150 | the price of the last outcome with that name; None iff none has it |
| OddsApi.AwayPrice | src/extract/odds_api.py:148-152 | the away price is the last away outcome's, unless the two names coincide, when the home branch takes every match |
| OddsApi.FirstPoint | src/extract/odds_api.py:155-167 | the point of the first outcome with that name; None iff none has it |
| OddsApi.ScanMoneylines | src/extract/odds_api.py:146-152 | the moneyline loop yields exactly `LastPrice` and `AwayPrice` |
| OddsApi.ScanFirstPoint | src/extract/odds_api.py:155-167 | the break-at-first loop yields exactly `FirstPoint` |
| OddsApi.ReadBookmaker | src/extract/odds_api.py:132-198 | reading one bookmaker yields exactly `OddsFromBookmaker` |
| OddsApi.ParseGameOdds | src/extract/odds_api.py:117-198 | the parse yields exactly `ParsedOdds` |
| OddsApi.ParsedOddsPresent | src/extract/odds_api.py:128-170 | odds exist iff there is a bookmaker whose first book has h2h and totals markets, an "Over" outcome, a home outcome, and a distinct away outcome |
| OddsApi.IncompleteEventHasNoOdds | src/extract/odds_api.py:128-140 | no bookmakers, or no h2h or totals market in the first, gives None |
| OddsApi.OnlyFirstBookmakerCounts | src/extract/odds_api.py:132 | bookmakers after the first never change the result |
| OddsApi.ParsedOddsIdentity | src/extract/odds_api.py:186-198 | the record carries the event id, teams, start time and the first bookmaker's key |
| OddsApi.NoSpreadsNoSpread | src/extract/odds_api.py:162-167 | without a spreads market the home spread is None |
| OddsApi.Share | src/extract/odds_api.py:173-180 | a de-vigged share lies strictly between 0 and 1 |
| OddsApi.SharesSumToOne | src/extract/odds_api.py:173-180 | the two de-vigged shares sum to 1 |
| OddsApi.SharesSplitTotal | src/extract/odds_api.py:181-184 | the two implied totals sum to the total |
| OddsApi.FavouriteShare | src/extract/odds_api.py:173-184 | for a positive total, the side with the larger probability gets the larger implied total |
| OddsApi.ImpliedTotalsSumToTotal | src/extract/odds_api.py:181-198 | in parsed odds, home and away implied totals sum to the total |
| OddsApi.FavouriteGetsLargerShare | src/extract/odds_api.py:173-198 | in parsed odds with a positive total, the favourite's implied total is the larger |
| NaturalStatTrick.NstTeamAbbrev | src/extract/natural_stat_trick.py:35-70 | every name in the table maps to a canonical code |
| NaturalStatTrick.NstCoversAllTeams | src/extract/natural_stat_trick.py:35-70 | each of the 32 franchises has a name mapping to its canonical code |
| NaturalStatTrick.NameTableExamples | src/extract/natural_stat_trick.py:50-62 | both Montreal spellings give MTL, both St. Louis spellings STL |
| NaturalStatTrick.NameTableMisses | src/extract/natural_stat_trick.py:50-62 | a name outside the table, such as Utah Hockey Club, gives None |
| NaturalStatTrick.OddsApiTableExtendsNst | src/extract/natural_stat_trick.py:74-77 | the odds table holds every entry of the other unchanged, plus "Arizona Coyotes" → UTA and nothing else |
| NaturalStatTrick.TeamNameToAbbrev | src/extract/natural_stat_trick.py:212-217 | the lookup is the odds-table lookup, None when absent |
| NaturalStatTrick.SafeFloat | src/extract/natural_stat_trick.py:220-228 | a missing or NaN cell gives None; a number, itself; text, its decimal reading or None |
| NaturalStatTrick.Truncate | src/extract/natural_stat_trick.py:237 | `int()` of a float truncates toward zero |
| NaturalStatTrick.SafeInt | src/extract/natural_stat_trick.py:231-239 | a missing or NaN cell gives 0; a number, its truncation; text, its integer reading or 0 |
| NaturalStatTrick.RowQuality | src/extract/natural_stat_trick.py:188-202 | the record carries the abbreviation, the games played and the row's HDCF%, xGF% and PDO cells |
| NaturalStatTrick.DataframeToShotQuality | src/extract/natural_stat_trick.py:174-209 | the row loop yields exactly `Registry(rows)` |
| NaturalStatTrick.AcceptedRowStoredTwice | src/extract/natural_stat_trick.py:205-206 | an accepted row's record is stored under its abbreviation and under its full name |
| NaturalStatTrick.RejectedRowSkipped | src/extract/natural_stat_trick.py:179-186 | a row with a blank or unmapped team name leaves the registry unchanged |
| NaturalStatTrick.RegistryKeysConsistent | src/extract/natural_stat_trick.py:205-206 | keys are distinct, and each record sits under its own abbreviation or a name mapping to it |
| NaturalStatTrick.LookupByFullName | src/extract/natural_stat_trick.py:205-206 | the classifier's lookup by the row's full name finds the row's record |
| NaturalStatTrick.CurrentSeason | src/extract/natural_stat_trick.py:80-85 | the same season string as the extraction utility |
| DailyFaceoff.NextDataText | src/extract/daily_faceoff.py:177-185 | no marker means no block |
| DailyFaceoff.ExtractNextData | src/extract/daily_faceoff.py:175-191 | None without a block, otherwise the decoder's result on it |
| DailyFaceoff.NextDataTextIsBetweenTags | src/extract/daily_faceoff.py:178-188 | the block is the text between the first marker and the first closing tag after it |
| DailyFaceoff.UnclosedTagNoData | src/extract/daily_faceoff.py:183-185 | no closing tag after the marker means no block |
| DailyFaceoff.WrappedPayloadExtracted | src/extract/daily_faceoff.py:177-188 | a page that wraps a payload in the tag gives back that payload |
| DailyFaceoff.MissingTagExample | src/extract/daily_faceoff.py:178-180 | a page without the marker gives nothing |
| DailyFaceoff.PositionDisplay | src/extract/daily_faceoff.py:74-82 | g1 and g2 display as G; every other listed identifier as its upper case |
| DailyFaceoff.BuildPlayerLine | src/extract/daily_faceoff.py:276-292 | name from the player; position G for goalies, else the upper-cased identifier; no injury status iff the raw value is falsy; no game-time decision when the key is absent |
| DailyFaceoff.PlayerLineExamples | src/extract/daily_faceoff.py:278-291 | sk1 → SK1, g2 → G, an empty status → None, "out" kept, an empty player → no name and no decision |
| DailyFaceoff.SortPlayersByPosition | src/extract/daily_faceoff.py:295-320 | a permutation; "f" groups sorted lw < c < rw, "d" groups ld < rd, others unchanged |
| DailyFaceoff.SortKeepsOrderWithinPosition | src/extract/daily_faceoff.py:305-317 | players at the same position keep their relative order |
| DailyFaceoff.UnknownForwardsLast | src/extract/daily_faceoff.py:305-310 | in a forward line, players at unknown positions come last |
| DailyFaceoff.OrderedForwardLineUnchanged | src/extract/daily_faceoff.py:305-310 | an already ordered forward line is returned as it was |
| DailyFaceoff.PlayerLines | src/extract/daily_faceoff.py:272 | one line per player, in order, with the player's name |
| DailyFaceoff.BuildLineCombination | src/extract/daily_faceoff.py:253-273 | None iff the group is empty; type (default "ev") and name (default "") come from the first player; the players are the sorted group's lines |
| DailyFaceoff.Members | src/extract/daily_faceoff.py:202-206 | exactly the players with that group identifier, in order |
| DailyFaceoff.MembersSnoc | src/extract/daily_faceoff.py:203-206 | one more player extends only its own group |
| DailyFaceoff.GroupsStep | src/extract/daily_faceoff.py:203-206 | one `setdefault(...).append` step keeps the grouping invariant |
| DailyFaceoff.GroupsHoldMembers | src/extract/daily_faceoff.py:202-206 | after the loop, each non-empty identifier holds exactly its players in input order, and no other key exists |
| DailyFaceoff.GroupPlayers | src/extract/daily_faceoff.py:202-206 | the grouping loop yields exactly `Groups(players)` |
| DailyFaceoff.SlotCombinations | src/extract/daily_faceoff.py:208-238 | a slot loop yields the combinations of its identifiers in numeric order, skipping absent groups |
| DailyFaceoff.SlotResultsAreCombinations | src/extract/daily_faceoff.py:208-238 | read from the grouped dictionary, the slot results are the combinations of the players' groups |
| DailyFaceoff.CombinationsFollowSlots | src/extract/daily_faceoff.py:208-238 | the k-th combination belongs to the k-th slot identifier that has players |
| DailyFaceoff.PresentIdsExact | src/extract/daily_faceoff.py:211 | a slot is kept iff its group has players |
| DailyFaceoff.SlotIdsNonEmpty | src/extract/daily_faceoff.py:209-234 | slot identifiers are never empty |
| DailyFaceoff.ForwardSlotIds | src/extract/daily_faceoff.py:209-210 | forward slots are f1–f4 |
| DailyFaceoff.DefenseSlotIds | src/extract/daily_faceoff.py:217-218 | defense slots are d1–d3 |
| DailyFaceoff.SpecialTeamsSlotIds | src/extract/daily_faceoff.py:225-234 | power play slots are pp1–pp2, penalty kill slots pk1–pk2 |
| DailyFaceoff.SlotIdsListed | src/extract/daily_faceoff.py:208-241 | the slot identifiers plus "g" are all the groups read |
| DailyFaceoff.CombinationsDependOnGroups | src/extract/daily_faceoff.py:208-238 | the combinations depend only on the members of the slot groups |
| DailyFaceoff.UnreadGroupKeepsCombinations | src/extract/daily_faceoff.py:208-238 | a player outside the slots read changes no combination |
| DailyFaceoff.OtherGroupIgnored | src/extract/daily_faceoff.py:202-250 | a player of any other group (such as "ir") changes nothing in the team's lines |
| DailyFaceoff.NoPlayersNoCombinations | src/extract/daily_faceoff.py:208-238 | no players, no combinations |
| DailyFaceoff.EmptyInputBareTeam | src/extract/daily_faceoff.py:199-250 | an empty input gives the bare team: its abbreviation, empty lists, no goalies |
| DailyFaceoff.LastIndexOf | src/extract/daily_faceoff.py:242-248 | the index of the last goalie with that position, None when there is none |
| DailyFaceoff.LastRendered | src/extract/daily_faceoff.py:242-248 | the line of the last goalie with that position; None iff there is none |
| DailyFaceoff.LastRenderedSnoc | src/extract/daily_faceoff.py:242-248 | a later goalie overwrites its own slot and leaves the other as it was |
| DailyFaceoff.PickGoalies | src/extract/daily_faceoff.py:241-248 | the goalie loop makes the last g1 the starter and the last g2 the backup |
| DailyFaceoff.BuildTeamLines | src/extract/daily_faceoff.py:194-250 | the method yields exactly `TeamLinesOf(players, abbrev)` |
| Parse.ToiFieldCases | src/extract/parse.py:81 | a missing "toi" reads as 0 seconds; a text value goes through the M:S conversion |
| Parse.FaceoffPct | src/extract/parse.py:185-193 | None for null, non-numeric or non-positive input; a positive number is kept as it is |
| Parse.FaceoffPctOfIntegerText | src/extract/parse.py:189-191 | integer text reads as its value when positive, None otherwise |
| Parse.FaceoffPctOfBool | src/extract/parse.py:189-191 | true reads as 1.0, false as None |
| Parse.CountFieldCases | src/extract/parse.py:74-85 | a missing count field reads as 0 |
| Parse.PlayerId | src/extract/parse.py:71 | present exactly when "playerId" holds an integer |
| Parse.SkaterStat | src/extract/parse.py:70-87 | the record has the player's id, the game id, the side's abbreviation and a positive faceoff share when present |
| Parse.GoalieStat | src/extract/parse.py:111-123 | the record has the player's id, the game id and the side's abbreviation |
| Parse.SkaterStatOfBareEntry | src/extract/parse.py:70-87 | a player with only an id gets every default |
| Parse.GoalieStatOfBareEntry | src/extract/parse.py:111-123 | a goalie with only an id gets every default |
| Parse.StatNeedsPlayerId | src/extract/parse.py:71 | a player without "playerId" makes the parse fail |
| Parse.TraversalOrder | src/extract/parse.py:64-69 | home side before away side, groups in the order given |
| Parse.TwoGroups | src/extract/parse.py:68-69 | within a side, the first group's players precede the second's |
| Parse.GroupsEntriesTagged | src/extract/parse.py:66-69 | every entry of a side carries that side's abbreviation |
| Parse.VisitPlayers | src/extract/parse.py:64-69 | the nested side/group/player loops fold a step over exactly the traversal |
| Parse.ParseSkaterStats | src/extract/parse.py:50-91 | the loops yield exactly `SkaterStats` |
| Parse.SkaterStatsLines | src/extract/parse.py:62-88 | one record per forwards/defense entry, in traversal order, each with that entry's id, the game id and the side's abbreviation; goalies never included |
| Parse.ParseGoalieStats | src/extract/parse.py:94-127 | the loops yield exactly `GoalieStats` |
| Parse.GoalieStatsLines | src/extract/parse.py:104-124 | one record per goalies entry, home then away, each with that entry's id, the game id and the side's abbreviation |
| Parse.SplitName | src/extract/parse.py:158-160 | with a space, first and rest rejoin to the name and the first part has no space; without one, both parts are the name |
| Parse.SplitNameAtFirstSpace | src/extract/parse.py:158 | the split is at the first space |
| Parse.RawName | src/extract/parse.py:153-157 | a missing name reads as "" |
| Parse.KeyOf | src/extract/parse.py:148 | present exactly when the player's id is |
| Parse.BuildPlayer | src/extract/parse.py:153-169 | the player has the id and the side's abbreviation, and names that rebuild the raw name |
| Parse.KeepFirst | src/extract/parse.py:148-151 | the kept players have the same set of ids and no id twice |
| Parse.KeepFirstKeepsFirst | src/extract/parse.py:148-151 | every kept player is the first one with that id |
| Parse.PlayerStepsFold | src/extract/parse.py:140-170 | the loop with its seen set computes `PlayersOf`: first occurrences, then built players |
| Parse.ParsePlayers | src/extract/parse.py:130-173 | the loops yield exactly `Players(boxscore)` |
| Parse.PlayersOfDistinct | src/extract/parse.py:148-151 | each player id appears at most once, and every id met appears |
| Parse.PlayersOfFirstEntries | src/extract/parse.py:148-170 | the i-th player is built from the first entry with its id |
| Parse.PlayersOfSnoc | src/extract/parse.py:148-170 | a further entry with a seen id adds nothing, a new id appends its player |
| Parse.VenueOf | src/extract/parse.py:40 | a missing or falsy venue gives None |
| Parse.StartTimeOf | src/extract/parse.py:24-29 | a missing or falsy start time gives None |
| Parse.ParseGame | src/extract/parse.py:31-43 | the game carries the id, date and both team abbreviations, and game type 2 when the key is absent |
| Parse.MinimalGameParses | src/extract/parse.py:31-43 | a game with only the required keys parses with every default |
| Parse.GameNeedsRequiredKeys | src/extract/parse.py:32-37 | a game without id, date or either team makes the parse fail |
| Parse.CollectEach | src/extract/parse.py:22-44 | the append loop yields exactly `Collect` |
| Parse.ParseGames | src/extract/parse.py:13-47 | the loop yields exactly `Games(scores)` |
| Parse.GamesOnePerElement | src/extract/parse.py:22-44 | one game per element of "games", in order |
| Parse.NoGamesKey | src/extract/parse.py:23 | a response without "games" yields no games |
| Clean.ToiToSeconds | src/transform/clean.py:28-41 | 0 when there is no second field or either field is not an integer |
| Clean.ToiOfDigits | src/transform/clean.py:38-39 | digits M:S give M·60 + S |
| Clean.ToiOfMinutesSeconds | src/transform/clean.py:38-39 | rendering minutes and seconds and reading them back gives minutes·60 + seconds |
| Clean.ToiIgnoresLaterFields | src/transform/clean.py:38-39 | fields after the second are ignored |
| Clean.ToiWithoutColon | src/transform/clean.py:40-41 | text without a colon reads as 0 |
| Clean.ToiExample | src/transform/clean.py:32-33 | "18:45" is 1125 seconds |
| Clean.ZeroToiExample | src/transform/clean.py:34-35 | "0:00" is 0 seconds |
| Clean.NormalizeSpacing | src/transform/clean.py:16-23 | the result is single-spaced without outer whitespace, and has the same words in order |
| Clean.NormalizeKeepsCharacters | src/transform/clean.py:16-23 | only whitespace is removed |
| Clean.CleanNameUnchanged | src/transform/clean.py:16-25 | a name comes back unchanged iff it is already clean |
| Clean.NormalizeSpacingIdempotent | src/transform/clean.py:16-25 | cleaning twice equals cleaning once |
| Normalize.NormalizeTeam | src/transform/normalize.py:6-8 | the same as `Team.NormalizeAbbrev`, so canonical or the upper-cased input |
| Normalize.NormalizePosition | src/transform/normalize.py:11-24 | unknown codes come back upper-cased; known ones map into LW, RW, C, D, G |
| Normalize.PositionExamples | src/transform/normalize.py:17-24 | L → LW, R → RW, C, D, G to themselves, lower case alike, lw → LW |
| Normalize.PositionIgnoresCase | src/transform/normalize.py:24 | upper-casing the input first changes nothing |
| Normalize.PositionIdempotent | src/transform/normalize.py:17-24 | normalising twice equals normalising once |
| Team.CanonicalAt | src/models/team.py:5-12 | each canonical code is three upper-case letters |
| Team.CanonicalIndex | src/models/team.py:5-12 | a code found in the canonical list is at that index |
| Team.CanonicalCodes | src/models/team.py:5-12 | exactly 32 distinct canonical codes |
| Team.TableValuesCanonical | src/models/team.py:4-17 | every table value is canonical, and every canonical code maps to itself |
| Team.AlternateExamples | src/models/team.py:14-16 | ARI → UTA, MON → MTL, NAS → NSH, VEG → VGK, XYZ unknown |
| Team.CanonicalIsUpper | src/models/team.py:5-12 | canonical codes are unchanged by upper-casing |
| Team.NormalizeAbbrev | src/models/team.py:30-32 | a known code maps to a canonical one; an unknown one comes back upper-cased |
| Team.NormalizeIgnoresCase | src/models/team.py:32 | the lookup ignores case |
| Team.NormalizeIdempotent | src/models/team.py:4-32 | normalising twice equals normalising once |
| Team.NormalizeExamples | src/models/team.py:32 | ari → UTA, Col → COL, xyz → XYZ |
| ExtractUtils.DateRange | src/extract/utils.py:6-13 | start..end inclusive, one day apart, end − start + 1 days; empty when start > end |
| ExtractUtils.SeasonStartYear | src/extract/utils.py:22-25 | the season starts this year from September on, the previous year before |
| ExtractUtils.CurrentSeasonString | src/extract/utils.py:16-25 | the start year followed by the next year |
| ExtractUtils.SeasonStringReadsBack | src/extract/utils.py:24-25 | for four-digit years, 8 digits whose halves read back as the two years |
| ExtractUtils.SeasonExamples | src/extract/utils.py:22-25 | October 2025 and February 2026 are both season 20252026 |
| Stats.ToiMinutes | src/models/stats.py:25-27 | minutes times 60 is the seconds |
| Stats.SkaterToiMinutes | src/models/stats.py:25-27 | a skater's minutes times 60 is its seconds |
| Stats.GoalieToiMinutes | src/models/stats.py:52-54 | a goalie's minutes times 60 is its seconds |
| Stats.SavePct | src/models/stats.py:46-50 | None iff no shots against; otherwise the share times shots is saves |
| Stats.SavePctBounds | src/models/stats.py:46-50 | with saves between 0 and shots, the share lies in [0, 1] |
| Stats.SkaterDefaults | src/models/stats.py:11-23 | every count defaults to 0 and the faceoff share to None |
| Stats.GoalieDefaults | src/models/stats.py:37-44 | every count defaults to 0, the decision to None, so no save share |
| SlateDisplay.LastWordLabel | src/dashboard/slate_breakdown.py:302 | present iff the name has a word; one to four characters |
| SlateDisplay.ShortName | src/dashboard/slate_breakdown.py:298-302 | a mapped name gives its abbreviation; an unmapped one the last-word label |
| SlateDisplay.KnownTeamLabel | src/dashboard/slate_breakdown.py:298-300 | each franchise's full name is labelled by its canonical code |
| SlateDisplay.UnknownTeamLabel | src/dashboard/slate_breakdown.py:302 | an unmapped name is labelled by the upper-cased first four characters of its last word |
| SlateDisplay.FormatMl | src/dashboard/slate_breakdown.py:305-307 | a "+" sign exactly for positive lines, "-" exactly for negative, and the text reads back as the line |
| SlateDisplay.PlusMoneylineExample | src/dashboard/slate_breakdown.py:307 | 150 renders as "+150" |
| SlateDisplay.MinusMoneylineExample | src/dashboard/slate_breakdown.py:307 | −200 renders as "-200" |
| SlateDisplay.FormatPlayer | src/dashboard/slate_breakdown.py:372-381 | out → "~~name~~ (OUT)", dtd → "name (DTD)", otherwise " (GTD)" only for a game-time decision |
| SlateDisplay.InjuryOverridesDecision | src/dashboard/slate_breakdown.py:375-380 | the game-time-decision flag leaves the label unchanged iff the status is out or dtd |
| SlateDisplay.LabelShowsName | src/dashboard/slate_breakdown.py:374-381 | the label starts with the name, or shows it right after the strike-through marker of an out player |

## Left out

- HTTP clients and orchestration are not modelled: the odds client, the NHL API client,
  `fetch_team_shot_quality`, `fetch_team_lines`/`fetch_lines_for_teams` with their sleeps, and
  the slate builder's calls to them.
- `_parse_lines_from_html` is not modelled, apart from the `__NEXT_DATA__` extraction. It walks
  JSON whose layout is defined by the remote site.
- `json.loads` becomes a decoder passed in as a parameter (`DailyFaceoff.ExtractNextData`). The
  parsers take decoded JSON values.
- `pandas.read_html` is not modelled. `_dataframe_to_shot_quality` takes rows as maps from
  column name to cell.
- `date.today()` becomes a year and month passed in (`ExtractUtils.CurrentSeasonString`,
  `NaturalStatTrick.CurrentSeason`). Dates in `date_range` are day numbers.
- The database loaders, the ETL pipeline, the pandas rolling metrics, the Streamlit rendering and
  the hard-coded demo slate are not modelled.
- Logging is not modelled.
- `GameEnvironment.ClassifyGame`: the divergence detail and the environment reason are structured
  values, with one message per flag in the source's order. The `"; "`-joined text and the
  `:.1f` rendering of numbers are not modelled.
- `OddsApi.ParseGameOdds`: the implied totals are exact; `round(…, 2)` is not modelled. The
  rounding can move an implied total across the 3.0 divergence threshold: 2.996 rounds to 3.0,
  which the source flags and the model does not.
- `OddsApi.ParseGameOdds`: events are assumed well-formed. Every key the source indexes is
  present: a market's "key", "home_team", "away_team", "outcomes", an outcome's "name" and
  "price", the Over outcome's "point", "id" and the bookmaker's "key". Prices are integers and
  points are numbers. The `KeyError` the source raises on a missing key, and the None it returns
  when a price or point is JSON null, are not modelled.
- `Stats.ToiMinutes`: uses exact rational arithmetic, where the source uses floating-point
  division. The same holds for `Stats.SavePct` and the de-vig arithmetic.
- `Clean.NormalizeSpacing`: models only the stripping and the collapsing of whitespace. It does
  not model NFKD accent removal, which needs the Unicode database.
- `Team.NormalizeAbbrev`: upper-casing maps ASCII letters only. Python's full Unicode case
  mapping is not modelled. This also applies to `Normalize.NormalizePosition`,
  `DailyFaceoff.PositionDisplay` and `SlateDisplay.ShortName`.
- `DailyFaceoff.BuildPlayerLine`: `str()` of a JSON float, list or object is read as "", because
  Python's rendering of those values is not modelled. The same holds for the group type and
  group name of `DailyFaceoff.BuildLineCombination`. `bool()` of the game-time flag follows
  JSON truthiness.
- `Parse.ParseGame`: keeps "gameDate" and "startTimeUTC" as text. The source validates them
  with `date.fromisoformat` and `datetime.fromisoformat`, and those are not modelled, so an
  invalid start time is kept here where the source gives None.
- `Parse.SkaterStat`: a stored field must have the JSON type the API sends, otherwise the parse
  fails. The source would store any value it finds. Ids and counts must be integers,
  abbreviations and positions text, and jersey numbers and scores integers or null. This also
  applies to `Parse.GoalieStat`, `Parse.BuildPlayer` and `Parse.ParseGame`.
- `Clean.ToiToSeconds`: `int()` of text reads ASCII digits with an optional sign and surrounding
  blanks (`Text.ParseInt`). Underscores between digits and non-ASCII decimal digits are not read,
  so "1_8:45" gives 0 here where the source gives 1125. The same reading is used by
  `Parse.ToiField` and `NaturalStatTrick.SafeInt`, where a "GP" cell of "8_2" gives 0 instead of 82.
- `Parse.FaceoffPct`: `float()` of text reads plain decimals only. Exponents, "nan", "inf" and
  underscores are not read, and an `OverflowError` on a huge integer is not modelled. The same
  reading is used by `NaturalStatTrick.SafeFloat`.
- `Parse.RawName`: `str()` of a float or list name is not modelled; the parse fails instead.
- `Parse.GamesOnePerElement`: Dafny proves it from `Collect`'s contract alone.
