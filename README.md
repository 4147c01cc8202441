# DexScreener bot: the pair-processing pipeline, in Dafny

This project models the core of `DexScreenerBot` (AlexDexScreenerBot.py): the
path that a trading-pair record from the DexScreener discovery feed takes
through the bot, and what it leaves behind in the bot's state.

- **Blacklist loading** (`load_config`): the `coins` and `developers` options
  are comma-separated lists; each piece is trimmed, blank pieces are dropped,
  coin symbols are upper-cased and developer addresses lower-cased.
- **Screening** (`is_blacklisted`): the rug-check answer first (not good, or
  bundled supply, rejects; bundled also adds the upper-cased base symbol to the
  coin blacklist and sets `is_bundle` on an existing row), then the fake-volume
  answer (rejects, adds the base symbol, sets `has_fake_volume` on an existing
  row), then the static blacklists (base or quote symbol, or a non-empty
  developer address).
- **Threshold filter and classifier** (`meets_filters`, `analyze_pair`):
  liquidity and 24-hour volume against their minimums; then PUMP when the
  24-hour price change reaches the pump threshold, RUG when it is at or below
  the rug threshold and liquidity is below the minimum, NORMAL otherwise.
- **Trade dispatch** (`trade_and_notify`): PUMP buys, RUG sells, NORMAL does
  nothing; the analysis is saved only after a trade that reported success.
- **Storage** (`save_to_database`): `token_data` is a map from pair address to
  row, `price_history` an append-only sequence; a save inserts or updates the
  row (the initial price is fixed by the first insert) and appends one history
  row.
- **Pattern detection** (`detect_patterns`): RUG rows counted per base token
  (reported above one), and the mean price change of PUMP rows per base token
  (reported above the pump threshold).
- **One scheduler pass** (`run`): the first 50 pairs of the feed, then the
  pattern detection.

The answers of the rug-check and fake-volume services, the trading bot's
reply and the clock readings are inputs (`Cycle.Observation`). The module
layout follows the pipeline: `Text` (string helpers), `Settings`
(configuration), `Pipeline` (per-pair decisions), `Store` (the two tables),
`Patterns` (the group-by queries), `Cycle` (one pair and one batch as
functions on the whole state) and `Bot` (the class `DexScreenerBot`, whose
methods update its fields in place and are specified by those functions).

A consequence proved here: a pair that gets an analysis has passed
`meets_filters`, so its liquidity is at least `min_liquidity_threshold`, and
the RUG branch of the classifier can never be taken. The bot therefore never
sells, and it only ever saves PUMP rows. On a table written only by the bot,
the rug-pattern query finds nothing, whatever configuration each pass ran
under (`Cycle.BatchRugFree`, `Cycle.NoRugPatternFromRugFreeStore`). Starting
from a table whose rows are all PUMP rows at or above the pump threshold (an
empty one, say), under that one configuration for every pass and in exact
arithmetic, a pump pattern is reported exactly when one of the token's rows
lies strictly above the pump threshold (`Cycle.BatchPumpOnly`, `Cycle.PumpPatternFromPumpOnlyStore`). This last fact needs the one
configuration: the database survives restarts and `pump_threshold` is re-read
at every start, so rows saved under a lower threshold can pull a token's mean
below a later, higher one although one of its rows is above it.

## Model

| member | source | states |
|---|---|---|
| Text.StripStart | AlexDexScreenerBot.py:36-37 | the result is a suffix of the input, all of the removed prefix is whitespace, and the result does not start with whitespace |
| Text.StripEnd | AlexDexScreenerBot.py:36-37 | the result is a prefix of the input, all of the removed suffix is whitespace, and the result does not end with whitespace |
| Text.Strip | AlexDexScreenerBot.py:36-37 | the result of `strip()` neither starts nor ends with whitespace |
| Text.StripSlice | AlexDexScreenerBot.py:36-37 | `strip()` keeps a contiguous slice of its input |
| Text.StripCutsSpace | AlexDexScreenerBot.py:36-37 | everything `strip()` cuts off at either end of its input is whitespace |
| Text.StripIdempotent | AlexDexScreenerBot.py:36-37 | trimming an already trimmed entry changes nothing |
| Text.Upper | AlexDexScreenerBot.py:227-228 | `upper()` keeps the length and maps each character to its upper-case form (`UpperChar`: a lower-case ASCII letter becomes its upper-case partner, every other character is kept) |
| Text.CaseRoundTrip | AlexDexScreenerBot.py:227-229 | upper-casing a lower-case ASCII letter and lower-casing it again gives it back, and the other way round |
| Text.UpperIdempotent | AlexDexScreenerBot.py:36 | an upper-cased symbol has no lower-case letter, and upper-casing it again changes nothing |
| Text.Lower | AlexDexScreenerBot.py:229 | `lower()` keeps the length and maps each character to its lower-case form (`LowerChar`: an upper-case ASCII letter becomes its lower-case partner, every other character is kept) |
| Text.LowerIdempotent | AlexDexScreenerBot.py:37 | a lower-cased address has no upper-case letter, and lower-casing it again changes nothing |
| Text.Split | AlexDexScreenerBot.py:36-37 | `split(',')` gives one more piece than there are commas, and no piece contains a comma |
| Text.JoinSplit | AlexDexScreenerBot.py:36-37 | joining the pieces with commas gives back the option text |
| Text.SplitJoin | AlexDexScreenerBot.py:36-37 | splitting a comma-join of comma-free pieces gives back exactly those pieces, empty ones included |
| Settings.ParseEntries | AlexDexScreenerBot.py:36-37 | a parsed blacklist never contains the empty entry |
| Settings.ParseCoins | AlexDexScreenerBot.py:36 | every loaded coin entry is non-empty, trimmed, comma-free and upper-case |
| Settings.ParseDevs | AlexDexScreenerBot.py:37 | every loaded developer entry is non-empty, trimmed, comma-free and lower-case |
| Settings.ParsedEntriesClean | AlexDexScreenerBot.py:36-37 | every parsed entry is non-empty, trimmed at both ends, comma-free and already case-folded (coins upper, developers lower) |
| Settings.SplitJoined | AlexDexScreenerBot.py:36-37 | parsing a comma-join of comma-free pieces trims and case-folds each piece and keeps exactly those that are not blank once trimmed |
| Settings.ParseJoined | AlexDexScreenerBot.py:36-37 | parsing a comma-joined list of clean entries gives exactly the set of its non-empty entries |
| Pipeline.IsListed | AlexDexScreenerBot.py:227-253 | definition: the upper-cased base or quote symbol is a listed coin, or the lower-cased developer address is non-empty and listed |
| Pipeline.Screen | AlexDexScreenerBot.py:225-256 | the pair is rejected iff the rug check fails, the supply is bundled, the volume is fake or the pair is listed; the base symbol is blacklisted only on a bundled supply or fake volume |
| Pipeline.ScreenOutcomes | AlexDexScreenerBot.py:233-256 | the screening outcome in terms of its inputs: bundled iff the supply is bundled; "not good" iff not bundled and not good; fake volume iff the rug check passed and volume is fake; listed iff both oracles passed and the pair is listed; clean iff all pass; the base token is blacklisted iff bundled, or good with fake volume |
| Pipeline.FakeVolumeAfterRugCheck | AlexDexScreenerBot.py:233-244 | once the rug check rejects, the fake-volume answer cannot change the outcome, which is a rejection |
| Pipeline.ListsAfterOracles | AlexDexScreenerBot.py:233-253 | when an oracle rejects, the blacklist sets do not affect the outcome |
| Pipeline.EmptyDevNeverListed | AlexDexScreenerBot.py:253 | an empty developer address never matches the developer blacklist |
| Pipeline.MeetsFilters | AlexDexScreenerBot.py:219-223 | definition: liquidity and 24-hour volume each reach their minimum |
| Pipeline.Classify | AlexDexScreenerBot.py:276-281 | definition: PUMP at or above the pump threshold, else RUG at or below the rug threshold with liquidity under the minimum, else NORMAL (its properties are `Pipeline.ClassifyOrdered`) |
| Pipeline.ClassifyOrdered | AlexDexScreenerBot.py:276-281 | the status is exactly one of PUMP, RUG and NORMAL: PUMP iff the change reaches the pump threshold; RUG iff not PUMP, the change is at or below the rug threshold and liquidity is below the minimum; otherwise NORMAL |
| Pipeline.Describe | AlexDexScreenerBot.py:263-274 | the analysis copies the pair's address, chain, raw symbols, developer address and numbers; the creation time falls back to the current clock reading |
| Pipeline.Analyze | AlexDexScreenerBot.py:258-283 | an analysis exists iff the screening passes and both thresholds are met; an analysed pair has at least the minimum liquidity and volume, its status is never RUG, and it is PUMP iff the change reaches the pump threshold |
| Pipeline.ListedGetsNoAnalysis | AlexDexScreenerBot.py:253-260 | a pair whose upper-cased base or quote symbol, or non-empty lower-cased developer address, is blacklisted gets no analysis |
| Pipeline.ActionFor | AlexDexScreenerBot.py:324 | buy iff PUMP, sell iff RUG, no action iff NORMAL |
| Pipeline.OrderFor | AlexDexScreenerBot.py:318-325 | a trade is requested iff the pair is analysed and reaches the pump threshold, and then it is always a buy of that pair for the given amount, never a sell |
| Store.MarkBundle | AlexDexScreenerBot.py:237-240 | the `is_bundle` update sets the flag on an existing row only; it creates no row and leaves all other rows alone |
| Store.MarkFakeVolume | AlexDexScreenerBot.py:246-249 | the `has_fake_volume` update sets the flag on an existing row only; it creates no row and leaves all other rows alone |
| Store.NewRecord | AlexDexScreenerBot.py:301-309 | definition: the inserted row copies the analysis, sets initial and current price to the observed price, takes the clock reading as `last_updated` and clears both flags |
| Store.Refresh | AlexDexScreenerBot.py:293-299 | definition: an update overwrites current price, liquidity, volume, change, status and `last_updated`, and keeps every other column |
| Store.Upsert | AlexDexScreenerBot.py:289-309 | afterwards the address has exactly one row holding the new observation; a first insert sets the initial price to the observed price and clears both flags; an update keeps the identity columns, the initial price and both flags; all other rows are untouched |
| Store.EntryFor | AlexDexScreenerBot.py:311-315 | definition: the history row holds the address, the clock reading, the price, the volume and the liquidity |
| Store.InitialPriceFrozen | AlexDexScreenerBot.py:293-309 | after a first save and a later one, the initial price is the first price and the current price the later one |
| Store.UpsertIdempotent | AlexDexScreenerBot.py:289-309 | saving the same observation twice leaves the same table as saving it once |
| Store.UpsertSetsNoFlag | AlexDexScreenerBot.py:293-309 | a save never sets either flag |
| Patterns.RugCount | AlexDexScreenerBot.py:334-337 | definition: `COUNT(*)` of the token's RUG rows, as the size of the set of their keys |
| Patterns.PumpCount | AlexDexScreenerBot.py:345-347 | definition: the number of the token's PUMP rows |
| Patterns.PumpMean | AlexDexScreenerBot.py:345-347 | definition: `AVG(price_change_24h)` over the token's PUMP rows, defined when there is one |
| Patterns.Visit | AlexDexScreenerBot.py:334-348 | definition: one row bumps its token's RUG count, or its PUMP count and PUMP sum, according to its status |
| Patterns.RugPatterns | AlexDexScreenerBot.py:334-343 | definition: the tokens tallied more than once as RUG, with their counts (`HAVING rug_count > 1`); exactness is `Patterns.ReportsExact` |
| Patterns.PumpPatterns | AlexDexScreenerBot.py:345-353 | definition: the tokens whose tallied PUMP mean exceeds the threshold, with that mean (`HAVING avg_pump > ?`); exactness is `Patterns.ReportsExact` |
| Patterns.VisitTallies | AlexDexScreenerBot.py:334-348 | counting one more row keeps the per-token RUG counts, PUMP counts and PUMP price-change sums exact |
| Patterns.TalliesComplete | AlexDexScreenerBot.py:334-348 | once every row is counted, the tallies equal the group counts and group means of the whole table |
| Patterns.ReportsExact | AlexDexScreenerBot.py:334-348 | over complete tallies the rug report holds exactly the tokens with more than one RUG row, with their counts, and the pump report exactly the tokens whose PUMP mean exceeds the threshold, with that mean |
| Patterns.SumChangeRemove | AlexDexScreenerBot.py:345-347 | the sum behind `AVG` does not depend on the order in which rows are taken |
| Patterns.SumChangeFloor | AlexDexScreenerBot.py:345-347 | when every row of a group reaches a floor, the group's sum reaches the group size times that floor |
| Patterns.SumChangeCeiling | AlexDexScreenerBot.py:345-347 | when every row of a group stays at or below a ceiling, so does the sum relative to the group size times that ceiling |
| Patterns.SumChangeStrict | AlexDexScreenerBot.py:345-347 | when every row reaches a floor and one exceeds it, the sum is strictly above the group size times the floor |
| Patterns.PumpOnlyMeans | AlexDexScreenerBot.py:345-348 | on a table of PUMP rows at or above the pump threshold, every group mean reaches the threshold, and it exceeds it iff one of the group's rows does |
| Cycle.AfterScreen | AlexDexScreenerBot.py:233-251 | screening changes neither the developer blacklist nor the history nor the set of rows; a "not good", listed or clean outcome changes nothing at all; a bundled supply sets only `is_bundle` on the pair's existing row (`Store.MarkBundle`) and fake volume only `has_fake_volume` (`Store.MarkFakeVolume`); the upper-cased base symbol joins the coin blacklist exactly on those two rejections |
| Cycle.Save | AlexDexScreenerBot.py:289-316 | a save leaves the blacklists alone, leaves the table exactly as `Store.Upsert` of the analysis makes it (insert or update of the pair's row, every other row untouched), and appends exactly one history row (address, time, price, volume, liquidity) after the old ones |
| Cycle.Persists | AlexDexScreenerBot.py:320-326 | definition: a call saves iff there is an analysis, its status has an action and the trade succeeds (characterised by `Cycle.PersistsOnlyPumps`) |
| Cycle.Step | AlexDexScreenerBot.py:318-328 | definition: one call is the screening's side effects followed, when it saves, by `Cycle.Save` of the analysis |
| Cycle.PersistsOnlyPumps | AlexDexScreenerBot.py:320-326 | a pair is saved iff it passes screening and thresholds, reaches the pump threshold and the trade succeeds; what is saved is a PUMP |
| Cycle.StepHistory | AlexDexScreenerBot.py:311-326 | one call appends exactly one history row when it saves and none otherwise |
| Cycle.StepSaves | AlexDexScreenerBot.py:289-309 | a call that saves leaves the table as `Store.Upsert` of the analysis into the table before the call, and the pair's row is then a PUMP row holding that analysis |
| Cycle.StepWithoutSave | AlexDexScreenerBot.py:233-251 | a call that does not save creates no row and changes nothing except the two flags of the pair's own row |
| Cycle.ListedPairChangesNothing | AlexDexScreenerBot.py:253-255 | a blacklisted pair that passes both oracles changes no state at all: no write, no blacklist growth |
| Cycle.StepFlags | AlexDexScreenerBot.py:235-249 | a bundled or fake-volume rejection sets its flag on an existing row and leaves the table unchanged when there is no row |
| Cycle.StepBlacklists | AlexDexScreenerBot.py:233-251 | the coin blacklist grows by at most the upper-cased base symbol; the developer blacklist never changes |
| Cycle.StepKeeps | AlexDexScreenerBot.py:293-299 | no call drops a row or changes its identity columns or initial price |
| Cycle.StepFlagsKept | AlexDexScreenerBot.py:235-299 | a call keeps every row and never clears a flag: screening only sets flags and a save keeps both |
| Cycle.StepPumpOnly | AlexDexScreenerBot.py:260-326 | a table of PUMP rows at or above the pump threshold stays that way after any call |
| Cycle.Batch | AlexDexScreenerBot.py:361 | a batch is the feed's first min(50, length) pairs |
| Cycle.ProcessBatch | AlexDexScreenerBot.py:361-362 | definition: the batch's pairs are stepped through in feed order, each from the state the earlier ones left |
| Cycle.Orders | AlexDexScreenerBot.py:361-362 | the batch's trade requests, at most as many as pairs, each a buy of the given amount for a pair of the batch (which pair adds which request, in order, is `Cycle.OrdersStep`) |
| Cycle.OrdersStep | AlexDexScreenerBot.py:320-325 | a pair adds a buy of itself to the requests iff, against the state the earlier pairs left, it passes screening and the thresholds and reaches the pump threshold, and adds nothing otherwise |
| Cycle.BatchMonotone | AlexDexScreenerBot.py:358-362 | over a batch the old history stays a prefix and grows by at most one row per pair; the coin blacklist only grows; the developer blacklist is unchanged; no row is dropped and no initial price rewritten |
| Cycle.BatchFlagsKept | AlexDexScreenerBot.py:361-362 | over a batch no row is dropped and no flag, once set, is cleared |
| Cycle.BatchPumpOnly | AlexDexScreenerBot.py:358-362 | a table of PUMP rows stays that way over any batch |
| Cycle.BatchRugFree | AlexDexScreenerBot.py:276-326 | a table without RUG rows keeps having none over any batch under any configuration |
| Cycle.RugFreeHasNoRugs | AlexDexScreenerBot.py:334-337 | a table without RUG rows has a RUG count of zero for every token |
| Cycle.NoRugPatternFromRugFreeStore | AlexDexScreenerBot.py:334-337 | starting from a table without RUG rows (an empty one, say), no batch leaves a RUG row for any token, so the rug-pattern query finds nothing |
| Cycle.PumpPatternFromPumpOnlyStore | AlexDexScreenerBot.py:345-348 | starting from a table whose rows are all PUMP rows at or above the pump threshold (an empty one, or one left by earlier passes under the same configuration), under that configuration every group's PUMP mean reaches the pump threshold, and the query reports the token iff one of its rows is strictly above it |
| Bot.DexScreenerBot.constructor | AlexDexScreenerBot.py:12-42 | the bot starts with the thresholds, the two parsed blacklists and the tables as already stored |
| Bot.DexScreenerBot.IsBlacklisted | AlexDexScreenerBot.py:225-256 | returns whether the screening rejects, and updates the blacklist and flags exactly as `Cycle.AfterScreen` says |
| Bot.DexScreenerBot.AnalyzePair | AlexDexScreenerBot.py:258-283 | returns `Pipeline.Analyze` of the pair against the blacklists as they were on entry, with the screening's side effects |
| Bot.DexScreenerBot.SaveToDatabase | AlexDexScreenerBot.py:285-316 | the new state is `Cycle.Save` of the old one: the upsert plus one appended history row |
| Bot.DexScreenerBot.TradeAndNotify | AlexDexScreenerBot.py:318-328 | returns the trade requested (`Pipeline.OrderFor`) and leaves the state `Cycle.Step` of the old one |
| Bot.DexScreenerBot.DetectPatterns | AlexDexScreenerBot.py:330-354 | changes nothing; reports a token as a rug pattern iff it has more than one RUG row, with that count, and as a pump pattern iff the mean price change of its PUMP rows exceeds the pump threshold, with that mean |
| Bot.DexScreenerBot.RunCycle | AlexDexScreenerBot.py:356-366 | processes exactly the first min(50, length) pairs in order (`Cycle.ProcessBatch`), requests exactly the trades `Cycle.Orders` lists, and then reports the rug patterns with their counts and the pump patterns with their means over the resulting table |

## Left out

- HTTP calls (`fetch_new_tokens`, `check_rugcheck`, `check_fake_volume`): their results are inputs. Response parsing and the conversion of transport errors into default answers are not modelled. The rug check's "is good" answer is the truthiness of the service's `score` field, taken here as a boolean.
- Telegram (`send_telegram_notification`) and every message text: not modelled. `trade_and_notify`'s notifications and the `print` output of `detect_patterns` are replaced by the returned trade request and the returned report maps.
- `toxi_trade`: its fixed delay and optimistic messages are replaced by the boolean `Observation.tradeOk`. The command text, which carries the action, address and amount, is represented by `Pipeline.TradeOrder`.
- SQLite mechanics (connections, SQL text, `setup_database`'s schema creation, the auto-increment id of `price_history`): the tables are a map and a sequence. Writes are atomic per call; failures inside SQLite are not modelled.
- Clocks: `time.time()` and `datetime.now()` readings are inputs. `save_to_database` reads the clock twice, once for `last_updated` and once for the history row; the model takes two separate parameters for them.
- Floating point: prices, volumes and thresholds are `real`; `float(...)` conversions and their exceptions on malformed feeds are not modelled. A feed record is a well-formed `Pipeline.Pair`, with a missing developer address as the empty string and a missing creation time as `None`.
- Text.Upper, Text.Lower: only the ASCII letters are case-folded; Python's full Unicode case mapping, which can also change a string's length, is not modelled.
- Text.IsSpace lists the characters for which Python's `str.isspace()` holds: the ASCII whitespace and separator controls, plus the Unicode space characters.
- The endless `while True` loop of `run` and its `sleep`: one pass over a feed is modelled (`RunCycle`); the `KeyboardInterrupt` handling is not.
- `fetch_new_pairs`, `fetch_pair_data` (it refers to an undefined `self.base_url`), the empty `fetch_token_data`, and dumbtest.py: not part of this model. Nothing calls the first three, and dumbtest.py only makes HTTP requests.
- GROUP BY result order: the two queries' rows come back in an order SQLite does not fix. The model returns them as maps from base token to count or mean.
