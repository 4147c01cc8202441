/**
 * `DexScreenerBot` with its state in fields that its methods update in
 * place: the two blacklist sets, the `token_data` table and the
 * `price_history` log. Each method is specified by the value functions of
 * the Pipeline, Store, Patterns and Cycle modules.
 */
module Bot {
  import opened Text
  import opened Settings
  import opened Pipeline
  import opened Store
  import opened Patterns
  import opened Cycle

  class DexScreenerBot {
    const filters: Filters
    var blacklistedCoins: set<string>
    var blacklistedDevs: set<string>
    var tokenData: Table
    var priceHistory: seq<HistoryEntry>

    ghost function State(): BotState
      reads this
    {
      BotState(blacklistedCoins, blacklistedDevs, tokenData, priceHistory)
    }

    /**
     * `__init__` with `load_config` and `setup_database`: the thresholds, the
     * two blacklists parsed from their comma-separated options, and whatever
     * the database file already holds.
     */
    constructor (filters: Filters, coins: string, developers: string,
                 storedTokens: Table, storedHistory: seq<HistoryEntry>)
      ensures this.filters == filters
      ensures State() == BotState(ParseCoins(coins), ParseDevs(developers), storedTokens, storedHistory)
    {
      this.filters := filters;
      blacklistedCoins := ParseCoins(coins);
      blacklistedDevs := ParseDevs(developers);
      tokenData := storedTokens;
      priceHistory := storedHistory;
    }

    /** `is_blacklisted`, with the two oracle answers passed in. */
    method IsBlacklisted(pair: Pair, rug: RugReport, fakeVolume: bool) returns (blacklisted: bool)
      modifies this
      ensures blacklisted == Screen(old(blacklistedCoins), old(blacklistedDevs), pair, rug, fakeVolume).Rejects()
      ensures State() == AfterScreen(old(State()), pair, Screen(old(blacklistedCoins), old(blacklistedDevs), pair, rug, fakeVolume))
    {
      var baseToken := Upper(pair.baseSymbol);
      var quoteToken := Upper(pair.quoteSymbol);
      var devAddress := Lower(pair.devAddress);
      var address := pair.pairAddress;
      if !rug.isGood || rug.isBundle {
        if rug.isBundle {
          blacklistedCoins := blacklistedCoins + {baseToken};
          if address in tokenData {
            tokenData := tokenData[address := tokenData[address].(isBundle := true)];
          }
        }
        return true;
      }
      if fakeVolume {
        blacklistedCoins := blacklistedCoins + {baseToken};
        if address in tokenData {
          tokenData := tokenData[address := tokenData[address].(hasFakeVolume := true)];
        }
        return true;
      }
      if baseToken in blacklistedCoins || quoteToken in blacklistedCoins
         || (devAddress != "" && devAddress in blacklistedDevs) {
        return true;
      }
      return false;
    }

    /** `analyze_pair`. */
    method AnalyzePair(pair: Pair, rug: RugReport, fakeVolume: bool, nowMs: int) returns (analysis: Option<Analysis>)
      modifies this
      ensures analysis == Analyze(filters, old(blacklistedCoins), old(blacklistedDevs), pair, rug, fakeVolume, nowMs)
      ensures State() == AfterScreen(old(State()), pair, Screen(old(blacklistedCoins), old(blacklistedDevs), pair, rug, fakeVolume))
    {
      var blacklisted := IsBlacklisted(pair, rug, fakeVolume);
      if blacklisted || !MeetsFilters(filters, pair) {
        return None;
      }
      analysis := Some(Describe(filters, pair, nowMs));
    }

    /** `save_to_database`, with its two clock readings passed in. */
    method SaveToDatabase(analysis: Analysis, recordTime: int, historyTime: int)
      modifies this
      ensures State() == Save(old(State()), analysis, recordTime, historyTime)
    {
      var address := analysis.pairAddress;
      if address in tokenData {
        var existing := tokenData[address];
        tokenData := tokenData[address := existing.(
          currentPrice := analysis.priceUsd, liquidityUsd := analysis.liquidityUsd,
          volume24h := analysis.volume24h, priceChange24h := analysis.priceChange24h,
          status := analysis.status, lastUpdated := recordTime)];
      } else {
        tokenData := tokenData[address := TokenRecord(
          analysis.chainId, analysis.baseToken, analysis.quoteToken, analysis.devAddress,
          analysis.createdAt, analysis.priceUsd, analysis.priceUsd, analysis.liquidityUsd,
          analysis.volume24h, analysis.priceChange24h, analysis.status, recordTime, false, false)];
      }
      priceHistory := priceHistory + [HistoryEntry(address, historyTime, analysis.priceUsd,
                                                   analysis.volume24h, analysis.liquidityUsd)];
    }

    /**
     * `trade_and_notify`: returns the trade request sent to the trading bot,
     * if any; `o.tradeOk` is that bot's answer.
     */
    method TradeAndNotify(o: Observation, amount: real) returns (order: Option<TradeOrder>)
      modifies this
      ensures order == OrderFor(filters, old(blacklistedCoins), old(blacklistedDevs), o.pair, o.rug,
                                o.fakeVolume, o.nowMs, amount)
      ensures State() == Step(filters, old(State()), o)
    {
      var analysis := AnalyzePair(o.pair, o.rug, o.fakeVolume, o.nowMs);
      if analysis.None? {
        return None;
      }
      var action := ActionFor(analysis.value.status);
      if action.None? {
        return None;
      }
      order := Some(TradeOrder(action.value, analysis.value.pairAddress, amount));
      if o.tradeOk {
        SaveToDatabase(analysis.value, o.recordTime, o.historyTime);
      }
    }

    /**
     * The two GROUP BY queries of `detect_patterns`: the RUG count of every
     * base token with more than one RUG row, and the mean price change of
     * every base token whose PUMP rows average above the pump threshold.
     */
    method DetectPatterns() returns (rugs: map<string, nat>, pumps: map<string, real>)
      ensures forall token :: token in rugs <==> RugCount(tokenData, token) > 1
      ensures forall token :: token in rugs ==> rugs[token] == RugCount(tokenData, token)
      ensures forall token :: token in pumps <==>
        PumpCount(tokenData, token) > 0 && PumpMean(tokenData, token) > filters.pumpThreshold
      ensures forall token :: token in pumps ==>
        PumpCount(tokenData, token) > 0 && pumps[token] == PumpMean(tokenData, token)
    {
      var groups := Groups(map[], map[], map[]);
      var todo := tokenData.Keys;
      TalliesStart(tokenData);
      while todo != {}
        invariant todo <= tokenData.Keys
        invariant Tallies(tokenData, tokenData.Keys - todo, groups)
        decreases todo
      {
        var k :| k in todo;
        VisitTallies(tokenData, tokenData.Keys - todo, groups, k);
        groups := Visit(groups, tokenData[k]);
        assert tokenData.Keys - (todo - {k}) == (tokenData.Keys - todo) + {k};
        todo := todo - {k};
      }
      assert tokenData.Keys - todo == tokenData.Keys;
      ReportsExact(tokenData, groups, filters.pumpThreshold);
      rugs := RugPatterns(groups);
      pumps := PumpPatterns(groups, filters.pumpThreshold);
    }

    /**
     * One pass of the `run` loop: at most the first 50 pairs of the feed go
     * through `trade_and_notify`, then the patterns are detected over the
     * whole table.
     */
    method RunCycle(feed: seq<Observation>) returns (orders: seq<TradeOrder>, rugs: map<string, nat>, pumps: map<string, real>)
      modifies this
      ensures State() == ProcessBatch(filters, old(State()), Batch(feed))
      ensures orders == Orders(filters, old(State()), Batch(feed), DefaultAmount)
      ensures forall token :: token in rugs <==> RugCount(tokenData, token) > 1
      ensures forall token :: token in rugs ==> rugs[token] == RugCount(tokenData, token)
      ensures forall token :: token in pumps <==>
        PumpCount(tokenData, token) > 0 && PumpMean(tokenData, token) > filters.pumpThreshold
      ensures forall token :: token in pumps ==> pumps[token] == PumpMean(tokenData, token)
    {
      var batch := Batch(feed);
      orders := [];
      for i := 0 to |batch|
        invariant State() == ProcessBatch(filters, old(State()), batch[..i])
        invariant orders == Orders(filters, old(State()), batch[..i], DefaultAmount)
      {
        assert batch[..i + 1][..i] == batch[..i];
        var order := TradeAndNotify(batch[i], DefaultAmount);
        if order.Some? {
          orders := orders + [order.value];
        }
      }
      assert batch[..|batch|] == batch;
      rugs, pumps := DetectPatterns();
    }
  }
}
