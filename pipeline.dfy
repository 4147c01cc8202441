/**
 * The per-pair decision logic of the bot: the blacklist and risk-oracle
 * screening (`is_blacklisted`), the liquidity/volume threshold filter
 * (`meets_filters`), the PUMP/RUG/NORMAL classifier and the analysis record
 * (`analyze_pair`), and the status-to-trade mapping (`trade_and_notify`).
 * The answers of the two remote oracles are plain inputs here.
 */
module Pipeline {
  import opened Text
  import opened Settings

  datatype Option<T> = None | Some(value: T)

  /**
   * A pair as the discovery feed delivers it. `devAddress` is the empty
   * string when the feed has no `info.dev.address`; `pairCreatedAt` is
   * None when the feed has no `pairCreatedAt`.
   */
  datatype Pair = Pair(
    chainId: string,
    pairAddress: string,
    baseSymbol: string,
    quoteSymbol: string,
    devAddress: string,
    priceUsd: real,
    liquidityUsd: real,
    volume24h: real,
    priceChange24h: real,
    pairCreatedAt: Option<int>)

  /** The rug-check oracle's two answers: whether the token scored, and whether its supply is bundled. */
  datatype RugReport = RugReport(isGood: bool, isBundle: bool)

  /** The outcome of `is_blacklisted`, with the reason for a rejection. */
  datatype Screening = NotGood | Bundled | FakeVolume | Listed | Clean {
    predicate Rejects() { !Clean? }
    /** The two outcomes that add the base token to the coin blacklist. */
    predicate Blacklists() { Bundled? || FakeVolume? }
  }

  /** Whether the pair names a blacklisted coin or developer; an empty developer address matches nothing. */
  predicate IsListed(coins: set<string>, devs: set<string>, p: Pair) {
    || Upper(p.baseSymbol) in coins
    || Upper(p.quoteSymbol) in coins
    || (Lower(p.devAddress) != "" && Lower(p.devAddress) in devs)
  }

  /**
   * `is_blacklisted`: the rug check first, then the fake-volume check, then
   * the static blacklists; the first failing check decides.
   */
  function Screen(coins: set<string>, devs: set<string>, p: Pair, rug: RugReport, fakeVolume: bool): (v: Screening)
    ensures v.Rejects() <==> !rug.isGood || rug.isBundle || fakeVolume || IsListed(coins, devs, p)
    ensures v.Blacklists() ==> rug.isBundle || fakeVolume
  {
    if !rug.isGood || rug.isBundle then
      if rug.isBundle then Bundled else NotGood
    else if fakeVolume then FakeVolume
    else if IsListed(coins, devs, p) then Listed
    else Clean
  }

  /** Each outcome of the screening, characterised by the inputs that produce it. */
  lemma ScreenOutcomes(coins: set<string>, devs: set<string>, p: Pair, rug: RugReport, fakeVolume: bool)
    ensures var v := Screen(coins, devs, p, rug, fakeVolume);
      && (v == Bundled <==> rug.isBundle)
      && (v == NotGood <==> !rug.isBundle && !rug.isGood)
      && (v == FakeVolume <==> rug.isGood && !rug.isBundle && fakeVolume)
      && (v == Listed <==> rug.isGood && !rug.isBundle && !fakeVolume && IsListed(coins, devs, p))
      && (v == Clean <==> rug.isGood && !rug.isBundle && !fakeVolume && !IsListed(coins, devs, p))
      && (v.Blacklists() <==> rug.isBundle || (rug.isGood && fakeVolume))
  {
  }

  /** The fake-volume answer matters only once the rug check has passed. */
  lemma FakeVolumeAfterRugCheck(coins: set<string>, devs: set<string>, p: Pair, rug: RugReport)
    requires !rug.isGood || rug.isBundle
    ensures Screen(coins, devs, p, rug, true) == Screen(coins, devs, p, rug, false)
    ensures Screen(coins, devs, p, rug, true).Rejects()
  {
  }

  /** The blacklists are consulted only after both oracles pass. */
  lemma ListsAfterOracles(coins: set<string>, devs: set<string>, coins': set<string>, devs': set<string>,
                          p: Pair, rug: RugReport, fakeVolume: bool)
    requires !rug.isGood || rug.isBundle || fakeVolume
    ensures Screen(coins, devs, p, rug, fakeVolume) == Screen(coins', devs', p, rug, fakeVolume)
  {
  }

  /** An empty developer address never matches the developer blacklist. */
  lemma EmptyDevNeverListed(coins: set<string>, devs: set<string>, p: Pair)
    requires p.devAddress == ""
    ensures IsListed(coins, devs, p) <==> Upper(p.baseSymbol) in coins || Upper(p.quoteSymbol) in coins
  {
  }

  /** `meets_filters`: enough liquidity and enough 24-hour volume. */
  function MeetsFilters(cfg: Filters, p: Pair): (ok: bool)
  {
    p.liquidityUsd >= cfg.minLiquidityThreshold && p.volume24h >= cfg.minVolume24h
  }

  datatype Status = Pump | Rug | Normal

  /** The classifier of `analyze_pair`. */
  function Classify(cfg: Filters, priceChange24h: real, liquidityUsd: real): (s: Status)
  {
    if priceChange24h >= cfg.pumpThreshold then Pump
    else if priceChange24h <= cfg.rugThreshold && liquidityUsd < cfg.minLiquidityThreshold then Rug
    else Normal
  }

  /** The classifier is a total three-way decision in which PUMP wins ties. */
  lemma ClassifyOrdered(cfg: Filters, change: real, liquidity: real)
    ensures var s := Classify(cfg, change, liquidity);
      && (s == Pump <==> change >= cfg.pumpThreshold)
      && (s == Rug <==> change < cfg.pumpThreshold && change <= cfg.rugThreshold
                        && liquidity < cfg.minLiquidityThreshold)
      && (s == Normal <==> change < cfg.pumpThreshold
                           && (change > cfg.rugThreshold || liquidity >= cfg.minLiquidityThreshold))
  {
  }

  /** The analysis record `analyze_pair` builds. Symbols and developer address are kept as the feed gave them. */
  datatype Analysis = Analysis(
    pairAddress: string,
    chainId: string,
    baseToken: string,
    quoteToken: string,
    devAddress: string,
    priceUsd: real,
    liquidityUsd: real,
    volume24h: real,
    priceChange24h: real,
    createdAt: int,
    status: Status)

  /** The analysis of a pair that passed the filters; `nowMs` stands for the clock read when `pairCreatedAt` is missing. */
  function Describe(cfg: Filters, p: Pair, nowMs: int): (a: Analysis)
    ensures a.pairAddress == p.pairAddress && a.chainId == p.chainId
    ensures a.baseToken == p.baseSymbol && a.quoteToken == p.quoteSymbol && a.devAddress == p.devAddress
    ensures a.priceUsd == p.priceUsd && a.liquidityUsd == p.liquidityUsd
    ensures a.volume24h == p.volume24h && a.priceChange24h == p.priceChange24h
    ensures a.createdAt == (if p.pairCreatedAt.Some? then p.pairCreatedAt.value else nowMs)
  {
    Analysis(p.pairAddress, p.chainId, p.baseSymbol, p.quoteSymbol, p.devAddress,
             p.priceUsd, p.liquidityUsd, p.volume24h, p.priceChange24h,
             if p.pairCreatedAt.Some? then p.pairCreatedAt.value else nowMs,
             Classify(cfg, p.priceChange24h, p.liquidityUsd))
  }

  /**
   * `analyze_pair`: no analysis for a pair the screening rejects or that
   * misses a threshold. A pair that gets an analysis has at least the
   * minimum liquidity, so its status is never RUG.
   */
  function Analyze(cfg: Filters, coins: set<string>, devs: set<string>, p: Pair,
                   rug: RugReport, fakeVolume: bool, nowMs: int): (r: Option<Analysis>)
    ensures r.Some? <==> !Screen(coins, devs, p, rug, fakeVolume).Rejects() && MeetsFilters(cfg, p)
    ensures r.Some? ==> r.value.liquidityUsd >= cfg.minLiquidityThreshold && r.value.volume24h >= cfg.minVolume24h
    ensures r.Some? ==> r.value.status != Rug
    ensures r.Some? ==> (r.value.status == Pump <==> p.priceChange24h >= cfg.pumpThreshold)
  {
    if Screen(coins, devs, p, rug, fakeVolume).Rejects() || !MeetsFilters(cfg, p) then None
    else Some(Describe(cfg, p, nowMs))
  }

  /** A pair on a blacklist, or whose developer is, gets no analysis whatever the oracles say. */
  lemma ListedGetsNoAnalysis(cfg: Filters, coins: set<string>, devs: set<string>, p: Pair,
                             rug: RugReport, fakeVolume: bool, nowMs: int)
    requires IsListed(coins, devs, p)
    ensures Analyze(cfg, coins, devs, p, rug, fakeVolume, nowMs) == None
  {
  }

  datatype Action = Buy | Sell

  /** The status-to-action mapping of `trade_and_notify`. */
  function ActionFor(s: Status): (a: Option<Action>)
    ensures a == Some(Buy) <==> s == Pump
    ensures a == Some(Sell) <==> s == Rug
    ensures a == None <==> s == Normal
  {
    match s
    case Pump => Some(Buy)
    case Rug => Some(Sell)
    case Normal => None
  }

  /** The amount `run` trades with (the default argument of `trade_and_notify`). */
  const DefaultAmount: real := 0.1

  /** A trade request sent to the trading bot. */
  datatype TradeOrder = TradeOrder(action: Action, pairAddress: string, amount: real)

  /** The trade `trade_and_notify` requests for a pair; never a sell. */
  function OrderFor(cfg: Filters, coins: set<string>, devs: set<string>, p: Pair,
                    rug: RugReport, fakeVolume: bool, nowMs: int, amount: real): (o: Option<TradeOrder>)
    ensures o.Some? ==> o.value == TradeOrder(Buy, p.pairAddress, amount)
    ensures o.Some? <==> !Screen(coins, devs, p, rug, fakeVolume).Rejects() && MeetsFilters(cfg, p)
                         && p.priceChange24h >= cfg.pumpThreshold
  {
    var a := Analyze(cfg, coins, devs, p, rug, fakeVolume, nowMs);
    if a.None? then None
    else
      match ActionFor(a.value.status)
      case None => None
      case Some(act) => Some(TradeOrder(act, a.value.pairAddress, amount))
  }
}
