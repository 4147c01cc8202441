/**
 * The two SQLite tables of the bot as values: `token_data`, keyed by pair
 * address, as a map, and `price_history` as an append-only sequence; and
 * the writes the bot makes to them (`save_to_database` and the two flag
 * updates of `is_blacklisted`).
 */
module Store {
  import opened Pipeline

  /** One row of `token_data`, without its key. */
  datatype TokenRecord = TokenRecord(
    chainId: string,
    baseToken: string,
    quoteToken: string,
    devAddress: string,
    createdAt: int,
    initialPrice: real,
    currentPrice: real,
    liquidityUsd: real,
    volume24h: real,
    priceChange24h: real,
    status: Status,
    lastUpdated: int,
    hasFakeVolume: bool,
    isBundle: bool)

  /** One row of `price_history`, without its auto-increment id. */
  datatype HistoryEntry = HistoryEntry(
    pairAddress: string,
    timestamp: int,
    price: real,
    volume: real,
    liquidity: real)

  type Table = map<string, TokenRecord>

  /** Sets the `is_bundle` flag of the pair's row, if the pair has one. */
  function MarkBundle(t: Table, address: string): (r: Table)
    ensures r.Keys == t.Keys
    ensures address in t ==> r[address] == t[address].(isBundle := true)
    ensures forall k :: k in t && k != address ==> r[k] == t[k]
  {
    if address in t then t[address := t[address].(isBundle := true)] else t
  }

  /** Sets the `has_fake_volume` flag of the pair's row, if the pair has one. */
  function MarkFakeVolume(t: Table, address: string): (r: Table)
    ensures r.Keys == t.Keys
    ensures address in t ==> r[address] == t[address].(hasFakeVolume := true)
    ensures forall k :: k in t && k != address ==> r[k] == t[k]
  {
    if address in t then t[address := t[address].(hasFakeVolume := true)] else t
  }

  /** The row a first save inserts; both flags take the column default, 0. */
  function NewRecord(a: Analysis, now: int): TokenRecord
  {
    TokenRecord(a.chainId, a.baseToken, a.quoteToken, a.devAddress, a.createdAt,
                a.priceUsd, a.priceUsd, a.liquidityUsd, a.volume24h, a.priceChange24h,
                a.status, now, false, false)
  }

  /** The row a later save leaves: the six observed columns overwritten, everything else kept. */
  function Refresh(rec: TokenRecord, a: Analysis, now: int): TokenRecord
  {
    rec.(currentPrice := a.priceUsd, liquidityUsd := a.liquidityUsd, volume24h := a.volume24h,
         priceChange24h := a.priceChange24h, status := a.status, lastUpdated := now)
  }

  /** Whether two rows agree on every column a save never overwrites. */
  predicate SameIdentity(r1: TokenRecord, r2: TokenRecord) {
    && r1.chainId == r2.chainId && r1.baseToken == r2.baseToken && r1.quoteToken == r2.quoteToken
    && r1.devAddress == r2.devAddress && r1.createdAt == r2.createdAt && r1.initialPrice == r2.initialPrice
  }

  /** Whether a row holds the observation of `a`, made at `now`. */
  predicate Observed(rec: TokenRecord, a: Analysis, now: int) {
    && rec.currentPrice == a.priceUsd && rec.liquidityUsd == a.liquidityUsd
    && rec.volume24h == a.volume24h && rec.priceChange24h == a.priceChange24h
    && rec.status == a.status && rec.lastUpdated == now
  }

  /**
   * The select-then-update-or-insert of `save_to_database`. Afterwards the
   * address has exactly one row; a first save sets the initial and the
   * current price to the observed price and leaves both flags clear; a
   * later one keeps the identity columns, the initial price and both flags;
   * every other row is unchanged.
   */
  function Upsert(t: Table, a: Analysis, now: int): (r: Table)
    ensures r.Keys == t.Keys + {a.pairAddress}
    ensures forall k :: k in t && k != a.pairAddress ==> r[k] == t[k]
    ensures Observed(r[a.pairAddress], a, now)
    ensures a.pairAddress in t ==>
      && SameIdentity(r[a.pairAddress], t[a.pairAddress])
      && r[a.pairAddress].hasFakeVolume == t[a.pairAddress].hasFakeVolume
      && r[a.pairAddress].isBundle == t[a.pairAddress].isBundle
    ensures a.pairAddress !in t ==>
      && r[a.pairAddress].initialPrice == a.priceUsd
      && r[a.pairAddress].chainId == a.chainId && r[a.pairAddress].baseToken == a.baseToken
      && r[a.pairAddress].quoteToken == a.quoteToken && r[a.pairAddress].devAddress == a.devAddress
      && r[a.pairAddress].createdAt == a.createdAt
      && !r[a.pairAddress].hasFakeVolume && !r[a.pairAddress].isBundle
  {
    var address := a.pairAddress;
    if address in t then t[address := Refresh(t[address], a, now)] else t[address := NewRecord(a, now)]
  }

  /** The `price_history` row a save appends. */
  function EntryFor(a: Analysis, now: int): (e: HistoryEntry)
  {
    HistoryEntry(a.pairAddress, now, a.priceUsd, a.volume24h, a.liquidityUsd)
  }

  /** The initial price is the price of the first save, whatever the later saves observe. */
  lemma InitialPriceFrozen(t: Table, first: Analysis, later: Analysis, now1: int, now2: int)
    requires first.pairAddress !in t && later.pairAddress == first.pairAddress
    ensures var r := Upsert(Upsert(t, first, now1), later, now2)[first.pairAddress];
      r.initialPrice == first.priceUsd && r.currentPrice == later.priceUsd
  {
  }

  /** Saving the same observation twice leaves the table as one save does. */
  lemma UpsertIdempotent(t: Table, a: Analysis, now: int)
    ensures Upsert(Upsert(t, a, now), a, now) == Upsert(t, a, now)
  {
    var once := Upsert(t, a, now);
    var twice := Upsert(once, a, now);
    assert twice.Keys == once.Keys;
    assert twice[a.pairAddress] == once[a.pairAddress];
  }

  /** A save never sets either flag, so a flag is set only if it was set before. */
  lemma UpsertSetsNoFlag(t: Table, a: Analysis, now: int, k: string)
    requires k in Upsert(t, a, now)
    ensures Upsert(t, a, now)[k].isBundle ==> k in t && t[k].isBundle
    ensures Upsert(t, a, now)[k].hasFakeVolume ==> k in t && t[k].hasFakeVolume
  {
  }
}
