/**
 * The bot's state as a value, and what one call of `trade_and_notify` and
 * one pass of `run` over a batch do to it. Everything the outside world
 * supplies for one pair (the feed record, the oracle answers, the trade
 * result and the clock readings) is an Observation.
 */
module Cycle {
  import opened Text
  import opened Settings
  import opened Pipeline
  import opened Store
  import opened Patterns

  /** The in-memory blacklists and the two tables. */
  datatype BotState = BotState(
    coins: set<string>,
    devs: set<string>,
    table: Table,
    history: seq<HistoryEntry>)

  /**
   * What the world answers while one pair is processed: the rug-check and
   * fake-volume oracles, the trading bot, and the three clock readings
   * (milliseconds for a missing creation time, seconds for `last_updated`
   * and for the history row).
   */
  datatype Observation = Observation(
    pair: Pair,
    rug: RugReport,
    fakeVolume: bool,
    tradeOk: bool,
    nowMs: int,
    recordTime: int,
    historyTime: int)

  /** The side effects of `is_blacklisted`: growing the coin blacklist and flagging an existing row. */
  function AfterScreen(s: BotState, p: Pair, v: Screening): (r: BotState)
    ensures r.devs == s.devs && r.history == s.history
    ensures r.coins == s.coins + (if v.Blacklists() then {Upper(p.baseSymbol)} else {})
    ensures r.table.Keys == s.table.Keys
    ensures !v.Blacklists() ==> r == s
    ensures v == Bundled ==> r.table == MarkBundle(s.table, p.pairAddress)
    ensures v == FakeVolume ==> r.table == MarkFakeVolume(s.table, p.pairAddress)
  {
    match v
    case Bundled => s.(coins := s.coins + {Upper(p.baseSymbol)}, table := MarkBundle(s.table, p.pairAddress))
    case FakeVolume => s.(coins := s.coins + {Upper(p.baseSymbol)}, table := MarkFakeVolume(s.table, p.pairAddress))
    case _ => s
  }

  /** `save_to_database`: the upsert and exactly one appended history row. */
  function Save(s: BotState, a: Analysis, recordTime: int, historyTime: int): (r: BotState)
    ensures r.coins == s.coins && r.devs == s.devs
    ensures r.table == Upsert(s.table, a, recordTime)
    ensures r.history == s.history + [EntryFor(a, historyTime)]
  {
    s.(table := Upsert(s.table, a, recordTime), history := s.history + [EntryFor(a, historyTime)])
  }

  function ScreenOf(s: BotState, o: Observation): Screening {
    Screen(s.coins, s.devs, o.pair, o.rug, o.fakeVolume)
  }

  function AnalysisOf(cfg: Filters, s: BotState, o: Observation): Option<Analysis> {
    Analyze(cfg, s.coins, s.devs, o.pair, o.rug, o.fakeVolume, o.nowMs)
  }

  /** Whether `trade_and_notify` reaches `save_to_database`: an analysis, an action, and a successful trade. */
  predicate Persists(cfg: Filters, s: BotState, o: Observation) {
    var a := AnalysisOf(cfg, s, o);
    a.Some? && ActionFor(a.value.status).Some? && o.tradeOk
  }

  /** `trade_and_notify` for one pair. */
  function Step(cfg: Filters, s: BotState, o: Observation): BotState
  {
    var s1 := AfterScreen(s, o.pair, ScreenOf(s, o));
    if Persists(cfg, s, o) then Save(s1, AnalysisOf(cfg, s, o).value, o.recordTime, o.historyTime)
    else s1
  }

  /** Only a successful buy of a pair at or above the pump threshold is saved, and it is saved as a PUMP. */
  lemma PersistsOnlyPumps(cfg: Filters, s: BotState, o: Observation)
    ensures Persists(cfg, s, o) <==>
      && !ScreenOf(s, o).Rejects() && MeetsFilters(cfg, o.pair)
      && o.pair.priceChange24h >= cfg.pumpThreshold && o.tradeOk
    ensures Persists(cfg, s, o) ==> AnalysisOf(cfg, s, o).value.status == Pump
  {
  }

  /**
   * A step that saves upserts the analysis into the table as it stood before
   * the call, and the pair's row ends up a PUMP row holding that analysis.
   */
  lemma StepSaves(cfg: Filters, s: BotState, o: Observation)
    requires Persists(cfg, s, o)
    ensures Step(cfg, s, o).table == Upsert(s.table, AnalysisOf(cfg, s, o).value, o.recordTime)
    ensures var r := Step(cfg, s, o).table[o.pair.pairAddress];
      r.status == Pump && Observed(r, AnalysisOf(cfg, s, o).value, o.recordTime)
  {
    PersistsOnlyPumps(cfg, s, o);
  }

  /** A step appends one history row when it saves and none otherwise, and never alters earlier rows. */
  lemma StepHistory(cfg: Filters, s: BotState, o: Observation)
    ensures Persists(cfg, s, o) ==>
      Step(cfg, s, o).history == s.history + [EntryFor(AnalysisOf(cfg, s, o).value, o.historyTime)]
    ensures !Persists(cfg, s, o) ==> Step(cfg, s, o).history == s.history
  {
  }

  /**
   * A step that does not save creates no row and rewrites no column except
   * the two flags of the pair's own row.
   */
  lemma StepWithoutSave(cfg: Filters, s: BotState, o: Observation)
    requires !Persists(cfg, s, o)
    ensures var r := Step(cfg, s, o).table;
      && r.Keys == s.table.Keys
      && (forall k :: k in s.table && k != o.pair.pairAddress ==> r[k] == s.table[k])
      && (o.pair.pairAddress in s.table ==>
            r[o.pair.pairAddress].(isBundle := s.table[o.pair.pairAddress].isBundle,
                                   hasFakeVolume := s.table[o.pair.pairAddress].hasFakeVolume)
            == s.table[o.pair.pairAddress])
  {
  }

  /** A listed pair that passes both oracles changes nothing. */
  lemma ListedPairChangesNothing(cfg: Filters, s: BotState, o: Observation)
    requires o.rug.isGood && !o.rug.isBundle && !o.fakeVolume
    requires IsListed(s.coins, s.devs, o.pair)
    ensures Step(cfg, s, o) == s
  {
  }

  /**
   * The rug check marks a bundled pair's row and the fake-volume check
   * marks a fake-volume pair's row; neither creates one.
   */
  lemma StepFlags(cfg: Filters, s: BotState, o: Observation)
    ensures var v := ScreenOf(s, o); var r := Step(cfg, s, o).table; var k := o.pair.pairAddress;
      && (v == Bundled && k in s.table ==> r[k] == s.table[k].(isBundle := true))
      && (v == FakeVolume && k in s.table ==> r[k] == s.table[k].(hasFakeVolume := true))
      && (v.Blacklists() && k !in s.table ==> r == s.table)
  {
  }

  /** The coin blacklist only grows, by at most the pair's upper-cased base token; the developer blacklist never changes. */
  lemma StepBlacklists(cfg: Filters, s: BotState, o: Observation)
    ensures var r := Step(cfg, s, o);
      && r.devs == s.devs
      && r.coins == s.coins + (if ScreenOf(s, o).Blacklists() then {Upper(o.pair.baseSymbol)} else {})
  {
  }

  /** Whether `t2` keeps every row of `t1` with its identity columns and its initial price. */
  predicate Keeps(t1: Table, t2: Table) {
    forall k :: k in t1 ==> k in t2 && SameIdentity(t2[k], t1[k])
  }

  lemma StepKeeps(cfg: Filters, s: BotState, o: Observation)
    ensures Keeps(s.table, Step(cfg, s, o).table)
  {
  }

  /** Whether `t2` keeps every row of `t1`, and every flag set in `t1` is still set in `t2`. */
  predicate FlagsKept(t1: Table, t2: Table) {
    forall k :: k in t1 ==> k in t2 && (t1[k].isBundle ==> t2[k].isBundle) && (t1[k].hasFakeVolume ==> t2[k].hasFakeVolume)
  }

  /** No call clears a flag: the screening only ever sets one, and a save keeps both. */
  lemma StepFlagsKept(cfg: Filters, s: BotState, o: Observation)
    ensures FlagsKept(s.table, Step(cfg, s, o).table)
  {
  }

  /** The steps preserve a table of PUMP rows that reached the pump threshold. */
  lemma StepPumpOnly(cfg: Filters, s: BotState, o: Observation)
    requires PumpOnly(cfg, s.table)
    ensures PumpOnly(cfg, Step(cfg, s, o).table)
  {
    PersistsOnlyPumps(cfg, s, o);
  }

  /** `new_tokens[:50]`. */
  const BatchLimit: nat := 50

  function Batch(feed: seq<Observation>): (b: seq<Observation>)
    ensures |b| <= BatchLimit
    ensures |b| == if |feed| < BatchLimit then |feed| else BatchLimit
    ensures b == feed[..|b|]
  {
    if |feed| <= BatchLimit then feed else feed[..BatchLimit]
  }

  /** The pairs of a batch, processed in order. */
  function ProcessBatch(cfg: Filters, s: BotState, batch: seq<Observation>): BotState
    decreases |batch|
  {
    if batch == [] then s
    else Step(cfg, ProcessBatch(cfg, s, batch[..|batch| - 1]), batch[|batch| - 1])
  }

  /** The trade request one step sends, judged against the state before the step. */
  function OrderOf(cfg: Filters, s: BotState, o: Observation, amount: real): Option<TradeOrder> {
    OrderFor(cfg, s.coins, s.devs, o.pair, o.rug, o.fakeVolume, o.nowMs, amount)
  }

  /**
   * The trade requests of a batch, in order: each pair's request against
   * the state the earlier pairs of the batch left. Every request is a buy
   * of the pair it came from, one at most per pair.
   */
  function Orders(cfg: Filters, s: BotState, batch: seq<Observation>, amount: real): (r: seq<TradeOrder>)
    ensures |r| <= |batch|
    ensures forall i :: 0 <= i < |r| ==> r[i].action == Buy && r[i].amount == amount
    ensures forall i :: 0 <= i < |r| ==> exists j :: 0 <= j < |batch| && r[i].pairAddress == batch[j].pair.pairAddress
    decreases |batch|
  {
    if batch == [] then []
    else
      var prev := batch[..|batch| - 1];
      var o := batch[|batch| - 1];
      var earlier := Orders(cfg, s, prev, amount);
      assert forall i :: 0 <= i < |earlier| ==> exists j :: 0 <= j < |batch| && earlier[i].pairAddress == batch[j].pair.pairAddress by {
        forall i | 0 <= i < |earlier|
          ensures exists j :: 0 <= j < |batch| && earlier[i].pairAddress == batch[j].pair.pairAddress
        {
          var j :| 0 <= j < |prev| && earlier[i].pairAddress == prev[j].pair.pairAddress;
          assert prev[j] == batch[j];
        }
      }
      match OrderOf(cfg, ProcessBatch(cfg, s, prev), o, amount)
      case None => earlier
      case Some(order) => earlier + [order]
  }

  /** A request is added exactly for a pair that passes screening and the thresholds and reaches the pump threshold. */
  lemma OrdersStep(cfg: Filters, s: BotState, batch: seq<Observation>, o: Observation, amount: real)
    ensures var mid := ProcessBatch(cfg, s, batch);
      Orders(cfg, s, batch + [o], amount) ==
        Orders(cfg, s, batch, amount) +
        (if !ScreenOf(mid, o).Rejects() && MeetsFilters(cfg, o.pair) && o.pair.priceChange24h >= cfg.pumpThreshold
         then [TradeOrder(Buy, o.pair.pairAddress, amount)] else [])
  {
    assert (batch + [o])[..|batch + [o]| - 1] == batch;
  }

  /**
   * Over a batch the history only gains rows at its end, at most one per
   * pair; the coin blacklist only grows; the developer blacklist is never
   * changed; no row is dropped and no initial price is overwritten.
   */
  lemma {:induction false} BatchMonotone(cfg: Filters, s: BotState, batch: seq<Observation>)
    ensures var r := ProcessBatch(cfg, s, batch);
      && |s.history| <= |r.history| <= |s.history| + |batch|
      && r.history[..|s.history|] == s.history
      && s.coins <= r.coins
      && r.devs == s.devs
      && Keeps(s.table, r.table)
    decreases |batch|
  {
    if batch != [] {
      var mid := ProcessBatch(cfg, s, batch[..|batch| - 1]);
      BatchMonotone(cfg, s, batch[..|batch| - 1]);
      var o := batch[|batch| - 1];
      StepHistory(cfg, mid, o);
      StepBlacklists(cfg, mid, o);
      StepKeeps(cfg, mid, o);
      var r := Step(cfg, mid, o);
      assert r.history[..|mid.history|] == mid.history;
      assert r.history[..|s.history|] == mid.history[..|s.history|];
    }
  }

  /** Over a batch, no row is dropped and no flag, once set, is cleared. */
  lemma {:induction false} BatchFlagsKept(cfg: Filters, s: BotState, batch: seq<Observation>)
    ensures FlagsKept(s.table, ProcessBatch(cfg, s, batch).table)
    decreases |batch|
  {
    if batch != [] {
      var mid := ProcessBatch(cfg, s, batch[..|batch| - 1]);
      BatchFlagsKept(cfg, s, batch[..|batch| - 1]);
      StepFlagsKept(cfg, mid, batch[|batch| - 1]);
    }
  }

  /** A store that holds only PUMP rows keeps holding only PUMP rows, whatever the batch. */
  lemma {:induction false} BatchPumpOnly(cfg: Filters, s: BotState, batch: seq<Observation>)
    requires PumpOnly(cfg, s.table)
    ensures PumpOnly(cfg, ProcessBatch(cfg, s, batch).table)
    decreases |batch|
  {
    if batch != [] {
      BatchPumpOnly(cfg, s, batch[..|batch| - 1]);
      StepPumpOnly(cfg, ProcessBatch(cfg, s, batch[..|batch| - 1]), batch[|batch| - 1]);
    }
  }

  /** Whether no row of the table is a RUG. */
  ghost predicate RugFree(t: Table) {
    forall k :: k in t ==> t[k].status != Rug
  }

  /**
   * A table without RUG rows keeps having none over any batch, under any
   * configuration: the configuration may change between passes (the bot
   * re-reads it at every start) and the table survives restarts.
   */
  lemma {:induction false} BatchRugFree(cfg: Filters, s: BotState, batch: seq<Observation>)
    requires RugFree(s.table)
    ensures RugFree(ProcessBatch(cfg, s, batch).table)
    decreases |batch|
  {
    if batch != [] {
      BatchRugFree(cfg, s, batch[..|batch| - 1]);
      PersistsOnlyPumps(cfg, ProcessBatch(cfg, s, batch[..|batch| - 1]), batch[|batch| - 1]);
    }
  }

  /** A table without RUG rows has no rug pattern. */
  lemma RugFreeHasNoRugs(t: Table, token: string)
    requires RugFree(t)
    ensures RugCount(t, token) == 0
  {
    assert Matching(t, t.Keys, Rug, token) == {};
  }

  /**
   * Starting from a store without RUG rows (an empty one, say), no batch
   * ever leaves one, so the rug-pattern query finds no token.
   */
  lemma NoRugPatternFromRugFreeStore(cfg: Filters, s: BotState, batch: seq<Observation>, token: string)
    requires RugFree(s.table)
    ensures RugCount(ProcessBatch(cfg, s, batch).table, token) == 0
  {
    BatchRugFree(cfg, s, batch);
    RugFreeHasNoRugs(ProcessBatch(cfg, s, batch).table, token);
  }

  /**
   * Starting from a store whose rows are all PUMP rows at or above the pump
   * threshold (an empty one, or one left by earlier passes under the same
   * configuration), a base token's PUMP rows always average at least the
   * pump threshold, and the pump-pattern query reports the token exactly
   * when one of its rows is strictly above it.
   */
  lemma PumpPatternFromPumpOnlyStore(cfg: Filters, s: BotState, batch: seq<Observation>, token: string)
    requires PumpOnly(cfg, s.table)
    ensures var t := ProcessBatch(cfg, s, batch).table;
      PumpCount(t, token) > 0 ==>
        && PumpMean(t, token) >= cfg.pumpThreshold
        && (PumpMean(t, token) > cfg.pumpThreshold <==>
              exists k :: k in t && t[k].baseToken == token && t[k].priceChange24h > cfg.pumpThreshold)
  {
    var t := ProcessBatch(cfg, s, batch).table;
    BatchPumpOnly(cfg, s, batch);
    if PumpCount(t, token) > 0 {
      PumpOnlyMeans(cfg, t, token);
    }
  }
}
