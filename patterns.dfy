/**
 * What the two GROUP BY queries of `detect_patterns` compute, as
 * specification functions over the `token_data` table, and what they
 * report on a table in which every row is a PUMP.
 */
module Patterns {
  import opened Settings
  import opened Pipeline
  import opened Store

  /** The keys among `among` whose row has status `st` and base token `token`. */
  ghost function Matching(t: Table, among: set<string>, st: Status, token: string): set<string>
  {
    set k | k in among && k in t && t[k].status == st && t[k].baseToken == token
  }

  /** `COUNT(*)` of the RUG rows of `token`. */
  ghost function RugCount(t: Table, token: string): nat
  {
    |Matching(t, t.Keys, Rug, token)|
  }

  /** The number of PUMP rows of `token`. */
  ghost function PumpCount(t: Table, token: string): nat
  {
    |Matching(t, t.Keys, Pump, token)|
  }

  ghost function Pick(ks: set<string>): string
    requires ks != {}
  {
    var k :| k in ks; k
  }

  /** The sum of `price_change_24h` over the rows `ks`. */
  ghost function SumChange(t: Table, ks: set<string>): real
    requires ks <= t.Keys
    decreases ks
  {
    if ks == {} then 0.0
    else
      var k := Pick(ks);
      t[k].priceChange24h + SumChange(t, ks - {k})
  }

  /** `AVG(price_change_24h)` over the PUMP rows of `token`. */
  ghost function PumpMean(t: Table, token: string): real
    requires PumpCount(t, token) > 0
  {
    SumChange(t, Matching(t, t.Keys, Pump, token)) / PumpCount(t, token) as real
  }

  /** Visiting one more key adds it to the matching keys exactly when its row matches. */
  lemma MatchingAdd(t: Table, among: set<string>, k: string, st: Status, token: string)
    ensures Matching(t, among + {k}, st, token)
         == Matching(t, among, st, token) + (if k in t && t[k].status == st && t[k].baseToken == token then {k} else {})
  {
  }

  /** The sum does not depend on the order in which rows are visited. */
  lemma {:induction false} SumChangeRemove(t: Table, ks: set<string>, j: string)
    requires ks <= t.Keys && j in ks
    ensures SumChange(t, ks) == t[j].priceChange24h + SumChange(t, ks - {j})
    decreases ks
  {
    var i := Pick(ks);
    if i != j {
      SumChangeRemove(t, ks - {i}, j);
      SumChangeRemove(t, ks - {j}, i);
      assert ks - {i} - {j} == ks - {j} - {i};
    }
  }

  lemma SumChangeAdd(t: Table, ks: set<string>, k: string)
    requires ks <= t.Keys && k in t && k !in ks
    ensures SumChange(t, ks + {k}) == SumChange(t, ks) + t[k].priceChange24h
  {
    SumChangeRemove(t, ks + {k}, k);
    assert ks + {k} - {k} == ks;
  }

  /** The per-token tallies the grouping keeps while it visits the rows. */
  datatype Groups = Groups(rugCount: map<string, nat>, pumpCount: map<string, nat>, pumpSum: map<string, real>)

  function Bump(m: map<string, nat>, token: string): map<string, nat> {
    m[token := (if token in m then m[token] else 0) + 1]
  }

  function AddTo(m: map<string, real>, token: string, x: real): map<string, real> {
    m[token := (if token in m then m[token] else 0.0) + x]
  }

  /** Counting one row into its group. */
  function Visit(g: Groups, row: TokenRecord): Groups
  {
    match row.status
    case Rug => g.(rugCount := Bump(g.rugCount, row.baseToken))
    case Pump => g.(pumpCount := Bump(g.pumpCount, row.baseToken),
                    pumpSum := AddTo(g.pumpSum, row.baseToken, row.priceChange24h))
    case Normal => g
  }

  /** `count` holds, for every token, the number of rows among `done` with status `st`. */
  ghost predicate Counted(t: Table, done: set<string>, st: Status, count: map<string, nat>) {
    && (forall token :: token in count <==> Matching(t, done, st, token) != {})
    && (forall token :: token in count ==> count[token] == |Matching(t, done, st, token)|)
  }

  /** `sum` holds, for every token with a PUMP row among `done`, the sum of their price changes. */
  ghost predicate Summed(t: Table, done: set<string>, sum: map<string, real>) {
    && done <= t.Keys
    && (forall token :: token in sum <==> Matching(t, done, Pump, token) != {})
    && (forall token :: token in sum ==> sum[token] == SumChange(t, Matching(t, done, Pump, token)))
  }

  /** The tallies of `g` are those of the rows `done`. */
  ghost predicate Tallies(t: Table, done: set<string>, g: Groups) {
    && done <= t.Keys
    && Counted(t, done, Rug, g.rugCount)
    && Counted(t, done, Pump, g.pumpCount)
    && Summed(t, done, g.pumpSum)
  }

  lemma TalliesStart(t: Table)
    ensures Tallies(t, {}, Groups(map[], map[], map[]))
  {
  }

  lemma CountVisitAt(t: Table, done: set<string>, st: Status, count: map<string, nat>, k: string, token: string)
    requires Counted(t, done, st, count) && k in t && k !in done
    ensures var count' := if t[k].status == st then Bump(count, t[k].baseToken) else count;
      && (token in count' <==> Matching(t, done + {k}, st, token) != {})
      && (token in count' ==> count'[token] == |Matching(t, done + {k}, st, token)|)
  {
    MatchingAdd(t, done, k, st, token);
    var before := Matching(t, done, st, token);
    if t[k].status == st && t[k].baseToken == token {
      assert k !in before;
      assert |before + {k}| == |before| + 1;
    } else {
      assert Matching(t, done + {k}, st, token) == before;
    }
  }

  lemma CountVisit(t: Table, done: set<string>, st: Status, count: map<string, nat>, k: string)
    requires Counted(t, done, st, count) && k in t && k !in done
    ensures Counted(t, done + {k}, st, if t[k].status == st then Bump(count, t[k].baseToken) else count)
  {
    forall token
      ensures var count' := if t[k].status == st then Bump(count, t[k].baseToken) else count;
        && (token in count' <==> Matching(t, done + {k}, st, token) != {})
        && (token in count' ==> count'[token] == |Matching(t, done + {k}, st, token)|)
    {
      CountVisitAt(t, done, st, count, k, token);
    }
  }

  lemma SumVisit(t: Table, done: set<string>, sum: map<string, real>, k: string)
    requires Summed(t, done, sum) && k in t && k !in done
    ensures Summed(t, done + {k}, if t[k].status == Pump then AddTo(sum, t[k].baseToken, t[k].priceChange24h) else sum)
  {
    var sum' := if t[k].status == Pump then AddTo(sum, t[k].baseToken, t[k].priceChange24h) else sum;
    forall token
      ensures token in sum' <==> Matching(t, done + {k}, Pump, token) != {}
      ensures token in sum' ==> sum'[token] == SumChange(t, Matching(t, done + {k}, Pump, token))
    {
      MatchingAdd(t, done, k, Pump, token);
      var before := Matching(t, done, Pump, token);
      if t[k].status == Pump && t[k].baseToken == token {
        assert k !in before;
        SumChangeAdd(t, before, k);
        assert token !in sum ==> SumChange(t, before) == 0.0;
      } else {
        assert Matching(t, done + {k}, Pump, token) == before;
        assert token in sum' <==> token in sum;
      }
    }
  }

  /** Visiting a further row keeps the tallies exact. */
  lemma VisitTallies(t: Table, done: set<string>, g: Groups, k: string)
    requires Tallies(t, done, g) && k in t && k !in done
    ensures Tallies(t, done + {k}, Visit(g, t[k]))
  {
    CountVisit(t, done, Rug, g.rugCount, k);
    CountVisit(t, done, Pump, g.pumpCount, k);
    SumVisit(t, done, g.pumpSum, k);
  }

  lemma TalliesComplete(t: Table, g: Groups)
    requires Tallies(t, t.Keys, g)
    ensures forall token :: token in g.rugCount ==> g.rugCount[token] == RugCount(t, token)
    ensures forall token :: token !in g.rugCount ==> RugCount(t, token) == 0
    ensures forall token :: token in g.pumpCount ==>
      && g.pumpCount[token] == PumpCount(t, token) > 0
      && g.pumpSum[token] / g.pumpCount[token] as real == PumpMean(t, token)
    ensures forall token :: token !in g.pumpCount ==> PumpCount(t, token) == 0
  {
  }

  /** The rug-pattern report: every token counted more than once, with its count. */
  function RugPatterns(g: Groups): map<string, nat>
  {
    map token | token in g.rugCount && g.rugCount[token] > 1 :: g.rugCount[token]
  }

  /** The pump-pattern report: every token whose mean change exceeds `threshold`, with that mean. */
  function PumpPatterns(g: Groups, threshold: real): map<string, real>
    requires forall token :: token in g.pumpCount ==> token in g.pumpSum && g.pumpCount[token] > 0
  {
    map token | token in g.pumpCount && g.pumpSum[token] / g.pumpCount[token] as real > threshold
              :: g.pumpSum[token] / g.pumpCount[token] as real
  }

  /** Over complete tallies the two reports are exactly the results of the two GROUP BY queries. */
  lemma ReportsExact(t: Table, g: Groups, threshold: real)
    requires Tallies(t, t.Keys, g)
    ensures forall token :: token in g.pumpCount ==> token in g.pumpSum && g.pumpCount[token] > 0
    ensures forall token :: token in RugPatterns(g) <==> RugCount(t, token) > 1
    ensures forall token :: token in RugPatterns(g) ==> RugPatterns(g)[token] == RugCount(t, token)
    ensures forall token :: token in PumpPatterns(g, threshold) <==>
      PumpCount(t, token) > 0 && PumpMean(t, token) > threshold
    ensures forall token :: token in PumpPatterns(g, threshold) ==>
      PumpCount(t, token) > 0 && PumpPatterns(g, threshold)[token] == PumpMean(t, token)
  {
    TalliesComplete(t, g);
  }

  /** Every row is a PUMP that reached the pump threshold. */
  ghost predicate PumpOnly(cfg: Filters, t: Table) {
    forall k :: k in t ==> t[k].status == Pump && t[k].priceChange24h >= cfg.pumpThreshold
  }


  lemma ScaleStep(n: real, x: real)
    ensures (n + 1.0) * x == n * x + x
  {
  }

  /** `|ks| * floor` splits off one row's share. */
  lemma ShareStep(ks: set<string>, i: string, floor: real)
    requires i in ks
    ensures |ks| as real * floor == |ks - {i}| as real * floor + floor
  {
    assert |ks| as real == |ks - {i}| as real + 1.0;
    ScaleStep(|ks - {i}| as real, floor);
  }

  /** Over rows that all reach `floor`, the sum reaches `|ks| * floor`. */
  lemma {:induction false} SumChangeFloor(t: Table, ks: set<string>, floor: real)
    requires ks <= t.Keys
    requires forall k :: k in ks ==> t[k].priceChange24h >= floor
    ensures SumChange(t, ks) >= |ks| as real * floor
    decreases ks
  {
    if ks == {} {
      assert |ks| as real * floor == 0.0;
    } else {
      var i := Pick(ks);
      SumChangeFloor(t, ks - {i}, floor);
      ShareStep(ks, i, floor);
    }
  }

  /** Over rows that all stay at or below `ceiling`, the sum stays at or below `|ks| * ceiling`. */
  lemma {:induction false} SumChangeCeiling(t: Table, ks: set<string>, ceiling: real)
    requires ks <= t.Keys
    requires forall k :: k in ks ==> t[k].priceChange24h <= ceiling
    ensures SumChange(t, ks) <= |ks| as real * ceiling
    decreases ks
  {
    if ks == {} {
      assert |ks| as real * ceiling == 0.0;
    } else {
      var i := Pick(ks);
      SumChangeCeiling(t, ks - {i}, ceiling);
      ShareStep(ks, i, ceiling);
    }
  }

  /** The sum of `price_change_24h - floor` over the rows `ks`. */
  ghost function Excess(t: Table, ks: set<string>, floor: real): real
    requires ks <= t.Keys
    decreases ks
  {
    if ks == {} then 0.0
    else
      var k := Pick(ks);
      (t[k].priceChange24h - floor) + Excess(t, ks - {k}, floor)
  }

  /** The sum is the excess over `floor` plus `|ks| * floor`. */
  lemma {:induction false} ExcessSplit(t: Table, ks: set<string>, floor: real)
    requires ks <= t.Keys
    ensures SumChange(t, ks) == Excess(t, ks, floor) + |ks| as real * floor
    decreases ks
  {
    if ks == {} {
      assert |ks| as real * floor == 0.0;
    } else {
      var i := Pick(ks);
      ExcessSplit(t, ks - {i}, floor);
      ShareStep(ks, i, floor);
    }
  }

  /** Over rows that all reach `floor`, one row strictly above it makes the excess positive. */
  lemma {:induction false} ExcessPositive(t: Table, ks: set<string>, floor: real, k: string)
    requires ks <= t.Keys && k in ks
    requires forall j :: j in ks ==> t[j].priceChange24h >= floor
    requires t[k].priceChange24h > floor
    ensures Excess(t, ks, floor) > 0.0
    decreases ks
  {
    var i := Pick(ks);
    if i != k {
      ExcessPositive(t, ks - {i}, floor, k);
    } else {
      ExcessNonNegative(t, ks - {i}, floor);
    }
  }

  /** Over rows that all reach `floor`, the excess is not negative. */
  lemma {:induction false} ExcessNonNegative(t: Table, ks: set<string>, floor: real)
    requires ks <= t.Keys
    requires forall j :: j in ks ==> t[j].priceChange24h >= floor
    ensures Excess(t, ks, floor) >= 0.0
    decreases ks
  {
    if ks != {} {
      ExcessNonNegative(t, ks - {Pick(ks)}, floor);
    }
  }

  /** Over rows that all reach `floor`, one row strictly above it lifts the sum strictly above `|ks| * floor`. */
  lemma SumChangeStrict(t: Table, ks: set<string>, floor: real, k: string)
    requires ks <= t.Keys && k in ks
    requires forall j :: j in ks ==> t[j].priceChange24h >= floor
    requires t[k].priceChange24h > floor
    ensures SumChange(t, ks) > |ks| as real * floor
  {
    ExcessSplit(t, ks, floor);
    ExcessPositive(t, ks, floor, k);
  }

  lemma MeanAgainst(sum: real, n: real, floor: real)
    requires n > 0.0
    ensures sum / n >= floor <==> sum >= n * floor
    ensures sum / n > floor <==> sum > n * floor
  {
    assert sum == (sum / n) * n;
  }

  /**
   * On a table of PUMP rows the mean of every group reaches the pump
   * threshold, and the group is reported exactly when one of its rows
   * exceeds the threshold.
   */
  lemma PumpOnlyMeans(cfg: Filters, t: Table, token: string)
    requires PumpOnly(cfg, t) && PumpCount(t, token) > 0
    ensures PumpMean(t, token) >= cfg.pumpThreshold
    ensures PumpMean(t, token) > cfg.pumpThreshold <==>
      exists k :: k in t && t[k].baseToken == token && t[k].priceChange24h > cfg.pumpThreshold
  {
    var ks := Matching(t, t.Keys, Pump, token);
    var floor := cfg.pumpThreshold;
    SumChangeFloor(t, ks, floor);
    MeanAgainst(SumChange(t, ks), |ks| as real, floor);
    if exists k :: k in t && t[k].baseToken == token && t[k].priceChange24h > floor {
      var k :| k in t && t[k].baseToken == token && t[k].priceChange24h > floor;
      SumChangeStrict(t, ks, floor, k);
    } else {
      SumChangeCeiling(t, ks, floor);
    }
  }
}
