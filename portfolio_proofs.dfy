/** Properties of the ledger arithmetic: the state a new ledger starts from, the bookkeeping of
    fills, the balance between cash, holdings and the total, the mark-to-market step and the
    compounding of the equity curve. */
module PortfolioProofs {
  import opened Events
  import opened Portfolio

  // ---------------------------------------------------------------------------------------
  // Construction

  /** A new ledger holds every symbol at a zero position. */
  lemma ZeroPositionsFacts(symbols: seq<string>)
    ensures ZeroPositions(symbols, |symbols|).Keys == set s | s in symbols
    ensures forall s :: s in symbols ==> ZeroPositions(symbols, |symbols|)[s] == 0
  {
    ZeroPositionsAt(symbols, |symbols|);
    assert symbols[..|symbols|] == symbols;
  }

  /** A new ledger's holdings: every symbol at zero, the cash and the total equal to the initial
      capital, no commission paid; the first record adds a zero return and a flat curve. */
  lemma InitialHoldingsFacts(symbols: seq<string>, initialCapital: real)
    requires NoReservedSymbols(symbols)
    ensures var h := InitialHoldings(symbols, initialCapital);
            && h.Keys == (set s | s in symbols) + {HeldCash, CommissionPaid, TotalHoldings}
            && (forall s :: s in symbols ==> h[s] == 0.0)
            && h[HeldCash] == initialCapital && h[TotalHoldings] == initialCapital && h[CommissionPaid] == 0.0
    ensures var r := InitialRecord(symbols, initialCapital);
            && r.Keys == (set s | s in symbols) + {HeldCash, CommissionPaid, TotalHoldings, Returns, EquityCurve}
            && (forall s :: s in symbols ==> r[s] == 0.0)
            && r[HeldCash] == initialCapital && r[TotalHoldings] == initialCapital && r[CommissionPaid] == 0.0
            && r[Returns] == 0.0 && r[EquityCurve] == 0.0
  {
    ZeroHoldingsAt(symbols, |symbols|);
    assert symbols[..|symbols|] == symbols;
    ReservedDistinct();
  }

  // ---------------------------------------------------------------------------------------
  // Fills

  /** A fill moves only its own symbol's position: up by the quantity to buy, down to sell,
      and not at all for any other side. */
  lemma PositionsFillMovesOneSymbol(positions: map<string, int>, fill: Event)
    requires fill.Fill?
    ensures var after := PositionsAfterFill(positions, fill);
            && after.Keys == positions.Keys + {fill.symbol}
            && (forall k :: k != fill.symbol ==> Get(after, k, 0) == Get(positions, k, 0))
            && (fill.direction == "BUY" ==> after[fill.symbol] == Get(positions, fill.symbol, 0) + fill.quantity)
            && (fill.direction == "SELL" ==> after[fill.symbol] == Get(positions, fill.symbol, 0) - fill.quantity)
            && (fill.direction != "BUY" && fill.direction != "SELL" ==>
                  after[fill.symbol] == Get(positions, fill.symbol, 0))
  {
  }

  /** A fill of a non-reserved symbol moves its cost from the cash into the symbol's holding,
      charges the commission to the cash and to the total, and leaves every other key alone. */
  lemma HoldingsFillAccounting(h: map<string, real>, fill: Event, close: real)
    requires fill.Fill? && !IsReserved(fill.symbol)
    ensures var after, cost := HoldingsAfterFill(h, fill, close), FillCost(fill, close);
            && after.Keys == h.Keys + {fill.symbol, CommissionPaid, HeldCash, TotalHoldings}
            && after[fill.symbol] == Get(h, fill.symbol, 0.0) + cost
            && after[CommissionPaid] == Get(h, CommissionPaid, 0.0) + fill.commission
            && after[HeldCash] == Get(h, HeldCash, 0.0) - (cost + fill.commission)
            && after[TotalHoldings] == Get(h, TotalHoldings, 0.0) - fill.commission
            && forall k :: k in h && !IsReserved(k) && k != fill.symbol ==> after[k] == h[k]
  {
    ReservedDistinct();
  }

  /** The fill's cost is the close times the quantity, signed by the side. */
  lemma FillCostBySide(fill: Event, close: real)
    requires fill.Fill?
    ensures fill.direction == "BUY" ==> FillCost(fill, close) == close * fill.quantity as real
    ensures fill.direction == "SELL" ==> FillCost(fill, close) == -(close * fill.quantity as real)
    ensures fill.direction != "BUY" && fill.direction != "SELL" ==> FillCost(fill, close) == 0.0
  {
  }

  /** Buying and then selling the same quantity at an unchanged close restores the position and
      the symbol's holding; the cash and the total are down by the two commissions. */
  lemma BuyThenSellRestores(positions: map<string, int>, h: map<string, real>, buy: Event, sell: Event, close: real)
    requires buy.Fill? && sell.Fill? && !IsReserved(buy.symbol)
    requires buy.direction == "BUY" && sell.direction == "SELL"
    requires sell.symbol == buy.symbol && sell.quantity == buy.quantity
    ensures var p := PositionsAfterFill(PositionsAfterFill(positions, buy), sell);
            Get(p, buy.symbol, 0) == Get(positions, buy.symbol, 0)
    ensures var after := HoldingsAfterFill(HoldingsAfterFill(h, buy, close), sell, close);
            && Get(after, buy.symbol, 0.0) == Get(h, buy.symbol, 0.0)
            && Get(after, HeldCash, 0.0) == Get(h, HeldCash, 0.0) - (buy.commission + sell.commission)
            && Get(after, TotalHoldings, 0.0) == Get(h, TotalHoldings, 0.0) - (buy.commission + sell.commission)
            && Get(after, CommissionPaid, 0.0) == Get(h, CommissionPaid, 0.0) + (buy.commission + sell.commission)
  {
    var middle := HoldingsAfterFill(h, buy, close);
    HoldingsFillAccounting(h, buy, close);
    HoldingsFillAccounting(middle, sell, close);
    FillCostBySide(buy, close);
    FillCostBySide(sell, close);
  }

  // ---------------------------------------------------------------------------------------
  // The balance of a holdings map

  /** The holdings of the first `n` symbols, summed in list order. */
  function HoldingsSum(h: map<string, real>, symbols: seq<string>, n: nat): real
    requires n <= |symbols|
  {
    if n == 0 then 0.0 else HoldingsSum(h, symbols, n - 1) + Get(h, symbols[n - 1], 0.0)
  }

  /** The total equals the held cash plus the holdings of all symbols. */
  predicate Balanced(h: map<string, real>, symbols: seq<string>) {
    Get(h, TotalHoldings, 0.0) == Get(h, HeldCash, 0.0) + HoldingsSum(h, symbols, |symbols|)
  }

  /** How often `key` appears among the first `n` symbols. */
  function Occurrences(symbols: seq<string>, n: nat, key: string): nat
    requires n <= |symbols|
  {
    if n == 0 then 0 else Occurrences(symbols, n - 1, key) + (if symbols[n - 1] == key then 1 else 0)
  }

  /** Raising a key listed at most once by `c`, and nothing else that is listed, raises the
      sum by `c` if it is listed. */
  lemma {:induction false} HoldingsSumShift(h: map<string, real>, h': map<string, real>, symbols: seq<string>, n: nat,
                                            key: string, c: real)
    requires n <= |symbols| && Occurrences(symbols, n, key) <= 1
    requires forall s :: s in symbols ==> Get(h', s, 0.0) == Get(h, s, 0.0) + (if s == key then c else 0.0)
    ensures HoldingsSum(h', symbols, n) == HoldingsSum(h, symbols, n) + (if Occurrences(symbols, n, key) == 1 then c else 0.0)
  {
    if n > 0 {
      HoldingsSumShift(h, h', symbols, n - 1, key, c);
    }
  }

  /** When each listed symbol holds its market value, the sum is the marked-to-market sum. */
  lemma {:induction false} HoldingsSumOfMarked(h: map<string, real>, symbols: seq<string>, n: nat,
                                               positions: map<string, int>, latest: Frame)
    requires n <= |symbols|
    requires forall s :: s in symbols ==> Get(h, s, 0.0) == MarketValue(positions, latest, s)
    ensures HoldingsSum(h, symbols, n) == SumValues(symbols, n, positions, latest)
  {
    if n > 0 {
      HoldingsSumOfMarked(h, symbols, n - 1, positions, latest);
    }
  }

  /** A new ledger is balanced. */
  lemma InitialBalanced(symbols: seq<string>, initialCapital: real)
    requires NoReservedSymbols(symbols)
    ensures Balanced(InitialHoldings(symbols, initialCapital), symbols)
  {
    var h := InitialHoldings(symbols, initialCapital);
    InitialHoldingsFacts(symbols, initialCapital);
    HoldingsSumOfMarked(h, symbols, |symbols|, map[], Frame(0, map[]));
    SumOfNothingHeld(symbols, |symbols|, Frame(0, map[]));
  }

  lemma {:induction false} SumOfNothingHeld(symbols: seq<string>, n: nat, latest: Frame)
    requires n <= |symbols|
    ensures SumValues(symbols, n, map[], latest) == 0.0
  {
    if n > 0 {
      SumOfNothingHeld(symbols, n - 1, latest);
    }
  }

  /** A fill of a symbol listed exactly once keeps the ledger balanced: the cost moves between
      the cash and the holding, and the commission leaves the cash and the total alike. */
  lemma FillPreservesBalance(h: map<string, real>, symbols: seq<string>, fill: Event, close: real)
    requires NoReservedSymbols(symbols) && fill.Fill? && Occurrences(symbols, |symbols|, fill.symbol) == 1
    requires Balanced(h, symbols)
    ensures Balanced(HoldingsAfterFill(h, fill, close), symbols)
  {
    var after, cost := HoldingsAfterFill(h, fill, close), FillCost(fill, close);
    OccurringIsListed(symbols, |symbols|, fill.symbol);
    HoldingsFillAccounting(h, fill, close);
    FillShiftsHoldings(h, fill, close);
    HoldingsSumShift(h, after, symbols, |symbols|, fill.symbol, cost);
  }

  /** Among the keys that are not reserved, a fill raises only its own symbol's holding, by
      its cost. */
  lemma FillShiftsHoldings(h: map<string, real>, fill: Event, close: real)
    requires fill.Fill? && !IsReserved(fill.symbol)
    ensures var after, cost := HoldingsAfterFill(h, fill, close), FillCost(fill, close);
            forall k :: !IsReserved(k) ==> Get(after, k, 0.0) == Get(h, k, 0.0) + (if k == fill.symbol then cost else 0.0)
  {
    HoldingsFillAccounting(h, fill, close);
  }

  lemma {:induction false} OccurringIsListed(symbols: seq<string>, n: nat, key: string)
    requires n <= |symbols| && Occurrences(symbols, n, key) > 0
    ensures key in symbols
  {
    if symbols[n - 1] != key {
      OccurringIsListed(symbols, n - 1, key);
    }
  }

  // ---------------------------------------------------------------------------------------
  // Mark to market

  /** Marking writes every listed symbol's market value. */
  lemma MarkedValues(base: map<string, real>, symbols: seq<string>, positions: map<string, int>, latest: Frame)
    ensures forall s :: s in symbols ==> Get(Marked(base, symbols, |symbols|, positions, latest), s, 0.0)
                                            == MarketValue(positions, latest, s)
  {
    MarkedAt(base, symbols, |symbols|, positions, latest);
    assert symbols[..|symbols|] == symbols;
  }

  /** After the tick every symbol holds its position times the latest close, the cash and the
      commission are unchanged, and the total is the cash plus those market values. */
  lemma TickBalancesCurrent(h: map<string, real>, symbols: seq<string>, positions: map<string, int>, latest: Frame)
    requires NoReservedSymbols(symbols)
    ensures var after := TickedHoldings(h, symbols, positions, latest);
            && (forall s :: s in symbols ==> Get(after, s, 0.0) == MarketValue(positions, latest, s))
            && Get(after, HeldCash, 0.0) == Get(h, HeldCash, 0.0)
            && Get(after, CommissionPaid, 0.0) == Get(h, CommissionPaid, 0.0)
            && Get(after, TotalHoldings, 0.0) == Get(h, HeldCash, 0.0) + SumValues(symbols, |symbols|, positions, latest)
            && Balanced(after, symbols)
  {
    var after := TickedHoldings(h, symbols, positions, latest);
    MarkedValues(h, symbols, positions, latest);
    ReservedNotMarked(h, symbols, positions, latest);
    ReservedDistinct();
    assert forall s :: s in symbols ==> Get(after, s, 0.0) == MarketValue(positions, latest, s);
    HoldingsSumOfMarked(after, symbols, |symbols|, positions, latest);
  }

  /** The record at the bar's timestamp agrees with the marked record everywhere except,
      possibly, at the return and the curve. */
  lemma TickedRecordIsMarked(history: map<int, map<string, real>>, h: map<string, real>, symbols: seq<string>,
                             positions: map<string, int>, latest: Frame)
    requires history != map[] && TickDefined(history, latest)
    ensures var record := TickedHoldingsHistory(history, h, symbols, positions, latest)[latest.time];
            var marked := MarkedRecord(Entry(history, latest.time), h, symbols, positions, latest);
            forall k :: k != Returns && k != EquityCurve ==> Get(record, k, 0.0) == Get(marked, k, 0.0)
  {
  }

  /** The record `update_timeindex` writes at the bar's timestamp holds every symbol's market
      value, the current cash and commission, and as its total the cash plus those values. */
  lemma MarkedRecordBalances(entry: map<string, real>, h: map<string, real>, symbols: seq<string>,
                             positions: map<string, int>, latest: Frame)
    requires NoReservedSymbols(symbols)
    ensures var marked := MarkedRecord(entry, h, symbols, positions, latest);
            && (forall s :: s in symbols ==> Get(marked, s, 0.0) == MarketValue(positions, latest, s))
            && Get(marked, HeldCash, 0.0) == Get(h, HeldCash, 0.0)
            && Get(marked, CommissionPaid, 0.0) == Get(h, CommissionPaid, 0.0)
            && Get(marked, TotalHoldings, 0.0) == Get(h, HeldCash, 0.0) + SumValues(symbols, |symbols|, positions, latest)
  {
    MarkedValues(entry, symbols, positions, latest);
    ReservedDistinct();
  }

  /** After the tick the record at the bar's timestamp holds every symbol's market value, the
      cash and the commission, and is balanced; the positions record holds every position. */
  lemma TickBalancesRecord(positionsHistory: map<int, map<string, int>>, history: map<int, map<string, real>>,
                           h: map<string, real>, symbols: seq<string>, positions: map<string, int>, latest: Frame)
    requires NoReservedSymbols(symbols) && history != map[] && TickDefined(history, latest)
    ensures var record := TickedHoldingsHistory(history, h, symbols, positions, latest)[latest.time];
            && (forall s :: s in symbols ==> Get(record, s, 0.0) == MarketValue(positions, latest, s))
            && Get(record, HeldCash, 0.0) == Get(h, HeldCash, 0.0)
            && Get(record, CommissionPaid, 0.0) == Get(h, CommissionPaid, 0.0)
            && Get(record, TotalHoldings, 0.0) == Get(h, HeldCash, 0.0) + SumValues(symbols, |symbols|, positions, latest)
            && Balanced(record, symbols)
    ensures var recorded := TickedPositionsHistory(positionsHistory, symbols, positions, latest)[latest.time];
            forall s :: s in symbols ==> Get(recorded, s, 0) == Get(positions, s, 0)
  {
    var record := TickedHoldingsHistory(history, h, symbols, positions, latest)[latest.time];
    TickedRecordIsMarked(history, h, symbols, positions, latest);
    MarkedRecordBalances(Entry(history, latest.time), h, symbols, positions, latest);
    ReservedDistinct();
    assert forall s :: s in symbols ==> Get(record, s, 0.0) == MarketValue(positions, latest, s);
    HoldingsSumOfMarked(record, symbols, |symbols|, positions, latest);
    RecordedAt(Entry(positionsHistory, latest.time), symbols, |symbols|, positions);
    assert symbols[..|symbols|] == symbols;
  }

  // ---------------------------------------------------------------------------------------
  // The equity curve

  /** Once the history holds a second timestamp, the new record's return is its total against
      the latest earlier total, and its curve compounds that return onto the earlier curve. */
  lemma CurveStep(history: map<int, map<string, real>>, h: map<string, real>, symbols: seq<string>,
                  positions: map<string, int>, latest: Frame)
    requires history != map[] && TickDefined(history, latest)
    requires |history.Keys + {latest.time}| > 1
    ensures var record := TickedHoldingsHistory(history, h, symbols, positions, latest)[latest.time];
            var previous := history[MaxKey(history.Keys)];
            && record[Returns] == record[TotalHoldings] / Get(previous, TotalHoldings, 0.0) - 1.0
            && record[EquityCurve] == (Get(previous, EquityCurve, 0.0) + 1.0) * (record[Returns] + 1.0) - 1.0
  {
    ReservedDistinct();
  }

  /** When the history held only the bar's own timestamp, its record is overwritten but its
      return and curve are left as they were. */
  lemma NoCurveStepAtSingleDate(history: map<int, map<string, real>>, h: map<string, real>, symbols: seq<string>,
                                positions: map<string, int>, latest: Frame)
    requires NoReservedSymbols(symbols) && history != map[] && TickDefined(history, latest)
    requires |history.Keys + {latest.time}| <= 1
    ensures var record := TickedHoldingsHistory(history, h, symbols, positions, latest)[latest.time];
            var entry := Entry(history, latest.time);
            && Get(record, Returns, 0.0) == Get(entry, Returns, 0.0)
            && Get(record, EquityCurve, 0.0) == Get(entry, EquityCurve, 0.0)
  {
    ReservedDistinct();
    ReservedNotMarked(Entry(history, latest.time), symbols, positions, latest);
  }

  /** The curve after a run of period rs, starting from `start`. */
  function Compounded(start: real, rs: seq<real>): real {
    if rs == [] then start
    else NextCurve(Compounded(start, rs[..|rs| - 1]), rs[|rs| - 1])
  }

  /** The product of one plus each period return. */
  function Growth(rs: seq<real>): real {
    if rs == [] then 1.0 else Growth(rs[..|rs| - 1]) * (1.0 + rs[|rs| - 1])
  }

  /** Starting from a flat curve, the curve is the compounded growth less one. */
  lemma {:induction false} CompoundedIsGrowth(rs: seq<real>)
    ensures Compounded(0.0, rs) == Growth(rs) - 1.0
  {
    if rs != [] {
      var init, r := rs[..|rs| - 1], rs[|rs| - 1];
      CompoundedIsGrowth(init);
      var g := Growth(init);
      assert Compounded(0.0, rs) == (g - 1.0 + 1.0) * (r + 1.0) - 1.0;
      assert g * (1.0 + r) == (g - 1.0 + 1.0) * (r + 1.0);
    }
  }

  lemma DivideChain(a: real, b: real, c: real)
    requires a != 0.0 && c != 0.0
    ensures (a / c) * (b / a) == b / c
  {
    var x, y := a / c, b / a;
    assert x * c == a;
    assert y * a == b;
    assert (x * y) * c == y * (x * c);
  }

  /** A curve that stands at the total's growth over a base total keeps doing so after a step:
      the curve measures the growth of the total since the base. */
  lemma CurveTracksTotal(previousTotal: real, previousCurve: real, total: real, base: real)
    requires base != 0.0 && previousTotal != 0.0
    requires previousCurve + 1.0 == previousTotal / base
    ensures NextCurve(previousCurve, PeriodReturn(total, previousTotal)) + 1.0 == total / base
  {
    DivideChain(previousTotal, total, base);
    assert (total / previousTotal - 1.0) + 1.0 == total / previousTotal;
  }

  /** The curve tracking survives a tick of the ledger. */
  lemma TickTracksTotal(history: map<int, map<string, real>>, h: map<string, real>, symbols: seq<string>,
                        positions: map<string, int>, latest: Frame, base: real)
    requires history != map[] && TickDefined(history, latest) && base != 0.0
    requires |history.Keys + {latest.time}| > 1
    requires var previous := history[MaxKey(history.Keys)];
             Get(previous, EquityCurve, 0.0) + 1.0 == Get(previous, TotalHoldings, 0.0) / base
    ensures var record := TickedHoldingsHistory(history, h, symbols, positions, latest)[latest.time];
            record[EquityCurve] + 1.0 == record[TotalHoldings] / base
  {
    var record := TickedHoldingsHistory(history, h, symbols, positions, latest)[latest.time];
    var previous := history[MaxKey(history.Keys)];
    CurveStep(history, h, symbols, positions, latest);
    CurveTracksTotal(Get(previous, TotalHoldings, 0.0), Get(previous, EquityCurve, 0.0), record[TotalHoldings], base);
  }

  // ---------------------------------------------------------------------------------------
  // Order sizing

  /** A buy signal at full strength on a flat position at 50.0 with 100000.0 recorded is
      sized at the large-order price to 1999 shares and becomes one market buy order. */
  lemma SizingExample()
    ensures CalculateQuantity(0, 50.0, 100000.0, 1.0) == 1999
    ensures NaiveOrders("TEST", CalculateQuantity(0, 50.0, 100000.0, 1.0), "ALGO")
              == [Order("TEST", "MKT", 1999, "BUY", "ALGO")]
  {
    var q := CalculateQuantity(0, 50.0, 100000.0, 1.0);
    assert q as real * 50.008 <= 100000.0 < (q + 1) as real * 50.008;
  }

  /** A half-strength signal at 100.0 with 10000.0 recorded stays in the small-order tier and
      buys 49 shares. */
  lemma SmallOrderExample()
    ensures CalculateQuantity(0, 100.0, 10000.0, 0.5) == 49
  {
    var q := CalculateQuantity(0, 100.0, 10000.0, 0.5);
    assert q as real * 100.013 <= 5000.0 < (q + 1) as real * 100.013;
  }

  /** Selling down: holding 100 shares at 10.0 with a target worth 500.0 sells 50 shares. */
  lemma SellDownExample()
    ensures CalculateQuantity(100, 10.0, 1000.0, 0.5) == -50
    ensures NaiveOrders("TEST", -50, "BENCH") == [Order("TEST", "MKT", 50, "SELL", "BENCH")]
  {
    var q := CalculateQuantity(100, 10.0, 1000.0, 0.5);
    assert q as real * 10.013 <= -500.0 < (q + 1) as real * 10.013;
  }
}
