/** The portfolio ledger of one lane (`NaivePortfolio`): current positions and holdings,
    their histories keyed by timestamp, fill bookkeeping, naive order sizing and the
    mark-to-market step that compounds the equity curve. */
module Portfolio {
  import opened Events

  // Scalar keys stored in a holdings map beside the per-symbol market values.
  const HeldCash := "heldcash"
  const CommissionPaid := "commission"
  const TotalHoldings := "totalholdings"
  const Returns := "returns"
  const EquityCurve := "equitycurve"

  // The tiered per-share cost model of the order sizing.
  const SmallOrderShares: real := 500.0
  const SmallOrderSurcharge: real := 0.013
  const LargeOrderSurcharge: real := 0.008

  predicate IsReserved(key: string) {
    key == HeldCash || key == CommissionPaid || key == TotalHoldings || key == Returns || key == EquityCurve
  }

  /** No symbol shares its name with one of the scalar holdings keys. */
  predicate NoReservedSymbols(symbols: seq<string>) {
    forall s :: s in symbols ==> !IsReserved(s)
  }

  /** The five scalar keys are pairwise distinct. */
  lemma ReservedDistinct()
    ensures HeldCash != CommissionPaid && HeldCash != TotalHoldings && HeldCash != Returns && HeldCash != EquityCurve
    ensures CommissionPaid != TotalHoldings && CommissionPaid != Returns && CommissionPaid != EquityCurve
    ensures TotalHoldings != Returns && TotalHoldings != EquityCurve
    ensures Returns != EquityCurve
  {
    assert HeldCash[0] != CommissionPaid[0] && HeldCash[0] != TotalHoldings[0];
    assert HeldCash[0] != Returns[0] && HeldCash[0] != EquityCurve[0];
    assert CommissionPaid[0] != TotalHoldings[0] && CommissionPaid[0] != Returns[0] && CommissionPaid[0] != EquityCurve[0];
    assert TotalHoldings[0] != Returns[0] && TotalHoldings[0] != EquityCurve[0];
    assert Returns[0] != EquityCurve[0];
  }

  predicate HasScalars(h: map<string, real>) {
    HeldCash in h && CommissionPaid in h && TotalHoldings in h
  }

  predicate HasRecordScalars(h: map<string, real>) {
    HasScalars(h) && Returns in h && EquityCurve in h
  }

  /** The most recently completed bar of one lane: its timestamp and each symbol's close. */
  datatype Frame = Frame(time: int, closes: map<string, real>)

  /** The latest close of `symbol`; a symbol without a bar reads as 0, as a missing map entry does. */
  function Close(latest: Frame, symbol: string): real {
    Get(latest.closes, symbol, 0.0)
  }

  /** Reading a map the way `operator[]` does: a missing key reads as the default. */
  function Get<K, V>(m: map<K, V>, k: K, default: V): V {
    if k in m then m[k] else default
  }

  /** The history entry at `date`, empty when the date has not been recorded yet. */
  function Entry<V>(history: map<int, map<string, V>>, date: int): map<string, V> {
    if date in history then history[date] else map[]
  }

  /** A non-empty set has a member. */
  lemma Inhabited(keys: set<int>)
    requires keys != {}
    ensures exists x :: x in keys
  {
    if forall x :: x !in keys {
      assert false;
    }
  }

  predicate Bounds(keys: set<int>, k: int) {
    forall j :: j in keys ==> j <= k
  }

  lemma {:induction false} MaxExists(keys: set<int>)
    requires keys != {}
    ensures exists k :: k in keys && Bounds(keys, k)
    decreases |keys|
  {
    Inhabited(keys);
    var x :| x in keys;
    var rest := keys - {x};
    if rest == {} {
      assert keys == {x};
      assert Bounds(keys, x);
    } else {
      MaxExists(rest);
      var m :| m in rest && Bounds(rest, m);
      var k := if x <= m then m else x;
      forall j | j in keys ensures j <= k {
        if j != x {
          assert j in rest;
        }
      }
      assert k in keys && Bounds(keys, k);
    }
  }

  /** The largest timestamp of a history: the entry `rbegin()` designates in an ordered map. */
  function MaxKey(keys: set<int>): (k: int)
    requires keys != {}
    ensures k in keys
    ensures Bounds(keys, k)
  {
    MaxExists(keys);
    var k :| k in keys && Bounds(keys, k);
    k
  }

  // ---------------------------------------------------------------------------------------
  // Construction

  /** The first `n` symbols, each at a zero position, written in list order. */
  function ZeroPositions(symbols: seq<string>, n: nat): map<string, int>
    requires n <= |symbols|
  {
    if n == 0 then map[] else ZeroPositions(symbols, n - 1)[symbols[n - 1] := 0]
  }

  /** The first `n` symbols, each with a zero market value, written in list order. */
  function ZeroHoldings(symbols: seq<string>, n: nat): map<string, real>
    requires n <= |symbols|
  {
    if n == 0 then map[] else ZeroHoldings(symbols, n - 1)[symbols[n - 1] := 0.0]
  }

  /** The current holdings a new ledger starts from: every symbol at zero, then the cash and
      the total set to the initial capital and no commission paid. */
  function InitialHoldings(symbols: seq<string>, initialCapital: real): map<string, real> {
    ZeroHoldings(symbols, |symbols|)[HeldCash := initialCapital][CommissionPaid := 0.0][TotalHoldings := initialCapital]
  }

  /** The first history record: the initial holdings with no return and a flat equity curve. */
  function InitialRecord(symbols: seq<string>, initialCapital: real): map<string, real> {
    InitialHoldings(symbols, initialCapital)[Returns := 0.0][EquityCurve := 0.0]
  }

  lemma {:induction false} ZeroPositionsAt(symbols: seq<string>, n: nat)
    requires n <= |symbols|
    ensures forall k :: k in ZeroPositions(symbols, n) <==> k in symbols[..n]
    ensures forall k :: k in ZeroPositions(symbols, n) ==> ZeroPositions(symbols, n)[k] == 0
  {
    if n > 0 {
      ZeroPositionsAt(symbols, n - 1);
      assert symbols[..n] == symbols[..n - 1] + [symbols[n - 1]];
    }
  }

  lemma {:induction false} ZeroHoldingsAt(symbols: seq<string>, n: nat)
    requires n <= |symbols|
    ensures forall k :: k in ZeroHoldings(symbols, n) <==> k in symbols[..n]
    ensures forall k :: k in ZeroHoldings(symbols, n) ==> ZeroHoldings(symbols, n)[k] == 0.0
  {
    if n > 0 {
      ZeroHoldingsAt(symbols, n - 1);
      assert symbols[..n] == symbols[..n - 1] + [symbols[n - 1]];
    }
  }

  /** `construct_current_positions`: a zero position for every symbol. */
  method ConstructCurrentPositions(symbols: seq<string>) returns (positions: map<string, int>)
    ensures positions == ZeroPositions(symbols, |symbols|)
  {
    positions := map[];
    for i := 0 to |symbols|
      invariant positions == ZeroPositions(symbols, i)
    {
      positions := positions[symbols[i] := 0];
    }
  }

  /** `construct_all_positions`: the zero positions, recorded at the start timestamp. */
  method ConstructAllPositions(symbols: seq<string>, start: int) returns (history: map<int, map<string, int>>)
    ensures history == map[start := ZeroPositions(symbols, |symbols|)]
  {
    var temp := ConstructCurrentPositions(symbols);
    history := map[start := temp];
  }

  /** `construct_current_holdings`: zero for every symbol, then cash, commission and total. */
  method ConstructCurrentHoldings(symbols: seq<string>, initialCapital: real) returns (holdings: map<string, real>)
    ensures holdings == InitialHoldings(symbols, initialCapital)
  {
    holdings := map[];
    for i := 0 to |symbols|
      invariant holdings == ZeroHoldings(symbols, i)
    {
      holdings := holdings[symbols[i] := 0.0];
    }
    holdings := holdings[HeldCash := initialCapital];
    holdings := holdings[CommissionPaid := 0.0];
    holdings := holdings[TotalHoldings := initialCapital];
  }

  /** `construct_all_holdings`: the initial holdings with the equity curve fields, recorded at
      the start timestamp. */
  method ConstructAllHoldings(symbols: seq<string>, start: int, initialCapital: real)
    returns (history: map<int, map<string, real>>)
    ensures history == map[start := InitialRecord(symbols, initialCapital)]
  {
    var temp := ConstructCurrentHoldings(symbols, initialCapital);
    temp := temp[Returns := 0.0];
    temp := temp[EquityCurve := 0.0];
    history := map[start := temp];
  }

  // ---------------------------------------------------------------------------------------
  // Fills

  /** The signed direction of a fill: +1 to buy, -1 to sell, 0 for any other side. */
  function Direction(direction: string): int {
    if direction == "BUY" then 1 else if direction == "SELL" then -1 else 0
  }

  function PositionsAfterFill(positions: map<string, int>, fill: Event): map<string, int>
    requires fill.Fill?
  {
    positions[fill.symbol := Get(positions, fill.symbol, 0) + Direction(fill.direction) * fill.quantity]
  }

  /** The value a fill moves from cash into the symbol's holding, priced at the latest close. */
  function FillCost(fill: Event, close: real): real
    requires fill.Fill?
  {
    Direction(fill.direction) as real * close * fill.quantity as real
  }

  /** The current holdings after a fill, the four updates applied in the source's order. */
  function HoldingsAfterFill(h: map<string, real>, fill: Event, close: real): map<string, real>
    requires fill.Fill?
  {
    var cost := FillCost(fill, close);
    var h1 := h[fill.symbol := Get(h, fill.symbol, 0.0) + cost];
    var h2 := h1[CommissionPaid := Get(h1, CommissionPaid, 0.0) + fill.commission];
    var h3 := h2[HeldCash := Get(h2, HeldCash, 0.0) - (cost + fill.commission)];
    h3[TotalHoldings := Get(h3, TotalHoldings, 0.0) - fill.commission]
  }

  // ---------------------------------------------------------------------------------------
  // Order sizing

  /** The cash a signal asks to move into the symbol: the target share of the latest
      recorded total, less what the current position is worth at the latest close. */
  function RequiredCash(position: int, close: real, latestTotal: real, percentage: real): real {
    percentage * latestTotal - position as real * close
  }

  lemma MulMonotone(a: real, b: real, d: real)
    requires a <= b && d > 0.0
    ensures a * d <= b * d
  {
  }

  lemma MulStrict(a: real, b: real, d: real)
    requires a < b && d > 0.0
    ensures a * d < b * d
  {
  }

  lemma MulCancel(a: real, b: real, d: real)
    requires d > 0.0 && a * d <= b * d
    ensures a <= b
  {
    if a > b {
      MulStrict(b, a, d);
    }
  }

  lemma MulCancelStrict(a: real, b: real, d: real)
    requires d > 0.0 && a * d < b * d
    ensures a < b
  {
    if a >= b {
      MulMonotone(b, a, d);
    }
  }

  /** The whole part of a quotient times the divisor stays within one divisor of the dividend. */
  lemma FloorOfQuotient(x: real, d: real)
    requires d > 0.0
    ensures (x / d).Floor as real * d <= x < ((x / d).Floor + 1) as real * d
  {
    var y := x / d;
    var lo, hi := y.Floor as real, (y.Floor + 1) as real;
    assert lo <= y < hi;
    assert y * d == x;
    MulMonotone(lo, y, d);
    MulStrict(y, hi, d);
    assert lo * d <= x;
    assert x < hi * d;
  }

  /** At the small-order price `d` the floored quotient is the most whole shares `cash` pays
      for, and no more than 500 of them. */
  lemma SmallTier(cash: real, d: real)
    requires d > 0.0 && cash <= SmallOrderShares * d
    ensures var q := (cash / d).Floor;
            q as real * d <= cash < (q + 1) as real * d && q <= 500
  {
    var q := (cash / d).Floor;
    FloorOfQuotient(cash, d);
    MulCancel(q as real, SmallOrderShares, d);
  }

  /** At the large-order price `d`, above the small-order threshold, the floored quotient
      is the most whole shares `cash` pays for, and at least 500 of them. */
  lemma LargeTier(cash: real, d: real)
    requires d > 0.0 && SmallOrderShares * d < cash
    ensures var q := (cash / d).Floor;
            q as real * d <= cash < (q + 1) as real * d && q >= 500
  {
    var q := (cash / d).Floor;
    FloorOfQuotient(cash, d);
    MulCancelStrict(SmallOrderShares, (q + 1) as real, d);
  }

  /** `calculate_quantity`: the signed share count that brings the position to the target. */
  function CalculateQuantity(position: int, close: real, latestTotal: real, percentage: real): (quantity: int)
    requires percentage != 0.0 ==> close >= 0.0
    ensures percentage == 0.0 ==> quantity == -position
    ensures percentage != 0.0 ==>
      var cash := RequiredCash(position, close, latestTotal, percentage);
      if cash <= SmallOrderShares * (close + SmallOrderSurcharge) then
        // the most whole shares the cash pays for at the small-order price, and at most 500
        && quantity as real * (close + SmallOrderSurcharge) <= cash
        && cash < (quantity + 1) as real * (close + SmallOrderSurcharge)
        && quantity <= 500
      else
        // the most whole shares the cash pays for at the large-order price, and at least 500
        && quantity as real * (close + LargeOrderSurcharge) <= cash
        && cash < (quantity + 1) as real * (close + LargeOrderSurcharge)
        && quantity >= 500
  {
    if percentage == 0.0 then
      -position
    else
      var requiredCash := RequiredCash(position, close, latestTotal, percentage);
      if requiredCash <= SmallOrderShares * (close + SmallOrderSurcharge) then
        SmallTier(requiredCash, close + SmallOrderSurcharge);
        (requiredCash / (close + SmallOrderSurcharge)).Floor
      else
        LargeTier(requiredCash, close + LargeOrderSurcharge);
        (requiredCash / (close + LargeOrderSurcharge)).Floor
  }

  /** The orders `generate_naive_order` appends for a computed quantity. */
  function NaiveOrders(symbol: string, quantity: int, target: string): (orders: seq<Event>)
    ensures quantity == 0 <==> orders == []
    ensures |orders| <= 1
    ensures forall o :: o in orders ==>
              && o.Order? && o.symbol == symbol && o.orderType == "MKT" && o.target == target
              && o.quantity > 0
              // filled in full, the order moves the position by exactly `quantity`
              && Direction(o.direction) * o.quantity == quantity
  {
    if quantity > 0 then [Order(symbol, "MKT", quantity, "BUY", target)]
    else if quantity < 0 then [Order(symbol, "MKT", -quantity, "SELL", target)]
    else []
  }

  // ---------------------------------------------------------------------------------------
  // Mark to market

  function MarketValue(positions: map<string, int>, latest: Frame, symbol: string): real {
    Get(positions, symbol, 0) as real * Close(latest, symbol)
  }

  /** The sum `update_timeindex` accumulates over the first `n` symbols, in list order. */
  function SumValues(symbols: seq<string>, n: nat, positions: map<string, int>, latest: Frame): real
    requires n <= |symbols|
  {
    if n == 0 then 0.0
    else SumValues(symbols, n - 1, positions, latest) + MarketValue(positions, latest, symbols[n - 1])
  }

  /** `base` with the market values of the first `n` symbols written over it, in list order,
      as the marking loop writes them. */
  function Marked(base: map<string, real>, symbols: seq<string>, n: nat, positions: map<string, int>, latest: Frame)
    : map<string, real>
    requires n <= |symbols|
  {
    if n == 0 then base
    else Marked(base, symbols, n - 1, positions, latest)[symbols[n - 1] := MarketValue(positions, latest, symbols[n - 1])]
  }

  /** `base` with the positions of the first `n` symbols written over it, in list order, as
      the marking loop records them. */
  function Recorded(base: map<string, int>, symbols: seq<string>, n: nat, positions: map<string, int>): map<string, int>
    requires n <= |symbols|
  {
    if n == 0 then base
    else Recorded(base, symbols, n - 1, positions)[symbols[n - 1] := Get(positions, symbols[n - 1], 0)]
  }

  function PeriodReturn(total: real, previousTotal: real): real
    requires previousTotal != 0.0
  {
    total / previousTotal - 1.0
  }

  function NextCurve(previousCurve: real, periodReturn: real): real {
    (previousCurve + 1.0) * (periodReturn + 1.0) - 1.0
  }

  /** The current holdings after `update_timeindex`: every symbol marked to the latest close,
      the total recomputed from the held cash. */
  function TickedHoldings(h: map<string, real>, symbols: seq<string>, positions: map<string, int>, latest: Frame)
    : map<string, real>
  {
    Marked(h, symbols, |symbols|, positions, latest)[TotalHoldings := Get(h, HeldCash, 0.0) + SumValues(symbols, |symbols|, positions, latest)]
  }

  function TickedPositionsHistory(history: map<int, map<string, int>>, symbols: seq<string>, positions: map<string, int>, latest: Frame)
    : map<int, map<string, int>>
  {
    history[latest.time := Recorded(Entry(history, latest.time), symbols, |symbols|, positions)]
  }

  /** Whether the division `update_timeindex` performs has a non-zero divisor. */
  predicate TickDefined(history: map<int, map<string, real>>, latest: Frame)
    requires history != map[]
  {
    |history.Keys + {latest.time}| > 1 ==> Get(history[MaxKey(history.Keys)], TotalHoldings, 0.0) != 0.0
  }

  /** The record `update_timeindex` writes at the bar's timestamp before the equity curve step:
      the entry already there, every symbol marked, and the current cash, commission and the
      recomputed total copied in. */
  function MarkedRecord(entry: map<string, real>, h: map<string, real>, symbols: seq<string>,
                        positions: map<string, int>, latest: Frame): map<string, real>
  {
    Marked(entry, symbols, |symbols|, positions, latest)
      [TotalHoldings := Get(h, HeldCash, 0.0) + SumValues(symbols, |symbols|, positions, latest)]
      [HeldCash := Get(h, HeldCash, 0.0)]
      [CommissionPaid := Get(h, CommissionPaid, 0.0)]
  }

  /** The marking loop leaves cash and commission alone, so closing the record with the values
      read after the loop gives the marked record. */
  lemma MarkedAgrees(entry: map<string, real>, h: map<string, real>, symbols: seq<string>,
                     positions: map<string, int>, latest: Frame)
    requires NoReservedSymbols(symbols)
    ensures var marked := Marked(h, symbols, |symbols|, positions, latest);
            var cash := Get(marked, HeldCash, 0.0);
            && (forall k :: k in h ==> k in marked)
            && cash == Get(h, HeldCash, 0.0)
            && Get(marked, CommissionPaid, 0.0) == Get(h, CommissionPaid, 0.0)
            && marked[TotalHoldings := cash + SumValues(symbols, |symbols|, positions, latest)] == TickedHoldings(h, symbols, positions, latest)
            && Marked(entry, symbols, |symbols|, positions, latest)
                 [TotalHoldings := cash + SumValues(symbols, |symbols|, positions, latest)]
                 [HeldCash := cash]
                 [CommissionPaid := Get(marked, CommissionPaid, 0.0)]
               == MarkedRecord(entry, h, symbols, positions, latest)
  {
    ReservedNotMarked(h, symbols, positions, latest);
    MarkedAt(h, symbols, |symbols|, positions, latest);
  }

  /** The equity curve step: the record's period return against the previous entry's total,
      compounded onto the previous entry's curve. */
  function CompoundedRecord(record: map<string, real>, previous: map<string, real>): map<string, real>
    requires Get(previous, TotalHoldings, 0.0) != 0.0
  {
    var periodReturn := PeriodReturn(Get(record, TotalHoldings, 0.0), Get(previous, TotalHoldings, 0.0));
    record[Returns := periodReturn][EquityCurve := NextCurve(Get(previous, EquityCurve, 0.0), periodReturn)]
  }

  /** The holdings history after `update_timeindex`, given the current holdings `h` before it.
      The curve step runs once the history holds more than one timestamp. */
  function TickedHoldingsHistory(history: map<int, map<string, real>>, h: map<string, real>, symbols: seq<string>,
                                 positions: map<string, int>, latest: Frame): map<int, map<string, real>>
    requires history != map[] && TickDefined(history, latest)
  {
    var date := latest.time;
    var record := MarkedRecord(Entry(history, date), h, symbols, positions, latest);
    if |history.Keys + {date}| > 1 then
      history[date := CompoundedRecord(record, history[MaxKey(history.Keys)])]
    else
      history[date := record]
  }

  lemma CompoundAgrees(record: map<string, real>, previous: map<string, real>)
    requires TotalHoldings in record && TotalHoldings in previous && EquityCurve in previous
    requires previous[TotalHoldings] != 0.0
    ensures var periodReturn := PeriodReturn(record[TotalHoldings], previous[TotalHoldings]);
            CompoundedRecord(record, previous)
              == record[Returns := periodReturn][EquityCurve := NextCurve(previous[EquityCurve], periodReturn)]
  {
  }

  /** A history whose keys together with `date` number at most one already holds `date`. */
  lemma SingleKey(keys: set<int>, date: int)
    requires keys != {} && |keys + {date}| <= 1
    ensures date in keys
  {
    if date !in keys {
      assert false;
    }
  }

  lemma MarkedKeys(entry: map<string, real>, h: map<string, real>, symbols: seq<string>,
                   positions: map<string, int>, latest: Frame)
    ensures var record := MarkedRecord(entry, h, symbols, positions, latest);
            HasScalars(record) && forall k :: k in entry ==> k in record
  {
    MarkedAt(entry, symbols, |symbols|, positions, latest);
  }

  /** Every entry of the ticked history keeps the five scalar keys. */
  lemma TickedHistoryValid(history: map<int, map<string, real>>, h: map<string, real>, symbols: seq<string>,
                           positions: map<string, int>, latest: Frame)
    requires history != map[] && TickDefined(history, latest)
    requires forall d :: d in history ==> HasRecordScalars(history[d])
    ensures var ticked := TickedHoldingsHistory(history, h, symbols, positions, latest);
            ticked != map[] && forall d :: d in ticked ==> HasRecordScalars(ticked[d])
  {
    var date := latest.time;
    var entry := Entry(history, date);
    var record := MarkedRecord(entry, h, symbols, positions, latest);
    MarkedKeys(entry, h, symbols, positions, latest);
    if |history.Keys + {date}| > 1 {
      var final := CompoundedRecord(record, history[MaxKey(history.Keys)]);
      assert HasRecordScalars(final);
      assert TickedHoldingsHistory(history, h, symbols, positions, latest) == history[date := final];
    } else {
      SingleKey(history.Keys, date);
      assert HasRecordScalars(record);
      assert TickedHoldingsHistory(history, h, symbols, positions, latest) == history[date := record];
    }
  }

  /** Which keys the marking loop writes, and what it writes there. */
  lemma {:induction false} MarkedAt(base: map<string, real>, symbols: seq<string>, n: nat, positions: map<string, int>,
                                    latest: Frame)
    requires n <= |symbols|
    ensures forall k :: k in Marked(base, symbols, n, positions, latest) <==> k in base || k in symbols[..n]
    ensures forall k :: k in symbols[..n] ==> Marked(base, symbols, n, positions, latest)[k] == MarketValue(positions, latest, k)
    ensures forall k :: k !in symbols[..n] && k in base ==> Marked(base, symbols, n, positions, latest)[k] == base[k]
  {
    if n > 0 {
      MarkedAt(base, symbols, n - 1, positions, latest);
      assert symbols[..n] == symbols[..n - 1] + [symbols[n - 1]];
    }
  }

  /** Which keys the position record gets, and what it holds there. */
  lemma {:induction false} RecordedAt(base: map<string, int>, symbols: seq<string>, n: nat, positions: map<string, int>)
    requires n <= |symbols|
    ensures forall k :: k in Recorded(base, symbols, n, positions) <==> k in base || k in symbols[..n]
    ensures forall k :: k in symbols[..n] ==> Recorded(base, symbols, n, positions)[k] == Get(positions, k, 0)
    ensures forall k :: k !in symbols[..n] && k in base ==> Recorded(base, symbols, n, positions)[k] == base[k]
  {
    if n > 0 {
      RecordedAt(base, symbols, n - 1, positions);
      assert symbols[..n] == symbols[..n - 1] + [symbols[n - 1]];
    }
  }

  /** Marking never touches a reserved key. */
  lemma ReservedNotMarked(base: map<string, real>, symbols: seq<string>, positions: map<string, int>, latest: Frame)
    requires NoReservedSymbols(symbols)
    ensures forall k :: IsReserved(k) ==> Get(Marked(base, symbols, |symbols|, positions, latest), k, 0.0) == Get(base, k, 0.0)
  {
    MarkedAt(base, symbols, |symbols|, positions, latest);
  }

  /** The marking loop of `update_timeindex`: symbol by symbol in list order, the market value
      is written into the current holdings and into the holdings record, the position into the
      positions record, and the values are summed. */
  method MarkSymbols(symbols: seq<string>, positions: map<string, int>, latest: Frame, holdings0: map<string, real>,
                     positionsEntry: map<string, int>, holdingsEntry: map<string, real>)
    returns (sumValues: real, holdings: map<string, real>, positionsRecord: map<string, int>, holdingsRecord: map<string, real>)
    ensures sumValues == SumValues(symbols, |symbols|, positions, latest)
    ensures holdings == Marked(holdings0, symbols, |symbols|, positions, latest)
    ensures positionsRecord == Recorded(positionsEntry, symbols, |symbols|, positions)
    ensures holdingsRecord == Marked(holdingsEntry, symbols, |symbols|, positions, latest)
  {
    sumValues, holdings, positionsRecord, holdingsRecord := 0.0, holdings0, positionsEntry, holdingsEntry;
    for i := 0 to |symbols|
      invariant sumValues == SumValues(symbols, i, positions, latest)
      invariant holdings == Marked(holdings0, symbols, i, positions, latest)
      invariant positionsRecord == Recorded(positionsEntry, symbols, i, positions)
      invariant holdingsRecord == Marked(holdingsEntry, symbols, i, positions, latest)
    {
      var symbol := symbols[i];
      var marketValue := Get(positions, symbol, 0) as real * Close(latest, symbol);
      positionsRecord := positionsRecord[symbol := Get(positions, symbol, 0)];
      holdingsRecord := holdingsRecord[symbol := marketValue];
      holdings := holdings[symbol := marketValue];
      sumValues := sumValues + marketValue;
    }
  }

  /** What the body of `update_timeindex` leaves behind, assembled from the outputs of the
      marking loop, is the ticked state. */
  lemma RecordBarAgrees(symbols: seq<string>, positions: map<string, int>, latest: Frame, holdings0: map<string, real>,
                        positionsHistory0: map<int, map<string, int>>, holdingsHistory0: map<int, map<string, real>>,
                        sumValues: real, marked: map<string, real>, positionsRecord: map<string, int>,
                        markedRecord: map<string, real>, holdingsRecord: map<string, real>)
    requires NoReservedSymbols(symbols) && HasScalars(holdings0)
    requires holdingsHistory0 != map[] && (forall d :: d in holdingsHistory0 ==> HasRecordScalars(holdingsHistory0[d]))
    requires TickDefined(holdingsHistory0, latest)
    requires sumValues == SumValues(symbols, |symbols|, positions, latest)
    requires marked == Marked(holdings0, symbols, |symbols|, positions, latest)
    requires positionsRecord == Recorded(Entry(positionsHistory0, latest.time), symbols, |symbols|, positions)
    requires markedRecord == Marked(Entry(holdingsHistory0, latest.time), symbols, |symbols|, positions, latest)
    requires var cash := Get(marked, HeldCash, 0.0);
             var closed := markedRecord[TotalHoldings := cash + sumValues][HeldCash := cash]
                             [CommissionPaid := Get(marked, CommissionPaid, 0.0)];
             if |holdingsHistory0.Keys + {latest.time}| > 1 then
               var previous := holdingsHistory0[MaxKey(holdingsHistory0.Keys)];
               var periodReturn := PeriodReturn(closed[TotalHoldings], Get(previous, TotalHoldings, 0.0));
               holdingsRecord == closed[Returns := periodReturn][EquityCurve := NextCurve(Get(previous, EquityCurve, 0.0), periodReturn)]
             else
               holdingsRecord == closed
    ensures var holdings := marked[TotalHoldings := Get(marked, HeldCash, 0.0) + sumValues];
            && holdings == TickedHoldings(holdings0, symbols, positions, latest)
            && HasScalars(holdings)
    ensures positionsHistory0[latest.time := positionsRecord]
              == TickedPositionsHistory(positionsHistory0, symbols, positions, latest)
    ensures var holdingsHistory := holdingsHistory0[latest.time := holdingsRecord];
            && holdingsHistory == TickedHoldingsHistory(holdingsHistory0, holdings0, symbols, positions, latest)
            && holdingsHistory != map[]
            && forall d :: d in holdingsHistory ==> HasRecordScalars(holdingsHistory[d])
  {
    var date := latest.time;
    MarkedAgrees(Entry(holdingsHistory0, date), holdings0, symbols, positions, latest);
    var record := MarkedRecord(Entry(holdingsHistory0, date), holdings0, symbols, positions, latest);
    if |holdingsHistory0.Keys + {date}| > 1 {
      CompoundAgrees(record, holdingsHistory0[MaxKey(holdingsHistory0.Keys)]);
    }
    TickedHistoryValid(holdingsHistory0, holdings0, symbols, positions, latest);
  }

  /** The body of `update_timeindex` on the ledger's maps: the marking loop, then the totals
      and the equity curve step written into the record at the bar's timestamp. */
  method RecordBar(symbols: seq<string>, positions: map<string, int>, latest: Frame, holdings0: map<string, real>,
                   positionsHistory0: map<int, map<string, int>>, holdingsHistory0: map<int, map<string, real>>)
    returns (holdings: map<string, real>, positionsHistory: map<int, map<string, int>>,
             holdingsHistory: map<int, map<string, real>>)
    requires NoReservedSymbols(symbols) && HasScalars(holdings0)
    requires holdingsHistory0 != map[] && (forall d :: d in holdingsHistory0 ==> HasRecordScalars(holdingsHistory0[d]))
    requires TickDefined(holdingsHistory0, latest)
    ensures holdings == TickedHoldings(holdings0, symbols, positions, latest)
    ensures positionsHistory == TickedPositionsHistory(positionsHistory0, symbols, positions, latest)
    ensures holdingsHistory == TickedHoldingsHistory(holdingsHistory0, holdings0, symbols, positions, latest)
    ensures HasScalars(holdings) && holdingsHistory != map[]
    ensures forall d :: d in holdingsHistory ==> HasRecordScalars(holdingsHistory[d])
  {
    var previousTotal := Get(holdingsHistory0[MaxKey(holdingsHistory0.Keys)], TotalHoldings, 0.0);
    var previousCurve := Get(holdingsHistory0[MaxKey(holdingsHistory0.Keys)], EquityCurve, 0.0);
    var date := latest.time;
    var sumValues, marked, positionsRecord, markedRecord :=
      MarkSymbols(symbols, positions, latest, holdings0, Entry(positionsHistory0, date), Entry(holdingsHistory0, date));
    positionsHistory := positionsHistory0[date := positionsRecord];
    var cash, commission := Get(marked, HeldCash, 0.0), Get(marked, CommissionPaid, 0.0);
    holdings := marked[TotalHoldings := cash + sumValues];
    var holdingsRecord := markedRecord[TotalHoldings := cash + sumValues];
    holdingsRecord := holdingsRecord[HeldCash := cash];
    holdingsRecord := holdingsRecord[CommissionPaid := commission];

    // with an earlier entry to compare against, step the return and the compounded curve
    if |holdingsHistory0.Keys + {date}| > 1 {
      var periodReturn := PeriodReturn(holdingsRecord[TotalHoldings], previousTotal);
      holdingsRecord := holdingsRecord[Returns := periodReturn];
      holdingsRecord := holdingsRecord[EquityCurve := NextCurve(previousCurve, periodReturn)];
    }
    holdingsHistory := holdingsHistory0[date := holdingsRecord];
    RecordBarAgrees(symbols, positions, latest, holdings0, positionsHistory0, holdingsHistory0,
                    sumValues, marked, positionsRecord, markedRecord, holdingsRecord);
  }

  // ---------------------------------------------------------------------------------------
  // The ledger

  class NaivePortfolio {
    const symbols: seq<string>
    const initialCapital: real
    const events: EventQueue
    var currentPositions: map<string, int>
    var currentHoldings: map<string, real>
    var allPositions: map<int, map<string, int>>
    var allHoldings: map<int, map<string, real>>

    ghost predicate Valid()
      reads this
    {
      && NoReservedSymbols(symbols)
      && HasScalars(currentHoldings)
      && allHoldings != map[]
      && (forall d :: d in allHoldings ==> HasRecordScalars(allHoldings[d]))
    }

    constructor (events: EventQueue, symbols: seq<string>, start: int, initialCapital: real)
      requires NoReservedSymbols(symbols)
      ensures Valid()
      ensures this.events == events && this.symbols == symbols && this.initialCapital == initialCapital
      ensures currentPositions == ZeroPositions(symbols, |symbols|)
      ensures allPositions == map[start := currentPositions]
      ensures currentHoldings == InitialHoldings(symbols, initialCapital)
      ensures allHoldings == map[start := InitialRecord(symbols, initialCapital)]
    {
      this.events := events;
      this.symbols := symbols;
      this.initialCapital := initialCapital;
      var ap := ConstructAllPositions(symbols, start);
      var cp := ConstructCurrentPositions(symbols);
      var ah := ConstructAllHoldings(symbols, start, initialCapital);
      var ch := ConstructCurrentHoldings(symbols, initialCapital);
      assert start in ah;
      allPositions, currentPositions, allHoldings, currentHoldings := ap, cp, ah, ch;
    }

    /** The position in `symbol`, zero for an untracked symbol. */
    function PositionOf(symbol: string): int
      reads this
    {
      Get(currentPositions, symbol, 0)
    }

    function Cash(): real
      reads this
      requires Valid()
    {
      currentHoldings[HeldCash]
    }

    function Commission(): real
      reads this
      requires Valid()
    {
      currentHoldings[CommissionPaid]
    }

    function Total(): real
      reads this
      requires Valid()
    {
      currentHoldings[TotalHoldings]
    }

    /** The total of the latest recorded history entry. */
    function LatestTotal(): real
      reads this
      requires Valid()
    {
      allHoldings[MaxKey(allHoldings.Keys)][TotalHoldings]
    }

    function LatestCurve(): real
      reads this
      requires Valid()
    {
      allHoldings[MaxKey(allHoldings.Keys)][EquityCurve]
    }

    /** The state change of `update_timeindex` at bar `latest`. */
    twostate predicate Ticked(latest: Frame)
      reads this
    {
      && old(allHoldings) != map[]
      && TickDefined(old(allHoldings), latest)
      && currentPositions == old(currentPositions)
      && currentHoldings == TickedHoldings(old(currentHoldings), symbols, currentPositions, latest)
      && allPositions == TickedPositionsHistory(old(allPositions), symbols, currentPositions, latest)
      && allHoldings == TickedHoldingsHistory(old(allHoldings), old(currentHoldings), symbols, currentPositions, latest)
    }

    /** The state change of `update_fill`, priced at the latest close `close`. */
    twostate predicate Filled(fill: Event, close: real)
      reads this
    {
      && fill.Fill?
      && currentPositions == PositionsAfterFill(old(currentPositions), fill)
      && currentHoldings == HoldingsAfterFill(old(currentHoldings), fill, close)
      && allPositions == old(allPositions)
      && allHoldings == old(allHoldings)
    }

    /** `update_timeindex`: marks every symbol to the latest close, records positions and
        holdings at the bar's timestamp, and compounds the equity curve. */
    method UpdateTimeindex(latest: Frame)
      requires Valid() && |symbols| > 0 && TickDefined(allHoldings, latest)
      modifies this`currentHoldings, this`allPositions, this`allHoldings
      ensures Valid()
      ensures currentHoldings == TickedHoldings(old(currentHoldings), symbols, currentPositions, latest)
      ensures allPositions == TickedPositionsHistory(old(allPositions), symbols, currentPositions, latest)
      ensures allHoldings == TickedHoldingsHistory(old(allHoldings), old(currentHoldings), symbols, currentPositions, latest)
    {
      var holdings, positionsHistory, holdingsHistory :=
        RecordBar(symbols, currentPositions, latest, currentHoldings, allPositions, allHoldings);
      currentHoldings, allPositions, allHoldings := holdings, positionsHistory, holdingsHistory;
    }

    /** `update_positions_from_fill`: only the fill's symbol moves, by the signed quantity. */
    method UpdatePositionsFromFill(fill: Event)
      requires fill.Fill?
      modifies this`currentPositions
      ensures currentPositions == PositionsAfterFill(old(currentPositions), fill)
      ensures forall k :: k != fill.symbol ==> PositionOf(k) == old(PositionOf(k))
      ensures fill.direction == "BUY" ==> PositionOf(fill.symbol) == old(PositionOf(fill.symbol)) + fill.quantity
      ensures fill.direction == "SELL" ==> PositionOf(fill.symbol) == old(PositionOf(fill.symbol)) - fill.quantity
      ensures fill.direction != "BUY" && fill.direction != "SELL" ==> PositionOf(fill.symbol) == old(PositionOf(fill.symbol))
    {
      var fillDir := 0;
      if fill.direction == "BUY" {
        fillDir := 1;
      } else if fill.direction == "SELL" {
        fillDir := -1;
      }
      currentPositions := currentPositions[fill.symbol := PositionOf(fill.symbol) + fillDir * fill.quantity];
    }

    /** `update_holdings_from_fill`: the fill's cost at the latest close `close` moves from
        cash into the symbol's holding; the commission is charged to cash and to the total. */
    method UpdateHoldingsFromFill(fill: Event, close: real)
      requires Valid() && fill.Fill?
      modifies this`currentHoldings
      ensures Valid()
      ensures currentHoldings == HoldingsAfterFill(old(currentHoldings), fill, close)
    {
      var fillDir := 0;
      if fill.direction == "BUY" {
        fillDir := 1;
      } else if fill.direction == "SELL" {
        fillDir := -1;
      }
      assert fillDir == Direction(fill.direction);
      var h := currentHoldings;
      var fillCost := close;
      var cost := fillDir as real * fillCost * fill.quantity as real;
      assert cost == FillCost(fill, close);
      h := h[fill.symbol := Get(h, fill.symbol, 0.0) + cost];
      h := h[CommissionPaid := Get(h, CommissionPaid, 0.0) + fill.commission];
      h := h[HeldCash := Get(h, HeldCash, 0.0) - (cost + fill.commission)];
      h := h[TotalHoldings := Get(h, TotalHoldings, 0.0) - fill.commission];
      currentHoldings := h;
    }

    /** `update_fill`: positions first, then holdings. */
    method UpdateFill(fill: Event, close: real)
      requires Valid() && fill.Fill?
      modifies this`currentPositions, this`currentHoldings
      ensures Valid() && Filled(fill, close)
    {
      UpdatePositionsFromFill(fill);
      UpdateHoldingsFromFill(fill, close);
    }

    /** `update_signal`. */
    method UpdateSignal(signal: Event, latest: Frame)
      requires Valid() && signal.Signal?
      requires signal.strength != 0.0 ==> Close(latest, signal.symbol) >= 0.0
      modifies events
      ensures events.items == old(events.items) +
                NaiveOrders(signal.symbol,
                            CalculateQuantity(PositionOf(signal.symbol), Close(latest, signal.symbol), LatestTotal(), signal.strength),
                            signal.target)
    {
      GenerateNaiveOrder(signal, latest);
    }

    /** `generate_naive_order`: sizes the signal and appends at most one market order. */
    method GenerateNaiveOrder(signal: Event, latest: Frame)
      requires Valid() && signal.Signal?
      requires signal.strength != 0.0 ==> Close(latest, signal.symbol) >= 0.0
      modifies events
      ensures events.items == old(events.items) +
                NaiveOrders(signal.symbol,
                            CalculateQuantity(PositionOf(signal.symbol), Close(latest, signal.symbol), LatestTotal(), signal.strength),
                            signal.target)
    {
      var symbol := signal.symbol;
      var strength := signal.strength;
      var mktQuantity := CalculateQuantity(PositionOf(symbol), Close(latest, symbol), LatestTotal(), strength);
      var orderType := "MKT";
      if mktQuantity > 0 {
        events.Push(Order(symbol, orderType, mktQuantity, "BUY", signal.target));
      } else if mktQuantity < 0 {
        events.Push(Order(symbol, orderType, -mktQuantity, "SELL", signal.target));
      }
    }
  }
}
