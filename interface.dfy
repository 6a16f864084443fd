/** The backtest driver (`TradingInterface`): two ledgers, the algorithm's and the
    benchmark's, fed from one shared event queue by a dispatch loop that runs while the run
    flag is 1. */
module Interface {
  import opened Events
  import opened Portfolio

  // Lane tags carried by every event.
  const Algo := "ALGO"
  const Bench := "BENCH"

  /** One lane's bar supply: the frames it will deliver, in order, and how many it has
      delivered so far. The latest delivered frame is what the lane's ledger and strategy read. */
  datatype Pipeline = Pipeline(bars: seq<Frame>, delivered: nat) {
    predicate Started() {
      0 < delivered <= |bars|
    }

    function Latest(): Frame
      requires Started()
    {
      bars[delivered - 1]
    }

    predicate Exhausted() {
      |bars| <= delivered
    }

    /** The pipeline after `update_bars`: one more bar delivered, unless none is left. */
    function Advanced(): Pipeline {
      if Exhausted() then this else this.(delivered := delivered + 1)
    }

    /** The market event `update_bars` pushes for lane `lane` when it delivers a bar. */
    function Announcement(lane: string): seq<Event> {
      if Exhausted() then [] else [Market(lane)]
    }

    /** How many bars are still to be delivered. */
    function Remaining(): nat {
      if delivered <= |bars| then |bars| - delivered else 0
    }

    /** The pipeline after `k` calls of `update_bars`. */
    function AdvancedBy(k: nat): Pipeline
      decreases k
    {
      if k == 0 then this else Advanced().AdvancedBy(k - 1)
    }

    /** The market events those `k` calls push, in order. */
    function AnnouncedBy(lane: string, k: nat): seq<Event>
      decreases k
    {
      if k == 0 then [] else Announcement(lane) + Advanced().AnnouncedBy(lane, k - 1)
    }
  }

  function Min(a: nat, b: nat): nat {
    if a <= b then a else b
  }

  /** One call of `update_bars` delivers exactly one bar, announced by one market event, unless no
      bar is left; the remaining count is the measure that bounds the idle ticks of a run. */
  lemma AdvanceStep(p: Pipeline, lane: string)
    requires p.delivered <= |p.bars|
    ensures var q := p.Advanced();
            && q.bars == p.bars && q.delivered <= |q.bars|
            && (p.Exhausted() ==> q == p && p.Remaining() == 0)
            && (!p.Exhausted() ==> q.Started() && q.Latest() == p.bars[p.delivered] && q.Remaining() == p.Remaining() - 1)
            && |p.Announcement(lane)| == p.Remaining() - q.Remaining()
  {
  }

  /** `k` calls of `update_bars` deliver `min(k, remaining)` bars, each announced by its lane's
      market event, and leave the pipeline exhausted exactly when `k` reaches the bars that
      were left. */
  lemma {:induction false} AdvancingDelivers(p: Pipeline, lane: string, k: nat)
    requires p.delivered <= |p.bars|
    ensures var q := p.AdvancedBy(k);
            && q.bars == p.bars
            && q.delivered == p.delivered + Min(k, p.Remaining())
            && (q.Exhausted() <==> p.Remaining() <= k)
    ensures |p.AnnouncedBy(lane, k)| == Min(k, p.Remaining())
    ensures forall i :: 0 <= i < |p.AnnouncedBy(lane, k)| ==> p.AnnouncedBy(lane, k)[i] == Market(lane)
    decreases k
  {
    if k > 0 {
      AdvanceStep(p, lane);
      AdvancingDelivers(p.Advanced(), lane, k - 1);
    }
  }

  /** No bar carries a negative close. */
  predicate NonNegativeCloses(bars: seq<Frame>) {
    forall i, s :: 0 <= i < |bars| && s in bars[i].closes ==> bars[i].closes[s] >= 0.0
  }

  /** How a run of the loop ended. */
  datatype Outcome =
    | Finished          // the run flag was cleared: a pipeline ran out of bars
    | OutOfFuel         // the step bound was reached with the run flag still set
    | TickUndefined     // an idle tick would read past an empty symbol list or divide by a zero total

  /** What the strategy, the benchmark and the executor do with an event, as functions.
      The strategy and the benchmark see a market event and their lane's latest bar and answer
      with the signals they push; the executor answers an order with the event it pushes. */
  datatype Collaborators = Collaborators(
    strategy: (Event, Frame) -> seq<Event>,
    benchmark: (Event, Frame) -> seq<Event>,
    executor: Event -> Event)

  class TradingInterface {
    const symbols: seq<string>
    const benchmarkSymbols: seq<string>
    const initialCapital: real
    const startDate: int
    const events: EventQueue
    const portfolio: NaivePortfolio
    const benchmarkPortfolio: NaivePortfolio
    var continueBacktest: int
    var pipeline: Pipeline
    var benchmarkPipeline: Pipeline

    ghost predicate Valid()
      reads this, portfolio, benchmarkPortfolio
    {
      && portfolio != benchmarkPortfolio
      && portfolio.events == events && benchmarkPortfolio.events == events
      && portfolio.symbols == symbols && benchmarkPortfolio.symbols == benchmarkSymbols
      && portfolio.Valid() && benchmarkPortfolio.Valid()
      && pipeline.delivered <= |pipeline.bars| && benchmarkPipeline.delivered <= |benchmarkPipeline.bars|
      && NonNegativeCloses(pipeline.bars) && NonNegativeCloses(benchmarkPipeline.bars)
    }

    /** The run flag is set and both lanes have a latest bar. */
    predicate Running()
      reads this
    {
      continueBacktest == 1 && pipeline.Started() && benchmarkPipeline.Started()
    }

    /** The constructor: the run flag starts at 0, and each lane gets a fresh ledger over its
        own symbols, sharing the queue. */
    constructor (symbols: seq<string>, benchmarkSymbols: seq<string>, initialCapital: real, startDate: int,
                 bars: seq<Frame>, benchmarkBars: seq<Frame>)
      requires NoReservedSymbols(symbols) && NoReservedSymbols(benchmarkSymbols)
      requires NonNegativeCloses(bars) && NonNegativeCloses(benchmarkBars)
      ensures Valid()
      ensures fresh(events) && fresh(portfolio) && fresh(benchmarkPortfolio)
      ensures continueBacktest == 0 && events.items == []
      ensures pipeline == Pipeline(bars, 0) && benchmarkPipeline == Pipeline(benchmarkBars, 0)
      ensures portfolio.currentPositions == ZeroPositions(symbols, |symbols|)
      ensures portfolio.allPositions == map[startDate := ZeroPositions(symbols, |symbols|)]
      ensures portfolio.currentHoldings == InitialHoldings(symbols, initialCapital)
      ensures portfolio.allHoldings == map[startDate := InitialRecord(symbols, initialCapital)]
      ensures benchmarkPortfolio.currentPositions == ZeroPositions(benchmarkSymbols, |benchmarkSymbols|)
      ensures benchmarkPortfolio.allPositions == map[startDate := ZeroPositions(benchmarkSymbols, |benchmarkSymbols|)]
      ensures benchmarkPortfolio.currentHoldings == InitialHoldings(benchmarkSymbols, initialCapital)
      ensures benchmarkPortfolio.allHoldings == map[startDate := InitialRecord(benchmarkSymbols, initialCapital)]
    {
      var queue := new EventQueue();
      var ledger := new NaivePortfolio(queue, symbols, startDate, initialCapital);
      var benchmarkLedger := new NaivePortfolio(queue, benchmarkSymbols, startDate, initialCapital);
      this.symbols := symbols;
      this.benchmarkSymbols := benchmarkSymbols;
      this.initialCapital := initialCapital;
      this.startDate := startDate;
      continueBacktest := 0;
      events := queue;
      pipeline := Pipeline(bars, 0);
      portfolio := ledger;
      benchmarkPipeline := Pipeline(benchmarkBars, 0);
      benchmarkPortfolio := benchmarkLedger;
    }

    /** `update_bars` of the algorithm's pipeline: deliver the next bar and announce it with a
        market event, or, with no bar left, clear the run flag. */
    method UpdateBars()
      requires Valid()
      modifies this`pipeline, this`continueBacktest, events
      ensures Valid()
      ensures pipeline == old(pipeline).Advanced()
      ensures events.items == old(events.items) + old(pipeline).Announcement(Algo)
      ensures continueBacktest == if old(pipeline).Exhausted() then 0 else old(continueBacktest)
    {
      if pipeline.delivered < |pipeline.bars| {
        pipeline := pipeline.(delivered := pipeline.delivered + 1);
        events.Push(Market(Algo));
      } else {
        continueBacktest := 0;
      }
    }

    /** `update_bars` of the benchmark's pipeline. */
    method UpdateBenchmarkBars()
      requires Valid()
      modifies this`benchmarkPipeline, this`continueBacktest, events
      ensures Valid()
      ensures benchmarkPipeline == old(benchmarkPipeline).Advanced()
      ensures events.items == old(events.items) + old(benchmarkPipeline).Announcement(Bench)
      ensures continueBacktest == if old(benchmarkPipeline).Exhausted() then 0 else old(continueBacktest)
    {
      if benchmarkPipeline.delivered < |benchmarkPipeline.bars| {
        benchmarkPipeline := benchmarkPipeline.(delivered := benchmarkPipeline.delivered + 1);
        events.Push(Market(Bench));
      } else {
        continueBacktest := 0;
      }
    }

    /** Whether both ledgers can take an idle tick at the latest bars: each has a first symbol
        to take the bar's timestamp from, and none would divide by a zero total. */
    predicate TicksDefined()
      reads this, portfolio, benchmarkPortfolio
      requires Valid() && Running()
    {
      && |symbols| > 0 && |benchmarkSymbols| > 0
      && TickDefined(portfolio.allHoldings, pipeline.Latest())
      && TickDefined(benchmarkPortfolio.allHoldings, benchmarkPipeline.Latest())
    }

    /** The orders the ledger a signal targets pushes for it; none for any other target. */
    function SignalOrders(e: Event): seq<Event>
      reads this, portfolio, benchmarkPortfolio
      requires Valid() && Running() && e.Signal?
    {
      if e.target == Algo then
        CloseNonNegative(pipeline.bars, pipeline.delivered - 1, e.symbol);
        NaiveOrders(e.symbol, CalculateQuantity(portfolio.PositionOf(e.symbol), Close(pipeline.Latest(), e.symbol),
                                                portfolio.LatestTotal(), e.strength), e.target)
      else if e.target == Bench then
        CloseNonNegative(benchmarkPipeline.bars, benchmarkPipeline.delivered - 1, e.symbol);
        NaiveOrders(e.symbol, CalculateQuantity(benchmarkPortfolio.PositionOf(e.symbol), Close(benchmarkPipeline.Latest(), e.symbol),
                                                benchmarkPortfolio.LatestTotal(), e.strength), e.target)
      else []
    }

    /** The events the handler of `e` pushes: the strategy's and then the benchmark's signals
        for a market event, the targeted ledger's orders for a signal, the executor's answer to
        an order, and nothing for a fill or an event of unknown type. */
    function Reaction(e: Event, c: Collaborators): seq<Event>
      reads this, portfolio, benchmarkPortfolio
      requires Valid() && Running()
    {
      match e
      case Market(_) => c.strategy(e, pipeline.Latest()) + c.benchmark(e, benchmarkPipeline.Latest())
      case Signal(_, _, _) => SignalOrders(e)
      case Order(_, _, _, _, _) => [c.executor(e)]
      case Fill(_, _, _, _, _) => []
      case Other(_, _) => []
    }

    /** What the handler of `e` does to the ledgers: a fill updates the ledger it targets,
        priced at that lane's latest close; every other ledger, and both for any other event,
        are left as they were. */
    twostate predicate Handled(e: Event)
      reads this, portfolio, benchmarkPortfolio
      requires Running()
    {
      && (if e.Fill? && e.target == Algo then portfolio.Filled(e, Close(pipeline.Latest(), e.symbol))
          else unchanged(portfolio))
      && (if e.Fill? && e.target == Bench then benchmarkPortfolio.Filled(e, Close(benchmarkPipeline.Latest(), e.symbol))
          else unchanged(benchmarkPortfolio))
    }

    /** A Signal event goes to the ledger of its target only, or to neither for any other
        target. */
    method DispatchSignal(e: Event)
      requires Valid() && Running() && e.Signal?
      modifies events
      ensures events.items == old(events.items) + SignalOrders(e)
    {
      if e.target == Algo {
        CloseNonNegative(pipeline.bars, pipeline.delivered - 1, e.symbol);
        portfolio.UpdateSignal(e, pipeline.Latest());
      } else if e.target == Bench {
        CloseNonNegative(benchmarkPipeline.bars, benchmarkPipeline.delivered - 1, e.symbol);
        benchmarkPortfolio.UpdateSignal(e, benchmarkPipeline.Latest());
      }
    }

    /** A Fill event goes to the ledger of its target only. */
    method DispatchFill(e: Event)
      requires Valid() && Running() && e.Fill?
      modifies portfolio`currentPositions, portfolio`currentHoldings
      modifies benchmarkPortfolio`currentPositions, benchmarkPortfolio`currentHoldings
      ensures Valid() && Handled(e)
    {
      if e.target == Algo {
        portfolio.UpdateFill(e, Close(pipeline.Latest(), e.symbol));
      } else if e.target == Bench {
        benchmarkPortfolio.UpdateFill(e, Close(benchmarkPipeline.Latest(), e.symbol));
      }
    }

    /** The head event is handled by its type and then erased. */
    method Dispatch(c: Collaborators)
      requires Valid() && Running() && events.items != []
      modifies events
      modifies portfolio`currentPositions, portfolio`currentHoldings
      modifies benchmarkPortfolio`currentPositions, benchmarkPortfolio`currentHoldings
      ensures Valid() && Running()
      ensures events.items == old(events.items[1..] + Reaction(events.items[0], c))
      ensures Handled(old(events.items[0]))
    {
      var e := events.items[0];
      match e {
        case Market(_) =>
          events.PushAll(c.strategy(e, pipeline.Latest()));
          events.PushAll(c.benchmark(e, benchmarkPipeline.Latest()));
        case Signal(_, _, _) => DispatchSignal(e);
        case Order(_, _, _, _, _) => events.Push(c.executor(e));
        case Fill(_, _, _, _, _) => DispatchFill(e);
        case Other(_, _) =>
      }
      events.PopFront();
    }

    /** The benchmark half of the idle tick: its ledger is marked at its latest bar, then its
        pipeline advances. */
    method TickBenchmark()
      requires Valid() && benchmarkPipeline.Started() && |benchmarkSymbols| > 0
      requires TickDefined(benchmarkPortfolio.allHoldings, benchmarkPipeline.Latest())
      modifies this`benchmarkPipeline, this`continueBacktest, events
      modifies benchmarkPortfolio`currentHoldings, benchmarkPortfolio`allPositions, benchmarkPortfolio`allHoldings
      ensures Valid()
      ensures benchmarkPortfolio.Ticked(old(benchmarkPipeline.Latest()))
      ensures benchmarkPipeline == old(benchmarkPipeline).Advanced()
      ensures events.items == old(events.items) + old(benchmarkPipeline).Announcement(Bench)
      ensures continueBacktest == if old(benchmarkPipeline).Exhausted() then 0 else old(continueBacktest)
    {
      benchmarkPortfolio.UpdateTimeindex(benchmarkPipeline.Latest());
      UpdateBenchmarkBars();
    }

    /** The algorithm's half of the idle tick. */
    method TickAlgo()
      requires Valid() && pipeline.Started() && |symbols| > 0
      requires TickDefined(portfolio.allHoldings, pipeline.Latest())
      modifies this`pipeline, this`continueBacktest, events
      modifies portfolio`currentHoldings, portfolio`allPositions, portfolio`allHoldings
      ensures Valid()
      ensures portfolio.Ticked(old(pipeline.Latest()))
      ensures pipeline == old(pipeline).Advanced()
      ensures events.items == old(events.items) + old(pipeline).Announcement(Algo)
      ensures continueBacktest == if old(pipeline).Exhausted() then 0 else old(continueBacktest)
    {
      portfolio.UpdateTimeindex(pipeline.Latest());
      UpdateBars();
    }

    /** The idle tick: the benchmark's lane first, then the algorithm's. */
    method IdleTick()
      requires Valid() && Running() && TicksDefined()
      modifies this`pipeline, this`benchmarkPipeline, this`continueBacktest, events
      modifies portfolio`currentHoldings, portfolio`allPositions, portfolio`allHoldings
      modifies benchmarkPortfolio`currentHoldings, benchmarkPortfolio`allPositions, benchmarkPortfolio`allHoldings
      ensures Valid()
      ensures portfolio.Ticked(old(pipeline.Latest()))
      ensures benchmarkPortfolio.Ticked(old(benchmarkPipeline.Latest()))
      ensures pipeline == old(pipeline).Advanced() && benchmarkPipeline == old(benchmarkPipeline).Advanced()
      ensures events.items == old(events.items) + old(benchmarkPipeline).Announcement(Bench) + old(pipeline).Announcement(Algo)
      ensures continueBacktest == if old(pipeline).Exhausted() || old(benchmarkPipeline).Exhausted() then 0 else 1
    {
      TickBenchmark();
      TickAlgo();
    }

    /** One turn of the loop: the head event is dispatched, or, with the queue empty, the idle
        tick runs. */
    method Step(c: Collaborators)
      requires Valid() && Running()
      requires events.items == [] ==> TicksDefined()
      modifies this`pipeline, this`benchmarkPipeline, this`continueBacktest, events
      modifies portfolio`currentPositions, portfolio`currentHoldings, portfolio`allPositions, portfolio`allHoldings
      modifies benchmarkPortfolio`currentPositions, benchmarkPortfolio`currentHoldings
      modifies benchmarkPortfolio`allPositions, benchmarkPortfolio`allHoldings
      ensures Valid() && (continueBacktest == 1 ==> Running())
      ensures old(events.items) != [] ==>
                && Running() && pipeline == old(pipeline) && benchmarkPipeline == old(benchmarkPipeline)
                && events.items == old(events.items[1..] + Reaction(events.items[0], c))
                && Handled(old(events.items[0]))
                // ledger histories grow only on idle ticks
                && portfolio.allHoldings == old(portfolio.allHoldings)
                && benchmarkPortfolio.allHoldings == old(benchmarkPortfolio.allHoldings)
                && portfolio.allPositions == old(portfolio.allPositions)
                && benchmarkPortfolio.allPositions == old(benchmarkPortfolio.allPositions)
      ensures old(events.items) == [] ==>
                && portfolio.Ticked(old(pipeline.Latest()))
                && benchmarkPortfolio.Ticked(old(benchmarkPipeline.Latest()))
                && pipeline == old(pipeline).Advanced() && benchmarkPipeline == old(benchmarkPipeline).Advanced()
                && events.items == old(benchmarkPipeline).Announcement(Bench) + old(pipeline).Announcement(Algo)
                && continueBacktest == if old(pipeline).Exhausted() || old(benchmarkPipeline).Exhausted() then 0 else 1
    {
      if |events.items| != 0 {
        Dispatch(c);
      } else {
        IdleTick();
      }
    }

    /** `runbacktest`: set the run flag, load the first bar of each lane, and step while the
        flag is 1 — at most `fuel` times, since only the pipelines end the loop. */
    method RunBacktest(c: Collaborators, fuel: nat) returns (outcome: Outcome)
      requires Valid()
      modifies this`pipeline, this`benchmarkPipeline, this`continueBacktest, events
      modifies portfolio`currentPositions, portfolio`currentHoldings, portfolio`allPositions, portfolio`allHoldings
      modifies benchmarkPortfolio`currentPositions, benchmarkPortfolio`currentHoldings
      modifies benchmarkPortfolio`allPositions, benchmarkPortfolio`allHoldings
      ensures Valid()
      ensures outcome == Finished <==> continueBacktest != 1
      ensures outcome == OutOfFuel ==> Running()
      ensures outcome == TickUndefined ==> Running() && events.items == [] && !TicksDefined()
      // a lane with no bar left stops the run before any event is handled
      ensures old(pipeline).Exhausted() || old(benchmarkPipeline).Exhausted() ==>
                outcome == Finished && unchanged(portfolio) && unchanged(benchmarkPortfolio)
      // with no step allowed: the flag is set and the first bar of each lane is loaded, the
      // algorithm's first
      ensures fuel == 0 ==>
                && unchanged(portfolio) && unchanged(benchmarkPortfolio)
                && pipeline == old(pipeline).Advanced() && benchmarkPipeline == old(benchmarkPipeline).Advanced()
                && events.items == old(events.items) + old(pipeline).Announcement(Algo) + old(benchmarkPipeline).Announcement(Bench)
                && continueBacktest == if old(pipeline).Exhausted() || old(benchmarkPipeline).Exhausted() then 0 else 1
    {
      continueBacktest := 1;
      UpdateBars();
      UpdateBenchmarkBars();
      var steps := 0;
      outcome := OutOfFuel;
      while continueBacktest == 1 && steps < fuel
        invariant Valid() && (continueBacktest == 1 ==> Running())
        invariant outcome == OutOfFuel && steps <= fuel
        invariant steps == 0 ==>
                    && unchanged(portfolio) && unchanged(benchmarkPortfolio)
                    && pipeline == old(pipeline).Advanced() && benchmarkPipeline == old(benchmarkPipeline).Advanced()
                    && events.items == old(events.items) + old(pipeline).Announcement(Algo) + old(benchmarkPipeline).Announcement(Bench)
                    && continueBacktest == if old(pipeline).Exhausted() || old(benchmarkPipeline).Exhausted() then 0 else 1
        invariant old(pipeline).Exhausted() || old(benchmarkPipeline).Exhausted() ==> steps == 0
        decreases fuel - steps
      {
        if events.items == [] && !TicksDefined() {
          outcome := TickUndefined;
          return;
        }
        Step(c);
        steps := steps + 1;
      }
      if continueBacktest != 1 {
        outcome := Finished;
      }
    }
  }

  /** A close read from a bar with no negative close is not negative. */
  lemma CloseNonNegative(bars: seq<Frame>, i: int, symbol: string)
    requires NonNegativeCloses(bars) && 0 <= i < |bars|
    ensures Close(bars[i], symbol) >= 0.0
  {
  }
}
