/** The portfolio accounting engine (app/services/portfolio_manager.py):
    per-symbol positions under weighted-average-cost accounting, the
    append-only log of accepted trades, and the portfolio and PnL queries. */
module Portfolio {
  import opened Results
  import opened Trades

  /** Aggregate holding of one symbol. */
  datatype Position = Position(symbol: string, totalQuantity: real, avgEntryPrice: real, realizedPnl: real)
  {
    /** Quantity is never negative, and the average price is zero exactly
        when nothing is held (it is reset on close and strictly positive
        after any buy, since buy prices are positive). */
    predicate WellFormed() {
      && totalQuantity >= 0.0
      && avgEntryPrice >= 0.0
      && (totalQuantity == 0.0 <==> avgEntryPrice == 0.0)
    }

    predicate IsOpen() {
      totalQuantity > 0.0
    }
  }

  /** Both ways the engine rejects an operation (a `ValueError` in the source). */
  datatype LedgerError = InsufficientQuantity(symbol: string) | MissingMarketPrice(symbol: string)

  /** The state of a symbol that has not been traded yet. */
  function NewPosition(symbol: string): (p: Position)
    ensures p.symbol == symbol && p.WellFormed() && !p.IsOpen() && p.realizedPnl == 0.0
  {
    Position(symbol, 0.0, 0.0, 0.0)
  }

  /** What the store holds for `symbol`, or a fresh position when it has none. */
  function PositionOf(positions: map<string, Position>, symbol: string): Position {
    if symbol in positions then positions[symbol] else NewPosition(symbol)
  }

  /** Total cost of the quantity held, at the average entry price. */
  function CostBasis(p: Position): real {
    p.totalQuantity * p.avgEntryPrice
  }

  /** The change a trade makes to the quantity held. */
  function SignedQuantity(t: Trade): real {
    if t.side == Buy then t.quantity else -t.quantity
  }

  /** Profit a trade locks in against the average cost: only sells realise any. */
  function RealizedDelta(p: Position, t: Trade): real {
    if t.side == Sell then (t.price - p.avgEntryPrice) * t.quantity else 0.0
  }

  /** The accounting step of `add_trade` on one position. */
  function Apply(p: Position, t: Trade): (r: Result<Position, LedgerError>)
    requires p.WellFormed() && t.WellFormed()
    ensures r.Success? <==> t.side == Buy || t.quantity <= p.totalQuantity
    ensures r.Failure? ==> r.error == InsufficientQuantity(t.symbol)
    ensures r.Success? ==> r.value.symbol == p.symbol && r.value.WellFormed()
    ensures r.Success? ==> r.value.totalQuantity == p.totalQuantity + SignedQuantity(t)
    ensures r.Success? && t.side == Sell ==>
              r.value.avgEntryPrice == if r.value.totalQuantity == 0.0 then 0.0 else p.avgEntryPrice
  {
    if t.side == Buy then
      var newTotalQty := p.totalQuantity + t.quantity;
      var newTotalCost := p.totalQuantity * p.avgEntryPrice + t.quantity * t.price;
      PositiveAverage(p.totalQuantity, p.avgEntryPrice, t.quantity, t.price);
      Success(p.(totalQuantity := newTotalQty, avgEntryPrice := newTotalCost / newTotalQty))
    else if t.quantity > p.totalQuantity then
      Failure(InsufficientQuantity(t.symbol))
    else
      var realized := (t.price - p.avgEntryPrice) * t.quantity;
      var remaining := p.totalQuantity - t.quantity;
      Success(p.(realizedPnl := p.realizedPnl + realized, totalQuantity := remaining,
                 avgEntryPrice := if remaining == 0.0 then 0.0 else p.avgEntryPrice))
  }

  /** A buy blends the held cost with the bought cost into a positive
      average, and that average times the new quantity is the total cost. */
  lemma PositiveAverage(q: real, a: real, tq: real, tp: real)
    requires q >= 0.0 && a >= 0.0 && tq > 0.0 && tp > 0.0
    ensures (q * a + tq * tp) / (q + tq) > 0.0
    ensures (q + tq) * ((q * a + tq * tp) / (q + tq)) == q * a + tq * tp
  {
    assert q * a >= 0.0;
    assert tq * tp > 0.0;
  }

  /** What an accepted trade does to the money: a buy adds what was paid to
      the cost basis and realises nothing; a sell realises the difference
      between its price and the average entry price on the quantity sold. */
  lemma ApplyAccounting(p: Position, t: Trade)
    requires p.WellFormed() && t.WellFormed() && Apply(p, t).Success?
    ensures Apply(p, t).value.realizedPnl == p.realizedPnl + RealizedDelta(p, t)
    ensures t.side == Buy ==> CostBasis(Apply(p, t).value) == CostBasis(p) + t.quantity * t.price
  {
    if t.side == Buy {
      PositiveAverage(p.totalQuantity, p.avgEntryPrice, t.quantity, t.price);
    }
  }

  /** The life cycle of one position: a buy always leaves it open; a sell
      from an empty position always fails; a sell leaves it open exactly
      when less than the held quantity is sold, and closes it (average price
      back to zero) when all of it is sold. */
  lemma PositionLifecycle(p: Position, t: Trade)
    requires p.WellFormed() && t.WellFormed()
    ensures t.side == Buy ==> Apply(p, t).Success? && Apply(p, t).value.IsOpen()
    ensures t.side == Sell && !p.IsOpen() ==> Apply(p, t).Failure?
    ensures t.side == Sell && t.quantity < p.totalQuantity ==>
              Apply(p, t).Success? && Apply(p, t).value.IsOpen() && Apply(p, t).value.avgEntryPrice == p.avgEntryPrice
    ensures t.side == Sell && t.quantity == p.totalQuantity ==>
              Apply(p, t).Success? && !Apply(p, t).value.IsOpen() && Apply(p, t).value.avgEntryPrice == 0.0
  {
  }

  predicate AllWellFormed(log: seq<Trade>) {
    forall i | 0 <= i < |log| :: log[i].WellFormed()
  }

  /** The position of `s` after the trades of `log` are applied in order;
      a trade the engine rejects leaves the position as it was. */
  function Replay(s: string, log: seq<Trade>): (p: Position)
    requires AllWellFormed(log)
    ensures p.symbol == s && p.WellFormed()
    decreases |log|
  {
    if log == [] then NewPosition(s)
    else
      var prev := Replay(s, log[..|log| - 1]);
      var t := log[|log| - 1];
      if t.symbol != s then prev
      else match Apply(prev, t)
        case Success(next) => next
        case Failure(_) => prev
  }

  /** A symbol that no trade of the log names is still fresh. */
  lemma {:induction false} ReplayUntraded(s: string, log: seq<Trade>)
    requires AllWellFormed(log)
    requires forall i | 0 <= i < |log| :: log[i].symbol != s
    ensures Replay(s, log) == NewPosition(s)
  {
    if log != [] {
      ReplayUntraded(s, log[..|log| - 1]);
    }
  }

  /** Total quantity bought by a log of buys. */
  function BoughtQuantity(log: seq<Trade>): real
    decreases |log|
  {
    if log == [] then 0.0 else BoughtQuantity(log[..|log| - 1]) + log[|log| - 1].quantity
  }

  /** Total amount paid for a log of buys. */
  function BoughtCost(log: seq<Trade>): real
    decreases |log|
  {
    if log == [] then 0.0 else BoughtCost(log[..|log| - 1]) + log[|log| - 1].quantity * log[|log| - 1].price
  }

  /** After only buys of a fresh symbol, the quantity held is the quantity
      bought, the average entry price is the quantity-weighted mean of the
      buy prices, and nothing has been realised. */
  lemma {:induction false} BuysAverageIsWeightedMean(s: string, log: seq<Trade>)
    requires AllWellFormed(log)
    requires forall i | 0 <= i < |log| :: log[i].symbol == s && log[i].side == Buy
    ensures Replay(s, log).totalQuantity == BoughtQuantity(log)
    ensures CostBasis(Replay(s, log)) == BoughtCost(log)
    ensures log != [] ==> BoughtQuantity(log) > 0.0
    ensures log != [] ==> Replay(s, log).avgEntryPrice == BoughtCost(log) / BoughtQuantity(log)
    ensures Replay(s, log).realizedPnl == 0.0
  {
    if log != [] {
      var init, t := log[..|log| - 1], log[|log| - 1];
      BuysAverageIsWeightedMean(s, init);
      var prev := Replay(s, init);
      ApplyAccounting(prev, t);
      var p := Replay(s, log);
      assert p == Apply(prev, t).value;
      assert p.totalQuantity == BoughtQuantity(log) > 0.0;
      assert CostBasis(p) == BoughtCost(log);
      QuotientOfProduct(p.totalQuantity, p.avgEntryPrice, BoughtCost(log));
    }
  }

  lemma QuotientOfProduct(q: real, a: real, c: real)
    requires q > 0.0 && q * a == c
    ensures a == c / q
  {
  }

  /** Sum of the realised PnL of the positions at `keys`. */
  function SumRealized(keys: seq<string>, positions: map<string, Position>): real
    requires forall k | k in keys :: k in positions
    decreases |keys|
  {
    if keys == [] then 0.0
    else SumRealized(keys[..|keys| - 1], positions) + positions[keys[|keys| - 1]].realizedPnl
  }

  predicate Distinct(keys: seq<string>) {
    forall i, j | 0 <= i < j < |keys| :: keys[i] != keys[j]
  }

  /** Replacing one position changes the realised total by exactly the
      change in that position's realised PnL. */
  lemma {:induction false} SumRealizedUpdate(keys: seq<string>, positions: map<string, Position>, s: string, p: Position)
    requires forall k | k in keys :: k in positions
    requires Distinct(keys)
    ensures SumRealized(keys, positions[s := p])
         == SumRealized(keys, positions) + (if s in keys then p.realizedPnl - positions[s].realizedPnl else 0.0)
  {
    if keys != [] {
      var init := keys[..|keys| - 1];
      SumRealizedUpdate(init, positions, s, p);
      assert s in keys <==> s in init || s == keys[|keys| - 1];
      assert s == keys[|keys| - 1] ==> s !in init;
    }
  }

  /** Applying an accepted trade to the position of its symbol moves the
      realised total over all symbols by exactly what the trade realises:
      the price difference times the quantity for a sell, nothing for a buy. */
  lemma AcceptedTradeMovesRealizedTotal(positions: map<string, Position>, order: seq<string>, trades: seq<Trade>, t: Trade)
    requires Consistent(positions, order, trades) && t.WellFormed() && t.symbol in positions
    requires Apply(positions[t.symbol], t).Success?
    ensures SumRealized(order, positions[t.symbol := Apply(positions[t.symbol], t).value])
         == SumRealized(order, positions) + RealizedDelta(positions[t.symbol], t)
  {
    ApplyAccounting(positions[t.symbol], t);
    SumRealizedUpdate(order, positions, t.symbol, Apply(positions[t.symbol], t).value);
  }

  /** An open position whose symbol the price table lacks. */
  predicate MissingPrice(positions: map<string, Position>, prices: map<string, real>, s: string) {
    s in positions && positions[s].IsOpen() && s !in prices
  }

  /** Paper profit of the position held at `s` against the market price. */
  function Unrealized(positions: map<string, Position>, prices: map<string, real>, s: string): real
    requires s in positions && !MissingPrice(positions, prices, s)
  {
    var p := positions[s];
    if p.IsOpen() then (prices[s] - p.avgEntryPrice) * p.totalQuantity else 0.0
  }

  /** Sum of the unrealised PnL of the positions at `keys`. */
  function SumUnrealized(keys: seq<string>, positions: map<string, Position>, prices: map<string, real>): real
    requires forall k | k in keys :: k in positions && !MissingPrice(positions, prices, k)
    decreases |keys|
  {
    if keys == [] then 0.0
    else SumUnrealized(keys[..|keys| - 1], positions, prices) + Unrealized(positions, prices, keys[|keys| - 1])
  }

  /** The store's invariant: every accepted trade is well formed and its
      symbol has a position; `order` lists each key exactly once; and each
      position is what replaying the log for its symbol yields. */
  ghost predicate Consistent(positions: map<string, Position>, order: seq<string>, trades: seq<Trade>) {
    && AllWellFormed(trades)
    && (forall i | 0 <= i < |trades| :: trades[i].symbol in positions)
    && Distinct(order)
    && (forall s :: s in positions <==> s in order)
    && (forall s | s in positions :: positions[s].symbol == s && positions[s].WellFormed())
    && (forall s {:trigger Replay(s, trades)} | s in positions :: positions[s] == Replay(s, trades))
  }

  /** The `setdefault` of a symbol the store has not seen keeps the invariant. */
  lemma CreateKeepsConsistent(positions: map<string, Position>, order: seq<string>, trades: seq<Trade>, s: string)
    requires Consistent(positions, order, trades) && s !in positions
    ensures Consistent(positions[s := NewPosition(s)], order + [s], trades)
  {
    ReplayUntraded(s, trades);
  }

  /** Replaying one more trade. */
  lemma ReplaySnoc(s: string, log: seq<Trade>, t: Trade)
    requires AllWellFormed(log) && t.WellFormed()
    ensures AllWellFormed(log + [t])
    ensures Replay(s, log + [t]) == if t.symbol != s then Replay(s, log)
                                    else match Apply(Replay(s, log), t)
                                      case Success(next) => next
                                      case Failure(_) => Replay(s, log)
  {
    assert (log + [t])[..|log|] == log;
  }

  /** Writing back an accepted trade's position and logging the trade keeps the invariant. */
  lemma AcceptKeepsConsistent(positions: map<string, Position>, order: seq<string>, trades: seq<Trade>, t: Trade)
    requires Consistent(positions, order, trades) && t.WellFormed() && t.symbol in positions
    requires Apply(positions[t.symbol], t).Success?
    ensures Consistent(positions[t.symbol := Apply(positions[t.symbol], t).value], order, trades + [t])
  {
    var next := positions[t.symbol := Apply(positions[t.symbol], t).value];
    var log := trades + [t];
    assert next.Keys == positions.Keys;
    assert AllWellFormed(log) by { ReplaySnoc(t.symbol, trades, t); }
    assert forall i | 0 <= i < |log| :: log[i].symbol in next by {
      forall i | 0 <= i < |log| ensures log[i].symbol in next {
        if i < |trades| { assert log[i] == trades[i]; }
      }
    }
    forall s | s in next
      ensures next[s] == Replay(s, log)
    {
      ReplaySnoc(s, trades, t);
    }
  }

  /** One row of `get_portfolio`. */
  datatype Holding = Holding(quantity: real, averageEntryPrice: real, realizedPnl: real)

  /** One row of the `pnl_split` of `get_pnl`. */
  datatype PnlEntry = PnlEntry(realizedPnl: real, unrealizedPnl: real, quantity: real, averageEntryPrice: real)

  /** The answer of `get_pnl`. */
  datatype PnlReport = PnlReport(realizedPnl: real, unrealizedPnl: real, pnlSplit: map<string, PnlEntry>)

  const DefaultMarketPrices: map<string, real> := map["BTC" := 44000.0, "ETH" := 2000.0]

  /** `PortfolioManager`: the position map, the log of accepted trades and
      the fixed market price table. */
  class PortfolioManager {
    var positions: map<string, Position>
    /** The keys of `positions` in insertion order, the order in which a
        Python dict is iterated. */
    var order: seq<string>
    var trades: seq<Trade>
    const marketPrices: map<string, real>

    ghost predicate Valid()
      reads this
    {
      Consistent(positions, order, trades)
    }

    /** `order` lists exactly the keys of `positions`: the part of the
        invariant the queries need. */
    ghost predicate KeysInOrder()
      reads this
    {
      forall s :: s in positions <==> s in order
    }

    constructor ()
      ensures Valid()
      ensures positions == map[] && order == [] && trades == []
      ensures marketPrices == DefaultMarketPrices
    {
      positions := map[];
      order := [];
      trades := [];
      marketPrices := DefaultMarketPrices;
    }

    /** `positions.setdefault(symbol, Position(symbol))`: the position held
        for `symbol`, created fresh (and appended to the key order) when the
        store has none. */
    method SetDefault(symbol: string) returns (pos: Position)
      requires Valid()
      modifies this
      ensures Valid()
      ensures pos == PositionOf(old(positions), symbol)
      ensures positions == old(positions)[symbol := pos]
      ensures order == old(order) + (if symbol in old(positions) then [] else [symbol])
      ensures trades == old(trades)
    {
      if symbol !in positions {
        CreateKeepsConsistent(positions, order, trades, symbol);
        positions := positions[symbol := NewPosition(symbol)];
        order := order + [symbol];
        assert order[..|order| - 1] == old(order);
      } else {
        assert old(order) + [] == old(order);
        assert positions == positions[symbol := positions[symbol]];
      }
      pos := positions[symbol];
    }

    /** `add_trade`: fetch or create the position, apply the trade to it,
        and log the trade only if it was accepted. */
    method AddTrade(trade: Trade) returns (outcome: Outcome<LedgerError>)
      requires Valid() && trade.WellFormed()
      modifies this
      ensures Valid()
      ensures order == old(order) + (if trade.symbol in old(positions) then [] else [trade.symbol])
      ensures outcome.Fail? <==> trade.side == Sell && trade.quantity > PositionOf(old(positions), trade.symbol).totalQuantity
      ensures outcome.Fail? ==> outcome.error == InsufficientQuantity(trade.symbol)
      ensures outcome.Fail? ==>
                && positions == old(positions)[trade.symbol := PositionOf(old(positions), trade.symbol)]
                && trades == old(trades)
      ensures outcome.Pass? ==>
                && positions == old(positions)[trade.symbol := Apply(PositionOf(old(positions), trade.symbol), trade).value]
                && trades == old(trades) + [trade]
    {
      var pos := SetDefault(trade.symbol);
      var settled := Apply(pos, trade);
      if settled.Failure? {
        outcome := Fail(settled.error);
        return;
      }
      AcceptKeepsConsistent(positions, order, trades, trade);
      assert positions[trade.symbol := settled.value] == old(positions)[trade.symbol := settled.value];
      positions := positions[trade.symbol := settled.value];
      trades := trades + [trade];
      outcome := Pass;
    }

    /** `get_portfolio`: the open positions, and only those. */
    method GetPortfolio() returns (result: map<string, Holding>)
      requires KeysInOrder()
      ensures forall s :: s in result <==> s in positions && positions[s].IsOpen()
      ensures forall s | s in result ::
                result[s] == Holding(positions[s].totalQuantity, positions[s].avgEntryPrice, positions[s].realizedPnl)
    {
      result := map[];
      var i := 0;
      while i < |order|
        invariant 0 <= i <= |order|
        invariant forall s :: s in result <==> s in order[..i] && positions[s].IsOpen()
        invariant forall s | s in result ::
                    result[s] == Holding(positions[s].totalQuantity, positions[s].avgEntryPrice, positions[s].realizedPnl)
      {
        var symbol := order[i];
        var pos := positions[symbol];
        if pos.totalQuantity > 0.0 {
          result := result[symbol := Holding(pos.totalQuantity, pos.avgEntryPrice, pos.realizedPnl)];
        }
        assert order[..i + 1] == order[..i] + [symbol];
        i := i + 1;
      }
      assert order[..i] == order;
    }

    /** `get_pnl`: realised and unrealised PnL of every symbol ever traded,
        or the first open symbol (in insertion order) that has no price. */
    method GetPnl() returns (r: Result<PnlReport, LedgerError>)
      requires KeysInOrder()
      ensures r.Failure? <==> exists i :: 0 <= i < |order| && MissingPrice(positions, marketPrices, order[i])
      ensures r.Failure? ==>
                exists i :: && 0 <= i < |order|
                            && MissingPrice(positions, marketPrices, order[i])
                            && r.error == MissingMarketPrice(order[i])
                            && forall j :: 0 <= j < i ==> !MissingPrice(positions, marketPrices, order[j])
      ensures r.Success? ==> r.value.realizedPnl == SumRealized(order, positions)
      ensures r.Success? ==> r.value.unrealizedPnl == SumUnrealized(order, positions, marketPrices)
      ensures r.Success? ==> r.value.pnlSplit.Keys == positions.Keys
      ensures r.Success? ==> forall s | s in r.value.pnlSplit ::
                r.value.pnlSplit[s] == PnlEntry(positions[s].realizedPnl, Unrealized(positions, marketPrices, s),
                                                positions[s].totalQuantity, positions[s].avgEntryPrice)
    {
      var totalRealized, totalUnrealized := 0.0, 0.0;
      var bySymbol: map<string, PnlEntry> := map[];
      var i := 0;
      while i < |order|
        invariant 0 <= i <= |order|
        invariant forall j | 0 <= j < i :: !MissingPrice(positions, marketPrices, order[j])
        invariant totalRealized == SumRealized(order[..i], positions)
        invariant totalUnrealized == SumUnrealized(order[..i], positions, marketPrices)
        invariant forall s :: s in bySymbol <==> s in order[..i]
        invariant forall s | s in bySymbol ::
                    !MissingPrice(positions, marketPrices, s) &&
                    bySymbol[s] == PnlEntry(positions[s].realizedPnl, Unrealized(positions, marketPrices, s),
                                            positions[s].totalQuantity, positions[s].avgEntryPrice)
      {
        var symbol := order[i];
        var pos := positions[symbol];
        var realized := pos.realizedPnl;
        var unrealized := 0.0;
        if pos.totalQuantity > 0.0 {
          if symbol !in marketPrices {
            assert MissingPrice(positions, marketPrices, order[i]);
            r := Failure(MissingMarketPrice(symbol));
            return;
          }
          var marketPrice := marketPrices[symbol];
          unrealized := (marketPrice - pos.avgEntryPrice) * pos.totalQuantity;
        }
        assert order[..i + 1] == order[..i] + [symbol];
        totalRealized := totalRealized + realized;
        totalUnrealized := totalUnrealized + unrealized;
        bySymbol := bySymbol[symbol := PnlEntry(realized, unrealized, pos.totalQuantity, pos.avgEntryPrice)];
        i := i + 1;
      }
      assert order[..i] == order;
      r := Success(PnlReport(totalRealized, totalUnrealized, bySymbol));
    }
  }
}
