/** The book adds up, never goes short, and keeps its cash. */
module TradingBook {
  import opened Prelude
  import opened TradingModel

  // ----- lots -----

  function InLots(n: nat, lot: real): real {
    Times(n as real, lot)
  }

  ghost predicate Lots(qty: real, lot: real) {
    exists n: nat :: qty == InLots(n, lot)
  }

  lemma RoundsToLots(lot: real, qty: real)
    requires lot > 0.0 && qty >= 0.0
    ensures Lots(RoundQty(lot, qty), lot) && RoundQty(lot, qty) >= 0.0
  {
    var lots := qty / lot + 0.000000001;
    assert qty / lot >= 0.0;
    var n: nat := lots.Floor;
    assert RoundQty(lot, qty) == InLots(n, lot);
    assert n as real * lot >= 0.0;
  }

  /** Negative requests round to negative quantities, or none. */
  lemma RoundsNegative(lot: real, qty: real)
    requires lot > 0.0 && qty < 0.0
    ensures RoundQty(lot, qty) <= 0.0
  {
    var lots := Abs(qty) / lot + 0.000000001;
    assert Abs(qty) / lot >= 0.0;
    assert lots.Floor as real * lot >= 0.0;
  }

  lemma LotsAdd(a: real, b: real, lot: real)
    requires Lots(a, lot) && Lots(b, lot)
    ensures Lots(a + b, lot)
  {
    var n: nat :| a == InLots(n, lot);
    var k: nat :| b == InLots(k, lot);
    assert a + b == InLots(n + k, lot);
  }

  /** Whole lots differ by nothing or by more than the book's tolerance. */
  lemma LotsDiffer(held: real, sold: real, lot: real)
    requires Lots(held, lot) && Lots(sold, lot) && lot > 0.000000001 && sold - held <= 0.000000001
    ensures sold <= held && Lots(held - sold, lot)
    ensures held - sold <= 0.000000000001 ==> held == sold
  {
    var n: nat :| held == InLots(n, lot);
    var k: nat :| sold == InLots(k, lot);
    assert k > n ==> (k - n - 1) as real * lot >= 0.0;
    if k <= n {
      var d: nat := n - k;
      assert held - sold == InLots(d, lot);
      if d > 0 {
        assert (d - 1) as real * lot >= 0.0;
      } else {
        assert held == sold;
      }
    }
  }

  // ----- one position -----

  ghost predicate PositionOk(pos: Position, lot: real) {
    pos.qty >= 0.0 && pos.avg >= 0.0 && Lots(pos.qty, lot)
  }

  function Cost(pos: Position): real {
    Times(pos.avg, pos.qty)
  }

  /** A fill of whole lots moves cost and realised gains by what it moves in money. */
  lemma MovedIs(pos: Position, f: Fill, lot: real)
    requires PositionOk(pos, lot) && Lots(f.qty, lot) && f.qty > 0.0 && f.price >= 0.0 && lot > 0.000000001
    ensures f.side.Buy? ==> Moved(pos, f).Some?
    ensures f.side.Sell? ==> (Moved(pos, f).Some? <==> f.qty <= pos.qty)
    ensures Moved(pos, f).Some? ==>
      var pos' := Moved(pos, f).value;
      && PositionOk(pos', lot)
      && pos'.qty == (if f.side.Buy? then pos.qty + f.qty else pos.qty - f.qty)
      && Cost(pos') - pos'.realised == Cost(pos) - pos.realised - CashDelta(f) - f.commission
  {
    if f.side.Buy? {
      BuyIs(pos, f, lot);
    } else if f.qty - pos.qty <= 0.000000001 {
      SellIs(pos, f, lot);
    }
  }

  lemma BuyIs(pos: Position, f: Fill, lot: real)
    requires PositionOk(pos, lot) && Lots(f.qty, lot) && f.qty > 0.0 && f.price >= 0.0 && f.side.Buy?
    ensures Moved(pos, f).Some?
    ensures var pos' := Moved(pos, f).value;
      && PositionOk(pos', lot) && pos'.qty == pos.qty + f.qty && pos'.realised == pos.realised
      && Cost(pos') == Cost(pos) + Times(f.qty, f.price)
  {
    LotsAdd(pos.qty, f.qty, lot);
    var total, qty := Times(pos.avg, pos.qty) + Times(f.price, f.qty), pos.qty + f.qty;
    NonnegativeTimes(pos.avg, pos.qty);
    NonnegativeTimes(f.price, f.qty);
    DividedBack(total, qty);
    assert f.price * f.qty == f.qty * f.price;
  }

  lemma NonnegativeTimes(a: real, b: real)
    requires a >= 0.0 && b >= 0.0
    ensures Times(a, b) >= 0.0
  {
  }

  lemma DividedBack(a: real, b: real)
    requires b > 0.0 && a >= 0.0
    ensures Times(a / b, b) == a && a / b >= 0.0
  {
  }

  lemma SellIs(pos: Position, f: Fill, lot: real)
    requires PositionOk(pos, lot) && Lots(f.qty, lot) && f.qty > 0.0 && f.side.Sell? && lot > 0.000000001
    requires f.qty - pos.qty <= 0.000000001
    ensures Moved(pos, f).Some? && f.qty <= pos.qty
    ensures var pos' := Moved(pos, f).value;
      && PositionOk(pos', lot) && pos'.qty == pos.qty - f.qty
      && Cost(pos') - pos'.realised == Cost(pos) - pos.realised - Times(f.qty, f.price)
  {
    LotsDiffer(pos.qty, f.qty, lot);
    SellMoney(pos.avg, pos.qty, f.price, f.qty);
    NoLots(lot);
  }

  lemma NoLots(lot: real)
    ensures Lots(0.0, lot)
  {
    assert InLots(0, lot) == 0.0;
  }

  lemma SellMoney(avg: real, held: real, price: real, qty: real)
    ensures Times(avg, held - qty) - Times(price - avg, qty) == Times(avg, held) - Times(qty, price)
    ensures Times(0.0, 0.0) == 0.0
  {
  }

  // ----- the whole book -----

  /** What the positions cost. */
  function Basis(p: Portfolio, symbols: seq<string>): real {
    if symbols == [] then 0.0
    else Basis(p, symbols[..|symbols| - 1]) + Cost(Held(p, symbols[|symbols| - 1]))
  }

  function Realised(p: Portfolio, symbols: seq<string>): real {
    if symbols == [] then 0.0
    else Realised(p, symbols[..|symbols| - 1]) + Held(p, symbols[|symbols| - 1]).realised
  }

  function Fees(fills: seq<Fill>): real {
    if fills == [] then 0.0 else Fees(fills[..|fills| - 1]) + fills[|fills| - 1].commission
  }

  /** Cash and what the positions cost are the starting cash, the gains realised and less the
      commissions paid. */
  ghost predicate Balanced(u: Universe, p: Portfolio) {
    p.cash + Basis(p, u.symbols) == p.startingCash + Realised(p, u.symbols) - Fees(p.fills)
  }

  ghost predicate BookOk(u: Universe, p: Portfolio) {
    && Listed(u) && Balanced(u, p)
    && (forall s :: s in p.positions ==> s in u.lots && PositionOk(p.positions[s], u.lots[s]))
  }

  lemma HeldOk(u: Universe, p: Portfolio, s: string)
    requires BookOk(u, p) && s in u.lots
    ensures PositionOk(Held(p, s), u.lots[s])
  {
    NoLots(u.lots[s]);
  }

  /** Changing one position changes the sums by its own difference. */
  lemma {:induction false} SumsMove(p: Portfolio, p': Portfolio, s: string, symbols: seq<string>)
    requires NoDup(symbols) && forall x :: x != s ==> Held(p', x) == Held(p, x)
    ensures s !in symbols ==> Basis(p', symbols) == Basis(p, symbols) && Realised(p', symbols) == Realised(p, symbols)
    ensures s in symbols ==>
      && Basis(p', symbols) == Basis(p, symbols) + Cost(Held(p', s)) - Cost(Held(p, s))
      && Realised(p', symbols) == Realised(p, symbols) + Held(p', s).realised - Held(p, s).realised
  {
    hide Cost, Held;
    if symbols != [] {
      var last := symbols[|symbols| - 1];
      DropLast(symbols);
      SumsMove(p, p', s, symbols[..|symbols| - 1]);
    }
  }

  /** A fill of whole lots in a listed symbol keeps the book in order; a sale of more than is
      held changes nothing that counts. */
  lemma AppliedKeeps(u: Universe, p: Portfolio, f: Fill)
    requires BookOk(u, p) && f.symbol in u.lots && Lots(f.qty, u.lots[f.symbol]) && f.qty > 0.0 && f.price >= 0.0
    ensures var (p', taken) := Applied(p, f);
      && BookOk(u, p') && p'.startingCash == p.startingCash
      && (taken <==> f.side.Buy? || f.qty <= Held(p, f.symbol).qty)
      && (taken ==> p'.cash == p.cash + CashDelta(f) && p'.fills == p.fills + [f])
      && (!taken ==> p'.cash == p.cash && p'.fills == p.fills)
      && var change := if !taken then 0.0 else if f.side.Buy? then f.qty else -f.qty;
      forall s :: Held(p', s).qty == Held(p, s).qty + if s == f.symbol then change else 0.0
  {
    hide Cost, PositionOk, Lots, CashDelta, Moved, Basis, Realised, Fees;
    var lot := u.lots[f.symbol];
    HeldOk(u, p, f.symbol);
    MovedIs(Held(p, f.symbol), f, lot);
    var (p', taken) := Applied(p, f);
    SumsMove(p, p', f.symbol, u.symbols);
    FeesNext(p.fills, f);
  }

  lemma FeesNext(fills: seq<Fill>, f: Fill)
    ensures Fees(fills + [f]) == Fees(fills) + f.commission
  {
    assert (fills + [f])[..|fills|] == fills;
  }

  // ----- cash -----

  /** Slippage and commission together, as a share of the quoted notional. */
  function Friction(b: Broker): real {
    Slip(b) + b.commissionBps / 10000.0 + Times(Slip(b), b.commissionBps / 10000.0)
  }

  /** Costs under which the cash buffer covers what a fill costs beyond its quoted notional. */
  ghost predicate Covered(b: Broker, l: Limits) {
    && 0.0 <= b.slippageBps <= 10000.0 && 0.0 <= b.commissionBps <= 10000.0 && b.minCommission == 0.0
    && !l.allowLeverage && !l.allowShort
    && l.maxWeight >= 0.0 && Times(l.maxWeight, Friction(b)) <= l.minBuffer
  }

  /** A buy costs its quoted notional and the friction on it. */
  lemma BuyCosts(b: Broker, o: Order, q: Quote)
    requires o.side.Buy? && o.qty > 0.0 && q.ask > 0.0 && b.minCommission == 0.0
    requires 0.0 <= b.slippageBps && 0.0 <= b.commissionBps && Placed(b, o, q).Some?
    ensures CashDelta(Placed(b, o, q).value) == -Notional(o, q) - Times(Notional(o, q), Friction(b))
  {
    var f := Placed(b, o, q).value;
    var s, c, n := Slip(b), b.commissionBps / 10000.0, o.qty * q.ask;
    assert o.qty * f.price == n * (1.0 + s);
    assert Times(Times(o.qty, f.price), b.commissionBps) / 10000.0 == n * (1.0 + s) * c;
    FeeNonnegative(n, s, c);
    assert n * (1.0 + s) * c == n * c + n * (s * c);
  }

  lemma FeeNonnegative(n: real, s: real, c: real)
    requires n >= 0.0 && s >= 0.0 && c >= 0.0
    ensures n * (1.0 + s) * c >= 0.0
  {
    assert n * (1.0 + s) >= 0.0;
  }

  /** A sale brings money in. */
  lemma SellBrings(b: Broker, o: Order, q: Quote)
    requires o.side.Sell? && o.qty > 0.0 && q.bid > 0.0 && b.minCommission == 0.0
    requires 0.0 <= b.slippageBps <= 10000.0 && 0.0 <= b.commissionBps <= 10000.0 && Placed(b, o, q).Some?
    ensures CashDelta(Placed(b, o, q).value) >= 0.0 && Placed(b, o, q).value.price >= 0.0
  {
    hide Times;
    var f := Placed(b, o, q).value;
    NonnegativeTimes(q.bid, 1.0 - Slip(b));
    NonnegativeTimes(o.qty, f.price);
    FeeBelow(Times(o.qty, f.price), b.commissionBps);
  }

  /** A commission of at most the whole is between nothing and the whole. */
  lemma FeeBelow(gross: real, bps: real)
    requires gross >= 0.0 && 0.0 <= bps <= 10000.0
    ensures 0.0 <= Times(gross, bps) / 10000.0 <= gross
  {
    var c := bps / 10000.0;
    NonnegativeTimes(gross, 1.0 - c);
    NonnegativeTimes(gross, bps);
    assert gross * c == Times(gross, bps) / 10000.0;
  }

  /** Holdings at positive prices are worth something or nothing. */
  lemma {:induction false} ValueNonnegative(u: Universe, p: Portfolio, m: Market, symbols: seq<string>)
    requires BookOk(u, p) && Priced(m) && forall s :: s in symbols ==> s in u.lots
    ensures ValueOf(p, m, symbols) >= 0.0
  {
    if symbols != [] {
      var s := symbols[|symbols| - 1];
      ValueNonnegative(u, p, m, symbols[..|symbols| - 1]);
      HeldOk(u, p, s);
      NonnegativeTimes(Held(p, s).qty, PriceOf(m, s, Held(p, s)));
    }
  }

  /** A buy that passes the checks leaves cash, friction included. */
  lemma BuyAffordable(u: Universe, b: Broker, l: Limits, o: Order, q: Quote, p: Portfolio, m: Market)
    requires BookOk(u, p) && Priced(m) && Covered(b, l) && o.symbol in u.lots && o.qty > 0.0 && q.ask > 0.0
      && o.side.Buy?
    requires BuyReasons(u, l, o, Notional(o, q), q.ask, p, m) == []
    ensures p.cash - Notional(o, q) - Times(Notional(o, q), Friction(b)) >= 0.0
  {
    hide BookOk, Lots, Friction;
    var n, equity := Notional(o, q), Equity(u, p, m);
    ListedSymbols(u, p);
    ValueNonnegative(u, p, m, u.symbols);
    assert n > 0.0;
    assert n <= p.cash;
    HeldOk(u, p, o.symbol);
    NonnegativeTimes(Held(p, o.symbol).qty, q.ask);
    Passes(u, l, o, n, q.ask, p, m);
    ShareOf(Times(Held(p, o.symbol).qty, q.ask) + n, equity, l.maxWeight);
    FrictionNonnegative(b);
    CoveredMoney(n, equity, l.maxWeight, Friction(b), l.minBuffer);
  }

  lemma ListedSymbols(u: Universe, p: Portfolio)
    requires BookOk(u, p)
    ensures forall s :: s in u.symbols ==> s in u.lots
  {
  }

  /** What it means that no reason speaks against a buy. */
  lemma Passes(u: Universe, l: Limits, o: Order, notional: real, price: real, p: Portfolio, m: Market)
    requires BuyReasons(u, l, o, notional, price, p, m) == [] && Equity(u, p, m) > 0.0
    ensures p.cash - notional >= Times(l.minBuffer, Equity(u, p, m))
    ensures (Times(Held(p, o.symbol).qty, price) + notional) / Equity(u, p, m) <= l.maxWeight
  {
    hide Equity, ExposureOf, Held, Times;
  }

  lemma ShareOf(a: real, b: real, w: real)
    requires b > 0.0 && a / b <= w
    ensures a <= Times(w, b)
  {
    assert (w - a / b) * b >= 0.0;
  }

  lemma FrictionNonnegative(b: Broker)
    requires 0.0 <= b.slippageBps && 0.0 <= b.commissionBps
    ensures Friction(b) >= 0.0
  {
    NonnegativeTimes(Slip(b), b.commissionBps / 10000.0);
  }

  lemma CoveredMoney(n: real, equity: real, w: real, friction: real, buffer: real)
    requires equity > 0.0 && friction >= 0.0 && n <= Times(w, equity) && Times(w, friction) <= buffer
    ensures Times(n, friction) <= Times(buffer, equity)
  {
    assert (w * equity - n) * friction >= 0.0;
    assert (buffer - w * friction) * equity >= 0.0;
    assert w * equity * friction == w * friction * equity;
  }
}
