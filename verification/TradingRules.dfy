/** The rules of the book one by one: lots, fills, positions, what the account is worth, every reason to refuse
    an order, and every error of an approval. */
module TradingRules {
  import opened Prelude
  import opened TradingModel
  import opened TradingRuns

  // ----- lots -----

  /** The most whole lots in a quantity, a billionth of a lot of float error forgiven. */
  lemma RoundsToLots(lot: real, qty: real) returns (n: int)
    requires lot > 0.0 && qty >= 0.0
    ensures n >= 0 && RoundQty(lot, qty) == Times(n as real, lot)
    ensures Times(n as real, lot) <= qty + Times(0.000000001, lot) < Times((n + 1) as real, lot)
    ensures RoundQty(lot, -qty) == -RoundQty(lot, qty)
  {
    var x := qty / lot + 0.000000001;
    n := x.Floor;
    assert Times(qty / lot, lot) == qty;
    ScalesUp(n as real, x, lot);
    ScalesUp(x, (n + 1) as real, lot);
    assert Times(x, lot) == qty + Times(0.000000001, lot);
    if qty == 0.0 {
      NoLots(lot);
    }
  }

  lemma ScalesUp(a: real, b: real, lot: real)
    requires lot > 0.0
    ensures a <= b ==> Times(a, lot) <= Times(b, lot)
    ensures a < b ==> Times(a, lot) < Times(b, lot)
  {
    if a <= b {
      assert (b - a) * lot >= 0.0;
    }
    if a < b {
      assert (b - a) * lot > 0.0;
    }
  }

  lemma NoLots(lot: real)
    requires lot > 0.0
    ensures RoundQty(lot, 0.0) == 0.0 && RoundQty(lot, -0.0) == 0.0
  {
    assert 0.0 / lot == 0.0;
  }

  // ----- fills -----

  /** A fill is the whole order at the touch, slipped against the trader, if the limit allows that price; its
      commission is the rate on what changes hands, and at least the minimum. */
  ghost predicate FillsAt(b: Broker, o: Order, q: Quote, f: Fill) {
    && f.symbol == o.symbol && f.side == o.side && f.qty == o.qty
    && Times(f.price, 10000.0)
       == (if o.side.Buy? then Times(q.ask, 10000.0 + b.slippageBps) else Times(q.bid, 10000.0 - b.slippageBps))
    && f.commission >= b.minCommission
    && Times(f.commission, 10000.0) >= Times(Times(f.qty, f.price), b.commissionBps)
    && (f.commission == b.minCommission
        || Times(f.commission, 10000.0) == Times(Times(f.qty, f.price), b.commissionBps))
  }

  lemma PlacedFills(b: Broker, o: Order, q: Quote)
    ensures Placed(b, o, q).Some? ==> FillsAt(b, o, q, Placed(b, o, q).value)
    ensures Placed(b, o, q).None? <==>
      o.limit.Some? && if o.side.Buy? then FillPrice(b, o, q) > o.limit.value else FillPrice(b, o, q) < o.limit.value
    ensures Times(FillPrice(b, o, q), 10000.0)
      == (if o.side.Buy? then Times(q.ask, 10000.0 + b.slippageBps) else Times(q.bid, 10000.0 - b.slippageBps))
  {
    Slips(q.ask, b.slippageBps);
    Slips(q.bid, b.slippageBps);
    var price := FillPrice(b, o, q);
    TenThousand(Times(Times(o.qty, price), b.commissionBps));
    TenThousandUp(b.minCommission, Times(Times(o.qty, price), b.commissionBps));
  }

  lemma Slips(x: real, bps: real)
    ensures Times(Times(x, 1.0 + bps / 10000.0), 10000.0) == Times(x, 10000.0 + bps)
    ensures Times(Times(x, 1.0 - bps / 10000.0), 10000.0) == Times(x, 10000.0 - bps)
  {
  }

  lemma TenThousand(x: real)
    ensures Times(x / 10000.0, 10000.0) == x
  {
  }

  lemma TenThousandUp(a: real, x: real)
    ensures a >= x / 10000.0 <==> Times(a, 10000.0) >= x
  {
  }

  // ----- positions -----

  /** A buy averages its price in and realises nothing; a sale realises the difference to the average on what is
      sold and keeps the average, until nothing is left; more than is held cannot be sold. */
  lemma MovedTo(pos: Position, f: Fill)
    ensures f.side.Buy? ==> Moved(pos, f).Some?
    ensures f.side.Buy? ==>
      var pos' := Moved(pos, f).value;
      && pos'.realised == pos.realised && pos'.qty == pos.qty + f.qty
      && (pos'.qty != 0.0 ==> Times(pos'.avg, pos'.qty) == Times(pos.avg, pos.qty) + Times(f.price, f.qty))
    ensures f.side.Sell? ==> (Moved(pos, f).None? <==> f.qty > pos.qty + 0.000000001)
    ensures f.side.Sell? && Moved(pos, f).Some? ==>
      var left := pos.qty - f.qty;
      && Moved(pos, f).value.realised == pos.realised + Times(f.price - pos.avg, f.qty)
      && if left > 0.000000000001 then Moved(pos, f).value.qty == left && Moved(pos, f).value.avg == pos.avg
         else Moved(pos, f).value.qty == 0.0
  {
    if f.side.Buy? && pos.qty + f.qty != 0.0 {
      Averages(Times(pos.avg, pos.qty) + Times(f.price, f.qty), pos.qty + f.qty);
    }
  }

  lemma Averages(total: real, qty: real)
    requires qty != 0.0
    ensures Times(total / qty, qty) == total
  {
  }

  // ----- what the account is worth -----

  /** A position at the feed's price, or at its own average where the feed has none. */
  function Worth(m: Market, s: string, pos: Position): real {
    Times(pos.qty, if m.prices(s).Some? then m.prices(s).value else pos.avg)
  }

  lemma {:induction false} ValueMoves(p: Portfolio, m: Market, s: string, pos: Position, symbols: seq<string>)
    requires NoDup(symbols)
    ensures var p', d := p.(positions := p.positions[s := pos]), if s in symbols then 1.0 else 0.0;
      && ValueOf(p', m, symbols) == ValueOf(p, m, symbols) + d * (Worth(m, s, pos) - Worth(m, s, Held(p, s)))
      && ExposureOf(p', m, symbols)
         == ExposureOf(p, m, symbols) + d * (Abs(Worth(m, s, pos)) - Abs(Worth(m, s, Held(p, s))))
  {
    hide Times;
    if symbols != [] {
      var n := |symbols| - 1;
      assert symbols == symbols[..n] + [symbols[n]];
      ValueMoves(p, m, s, pos, symbols[..n]);
    }
  }

  lemma {:induction false} NothingHeld(p: Portfolio, m: Market, symbols: seq<string>)
    requires forall s | s in symbols :: Held(p, s).qty == 0.0
    ensures ValueOf(p, m, symbols) == 0.0 && ExposureOf(p, m, symbols) == 0.0
  {
    if symbols != [] {
      NothingHeld(p, m, symbols[..|symbols| - 1]);
      assert symbols[|symbols| - 1] in symbols;
    }
  }

  /** Equity and exposure, position by position: an account that holds nothing is worth its cash, and changing
      one listed position changes them by what that position is worth. */
  lemma EquityIs(u: Universe, p: Portfolio, m: Market, s: string, pos: Position)
    requires NoDup(u.symbols) && s in u.symbols
    ensures (forall x | x in u.symbols :: Held(p, x).qty == 0.0) ==>
      Equity(u, p, m) == p.cash && ExposureOf(p, m, u.symbols) == 0.0
    ensures var p' := p.(positions := p.positions[s := pos]);
      && Equity(u, p', m) - Equity(u, p, m) == Worth(m, s, pos) - Worth(m, s, Held(p, s))
      && ExposureOf(p', m, u.symbols) - ExposureOf(p, m, u.symbols)
         == Abs(Worth(m, s, pos)) - Abs(Worth(m, s, Held(p, s)))
  {
    hide Worth, Abs;
    ValueMoves(p, m, s, pos, u.symbols);
    if forall x | x in u.symbols :: Held(p, x).qty == 0.0 {
      NothingHeld(p, m, u.symbols);
    }
  }

  // ----- risk -----

  /** When each reason speaks against an order of the given size, in an account worth `equity`. */
  ghost predicate Speaks(r: Reason, u: Universe, l: Limits, o: Order, q: Quote, p: Portfolio, m: Market,
      ordersToday: int, dayStart: real)
  {
    var price := if o.side.Buy? then q.ask else q.bid;
    var size, equity := Times(Abs(o.qty), price), Equity(u, p, m);
    match r
    case Halted => l.halted
    case NotAllowed => l.allowlist != [] && o.symbol !in l.allowlist
    case NotPositive => o.qty <= 0.0
    case NotWholeLots =>
      o.qty > 0.0 && Abs(o.qty - RoundQty(if o.symbol in u.lots then u.lots[o.symbol] else 0.0, o.qty)) > 0.000000001
    case Closed => !m.open(o.symbol)
    case TooLarge => size > l.maxNotional
    case TooSmall => 0.0 < size < l.minNotional
    case DailyCap => ordersToday >= l.maxOrders
    case DailyLoss => dayStart > 0.0 && Times(dayStart - equity, 100.0) >= Times(l.dailyLossPct, dayStart)
    case NoCash => o.side.Buy? && !l.allowLeverage && size > p.cash
    case BreaksBuffer => o.side.Buy? && equity > 0.0 && p.cash - size < Times(l.minBuffer, equity)
    case Overweight =>
      o.side.Buy? && equity > 0.0 && Times(Held(p, o.symbol).qty, price) + size > Times(l.maxWeight, equity)
    case Overexposed =>
      o.side.Buy? && equity > 0.0 && ExposureOf(p, m, u.symbols) + size > Times(l.maxGross, equity)
    case WouldShort => o.side.Sell? && !l.allowShort && o.qty > Held(p, o.symbol).qty + 0.000000001
  }

  lemma AtLeastTimes(x: real, y: real, d: real)
    requires d > 0.0
    ensures x >= y <==> Times(x, d) >= Times(y, d)
  {
    if x >= y {
      assert (x - y) * d >= 0.0;
    } else {
      assert (y - x) * d > 0.0;
    }
  }

  lemma Over(a: real, b: real, limit: real)
    requires b > 0.0
    ensures a / b > limit <==> a > Times(limit, b)
  {
    hide Times;
    Averages(a, b);
    AtLeastTimes(limit, a / b, b);
  }

  lemma LossTimes(q: real, d: real)
    ensures Times((1.0 - q) * 100.0, d) == Times(d - Times(q, d), 100.0)
  {
  }

  lemma Loss(equity: real, dayStart: real, pct: real)
    requires dayStart > 0.0
    ensures (1.0 - equity / dayStart) * 100.0 >= pct <==> Times(dayStart - equity, 100.0) >= Times(pct, dayStart)
  {
    hide Times;
    var q := equity / dayStart;
    Averages(equity, dayStart);
    LossTimes(q, dayStart);
    AtLeastTimes((1.0 - q) * 100.0, pct, dayStart);
  }

  lemma IfHas(b: bool, x: Reason, r: Reason)
    ensures r in If(b, x) <==> b && r == x
  {
  }

  lemma OrderHas(r: Reason, u: Universe, l: Limits, o: Order, m: Market)
    ensures r in OrderReasons(u, l, o, m) <==>
      match r
      case Halted => l.halted
      case NotAllowed => l.allowlist != [] && o.symbol !in l.allowlist
      case NotPositive => o.qty <= 0.0
      case NotWholeLots =>
        o.qty > 0.0 && Abs(o.qty - RoundQty(if o.symbol in u.lots then u.lots[o.symbol] else 0.0, o.qty)) > 0.000000001
      case Closed => !m.open(o.symbol)
      case _ => false
  {
    hide RoundQty, Abs, If;
    var lot := if o.symbol in u.lots then u.lots[o.symbol] else 0.0;
    IfHas(l.halted, Halted, r);
    IfHas(l.allowlist != [] && o.symbol !in l.allowlist, NotAllowed, r);
    IfHas(Abs(o.qty - RoundQty(lot, o.qty)) > 0.000000001, NotWholeLots, r);
    IfHas(!m.open(o.symbol), Closed, r);
  }

  lemma SizeHas(r: Reason, l: Limits, size: real, equity: real, ordersToday: int, dayStart: real)
    ensures r in SizeReasons(l, size, equity, ordersToday, dayStart) <==>
      match r
      case TooLarge => size > l.maxNotional
      case TooSmall => 0.0 < size < l.minNotional
      case DailyCap => ordersToday >= l.maxOrders
      case DailyLoss => dayStart > 0.0 && Times(dayStart - equity, 100.0) >= Times(l.dailyLossPct, dayStart)
      case _ => false
  {
    hide If, Times;
    if dayStart > 0.0 {
      Loss(equity, dayStart, l.dailyLossPct);
    }
    IfHas(size > l.maxNotional, TooLarge, r);
    IfHas(0.0 < size < l.minNotional, TooSmall, r);
    IfHas(ordersToday >= l.maxOrders, DailyCap, r);
    IfHas(dayStart > 0.0 && (1.0 - equity / dayStart) * 100.0 >= l.dailyLossPct, DailyLoss, r);
  }

  lemma BuyHas(r: Reason, u: Universe, l: Limits, o: Order, size: real, price: real, p: Portfolio, m: Market)
    ensures var equity := Equity(u, p, m);
      r in BuyReasons(u, l, o, size, price, p, m) <==>
        match r
        case NoCash => !l.allowLeverage && size > p.cash
        case BreaksBuffer => equity > 0.0 && p.cash - size < Times(l.minBuffer, equity)
        case Overweight => equity > 0.0 && Times(Held(p, o.symbol).qty, price) + size > Times(l.maxWeight, equity)
        case Overexposed => equity > 0.0 && ExposureOf(p, m, u.symbols) + size > Times(l.maxGross, equity)
        case _ => false
  {
    hide If, Times, Equity, ExposureOf, Held;
    var equity := Equity(u, p, m);
    var weight, gross := Times(Held(p, o.symbol).qty, price) + size, ExposureOf(p, m, u.symbols) + size;
    IfHas(!l.allowLeverage && size > p.cash, NoCash, r);
    if equity > 0.0 {
      Over(weight, equity, l.maxWeight);
      Over(gross, equity, l.maxGross);
      IfHas(p.cash - size < Times(l.minBuffer, equity), BreaksBuffer, r);
      IfHas(weight / equity > l.maxWeight, Overweight, r);
      IfHas(gross / equity > l.maxGross, Overexposed, r);
    }
  }

  lemma SellHas(r: Reason, l: Limits, o: Order, p: Portfolio)
    ensures r in SellReasons(l, o, p) <==>
      r.WouldShort? && !l.allowShort && o.qty > Held(p, o.symbol).qty + 0.000000001
  {
  }

  /** The checks list exactly the reasons that speak against the order. */
  lemma ReasonsAre(r: Reason, u: Universe, l: Limits, o: Order, q: Quote, p: Portfolio, m: Market, ordersToday: int,
      dayStart: real)
    ensures r in Reasons(u, l, o, q, p, m, ordersToday, dayStart) <==>
      Speaks(r, u, l, o, q, p, m, ordersToday, dayStart)
  {
    hide Equity, ExposureOf, RoundQty, Abs, Times, OrderReasons, SizeReasons, BuyReasons, SellReasons;
    OrderHas(r, u, l, o, m);
    SizeHas(r, l, Notional(o, q), Equity(u, p, m), ordersToday, dayStart);
    if o.side.Buy? {
      BuyHas(r, u, l, o, Notional(o, q), QuotedPrice(o, q), p, m);
    } else {
      SellHas(r, l, o, p);
    }
  }

  // ----- approval -----

  /** The outcome of an approval: the first obstacle, and none when there is none. */
  ghost predicate Answers(s: Session, id: string, m: Market, err: Option<Error>) {
    if id !in s.proposals then err == Some(NoProposal)
    else if s.autonomy.Advisory? then err == Some(AdvisorySession)
    else if s.proposals[id].status != Pending then err == Some(NotPending(s.proposals[id].status))
    else
      var o, q := s.proposals[id].order, m.quotes(s.proposals[id].order.symbol);
      if exists r :: Speaks(r, s.universe, s.limits, o, q, s.portfolio, m, s.ordersToday, s.dayStart) then
        && err.Some? && err.value.RiskRefused?
        && forall r :: r in err.value.reasons <==>
             Speaks(r, s.universe, s.limits, o, q, s.portfolio, m, s.ordersToday, s.dayStart)
      else if !Marketable(s.broker, o, q) then err == Some(NotMarketable)
      else if o.side.Sell? && o.qty > Held(s.portfolio, o.symbol).qty + 0.000000001 then err == Some(Oversold)
      else err.None?
  }

  /** The slipped price is within the order's limit. */
  ghost predicate Marketable(b: Broker, o: Order, q: Quote) {
    o.limit.Some? ==>
      var limit := Times(o.limit.value, 10000.0);
      if o.side.Buy? then Times(q.ask, 10000.0 + b.slippageBps) <= limit
      else Times(q.bid, 10000.0 - b.slippageBps) >= limit
  }

  lemma MarketableIs(b: Broker, o: Order, q: Quote)
    ensures Marketable(b, o, q) <==> Placed(b, o, q).Some?
  {
    hide FillPrice;
    PlacedFills(b, o, q);
    if o.limit.Some? {
      TenThousandUp(FillPrice(b, o, q), Times(o.limit.value, 10000.0));
      Back(o.limit.value);
      TenThousandUp(o.limit.value, Times(FillPrice(b, o, q), 10000.0));
      Back(FillPrice(b, o, q));
    }
  }

  lemma Back(x: real)
    ensures Times(x, 10000.0) / 10000.0 == x
  {
  }

  /** An approval answers with the first obstacle in its way, and fills when there is none. */
  lemma ApproveAnswers(s: Session, id: string, m: Market)
    ensures Answers(s, id, m, Approve(s, id, m).1)
  {
    hide Reasons, Speaks, Marketable, Placed, Marked;
    if id in s.proposals && s.proposals[id].status.Pending? {
      var o := s.proposals[id].order;
      var q := m.quotes(o.symbol);
      var reasons := ReasonsNow(s, o, m);
      forall r
        ensures r in reasons <==> Speaks(r, s.universe, s.limits, o, q, s.portfolio, m, s.ordersToday, s.dayStart)
      {
        ReasonsAre(r, s.universe, s.limits, o, q, s.portfolio, m, s.ordersToday, s.dayStart);
      }
      if reasons != [] {
        assert reasons[0] in reasons;
      }
      MarketableIs(s.broker, o, q);
      if Placed(s.broker, o, q).Some? {
        PlacedFills(s.broker, o, q);
        MovedTo(Held(s.portfolio, o.symbol), Placed(s.broker, o, q).value);
      }
    }
  }

  /** The proposal as it is registered: the quantity in whole lots, and every reason that speaks against it now,
      with the day's count and opening equity begun afresh on a new day. */
  ghost predicate RegisteredAs(s: Session, pr: Proposal, symbol: string, side: Side, qty: real, limit: Option<real>,
      m: Market)
    requires symbol in s.universe.lots
  {
    var orders := if m.day == s.day then s.ordersToday else 0;
    var start := if m.day == s.day then s.dayStart else Equity(s.universe, s.portfolio, m);
    && pr.order == Order(symbol, side, RoundQty(s.universe.lots[symbol], qty), limit)
    && pr.fill.None? && pr.rejections == 0
    && (forall r :: r in pr.reasons <==>
          Speaks(r, s.universe, s.limits, pr.order, m.quotes(symbol), s.portfolio, m, orders, start))
    && pr.status == if pr.reasons != [] then Refused else if s.autonomy.Advisory? then AdvisoryOnly else Pending
  }

  /** A proposal needs a written rationale and a known symbol; then it is registered, whatever speaks against it,
      and nothing else about the book changes before its approval. */
  lemma ProposeRegisters(s: Session, id: string, symbol: string, side: Side, qty: real, rationale: nat,
      limit: Option<real>, m: Market, later: Market)
    requires !s.autonomy.Auto?
    ensures var (s', err) := Propose(s, id, symbol, side, qty, rationale, limit, m, later);
      && (err == Some(NoRationale) <==> rationale < 20)
      && (err == Some(UnknownSymbol) <==> rationale >= 20 && symbol !in s.universe.lots)
      && (err.None? <==> rationale >= 20 && symbol in s.universe.lots)
      && (err.Some? ==> s' == s)
      && (err.None? ==>
            && id in s'.proposals && RegisteredAs(s, s'.proposals[id], symbol, side, qty, limit, m)
            && s'.portfolio == s.portfolio && s'.limits == s.limits && s'.journal == s.journal + [Proposing(id)]
            && s'.proposals == s.proposals[id := s'.proposals[id]])
  {
    hide Reasons, Speaks, RoundQty, Equity;
    if rationale >= 20 && symbol in s.universe.lots {
      var order := Order(symbol, side, RoundQty(s.universe.lots[symbol], qty), limit);
      var t := Marked(s, m);
      forall r
        ensures r in ReasonsNow(t, order, m) <==>
          Speaks(r, t.universe, t.limits, order, m.quotes(symbol), t.portfolio, m, t.ordersToday, t.dayStart)
      {
        ReasonsAre(r, t.universe, t.limits, order, m.quotes(symbol), t.portfolio, m, t.ordersToday, t.dayStart);
      }
    }
  }

  // ----- the switch and the veto -----

  /** Resuming takes back just the halt: the other reasons stand as they did. */
  lemma ResumeLifts(s: Session, o: Order, m: Market, r: Reason)
    ensures r in ReasonsNow(Resume(s), o, m) <==> r != Halted && r in ReasonsNow(s, o, m)
    ensures r in ReasonsNow(Halt(s), o, m) <==> r == Halted || r in ReasonsNow(s, o, m)
  {
    hide Reasons, Equity, ExposureOf, RoundQty;
    var q := m.quotes(o.symbol);
    ReasonsAre(r, s.universe, s.limits, o, q, s.portfolio, m, s.ordersToday, s.dayStart);
    var resumed, halted := Resume(s).limits, Halt(s).limits;
    ReasonsAre(r, s.universe, resumed, o, q, s.portfolio, m, s.ordersToday, s.dayStart);
    ReasonsAre(r, s.universe, halted, o, q, s.portfolio, m, s.ordersToday, s.dayStart);
  }

  /** A rejected proposal is never executed: whatever it was before, and at whatever market. */
  lemma RejectedIsRefused(s: Session, id: string, m: Market)
    requires id in s.proposals
    ensures var (s', err) := Reject(s, id);
      && err.None? && s'.portfolio == s.portfolio
      && Approve(s', id, m) == (s', Some(if s.autonomy.Advisory? then AdvisorySession else NotPending(Rejected)))
      && forall x | x in s.proposals && x != id :: x in s'.proposals && s'.proposals[x] == s.proposals[x]
  {
    hide Reasons, Equity;
  }

  // ----- the allowlist over runs -----

  /** Nothing but the switch of the limits has changed, and at most one fill was added, in an allowed symbol. */
  ghost predicate StaysAllowed(s: Session, s': Session) {
    && s'.limits == s.limits.(halted := s'.limits.halted)
    && (s'.portfolio.fills == s.portfolio.fills
        || (|s'.portfolio.fills| == |s.portfolio.fills| + 1
            && s'.portfolio.fills[..|s.portfolio.fills|] == s.portfolio.fills
            && AllowedIn(s.limits.allowlist, s'.portfolio.fills[|s.portfolio.fills|])))
  }

  predicate AllowedIn(allowlist: seq<string>, f: Fill) {
    allowlist != [] ==> f.symbol in allowlist
  }

  lemma ApproveAllowed(s: Session, id: string, m: Market)
    ensures StaysAllowed(s, Approve(s, id, m).0)
  {
    hide Reasons, Placed, Marked;
    ApproveIs(s, id, m);
    var (s', err) := Approve(s, id, m);
    if err.None? || err.value.Oversold? {
      var o := s.proposals[id].order;
      var q := m.quotes(o.symbol);
      PlacedFills(s.broker, o, q);
      ReasonsAre(NotAllowed, s.universe, s.limits, o, q, s.portfolio, m, s.ordersToday, s.dayStart);
      MarkedKeeps(Booked(s, id, Placed(s.broker, o, q).value, m), m);
    }
  }

  lemma ExecAllowed(s: Session, e: Event)
    ensures StaysAllowed(s, Exec(s, e))
  {
    hide Approve, Propose, Marked;
    match e {
      case Proposed(id, symbol, side, qty, rationale, limit, m, later) =>
        ProposeIs(s, id, symbol, side, qty, rationale, limit, m, later);
        if rationale >= 20 && symbol in s.universe.lots {
          MarkedKeeps(s, m);
          var order := Order(symbol, side, RoundQty(s.universe.lots[symbol], qty), limit);
          ApproveAllowed(Registered(Marked(s, m), id, order, m), id, later);
        }
      case Approved(id, m) => ApproveAllowed(s, id, m);
      case Dismissed(id) =>
      case HaltCalled =>
      case ResumeCalled =>
      case MarkCalled(m) => MarkedKeeps(s, m);
    }
  }

  lemma {:induction false} RunAllowed(s: Session, run: seq<Event>)
    requires forall i | 0 <= i < |s.portfolio.fills| :: AllowedIn(s.limits.allowlist, s.portfolio.fills[i])
    ensures var s' := Play(s, run);
      forall i | 0 <= i < |s'.portfolio.fills| :: AllowedIn(s.limits.allowlist, s'.portfolio.fills[i])
    decreases |run|
  {
    hide Exec;
    if run != [] {
      var t := Exec(s, run[0]);
      ExecAllowed(s, run[0]);
      assert t.limits.allowlist == s.limits.allowlist;
      forall i | 0 <= i < |t.portfolio.fills| ensures AllowedIn(t.limits.allowlist, t.portfolio.fills[i]) {
        if i < |s.portfolio.fills| {
          assert t.portfolio.fills[..|s.portfolio.fills|][i] == s.portfolio.fills[i];
        }
      }
      RunAllowed(t, run[1..]);
      assert Play(s, run) == Play(t, run[1..]);
    }
  }

  /** Whatever happens in a session, it trades only what it was opened for: the symbols of its allowlist, or, when
      that is empty, those it was opened with. */
  lemma TradesOnlyAllowed(u: Universe, b: Broker, autonomy: Autonomy, limits: Limits, symbols: seq<string>, cash: real,
      m: Market, run: seq<Event>)
    ensures var s := Play(Opened(u, b, autonomy, limits, symbols, cash, m), run);
      var allowed := if limits.allowlist != [] then limits.allowlist else symbols;
      allowed != [] ==> forall i | 0 <= i < |s.portfolio.fills| :: s.portfolio.fills[i].symbol in allowed
  {
    hide Play, Equity;
    var s := Opened(u, b, autonomy, limits, symbols, cash, m);
    RunAllowed(s, run);
  }
}
