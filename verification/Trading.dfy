/** The portfolio and the trading session as objects. */
module Trading {
  import opened Prelude
  import M = TradingModel
  import opened TradingBook
  import opened TradingRuns
  import opened TradingLimits

  /** What every call on a session keeps: the books balance and the journal tells the fills,
      each proposal filled once; cash stays at or above zero when the buffer covers friction;
      and while the switch is off nothing fills and no money moves. */
  ghost predicate Orderly(s: M.Session, e: M.Event, s': M.Session) {
    Legal(s, e) ==>
      && (SessionOk(s) ==>
            SessionOk(s') && FillsOf(s'.journal) == s'.portfolio.fills && NoDup(FilledIds(s'.journal)))
      && (Solvent(s) ==> Solvent(s') && s'.portfolio.cash >= 0.0)
      && (SessionOk(s) && s.limits.halted && !e.ResumeCalled? ==>
            s'.limits.halted && s'.portfolio.fills == s.portfolio.fills && s'.portfolio.cash == s.portfolio.cash)
  }

  lemma ExecOrderly(s: M.Session, e: M.Event)
    ensures Orderly(s, e, M.Exec(s, e))
  {
    hide M.Exec, Legal, BookOk, FillsOf, FilledIds;
    if Legal(s, e) && SessionOk(s) {
      ExecKeeps(s, e);
      if Solvent(s) {
        ExecSolvent(s, e);
      }
      if s.limits.halted && !e.ResumeCalled? {
        HaltedExec(s, e);
      }
    }
  }

  class Portfolio {
    var cash: real
    var positions: map<string, M.Position>
    var fills: seq<M.Fill>
    const startingCash: real

    function State(): M.Portfolio
      reads this
    {
      M.Portfolio(cash, positions, fills, startingCash)
    }

    constructor (cash: real)
      ensures State() == M.Portfolio(cash, map[], [], cash)
    {
      this.cash := cash;
      positions := map[];
      fills := [];
      startingCash := cash;
    }

    /** Refused when more is sold than held; the position made for the attempt stays. */
    method Apply(f: M.Fill) returns (taken: bool)
      modifies this
      ensures (State(), taken) == M.Applied(old(State()), f)
    {
      ghost var start := positions;
      if f.symbol !in positions {
        positions := positions[f.symbol := M.Position(0.0, 0.0, 0.0)];
      }
      var pos := positions[f.symbol];
      assert pos == M.Held(old(State()), f.symbol) && positions == start[f.symbol := pos];
      if f.side.Buy? {
        var total := Times(pos.avg, pos.qty) + Times(f.price, f.qty);
        pos := pos.(qty := pos.qty + f.qty);
        pos := pos.(avg := if pos.qty != 0.0 then total / pos.qty else 0.0);
      } else {
        if f.qty - pos.qty > 0.000000001 {
          return false;
        }
        pos := pos.(realised := pos.realised + Times(f.price - pos.avg, f.qty));
        pos := pos.(qty := pos.qty - f.qty);
        if pos.qty <= 0.000000000001 {
          pos := pos.(qty := 0.0, avg := 0.0);
        }
      }
      positions := positions[f.symbol := pos];
      assert positions == start[f.symbol := pos];
      cash := cash + M.CashDelta(f);
      fills := fills + [f];
      taken := true;
    }
  }

  /** Every reason to refuse an order, collected in order. */
  method CheckRisk(u: M.Universe, l: M.Limits, o: M.Order, q: M.Quote, p: M.Portfolio, m: M.Market, ordersToday: int,
      dayStart: real) returns (reasons: seq<M.Reason>)
    ensures reasons == M.Reasons(u, l, o, q, p, m, ordersToday, dayStart)
  {
    var equity := M.Equity(u, p, m);
    var price := M.QuotedPrice(o, q);
    var notional := M.Notional(o, q);
    reasons := CheckOrder(u, l, o, m);
    var size := CheckSize(l, notional, equity, ordersToday, dayStart);
    var side := CheckSide(u, l, o, notional, price, p, m);
    reasons := reasons + size + side;
  }

  method CheckOrder(u: M.Universe, l: M.Limits, o: M.Order, m: M.Market) returns (reasons: seq<M.Reason>)
    ensures reasons == M.OrderReasons(u, l, o, m)
  {
    hide M.RoundQty, M.Abs;
    reasons := [];
    if l.halted {
      reasons := reasons + [M.Halted];
    }
    if l.allowlist != [] && o.symbol !in l.allowlist {
      reasons := reasons + [M.NotAllowed];
    }
    assert reasons == M.If(l.halted, M.Halted) + M.If(l.allowlist != [] && o.symbol !in l.allowlist, M.NotAllowed);
    var lot := if o.symbol in u.lots then u.lots[o.symbol] else 0.0;
    if o.qty <= 0.0 {
      reasons := reasons + [M.NotPositive];
    } else if M.Abs(o.qty - M.RoundQty(lot, o.qty)) > 0.000000001 {
      reasons := reasons + [M.NotWholeLots];
    }
    if !m.open(o.symbol) {
      reasons := reasons + [M.Closed];
    }
  }

  method CheckSize(l: M.Limits, notional: real, equity: real, ordersToday: int, dayStart: real)
    returns (reasons: seq<M.Reason>)
    ensures reasons == M.SizeReasons(l, notional, equity, ordersToday, dayStart)
  {
    reasons := [];
    if notional > l.maxNotional {
      reasons := reasons + [M.TooLarge];
    }
    if 0.0 < notional < l.minNotional {
      reasons := reasons + [M.TooSmall];
    }
    if ordersToday >= l.maxOrders {
      reasons := reasons + [M.DailyCap];
    }
    if dayStart > 0.0 {
      var drawdown := (1.0 - equity / dayStart) * 100.0;
      if drawdown >= l.dailyLossPct {
        reasons := reasons + [M.DailyLoss];
      }
    }
  }

  method CheckSide(u: M.Universe, l: M.Limits, o: M.Order, notional: real, price: real, p: M.Portfolio, m: M.Market)
    returns (reasons: seq<M.Reason>)
    ensures reasons == if o.side.Buy? then M.BuyReasons(u, l, o, notional, price, p, m) else M.SellReasons(l, o, p)
  {
    hide M.Equity, M.ExposureOf, M.Held, Times;
    var equity := M.Equity(u, p, m);
    reasons := [];
    if o.side.Buy? {
      if !l.allowLeverage && notional > p.cash {
        reasons := reasons + [M.NoCash];
      }
      if equity > 0.0 {
        if p.cash - notional < Times(l.minBuffer, equity) {
          reasons := reasons + [M.BreaksBuffer];
        }
        if (Times(M.Held(p, o.symbol).qty, price) + notional) / equity > l.maxWeight {
          reasons := reasons + [M.Overweight];
        }
        if (M.ExposureOf(p, m, u.symbols) + notional) / equity > l.maxGross {
          reasons := reasons + [M.Overexposed];
        }
      }
    } else if o.qty - M.Held(p, o.symbol).qty > 0.000000001 && !l.allowShort {
      reasons := reasons + [M.WouldShort];
    }
  }

  class TradingSession {
    const universe: M.Universe
    const broker: M.Broker
    const autonomy: M.Autonomy
    const portfolio: Portfolio
    var limits: M.Limits
    var proposals: map<string, M.Proposal>
    var journal: seq<M.Entry>
    var ordersToday: int
    var day: int
    var dayStart: real

    function State(): M.Session
      reads this, portfolio
    {
      M.Session(universe, broker, autonomy, limits, portfolio.State(), proposals, journal, ordersToday, day, dayStart)
    }

    ghost predicate InOrder()
      reads this, portfolio
    {
      SessionOk(State())
    }

    constructor (universe: M.Universe, broker: M.Broker, autonomy: M.Autonomy, limits: M.Limits, symbols: seq<string>,
        cash: real, m: M.Market)
      ensures State() == M.Opened(universe, broker, autonomy, limits, symbols, cash, m) && fresh(portfolio)
      ensures M.Listed(universe) && Fair(broker) ==> InOrder()
    {
      var book := new Portfolio(cash);
      this.universe := universe;
      this.broker := broker;
      this.autonomy := autonomy;
      this.limits := if limits.allowlist == [] then limits.(allowlist := symbols) else limits;
      portfolio := book;
      proposals := map[];
      journal := [];
      ordersToday := 0;
      day := m.day;
      dayStart := M.Equity(universe, book.State(), m);
      new;
      if M.Listed(universe) && Fair(broker) {
        OpenedOk(universe, broker, autonomy, limits, symbols, cash, m);
      }
    }

    /** Mark to market: a new day starts its count and its equity afresh. */
    method Mark(m: M.Market)
      modifies this`day, this`ordersToday, this`dayStart
      ensures State() == M.Marked(old(State()), m)
      ensures Orderly(old(State()), M.MarkCalled(m), State())
    {
      hide M.Equity, Orderly;
      ExecOrderly(State(), M.MarkCalled(m));
      if m.day != day {
        day := m.day;
        ordersToday := 0;
        dayStart := M.Equity(universe, portfolio.State(), m);
      }
    }

    method Approve(id: string, m: M.Market) returns (error: Option<M.Error>)
      modifies this, portfolio
      ensures (State(), error) == M.Approve(old(State()), id, m)
      ensures Orderly(old(State()), M.Approved(id, m), State())
      ensures old(InOrder()) && M.Priced(m) ==>
        if error.None? then FilledNow(old(State()), State(), id, m) else Unmoved(old(State()), State())
    {
      hide M.Applied, M.Reasons, M.Placed, M.Marked, Orderly, SessionOk, FilledNow, Unmoved;
      ExecOrderly(State(), M.Approved(id, m));
      if InOrder() && M.Priced(m) {
        ApproveKeeps(State(), id, m);
      }
      if id !in proposals {
        return Some(M.NoProposal);
      }
      if autonomy.Advisory? {
        return Some(M.AdvisorySession);
      }
      var proposal := proposals[id];
      if !proposal.status.Pending? {
        return Some(M.NotPending(proposal.status));
      }
      var quote := m.quotes(proposal.order.symbol);
      var reasons := CheckRisk(universe, limits, proposal.order, quote, portfolio.State(), m, ordersToday, dayStart);
      if reasons != [] {
        return Some(M.RiskRefused(reasons));
      }
      var fill := M.Placed(broker, proposal.order, quote);
      if fill.None? {
        return Some(M.NotMarketable);
      }
      var taken := portfolio.Apply(fill.value);
      if !taken {
        return Some(M.Oversold);
      }
      ordersToday := ordersToday + 1;
      proposals := proposals[id := proposal.(status := M.Filled, fill := fill)];
      journal := journal + [M.Filling(id, fill.value, m.day)];
      Mark(m);
      error := None;
    }

    method Propose(id: string, symbol: string, side: M.Side, qty: real, rationale: nat, limit: Option<real>,
        m: M.Market, later: M.Market) returns (error: Option<M.Error>)
      modifies this, portfolio
      ensures (State(), error) == M.Propose(old(State()), id, symbol, side, qty, rationale, limit, m, later)
      ensures Orderly(old(State()), M.Proposed(id, symbol, side, qty, rationale, limit, m, later), State())
    {
      hide M.Reasons, M.Approve, M.Marked, M.RoundQty, Orderly;
      ExecOrderly(State(), M.Proposed(id, symbol, side, qty, rationale, limit, m, later));
      if rationale < 20 {
        return Some(M.NoRationale);
      }
      if symbol !in universe.lots {
        return Some(M.UnknownSymbol);
      }
      MarkedTerms(State(), m);
      Mark(m);
      var order := M.Order(symbol, side, M.RoundQty(universe.lots[symbol], qty), limit);
      var reasons := CheckRisk(universe, limits, order, m.quotes(symbol), portfolio.State(), m, ordersToday, dayStart);
      var status := if reasons != [] then M.Refused else if autonomy.Advisory? then M.AdvisoryOnly else M.Pending;
      proposals := proposals[id := M.Proposal(order, status, reasons, 0, None)];
      journal := journal + [M.Proposing(id)];
      if reasons == [] && autonomy.Auto? {
        error := Approve(id, later);
      } else {
        error := None;
      }
    }

    lemma MarkedTerms(s: M.Session, m: M.Market)
      ensures M.Marked(s, m).universe == s.universe && M.Marked(s, m).autonomy == s.autonomy
    {
      hide M.Equity;
    }

    /** A rejection overwrites whatever the proposal was. */
    method Reject(id: string) returns (error: Option<M.Error>)
      modifies this`proposals, this`journal
      ensures (State(), error) == M.Reject(old(State()), id)
      ensures Orderly(old(State()), M.Dismissed(id), State())
    {
      hide Orderly;
      ExecOrderly(State(), M.Dismissed(id));
      if id !in proposals {
        return Some(M.NoProposal);
      }
      var proposal := proposals[id];
      proposals := proposals[id := proposal.(status := M.Rejected, rejections := proposal.rejections + 1)];
      journal := journal + [M.Rejecting(id)];
      error := None;
    }

    method Halt()
      modifies this`limits, this`journal
      ensures State() == M.Halt(old(State()))
      ensures Orderly(old(State()), M.HaltCalled, State())
    {
      hide Orderly;
      ExecOrderly(State(), M.HaltCalled);
      limits := limits.(halted := true);
      journal := journal + [M.Halting];
    }

    method Resume()
      modifies this`limits, this`journal
      ensures State() == M.Resume(old(State()))
      ensures Orderly(old(State()), M.ResumeCalled, State())
    {
      hide Orderly;
      ExecOrderly(State(), M.ResumeCalled);
      limits := limits.(halted := false);
      journal := journal + [M.Resuming];
    }
  }
}
