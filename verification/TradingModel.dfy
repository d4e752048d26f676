/** The paper-trading book: positions, risk checks, simulated fills and the life of a proposal.
    Money and quantities are reals; the market is an input of every operation. */
module TradingModel {
  import opened Prelude

  datatype Side = Buy | Sell

  /** Known symbols and the lot each is traded in. */
  datatype Universe = Universe(symbols: seq<string>, lots: map<string, real>)

  /** No symbol twice, and no lot so small that the book's tolerance for float error could be
      mistaken for one. */
  ghost predicate Listed(u: Universe) {
    && NoDup(u.symbols) && (forall s :: s in u.symbols <==> s in u.lots)
    && forall s :: s in u.lots ==> u.lots[s] > 0.000000001
  }

  datatype Quote = Quote(bid: real, ask: real)

  /** What the feed says at one moment. */
  datatype Market = Market(quotes: string -> Quote, prices: string -> Option<real>, open: string -> bool, day: int)

  ghost predicate Priced(m: Market) {
    && (forall s :: 0.0 < m.quotes(s).bid <= m.quotes(s).ask)
    && (forall s :: m.prices(s).Some? ==> m.prices(s).value > 0.0)
  }

  datatype Position = Position(qty: real, avg: real, realised: real)

  datatype Fill = Fill(symbol: string, side: Side, qty: real, price: real, commission: real)

  datatype Portfolio = Portfolio(cash: real, positions: map<string, Position>, fills: seq<Fill>, startingCash: real)

  datatype Order = Order(symbol: string, side: Side, qty: real, limit: Option<real>)

  // ----- the book -----

  function Abs(x: real): real {
    if x < 0.0 then -x else x
  }

  /** Down to whole lots, the sign kept. */
  function RoundQty(lot: real, qty: real): real {
    if lot <= 0.0 then qty
    else
      var size := Times((Abs(qty) / lot + 0.000000001).Floor as real, lot);
      if qty < 0.0 then -size else size
  }

  function Held(p: Portfolio, s: string): Position {
    if s in p.positions then p.positions[s] else Position(0.0, 0.0, 0.0)
  }

  function CashDelta(f: Fill): real {
    var gross := Times(f.qty, f.price);
    if f.side.Buy? then -gross - f.commission else gross - f.commission
  }

  /** A position after a fill; None when more is sold than held. */
  function Moved(pos: Position, f: Fill): Option<Position> {
    if f.side.Buy? then
      var total := Times(pos.avg, pos.qty) + Times(f.price, f.qty);
      var qty := pos.qty + f.qty;
      Some(Position(qty, if qty != 0.0 then total / qty else 0.0, pos.realised))
    else if f.qty - pos.qty > 0.000000001 then None
    else
      var realised := pos.realised + Times(f.price - pos.avg, f.qty);
      var qty := pos.qty - f.qty;
      Some(if qty <= 0.000000000001 then Position(0.0, 0.0, realised) else Position(qty, pos.avg, realised))
  }

  /** The book after a fill, and whether it was taken. A refused one may leave an empty position. */
  function Applied(p: Portfolio, f: Fill): (Portfolio, bool) {
    var moved := Moved(Held(p, f.symbol), f);
    if moved.None? then (p.(positions := p.positions[f.symbol := Held(p, f.symbol)]), false)
    else
      (p.(cash := p.cash + CashDelta(f), positions := p.positions[f.symbol := moved.value],
           fills := p.fills + [f]), true)
  }

  function PriceOf(m: Market, s: string, pos: Position): real {
    if m.prices(s).Some? then m.prices(s).value else pos.avg
  }

  /** The market value of the positions in the listed symbols. */
  function ValueOf(p: Portfolio, m: Market, symbols: seq<string>): real {
    if symbols == [] then 0.0
    else
      var s := symbols[|symbols| - 1];
      ValueOf(p, m, symbols[..|symbols| - 1]) + Times(Held(p, s).qty, PriceOf(m, s, Held(p, s)))
  }

  function ExposureOf(p: Portfolio, m: Market, symbols: seq<string>): real {
    if symbols == [] then 0.0
    else
      var s := symbols[|symbols| - 1];
      ExposureOf(p, m, symbols[..|symbols| - 1]) + Abs(Times(Held(p, s).qty, PriceOf(m, s, Held(p, s))))
  }

  function Equity(u: Universe, p: Portfolio, m: Market): real {
    p.cash + ValueOf(p, m, u.symbols)
  }

  // ----- risk -----

  datatype Limits = Limits(maxNotional: real, minNotional: real, maxWeight: real, maxGross: real, minBuffer: real,
    dailyLossPct: real, maxOrders: int, allowShort: bool, allowLeverage: bool, allowlist: seq<string>, halted: bool)

  datatype Reason =
    | Halted | NotAllowed | NotPositive | NotWholeLots | Closed | TooLarge | TooSmall | DailyCap | DailyLoss
    | NoCash | BreaksBuffer | Overweight | Overexposed | WouldShort

  function If(b: bool, r: Reason): seq<Reason> {
    if b then [r] else []
  }

  function QuotedPrice(o: Order, q: Quote): real {
    if o.side.Buy? then q.ask else q.bid
  }

  function Notional(o: Order, q: Quote): real {
    Times(Abs(o.qty), QuotedPrice(o, q))
  }

  function QtyReasons(u: Universe, o: Order): seq<Reason> {
    if o.qty <= 0.0 then [NotPositive]
    else
      var lot := if o.symbol in u.lots then u.lots[o.symbol] else 0.0;
      If(Abs(o.qty - RoundQty(lot, o.qty)) > 0.000000001, NotWholeLots)
  }

  function BuyReasons(u: Universe, l: Limits, o: Order, notional: real, price: real, p: Portfolio,
      m: Market): seq<Reason> {
    var equity := Equity(u, p, m);
    If(!l.allowLeverage && notional > p.cash, NoCash)
    + if equity > 0.0 then
        If(p.cash - notional < Times(l.minBuffer, equity), BreaksBuffer)
        + If((Times(Held(p, o.symbol).qty, price) + notional) / equity > l.maxWeight, Overweight)
        + If((ExposureOf(p, m, u.symbols) + notional) / equity > l.maxGross, Overexposed)
      else []
  }

  function SellReasons(l: Limits, o: Order, p: Portfolio): seq<Reason> {
    If(o.qty - Held(p, o.symbol).qty > 0.000000001 && !l.allowShort, WouldShort)
  }

  function OrderReasons(u: Universe, l: Limits, o: Order, m: Market): seq<Reason> {
    If(l.halted, Halted)
    + If(l.allowlist != [] && o.symbol !in l.allowlist, NotAllowed)
    + QtyReasons(u, o)
    + If(!m.open(o.symbol), Closed)
  }

  function SizeReasons(l: Limits, notional: real, equity: real, ordersToday: int, dayStart: real): seq<Reason> {
    If(notional > l.maxNotional, TooLarge)
    + If(0.0 < notional < l.minNotional, TooSmall)
    + If(ordersToday >= l.maxOrders, DailyCap)
    + If(dayStart > 0.0 && (1.0 - equity / dayStart) * 100.0 >= l.dailyLossPct, DailyLoss)
  }

  /** Every reason to refuse the order; none means it may go. */
  function Reasons(u: Universe, l: Limits, o: Order, q: Quote, p: Portfolio, m: Market, ordersToday: int,
      dayStart: real): seq<Reason>
  {
    OrderReasons(u, l, o, m)
    + SizeReasons(l, Notional(o, q), Equity(u, p, m), ordersToday, dayStart)
    + if o.side.Buy? then BuyReasons(u, l, o, Notional(o, q), QuotedPrice(o, q), p, m) else SellReasons(l, o, p)
  }

  // ----- the broker -----

  datatype Broker = Broker(slippageBps: real, commissionBps: real, minCommission: real)

  function Slip(b: Broker): real {
    b.slippageBps / 10000.0
  }

  function FillPrice(b: Broker, o: Order, q: Quote): real {
    if o.side.Buy? then Times(q.ask, 1.0 + Slip(b)) else Times(q.bid, 1.0 - Slip(b))
  }

  /** The whole order at the touch plus slippage; None when its limit does not allow that. */
  function Placed(b: Broker, o: Order, q: Quote): Option<Fill> {
    var price := FillPrice(b, o, q);
    if o.limit.Some? && (if o.side.Buy? then price > o.limit.value else price < o.limit.value) then None
    else
      var fee := Times(Times(o.qty, price), b.commissionBps) / 10000.0;
      Some(Fill(o.symbol, o.side, o.qty, price, if b.minCommission >= fee then b.minCommission else fee))
  }

  // ----- the session -----

  datatype Autonomy = Advisory | Confirm | Auto

  datatype Status = Pending | AdvisoryOnly | Filled | Rejected | Refused

  datatype Proposal = Proposal(order: Order, status: Status, reasons: seq<Reason>, rejections: nat, fill: Option<Fill>)

  datatype Entry =
    | Proposing(id: string) | Filling(id: string, fill: Fill, day: int) | Rejecting(id: string) | Halting | Resuming

  datatype Session = Session(universe: Universe, broker: Broker, autonomy: Autonomy, limits: Limits,
    portfolio: Portfolio, proposals: map<string, Proposal>, journal: seq<Entry>,
    ordersToday: int, day: int, dayStart: real)

  datatype Error = NoProposal | AdvisorySession | NotPending(status: Status) | RiskRefused(reasons: seq<Reason>)
    | NotMarketable | Oversold | NoRationale | UnknownSymbol

  /** Marking to market rolls the day when it has changed. */
  function Marked(s: Session, m: Market): Session {
    if m.day != s.day then s.(day := m.day, ordersToday := 0, dayStart := Equity(s.universe, s.portfolio, m)) else s
  }

  function ReasonsNow(s: Session, o: Order, m: Market): seq<Reason> {
    Reasons(s.universe, s.limits, o, m.quotes(o.symbol), s.portfolio, m, s.ordersToday, s.dayStart)
  }

  /** Executing a pending proposal, checked again at the market of the moment. */
  function Approve(s: Session, id: string, m: Market): (Session, Option<Error>) {
    if id !in s.proposals then (s, Some(NoProposal))
    else if s.autonomy.Advisory? then (s, Some(AdvisorySession))
    else
      var pr := s.proposals[id];
      if !pr.status.Pending? then (s, Some(NotPending(pr.status)))
      else
        var reasons := ReasonsNow(s, pr.order, m);
        if reasons != [] then (s, Some(RiskRefused(reasons)))
        else
          var placed := Placed(s.broker, pr.order, m.quotes(pr.order.symbol));
          if placed.None? then (s, Some(NotMarketable))
          else
            var (book, taken) := Applied(s.portfolio, placed.value);
            if !taken then (s.(portfolio := book), Some(Oversold))
            else
              (Marked(s.(portfolio := book, ordersToday := s.ordersToday + 1,
                 proposals := s.proposals[id := pr.(status := Filled, fill := placed)],
                 journal := s.journal + [Filling(id, placed.value, m.day)]), m), None)
  }

  /** Registering an intended trade; under autonomy "auto" it is executed at once, at a market a
      moment later. */
  function Propose(s: Session, id: string, symbol: string, side: Side, qty: real, rationale: nat, limit: Option<real>,
      m: Market, later: Market): (Session, Option<Error>)
  {
    if rationale < 20 then (s, Some(NoRationale))
    else if symbol !in s.universe.lots then (s, Some(UnknownSymbol))
    else
      var marked := Marked(s, m);
      var order := Order(symbol, side, RoundQty(s.universe.lots[symbol], qty), limit);
      var reasons := ReasonsNow(marked, order, m);
      var status := if reasons != [] then Refused else if s.autonomy.Advisory? then AdvisoryOnly else Pending;
      var next := marked.(proposals := marked.proposals[id := Proposal(order, status, reasons, 0, None)],
        journal := marked.journal + [Proposing(id)]);
      if reasons == [] && s.autonomy.Auto? then Approve(next, id, later) else (next, None)
  }

  function Reject(s: Session, id: string): (Session, Option<Error>) {
    if id !in s.proposals then (s, Some(NoProposal))
    else
      var pr := s.proposals[id];
      (s.(proposals := s.proposals[id := pr.(status := Rejected, rejections := pr.rejections + 1)],
          journal := s.journal + [Rejecting(id)]), None)
  }

  function Halt(s: Session): Session {
    s.(limits := s.limits.(halted := true), journal := s.journal + [Halting])
  }

  function Resume(s: Session): Session {
    s.(limits := s.limits.(halted := false), journal := s.journal + [Resuming])
  }

  /** A session over an empty book. */
  function Opened(u: Universe, b: Broker, autonomy: Autonomy, limits: Limits, symbols: seq<string>, cash: real,
      m: Market): Session {
    var p := Portfolio(cash, map[], [], cash);
    Session(u, b, autonomy, if limits.allowlist == [] then limits.(allowlist := symbols) else limits, p,
      map[], [], 0, m.day, Equity(u, p, m))
  }

  // ----- runs -----

  datatype Event =
    | Proposed(id: string, symbol: string, side: Side, qty: real, rationale: nat, limit: Option<real>, m: Market,
        later: Market)
    | Approved(id: string, m: Market)
    | Dismissed(id: string)
    | HaltCalled
    | ResumeCalled
    | MarkCalled(m: Market)

  function Exec(s: Session, e: Event): Session {
    match e
    case Proposed(id, symbol, side, qty, rationale, limit, m, later) =>
      Propose(s, id, symbol, side, qty, rationale, limit, m, later).0
    case Approved(id, m) => Approve(s, id, m).0
    case Dismissed(id) => Reject(s, id).0
    case HaltCalled => Halt(s)
    case ResumeCalled => Resume(s)
    case MarkCalled(m) => Marked(s, m)
  }

  function Play(s: Session, run: seq<Event>): Session
    decreases |run|
  {
    if run == [] then s else Play(Exec(s, run[0]), run[1..])
  }
}
