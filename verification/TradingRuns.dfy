/** What holds of a trading session in every run. */
module TradingRuns {
  import opened Prelude
  import opened TradingModel
  import opened TradingBook

  // ----- the journal -----

  function FillsOf(journal: seq<Entry>): seq<Fill> {
    if journal == [] then []
    else
      var e := journal[|journal| - 1];
      FillsOf(journal[..|journal| - 1]) + if e.Filling? then [e.fill] else []
  }

  function FilledIds(journal: seq<Entry>): seq<string> {
    if journal == [] then []
    else
      var e := journal[|journal| - 1];
      FilledIds(journal[..|journal| - 1]) + if e.Filling? then [e.id] else []
  }

  /** The fills of one day. */
  function FillsOn(journal: seq<Entry>, day: int): nat {
    if journal == [] then 0
    else
      var e := journal[|journal| - 1];
      FillsOn(journal[..|journal| - 1], day) + if e.Filling? && e.day == day then 1 else 0
  }

  lemma JournalNext(journal: seq<Entry>, e: Entry)
    ensures FillsOf(journal + [e]) == FillsOf(journal) + if e.Filling? then [e.fill] else []
    ensures FilledIds(journal + [e]) == FilledIds(journal) + if e.Filling? then [e.id] else []
    ensures forall day ::
      FillsOn(journal + [e], day) == FillsOn(journal, day) + if e.Filling? && e.day == day then 1 else 0
  {
    assert (journal + [e])[..|journal|] == journal;
  }

  // ----- the invariant -----

  /** The broker charges sensibly. */
  predicate Fair(b: Broker) {
    0.0 <= b.slippageBps <= 10000.0
  }

  /** An order the session made itself: a listed symbol, whole lots. */
  ghost predicate OrderOk(u: Universe, o: Order) {
    o.symbol in u.lots && (o.qty > 0.0 ==> Lots(o.qty, u.lots[o.symbol]))
  }

  /** The journal tells the fills, each proposal is filled at most once, and exactly the filled
      ones carry a fill; none of those is pending. */
  ghost predicate JournalOk(s: Session) {
    && FillsOf(s.journal) == s.portfolio.fills
    && NoDup(FilledIds(s.journal))
    && (forall id :: id in FilledIds(s.journal) ==> id in s.proposals)
    && (forall id :: id in s.proposals ==> (id in FilledIds(s.journal) <==> s.proposals[id].fill.Some?))
    && (forall id :: id in s.proposals && s.proposals[id].fill.Some? ==> !s.proposals[id].status.Pending?)
  }

  ghost predicate SessionOk(s: Session) {
    && BookOk(s.universe, s.portfolio) && Fair(s.broker) && JournalOk(s)
    && (forall id :: id in s.proposals ==> OrderOk(s.universe, s.proposals[id].order))
  }

  /** What the session never changes. */
  ghost predicate SameTerms(s: Session, s': Session) {
    && s'.universe == s.universe && s'.broker == s.broker && s'.autonomy == s.autonomy
    && s'.limits.(halted := s.limits.halted) == s.limits
    && s'.portfolio.startingCash == s.portfolio.startingCash
  }

  // ----- one operation -----

  lemma MarkedKeeps(s: Session, m: Market)
    ensures var s' := Marked(s, m);
      && s'.universe == s.universe && s'.broker == s.broker && s'.portfolio == s.portfolio
        && s'.proposals == s.proposals
      && s'.journal == s.journal && s'.limits == s.limits && s'.autonomy == s.autonomy
      && s'.day == m.day && s'.ordersToday == (if m.day == s.day then s.ordersToday else 0)
  {
    hide Equity;
  }

  /** What no reason against an order means. */
  lemma ReasonsPass(u: Universe, l: Limits, o: Order, q: Quote, p: Portfolio, m: Market, ordersToday: int,
      dayStart: real)
    requires Reasons(u, l, o, q, p, m, ordersToday, dayStart) == []
    ensures !l.halted && o.qty > 0.0 && ordersToday < l.maxOrders && m.open(o.symbol)
    ensures l.allowlist != [] ==> o.symbol in l.allowlist
    ensures o.side.Buy? ==> BuyReasons(u, l, o, Notional(o, q), q.ask, p, m) == []
    ensures o.side.Sell? ==> SellReasons(l, o, p) == []
  {
    hide Equity, Notional, BuyReasons, SellReasons, RoundQty;
    var notional, price := Notional(o, q), QuotedPrice(o, q);
    var tail := if o.side.Buy? then BuyReasons(u, l, o, notional, price, p, m) else SellReasons(l, o, p);
    assert tail == [];
  }

  lemma PlacedIs(b: Broker, o: Order, q: Quote)
    requires Fair(b) && 0.0 < q.bid <= q.ask && Placed(b, o, q).Some?
    ensures var f := Placed(b, o, q).value;
      f.symbol == o.symbol && f.side == o.side && f.qty == o.qty && f.price >= 0.0
  {
    NonnegativeTimes(q.bid, 1.0 - Slip(b));
    NonnegativeTimes(q.ask, 1.0 + Slip(b));
  }

  /** No money moved and nothing was written down. */
  ghost predicate Unmoved(s: Session, s': Session) {
    && s'.portfolio.cash == s.portfolio.cash && s'.journal == s.journal && s'.proposals == s.proposals
    && s'.ordersToday == s.ordersToday && s'.day == s.day
  }

  /** One fill, allowed by the switch and the daily count; the mark that follows rolls the day. */
  ghost predicate FilledNow(s: Session, s': Session, id: string, m: Market) {
    && id in s'.proposals && s'.proposals[id].fill.Some?
    && !s.limits.halted && s.ordersToday < s.limits.maxOrders
    && s'.journal == s.journal + [Filling(id, s'.proposals[id].fill.value, m.day)]
    && s'.portfolio.cash == s.portfolio.cash + CashDelta(s'.proposals[id].fill.value)
    && s'.day == m.day && s'.ordersToday == (if m.day == s.day then s.ordersToday + 1 else 0)
  }

  /** The session after a fill, before it is marked. */
  function Booked(s: Session, id: string, f: Fill, m: Market): Session
    requires id in s.proposals
  {
    s.(portfolio := Applied(s.portfolio, f).0, ordersToday := s.ordersToday + 1,
       proposals := s.proposals[id := s.proposals[id].(status := Filled, fill := Some(f))],
       journal := s.journal + [Filling(id, f, m.day)])
  }

  /** An approval is refused, leaves an empty position, or fills. */
  lemma ApproveIs(s: Session, id: string, m: Market)
    ensures var (s', err) := Approve(s, id, m);
      if err.Some? && !err.value.Oversold? then s' == s
      else
        && id in s.proposals && s.proposals[id].status.Pending?
        && var o := s.proposals[id].order;
        && ReasonsNow(s, o, m) == [] && Placed(s.broker, o, m.quotes(o.symbol)).Some?
        && var f := Placed(s.broker, o, m.quotes(o.symbol)).value;
        && (err.None? <==> Applied(s.portfolio, f).1)
        && s' == if err.None? then Marked(Booked(s, id, f, m), m) else s.(portfolio := Applied(s.portfolio, f).0)
  {
    hide Applied, ReasonsNow, Placed, Marked;
  }

  lemma BookedKeeps(s: Session, id: string, f: Fill, m: Market)
    requires SessionOk(s) && id in s.proposals && s.proposals[id].status.Pending?
    requires BookOk(s.universe, Applied(s.portfolio, f).0) && Applied(s.portfolio, f).0.fills == s.portfolio.fills + [f]
    ensures SessionOk(Booked(s, id, f, m))
  {
    hide BookOk, Lots, Applied, FillsOf, FilledIds, FillsOn, Fair;
    JournalNext(s.journal, Filling(id, f, m.day));
  }

  /** An approval either fills the proposal, once and for good, or leaves book and journal alone. */
  lemma ApproveKeeps(s: Session, id: string, m: Market)
    requires SessionOk(s) && Priced(m)
    ensures var (s', err) := Approve(s, id, m);
      && SessionOk(s') && SameTerms(s, s') && s'.limits == s.limits
      && (err.Some? ==> Unmoved(s, s'))
      && (err.None? ==> FilledNow(s, s', id, m))
  {
    hide BookOk, Lots, Applied, ReasonsNow, Placed, CashDelta, Priced, Fair, Marked, JournalOk, Approve;
    var (s', err) := Approve(s, id, m);
    ApproveIs(s, id, m);
    if err.None? || err.value.Oversold? {
      var o := s.proposals[id].order;
      Quoted(m, o.symbol);
      NowPasses(s, o, m);
      PlacedIs(s.broker, o, m.quotes(o.symbol));
      var f := Placed(s.broker, o, m.quotes(o.symbol)).value;
      AppliedKeeps(s.universe, s.portfolio, f);
      if err.None? {
        BookedKeeps(s, id, f, m);
        MarkedKeeps(Booked(s, id, f, m), m);
        MarkedOk(Booked(s, id, f, m), m);
      } else {
        SameJournal(s, s');
      }
    }
  }

  lemma SameJournal(s: Session, s': Session)
    requires JournalOk(s) && s'.journal == s.journal && s'.proposals == s.proposals
    requires s'.portfolio.fills == s.portfolio.fills
    ensures JournalOk(s')
  {
  }

  lemma Quoted(m: Market, s: string)
    requires Priced(m)
    ensures 0.0 < m.quotes(s).bid <= m.quotes(s).ask
  {
  }

  lemma NowPasses(s: Session, o: Order, m: Market)
    requires ReasonsNow(s, o, m) == []
    ensures !s.limits.halted && o.qty > 0.0 && s.ordersToday < s.limits.maxOrders
    ensures o.side.Buy? ==>
      BuyReasons(s.universe, s.limits, o, Notional(o, m.quotes(o.symbol)), m.quotes(o.symbol).ask, s.portfolio, m) == []
  {
    hide Reasons;
    ReasonsPass(s.universe, s.limits, o, m.quotes(o.symbol), s.portfolio, m, s.ordersToday, s.dayStart);
  }

  lemma RejectKeeps(s: Session, id: string)
    requires SessionOk(s)
    ensures var s' := Reject(s, id).0;
      && SessionOk(s') && SameTerms(s, s') && s'.limits == s.limits && s'.portfolio == s.portfolio
      && s'.ordersToday == s.ordersToday && s'.day == s.day
  {
    hide BookOk, Lots, FillsOf, FilledIds, FillsOn, Fair;
    JournalNext(s.journal, Rejecting(id));
    assert FillsOf(s.journal) + [] == FillsOf(s.journal) && FilledIds(s.journal) + [] == FilledIds(s.journal);
  }

  /** A new proposal, before it may be executed. */
  function Registered(s: Session, id: string, order: Order, m: Market): Session {
    var reasons := ReasonsNow(s, order, m);
    var status := if reasons != [] then Refused else if s.autonomy.Advisory? then AdvisoryOnly else Pending;
    s.(proposals := s.proposals[id := Proposal(order, status, reasons, 0, None)],
       journal := s.journal + [Proposing(id)])
  }

  lemma RegisteredKeeps(s: Session, id: string, order: Order, m: Market)
    requires SessionOk(s) && id !in s.proposals && OrderOk(s.universe, order)
    ensures SessionOk(Registered(s, id, order, m))
  {
    hide BookOk, Lots, FillsOf, FilledIds, FillsOn, Fair, ReasonsNow;
    JournalNext(s.journal, Proposing(id));
    assert FillsOf(s.journal) + [] == FillsOf(s.journal) && FilledIds(s.journal) + [] == FilledIds(s.journal);
  }

  lemma ProposeIs(s: Session, id: string, symbol: string, side: Side, qty: real, rationale: nat, limit: Option<real>,
      m: Market, later: Market)
    ensures var (s', err) := Propose(s, id, symbol, side, qty, rationale, limit, m, later);
      if rationale < 20 || symbol !in s.universe.lots then s' == s && err.Some?
      else
        var next := Registered(Marked(s, m), id, Order(symbol, side, RoundQty(s.universe.lots[symbol], qty), limit), m);
        s' == next || (s', err) == Approve(next, id, later)
  {
    hide ReasonsNow, Approve, RoundQty, Equity;
  }

  lemma RoundedOrderOk(u: Universe, symbol: string, side: Side, qty: real, limit: Option<real>)
    requires Listed(u) && symbol in u.lots
    ensures OrderOk(u, Order(symbol, side, RoundQty(u.lots[symbol], qty), limit))
  {
    hide RoundQty;
    if qty >= 0.0 {
      RoundsToLots(u.lots[symbol], qty);
    } else {
      RoundsNegative(u.lots[symbol], qty);
    }
  }

  lemma MarkedOk(s: Session, m: Market)
    requires SessionOk(s)
    ensures SessionOk(Marked(s, m))
  {
    hide BookOk, FillsOf, FilledIds, Marked, Lots;
    MarkedKeeps(s, m);
  }

  /** What the environment must respect: new proposals have new ids and prices are positive. */
  ghost predicate Legal(s: Session, e: Event) {
    match e
    case Proposed(id, symbol, side, qty, rationale, limit, m, later) => id !in s.proposals && Priced(m) && Priced(later)
    case Approved(id, m) => Priced(m)
    case MarkCalled(m) => Priced(m)
    case _ => true
  }

  ghost predicate LegalRun(s: Session, run: seq<Event>)
    decreases |run|
  {
    run == [] || (Legal(s, run[0]) && LegalRun(Exec(s, run[0]), run[1..]))
  }

  lemma SwitchKeeps(s: Session, halted: bool, e: Entry)
    requires SessionOk(s) && !e.Filling?
    ensures SessionOk(s.(limits := s.limits.(halted := halted), journal := s.journal + [e]))
  {
    hide BookOk, Lots, FillsOf, FilledIds, FillsOn;
    JournalNext(s.journal, e);
    assert FillsOf(s.journal) + [] == FillsOf(s.journal) && FilledIds(s.journal) + [] == FilledIds(s.journal);
  }

  lemma ExecKeeps(s: Session, e: Event)
    requires SessionOk(s) && Legal(s, e)
    ensures SessionOk(Exec(s, e)) && SameTerms(s, Exec(s, e))
  {
    hide BookOk, JournalOk, Priced, Approve, Propose, Reject, Marked, OrderOk;
    match e {
      case Proposed(id, symbol, side, qty, rationale, limit, m, later) =>
        if rationale >= 20 && symbol in s.universe.lots {
          MarkedOk(s, m);
          MarkedKeeps(s, m);
          ListedIn(s);
          RoundedOrderOk(s.universe, symbol, side, qty, limit);
          var order := Order(symbol, side, RoundQty(s.universe.lots[symbol], qty), limit);
          RegisteredKeeps(Marked(s, m), id, order, m);
          ApproveKeeps(Registered(Marked(s, m), id, order, m), id, later);
        }
        ProposeIs(s, id, symbol, side, qty, rationale, limit, m, later);
      case Approved(id, m) => ApproveKeeps(s, id, m);
      case Dismissed(id) => RejectKeeps(s, id);
      case HaltCalled => SwitchKeeps(s, true, Halting);
      case ResumeCalled => SwitchKeeps(s, false, Resuming);
      case MarkCalled(m) =>
        MarkedOk(s, m);
        MarkedKeeps(s, m);
    }
  }

  lemma ListedIn(s: Session)
    requires SessionOk(s)
    ensures Listed(s.universe)
  {
  }

  lemma OpenedOk(u: Universe, b: Broker, autonomy: Autonomy, limits: Limits, symbols: seq<string>, cash: real,
      m: Market)
    requires Listed(u) && Fair(b)
    ensures SessionOk(Opened(u, b, autonomy, limits, symbols, cash, m))
  {
    EmptySums(Portfolio(cash, map[], [], cash), u.symbols);
  }

  lemma {:induction false} EmptySums(p: Portfolio, symbols: seq<string>)
    requires p.positions == map[]
    ensures Basis(p, symbols) == 0.0 && Realised(p, symbols) == 0.0
  {
    if symbols != [] {
      EmptySums(p, symbols[..|symbols| - 1]);
    }
  }

  /** In every run the books balance, no holding is negative, and no proposal fills twice. */
  lemma {:induction false} RunKeeps(s: Session, run: seq<Event>)
    requires SessionOk(s) && LegalRun(s, run)
    ensures SessionOk(Play(s, run)) && SameTerms(s, Play(s, run))
    decreases |run|
  {
    hide SessionOk, Exec, Legal;
    if run != [] {
      ExecKeeps(s, run[0]);
      RunKeeps(Exec(s, run[0]), run[1..]);
    }
  }

  lemma BooksBalance(u: Universe, b: Broker, autonomy: Autonomy, limits: Limits, symbols: seq<string>, cash: real,
      m: Market, run: seq<Event>)
    requires Listed(u) && Fair(b) && LegalRun(Opened(u, b, autonomy, limits, symbols, cash, m), run)
    ensures var s := Play(Opened(u, b, autonomy, limits, symbols, cash, m), run);
      && s.portfolio.cash + Basis(s.portfolio, u.symbols)
        == cash + Realised(s.portfolio, u.symbols) - Fees(s.portfolio.fills)
      && (forall x :: Held(s.portfolio, x).qty >= 0.0)
      && NoDup(FilledIds(s.journal)) && FillsOf(s.journal) == s.portfolio.fills
  {
    hide Play, LegalRun, Basis, Realised, Fees, Lots, FilledIds, FillsOf;
    OpenedOk(u, b, autonomy, limits, symbols, cash, m);
    RunKeeps(Opened(u, b, autonomy, limits, symbols, cash, m), run);
  }
}
