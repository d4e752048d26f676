/** The daily order cap: which fills the session counts, and exactly when a day exceeds it. */
module TradingDaily {
  import opened Prelude
  import opened TradingModel
  import opened TradingBook
  import opened TradingRuns

  // ----- one approval -----

  /** The session's count is right for its day and no later day has fills yet. */
  ghost predicate CountsRight(s: Session) {
    FillsOn(s.journal, s.day) == s.ordersToday && forall d :: d > s.day ==> FillsOn(s.journal, d) == 0
  }

  /** A fill is counted for its day exactly when the session had already been marked for that
      day; otherwise the mark that follows it starts the count after it. */
  lemma ApproveCountsExactly(s: Session, id: string, m: Market)
    requires SessionOk(s) && Priced(m) && CountsRight(s) && s.day <= m.day && Approve(s, id, m).1.None?
    ensures CountsRight(Approve(s, id, m).0) <==> m.day == s.day
  {
    hide FillsOn, SessionOk, Approve, CashDelta;
    ApproveKeeps(s, id, m);
    var s' := Approve(s, id, m).0;
    JournalNext(s.journal, Filling(id, s'.proposals[id].fill.value, m.day));
  }

  // ----- the fills of a run -----

  /** A fill: the day the session was marked for when it was checked, and the day it was made. */
  datatype Made = Made(checkedOn: int, day: int)

  /** The fill an event makes, if it makes one. */
  function MadeBy(s: Session, e: Event): Option<Made> {
    match e
    case Approved(id, m) => if Approve(s, id, m).1.None? then Some(Made(s.day, m.day)) else None
    case Proposed(id, symbol, side, qty, rationale, limit, m, later) =>
      if rationale < 20 || symbol !in s.universe.lots || !s.autonomy.Auto? then None
      else
        var next := Registered(Marked(s, m), id, Order(symbol, side, RoundQty(s.universe.lots[symbol], qty), limit), m);
        if Approve(next, id, later).1.None? then Some(Made(m.day, later.day)) else None
    case _ => None
  }

  /** The fills of day d checked by a session already marked for d. */
  function Punctual(s: Session, run: seq<Event>, d: int): nat
    decreases |run|
  {
    if run == [] then 0
    else
      var made := MadeBy(s, run[0]);
      (if made.Some? && made.value.day == d && made.value.checkedOn == d then 1 else 0)
      + Punctual(Exec(s, run[0]), run[1..], d)
  }

  /** The fills of day d checked by a session still on another day. */
  function Late(s: Session, run: seq<Event>, d: int): nat
    decreases |run|
  {
    if run == [] then 0
    else
      var made := MadeBy(s, run[0]);
      (if made.Some? && made.value.day == d && made.value.checkedOn != d then 1 else 0)
      + Late(Exec(s, run[0]), run[1..], d)
  }

  /** The first fill of day d. */
  function FirstOn(s: Session, run: seq<Event>, d: int): Option<Made>
    decreases |run|
  {
    if run == [] then None
    else
      var made := MadeBy(s, run[0]);
      if made.Some? && made.value.day == d then made else FirstOn(Exec(s, run[0]), run[1..], d)
  }

  // ----- the calendar -----

  /** The day the clock reads when the event is over. */
  function DayAfter(e: Event, day: int): int {
    match e
    case Proposed(id, symbol, side, qty, rationale, limit, m, later) => later.day
    case Approved(id, m) => m.day
    case MarkCalled(m) => m.day
    case _ => day
  }

  predicate DayForward(e: Event, day: int) {
    match e
    case Proposed(id, symbol, side, qty, rationale, limit, m, later) => day <= m.day <= later.day
    case Approved(id, m) => day <= m.day
    case MarkCalled(m) => day <= m.day
    case _ => true
  }

  /** Calendar days never go back. */
  predicate DaysForward(run: seq<Event>, day: int) {
    run == [] || (DayForward(run[0], day) && DaysForward(run[1..], DayAfter(run[0], day)))
  }

  // ----- one event -----

  /** What an event does to the count: the day only moves on, a new day starts at zero, and a
      punctual fill, which the cap allowed, is added. */
  ghost predicate Tallied(s: Session, s': Session, made: Option<Made>, day: int) {
    && s.day <= s'.day <= day && s'.limits.maxOrders == s.limits.maxOrders
    && (made.None? ==>
          && (forall d :: FillsOn(s'.journal, d) == FillsOn(s.journal, d))
          && s'.ordersToday == if s'.day == s.day then s.ordersToday else 0)
    && (made.Some? ==>
          && var before := if made.value.checkedOn == s.day then s.ordersToday else 0;
          && s.day <= made.value.checkedOn <= made.value.day == s'.day && before < s.limits.maxOrders
          && s'.ordersToday == (if made.value.checkedOn == s'.day then before + 1 else 0)
          && forall d :: FillsOn(s'.journal, d) == FillsOn(s.journal, d) + if d == s'.day then 1 else 0)
  }

  lemma ApproveTallies(s: Session, id: string, m: Market)
    requires SessionOk(s) && Priced(m) && s.day <= m.day
    ensures var (s', err) := Approve(s, id, m);
      Tallied(s, s', if err.None? then Some(Made(s.day, m.day)) else None, m.day)
  {
    hide FillsOn, SessionOk, Approve, CashDelta;
    ApproveKeeps(s, id, m);
    var (s', err) := Approve(s, id, m);
    if err.None? {
      JournalNext(s.journal, Filling(id, s'.proposals[id].fill.value, m.day));
    }
  }

  /** Marking, and then writing down something that is no fill, comes before. */
  lemma TalliedFrom(s: Session, m: Market, e: Entry, s1: Session, s2: Session, made: Option<Made>, day: int)
    requires s.day <= m.day && !e.Filling?
    requires s1.journal == s.journal + [e] && s1.day == m.day && s1.limits.maxOrders == s.limits.maxOrders
    requires s1.ordersToday == if m.day == s.day then s.ordersToday else 0
    requires Tallied(s1, s2, made, day) && (made.Some? ==> made.value.checkedOn == m.day)
    ensures Tallied(s, s2, made, day)
  {
    hide FillsOn;
    JournalNext(s.journal, e);
  }

  lemma WrittenTallies(s: Session, s': Session, e: Entry, day: int)
    requires !e.Filling? && s'.journal == s.journal + [e] && s'.ordersToday == s.ordersToday && s.day <= day
    requires s'.day == s.day && s'.limits.maxOrders == s.limits.maxOrders
    ensures Tallied(s, s', None, day)
  {
    hide FillsOn;
    JournalNext(s.journal, e);
  }

  lemma MarkedTallies(s: Session, m: Market)
    requires s.day <= m.day
    ensures Tallied(s, Marked(s, m), None, m.day)
  {
    hide FillsOn, Marked;
    MarkedKeeps(s, m);
  }

  lemma ProposeTallies(s: Session, id: string, symbol: string, side: Side, qty: real, rationale: nat,
      limit: Option<real>, m: Market, later: Market)
    requires SessionOk(s) && id !in s.proposals && Priced(m) && Priced(later) && s.day <= m.day <= later.day
    requires rationale >= 20 && symbol in s.universe.lots
    ensures var e := Proposed(id, symbol, side, qty, rationale, limit, m, later);
      Tallied(s, Exec(s, e), MadeBy(s, e), later.day)
  {
    hide BookOk, JournalOk, Priced, Approve, Propose, Marked, OrderOk, Tallied, ReasonsNow, FillsOn;
    MarkedOk(s, m);
    MarkedKeeps(s, m);
    ListedIn(s);
    RoundedOrderOk(s.universe, symbol, side, qty, limit);
    var order := Order(symbol, side, RoundQty(s.universe.lots[symbol], qty), limit);
    var next := Registered(Marked(s, m), id, order, m);
    RegisteredKeeps(Marked(s, m), id, order, m);
    ApproveTallies(next, id, later);
    ProposeGoes(s, id, symbol, side, qty, rationale, limit, m, later);
    if s.autonomy.Auto? {
      var made := if Approve(next, id, later).1.None? then Some(Made(next.day, later.day)) else None;
      TalliedFrom(s, m, Proposing(id), next, Approve(next, id, later).0, made, later.day);
    } else {
      NothingTallied(next, later.day);
      TalliedFrom(s, m, Proposing(id), next, next, None, later.day);
    }
  }

  /** Under autonomy "auto" a proposal is put to approval at once; a refused one fails there. */
  lemma ProposeGoes(s: Session, id: string, symbol: string, side: Side, qty: real, rationale: nat,
      limit: Option<real>, m: Market, later: Market)
    requires rationale >= 20 && symbol in s.universe.lots
    ensures var order := Order(symbol, side, RoundQty(s.universe.lots[symbol], qty), limit);
      var next := Registered(Marked(s, m), id, order, m);
      var e := Proposed(id, symbol, side, qty, rationale, limit, m, later);
      && Exec(s, e) == (if s.autonomy.Auto? then Approve(next, id, later).0 else next)
      && MadeBy(s, e)
        == (if s.autonomy.Auto? && Approve(next, id, later).1.None? then Some(Made(m.day, later.day)) else None)
  {
    hide ReasonsNow, RoundQty, Equity, Applied, Placed;
  }

  lemma NothingTallied(s: Session, day: int)
    requires s.day <= day
    ensures Tallied(s, s, None, day)
  {
  }

  lemma ExecTallies(s: Session, e: Event, day: int)
    requires SessionOk(s) && Legal(s, e) && s.day <= day && DayForward(e, day)
    ensures Tallied(s, Exec(s, e), MadeBy(s, e), DayAfter(e, day))
  {
    hide SessionOk, Priced, Approve, Marked, Tallied, FillsOn, ReasonsNow;
    match e {
      case Proposed(id, symbol, side, qty, rationale, limit, m, later) =>
        if rationale >= 20 && symbol in s.universe.lots {
          ProposeTallies(s, id, symbol, side, qty, rationale, limit, m, later);
        } else {
          NothingTallied(s, later.day);
        }
      case Approved(id, m) => ApproveTallies(s, id, m);
      case Dismissed(id) =>
        if id in s.proposals {
          WrittenTallies(s, Reject(s, id).0, Rejecting(id), day);
        } else {
          NothingTallied(s, day);
        }
      case HaltCalled => WrittenTallies(s, Halt(s), Halting, day);
      case ResumeCalled => WrittenTallies(s, Resume(s), Resuming, day);
      case MarkCalled(m) => MarkedTallies(s, m);
    }
  }

  // ----- whole runs -----

  /** What a run adds to a day, from a session marked for s.day. */
  ghost predicate DayOk(s: Session, run: seq<Event>, d: int) {
    var cap, p, l := Max(0, s.limits.maxOrders), Punctual(s, run, d), Late(s, run, d);
    && (d < s.day ==> p == 0)
    && (d == s.day ==> p == 0 || s.ordersToday + p <= cap)
    && (d > s.day ==> p <= cap)
    && (d <= s.day ==> l == 0)
    && l == (if FirstOn(s, run, d).Some? && FirstOn(s, run, d).value.checkedOn != d then 1 else 0)
    && (FirstOn(s, run, d).None? <==> p + l == 0)
    && FillsOn(Play(s, run).journal, d) == FillsOn(s.journal, d) + p + l
  }

  /** One event more at the front. */
  lemma DayNext(s: Session, run: seq<Event>, d: int, day: int)
    requires run != [] && s.ordersToday >= 0 && Tallied(s, Exec(s, run[0]), MadeBy(s, run[0]), day)
    requires DayOk(Exec(s, run[0]), run[1..], d)
    ensures DayOk(s, run, d) && Exec(s, run[0]).ordersToday >= 0
  {
    hide Exec, MadeBy, FillsOn;
  }

  lemma {:induction false} RunTallies(s: Session, run: seq<Event>, day: int, d: int)
    requires SessionOk(s) && LegalRun(s, run) && s.ordersToday >= 0 && s.day <= day && DaysForward(run, day)
    ensures DayOk(s, run, d)
    decreases |run|
  {
    hide Exec, Legal, SessionOk, Tallied, DayAfter, DayForward, MadeBy, FillsOn, DayOk;
    if run == [] {
      NoDay(s, d);
    } else {
      ExecKeeps(s, run[0]);
      ExecTallies(s, run[0], day);
      TalliedDays(s, Exec(s, run[0]), MadeBy(s, run[0]), DayAfter(run[0], day));
      RunTallies(Exec(s, run[0]), run[1..], DayAfter(run[0], day), d);
      DayNext(s, run, d, DayAfter(run[0], day));
    }
  }

  lemma NoDay(s: Session, d: int)
    ensures DayOk(s, [], d)
  {
  }

  lemma TalliedDays(s: Session, s': Session, made: Option<Made>, day: int)
    requires Tallied(s, s', made, day) && s.ordersToday >= 0
    ensures s'.day <= day && s'.ordersToday >= 0
  {
    hide FillsOn;
  }

  /** The fills of every calendar day in every run: at most the cap of punctual ones, and one
      late one exactly when the first fill of the day was made while the session was still marked
      for an earlier day. So a day exceeds the cap exactly when its first fill was late and the
      punctual ones alone reach the cap. */
  lemma DailyFills(u: Universe, b: Broker, autonomy: Autonomy, limits: Limits, symbols: seq<string>, cash: real,
      m: Market, run: seq<Event>, d: int)
    requires Listed(u) && Fair(b) && LegalRun(Opened(u, b, autonomy, limits, symbols, cash, m), run)
    requires DaysForward(run, m.day)
    ensures var s := Opened(u, b, autonomy, limits, symbols, cash, m);
      var first, cap := FirstOn(s, run, d), Max(0, limits.maxOrders);
      && FillsOn(Play(s, run).journal, d) == Punctual(s, run, d) + Late(s, run, d)
      && Punctual(s, run, d) <= cap
      && Late(s, run, d) == (if first.Some? && first.value.checkedOn != d then 1 else 0)
      && (FillsOn(Play(s, run).journal, d) <= cap <==>
            !(first.Some? && first.value.checkedOn != d) || Punctual(s, run, d) < cap)
  {
    hide Play, LegalRun, SessionOk, DaysForward, Punctual, Late, FirstOn;
    var s := Opened(u, b, autonomy, limits, symbols, cash, m);
    OpenedOk(u, b, autonomy, limits, symbols, cash, m);
    RunTallies(s, run, m.day, d);
  }

  // ----- the cap can slip by one -----

  /** One symbol at a constant price of one. */
  function Flat(day: int): Market {
    Market(s => Quote(1.0, 1.0), s => Some(1.0), s => true, day)
  }

  function OneSymbol(): Universe {
    Universe(["X"], map["X" := 1.0])
  }

  /** One order a day and hardly anything else to stop it. */
  function CappedLimits(): Limits {
    Limits(100.0, 0.0, 1.0, 1.0, 0.0, 100.0, 1, false, false, ["X"], false)
  }

  /** A session without costs, capped at one order a day. */
  function CappedSession(): Session {
    Opened(OneSymbol(), Broker(0.0, 0.0, 0.0), Confirm, CappedLimits(), ["X"], 100.0, Flat(0))
  }

  function BuyOne(): Order {
    Order("X", Buy, 1.0, None)
  }

  /** So many units bought at one, out of a hundred. */
  function Bought(held: nat): Portfolio
    requires held <= 2
  {
    Portfolio(100.0 - held as real,
      if held == 0 then map[] else map["X" := Position(held as real, 1.0, 0.0)],
      if held == 0 then [] else if held == 1 then [OneFill()] else [OneFill(), OneFill()], 100.0)
  }

  function OneFill(): Fill {
    Fill("X", Buy, 1.0, 1.0, 0.0)
  }

  lemma BoughtWorth(held: nat, day: int)
    requires held <= 2
    ensures Equity(OneSymbol(), Bought(held), Flat(day)) == 100.0
    ensures ExposureOf(Bought(held), Flat(day), ["X"]) == held as real
  {
    var p, m := Bought(held), Flat(day);
    assert ["X"][..0] == [];
    assert ValueOf(p, m, []) == 0.0 && ExposureOf(p, m, []) == 0.0;
    assert Times(Held(p, "X").qty, PriceOf(m, "X", Held(p, "X"))) == held as real;
  }

  lemma OneLot()
    ensures RoundQty(1.0, 1.0) == 1.0
  {
    assert (Abs(1.0) / 1.0 + 0.000000001).Floor == 1;
  }

  lemma OrderFine(day: int)
    ensures OrderReasons(OneSymbol(), CappedLimits(), BuyOne(), Flat(day)) == []
  {
    hide RoundQty, Equity;
    OneLot();
  }

  lemma NoneOf(a: seq<Reason>, b: seq<Reason>, c: seq<Reason>, d: seq<Reason>)
    requires a == b == c == d == []
    ensures a + b + c + d == []
  {
  }

  lemma SizeFine()
    ensures Notional(BuyOne(), Quote(1.0, 1.0)) == 1.0
    ensures SizeReasons(CappedLimits(), 1.0, 100.0, 0, 100.0) == []
  {
    assert Times(1.0, 1.0) == 1.0;
    assert 100.0 / 100.0 == 1.0;
    assert (1.0 - 100.0 / 100.0) * 100.0 == 0.0;
    NoneOf(If(1.0 > 100.0, TooLarge), If(0.0 < 1.0 < 0.0, TooSmall), If(0 >= 1, DailyCap),
      If(100.0 > 0.0 && (1.0 - 100.0 / 100.0) * 100.0 >= 100.0, DailyLoss));
  }

  lemma BoughtHolds(held: nat)
    requires held <= 2
    ensures Bought(held).cash == 100.0 - held as real && Times(Held(Bought(held), "X").qty, 1.0) == held as real
  {
  }

  lemma SideFine(held: nat, day: int)
    requires held <= 1
    ensures BuyReasons(OneSymbol(), CappedLimits(), BuyOne(), 1.0, 1.0, Bought(held), Flat(day)) == []
  {
    hide Equity, ExposureOf, Held, Bought, Flat, Times;
    BoughtWorth(held, day);
    BoughtHolds(held);
    NoBuffer();
    assert (0.0 + 1.0) / 100.0 <= 1.0 && (1.0 + 1.0) / 100.0 <= 1.0;
  }

  lemma NoBuffer()
    ensures Times(0.0, 100.0) == 0.0
  {
  }

  lemma NothingAgainst(held: nat, day: int)
    requires held <= 1
    ensures Reasons(OneSymbol(), CappedLimits(), BuyOne(), Quote(1.0, 1.0), Bought(held), Flat(day), 0, 100.0) == []
  {
    hide Equity, OrderReasons, SizeReasons, BuyReasons, Notional, Bought;
    BoughtWorth(held, day);
    OrderFine(day);
    SizeFine();
    SideFine(held, day);
  }

  lemma MovesOne(held: nat)
    requires held <= 1
    ensures Moved(Held(Bought(held), "X"), OneFill()) == Some(Position(held as real + 1.0, 1.0, 0.0))
  {
    assert Times(Held(Bought(held), "X").avg, Held(Bought(held), "X").qty) == held as real;
    assert Times(1.0, 1.0) == 1.0;
    assert 1.0 / 1.0 == 1.0 && 2.0 / 2.0 == 1.0;
  }

  lemma PlacesOne()
    ensures Placed(Broker(0.0, 0.0, 0.0), BuyOne(), Quote(1.0, 1.0)) == Some(OneFill())
    ensures CashDelta(OneFill()) == -1.0
  {
    hide FillPrice, Times, CashDelta;
    OnePrice();
    OneCosts();
  }

  lemma OnePrice()
    ensures FillPrice(Broker(0.0, 0.0, 0.0), BuyOne(), Quote(1.0, 1.0)) == 1.0
    ensures Times(Times(1.0, 1.0), 0.0) == 0.0
  {
    hide Times;
    NoSlip();
    OneTimesOne();
  }

  lemma NoSlip()
    ensures Slip(Broker(0.0, 0.0, 0.0)) == 0.0
  {
  }

  lemma OneTimesOne()
    ensures Times(1.0, 1.0) == 1.0 && Times(1.0, 0.0) == 0.0
  {
  }

  lemma OneCosts()
    ensures CashDelta(OneFill()) == -1.0
  {
  }

  lemma AppliedIs(p: Portfolio, f: Fill, moved: Position)
    requires Moved(Held(p, f.symbol), f) == Some(moved)
    ensures Applied(p, f)
         == (p.(cash := p.cash + CashDelta(f), positions := p.positions[f.symbol := moved],
                 fills := p.fills + [f]), true)
  {
    hide Moved, Held, CashDelta;
  }

  lemma BoughtNext(held: nat)
    requires held <= 1
    ensures Bought(held + 1).positions == Bought(held).positions["X" := Position(held as real + 1.0, 1.0, 0.0)]
    ensures Bought(held + 1).fills == Bought(held).fills + [OneFill()]
    ensures Bought(held + 1).cash == Bought(held).cash - 1.0
      && Bought(held + 1).startingCash == Bought(held).startingCash
  {
    if held == 0 {
      assert Bought(0).positions == map[] && Bought(0).fills == [];
    } else {
      assert held == 1;
    }
  }

  lemma BuysOne(held: nat)
    requires held <= 1
    ensures Applied(Bought(held), OneFill()) == (Bought(held + 1), true)
  {
    hide Moved, CashDelta, Bought, Held, Applied, Placed;
    PlacesOne();
    MovesOne(held);
    BoughtNext(held);
    AppliedIs(Bought(held), OneFill(), Position(held as real + 1.0, 1.0, 0.0));
  }

  function Buying(status: Status): Proposal {
    Proposal(BuyOne(), status, [], 0, if status.Filled? then Some(OneFill()) else None)
  }

  /** The session with proposal "a" made, and perhaps "b"; `held` of them filled on day one. */
  function Waiting(proposals: map<string, Proposal>, journal: seq<Entry>, held: nat): Session
    requires held <= 2
  {
    CappedSession().(portfolio := Bought(held), proposals := proposals, journal := journal,
      ordersToday := if held == 2 then 1 else 0, day := if held == 0 then 0 else 1)
  }

  lemma WaitingWorth(proposals: map<string, Proposal>, journal: seq<Entry>, held: nat, day: int)
    requires held <= 1
    ensures var s := Waiting(proposals, journal, held);
      && s.universe == OneSymbol() && s.dayStart == 100.0 && s.ordersToday == 0
      && ReasonsNow(s, BuyOne(), Flat(day)) == []
  {
    hide Equity, Reasons, RoundQty;
    BoughtWorth(0, 0);
    assert CappedSession().portfolio == Bought(0);
    NothingAgainst(held, day);
  }

  lemma ProposesOne(proposals: map<string, Proposal>, journal: seq<Entry>, id: string)
    ensures Exec(Waiting(proposals, journal, 0), Proposed(id, "X", Buy, 1.0, 20, None, Flat(0), Flat(0)))
         == Waiting(proposals[id := Buying(Pending)], journal + [Proposing(id)], 0)
  {
    hide Equity, ReasonsNow, RoundQty, Approve;
    WaitingWorth(proposals, journal, 0, 0);
    OneLot();
  }

  lemma FillsOne(proposals: map<string, Proposal>, journal: seq<Entry>, held: nat, id: string)
    requires held <= 1 && id in proposals && proposals[id] == Buying(Pending)
    ensures Exec(Waiting(proposals, journal, held), Approved(id, Flat(1)))
         == Waiting(proposals[id := Buying(Filled)], journal + [Filling(id, OneFill(), 1)], held + 1)
  {
    hide Equity, ReasonsNow, Placed, Applied, Bought;
    WaitingWorth(proposals, journal, held, 1);
    PlacesOne();
    BuysOne(held);
    BoughtWorth(held + 1, 1);
    WorthAtOpen();
  }

  lemma WorthAtOpen()
    ensures CappedSession().dayStart == 100.0 && CappedSession().day == 0
  {
    assert CappedSession().portfolio == Bought(0);
    BoughtWorth(0, 0);
  }

  lemma FlatIsPriced(day: int)
    ensures Priced(Flat(day))
  {
  }

  /** A run in which one day sees two fills under a cap of one. */
  lemma DailyCapSlips() returns (run: seq<Event>)
    ensures LegalRun(CappedSession(), run) && DaysForward(run, 0)
    ensures FillsOn(Play(CappedSession(), run).journal, 1) == 2 && CappedSession().limits.maxOrders == 1
  {
    hide Exec, Bought, Equity, FillsOn;
    var pa := Proposed("a", "X", Buy, 1.0, 20, None, Flat(0), Flat(0));
    var pb := Proposed("b", "X", Buy, 1.0, 20, None, Flat(0), Flat(0));
    var fa, fb := Approved("a", Flat(1)), Approved("b", Flat(1));
    run := [pa, pb, fa, fb];
    var j0: seq<Entry> := [];
    var p1, j1 := map["a" := Buying(Pending)], j0 + [Proposing("a")];
    var p2, j2 := p1["b" := Buying(Pending)], j1 + [Proposing("b")];
    var p3, j3 := p2["a" := Buying(Filled)], j2 + [Filling("a", OneFill(), 1)];
    var p4, j4 := p3["b" := Buying(Filled)], j3 + [Filling("b", OneFill(), 1)];
    StartsWaiting();
    assert map[]["a" := Buying(Pending)] == p1;
    ProposesOne(map[], j0, "a");
    ProposesOne(p1, j1, "b");
    FillsOne(p2, j2, 0, "a");
    FillsOne(p3, j3, 1, "b");
    FlatIsPriced(0);
    FlatIsPriced(1);
    PlaysFour(CappedSession(), Waiting(p1, j1, 0), Waiting(p2, j2, 0), Waiting(p3, j3, 1), Waiting(p4, j4, 2), run);
    CountsTwo(j0, j1, j2, j3, j4);
  }

  lemma StartsWaiting()
    ensures CappedSession() == Waiting(map[], [], 0)
  {
  }

  lemma PlaysFour(s0: Session, s1: Session, s2: Session, s3: Session, s4: Session, run: seq<Event>)
    requires |run| == 4 && Exec(s0, run[0]) == s1 && Exec(s1, run[1]) == s2 && Exec(s2, run[2]) == s3
      && Exec(s3, run[3]) == s4
    requires Legal(s0, run[0]) && Legal(s1, run[1]) && Legal(s2, run[2]) && Legal(s3, run[3])
    requires DayForward(run[0], 0) && DayForward(run[1], DayAfter(run[0], 0))
    requires DayForward(run[2], DayAfter(run[1], DayAfter(run[0], 0)))
    requires DayForward(run[3], DayAfter(run[2], DayAfter(run[1], DayAfter(run[0], 0))))
    ensures LegalRun(s0, run) && Play(s0, run) == s4 && DaysForward(run, 0)
  {
    hide Exec, Legal, DayForward, DayAfter;
    var r1, r2, r3 := run[1..], run[2..], run[3..];
    assert r1[1..] == r2 && r2[1..] == r3 && r3[1..] == [];
    assert Play(s3, r3) == s4 && LegalRun(s3, r3);
    assert Play(s2, r2) == s4 && LegalRun(s2, r2);
    assert Play(s1, r1) == s4 && LegalRun(s1, r1);
    assert DaysForward(r3, DayAfter(run[2], DayAfter(run[1], DayAfter(run[0], 0))));
    assert DaysForward(r2, DayAfter(run[1], DayAfter(run[0], 0)));
    assert DaysForward(r1, DayAfter(run[0], 0));
  }

  lemma CountsTwo(j0: seq<Entry>, j1: seq<Entry>, j2: seq<Entry>, j3: seq<Entry>, j4: seq<Entry>)
    requires j0 == [] && j1 == j0 + [Proposing("a")] && j2 == j1 + [Proposing("b")]
    requires j3 == j2 + [Filling("a", OneFill(), 1)] && j4 == j3 + [Filling("b", OneFill(), 1)]
    ensures FillsOn(j4, 1) == 2
  {
    JournalNext(j0, Proposing("a"));
    JournalNext(j1, Proposing("b"));
    JournalNext(j2, Filling("a", OneFill(), 1));
    JournalNext(j3, Filling("b", OneFill(), 1));
  }
}
