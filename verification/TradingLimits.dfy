/** Cash, the kill switch and the daily order cap, over whole runs. */
module TradingLimits {
  import opened TradingModel
  import opened TradingBook
  import opened TradingRuns

  // ----- cash -----

  ghost predicate Solvent(s: Session) {
    SessionOk(s) && s.portfolio.cash >= 0.0 && Covered(s.broker, s.limits)
  }

  lemma ApproveSolvent(s: Session, id: string, m: Market)
    requires Solvent(s) && Priced(m)
    ensures Approve(s, id, m).0.portfolio.cash >= 0.0
  {
    hide BookOk, Lots, ReasonsNow, CashDelta, Friction, JournalOk, Marked, Notional;
    ApproveKeeps(s, id, m);
    var (s', err) := Approve(s, id, m);
    if err.None? {
      var pr := s.proposals[id];
      var q := m.quotes(pr.order.symbol);
      Quoted(m, pr.order.symbol);
      NowPasses(s, pr.order, m);
      ApprovedFill(s, id, m);
      if pr.order.side.Buy? {
        BuyAffordable(s.universe, s.broker, s.limits, pr.order, q, s.portfolio, m);
        BuyCosts(s.broker, pr.order, q);
      } else {
        SellBrings(s.broker, pr.order, q);
      }
    }
  }

  lemma ApprovedFill(s: Session, id: string, m: Market)
    requires Approve(s, id, m).1.None?
    ensures id in s.proposals && ReasonsNow(s, s.proposals[id].order, m) == []
    ensures var o := s.proposals[id].order;
      var placed := Placed(s.broker, o, m.quotes(o.symbol));
      placed.Some? && Approve(s, id, m).0.portfolio.cash == s.portfolio.cash + CashDelta(placed.value)
  {
    hide ReasonsNow, Placed, Moved, CashDelta, Equity;
  }

  lemma ExecSolvent(s: Session, e: Event)
    requires Solvent(s) && Legal(s, e)
    ensures Solvent(Exec(s, e))
  {
    hide BookOk, JournalOk, Priced, Approve, Propose, Reject, Marked, OrderOk, Friction;
    ExecKeeps(s, e);
    match e {
      case Proposed(id, symbol, side, qty, rationale, limit, m, later) =>
        if rationale >= 20 && symbol in s.universe.lots {
          MarkedOk(s, m);
          MarkedKeeps(s, m);
          ListedIn(s);
          RoundedOrderOk(s.universe, symbol, side, qty, limit);
          var order := Order(symbol, side, RoundQty(s.universe.lots[symbol], qty), limit);
          RegisteredKeeps(Marked(s, m), id, order, m);
          ApproveSolvent(Registered(Marked(s, m), id, order, m), id, later);
        }
        ProposeIs(s, id, symbol, side, qty, rationale, limit, m, later);
      case Approved(id, m) => ApproveSolvent(s, id, m);
      case Dismissed(id) => RejectKeeps(s, id);
      case MarkCalled(m) => MarkedKeeps(s, m);
      case _ =>
    }
  }

  /** Cash never goes below zero in any run, when the buffer covers the friction on the largest
      position: max weight times slippage, commission and their product at most the buffer. */
  lemma {:induction false} CashStaysNonnegative(s: Session, run: seq<Event>)
    requires Solvent(s) && LegalRun(s, run)
    ensures Play(s, run).portfolio.cash >= 0.0
    decreases |run|
  {
    hide Exec, Legal;
    if run != [] {
      ExecSolvent(s, run[0]);
      CashStaysNonnegative(Exec(s, run[0]), run[1..]);
    }
  }

  // ----- the kill switch -----

  ghost predicate NoResume(run: seq<Event>) {
    forall i :: 0 <= i < |run| ==> !run[i].ResumeCalled?
  }

  lemma HaltedExec(s: Session, e: Event)
    requires SessionOk(s) && Legal(s, e) && s.limits.halted && !e.ResumeCalled?
    ensures var s' := Exec(s, e);
      s'.limits.halted && FillsOf(s'.journal) == FillsOf(s.journal) && s'.portfolio.cash == s.portfolio.cash
  {
    hide BookOk, JournalOk, Priced, Approve, Propose, Marked, OrderOk, FillsOf, FilledIds, FillsOn, ReasonsNow;
    match e {
      case Proposed(id, symbol, side, qty, rationale, limit, m, later) =>
        if rationale >= 20 && symbol in s.universe.lots {
          MarkedOk(s, m);
          MarkedKeeps(s, m);
          ListedIn(s);
          RoundedOrderOk(s.universe, symbol, side, qty, limit);
          var order := Order(symbol, side, RoundQty(s.universe.lots[symbol], qty), limit);
          RegisteredKeeps(Marked(s, m), id, order, m);
          ApproveKeeps(Registered(Marked(s, m), id, order, m), id, later);
          JournalNext(s.journal, Proposing(id));
          assert FillsOf(s.journal) + [] == FillsOf(s.journal);
        }
        ProposeIs(s, id, symbol, side, qty, rationale, limit, m, later);
      case Approved(id, m) => ApproveKeeps(s, id, m);
      case Dismissed(id) =>
        JournalNext(s.journal, Rejecting(id));
        assert FillsOf(s.journal) + [] == FillsOf(s.journal);
      case HaltCalled =>
        JournalNext(s.journal, Halting);
        assert FillsOf(s.journal) + [] == FillsOf(s.journal);
      case ResumeCalled =>
      case MarkCalled(m) => MarkedKeeps(s, m);
    }
  }

  /** From a halt on nothing is filled and no money moves, until somebody resumes. */
  lemma {:induction false} HaltHolds(s: Session, run: seq<Event>)
    requires SessionOk(s) && LegalRun(s, run) && s.limits.halted && NoResume(run)
    ensures var s' := Play(s, run);
      s'.limits.halted && s'.portfolio.fills == s.portfolio.fills && s'.portfolio.cash == s.portfolio.cash
    decreases |run|
  {
    hide Exec, Legal, BookOk, OrderOk, Lots, FillsOf, FilledIds;
    if run != [] {
      assert !run[0].ResumeCalled?;
      HaltedExec(s, run[0]);
      ExecKeeps(s, run[0]);
      assert forall i :: 0 <= i < |run[1..]| ==> run[1..][i] == run[i + 1];
      HaltHolds(Exec(s, run[0]), run[1..]);
    }
  }
}
