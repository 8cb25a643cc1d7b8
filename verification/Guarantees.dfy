/**
 What the protocol guarantees on every run, for any number of orders, users and workers and any
 interleaving (src/order/service.rs, src/order/repository.rs, src/order/status.rs).
 */
module Guarantees {
  import opened Common
  import opened Orders
  import opened Protocol
  import opened Steps
  import opened Facts
  import opened Settle
  import opened World
  import opened Sums
  import opened Invariant
  import opened Quiet
  import opened Holds
  import opened Locks
  import opened Claims

  // ---- orders only move forward ----

  lemma ApplyEvolves(s: Sys, e: Event, o: nat)
    requires Inv(s) && o < |s.cells|
    ensures var t := Apply(s, e); o < |t.cells| && ViewEvolves(ViewOf(s, o), ViewOf(t, o))
  {
    if e.Step? && e.w < |s.jobs| && Target(s.jobs[e.w].pc).Some? && Target(s.jobs[e.w].pc).value < |s.cells| {
      if s.jobs[e.w].alive {
        hide Inv, OrderStep, ViewOf;
        StepEvolves(s, Target(s.jobs[e.w].pc).value, e.w, e.c, o);
      } else {
        Stays(ViewOf(s, o));
      }
    } else {
      hide Inv, Apply;
      QuietEvent(s, e, o);
      Stays(ViewOf(s, o));
    }
  }

  lemma Stays(v: View)
    ensures ViewEvolves(v, v)
  {
  }

  lemma StepEvolves(s: Sys, p: nat, w: nat, c: Choice, o: nat)
    requires Inv(s) && p < |s.cells| && o < |s.cells|
    requires w < |s.jobs| && Target(s.jobs[w].pc) == Some(p)
    ensures ViewEvolves(ViewOf(s, o), ViewOf(OrderStep(s, p, w, c), o))
  {
    StepReady(s, p, w);
    var balance := At(s.balance, Money(s.cells[p].row.user));
    LocalStepSettles(s.now, balance, w, ViewOf(s, p), s.jobs[w], c, p);
    var (v, j) := LocalStep(s.now, balance, w, ViewOf(s, p), s.jobs[w], c);
    StepViews(s, p, w, v, j);
  }

  /** An order that exists stays, and changes only as `ViewEvolves` allows, over any stretch of a run. */
  lemma {:induction false} RunEvolves(s: Sys, es: seq<Event>, i: nat, o: nat)
    requires Initial(s) && i <= |es| && o < |Run(s, es[..i]).cells|
    ensures o < |Run(s, es).cells| && ViewEvolves(ViewOf(Run(s, es[..i]), o), ViewOf(Run(s, es), o))
  {
    RunKeeps(s, es[..i]);
    if i == |es| {
      assert es[..i] == es;
    } else {
      var m := es[..|es| - 1];
      assert m[..i] == es[..i];
      RunEvolves(s, m, i, o);
      RunKeeps(s, m);
      ApplyEvolves(Run(s, m), es[|es| - 1], o);
      RunKeeps(s, es);
      ViewEvolvesTransitive(ViewOf(Run(s, es[..i]), o), ViewOf(Run(s, m), o), ViewOf(Run(s, es), o));
    }
  }

  lemma ReachableLaw(s: Sys, o: nat, x: Kind)
    requires Reachable(s) && o < |s.cells|
    ensures CellOk(ViewOf(s, o)) && Law(s, o, x)
    ensures x != Units ==> Total(s.jobs, o, x) >= 0
  {
    ReachableInv(s);
    assert Law(s, o, x);
    if x != Units {
      TotalNonNegative(s.jobs, o, x);
    }
  }

  lemma ReachableWorker(s: Sys, w: nat)
    requires Reachable(s) && w < |s.jobs|
    ensures WorkerOk(s, s.jobs[w])
  {
    ReachableInv(s);
  }

  /**
   The phases never go back, CANCELLED is final and never paid, refunded statuses are terminal, and the
   amount to pay changes at most once, when the payment is confirmed, staying within a cent of the quote.
   */
  lemma PhasesOnlyAdvance(s0: Sys, es: seq<Event>, i: nat, o: nat)
    requires Initial(s0) && i <= |es| && o < |Run(s0, es[..i]).cells|
    ensures o < |Run(s0, es).cells|
    ensures var (a, b) := (Run(s0, es[..i]).cells[o], Run(s0, es).cells[o]);
            && Phase(a.row.status) <= Phase(b.row.status)
            && (a.row.status == Cancelled ==> b.row.status == Cancelled)
            && (Phase(a.row.status) == 3 ==> b.row.status == a.row.status)
            && (b.row.status == Cancelled ==> b.row.paidAt.None?)
            && (b.row.status == Pending ==> a.row.status == Pending)
            && (a.row.paidAt.Some? ==> b.row.paidAt == a.row.paidAt && b.row.payAmountCents == a.row.payAmountCents)
            && (b.row.paidAt.None? ==> b.row.payAmountCents == a.row.payAmountCents)
            && b.quote == a.quote && Abs(Expected(b.row) - b.quote) <= 1
  {
    RunEvolves(s0, es, i, o);
    RunKeeps(s0, es);
    assert CellOk(ViewOf(Run(s0, es), o));
  }

  // ---- the RECHARGING and REFUNDING locks ----

  /** The RECHARGING lock has exactly one holder, dead or alive; without the status nobody holds it. */
  lemma LocksExclusive(s: Sys, o: nat)
    requires Reachable(s) && o < |s.cells|
    ensures Total(s.jobs, o, RechargeHeld) == Ind(s.cells[o].row.status == Recharging)
    ensures forall w, u :: 0 <= w < u < |s.jobs| ==>
              Give(s.jobs[w], o, RechargeHeld) + Give(s.jobs[u], o, RechargeHeld) <= 1
  {
    ReachableLaw(s, o, RechargeHeld);
    LocksLeaveNoTrace(s.cells[o].log);
    forall w, u | 0 <= w < u < |s.jobs|
      ensures Give(s.jobs[w], o, RechargeHeld) + Give(s.jobs[u], o, RechargeHeld) <= 1
    {
      TotalCovers(s.jobs, o, RechargeHeld, w, u);
    }
  }

  /** So has the REFUNDING lock, as long as no commit fails after an order was restored, still to be refunded. */
  lemma RefundLockExclusive(s0: Sys, es: seq<Event>, o: nat)
    requires Initial(s0) && KeepsLocks(s0, es) && o < |Run(s0, es).cells|
    ensures var s := Run(s0, es);
            && TotalHeld(s.jobs, o, Lock) == Ind(s.cells[o].row.status == Refunding)
            && forall w, u :: 0 <= w < u < |s.jobs| ==> GiveHeld(s.jobs[w], o, Lock) + GiveHeld(s.jobs[u], o, Lock) <= 1
  {
    RunLocks(s0, es);
    var s := Run(s0, es);
    assert LockLaw(s, o);
    forall w, u | 0 <= w < u < |s.jobs| ensures GiveHeld(s.jobs[w], o, Lock) + GiveHeld(s.jobs[u], o, Lock) <= 1 {
      TotalHeldCovers(s.jobs, o, Lock, w, u);
    }
  }

  /**
   Although the statement would also accept PAID and FAILED rows, a fulfillment only ever completes or
   fails an order that is RECHARGING.
   */
  lemma CompletionStartsFromRecharging(s: Sys, o: nat, w: nat)
    requires Reachable(s) && o < |s.cells| && w < |s.jobs| && Target(s.jobs[w].pc) == Some(o)
    ensures s.jobs[w].pc.AtFulfill? && HoldsRecharge(s.jobs[w].pc.fulfill) ==> s.cells[o].row.status == Recharging
  {
    ReachableInv(s);
    StepReady(s, o, w);
  }

  /** A worker in possession of the refund lock finds the order REFUNDING. */
  lemma RefundHolderFindsRefunding(s0: Sys, es: seq<Event>, o: nat, w: nat)
    requires Initial(s0) && KeepsLocks(s0, es) && o < |Run(s0, es).cells| && w < |Run(s0, es).jobs|
    requires Target(Run(s0, es).jobs[w].pc) == Some(o) && HoldsLock(Run(s0, es).jobs[w].pc)
    ensures Run(s0, es).cells[o].row.status == Refunding
  {
    RunLocks(s0, es);
    var s := Run(s0, es);
    assert LockLaw(s, o) && FactsAbout(s, o);
    HolderReady(s, o, w);
  }

  /**
   A refund that succeeded is on the row, with its amount; the order is REFUNDED if that is the whole order and
   PARTIALLY_REFUNDED if it is less.
   */
  lemma FinishedRefundIsOnRow(s0: Sys, es: seq<Event>, w: nat, a: Attempt)
    requires Initial(s0) && KeepsLocks(s0, es)
    requires w < |Run(s0, es).jobs| && Run(s0, es).jobs[w].pc == RefundOver(a, Finished)
    ensures var s := Run(s0, es);
            && a.order < |s.cells|
            && var r := s.cells[a.order].row;
            && r.refundCents == Some(a.cents)
            && r.status == (if a.cents == r.amountCents then Refunded else PartiallyRefunded)
            && a.gatewayCents in s.cells[a.order].gateway
  {
    RunLocks(s0, es);
    var s := Run(s0, es);
    ReachableInv(s);
    assert WorkerOk(s, s.jobs[w]) && CellOk(ViewOf(s, a.order));
    assert FactsAbout(s, a.order) && LockFact(ViewOf(s, a.order), s.jobs[w].pc);
    hide Run, LockInv, FactsAbout, KeepsLocks, Initial, Inv, CellOk;
    OnRowSays(ViewOf(s, a.order), s.jobs[w], a);
  }

  lemma OnRowSays(v: View, j: Job, a: Attempt)
    requires CellOk(v) && JobOk(v, j) && LockFact(v, j.pc) && j.pc == RefundOver(a, Finished)
    ensures var r := v.cell.row;
            && r.refundCents == Some(a.cents)
            && r.status == (if a.cents == r.amountCents then Refunded else PartiallyRefunded)
            && a.gatewayCents in v.cell.gateway
  {
  }

  /** On every run a refunded order says how much was refunded, and by its status whether that is all of it. */
  lemma RefundedStatusIsAmount(s: Sys, o: nat)
    requires Reachable(s) && o < |s.cells|
    ensures var r := s.cells[o].row;
            && (r.status in {Refunded, PartiallyRefunded} ==>
                  r.refundCents.Some? && 0 < r.refundCents.value <= r.amountCents)
            && (r.status == Refunded ==> r.refundCents == Some(r.amountCents))
            && (r.status == PartiallyRefunded ==> r.refundCents.value < r.amountCents)
  {
    ReachableInv(s);
    assert CellOk(ViewOf(s, o));
  }

  /** A worker that takes no further step: it vanished, or its refund is over. */
  predicate Stuck(j: Job) {
    !j.alive || j.pc.RefundOver?
  }

  lemma {:induction false} StuckStays(s: Sys, es: seq<Event>, i: nat, w: nat)
    requires Initial(s) && i <= |es| && w < |Run(s, es[..i]).jobs|
    requires var t := Run(s, es[..i]);
             Stuck(t.jobs[w]) && Target(t.jobs[w].pc).Some? && Target(t.jobs[w].pc).value < |t.cells|
    ensures w < |Run(s, es).jobs| && Stuck(Run(s, es).jobs[w]) && Run(s, es).jobs[w].pc == Run(s, es[..i]).jobs[w].pc
  {
    if i == |es| {
      assert es[..i] == es;
    } else {
      var m := es[..|es| - 1];
      assert m[..i] == es[..i];
      StuckStays(s, m, i, w);
      RunEvolves(s, m, i, Target(Run(s, m).jobs[w].pc).value);
      StuckUntouched(Run(s, m), es[|es| - 1], w);
    }
  }

  lemma StuckUntouched(s: Sys, e: Event, w: nat)
    requires w < |s.jobs| && Stuck(s.jobs[w])
    requires Target(s.jobs[w].pc).Some? && Target(s.jobs[w].pc).value < |s.cells|
    ensures w < |Apply(s, e).jobs| && Stuck(Apply(s, e).jobs[w]) && Apply(s, e).jobs[w].pc == s.jobs[w].pc
  {
    if e.Step? && e.w < |s.jobs| && s.jobs[e.w].alive {
      StepTouchesOne(s, e.w, e.c, w);
    }
    hide WorkerStep, IsStart;
  }

  /** An order whose fulfillment vanished with the lock stays RECHARGING for the rest of the run. */
  lemma VanishedFulfillmentBlocks(s0: Sys, es: seq<Event>, i: nat, o: nat, w: nat)
    requires Initial(s0) && i <= |es| && o < |Run(s0, es[..i]).cells| && w < |Run(s0, es[..i]).jobs|
    requires var j := Run(s0, es[..i]).jobs[w];
             !j.alive && Target(j.pc) == Some(o) && j.pc.AtFulfill? && HoldsRecharge(j.pc.fulfill)
    ensures o < |Run(s0, es).cells| && Run(s0, es).cells[o].row.status == Recharging
  {
    RunEvolves(s0, es, i, o);
    StuckStays(s0, es, i, w);
    assert Reachable(Run(s0, es));
    CompletionStartsFromRecharging(Run(s0, es), o, w);
  }

  /** So does one whose refund vanished with the lock, or could not release it: it stays REFUNDING. */
  lemma VanishedRefundBlocks(s0: Sys, es: seq<Event>, i: nat, o: nat, w: nat)
    requires Initial(s0) && KeepsLocks(s0, es)
    requires i <= |es| && o < |Run(s0, es[..i]).cells| && w < |Run(s0, es[..i]).jobs|
    requires var j := Run(s0, es[..i]).jobs[w]; Stuck(j) && Target(j.pc) == Some(o) && HoldsLock(j.pc)
    ensures o < |Run(s0, es).cells| && Run(s0, es).cells[o].row.status == Refunding
  {
    RunEvolves(s0, es, i, o);
    StuckStays(s0, es, i, w);
    RefundHolderFindsRefunding(s0, es, o, w);
  }

  // ---- credit ----

  /**
   A fulfilled order was credited to its user, a balance order for its face value and a subscription for a
   positive number of days, and only a paid order is ever credited.
   */
  lemma CompletedMeansCredited(s: Sys, o: nat)
    requires Reachable(s) && o < |s.cells|
    ensures var (r, ledger) := (s.cells[o].row, s.ledger);
            && (Phase(r.status) >= 2 ==> r.rechargeCode in ledger)
            && (r.rechargeCode in ledger ==> r.paidAt.Some? && CreditOk(r, ledger[r.rechargeCode]))
  {
    ReachableInv(s);
    assert CellOk(ViewOf(s, o));
  }

  /** Once credited, never again: the record under a code is final, and no two orders share a code. */
  lemma CreditedOnce(s0: Sys, es: seq<Event>, i: nat, o: nat, p: nat)
    requires Initial(s0) && i <= |es| && o < |Run(s0, es[..i]).cells|
    ensures var (s, t) := (Run(s0, es[..i]), Run(s0, es));
            var code := s.cells[o].row.rechargeCode;
            && o < |t.cells| && t.cells[o].row.rechargeCode == code
            && (code in s.ledger ==> code in t.ledger && t.ledger[code] == s.ledger[code])
            && (p < |t.cells| && t.cells[p].row.rechargeCode == code ==> p == o)
  {
    RunEvolves(s0, es, i, o);
    RunKeeps(s0, es);
  }

  // ---- acknowledging notifications ----

  /**
   A successful notification of a positive amount is acknowledged only for an existing order whose last
   status seen was fulfilled, refunded, CANCELLED, or EXPIRED outside the grace window; and the order is
   still at least that far along.
   */
  lemma AckSafety(s: Sys, w: nat, about: Option<nat>, n: Notice, last: Option<Status>, late: Option<Window>)
    requires Reachable(s) && w < |s.jobs| && s.jobs[w].pc == Done(about, Acked(true, n, last, late))
    requires n.success && n.cents > 0
    ensures n.order < |s.cells| && last.Some?
    ensures last.value !in {Pending, Paid, Recharging, Failed}
    ensures last.value == Expired ==>
              late.Some? && late.value.updatedAt < late.value.nowTs - PAYMENT_CONFIRM_GRACE_SECONDS
    ensures var r := s.cells[n.order].row;
            Phase(last.value) <= Phase(r.status) && (last.value == Cancelled ==> r.status == Cancelled) &&
            (Phase(last.value) >= 2 ==> r.rechargeCode in s.ledger)
  {
    ReachableWorker(s, w);
    ReachableInv(s);
    assert CellOk(ViewOf(s, n.order));
  }

  /**
   Conversely an acknowledgement that is due is given: a notification without success, or for an order last seen
   completed, refunded, expired for good or cancelled; and one that found no order, or a wrong amount, is refused.
   */
  lemma AckGivenWhenDue(s: Sys, w: nat, about: Option<nat>, ok: bool, n: Notice, last: Option<Status>,
                        late: Option<Window>)
    requires Reachable(s) && w < |s.jobs| && s.jobs[w].pc == Done(about, Acked(ok, n, last, late))
    ensures !n.success ==> ok
    ensures last.Some? && last.value in {Completed, Refunded, Expired, Cancelled} ==> ok
    ensures n.success && last.None? ==> !ok
  {
    ReachableWorker(s, w);
  }

  /**
   A retry that reports success leaves a fulfilled order; a cancellation reported as done an order that is no longer
   pending, one reported as too late a paid order.
   */
  lemma OutcomesHold(s: Sys, w: nat, o: nat, out: Outcome)
    requires Reachable(s) && w < |s.jobs| && s.jobs[w].pc == Done(Some(o), out)
    ensures out.Retried? ==>
              o < |s.cells| && Phase(s.cells[o].row.status) >= 2 && s.cells[o].row.rechargeCode in s.ledger
    ensures out.CancelDone? ==> o < |s.cells| && s.cells[o].row.status != Pending
    ensures out.CancelTooLate? ==> o < |s.cells| && s.cells[o].row.paidAt.Some?
  {
    ReachableWorker(s, w);
    ReachableInv(s);
    if o < |s.cells| {
      assert CellOk(ViewOf(s, o));
    }
  }

  /** What the audit log of an order says is true of the order, for good. */
  lemma EntriesAreTrue(s: Sys, o: nat, e: Entry)
    requires Reachable(s) && o < |s.cells| && e in s.cells[o].log
    ensures var c := s.cells[o];
            var r := c.row;
            match e
            case OrderPaid(previous, expected, paid) =>
              && previous in {Pending, Expired} && expected == c.quote && Abs(paid - expected) <= 1
              && r.paidAt.Some? && r.payAmountCents == Some(paid)
            case AmountMismatch(expected, paid) => Abs(expected - c.quote) <= 1 && paid > 0 && Abs(paid - expected) > 1
            case RefundRequestedEntry(cents) => r.orderType == Balance && 0 < cents <= r.amountCents
            case RefundSuccess(partial, cents, gatewayCents, units) =>
              && 0 < cents <= r.amountCents && (partial <==> cents < r.amountCents)
              && gatewayCents in c.gateway
            case RefundRollbackFailed(units) => units > 0
            case _ => true
  {
    ReachableInv(s);
    assert CellOk(ViewOf(s, o)) && EntryOk(s.cells[o], e);
  }

  /** The catch-all acknowledgement of execute_paid_fulfillment is never taken: the order it reads is paid. */
  lemma FulfillmentReadsPaidOrder(s: Sys, w: nat)
    requires Reachable(s) && w < |s.jobs|
    requires s.jobs[w].pc.AtFulfill? && s.jobs[w].pc.fulfill.FulfillRead?
    ensures var o := s.jobs[w].pc.fulfill.o; o < |s.cells| && s.cells[o].row.status !in {Pending, Expired, Cancelled}
  {
    ReachableWorker(s, w);
  }

  // ---- what is shown to users ----

  function ShownState(s: Status): DerivedState {
    match s
    case Pending => DerivedState(false, false, NotPaid)
    case Expired | Cancelled => DerivedState(false, false, Closed)
    case Paid => DerivedState(true, false, PaidPending)
    case Recharging => DerivedState(true, false, RechargingNow)
    case Failed => DerivedState(true, false, RechargeFailed)
    case Completed | RefundRequested | Refunding | RefundFailed | PartiallyRefunded | Refunded =>
      DerivedState(true, true, Success)
  }

  /** The derived state depends on the status alone, and a FAILED order can always be retried. */
  lemma DerivedStateIsStatus(s: Sys, o: nat)
    requires Reachable(s) && o < |s.cells|
    ensures DeriveOrderState(s.cells[o].row) == ShownState(s.cells[o].row.status)
    ensures IsRechargeRetryable(s.cells[o].row) <==> s.cells[o].row.status == Failed
    ensures s.cells[o].row.status == Failed ==> RetryAllowed(s.cells[o].row) && CanResetToPaid(s.cells[o].row)
  {
    ReachableInv(s);
    assert CellOk(ViewOf(s, o));
  }

  // ---- audit log ----

  /**
   Per order: ORDER_PAID, ORDER_CANCELLED, ORDER_EXPIRED and the success entry occur at most once; an
   entry is present or still owed by some worker exactly when the row says the event happened.
   */
  lemma AuditCounts(s: Sys, o: nat, x: Kind)
    requires Reachable(s) && o < |s.cells| && x in {PaidEntries, CancelledEntries, ExpiredEntries, SuccessEntries}
    ensures 0 <= LogCount(s.cells[o].log, x) <= 1
    ensures LogCount(s.cells[o].log, x) + Total(s.jobs, o, x) == Due(s.cells[o], x)
  {
    ReachableLaw(s, o, x);
    LogCountNonNegative(s.cells[o].log, x);
  }

  lemma {:induction false} LogCountNonNegative(log: seq<Entry>, x: Kind)
    ensures LogCount(log, x) >= 0
  {
    if log != [] {
      LogCountNonNegative(log[..|log| - 1], x);
    }
  }

  /** A cancelled order was never paid, expired or credited; a success entry means the credit exists. */
  lemma AuditExclusions(s: Sys, o: nat)
    requires Reachable(s) && o < |s.cells|
    ensures var c := s.cells[o];
            && (LogCount(c.log, CancelledEntries) > 0 ==>
                  LogCount(c.log, PaidEntries) == 0 && LogCount(c.log, ExpiredEntries) == 0 &&
                  LogCount(c.log, SuccessEntries) == 0 && c.row.rechargeCode !in s.ledger)
            && (LogCount(c.log, SuccessEntries) > 0 ==> c.row.rechargeCode in s.ledger)
  {
    AuditCounts(s, o, CancelledEntries);
    AuditCounts(s, o, PaidEntries);
    AuditCounts(s, o, ExpiredEntries);
    AuditCounts(s, o, SuccessEntries);
    TotalNonNegative(s.jobs, o, CancelledEntries);
    TotalNonNegative(s.jobs, o, PaidEntries);
    TotalNonNegative(s.jobs, o, ExpiredEntries);
    TotalNonNegative(s.jobs, o, SuccessEntries);
    ReachableLaw(s, o, CancelledEntries);
  }

  // ---- money sent back by the gateway ----

  /**
   No gateway refund exceeds the payment by more than a cent, nor exceeds it at all when a fee of at least a
   cent was quoted; and only a fulfilled order is ever refunded.
   */
  lemma GatewayAmountsBounded(s: Sys, o: nat, i: nat)
    requires Reachable(s) && o < |s.cells| && i < |s.cells[o].gateway|
    ensures var c := s.cells[o];
            && Phase(c.row.status) >= 2 && 0 < c.gateway[i] <= Expected(c.row) + 1
            && (c.quote > c.row.amountCents ==> c.gateway[i] <= Expected(c.row))
  {
    ReachableInv(s);
    assert CellOk(ViewOf(s, o));
    assert GatewayBounded(s.cells[o], s.cells[o].gateway[i]);
  }

  /**
   At most one gateway refund goes through per order, on every run free of three kinds of events: a paying
   gateway's answer lost, a commit failing that would put on the row that it paid, and one failing after an order
   was restored that lets the error path free a lock under which somebody has a claim.  An order with a gateway
   refund is being refunded or was.
   */
  lemma GatewayRefundsOnce(s0: Sys, es: seq<Event>, o: nat)
    requires Initial(s0) && KeepsBooks(s0, es) && o < |Run(s0, es).cells|
    ensures var c := Run(s0, es).cells[o];
            |c.gateway| <= 1 && (|c.gateway| == 1 ==> c.row.status == Refunding || Phase(c.row.status) == 3)
  {
    RunClaims(s0, es);
    assert OnceOnly(Run(s0, es), o);
    OnceOnlyBounds(Run(s0, es), o);
    hide Run, KeepsBooks, GatewayInv, OnceOnly;
  }

  /** A refund under way finds a trade number in the row it read: the branch for orders without one is dead. */
  lemma RefundsHaveTradeNumbers(s: Sys, w: nat)
    requires Reachable(s) && w < |s.jobs| && s.jobs[w].pc.AtLocked?
    ensures var p := s.jobs[w].pc.locked;
            p.a.snap.tradeNo.Some? && !p.NoTrade? && p != Mark(p.a, false) && p.a.order < |s.cells|
    ensures var p := s.jobs[w].pc.locked; HasSent(s.jobs[w].pc) ==> s.cells[p.a.order].gateway != []
  {
    ReachableWorker(s, w);
  }
}
