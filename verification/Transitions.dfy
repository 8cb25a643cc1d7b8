/**
 Who may change an order, when, and into what (src/order/service.rs, src/order/repository.rs): one table for all
 programs and all interleavings.
 */
module Transitions {
  import opened Common
  import opened Orders
  import opened Validity
  import opened Protocol
  import opened Steps
  import opened Facts
  import opened Settle
  import opened World
  import opened Invariant
  import opened Quiet

  // ---- the table ----

  /** A successful notification within a cent of the quote, for an order that is pending or expired just now. */
  ghost predicate Confirms(v: View, n: Notice, nowTs: int) {
    var r := v.cell.row;
    && n.success && n.cents > 0 && Abs(n.cents - v.cell.quote) <= 1
    && (r.status == Pending || (r.status == Expired && nowTs - r.updatedAt <= 5 * 60))
  }

  /** Why an order takes a new status, and what else the row takes with it. */
  ghost predicate StatusJustified(v: View, pc: Pc, now: int, w: View) {
    var (a, b) := (v.cell.row, w.cell.row);
    match b.status
    case Pending => false
    case Expired =>
      pc.AtSweep? && pc.sweep.SweepMark? && a.status == Pending && b == a.(status := Expired, updatedAt := now)
    case Cancelled =>
      && pc.AtCancel? && pc.cancel.CancelMark? && (pc.cancel.user.Some? ==> pc.cancel.user.value == a.user)
      && a.status == Pending && b == a.(status := Cancelled, updatedAt := now)
    case Paid =>
      || (pc.AtNotice? && pc.notice.NoticeMark? && Confirms(v, pc.notice.n, pc.notice.nowTs) &&
          b == a.(status := Paid, payAmountCents := Some(pc.notice.n.cents), tradeNo := Some(pc.notice.n.trade),
                paidAt := Some(pc.notice.nowTs), failedAt := None, updatedAt := now))
      || (pc.AtRetry? && pc.retry.RetryReset? && a.status == Failed &&
          b == a.(status := Paid, failedAt := None, updatedAt := now))
    case Recharging =>
      && pc.AtFulfill? && pc.fulfill.FulfillLock? && a.status in {Paid, Failed}
      && b == a.(status := Recharging, updatedAt := now)
    case Failed =>
      && pc.AtFulfill? && pc.fulfill.FulfillFail? && a.status == Recharging
      && b == a.(status := Failed, failedAt := Some(pc.fulfill.nowTs), updatedAt := now)
    case Completed =>
      || (pc.AtFulfill? && pc.fulfill.FulfillComplete? && a.status == Recharging && v.credit.Some? &&
          b == a.(status := Completed, completedAt := Some(pc.fulfill.nowTs), failedAt := None, updatedAt := now))
      || (Restores(v, pc, now, w) && pc.locked.a.snap.status != RefundRequested)
    case RefundRequested =>
      || (pc.AtRequest? && pc.request.RequestMark? && a.status == Completed && a.orderType == Balance &&
          a.user == pc.request.user && 0 < pc.request.cents <= a.amountCents &&
          b == a.(status := RefundRequested, refundCents := Some(pc.request.cents), updatedAt := now))
      || (Restores(v, pc, now, w) && pc.locked.a.snap.status == RefundRequested)
    case Refunding =>
      && pc.AtRefund? && pc.refund.RefundLock? && a.status in {Completed, RefundRequested, RefundFailed}
      && b == a.(status := Refunding, updatedAt := now)
    case RefundFailed =>
      && pc.AtLocked? && pc.locked.FailMark? && a.status == Refunding
      && b == a.(status := RefundFailed, failedAt := Some(now), updatedAt := now)
    case _ =>
      && pc.AtLocked? && pc.locked.Mark? && a.status == Refunding && pc.locked.a.gatewayCents in v.cell.gateway
      && b.status == (if pc.locked.a.cents == a.amountCents then Refunded else PartiallyRefunded)
      && b == a.(status := b.status, refundCents := Some(pc.locked.a.cents), failedAt := None, updatedAt := now)
  }

  ghost predicate Restores(v: View, pc: Pc, now: int, w: View) {
    && pc.AtLocked? && pc.locked.Restore? && v.cell.row.status == Refunding
    && w.cell.row == v.cell.row.(status := w.cell.row.status, failedAt := None, updatedAt := now)
  }

  /** A row that keeps its status changes only by payment details, or by the retry of a paid order. */
  ghost predicate RowJustified(v: View, pc: Pc, now: int, w: View) {
    var (a, b) := (v.cell.row, w.cell.row);
    if a.status != b.status then StatusJustified(v, pc, now, w)
    else
      || b == a
      || (pc.AtAttach? && pc.attach.AttachMark? && b == a.(tradeNo := Some(pc.attach.trade), updatedAt := now))
      || (pc.AtRetry? && pc.retry.RetryReset? && a.status == Paid && b == a.(failedAt := None, updatedAt := now))
  }

  /**
   An uncredited order is credited exactly by a redeem that is carried out, for its user: a balance order with its
   face value, a subscription with the days granted.
   */
  ghost predicate CreditJustified(v: View, pc: Pc, c: Choice, w: View) {
    var r := v.cell.row;
    if v.credit.None? && pc.AtFulfill? && pc.fulfill.FulfillRedeem? && (c.Ok? || c.Lost?) then
      var grant := pc.fulfill.grant;
      && (if r.orderType == Balance then grant == 0 else grant > 0)
      && w.credit == Some(Credit(r.user, if r.orderType == Balance then r.amountCents else 0, grant))
    else w.credit == v.credit
  }

  /** The gateway pays exactly when it is called and does not refuse, and what the attempt asks for. */
  ghost predicate GatewayJustified(v: View, pc: Pc, c: Choice, w: View) {
    w.cell.gateway == v.cell.gateway +
    (if pc.AtLocked? && pc.locked.Gateway? && (c.Ok? || c.Lost?) then [pc.locked.a.gatewayCents] else [])
  }

  /** Units are taken by a deduction and given back by a rollback that are carried out under a new key. */
  ghost predicate TakenJustified(v: View, pc: Pc, c: Choice, now: int, w: View) {
    var carried := pc.AtLocked? && (c.Ok? || c.Lost?);
    var units := if pc.AtLocked? then pc.locked.a.plan.units else 0;
    w.cell.taken - v.cell.taken ==
    if carried && pc.locked.Deduct? && now !in v.cell.subtracted then units
    else if carried && pc.locked.Rollback? && now !in v.cell.added then -units
    else 0
  }

  /** What a step puts on record, if its commit does not fail. */
  function Written(pc: Pc): Option<Entry> {
    match pc
    case AtAttach(CreateLog(_)) => Some(OrderCreated)
    case AtAttach(AttachLog(_)) => Some(PaymentCreated)
    case AtNotice(NoticeMismatch(n, expected)) => Some(AmountMismatch(expected, n.cents))
    case AtNotice(NoticeLog(n, snap)) =>
      var expected := if snap.payAmountCents.Some? then snap.payAmountCents.value else snap.amountCents;
      Some(OrderPaid(snap.status, expected, n.cents))
    case AtCancel(CancelLog(_, _)) => Some(OrderCancelled)
    case AtSweep(SweepLog(_, _)) => Some(OrderExpired)
    case AtRetry(RetryLog(_)) => Some(RechargeRetry)
    case AtFulfill(FulfillLog(_, _, snap, grant)) =>
      Some(if snap.orderType == Balance then RechargeSuccess else SubscriptionSuccess(grant))
    case AtFulfill(FulfillLogFail(_, _)) => Some(FulfillmentFailed)
    case AtRequest(RequestLog(_, _, cents)) => Some(RefundRequestedEntry(cents))
    case AtLocked(NoTrade(_)) => Some(RefundNoTradeNo)
    case AtLocked(LogRollback(a)) => Some(RefundRollbackFailed(a.plan.units))
    case AtLocked(LogRestored(_)) => Some(RefundGatewayFailed)
    case AtLocked(LogDone(a)) =>
      Some(RefundSuccess(a.cents != a.snap.amountCents, a.cents, a.gatewayCents, a.plan.units))
    case AtLocked(FailLog(_, _, _)) => Some(RefundFailedEntry)
    case _ => None
  }

  ghost predicate LogJustified(v: View, pc: Pc, c: Choice, w: View) {
    var written := if pc.AtLocked? && c.Fault? then None else Written(pc);
    w.cell.log == if written.Some? then v.cell.log + [written.value] else v.cell.log
  }

  ghost predicate Justified(v: View, pc: Pc, c: Choice, now: int, w: View) {
    && RowJustified(v, pc, now, w) && CreditJustified(v, pc, c, w)
    && GatewayJustified(v, pc, c, w) && TakenJustified(v, pc, c, now, w) && LogJustified(v, pc, c, w)
  }

  /**
   What an answer of the platform lets a fulfillment grant: nothing but the credit for a balance order, the days sold
   for a new subscription, what the plan's validity yields for a renewal.
   */
  ghost predicate Grants(r: Row, c: Choice, days: int) {
    if r.orderType == Balance then days == 0 && (c.Ok? || c.Renew?)
    else
      && r.groupId.GetOr(0) > 0 && r.days.GetOr(0) > 0
      && ((c.Ok? && days == r.days.value) || (c.Renew? && RenewalDays(c.value, c.unit, c.expiry) == Result.Days(days)))
  }

  // ---- every step is in it ----

  lemma AttachJustified(now: int, v: View, j: Job, p: AttachPc, c: Choice)
    requires j.pc == AtAttach(p) && Ready(v, j)
    ensures Justified(v, j.pc, c, now, AttachStep(now, v, p, c).0)
  {
    hide CellOk, JobOk;
  }

  lemma NoticeJustified(now: int, v: View, j: Job, p: NoticePc, c: Choice)
    requires j.pc == AtNotice(p) && Ready(v, j)
    ensures Justified(v, j.pc, c, now, NoticeStep(now, v, p).0)
  {
    hide LogOk, GatewayBounded, RefundedOk, LogJustified;
    NoticeWrites(now, v, p, c);
  }

  lemma NoticeWrites(now: int, v: View, p: NoticePc, c: Choice)
    ensures LogJustified(v, AtNotice(p), c, NoticeStep(now, v, p).0)
  {
  }

  lemma FulfillJustified(now: int, v: View, j: Job, p: FulfillPc, c: Choice)
    requires j.pc == AtFulfill(p) && Ready(v, j)
    ensures Justified(v, j.pc, c, now, FulfillStep(now, v, p, c).0)
  {
    hide CellOk, GrantedDays, Return, LogJustified;
    FulfillWrites(now, v, p, c);
    if p.FulfillRedeem? {
      RedeemJustified(now, v, j, p, c);
      hide Ready, CreditJustified, Redeemed;
    }
  }

  lemma RedeemJustified(now: int, v: View, j: Job, p: FulfillPc, c: Choice)
    requires j.pc == AtFulfill(p) && p.FulfillRedeem? && Ready(v, j)
    ensures CreditJustified(v, j.pc, c, FulfillStep(now, v, p, c).0)
  {
    hide LogOk, GatewayBounded, RefundedOk;
  }

  lemma FulfillWrites(now: int, v: View, p: FulfillPc, c: Choice)
    ensures LogJustified(v, AtFulfill(p), c, FulfillStep(now, v, p, c).0)
  {
    hide GrantedDays, Return, Redeemed;
  }

  lemma CancelJustified(now: int, v: View, j: Job, p: CancelPc, c: Choice)
    requires j.pc == AtCancel(p) && Ready(v, j)
    ensures Justified(v, j.pc, c, now, CancelStep(now, v, p).0)
  {
    hide LogOk, GatewayBounded, RefundedOk;
  }

  lemma RetryJustified(now: int, v: View, j: Job, p: RetryPc, c: Choice)
    requires j.pc == AtRetry(p)
    ensures Justified(v, j.pc, c, now, RetryStep(now, v, p).0)
  {
  }

  lemma SweepJustified(now: int, me: nat, v: View, j: Job, p: SweepPc, c: Choice)
    requires j.pc == AtSweep(p) && p.todo != []
    ensures Justified(v, j.pc, c, now, SweepStep(now, v, me, p).0)
  {
  }

  lemma RequestJustified(now: int, balance: int, v: View, j: Job, p: RequestPc, c: Choice)
    requires j.pc == AtRequest(p) && Ready(v, j)
    ensures Justified(v, j.pc, c, now, RequestStep(now, balance, v, p, c).0)
  {
    hide CellOk, BooksOk;
  }

  lemma RefundJustified(now: int, balance: int, v: View, j: Job, p: RefundPc, c: Choice)
    requires j.pc == AtRefund(p)
    ensures Justified(v, j.pc, c, now, RefundStep(now, balance, v, p, c).0)
  {
    hide PrepareDeduction;
  }

  lemma CallJustified(now: int, v: View, j: Job, p: LockedPc, c: Choice)
    requires j.pc == AtLocked(p) && (p.Deduct? || p.Gateway? || p.Rollback?)
    ensures Justified(v, j.pc, c, now, LockedStep(now, v, j, p, c).0)
  {
  }

  lemma BookJustified(now: int, v: View, j: Job, p: LockedPc, c: Choice)
    requires j.pc == AtLocked(p) && !p.Deduct? && !p.Gateway? && !p.Rollback? && Ready(v, j)
    ensures Justified(v, j.pc, c, now, BookStep(now, v, p, c == Fault).0)
  {
    MarkKnown(v, j, p);
    BookWrites(now, v, p, c);
    hide Ready, RowJustified, CreditJustified, GatewayJustified, TakenJustified, LogJustified;
    if BookMarks(p) {
      MarkJustified(now, v, p, c);
    } else {
      UnmovedRow(v, j.pc, now, BookStep(now, v, p, c == Fault).0);
    }
  }

  lemma BookWrites(now: int, v: View, p: LockedPc, c: Choice)
    requires !p.Deduct? && !p.Gateway? && !p.Rollback?
    requires p.LogDone? ==> p.a.cents <= p.a.snap.amountCents
    ensures var w := BookStep(now, v, p, c == Fault).0;
            && CreditJustified(v, AtLocked(p), c, w) && GatewayJustified(v, AtLocked(p), c, w)
            && TakenJustified(v, AtLocked(p), c, now, w) && LogJustified(v, AtLocked(p), c, w)
  {
  }

  lemma UnmovedRow(v: View, pc: Pc, now: int, w: View)
    requires w.cell.row == v.cell.row
    ensures RowJustified(v, pc, now, w)
  {
  }

  lemma MarkKnown(v: View, j: Job, p: LockedPc)
    requires j.pc == AtLocked(p) && Ready(v, j)
    ensures p.Mark? ==> p.a.gatewayCents in v.cell.gateway && p.a.snap.amountCents == v.cell.row.amountCents &&
                        p.a.cents <= v.cell.row.amountCents
    ensures p.a.cents <= p.a.snap.amountCents
  {
  }

  lemma MarkJustified(now: int, v: View, p: LockedPc, c: Choice)
    requires BookMarks(p)
    requires p.Mark? ==> p.a.gatewayCents in v.cell.gateway && p.a.snap.amountCents == v.cell.row.amountCents &&
                         p.a.cents <= v.cell.row.amountCents
    ensures RowJustified(v, AtLocked(p), now, BookStep(now, v, p, c == Fault).0)
  {
  }

  lemma UnmovedJustified(v: View, pc: Pc, c: Choice, now: int, w: View)
    requires !pc.AtFulfill? && (pc.AtLocked? ==> !pc.locked.Deduct? && !pc.locked.Gateway? && !pc.locked.Rollback?)
    requires w.cell.row == v.cell.row && w.credit == v.credit
    requires w.cell.gateway == v.cell.gateway && w.cell.taken == v.cell.taken && LogJustified(v, pc, c, w)
    ensures Justified(v, pc, c, now, w)
  {
  }

  lemma LockedJustified(now: int, v: View, j: Job, p: LockedPc, c: Choice)
    requires j.pc == AtLocked(p) && Ready(v, j)
    ensures Justified(v, j.pc, c, now, LockedStep(now, v, j, p, c).0)
  {
    if p.Deduct? || p.Gateway? || p.Rollback? {
      CallJustified(now, v, j, p, c);
    } else {
      BookJustified(now, v, j, p, c);
      hide BookStep, Ready, Justified;
    }
  }

  lemma PlainJustified(now: int, balance: int, me: nat, v: View, j: Job, c: Choice)
    requires Ready(v, j) && !j.pc.AtLocked?
    ensures Justified(v, j.pc, c, now, PlainStep(now, balance, me, v, j.pc, c).0)
  {
    hide Ready, Justified;
    hide AttachStep, NoticeStep, FulfillStep, CancelStep, RetryStep, SweepStep, RequestStep, RefundStep;
    match j.pc
    case AtAttach(p) => AttachJustified(now, v, j, p, c);
    case AtNotice(p) => NoticeJustified(now, v, j, p, c);
    case AtFulfill(p) => FulfillJustified(now, v, j, p, c);
    case AtCancel(p) => CancelJustified(now, v, j, p, c);
    case AtRetry(p) => RetryJustified(now, v, j, p, c);
    case AtSweep(p) =>
      SweepKnown(v, j);
      SweepJustified(now, me, v, j, p, c);
    case AtRequest(p) => RequestJustified(now, balance, v, j, p, c);
    case AtRefund(p) => RefundJustified(now, balance, v, j, p, c);
    case _ => UnmovedJustified(v, j.pc, c, now, v);
  }

  lemma LocalStepJustified(now: int, balance: int, me: nat, v: View, j: Job, c: Choice)
    requires Ready(v, j)
    ensures Justified(v, j.pc, c, now, LocalStep(now, balance, me, v, j, c).0)
  {
    hide Ready, Justified, PlainStep, LockedStep;
    if j.pc.AtLocked? {
      LockedJustified(now, v, j, j.pc.locked, c);
    } else {
      PlainJustified(now, balance, me, v, j, c);
    }
  }

  lemma SweepKnown(v: View, j: Job)
    requires Ready(v, j)
    ensures j.pc.AtSweep? ==> j.pc.sweep.todo != []
  {
  }

  /** On every run an order changes only by a step of a worker that is about it, and as the table says. */
  lemma EveryChangeIsJustified(s: Sys, e: Event, o: nat)
    requires Reachable(s) && o < |s.cells|
    ensures var t := Apply(s, e);
            && o < |t.cells|
            && (ViewOf(t, o) == ViewOf(s, o) ||
                (e.Step? && e.w < |s.jobs| && s.jobs[e.w].alive && Target(s.jobs[e.w].pc) == Some(o) &&
                 Justified(ViewOf(s, o), s.jobs[e.w].pc, e.c, s.now, ViewOf(t, o))))
  {
    ReachableInv(s);
    hide Reachable;
    if e.Step? && e.w < |s.jobs| && Target(s.jobs[e.w].pc).Some? && Target(s.jobs[e.w].pc).value < |s.cells| {
      if s.jobs[e.w].alive {
        hide Inv, Justified, OrderStep;
        StepIsJustified(s, Target(s.jobs[e.w].pc).value, e.w, e.c, o);
      }
    } else {
      hide Inv, Justified, Apply;
      QuietEvent(s, e, o);
    }
  }

  lemma StepIsJustified(s: Sys, p: nat, w: nat, c: Choice, o: nat)
    requires Inv(s) && p < |s.cells| && o < |s.cells| && w < |s.jobs| && Target(s.jobs[w].pc) == Some(p)
    ensures var t := OrderStep(s, p, w, c);
            if o == p then Justified(ViewOf(s, o), s.jobs[w].pc, c, s.now, ViewOf(t, o))
            else ViewOf(t, o) == ViewOf(s, o)
  {
    var balance := At(s.balance, Money(s.cells[p].row.user));
    StepReady(s, p, w);
    LocalStepSettles(s.now, balance, w, ViewOf(s, p), s.jobs[w], c, p);
    LocalStepJustified(s.now, balance, w, ViewOf(s, p), s.jobs[w], c);
    var (v, j) := LocalStep(s.now, balance, w, ViewOf(s, p), s.jobs[w], c);
    hide Inv, Justified, LocalStep, Settled, Ready;
    StepViews(s, p, w, v, j);
  }

  // ---- where a worker came from ----

  /** A worker past the start of its operation got to where it stands by a step of its own. */
  lemma {:induction false} Arrival(s0: Sys, es: seq<Event>, w: nat) returns (i: nat)
    requires Initial(s0) && w < |Run(s0, es).jobs| && !IsStart(Run(s0, es).jobs[w].pc)
    ensures i < |es| && es[i].Step? && es[i].w == w
    ensures w < |Run(s0, es[..i]).jobs| && Run(s0, es[..i]).jobs[w].alive
    ensures w < |Run(s0, es[..i + 1]).jobs| && Run(s0, es[..i + 1]).jobs[w].pc == Run(s0, es).jobs[w].pc
    ensures Run(s0, es[..i]).jobs[w].pc != Run(s0, es).jobs[w].pc
  {
    hide Apply, IsStart;
    var n := |es| - 1;
    var (s, e) := (Run(s0, es[..n]), es[n]);
    PcChanges(s, e, w);
    if w < |s.jobs| && s.jobs[w].pc == Run(s0, es).jobs[w].pc {
      i := Arrival(s0, es[..n], w);
      assert es[..n][..i] == es[..i] && es[..n][..i + 1] == es[..i + 1];
    } else {
      i := n;
      assert es[..n + 1] == es;
    }
  }

  /** Only a step of its own moves a worker, and only a start brings a new one. */
  lemma PcChanges(s: Sys, e: Event, w: nat)
    requires w < |Apply(s, e).jobs|
    ensures var pc := Apply(s, e).jobs[w].pc;
            if w < |s.jobs| then pc == s.jobs[w].pc || (e.Step? && e.w == w && s.jobs[w].alive)
            else IsStart(pc)
  {
    if e.Step? && e.w < |s.jobs| && s.jobs[e.w].alive {
      StepTouchesOne(s, e.w, e.c, if w < |s.jobs| then w else e.w);
    }
    hide WorkerStep, IsStart;
  }
}
