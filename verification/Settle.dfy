/**
 Every step of every program preserves the invariant of the order it touches, moves both sides of the
 counting law by the same amount, and changes the order only as `ViewEvolves` allows.
 */
module Settle {
  import opened Common
  import opened Orders
  import opened Protocol
  import opened Steps
  import opened Facts

  /** The order is in shape, the worker's facts hold, and the RECHARGING lock it holds is on the row. */
  ghost predicate Ready(v: View, j: Job) {
    && CellOk(v) && JobOk(v, j)
    && (Share(j, RechargeHeld) == 1 ==> v.cell.row.status == Recharging)
  }

  /** The worker goes on at `pc`, its books untouched. */
  ghost predicate Resumes(j: Job, pc: Pc, k: Job) {
    k.pc == pc && k.alive == j.alive && k.applied == j.applied && k.off == j.off
  }

  /** Both sides of every counting law move by the same amount. */
  ghost predicate LawKept(v: View, j: Job, w: View, k: Job) {
    forall x: Kind ::
      Due(w.cell, x) - LogCount(w.cell.log, x) - Share(k, x) == Due(v.cell, x) - LogCount(v.cell.log, x) - Share(j, x)
  }

  /** The effect of a step on its order: view `v` becomes `w` while worker `j` becomes `k`. */
  ghost predicate Moved(v: View, j: Job, w: View, k: Job) {
    CellOk(w) && ViewEvolves(v, w) && LawKept(v, j, w, k)
  }

  /** The worker's own facts after its step. */
  ghost predicate Follows(o: nat, v: View, j: Job, w: View, k: Job) {
    && JobOk(w, k)
    && (Target(k.pc) == Some(o) || k.pc.AtSweep?)
    && (Target(k.pc) != Some(o) ==> forall x: Kind :: Share(k, x) == 0)
    && (forall i :: i in Todo(k.pc) ==> i in Todo(j.pc))
  }

  ghost predicate Settled(o: nat, v: View, j: Job, w: View, k: Job) {
    Moved(v, j, w, k) && Follows(o, v, j, w, k)
  }

  // ---- the ways a view can change ----

  lemma Idle(v: View, j: Job, k: Job)
    requires CellOk(v) && forall x: Kind :: Share(j, x) == Share(k, x)
    ensures Moved(v, j, v, k)
  {
  }

  lemma Logs(v: View, j: Job, e: Entry, k: Job)
    requires CellOk(v) && EntryOk(v.cell, e) && forall x: Kind :: Share(j, x) == EntryCount(e, x) + Share(k, x)
    ensures Moved(v, j, Logged(v, e), k)
  {
    var w := Logged(v, e);
    assert (v.cell.log + [e])[..|v.cell.log|] == v.cell.log;
    forall d | d in w.cell.log ensures EntryOk(w.cell, d) {
      assert EntryOk(v.cell, d);
    }
  }

  /** What the log says survives an update of the row. */
  lemma LogStable(c: Cell, d: Cell)
    requires LogOk(c) && d.log == c.log && d.quote == c.quote && c.gateway <= d.gateway
    requires RowOk(c.row) && Evolves(c.row, d.row)
    ensures LogOk(d)
  {
    forall e | e in d.log ensures EntryOk(d, e) {
      assert EntryOk(c, e);
    }
  }

  /** A row update that leaves the amounts alone. */
  lemma Updates(v: View, j: Job, r: Row, k: Job)
    requires CellOk(v) && RowOk(r) && Evolves(v.cell.row, r) && r.payAmountCents == v.cell.row.payAmountCents
    requires RefundedOk(r)
    requires Phase(r.status) >= 2 ==> v.credit.Some?
    requires r.status == Expired ==> v.cell.row.status == Expired
    requires forall x: Kind :: Due(v.cell.(row := r), x) - Share(k, x) == Due(v.cell, x) - Share(j, x)
    ensures Moved(v, j, WithRow(v, r), k)
  {
    var w := WithRow(v, r);
    LogStable(v.cell, w.cell);
    forall i | 0 <= i < |w.cell.gateway| ensures GatewayBounded(w.cell, w.cell.gateway[i]) {
      assert GatewayBounded(v.cell, v.cell.gateway[i]);
    }
  }

  /** The REFUNDING lock is released into another status. */
  lemma EndsRefund(v: View, j: Job, r: Row, k: Job)
    requires CellOk(v) && v.cell.row.status == Refunding
    requires r == v.cell.row.(status := r.status, failedAt := r.failedAt, refundCents := r.refundCents,
                  updatedAt := r.updatedAt)
    requires r.status in {Completed, RefundRequested, RefundFailed, PartiallyRefunded, Refunded} && RefundedOk(r)
    requires forall x: Kind :: Share(j, x) == Share(k, x)
    ensures Moved(v, j, WithRow(v, r), k)
  {
    Updates(v, j, r, k);
  }

  /** Payment confirmed: the only update that changes the amount to pay. */
  lemma Pays(v: View, j: Job, trade: string, cents: int, paidAt: int, now: int, k: Job)
    requires CellOk(v) && Phase(v.cell.row.status) == 0 && v.cell.row.status != Cancelled
    requires 0 < cents && Abs(cents - v.cell.quote) <= 1
    requires forall x: Kind :: Share(k, x) == Share(j, x) + Ind(x == PaidEntries)
    ensures Moved(v, j, WithRow(v, MarkPaid(v.cell.row, trade, cents, paidAt, now)), k)
  {
  }

  lemma Expires(v: View, j: Job, me: nat, now: int, k: Job)
    requires CellOk(v) && CanLeavePending(v.cell.row)
    requires forall x: Kind :: Share(k, x) == Share(j, x) + Ind(x == ExpiredEntries)
    ensures Moved(v, j, v.(cell := v.cell.(row := LeavePending(v.cell.row, Expired, now), expiredBy := Some(me))), k)
  {
  }

  lemma Redeems(v: View, j: Job, credit: Credit, k: Job)
    requires CellOk(v) && Phase(v.cell.row.status) >= 1 && v.credit.None? && CreditOk(v.cell.row, credit)
    requires forall x: Kind :: Share(j, x) == Share(k, x)
    ensures Moved(v, j, v.(credit := Some(credit)), k)
  {
  }

  /** The platform's books move with the worker's. */
  lemma Moves(v: View, j: Job, w: View, k: Job)
    requires CellOk(v)
    requires w == v.(cell := v.cell.(taken := w.cell.taken, subtracted := w.cell.subtracted, added := w.cell.added))
    requires forall x: Kind :: Share(k, x) == Share(j, x) + if x == Units then w.cell.taken - v.cell.taken else 0
    ensures Moved(v, j, w, k)
  {
    forall i | 0 <= i < |w.cell.gateway| ensures GatewayBounded(w.cell, w.cell.gateway[i]) {
      assert GatewayBounded(v.cell, v.cell.gateway[i]);
    }
  }

  lemma SendsBack(v: View, j: Job, cents: int, k: Job)
    requires CellOk(v) && Phase(v.cell.row.status) >= 2 && GatewayBounded(v.cell, cents)
    requires forall x: Kind :: Share(j, x) == Share(k, x)
    ensures Moved(v, j, v.(cell := v.cell.(gateway := v.cell.gateway + [cents])), k)
  {
    var w := v.(cell := v.cell.(gateway := v.cell.gateway + [cents]));
    forall i | 0 <= i < |w.cell.gateway| ensures GatewayBounded(w.cell, w.cell.gateway[i]) {
      if i < |v.cell.gateway| {
        assert GatewayBounded(v.cell, v.cell.gateway[i]);
      }
    }
  }

  // ---- one pair of lemmas per program ----

  lemma AttachMoves(now: int, v: View, j: Job, p: AttachPc, c: Choice, k: Job)
    requires j.pc == AtAttach(p) && Ready(v, j) && Resumes(j, AttachStep(now, v, p, c).1, k)
    ensures var w := AttachStep(now, v, p, c).0; Moved(v, j, w, k)
  {
    hide Moved;
    var w := AttachStep(now, v, p, c).0;
    match p
    case CreateLog(o) => Logs(v, j, OrderCreated, k);
    case CreatePay(o) => Idle(v, j, k);
    case AttachMark(o, trade) => Updates(v, j, w.cell.row, k);
    case AttachLog(o) => Logs(v, j, PaymentCreated, k);
  }

  lemma AttachFollows(now: int, v: View, j: Job, p: AttachPc, c: Choice, k: Job)
    requires j.pc == AtAttach(p) && Ready(v, j) && Resumes(j, AttachStep(now, v, p, c).1, k)
    ensures var w := AttachStep(now, v, p, c).0; Follows(p.o, v, j, w, k)
  {
    hide Moved, LogCount, Due;
  }

  lemma NoticeMoves(now: int, v: View, j: Job, p: NoticePc, k: Job)
    requires j.pc == AtNotice(p) && Ready(v, j) && Resumes(j, NoticeStep(now, v, p).1, k)
    ensures var w := NoticeStep(now, v, p).0; Moved(v, j, w, k)
  {
    hide Moved;
    var w := NoticeStep(now, v, p).0;
    match p
    case NoticeMismatch(n, expected) => Logs(v, j, AmountMismatch(expected, n.cents), k);
    case NoticeMark(n, nowTs, snap) =>
      if CanMarkPaid(v.cell.row, nowTs - PAYMENT_CONFIRM_GRACE_SECONDS) {
        Pays(v, j, n.trade, n.cents, nowTs, now, k);
      } else {
        Idle(v, j, k);
      }
    case NoticeLog(n, snap) => Logs(v, j, OrderPaid(snap.status, Expected(snap), n.cents), k);
    case _ => Idle(v, j, k);
  }

  lemma NoticeFollows(now: int, v: View, j: Job, p: NoticePc, k: Job)
    requires j.pc == AtNotice(p) && Ready(v, j) && Resumes(j, NoticeStep(now, v, p).1, k)
    ensures var w := NoticeStep(now, v, p).0; Follows(p.n.order, v, j, w, k)
  {
    hide Moved, LogCount, Due;
  }

  predicate FulfillReads(p: FulfillPc) {
    p.FulfillRead? || p.FulfillLock? || p.FulfillLockLost? || p.FulfillConfig? || p.FulfillCompleteLost?
  }

  predicate FulfillWrites(p: FulfillPc) {
    p.FulfillRedeem? || p.FulfillComplete? || p.FulfillFail?
  }

  predicate FulfillLogs(p: FulfillPc) {
    p.FulfillLog? || p.FulfillLogFail?
  }

  lemma FulfillReadMoves(now: int, v: View, j: Job, p: FulfillPc, c: Choice, k: Job)
    requires j.pc == AtFulfill(p) && FulfillReads(p) && Ready(v, j) && Resumes(j, FulfillStep(now, v, p, c).1, k)
    ensures var w := FulfillStep(now, v, p, c).0; Moved(v, j, w, k)
  {
    hide Moved;
    var w := FulfillStep(now, v, p, c).0;
    if p.FulfillLock? && CanMarkRecharging(v.cell.row) {
      Updates(v, j, w.cell.row, k);
    } else {
      Idle(v, j, k);
    }
  }

  lemma FulfillReadFollows(now: int, v: View, j: Job, p: FulfillPc, c: Choice, k: Job)
    requires j.pc == AtFulfill(p) && FulfillReads(p) && Ready(v, j) && Resumes(j, FulfillStep(now, v, p, c).1, k)
    ensures var w := FulfillStep(now, v, p, c).0; Follows(p.o, v, j, w, k)
  {
    hide Moved, LogCount, Due;
  }

  lemma FulfillWriteMoves(now: int, v: View, j: Job, p: FulfillPc, c: Choice, k: Job)
    requires j.pc == AtFulfill(p) && FulfillWrites(p) && Ready(v, j) && Resumes(j, FulfillStep(now, v, p, c).1, k)
    ensures var w := FulfillStep(now, v, p, c).0; Moved(v, j, w, k)
  {
    hide Moved;
    var w := FulfillStep(now, v, p, c).0;
    if p.FulfillRedeem? && (c.Ok? || c.Lost?) && v.credit.None? {
      Redeems(v, j, Redeemed(v.credit, p.snap, p.grant).value, k);
    } else if p.FulfillRedeem? {
      Idle(v, j, k);
    } else {
      Updates(v, j, w.cell.row, k);
    }
  }

  lemma FulfillLogMoves(now: int, v: View, j: Job, p: FulfillPc, c: Choice, k: Job)
    requires j.pc == AtFulfill(p) && FulfillLogs(p) && Ready(v, j) && Resumes(j, FulfillStep(now, v, p, c).1, k)
    ensures var w := FulfillStep(now, v, p, c).0; Moved(v, j, w, k)
  {
    hide Moved;
    var w := FulfillStep(now, v, p, c).0;
    if p.FulfillLog? {
      Logs(v, j, if p.snap.orderType == Balance then RechargeSuccess else SubscriptionSuccess(p.grant), k);
    } else {
      Logs(v, j, FulfillmentFailed, k);
    }
  }

  lemma FulfillWriteFollows(now: int, v: View, j: Job, p: FulfillPc, c: Choice, k: Job)
    requires j.pc == AtFulfill(p) && FulfillWrites(p) && Ready(v, j) && Resumes(j, FulfillStep(now, v, p, c).1, k)
    ensures var w := FulfillStep(now, v, p, c).0; Follows(p.o, v, j, w, k)
  {
    hide Moved, LogCount, Due;
  }

  lemma FulfillLogFollows(now: int, v: View, j: Job, p: FulfillPc, c: Choice, k: Job)
    requires j.pc == AtFulfill(p) && FulfillLogs(p) && Ready(v, j) && Resumes(j, FulfillStep(now, v, p, c).1, k)
    ensures var w := FulfillStep(now, v, p, c).0; Follows(p.o, v, j, w, k)
  {
    hide Moved, LogCount, Due;
  }

  lemma CancelMoves(now: int, v: View, j: Job, p: CancelPc, k: Job)
    requires j.pc == AtCancel(p) && Ready(v, j) && Resumes(j, CancelStep(now, v, p).1, k)
    ensures var w := CancelStep(now, v, p).0; Moved(v, j, w, k)
  {
    hide Moved;
    var w := CancelStep(now, v, p).0;
    match p
    case CancelMark(o, user) =>
      if CanLeavePending(v.cell.row) {
        Updates(v, j, w.cell.row, k);
      } else {
        Idle(v, j, k);
      }
    case CancelLog(o, user) => Logs(v, j, OrderCancelled, k);
    case _ => Idle(v, j, k);
  }

  lemma CancelFollows(now: int, v: View, j: Job, p: CancelPc, k: Job)
    requires j.pc == AtCancel(p) && Ready(v, j) && Resumes(j, CancelStep(now, v, p).1, k)
    ensures var w := CancelStep(now, v, p).0; Follows(p.o, v, j, w, k)
  {
    hide Moved, LogCount, Due;
  }

  lemma RetryMoves(now: int, v: View, j: Job, p: RetryPc, k: Job)
    requires j.pc == AtRetry(p) && Ready(v, j) && Resumes(j, RetryStep(now, v, p).1, k)
    ensures var w := RetryStep(now, v, p).0; Moved(v, j, w, k)
  {
    hide Moved;
    var w := RetryStep(now, v, p).0;
    match p
    case RetryRead(o) => Idle(v, j, k);
    case RetryReset(o) =>
      if CanResetToPaid(v.cell.row) {
        Updates(v, j, w.cell.row, k);
      } else {
        Idle(v, j, k);
      }
    case RetryLog(o) => Logs(v, j, RechargeRetry, k);
  }

  lemma RetryFollows(now: int, v: View, j: Job, p: RetryPc, k: Job)
    requires j.pc == AtRetry(p) && Ready(v, j) && Resumes(j, RetryStep(now, v, p).1, k)
    ensures var w := RetryStep(now, v, p).0; Follows(p.o, v, j, w, k)
  {
    hide Moved, LogCount, Due;
  }

  lemma SweepMoves(now: int, v: View, me: nat, j: Job, p: SweepPc, k: Job)
    requires j.pc == AtSweep(p) && p.todo != [] && Ready(v, j) && Resumes(j, SweepStep(now, v, me, p).1, k)
    ensures var w := SweepStep(now, v, me, p).0; Moved(v, j, w, k)
  {
    hide Moved;
    var w := SweepStep(now, v, me, p).0;
    match p
    case SweepMark(todo, count) =>
      if CanLeavePending(v.cell.row) {
        Expires(v, j, me, now, k);
      } else {
        Idle(v, j, k);
      }
    case SweepLog(todo, count) => Logs(v, j, OrderExpired, k);
  }

  lemma SweepFollows(now: int, v: View, me: nat, j: Job, p: SweepPc, k: Job)
    requires j.pc == AtSweep(p) && p.todo != [] && Ready(v, j) && Resumes(j, SweepStep(now, v, me, p).1, k)
    ensures var w := SweepStep(now, v, me, p).0; Follows(p.todo[0], v, j, w, k)
  {
    hide Moved, LogCount, Due;
  }

  lemma RequestMoves(now: int, balance: int, v: View, j: Job, p: RequestPc, c: Choice, k: Job)
    requires j.pc == AtRequest(p) && Ready(v, j) && Resumes(j, RequestStep(now, balance, v, p, c).1, k)
    ensures var w := RequestStep(now, balance, v, p, c).0; Moved(v, j, w, k)
  {
    hide Moved;
    var w := RequestStep(now, balance, v, p, c).0;
    match p
    case RequestMark(o, user, cents) =>
      if CanRequestRefund(v.cell.row, user) {
        Updates(v, j, w.cell.row, k);
      } else {
        Idle(v, j, k);
      }
    case RequestLog(o, user, cents) => Logs(v, j, RefundRequestedEntry(cents), k);
    case _ => Idle(v, j, k);
  }

  lemma RequestFollows(now: int, balance: int, v: View, j: Job, p: RequestPc, c: Choice, k: Job)
    requires j.pc == AtRequest(p) && Ready(v, j) && Resumes(j, RequestStep(now, balance, v, p, c).1, k)
    ensures var w := RequestStep(now, balance, v, p, c).0; Follows(p.o, v, j, w, k)
  {
    hide Moved, LogCount, Due;
  }

  lemma PlanSound(snap: Row, cents: int, force: bool, deduct: bool, balance: int, c: Choice)
    requires cents > 0
    ensures var p := PrepareDeduction(snap, cents, force, deduct, balance, c);
            p.Planned? ==>
              && (snap.orderType == Balance ==> p.plan.units <= cents)
              && (snap.orderType == Subscription ==> p.plan.units <= Max(snap.days.GetOr(0), 0))
  {
  }

  lemma RefundMoves(now: int, balance: int, v: View, j: Job, p: RefundPc, c: Choice, k: Job)
    requires j.pc == AtRefund(p) && Ready(v, j) && Resumes(j, RefundStep(now, balance, v, p, c).1, k)
    ensures var w := RefundStep(now, balance, v, p, c).0; Moved(v, j, w, k)
  {
    hide Moved;
    var w := RefundStep(now, balance, v, p, c).0;
    if p.RefundLock? && CanMarkRefunding(v.cell.row) {
      Updates(v, j, w.cell.row, k);
    } else {
      Idle(v, j, k);
    }
  }

  lemma RefundFollows(now: int, balance: int, v: View, j: Job, p: RefundPc, c: Choice, k: Job)
    requires j.pc == AtRefund(p) && Ready(v, j) && Resumes(j, RefundStep(now, balance, v, p, c).1, k)
    ensures var w := RefundStep(now, balance, v, p, c).0; Follows(p.o, v, j, w, k)
  {
    hide Moved, LogCount, Due;
    if p.RefundPlan? {
      PlanSound(p.snap, p.cents, p.force, p.deduct, balance, c);
      hide PrepareDeduction;
    }
  }

  lemma DeductMoves(now: int, v: View, j: Job, a: Attempt, c: Choice)
    requires j.pc == AtLocked(Deduct(a)) && Ready(v, j)
    ensures var (w, k) := DeductStep(now, v, j, a, c); Moved(v, j, w, k)
  {
    hide Moved;
    var (w, k) := DeductStep(now, v, j, a, c);
    Moves(v, j, w, k);
  }

  lemma DeductFollows(now: int, v: View, j: Job, a: Attempt, c: Choice)
    requires j.pc == AtLocked(Deduct(a)) && Ready(v, j)
    ensures var (w, k) := DeductStep(now, v, j, a, c); Follows(a.order, v, j, w, k)
  {
    hide Moved, LogCount, Due;
  }

  lemma RollbackMoves(now: int, v: View, j: Job, a: Attempt, c: Choice)
    requires j.pc == AtLocked(Rollback(a)) && Ready(v, j)
    ensures var (w, k) := RollbackStep(now, v, j, a, c); Moved(v, j, w, k)
  {
    hide Moved;
    var (w, k) := RollbackStep(now, v, j, a, c);
    Moves(v, j, w, k);
  }

  lemma RollbackFollows(now: int, v: View, j: Job, a: Attempt, c: Choice)
    requires j.pc == AtLocked(Rollback(a)) && Ready(v, j)
    ensures var (w, k) := RollbackStep(now, v, j, a, c); Follows(a.order, v, j, w, k)
  {
    hide Moved, LogCount, Due;
  }

  lemma GatewayMoves(now: int, v: View, j: Job, a: Attempt, c: Choice)
    requires j.pc == AtLocked(Gateway(a)) && Ready(v, j)
    ensures var (w, k) := LockedStep(now, v, j, Gateway(a), c); Moved(v, j, w, k)
  {
    hide Moved;
    var (w, k) := LockedStep(now, v, j, Gateway(a), c);
    if c.Ok? || c.Lost? {
      SendsBack(v, j, a.gatewayCents, k);
    } else {
      Idle(v, j, k);
    }
  }

  lemma GatewayFollows(now: int, v: View, j: Job, a: Attempt, c: Choice)
    requires j.pc == AtLocked(Gateway(a)) && Ready(v, j)
    ensures var (w, k) := LockedStep(now, v, j, Gateway(a), c); Follows(a.order, v, j, w, k)
  {
    hide Moved, LogCount, Due;
  }

  predicate BookLogs(p: LockedPc) {
    p.NoTrade? || p.LogRollback? || p.LogRestored? || p.LogDone? || p.FailLog?
  }

  predicate BookMarks(p: LockedPc) {
    p.Restore? || p.Mark? || p.FailMark?
  }

  lemma LogDoneMoves(now: int, v: View, j: Job, a: Attempt, k: Job)
    requires j.pc == AtLocked(LogDone(a)) && Ready(v, j) && Resumes(j, RefundOver(a, Finished), k)
    ensures var w := BookStep(now, v, LogDone(a), false).0; Moved(v, j, w, k)
  {
    hide Moved;
    Logs(v, j, RefundSuccess(a.cents < a.snap.amountCents, a.cents, a.gatewayCents, a.plan.units), k);
  }

  lemma BookLogMoves(now: int, v: View, j: Job, p: LockedPc, k: Job)
    requires j.pc == AtLocked(p) && BookLogs(p) && Ready(v, j) && Resumes(j, BookStep(now, v, p, false).1, k)
    ensures var w := BookStep(now, v, p, false).0; Moved(v, j, w, k)
  {
    hide Moved;
    match p
    case NoTrade(a) => Logs(v, j, RefundNoTradeNo, k);
    case LogRollback(a) => Logs(v, j, RefundRollbackFailed(a.plan.units), k);
    case LogRestored(a) => Logs(v, j, RefundGatewayFailed, k);
    case LogDone(a) => LogDoneMoves(now, v, j, a, k);
    case FailLog(a, cause, marked) => Logs(v, j, RefundFailedEntry, k);
  }

  /** A statement that ends a refund changes a REFUNDING row and leaves any other as it is. */
  lemma BookMarkMoves(now: int, v: View, j: Job, p: LockedPc, fault: bool, k: Job)
    requires j.pc == AtLocked(p) && BookMarks(p) && (fault ==> p.FailMark?)
    requires Ready(v, j) && Resumes(j, BookStep(now, v, p, fault).1, k)
    ensures var w := BookStep(now, v, p, fault).0; Moved(v, j, w, k)
  {
    hide Moved, Ready, EntryCount, RefundedOk;
    MarkShares(now, v, j, p, fault, k);
    MarkRefundedOk(now, v, j, p, fault);
    assert CellOk(v) by {
      ReadyCell(v, j);
    }
    hide Share, Resumes;
    var w := BookStep(now, v, p, fault).0;
    if CanEndRefunding(v.cell.row) && !fault {
      EndsRefund(v, j, w.cell.row, k);
    } else {
      Idle(v, j, k);
    }
  }

  /** The status of a refund is that of its amount. */
  lemma MarkRefundedOk(now: int, v: View, j: Job, p: LockedPc, fault: bool)
    requires j.pc == AtLocked(p) && BookMarks(p) && (fault ==> p.FailMark?) && Ready(v, j)
    ensures RefundedOk(BookStep(now, v, p, fault).0.cell.row)
  {
    hide LogOk, GatewayBounded, BooksOk;
  }

  lemma ReadyCell(v: View, j: Job)
    requires Ready(v, j)
    ensures CellOk(v)
  {
  }

  lemma MarkShares(now: int, v: View, j: Job, p: LockedPc, fault: bool, k: Job)
    requires j.pc == AtLocked(p) && BookMarks(p) && (fault ==> p.FailMark?)
    requires Resumes(j, BookStep(now, v, p, fault).1, k)
    ensures forall x: Kind :: Share(k, x) == Share(j, x)
  {
  }

  /** A commit that fails leaves the order alone; the attempt goes on to its error path and answers for what it took. */
  lemma FaultSettles(now: int, v: View, j: Job, p: LockedPc, k: Job)
    requires j.pc == AtLocked(p) && !p.Deduct? && !p.Gateway? && !p.Rollback? && !p.FailMark?
    requires Ready(v, j) && Resumes(j, BookStep(now, v, p, true).1, k)
    ensures Settled(p.a.order, v, j, BookStep(now, v, p, true).0, k)
  {
    hide Moved;
    Idle(v, j, k);
  }

  lemma BookLogFollows(now: int, v: View, j: Job, p: LockedPc, k: Job)
    requires j.pc == AtLocked(p) && BookLogs(p) && Ready(v, j) && Resumes(j, BookStep(now, v, p, false).1, k)
    ensures var w := BookStep(now, v, p, false).0; Follows(p.a.order, v, j, w, k)
  {
    hide Moved, LogCount, Due;
  }

  lemma MarkFollows(now: int, v: View, j: Job, p: LockedPc, k: Job)
    requires j.pc == AtLocked(p) && p.Mark? && Ready(v, j) && Resumes(j, BookStep(now, v, p, false).1, k)
    ensures var w := BookStep(now, v, p, false).0; Follows(p.a.order, v, j, w, k)
  {
    hide Moved, LogCount, Due;
  }

  lemma RestoreFollows(now: int, v: View, j: Job, p: LockedPc, k: Job)
    requires j.pc == AtLocked(p) && p.Restore? && Ready(v, j) && Resumes(j, BookStep(now, v, p, false).1, k)
    ensures var w := BookStep(now, v, p, false).0; Follows(p.a.order, v, j, w, k)
  {
    hide Moved, LogCount, Due, LogOk, GatewayBounded;
  }

  lemma FailMarkFollows(now: int, v: View, j: Job, p: LockedPc, fault: bool, k: Job)
    requires j.pc == AtLocked(p) && p.FailMark? && Ready(v, j) && Resumes(j, BookStep(now, v, p, fault).1, k)
    ensures var w := BookStep(now, v, p, fault).0; Follows(p.a.order, v, j, w, k)
  {
    hide Moved, LogCount, Due, LogOk, GatewayBounded;
  }

  lemma BookSettles(now: int, v: View, j: Job, p: LockedPc, fault: bool, k: Job)
    requires j.pc == AtLocked(p) && !p.Deduct? && !p.Gateway? && !p.Rollback?
    requires Ready(v, j) && Resumes(j, BookStep(now, v, p, fault).1, k)
    ensures Settled(p.a.order, v, j, BookStep(now, v, p, fault).0, k)
  {
    hide Ready, Resumes, Moved, Follows, BookStep;
    if fault && !p.FailMark? {
      FaultSettles(now, v, j, p, k);
    } else if BookLogs(p) {
      BookLogMoves(now, v, j, p, k);
      BookLogFollows(now, v, j, p, k);
    } else {
      BookMarkMoves(now, v, j, p, fault, k);
      if p.Mark? {
        MarkFollows(now, v, j, p, k);
      } else if p.Restore? {
        RestoreFollows(now, v, j, p, k);
      } else {
        FailMarkFollows(now, v, j, p, fault, k);
      }
    }
  }

  lemma StutterSettles(v: View, j: Job, o: nat, k: Job)
    requires Target(j.pc) == Some(o) && Ready(v, j) && Resumes(j, j.pc, k)
    ensures Settled(o, v, j, v, k)
  {
    Idle(v, j, k);
  }

  lemma FulfillSettles(now: int, v: View, j: Job, p: FulfillPc, c: Choice, k: Job)
    requires j.pc == AtFulfill(p) && Ready(v, j) && Resumes(j, FulfillStep(now, v, p, c).1, k)
    ensures Settled(p.o, v, j, FulfillStep(now, v, p, c).0, k)
  {
    hide Ready, Resumes, Moved, Follows, FulfillStep;
    if FulfillReads(p) {
      FulfillReadMoves(now, v, j, p, c, k);
      FulfillReadFollows(now, v, j, p, c, k);
    } else if FulfillWrites(p) {
      FulfillWriteMoves(now, v, j, p, c, k);
      FulfillWriteFollows(now, v, j, p, c, k);
    } else {
      FulfillLogMoves(now, v, j, p, c, k);
      FulfillLogFollows(now, v, j, p, c, k);
    }
  }

  lemma PlainSettles(now: int, balance: int, me: nat, v: View, j: Job, c: Choice, o: nat, k: Job)
    requires Target(j.pc) == Some(o) && !j.pc.AtLocked? && Ready(v, j)
    requires Resumes(j, PlainStep(now, balance, me, v, j.pc, c).1, k)
    ensures Settled(o, v, j, PlainStep(now, balance, me, v, j.pc, c).0, k)
  {
    hide Ready, Resumes, Moved, Follows;
    hide AttachStep, NoticeStep, FulfillStep, CancelStep, RetryStep, SweepStep, RequestStep, RefundStep;
    match j.pc
    case AtAttach(p) =>
      AttachMoves(now, v, j, p, c, k);
      AttachFollows(now, v, j, p, c, k);
    case AtNotice(p) =>
      NoticeMoves(now, v, j, p, k);
      NoticeFollows(now, v, j, p, k);
    case AtFulfill(p) => FulfillSettles(now, v, j, p, c, k);
    case AtCancel(p) =>
      CancelMoves(now, v, j, p, k);
      CancelFollows(now, v, j, p, k);
    case AtRetry(p) =>
      RetryMoves(now, v, j, p, k);
      RetryFollows(now, v, j, p, k);
    case AtSweep(p) =>
      SweepMoves(now, v, me, j, p, k);
      SweepFollows(now, v, me, j, p, k);
    case AtRequest(p) =>
      RequestMoves(now, balance, v, j, p, c, k);
      RequestFollows(now, balance, v, j, p, c, k);
    case AtRefund(p) =>
      RefundMoves(now, balance, v, j, p, c, k);
      RefundFollows(now, balance, v, j, p, c, k);
    case _ => StutterSettles(v, j, o, k);
  }

  lemma LockedSettles(now: int, v: View, j: Job, p: LockedPc, c: Choice)
    requires j.pc == AtLocked(p) && Ready(v, j)
    ensures var (w, k) := LockedStep(now, v, j, p, c); Settled(p.a.order, v, j, w, k)
  {
    var k := LockedStep(now, v, j, p, c).1;
    if !p.Deduct? && !p.Gateway? && !p.Rollback? {
      assert Resumes(j, BookStep(now, v, p, c == Fault).1, k);
    }
    hide Ready, Resumes, Moved, Follows, DeductStep, RollbackStep, BookStep;
    match p
    case Deduct(a) =>
      DeductMoves(now, v, j, a, c);
      DeductFollows(now, v, j, a, c);
    case Gateway(a) =>
      GatewayMoves(now, v, j, a, c);
      GatewayFollows(now, v, j, a, c);
    case Rollback(a) =>
      RollbackMoves(now, v, j, a, c);
      RollbackFollows(now, v, j, a, c);
    case _ => BookSettles(now, v, j, p, c == Fault, k);
  }

  /** Any step of a worker about an existing order, whatever the environment answers. */
  lemma LocalStepSettles(now: int, balance: int, me: nat, v: View, j: Job, c: Choice, o: nat)
    requires Target(j.pc) == Some(o) && Ready(v, j)
    ensures var (w, k) := LocalStep(now, balance, me, v, j, c); Settled(o, v, j, w, k)
  {
    var k := LocalStep(now, balance, me, v, j, c).1;
    if j.pc.AtLocked? {
      hide Ready, Settled, LockedStep;
      LockedSettles(now, v, j, j.pc.locked, c);
    } else {
      assert Resumes(j, PlainStep(now, balance, me, v, j.pc, c).1, k);
      hide Ready, Settled, PlainStep, Resumes;
      PlainSettles(now, balance, me, v, j, c, o, k);
    }
  }
}
