/** The steps of every program, over the slice of the world they touch (src/order/service.rs). */
module Steps {
  import opened Common
  import opened Orders
  import opened Protocol
  import opened Validity

  // ---- attach_payment_creation ----

  function AttachStep(now: int, v: View, p: AttachPc, c: Choice): (View, Pc) {
    match p
    case CreateLog(o) => (Logged(v, OrderCreated), AtAttach(CreatePay(o)))
    case CreatePay(o) => (v, if c.Trade? then AtAttach(AttachMark(o, c.trade)) else Done(Some(o), Refused))
    case AttachMark(o, trade) => (WithRow(v, SetPaymentDetails(v.cell.row, trade, now)), AtAttach(AttachLog(o)))
    case AttachLog(o) => (Logged(v, PaymentCreated), Done(Some(o), Attached))
  }

  // ---- confirm_payment_at and handle_verified_notification ----

  function NoticeStep(now: int, v: View, p: NoticePc): (View, Pc) {
    var r := v.cell.row;
    match p
    case NoticeStart(n) =>
      (v, if n.success then AtNotice(NoticeRead(n, now)) else Done(Some(n.order), Acked(true, n, None, None)))
    case NoticeRead(n, nowTs) =>
      (v, if n.cents <= 0 then Done(Some(n.order), Acked(true, n, Some(r.status), None))
          else if Abs(n.cents - Expected(r)) > 1 then AtNotice(NoticeMismatch(n, Expected(r)))
          else AtNotice(NoticeMark(n, nowTs, r)))
    case NoticeMismatch(n, expected) =>
      (Logged(v, AmountMismatch(expected, n.cents)), Done(Some(n.order), Acked(false, n, None, None)))
    case NoticeMark(n, nowTs, snap) =>
      if CanMarkPaid(r, nowTs - PAYMENT_CONFIRM_GRACE_SECONDS)
      then (WithRow(v, MarkPaid(r, n.trade, n.cents, nowTs, now)), AtNotice(NoticeLog(n, snap)))
      else (v, AtNotice(NoticeReread(n, nowTs, r)))
    case NoticeLog(n, snap) =>
      (Logged(v, OrderPaid(snap.status, Expected(snap), n.cents)), AtFulfill(FulfillRead(n.order, ByNotice(n))))
    case NoticeReread(n, nowTs, seen) =>
      (v, if r.status in {Failed, Paid, Recharging} then AtFulfill(FulfillRead(n.order, ByNotice(n)))
          else Done(Some(n.order), Acked(true, n, Some(r.status),
                          if r.status == Expired then Some(Window(seen.updatedAt, nowTs)) else None)))
  }

  // ---- execute_paid_fulfillment and the two programs it dispatches to ----

  /** Fulfillment returns to the operation that called it. */
  function Return(o: nat, via: Caller, ok: bool, last: Status): Pc {
    match via
    case ByNotice(n) => Done(Some(o), Acked(ok, n, Some(last), None))
    case ByCancel => Done(Some(o), CancelTooLate)
    case ByRetry => Done(Some(o), if ok then Retried else Refused)
  }

  /**
   The days a fulfillment will ask the platform for (0 for a balance order), or nothing when the
   administrator key, the platform, the group, the plan or the order itself stand in the way.
   */
  function GrantedDays(r: Row, c: Choice): Option<int> {
    if !c.Ok? && !c.Renew? then None
    else if r.orderType == Balance then Some(0)
    else if r.groupId.GetOr(0) <= 0 || r.days.GetOr(0) <= 0 then None
    else if c.Renew? then
      var renewal := RenewalDays(c.value, c.unit, c.expiry);
      if renewal.Days? then Some(renewal.days) else None
    else Some(r.days.value)
  }

  /** A redeem under a code already used changes nothing. */
  function Redeemed(credit: Option<Credit>, r: Row, days: int): Option<Credit> {
    if credit.Some? then credit
    else Some(Credit(r.user, if r.orderType == Balance then r.amountCents else 0, days))
  }

  function FulfillStep(now: int, v: View, p: FulfillPc, c: Choice): (View, Pc) {
    var r := v.cell.row;
    match p
    case FulfillRead(o, via) =>
      (v, if r.status in {Completed, Refunded} then Return(o, via, true, r.status)
          else if r.status == Recharging then Return(o, via, false, r.status)
          else if IsRefundStatus(r.status) then Return(o, via, true, r.status)
          else if r.status in {Paid, Failed} then AtFulfill(FulfillLock(o, via, r))
          else Return(o, via, true, r.status))
    case FulfillLock(o, via, snap) =>
      if CanMarkRecharging(r) then (WithRow(v, MarkRecharging(r, now)), AtFulfill(FulfillConfig(o, via, snap)))
      else (v, AtFulfill(FulfillLockLost(o, via)))
    case FulfillLockLost(o, via) =>
      (v, Return(o, via, r.status in {Completed, Refunded}, r.status))
    case FulfillConfig(o, via, snap) =>
      var days := GrantedDays(snap, c);
      (v, AtFulfill(if days.None? then FulfillFail(o, via, now) else FulfillRedeem(o, via, snap, days.value, now)))
    case FulfillRedeem(o, via, snap, days, nowTs) =>
      (if c.Ok? || c.Lost? then v.(credit := Redeemed(v.credit, snap, days)) else v,
       AtFulfill(if c.Ok? then FulfillComplete(o, via, snap, days, nowTs) else FulfillFail(o, via, nowTs)))
    case FulfillComplete(o, via, snap, days, nowTs) =>
      if CanMarkCompleted(r) then (WithRow(v, MarkCompleted(r, nowTs, now)), AtFulfill(FulfillLog(o, via, snap, days)))
      else (v, AtFulfill(FulfillCompleteLost(o, via)))
    case FulfillCompleteLost(o, via) =>
      (v, Return(o, via, r.status == Completed, r.status))
    case FulfillLog(o, via, snap, days) =>
      (Logged(v, if snap.orderType == Balance then RechargeSuccess else SubscriptionSuccess(days)),
       Return(o, via, true, Completed))
    case FulfillFail(o, via, nowTs) =>
      (if CanMarkFailed(r) then WithRow(v, MarkFailed(r, nowTs, now)) else v, AtFulfill(FulfillLogFail(o, via)))
    case FulfillLogFail(o, via) =>
      (Logged(v, FulfillmentFailed), Return(o, via, false, Failed))
  }

  // ---- cancel_order and admin_cancel_order ----

  function CancelStep(now: int, v: View, p: CancelPc): (View, Pc) {
    var r := v.cell.row;
    match p
    case CancelRead(o, user) =>
      (v, if (user.Some? && r.user != user.value) || r.status != Pending then Done(Some(o), Refused)
          else AtCancel(CancelMark(o, user)))
    case CancelMark(o, user) =>
      if CanLeavePending(r) then (WithRow(v, LeavePending(r, Cancelled, now)), AtCancel(CancelLog(o, user)))
      else (v, AtCancel(CancelReread(o, user)))
    case CancelLog(o, user) => (Logged(v, OrderCancelled), Done(Some(o), CancelDone))
    case CancelReread(o, user) =>
      (v, if r.status in {Paid, Failed} || (user.Some? && r.status in {Recharging, Completed, Refunded})
          then AtFulfill(FulfillRead(o, ByCancel))
          else if r.status in {Recharging, Completed, Refunded} then Done(Some(o), CancelTooLate)
          else Done(Some(o), CancelDone))
  }

  // ---- retry_recharge ----

  predicate RetryAllowed(r: Row) {
    r.paidAt.Some? && !IsRefundStatus(r.status) && r.status in {Failed, Paid}
  }

  function RetryStep(now: int, v: View, p: RetryPc): (View, Pc) {
    var r := v.cell.row;
    match p
    case RetryRead(o) => (v, if RetryAllowed(r) then AtRetry(RetryReset(o)) else Done(Some(o), Refused))
    case RetryReset(o) =>
      if CanResetToPaid(r) then (WithRow(v, ResetToPaid(r, now)), AtRetry(RetryLog(o)))
      else (v, Done(Some(o), Refused))
    case RetryLog(o) => (Logged(v, RechargeRetry), AtFulfill(FulfillRead(o, ByRetry)))
  }

  // ---- one order of a timeout sweep ----

  function SweepNext(todo: seq<nat>, count: nat): Pc
    requires todo != []
  {
    if |todo| == 1 then Done(Some(todo[0]), Swept(count)) else AtSweep(SweepMark(todo[1..], count))
  }

  function SweepStep(now: int, v: View, me: nat, p: SweepPc): (View, Pc)
    requires p.todo != []
  {
    var r := v.cell.row;
    match p
    case SweepMark(todo, count) =>
      if CanLeavePending(r)
      then (v.(cell := v.cell.(row := LeavePending(r, Expired, now), expiredBy := Some(me))),
            AtSweep(SweepLog(todo, count + 1)))
      else (v, SweepNext(todo, count))
    case SweepLog(todo, count) => (Logged(v, OrderExpired), SweepNext(todo, count))
  }

  // ---- request_refund ----

  function RequestStep(now: int, balance: int, v: View, p: RequestPc, c: Choice): (View, Pc) {
    var r := v.cell.row;
    match p
    case RequestRead(o, user, cents) =>
      (v, if r.user != user || r.orderType != Balance || r.status != Completed || cents <= 0 || cents > r.amountCents
          then Done(Some(o), Refused)
          else AtRequest(RequestBalance(o, user, cents)))
    case RequestBalance(o, user, cents) =>
      (v, if !c.Ok? || Max(balance, 0) < cents then Done(Some(o), Refused) else AtRequest(RequestMark(o, user, cents)))
    case RequestMark(o, user, cents) =>
      if CanRequestRefund(r, user)
      then (WithRow(v, RequestRefund(r, cents, now)), AtRequest(RequestLog(o, user, cents)))
      else (v, Done(Some(o), Refused))
    case RequestLog(o, user, cents) => (Logged(v, RefundRequestedEntry(cents)), Done(Some(o), Requested))
  }

  // ---- process_refund ----

  datatype Planned = Planned(plan: Plan) | PlanUnavailable | PlanError

  /** prepare_deduction: `Ok` reads the user's balance truthfully, the other choices answer for subscriptions. */
  function PrepareDeduction(snap: Row, cents: int, force: bool, deduct: bool, balance: int, c: Choice): Planned {
    var nothing := Planned(Plan(0, None));
    if !deduct then nothing
    else if snap.orderType == Subscription then
      if snap.groupId.None? || snap.days.None? || c.NoSubscription? then nothing
      else if c.ActiveSubscription? then Planned(Plan(Max(Min(snap.days.value, c.remaining), 0), Some(c.id)))
      else if !c.Fails? then PlanError
      else if force then nothing
      else PlanUnavailable
    else if c.Ok? then Planned(Plan(Max(Min(cents, Max(balance, 0)), 0), None))
    else if force then nothing
    else PlanUnavailable
  }

  function RefundStep(now: int, balance: int, v: View, p: RefundPc, c: Choice): (View, Pc) {
    var r := v.cell.row;
    match p
    case RefundRead(o, amount, force, deduct) =>
      var cents := amount.GetOr(r.amountCents);
      (v, if r.status !in {Completed, RefundRequested, RefundFailed} || cents <= 0 || cents > r.amountCents
          then Done(Some(o), Refused)
          else AtRefund(RefundPlan(o, r, cents, if amount.Some? then cents else Expected(r), force, deduct)))
    case RefundPlan(o, snap, cents, gatewayCents, force, deduct) =>
      (v, if c.Unconfigured? then Done(Some(o), Refused)
          else match PrepareDeduction(snap, cents, force, deduct, balance, c)
               case Planned(plan) => AtRefund(RefundLock(o, Attempt(o, snap, cents, gatewayCents, plan)))
               case PlanUnavailable => Done(Some(o), NeedsForce)
               case PlanError => Done(Some(o), Refused))
    case RefundLock(o, a) =>
      if CanMarkRefunding(r) then (WithRow(v, MarkRefunding(r, now)), AtLocked(Deduct(a)))
      else (v, Done(Some(o), Refused))
  }

  // ---- process_refund_locked ----

  /** A deduction under an idempotency key already applied is answered without being carried out again. */
  function Take(v: View, units: nat, now: int): View {
    if now in v.cell.subtracted then v
    else v.(cell := v.cell.(taken := v.cell.taken + units, subtracted := v.cell.subtracted + {now}))
  }

  function GiveBack(v: View, units: nat, now: int): View {
    if now in v.cell.added then v
    else v.(cell := v.cell.(taken := v.cell.taken - units, added := v.cell.added + {now}))
  }

  /** After the deduction: on to the gateway, unless the order never got a trade number. */
  function Deducted(a: Attempt): Pc {
    AtLocked(if a.snap.tradeNo.Some? then Gateway(a) else NoTrade(a))
  }

  function DeductStep(now: int, v: View, j: Job, a: Attempt, c: Choice): (View, Job) {
    var units := a.plan.units;
    if units == 0 then (v, Goto(j, Deducted(a)))
    else if c.Ok? || c.Lost? then
      var v' := Take(v, units, now);
      var got := v'.cell.taken - v.cell.taken;
      (v', if c.Ok? then Job(Deducted(a), j.alive, j.applied + got, j.off + got - units)
           else Job(AtLocked(FailMark(a, NotDeducted)), j.alive, j.applied + got, j.off + got))
    else (v, Goto(j, AtLocked(FailMark(a, NotDeducted))))
  }

  function RollbackStep(now: int, v: View, j: Job, a: Attempt, c: Choice): (View, Job) {
    var units := a.plan.units;
    if units == 0 then (v, Goto(j, AtLocked(Restore(a))))
    else if c.Ok? || c.Lost? then
      var v' := GiveBack(v, units, now);
      var back := v.cell.taken - v'.cell.taken;
      (v', if c.Ok? then Job(AtLocked(Restore(a)), j.alive, j.applied - back, j.off + units - back)
           else Job(AtLocked(LogRollback(a)), j.alive, j.applied - back, j.off - back))
    else (v, Goto(j, AtLocked(LogRollback(a))))
  }

  function StageOf(p: LockedPc): Stage {
    match p
    case LogRollback(_) => AtLogRollback
    case Restore(_) => AtRestore
    case LogRestored(_) => AtLogRestored
    case Mark(_, sent) => AtMark(sent)
    case LogDone(_) => AtLogDone
    case _ => AtNoTrade
  }

  predicate OnErrorPath(p: LockedPc) {
    p.FailMark? || p.FailLog?
  }

  /**
   The steps that only write to the database; `fault` when their commit fails.  On the error path a failing
   mark is ignored, and a failing log entry is all that is lost.
   */
  function BookStep(now: int, v: View, p: LockedPc, fault: bool): (View, Pc)
    requires !p.Deduct? && !p.Gateway? && !p.Rollback?
  {
    var r := v.cell.row;
    var a := p.a;
    if fault && !OnErrorPath(p) then (v, AtLocked(FailMark(a, CommitFailed(StageOf(p)))))
    else
      match p
      case NoTrade(_) => (Logged(v, RefundNoTradeNo), AtLocked(Mark(a, false)))
      case LogRollback(_) => (Logged(v, RefundRollbackFailed(a.plan.units)), AtLocked(FailMark(a, NotRolledBack)))
      case Restore(_) =>
        var status := if a.snap.status == RefundRequested then RefundRequested else Completed;
        (if CanEndRefunding(r) then WithRow(v, RestoreAfterGatewayFailure(r, status, now)) else v,
         AtLocked(LogRestored(a)))
      case LogRestored(_) => (Logged(v, RefundGatewayFailed), RefundOver(a, Undone))
      case Mark(_, _) =>
        var status := if a.cents < a.snap.amountCents then PartiallyRefunded else Refunded;
        (if CanEndRefunding(r) then WithRow(v, MarkRefunded(r, status, a.cents, now)) else v, AtLocked(LogDone(a)))
      case LogDone(_) =>
        (Logged(v, RefundSuccess(a.cents < a.snap.amountCents, a.cents, a.gatewayCents, a.plan.units)),
         RefundOver(a, Finished))
      case FailMark(_, cause) =>
        (if CanEndRefunding(r) && !fault then WithRow(v, MarkRefundFailed(r, now, now)) else v,
         AtLocked(FailLog(a, cause, !fault)))
      case FailLog(_, cause, marked) =>
        (if fault then v else Logged(v, RefundFailedEntry), RefundOver(a, Errored(cause, marked)))
  }

  function LockedStep(now: int, v: View, j: Job, p: LockedPc, c: Choice): (View, Job) {
    match p
    case Deduct(a) => DeductStep(now, v, j, a, c)
    case Gateway(a) =>
      (if c.Ok? || c.Lost? then v.(cell := v.cell.(gateway := v.cell.gateway + [a.gatewayCents])) else v,
       Goto(j, AtLocked(if c.Ok? then Mark(a, true) else Rollback(a))))
    case Rollback(a) => RollbackStep(now, v, j, a, c)
    case _ =>
      var (v', pc') := BookStep(now, v, p, c == Fault);
      (v', Goto(j, pc'))
  }

  // ---- one step of a worker that is about an existing order ----

  function LocalStep(now: int, balance: int, me: nat, v: View, j: Job, c: Choice): (View, Job) {
    match j.pc
    case AtLocked(p) => LockedStep(now, v, j, p, c)
    case _ =>
      var (v', pc') := PlainStep(now, balance, me, v, j.pc, c);
      (v', Goto(j, pc'))
  }

  function PlainStep(now: int, balance: int, me: nat, v: View, pc: Pc, c: Choice): (View, Pc) {
    match pc
    case AtAttach(p) => AttachStep(now, v, p, c)
    case AtNotice(p) => NoticeStep(now, v, p)
    case AtFulfill(p) => FulfillStep(now, v, p, c)
    case AtCancel(p) => CancelStep(now, v, p)
    case AtRetry(p) => RetryStep(now, v, p)
    case AtSweep(p) => if p.todo == [] then (v, pc) else SweepStep(now, v, me, p)
    case AtRequest(p) => RequestStep(now, balance, v, p, c)
    case AtRefund(p) => RefundStep(now, balance, v, p, c)
    case _ => (v, pc)
  }

  /** A first read that finds no such order. */
  function Missing(now: int, pc: Pc): Pc {
    match pc
    case AtNotice(NoticeStart(n)) =>
      if n.success then AtNotice(NoticeRead(n, now)) else Done(Some(n.order), Acked(true, n, None, None))
    case AtNotice(NoticeRead(n, _)) => Done(Some(n.order), Acked(false, n, None, None))
    case _ => Done(Target(pc), Refused)
  }
}
