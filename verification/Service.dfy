/**
 The operations of OrderService as the source writes them (src/order/service.rs): statements on the orders
 table, the audit log and third parties, with local variables and early returns.

 Before every statement `Meanwhile` lets other workers and time change everything they may change, so what
 a method has read may be stale.  After every statement `Settle` advances the ghost worker `job` by the
 step the protocol prescribes and records in `faithful` whether the statement did exactly that step.  A
 method that ends with `faithful` therefore ran its protocol program under any interference, and its result
 is tied to the outcome the program ends with; the guarantees of the protocol carry over to it.
 */
module Service {
  import opened Common
  import opened Orders
  import opened Protocol
  import opened Steps
  import opened Repository
  import opened Validity

  datatype Confirmation = Confirmed | RetryLater | StopRetry | AmountMismatch | OrderNotFound

  datatype Cancellation = Cancelled | AlreadyPaid | Denied

  datatype RetryError =
    | OrderMissing | NeverPaid | RefundRelated | InProgress | AlreadyCompleted | NotRetryable | StatusChanged
    | AttemptFailed

  datatype RetryResult = RetryDone | RetryDenied(why: RetryError)

  datatype RefundResult = RefundResult(success: bool, requireForce: bool, deducted: nat) | RefundError

  /** What others leave behind, and what the environment answers to the next statement. */
  datatype Moment = Moment(view: View, now: int, balance: int, answer: Choice)

  class OrderService {
    const orders: OrderRepository
    const id: nat                      // the order the current operation is about
    var logs: seq<Entry>               // its audit log
    var outside: View                  // what third parties hold for it; the row and the log here are not used
    var balance: int                   // its user's balance at the platform
    var answer: Choice
    var ahead: seq<Moment>
    ghost var before: View
    ghost var job: Job
    ghost var faithful: bool

    /** A worker that is about to run `pc` on order `id`, the environment behaving as scheduled. */
    constructor (orders: OrderRepository, id: nat, schedule: seq<Moment>, start: Moment, pc: Pc)
      ensures this.orders == orders && this.id == id && ahead == schedule
      ensures job == Job(pc, true, 0, 0) && faithful
    {
      this.orders, this.id, ahead := orders, id, schedule;
      logs, outside, balance, answer := start.view.cell.log, start.view, start.balance, start.answer;
      before, job, faithful := start.view, Job(pc, true, 0, 0), true;
    }

    predicate Known()
      reads this, orders
    {
      id < |orders.rows|
    }

    /** The order as it is now. */
    function Seen(): View
      requires Known()
      reads this, orders
    {
      outside.(cell := outside.cell.(row := orders.rows[id], log := logs))
    }

    // ---- interference, and the step the protocol prescribes ----

    /** Other workers, users and time may have done anything since the last statement. */
    method Meanwhile()
      modifies this, orders
      ensures Known() == old(Known()) && (Known() ==> before == Seen())
      ensures job == old(job) && faithful == old(faithful)
    {
      if ahead != [] {
        var m := ahead[0];
        ahead := ahead[1..];
        if id < |orders.rows| {
          orders.rows := orders.rows[id := m.view.cell.row];
        }
        logs, outside := m.view.cell.log, m.view;
        orders.now, balance, answer := m.now, m.balance, m.answer;
      }
      if id < |orders.rows| {
        before := Seen();
      }
    }

    /** The statement just made counts as the next step of the worker. */
    ghost method Settle()
      requires Known() && !job.pc.AtLocked?
      modifies this`job, this`faithful
      ensures var (v, pc) := PlainStep(orders.now, balance, 0, before, old(job.pc), answer);
              job == Goto(old(job), pc) && faithful == (old(faithful) && Seen() == v)
    {
      hide PlainStep;
      var (v, j) := LocalStep(orders.now, balance, 0, before, job, answer);
      faithful := faithful && Seen() == v;
      job := j;
    }

    ghost method SettleMissing()
      requires !Known()
      modifies this`job
      ensures job.pc == Missing(orders.now, old(job.pc))
    {
      job := Goto(job, Missing(orders.now, job.pc));
    }

    ghost method SettleAttach(p: AttachPc)
      requires Known() && job.pc == AtAttach(p) && faithful
      modifies this`job, this`faithful
      ensures var (v, pc) := AttachStep(orders.now, before, p, answer); job.pc == pc && faithful == (Seen() == v)
    {
      hide AttachStep;
      Settle();
    }

    ghost method SettleNotice(p: NoticePc)
      requires Known() && job.pc == AtNotice(p) && faithful
      modifies this`job, this`faithful
      ensures var (v, pc) := NoticeStep(orders.now, before, p); job.pc == pc && faithful == (Seen() == v)
    {
      hide NoticeStep;
      Settle();
    }

    ghost method SettleFulfill(p: FulfillPc)
      requires Known() && job.pc == AtFulfill(p) && faithful
      modifies this`job, this`faithful
      ensures var (v, pc) := FulfillStep(orders.now, before, p, answer); job.pc == pc && faithful == (Seen() == v)
    {
      hide FulfillStep;
      Settle();
    }

    ghost method SettleCancel(p: CancelPc)
      requires Known() && job.pc == AtCancel(p) && faithful
      modifies this`job, this`faithful
      ensures var (v, pc) := CancelStep(orders.now, before, p); job.pc == pc && faithful == (Seen() == v)
    {
      hide CancelStep;
      Settle();
    }

    ghost method SettleRetry(p: RetryPc)
      requires Known() && job.pc == AtRetry(p) && faithful
      modifies this`job, this`faithful
      ensures var (v, pc) := RetryStep(orders.now, before, p); job.pc == pc && faithful == (Seen() == v)
    {
      hide RetryStep;
      Settle();
    }

    ghost method SettleRequest(p: RequestPc)
      requires Known() && job.pc == AtRequest(p) && faithful
      modifies this`job, this`faithful
      ensures var (v, pc) := RequestStep(orders.now, balance, before, p, answer);
              job.pc == pc && faithful == (Seen() == v)
    {
      hide RequestStep;
      Settle();
    }

    ghost method SettleRefund(p: RefundPc)
      requires Known() && job.pc == AtRefund(p) && faithful
      modifies this`job, this`faithful
      ensures var (v, pc) := RefundStep(orders.now, balance, before, p, answer);
              job.pc == pc && faithful == (Seen() == v)
    {
      hide RefundStep;
      Settle();
    }

    ghost method SettleLocked(p: LockedPc)
      requires Known() && job.pc == AtLocked(p) && faithful
      modifies this`job, this`faithful
      ensures var (v, j) := LockedStep(orders.now, before, old(job), p, answer); job == j && faithful == (Seen() == v)
    {
      hide LockedStep;
      var (v, j) := LocalStep(orders.now, balance, 0, before, job, answer);
      faithful := Seen() == v;
      job := j;
    }

    /** The steps of a locked refund that only write to the database; `Fault` when their commit fails. */
    ghost method SettleBook(p: LockedPc)
      requires Known() && job.pc == AtLocked(p) && faithful && !p.Deduct? && !p.Gateway? && !p.Rollback?
      modifies this`job, this`faithful
      ensures var (v, pc) := BookStep(orders.now, before, p, answer.Fault?); job.pc == pc && faithful == (Seen() == v)
    {
      hide BookStep;
      SettleLocked(p);
    }

    method Append(e: Entry)
      modifies this`logs
      ensures logs == old(logs) + [e]
    {
      logs := logs + [e];
    }

    // ---- attach_payment_creation ----

    method AttachPaymentCreation(trade: string)
      requires Known() && faithful && job.pc == AtAttach(AttachMark(id, trade))
      modifies this, orders
      ensures Known() && faithful && job.pc == Done(Some(id), Attached)
    {
      Meanwhile();
      var _ := orders.SetPaymentDetails(id, trade);
      SettleAttach(AttachMark(id, trade));
      Meanwhile();
      Append(PaymentCreated);
      SettleAttach(AttachLog(id));
    }

    // ---- confirm_payment_at and handle_verified_notification ----

    method ConfirmPaymentAt(n: Notice, nowTs: int) returns (outcome: Confirmation)
      requires n.order == id && faithful && job.pc == AtNotice(NoticeRead(n, nowTs))
      modifies this, orders
      ensures Known() == old(Known()) && faithful
      ensures match outcome
              case Confirmed | RetryLater => Known() && job.pc == AtFulfill(FulfillRead(id, ByNotice(n)))
              case StopRetry => job.pc.Done? && job.pc.out.Acked? && job.pc.out.ok
              case AmountMismatch | OrderNotFound => job.pc.Done? && job.pc.out.Acked? && !job.pc.out.ok
      ensures outcome.OrderNotFound? <==> !Known()
      ensures outcome.Confirmed? ==> |logs| > 0 && logs[|logs| - 1].OrderPaid? && logs[|logs| - 1].paid == n.cents
      ensures outcome.RetryLater? ==> orders.rows[id].status in {Paid, Failed, Recharging}
      ensures outcome.AmountMismatch? ==> |logs| > 0 && logs[|logs| - 1].AmountMismatch?
    {
      Meanwhile();
      var found := orders.GetById(id);
      if found.None? {
        SettleMissing();
        return OrderNotFound;
      }
      var order := found.value;
      SettleNotice(NoticeRead(n, nowTs));
      if n.cents <= 0 {
        return StopRetry;
      }
      var expected := order.payAmountCents.GetOr(order.amountCents);
      if Abs(n.cents - expected) > 1 {
        Meanwhile();
        Append(Entry.AmountMismatch(expected, n.cents));
        SettleNotice(NoticeMismatch(n, expected));
        return Confirmation.AmountMismatch;
      }
      outcome := MarkPaidOrExplain(n, nowTs, order, expected);
    }

    /** The second half of confirm_payment_at. */
    method MarkPaidOrExplain(n: Notice, nowTs: int, order: Row, expected: int) returns (outcome: Confirmation)
      requires Known() && n.order == id && faithful && expected == Expected(order)
      requires job.pc == AtNotice(NoticeMark(n, nowTs, order))
      modifies this, orders
      ensures Known() && faithful
      ensures match outcome
              case Confirmed | RetryLater => job.pc == AtFulfill(FulfillRead(id, ByNotice(n)))
              case StopRetry => job.pc.Done? && job.pc.out.Acked? && job.pc.out.ok
              case _ => false
      ensures outcome.Confirmed? ==> |logs| > 0 && logs[|logs| - 1].OrderPaid? && logs[|logs| - 1].paid == n.cents
      ensures outcome.RetryLater? ==> orders.rows[id].status in {Paid, Failed, Recharging}
    {
      Meanwhile();
      var graceGte := nowTs - PAYMENT_CONFIRM_GRACE_SECONDS;
      var won := orders.MarkPaidIfPendingOrRecentExpired(id, n.trade, n.cents, nowTs, graceGte);
      SettleNotice(NoticeMark(n, nowTs, order));
      if won {
        Meanwhile();
        Append(OrderPaid(order.status, expected, n.cents));
        SettleNotice(NoticeLog(n, order));
        return Confirmed;
      }
      ghost var lost := before.cell.row;
      Meanwhile();
      var current := orders.GetById(id);
      SettleNotice(NoticeReread(n, nowTs, lost));
      match current.value.status {
        case Completed | Refunded => outcome := StopRetry;
        case Failed | Paid | Recharging => outcome := RetryLater;
        case _ => outcome := StopRetry;
      }
    }

    method HandleVerifiedNotification(n: Notice) returns (ok: bool)
      requires n.order == id && faithful && job.pc == AtNotice(NoticeStart(n))
      modifies this, orders
      ensures faithful && job.pc.Done? && job.pc.out.Acked? && job.pc.out.ok == ok
    {
      Meanwhile();
      var nowTs := orders.now;
      if id >= |orders.rows| {
        SettleMissing();
      } else {
        SettleNotice(NoticeStart(n));
      }
      if !n.success {
        return true;
      }
      var outcome := ConfirmPaymentAt(n, nowTs);
      match outcome {
        case Confirmed | RetryLater =>
          ghost var last;
          ok, last := ExecutePaidFulfillment(ByNotice(n));
        case StopRetry => ok := true;
        case AmountMismatch | OrderNotFound => ok := false;
      }
    }

    // ---- fulfillment ----

    method ExecutePaidFulfillment(via: Caller) returns (ok: bool, ghost last: Status)
      requires Known() && faithful && job.pc == AtFulfill(FulfillRead(id, via))
      modifies this, orders
      ensures Known() && faithful && job.pc == Return(id, via, ok, last)
    {
      hide Return;
      Meanwhile();
      var found := orders.GetById(id);
      var order := found.value;
      SettleFulfill(FulfillRead(id, via));
      last := order.status;
      match order.status {
        case Completed | Refunded => return true, last;
        case Recharging => return false, last;
        case RefundRequested | Refunding | PartiallyRefunded | RefundFailed => return true, last;
        case Paid | Failed =>
        case _ => return true, last;
      }
      ok, last := LockAndFulfill(order, via);
    }

    method LockAndFulfill(order: Row, via: Caller) returns (ok: bool, ghost last: Status)
      requires Known() && faithful && job.pc == AtFulfill(FulfillLock(id, via, order))
      modifies this, orders
      ensures Known() && faithful && job.pc == Return(id, via, ok, last)
    {
      hide Return, GrantedDays;
      Meanwhile();
      var won := orders.MarkRechargingIfPaidOrFailed(id);
      SettleFulfill(FulfillLock(id, via, order));
      if !won {
        Meanwhile();
        var current := orders.GetById(id);
        SettleFulfill(FulfillLockLost(id, via));
        return current.value.status in {Completed, Refunded}, current.value.status;
      }
      Meanwhile();
      var nowTs := orders.now;
      var days := PlanGrant(order);
      SettleFulfill(FulfillConfig(id, via, order));
      if days.None? {
        ok, last := RecordFulfillmentFailure(nowTs, via);
      } else {
        ok, last := RedeemAndComplete(order, days.value, nowTs, via);
      }
    }

    /**
     The checks that precede a redeem: configuration, platform, group and plan.  A subscription is granted the
     days sold or, for a renewal, what the plan's validity yields from the current expiry, and always a positive
     number; a balance order is granted none.
     */
    method PlanGrant(order: Row) returns (days: Option<int>)
      ensures days == GrantedDays(order, answer)
      ensures days.Some? <==> (answer.Ok? || answer.Renew?) && (order.orderType == Subscription ==>
                && order.groupId.GetOr(0) > 0 && order.days.GetOr(0) > 0
                && (answer.Renew? ==> RenewalDays(answer.value, answer.unit, answer.expiry).Days?))
      ensures days.Some? && order.orderType == Balance ==> days.value == 0
      ensures days.Some? && order.orderType == Subscription ==> days.value > 0
      ensures days.Some? && order.orderType == Subscription && answer.Ok? ==> days == order.days
      ensures days.Some? && order.orderType == Subscription && answer.Renew? && answer.expiry.Some? ==>
                var granted := ComputeValidityDays(answer.value, answer.unit, answer.expiry.value, LAST_MONTH);
                granted.Days? && granted.days == days.value
    {
      if !answer.Ok? && !answer.Renew? {
        return None;
      }
      match order.orderType {
        case Balance => return Some(0);
        case Subscription =>
          if order.groupId == None || order.groupId.value <= 0 {
            return None;
          }
          if order.days == None || order.days.value <= 0 {
            return None;
          }
          days := order.days;
          if answer.Renew? {
            var renewal := RenewalDays(answer.value, answer.unit, answer.expiry);
            match renewal {
              case Days(granted) => days := Some(granted);
              case Error => return None;
            }
          }
      }
    }

    /** create_and_redeem: the platform honours a code once. */
    method Redeem(order: Row, days: int) returns (ok: bool)
      modifies this`outside
      ensures ok == answer.Ok?
      ensures outside == if answer.Ok? || answer.Lost?
                         then old(outside).(credit := Redeemed(old(outside).credit, order, days))
                         else old(outside)
    {
      if (answer.Ok? || answer.Lost?) && outside.credit == None {
        var cents := if order.orderType == Balance then order.amountCents else 0;
        outside := outside.(credit := Some(Credit(order.user, cents, days)));
      }
      ok := answer.Ok?;
    }

    /** execute_balance_fulfillment, and the end of execute_subscription_fulfillment. */
    method RedeemAndComplete(order: Row, days: int, nowTs: int, via: Caller) returns (ok: bool, ghost last: Status)
      requires Known() && faithful && job.pc == AtFulfill(FulfillRedeem(id, via, order, days, nowTs))
      modifies this, orders
      ensures Known() && faithful && job.pc == Return(id, via, ok, last)
    {
      hide Return, Redeemed;
      Meanwhile();
      var redeemed := Redeem(order, days);
      SettleFulfill(FulfillRedeem(id, via, order, days, nowTs));
      if !redeemed {
        ok, last := RecordFulfillmentFailure(nowTs, via);
        return;
      }
      ok, last := Complete(order, days, nowTs, via);
    }

    method Complete(order: Row, days: int, nowTs: int, via: Caller) returns (ok: bool, ghost last: Status)
      requires Known() && faithful && job.pc == AtFulfill(FulfillComplete(id, via, order, days, nowTs))
      modifies this, orders
      ensures Known() && faithful && job.pc == Return(id, via, ok, last)
    {
      hide Return;
      Meanwhile();
      var won := orders.MarkCompletedAfterFulfillment(id, nowTs);
      SettleFulfill(FulfillComplete(id, via, order, days, nowTs));
      if !won {
        Meanwhile();
        var current := orders.GetById(id);
        SettleFulfill(FulfillCompleteLost(id, via));
        return current.value.status == Completed, current.value.status;
      }
      Meanwhile();
      Append(if order.orderType == Balance then RechargeSuccess else SubscriptionSuccess(days));
      SettleFulfill(FulfillLog(id, via, order, days));
      return true, Completed;
    }

    method RecordFulfillmentFailure(failedAt: int, via: Caller) returns (ok: bool, ghost last: Status)
      requires Known() && faithful && job.pc == AtFulfill(FulfillFail(id, via, failedAt))
      modifies this, orders
      ensures Known() && faithful && job.pc == Return(id, via, ok, last)
    {
      hide Return;
      Meanwhile();
      var _ := orders.MarkFailedIfRecharging(id, failedAt);
      SettleFulfill(FulfillFail(id, via, failedAt));
      Meanwhile();
      Append(FulfillmentFailed);
      SettleFulfill(FulfillLogFail(id, via));
      return false, Failed;
    }

    // ---- cancel_order and admin_cancel_order ----

    method CancelOrder(user: int) returns (r: Cancellation)
      requires faithful && job.pc == AtCancel(CancelRead(id, Some(user)))
      modifies this, orders
      ensures faithful && job.pc == Done(Some(id), CancelOutcome(r))
    {
      Meanwhile();
      var found := orders.GetById(id);
      if found.None? {
        SettleMissing();
        return Denied;
      }
      SettleCancel(CancelRead(id, Some(user)));
      if found.value.user != user || found.value.status != Pending {
        return Denied;
      }
      var won := MarkCancelled(Some(user));
      if won {
        return Cancellation.Cancelled;
      }
      r := ResolveLostCancel(user);
    }

    /** cancel_order lost the race: whatever was paid is fulfilled. */
    method ResolveLostCancel(user: int) returns (r: Cancellation)
      requires Known() && faithful && job.pc == AtCancel(CancelReread(id, Some(user)))
      modifies this, orders
      ensures faithful && job.pc == Done(Some(id), CancelOutcome(r))
    {
      Meanwhile();
      var current := orders.GetById(id);
      SettleCancel(CancelReread(id, Some(user)));
      match current.value.status {
        case Paid | Failed | Recharging | Completed | Refunded =>
          var _, _ := ExecutePaidFulfillment(ByCancel);
          r := AlreadyPaid;
        case _ => r := Cancellation.Cancelled;
      }
    }

    method AdminCancelOrder() returns (r: Cancellation)
      requires faithful && job.pc == AtCancel(CancelRead(id, None))
      modifies this, orders
      ensures faithful && job.pc == Done(Some(id), CancelOutcome(r))
    {
      Meanwhile();
      var found := orders.GetById(id);
      if found.None? {
        SettleMissing();
        return Denied;
      }
      SettleCancel(CancelRead(id, None));
      if found.value.status != Pending {
        return Denied;
      }
      var won := MarkCancelled(None);
      if won {
        return Cancellation.Cancelled;
      }
      r := ResolveLostAdminCancel();
    }

    method ResolveLostAdminCancel() returns (r: Cancellation)
      requires Known() && faithful && job.pc == AtCancel(CancelReread(id, None))
      modifies this, orders
      ensures faithful && job.pc == Done(Some(id), CancelOutcome(r))
    {
      Meanwhile();
      var current := orders.GetById(id);
      SettleCancel(CancelReread(id, None));
      match current.value.status {
        case Paid | Failed =>
          var _, _ := ExecutePaidFulfillment(ByCancel);
          r := AlreadyPaid;
        case Recharging | Completed | Refunded => r := AlreadyPaid;
        case _ => r := Cancellation.Cancelled;
      }
    }

    /** The statement and the audit entry that both ways of cancelling share. */
    method MarkCancelled(user: Option<int>) returns (won: bool)
      requires Known() && faithful && job.pc == AtCancel(CancelMark(id, user))
      modifies this, orders
      ensures Known() && faithful
      ensures job.pc == if won then Done(Some(id), CancelDone) else AtCancel(CancelReread(id, user))
    {
      Meanwhile();
      won := orders.MarkStatusIfPending(id, Status.Cancelled);
      SettleCancel(CancelMark(id, user));
      if won {
        Meanwhile();
        Append(OrderCancelled);
        SettleCancel(CancelLog(id, user));
      }
    }

    // ---- retry_recharge ----

    /** assert_retry_allowed: the first reason against a retry. */
    method AssertRetryAllowed(order: Row) returns (against: Option<RetryError>)
      ensures against.None? <==> RetryAllowed(order)
      ensures against == Some(NeverPaid) <==> order.paidAt.None?
      ensures against.Some? ==>
                against.value in {NeverPaid, RefundRelated, InProgress, AlreadyCompleted, NotRetryable}
      ensures var refunds := {RefundRequested, Refunding, PartiallyRefunded, Refunded, RefundFailed};
              against == Some(RefundRelated) <==> order.paidAt.Some? && order.status in refunds
      ensures against == Some(InProgress) <==> order.paidAt.Some? && order.status == Recharging
      ensures against == Some(AlreadyCompleted) <==> order.paidAt.Some? && order.status == Completed
    {
      if order.paidAt == None {
        return Some(NeverPaid);
      }
      if IsRefundStatus(order.status) {
        return Some(RefundRelated);
      }
      match order.status {
        case Failed | Paid => return None;
        case Recharging => return Some(InProgress);
        case Completed => return Some(AlreadyCompleted);
        case _ => return Some(NotRetryable);
      }
    }

    method RetryRecharge() returns (r: RetryResult)
      requires faithful && job.pc == AtRetry(RetryRead(id))
      modifies this, orders
      ensures faithful && job.pc == Done(Some(id), if r.RetryDone? then Retried else Refused)
      ensures r == RetryDenied(OrderMissing) <==> !Known()
    {
      Meanwhile();
      var found := orders.GetById(id);
      if found.None? {
        SettleMissing();
        return RetryDenied(OrderMissing);
      }
      SettleRetry(RetryRead(id));
      var against := AssertRetryAllowed(found.value);
      if against.Some? {
        return RetryDenied(against.value);
      }
      var won := ResetToPaid();
      if !won {
        var why := ExplainLostReset();
        return RetryDenied(why);
      }
      ghost var last;
      var ok;
      ok, last := ExecutePaidFulfillment(ByRetry);
      r := if ok then RetryDone else RetryDenied(AttemptFailed);
    }

    /** The reset lost: another read, only to say why. */
    method ExplainLostReset() returns (why: RetryError)
      requires Known() && faithful
      modifies this, orders
      ensures faithful && job == old(job)
      ensures Known() && why in {InProgress, AlreadyCompleted, RefundRelated, StatusChanged}
      ensures why == InProgress <==> orders.rows[id].status in {Paid, Recharging}
      ensures why == AlreadyCompleted <==> orders.rows[id].status in {Completed, Refunded}
      ensures why == RefundRelated <==>
                orders.rows[id].status in {RefundRequested, Refunding, PartiallyRefunded, RefundFailed}
    {
      Meanwhile();
      var latest := orders.GetById(id);
      match latest.value.status {
        case Paid | Recharging => why := InProgress;
        case Completed | Refunded => why := AlreadyCompleted;
        case RefundRequested | Refunding | PartiallyRefunded | RefundFailed => why := RefundRelated;
        case _ => why := StatusChanged;
      }
    }

    method ResetToPaid() returns (won: bool)
      requires Known() && faithful && job.pc == AtRetry(RetryReset(id))
      modifies this, orders
      ensures Known() && faithful
      ensures job.pc == if won then AtFulfill(FulfillRead(id, ByRetry)) else Done(Some(id), Refused)
    {
      Meanwhile();
      won := orders.ResetToPaidIfRetryable(id);
      SettleRetry(RetryReset(id));
      if won {
        Meanwhile();
        Append(RechargeRetry);
        SettleRetry(RetryLog(id));
      }
    }

    // ---- request_refund ----

    method RequestRefund(user: int, cents: int) returns (ok: bool)
      requires faithful && job.pc == AtRequest(RequestRead(id, user, cents))
      modifies this, orders
      ensures faithful && job.pc == Done(Some(id), if ok then Requested else Refused)
    {
      Meanwhile();
      var found := orders.GetById(id);
      if found.None? {
        SettleMissing();
        return false;
      }
      var order := found.value;
      SettleRequest(RequestRead(id, user, cents));
      if order.user != user || order.orderType != Balance || order.status != Completed {
        return false;
      }
      if cents <= 0 || cents > order.amountCents {
        return false;
      }
      Meanwhile();
      var enough := answer.Ok? && Max(balance, 0) >= cents;
      SettleRequest(RequestBalance(id, user, cents));
      if !enough {
        return false;
      }
      ok := MarkRequested(user, cents);
    }

    method MarkRequested(user: int, cents: int) returns (won: bool)
      requires Known() && faithful && job.pc == AtRequest(RequestMark(id, user, cents))
      modifies this, orders
      ensures faithful && job.pc == Done(Some(id), if won then Requested else Refused)
    {
      Meanwhile();
      won := orders.MarkRefundRequested(id, user, cents);
      SettleRequest(RequestMark(id, user, cents));
      if won {
        Meanwhile();
        Append(RefundRequestedEntry(cents));
        SettleRequest(RequestLog(id, user, cents));
      }
    }

    // ---- process_refund ----

    /**
     What to take: for a balance order the least of the refund and the balance, for a subscription of the days
     sold and the days left; nothing without a deduction or a subscription; unknown exactly when the platform
     did not answer and the refund is not forced.
     */
    method PrepareDeduction(order: Row, cents: int, deduct: bool, force: bool) returns (planned: Planned)
      ensures planned == Steps.PrepareDeduction(order, cents, force, deduct, balance, answer)
      ensures planned.Planned? && order.orderType == Balance && cents >= 0 ==>
                planned.plan.units == if deduct && answer.Ok? then Min(cents, Max(balance, 0)) else 0
      ensures order.orderType == Balance ==>
                !planned.PlanError? && (planned.PlanUnavailable? <==> deduct && !answer.Ok? && !force)
      ensures planned.Planned? && order.orderType == Subscription ==>
                planned.plan.units ==
                if deduct && order.groupId.Some? && answer.ActiveSubscription?
                then Max(Min(order.days.GetOr(0), answer.remaining), 0) else 0
      ensures planned.Planned? && planned.plan.units > 0 ==>
                (planned.plan.sub.Some? <==> order.orderType == Subscription)
      ensures order.orderType == Subscription ==>
                (planned.PlanUnavailable? <==>
                 deduct && order.groupId.Some? && order.days.Some? && answer.Fails? && !force)
    {
      var nothing := Planned(Plan(0, None));
      if !deduct {
        return nothing;
      }
      if order.orderType == Subscription {
        if order.groupId == None {
          return nothing;
        }
        if order.days == None {
          return nothing;
        }
        match answer {
          case NoSubscription => return nothing;
          case ActiveSubscription(sub, remaining) =>
            var days := Min(order.days.value, remaining);
            return Planned(Plan(if days > 0 then days else 0, Some(sub)));
          case Fails => return if force then nothing else PlanUnavailable;
          case _ => return PlanError;
        }
      }
      if !answer.Ok? {
        return if force then nothing else PlanUnavailable;
      }
      var available := if balance >= 0 then balance else 0;
      var units := Min(cents, available);
      return Planned(Plan(if units > 0 then units else 0, None));
    }

    method ProcessRefund(amount: Option<int>, force: bool, deduct: bool) returns (r: RefundResult)
      requires faithful && job.pc == AtRefund(RefundRead(id, amount, force, deduct))
      modifies this, orders
      ensures faithful && Reported(job.pc, r)
    {
      Meanwhile();
      var found := orders.GetById(id);
      if found.None? {
        SettleMissing();
        return RefundError;
      }
      var order := found.value;
      SettleRefund(RefundRead(id, amount, force, deduct));
      if order.status !in {Completed, RefundRequested, RefundFailed} {
        return RefundError;
      }
      var cents := amount.GetOr(order.amountCents);
      if cents <= 0 || cents > order.amountCents {
        return RefundError;
      }
      var gatewayCents := if amount.Some? then cents else order.payAmountCents.GetOr(order.amountCents);
      r := PlanAndRefund(order, cents, gatewayCents, force, deduct);
    }

    method PlanAndRefund(order: Row, cents: int, gatewayCents: int, force: bool, deduct: bool) returns (r: RefundResult)
      requires Known() && faithful && job.pc == AtRefund(RefundPlan(id, order, cents, gatewayCents, force, deduct))
      modifies this, orders
      ensures faithful && Reported(job.pc, r)
    {
      hide Steps.PrepareDeduction;
      Meanwhile();
      if answer.Unconfigured? {
        SettleRefund(RefundPlan(id, order, cents, gatewayCents, force, deduct));
        return RefundError;
      }
      var planned := PrepareDeduction(order, cents, deduct, force);
      SettleRefund(RefundPlan(id, order, cents, gatewayCents, force, deduct));
      match planned {
        case PlanUnavailable => return RefundResult(false, true, 0);
        case PlanError => return RefundError;
        case Planned(plan) => r := LockAndRefund(Attempt(id, order, cents, gatewayCents, plan));
      }
    }

    method LockAndRefund(a: Attempt) returns (r: RefundResult)
      requires Known() && faithful && a.order == id && job.pc == AtRefund(RefundLock(id, a))
      modifies this, orders
      ensures faithful && Reported(job.pc, r)
    {
      Meanwhile();
      var won := orders.MarkRefundingIfRefundable(id);
      SettleRefund(RefundLock(id, a));
      if !won {
        return RefundError;
      }
      r := RefundLocked(a);
    }

    /** process_refund once it holds the lock: an error of process_refund_locked is put on record. */
    method RefundLocked(a: Attempt) returns (r: RefundResult)
      requires Known() && faithful && a.order == id && job.pc == AtLocked(Deduct(a))
      modifies this, orders
      ensures faithful && Reported(job.pc, r)
    {
      ghost var cause;
      r, cause := ProcessRefundLocked(a);
      if r.RefundError? {
        RecordRefundFailure(a, cause);
      }
    }

    method RecordRefundFailure(a: Attempt, ghost cause: Cause)
      requires Known() && faithful && a.order == id && job.pc == AtLocked(FailMark(a, cause))
      modifies this, orders
      ensures faithful && job.pc.RefundOver? && job.pc.a == a && job.pc.ending.Errored?
    {
      ghost var marked := MarkFailure(a, cause);
      Meanwhile();
      if !answer.Fault? {
        Append(RefundFailedEntry);
      }
      SettleBook(FailLog(a, cause, marked));
    }

    /** A failure to mark the failure is ignored. */
    method MarkFailure(a: Attempt, ghost cause: Cause) returns (ghost marked: bool)
      requires Known() && faithful && a.order == id && job.pc == AtLocked(FailMark(a, cause))
      modifies this, orders
      ensures Known() && faithful && job.pc == AtLocked(FailLog(a, cause, marked))
    {
      Meanwhile();
      marked := !answer.Fault?;
      if !answer.Fault? {
        var _ := orders.MarkRefundFailed(id, orders.now);
      }
      SettleBook(FailMark(a, cause));
    }

    method ProcessRefundLocked(a: Attempt) returns (r: RefundResult, ghost cause: Cause)
      requires Known() && faithful && a.order == id && job.pc == AtLocked(Deduct(a))
      modifies this, orders
      ensures Known() && faithful
      ensures if r.RefundError? then job.pc == AtLocked(FailMark(a, cause)) else Reported(job.pc, r)
    {
      cause := NotDeducted;
      var deducted := ExecuteDeduction(a);
      if !deducted {
        return RefundError, cause;
      }
      if a.snap.tradeNo.Some? {
        Meanwhile();
        var sent := RefundPayment(a.gatewayCents);
        SettleLocked(Gateway(a));
        if !sent {
          r, cause := UndoRefund(a);
          return;
        }
      } else {
        Meanwhile();
        if answer.Fault? {
          SettleBook(NoTrade(a));
          cause := CommitFailed(AtNoTrade);
          return RefundError, cause;
        }
        Append(RefundNoTradeNo);
        SettleBook(NoTrade(a));
      }
      r, cause := FinishRefund(a, a.snap.tradeNo.Some?);
    }

    method FinishRefund(a: Attempt, sent: bool) returns (r: RefundResult, ghost cause: Cause)
      requires Known() && faithful && a.order == id && job.pc == AtLocked(Mark(a, sent))
      modifies this, orders
      ensures Known() && faithful
      ensures if r.RefundError? then job.pc == AtLocked(FailMark(a, cause)) else Reported(job.pc, r)
    {
      cause := CommitFailed(AtMark(sent));
      var status := if a.cents < a.snap.amountCents then PartiallyRefunded else Refunded;
      Meanwhile();
      if answer.Fault? {
        SettleBook(Mark(a, sent));
        return RefundError, cause;
      }
      var _ := orders.MarkRefunded(id, status, a.cents);
      SettleBook(Mark(a, sent));
      r, cause := RecordRefund(a, status);
    }

    method RecordRefund(a: Attempt, status: Status) returns (r: RefundResult, ghost cause: Cause)
      requires Known() && faithful && a.order == id && job.pc == AtLocked(LogDone(a))
      requires status == if a.cents < a.snap.amountCents then PartiallyRefunded else Refunded
      modifies this, orders
      ensures Known() && faithful
      ensures if r.RefundError? then job.pc == AtLocked(FailMark(a, cause)) else Reported(job.pc, r)
    {
      cause := CommitFailed(AtLogDone);
      Meanwhile();
      if answer.Fault? {
        SettleBook(LogDone(a));
        return RefundError, cause;
      }
      Append(RefundSuccess(status == PartiallyRefunded, a.cents, a.gatewayCents, a.plan.units));
      SettleBook(LogDone(a));
      return RefundResult(true, false, a.plan.units), cause;
    }

    /** The gateway refused: give the deduction back, and restore the order if that worked. */
    method UndoRefund(a: Attempt) returns (r: RefundResult, ghost cause: Cause)
      requires Known() && faithful && a.order == id && job.pc == AtLocked(Rollback(a))
      modifies this, orders
      ensures Known() && faithful
      ensures if r.RefundError? then job.pc == AtLocked(FailMark(a, cause)) else Reported(job.pc, r)
    {
      var rolledBack;
      rolledBack, cause := RollbackDeduction(a);
      if !rolledBack {
        return RefundError, cause;
      }
      r, cause := RestoreOrder(a);
    }

    method RestoreOrder(a: Attempt) returns (r: RefundResult, ghost cause: Cause)
      requires Known() && faithful && a.order == id && job.pc == AtLocked(Restore(a))
      modifies this, orders
      ensures Known() && faithful
      ensures if r.RefundError? then job.pc == AtLocked(FailMark(a, cause)) else Reported(job.pc, r)
    {
      cause := CommitFailed(AtRestore);
      var restored := if a.snap.status == RefundRequested then RefundRequested else Completed;
      Meanwhile();
      if answer.Fault? {
        SettleBook(Restore(a));
        return RefundError, cause;
      }
      var _ := orders.RestoreAfterRefundGatewayFailure(id, restored);
      SettleBook(Restore(a));
      r, cause := RecordRestored(a);
    }

    method RecordRestored(a: Attempt) returns (r: RefundResult, ghost cause: Cause)
      requires Known() && faithful && a.order == id && job.pc == AtLocked(LogRestored(a))
      modifies this, orders
      ensures Known() && faithful
      ensures if r.RefundError? then job.pc == AtLocked(FailMark(a, cause)) else Reported(job.pc, r)
    {
      cause := CommitFailed(AtLogRestored);
      Meanwhile();
      if answer.Fault? {
        SettleBook(LogRestored(a));
        return RefundError, cause;
      }
      Append(RefundGatewayFailed);
      SettleBook(LogRestored(a));
      return RefundResult(false, false, 0), cause;
    }

    method RefundPayment(cents: int) returns (ok: bool)
      modifies this`outside
      ensures ok == answer.Ok?
      ensures var c := old(outside).cell;
              outside == if answer.Ok? || answer.Lost? then old(outside).(cell := c.(gateway := c.gateway + [cents]))
                         else old(outside)
    {
      if answer.Ok? || answer.Lost? {
        outside := outside.(cell := outside.cell.(gateway := outside.cell.gateway + [cents]));
      }
      ok := answer.Ok?;
    }

    /** What the platform does with a deduction: its key is the current second. */
    method TakeAway(units: nat) returns (ok: bool)
      modifies this`outside
      ensures ok == answer.Ok?
      ensures outside == if answer.Ok? || answer.Lost? then Take(old(outside), units, orders.now) else old(outside)
    {
      var c := outside.cell;
      if (answer.Ok? || answer.Lost?) && orders.now !in c.subtracted {
        outside := outside.(cell := c.(taken := c.taken + units, subtracted := c.subtracted + {orders.now}));
      }
      ok := answer.Ok?;
    }

    method PutBack(units: nat) returns (ok: bool)
      modifies this`outside
      ensures ok == answer.Ok?
      ensures outside == if answer.Ok? || answer.Lost? then GiveBack(old(outside), units, orders.now) else old(outside)
    {
      var c := outside.cell;
      if (answer.Ok? || answer.Lost?) && orders.now !in c.added {
        outside := outside.(cell := c.(taken := c.taken - units, added := c.added + {orders.now}));
      }
      ok := answer.Ok?;
    }

    method ExecuteDeduction(a: Attempt) returns (ok: bool)
      requires Known() && faithful && a.order == id && job.pc == AtLocked(Deduct(a))
      modifies this, orders
      ensures Known() && faithful && job.pc == if ok then Deducted(a) else AtLocked(FailMark(a, NotDeducted))
    {
      Meanwhile();
      ok := true;
      if a.plan.units > 0 {
        ok := TakeAway(a.plan.units);
      }
      SettleLocked(Deduct(a));
    }

    method RollbackDeduction(a: Attempt) returns (ok: bool, ghost cause: Cause)
      requires Known() && faithful && a.order == id && job.pc == AtLocked(Rollback(a))
      modifies this, orders
      ensures Known() && faithful && job.pc == if ok then AtLocked(Restore(a)) else AtLocked(FailMark(a, cause))
    {
      Meanwhile();
      cause := NotRolledBack;
      if a.plan.units <= 0 {
        SettleLocked(Rollback(a));
        return true, cause;
      }
      ok := PutBack(a.plan.units);
      SettleLocked(Rollback(a));
      if !ok {
        Meanwhile();
        if answer.Fault? {
          cause := CommitFailed(AtLogRollback);
        } else {
          Append(RefundRollbackFailed(a.plan.units));
        }
        SettleBook(LogRollback(a));
      }
    }
  }

  /** What process_refund tells its caller, at the point where its program ended. */
  predicate Reported(pc: Pc, r: RefundResult) {
    match pc
    case RefundOver(a, Finished) => r == RefundResult(true, false, a.plan.units)
    case RefundOver(a, Undone) => r == RefundResult(false, false, 0)
    case RefundOver(a, Errored(_, _)) => r == RefundError
    case Done(_, NeedsForce) => r == RefundResult(false, true, 0)
    case Done(_, Refused) => r == RefundError
    case _ => false
  }

  function CancelOutcome(r: Cancellation): Outcome {
    match r
    case Cancelled => CancelDone
    case AlreadyPaid => CancelTooLate
    case Denied => Refused
  }
}
