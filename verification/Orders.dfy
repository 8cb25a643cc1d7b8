/**
 One order row: the columns the lifecycle reads or writes, the guard of every
 UPDATE statement (src/order/repository.rs) and its effect, and the state shown to users
 (src/order/status.rs).
 */
module Orders {
  import opened Common

  datatype Status =
    | Pending | Paid | Recharging | Completed | Expired | Cancelled | Failed
    | RefundRequested | Refunding | PartiallyRefunded | Refunded | RefundFailed

  datatype OrderType = Balance | Subscription

  datatype Row = Row(
    user: int,
    amountCents: int,
    payAmountCents: Option<int>,
    rechargeCode: string,
    status: Status,
    orderType: OrderType,
    tradeNo: Option<string>,
    groupId: Option<int>,
    days: Option<int>,
    expiresAt: int,
    paidAt: Option<int>,
    completedAt: Option<int>,
    failedAt: Option<int>,
    refundCents: Option<int>,
    updatedAt: int)

  const PAYMENT_CONFIRM_GRACE_SECONDS := 5 * 60

  /** What the payer is expected to pay: the quoted amount, or the face value without a quote. */
  function Expected(r: Row): int {
    r.payAmountCents.GetOr(r.amountCents)
  }

  // ---- guards and effects of the UPDATE statements ----

  predicate CanLeavePending(r: Row) {
    r.status == Pending
  }

  function LeavePending(r: Row, status: Status, now: int): Row {
    r.(status := status, updatedAt := now)
  }

  predicate CanMarkPaid(r: Row, graceGte: int) {
    r.status == Pending || (r.status == Expired && r.updatedAt >= graceGte)
  }

  function MarkPaid(r: Row, trade: string, cents: int, paidAt: int, now: int): Row {
    r.(status := Paid, payAmountCents := Some(cents), tradeNo := Some(trade), paidAt := Some(paidAt),
    failedAt := None, updatedAt := now)
  }

  predicate CanMarkRecharging(r: Row) {
    r.status in {Paid, Failed}
  }

  function MarkRecharging(r: Row, now: int): Row {
    r.(status := Recharging, updatedAt := now)
  }

  predicate CanResetToPaid(r: Row) {
    r.status in {Failed, Paid} && r.paidAt.Some?
  }

  function ResetToPaid(r: Row, now: int): Row {
    r.(status := Paid, failedAt := None, updatedAt := now)
  }

  predicate CanMarkCompleted(r: Row) {
    r.status in {Recharging, Paid, Failed}
  }

  function MarkCompleted(r: Row, completedAt: int, now: int): Row {
    r.(status := Completed, completedAt := Some(completedAt), failedAt := None, updatedAt := now)
  }

  predicate CanMarkFailed(r: Row) {
    r.status == Recharging
  }

  function MarkFailed(r: Row, failedAt: int, now: int): Row {
    r.(status := Failed, failedAt := Some(failedAt), updatedAt := now)
  }

  predicate CanRequestRefund(r: Row, user: int) {
    r.user == user && r.status == Completed && r.orderType == Balance
  }

  function RequestRefund(r: Row, cents: int, now: int): Row {
    r.(status := RefundRequested, refundCents := Some(cents), updatedAt := now)
  }

  predicate CanMarkRefunding(r: Row) {
    r.status in {Completed, RefundRequested, RefundFailed}
  }

  function MarkRefunding(r: Row, now: int): Row {
    r.(status := Refunding, updatedAt := now)
  }

  /** Guard shared by the three statements that end a refund attempt. */
  predicate CanEndRefunding(r: Row) {
    r.status == Refunding
  }

  function RestoreAfterGatewayFailure(r: Row, status: Status, now: int): Row {
    r.(status := status, failedAt := None, updatedAt := now)
  }

  function MarkRefundFailed(r: Row, failedAt: int, now: int): Row {
    r.(status := RefundFailed, failedAt := Some(failedAt), updatedAt := now)
  }

  function MarkRefunded(r: Row, status: Status, cents: int, now: int): Row {
    r.(status := status, refundCents := Some(cents), failedAt := None, updatedAt := now)
  }

  /** The one statement without a status guard. */
  function SetPaymentDetails(r: Row, trade: string, now: int): Row {
    r.(tradeNo := Some(trade), updatedAt := now)
  }

  // ---- phases ----

  /** unpaid 0, paid 1, fulfilled 2, refunded 3 */
  function Phase(s: Status): nat {
    match s
    case Pending | Expired | Cancelled => 0
    case Paid | Recharging | Failed => 1
    case Completed | RefundRequested | Refunding | RefundFailed => 2
    case PartiallyRefunded | Refunded => 3
  }

  predicate IsRefundStatus(s: Status) {
    s in {RefundRequested, Refunding, PartiallyRefunded, Refunded, RefundFailed}
  }

  /** The timestamps agree with the phase, and a paid order has a trade number. */
  ghost predicate RowOk(r: Row) {
    && (r.paidAt.Some? <==> Phase(r.status) >= 1)
    && (r.completedAt.Some? <==> Phase(r.status) >= 2)
    && (r.paidAt.Some? ==> r.tradeNo.Some?)
  }

  /** Which statuses an order can still take later. */
  ghost predicate Reaches(a: Status, b: Status) {
    && Phase(a) <= Phase(b)
    && (b == Pending ==> a == Pending)
    && (b == Expired ==> a in {Pending, Expired})
    && (b == Cancelled ==> a in {Pending, Cancelled})
    && (a == Cancelled ==> b == Cancelled)
    && (Phase(a) == 3 ==> b == a)
  }

  /** Everything an earlier sight of a row still promises about a later one. */
  ghost predicate Evolves(a: Row, b: Row) {
    && a.user == b.user && a.amountCents == b.amountCents && a.rechargeCode == b.rechargeCode
    && a.orderType == b.orderType && a.groupId == b.groupId && a.days == b.days && a.expiresAt == b.expiresAt
    && Reaches(a.status, b.status)
    && (a.paidAt.Some? ==> b.paidAt == a.paidAt && b.payAmountCents == a.payAmountCents)
    && (b.paidAt.None? ==> b.payAmountCents == a.payAmountCents)
    && (a.completedAt.Some? ==> b.completedAt == a.completedAt)
    && (a.tradeNo.Some? ==> b.tradeNo.Some?)
    && (Phase(a.status) == 3 ==> b.refundCents == a.refundCents)
  }

  lemma EvolvesTransitive(a: Row, b: Row, c: Row)
    requires Evolves(a, b) && Evolves(b, c)
    requires RowOk(a) && RowOk(b) && RowOk(c)
    ensures Evolves(a, c)
  {
  }

  // ---- the state shown to users ----

  datatype RechargeStatus = NotPaid | PaidPending | RechargingNow | Success | RechargeFailed | Closed

  datatype DerivedState = DerivedState(paymentSuccess: bool, rechargeSuccess: bool, rechargeStatus: RechargeStatus)

  function DeriveOrderState(r: Row): DerivedState {
    var paymentSuccess := r.paidAt.Some?;
    if r.completedAt.Some? || r.status == Completed then DerivedState(paymentSuccess, true, Success)
    else if r.status == Recharging then DerivedState(paymentSuccess, false, RechargingNow)
    else if r.status == Failed then DerivedState(paymentSuccess, false, RechargeFailed)
    else if r.status in {Expired, Cancelled} || IsRefundStatus(r.status)
      then DerivedState(paymentSuccess, false, Closed)
    else if paymentSuccess then DerivedState(paymentSuccess, false, PaidPending)
    else DerivedState(false, false, NotPaid)
  }

  predicate IsRechargeRetryable(r: Row) {
    r.paidAt.Some? && r.status == Failed && !IsRefundStatus(r.status)
  }
}
