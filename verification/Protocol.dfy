/**
 The order lifecycle as a protocol of workers (src/order/service.rs).

 Every service operation is a small program.  A worker's program counter carries the values the
 operation holds in local variables, among them the row it read earlier, which may be stale.  One step
 is one database statement, one audit append or one call to a third party.  Any worker may vanish
 between two steps, which is also how an operation that returns early on a database error ends.

 A step of a program touches one order: its row and audit log, the platform's record of that order and
 the gateway's.  Step functions are therefore written over that slice, a `View`; the module `World`
 lifts them to many orders, users and workers.
 */
module Protocol {
  import opened Common
  import opened Orders
  import opened Validity

  // ---- audit log ----

  datatype Entry =
    | OrderCreated
    | OrderPaid(previous: Status, expected: int, paid: int)
    | AmountMismatch(expected: int, paid: int)
    | PaymentCreated
    | OrderCancelled
    | OrderExpired
    | RechargeRetry
    | RechargeSuccess
    | SubscriptionSuccess(days: int)
    | FulfillmentFailed
    | RefundRequestedEntry(cents: int)
    | RefundNoTradeNo
    | RefundRollbackFailed(units: nat)
    | RefundGatewayFailed
    | RefundSuccess(partial: bool, cents: int, gatewayCents: int, units: nat)
    | RefundFailedEntry

  // ---- one order as a step sees it ----

  /** What the platform keeps a balance of: a user's money in cents, or days of subscription to a group. */
  datatype Account = Money(user: int) | Days(user: int, group: int)

  /** What the platform granted under one recharge code. */
  datatype Credit = Credit(user: int, cents: int, days: int)

  /**
   Besides the row and its log, a cell keeps what third parties did for this order: the amounts the
   gateway sent back, the net units (cents of balance, or days of subscription) the platform took away,
   and the timestamps of the idempotency keys already applied there.  `quote` is the amount quoted at
   creation and `expiredBy` the worker that moved the order to EXPIRED.
   */
  datatype Cell = Cell(
    row: Row,
    quote: int,
    log: seq<Entry>,
    gateway: seq<int>,
    taken: int,
    subtracted: set<int>,
    added: set<int>,
    expiredBy: Option<nat>)

  datatype View = View(cell: Cell, credit: Option<Credit>)

  function WithRow(v: View, r: Row): View {
    v.(cell := v.cell.(row := r))
  }

  function Logged(v: View, e: Entry): View {
    v.(cell := v.cell.(log := v.cell.log + [e]))
  }

  // ---- programs ----

  datatype NewOrder = NewOrder(
    user: int, cents: int, feeBps: Option<int>, orderType: OrderType, hasPlan: bool,
    groupId: Option<int>, days: Option<int>, code: string)

  /** create_pending_order_at, up to the insert */
  datatype CreatePc =
    | CreateStart(input: NewOrder)
    | CreateCheck(input: NewOrder, nowTs: int)
    | CreateInsert(input: NewOrder, nowTs: int)

  /** the rest of creation and attach_payment_creation */
  datatype AttachPc =
    | CreateLog(o: nat)
    | CreatePay(o: nat)
    | AttachMark(o: nat, trade: string)
    | AttachLog(o: nat)

  datatype Notice = Notice(order: nat, trade: string, cents: int, success: bool)

  /** handle_verified_notification and confirm_payment_at */
  datatype NoticePc =
    | NoticeStart(n: Notice)
    | NoticeRead(n: Notice, nowTs: int)
    | NoticeMismatch(n: Notice, expected: int)
    | NoticeMark(n: Notice, nowTs: int, snap: Row)
    | NoticeLog(n: Notice, snap: Row)
    | NoticeReread(n: Notice, nowTs: int, seen: Row)

  /** Which operation is running the shared fulfillment code. */
  datatype Caller = ByNotice(n: Notice) | ByCancel | ByRetry

  /** execute_paid_fulfillment and the two programs it dispatches to */
  datatype FulfillPc =
    | FulfillRead(o: nat, via: Caller)
    | FulfillLock(o: nat, via: Caller, snap: Row)
    | FulfillLockLost(o: nat, via: Caller)
    | FulfillConfig(o: nat, via: Caller, snap: Row)
    | FulfillRedeem(o: nat, via: Caller, snap: Row, grant: int, nowTs: int)
    | FulfillComplete(o: nat, via: Caller, snap: Row, grant: int, nowTs: int)
    | FulfillCompleteLost(o: nat, via: Caller)
    | FulfillLog(o: nat, via: Caller, snap: Row, grant: int)
    | FulfillFail(o: nat, via: Caller, nowTs: int)
    | FulfillLogFail(o: nat, via: Caller)

  /** cancel_order, or admin_cancel_order when there is no user */
  datatype CancelPc =
    | CancelRead(o: nat, user: Option<int>)
    | CancelMark(o: nat, user: Option<int>)
    | CancelLog(o: nat, user: Option<int>)
    | CancelReread(o: nat, user: Option<int>)

  /** retry_recharge */
  datatype RetryPc = RetryRead(o: nat) | RetryReset(o: nat) | RetryLog(o: nat)

  /** the loop of expire_pending_orders_at over the listed orders */
  datatype SweepPc = SweepMark(todo: seq<nat>, count: nat) | SweepLog(todo: seq<nat>, count: nat)

  /** request_refund */
  datatype RequestPc =
    | RequestRead(o: nat, user: int, cents: int)
    | RequestBalance(o: nat, user: int, cents: int)
    | RequestMark(o: nat, user: int, cents: int)
    | RequestLog(o: nat, user: int, cents: int)

  datatype Plan = Plan(units: nat, sub: Option<int>)

  /** The local variables of a refund attempt once the deduction is planned. */
  datatype Attempt = Attempt(order: nat, snap: Row, cents: int, gatewayCents: int, plan: Plan)

  /** process_refund up to the lock */
  datatype RefundPc =
    | RefundRead(o: nat, amount: Option<int>, force: bool, deduct: bool)
    | RefundPlan(o: nat, snap: Row, cents: int, gatewayCents: int, force: bool, deduct: bool)
    | RefundLock(o: nat, a: Attempt)

  /** The statements of a locked refund whose commit may fail on its own. */
  datatype Stage = AtNoTrade | AtLogRollback | AtRestore | AtLogRestored | AtMark(sent: bool) | AtLogDone

  /** Why a locked refund ends in an error. */
  datatype Cause = NotDeducted | NotRolledBack | CommitFailed(at: Stage)

  /** The platform took the plan and has it still. */
  predicate Kept(cause: Cause) {
    cause.NotRolledBack? || Unrecorded(cause)
  }

  /** So it has, and no entry of the audit log says so. */
  predicate Unrecorded(cause: Cause) {
    cause.CommitFailed? && !cause.at.AtRestore? && !cause.at.AtLogRestored?
  }

  /** The attempt was still in possession of the lock when it failed. */
  predicate Holding(cause: Cause) {
    cause.CommitFailed? ==> !cause.at.AtLogRestored? && !cause.at.AtLogDone?
  }

  /** process_refund_locked and the error path of process_refund */
  datatype LockedPc =
    | Deduct(a: Attempt)
    | Gateway(a: Attempt)
    | NoTrade(a: Attempt)
    | Rollback(a: Attempt)
    | LogRollback(a: Attempt)
    | Restore(a: Attempt)
    | LogRestored(a: Attempt)
    | Mark(a: Attempt, sent: bool)
    | LogDone(a: Attempt)
    | FailMark(a: Attempt, cause: Cause)
    | FailLog(a: Attempt, cause: Cause, marked: bool)

  /**
   How a locked refund ended: success, success=false with the deduction rolled back, or an error, `marked`
   when the statement that puts it on the row was carried out.
   */
  datatype Ending = Finished | Undone | Errored(cause: Cause, marked: bool)

  /** How old an expired row was when a payment confirmation was refused. */
  datatype Window = Window(updatedAt: int, nowTs: int)

  datatype Outcome =
    | Acked(ok: bool, n: Notice, last: Option<Status>, late: Option<Window>)
    | CancelDone
    | CancelTooLate
    | NotCreated(input: NewOrder)
    | NothingToSweep(limit: int)
    | Swept(count: nat)
    | Retried
    | Attached
    | Requested
    | NeedsForce
    | Refused

  datatype Pc =
    | AtCreate(create: CreatePc)
    | AtAttach(attach: AttachPc)
    | AtNotice(notice: NoticePc)
    | AtFulfill(fulfill: FulfillPc)
    | AtCancel(cancel: CancelPc)
    | AtRetry(retry: RetryPc)
    | AtSweepList(limit: int)
    | AtSweep(sweep: SweepPc)
    | AtRequest(request: RequestPc)
    | AtRefund(refund: RefundPc)
    | AtLocked(locked: LockedPc)
    | RefundOver(a: Attempt, ending: Ending)
    | Done(about: Option<nat>, out: Outcome)

  /**
   A worker.  `applied` is what its refund attempt truly took from the user and has not given back, and
   `off` how far the platform's answers to it strayed from what the platform did.
   */
  datatype Job = Job(pc: Pc, alive: bool, applied: int, off: int)

  function Goto(j: Job, pc: Pc): Job {
    j.(pc := pc)
  }

  /** What the environment answers to a step.  Anything a step does not expect counts as a failure. */
  datatype Choice =
    | Ok
    | Fails
    | Lost                              // carried out, but reported as failed
    | Renew(value: int, unit: ValidityUnit, expiry: Option<CalendarDate>) // a plan extends a subscription
    | Unconfigured                      // no administrator key, or no platform to call
    | NoSubscription
    | ActiveSubscription(id: int, remaining: nat)
    | Trade(trade: string)
    | Fault                             // the database commit of a locked refund step fails

  /** The order a program counter is about, if it is about one. */
  function Target(pc: Pc): Option<nat> {
    match pc
    case AtAttach(p) => Some(p.o)
    case AtNotice(p) => Some(p.n.order)
    case AtFulfill(p) => Some(p.o)
    case AtCancel(p) => Some(p.o)
    case AtRetry(p) => Some(p.o)
    case AtSweep(p) => if p.todo == [] then None else Some(p.todo[0])
    case AtRequest(p) => Some(p.o)
    case AtRefund(p) => Some(p.o)
    case AtLocked(p) => Some(p.a.order)
    case RefundOver(a, _) => Some(a.order)
    case Done(about, _) => about
    case _ => None
  }
}
