/**
 The invariant of the protocol, seen from one order.

 The laws that count share one form: for every order and every kind of thing counted, what the row and
 the platform show (`Due`) equals what the audit log says (`LogCount`) plus what workers still owe (`Share`).
 Everything else is a fact about the order (`CellOk`) or about one worker (`JobOk`), chosen so that it
 stays true whatever other workers do.
 */
module Facts {
  import opened Common
  import opened Orders
  import opened Protocol
  import opened Steps

  // ---- what is counted ----

  datatype Kind =
    | RechargeHeld     // holders of the RECHARGING lock
    | PaidEntries      // ORDER_PAID
    | CancelledEntries // ORDER_CANCELLED
    | ExpiredEntries   // ORDER_EXPIRED
    | SuccessEntries   // RECHARGE_SUCCESS or SUBSCRIPTION_SUCCESS
    | Units            // cents or days taken from the user by refunds

  function EntryCount(e: Entry, x: Kind): int {
    match x
    case RechargeHeld => 0
    case PaidEntries => Ind(e.OrderPaid?)
    case CancelledEntries => Ind(e.OrderCancelled?)
    case ExpiredEntries => Ind(e.OrderExpired?)
    case SuccessEntries => Ind(e.RechargeSuccess? || e.SubscriptionSuccess?)
    case Units => if e.RefundRollbackFailed? || e.RefundSuccess? then e.units else 0
  }

  function LogCount(log: seq<Entry>, x: Kind): int {
    if log == [] then 0 else LogCount(log[..|log| - 1], x) + EntryCount(log[|log| - 1], x)
  }

  predicate HoldsRecharge(p: FulfillPc) {
    p.FulfillConfig? || p.FulfillRedeem? || p.FulfillComplete? || p.FulfillFail?
  }

  /** Between the platform taking the planned units and the audit log (or the platform again) saying so. */
  predicate InFlight(p: LockedPc) {
    p.Gateway? || p.NoTrade? || p.Rollback? || p.LogRollback? || p.Mark? || p.LogDone?
  }

  function FlightUnits(pc: Pc): int {
    if pc.AtLocked? && InFlight(pc.locked) then pc.locked.a.plan.units else 0
  }

  /** Taken by an attempt that ended in an error of which no entry tells: a commit of its own failed. */
  function UnrecordedUnits(pc: Pc): int {
    match pc
    case AtLocked(FailMark(a, cause)) => if Unrecorded(cause) then a.plan.units else 0
    case AtLocked(FailLog(a, cause, _)) => if Unrecorded(cause) then a.plan.units else 0
    case RefundOver(a, Errored(cause, _)) => if Unrecorded(cause) then a.plan.units else 0
    case _ => 0
  }

  /** The RECHARGING lock a worker holds, the entries it owes the log and the units it answers for. */
  function Share(j: Job, x: Kind): int {
    match x
    case RechargeHeld => Ind(j.pc.AtFulfill? && HoldsRecharge(j.pc.fulfill))
    case PaidEntries => Ind(j.pc.AtNotice? && j.pc.notice.NoticeLog?)
    case CancelledEntries => Ind(j.pc.AtCancel? && j.pc.cancel.CancelLog?)
    case ExpiredEntries => Ind(j.pc.AtSweep? && j.pc.sweep.SweepLog?)
    case SuccessEntries => Ind(j.pc.AtFulfill? && j.pc.fulfill.FulfillLog?)
    case Units => j.off + FlightUnits(j.pc) + UnrecordedUnits(j.pc)
  }

  function Give(j: Job, o: nat, x: Kind): int {
    if Target(j.pc) == Some(o) then Share(j, x) else 0
  }

  /** What the row and the platform show. */
  function Due(c: Cell, x: Kind): int {
    match x
    case RechargeHeld => Ind(c.row.status == Recharging)
    case PaidEntries => Ind(c.row.paidAt.Some?)
    case CancelledEntries => Ind(c.row.status == Cancelled)
    case ExpiredEntries => Ind(c.expiredBy.Some?)
    case SuccessEntries => Ind(c.row.completedAt.Some?)
    case Units => c.taken
  }

  /** The orders a sweep has still to look at. */
  function Todo(pc: Pc): seq<nat> {
    if pc.AtSweep? then pc.sweep.todo else []
  }

  // ---- facts about an order ----

  /** The most the gateway may send back: never more than was paid when a fee of a cent or more was charged. */
  ghost predicate GatewayBounded(c: Cell, cents: int) {
    && 0 < cents <= Expected(c.row) + 1
    && (c.quote > c.row.amountCents ==> cents <= Expected(c.row))
  }

  ghost predicate CreditOk(r: Row, credit: Credit) {
    && credit.user == r.user
    && (r.orderType == Balance ==> credit.cents == r.amountCents && credit.days == 0)
    && (r.orderType == Subscription ==> credit.cents == 0 && credit.days > 0)
  }

  /** A subscription is granted a positive number of days, a balance order none. */
  ghost predicate GrantOk(r: Row, grant: int) {
    if r.orderType == Balance then grant == 0 else grant > 0
  }

  /** A refunded row says how much of the order was refunded, and whether that is all of it. */
  ghost predicate RefundedOk(r: Row) {
    Phase(r.status) == 3 ==>
      && r.refundCents.Some? && 0 < r.refundCents.value <= r.amountCents
      && (r.status == Refunded <==> r.refundCents.value == r.amountCents)
  }

  /** What an entry of the audit log says is so, and stays so. */
  ghost predicate EntryOk(c: Cell, e: Entry) {
    match e
    case OrderPaid(previous, expected, paid) =>
      previous in {Pending, Expired} && expected == c.quote && c.row.paidAt.Some? && c.row.payAmountCents == Some(paid)
    case AmountMismatch(expected, paid) => paid > 0 && Abs(paid - expected) > 1 && Abs(expected - c.quote) <= 1
    case RechargeSuccess => c.row.orderType == Balance
    case SubscriptionSuccess(days) => c.row.orderType == Subscription && days > 0
    case RefundRequestedEntry(cents) => c.row.orderType == Balance && 0 < cents <= c.row.amountCents
    case RefundRollbackFailed(units) => units > 0
    case RefundSuccess(partial, cents, gatewayCents, _) =>
      0 < cents <= c.row.amountCents && (partial <==> cents < c.row.amountCents) && gatewayCents in c.gateway
    case _ => true
  }

  ghost predicate LogOk(c: Cell) {
    forall e :: e in c.log ==> EntryOk(c, e)
  }

  ghost predicate CellOk(v: View) {
    var c := v.cell;
    var r := c.row;
    && RowOk(r)
    && 0 < r.amountCents <= c.quote
    && Abs(Expected(r) - c.quote) <= 1 && 0 < Expected(r)
    && (r.paidAt.None? ==> Expected(r) == c.quote)
    && (r.status == Expired ==> c.expiredBy.Some?)
    && (c.expiredBy.Some? ==> r.status != Pending && r.status != Cancelled)
    && (Phase(r.status) >= 2 ==> v.credit.Some?)
    && (v.credit.Some? ==> Phase(r.status) >= 1 && CreditOk(r, v.credit.value))
    && (c.gateway != [] ==> Phase(r.status) >= 2)
    && (forall i :: 0 <= i < |c.gateway| ==> GatewayBounded(c, c.gateway[i]))
    && RefundedOk(r) && LogOk(c)
  }

  /** How one order may change over any stretch of a run. */
  ghost predicate ViewEvolves(v: View, w: View) {
    && Evolves(v.cell.row, w.cell.row)
    && w.cell.quote == v.cell.quote
    && v.cell.log <= w.cell.log
    && v.cell.gateway <= w.cell.gateway
    && (v.credit.Some? ==> w.credit == v.credit)
    && (v.cell.expiredBy.Some? || v.cell.row.paidAt.Some? ==> w.cell.expiredBy == v.cell.expiredBy)
  }

  lemma ViewEvolvesTransitive(u: View, v: View, w: View)
    requires RowOk(u.cell.row) && RowOk(v.cell.row) && RowOk(w.cell.row)
    requires ViewEvolves(u, v) && ViewEvolves(v, w)
    ensures ViewEvolves(u, w)
  {
    EvolvesTransitive(u.cell.row, v.cell.row, w.cell.row);
  }

  // ---- facts about a worker ----

  /** An earlier sight of the row, still worth what `Evolves` says. */
  ghost predicate Saw(v: View, snap: Row) {
    RowOk(snap) && Evolves(snap, v.cell.row)
  }

  ghost predicate CallerOk(o: nat, via: Caller) {
    via.ByNotice? ==> via.n.order == o && via.n.success && via.n.cents > 0
  }

  ghost predicate PlannedOk(v: View, snap: Row, cents: int, gatewayCents: int) {
    && Saw(v, snap) && Phase(snap.status) == 2
    && 0 < cents <= snap.amountCents
    && (gatewayCents == cents || (cents == snap.amountCents && gatewayCents == Expected(snap)))
  }

  ghost predicate AttemptOk(v: View, a: Attempt) {
    && PlannedOk(v, a.snap, a.cents, a.gatewayCents)
    && (a.snap.orderType == Balance ==> a.plan.units <= a.cents)
    && (a.snap.orderType == Subscription ==> a.plan.units <= Max(a.snap.days.GetOr(0), 0))
  }

  /** What a refund attempt reports to have taken, at each point of the program. */
  function Claimed(pc: Pc): int {
    match pc
    case AtLocked(p) =>
      if InFlight(p) || (OnErrorPath(p) && Kept(p.cause)) then p.a.plan.units else 0
    case RefundOver(a, ending) =>
      if ending.Finished? || (ending.Errored? && Kept(ending.cause)) then a.plan.units else 0
    case _ => 0
  }

  /** When a positive, successful notification for an existing order may be acknowledged. */
  ghost predicate AckOk(v: View, last: Option<Status>, late: Option<Window>) {
    && last.Some?
    && Reaches(last.value, v.cell.row.status)
    && (Phase(last.value) >= 2 || last.value == Cancelled ||
        (last.value == Expired && late.Some? &&
         late.value.updatedAt < late.value.nowTs - PAYMENT_CONFIRM_GRACE_SECONDS))
  }

  /** When an acknowledgement is due: nothing was paid, or the order was seen to need nothing more. */
  predicate AckDue(n: Notice, last: Option<Status>) {
    || !n.success
    || (last.Some? && (n.cents <= 0 || last.value in {Completed, Refunded, Expired, Cancelled}))
  }

  ghost predicate NoticeOk(v: View, p: NoticePc) {
    match p
    case NoticeRead(n, _) => n.success
    case NoticeMark(n, _, snap) => n.success && n.cents > 0 && Saw(v, snap) && Abs(n.cents - Expected(snap)) <= 1
    case NoticeMismatch(n, expected) =>
      n.success && n.cents > 0 && Abs(n.cents - expected) > 1 && Abs(expected - v.cell.quote) <= 1
    case NoticeLog(n, snap) =>
      && n.success && n.cents > 0 && Phase(v.cell.row.status) >= 1 && v.cell.row.payAmountCents == Some(n.cents)
      && snap.status in {Pending, Expired} && Expected(snap) == v.cell.quote
    case NoticeReread(n, nowTs, seen) =>
      n.success && n.cents > 0 && Saw(v, seen) && !CanMarkPaid(seen, nowTs - PAYMENT_CONFIRM_GRACE_SECONDS)
    case _ => true
  }

  ghost predicate FulfillOk(v: View, p: FulfillPc) {
    && CallerOk(p.o, p.via)
    && Phase(v.cell.row.status) >= 1
    && match p
       case FulfillLock(_, _, snap) => Saw(v, snap)
       case FulfillConfig(_, _, snap) => Saw(v, snap)
       case FulfillRedeem(_, _, snap, grant, _) => Saw(v, snap) && GrantOk(snap, grant)
       case FulfillComplete(_, _, snap, grant, _) => Saw(v, snap) && GrantOk(snap, grant) && v.credit.Some?
       case FulfillCompleteLost(_, _) => false
       case FulfillLog(_, _, snap, grant) => Saw(v, snap) && GrantOk(snap, grant) && Phase(v.cell.row.status) >= 2
       case _ => true
  }

  /** Past its first read a cancellation is by the user of the order, or by an administrator. */
  ghost predicate CancelOk(v: View, p: CancelPc) {
    !p.CancelRead? && p.user.Some? ==> v.cell.row.user == p.user.value
  }

  /** Past its first read a refund request is by the user, of a balance order, within its amount. */
  ghost predicate RequestOk(v: View, p: RequestPc) {
    var r := v.cell.row;
    !p.RequestRead? ==> r.user == p.user && r.orderType == Balance && 0 < p.cents <= r.amountCents
  }

  /** What the outcome of an operation says of its order. */
  ghost predicate OutcomeOk(v: View, about: Option<nat>, out: Outcome) {
    match out
    case Acked(ok, n, last, late) =>
      && about == Some(n.order)
      && (ok && n.success && n.cents > 0 ==> AckOk(v, last, late))
      && (AckDue(n, last) ==> ok) && (n.success && last.None? ==> !ok)
    case Retried => Phase(v.cell.row.status) >= 2
    case CancelTooLate => Phase(v.cell.row.status) >= 1
    case CancelDone => v.cell.row.status != Pending
    case Attached => v.cell.row.tradeNo.Some?
    case _ => true
  }

  ghost predicate RefundOk(v: View, p: RefundPc) {
    match p
    case RefundPlan(_, snap, cents, gatewayCents, _, _) => PlannedOk(v, snap, cents, gatewayCents)
    case RefundLock(o, a) => a.order == o && AttemptOk(v, a)
    case _ => true
  }

  ghost predicate PcOk(v: View, pc: Pc) {
    match pc
    case AtNotice(p) => NoticeOk(v, p)
    case AtFulfill(p) => FulfillOk(v, p)
    case AtAttach(p) => p.AttachLog? ==> v.cell.row.tradeNo.Some?
    case AtCancel(p) =>
      CancelOk(v, p) && (p.CancelLog? || p.CancelReread? ==> v.cell.row.status != Pending)
    case AtRequest(p) => RequestOk(v, p)
    case AtRetry(p) => !p.RetryRead? ==> Phase(v.cell.row.status) >= 1
    case AtSweep(p) => p.todo != []
    case AtRefund(p) => RefundOk(v, p)
    case AtLocked(p) =>
      && AttemptOk(v, p.a)
      && !p.NoTrade? && (p.Mark? ==> p.sent) && (p.Mark? || p.LogDone? ==> p.a.gatewayCents in v.cell.gateway)
      && (p.LogRollback? ==> p.a.plan.units > 0)
      && (OnErrorPath(p) && p.cause.NotRolledBack? ==> RefundRollbackFailed(p.a.plan.units) in v.cell.log)
    case RefundOver(a, ending) =>
      && AttemptOk(v, a)
      && (ending.Errored? && ending.cause.NotRolledBack? ==> RefundRollbackFailed(a.plan.units) in v.cell.log)
      && (ending.Undone? ==> RefundGatewayFailed in v.cell.log)
      && (ending.Finished? ==> a.gatewayCents in v.cell.gateway)
    case Done(about, out) => OutcomeOk(v, about, out)
    case _ => true
  }

  /** The attempt took what it claims, up to the platform's untruthful answers. */
  ghost predicate BooksOk(j: Job) {
    && j.applied == Claimed(j.pc) + j.off
    && ((!j.pc.AtLocked? || j.pc.locked.Deduct?) && !j.pc.RefundOver? ==> j.off == 0)
  }

  ghost predicate JobOk(v: View, j: Job) {
    PcOk(v, j.pc) && BooksOk(j)
  }

  /** What was true of a worker stays true while others work. */
  lemma JobOkStable(v: View, j: Job, w: View)
    requires CellOk(v) && CellOk(w) && JobOk(v, j) && ViewEvolves(v, w)
    ensures JobOk(w, j)
  {
    match j.pc
    case AtLocked(p) => LockedStable(v, p.a, w);
    case RefundOver(a, _) => LockedStable(v, a, w);
    case AtFulfill(p) => FulfillStable(v, p, w);
    case AtNotice(p) => NoticeStable(v, p, w);
    case AtRefund(p) => RefundStable(v, p, w);
    case Done(about, out) => OutcomeStable(v, about, out, w);
    case _ =>
  }

  lemma LockedStable(v: View, a: Attempt, w: View)
    requires CellOk(v) && CellOk(w) && AttemptOk(v, a) && ViewEvolves(v, w)
    ensures AttemptOk(w, a)
    ensures forall e: Entry :: e in v.cell.log ==> e in w.cell.log
    ensures forall cents: int :: cents in v.cell.gateway ==> cents in w.cell.gateway
  {
    SawStable(v, a.snap, w);
    hide CellOk, Saw, Evolves;
  }

  lemma FulfillStable(v: View, p: FulfillPc, w: View)
    requires CellOk(v) && CellOk(w) && FulfillOk(v, p) && ViewEvolves(v, w)
    ensures FulfillOk(w, p)
  {
    if p.FulfillLock? || p.FulfillConfig? || p.FulfillRedeem? || p.FulfillComplete? || p.FulfillLog? {
      SawStable(v, p.snap, w);
    }
    hide CellOk, Saw;
  }

  lemma NoticeStable(v: View, p: NoticePc, w: View)
    requires CellOk(v) && CellOk(w) && NoticeOk(v, p) && ViewEvolves(v, w)
    ensures NoticeOk(w, p)
  {
    match p
    case NoticeMark(_, _, snap) => SawStable(v, snap, w);
    case NoticeReread(_, _, seen) => SawStable(v, seen, w);
    case _ =>
    hide LogOk, GatewayBounded, Saw;
  }

  lemma RefundStable(v: View, p: RefundPc, w: View)
    requires CellOk(v) && CellOk(w) && RefundOk(v, p) && ViewEvolves(v, w)
    ensures RefundOk(w, p)
  {
    match p
    case RefundPlan(_, snap, _, _, _, _) => SawStable(v, snap, w);
    case RefundLock(_, a) => SawStable(v, a.snap, w);
    case _ =>
    hide CellOk, Saw;
  }

  lemma OutcomeStable(v: View, about: Option<nat>, out: Outcome, w: View)
    requires CellOk(v) && CellOk(w) && OutcomeOk(v, about, out) && ViewEvolves(v, w)
    ensures OutcomeOk(w, about, out)
  {
    hide LogOk, GatewayBounded;
  }

  lemma SawStable(v: View, snap: Row, w: View)
    requires CellOk(v) && CellOk(w) && Saw(v, snap) && ViewEvolves(v, w)
    ensures Saw(w, snap)
  {
    EvolvesTransitive(snap, v.cell.row, w.cell.row);
  }
}
