/**
 What each operation does when nobody else moves (src/order/service.rs): the row, the log, the platform's and the
 gateway's books and the answer it ends with, for every order and every input it accepts.

 Such a journey looks at one order only; `JourneysAreRuns` says that it is a run of the whole system.
 */
module Journeys {
  import opened Common
  import opened Orders
  import opened Protocol
  import opened Steps
  import opened Facts
  import opened Settle
  import opened World
  import opened Invariant
  import opened Validity
  import opened Transitions

  // ---- one worker alone with its order ----

  /** The order, the worker, and the balance of the user of the order. */
  datatype Stance = Stance(view: View, job: Job, balance: int)

  /** What third parties answer; everything else succeeds. */
  datatype Env = Env(trade: Option<string>, grant: Choice, redeem: Choice, balance: Choice, plan: Choice,
                     deduct: Choice, gateway: Choice, rollback: Choice)

  function Answer(env: Env, pc: Pc): Choice {
    match pc
    case AtAttach(CreatePay(_)) => if env.trade.Some? then Trade(env.trade.value) else Fails
    case AtFulfill(FulfillConfig(_, _, _)) => env.grant
    case AtFulfill(FulfillRedeem(_, _, _, _, _)) => env.redeem
    case AtRequest(RequestBalance(_, _, _)) => env.balance
    case AtRefund(RefundPlan(_, _, _, _, _, _)) => env.plan
    case AtLocked(Deduct(_)) => env.deduct
    case AtLocked(Gateway(_)) => env.gateway
    case AtLocked(Rollback(_)) => env.rollback
    case _ => Ok
  }

  function Leg(now: int, me: nat, env: Env, x: Stance): Stance {
    var (v, j) := LocalStep(now, x.balance, me, x.view, x.job, Answer(env, x.job.pc));
    var earned := if x.view.cell.row.orderType == Balance then OrderNet(v) - OrderNet(x.view) else 0;
    Stance(v, j, x.balance + earned)
  }

  ghost predicate IsPath(now: int, me: nat, env: Env, o: nat, p: seq<Stance>) {
    forall i {:trigger p[i]} :: 0 <= i < |p| - 1 ==>
      Target(p[i].job.pc) == Some(o) && p[i + 1] == Leg(now, me, env, p[i])
  }

  ghost predicate Leads(now: int, me: nat, env: Env, o: nat, x: Stance, y: Stance) {
    exists p :: |p| > 0 && p[0] == x && p[|p| - 1] == y && IsPath(now, me, env, o, p)
  }

  lemma Starts(now: int, me: nat, env: Env, o: nat, x: Stance)
    ensures Leads(now, me, env, o, x, x)
  {
    assert IsPath(now, me, env, o, [x]);
  }

  /** The journey goes on. */
  lemma Goes(now: int, me: nat, env: Env, o: nat, x: Stance, y: Stance) returns (z: Stance)
    requires Leads(now, me, env, o, x, y) && Target(y.job.pc) == Some(o)
    ensures z == Leg(now, me, env, y) && Leads(now, me, env, o, x, z)
  {
    hide Leg;
    z := Leg(now, me, env, y);
    var p :| |p| > 0 && p[0] == x && p[|p| - 1] == y && IsPath(now, me, env, o, p);
    var q := p + [z];
    assert IsPath(now, me, env, o, q);
    assert q[0] == x && q[|q| - 1] == z;
  }

  // ---- fulfillment ----

  /** How the operation that called the fulfillment ends. */
  function Ending(o: nat, via: Caller, ok: bool, last: Status): Pc {
    Done(Some(o), match via
                  case ByNotice(n) => Acked(ok, n, Some(last), None)
                  case ByCancel => CancelTooLate
                  case ByRetry => if ok then Retried else Refused)
  }

  /** The credit of an order: once given it stays. */
  function Credited(v: View, days: int): Credit {
    if v.credit.Some? then v.credit.value
    else
      var r := v.cell.row;
      Credit(r.user, if r.orderType == Balance then r.amountCents else 0, days)
  }

  function SuccessEntry(r: Row, days: int): Entry {
    if r.orderType == Balance then RechargeSuccess else SubscriptionSuccess(days)
  }

  /** A paid order is completed, credited if it was not, and the caller hears of success. */
  lemma Fulfills(now: int, me: nat, env: Env, o: nat, x: Stance, y: Stance, via: Caller, days: int) returns (z: Stance)
    requires Leads(now, me, env, o, x, y) && y.job.pc == AtFulfill(FulfillRead(o, via))
    requires y.view.cell.row.status in {Paid, Failed} && Grants(y.view.cell.row, env.grant, days) && env.redeem.Ok?
    ensures Leads(now, me, env, o, x, z) && z.job.pc == Ending(o, via, true, Completed)
    ensures var c := y.view.cell;
            && z.view.credit == Some(Credited(y.view, days))
            && z.view.cell == c.(row := c.row.(status := Completed, completedAt := Some(now), failedAt := None,
                                     updatedAt := now),
                               log := c.log + [SuccessEntry(c.row, days)])
  {
    hide Leads;
    z := LocksAndPlans(now, me, env, o, x, y, via, days);
    z := Goes(now, me, env, o, x, z);
    assert z.job.pc == AtFulfill(FulfillComplete(o, via, y.view.cell.row, days, now));
    z := Goes(now, me, env, o, x, z);
    assert z.job.pc == AtFulfill(FulfillLog(o, via, y.view.cell.row, days));
    z := Goes(now, me, env, o, x, z);
  }

  lemma LocksAndPlans(now: int, me: nat, env: Env, o: nat, x: Stance, y: Stance, via: Caller, days: int)
    returns (z: Stance)
    requires Leads(now, me, env, o, x, y) && y.job.pc == AtFulfill(FulfillRead(o, via))
    requires y.view.cell.row.status in {Paid, Failed} && Grants(y.view.cell.row, env.grant, days)
    ensures Leads(now, me, env, o, x, z)
    ensures z.job.pc == AtFulfill(FulfillRedeem(o, via, y.view.cell.row, days, now))
    ensures var c := y.view.cell;
            z.view == y.view.(cell := c.(row := c.row.(status := Recharging, updatedAt := now)))
  {
    hide Leads, RenewalDays;
    z := Goes(now, me, env, o, x, y);
    assert z.job.pc == AtFulfill(FulfillLock(o, via, y.view.cell.row));
    z := Goes(now, me, env, o, x, z);
    assert z.job.pc == AtFulfill(FulfillConfig(o, via, y.view.cell.row));
    z := Goes(now, me, env, o, x, z);
  }

  /** A fulfillment the platform refuses leaves a FAILED order on record; the caller hears of no success. */
  lemma FulfillmentFails(now: int, me: nat, env: Env, o: nat, x: Stance, y: Stance, via: Caller, days: int)
    returns (z: Stance)
    requires Leads(now, me, env, o, x, y) && y.job.pc == AtFulfill(FulfillRead(o, via))
    requires y.view.cell.row.status in {Paid, Failed} && Grants(y.view.cell.row, env.grant, days) && !env.redeem.Ok?
    ensures Leads(now, me, env, o, x, z) && z.job.pc == Ending(o, via, false, Failed)
    ensures var c := y.view.cell;
            && z.view.credit == (if env.redeem.Lost? then Some(Credited(y.view, days)) else y.view.credit)
            && z.view.cell == c.(row := c.row.(status := Failed, failedAt := Some(now), updatedAt := now),
                               log := c.log + [FulfillmentFailed])
  {
    hide Leads;
    z := LocksAndPlans(now, me, env, o, x, y, via, days);
    z := Goes(now, me, env, o, x, z);
    assert z.job.pc == AtFulfill(FulfillFail(o, via, now));
    z := Goes(now, me, env, o, x, z);
    assert z.job.pc == AtFulfill(FulfillLogFail(o, via));
    z := Goes(now, me, env, o, x, z);
  }

  /** One for which nothing can be granted ends alike, without asking the platform. */
  lemma FulfillmentUnplanned(now: int, me: nat, env: Env, o: nat, x: Stance, y: Stance, via: Caller)
    returns (z: Stance)
    requires Leads(now, me, env, o, x, y) && y.job.pc == AtFulfill(FulfillRead(o, via))
    requires y.view.cell.row.status in {Paid, Failed} && forall days :: !Grants(y.view.cell.row, env.grant, days)
    ensures Leads(now, me, env, o, x, z) && z.job.pc == Ending(o, via, false, Failed)
    ensures var c := y.view.cell;
            z.view == y.view.(cell := c.(row := c.row.(status := Failed, failedAt := Some(now), updatedAt := now),
                                         log := c.log + [FulfillmentFailed]))
  {
    hide Leads;
    z := Goes(now, me, env, o, x, y);
    assert z.job.pc == AtFulfill(FulfillLock(o, via, y.view.cell.row));
    z := Goes(now, me, env, o, x, z);
    assert z.job.pc == AtFulfill(FulfillConfig(o, via, y.view.cell.row));
    NothingGranted(y.view.cell.row, env.grant);
    z := Goes(now, me, env, o, x, z);
    assert z.job.pc == AtFulfill(FulfillFail(o, via, now));
    z := Goes(now, me, env, o, x, z);
    assert z.job.pc == AtFulfill(FulfillLogFail(o, via));
    z := Goes(now, me, env, o, x, z);
  }

  /** A fulfillment that finds nothing to do succeeds, unless another one is under way. */
  lemma FulfillmentFindsNothingToDo(now: int, me: nat, env: Env, o: nat, x: Stance, y: Stance, via: Caller)
    returns (z: Stance)
    requires Leads(now, me, env, o, x, y) && y.job.pc == AtFulfill(FulfillRead(o, via))
    requires y.view.cell.row.status !in {Paid, Failed}
    ensures Leads(now, me, env, o, x, z) && z.view == y.view
    ensures var status := y.view.cell.row.status; z.job.pc == Ending(o, via, status != Recharging, status)
  {
    hide Leads;
    z := Goes(now, me, env, o, x, y);
  }

  /** One that lost the lock succeeds if the order was fulfilled or refunded in full in the meantime. */
  lemma FulfillmentLosesLock(now: int, me: nat, env: Env, o: nat, x: Stance, y: Stance, via: Caller, snap: Row)
    returns (z: Stance)
    requires Leads(now, me, env, o, x, y) && y.job.pc == AtFulfill(FulfillLock(o, via, snap))
    requires y.view.cell.row.status !in {Paid, Failed}
    ensures Leads(now, me, env, o, x, z) && z.view == y.view
    ensures var status := y.view.cell.row.status;
            z.job.pc == Ending(o, via, status in {Completed, Refunded}, status)
  {
    hide Leads;
    z := Goes(now, me, env, o, x, y);
    assert z.job.pc == AtFulfill(FulfillLockLost(o, via));
    z := FulfillmentReadsAgain(now, me, env, o, x, z, via);
  }

  lemma FulfillmentReadsAgain(now: int, me: nat, env: Env, o: nat, x: Stance, y: Stance, via: Caller)
    returns (z: Stance)
    requires Leads(now, me, env, o, x, y) && y.job.pc == AtFulfill(FulfillLockLost(o, via))
    ensures Leads(now, me, env, o, x, z) && z.view == y.view
    ensures var status := y.view.cell.row.status;
            z.job.pc == Ending(o, via, status in {Completed, Refunded}, status)
  {
    hide Leads;
    z := Goes(now, me, env, o, x, y);
  }

  lemma CompletionReadsAgain(now: int, me: nat, env: Env, o: nat, x: Stance, y: Stance, via: Caller)
    returns (z: Stance)
    requires Leads(now, me, env, o, x, y) && y.job.pc == AtFulfill(FulfillCompleteLost(o, via))
    ensures Leads(now, me, env, o, x, z) && z.view == y.view
    ensures var status := y.view.cell.row.status; z.job.pc == Ending(o, via, status == Completed, status)
  {
    hide Leads;
    z := Goes(now, me, env, o, x, y);
  }

  lemma NothingGranted(r: Row, c: Choice)
    requires forall days :: !Grants(r, c, days)
    ensures GrantedDays(r, c).None?
  {
    if GrantedDays(r, c).Some? {
      assert Grants(r, c, GrantedDays(r, c).value);
    }
  }

  // ---- notifications ----

  function Setting(v: View, pc: Pc, balance: int): Stance {
    Stance(v, Job(pc, true, 0, 0), balance)
  }

  function Noticed(v: View, n: Notice, balance: int): Stance {
    Setting(v, AtNotice(NoticeStart(n)), balance)
  }

  /** The row after the payment of `n` was confirmed. */
  function PaidCell(c: Cell, n: Notice, now: int): Cell {
    c.(row := c.row.(status := Paid, payAmountCents := Some(n.cents), tradeNo := Some(n.trade), paidAt := Some(now),
                     failedAt := None, updatedAt := now),
       log := c.log + [OrderPaid(c.row.status, c.quote, n.cents)])
  }

  lemma PaymentConfirmed(now: int, me: nat, env: Env, v: View, balance: int, n: Notice) returns (z: Stance)
    requires CellOk(v) && Confirms(v, n, now)
    ensures Leads(now, me, env, n.order, Noticed(v, n, balance), z)
    ensures z.job.pc == AtFulfill(FulfillRead(n.order, ByNotice(n))) && z.view == v.(cell := PaidCell(v.cell, n, now))
  {
    var x := Noticed(v, n, balance);
    Starts(now, me, env, n.order, x);
    hide Leads;
    z := Goes(now, me, env, n.order, x, x);
    assert z.job.pc == AtNotice(NoticeRead(n, now));
    z := Goes(now, me, env, n.order, x, z);
    assert z.job.pc == AtNotice(NoticeMark(n, now, v.cell.row));
    z := Goes(now, me, env, n.order, x, z);
    assert z.job.pc == AtNotice(NoticeLog(n, v.cell.row));
    z := Goes(now, me, env, n.order, x, z);
  }

  /**
   A notification of the right amount for an order that is pending, or expired within the last five minutes: the
   order is paid, completed and credited, and the notification acknowledged.
   */
  lemma NotificationCompletes(now: int, me: nat, env: Env, v: View, balance: int, n: Notice, days: int)
    returns (z: Stance)
    requires CellOk(v) && Confirms(v, n, now) && Grants(v.cell.row, env.grant, days) && env.redeem.Ok?
    ensures Leads(now, me, env, n.order, Noticed(v, n, balance), z)
    ensures z.job.pc == Done(Some(n.order), Acked(true, n, Some(Completed), None))
    ensures var (c, r) := (v.cell, v.cell.row);
            && z.view.credit == Some(Credit(r.user, if r.orderType == Balance then r.amountCents else 0, days))
            && z.view.cell == c.(row := r.(status := Completed, payAmountCents := Some(n.cents),
                                           tradeNo := Some(n.trade), paidAt := Some(now), completedAt := Some(now),
                                           failedAt := None, updatedAt := now),
                               log := c.log + [OrderPaid(r.status, c.quote, n.cents)] + [SuccessEntry(r, days)])
  {
    hide Leads;
    z := PaymentConfirmed(now, me, env, v, balance, n);
    z := Fulfills(now, me, env, n.order, Noticed(v, n, balance), z, ByNotice(n), days);
  }

  /** If the platform refuses, the order is paid and FAILED, and the notification not acknowledged. */
  lemma NotificationFails(now: int, me: nat, env: Env, v: View, balance: int, n: Notice, days: int)
    returns (z: Stance)
    requires CellOk(v) && Confirms(v, n, now) && Grants(v.cell.row, env.grant, days) && !env.redeem.Ok?
    ensures Leads(now, me, env, n.order, Noticed(v, n, balance), z)
    ensures z.job.pc == Done(Some(n.order), Acked(false, n, Some(Failed), None))
    ensures var (c, r) := (v.cell, v.cell.row);
            && (z.view.credit.Some? <==> env.redeem.Lost?)
            && z.view.cell == c.(row := r.(status := Failed, payAmountCents := Some(n.cents), tradeNo := Some(n.trade),
                                           paidAt := Some(now), failedAt := Some(now), updatedAt := now),
                               log := c.log + [OrderPaid(r.status, c.quote, n.cents)] + [FulfillmentFailed])
  {
    hide Leads;
    z := PaymentConfirmed(now, me, env, v, balance, n);
    z := FulfillmentFails(now, me, env, n.order, Noticed(v, n, balance), z, ByNotice(n), days);
  }

  /** What the notification finds in the row it read after its mark was refused. */
  lemma PaymentRefused(now: int, me: nat, env: Env, v: View, balance: int, n: Notice) returns (z: Stance)
    requires n.success && n.cents > 0 && Abs(n.cents - Expected(v.cell.row)) <= 1
    requires v.cell.row.status != Pending && (v.cell.row.status == Expired ==> now - v.cell.row.updatedAt > 5 * 60)
    ensures Leads(now, me, env, n.order, Noticed(v, n, balance), z)
    ensures z.job.pc == AtNotice(NoticeReread(n, now, v.cell.row)) && z.view == v
  {
    var x := Noticed(v, n, balance);
    Starts(now, me, env, n.order, x);
    hide Leads;
    z := Goes(now, me, env, n.order, x, x);
    assert z.job.pc == AtNotice(NoticeRead(n, now));
    z := Goes(now, me, env, n.order, x, z);
    assert z.job.pc == AtNotice(NoticeMark(n, now, v.cell.row));
    z := Goes(now, me, env, n.order, x, z);
  }

  /** A repeated notification for an order paid but not fulfilled fulfills it. */
  lemma RepeatedNotificationCompletes(now: int, me: nat, env: Env, v: View, balance: int, n: Notice, days: int)
    returns (z: Stance)
    requires n.success && n.cents > 0 && Abs(n.cents - Expected(v.cell.row)) <= 1
    requires v.cell.row.status in {Paid, Failed} && Grants(v.cell.row, env.grant, days) && env.redeem.Ok?
    ensures Leads(now, me, env, n.order, Noticed(v, n, balance), z)
    ensures z.job.pc == Done(Some(n.order), Acked(true, n, Some(Completed), None))
    ensures var (c, r) := (v.cell, v.cell.row);
            && z.view.credit == Some(Credited(v, days))
            && z.view.cell == c.(row := r.(status := Completed, completedAt := Some(now), failedAt := None,
                                           updatedAt := now),
                               log := c.log + [SuccessEntry(r, days)])
  {
    hide Leads;
    z := PaymentRefused(now, me, env, v, balance, n);
    z := Goes(now, me, env, n.order, Noticed(v, n, balance), z);
    z := Fulfills(now, me, env, n.order, Noticed(v, n, balance), z, ByNotice(n), days);
  }

  /** One for an order that needs nothing more is acknowledged, one for an order being fulfilled is not yet. */
  lemma NotificationFindsNothingToDo(now: int, me: nat, env: Env, v: View, balance: int, n: Notice) returns (z: Stance)
    requires n.success && n.cents > 0 && Abs(n.cents - Expected(v.cell.row)) <= 1
    requires v.cell.row.status !in {Pending, Paid, Failed}
    requires v.cell.row.status == Expired ==> now - v.cell.row.updatedAt > 5 * 60
    ensures Leads(now, me, env, n.order, Noticed(v, n, balance), z) && z.view == v
    ensures z.job.pc.Done? && z.job.pc.out.Acked? && z.job.pc.out.n == n && z.job.pc.out.last == Some(v.cell.row.status)
    ensures z.job.pc.out.ok <==> v.cell.row.status != Recharging
  {
    hide Leads;
    var x := Noticed(v, n, balance);
    z := PaymentRefused(now, me, env, v, balance, n);
    z := Goes(now, me, env, n.order, x, z);
    if v.cell.row.status == Recharging {
      assert z.job.pc == AtFulfill(FulfillRead(n.order, ByNotice(n)));
      z := Goes(now, me, env, n.order, x, z);
    }
  }

  /** A wrong amount is put on record and refused; what is not a payment is acknowledged. */
  lemma NotificationIsNoPayment(now: int, me: nat, env: Env, v: View, balance: int, n: Notice) returns (z: Stance)
    requires !n.success || n.cents <= 0 || Abs(n.cents - Expected(v.cell.row)) > 1
    ensures Leads(now, me, env, n.order, Noticed(v, n, balance), z)
    ensures z.job.pc.Done? && z.job.pc.out.Acked? && z.job.pc.out.n == n
    ensures var mismatch := n.success && n.cents > 0;
            && (z.job.pc.out.ok <==> !mismatch)
            && z.view == if mismatch
               then v.(cell := v.cell.(log := v.cell.log + [AmountMismatch(Expected(v.cell.row), n.cents)]))
               else v
  {
    var x := Noticed(v, n, balance);
    Starts(now, me, env, n.order, x);
    hide Leads;
    z := Goes(now, me, env, n.order, x, x);
    if n.success {
      assert z.job.pc == AtNotice(NoticeRead(n, now));
      z := Goes(now, me, env, n.order, x, z);
      if n.cents > 0 {
        assert z.job.pc == AtNotice(NoticeMismatch(n, Expected(v.cell.row)));
        z := Goes(now, me, env, n.order, x, z);
      }
    }
  }

  // ---- cancellation ----

  function Cancelling(v: View, o: nat, user: Option<int>, balance: int): Stance {
    Setting(v, AtCancel(CancelRead(o, user)), balance)
  }

  /** A pending order is cancelled by its user or by an administrator, and by nobody else; nothing else changes. */
  lemma CancelExactly(now: int, me: nat, env: Env, o: nat, v: View, user: Option<int>, balance: int)
    returns (z: Stance)
    ensures Leads(now, me, env, o, Cancelling(v, o, user, balance), z)
    ensures var (c, r) := (v.cell, v.cell.row);
            if r.status == Pending && (user.Some? ==> user.value == r.user) then
              && z.job.pc == Done(Some(o), CancelDone)
              && z.view == v.(cell := c.(row := r.(status := Cancelled, updatedAt := now),
                                         log := c.log + [OrderCancelled]))
            else z.job.pc == Done(Some(o), Refused) && z.view == v
  {
    var x := Cancelling(v, o, user, balance);
    Starts(now, me, env, o, x);
    hide Leads;
    z := Goes(now, me, env, o, x, x);
    if v.cell.row.status == Pending && (user.Some? ==> user.value == v.cell.row.user) {
      assert z.job.pc == AtCancel(CancelMark(o, user));
      z := Goes(now, me, env, o, x, z);
      assert z.job.pc == AtCancel(CancelLog(o, user));
      z := Goes(now, me, env, o, x, z);
    }
  }

  /** A cancellation that lost to a payment fulfills the order and says that it came too late. */
  lemma CancelLostToPayment(now: int, me: nat, env: Env, o: nat, x: Stance, user: Option<int>, days: int)
    returns (z: Stance)
    requires x.job.pc == AtCancel(CancelReread(o, user)) && x.view.cell.row.status in {Paid, Failed}
    requires Grants(x.view.cell.row, env.grant, days) && env.redeem.Ok?
    ensures Leads(now, me, env, o, x, z) && z.job.pc == Done(Some(o), CancelTooLate)
    ensures var (c, r) := (x.view.cell, x.view.cell.row);
            && z.view.credit == Some(Credited(x.view, days))
            && z.view.cell == c.(row := r.(status := Completed, completedAt := Some(now), failedAt := None,
                                           updatedAt := now),
                               log := c.log + [SuccessEntry(r, days)])
  {
    Starts(now, me, env, o, x);
    hide Leads;
    z := Goes(now, me, env, o, x, x);
    z := Fulfills(now, me, env, o, x, z, ByCancel, days);
  }

  /** After a lost race a user's cancellation looks into every paid order, an administrator's into unfulfilled ones. */
  lemma CancelLooksAgain(now: int, me: nat, env: Env, o: nat, x: Stance, user: Option<int>) returns (z: Stance)
    requires x.job.pc == AtCancel(CancelMark(o, user)) && x.view.cell.row.status != Pending
    ensures Leads(now, me, env, o, x, z) && z.view == x.view
    ensures var paid := {Paid, Failed} + if user.Some? then {Recharging, Completed, Refunded} else {};
            z.job.pc == AtFulfill(FulfillRead(o, ByCancel)) <==> x.view.cell.row.status in paid
  {
    Starts(now, me, env, o, x);
    hide Leads;
    z := Goes(now, me, env, o, x, x);
    assert z.job.pc == AtCancel(CancelReread(o, user));
    z := Goes(now, me, env, o, x, z);
  }

  /** One that lost otherwise changes nothing; it is too late if the order is being fulfilled, is, or was refunded. */
  lemma CancelLostOtherwise(now: int, me: nat, env: Env, o: nat, x: Stance, user: Option<int>) returns (z: Stance)
    requires x.job.pc == AtCancel(CancelReread(o, user)) && x.view.cell.row.status !in {Paid, Failed}
    ensures Leads(now, me, env, o, x, z) && z.view == x.view
    ensures z.job.pc == Done(Some(o), if x.view.cell.row.status in {Recharging, Completed, Refunded}
                                      then CancelTooLate else CancelDone)
  {
    Starts(now, me, env, o, x);
    hide Leads;
    z := Goes(now, me, env, o, x, x);
    if z.job.pc.AtFulfill? {
      z := Goes(now, me, env, o, x, z);
    }
  }

  // ---- retries ----

  function Retrying(v: View, o: nat, balance: int): Stance {
    Setting(v, AtRetry(RetryRead(o)), balance)
  }

  /** A paid order that is FAILED or PAID is reset to be fulfilled again; any other is refused. */
  lemma RetryResets(now: int, me: nat, env: Env, o: nat, v: View, balance: int) returns (z: Stance)
    ensures Leads(now, me, env, o, Retrying(v, o, balance), z)
    ensures var (c, r) := (v.cell, v.cell.row);
            if r.paidAt.Some? && r.status in {Paid, Failed} then
              && z.job.pc == AtFulfill(FulfillRead(o, ByRetry))
              && z.view == v.(cell := c.(row := r.(status := Paid, failedAt := None, updatedAt := now),
                                         log := c.log + [RechargeRetry]))
            else z.job.pc == Done(Some(o), Refused) && z.view == v
  {
    var x := Retrying(v, o, balance);
    Starts(now, me, env, o, x);
    hide Leads;
    z := Goes(now, me, env, o, x, x);
    if v.cell.row.paidAt.Some? && v.cell.row.status in {Paid, Failed} {
      assert z.job.pc == AtRetry(RetryReset(o));
      z := Goes(now, me, env, o, x, z);
      assert z.job.pc == AtRetry(RetryLog(o));
      z := Goes(now, me, env, o, x, z);
    }
  }

  /** A retry completes such an order, credits it if it was not, and reports success. */
  lemma RetryCompletes(now: int, me: nat, env: Env, o: nat, v: View, balance: int, days: int) returns (z: Stance)
    requires v.cell.row.paidAt.Some? && v.cell.row.status in {Paid, Failed}
    requires Grants(v.cell.row, env.grant, days) && env.redeem.Ok?
    ensures Leads(now, me, env, o, Retrying(v, o, balance), z) && z.job.pc == Done(Some(o), Retried)
    ensures var (c, r) := (v.cell, v.cell.row);
            && z.view.credit == Some(Credited(v, days))
            && z.view.cell == c.(row := r.(status := Completed, completedAt := Some(now), failedAt := None,
                                           updatedAt := now),
                               log := c.log + [RechargeRetry] + [SuccessEntry(r, days)])
  {
    hide Leads;
    z := RetryResets(now, me, env, o, v, balance);
    z := Fulfills(now, me, env, o, Retrying(v, o, balance), z, ByRetry, days);
  }

  /** One that the platform refuses reports no success. */
  lemma RetryFails(now: int, me: nat, env: Env, o: nat, v: View, balance: int, days: int) returns (z: Stance)
    requires v.cell.row.paidAt.Some? && v.cell.row.status in {Paid, Failed}
    requires Grants(v.cell.row, env.grant, days) && !env.redeem.Ok?
    ensures Leads(now, me, env, o, Retrying(v, o, balance), z) && z.job.pc == Done(Some(o), Refused)
    ensures z.view.cell.row.status == Failed && z.view.cell.log == v.cell.log + [RechargeRetry] + [FulfillmentFailed]
  {
    hide Leads;
    z := RetryResets(now, me, env, o, v, balance);
    z := FulfillmentFails(now, me, env, o, Retrying(v, o, balance), z, ByRetry, days);
  }

  // ---- payment details ----

  /** A created order gets its trade number, and both entries. */
  lemma AttachCompletes(now: int, me: nat, env: Env, o: nat, v: View, balance: int) returns (z: Stance)
    requires env.trade.Some?
    ensures Leads(now, me, env, o, Setting(v, AtAttach(CreateLog(o)), balance), z)
    ensures z.job.pc == Done(Some(o), Attached)
    ensures var c := v.cell;
            z.view == v.(cell := c.(row := c.row.(tradeNo := env.trade, updatedAt := now),
                                    log := c.log + [OrderCreated] + [PaymentCreated]))
  {
    var x := Setting(v, AtAttach(CreateLog(o)), balance);
    Starts(now, me, env, o, x);
    hide Leads;
    z := Goes(now, me, env, o, x, x);
    assert z.job.pc == AtAttach(CreatePay(o));
    z := Goes(now, me, env, o, x, z);
    assert z.job.pc == AtAttach(AttachMark(o, env.trade.value));
    z := Goes(now, me, env, o, x, z);
    assert z.job.pc == AtAttach(AttachLog(o));
    z := Goes(now, me, env, o, x, z);
  }

  /** If no payment is created the program ends; that the order is then deleted is not part of this model. */
  lemma AttachFails(now: int, me: nat, env: Env, o: nat, v: View, balance: int) returns (z: Stance)
    requires env.trade.None?
    ensures Leads(now, me, env, o, Setting(v, AtAttach(CreateLog(o)), balance), z)
    ensures z.job.pc == Done(Some(o), Refused)
    ensures z.view == v.(cell := v.cell.(log := v.cell.log + [OrderCreated]))
  {
    var x := Setting(v, AtAttach(CreateLog(o)), balance);
    Starts(now, me, env, o, x);
    hide Leads;
    z := Goes(now, me, env, o, x, x);
    assert z.job.pc == AtAttach(CreatePay(o));
    z := Goes(now, me, env, o, x, z);
  }

  // ---- refund requests ----

  /** A request is recorded exactly for a completed balance order of the user, within its amount and the balance. */
  lemma RequestExactly(now: int, me: nat, env: Env, o: nat, v: View, user: int, cents: int, balance: int)
    returns (z: Stance)
    ensures Leads(now, me, env, o, Setting(v, AtRequest(RequestRead(o, user, cents)), balance), z)
    ensures var (c, r) := (v.cell, v.cell.row);
            if r.user == user && r.orderType == Balance && r.status == Completed && 0 < cents <= r.amountCents &&
               env.balance.Ok? && balance >= cents
            then
              && z.job.pc == Done(Some(o), Requested)
              && z.view == v.(cell := c.(row := r.(status := RefundRequested, refundCents := Some(cents),
                                                   updatedAt := now),
                                         log := c.log + [RefundRequestedEntry(cents)]))
            else z.job.pc == Done(Some(o), Refused) && z.view == v
  {
    var x := Setting(v, AtRequest(RequestRead(o, user, cents)), balance);
    var r := v.cell.row;
    Starts(now, me, env, o, x);
    hide Leads;
    z := Goes(now, me, env, o, x, x);
    if r.user == user && r.orderType == Balance && r.status == Completed && 0 < cents <= r.amountCents {
      assert z.job.pc == AtRequest(RequestBalance(o, user, cents));
      z := Goes(now, me, env, o, x, z);
      if env.balance.Ok? && balance >= cents {
        assert z.job.pc == AtRequest(RequestMark(o, user, cents));
        z := Goes(now, me, env, o, x, z);
        assert z.job.pc == AtRequest(RequestLog(o, user, cents));
        z := Goes(now, me, env, o, x, z);
      }
    }
  }

  // ---- refunds ----

  /** The inputs of a refund: an amount or everything, whether to force it, whether to deduct. */
  datatype Ask = Ask(amount: Option<int>, force: bool, deduct: bool)

  function Asking(v: View, o: nat, ask: Ask, balance: int): Stance {
    Setting(v, AtRefund(RefundRead(o, ask.amount, ask.force, ask.deduct)), balance)
  }

  function AskedCents(r: Row, ask: Ask): int {
    if ask.amount.Some? then ask.amount.value else r.amountCents
  }

  predicate Askable(r: Row, ask: Ask) {
    r.status in {Completed, RefundRequested, RefundFailed} && 0 < AskedCents(r, ask) <= r.amountCents
  }

  /** A full refund sends back what was paid, one of an amount that amount. */
  function SentCents(r: Row, ask: Ask): int {
    if ask.amount.Some? then ask.amount.value
    else if r.payAmountCents.Some? then r.payAmountCents.value else r.amountCents
  }

  /**
   What the platform's answer lets a refund deduct: of money the least of the refund and the balance, of a
   subscription the least of the days sold and the days left; nothing where nothing is to be deducted, where there is
   no subscription, or where the platform did not answer and the refund is forced.
   */
  ghost predicate Deducts(r: Row, ask: Ask, balance: int, c: Choice, units: int) {
    && !c.Unconfigured?
    && if !ask.deduct then units == 0
       else if r.orderType == Balance then
         if c.Ok? then units == Min(AskedCents(r, ask), Max(balance, 0)) else ask.force && units == 0
       else if r.groupId.None? || r.days.None? || c.NoSubscription? then units == 0
       else if c.ActiveSubscription? then units == Max(Min(r.days.value, c.remaining), 0)
       else c.Fails? && ask.force && units == 0
  }

  /** The platform did not say what could be deducted, and the refund is not forced. */
  predicate Unknown(r: Row, ask: Ask, c: Choice) {
    && ask.deduct && !ask.force && !c.Unconfigured?
    && if r.orderType == Balance then !c.Ok? else r.groupId.Some? && r.days.Some? && c.Fails?
  }

  /** A refund that is asked for in vain changes nothing: it is refused, or to be forced. */
  lemma RefundRefused(now: int, me: nat, env: Env, o: nat, v: View, ask: Ask, balance: int) returns (z: Stance)
    requires !Askable(v.cell.row, ask) || forall units :: !Deducts(v.cell.row, ask, balance, env.plan, units)
    ensures Leads(now, me, env, o, Asking(v, o, ask, balance), z) && z.view == v
    ensures z.job.pc == Done(Some(o), if Askable(v.cell.row, ask) && Unknown(v.cell.row, ask, env.plan)
                                      then NeedsForce else Refused)
  {
    var x := Asking(v, o, ask, balance);
    var r := v.cell.row;
    Starts(now, me, env, o, x);
    hide Leads;
    z := Goes(now, me, env, o, x, x);
    if Askable(r, ask) {
      assert z.job.pc == AtRefund(RefundPlan(o, r, AskedCents(r, ask), SentCents(r, ask), ask.force, ask.deduct));
      PlanFailsExactly(r, ask, balance, env.plan);
      hide PrepareDeduction, Deducts;
      z := Goes(now, me, env, o, x, z);
    }
  }

  lemma PlanFailsExactly(r: Row, ask: Ask, balance: int, c: Choice)
    requires Askable(r, ask) && forall units :: !Deducts(r, ask, balance, c, units)
    ensures c.Unconfigured? || (!PrepareDeduction(r, AskedCents(r, ask), ask.force, ask.deduct, balance, c).Planned? &&
              (PrepareDeduction(r, AskedCents(r, ask), ask.force, ask.deduct, balance, c).PlanUnavailable? <==>
               Unknown(r, ask, c)))
    ensures c.Unconfigured? ==> !Unknown(r, ask, c)
  {
    var p := PrepareDeduction(r, AskedCents(r, ask), ask.force, ask.deduct, balance, c);
    if p.Planned? && !c.Unconfigured? {
      assert Deducts(r, ask, balance, c, p.plan.units);
    }
  }

  /** The attempt that gets the lock. */
  function AttemptFor(o: nat, r: Row, ask: Ask, units: nat, sub: Option<int>): Attempt {
    Attempt(o, r, AskedCents(r, ask), SentCents(r, ask), Plan(units, sub))
  }

  lemma RefundLocks(now: int, me: nat, env: Env, o: nat, v: View, ask: Ask, balance: int, units: nat)
    returns (z: Stance, a: Attempt)
    requires Askable(v.cell.row, ask) && Deducts(v.cell.row, ask, balance, env.plan, units)
    ensures Leads(now, me, env, o, Asking(v, o, ask, balance), z)
    ensures a.order == o && a.snap == v.cell.row && a.cents == AskedCents(v.cell.row, ask)
    ensures a.gatewayCents == SentCents(v.cell.row, ask) && a.plan.units == units
    ensures z.job == Job(AtLocked(Deduct(a)), true, 0, 0)
    ensures var c := v.cell; z.view == v.(cell := c.(row := c.row.(status := Refunding, updatedAt := now)))
  {
    var x := Asking(v, o, ask, balance);
    var r := v.cell.row;
    Starts(now, me, env, o, x);
    hide Leads;
    z := Goes(now, me, env, o, x, x);
    assert z.job.pc == AtRefund(RefundPlan(o, r, AskedCents(r, ask), SentCents(r, ask), ask.force, ask.deduct));
    var sub := PlanIsDeducted(r, ask, balance, env.plan, units);
    hide PrepareDeduction, Deducts;
    a := AttemptFor(o, r, ask, units, sub);
    z := Goes(now, me, env, o, x, z);
    assert z.job.pc == AtRefund(RefundLock(o, a));
    z := Goes(now, me, env, o, x, z);
  }

  lemma PlanIsDeducted(r: Row, ask: Ask, balance: int, c: Choice, units: nat) returns (sub: Option<int>)
    requires Askable(r, ask) && Deducts(r, ask, balance, c, units)
    ensures !c.Unconfigured?
    ensures PrepareDeduction(r, AskedCents(r, ask), ask.force, ask.deduct, balance, c) == Planned(Plan(units, sub))
  {
    sub := PrepareDeduction(r, AskedCents(r, ask), ask.force, ask.deduct, balance, c).plan.sub;
  }

  /** The platform's books after a deduction that it grants: nothing is taken under a key of the same second. */
  function Taken(c: Cell, units: nat, now: int): (d: Cell)
    ensures d == c.(taken := d.taken, subtracted := d.subtracted)
  {
    if units == 0 || now in c.subtracted then c
    else c.(taken := c.taken + units, subtracted := c.subtracted + {now})
  }

  function GivenBack(c: Cell, units: nat, now: int): (d: Cell)
    ensures d == c.(taken := d.taken, added := d.added)
  {
    if units == 0 || now in c.added then c
    else c.(taken := c.taken - units, added := c.added + {now})
  }

  lemma RefundDeducts(now: int, me: nat, env: Env, o: nat, v: View, ask: Ask, balance: int, units: nat)
    returns (z: Stance, a: Attempt)
    requires Askable(v.cell.row, ask) && Deducts(v.cell.row, ask, balance, env.plan, units)
    requires v.cell.row.tradeNo.Some? && (units > 0 ==> env.deduct.Ok?)
    ensures Leads(now, me, env, o, Asking(v, o, ask, balance), z)
    ensures a.order == o && a.snap == v.cell.row && a.cents == AskedCents(v.cell.row, ask)
    ensures a.gatewayCents == SentCents(v.cell.row, ask) && a.plan.units == units
    ensures z.job.pc == AtLocked(Gateway(a)) && z.job.alive && z.job.applied == z.view.cell.taken - v.cell.taken
    ensures var c := Taken(v.cell, units, now);
            z.view == v.(cell := c.(row := c.row.(status := Refunding, updatedAt := now)))
  {
    var x := Asking(v, o, ask, balance);
    hide Leads, Deducts;
    z, a := RefundLocks(now, me, env, o, v, ask, balance, units);
    z := Goes(now, me, env, o, x, z);
  }

  /**
   A refund that nobody refuses: the planned units are taken, the gateway sends the money back, and the order is
   REFUNDED if that was all of it, PARTIALLY_REFUNDED if not.
   */
  lemma RefundSucceeds(now: int, me: nat, env: Env, o: nat, v: View, ask: Ask, balance: int, units: nat)
    returns (z: Stance, a: Attempt)
    requires Askable(v.cell.row, ask) && Deducts(v.cell.row, ask, balance, env.plan, units)
    requires v.cell.row.tradeNo.Some? && (units > 0 ==> env.deduct.Ok?) && env.gateway.Ok?
    ensures Leads(now, me, env, o, Asking(v, o, ask, balance), z)
    ensures z.job.pc == RefundOver(a, Finished) && a.order == o && a.plan.units == units
    ensures var (c, r, cents) := (Taken(v.cell, units, now), v.cell.row, AskedCents(v.cell.row, ask));
            z.view == v.(cell := c.(
              row := r.(status := if cents == r.amountCents then Refunded else PartiallyRefunded,
                        refundCents := Some(cents), failedAt := None, updatedAt := now),
              gateway := c.gateway + [SentCents(r, ask)],
              log := c.log + [RefundSuccess(cents != r.amountCents, cents, SentCents(r, ask), units)]))
  {
    var x := Asking(v, o, ask, balance);
    hide Leads, Deducts, Taken;
    z, a := RefundDeducts(now, me, env, o, v, ask, balance, units);
    z := Goes(now, me, env, o, x, z);
    assert z.job.pc == AtLocked(Mark(a, true));
    z := Goes(now, me, env, o, x, z);
    assert z.job.pc == AtLocked(LogDone(a));
    z := Goes(now, me, env, o, x, z);
  }

  /**
   One that the gateway refuses: the units are given back and the order is what it was, except that one whose last
   refund failed is COMPLETED again.
   */
  lemma RefundUndone(now: int, me: nat, env: Env, o: nat, v: View, ask: Ask, balance: int, units: nat)
    returns (z: Stance, a: Attempt)
    requires Askable(v.cell.row, ask) && Deducts(v.cell.row, ask, balance, env.plan, units)
    requires v.cell.row.tradeNo.Some? && (units > 0 ==> env.deduct.Ok? && env.rollback.Ok?)
    requires !env.gateway.Ok? && !env.gateway.Lost?
    ensures Leads(now, me, env, o, Asking(v, o, ask, balance), z)
    ensures z.job.pc == RefundOver(a, Undone) && a.order == o && a.plan.units == units
    ensures var (c, r) := (GivenBack(Taken(v.cell, units, now), units, now), v.cell.row);
            z.view == v.(cell := c.(
              row := r.(status := if r.status == RefundRequested then RefundRequested else Completed,
                        failedAt := None, updatedAt := now),
              log := c.log + [RefundGatewayFailed]))
  {
    var x := Asking(v, o, ask, balance);
    hide Leads, Deducts, Taken, GivenBack;
    z, a := RefundDeducts(now, me, env, o, v, ask, balance, units);
    z := GivesBackUnits(now, me, env, o, x, z, a);
    GivenBackBeside(Taken(v.cell, units, now), units, now, z.view.cell.row);
    z := RestoresOrder(now, me, env, o, x, z, a);
  }

  lemma GivenBackBeside(c: Cell, units: nat, now: int, r: Row)
    ensures GivenBack(c.(row := r), units, now) == GivenBack(c, units, now).(row := r)
  {
  }

  lemma RestoresOrder(now: int, me: nat, env: Env, o: nat, x: Stance, y: Stance, a: Attempt) returns (z: Stance)
    requires Leads(now, me, env, o, x, y) && y.job.pc == AtLocked(Restore(a)) && a.order == o
    requires y.view.cell.row.status == Refunding
    ensures Leads(now, me, env, o, x, z) && z.job.pc == RefundOver(a, Undone) && z.job.applied == y.job.applied
    ensures var c := y.view.cell;
            z.view == y.view.(cell := c.(
              row := c.row.(status := if a.snap.status == RefundRequested then RefundRequested else Completed,
                            failedAt := None, updatedAt := now),
              log := c.log + [RefundGatewayFailed]))
  {
    hide Leads;
    z := Goes(now, me, env, o, x, y);
    assert z.job.pc == AtLocked(LogRestored(a));
    z := Goes(now, me, env, o, x, z);
  }

  lemma GivesBackUnits(now: int, me: nat, env: Env, o: nat, x: Stance, y: Stance, a: Attempt) returns (z: Stance)
    requires Leads(now, me, env, o, x, y) && y.job.pc == AtLocked(Gateway(a)) && a.order == o
    requires !env.gateway.Ok? && !env.gateway.Lost? && (a.plan.units > 0 ==> env.rollback.Ok?)
    ensures Leads(now, me, env, o, x, z) && z.job.pc == AtLocked(Restore(a))
    ensures z.view == y.view.(cell := GivenBack(y.view.cell, a.plan.units, now))
    ensures z.job.applied - y.job.applied == z.view.cell.taken - y.view.cell.taken
  {
    hide Leads;
    z := Goes(now, me, env, o, x, y);
    assert z.job.pc == AtLocked(Rollback(a)) && z.view == y.view;
    z := Goes(now, me, env, o, x, z);
  }

  /** One whose deduction is refused ends as an error on record, and nothing is sent. */
  lemma RefundNotDeducted(now: int, me: nat, env: Env, o: nat, v: View, ask: Ask, balance: int, units: nat)
    returns (z: Stance, a: Attempt)
    requires Askable(v.cell.row, ask) && Deducts(v.cell.row, ask, balance, env.plan, units)
    requires units > 0 && !env.deduct.Ok? && !env.deduct.Lost?
    ensures Leads(now, me, env, o, Asking(v, o, ask, balance), z)
    ensures z.job.pc == RefundOver(a, Errored(NotDeducted, true)) && a.order == o && a.plan.units == units
    ensures var (c, r) := (v.cell, v.cell.row);
            z.view == v.(cell := c.(row := r.(status := RefundFailed, failedAt := Some(now), updatedAt := now),
                                    log := c.log + [RefundFailedEntry]))
  {
    var x := Asking(v, o, ask, balance);
    hide Leads, Deducts;
    z, a := RefundLocks(now, me, env, o, v, ask, balance, units);
    z := Goes(now, me, env, o, x, z);
    assert z.job.pc == AtLocked(FailMark(a, NotDeducted));
    z := Goes(now, me, env, o, x, z);
    assert z.job.pc == AtLocked(FailLog(a, NotDeducted, true));
    z := Goes(now, me, env, o, x, z);
  }

  /** One whose deduction cannot be given back either ends as an error, with the units left on record. */
  lemma RefundNotRolledBack(now: int, me: nat, env: Env, o: nat, v: View, ask: Ask, balance: int, units: nat)
    returns (z: Stance, a: Attempt)
    requires Askable(v.cell.row, ask) && Deducts(v.cell.row, ask, balance, env.plan, units)
    requires v.cell.row.tradeNo.Some? && units > 0 && env.deduct.Ok?
    requires !env.gateway.Ok? && !env.gateway.Lost? && !env.rollback.Ok? && !env.rollback.Lost?
    ensures Leads(now, me, env, o, Asking(v, o, ask, balance), z)
    ensures z.job.pc == RefundOver(a, Errored(NotRolledBack, true)) && a.order == o && a.plan.units == units
    ensures var (c, r) := (Taken(v.cell, units, now), v.cell.row);
            z.view == v.(cell := c.(row := r.(status := RefundFailed, failedAt := Some(now), updatedAt := now),
                                    log := c.log + [RefundRollbackFailed(units)] + [RefundFailedEntry]))
  {
    var x := Asking(v, o, ask, balance);
    hide Leads, Deducts, Taken;
    z, a := RefundDeducts(now, me, env, o, v, ask, balance, units);
    z := Goes(now, me, env, o, x, z);
    assert z.job.pc == AtLocked(Rollback(a));
    z := Goes(now, me, env, o, x, z);
    assert z.job.pc == AtLocked(LogRollback(a));
    z := Goes(now, me, env, o, x, z);
    assert z.job.pc == AtLocked(FailMark(a, NotRolledBack));
    z := Goes(now, me, env, o, x, z);
    assert z.job.pc == AtLocked(FailLog(a, NotRolledBack, true));
    z := Goes(now, me, env, o, x, z);
  }

  // ---- lost races ----

  /** A statement whose guard fails ends a retry, a refund request or a refund before its lock, refused. */
  lemma GuardRefuses(now: int, me: nat, env: Env, o: nat, x: Stance) returns (z: Stance)
    requires var (r, pc) := (x.view.cell.row, x.job.pc);
             || (pc == AtRetry(RetryReset(o)) && !(r.paidAt.Some? && r.status in {Paid, Failed}))
             || (pc.AtRequest? && pc.request.RequestMark? && pc.request.o == o &&
                 !(r.user == pc.request.user && r.status == Completed && r.orderType == Balance))
             || (pc.AtRefund? && pc.refund.RefundLock? && pc.refund.o == o &&
                 r.status !in {Completed, RefundRequested, RefundFailed})
    ensures Leads(now, me, env, o, x, z) && z.view == x.view && z.job.pc == Done(Some(o), Refused)
  {
    Starts(now, me, env, o, x);
    hide Leads;
    z := Goes(now, me, env, o, x, x);
  }

  /** A refund that read no trade number puts that on record and skips the gateway. */
  lemma RefundSkipsGateway(now: int, me: nat, env: Env, o: nat, x: Stance, a: Attempt) returns (z: Stance)
    requires x.job.pc == AtLocked(Deduct(a)) && a.order == o && a.plan.units == 0 && a.snap.tradeNo.None?
    ensures Leads(now, me, env, o, x, z) && z.job.pc == AtLocked(Mark(a, false))
    ensures z.view == x.view.(cell := x.view.cell.(log := x.view.cell.log + [RefundNoTradeNo]))
  {
    Starts(now, me, env, o, x);
    hide Leads;
    z := Goes(now, me, env, o, x, x);
    assert z.job.pc == AtLocked(NoTrade(a));
    z := Goes(now, me, env, o, x, z);
  }

  // ---- journeys are runs ----

  /** Worker `w` of the system and its order, as the journey sees them. */
  function StanceOf(s: Sys, o: nat, w: nat): Stance
    requires o < |s.cells| && w < |s.jobs|
  {
    Stance(ViewOf(s, o), s.jobs[w], At(s.balance, Money(s.cells[o].row.user)))
  }

  /** A run in which only worker `w` takes steps, and no commit fails. */
  ghost predicate OnlySteps(es: seq<Event>, w: nat) {
    forall i :: 0 <= i < |es| ==> es[i].Step? && es[i].w == w && !es[i].c.Fault?
  }

  /** Nobody loses an answer. */
  ghost predicate Heard(es: seq<Event>) {
    forall i :: 0 <= i < |es| ==> es[i].Step? && !es[i].c.Lost?
  }

  /** Third parties answer what they did, and commits do not fail. */
  predicate Faultless(env: Env) {
    && !env.grant.Fault? && !env.redeem.Fault? && !env.balance.Fault? && !env.plan.Fault?
    && !env.deduct.Fault? && !env.gateway.Fault? && !env.rollback.Fault?
  }

  predicate Truthful(env: Env) {
    && !env.grant.Lost? && !env.redeem.Lost? && !env.balance.Lost? && !env.plan.Lost?
    && !env.deduct.Lost? && !env.gateway.Lost? && !env.rollback.Lost?
  }

  lemma LegHappens(s: Sys, o: nat, w: nat, env: Env)
    requires Inv(s) && o < |s.cells| && w < |s.jobs| && s.jobs[w].alive && Target(s.jobs[w].pc) == Some(o)
    ensures var t := Apply(s, Step(w, Answer(env, s.jobs[w].pc)));
            && Inv(t) && o < |t.cells| && w < |t.jobs| && t.jobs[w].alive && t.now == s.now
            && StanceOf(t, o, w) == Leg(s.now, w, env, StanceOf(s, o, w))
            && AccountOf(t.cells[o].row) == AccountOf(s.cells[o].row)
            && At(t.balance, AccountOf(s.cells[o].row)) - At(s.balance, AccountOf(s.cells[o].row)) ==
               OrderNet(ViewOf(t, o)) - OrderNet(ViewOf(s, o))
  {
    var c := Answer(env, s.jobs[w].pc);
    var balance := At(s.balance, Money(s.cells[o].row.user));
    ApplyKeeps(s, Step(w, c));
    StepReady(s, o, w);
    LocalStepSettles(s.now, balance, w, ViewOf(s, o), s.jobs[w], c, o);
    var (v, j) := LocalStep(s.now, balance, w, ViewOf(s, o), s.jobs[w], c);
    StaysAlive(s.now, balance, w, ViewOf(s, o), s.jobs[w], c);
    assert Apply(s, Step(w, c)) == PutView(s, o, w, v, j);
    hide LocalStep, Ready, Answer, Settled, OrderNet;
    StepViews(s, o, w, v, j);
    hide Inv, ViewOf;
    assert ViewEvolves(ViewOf(s, o), v);
  }

  lemma StaysAlive(now: int, balance: int, me: nat, v: View, j: Job, c: Choice)
    ensures LocalStep(now, balance, me, v, j, c).1.alive == j.alive
  {
    hide PlainStep, BookStep, Take, GiveBack;
  }

  /** The run `es` takes worker `w` and its order from where they are in `s` to `y`, and nobody else anywhere. */
  ghost predicate Arrives(s: Sys, o: nat, w: nat, env: Env, es: seq<Event>, t: Sys, y: Stance)
    requires o < |s.cells|
  {
    && t == Run(s, es) && OnlySteps(es, w) && (Truthful(env) ==> Heard(es)) && Inv(t)
    && o < |t.cells| && w < |t.jobs| && t.jobs[w].alive && t.now == s.now && StanceOf(t, o, w) == y
    && AccountOf(t.cells[o].row) == AccountOf(s.cells[o].row)
    && At(t.balance, AccountOf(s.cells[o].row)) - At(s.balance, AccountOf(s.cells[o].row)) ==
       OrderNet(ViewOf(t, o)) - OrderNet(ViewOf(s, o))
  }

  lemma ArrivesNext(s: Sys, o: nat, w: nat, env: Env, es: seq<Event>, t: Sys, y: Stance)
    returns (u: Sys, fs: seq<Event>)
    requires o < |s.cells| && Arrives(s, o, w, env, es, t, y) && Target(y.job.pc) == Some(o) && Faultless(env)
    ensures Arrives(s, o, w, env, fs, u, Leg(s.now, w, env, y))
  {
    hide Apply, Inv, Leg, OrderNet, ViewOf, Run;
    AnswerIsFaultless(env, y.job.pc);
    hide Answer, Faultless, Truthful;
    var e := Step(w, Answer(env, y.job.pc));
    u, fs := Apply(t, e), es + [e];
    LegHappens(t, o, w, env);
    RunMore(s, es, e);
  }

  lemma AnswerIsFaultless(env: Env, pc: Pc)
    requires Faultless(env)
    ensures !Answer(env, pc).Fault? && (Truthful(env) ==> !Answer(env, pc).Lost?)
  {
  }

  /** Every journey of a worker that has started is a run of the system in which only this worker moves. */
  lemma {:induction false} PathHappens(s: Sys, o: nat, w: nat, env: Env, p: seq<Stance>)
    returns (t: Sys, es: seq<Event>)
    requires Inv(s) && o < |s.cells| && w < |s.jobs| && s.jobs[w].alive && Faultless(env)
    requires |p| > 0 && p[0] == StanceOf(s, o, w) && IsPath(s.now, w, env, o, p)
    ensures Arrives(s, o, w, env, es, t, p[|p| - 1])
  {
    hide Arrives, Leg, Inv, StanceOf, IsPath;
    var n := |p| - 1;
    if n == 0 {
      ArrivesHere(s, o, w, env);
      t, es := s, [];
    } else {
      ShorterPath(s.now, w, env, o, p, n);
      var u, fs := PathHappens(s, o, w, env, p[..n]);
      t, es := ArrivesNext(s, o, w, env, fs, u, p[n - 1]);
    }
  }

  lemma ArrivesHere(s: Sys, o: nat, w: nat, env: Env)
    requires Inv(s) && o < |s.cells| && w < |s.jobs| && s.jobs[w].alive
    ensures Arrives(s, o, w, env, [], s, StanceOf(s, o, w))
  {
    hide Inv, OrderNet;
  }

  lemma ShorterPath(now: int, me: nat, env: Env, o: nat, p: seq<Stance>, n: nat)
    requires IsPath(now, me, env, o, p) && n <= |p|
    ensures IsPath(now, me, env, o, p[..n])
    ensures 0 < n < |p| ==> Target(p[n - 1].job.pc) == Some(o) && p[n] == Leg(now, me, env, p[n - 1])
  {
    hide Leg;
  }

  lemma RunMore(s: Sys, es: seq<Event>, e: Event)
    ensures Run(s, es + [e]) == Apply(Run(s, es), e)
  {
    assert (es + [e])[..|es|] == es;
  }

  /**
   From every reachable state an operation can start and make its journey while nobody else moves: the system then
   holds what the journey ends with, and the account of the order has changed by what the order's books have.
   */
  lemma JourneysAreRuns(s: Sys, o: nat, pc: Pc, env: Env, y: Stance) returns (t: Sys, es: seq<Event>)
    requires Reachable(s) && o < |s.cells| && IsStart(pc) && Faultless(env)
    requires Leads(s.now, |s.jobs|, env, o,
               Setting(ViewOf(s, o), pc, At(s.balance, Money(s.cells[o].row.user))), y)
    ensures t == Run(Apply(s, Spawn(pc)), es) && OnlySteps(es, |s.jobs|) && (Truthful(env) ==> Heard(es))
    ensures t.now == s.now && Reachable(t) && o < |t.cells| && ViewOf(t, o) == y.view
    ensures |s.jobs| < |t.jobs| && t.jobs[|s.jobs|] == y.job
    ensures At(t.balance, AccountOf(s.cells[o].row)) - At(s.balance, AccountOf(s.cells[o].row)) ==
            OrderNet(y.view) - OrderNet(ViewOf(s, o))
  {
    var u := Apply(s, Spawn(pc));
    ReachableInv(s);
    ApplyKeeps(s, Spawn(pc));
    assert StanceOf(u, o, |s.jobs|) == Setting(ViewOf(s, o), pc, At(s.balance, Money(s.cells[o].row.user)));
    var p :| |p| > 0 && p[0] == StanceOf(u, o, |s.jobs|) && p[|p| - 1] == y && IsPath(s.now, |s.jobs|, env, o, p);
    hide Inv, IsPath, OrderNet;
    t, es := PathHappens(u, o, |s.jobs|, env, p);
    OperationReachable(s, Spawn(pc), es);
  }

  lemma {:induction false} ReachableOn(s: Sys, es: seq<Event>)
    requires Reachable(s)
    ensures Reachable(Run(s, es))
  {
    hide Apply;
    if es != [] {
      var n := |es| - 1;
      ReachableOn(s, es[..n]);
      var s0, fs :| Initial(s0) && Run(s, es[..n]) == Run(s0, fs);
      RunMore(s0, fs, es[n]);
    }
  }

  lemma OperationReachable(s: Sys, e: Event, es: seq<Event>)
    requires Reachable(s)
    ensures Reachable(Run(Apply(s, e), es))
  {
    RunMore(s, [], e);
    ReachableOn(s, [] + [e]);
    ReachableOn(Apply(s, e), es);
  }

  // ---- an order paid, an order retried ----

  /** A worker already under way makes its journey. */
  lemma JourneyContinues(s: Sys, o: nat, w: nat, env: Env, y: Stance) returns (t: Sys, es: seq<Event>)
    requires Inv(s) && o < |s.cells| && w < |s.jobs| && s.jobs[w].alive && Faultless(env)
    requires Leads(s.now, w, env, o, StanceOf(s, o, w), y)
    ensures Arrives(s, o, w, env, es, t, y)
  {
    hide Inv, IsPath, Arrives, StanceOf;
    var p :| |p| > 0 && p[0] == StanceOf(s, o, w) && p[|p| - 1] == y && IsPath(s.now, w, env, o, p);
    t, es := PathHappens(s, o, w, env, p);
  }

  /** A created order gets its trade number. */
  lemma DetailsAreAttached(s: Sys, o: nat, w: nat, env: Env) returns (t: Sys, es: seq<Event>)
    requires Reachable(s) && o < |s.cells| && w < |s.jobs| && Faultless(env) && env.trade.Some?
    requires s.jobs[w] == Job(AtAttach(CreateLog(o)), true, 0, 0)
    ensures t == Run(s, es) && OnlySteps(es, w) && Reachable(t) && t.now == s.now && o < |t.cells|
    ensures var c := s.cells[o];
            t.cells[o] == c.(row := c.row.(tradeNo := env.trade, updatedAt := s.now),
                             log := c.log + [OrderCreated] + [PaymentCreated])
    ensures CreditOf(t.ledger, s.cells[o].row.rechargeCode) == CreditOf(s.ledger, s.cells[o].row.rechargeCode)
    ensures At(t.balance, AccountOf(s.cells[o].row)) == At(s.balance, AccountOf(s.cells[o].row))
  {
    ReachableInv(s);
    hide Reachable, Run, Leads, Inv;
    var y := AttachCompletes(s.now, w, env, o, ViewOf(s, o), At(s.balance, Money(s.cells[o].row.user)));
    t, es := JourneyContinues(s, o, w, env, y);
    ReachableOn(s, es);
  }

  /** What completing an order does to its account and to the platform's record of its code. */
  ghost predicate Completes(s: Sys, t: Sys, o: nat, days: int) {
    && o < |s.cells| && o < |t.cells| && t.cells[o].row.status == Completed
    && t.cells[o] == s.cells[o].(row := t.cells[o].row, log := t.cells[o].log)
    && t.cells[o].row.(status := s.cells[o].row.status, payAmountCents := s.cells[o].row.payAmountCents,
         tradeNo := s.cells[o].row.tradeNo, paidAt := s.cells[o].row.paidAt, completedAt := s.cells[o].row.completedAt,
         failedAt := s.cells[o].row.failedAt, updatedAt := s.cells[o].row.updatedAt) == s.cells[o].row
    && var r := s.cells[o].row;
    && var account := if r.orderType == Balance then Money(r.user) else Account.Days(r.user, r.groupId.GetOr(0));
    && var worth := if r.orderType == Balance then r.amountCents else days;
    && r.rechargeCode == t.cells[o].row.rechargeCode && r.rechargeCode in t.ledger
    && if r.rechargeCode in s.ledger then
         t.ledger[r.rechargeCode] == s.ledger[r.rechargeCode] && At(t.balance, account) == At(s.balance, account)
       else
         t.ledger[r.rechargeCode] == Credit(r.user, if r.orderType == Balance then worth else 0, days) &&
         At(t.balance, account) == At(s.balance, account) + worth
  }

  lemma CompletionPays(s: Sys, t: Sys, o: nat, days: int)
    requires o < |s.cells| && o < |t.cells| && t.cells[o].row.status == Completed
    requires t.cells[o] == s.cells[o].(row := t.cells[o].row, log := t.cells[o].log)
    requires exists r: Row :: t.cells[o].row == s.cells[o].row.(status := Completed, payAmountCents := r.payAmountCents,
                                tradeNo := r.tradeNo, paidAt := r.paidAt, completedAt := r.completedAt,
                                failedAt := r.failedAt, updatedAt := r.updatedAt)
    requires s.cells[o].row.orderType == Balance ==> days == 0
    requires ViewOf(t, o).credit == Some(Credited(ViewOf(s, o), days))
    requires At(t.balance, AccountOf(s.cells[o].row)) - At(s.balance, AccountOf(s.cells[o].row)) ==
             OrderNet(ViewOf(t, o)) - OrderNet(ViewOf(s, o))
    ensures Completes(s, t, o, days)
  {
  }

  lemma NotYetPaid(s: Sys, n: Notice)
    requires Reachable(s) && n.order < |s.cells| && Confirms(ViewOf(s, n.order), n, s.now)
    ensures CellOk(ViewOf(s, n.order)) && s.cells[n.order].row.rechargeCode !in s.ledger
  {
    ReachableInv(s);
    assert CellOk(ViewOf(s, n.order));
  }

  /**
   From every reachable state an order that is pending, or expired within the last five minutes, is completed by one
   notification of the right amount: it is acknowledged, and the account of the order rises by its face value or by
   the days granted.
   */
  lemma PaidOrdersAreCompleted(s: Sys, n: Notice, env: Env, days: int) returns (t: Sys, es: seq<Event>)
    requires Reachable(s) && n.order < |s.cells| && Confirms(ViewOf(s, n.order), n, s.now)
    requires Faultless(env) && Grants(s.cells[n.order].row, env.grant, days) && env.redeem.Ok?
    ensures t == Run(Apply(s, Spawn(AtNotice(NoticeStart(n)))), es) && OnlySteps(es, |s.jobs|)
    ensures |s.jobs| < |t.jobs|
    ensures t.jobs[|s.jobs|].pc == Done(Some(n.order), Acked(true, n, Some(Completed), None))
    ensures Reachable(t) && s.cells[n.order].row.rechargeCode !in s.ledger && Completes(s, t, n.order, days)
    ensures t.now == s.now && t.cells[n.order].row.tradeNo == Some(n.trade)
  {
    var (v, balance) := (ViewOf(s, n.order), At(s.balance, Money(s.cells[n.order].row.user)));
    NotYetPaid(s, n);
    hide CellOk, Confirms, AccountOf, OrderNet, Credited, Completes;
    var y := NotificationCompletes(s.now, |s.jobs|, env, v, balance, n, days);
    hide Leads, Grants, Reachable, Run, Inv;
    t, es := JourneysAreRuns(s, n.order, AtNotice(NoticeStart(n)), env, y);
    assert ViewOf(t, n.order) == y.view;
    CompletionPays(s, t, n.order, days);
  }

  /**
   From every reachable state an order that failed, or whose worker vanished right after its payment was confirmed,
   is completed by one retry, which reports success; if it was credited before it is not credited again.
   */
  lemma StuckOrdersCanBeCompleted(s: Sys, o: nat, env: Env, days: int) returns (t: Sys, es: seq<Event>)
    requires Reachable(s) && o < |s.cells| && s.cells[o].row.status in {Failed, Paid}
    requires Faultless(env) && Grants(s.cells[o].row, env.grant, days) && env.redeem.Ok?
    ensures t == Run(Apply(s, Spawn(AtRetry(RetryRead(o)))), es) && OnlySteps(es, |s.jobs|)
    ensures |s.jobs| < |t.jobs| && t.jobs[|s.jobs|].pc == Done(Some(o), Retried)
    ensures Reachable(t) && Completes(s, t, o, days)
  {
    var (v, balance) := (ViewOf(s, o), At(s.balance, Money(s.cells[o].row.user)));
    ReachableInv(s);
    assert CellOk(v);
    var y := RetryCompletes(s.now, |s.jobs|, env, o, v, balance, days);
    hide Leads, Reachable, Run, Inv;
    t, es := JourneysAreRuns(s, o, AtRetry(RetryRead(o)), env, y);
    assert ViewOf(t, o) == y.view;
    CompletionPays(s, t, o, days);
  }
}
