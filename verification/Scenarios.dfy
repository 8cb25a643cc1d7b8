/**
 Runs that exist (src/order/service.rs): one failing commit or one lost answer has the gateway pay in full twice,
 two refunds overlap, the keys of the platform let a refund take nothing or give away what it did not take, the
 states in question can be reached, and a stuck order can always be completed.
 */
module Scenarios {
  import opened Common
  import opened Orders
  import opened Protocol
  import opened World
  import opened Facts
  import opened Invariant
  import opened Claims
  import opened Continuations
  import opened Harm
  import opened Journeys
  import opened TableJourneys
  import opened Listing

  // ---- two refunds of one order ----

  /** An attempt with nothing to deduct is refused by the gateway and has restored the order. */
  lemma RefusedAndRestored(s: Sys, t: Sys, o: nat, w: nat, cell: Cell, a: Attempt) returns (u: Sys)
    requires CanReach(s, t) && a.order == o && a.plan.units == 0
    requires cell.row.status == Refunding && Stands(s, t, o, w, cell, AtLocked(Gateway(a)), 0)
    ensures CanReach(s, u) && o < |u.cells|
    ensures Stands(s, u, o, w, u.cells[o], AtLocked(LogRestored(a)), 0)
    ensures var r := u.cells[o].row;
            && u.cells[o] == cell.(row := r) && r.status in {Completed, RefundRequested}
            && r == cell.row.(status := r.status, failedAt := None, updatedAt := s.now)
  {
    hide CanReach, Apply;
    Advance(s, t, o, w, cell, AtLocked(Gateway(a)), 0, Fails);
    var x := Apply(t, Step(w, Fails));
    u := RollsNothingBack(s, x, o, w, cell, a);
  }

  lemma RollsNothingBack(s: Sys, t: Sys, o: nat, w: nat, cell: Cell, a: Attempt) returns (u: Sys)
    requires CanReach(s, t) && a.order == o && a.plan.units == 0
    requires cell.row.status == Refunding && Stands(s, t, o, w, cell, AtLocked(Rollback(a)), 0)
    ensures CanReach(s, u) && o < |u.cells|
    ensures Stands(s, u, o, w, u.cells[o], AtLocked(LogRestored(a)), 0)
    ensures var r := u.cells[o].row;
            && u.cells[o] == cell.(row := r) && r.status in {Completed, RefundRequested}
            && r == cell.row.(status := r.status, failedAt := None, updatedAt := s.now)
  {
    hide CanReach, Apply;
    Advance(s, t, o, w, cell, AtLocked(Rollback(a)), 0, Ok);
    var x := Apply(t, Step(w, Ok));
    Advance(s, x, o, w, cell, AtLocked(Restore(a)), 0, Ok);
    u := Apply(x, Step(w, Ok));
  }

  /**
   From every state with a refundable order two overlapping refunds lead there without any failing commit:
   one has restored the order, the other holds the lock and is about to call the gateway.
   */
  lemma OverlappingRefundsExist(s: Sys, o: nat) returns (t: Sys, w: nat, a: Attempt, u: nat, b: Attempt)
    requires o < |s.cells| && Refundable(s.cells[o].row)
    ensures CanReach(s, t) && o < |t.cells| && a.order == o && b.order == o && w != u
    ensures w < |t.jobs| && t.jobs[w].alive && t.jobs[w].pc == AtLocked(LogRestored(a))
    ensures u < |t.jobs| && t.jobs[u].alive && t.jobs[u].pc == AtLocked(Gateway(b))
    ensures var r := t.cells[o].row; r.status == Refunding && r.amountCents > 0 && r.tradeNo.Some?
    ensures t.cells[o].gateway == s.cells[o].gateway
    ensures b.gatewayCents == Expected(s.cells[o].row) == Expected(t.cells[o].row)
  {
    hide CanReach;
    Reflexive(s);
    var cell := s.cells[o];
    a := FullAttempt(o, cell.row);
    var x;
    x, w := Acquires(s, s, o, cell);
    var y := RefusedAndRestored(s, x, o, w, cell.(row := MarkRefunding(cell.row, s.now)), a);
    b := FullAttempt(o, y.cells[o].row);
    t, u := Acquires(s, y, o, y.cells[o]);
  }

  /**
   From every state in which one attempt has restored the order and another holds the lock and is about to
   call the gateway: if the commit of the first one's log entry fails, the gateway pays twice.
   */
  lemma RogueFailureRefundsTwice(s: Sys, o: nat, w: nat, a: Attempt, i: nat, b: Attempt)
    requires o < |s.cells| && a.order == o && b.order == o && w != i
    requires w < |s.jobs| && s.jobs[w].alive && s.jobs[w].pc == AtLocked(LogRestored(a))
    requires i < |s.jobs| && s.jobs[i].alive && s.jobs[i].pc == AtLocked(Gateway(b))
    requires s.cells[o].row.status == Refunding && Payable(s.cells[o].row)
    ensures exists t :: CanReach(Apply(s, Step(w, Fault)), t) && o < |t.cells| &&
              t.cells[o].gateway == s.cells[o].gateway + [b.gatewayCents, Expected(s.cells[o].row)]
  {
    hide CanReach;
    var t := Threatens(s, o, w, a);
    hide Apply;
    var u := FreesUnderGateway(t, t, o, w, t.cells[o], a, CommitFailed(AtLogRestored), t.jobs[w].applied, i, b);
  }

  // ---- one failure between the gateway and the row ----

  /** From every state with a refundable order one failing mark after the gateway paid lets it pay twice in full. */
  lemma FaultRefundsTwice(s: Sys, o: nat)
    requires o < |s.cells| && Refundable(s.cells[o].row)
    ensures exists t, w, u :: CanReach(s, t) && LosesRefund(t, Step(w, Fault)) &&
              CanReach(Apply(t, Step(w, Fault)), u) && o < |u.cells| &&
              u.cells[o].gateway == s.cells[o].gateway + [Expected(s.cells[o].row), Expected(s.cells[o].row)]
  {
    hide CanReach;
    Reflexive(s);
    var cell := s.cells[o];
    var cents := Expected(cell.row);
    var x, w := Acquires(s, s, o, cell);
    var locked := cell.(row := MarkRefunding(cell.row, s.now));
    var a := FullAttempt(o, cell.row);
    hide Apply;
    Advance(s, x, o, w, locked, AtLocked(Gateway(a)), 0, Ok);
    var t := Apply(x, Step(w, Ok));
    var u := LostMark(t, o, w, a);
    assert cell.gateway + [cents] + [cents] == cell.gateway + [cents, cents];
  }

  /** So does one lost answer of a gateway that paid. */
  lemma LostAnswerRefundsTwice(s: Sys, o: nat)
    requires o < |s.cells| && Refundable(s.cells[o].row)
    ensures exists t, w, u :: CanReach(s, t) && LosesAnswer(t, Step(w, Lost)) &&
              CanReach(Apply(t, Step(w, Lost)), u) && o < |u.cells| &&
              u.cells[o].gateway == s.cells[o].gateway + [Expected(s.cells[o].row), Expected(s.cells[o].row)]
  {
    hide CanReach;
    Reflexive(s);
    var cell := s.cells[o];
    var cents := Expected(cell.row);
    var x, w := Acquires(s, s, o, cell);
    var locked := cell.(row := MarkRefunding(cell.row, s.now));
    var a := FullAttempt(o, cell.row);
    hide Apply;
    var u := LostAnswer(x, o, w, a);
  }

  // ---- two attempts within one second ----

  /** All of a balance order, to be taken from a balance that covers it. */
  ghost predicate Covered(s: Sys, o: nat) {
    && o < |s.cells| && CanMarkRefunding(s.cells[o].row) && s.cells[o].row.orderType == Balance
    && At(s.balance, Money(s.cells[o].row.user)) >= s.cells[o].row.amountCents
  }

  const WHOLE := Ask(None, false, true)

  lemma CoveredIsAskable(s: Sys, o: nat, env: Env)
    requires Reachable(s) && Covered(s, o) && env.plan.Ok?
    ensures var r := s.cells[o].row;
            && Askable(r, WHOLE) && r.tradeNo.Some? && r.amountCents > 0
            && Deducts(r, WHOLE, At(s.balance, Money(r.user)), env.plan, r.amountCents)
  {
    ReachableInv(s);
    assert CellOk(ViewOf(s, o));
  }

  /** A refund that the gateway refuses leaves the order as it was, except for the keys of this second. */
  lemma FailsAndRestores(s: Sys, o: nat) returns (t: Sys)
    requires Reachable(s) && Covered(s, o) && s.now !in s.cells[o].subtracted && s.now !in s.cells[o].added
    ensures Reachable(t) && Covered(t, o) && t.now == s.now
    ensures var (c, d) := (s.cells[o], t.cells[o]);
            && d.taken == c.taken && d.gateway == c.gateway && d.row.amountCents == c.row.amountCents
            && d.row.user == c.row.user && d.subtracted == c.subtracted + {s.now} && d.added == c.added + {s.now}
    ensures var x := Money(s.cells[o].row.user); At(t.balance, x) == At(s.balance, x)
  {
    var env := Env(None, Ok, Ok, Ok, Ok, Ok, Fails, Ok);
    CoveredIsAskable(s, o, env);
    hide Leads, Reachable, Askable, Deducts;
    var (v, r) := (ViewOf(s, o), s.cells[o].row);
    var y, a := RefundUndone(s.now, |s.jobs|, env, o, v, WHOLE, At(s.balance, Money(r.user)), r.amountCents);
    var es;
    t, es := JourneysAreRuns(s, o, AtRefund(RefundRead(o, None, false, true)), env, y);
    assert ViewOf(t, o) == y.view;
    hide Run, ViewOf;
  }

  /**
   Why an attempt needs new keys: one that the gateway refuses, followed within the same second by one it accepts:
   the second reports the whole deduction and sends the money back, but takes nothing.
   */
  lemma SameSecondRefundTakesNothing(s: Sys, o: nat) returns (t: Sys, w: nat, a: Attempt)
    requires Reachable(s) && Covered(s, o) && s.now !in s.cells[o].subtracted && s.now !in s.cells[o].added
    ensures Reachable(t) && t.now == s.now && w < |t.jobs| && t.jobs[w].pc == RefundOver(a, Finished)
    ensures a.order == o && a.plan.units == s.cells[o].row.amountCents > 0 && o < |t.cells|
    ensures t.cells[o].taken == s.cells[o].taken && |t.cells[o].gateway| == |s.cells[o].gateway| + 1
    ensures var x := Money(s.cells[o].row.user); At(t.balance, x) == At(s.balance, x)
  {
    var u := FailsAndRestores(s, o);
    var env := Env(None, Ok, Ok, Ok, Ok, Ok, Ok, Ok);
    CoveredIsAskable(u, o, env);
    hide Leads, Reachable, Askable, Deducts;
    var (v, r) := (ViewOf(u, o), u.cells[o].row);
    var y;
    y, a := RefundSucceeds(u.now, |u.jobs|, env, o, v, WHOLE, At(u.balance, Money(r.user)), r.amountCents);
    var es;
    t, es := JourneysAreRuns(u, o, AtRefund(RefundRead(o, None, false, true)), env, y);
    w := |u.jobs|;
    assert ViewOf(t, o) == y.view;
    hide Run, ViewOf;
  }

  /** A second attempt in the same second deducts nothing and is refused by the gateway. */
  lemma SecondAttemptTakesNothing(s: Sys, o: nat, env: Env) returns (t: Sys, w: nat, a: Attempt)
    requires Reachable(s) && Covered(s, o) && s.now in s.cells[o].subtracted
    requires env == Env(None, Ok, Ok, Ok, Ok, Ok, Fails, Ok)
    ensures Reachable(t) && t.now == s.now && a.order == o && a.plan.units == s.cells[o].row.amountCents > 0
    ensures o < |t.cells| && w < |t.jobs| && t.jobs[w].alive && t.jobs[w].pc == AtLocked(Gateway(a))
    ensures t.jobs[w].applied == 0
    ensures t.cells[o].row == s.cells[o].row.(status := Refunding, updatedAt := s.now)
    ensures t.cells[o].added == s.cells[o].added && t.cells[o].taken == s.cells[o].taken
    ensures var x := Money(s.cells[o].row.user); At(t.balance, x) == At(s.balance, x)
  {
    CoveredIsAskable(s, o, env);
    hide Leads, Reachable, Askable, Deducts;
    var (v, r) := (ViewOf(s, o), s.cells[o].row);
    var y;
    y, a := RefundDeducts(s.now, |s.jobs|, env, o, v, WHOLE, At(s.balance, Money(r.user)), r.amountCents);
    var es;
    t, es := JourneysAreRuns(s, o, AtRefund(RefundRead(o, None, false, true)), env, y);
    w := |s.jobs|;
    assert ViewOf(t, o) == y.view;
    hide Run, ViewOf;
  }

  /**
   And success=false can leave the user richer, with every answer received: a second attempt in the same second
   deducts under a used key, the gateway refuses it too, and its rollback, a second later, gives back under a new key
   what was not taken.
   */
  lemma LaterRollbackGivesAway(s: Sys, o: nat) returns (t: Sys, w: nat, a: Attempt)
    requires Reachable(s) && Covered(s, o)
    requires s.now !in s.cells[o].subtracted && s.now !in s.cells[o].added && s.now + 1 !in s.cells[o].added
    ensures Reachable(t) && w < |t.jobs| && t.jobs[w].pc == RefundOver(a, Undone) && a.order == o
    ensures a.plan.units == s.cells[o].row.amountCents > 0 && t.jobs[w].applied + a.plan.units == 0
    ensures var x := Money(s.cells[o].row.user); At(t.balance, x) == At(s.balance, x) + a.plan.units
  {
    var env := Env(None, Ok, Ok, Ok, Ok, Ok, Fails, Ok);
    var x := FailsAndRestores(s, o);
    var y;
    y, w, a := SecondAttemptTakesNothing(x, o, env);
    var z := Apply(y, Tick(1));
    assert Reachable(z) by {
      OperationReachable(y, Tick(1), []);
    }
    hide Reachable;
    t := GivesBackLate(z, o, w, env, a);
  }

  lemma GivesBackLate(s: Sys, o: nat, w: nat, env: Env, a: Attempt) returns (t: Sys)
    requires Reachable(s) && o < |s.cells| && w < |s.jobs| && s.jobs[w].alive && a.order == o && a.plan.units > 0
    requires s.jobs[w].pc == AtLocked(Gateway(a)) && s.jobs[w].applied == 0 && s.now !in s.cells[o].added
    requires s.cells[o].row.status == Refunding && s.cells[o].row.orderType == Balance
    requires env == Env(None, Ok, Ok, Ok, Ok, Ok, Fails, Ok)
    ensures Reachable(t) && w < |t.jobs| && t.jobs[w].pc == RefundOver(a, Undone)
    ensures t.jobs[w].applied + a.plan.units == 0
    ensures var x := Money(s.cells[o].row.user); At(t.balance, x) == At(s.balance, x) + a.plan.units
  {
    var x := StanceOf(s, o, w);
    ReachableInv(s);
    Starts(s.now, w, env, o, x);
    hide Leads, Reachable, Inv, Run;
    var y := GivesBackUnits(s.now, w, env, o, x, x, a);
    y := RestoresOrder(s.now, w, env, o, x, y, a);
    var es;
    t, es := JourneyContinues(s, o, w, env, y);
    ReachableOn(s, es);
  }

  // ---- such orders exist ----

  function FirstOrder(user: int, cents: int, code: string): NewOrder {
    NewOrder(user, cents, None, Balance, false, None, None, code)
  }

  /** The empty system, with limits that admit one order of this amount. */
  function Beginning(cents: int, now: int): Sys {
    Sys([], map[], [], map[], map[], now, Limits(1, cents, cents, 1, false))
  }

  /** For every user and amount, some run leads to a refundable order whose amount is still on the balance. */
  lemma RefundableOrdersExist(n: NewOrder, trade: string, now: int) returns (t: Sys)
    requires n.user > 0 && n.cents > 0 && n == FirstOrder(n.user, n.cents, n.code)
    ensures Initial(Beginning(n.cents, now)) && Reachable(t)
    ensures 0 < |t.cells| && Refundable(t.cells[0].row) && t.cells[0].row.orderType == Balance
    ensures At(t.balance, AccountOf(t.cells[0].row)) == t.cells[0].row.amountCents == n.cents
    ensures t.now !in t.cells[0].subtracted && t.now !in t.cells[0].added && t.cells[0].gateway == []
  {
    var env := Env(Some(trade), Ok, Ok, Ok, Ok, Ok, Ok, Ok);
    var x := FirstIsAttached(n, trade, now, env);
    var notice := Notice(0, trade, n.cents, true);
    hide Reachable, Run, Apply;
    var y, es := PaidOrdersAreCompleted(x, notice, env, 0);
    t := y;
  }

  lemma FirstIsCreated(n: NewOrder, now: int) returns (t: Sys)
    requires n.user > 0 && n.cents > 0 && n == FirstOrder(n.user, n.cents, n.code)
    ensures var s := Beginning(n.cents, now);
            && Initial(s) && Reachable(t) && t.cells == [FreshCell(s, n)]
            && t == s.(cells := t.cells, jobs := [Job(AtAttach(CreateLog(0)), true, 0, 0)])
  {
    hide Run, Apply;
    var s := Beginning(n.cents, now);
    assert PendingIds(Rows(s.cells), n.user) == {};
    var es;
    t, es := CreationExactly(s, n);
    assert Reachable(s) by {
      BeginningReachable(s);
    }
    hide Reachable;
    OperationReachable(s, Spawn(AtCreate(CreateStart(n))), es);
  }

  lemma BeginningReachable(s: Sys)
    requires Initial(s)
    ensures Reachable(s)
  {
    assert s == Run(s, []);
  }

  lemma FirstIsAttached(n: NewOrder, trade: string, now: int, env: Env) returns (t: Sys)
    requires n.user > 0 && n.cents > 0 && n == FirstOrder(n.user, n.cents, n.code)
    requires env == Env(Some(trade), Ok, Ok, Ok, Ok, Ok, Ok, Ok)
    ensures Initial(Beginning(n.cents, now)) && Reachable(t) && t.now == now
    ensures 0 < |t.cells| && t.cells[0].row.rechargeCode !in t.ledger && At(t.balance, Money(n.user)) == 0
    ensures var c := FreshCell(Beginning(n.cents, now), n);
            t.cells[0] == c.(row := c.row.(tradeNo := Some(trade), updatedAt := now),
                             log := [OrderCreated, PaymentCreated])
  {
    hide Reachable, Run, Apply;
    var x := FirstIsCreated(n, now);
    var es;
    t, es := DetailsAreAttached(x, 0, 0, env);
  }
}
