/**
 The REFUNDING lock (src/order/service.rs, src/order/repository.rs).

 The error path of a refund releases the lock with a statement that asks only for a REFUNDING row.  One failing
 commit leads there without the lock: that of the log entry after the order was restored.  On runs in which it
 fails for no order still to be refunded, the lock is exclusive.
 */
module Locks {
  import opened Common
  import opened Orders
  import opened Protocol
  import opened Steps
  import opened Settle
  import opened World
  import opened Invariant
  import opened Quiet
  import opened Holds

  /** The refund of this attempt is on the row. */
  ghost predicate OnRow(v: View, a: Attempt) {
    Phase(v.cell.row.status) == 3 && v.cell.row.refundCents == Some(a.cents)
  }

  /** Past the mark the refund is on the row for good, so an error path entered from there changes nothing. */
  ghost predicate LockFact(v: View, pc: Pc) {
    match pc
    case AtLocked(LogDone(a)) => OnRow(v, a)
    case AtLocked(FailMark(_, cause)) => !Holding(cause) ==> Phase(v.cell.row.status) == 3
    case RefundOver(a, Finished) => OnRow(v, a)
    case _ => true
  }

  ghost predicate LockLaw(s: Sys, o: nat)
    requires o < |s.cells|
  {
    Ind(s.cells[o].row.status == Refunding) == TotalHeld(s.jobs, o, Lock)
  }

  ghost predicate FactsAbout(s: Sys, o: nat)
    requires o < |s.cells|
  {
    forall w :: 0 <= w < |s.jobs| && Target(s.jobs[w].pc) == Some(o) ==> LockFact(ViewOf(s, o), s.jobs[w].pc)
  }

  ghost predicate LockInv(s: Sys) {
    forall o :: 0 <= o < |s.cells| ==> LockLaw(s, o) && FactsAbout(s, o)
  }

  /** The log entry of a restored order fails while the order may still be refunded. */
  predicate BreaksLock(s: Sys, e: Event) {
    && e.Step? && e.c.Fault? && e.w < |s.jobs| && s.jobs[e.w].alive
    && s.jobs[e.w].pc.AtLocked? && s.jobs[e.w].pc.locked.LogRestored?
    && var o := s.jobs[e.w].pc.locked.a.order; o < |s.cells| && Phase(s.cells[o].row.status) != 3
  }

  // ---- one step about an order ----

  /** Row and holders of the lock move alike, and the worker's fact about it stays true. */
  ghost predicate LockKept(v: View, pc: Pc, w: View, qc: Pc) {
    && LockFact(w, qc)
    && Ind(w.cell.row.status == Refunding) - Ind(HoldsLock(qc)) ==
       Ind(v.cell.row.status == Refunding) - Ind(HoldsLock(pc))
  }

  /** A worker that knows its lock is on the row. */
  ghost predicate LockReady(v: View, pc: Pc) {
    (HoldsLock(pc) ==> v.cell.row.status == Refunding) && LockFact(v, pc)
  }

  lemma PlainLocks(now: int, balance: int, me: nat, v: View, pc: Pc, c: Choice)
    requires !pc.AtLocked? && LockReady(v, pc)
    ensures var (w, qc) := PlainStep(now, balance, me, v, pc, c); LockKept(v, pc, w, qc)
  {
    PlainUninvolved(now, balance, me, v, pc, c);
    hide PlainStep;
  }

  lemma LockedLocks(now: int, v: View, j: Job, p: LockedPc, c: Choice)
    requires j.pc == AtLocked(p) && LockReady(v, j.pc)
    requires c.Fault? && p.LogRestored? ==> Phase(v.cell.row.status) == 3
    ensures var (w, k) := LockedStep(now, v, j, p, c); LockKept(v, j.pc, w, k.pc)
  {
    hide Take, GiveBack;
    TakeKeepsRow(v, p.a.plan.units, now);
  }

  lemma HolderReady(s: Sys, o: nat, w: nat)
    requires o < |s.cells| && LockLaw(s, o) && FactsAbout(s, o) && w < |s.jobs| && Target(s.jobs[w].pc) == Some(o)
    ensures LockReady(ViewOf(s, o), s.jobs[w].pc)
  {
    TotalHeldCovers(s.jobs, o, Lock, w, w);
  }

  /** What a step about order `o` does to the lock of `o`. */
  lemma LocalStepLocks(s: Sys, o: nat, w: nat, c: Choice, v: View, j: Job)
    requires Inv(s) && o < |s.cells| && w < |s.jobs| && Target(s.jobs[w].pc) == Some(o)
    requires (v, j) == LocalStep(s.now, At(s.balance, Money(s.cells[o].row.user)), w, ViewOf(s, o), s.jobs[w], c)
    requires LockReady(ViewOf(s, o), s.jobs[w].pc)
    requires c.Fault? && s.jobs[w].pc.AtLocked? && s.jobs[w].pc.locked.LogRestored? ==>
               Phase(s.cells[o].row.status) == 3
    ensures LockKept(ViewOf(s, o), s.jobs[w].pc, v, j.pc) && Stepped(s, o, w, v, j)
  {
    var balance := At(s.balance, Money(s.cells[o].row.user));
    StepReady(s, o, w);
    LocalStepSettles(s.now, balance, w, ViewOf(s, o), s.jobs[w], c, o);
    hide Inv, Ready, LockReady, LockKept, PlainStep, LockedStep;
    if s.jobs[w].pc.AtLocked? {
      LockedLocks(s.now, ViewOf(s, o), s.jobs[w], s.jobs[w].pc.locked, c);
    } else {
      PlainLocks(s.now, balance, w, ViewOf(s, o), s.jobs[w].pc, c);
    }
  }

  lemma StepLocks(s: Sys, o: nat, w: nat, c: Choice)
    requires Inv(s) && LockInv(s) && o < |s.cells| && w < |s.jobs| && Target(s.jobs[w].pc) == Some(o)
    requires c.Fault? && s.jobs[w].pc.AtLocked? && s.jobs[w].pc.locked.LogRestored? ==>
               Phase(s.cells[o].row.status) == 3
    ensures LockInv(OrderStep(s, o, w, c))
  {
    var (v, j) := LocalStep(s.now, At(s.balance, Money(s.cells[o].row.user)), w, ViewOf(s, o), s.jobs[w], c);
    HolderReady(s, o, w);
    LocalStepLocks(s, o, w, c, v, j);
    StepViews(s, o, w, v, j);
    hide LocalStep;
    StepLockLaws(s, o, w, v, j);
    StepFacts(s, o, w, v, j);
  }

  lemma StepLockLaws(s: Sys, o: nat, w: nat, v: View, j: Job)
    requires LockInv(s) && Stepped(s, o, w, v, j) && LockKept(ViewOf(s, o), s.jobs[w].pc, v, j.pc)
    ensures forall i :: 0 <= i < |s.cells| ==> LockLaw(PutView(s, o, w, v, j), i)
  {
    hide FactsAbout, LockFact;
    forall i | 0 <= i < |s.cells| ensures LockLaw(PutView(s, o, w, v, j), i) {
      assert LockLaw(s, i);
      TotalHeldUpdate(s.jobs, w, j, i, Lock);
    }
  }

  lemma StepFacts(s: Sys, o: nat, w: nat, v: View, j: Job)
    requires CodesDistinct(s) && LockInv(s) && Stepped(s, o, w, v, j) && LockKept(ViewOf(s, o), s.jobs[w].pc, v, j.pc)
    ensures forall i :: 0 <= i < |s.cells| ==> FactsAbout(PutView(s, o, w, v, j), i)
  {
    var t := PutView(s, o, w, v, j);
    StepViews(s, o, w, v, j);
    hide LockLaw;
    forall i, u | 0 <= i < |s.cells| && 0 <= u < |t.jobs| && Target(t.jobs[u].pc) == Some(i)
      ensures LockFact(ViewOf(t, i), t.jobs[u].pc)
    {
      assert FactsAbout(s, i);
      if u != w {
        assert LockFact(ViewOf(s, i), s.jobs[u].pc);
      }
    }
  }

  // ---- any event ----

  lemma QuietFacts(s: Sys, e: Event, o: nat)
    requires Inv(s) && LockInv(s) && (e.Step? && e.w < |s.jobs| ==> IsQuiet(s, e.w)) && o < |Apply(s, e).cells|
    ensures FactsAbout(Apply(s, e), o)
  {
    var t := Apply(s, e);
    hide Inv, Apply, ViewOf, IsQuiet;
    if o < |s.cells| {
      QuietEvent(s, e, o);
      assert FactsAbout(s, o);
    } else {
      NewOrderHolds(s, e);
    }
    forall w | 0 <= w < |t.jobs| && Target(t.jobs[w].pc) == Some(o) ensures LockFact(ViewOf(t, o), t.jobs[w].pc) {
      QuietWorker(s, e, w);
    }
  }

  lemma QuietLockLaw(s: Sys, e: Event, o: nat)
    requires Inv(s) && LockInv(s) && (e.Step? && e.w < |s.jobs| ==> IsQuiet(s, e.w)) && o < |s.cells|
    ensures o < |Apply(s, e).cells| && LockLaw(Apply(s, e), o)
  {
    QuietHolds(s, e, o, Lock);
    QuietEvent(s, e, o);
    assert LockLaw(s, o);
    hide Inv, LockInv, Apply, IsQuiet, TotalHeld;
  }

  lemma NewOrderLock(s: Sys, e: Event)
    requires Inv(s) && (e.Step? && e.w < |s.jobs| ==> IsQuiet(s, e.w)) && |Apply(s, e).cells| > |s.cells|
    ensures LockLaw(Apply(s, e), |s.cells|)
  {
    NewOrderHolds(s, e);
    NobodyHolds(s, Lock);
    QuietHolds(s, e, |s.cells|, Lock);
    hide Inv, Apply, IsQuiet, TotalHeld;
  }

  lemma QuietLock(s: Sys, e: Event, o: nat)
    requires Inv(s) && LockInv(s) && (e.Step? && e.w < |s.jobs| ==> IsQuiet(s, e.w)) && o < |Apply(s, e).cells|
    ensures LockLaw(Apply(s, e), o) && FactsAbout(Apply(s, e), o)
  {
    QuietFacts(s, e, o);
    hide Inv, LockInv, Apply, IsQuiet, LockLaw, FactsAbout;
    if o < |s.cells| {
      QuietLockLaw(s, e, o);
    } else {
      NewOrderHolds(s, e);
      NewOrderLock(s, e);
    }
  }

  /** Every other event keeps the lock exclusive. */
  lemma ApplyLocks(s: Sys, e: Event)
    requires Inv(s) && LockInv(s) && !BreaksLock(s, e)
    ensures LockInv(Apply(s, e))
  {
    if e.Step? && e.w < |s.jobs| && Target(s.jobs[e.w].pc).Some? && Target(s.jobs[e.w].pc).value < |s.cells| {
      if s.jobs[e.w].alive {
        hide Inv, LockInv, OrderStep;
        StepLocks(s, Target(s.jobs[e.w].pc).value, e.w, e.c);
      }
    } else {
      hide Inv, Apply, LockLaw, FactsAbout;
      forall o | 0 <= o < |Apply(s, e).cells| ensures LockLaw(Apply(s, e), o) && FactsAbout(Apply(s, e), o) {
        QuietLock(s, e, o);
      }
    }
  }

  /** No commit fails after an order was restored, unless the order is refunded already. */
  predicate KeepsLocks(s: Sys, es: seq<Event>) {
    es == [] || (KeepsLocks(s, es[..|es| - 1]) && !BreaksLock(Run(s, es[..|es| - 1]), es[|es| - 1]))
  }

  lemma {:induction false} RunLocks(s: Sys, es: seq<Event>)
    requires Initial(s) && KeepsLocks(s, es)
    ensures LockInv(Run(s, es))
  {
    if es != [] {
      var m := es[..|es| - 1];
      RunLocks(s, m);
      RunKeeps(s, m);
      hide LockInv, Inv, BreaksLock;
      ApplyLocks(Run(s, m), es[|es| - 1]);
    }
  }
}
