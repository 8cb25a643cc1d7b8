/**
 Where the money is after any mix of failures (src/order/service.rs).

 The platform may answer a deduction or its rollback untruthfully in two ways: the answer is lost after
 the work was done, or the idempotency key, which carries only a timestamp in seconds, was used before
 and the work is not done again.  `Job.off` records both, so the books below balance on every run, failing
 commits included, and they read as intended exactly when those discrepancies cancel out.
 */
module Conservation {
  import opened Common
  import opened Orders
  import opened Protocol
  import opened Steps
  import opened Facts
  import opened World
  import opened Sums
  import opened Invariant
  import opened Quiet
  import opened Guarantees
  import opened Listing
  import opened Settle

  // ---- the parts of an account ----

  /** Deductions of refunds in flight on order `o`, vanished workers included. */
  function Flight(jobs: seq<Job>, o: nat): int {
    if jobs == [] then 0
    else
      var j := jobs[|jobs| - 1];
      Flight(jobs[..|jobs| - 1], o) + if Target(j.pc) == Some(o) then FlightUnits(j.pc) else 0
  }

  /** By how much the platform's answers strayed from what it did. */
  function Drift(jobs: seq<Job>, o: nat): int {
    if jobs == [] then 0
    else
      var j := jobs[|jobs| - 1];
      Drift(jobs[..|jobs| - 1], o) + if Target(j.pc) == Some(o) then j.off else 0
  }

  /** Taken by refunds that ended in an error of which no entry tells, because a commit of their own failed. */
  function Forgotten(jobs: seq<Job>, o: nat): int {
    if jobs == [] then 0
    else
      var j := jobs[|jobs| - 1];
      Forgotten(jobs[..|jobs| - 1], o) + if Target(j.pc) == Some(o) then UnrecordedUnits(j.pc) else 0
  }

  lemma {:induction false} UnitsSplit(jobs: seq<Job>, o: nat)
    ensures Total(jobs, o, Units) == Flight(jobs, o) + Forgotten(jobs, o) + Drift(jobs, o)
  {
    if jobs != [] {
      UnitsSplit(jobs[..|jobs| - 1], o);
    }
  }

  /** Deductions that finished refunds put on record. */
  function Finished(log: seq<Entry>): int {
    if log == [] then 0
    else
      var e := log[|log| - 1];
      Finished(log[..|log| - 1]) + if e.RefundSuccess? then e.units else 0
  }

  /** Deductions recorded in REFUND_ROLLBACK_FAILED entries. */
  function RollbackFailures(log: seq<Entry>): int {
    if log == [] then 0
    else
      var e := log[|log| - 1];
      RollbackFailures(log[..|log| - 1]) + if e.RefundRollbackFailed? then e.units else 0
  }

  lemma {:induction false} RecordsSplit(log: seq<Entry>)
    ensures LogCount(log, Units) == Finished(log) + RollbackFailures(log)
  {
    if log != [] {
      RecordsSplit(log[..|log| - 1]);
    }
  }

  /** What the ledger says an order put on its account: the face value, or the days granted. */
  function Credited(s: Sys, o: nat): int
    requires o < |s.cells|
  {
    var r := s.cells[o].row;
    if r.rechargeCode !in s.ledger then 0
    else if r.orderType == Balance then r.amountCents
    else s.ledger[r.rechargeCode].days
  }

  /** What one order accounts for, read off the ledger, the audit log and the workers. */
  function Accounted(s: Sys, o: nat): int
    requires o < |s.cells|
  {
    var log := s.cells[o].log;
    Credited(s, o) - Finished(log) - RollbackFailures(log) - Flight(s.jobs, o) - Forgotten(s.jobs, o)
  }

  function AccountedOn(s: Sys, n: nat, x: Account): int
    requires n <= |s.cells|
  {
    if n == 0 then 0
    else AccountedOn(s, n - 1, x) + if AccountOf(s.cells[n - 1].row) == x then Accounted(s, n - 1) else 0
  }

  function DriftOn(s: Sys, n: nat, x: Account): int
    requires n <= |s.cells|
  {
    if n == 0 then 0
    else DriftOn(s, n - 1, x) + if AccountOf(s.cells[n - 1].row) == x then Drift(s.jobs, n - 1) else 0
  }

  lemma OrderBooks(s: Sys, o: nat)
    requires Reachable(s) && o < |s.cells|
    ensures var log := s.cells[o].log;
            s.cells[o].taken ==
            Finished(log) + RollbackFailures(log) + Flight(s.jobs, o) + Forgotten(s.jobs, o) + Drift(s.jobs, o)
    ensures OrderNet(ViewOf(s, o)) == Accounted(s, o) - Drift(s.jobs, o)
  {
    ReachableLaw(s, o, Units);
    UnitsSplit(s.jobs, o);
    RecordsSplit(s.cells[o].log);
  }

  lemma {:induction false} AccountBooks(s: Sys, n: nat, x: Account)
    requires Reachable(s) && n <= |s.cells|
    ensures Net(s, n, x) == AccountedOn(s, n, x) - DriftOn(s, n, x)
  {
    if n > 0 {
      AccountBooks(s, n - 1, x);
      OrderBooks(s, n - 1);
      hide Accounted, Drift, Reachable;
    }
  }

  /**
   On every run an account, a user's money or a user's days with a group, holds the base, plus what its orders
   were credited, minus the deductions of finished refunds, of refunds in flight, of failed rollbacks and of
   refunds whose own commit failed, minus the drift.  Hence the books balance without the drift if and only if
   the drift is nil.
   */
  lemma BalanceConserved(s: Sys, x: Account)
    requires Reachable(s)
    ensures At(s.balance, x) == At(s.base, x) + AccountedOn(s, |s.cells|, x) - DriftOn(s, |s.cells|, x)
  {
    ReachableInv(s);
    assert BalanceLaw(s, x);
    AccountBooks(s, |s.cells|, x);
  }

  // ---- truthful platforms ----

  /** The platform answers a deduction or a rollback truthfully: nothing lost, no key used before. */
  predicate Truthful(s: Sys, e: Event) {
    e.Step? && e.w < |s.jobs| && s.jobs[e.w].pc.AtLocked? ==>
      var p := s.jobs[e.w].pc.locked;
      (p.Deduct? || p.Rollback?) && p.a.plan.units > 0 && p.a.order < |s.cells| ==>
        && !e.c.Lost?
        && (e.c.Ok? ==> s.now !in if p.Deduct? then s.cells[p.a.order].subtracted else s.cells[p.a.order].added)
  }

  predicate TruthfulRun(s: Sys, es: seq<Event>) {
    if es == [] then true
    else TruthfulRun(s, es[..|es| - 1]) && Truthful(Run(s, es[..|es| - 1]), es[|es| - 1])
  }

  ghost predicate NoDrift(s: Sys) {
    forall w :: 0 <= w < |s.jobs| ==> s.jobs[w].off == 0
  }

  lemma LocalStepTruthful(now: int, balance: int, me: nat, v: View, j: Job, c: Choice)
    requires j.off == 0
    requires j.pc.AtLocked? && (j.pc.locked.Deduct? || j.pc.locked.Rollback?) && j.pc.locked.a.plan.units > 0 ==>
               !c.Lost? && (c.Ok? ==> now !in if j.pc.locked.Deduct? then v.cell.subtracted else v.cell.added)
    ensures LocalStep(now, balance, me, v, j, c).1.off == 0
  {
    hide PlainStep, BookStep;
  }

  lemma ApplyTruthful(s: Sys, e: Event)
    requires NoDrift(s) && Truthful(s, e)
    ensures NoDrift(Apply(s, e))
  {
    hide LocalStep, PlainStep, Missing, ListExpired, PendingOf, NewRow, IsStart;
    if e.Step? && e.w < |s.jobs| && Target(s.jobs[e.w].pc).Some? && Target(s.jobs[e.w].pc).value < |s.cells| {
      var o := Target(s.jobs[e.w].pc).value;
      LocalStepTruthful(s.now, At(s.balance, Money(s.cells[o].row.user)), e.w, ViewOf(s, o), s.jobs[e.w], e.c);
    }
  }

  lemma {:induction false} RunTruthful(s: Sys, es: seq<Event>)
    requires Initial(s) && TruthfulRun(s, es)
    ensures NoDrift(Run(s, es))
  {
    if es != [] {
      RunTruthful(s, es[..|es| - 1]);
      ApplyTruthful(Run(s, es[..|es| - 1]), es[|es| - 1]);
    }
  }

  lemma {:induction false} NoDriftSums(s: Sys, n: nat, x: Account)
    requires NoDrift(s) && n <= |s.cells|
    ensures DriftOn(s, n, x) == 0
  {
    if n > 0 {
      NoDriftSums(s, n - 1, x);
      NoDriftOrder(s.jobs, n - 1);
    }
  }

  lemma {:induction false} NoDriftOrder(jobs: seq<Job>, o: nat)
    requires forall w :: 0 <= w < |jobs| ==> jobs[w].off == 0
    ensures Drift(jobs, o) == 0
  {
    if jobs != [] {
      NoDriftOrder(jobs[..|jobs| - 1], o);
    }
  }

  /** With truthful answers an account holds exactly what the ledger, the log and the workers say. */
  lemma BalanceConservedTruthfully(s0: Sys, es: seq<Event>, x: Account)
    requires Initial(s0) && TruthfulRun(s0, es)
    ensures var s := Run(s0, es); At(s.balance, x) == At(s.base, x) + AccountedOn(s, |s.cells|, x)
  {
    var s := Run(s0, es);
    assert Reachable(s);
    BalanceConserved(s, x);
    RunTruthful(s0, es);
    NoDriftSums(s, |s.cells|, x);
  }

  // ---- one refund attempt ----

  /** Nothing is taken before the lock is won, nor by a refund that is refused or asks for force. */
  lemma NothingTakenWithoutLock(s: Sys, w: nat)
    requires Reachable(s) && w < |s.jobs| && !s.jobs[w].pc.AtLocked? && !s.jobs[w].pc.RefundOver?
    ensures s.jobs[w].applied == 0
  {
    ReachableWorker(s, w);
  }

  /** The planned deduction never exceeds the refund (balance) or the days sold (subscription). */
  lemma DeductionWithinPlan(s: Sys, w: nat, a: Attempt, ending: Ending)
    requires Reachable(s) && w < |s.jobs| && s.jobs[w].pc == RefundOver(a, ending)
    ensures a.order < |s.cells|
    ensures var r := s.cells[a.order].row;
            && 0 < a.cents <= r.amountCents
            && (r.orderType == Balance ==> a.plan.units <= a.cents)
            && (r.orderType == Subscription ==> a.plan.units <= Max(r.days.GetOr(0), 0))
            && (a.gatewayCents == a.cents || (a.cents == r.amountCents && a.gatewayCents == Expected(r)))
  {
    ReachableWorker(s, w);
  }

  /** What the refund attempts on an order took and did not give back. */
  function TakenBy(jobs: seq<Job>, o: nat): int {
    if jobs == [] then 0
    else
      var j := jobs[|jobs| - 1];
      TakenBy(jobs[..|jobs| - 1], o) + GiveTaken(j, o)
  }

  function GiveTaken(j: Job, o: nat): int {
    if Target(j.pc) == Some(o) then j.applied else 0
  }

  lemma {:induction false} TakenByUpdate(jobs: seq<Job>, w: nat, k: Job, o: nat)
    requires w < |jobs|
    ensures TakenBy(jobs[w := k], o) == TakenBy(jobs, o) - GiveTaken(jobs[w], o) + GiveTaken(k, o)
  {
    var n := |jobs| - 1;
    if w == n {
      assert jobs[w := k][..n] == jobs[..n];
    } else {
      TakenByUpdate(jobs[..n], w, k, o);
      assert jobs[w := k][..n] == jobs[..n][w := k];
    }
  }

  lemma {:induction false} TakenByNobody(jobs: seq<Job>, o: nat)
    requires forall w :: 0 <= w < |jobs| ==> GiveTaken(jobs[w], o) == 0
    ensures TakenBy(jobs, o) == 0
  {
    if jobs != [] {
      TakenByNobody(jobs[..|jobs| - 1], o);
    }
  }

  ghost predicate TakenLaw(s: Sys) {
    forall o :: 0 <= o < |s.cells| ==> s.cells[o].taken == TakenBy(s.jobs, o)
  }

  lemma LocalStepTakes(now: int, balance: int, me: nat, v: View, j: Job, c: Choice)
    ensures var (w, k) := LocalStep(now, balance, me, v, j, c); w.cell.taken - v.cell.taken == k.applied - j.applied
  {
    if j.pc.AtLocked? {
      hide PlainStep;
    } else {
      PlainStepTakesNothing(now, balance, me, v, j.pc, c);
      hide PlainStep, LockedStep;
    }
  }

  lemma PlainStepTakesNothing(now: int, balance: int, me: nat, v: View, pc: Pc, c: Choice)
    ensures PlainStep(now, balance, me, v, pc, c).0.cell.taken == v.cell.taken
  {
    hide PrepareDeduction, GrantedDays, Return, SweepNext, Redeemed;
  }

  lemma StepTakes(s: Sys, o: nat, w: nat, c: Choice)
    requires Inv(s) && TakenLaw(s)
    requires o < |s.cells| && w < |s.jobs| && Target(s.jobs[w].pc) == Some(o)
    ensures TakenLaw(OrderStep(s, o, w, c))
  {
    var balance := At(s.balance, Money(s.cells[o].row.user));
    StepReady(s, o, w);
    LocalStepSettles(s.now, balance, w, ViewOf(s, o), s.jobs[w], c, o);
    LocalStepTakes(s.now, balance, w, ViewOf(s, o), s.jobs[w], c);
    var k := LocalStep(s.now, balance, w, ViewOf(s, o), s.jobs[w], c).1;
    hide LocalStep, Inv;
    var t := OrderStep(s, o, w, c);
    forall i | 0 <= i < |t.cells| ensures t.cells[i].taken == TakenBy(t.jobs, i) {
      TakenByUpdate(s.jobs, w, k, i);
    }
  }

  /** The other events neither take anything nor forget who did. */
  lemma QuietTakes(s: Sys, e: Event)
    requires Inv(s) && TakenLaw(s)
    requires e.Step? && e.w < |s.jobs| ==> IsQuiet(s, e.w)
    ensures TakenLaw(Apply(s, e))
  {
    var t := Apply(s, e);
    forall o | 0 <= o < |t.cells| ensures t.cells[o].taken == TakenBy(t.jobs, o) {
      QuietTakesOrder(s, e, o);
    }
  }

  lemma WorkersTakeFromKnownOrders(s: Sys, w: nat)
    requires Inv(s) && w < |s.jobs|
    ensures s.jobs[w].applied != 0 ==> Target(s.jobs[w].pc).Some? && Target(s.jobs[w].pc).value < |s.cells|
  {
    assert WorkerOk(s, s.jobs[w]);
  }

  lemma QuietTakesOrder(s: Sys, e: Event, o: nat)
    requires Inv(s) && TakenLaw(s) && o < |Apply(s, e).cells|
    requires e.Step? && e.w < |s.jobs| ==> IsQuiet(s, e.w)
    ensures Apply(s, e).cells[o].taken == TakenBy(Apply(s, e).jobs, o)
  {
    var t := Apply(s, e);
    hide WorkerStep;
    if e.Spawn? && IsStart(e.pc) {
      assert t.jobs[..|s.jobs|] == s.jobs;
    } else if e.Step? && e.w < |s.jobs| && s.jobs[e.w].alive {
      QuietStepTakes(s, e.w, e.c, o);
    } else if e.Vanish? && e.w < |s.jobs| {
      TakenByUpdate(s.jobs, e.w, t.jobs[e.w], o);
    }
  }

  lemma QuietStepTakes(s: Sys, w: nat, c: Choice, o: nat)
    requires Inv(s) && TakenLaw(s) && IsQuiet(s, w) && o < |WorkerStep(s, w, c).cells|
    ensures WorkerStep(s, w, c).cells[o].taken == TakenBy(WorkerStep(s, w, c).jobs, o)
  {
    var t := WorkerStep(s, w, c);
    WorkersTakeFromKnownOrders(s, w);
    QuietStepShape(s, w, c);
    TakenByUpdate(s.jobs, w, t.jobs[w], o);
    hide WorkerStep;
    if o == |s.cells| {
      NobodyTakes(s);
    } else {
      assert t.cells[o] == s.cells[o];
    }
    hide Inv;
  }

  lemma NobodyTakes(s: Sys)
    requires Inv(s)
    ensures TakenBy(s.jobs, |s.cells|) == 0
  {
    forall w | 0 <= w < |s.jobs| ensures GiveTaken(s.jobs[w], |s.cells|) == 0 {
      WorkersTakeFromKnownOrders(s, w);
    }
    TakenByNobody(s.jobs, |s.cells|);
  }

  /** All that the platform took through an order is what the refund attempts on it report to have taken. */
  lemma {:induction false} TakenIsApplied(s0: Sys, es: seq<Event>)
    requires Initial(s0)
    ensures TakenLaw(Run(s0, es))
  {
    if es != [] {
      var m := es[..|es| - 1];
      var e := es[|es| - 1];
      TakenIsApplied(s0, m);
      RunKeeps(s0, m);
      var s := Run(s0, m);
      if e.Step? && e.w < |s.jobs| && Target(s.jobs[e.w].pc).Some? && Target(s.jobs[e.w].pc).value < |s.cells| {
        if s.jobs[e.w].alive {
          StepTakes(s, Target(s.jobs[e.w].pc).value, e.w, e.c);
        }
      } else {
        QuietTakes(s, e);
      }
    }
  }
}
