/**
 Two guarantees about many orders at once (src/order/service.rs): the cap on a user's pending orders,
 whose check and insert are separate steps, and the count a timeout sweep returns.
 */
module Caps {
  import opened Common
  import opened Orders
  import opened Protocol
  import opened Steps
  import opened Facts
  import opened Fees
  import opened Listing
  import opened World
  import opened Invariant
  import opened Quiet
  import opened Guarantees

  // ---- pending orders ----

  /** Creators of user `u` that passed the check and have yet to insert. */
  function Creators(jobs: seq<Job>, u: int): nat {
    if jobs == [] then 0 else Creators(jobs[..|jobs| - 1], u) + IsCreator(jobs[|jobs| - 1], u)
  }

  function IsCreator(j: Job, u: int): nat {
    if j.alive && j.pc.AtCreate? && j.pc.create.CreateInsert? && j.pc.create.input.user == u then 1 else 0
  }

  lemma {:induction false} CreatorsUpdate(jobs: seq<Job>, w: nat, k: Job, u: int)
    requires w < |jobs|
    ensures Creators(jobs[w := k], u) == Creators(jobs, u) - IsCreator(jobs[w], u) + IsCreator(k, u)
  {
    var n := |jobs| - 1;
    if w == n {
      assert jobs[w := k][..n] == jobs[..n];
    } else {
      CreatorsUpdate(jobs[..n], w, k, u);
      assert jobs[w := k][..n] == jobs[..n][w := k];
    }
  }

  lemma CreatorsAppend(jobs: seq<Job>, k: Job, u: int)
    ensures Creators(jobs + [k], u) == Creators(jobs, u) + IsCreator(k, u)
  {
    assert (jobs + [k])[..|jobs|] == jobs;
  }

  function IsPending(c: Cell, u: int): nat {
    if c.row.user == u && c.row.status == Pending then 1 else 0
  }

  lemma PendingUpdate(cells: seq<Cell>, o: nat, c: Cell, u: int)
    requires o < |cells|
    ensures PendingOf(cells[o := c], u) == PendingOf(cells, u) - IsPending(cells[o], u) + IsPending(c, u)
  {
    assert Rows(cells[o := c]) == Rows(cells)[o := c.row];
    CountPendingUpdate(Rows(cells), o, c.row, u);
  }

  ghost predicate Capped(s: Sys, u: int, max: int, k: int) {
    PendingOf(s.cells, u) + Creators(s.jobs, u) <= max - 1 + k
  }

  /** Throughout the run the limit is `max` and at most `k` creators of user `u` are past the check at once. */
  ghost predicate AtMostCreators(s: Sys, es: seq<Event>, u: int, max: int, k: int) {
    forall i :: 0 <= i <= |es| ==> Creators(Run(s, es[..i]).jobs, u) <= k && Run(s, es[..i]).limits.maxPending == max
  }

  /** A step about an existing order never makes an order pending and never makes its worker a creator. */
  lemma OrderStepCap(s: Sys, o: nat, w: nat, c: Choice, u: int)
    requires Inv(s) && o < |s.cells| && w < |s.jobs| && Target(s.jobs[w].pc) == Some(o)
    ensures var t := OrderStep(s, o, w, c);
            PendingOf(t.cells, u) + Creators(t.jobs, u) <= PendingOf(s.cells, u) + Creators(s.jobs, u)
  {
    StepEvolves(s, o, w, c, o);
    var (v, j) := LocalStep(s.now, At(s.balance, Money(s.cells[o].row.user)), w, ViewOf(s, o), s.jobs[w], c);
    assert CellOk(ViewOf(s, o));
    LocalStepSweeps(s.now, At(s.balance, Money(s.cells[o].row.user)), w, ViewOf(s, o), s.jobs[w], c);
    hide LocalStep, Inv, CellOk;
    PendingUpdate(s.cells, o, v.cell, u);
    CreatorsUpdate(s.jobs, w, j, u);
  }

  /** A creation: only a passed check adds a creator, and an insert trades one for an order. */
  lemma CreateStepCap(s: Sys, w: nat, p: CreatePc, u: int)
    requires w < |s.jobs| && s.jobs[w].alive && s.jobs[w].pc == AtCreate(p)
    ensures var t := CreateStep(s, w, p);
            || PendingOf(t.cells, u) + Creators(t.jobs, u) <= PendingOf(s.cells, u) + Creators(s.jobs, u)
            || (t.cells == s.cells && PendingOf(s.cells, u) < s.limits.maxPending)
  {
    hide PendingOf, Creators, CodeTaken, PayAmount;
    var t := CreateStep(s, w, p);
    CreatorsUpdate(s.jobs, w, t.jobs[w], u);
    if |t.cells| == |s.cells| + 1 {
      PendingAppend(s.cells, t.cells[|s.cells|], u);
    }
  }

  /** The other steps of a worker: none creates anything. */
  lemma QuietStepCap(s: Sys, w: nat, c: Choice, u: int)
    requires w < |s.jobs| && s.jobs[w].alive && IsQuiet(s, w)
    ensures var t := WorkerStep(s, w, c);
            || PendingOf(t.cells, u) + Creators(t.jobs, u) <= PendingOf(s.cells, u) + Creators(s.jobs, u)
            || (t.cells == s.cells && PendingOf(s.cells, u) < s.limits.maxPending)
  {
    if s.jobs[w].pc.AtCreate? {
      CreateStepCap(s, w, s.jobs[w].pc.create, u);
      hide CreateStep, PendingOf, Creators;
    } else {
      QuietStepShape(s, w, c);
      QuietCreatesNothing(s, w, c);
      hide WorkerStep, PendingOf, Creators;
      CreatorsUpdate(s.jobs, w, WorkerStep(s, w, c).jobs[w], u);
    }
  }

  lemma QuietCreatesNothing(s: Sys, w: nat, c: Choice)
    requires w < |s.jobs| && IsQuiet(s, w) && !s.jobs[w].pc.AtCreate?
    ensures var t := WorkerStep(s, w, c); t.cells == s.cells && w < |t.jobs| && !t.jobs[w].pc.AtCreate?
  {
    MissingDoesNotCreate(s.now, s.jobs[w].pc);
    hide CreateStep, OrderStep, ListExpired, Missing;
  }

  lemma MissingDoesNotCreate(now: int, pc: Pc)
    ensures !Missing(now, pc).AtCreate?
  {
    hide Target;
  }

  lemma PendingAppend(cells: seq<Cell>, c: Cell, u: int)
    ensures PendingOf(cells + [c], u) == PendingOf(cells, u) + IsPending(c, u)
  {
    assert Rows(cells + [c]) == Rows(cells) + [c.row];
    assert (Rows(cells) + [c.row])[..|cells|] == Rows(cells);
  }

  lemma ApplyCap(s: Sys, e: Event, u: int, k: int)
    requires Inv(s) && Capped(s, u, s.limits.maxPending, k)
    requires Creators(Apply(s, e).jobs, u) <= k
    ensures Capped(Apply(s, e), u, s.limits.maxPending, k)
  {
    if e.Step? && e.w < |s.jobs| && Target(s.jobs[e.w].pc).Some? && Target(s.jobs[e.w].pc).value < |s.cells| {
      assert WorkerStep(s, e.w, e.c) == OrderStep(s, Target(s.jobs[e.w].pc).value, e.w, e.c);
    }
    hide WorkerStep, OrderStep, Inv, PendingOf, Creators;
    match e
    case Step(w, c) =>
      if w < |s.jobs| && s.jobs[w].alive {
        if Target(s.jobs[w].pc).Some? && Target(s.jobs[w].pc).value < |s.cells| {
          OrderStepCap(s, Target(s.jobs[w].pc).value, w, c, u);
        } else {
          QuietStepCap(s, w, c, u);
        }
      }
    case Spawn(pc) =>
      if IsStart(pc) {
        CreatorsAppend(s.jobs, Job(pc, true, 0, 0), u);
      }
    case Vanish(w) =>
      if w < |s.jobs| {
        CreatorsUpdate(s.jobs, w, s.jobs[w].(alive := false), u);
      }
    case _ =>
  }

  /**
   The check and the insert are separate, so the cap can be overshot, but only by the creators that were
   past the check together: with at most `k` of them at once, pending orders and creators in flight never
   exceed max - 1 + k.
   */
  lemma {:induction false} PendingCap(s: Sys, es: seq<Event>, u: int, max: int, k: int)
    requires Initial(s) && max >= 1 && AtMostCreators(s, es, u, max, k)
    ensures Capped(Run(s, es), u, max, k)
  {
    if es == [] {
      assert Run(s, es[..0]) == s;
    } else {
      var m := es[..|es| - 1];
      forall i | 0 <= i <= |m|
        ensures Creators(Run(s, m[..i]).jobs, u) <= k && Run(s, m[..i]).limits.maxPending == max
      {
        assert m[..i] == es[..i];
      }
      PendingCap(s, m, u, max, k);
      RunKeeps(s, m);
      assert m[..|m|] == m && es[..|es|] == es;
      assert Creators(Run(s, es[..|es|]).jobs, u) <= k;
      ApplyCap(Run(s, m), es[|es| - 1], u, k);
    }
  }

  /** One creator at a time: the cap holds exactly. */
  lemma PendingCapSequential(s: Sys, es: seq<Event>, u: int, max: int)
    requires Initial(s) && max >= 1 && AtMostCreators(s, es, u, max, 1)
    ensures PendingOf(Run(s, es).cells, u) <= max
  {
    PendingCap(s, es, u, max, 1);
  }

  // ---- the count returned by a sweep ----

  /** Orders moved to EXPIRED by worker `w`. */
  function ExpiredBy(cells: seq<Cell>, w: nat): nat {
    if cells == [] then 0 else ExpiredBy(cells[..|cells| - 1], w) + IsExpiredBy(cells[|cells| - 1], w)
  }

  function IsExpiredBy(c: Cell, w: nat): nat {
    if c.expiredBy == Some(w) then 1 else 0
  }

  lemma {:induction false} ExpiredByUpdate(cells: seq<Cell>, o: nat, c: Cell, w: nat)
    requires o < |cells|
    ensures ExpiredBy(cells[o := c], w) == ExpiredBy(cells, w) - IsExpiredBy(cells[o], w) + IsExpiredBy(c, w)
  {
    var n := |cells| - 1;
    if o == n {
      assert cells[o := c][..n] == cells[..n];
    } else {
      ExpiredByUpdate(cells[..n], o, c, w);
      assert cells[o := c][..n] == cells[..n][o := c];
    }
  }

  /** The count a sweep has reached or returned. */
  function SweepCount(pc: Pc): nat {
    match pc
    case AtSweep(p) => p.count
    case Done(_, Swept(count)) => count
    case _ => 0
  }

  ghost predicate SweepLaw(s: Sys) {
    forall w: nat :: ExpiredBy(s.cells, w) == if w < |s.jobs| then SweepCount(s.jobs[w].pc) else 0
  }

  /** The step expires nothing, does not end a sweep and does not turn its worker into a creator. */
  ghost predicate NoSweep(v: View, r: (View, Pc)) {
    r.0.cell.expiredBy == v.cell.expiredBy && SweepCount(r.1) == 0 && !r.1.AtCreate?
  }

  lemma EarlyProgramsDoNotSweep(now: int, v: View, p: AttachPc, q: NoticePc, r: CancelPc, c: Choice)
    ensures NoSweep(v, AttachStep(now, v, p, c)) && NoSweep(v, NoticeStep(now, v, q))
    ensures NoSweep(v, CancelStep(now, v, r))
  {
  }

  lemma FulfillDoesNotSweep(now: int, v: View, p: FulfillPc, c: Choice)
    ensures NoSweep(v, FulfillStep(now, v, p, c))
  {
    hide GrantedDays, Redeemed;
  }

  lemma LateProgramsDoNotSweep(now: int, balance: int, v: View, p: RetryPc, q: RequestPc, r: RefundPc, c: Choice)
    ensures NoSweep(v, RetryStep(now, v, p)) && NoSweep(v, RequestStep(now, balance, v, q, c))
    ensures NoSweep(v, RefundStep(now, balance, v, r, c))
  {
    hide PrepareDeduction;
  }

  lemma TakeAndGiveBackDoNotSweep(v: View, units: nat, now: int)
    ensures Take(v, units, now).cell.expiredBy == v.cell.expiredBy
    ensures GiveBack(v, units, now).cell.expiredBy == v.cell.expiredBy
  {
  }

  lemma LockedDoesNotSweep(now: int, v: View, j: Job, p: LockedPc, c: Choice)
    ensures var (w, k) := LockedStep(now, v, j, p, c); NoSweep(v, (w, k.pc))
  {
    hide Take, GiveBack;
    TakeAndGiveBackDoNotSweep(v, p.a.plan.units, now);
  }

  /** A step about one order expires it and counts it, or does neither; and it never starts a creation. */
  ghost predicate Sweeps(me: nat, v: View, pc: Pc, w: View, qc: Pc) {
    && (qc.AtCreate? ==> pc.AtCreate?)
    && (Unswept(v, pc, w, qc) || SweptOne(me, v, pc, w, qc))
  }

  ghost predicate Unswept(v: View, pc: Pc, w: View, qc: Pc) {
    w.cell.expiredBy == v.cell.expiredBy && SweepCount(qc) == SweepCount(pc)
  }

  ghost predicate SweptOne(me: nat, v: View, pc: Pc, w: View, qc: Pc) {
    v.cell.expiredBy.None? && w.cell.expiredBy == Some(me) && SweepCount(qc) == SweepCount(pc) + 1
  }

  lemma PlainStepSweeps(now: int, balance: int, me: nat, v: View, pc: Pc, c: Choice)
    requires CellOk(v)
    ensures var (w, qc) := PlainStep(now, balance, me, v, pc, c); Sweeps(me, v, pc, w, qc)
  {
    match pc
    case AtSweep(p) =>
    case AtFulfill(p) => FulfillDoesNotSweep(now, v, p, c);
    case AtAttach(p) =>
      EarlyProgramsDoNotSweep(now, v, p, NoticeStart(Notice(0, "", 0, false)), CancelRead(0, None), c);
    case AtNotice(p) => EarlyProgramsDoNotSweep(now, v, CreateLog(0), p, CancelRead(0, None), c);
    case AtCancel(p) => EarlyProgramsDoNotSweep(now, v, CreateLog(0), NoticeStart(Notice(0, "", 0, false)), p, c);
    case AtRetry(p) =>
      LateProgramsDoNotSweep(now, balance, v, p, RequestRead(0, 0, 0), RefundRead(0, None, false, false), c);
    case AtRequest(p) =>
      LateProgramsDoNotSweep(now, balance, v, RetryRead(0), p, RefundRead(0, None, false, false), c);
    case AtRefund(p) =>
      LateProgramsDoNotSweep(now, balance, v, RetryRead(0), RequestRead(0, 0, 0), p, c);
    case _ =>
  }

  lemma LocalStepSweeps(now: int, balance: int, me: nat, v: View, j: Job, c: Choice)
    requires CellOk(v)
    ensures var (w, k) := LocalStep(now, balance, me, v, j, c); Sweeps(me, v, j.pc, w, k.pc)
  {
    if j.pc.AtLocked? {
      LockedDoesNotSweep(now, v, j, j.pc.locked, c);
    } else {
      PlainStepSweeps(now, balance, me, v, j.pc, c);
    }
    hide PlainStep, LockedStep, CellOk;
  }

  lemma StepSweeps(s: Sys, o: nat, w: nat, c: Choice)
    requires Inv(s) && SweepLaw(s) && o < |s.cells| && w < |s.jobs| && Target(s.jobs[w].pc) == Some(o)
    ensures SweepLaw(OrderStep(s, o, w, c))
  {
    var (v, k) := LocalStep(s.now, At(s.balance, Money(s.cells[o].row.user)), w, ViewOf(s, o), s.jobs[w], c);
    assert CellOk(ViewOf(s, o));
    LocalStepSweeps(s.now, At(s.balance, Money(s.cells[o].row.user)), w, ViewOf(s, o), s.jobs[w], c);
    hide LocalStep, Inv, CellOk;
    var t := OrderStep(s, o, w, c);
    forall u: nat ensures ExpiredBy(t.cells, u) == if u < |t.jobs| then SweepCount(t.jobs[u].pc) else 0 {
      ExpiredByUpdate(s.cells, o, v.cell, u);
    }
  }

  lemma QuietStepSweeps(s: Sys, w: nat, c: Choice)
    requires IsQuiet(s, w) && SweepLaw(s) && SweepCount(s.jobs[w].pc) == 0
    ensures SweepLaw(WorkerStep(s, w, c))
  {
    var t := WorkerStep(s, w, c);
    QuietStepShape(s, w, c);
    QuietStepCounts(s, w, c);
    hide WorkerStep;
    forall u: nat ensures ExpiredBy(t.cells, u) == if u < |t.jobs| then SweepCount(t.jobs[u].pc) else 0 {
      if |t.cells| == |s.cells| + 1 {
        assert t.cells[..|s.cells|] == s.cells;
      }
    }
  }

  lemma QuietStepCounts(s: Sys, w: nat, c: Choice)
    requires IsQuiet(s, w) && SweepCount(s.jobs[w].pc) == 0
    ensures w < |WorkerStep(s, w, c).jobs| && SweepCount(WorkerStep(s, w, c).jobs[w].pc) == 0
  {
    var pc := s.jobs[w].pc;
    if pc.AtCreate? {
      CreatingDoesNotSweep(s, w, pc.create);
      hide CreateStep, Missing, Target, SweepCount;
    } else {
      MissingDoesNotSweep(s.now, pc);
      hide Missing, ListExpired, CreateStep, OrderStep;
    }
  }

  lemma CreatingDoesNotSweep(s: Sys, w: nat, p: CreatePc)
    requires w < |s.jobs|
    ensures var t := CreateStep(s, w, p); w < |t.jobs| && SweepCount(t.jobs[w].pc) == 0
  {
    hide PendingOf, NewRow, CodeTaken, Admissible;
  }

  lemma MissingDoesNotSweep(now: int, pc: Pc)
    ensures SweepCount(Missing(now, pc)) == 0
  {
    hide Target;
  }

  lemma ApplySweeps(s: Sys, e: Event)
    requires Inv(s) && SweepLaw(s)
    ensures SweepLaw(Apply(s, e))
  {
    if e.Step? && e.w < |s.jobs| && s.jobs[e.w].alive {
      var target := Target(s.jobs[e.w].pc);
      if target.Some? && target.value < |s.cells| {
        StepSweeps(s, target.value, e.w, e.c);
        hide Inv, SweepLaw, OrderStep;
      } else {
        assert WorkerOk(s, s.jobs[e.w]);
        assert SweepCount(s.jobs[e.w].pc) == 0;
        QuietStepSweeps(s, e.w, e.c);
        hide Inv, SweepLaw, WorkerStep;
      }
    } else {
      hide Inv;
      OtherEventSweeps(s, e);
    }
  }

  lemma OtherEventSweeps(s: Sys, e: Event)
    requires SweepLaw(s) && (e.Step? && e.w < |s.jobs| ==> !s.jobs[e.w].alive)
    ensures SweepLaw(Apply(s, e))
  {
    hide WorkerStep;
    var t := Apply(s, e);
    forall u: nat ensures ExpiredBy(t.cells, u) == if u < |t.jobs| then SweepCount(t.jobs[u].pc) else 0 {
    }
  }

  lemma {:induction false} RunSweeps(s: Sys, es: seq<Event>)
    requires Initial(s)
    ensures SweepLaw(Run(s, es))
  {
    if es != [] {
      RunSweeps(s, es[..|es| - 1]);
      RunKeeps(s, es[..|es| - 1]);
      ApplySweeps(Run(s, es[..|es| - 1]), es[|es| - 1]);
    }
  }

  /** Whatever else goes on, a sweep returns the number of orders it moved from PENDING to EXPIRED itself. */
  lemma SweepCountsItsOwn(s: Sys, es: seq<Event>, w: nat, about: Option<nat>, count: nat)
    requires Initial(s)
    requires w < |Run(s, es).jobs| && Run(s, es).jobs[w].pc == Done(about, Swept(count))
    ensures ExpiredBy(Run(s, es).cells, w) == count
  {
    RunSweeps(s, es);
  }

  /** An order paid at any moment, say after a sweep listed it, is not expired by anyone from then on. */
  lemma PaidNeverExpires(s: Sys, es: seq<Event>, i: nat, o: nat)
    requires Initial(s) && i <= |es| && o < |Run(s, es[..i]).cells|
    requires Run(s, es[..i]).cells[o].row.paidAt.Some?
    ensures o < |Run(s, es).cells|
    ensures Run(s, es).cells[o].expiredBy == Run(s, es[..i]).cells[o].expiredBy
    ensures Run(s, es).cells[o].row.status != Expired
  {
    RunEvolves(s, es, i, o);
    RunKeeps(s, es);
    assert CellOk(ViewOf(Run(s, es), o));
  }
}
