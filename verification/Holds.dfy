/**
 Who holds what of a refund (src/order/service.rs, src/order/repository.rs): the REFUNDING lock, a gateway refund
 that is not yet on the row, a claim on the gateway, a pending release of the lock.  Which programs these are no
 concern of, and sums over all workers.
 */
module Holds {
  import opened Common
  import opened Orders
  import opened Protocol
  import opened Steps
  import opened World
  import opened Invariant
  import opened Quiet

  datatype Hold = Lock | SentBack | Claim | Release

  /** In possession of the REFUNDING lock; for good, if the statement that releases it failed. */
  predicate HoldsLock(pc: Pc) {
    match pc
    case AtLocked(FailMark(_, cause)) => Holding(cause)
    case AtLocked(FailLog(_, cause, marked)) => Holding(cause) && !marked
    case AtLocked(p) => !p.LogRestored? && !p.LogDone?
    case RefundOver(_, Errored(cause, marked)) => Holding(cause) && !marked
    case _ => false
  }

  /** The gateway refund went through but is not yet on the row. */
  predicate HasSent(pc: Pc) {
    pc.AtLocked? && pc.locked.Mark? && pc.locked.sent
  }

  /** The gateway refund went through, or the attempt still runs and has not let go of the lock. */
  predicate Claims(j: Job) {
    || HasSent(j.pc)
    || (j.alive && j.pc.AtLocked? && !j.pc.locked.LogRestored? && !j.pc.locked.LogDone? && !OnErrorPath(j.pc.locked))
  }

  /** About to release the REFUNDING lock from the error path, whoever holds it. */
  predicate Releases(j: Job) {
    j.alive && j.pc.AtLocked? && j.pc.locked.FailMark?
  }

  function Held(j: Job, h: Hold): int {
    match h
    case Lock => Ind(HoldsLock(j.pc))
    case SentBack => Ind(HasSent(j.pc))
    case Claim => Ind(Claims(j))
    case Release => Ind(Releases(j))
  }

  function GiveHeld(j: Job, o: nat, h: Hold): int {
    if Target(j.pc) == Some(o) then Held(j, h) else 0
  }

  // ---- sums over all workers ----

  function TotalHeld(jobs: seq<Job>, o: nat, h: Hold): int {
    if jobs == [] then 0 else TotalHeld(jobs[..|jobs| - 1], o, h) + GiveHeld(jobs[|jobs| - 1], o, h)
  }

  lemma {:induction false} TotalHeldUpdate(jobs: seq<Job>, w: nat, k: Job, o: nat, h: Hold)
    requires w < |jobs|
    ensures TotalHeld(jobs[w := k], o, h) == TotalHeld(jobs, o, h) - GiveHeld(jobs[w], o, h) + GiveHeld(k, o, h)
  {
    var n := |jobs| - 1;
    if w == n {
      assert jobs[w := k][..n] == jobs[..n];
    } else {
      TotalHeldUpdate(jobs[..n], w, k, o, h);
      assert jobs[w := k][..n] == jobs[..n][w := k];
    }
  }

  lemma TotalHeldAppend(jobs: seq<Job>, k: Job, o: nat, h: Hold)
    ensures TotalHeld(jobs + [k], o, h) == TotalHeld(jobs, o, h) + GiveHeld(k, o, h)
  {
    assert (jobs + [k])[..|jobs|] == jobs;
  }

  lemma {:induction false} TotalHeldNothing(jobs: seq<Job>, o: nat, h: Hold)
    requires forall w :: 0 <= w < |jobs| ==> GiveHeld(jobs[w], o, h) == 0
    ensures TotalHeld(jobs, o, h) == 0
  {
    if jobs != [] {
      TotalHeldNothing(jobs[..|jobs| - 1], o, h);
    }
  }

  lemma {:induction false} TotalHeldCovers(jobs: seq<Job>, o: nat, h: Hold, w: nat, u: nat)
    requires w < |jobs| && u < |jobs|
    ensures TotalHeld(jobs, o, h) >= GiveHeld(jobs[w], o, h) + if w == u then 0 else GiveHeld(jobs[u], o, h)
  {
    var n := |jobs| - 1;
    TotalHeldNonNegative(jobs[..n], o, h);
    if w < n && u < n {
      TotalHeldCovers(jobs[..n], o, h, w, u);
    } else if w < n {
      TotalHeldCovers(jobs[..n], o, h, w, w);
    } else if u < n {
      TotalHeldCovers(jobs[..n], o, h, u, u);
    }
  }

  lemma {:induction false} TotalHeldNonNegative(jobs: seq<Job>, o: nat, h: Hold)
    ensures TotalHeld(jobs, o, h) >= 0
  {
    if jobs != [] {
      TotalHeldNonNegative(jobs[..|jobs| - 1], o, h);
    }
  }

  /** Whoever has sent money back has a claim. */
  lemma {:induction false} SentClaims(jobs: seq<Job>, o: nat)
    ensures TotalHeld(jobs, o, SentBack) <= TotalHeld(jobs, o, Claim)
  {
    if jobs != [] {
      SentClaims(jobs[..|jobs| - 1], o);
    }
  }

  /** Where something is held, somebody holds it. */
  lemma {:induction false} SomebodyHolds(jobs: seq<Job>, o: nat, h: Hold) returns (w: nat)
    requires TotalHeld(jobs, o, h) > 0
    ensures w < |jobs| && Target(jobs[w].pc) == Some(o) && Held(jobs[w], h) == 1
  {
    var n := |jobs| - 1;
    if GiveHeld(jobs[n], o, h) > 0 {
      w := n;
    } else {
      w := SomebodyHolds(jobs[..n], o, h);
    }
  }

  // ---- programs that are no concern of the lock ----

  /** The step neither touches the lock nor the gateway. */
  ghost predicate Uninvolved(v: View, r: (View, Pc)) {
    && (r.0.cell.row.status == Refunding <==> v.cell.row.status == Refunding)
    && r.0.cell.gateway == v.cell.gateway && !r.1.AtLocked? && !r.1.RefundOver?
  }

  lemma EarlyProgramsUninvolved(now: int, v: View, p: AttachPc, q: NoticePc, r: CancelPc, c: Choice)
    ensures Uninvolved(v, AttachStep(now, v, p, c)) && Uninvolved(v, NoticeStep(now, v, q))
    ensures Uninvolved(v, CancelStep(now, v, r))
  {
  }

  lemma FulfillUninvolved(now: int, v: View, p: FulfillPc, c: Choice)
    ensures Uninvolved(v, FulfillStep(now, v, p, c))
  {
    hide GrantedDays, Redeemed;
  }

  lemma LateProgramsUninvolved(now: int, balance: int, v: View, p: RetryPc, q: RequestPc, me: nat, r: SweepPc,
                               c: Choice)
    ensures Uninvolved(v, RetryStep(now, v, p)) && Uninvolved(v, RequestStep(now, balance, v, q, c))
    ensures r.todo != [] ==> Uninvolved(v, SweepStep(now, v, me, r))
  {
  }

  lemma RefundLocks(now: int, balance: int, v: View, p: RefundPc, c: Choice)
    ensures var r := RefundStep(now, balance, v, p, c);
            Uninvolved(v, r) || (p.RefundLock? && CanMarkRefunding(v.cell.row) && r.1 == AtLocked(Deduct(p.a)) &&
                                 r.0 == WithRow(v, MarkRefunding(v.cell.row, now)))
  {
    hide PrepareDeduction;
  }

  /** Outside the locked part a step stutters, is no concern of the lock, or wins it. */
  lemma PlainUninvolved(now: int, balance: int, me: nat, v: View, pc: Pc, c: Choice)
    requires !pc.AtLocked?
    ensures var r := PlainStep(now, balance, me, v, pc, c);
            || r == (v, pc)
            || (!pc.RefundOver? && Uninvolved(v, r))
            || (pc.AtRefund? && pc.refund.RefundLock? && CanMarkRefunding(v.cell.row) &&
                r.1 == AtLocked(Deduct(pc.refund.a)) && r.0 == WithRow(v, MarkRefunding(v.cell.row, now)))
  {
    hide AttachStep, NoticeStep, FulfillStep, CancelStep, RetryStep, SweepStep, RequestStep, RefundStep, Uninvolved;
    var n := Notice(0, "", 0, false);
    match pc
    case AtSweep(p) => LateProgramsUninvolved(now, balance, v, RetryRead(0), RequestRead(0, 0, 0), me, p, c);
    case AtFulfill(p) => FulfillUninvolved(now, v, p, c);
    case AtAttach(p) => EarlyProgramsUninvolved(now, v, p, NoticeStart(n), CancelRead(0, None), c);
    case AtNotice(p) => EarlyProgramsUninvolved(now, v, CreateLog(0), p, CancelRead(0, None), c);
    case AtCancel(p) => EarlyProgramsUninvolved(now, v, CreateLog(0), NoticeStart(n), p, c);
    case AtRetry(p) => LateProgramsUninvolved(now, balance, v, p, RequestRead(0, 0, 0), me, SweepMark([], 0), c);
    case AtRequest(p) => LateProgramsUninvolved(now, balance, v, RetryRead(0), p, me, SweepMark([], 0), c);
    case AtRefund(p) => RefundLocks(now, balance, v, p, c);
    case _ =>
  }

  lemma TakeKeepsRow(v: View, units: nat, now: int)
    ensures Take(v, units, now).cell.row == v.cell.row && GiveBack(v, units, now).cell.row == v.cell.row
    ensures Take(v, units, now).cell.gateway == v.cell.gateway && GiveBack(v, units, now).cell.gateway == v.cell.gateway
  {
  }

  // ---- the events that are not about an order ----

  /** Nobody holds anything of an order that does not exist yet. */
  lemma NobodyHolds(s: Sys, h: Hold)
    requires Inv(s)
    ensures TotalHeld(s.jobs, |s.cells|, h) == 0
  {
    forall w | 0 <= w < |s.jobs| ensures GiveHeld(s.jobs[w], |s.cells|, h) == 0 {
      assert WorkerOk(s, s.jobs[w]);
    }
    TotalHeldNothing(s.jobs, |s.cells|, h);
  }

  /** A step that is not about an order passes nothing on. */
  lemma QuietStepHolds(s: Sys, w: nat, c: Choice, o: nat, h: Hold)
    requires WorkersOk(s) && IsQuiet(s, w)
    ensures TotalHeld(WorkerStep(s, w, c).jobs, o, h) == TotalHeld(s.jobs, o, h)
  {
    QuietStepShape(s, w, c);
    assert WorkerOk(s, s.jobs[w]);
    QuietHoldsNothing(s, w, c);
    hide WorkerStep, WorkersOk;
    TotalHeldUpdate(s.jobs, w, WorkerStep(s, w, c).jobs[w], o, h);
  }

  lemma QuietHoldsNothing(s: Sys, w: nat, c: Choice)
    requires IsQuiet(s, w) && WorkerOk(s, s.jobs[w]) && QuietStep(s, w, WorkerStep(s, w, c))
    ensures forall o, h :: GiveHeld(s.jobs[w], o, h) == 0 && GiveHeld(WorkerStep(s, w, c).jobs[w], o, h) == 0
  {
    hide WorkerStep;
  }

  /** A worker that vanishes keeps the lock and what it sent; its other claims are void. */
  lemma VanishHolds(j: Job, o: nat, h: Hold)
    ensures GiveHeld(j.(alive := false), o, h) <= GiveHeld(j, o, h)
    ensures h.Lock? || h.SentBack? ==> GiveHeld(j.(alive := false), o, h) == GiveHeld(j, o, h)
  {
  }

  lemma QuietHolds(s: Sys, e: Event, o: nat, h: Hold)
    requires Inv(s) && (e.Step? && e.w < |s.jobs| ==> IsQuiet(s, e.w))
    ensures TotalHeld(Apply(s, e).jobs, o, h) <= TotalHeld(s.jobs, o, h)
    ensures h.Lock? || h.SentBack? ==> TotalHeld(Apply(s, e).jobs, o, h) == TotalHeld(s.jobs, o, h)
  {
    hide WorkerStep;
    if e.Step? && e.w < |s.jobs| {
      QuietStepHolds(s, e.w, e.c, o, h);
    } else if e.Vanish? && e.w < |s.jobs| {
      TotalHeldUpdate(s.jobs, e.w, s.jobs[e.w].(alive := false), o, h);
      VanishHolds(s.jobs[e.w], o, h);
    } else if e.Spawn? && IsStart(e.pc) {
      TotalHeldAppend(s.jobs, Job(e.pc, true, 0, 0), o, h);
      StarterHolds(e.pc, o, h);
    }
    hide Inv, GiveHeld;
  }

  lemma StarterHolds(pc: Pc, o: nat, h: Hold)
    requires IsStart(pc)
    ensures GiveHeld(Job(pc, true, 0, 0), o, h) == 0
  {
  }

  /** A new order is pending, and nobody knows it. */
  lemma NewOrderHolds(s: Sys, e: Event)
    requires Inv(s) && (e.Step? && e.w < |s.jobs| ==> IsQuiet(s, e.w)) && |Apply(s, e).cells| > |s.cells|
    ensures var t := Apply(s, e);
            && |t.cells| == |s.cells| + 1 && t.cells[|s.cells|].row.status == Pending
            && t.cells[|s.cells|].gateway == []
            && forall w :: 0 <= w < |t.jobs| && Target(t.jobs[w].pc) == Some(|s.cells|) ==>
                             !t.jobs[w].pc.AtLocked? && !t.jobs[w].pc.RefundOver?
  {
    hide WorkerStep;
    assert e.Step? && e.w < |s.jobs| && s.jobs[e.w].alive;
    QuietStepShape(s, e.w, e.c);
    var t := Apply(s, e);
    hide Apply;
    forall w | 0 <= w < |t.jobs| && Target(t.jobs[w].pc) == Some(|s.cells|)
      ensures !t.jobs[w].pc.AtLocked? && !t.jobs[w].pc.RefundOver?
    {
      assert WorkerOk(s, s.jobs[w]);
    }
  }

  /** Apart from workers that join or vanish, every program counter of a worker at an order stays. */
  lemma QuietWorker(s: Sys, e: Event, w: nat)
    requires (e.Step? && e.w < |s.jobs| ==> IsQuiet(s, e.w)) && w < |Apply(s, e).jobs|
    ensures var t := Apply(s, e);
            t.jobs[w].pc.AtLocked? || t.jobs[w].pc.RefundOver? ==> w < |s.jobs| && t.jobs[w].pc == s.jobs[w].pc
  {
    if e.Step? && e.w < |s.jobs| {
      QuietStepShape(s, e.w, e.c);
    }
    hide WorkerStep;
  }
}
