/** Steps that are not about an existing order: what they may change, and that they leave orders alone. */
module Quiet {
  import opened Orders
  import opened Protocol
  import opened Steps
  import opened Settle
  import opened Fees
  import opened World
  import opened Listing

  /** A step that is not about an existing order: the worker moves on, and at most one new order appears. */
  ghost predicate QuietStep(s: Sys, w: nat, t: Sys)
    requires w < |s.jobs|
  {
    && |t.jobs| == |s.jobs| && !t.jobs[w].pc.AtLocked? && !t.jobs[w].pc.RefundOver?
    && t.jobs == s.jobs[w := t.jobs[w]] && Resumes(s.jobs[w], t.jobs[w].pc, t.jobs[w])
    && t.ledger == s.ledger && t.balance == s.balance && t.base == s.base && t.limits == s.limits
    && (t.cells == s.cells ||
        (|t.cells| == |s.cells| + 1 && t.cells == s.cells + [NewCell(t.cells[|s.cells|].row)] &&
         t.cells[|s.cells|].row.status == Pending))
  }

  predicate IsQuiet(s: Sys, w: nat) {
    w < |s.jobs| && (Target(s.jobs[w].pc).Some? ==> |s.cells| <= Target(s.jobs[w].pc).value)
  }

  lemma CreateStepShape(s: Sys, w: nat, p: CreatePc)
    requires w < |s.jobs|
    ensures QuietStep(s, w, CreateStep(s, w, p))
  {
    hide PendingOf, PayAmount, CodeTaken, Admissible;
  }

  lemma QuietStepShape(s: Sys, w: nat, c: Choice)
    requires IsQuiet(s, w)
    ensures QuietStep(s, w, WorkerStep(s, w, c))
  {
    if s.jobs[w].pc.AtCreate? {
      CreateStepShape(s, w, s.jobs[w].pc.create);
      hide CreateStep;
    } else {
      hide Missing, ListExpired, CreateStep, OrderStep;
    }
  }

  /** Events that are not a step about an existing order leave existing orders alone. */
  lemma QuietEvent(s: Sys, e: Event, o: nat)
    requires o < |s.cells| && (e.Step? && e.w < |s.jobs| ==> IsQuiet(s, e.w))
    ensures var t := Apply(s, e); o < |t.cells| && ViewOf(t, o) == ViewOf(s, o)
  {
    if e.Step? && e.w < |s.jobs| {
      QuietStepShape(s, e.w, e.c);
    }
    hide WorkerStep, IsStart;
  }

  /** A step of one worker leaves the others as they are, and a finished refund finished. */
  lemma StepTouchesOne(s: Sys, w: nat, c: Choice, u: nat)
    requires w < |s.jobs| && u < |s.jobs|
    ensures |WorkerStep(s, w, c).jobs| == |s.jobs| && (u != w ==> WorkerStep(s, w, c).jobs[u] == s.jobs[u])
    ensures s.jobs[w].pc.RefundOver? && s.jobs[w].pc.a.order < |s.cells| ==>
              WorkerStep(s, w, c).jobs[w] == s.jobs[w]
  {
    if IsQuiet(s, w) {
      QuietStepShape(s, w, c);
      hide WorkerStep;
    } else {
      hide AttachStep, NoticeStep, FulfillStep, CancelStep, RetryStep, SweepStep, RequestStep, RefundStep, LockedStep;
      hide Missing, CreateStep, ListExpired;
    }
  }
}
