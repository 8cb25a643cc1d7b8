/**
 What one refund attempt takes and gives back, in terms of its two calls to the platform (src/order/service.rs).
 A deduction and a rollback carry a key made of the order and the current second; under a key used before the
 platform answers without doing the work again, and an answer may be lost after the work was done.  What others do
 in the meantime, and what happens to their calls, is of no consequence.
 */
module Attempts {
  import opened Common
  import opened Protocol
  import opened Steps
  import opened Facts
  import opened World
  import opened Invariant
  import opened Quiet
  import opened Holds
  import opened Guarantees

  // ---- which calls were made ----

  /** An attempt has asked for nothing yet, for its deduction, or for the rollback too; and the last was granted. */
  datatype Progress = Before | Asked(a: Attempt, granted: bool) | AskedBack(a: Attempt, granted: bool)

  function ErrorProgress(a: Attempt, cause: Cause): Progress {
    match cause
    case NotDeducted => Asked(a, false)
    case NotRolledBack => AskedBack(a, false)
    case CommitFailed(AtLogRollback) => AskedBack(a, false)
    case CommitFailed(AtRestore) => AskedBack(a, true)
    case CommitFailed(AtLogRestored) => AskedBack(a, true)
    case CommitFailed(_) => Asked(a, true)
  }

  function LockedProgress(p: LockedPc): Progress {
    match p
    case Deduct(_) => Before
    case LogRollback(a) => AskedBack(a, false)
    case Restore(a) => AskedBack(a, true)
    case LogRestored(a) => AskedBack(a, true)
    case FailMark(a, cause) => ErrorProgress(a, cause)
    case FailLog(a, cause, _) => ErrorProgress(a, cause)
    case _ => Asked(p.a, true)
  }

  function ProgressOf(pc: Pc): Progress {
    match pc
    case AtLocked(p) => LockedProgress(p)
    case RefundOver(a, Finished) => Asked(a, true)
    case RefundOver(a, Undone) => AskedBack(a, true)
    case RefundOver(a, Errored(cause, _)) => ErrorProgress(a, cause)
    case _ => Before
  }

  /** A call is granted when the platform says so, or when there is nothing to ask for. */
  predicate Granted(a: Attempt, c: Choice) {
    a.plan.units == 0 || c.Ok?
  }

  /** What a step of its own makes of a worker. */
  ghost predicate Turned(j: Job, k: Job, c: Choice) {
    match j.pc
    case AtLocked(Deduct(a)) => ProgressOf(k.pc) == Asked(a, Granted(a, c))
    case AtLocked(Rollback(a)) => ProgressOf(k.pc) == AskedBack(a, Granted(a, c))
    case _ => ProgressOf(k.pc) == ProgressOf(j.pc) && k.applied == j.applied
  }

  lemma LockedTurns(now: int, v: View, j: Job, p: LockedPc, c: Choice)
    requires j.pc == AtLocked(p)
    ensures Turned(j, LockedStep(now, v, j, p, c).1, c)
  {
    hide Take, GiveBack;
  }

  /** Outside the locked part no call is made. */
  lemma PlainTurns(now: int, balance: int, me: nat, v: View, j: Job, c: Choice)
    requires !j.pc.AtLocked?
    ensures Turned(j, Goto(j, PlainStep(now, balance, me, v, j.pc, c).1), c)
  {
    PlainUninvolved(now, balance, me, v, j.pc, c);
    hide PlainStep;
  }

  lemma LocalStepTurns(now: int, balance: int, me: nat, v: View, j: Job, c: Choice)
    ensures Turned(j, LocalStep(now, balance, me, v, j, c).1, c)
  {
    if j.pc.AtLocked? {
      LockedTurns(now, v, j, j.pc.locked, c);
    } else {
      PlainTurns(now, balance, me, v, j, c);
    }
    hide LockedStep, PlainStep, Turned;
  }

  lemma StepTurns(s: Sys, w: nat, c: Choice)
    requires Inv(s) && w < |s.jobs|
    ensures w < |WorkerStep(s, w, c).jobs| && Turned(s.jobs[w], WorkerStep(s, w, c).jobs[w], c)
  {
    if IsQuiet(s, w) {
      QuietTurns(s, w, c);
    } else {
      var o := Target(s.jobs[w].pc).value;
      LocalStepTurns(s.now, At(s.balance, Money(s.cells[o].row.user)), w, ViewOf(s, o), s.jobs[w], c);
      hide LocalStep, Inv, Turned;
    }
  }

  lemma QuietTurns(s: Sys, w: nat, c: Choice)
    requires Inv(s) && IsQuiet(s, w)
    ensures w < |WorkerStep(s, w, c).jobs| && Turned(s.jobs[w], WorkerStep(s, w, c).jobs[w], c)
  {
    assert WorkerOk(s, s.jobs[w]);
    QuietStepShape(s, w, c);
    hide WorkerStep, Inv;
  }

  /** The event is a step of worker `w`. */
  predicate IsStepOf(s: Sys, e: Event, w: nat) {
    e.Step? && e.w == w && w < |s.jobs| && s.jobs[w].alive
  }

  /** What an event makes of a worker. */
  lemma ApplyTurns(s: Sys, e: Event, w: nat)
    requires Inv(s) && w < |Apply(s, e).jobs|
    ensures var k := Apply(s, e).jobs[w];
            if IsStepOf(s, e, w) then Turned(s.jobs[w], k, e.c)
            else if w < |s.jobs| then k.pc == s.jobs[w].pc && k.applied == s.jobs[w].applied
            else ProgressOf(k.pc).Before?
  {
    if IsStepOf(s, e, w) {
      StepTurns(s, w, e.c);
    } else if e.Step? && e.w < |s.jobs| && s.jobs[e.w].alive {
      if w < |s.jobs| {
        StepTouchesOne(s, e.w, e.c, w);
      } else {
        StepTouchesOne(s, e.w, e.c, e.w);
      }
    }
    hide WorkerStep, Inv, Turned;
  }

  /** Between its calls to the platform an attempt's books rest, and it never goes back. */
  ghost predicate Rests(j: Job, k: Job) {
    match ProgressOf(j.pc)
    case Before => true
    case Asked(a, granted) =>
      || (ProgressOf(k.pc) == Asked(a, granted) && k.applied == j.applied)
      || (granted && ProgressOf(k.pc).AskedBack? && ProgressOf(k.pc).a == a)
    case AskedBack(a, granted) => ProgressOf(k.pc) == AskedBack(a, granted) && k.applied == j.applied
  }

  lemma RestsTransitive(i: Job, j: Job, k: Job)
    requires Rests(i, j) && Rests(j, k)
    ensures Rests(i, k)
  {
  }

  lemma TurnedRests(j: Job, k: Job, c: Choice)
    requires Turned(j, k, c) || (k.pc == j.pc && k.applied == j.applied)
    ensures Rests(j, k)
  {
  }

  lemma {:induction false} RunRests(s: Sys, es: seq<Event>, i: nat, w: nat)
    requires Initial(s) && i <= |es| && w < |Run(s, es[..i]).jobs|
    ensures w < |Run(s, es).jobs| && Rests(Run(s, es[..i]).jobs[w], Run(s, es).jobs[w])
  {
    if i == |es| {
      assert es[..i] == es;
      TurnedRests(Run(s, es).jobs[w], Run(s, es).jobs[w], Ok);
    } else {
      var m := es[..|es| - 1];
      var e := es[|es| - 1];
      assert m[..i] == es[..i];
      RunRests(s, m, i, w);
      RunKeeps(s, m);
      JobsStay(Run(s, m), e);
      hide Inv, Rests, Apply, Turned;
      ApplyTurns(Run(s, m), e, w);
      TurnedRests(Run(s, m).jobs[w], Run(s, es).jobs[w], if e.Step? then e.c else Ok);
      RestsTransitive(Run(s, es[..i]).jobs[w], Run(s, m).jobs[w], Run(s, es).jobs[w]);
    }
  }

  lemma JobsStay(s: Sys, e: Event)
    ensures |s.jobs| <= |Apply(s, e).jobs|
  {
    if e.Step? && e.w < |s.jobs| && s.jobs[e.w].alive {
      StepTouchesOne(s, e.w, e.c, e.w);
    }
    hide WorkerStep;
  }

  // ---- the two calls ----

  /** At position `i` worker `w` asks the platform for the deduction of `a`. */
  ghost predicate DeductsAt(s0: Sys, es: seq<Event>, i: nat, w: nat, a: Attempt) {
    i < |es| && IsStepOf(Run(s0, es[..i]), es[i], w) && Run(s0, es[..i]).jobs[w].pc == AtLocked(Deduct(a))
  }

  ghost predicate RollsBackAt(s0: Sys, es: seq<Event>, i: nat, w: nat, a: Attempt) {
    i < |es| && IsStepOf(Run(s0, es[..i]), es[i], w) && Run(s0, es[..i]).jobs[w].pc == AtLocked(Rollback(a))
  }

  /** The key of a deduction of `a` at this moment was not used before. */
  predicate DeductionKeyNew(s: Sys, a: Attempt) {
    a.order < |s.cells| && s.now !in s.cells[a.order].subtracted
  }

  predicate RollbackKeyNew(s: Sys, a: Attempt) {
    a.order < |s.cells| && s.now !in s.cells[a.order].added
  }

  /** What the call at position `i` took: the plan, if the platform set to work and the key was new. */
  function TakenAt(s0: Sys, es: seq<Event>, i: nat, a: Attempt): int
    requires i < |es| && es[i].Step?
  {
    if (es[i].c.Ok? || es[i].c.Lost?) && DeductionKeyNew(Run(s0, es[..i]), a) then a.plan.units else 0
  }

  function ReturnedAt(s0: Sys, es: seq<Event>, i: nat, a: Attempt): int
    requires i < |es| && es[i].Step?
  {
    if (es[i].c.Ok? || es[i].c.Lost?) && RollbackKeyNew(Run(s0, es[..i]), a) then a.plan.units else 0
  }

  lemma LockedKnown(s: Sys, w: nat)
    requires Inv(s) && w < |s.jobs| && s.jobs[w].pc.AtLocked?
    ensures s.jobs[w].pc.locked.a.order < |s.cells|
    ensures s.jobs[w].pc.locked.Deduct? ==> s.jobs[w].applied == 0
  {
    assert WorkerOk(s, s.jobs[w]);
  }

  lemma CallBooks(s: Sys, w: nat, c: Choice, p: LockedPc)
    requires w < |s.jobs| && s.jobs[w].alive && s.jobs[w].pc == AtLocked(p) && p.a.order < |s.cells|
    requires p.Deduct? || p.Rollback?
    ensures var t := Apply(s, Step(w, c));
            var carried := c.Ok? || c.Lost?;
            && w < |t.jobs|
            && t.jobs[w].applied - s.jobs[w].applied ==
               if p.Deduct? then (if carried && DeductionKeyNew(s, p.a) then p.a.plan.units else 0)
               else -(if carried && RollbackKeyNew(s, p.a) then p.a.plan.units else 0)
  {
    hide Deducted;
  }

  lemma RunNext(s0: Sys, es: seq<Event>, i: nat)
    requires i < |es|
    ensures Run(s0, es[..i + 1]) == Apply(Run(s0, es[..i]), es[i])
  {
    assert es[..i + 1][..i] == es[..i];
  }

  /** Right after the call. */
  lemma AfterDeduction(s0: Sys, es: seq<Event>, i: nat, w: nat, a: Attempt)
    requires Initial(s0) && DeductsAt(s0, es, i, w, a)
    ensures i < |es|
    ensures var t := Run(s0, es[..i + 1]);
            && w < |t.jobs| && ProgressOf(t.jobs[w].pc) == Asked(a, Granted(a, es[i].c))
            && t.jobs[w].applied == TakenAt(s0, es, i, a)
  {
    RunKeeps(s0, es[..i]);
    RunNext(s0, es, i);
    LockedKnown(Run(s0, es[..i]), w);
    CallBooks(Run(s0, es[..i]), w, es[i].c, Deduct(a));
    ApplyTurns(Run(s0, es[..i]), es[i], w);
    hide Apply, Inv, DeductionKeyNew, RollbackKeyNew;
  }

  lemma AfterRollback(s0: Sys, es: seq<Event>, i: nat, w: nat, a: Attempt)
    requires Initial(s0) && RollsBackAt(s0, es, i, w, a)
    ensures i < |es|
    ensures var t := Run(s0, es[..i + 1]);
            && w < |t.jobs| && ProgressOf(t.jobs[w].pc) == AskedBack(a, Granted(a, es[i].c))
            && t.jobs[w].applied == Run(s0, es[..i]).jobs[w].applied - ReturnedAt(s0, es, i, a)
  {
    RunKeeps(s0, es[..i]);
    RunNext(s0, es, i);
    LockedKnown(Run(s0, es[..i]), w);
    CallBooks(Run(s0, es[..i]), w, es[i].c, Rollback(a));
    ApplyTurns(Run(s0, es[..i]), es[i], w);
    hide Apply, Inv, DeductionKeyNew, RollbackKeyNew;
  }

  /** From its deduction on an attempt answers for what that call took, until it asks for the rollback. */
  lemma BooksSinceDeduction(s0: Sys, es: seq<Event>, i: nat, w: nat, a: Attempt)
    requires Initial(s0) && DeductsAt(s0, es, i, w, a)
    ensures w < |Run(s0, es).jobs|
    ensures var j := Run(s0, es).jobs[w];
            var q := ProgressOf(j.pc);
            && !q.Before? && q.a == a
            && (q.Asked? ==> q.granted == Granted(a, es[i].c) && j.applied == TakenAt(s0, es, i, a))
            && (q.AskedBack? ==> Granted(a, es[i].c))
  {
    hide Run, ProgressOf, Granted, TakenAt, DeductsAt;
    AfterDeduction(s0, es, i, w, a);
    RunRests(s0, es, i + 1, w);
  }

  /** From its rollback on it answers for the difference of the two calls. */
  lemma BooksSinceRollback(s0: Sys, es: seq<Event>, i: nat, k: nat, w: nat, a: Attempt, b: Attempt)
    requires Initial(s0) && i < k && DeductsAt(s0, es, i, w, a) && RollsBackAt(s0, es, k, w, b)
    ensures a == b && w < |Run(s0, es).jobs| && Granted(a, es[i].c)
    ensures var j := Run(s0, es).jobs[w];
            && ProgressOf(j.pc) == AskedBack(a, Granted(a, es[k].c))
            && j.applied == TakenAt(s0, es, i, a) - ReturnedAt(s0, es, k, a)
  {
    hide Run, ProgressOf, Granted, DeductsAt, RollsBackAt, TakenAt, ReturnedAt;
    BooksAtRollback(s0, es, i, k, w, a, b);
    AfterRollback(s0, es, k, w, b);
    RunRests(s0, es, k + 1, w);
  }

  lemma BooksAtRollback(s0: Sys, es: seq<Event>, i: nat, k: nat, w: nat, a: Attempt, b: Attempt)
    requires Initial(s0) && i < k && DeductsAt(s0, es, i, w, a) && RollsBackAt(s0, es, k, w, b)
    ensures a == b && w < |Run(s0, es[..k]).jobs| && Granted(a, es[i].c)
    ensures Run(s0, es[..k]).jobs[w].applied == TakenAt(s0, es, i, a)
  {
    assert es[..k][..i] == es[..i] && es[..k][i] == es[i];
    assert DeductsAt(s0, es[..k], i, w, a);
    assert ProgressOf(Run(s0, es[..k]).jobs[w].pc) == Asked(b, true);
    hide Run, ProgressOf, DeductsAt, RollsBackAt;
    BooksSinceDeduction(s0, es[..k], i, w, a);
  }

  // ---- the calls were made ----

  /** What the last event of a run makes of a worker. */
  lemma LastTurn(s0: Sys, es: seq<Event>, w: nat)
    requires Initial(s0) && w < |Run(s0, es).jobs| && !ProgressOf(Run(s0, es).jobs[w].pc).Before?
    ensures |es| > 0 && w < |Run(s0, es[..|es| - 1]).jobs|
    ensures var (q, m) := (ProgressOf(Run(s0, es).jobs[w].pc), |es| - 1);
            var p := ProgressOf(Run(s0, es[..m]).jobs[w].pc);
            || p == q
            || (p.Before? && q.Asked? && DeductsAt(s0, es, m, w, q.a))
            || (p == Asked(q.a, true) && q.AskedBack? && RollsBackAt(s0, es, m, w, q.a))
  {
    var e := es[|es| - 1];
    var s := Run(s0, es[..|es| - 1]);
    RunKeeps(s0, es[..|es| - 1]);
    ApplyTurns(s, e, w);
    hide Inv, Apply, ProgressOf, Turned;
    if IsStepOf(s, e, w) {
      TurnedProgress(s.jobs[w], Run(s0, es).jobs[w], e.c);
    }
  }

  lemma TurnedProgress(j: Job, k: Job, c: Choice)
    requires Turned(j, k, c)
    ensures var (p, q) := (ProgressOf(j.pc), ProgressOf(k.pc));
            || p == q
            || (p.Before? && q.Asked? && j.pc == AtLocked(Deduct(q.a)))
            || (q.AskedBack? && p == Asked(q.a, true) && j.pc == AtLocked(Rollback(q.a)))
  {
  }

  lemma CallsStay(s0: Sys, es: seq<Event>, n: nat, i: nat, w: nat, a: Attempt)
    requires n <= |es|
    ensures DeductsAt(s0, es[..n], i, w, a) ==> i < n
    ensures DeductsAt(s0, es[..n], i, w, a) ==> DeductsAt(s0, es, i, w, a)
    ensures RollsBackAt(s0, es[..n], i, w, a) ==> RollsBackAt(s0, es, i, w, a)
  {
    if i < n {
      assert es[..n][..i] == es[..i];
    }
  }

  /** Every attempt past its deduction asked for it, at one position of the run. */
  lemma {:induction false} DeductionWasAsked(s0: Sys, es: seq<Event>, w: nat) returns (i: nat)
    requires Initial(s0) && w < |Run(s0, es).jobs| && !ProgressOf(Run(s0, es).jobs[w].pc).Before?
    ensures DeductsAt(s0, es, i, w, ProgressOf(Run(s0, es).jobs[w].pc).a)
  {
    var n := |es| - 1;
    LastTurn(s0, es, w);
    hide Run, ProgressOf, DeductsAt, RollsBackAt;
    if ProgressOf(Run(s0, es[..n]).jobs[w].pc).Before? {
      i := n;
    } else {
      i := DeductionWasAsked(s0, es[..n], w);
      CallsStay(s0, es, n, i, w, ProgressOf(Run(s0, es).jobs[w].pc).a);
    }
  }

  /** Every attempt past its rollback asked for that too, later. */
  lemma {:induction false} RollbackWasAsked(s0: Sys, es: seq<Event>, w: nat) returns (i: nat, k: nat)
    requires Initial(s0) && w < |Run(s0, es).jobs| && ProgressOf(Run(s0, es).jobs[w].pc).AskedBack?
    ensures var a := ProgressOf(Run(s0, es).jobs[w].pc).a;
            i < k && DeductsAt(s0, es, i, w, a) && RollsBackAt(s0, es, k, w, a)
  {
    var n := |es| - 1;
    var a := ProgressOf(Run(s0, es).jobs[w].pc).a;
    LastTurn(s0, es, w);
    hide Run, ProgressOf, DeductsAt, RollsBackAt;
    if ProgressOf(Run(s0, es[..n]).jobs[w].pc).AskedBack? {
      i, k := RollbackWasAsked(s0, es[..n], w);
      CallsStay(s0, es, n, k, w, a);
    } else {
      i := DeductionWasAsked(s0, es[..n], w);
      k := n;
    }
    CallsStay(s0, es, n, i, w, a);
  }

  // ---- what an attempt took, ending by ending ----

  /**
   A successful refund took exactly the plan if and only if there was nothing to take or the key of its
   deduction was new; with a used key it took nothing.
   */
  lemma SuccessTakesPlanExactly(s0: Sys, es: seq<Event>, i: nat, w: nat, a: Attempt, b: Attempt)
    requires Initial(s0) && DeductsAt(s0, es, i, w, a)
    requires w < |Run(s0, es).jobs| && Run(s0, es).jobs[w].pc == RefundOver(b, Finished)
    ensures a == b
    ensures var applied := Run(s0, es).jobs[w].applied;
            && (applied == a.plan.units <==> a.plan.units == 0 || DeductionKeyNew(Run(s0, es[..i]), a))
            && (applied == a.plan.units || applied == 0)
  {
    BooksSinceDeduction(s0, es, i, w, a);
    hide Run, DeductionKeyNew, DeductsAt;
  }

  /**
   A refund that returns success=false left the account alone if and only if there was nothing to take, or
   the keys of its deduction and of its rollback were both new or both used.
   */
  lemma UndoneIsNeutralExactly(s0: Sys, es: seq<Event>, i: nat, k: nat, w: nat, a: Attempt, b: Attempt, c: Attempt)
    requires Initial(s0) && i < k && DeductsAt(s0, es, i, w, a) && RollsBackAt(s0, es, k, w, b)
    requires w < |Run(s0, es).jobs| && Run(s0, es).jobs[w].pc == RefundOver(c, Undone)
    ensures a == b == c
    ensures var (taken, returned) := (DeductionKeyNew(Run(s0, es[..i]), a), RollbackKeyNew(Run(s0, es[..k]), a));
            && (Run(s0, es).jobs[w].applied == 0 <==> a.plan.units == 0 || (taken <==> returned))
            && Run(s0, es).jobs[w].applied ==
               (if taken then a.plan.units else 0) - if returned then a.plan.units else 0
  {
    BooksSinceRollback(s0, es, i, k, w, a, b);
    hide Run, DeductionKeyNew, RollbackKeyNew, DeductsAt, RollsBackAt;
  }

  /** An error after which the attempt had asked for its rollback. */
  predicate PastRollback(cause: Cause) {
    || cause.NotRolledBack?
    || (cause.CommitFailed? && (cause.at.AtLogRollback? || cause.at.AtRestore? || cause.at.AtLogRestored?))
  }

  /**
   What an attempt that ends in an error before its rollback took.  If the platform did not grant the deduction:
   nothing, unless its answer was lost and the key was new.  If a commit failed later: the plan, if the key was new.
   */
  lemma ErrorTookExactly(s0: Sys, es: seq<Event>, i: nat, w: nat, a: Attempt, b: Attempt, cause: Cause, marked: bool)
    requires Initial(s0) && DeductsAt(s0, es, i, w, a) && !PastRollback(cause)
    requires w < |Run(s0, es).jobs| && Run(s0, es).jobs[w].pc == RefundOver(b, Errored(cause, marked))
    ensures a == b && (cause.NotDeducted? ==> !es[i].c.Ok?)
    ensures Run(s0, es).jobs[w].applied ==
            if DeductionKeyNew(Run(s0, es[..i]), a) && (cause.NotDeducted? ==> es[i].c.Lost?) then a.plan.units else 0
  {
    BooksSinceDeduction(s0, es, i, w, a);
    hide Run, DeductionKeyNew, DeductsAt;
  }

  /**
   And past its rollback: what the deduction took under a new key, minus what the rollback gave back under a new
   key; the latter, if the platform did not grant the rollback, only when its answer was lost.
   */
  lemma UndoingErrorTookExactly(s0: Sys, es: seq<Event>, i: nat, k: nat, w: nat, a: Attempt, b: Attempt, c: Attempt,
                                cause: Cause, marked: bool)
    requires Initial(s0) && i < k && DeductsAt(s0, es, i, w, a) && RollsBackAt(s0, es, k, w, b) && PastRollback(cause)
    requires w < |Run(s0, es).jobs| && Run(s0, es).jobs[w].pc == RefundOver(c, Errored(cause, marked))
    ensures a == b == c
    ensures var (taken, returned) := (DeductionKeyNew(Run(s0, es[..i]), a), RollbackKeyNew(Run(s0, es[..k]), a));
            var refused := cause.NotRolledBack? || cause.at.AtLogRollback?;
            && (refused ==> !es[k].c.Ok?)
            && Run(s0, es).jobs[w].applied ==
               (if taken then a.plan.units else 0) -
               if returned && (refused ==> es[k].c.Lost?) then a.plan.units else 0
  {
    BooksSinceRollback(s0, es, i, k, w, a, b);
    hide Run, DeductionKeyNew, RollbackKeyNew, DeductsAt, RollsBackAt;
  }

  // ---- atomicity ----

  /** Worker `w` got every answer of the platform to its own refund calls. */
  ghost predicate Heard(s0: Sys, es: seq<Event>, w: nat) {
    forall i :: 0 <= i < |es| && IsStepOf(Run(s0, es[..i]), es[i], w) ==>
      !(es[i].c.Lost? && IsCall(Run(s0, es[..i]).jobs[w].pc))
  }

  predicate IsCall(pc: Pc) {
    pc.AtLocked? && (pc.locked.Deduct? || pc.locked.Rollback?)
  }

  /** And its own keys were new. */
  ghost predicate Fresh(s0: Sys, es: seq<Event>, w: nat) {
    forall i, a :: 0 <= i < |es| ==>
      && (DeductsAt(s0, es, i, w, a) ==> DeductionKeyNew(Run(s0, es[..i]), a))
      && (RollsBackAt(s0, es, i, w, a) ==> RollbackKeyNew(Run(s0, es[..i]), a))
  }

  lemma HeardCalls(s0: Sys, es: seq<Event>, i: nat, w: nat, a: Attempt)
    requires Heard(s0, es, w) && (DeductsAt(s0, es, i, w, a) || RollsBackAt(s0, es, i, w, a))
    ensures !es[i].c.Lost?
  {
  }

  lemma FreshCalls(s0: Sys, es: seq<Event>, i: nat, w: nat, a: Attempt)
    requires Fresh(s0, es, w)
    ensures DeductsAt(s0, es, i, w, a) ==> DeductionKeyNew(Run(s0, es[..i]), a)
    ensures RollsBackAt(s0, es, i, w, a) ==> RollbackKeyNew(Run(s0, es[..i]), a)
  {
  }

  lemma OverKnown(s0: Sys, es: seq<Event>, w: nat, a: Attempt, ending: Ending)
    requires Initial(s0) && w < |Run(s0, es).jobs| && Run(s0, es).jobs[w].pc == RefundOver(a, ending)
    ensures a.order < |Run(s0, es).cells|
    ensures ending.Errored? && ending.cause.NotRolledBack? ==>
              RefundRollbackFailed(a.plan.units) in Run(s0, es).cells[a.order].log
    ensures ending.Undone? ==> RefundGatewayFailed in Run(s0, es).cells[a.order].log
  {
    assert Reachable(Run(s0, es));
    ReachableWorker(Run(s0, es), w);
  }

  /**
   A refund that returns an error of its own, not of a failing commit, took nothing, or the whole plan; the latter
   only with a REFUND_ROLLBACK_FAILED entry for it.  So it is whenever the attempt got the platform's answers to
   its own two calls: keys may repeat, and others may do anything.
   */
  lemma ErrorIsAtomic(s0: Sys, es: seq<Event>, w: nat, a: Attempt, cause: Cause, marked: bool)
    requires Initial(s0) && Heard(s0, es, w) && !cause.CommitFailed?
    requires w < |Run(s0, es).jobs| && Run(s0, es).jobs[w].pc == RefundOver(a, Errored(cause, marked))
    ensures var s := Run(s0, es);
            && a.order < |s.cells|
            && (s.jobs[w].applied == 0 ||
                (s.jobs[w].applied == a.plan.units && cause.NotRolledBack? &&
                 RefundRollbackFailed(a.plan.units) in s.cells[a.order].log))
  {
    OverKnown(s0, es, w, a, Errored(cause, marked));
    hide Run, Heard, DeductsAt, RollsBackAt, DeductionKeyNew, RollbackKeyNew;
    if cause.NotDeducted? {
      var i := DeductionWasAsked(s0, es, w);
      HeardCalls(s0, es, i, w, a);
      ErrorTookExactly(s0, es, i, w, a, a, cause, marked);
    } else {
      var i, k := RollbackWasAsked(s0, es, w);
      HeardCalls(s0, es, k, w, a);
      UndoingErrorTookExactly(s0, es, i, k, w, a, a, a, cause, marked);
    }
  }

  /** With its answers heard and its keys new an attempt has applied what its program counter claims. */
  lemma ClaimedIsApplied(s0: Sys, es: seq<Event>, w: nat, a: Attempt, ending: Ending)
    requires Initial(s0) && Heard(s0, es, w) && Fresh(s0, es, w)
    requires w < |Run(s0, es).jobs| && Run(s0, es).jobs[w].pc == RefundOver(a, ending)
    ensures Run(s0, es).jobs[w].applied == Claimed(RefundOver(a, ending))
  {
    hide Run, Heard, Fresh, DeductsAt, RollsBackAt, DeductionKeyNew, RollbackKeyNew;
    var i := DeductionWasAsked(s0, es, w);
    if ProgressOf(RefundOver(a, ending)).AskedBack? {
      var k;
      i, k := RollbackWasAsked(s0, es, w);
      HeardCalls(s0, es, k, w, a);
      FreshCalls(s0, es, k, w, a);
      BooksSinceRollback(s0, es, i, k, w, a, a);
    }
    HeardCalls(s0, es, i, w, a);
    FreshCalls(s0, es, i, w, a);
    BooksSinceDeduction(s0, es, i, w, a);
  }

  /**
   If its own keys were new as well: success took exactly the plan, success=false exactly nothing, and an error what
   its cause says, the plan only with its entry in the log or after a failing commit.
   */
  lemma RefundAtomic(s0: Sys, es: seq<Event>, w: nat, a: Attempt, ending: Ending)
    requires Initial(s0) && Heard(s0, es, w) && Fresh(s0, es, w)
    requires w < |Run(s0, es).jobs| && Run(s0, es).jobs[w].pc == RefundOver(a, ending)
    ensures var (s, applied) := (Run(s0, es), Run(s0, es).jobs[w].applied);
            && a.order < |s.cells|
            && match ending
               case Finished => applied == a.plan.units
               case Undone => applied == 0 && RefundGatewayFailed in s.cells[a.order].log
               case Errored(cause, _) =>
                 && applied == (if Kept(cause) then a.plan.units else 0)
                 && (Kept(cause) ==>
                       cause.CommitFailed? || RefundRollbackFailed(a.plan.units) in s.cells[a.order].log)
  {
    OverKnown(s0, es, w, a, ending);
    ClaimedIsApplied(s0, es, w, a, ending);
    hide Run, Heard, Fresh;
  }
}
