/**
 Continuing a run without hindrance (src/order/service.rs): no commit fails, no answer is lost, nobody vanishes and
 no time passes.  What one worker can do from where it stands, alone or beside another that waits.
 */
module Continuations {
  import opened Common
  import opened Orders
  import opened Protocol
  import opened Steps
  import opened World
  import opened Quiet

  // ---- unhindered runs ----

  predicate Plain(e: Event) {
    e.Spawn? || (e.Step? && !e.c.Lost? && !e.c.Fault?)
  }

  predicate PlainRun(es: seq<Event>) {
    forall i :: 0 <= i < |es| ==> Plain(es[i])
  }

  ghost predicate CanReach(s: Sys, t: Sys) {
    exists es :: PlainRun(es) && t == Run(s, es)
  }

  lemma Reflexive(s: Sys)
    ensures CanReach(s, s)
  {
    assert PlainRun([]) && s == Run(s, []);
  }

  lemma Extend(s: Sys, t: Sys, e: Event)
    requires CanReach(s, t) && Plain(e)
    ensures CanReach(s, Apply(t, e))
  {
    hide Apply, Plain;
    var es :| PlainRun(es) && t == Run(s, es);
    var fs := es + [e];
    assert fs[..|es|] == es && fs[|es|] == e;
    assert PlainRun(fs) && Apply(t, e) == Run(s, fs);
  }

  /** Worker `w` stands at `pc`, looking at order `o` as `cell`. */
  ghost predicate Stands(s: Sys, t: Sys, o: nat, w: nat, cell: Cell, pc: Pc, applied: int) {
    && o < |t.cells| && w < |t.jobs| && t.now == s.now
    && t.cells[o] == cell && t.jobs[w].alive && t.jobs[w].pc == pc && t.jobs[w].applied == applied
  }

  lemma StepTouchesOthersNot(s: Sys, w: nat, c: Choice)
    requires w < |s.jobs|
    ensures var t := Apply(s, Step(w, c));
            |t.jobs| == |s.jobs| && forall i :: 0 <= i < |s.jobs| && i != w ==> t.jobs[i] == s.jobs[i]
  {
    hide WorkerStep;
    forall i | 0 <= i < |s.jobs| && i != w && s.jobs[w].alive
      ensures |WorkerStep(s, w, c).jobs| == |s.jobs| && WorkerStep(s, w, c).jobs[i] == s.jobs[i]
    {
      StepTouchesOne(s, w, c, i);
    }
    if s.jobs[w].alive {
      StepTouchesOne(s, w, c, w);
    }
  }

  lemma AliveAfter(now: int, balance: int, me: nat, v: View, j: Job, c: Choice)
    ensures LocalStep(now, balance, me, v, j, c).1.alive == j.alive
  {
    hide PlainStep, BookStep, Take, GiveBack;
  }

  /** Worker `w` takes its next step, and all others stay where they are. */
  lemma Advance(s: Sys, t: Sys, o: nat, w: nat, cell: Cell, pc: Pc, applied: int, c: Choice)
    requires CanReach(s, t) && Stands(s, t, o, w, cell, pc, applied)
    requires Target(pc) == Some(o) && !c.Lost? && !c.Fault?
    ensures var (v, j) := LocalStep(s.now, At(t.balance, Money(cell.row.user)), w, ViewOf(t, o), t.jobs[w], c);
            var u := Apply(t, Step(w, c));
            && CanReach(s, u) && Stands(s, u, o, w, v.cell, j.pc, j.applied)
            && |u.jobs| == |t.jobs| && forall i :: 0 <= i < |t.jobs| && i != w ==> u.jobs[i] == t.jobs[i]
  {
    Extend(s, t, Step(w, c));
    StepTouchesOthersNot(t, w, c);
    AliveAfter(s.now, At(t.balance, Money(cell.row.user)), w, ViewOf(t, o), t.jobs[w], c);
    hide LocalStep;
  }

  // ---- a refund attempt, step by step ----

  predicate Refundable(r: Row) {
    CanMarkRefunding(r) && r.amountCents > 0 && r.tradeNo.Some?
  }

  /** The attempt on order `r` that refunds it in full and deducts nothing. */
  function FullAttempt(o: nat, r: Row): Attempt {
    Attempt(o, r, r.amountCents, Expected(r), Plan(0, None))
  }

  /** A new refund of a refundable order gets as far as the gateway while the others wait. */
  lemma Acquires(s: Sys, t: Sys, o: nat, cell: Cell) returns (u: Sys, w: nat)
    requires CanReach(s, t) && o < |t.cells| && t.cells[o] == cell && t.now == s.now && Refundable(cell.row)
    ensures CanReach(s, u) && w == |t.jobs| && |u.jobs| == |t.jobs| + 1
    ensures forall i :: 0 <= i < |t.jobs| ==> u.jobs[i] == t.jobs[i]
    ensures Stands(s, u, o, w, cell.(row := MarkRefunding(cell.row, s.now)),
              AtLocked(Gateway(FullAttempt(o, cell.row))), 0)
  {
    hide CanReach;
    var r := cell.row;
    var read := AtRefund(RefundRead(o, None, false, false));
    w := |t.jobs|;
    Extend(s, t, Spawn(read));
    var x := Apply(t, Spawn(read));
    hide Apply;
    Advance(s, x, o, w, cell, read, 0, Ok);
    var y := Apply(x, Step(w, Ok));
    Advance(s, y, o, w, cell, AtRefund(RefundPlan(o, r, r.amountCents, Expected(r), false, false)), 0, Ok);
    var z := Apply(y, Step(w, Ok));
    u := Locks(s, z, o, w, cell);
  }

  lemma Locks(s: Sys, t: Sys, o: nat, w: nat, cell: Cell) returns (u: Sys)
    requires CanReach(s, t) && Refundable(cell.row)
    requires Stands(s, t, o, w, cell, AtRefund(RefundLock(o, FullAttempt(o, cell.row))), 0)
    ensures CanReach(s, u) && |u.jobs| == |t.jobs|
    ensures forall i :: 0 <= i < |t.jobs| && i != w ==> u.jobs[i] == t.jobs[i]
    ensures Stands(s, u, o, w, cell.(row := MarkRefunding(cell.row, s.now)),
              AtLocked(Gateway(FullAttempt(o, cell.row))), 0)
  {
    hide CanReach, Apply;
    var a := FullAttempt(o, cell.row);
    Advance(s, t, o, w, cell, AtRefund(RefundLock(o, a)), 0, Ok);
    var x := Apply(t, Step(w, Ok));
    Advance(s, x, o, w, cell.(row := MarkRefunding(cell.row, s.now)), AtLocked(Deduct(a)), 0, Ok);
    u := Apply(x, Step(w, Ok));
  }

  /** A refundable order is refunded in full once more. */
  lemma SendsAgain(s: Sys, t: Sys, o: nat, cell: Cell) returns (u: Sys)
    requires CanReach(s, t) && o < |t.cells| && t.cells[o] == cell && t.now == s.now && Refundable(cell.row)
    ensures CanReach(s, u) && o < |u.cells| && u.cells[o].gateway == cell.gateway + [Expected(cell.row)]
  {
    hide CanReach, Apply;
    var x, w := Acquires(s, t, o, cell);
    var locked := cell.(row := MarkRefunding(cell.row, s.now));
    Advance(s, x, o, w, locked, AtLocked(Gateway(FullAttempt(o, cell.row))), 0, Ok);
    u := Apply(x, Step(w, Ok));
  }
}
