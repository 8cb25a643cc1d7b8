/**
 The gateway's book (src/order/service.rs).

 At most one worker per order has a claim on the gateway: it has paid, or may come to pay, or is about to release
 the lock so that others may.  Three kinds of events let an order have more than one refund: the answer of a paying
 gateway is lost, the mark after the gateway paid fails, or the log entry after the order was restored fails where
 the error path can then free a lock that somebody has a claim under.  Runs free of these refund at most once.
 */
module Claims {
  import opened Common
  import opened Orders
  import opened Protocol
  import opened Steps
  import opened Settle
  import opened World
  import opened Invariant
  import opened Quiet
  import opened Holds

  // ---- the laws ----

  function Ended(c: Cell): int {
    Ind(Phase(c.row.status) == 3)
  }

  /** So many claims and pending releases an order bears. */
  predicate Fits(c: Cell, claims: int, releases: int) {
    if Phase(c.row.status) == 3 then claims == 0 else claims + releases <= Ind(c.row.status == Refunding)
  }

  ghost predicate ClaimLaw(s: Sys, o: nat)
    requires o < |s.cells|
  {
    Fits(s.cells[o], TotalHeld(s.jobs, o, Claim), TotalHeld(s.jobs, o, Release))
  }

  /** Past the mark the refund is on the row. */
  ghost predicate DoneFact(v: View, pc: Pc) {
    pc.AtLocked? && pc.locked.LogDone? ==> Phase(v.cell.row.status) == 3
  }

  ghost predicate DoneFacts(s: Sys, o: nat)
    requires o < |s.cells|
  {
    forall w :: 0 <= w < |s.jobs| && Target(s.jobs[w].pc) == Some(o) ==> DoneFact(ViewOf(s, o), s.jobs[w].pc)
  }

  ghost predicate GatewayLaw(s: Sys, o: nat)
    requires o < |s.cells|
  {
    |s.cells[o].gateway| <= TotalHeld(s.jobs, o, SentBack) + Ended(s.cells[o])
  }

  ghost predicate OnceOnly(s: Sys, o: nat)
    requires o < |s.cells|
  {
    ClaimLaw(s, o) && DoneFacts(s, o) && GatewayLaw(s, o)
  }

  ghost predicate GatewayInv(s: Sys) {
    forall o :: 0 <= o < |s.cells| ==> OnceOnly(s, o)
  }

  lemma OnceOnlyBounds(s: Sys, o: nat)
    requires o < |s.cells| && ClaimLaw(s, o) && GatewayLaw(s, o)
    ensures var c := s.cells[o];
            |c.gateway| <= 1 && (|c.gateway| == 1 ==> c.row.status == Refunding || Phase(c.row.status) == 3)
  {
    SentClaims(s.jobs, o);
    TotalHeldNonNegative(s.jobs, o, Release);
    hide TotalHeld;
  }

  // ---- the events that break them ----

  /** The gateway pays, and its answer is lost. */
  predicate LosesAnswer(s: Sys, e: Event) {
    && e.Step? && e.c.Lost? && e.w < |s.jobs| && s.jobs[e.w].alive
    && s.jobs[e.w].pc.AtLocked? && s.jobs[e.w].pc.locked.Gateway?
  }

  /** The commit that fails would have put on the row that the gateway paid. */
  predicate LosesRefund(s: Sys, e: Event) {
    e.Step? && e.c.Fault? && e.w < |s.jobs| && s.jobs[e.w].alive && HasSent(s.jobs[e.w].pc)
  }

  /**
   The log entry of a restored order fails, and the order can be refunded anew, or is being refunded by an
   attempt that has paid, may still pay or is about to release the lock.
   */
  predicate FreesClaim(s: Sys, e: Event) {
    && e.Step? && e.c.Fault? && e.w < |s.jobs| && s.jobs[e.w].alive
    && s.jobs[e.w].pc.AtLocked? && s.jobs[e.w].pc.locked.LogRestored?
    && var o := s.jobs[e.w].pc.locked.a.order;
    && o < |s.cells| && Phase(s.cells[o].row.status) != 3
    && (s.cells[o].row.status == Refunding ==>
          TotalHeld(s.jobs, o, Claim) + TotalHeld(s.jobs, o, Release) > 0)
  }

  predicate Harms(s: Sys, e: Event) {
    LosesAnswer(s, e) || LosesRefund(s, e) || FreesClaim(s, e)
  }

  // ---- one step about an order ----

  /** What the laws ask of the worker that steps, `claims` and `releases` being those of the others. */
  ghost predicate ClaimReady(v: View, j: Job, c: Choice, claims: nat, releases: nat) {
    && j.alive && Fits(v.cell, claims + Held(j, Claim), releases + Held(j, Release)) && DoneFact(v, j.pc)
    && (j.pc.AtLocked? && c.Lost? ==> !j.pc.locked.Gateway?)
    && (j.pc.AtLocked? && c.Fault? ==>
          && !HasSent(j.pc)
          && (j.pc.locked.LogRestored? ==> Fits(v.cell, claims, releases + 1)))
  }

  ghost predicate ClaimKept(v: View, j: Job, w: View, k: Job, claims: nat, releases: nat) {
    && Fits(w.cell, claims + Held(k, Claim), releases + Held(k, Release)) && DoneFact(w, k.pc)
    && |w.cell.gateway| - |v.cell.gateway| <= Held(k, SentBack) - Held(j, SentBack) + Ended(w.cell) - Ended(v.cell)
  }

  lemma PlainClaims(now: int, balance: int, me: nat, v: View, j: Job, c: Choice, claims: nat, releases: nat)
    requires !j.pc.AtLocked? && ClaimReady(v, j, c, claims, releases)
    requires Evolves(v.cell.row, PlainStep(now, balance, me, v, j.pc, c).0.cell.row)
    ensures var (w, qc) := PlainStep(now, balance, me, v, j.pc, c);
            ClaimKept(v, j, w, Goto(j, qc), claims, releases)
  {
    PlainUninvolved(now, balance, me, v, j.pc, c);
    hide PlainStep;
  }

  lemma LockedClaims(now: int, v: View, j: Job, p: LockedPc, c: Choice, claims: nat, releases: nat)
    requires j.pc == AtLocked(p) && ClaimReady(v, j, c, claims, releases)
    ensures var (w, k) := LockedStep(now, v, j, p, c); ClaimKept(v, j, w, k, claims, releases)
  {
    hide Take, GiveBack;
    TakeKeepsRow(v, p.a.plan.units, now);
  }

  lemma LocalStepClaims(s: Sys, o: nat, w: nat, c: Choice, v: View, j: Job, claims: nat, releases: nat)
    requires Inv(s) && o < |s.cells| && w < |s.jobs| && Target(s.jobs[w].pc) == Some(o)
    requires (v, j) == LocalStep(s.now, At(s.balance, Money(s.cells[o].row.user)), w, ViewOf(s, o), s.jobs[w], c)
    requires ClaimReady(ViewOf(s, o), s.jobs[w], c, claims, releases)
    ensures ClaimKept(ViewOf(s, o), s.jobs[w], v, j, claims, releases) && Stepped(s, o, w, v, j)
  {
    var balance := At(s.balance, Money(s.cells[o].row.user));
    StepReady(s, o, w);
    LocalStepSettles(s.now, balance, w, ViewOf(s, o), s.jobs[w], c, o);
    hide Inv, Ready, ClaimReady, ClaimKept, PlainStep, LockedStep;
    if s.jobs[w].pc.AtLocked? {
      LockedClaims(s.now, ViewOf(s, o), s.jobs[w], s.jobs[w].pc.locked, c, claims, releases);
    } else {
      PlainClaims(s.now, balance, w, ViewOf(s, o), s.jobs[w], c, claims, releases);
    }
  }

  /** What everybody but worker `w` holds. */
  function OthersHold(s: Sys, o: nat, w: nat, h: Hold): (n: nat)
    requires w < |s.jobs|
  {
    TotalHeldCovers(s.jobs, o, h, w, w);
    TotalHeld(s.jobs, o, h) - GiveHeld(s.jobs[w], o, h)
  }

  lemma StepperReady(s: Sys, o: nat, w: nat, c: Choice)
    requires GatewayInv(s) && o < |s.cells| && w < |s.jobs| && Target(s.jobs[w].pc) == Some(o) && s.jobs[w].alive
    requires !Harms(s, Step(w, c))
    ensures ClaimReady(ViewOf(s, o), s.jobs[w], c, OthersHold(s, o, w, Claim), OthersHold(s, o, w, Release))
  {
    assert OnceOnly(s, o);
  }

  lemma StepClaims(s: Sys, o: nat, w: nat, c: Choice)
    requires Inv(s) && GatewayInv(s)
    requires o < |s.cells| && w < |s.jobs| && Target(s.jobs[w].pc) == Some(o) && s.jobs[w].alive
    requires !Harms(s, Step(w, c))
    ensures GatewayInv(OrderStep(s, o, w, c))
  {
    var (v, j) := LocalStep(s.now, At(s.balance, Money(s.cells[o].row.user)), w, ViewOf(s, o), s.jobs[w], c);
    StepperReady(s, o, w, c);
    LocalStepClaims(s, o, w, c, v, j, OthersHold(s, o, w, Claim), OthersHold(s, o, w, Release));
    hide LocalStep, Harms, OnceOnly;
    forall i | 0 <= i < |s.cells| ensures OnceOnly(PutView(s, o, w, v, j), i) {
      StepClaimLaws(s, o, w, v, j, i);
      StepDoneFacts(s, o, w, v, j, i);
      assert OnceOnly(PutView(s, o, w, v, j), i);
    }
  }

  lemma StepClaimLaws(s: Sys, o: nat, w: nat, v: View, j: Job, i: nat)
    requires Stepped(s, o, w, v, j) && i < |s.cells| && OnceOnly(s, i)
    requires ClaimKept(ViewOf(s, o), s.jobs[w], v, j, OthersHold(s, o, w, Claim), OthersHold(s, o, w, Release))
    ensures ClaimLaw(PutView(s, o, w, v, j), i) && GatewayLaw(PutView(s, o, w, v, j), i)
  {
    TotalHeldUpdate(s.jobs, w, j, i, Claim);
    TotalHeldUpdate(s.jobs, w, j, i, Release);
    TotalHeldUpdate(s.jobs, w, j, i, SentBack);
    hide Held, Fits, Ended, DoneFacts;
  }

  lemma StepDoneFacts(s: Sys, o: nat, w: nat, v: View, j: Job, i: nat)
    requires CodesDistinct(s) && Stepped(s, o, w, v, j) && i < |s.cells| && DoneFacts(s, i) && DoneFact(v, j.pc)
    ensures DoneFacts(PutView(s, o, w, v, j), i)
  {
    var t := PutView(s, o, w, v, j);
    StepViews(s, o, w, v, j);
    forall u | 0 <= u < |t.jobs| && Target(t.jobs[u].pc) == Some(i) ensures DoneFact(ViewOf(t, i), t.jobs[u].pc) {
      if u != w {
        assert DoneFact(ViewOf(s, i), s.jobs[u].pc);
      }
    }
  }

  // ---- any event ----

  lemma QuietDoneFacts(s: Sys, e: Event, o: nat)
    requires Inv(s) && GatewayInv(s) && (e.Step? && e.w < |s.jobs| ==> IsQuiet(s, e.w)) && o < |Apply(s, e).cells|
    ensures DoneFacts(Apply(s, e), o)
  {
    var t := Apply(s, e);
    hide Inv, Apply, ViewOf, IsQuiet;
    if o < |s.cells| {
      QuietEvent(s, e, o);
      assert OnceOnly(s, o);
    } else {
      NewOrderHolds(s, e);
    }
    forall w | 0 <= w < |t.jobs| && Target(t.jobs[w].pc) == Some(o) ensures DoneFact(ViewOf(t, o), t.jobs[w].pc) {
      QuietWorker(s, e, w);
    }
  }

  lemma QuietClaims(s: Sys, e: Event, o: nat)
    requires Inv(s) && GatewayInv(s) && (e.Step? && e.w < |s.jobs| ==> IsQuiet(s, e.w)) && o < |s.cells|
    ensures o < |Apply(s, e).cells| && ClaimLaw(Apply(s, e), o) && GatewayLaw(Apply(s, e), o)
  {
    QuietHolds(s, e, o, Claim);
    QuietHolds(s, e, o, Release);
    QuietHolds(s, e, o, SentBack);
    TotalHeldNonNegative(Apply(s, e).jobs, o, Claim);
    QuietEvent(s, e, o);
    assert OnceOnly(s, o);
    hide Inv, Apply, IsQuiet, DoneFacts, GatewayInv, TotalHeld;
  }

  lemma NewOrderClaims(s: Sys, e: Event)
    requires Inv(s) && (e.Step? && e.w < |s.jobs| ==> IsQuiet(s, e.w)) && |Apply(s, e).cells| > |s.cells|
    ensures ClaimLaw(Apply(s, e), |s.cells|) && GatewayLaw(Apply(s, e), |s.cells|)
  {
    NewOrderHolds(s, e);
    NobodyHolds(s, Claim);
    NobodyHolds(s, Release);
    NobodyHolds(s, SentBack);
    QuietHolds(s, e, |s.cells|, Claim);
    QuietHolds(s, e, |s.cells|, Release);
    QuietHolds(s, e, |s.cells|, SentBack);
    TotalHeldNonNegative(Apply(s, e).jobs, |s.cells|, Claim);
    hide Inv, Apply, IsQuiet, TotalHeld;
  }

  lemma QuietOnce(s: Sys, e: Event, o: nat)
    requires Inv(s) && GatewayInv(s) && (e.Step? && e.w < |s.jobs| ==> IsQuiet(s, e.w)) && o < |Apply(s, e).cells|
    ensures OnceOnly(Apply(s, e), o)
  {
    QuietDoneFacts(s, e, o);
    hide Inv, Apply, IsQuiet, GatewayInv, ClaimLaw, DoneFacts, GatewayLaw;
    if o < |s.cells| {
      QuietClaims(s, e, o);
    } else {
      NewOrderHolds(s, e);
      NewOrderClaims(s, e);
    }
  }

  /** Every event that does not harm keeps the gateway's book. */
  lemma ApplyClaims(s: Sys, e: Event)
    requires Inv(s) && GatewayInv(s) && !Harms(s, e)
    ensures GatewayInv(Apply(s, e))
  {
    if e.Step? && e.w < |s.jobs| && Target(s.jobs[e.w].pc).Some? && Target(s.jobs[e.w].pc).value < |s.cells| {
      if s.jobs[e.w].alive {
        hide Inv, GatewayInv, OrderStep, Harms;
        StepClaims(s, Target(s.jobs[e.w].pc).value, e.w, e.c);
      }
    } else {
      hide Inv, Apply, OnceOnly, Harms;
      forall o | 0 <= o < |Apply(s, e).cells| ensures OnceOnly(Apply(s, e), o) {
        QuietOnce(s, e, o);
      }
    }
  }

  predicate KeepsBooks(s: Sys, es: seq<Event>) {
    es == [] || (KeepsBooks(s, es[..|es| - 1]) && !Harms(Run(s, es[..|es| - 1]), es[|es| - 1]))
  }

  lemma {:induction false} RunClaims(s: Sys, es: seq<Event>)
    requires Initial(s) && KeepsBooks(s, es)
    ensures GatewayInv(Run(s, es))
  {
    if es != [] {
      var m := es[..|es| - 1];
      RunClaims(s, m);
      RunKeeps(s, m);
      hide GatewayInv, Inv, Harms;
      ApplyClaims(Run(s, m), es[|es| - 1]);
    }
  }
}
