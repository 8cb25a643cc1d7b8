/**
 The exact conditions of the two refund guarantees (src/order/service.rs, src/order/repository.rs).

 After every event that breaks the gateway's book an unhindered continuation has the gateway pay twice, and after
 every event that breaks the REFUNDING lock one has a holder without the status.  So a run is free of such events
 if and only if at no point of it the harm can be done.
 */
module Harm {
  import opened Common
  import opened Orders
  import opened Protocol
  import opened Steps
  import opened World
  import opened Facts
  import opened Invariant
  import opened Holds
  import opened Locks
  import opened Claims
  import opened Guarantees
  import opened Continuations

  // ---- the error path frees the order ----

  /** The amounts and the trade number a refund needs. */
  predicate Payable(r: Row) {
    r.amountCents > 0 && r.tradeNo.Some?
  }

  /** A REFUNDING order is released by a worker on its error path, whoever holds the lock. */
  lemma Frees(s: Sys, t: Sys, o: nat, w: nat, cell: Cell, a: Attempt, cause: Cause, applied: int) returns (u: Sys)
    requires CanReach(s, t) && a.order == o && cell.row.status == Refunding
    requires Stands(s, t, o, w, cell, AtLocked(FailMark(a, cause)), applied)
    ensures CanReach(s, u) && u.now == s.now && u == Apply(t, Step(w, Ok))
    ensures o < |u.cells| && u.cells[o] == cell.(row := MarkRefundFailed(cell.row, s.now, s.now))
    ensures |u.jobs| == |t.jobs| && forall i :: 0 <= i < |t.jobs| && i != w ==> u.jobs[i] == t.jobs[i]
    ensures w < |u.jobs| && u.jobs[w].pc == AtLocked(FailLog(a, cause, true))
  {
    hide CanReach, Apply;
    Advance(s, t, o, w, cell, AtLocked(FailMark(a, cause)), applied, Ok);
    u := Apply(t, Step(w, Ok));
  }

  /** Then it is refunded once more. */
  lemma FreesAndSends(s: Sys, t: Sys, o: nat, w: nat, cell: Cell, a: Attempt, cause: Cause, applied: int)
    returns (u: Sys)
    requires CanReach(s, t) && a.order == o && cell.row.status == Refunding && Payable(cell.row)
    requires Stands(s, t, o, w, cell, AtLocked(FailMark(a, cause)), applied)
    ensures CanReach(s, u) && o < |u.cells| && u.cells[o].gateway == cell.gateway + [Expected(cell.row)]
  {
    var x := Frees(s, t, o, w, cell, a, cause, applied);
    hide CanReach, Apply;
    u := SendsAgain(s, x, o, x.cells[o]);
  }

  /** Another attempt about to call the gateway does so after the lock was freed under it. */
  lemma FreesUnderGateway(s: Sys, t: Sys, o: nat, w: nat, cell: Cell, a: Attempt, cause: Cause, applied: int,
                          i: nat, b: Attempt) returns (u: Sys)
    requires CanReach(s, t) && a.order == o && cell.row.status == Refunding && Payable(cell.row)
    requires Stands(s, t, o, w, cell, AtLocked(FailMark(a, cause)), applied)
    requires i < |t.jobs| && i != w && b.order == o && t.jobs[i].alive && t.jobs[i].pc == AtLocked(Gateway(b))
    ensures CanReach(s, u) && o < |u.cells|
    ensures u.cells[o].gateway == cell.gateway + [b.gatewayCents, Expected(cell.row)]
  {
    var x := Frees(s, t, o, w, cell, a, cause, applied);
    hide CanReach, Apply;
    Advance(s, x, o, i, x.cells[o], AtLocked(Gateway(b)), t.jobs[i].applied, Ok);
    var y := Apply(x, Step(i, Ok));
    u := SendsAgain(s, y, o, y.cells[o]);
    assert cell.gateway + [b.gatewayCents] + [Expected(cell.row)] ==
      cell.gateway + [b.gatewayCents, Expected(cell.row)];
  }

  /** Nor need there be another attempt yet. */
  lemma FreesNewAttempt(s: Sys, t: Sys, o: nat, w: nat, cell: Cell, a: Attempt, cause: Cause, applied: int)
    returns (u: Sys)
    requires CanReach(s, t) && a.order == o && Refundable(cell.row)
    requires Stands(s, t, o, w, cell, AtLocked(FailMark(a, cause)), applied)
    ensures CanReach(s, u) && o < |u.cells| && |u.cells[o].gateway| == |cell.gateway| + 2
  {
    hide CanReach;
    var x, i := Acquires(s, t, o, cell);
    var locked := cell.(row := MarkRefunding(cell.row, s.now));
    u := FreesUnderGateway(s, x, o, w, locked, a, cause, applied, i, FullAttempt(o, cell.row));
  }

  // ---- whoever has a claim comes to the gateway or to the release ----

  /** Worker `w` is on its error path, about to release whatever lock there is. */
  ghost predicate Threat(s: Sys, t: Sys, o: nat, w: nat, a: Attempt, cause: Cause) {
    && CanReach(s, t) && o < |t.cells| && t.now == s.now && Payable(t.cells[o].row) && a.order == o
    && w < |t.jobs| && t.jobs[w].alive && t.jobs[w].pc == AtLocked(FailMark(a, cause))
  }

  /** Another worker stands at `p`. */
  ghost predicate Face(s: Sys, t: Sys, o: nat, w: nat, a: Attempt, cause: Cause, i: nat, p: LockedPc) {
    && Threat(s, t, o, w, a, cause)
    && w != i && i < |t.jobs| && t.jobs[i].alive && t.jobs[i].pc == AtLocked(p) && p.a.order == o
  }

  ghost predicate PaidTwice(s: Sys, o: nat) {
    exists u :: CanReach(s, u) && o < |u.cells| && |u.cells[o].gateway| >= 2
  }

  /** One step of worker `i`, every answer favourable. */
  lemma Moves(s: Sys, t: Sys, o: nat, w: nat, a: Attempt, cause: Cause, i: nat, p: LockedPc) returns (u: Sys)
    requires Face(s, t, o, w, a, cause, i, p)
    ensures var (v, j) := LockedStep(s.now, ViewOf(t, o), t.jobs[i], p, Ok);
            && CanReach(s, u) && u.now == s.now && w < |u.jobs| && i < |u.jobs| && u.jobs[w] == t.jobs[w]
            && o < |u.cells| && u.cells[o] == v.cell && u.jobs[i].alive && u.jobs[i].pc == j.pc
  {
    hide CanReach;
    Advance(s, t, o, i, t.cells[o], AtLocked(p), t.jobs[i].applied, Ok);
    u := Apply(t, Step(i, Ok));
    hide LockedStep, Apply;
  }

  lemma FacesGateway(s: Sys, t: Sys, o: nat, w: nat, a: Attempt, cause: Cause, i: nat, b: Attempt)
    requires Face(s, t, o, w, a, cause, i, Gateway(b)) && t.cells[o].row.status == Refunding
    ensures PaidTwice(s, o)
  {
    hide CanReach;
    var u := FreesUnderGateway(s, t, o, w, t.cells[o], a, cause, t.jobs[w].applied, i, b);
  }

  lemma ThreatensRefundable(s: Sys, t: Sys, o: nat, w: nat, a: Attempt, cause: Cause)
    requires Threat(s, t, o, w, a, cause) && CanMarkRefunding(t.cells[o].row)
    ensures PaidTwice(s, o)
  {
    hide CanReach;
    var u := FreesNewAttempt(s, t, o, w, t.cells[o], a, cause, t.jobs[w].applied);
  }

  lemma FacesFailure(s: Sys, t: Sys, o: nat, w: nat, a: Attempt, cause: Cause, i: nat, p: LockedPc)
    requires Face(s, t, o, w, a, cause, i, p) && t.cells[o].row.status == Refunding
    requires p.FailMark? || p.Restore?
    ensures PaidTwice(s, o)
  {
    var u := Moves(s, t, o, w, a, cause, i, p);
    hide CanReach;
    ThreatensRefundable(s, u, o, w, a, cause);
  }

  lemma FacesUndoing(s: Sys, t: Sys, o: nat, w: nat, a: Attempt, cause: Cause, i: nat, p: LockedPc)
    requires Face(s, t, o, w, a, cause, i, p) && t.cells[o].row.status == Refunding
    requires p.Rollback? || p.LogRollback?
    ensures PaidTwice(s, o)
  {
    var u := Moves(s, t, o, w, a, cause, i, p);
    hide CanReach;
    FacesFailure(s, u, o, w, a, cause, i, if p.Rollback? then Restore(p.a) else FailMark(p.a, NotRolledBack));
  }

  /** Whatever an attempt that still runs under the lock is about to do, the gateway can come to pay twice. */
  lemma FacesClaim(s: Sys, t: Sys, o: nat, w: nat, a: Attempt, cause: Cause, i: nat, p: LockedPc)
    requires Face(s, t, o, w, a, cause, i, p) && t.cells[o].row.status == Refunding && p.a.snap.tradeNo.Some?
    requires !p.NoTrade? && !p.Mark? && !p.LogRestored? && !p.LogDone? && !p.FailLog?
    ensures PaidTwice(s, o)
  {
    hide CanReach, PaidTwice;
    if p.Deduct? {
      var u := Moves(s, t, o, w, a, cause, i, p);
      FacesGateway(s, u, o, w, a, cause, i, p.a);
    } else if p.Gateway? {
      FacesGateway(s, t, o, w, a, cause, i, p.a);
    } else if p.Rollback? || p.LogRollback? {
      FacesUndoing(s, t, o, w, a, cause, i, p);
    } else {
      FacesFailure(s, t, o, w, a, cause, i, p);
    }
  }
  // ---- the three kinds of harm ----

  /** The gateway's answer is lost: the order is restored and refunded again. */
  lemma LostAnswer(s: Sys, o: nat, w: nat, a: Attempt) returns (u: Sys)
    requires o < |s.cells| && a.order == o && s.cells[o].row.status == Refunding && Payable(s.cells[o].row)
    requires w < |s.jobs| && s.jobs[w].alive && s.jobs[w].pc == AtLocked(Gateway(a))
    ensures CanReach(Apply(s, Step(w, Lost)), u) && o < |u.cells|
    ensures u.cells[o].gateway == s.cells[o].gateway + [a.gatewayCents, Expected(s.cells[o].row)]
  {
    hide CanReach;
    var t := Apply(s, Step(w, Lost));
    Reflexive(t);
    var cell := s.cells[o].(gateway := s.cells[o].gateway + [a.gatewayCents]);
    assert Stands(t, t, o, w, cell, AtLocked(Rollback(a)), s.jobs[w].applied);
    hide Apply;
    u := RollsBackAndSends(t, t, o, w, cell, a, s.jobs[w].applied);
  }

  lemma RollsBackAndSends(s: Sys, t: Sys, o: nat, w: nat, cell: Cell, a: Attempt, applied: int) returns (u: Sys)
    requires CanReach(s, t) && a.order == o && cell.row.status == Refunding && Payable(cell.row)
    requires Stands(s, t, o, w, cell, AtLocked(Rollback(a)), applied)
    ensures CanReach(s, u) && o < |u.cells| && u.cells[o].gateway == cell.gateway + [Expected(cell.row)]
  {
    hide CanReach, Apply;
    Advance(s, t, o, w, cell, AtLocked(Rollback(a)), applied, Ok);
    var x := Apply(t, Step(w, Ok));
    u := RestoresAndSends(s, x, o, w, x.cells[o], a, x.jobs[w].applied);
  }

  lemma RestoresAndSends(s: Sys, t: Sys, o: nat, w: nat, cell: Cell, a: Attempt, applied: int) returns (u: Sys)
    requires CanReach(s, t) && a.order == o && cell.row.status == Refunding && Payable(cell.row)
    requires Stands(s, t, o, w, cell, AtLocked(Restore(a)), applied)
    ensures CanReach(s, u) && o < |u.cells| && u.cells[o].gateway == cell.gateway + [Expected(cell.row)]
  {
    hide CanReach, Apply;
    Advance(s, t, o, w, cell, AtLocked(Restore(a)), applied, Ok);
    var x := Apply(t, Step(w, Ok));
    u := SendsAgain(s, x, o, x.cells[o]);
  }

  /** The mark fails after the gateway paid: the error path frees the order, and it is refunded again. */
  lemma LostMark(s: Sys, o: nat, w: nat, a: Attempt) returns (u: Sys)
    requires o < |s.cells| && a.order == o && s.cells[o].row.status == Refunding && Payable(s.cells[o].row)
    requires w < |s.jobs| && s.jobs[w].alive && s.jobs[w].pc == AtLocked(Mark(a, true))
    ensures CanReach(Apply(s, Step(w, Fault)), u) && o < |u.cells|
    ensures u.cells[o].gateway == s.cells[o].gateway + [Expected(s.cells[o].row)]
  {
    hide CanReach;
    var t := Apply(s, Step(w, Fault));
    Reflexive(t);
    assert t.cells[o] == s.cells[o];
    hide Apply;
    u := FreesAndSends(t, t, o, w, t.cells[o], a, CommitFailed(AtMark(true)), t.jobs[w].applied);
  }

  /** The log entry of a restored order fails: the worker is left to release a lock that is not its own. */
  lemma Threatens(s: Sys, o: nat, w: nat, a: Attempt) returns (t: Sys)
    requires o < |s.cells| && a.order == o && Payable(s.cells[o].row)
    requires w < |s.jobs| && s.jobs[w].alive && s.jobs[w].pc == AtLocked(LogRestored(a))
    ensures t == Apply(s, Step(w, Fault)) && Threat(t, t, o, w, a, CommitFailed(AtLogRestored))
    ensures t.cells[o] == s.cells[o]
    ensures |t.jobs| == |s.jobs| && forall i :: 0 <= i < |s.jobs| && i != w ==> t.jobs[i] == s.jobs[i]
  {
    hide CanReach;
    t := Apply(s, Step(w, Fault));
    Reflexive(t);
    StepTouchesOthersNot(s, w, Fault);
  }

  lemma FreedClaimHarms(s: Sys, o: nat, w: nat, a: Attempt, i: nat, p: LockedPc)
    requires o < |s.cells| && a.order == o && s.cells[o].row.status == Refunding && Payable(s.cells[o].row)
    requires w < |s.jobs| && s.jobs[w].alive && s.jobs[w].pc == AtLocked(LogRestored(a))
    requires i < |s.jobs| && s.jobs[i].pc == AtLocked(p) && p.a.order == o && p.a.snap.tradeNo.Some? && !p.NoTrade?
    requires Held(s.jobs[i], Claim) == 1 || Held(s.jobs[i], Release) == 1
    requires p.Mark? ==> p.sent && s.cells[o].gateway != []
    ensures PaidTwice(Apply(s, Step(w, Fault)), o)
  {
    hide CanReach;
    var cause := CommitFailed(AtLogRestored);
    var t := Threatens(s, o, w, a);
    hide Apply;
    if p.Mark? {
      var u := FreesAndSends(t, t, o, w, t.cells[o], a, cause, t.jobs[w].applied);
    } else {
      FacesClaim(t, t, o, w, a, cause, i, p);
    }
  }

  /** What is known of a worker inside the locked part. */
  lemma LockedWorker(s: Sys, w: nat)
    requires Reachable(s) && w < |s.jobs| && s.jobs[w].pc.AtLocked?
    ensures var p := s.jobs[w].pc.locked;
            && p.a.order < |s.cells| && Phase(s.cells[p.a.order].row.status) >= 2 && Payable(s.cells[p.a.order].row)
            && p.a.snap.tradeNo.Some? && !p.NoTrade? && (p.Mark? ==> p.sent && s.cells[p.a.order].gateway != [])
  {
    RefundsHaveTradeNumbers(s, w);
    ReachableWorker(s, w);
    ReachableInv(s);
    assert CellOk(ViewOf(s, s.jobs[w].pc.locked.a.order));
  }

  /** Whoever has a claim or is about to release finds the order REFUNDING. */
  lemma ClaimantFindsRefunding(s: Sys, w: nat)
    requires GatewayInv(s) && w < |s.jobs| && Target(s.jobs[w].pc).Some? && Target(s.jobs[w].pc).value < |s.cells|
    requires Held(s.jobs[w], Claim) == 1
    ensures s.cells[Target(s.jobs[w].pc).value].row.status == Refunding
  {
    var o := Target(s.jobs[w].pc).value;
    assert OnceOnly(s, o);
    TotalHeldCovers(s.jobs, o, Claim, w, w);
    TotalHeldNonNegative(s.jobs, o, Release);
  }

  lemma FreesClaimHarms(s: Sys, w: nat)
    requires Reachable(s) && GatewayInv(s) && FreesClaim(s, Step(w, Fault))
    ensures PaidTwice(Apply(s, Step(w, Fault)), s.jobs[w].pc.locked.a.order)
  {
    var a := s.jobs[w].pc.locked.a;
    var o := a.order;
    LockedWorker(s, w);
    if s.cells[o].row.status == Refunding {
      var i := Claimant(s, o);
      LockedWorker(s, i);
      hide PaidTwice, Apply, Reachable;
      FreedClaimHarms(s, o, w, a, i, s.jobs[i].pc.locked);
    } else {
      var t := Threatens(s, o, w, a);
      hide PaidTwice, Apply, Reachable;
      ThreatensRefundable(t, t, o, w, a, CommitFailed(AtLogRestored));
    }
  }

  lemma Claimant(s: Sys, o: nat) returns (i: nat)
    requires TotalHeld(s.jobs, o, Claim) + TotalHeld(s.jobs, o, Release) > 0
    ensures i < |s.jobs| && Target(s.jobs[i].pc) == Some(o) && s.jobs[i].pc.AtLocked?
    ensures Held(s.jobs[i], Claim) == 1 || Held(s.jobs[i], Release) == 1
  {
    if TotalHeld(s.jobs, o, Claim) > 0 {
      i := SomebodyHolds(s.jobs, o, Claim);
    } else {
      i := SomebodyHolds(s.jobs, o, Release);
    }
  }

  /** Every event that breaks the gateway's book can be followed, unhindered, by a second payment. */
  lemma HarmIsReal(s: Sys, e: Event) returns (o: nat)
    requires Reachable(s) && GatewayInv(s) && Harms(s, e)
    ensures PaidTwice(Apply(s, e), o)
  {
    LockedWorker(s, e.w);
    var a := s.jobs[e.w].pc.locked.a;
    o := a.order;
    hide Apply, Reachable, CanReach;
    if FreesClaim(s, e) {
      FreesClaimHarms(s, e.w);
    } else {
      ClaimantFindsRefunding(s, e.w);
      hide GatewayInv, FreesClaim;
      if LosesAnswer(s, e) {
        var u := LostAnswer(s, o, e.w, a);
      } else {
        var u := LostMark(s, o, e.w, a);
      }
    }
  }

  // ---- the exact condition of a single refund ----

  /** No order can come to have two gateway refunds from here, unhindered. */
  ghost predicate NeverTwice(s: Sys) {
    forall t, o :: CanReach(s, t) && 0 <= o < |t.cells| ==> |t.cells[o].gateway| <= 1
  }

  lemma {:induction false} RunJoins(s: Sys, es: seq<Event>, fs: seq<Event>)
    ensures Run(Run(s, es), fs) == Run(s, es + fs)
  {
    if fs == [] {
      assert es + fs == es;
    } else {
      var n := |fs| - 1;
      RunJoins(s, es, fs[..n]);
      assert (es + fs)[..|es| + n] == es + fs[..n];
    }
  }

  /** Unhindered events do no harm. */
  lemma {:induction false} PlainKeepsBooks(s: Sys, es: seq<Event>, fs: seq<Event>)
    requires KeepsBooks(s, es) && PlainRun(fs)
    ensures KeepsBooks(s, es + fs)
  {
    if fs == [] {
      assert es + fs == es;
    } else {
      var n := |fs| - 1;
      PlainKeepsBooks(s, es, fs[..n]);
      assert (es + fs)[..|es| + n] == es + fs[..n];
      assert Plain(fs[n]);
    }
  }

  lemma {:induction false} PrefixKeepsBooks(s: Sys, es: seq<Event>, i: nat)
    requires KeepsBooks(s, es) && i <= |es|
    ensures KeepsBooks(s, es[..i])
  {
    if i < |es| {
      PrefixKeepsBooks(s, es[..|es| - 1], i);
      assert es[..|es| - 1][..i] == es[..i];
    } else {
      assert es[..i] == es;
    }
  }

  lemma {:induction false} FirstHarm(s: Sys, es: seq<Event>) returns (i: nat)
    requires !KeepsBooks(s, es)
    ensures i < |es| && KeepsBooks(s, es[..i]) && Harms(Run(s, es[..i]), es[i])
  {
    var n := |es| - 1;
    if KeepsBooks(s, es[..n]) {
      i := n;
    } else {
      i := FirstHarm(s, es[..n]);
      assert es[..n][..i] == es[..i];
    }
  }

  lemma KeptBooksNeverTwice(s0: Sys, es: seq<Event>)
    requires Initial(s0) && KeepsBooks(s0, es)
    ensures NeverTwice(Run(s0, es))
  {
    forall t, o | CanReach(Run(s0, es), t) && 0 <= o < |t.cells| ensures |t.cells[o].gateway| <= 1 {
      var fs :| PlainRun(fs) && t == Run(Run(s0, es), fs);
      RunJoins(s0, es, fs);
      PlainKeepsBooks(s0, es, fs);
      GatewayRefundsOnce(s0, es + fs, o);
    }
  }

  /**
   A run is free of the three kinds of harmful events if and only if at no point of it an unhindered
   continuation has the gateway pay twice for one order.
   */
  lemma GatewayRefundsOnceExactly(s0: Sys, es: seq<Event>)
    requires Initial(s0)
    ensures KeepsBooks(s0, es) <==> forall i :: 0 <= i <= |es| ==> NeverTwice(Run(s0, es[..i]))
  {
    if KeepsBooks(s0, es) {
      forall i | 0 <= i <= |es| ensures NeverTwice(Run(s0, es[..i])) {
        PrefixKeepsBooks(s0, es, i);
        KeptBooksNeverTwice(s0, es[..i]);
      }
    } else {
      var i := FirstHarm(s0, es);
      RunClaims(s0, es[..i]);
      assert Reachable(Run(s0, es[..i]));
      var o := HarmIsReal(Run(s0, es[..i]), es[i]);
      assert es[..i + 1][..i] == es[..i];
      assert Run(s0, es[..i + 1]) == Apply(Run(s0, es[..i]), es[i]);
      TwiceIsNotNever(Run(s0, es[..i + 1]), o);
    }
  }

  lemma TwiceIsNotNever(s: Sys, o: nat)
    requires PaidTwice(s, o)
    ensures !NeverTwice(s)
  {
  }

  // ---- the exact condition of the lock ----

  /** Unhindered, no order comes to be held without the status, or to have the status without a holder. */
  ghost predicate StaysLocked(s: Sys) {
    forall t, o :: CanReach(s, t) && 0 <= o < |t.cells| ==> LockLaw(t, o)
  }

  lemma {:induction false} PlainKeepsLocks(s: Sys, es: seq<Event>, fs: seq<Event>)
    requires KeepsLocks(s, es) && PlainRun(fs)
    ensures KeepsLocks(s, es + fs)
  {
    if fs == [] {
      assert es + fs == es;
    } else {
      var n := |fs| - 1;
      PlainKeepsLocks(s, es, fs[..n]);
      assert (es + fs)[..|es| + n] == es + fs[..n];
      assert Plain(fs[n]);
    }
  }

  lemma {:induction false} PrefixKeepsLocks(s: Sys, es: seq<Event>, i: nat)
    requires KeepsLocks(s, es) && i <= |es|
    ensures KeepsLocks(s, es[..i])
  {
    if i < |es| {
      PrefixKeepsLocks(s, es[..|es| - 1], i);
      assert es[..|es| - 1][..i] == es[..i];
    } else {
      assert es[..i] == es;
    }
  }

  lemma {:induction false} FirstBreak(s: Sys, es: seq<Event>) returns (i: nat)
    requires !KeepsLocks(s, es)
    ensures i < |es| && KeepsLocks(s, es[..i]) && BreaksLock(Run(s, es[..i]), es[i])
  {
    var n := |es| - 1;
    if KeepsLocks(s, es[..n]) {
      i := n;
    } else {
      i := FirstBreak(s, es[..n]);
      assert es[..n][..i] == es[..i];
    }
  }

  lemma KeptLocksStay(s0: Sys, es: seq<Event>)
    requires Initial(s0) && KeepsLocks(s0, es)
    ensures StaysLocked(Run(s0, es))
  {
    forall t, o | CanReach(Run(s0, es), t) && 0 <= o < |t.cells| ensures LockLaw(t, o) {
      var fs :| PlainRun(fs) && t == Run(Run(s0, es), fs);
      RunJoins(s0, es, fs);
      PlainKeepsLocks(s0, es, fs);
      RunLocks(s0, es + fs);
    }
  }

  /** A lock that its holder has not released is released: a holder without the status. */
  lemma FreedUnderHolder(s: Sys, t: Sys, o: nat, w: nat, a: Attempt, i: nat)
    requires Threat(s, t, o, w, a, CommitFailed(AtLogRestored)) && t.cells[o].row.status == Refunding
    requires i < |t.jobs| && i != w && Target(t.jobs[i].pc) == Some(o) && HoldsLock(t.jobs[i].pc)
    ensures !StaysLocked(s)
  {
    hide CanReach, Apply;
    var u := Frees(s, t, o, w, t.cells[o], a, CommitFailed(AtLogRestored), t.jobs[w].applied);
    TotalHeldCovers(u.jobs, o, Lock, i, i);
    assert !LockLaw(u, o);
  }

  lemma BreakIsReal(s: Sys, e: Event)
    requires Reachable(s) && LockInv(s) && BreaksLock(s, e)
    ensures !StaysLocked(Apply(s, e))
  {
    var a := s.jobs[e.w].pc.locked.a;
    var o := a.order;
    LockedWorker(s, e.w);
    var t := Threatens(s, o, e.w, a);
    hide StaysLocked, Apply, Reachable, CanReach;
    if s.cells[o].row.status == Refunding {
      assert LockLaw(s, o);
      var i := SomebodyHolds(s.jobs, o, Lock);
      FreedUnderHolder(t, t, o, e.w, a, i);
    } else {
      var x, i := Acquires(t, t, o, t.cells[o]);
      FreedUnderHolder(t, x, o, e.w, a, i);
    }
  }

  /**
   A run is free of failing log entries of restored orders still to be refunded if and only if at no point of it
   an unhindered continuation breaks the REFUNDING lock.
   */
  lemma RefundLockExclusiveExactly(s0: Sys, es: seq<Event>)
    requires Initial(s0)
    ensures KeepsLocks(s0, es) <==> forall i :: 0 <= i <= |es| ==> StaysLocked(Run(s0, es[..i]))
  {
    if KeepsLocks(s0, es) {
      forall i | 0 <= i <= |es| ensures StaysLocked(Run(s0, es[..i])) {
        PrefixKeepsLocks(s0, es, i);
        KeptLocksStay(s0, es[..i]);
      }
    } else {
      var i := FirstBreak(s0, es);
      RunLocks(s0, es[..i]);
      assert Reachable(Run(s0, es[..i]));
      BreakIsReal(Run(s0, es[..i]), es[i]);
      assert es[..i + 1][..i] == es[..i];
      assert Run(s0, es[..i + 1]) == Apply(Run(s0, es[..i]), es[i]);
    }
  }
}
