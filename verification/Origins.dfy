/**
 Where credits, success entries and refund requests come from (src/order/service.rs): every one of them is traced to
 the answer of the platform that allowed it.
 */
module Origins {
  import opened Common
  import opened Orders
  import opened Protocol
  import opened Steps
  import opened Facts
  import opened World
  import opened Invariant
  import opened Quiet
  import opened Transitions
  import opened Guarantees

  /** At position `i` worker `w` moves on from `pc`, and the environment answers `c`. */
  ghost predicate StepsAt(s0: Sys, es: seq<Event>, i: nat, w: nat, pc: Pc, c: Choice) {
    && i < |es| && es[i] == Step(w, c)
    && w < |Run(s0, es[..i]).jobs| && Run(s0, es[..i]).jobs[w].alive && Run(s0, es[..i]).jobs[w].pc == pc
  }

  lemma StepsEarlier(s0: Sys, es: seq<Event>, n: nat, i: nat, w: nat, pc: Pc, c: Choice)
    requires n <= |es| && StepsAt(s0, es[..n], i, w, pc, c)
    ensures i < n && StepsAt(s0, es, i, w, pc, c)
  {
    assert es[..n][..i] == es[..i];
  }

  // ---- local sources ----

  /** Who gets to a redeem, a completion, a success entry, a request to be marked or recorded. */
  ghost predicate Comes(balance: int, pc: Pc, c: Choice, qc: Pc) {
    match qc
    case AtFulfill(FulfillRedeem(o, via, snap, grant, _)) =>
      pc == AtFulfill(FulfillConfig(o, via, snap)) && Grants(snap, c, grant)
    case AtFulfill(FulfillComplete(o, via, snap, grant, nowTs)) =>
      pc == AtFulfill(FulfillRedeem(o, via, snap, grant, nowTs)) && c.Ok?
    case AtFulfill(FulfillLog(o, via, snap, grant)) =>
      pc.AtFulfill? && pc.fulfill.FulfillComplete? &&
      pc.fulfill == FulfillComplete(o, via, snap, grant, pc.fulfill.nowTs)
    case AtRequest(RequestMark(o, user, cents)) =>
      pc == AtRequest(RequestBalance(o, user, cents)) && c.Ok? && Max(balance, 0) >= cents
    case AtRequest(RequestLog(o, user, cents)) => pc == AtRequest(RequestMark(o, user, cents))
    case _ => true
  }

  lemma PlainComes(now: int, balance: int, me: nat, v: View, pc: Pc, c: Choice)
    requires !pc.AtLocked?
    ensures var qc := PlainStep(now, balance, me, v, pc, c).1; qc == pc || Comes(balance, pc, c, qc)
  {
    hide PrepareDeduction, Redeemed;
    match pc
    case AtFulfill(p) => FulfillComes(now, balance, v, p, c);
    case AtRequest(p) => RequestComes(now, balance, v, p, c);
    case _ =>
  }

  lemma FulfillComes(now: int, balance: int, v: View, p: FulfillPc, c: Choice)
    ensures Comes(balance, AtFulfill(p), c, FulfillStep(now, v, p, c).1)
  {
    hide Redeemed;
  }

  lemma RequestComes(now: int, balance: int, v: View, p: RequestPc, c: Choice)
    ensures Comes(balance, AtRequest(p), c, RequestStep(now, balance, v, p, c).1)
  {
  }

  // ---- steps of the whole system ----

  predicate Traced(pc: Pc) {
    match pc
    case AtFulfill(p) => p.FulfillRedeem? || p.FulfillComplete? || p.FulfillLog?
    case AtRequest(p) => p.RequestMark? || p.RequestLog?
    case _ => false
  }

  lemma QuietUntraced(s: Sys, w: nat, c: Choice)
    requires Inv(s) && IsQuiet(s, w)
    ensures w < |WorkerStep(s, w, c).jobs| && !Traced(WorkerStep(s, w, c).jobs[w].pc)
  {
    assert WorkerOk(s, s.jobs[w]);
    hide CreateStep, OrderStep;
    if s.jobs[w].pc.AtCreate? {
      CreateUntraced(s, w, s.jobs[w].pc.create);
    }
  }

  lemma CreateUntraced(s: Sys, w: nat, p: CreatePc)
    requires w < |s.jobs|
    ensures w < |CreateStep(s, w, p).jobs| && !Traced(CreateStep(s, w, p).jobs[w].pc)
  {
    hide PendingOf, CodeTaken, Admissible, NewRow;
  }

  lemma StepComes(s: Sys, w: nat, c: Choice)
    requires Inv(s) && w < |s.jobs| && s.jobs[w].alive
    requires Traced(Apply(s, Step(w, c)).jobs[w].pc) && Apply(s, Step(w, c)).jobs[w].pc != s.jobs[w].pc
    ensures Target(s.jobs[w].pc).Some? && Target(s.jobs[w].pc).value < |s.cells|
    ensures var user := s.cells[Target(s.jobs[w].pc).value].row.user;
            Comes(At(s.balance, Money(user)), s.jobs[w].pc, c, Apply(s, Step(w, c)).jobs[w].pc)
  {
    if IsQuiet(s, w) {
      QuietUntraced(s, w, c);
      hide WorkerStep, Inv;
    } else {
      OrderStepComes(s, w, c, Target(s.jobs[w].pc).value);
      hide OrderStep, Inv, Comes, Traced;
    }
  }

  lemma OrderStepComes(s: Sys, w: nat, c: Choice, o: nat)
    requires o < |s.cells| && w < |s.jobs| && Target(s.jobs[w].pc) == Some(o)
    requires Traced(OrderStep(s, o, w, c).jobs[w].pc) && OrderStep(s, o, w, c).jobs[w].pc != s.jobs[w].pc
    ensures Comes(At(s.balance, Money(s.cells[o].row.user)), s.jobs[w].pc, c, OrderStep(s, o, w, c).jobs[w].pc)
  {
    if s.jobs[w].pc.AtLocked? {
      LockedUntraced(s.now, ViewOf(s, o), s.jobs[w], s.jobs[w].pc.locked, c);
    } else {
      PlainComes(s.now, At(s.balance, Money(s.cells[o].row.user)), w, ViewOf(s, o), s.jobs[w].pc, c);
    }
    hide PlainStep, LockedStep, Comes;
  }

  lemma LockedUntraced(now: int, v: View, j: Job, p: LockedPc, c: Choice)
    requires j.pc == AtLocked(p)
    ensures !Traced(LockedStep(now, v, j, p, c).1.pc)
  {
    hide Take, GiveBack;
  }

  /** A worker at such a point came there from the point before it, by the answer it needed. */
  lemma CameFrom(s0: Sys, es: seq<Event>, w: nat) returns (i: nat, c: Choice)
    requires Initial(s0) && w < |Run(s0, es).jobs| && Traced(Run(s0, es).jobs[w].pc)
    ensures i < |es| && w < |Run(s0, es[..i]).jobs|
    ensures var (s, pc) := (Run(s0, es[..i]), Run(s0, es[..i]).jobs[w].pc);
            && StepsAt(s0, es, i, w, pc, c)
            && Target(pc).Some? && Target(pc).value < |s.cells|
            && Comes(At(s.balance, Money(s.cells[Target(pc).value].row.user)), pc, c, Run(s0, es).jobs[w].pc)
  {
    i := Arrival(s0, es, w);
    c := es[i].c;
    RunKeeps(s0, es[..i]);
    assert es[..i + 1][..i] == es[..i] && es[..i + 1][i] == es[i];
    hide Inv, Comes, Traced, Apply;
    StepComes(Run(s0, es[..i]), w, c);
  }

  // ---- entries ----

  /** An order not there yet has no log, and is not credited when it comes. */
  lemma NewOrderBlank(s: Sys, e: Event, o: nat)
    requires Inv(s) && |s.cells| <= o < |Apply(s, e).cells|
    ensures var t := Apply(s, e); t.cells[o].log == [] && t.cells[o].row.rechargeCode !in t.ledger
  {
    ApplyKeeps(s, e);
    assert e.Step? && e.w < |s.jobs| && s.jobs[e.w].alive;
    assert IsQuiet(s, e.w) by {
      assert WorkerOk(s, s.jobs[e.w]);
      hide LocalStep, CreateStep, Inv;
    }
    QuietStepShape(s, e.w, e.c);
    hide WorkerStep;
    assert CellOk(ViewOf(Apply(s, e), o));
  }

  /** Every entry of a log was written by a worker that stood where such entries are written. */
  lemma {:induction false} EntryWasWritten(s0: Sys, es: seq<Event>, o: nat, e: Entry)
    returns (i: nat, w: nat, pc: Pc, c: Choice)
    requires Initial(s0) && o < |Run(s0, es).cells| && e in Run(s0, es).cells[o].log
    ensures StepsAt(s0, es, i, w, pc, c) && Target(pc) == Some(o) && Written(pc) == Some(e)
  {
    var n := |es| - 1;
    var s := Run(s0, es[..n]);
    RunKeeps(s0, es[..n]);
    assert Reachable(s);
    if o >= |s.cells| {
      NewOrderBlank(s, es[n], o);
      assert false;
    }
    EveryChangeIsJustified(s, es[n], o);
    hide Inv, Apply, Reachable, Written, RowJustified, CreditJustified, GatewayJustified, TakenJustified;
    if e in s.cells[o].log {
      i, w, pc, c := EntryWasWritten(s0, es[..n], o, e);
      StepsEarlier(s0, es, n, i, w, pc, c);
    } else {
      i, w, c := n, es[n].w, es[n].c;
      pc := s.jobs[w].pc;
    }
  }

  /** The days a success entry names were granted, and the platform confirmed that it credited them. */
  lemma SuccessEntryIsGrant(s0: Sys, es: seq<Event>, o: nat, days: int) returns (i: nat, w: nat, p: FulfillPc)
    requires Initial(s0) && o < |Run(s0, es).cells| && SubscriptionSuccess(days) in Run(s0, es).cells[o].log
    ensures p.FulfillRedeem? && p.o == o && p.grant == days && StepsAt(s0, es, i, w, AtFulfill(p), Ok)
  {
    var k, u, pc, c := EntryWasWritten(s0, es, o, SubscriptionSuccess(days));
    w := u;
    hide Run;
    assert Traced(pc);
    var l, d := CameFrom(s0, es[..k], w);
    assert es[..k][..l] == es[..l];
    var m, a := CameFrom(s0, es[..l], w);
    assert es[..l][..m] == es[..m];
    i := m;
    p := Run(s0, es[..m]).jobs[w].pc.fulfill;
    StepsEarlier(s0, es, l, m, w, AtFulfill(p), a);
  }

  /** Every refund request on record was covered by the balance of its user when that was read. */
  lemma RequestIsCovered(s0: Sys, es: seq<Event>, o: nat, cents: int) returns (i: nat, w: nat, user: int)
    requires Initial(s0) && o < |Run(s0, es).cells| && RefundRequestedEntry(cents) in Run(s0, es).cells[o].log
    ensures StepsAt(s0, es, i, w, AtRequest(RequestBalance(o, user, cents)), Ok)
    ensures At(Run(s0, es[..i]).balance, Money(user)) >= cents > 0
    ensures user == Run(s0, es).cells[o].row.user
  {
    var k, u, pc, c := EntryWasWritten(s0, es, o, RefundRequestedEntry(cents));
    w := u;
    user := pc.request.user;
    assert Traced(pc);
    var l, d := CameFrom(s0, es[..k], w);
    assert es[..k][..l] == es[..l];
    var m, a := CameFrom(s0, es[..l], w);
    assert es[..l][..m] == es[..m];
    i := m;
    StepsEarlier(s0, es, l, m, w, AtRequest(RequestBalance(o, user, cents)), a);
    RequesterOwns(s0, es, i, w, o, user, cents);
  }

  lemma RequesterOwns(s0: Sys, es: seq<Event>, i: nat, w: nat, o: nat, user: int, cents: int)
    requires Initial(s0) && i <= |es| && w < |Run(s0, es[..i]).jobs|
    requires o < |Run(s0, es[..i]).cells| && Run(s0, es[..i]).jobs[w].pc == AtRequest(RequestBalance(o, user, cents))
    ensures Run(s0, es[..i]).cells[o].row.user == user && cents > 0
    ensures o < |Run(s0, es).cells| && Run(s0, es).cells[o].row.user == user
  {
    RunKeeps(s0, es[..i]);
    assert WorkerOk(Run(s0, es[..i]), Run(s0, es[..i]).jobs[w]);
    RunEvolves(s0, es, i, o);
    hide Inv, Run;
  }

  // ---- credits ----

  /** The redeem that credited an order. */
  lemma {:induction false} CreditWasRedeemed(s0: Sys, es: seq<Event>, o: nat)
    returns (i: nat, w: nat, p: FulfillPc, c: Choice)
    requires Initial(s0) && o < |Run(s0, es).cells|
    requires Run(s0, es).cells[o].row.rechargeCode in Run(s0, es).ledger
    ensures StepsAt(s0, es, i, w, AtFulfill(p), c) && p.FulfillRedeem? && p.o == o && (c.Ok? || c.Lost?)
    ensures o < |Run(s0, es[..i]).cells| && Run(s0, es).cells[o].row.rechargeCode !in Run(s0, es[..i]).ledger
    ensures var (r, ledger) := (Run(s0, es).cells[o].row, Run(s0, es).ledger);
            ledger[r.rechargeCode] == Credit(r.user, if r.orderType == Balance then r.amountCents else 0, p.grant)
  {
    var n := |es| - 1;
    var s := Run(s0, es[..n]);
    RunKeeps(s0, es[..n]);
    CreditComes(s, es[n], o);
    hide Inv, Apply;
    if s.cells[o].row.rechargeCode in s.ledger {
      i, w, p, c := CreditWasRedeemed(s0, es[..n], o);
      StepsEarlier(s0, es, n, i, w, AtFulfill(p), c);
      assert es[..n][..i] == es[..i];
    } else {
      i, w, c := n, es[n].w, es[n].c;
      p := s.jobs[w].pc.fulfill;
    }
  }

  /** A credit is older than the last event, or that event is the redeem that made it. */
  lemma CreditComes(s: Sys, e: Event, o: nat)
    requires Reachable(s) && Inv(s)
    requires var t := Apply(s, e); o < |t.cells| && t.cells[o].row.rechargeCode in t.ledger
    ensures o < |s.cells|
    ensures var (t, r) := (Apply(s, e), s.cells[o].row);
            && var b := t.cells[o].row;
            && b.rechargeCode == r.rechargeCode && b.user == r.user && b.orderType == r.orderType
            && b.amountCents == r.amountCents
            && if r.rechargeCode in s.ledger then t.ledger[r.rechargeCode] == s.ledger[r.rechargeCode]
               else
                 && e.Step? && e.w < |s.jobs| && s.jobs[e.w].alive && (e.c.Ok? || e.c.Lost?)
                 && s.jobs[e.w].pc.AtFulfill? && var p := s.jobs[e.w].pc.fulfill;
                 && p.FulfillRedeem? && p.o == o
                 && t.ledger[r.rechargeCode] ==
                    Credit(r.user, if r.orderType == Balance then r.amountCents else 0, p.grant)
  {
    if o >= |s.cells| {
      NewOrderBlank(s, e, o);
      assert false;
    }
    EveryChangeIsJustified(s, e, o);
    ApplyEvolves(s, e, o);
    hide Inv, Apply, Reachable, RowJustified, LogJustified, GatewayJustified, TakenJustified;
  }

  /**
   Every credit on every run is what the platform's answer to the planning of one fulfillment granted, redeemed by
   that fulfillment: the face value of a balance order, the days sold or those the renewal's validity yields.
   */
  lemma CreditIsGrant(s0: Sys, es: seq<Event>, o: nat)
    returns (k: nat, i: nat, w: nat, p: FulfillPc, c: Choice, d: Choice)
    requires Initial(s0) && o < |Run(s0, es).cells|
    requires Run(s0, es).cells[o].row.rechargeCode in Run(s0, es).ledger
    ensures p.FulfillRedeem? && p.o == o && k < i
    ensures StepsAt(s0, es, k, w, AtFulfill(FulfillConfig(o, p.via, p.snap)), c)
    ensures StepsAt(s0, es, i, w, AtFulfill(p), d) && (d.Ok? || d.Lost?)
    ensures var (r, ledger) := (Run(s0, es).cells[o].row, Run(s0, es).ledger);
            && Grants(r, c, p.grant)
            && ledger[r.rechargeCode] == Credit(r.user, if r.orderType == Balance then r.amountCents else 0, p.grant)
  {
    i, w, p, d := CreditWasRedeemed(s0, es, o);
    hide Run;
    k, c := CameFrom(s0, es[..i], w);
    assert es[..i][..k] == es[..k];
    StepsEarlier(s0, es, i, k, w, AtFulfill(FulfillConfig(o, p.via, p.snap)), c);
    SnapHolds(s0, es, i, w, p);
  }

  lemma SnapHolds(s0: Sys, es: seq<Event>, i: nat, w: nat, p: FulfillPc)
    requires Initial(s0) && i <= |es| && w < |Run(s0, es[..i]).jobs| && p.FulfillRedeem?
    requires Run(s0, es[..i]).jobs[w].pc == AtFulfill(p) && p.o < |Run(s0, es[..i]).cells|
    ensures p.o < |Run(s0, es).cells|
    ensures var r := Run(s0, es).cells[p.o].row;
            r.orderType == p.snap.orderType && r.groupId == p.snap.groupId && r.days == p.snap.days
  {
    RunKeeps(s0, es[..i]);
    assert WorkerOk(Run(s0, es[..i]), Run(s0, es[..i]).jobs[w]);
    RunEvolves(s0, es, i, p.o);
    hide Inv, Run;
  }
}
