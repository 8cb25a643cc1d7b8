/** The invariant of the whole system, kept by every event. */
module Invariant {
  import opened Common
  import opened Orders
  import opened Fees
  import opened Protocol
  import opened Steps
  import opened Facts
  import opened Settle
  import opened Listing
  import opened World
  import opened Sums

  ghost predicate CodesDistinct(s: Sys) {
    forall i, k :: 0 <= i < k < |s.cells| ==> s.cells[i].row.rechargeCode != s.cells[k].row.rechargeCode
  }

  ghost predicate LedgerKnown(s: Sys) {
    forall code :: code in s.ledger ==> CodeTaken(s.cells, code)
  }

  ghost predicate CellsOk(s: Sys) {
    forall o :: 0 <= o < |s.cells| ==> CellOk(ViewOf(s, o))
  }

  /** A worker whose order does not exist (yet): it holds nothing and believes nothing. */
  ghost predicate Dormant(j: Job) {
    && BooksOk(j)
    && match j.pc
       case AtNotice(p) => p.NoticeStart? || (p.NoticeRead? && p.n.success)
       case AtCancel(p) => p.CancelRead?
       case AtRetry(p) => p.RetryRead?
       case AtRequest(p) => p.RequestRead?
       case AtRefund(p) => p.RefundRead?
       case Done(about, out) =>
         && !out.Swept? && !out.Retried? && !out.CancelTooLate? && !out.CancelDone? && !out.Attached?
         && (out.Acked? ==> about == Some(out.n.order) && out.last.None? && (out.ok <==> !out.n.success))
       case _ => false
  }

  /** A worker that is not about any one order. */
  ghost predicate Unbound(j: Job) {
    && BooksOk(j) && j.applied == 0 && j.off == 0
    && match j.pc
       case AtCreate(p) => p.CreateInsert? ==> p.input.cents > 0
       case AtSweepList(_) => true
       case Done(_, out) => !out.Acked? && !out.Swept?
       case _ => false
  }

  ghost predicate WorkerOk(s: Sys, j: Job) {
    && InRange(Todo(j.pc), |s.cells|)
    && match Target(j.pc)
       case None => Unbound(j)
       case Some(o) => if o < |s.cells| then JobOk(ViewOf(s, o), j) else Dormant(j)
  }

  ghost predicate WorkersOk(s: Sys) {
    forall w :: 0 <= w < |s.jobs| ==> WorkerOk(s, s.jobs[w])
  }

  /** The counting laws. */
  ghost predicate Law(s: Sys, o: nat, x: Kind)
    requires o < |s.cells|
  {
    Due(s.cells[o], x) == LogCount(s.cells[o].log, x) + Total(s.jobs, o, x)
  }

  ghost predicate Laws(s: Sys) {
    forall o, x :: 0 <= o < |s.cells| ==> Law(s, o, x)
  }

  /** Each account at the platform holds what it would without this service plus what the orders put there. */
  ghost predicate BalanceLaw(s: Sys, x: Account) {
    At(s.balance, x) == At(s.base, x) + Net(s, |s.cells|, x)
  }

  ghost predicate Inv(s: Sys) {
    && CodesDistinct(s) && LedgerKnown(s) && CellsOk(s) && WorkersOk(s)
    && Laws(s) && (forall x :: BalanceLaw(s, x))
  }

  // ---- small facts ----

  lemma DormantIsOk(v: View, j: Job)
    requires Dormant(j)
    ensures JobOk(v, j) && forall x: Kind :: Share(j, x) == 0
  {
  }

  /** A worker moves on without touching anything else and without owing anything new. */
  lemma Passes(s: Sys, w: nat, k: Job)
    requires Inv(s) && w < |s.jobs|
    requires WorkerOk(s, k)
    requires forall o, x :: Give(k, o, x) == Give(s.jobs[w], o, x)
    ensures Inv(s.(jobs := s.jobs[w := k]))
  {
    var t := s.(jobs := s.jobs[w := k]);
    assert forall o :: 0 <= o < |s.cells| ==> ViewOf(t, o) == ViewOf(s, o);
    forall o, x | 0 <= o < |t.cells| ensures Law(t, o, x) {
      assert Law(s, o, x);
      TotalUpdate(s.jobs, w, k, o, x);
    }
    forall x ensures BalanceLaw(t, x) {
      assert BalanceLaw(s, x);
      NetDiffers(s, t, |s.cells|, |s.cells|, x);
    }
    forall i | 0 <= i < |t.jobs| ensures WorkerOk(t, t.jobs[i]) {
      assert WorkerOk(s, if i == w then k else s.jobs[i]);
    }
  }

  // ---- a step about one order ----

  /** The RECHARGING lock a worker holds is on the row: nobody else can have released it. */
  lemma StepReady(s: Sys, o: nat, w: nat)
    requires Inv(s) && o < |s.cells| && w < |s.jobs| && Target(s.jobs[w].pc) == Some(o)
    ensures Ready(ViewOf(s, o), s.jobs[w])
  {
    forall x | x != Units ensures Due(s.cells[o], x) >= LogCount(s.cells[o].log, x) + Share(s.jobs[w], x) {
      assert Law(s, o, x);
      TotalCovers(s.jobs, o, x, w, w);
    }
    LocksLeaveNoTrace(s.cells[o].log);
    assert WorkerOk(s, s.jobs[w]);
  }

  lemma {:induction false} LocksLeaveNoTrace(log: seq<Entry>)
    ensures LogCount(log, RechargeHeld) == 0
  {
    if log != [] {
      LocksLeaveNoTrace(log[..|log| - 1]);
    }
  }

  /** The step of worker `w` turns the view of order `o` into `v` and the worker into `j`. */
  ghost predicate Stepped(s: Sys, o: nat, w: nat, v: View, j: Job) {
    && o < |s.cells| && w < |s.jobs| && Target(s.jobs[w].pc) == Some(o)
    && Settled(o, ViewOf(s, o), s.jobs[w], v, j)
  }

  lemma StepViews(s: Sys, o: nat, w: nat, v: View, j: Job)
    requires CodesDistinct(s) && Stepped(s, o, w, v, j)
    ensures var t := PutView(s, o, w, v, j);
            && ViewOf(t, o) == v && (forall i :: 0 <= i < |s.cells| && i != o ==> ViewOf(t, i) == ViewOf(s, i))
  {
    assert ViewEvolves(ViewOf(s, o), v);
  }

  lemma StepCodes(s: Sys, o: nat, w: nat, v: View, j: Job)
    requires CodesDistinct(s) && LedgerKnown(s) && Stepped(s, o, w, v, j)
    ensures var t := PutView(s, o, w, v, j); CodesDistinct(t) && LedgerKnown(t)
  {
    var t := PutView(s, o, w, v, j);
    assert forall i :: 0 <= i < |s.cells| ==> t.cells[i].row.rechargeCode == s.cells[i].row.rechargeCode;
    forall code | code in t.ledger ensures CodeTaken(t.cells, code) {
      if code == s.cells[o].row.rechargeCode {
        assert t.cells[o].row.rechargeCode == code;
      } else {
        var i :| 0 <= i < |s.cells| && s.cells[i].row.rechargeCode == code;
        assert t.cells[i].row.rechargeCode == code;
      }
    }
  }

  lemma StepWorkers(s: Sys, o: nat, w: nat, v: View, j: Job)
    requires CodesDistinct(s) && CellsOk(s) && WorkersOk(s) && Stepped(s, o, w, v, j)
    ensures WorkersOk(PutView(s, o, w, v, j))
  {
    var t := PutView(s, o, w, v, j);
    StepViews(s, o, w, v, j);
    forall u | 0 <= u < |t.jobs| ensures WorkerOk(t, t.jobs[u]) {
      assert WorkerOk(s, s.jobs[u]);
      if u == w {
        StepperOk(s, o, w, v, j);
      } else if Target(s.jobs[u].pc) == Some(o) {
        JobOkStable(ViewOf(s, o), s.jobs[u], v);
      }
    }
  }

  lemma StepperOk(s: Sys, o: nat, w: nat, v: View, j: Job)
    requires CodesDistinct(s) && Stepped(s, o, w, v, j) && WorkerOk(s, s.jobs[w])
    ensures WorkerOk(PutView(s, o, w, v, j), j)
  {
    var t := PutView(s, o, w, v, j);
    StepViews(s, o, w, v, j);
    assert InRange(Todo(j.pc), |t.cells|) by {
      forall k | 0 <= k < |Todo(j.pc)| ensures Todo(j.pc)[k] < |t.cells| {
        assert Todo(j.pc)[k] in Todo(s.jobs[w].pc);
      }
    }
    if Target(j.pc) != Some(o) {
      assert j.pc.AtSweep? && JobOk(v, j);
      assert Todo(j.pc)[0] < |t.cells|;
    }
  }

  lemma StepLaws(s: Sys, o: nat, w: nat, v: View, j: Job)
    requires CodesDistinct(s) && Laws(s) && Stepped(s, o, w, v, j)
    ensures Laws(PutView(s, o, w, v, j))
  {
    var t := PutView(s, o, w, v, j);
    forall i, x | 0 <= i < |t.cells| ensures Law(t, i, x) {
      assert Law(s, i, x);
      TotalUpdate(s.jobs, w, j, i, x);
    }
  }

  lemma StepBalances(s: Sys, o: nat, w: nat, v: View, j: Job, x: Account)
    requires CodesDistinct(s) && BalanceLaw(s, x) && Stepped(s, o, w, v, j)
    ensures BalanceLaw(PutView(s, o, w, v, j), x)
  {
    var t := PutView(s, o, w, v, j);
    StepViews(s, o, w, v, j);
    assert ViewEvolves(ViewOf(s, o), v);
    NetDiffers(s, t, |s.cells|, o, x);
  }

  lemma OrderStepKeeps(s: Sys, o: nat, w: nat, c: Choice)
    requires Inv(s) && o < |s.cells| && w < |s.jobs| && Target(s.jobs[w].pc) == Some(o)
    ensures Inv(OrderStep(s, o, w, c))
  {
    var (v, j) := LocalStep(s.now, At(s.balance, Money(s.cells[o].row.user)), w, ViewOf(s, o), s.jobs[w], c);
    StepReady(s, o, w);
    LocalStepSettles(s.now, At(s.balance, Money(s.cells[o].row.user)), w, ViewOf(s, o), s.jobs[w], c, o);
    StepCodes(s, o, w, v, j);
    StepViews(s, o, w, v, j);
    StepWorkers(s, o, w, v, j);
    StepLaws(s, o, w, v, j);
    forall x ensures BalanceLaw(PutView(s, o, w, v, j), x) {
      assert BalanceLaw(s, x);
      StepBalances(s, o, w, v, j, x);
    }
  }

  // ---- the other events ----

  lemma QuoteCoversFace(cents: int, bps: int)
    requires cents > 0
    ensures PayAmount(cents, bps) >= cents
  {
  }

  /** A new order: nobody knows it yet. */
  ghost predicate Inserted(s: Sys, r: Row, t: Sys) {
    && !CodeTaken(s.cells, r.rechargeCode)
    && RowOk(r) && r.status == Pending && 0 < r.amountCents <= Expected(r)
    && t == s.(cells := s.cells + [NewCell(r)])
  }

  lemma InsertViews(s: Sys, r: Row, t: Sys)
    requires CodesDistinct(s) && LedgerKnown(s) && CellsOk(s) && Inserted(s, r, t)
    ensures CodesDistinct(t) && LedgerKnown(t) && CellsOk(t)
    ensures forall o :: 0 <= o < |s.cells| ==> ViewOf(t, o) == ViewOf(s, o)
  {
    assert r.rechargeCode !in s.ledger;
    assert forall o :: 0 <= o < |s.cells| ==> ViewOf(t, o) == ViewOf(s, o);
    forall code | code in t.ledger ensures CodeTaken(t.cells, code) {
      var i :| 0 <= i < |s.cells| && s.cells[i].row.rechargeCode == code;
      assert t.cells[i].row.rechargeCode == code;
    }
  }

  lemma InsertWorkers(s: Sys, r: Row, t: Sys)
    requires WorkersOk(s) && Inserted(s, r, t)
    requires forall o :: 0 <= o < |s.cells| ==> ViewOf(t, o) == ViewOf(s, o)
    ensures WorkersOk(t)
  {
    forall w | 0 <= w < |t.jobs| ensures WorkerOk(t, t.jobs[w]) {
      assert WorkerOk(s, s.jobs[w]);
      if Target(s.jobs[w].pc) == Some(|s.cells|) {
        DormantIsOk(ViewOf(t, |s.cells|), s.jobs[w]);
      }
    }
  }

  lemma InsertLaws(s: Sys, r: Row, t: Sys)
    requires WorkersOk(s) && Laws(s) && Inserted(s, r, t)
    ensures Laws(t)
  {
    forall o, x | 0 <= o < |t.cells| ensures Law(t, o, x) {
      if o < |s.cells| {
        assert Law(s, o, x);
      } else {
        NobodyKnows(s, x);
      }
    }
  }

  lemma InsertKeeps(s: Sys, r: Row, t: Sys)
    requires Inv(s) && Inserted(s, r, t)
    ensures Inv(t)
  {
    InsertViews(s, r, t);
    InsertWorkers(s, r, t);
    InsertLaws(s, r, t);
    var n := |s.cells|;
    forall x ensures BalanceLaw(t, x) {
      assert BalanceLaw(s, x);
      NetDiffers(s, t, n, n, x);
      assert OrderNet(ViewOf(t, n)) == 0 by {
        assert t.cells[n] == NewCell(r) && CellOk(ViewOf(t, n));
      }
    }
  }

  lemma NobodyKnows(s: Sys, x: Kind)
    requires WorkersOk(s)
    ensures Total(s.jobs, |s.cells|, x) == 0
  {
    forall w | 0 <= w < |s.jobs| ensures Give(s.jobs[w], |s.cells|, x) == 0 {
      assert WorkerOk(s, s.jobs[w]);
    }
    TotalNothing(s.jobs, |s.cells|, x);
  }

  lemma SpawnKeeps(s: Sys, pc: Pc)
    requires Inv(s) && IsStart(pc)
    ensures Inv(s.(jobs := s.jobs + [Job(pc, true, 0, 0)]))
  {
    var k := Job(pc, true, 0, 0);
    var t := s.(jobs := s.jobs + [k]);
    assert forall o :: 0 <= o < |s.cells| ==> ViewOf(t, o) == ViewOf(s, o);
    StarterOwesNothing(k);
    forall w | 0 <= w < |t.jobs| ensures WorkerOk(t, t.jobs[w]) {
      if w < |s.jobs| {
        assert WorkerOk(s, s.jobs[w]);
      } else {
        StarterOk(s, k);
      }
    }
    forall o, x | 0 <= o < |t.cells| ensures Law(t, o, x) {
      assert Law(s, o, x);
      TotalAppend(s.jobs, k, o, x);
    }
    forall x ensures BalanceLaw(t, x) {
      assert BalanceLaw(s, x);
      NetDiffers(s, t, |s.cells|, |s.cells|, x);
    }
  }

  lemma StarterOwesNothing(k: Job)
    requires IsStart(k.pc) && k.applied == 0 && k.off == 0
    ensures forall x: Kind :: Share(k, x) == 0
  {
  }

  lemma StarterOk(s: Sys, k: Job)
    requires IsStart(k.pc) && k.applied == 0 && k.off == 0
    ensures WorkerOk(s, k)
  {
    if Target(k.pc).Some? {
      assert Dormant(k);
      if Target(k.pc).value < |s.cells| {
        DormantIsOk(ViewOf(s, Target(k.pc).value), k);
      }
    }
  }

  lemma CreateInsertKeeps(s: Sys, w: nat, p: CreatePc)
    requires Inv(s) && w < |s.jobs| && s.jobs[w].pc == AtCreate(p)
    requires p.CreateInsert? && !CodeTaken(s.cells, p.input.code)
    ensures Inv(CreateStep(s, w, p))
  {
    assert WorkerOk(s, s.jobs[w]);
    var t := CreateStep(s, w, p);
    if p.input.feeBps.Some? {
      QuoteCoversFace(p.input.cents, p.input.feeBps.value);
    }
    var u := s.(cells := t.cells);
    InsertKeeps(s, t.cells[|s.cells|].row, u);
    hide Inv;
    CreatedPasses(u, w, t.jobs[w]);
  }

  lemma CreatedPasses(s: Sys, w: nat, k: Job)
    requires Inv(s) && w < |s.jobs| && s.jobs[w].pc.AtCreate? && |s.cells| > 0
    requires Resumes(s.jobs[w], AtAttach(CreateLog(|s.cells| - 1)), k)
    ensures Inv(s.(jobs := s.jobs[w := k]))
  {
    assert WorkerOk(s, s.jobs[w]);
    Passes(s, w, k);
  }

  lemma CreateKeeps(s: Sys, w: nat, p: CreatePc)
    requires Inv(s) && w < |s.jobs| && s.jobs[w].pc == AtCreate(p)
    ensures Inv(CreateStep(s, w, p))
  {
    if p.CreateInsert? && !CodeTaken(s.cells, p.input.code) {
      hide Inv;
      CreateInsertKeeps(s, w, p);
    } else {
      assert WorkerOk(s, s.jobs[w]);
      Passes(s, w, CreateStep(s, w, p).jobs[w]);
    }
  }

  lemma SweepListKeeps(s: Sys, w: nat, limit: int)
    requires Inv(s) && w < |s.jobs| && s.jobs[w].pc == AtSweepList(limit)
    ensures Inv(SweepListStep(s, w, limit))
  {
    assert WorkerOk(s, s.jobs[w]);
    Passes(s, w, SweepListStep(s, w, limit).jobs[w]);
  }

  lemma MissingKeeps(s: Sys, w: nat, o: nat)
    requires Inv(s) && w < |s.jobs| && Target(s.jobs[w].pc) == Some(o) && |s.cells| <= o
    ensures Inv(SetPc(s, w, Missing(s.now, s.jobs[w].pc)))
  {
    assert WorkerOk(s, s.jobs[w]);
    Passes(s, w, Goto(s.jobs[w], Missing(s.now, s.jobs[w].pc)));
  }

  lemma VanishKeeps(s: Sys, w: nat)
    requires Inv(s) && w < |s.jobs|
    ensures Inv(s.(jobs := s.jobs[w := s.jobs[w].(alive := false)]))
  {
    assert WorkerOk(s, s.jobs[w]);
    Passes(s, w, s.jobs[w].(alive := false));
  }

  lemma OutsideKeeps(s: Sys, account: Account, units: int)
    requires Inv(s)
    ensures Inv(Apply(s, Outside(account, units)))
  {
    var t := Apply(s, Outside(account, units));
    OnlyBalances(s, t);
    hide CodesDistinct, LedgerKnown, CellsOk, WorkersOk, Laws;
    forall x ensures BalanceLaw(t, x) {
      assert BalanceLaw(s, x);
      NetDiffers(s, t, |s.cells|, |s.cells|, x);
    }
  }

  lemma QuietKeeps(s: Sys, t: Sys)
    requires Inv(s) && t == s.(now := t.now, limits := t.limits)
    ensures Inv(t)
  {
    OnlyBalances(s, t);
    forall x ensures BalanceLaw(t, x) {
      assert BalanceLaw(s, x);
      NetDiffers(s, t, |s.cells|, |s.cells|, x);
    }
  }

  /** Nothing but clocks, limits and balances changed. */
  lemma OnlyBalances(s: Sys, t: Sys)
    requires Inv(s) && t.cells == s.cells && t.ledger == s.ledger && t.jobs == s.jobs
    ensures CodesDistinct(t) && LedgerKnown(t) && CellsOk(t) && WorkersOk(t) && Laws(t)
    ensures forall o :: 0 <= o < |s.cells| ==> ViewOf(t, o) == ViewOf(s, o)
  {
    assert forall o :: 0 <= o < |s.cells| ==> ViewOf(t, o) == ViewOf(s, o);
    forall w | 0 <= w < |t.jobs| ensures WorkerOk(t, t.jobs[w]) {
      assert WorkerOk(s, s.jobs[w]);
    }
    forall o, x | 0 <= o < |t.cells| ensures Law(t, o, x) {
      assert Law(s, o, x);
    }
  }

  /** Every event keeps the invariant. */
  lemma ApplyKeeps(s: Sys, e: Event)
    requires Inv(s)
    ensures Inv(Apply(s, e))
  {
    hide Inv;
    match e
    case Spawn(pc) =>
      if IsStart(pc) {
        SpawnKeeps(s, pc);
      }
    case Step(w, c) =>
      if w < |s.jobs| && s.jobs[w].alive {
        match s.jobs[w].pc
        case AtCreate(p) => CreateKeeps(s, w, p);
        case AtSweepList(limit) => SweepListKeeps(s, w, limit);
        case pc =>
          match Target(pc)
          case None =>
          case Some(o) =>
            if o < |s.cells| {
              OrderStepKeeps(s, o, w, c);
            } else {
              MissingKeeps(s, w, o);
            }
      }
    case Vanish(w) =>
      if w < |s.jobs| {
        VanishKeeps(s, w);
      }
    case Tick(seconds) => QuietKeeps(s, s.(now := s.now + seconds));
    case Outside(account, units) => OutsideKeeps(s, account, units);
    case Configure(limits) => QuietKeeps(s, s.(limits := limits));
  }

  /** The invariant holds at the end of every run, whatever the interleaving. */
  lemma {:induction false} RunKeeps(s: Sys, es: seq<Event>)
    requires Initial(s)
    ensures Inv(Run(s, es))
  {
    if es != [] {
      RunKeeps(s, es[..|es| - 1]);
      ApplyKeeps(Run(s, es[..|es| - 1]), es[|es| - 1]);
    }
  }

  /** Some run, with some interleaving, leads here. */
  ghost predicate Reachable(s: Sys) {
    exists s0, es :: Initial(s0) && s == Run(s0, es)
  }

  lemma ReachableInv(s: Sys)
    requires Reachable(s)
    ensures Inv(s)
  {
    var s0, es :| Initial(s0) && s == Run(s0, es);
    RunKeeps(s0, es);
  }
}
