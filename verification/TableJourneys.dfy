/**
 What the two operations that look at the whole table do when nobody else moves (src/order/service.rs):
 create_pending_order_at and expire_pending_orders_at.
 */
module TableJourneys {
  import opened Common
  import opened Orders
  import opened Fees
  import opened Listing
  import opened Protocol
  import opened Steps
  import opened World
  import opened Invariant
  import opened Journeys

  // ---- creating an order ----

  /** What a user may order: within the limits, with fewer pending orders than allowed, under a new code. */
  ghost predicate Creatable(s: Sys, n: NewOrder) {
    && n.user > 0 && n.cents > 0
    && (if n.orderType == Balance then !s.limits.balanceDisabled && s.limits.minCents <= n.cents <= s.limits.maxCents
        else n.hasPlan && n.groupId.GetOr(0) > 0 && n.days.GetOr(0) > 0)
    && |PendingIds(Rows(s.cells), n.user)| < s.limits.maxPending
    && forall i :: 0 <= i < |s.cells| ==> s.cells[i].row.rechargeCode != n.code
  }

  /** A pending order that expires after the timeout, of at least a minute, quoted with its fee. */
  function FreshRow(s: Sys, n: NewOrder): Row {
    var pay := if n.feeBps.Some? then Some(PayAmount(n.cents, n.feeBps.value)) else None;
    var minutes := if s.limits.timeoutMinutes < 1 then 1 else s.limits.timeoutMinutes;
    Row(n.user, n.cents, pay, n.code, Pending, n.orderType, None, n.groupId, n.days, s.now + 60 * minutes, None, None,
        None, None, s.now)
  }

  function FreshCell(s: Sys, n: NewOrder): Cell {
    Cell(FreshRow(s, n), FreshRow(s, n).payAmountCents.GetOr(n.cents), [], [], 0, {}, {}, None)
  }

  /** Undisturbed, an order is created exactly if it may be. */
  lemma CreationExactly(s: Sys, n: NewOrder) returns (t: Sys, es: seq<Event>)
    ensures t == Run(Apply(s, Spawn(AtCreate(CreateStart(n)))), es) && OnlySteps(es, |s.jobs|)
    ensures t == s.(cells := t.cells, jobs := t.jobs) && |t.jobs| == |s.jobs| + 1
    ensures if Creatable(s, n) then
              && t.jobs == s.jobs + [Job(AtAttach(CreateLog(|s.cells|)), true, 0, 0)]
              && t.cells == s.cells + [FreshCell(s, n)]
            else t.cells == s.cells && t.jobs[|s.jobs|].pc == Done(None, NotCreated(n))
  {
    hide Apply, Run, FreshCell, Creatable;
    var e := Step(|s.jobs|, Ok);
    var y := CreationChecked(s, n);
    CreatableExactly(s, n);
    if y.jobs[|s.jobs|].pc.Done? {
      t, es := y, [e, e];
    } else {
      t := CreationInserts(s, n, y);
      es := [e, e] + [e];
      RunMore(Apply(s, Spawn(AtCreate(CreateStart(n)))), [e, e], e);
    }
  }

  lemma CreationChecked(s: Sys, n: NewOrder) returns (t: Sys)
    ensures var e := Step(|s.jobs|, Ok); t == Run(Apply(s, Spawn(AtCreate(CreateStart(n)))), [e, e])
    ensures var pc := if Admissible(s.limits, n) && PendingOf(s.cells, n.user) < s.limits.maxPending
                      then AtCreate(CreateInsert(n, s.now)) else Done(None, NotCreated(n));
            t == s.(jobs := s.jobs + [Job(pc, true, 0, 0)])
  {
    hide Admissible, PendingOf;
    var w := |s.jobs|;
    var e := Step(w, Ok);
    var x := Apply(s, Spawn(AtCreate(CreateStart(n))));
    assert x == s.(jobs := s.jobs + [Job(AtCreate(CreateStart(n)), true, 0, 0)]);
    CreateApplies(x, w, CreateStart(n));
    RunTwo(x, e);
    hide Apply, Run;
    var y := Apply(x, e);
    assert y == s.(jobs := s.jobs + [Job(AtCreate(CreateCheck(n, s.now)), true, 0, 0)]);
    CreateApplies(y, w, CreateCheck(n, s.now));
    t := Apply(y, e);
  }

  lemma CreationInserts(s: Sys, n: NewOrder, y: Sys) returns (t: Sys)
    requires y == s.(jobs := s.jobs + [Job(AtCreate(CreateInsert(n, s.now)), true, 0, 0)])
    ensures t == Apply(y, Step(|s.jobs|, Ok)) && |t.jobs| == |s.jobs| + 1 && t == s.(cells := t.cells, jobs := t.jobs)
    ensures if CodeTaken(s.cells, n.code) then
              t.cells == s.cells && t.jobs[|s.jobs|].pc == Done(None, NotCreated(n))
            else
              && t.jobs == s.jobs + [Job(AtAttach(CreateLog(|s.cells|)), true, 0, 0)]
              && t.cells == s.cells + [FreshCell(s, n)]
  {
    CreateApplies(y, |s.jobs|, CreateInsert(n, s.now));
    hide Apply, CodeTaken, PayAmount;
    t := Apply(y, Step(|s.jobs|, Ok));
  }

  lemma CreateApplies(s: Sys, w: nat, p: CreatePc)
    requires w < |s.jobs| && s.jobs[w].alive && s.jobs[w].pc == AtCreate(p)
    ensures Apply(s, Step(w, Ok)) == CreateStep(s, w, p)
  {
    hide CreateStep;
  }

  lemma CreatableExactly(s: Sys, n: NewOrder)
    ensures Creatable(s, n) <==>
            && Admissible(s.limits, n) && PendingOf(s.cells, n.user) < s.limits.maxPending
            && !CodeTaken(s.cells, n.code)
  {
    CountPendingIsCardinality(Rows(s.cells), n.user);
  }

  lemma RunTwo(s: Sys, e: Event)
    ensures Run(s, [e]) == Apply(s, e) && Run(s, [e, e]) == Apply(Apply(s, e), e)
  {
    hide Apply;
    assert [e, e][..1] == [e] && [e][..0] == [];
    assert Run(s, [e]) == Apply(s, e);
  }

  // ---- a sweep ----

  /** The pending orders of a list. */
  function PendingAmong(cells: seq<Cell>, todo: seq<nat>): nat
    requires InRange(todo, |cells|)
  {
    if todo == [] then 0
    else (if cells[todo[0]].row.status == Pending then 1 else 0) + PendingAmong(cells, todo[1..])
  }

  /** An order after a sweep by worker `w` that listed it. */
  function SweptCell(c: Cell, w: nat, now: int): Cell {
    if c.row.status == Pending then
      c.(row := c.row.(status := Expired, updatedAt := now), expiredBy := Some(w), log := c.log + [OrderExpired])
    else c
  }

  /** Undisturbed, a sweep expires and records the listed orders that are still pending, and counts them. */
  lemma {:induction false} SweepFinishes(s: Sys, w: nat, todo: seq<nat>, count: nat) returns (t: Sys, es: seq<Event>)
    requires Inv(s) && w < |s.jobs| && s.jobs[w].alive && s.jobs[w].pc == AtSweep(SweepMark(todo, count))
    requires todo != [] && InRange(todo, |s.cells|) && Distinct(todo)
    ensures t == Run(s, es) && OnlySteps(es, w) && |t.cells| == |s.cells| && w < |t.jobs|
    ensures t.jobs[w].pc == Done(Some(todo[|todo| - 1]), Swept(count + PendingAmong(s.cells, todo)))
    ensures forall i :: 0 <= i < |s.cells| ==>
              t.cells[i] == if i in todo then SweptCell(s.cells[i], w, s.now) else s.cells[i]
    decreases |todo|
  {
    hide Inv, Run, SweptCell;
    var u, fs := SweepsFirst(s, w, todo, count);
    if |todo| == 1 {
      t, es := u, fs;
    } else {
      var rest := todo[1..];
      assert forall i :: i in todo <==> i == todo[0] || i in rest;
      SamePending(s.cells, u.cells, rest);
      assert u.jobs[w].pc.sweep.count + PendingAmong(s.cells, rest) == count + PendingAmong(s.cells, todo);
      var gs;
      t, gs := SweepFinishes(u, w, rest, u.jobs[w].pc.sweep.count);
      es := fs + gs;
      RunsJoin(s, fs, gs);
    }
  }

  lemma {:induction false} SamePending(cells: seq<Cell>, later: seq<Cell>, todo: seq<nat>)
    requires InRange(todo, |cells|) && |later| == |cells|
    requires forall i :: i in todo ==> later[i] == cells[i]
    ensures PendingAmong(later, todo) == PendingAmong(cells, todo)
  {
    if todo != [] {
      SamePending(cells, later, todo[1..]);
    }
  }

  lemma {:induction false} RunsJoin(s: Sys, es: seq<Event>, fs: seq<Event>)
    ensures Run(Run(s, es), fs) == Run(s, es + fs)
  {
    hide Apply;
    if fs == [] {
      assert es + fs == es;
    } else {
      var n := |fs| - 1;
      RunsJoin(s, es, fs[..n]);
      assert (es + fs)[..|es| + n] == es + fs[..n];
    }
  }

  lemma SweepsFirst(s: Sys, w: nat, todo: seq<nat>, count: nat) returns (t: Sys, es: seq<Event>)
    requires Inv(s) && w < |s.jobs| && s.jobs[w].alive && s.jobs[w].pc == AtSweep(SweepMark(todo, count))
    requires todo != [] && InRange(todo, |s.cells|)
    ensures t == Run(s, es) && OnlySteps(es, w) && Inv(t) && t.now == s.now
    ensures t.cells == s.cells[todo[0] := SweptCell(s.cells[todo[0]], w, s.now)]
    ensures w < |t.jobs| && t.jobs[w].alive
    ensures var n := count + if s.cells[todo[0]].row.status == Pending then 1 else 0;
            t.jobs[w].pc == if |todo| == 1 then Done(Some(todo[0]), Swept(n)) else AtSweep(SweepMark(todo[1..], n))
  {
    hide Inv, Apply, Run;
    var e := Step(w, Ok);
    RunTwo(s, e);
    t := SweepMarks(s, w, todo, count);
    if s.cells[todo[0]].row.status == Pending {
      t := SweepRecords(t, w, todo, count + 1);
      es := [e, e];
    } else {
      es := [e];
    }
  }

  lemma SweepRecords(s: Sys, w: nat, todo: seq<nat>, count: nat) returns (t: Sys)
    requires Inv(s) && w < |s.jobs| && s.jobs[w].alive && s.jobs[w].pc == AtSweep(SweepLog(todo, count))
    requires todo != [] && todo[0] < |s.cells|
    ensures t == Apply(s, Step(w, Ok)) && Inv(t) && t.now == s.now && |t.jobs| == |s.jobs| && t.jobs[w].alive
    ensures var c := s.cells[todo[0]]; t.cells == s.cells[todo[0] := c.(log := c.log + [OrderExpired])]
    ensures t.jobs[w].pc == if |todo| == 1 then Done(Some(todo[0]), Swept(count))
                            else AtSweep(SweepMark(todo[1..], count))
  {
    t := Apply(s, Step(w, Ok));
    hide Inv, Apply;
    SweepApplies(s, w, SweepLog(todo, count));
  }

  lemma SweepMarks(s: Sys, w: nat, todo: seq<nat>, count: nat) returns (t: Sys)
    requires Inv(s) && w < |s.jobs| && s.jobs[w].alive && s.jobs[w].pc == AtSweep(SweepMark(todo, count))
    requires todo != [] && todo[0] < |s.cells|
    ensures t == Apply(s, Step(w, Ok)) && Inv(t) && t.now == s.now && |t.jobs| == |s.jobs| && t.jobs[w].alive
    ensures var (c, r) := (s.cells[todo[0]], s.cells[todo[0]].row);
            if r.status == Pending then
              && t.jobs[w].pc == AtSweep(SweepLog(todo, count + 1))
              && t.cells == s.cells[todo[0] := c.(row := r.(status := Expired, updatedAt := s.now),
                                                  expiredBy := Some(w))]
            else
              && t.cells == s.cells
              && t.jobs[w].pc == if |todo| == 1 then Done(Some(todo[0]), Swept(count))
                                 else AtSweep(SweepMark(todo[1..], count))
  {
    t := Apply(s, Step(w, Ok));
    hide Inv, Apply;
    SweepApplies(s, w, SweepMark(todo, count));
  }

  lemma SweepApplies(s: Sys, w: nat, p: SweepPc)
    requires Inv(s) && w < |s.jobs| && s.jobs[w].alive && s.jobs[w].pc == AtSweep(p) && p.todo != []
    requires p.todo[0] < |s.cells|
    ensures var t := Apply(s, Step(w, Ok));
            var (v, pc) := SweepStep(s.now, ViewOf(s, p.todo[0]), w, p);
            && Inv(t) && t.now == s.now && t.cells == s.cells[p.todo[0] := v.cell]
            && t.jobs == s.jobs[w := Goto(s.jobs[w], pc)]
  {
    ApplyKeeps(s, Step(w, Ok));
    hide Inv, OrderNet, SweepStep;
  }

  lemma {:induction false} AllPending(cells: seq<Cell>, todo: seq<nat>)
    requires InRange(todo, |cells|) && forall i :: i in todo ==> cells[i].row.status == Pending
    ensures PendingAmong(cells, todo) == |todo|
  {
    if todo != [] {
      AllPending(cells, todo[1..]);
    }
  }

  /**
   Undisturbed, a sweep expires exactly the earliest overdue orders up to the limit, puts each on record and returns
   how many they are.
   */
  lemma SweepExactly(s: Sys, limit: int) returns (t: Sys, es: seq<Event>, ids: seq<nat>)
    requires Reachable(s)
    ensures t == Run(Apply(s, Spawn(AtSweepList(limit))), es) && OnlySteps(es, |s.jobs|)
    ensures Earliest(Rows(s.cells), s.now, ids)
    ensures var n := |Overdues(Rows(s.cells), s.now)|; |ids| == if limit < 0 then n else Min(limit, n)
    ensures |t.cells| == |s.cells| && |s.jobs| < |t.jobs|
    ensures forall i :: 0 <= i < |s.cells| ==>
              t.cells[i] == if i in ids then SweptCell(s.cells[i], |s.jobs|, s.now) else s.cells[i]
    ensures t.jobs[|s.jobs|].pc.Done? && t.jobs[|s.jobs|].pc.out ==
            if ids == [] then NothingToSweep(limit) else Swept(|ids|)
  {
    hide Inv, Run, Apply, Earliest, SweptCell, ListExpired, Reachable, Overdues;
    ids := ListExpired(Rows(s.cells), s.now, limit);
    ListExpiredIsEarliest(Rows(s.cells), s.now, limit);
    ReachableInv(s);
    var x := SweepLists(s, limit);
    var e := Step(|s.jobs|, Ok);
    RunTwo(Apply(s, Spawn(AtSweepList(limit))), e);
    if ids == [] {
      t, es := x, [e];
    } else {
      ListedPending(s, ids);
      var fs;
      t, fs := SweepFinishes(x, |s.jobs|, ids, 0);
      es := [e] + fs;
      RunsJoin(Apply(s, Spawn(AtSweepList(limit))), [e], fs);
    }
  }

  lemma ListedPending(s: Sys, ids: seq<nat>)
    requires Earliest(Rows(s.cells), s.now, ids)
    ensures InRange(ids, |s.cells|) && Distinct(ids) && PendingAmong(s.cells, ids) == |ids|
  {
    AllPending(s.cells, ids);
  }

  lemma SweepLists(s: Sys, limit: int) returns (t: Sys)
    requires Inv(s)
    ensures t == Apply(Apply(s, Spawn(AtSweepList(limit))), Step(|s.jobs|, Ok)) && Inv(t)
    ensures var ids := ListExpired(Rows(s.cells), s.now, limit);
            var pc := if ids == [] then Done(None, NothingToSweep(limit)) else AtSweep(SweepMark(ids, 0));
            t == s.(jobs := s.jobs + [Job(pc, true, 0, 0)])
  {
    ApplyKeeps(s, Spawn(AtSweepList(limit)));
    hide Inv, ListExpired;
    var x := Apply(s, Spawn(AtSweepList(limit)));
    assert x == s.(jobs := s.jobs + [Job(AtSweepList(limit), true, 0, 0)]);
    ListApplies(x, |s.jobs|, limit);
    ApplyKeeps(x, Step(|s.jobs|, Ok));
    hide Apply;
    t := Apply(x, Step(|s.jobs|, Ok));
  }

  lemma ListApplies(s: Sys, w: nat, limit: int)
    requires w < |s.jobs| && s.jobs[w].alive && s.jobs[w].pc == AtSweepList(limit)
    ensures Apply(s, Step(w, Ok)) == SweepListStep(s, w, limit)
  {
    hide SweepListStep;
  }
}
