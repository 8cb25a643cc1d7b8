/**
 The two operations that look at the whole table, run without interference (src/order/service.rs):
 create_pending_order_at up to its audit entry, and expire_pending_orders_at.
 */
module Desk {
  import opened Common
  import opened Orders
  import opened Protocol
  import opened Listing
  import opened Repository
  import opened Fees
  import opened World

  // ---- what one sweep does to the table ----

  /** The listed orders, all still pending, become EXPIRED. */
  function Sweep(rows: seq<Row>, ids: seq<nat>, now: int): (r: seq<Row>)
    requires InRange(ids, |rows|)
    ensures |r| == |rows|
  {
    if ids == [] then rows
    else
      var n := |ids| - 1;
      Sweep(rows, ids[..n], now)[ids[n] := LeavePending(rows[ids[n]], Expired, now)]
  }

  lemma {:induction false} SweepAt(rows: seq<Row>, ids: seq<nat>, now: int, o: nat)
    requires InRange(ids, |rows|) && o < |rows|
    ensures Sweep(rows, ids, now)[o] == if o in ids then LeavePending(rows[o], Expired, now) else rows[o]
  {
    if ids != [] {
      var n := |ids| - 1;
      SweepAt(rows, ids[..n], now, o);
      assert ids == ids[..n] + [ids[n]];
    }
  }

  lemma SweptOverdues(rows: seq<Row>, nowTs: int, ids: seq<nat>, now: int)
    requires InRange(ids, |rows|)
    ensures Overdues(Sweep(rows, ids, now), nowTs) == (set o | o in Overdues(rows, nowTs) && o !in ids)
  {
    var swept := Sweep(rows, ids, now);
    forall o: nat | o < |rows|
      ensures o in Overdues(swept, nowTs) <==> o in Overdues(rows, nowTs) && o !in ids
    {
      SweepAt(rows, ids, now, o);
    }
  }

  lemma Removed(all: set<nat>, ids: seq<nat>)
    requires Distinct(ids) && forall o :: o in ids ==> o in all
    ensures |set o | o in all && o !in ids| == |all| - |ids|
  {
    var listed := set o | o in ids;
    DistinctCardinality(ids, listed);
    assert (set o | o in all && o !in ids) == all - listed;
  }

  /** A sweep leaves exactly the overdue orders it did not list. */
  lemma SweepLeaves(rows: seq<Row>, nowTs: int, limit: int, now: int)
    ensures var ids := ListExpired(rows, nowTs, limit);
            && Overdues(Sweep(rows, ids, now), nowTs) == (set o | o in Overdues(rows, nowTs) && o !in ids)
            && |Overdues(Sweep(rows, ids, now), nowTs)| == |Overdues(rows, nowTs)| - |ids|
  {
    hide Overdues, Sweep, ListExpired;
    var ids := ListExpired(rows, nowTs, limit);
    ListExpiredIsEarliest(rows, nowTs, limit);
    SweptOverdues(rows, nowTs, ids, now);
    Removed(Overdues(rows, nowTs), ids);
  }

  /** The table after `k` sweeps of `batch` orders each, at the same time. */
  function Sweeps(rows: seq<Row>, nowTs: int, batch: int, now: int, k: nat): seq<Row> {
    if k == 0 then rows
    else
      var before := Sweeps(rows, nowTs, batch, now, k - 1);
      Sweep(before, ListExpired(before, nowTs, batch), now)
  }

  /** Each sweep takes a batch off the overdue orders. */
  lemma {:induction false} SweepsTakeBatches(rows: seq<Row>, nowTs: int, batch: int, now: int, k: nat)
    requires batch > 0
    ensures |Overdues(Sweeps(rows, nowTs, batch, now, k), nowTs)| == Max(|Overdues(rows, nowTs)| - k * batch, 0)
  {
    hide Overdues, Earliest, Sweep, ListExpired;
    if k > 0 {
      SweepsTakeBatches(rows, nowTs, batch, now, k - 1);
      var before := Sweeps(rows, nowTs, batch, now, k - 1);
      ListExpiredIsEarliest(before, nowTs, batch);
      SweepLeaves(before, nowTs, batch, now);
      OneBatchLess(|Overdues(rows, nowTs)|, batch, k);
    }
  }

  lemma OneBatchLess(n: nat, batch: int, k: nat)
    requires batch > 0 && k > 0
    ensures var m := Max(n - (k - 1) * batch, 0); Max(n - k * batch, 0) == m - Min(batch, m)
  {
    assert (k - 1) * batch == k * batch - batch;
  }

  /** So the overdue orders drain in ceil(n / batch) sweeps and no sooner. */
  lemma SweepsDrain(rows: seq<Row>, nowTs: int, batch: int, now: int, k: nat)
    requires batch > 0
    ensures Overdues(Sweeps(rows, nowTs, batch, now, k), nowTs) == {} <==>
            k >= (|Overdues(rows, nowTs)| + batch - 1) / batch
  {
    hide Overdues, Sweeps;
    SweepsTakeBatches(rows, nowTs, batch, now, k);
    CeilingDrains(|Overdues(rows, nowTs)|, batch, k);
    var left := Overdues(Sweeps(rows, nowTs, batch, now, k), nowTs);
    assert left == {} <==> |left| == 0;
  }

  lemma CeilingDrains(n: nat, batch: int, k: nat)
    requires batch > 0
    ensures k >= (n + batch - 1) / batch <==> k * batch >= n
  {
    var q := (n + batch - 1) / batch;
    assert q * batch <= n + batch - 1 < q * batch + batch;
    if k >= q {
      TimesGrows(q, k, batch);
    } else {
      TimesGrows(k, q - 1, batch);
      assert (q - 1) * batch == q * batch - batch;
    }
  }

  lemma TimesGrows(a: int, b: int, c: nat)
    requires a <= b
    ensures a * c <= b * c
  {
  }

  function OverdueEntries(ids: seq<nat>): seq<(nat, Entry)> {
    seq(|ids|, i requires 0 <= i < |ids| => (ids[i], OrderExpired))
  }

  lemma SweepNone(rows: seq<Row>, now: int)
    ensures Sweep(rows, [], now) == rows && OverdueEntries([]) == []
  {
  }

  /** One more order of a listing: still as listed, then expired and logged. */
  lemma SweepOne(rows: seq<Row>, nowTs: int, ids: seq<nat>, i: nat, now: int)
    requires InRange(ids, |rows|) && Distinct(ids) && i < |ids| && ids[i] in Overdues(rows, nowTs)
    ensures var swept := Sweep(rows, ids[..i], now);
            && swept[ids[i]] == rows[ids[i]] && CanLeavePending(swept[ids[i]])
            && Sweep(rows, ids[..i + 1], now) == swept[ids[i] := LeavePending(swept[ids[i]], Expired, now)]
    ensures OverdueEntries(ids[..i + 1]) == OverdueEntries(ids[..i]) + [(ids[i], OrderExpired)]
  {
    SweepAt(rows, ids[..i], now, ids[i]);
    assert ids[..i + 1][..i] == ids[..i];
  }

  class OrderDesk {
    const orders: OrderRepository
    var audit: seq<(nat, Entry)>

    constructor (orders: OrderRepository)
      ensures this.orders == orders && audit == []
    {
      this.orders := orders;
      audit := [];
    }

    /**
     Without interference a sweep expires exactly min(batch, n) of the n overdue orders, the earliest first,
     touches nothing else and logs one entry for each.
     */
    method ExpirePendingOrdersAt(batch: int, nowTs: int) returns (expired: nat)
      modifies this`audit, orders`rows
      ensures var n := |Overdues(old(orders.rows), nowTs)|; expired == if batch < 0 then n else Min(batch, n)
      ensures var ids := ListExpired(old(orders.rows), nowTs, batch);
              && Earliest(old(orders.rows), nowTs, ids) && |ids| == expired
              && orders.rows == Sweep(old(orders.rows), ids, orders.now)
              && audit == old(audit) + OverdueEntries(ids)
      ensures |Overdues(orders.rows, nowTs)| == |Overdues(old(orders.rows), nowTs)| - expired
    {
      hide Overdues, Sweep, OverdueEntries, ListExpired;
      var ids := orders.ListExpiredPending(nowTs, batch);
      ghost var rows := orders.rows;
      SweepLeaves(rows, nowTs, batch, orders.now);
      expired := 0;
      SweepNone(rows, orders.now);
      if ids == [] {
        return;
      }
      var i := 0;
      while i < |ids|
        invariant 0 <= i <= |ids| && expired == i
        invariant orders.rows == Sweep(rows, ids[..i], orders.now)
        invariant audit == old(audit) + OverdueEntries(ids[..i])
      {
        SweepOne(rows, nowTs, ids, i, orders.now);
        var won := orders.MarkStatusIfPending(ids[i], Expired);
        if won {
          expired := expired + 1;
          audit := audit + [(ids[i], OrderExpired)];
        }
        i := i + 1;
      }
      assert ids[..i] == ids;
    }

    /** The checks that need nothing but the input and the limits. */
    method Admit(input: NewOrder, limits: Limits) returns (admitted: bool)
      ensures admitted == Admissible(limits, input)
      ensures admitted <==> input.user > 0 && input.cents > 0 &&
                            if input.orderType == Balance
                            then !limits.balanceDisabled && limits.minCents <= input.cents <= limits.maxCents
                            else input.hasPlan && input.groupId.GetOr(0) > 0 && input.days.GetOr(0) > 0
    {
      if input.user <= 0 || input.cents <= 0 {
        return false;
      }
      match input.orderType {
        case Balance =>
          if limits.balanceDisabled || input.cents < limits.minCents || input.cents > limits.maxCents {
            return false;
          }
        case Subscription =>
          if !input.hasPlan || input.groupId.GetOr(0) <= 0 || input.days.GetOr(0) <= 0 {
            return false;
          }
      }
      return true;
    }

    /**
     An order is created if and only if the input is admissible, the user has fewer pending orders than the
     limit and the code is new; then it is one new pending row that expires after the timeout.
     */
    method CreatePendingOrderAt(input: NewOrder, limits: Limits, nowTs: int) returns (created: Option<nat>)
      modifies this`audit, orders`rows
      ensures created.Some? <==>
                && input.user > 0 && input.cents > 0
                && (if input.orderType == Balance
                    then !limits.balanceDisabled && limits.minCents <= input.cents <= limits.maxCents
                    else input.hasPlan && input.groupId.GetOr(0) > 0 && input.days.GetOr(0) > 0)
                && |PendingIds(old(orders.rows), input.user)| < limits.maxPending
                && forall i :: 0 <= i < |old(orders.rows)| ==> old(orders.rows)[i].rechargeCode != input.code
      ensures created.None? ==> orders.rows == old(orders.rows) && audit == old(audit)
      ensures created.Some? ==>
                var minutes := if limits.timeoutMinutes < 1 then 1 else limits.timeoutMinutes;
                && created.value == |old(orders.rows)| && |orders.rows| == |old(orders.rows)| + 1
                && var r := orders.rows[|old(orders.rows)|];
                && orders.rows == old(orders.rows) + [r]
                && r == Row(input.user, input.cents, r.payAmountCents, input.code, Pending, input.orderType, None,
                          input.groupId, input.days, nowTs + minutes * 60, None, None, None, None, orders.now)
                && (r.payAmountCents.Some? <==> input.feeBps.Some?)
                && (input.feeBps.Some? ==> Quoted(input.cents, input.feeBps.value, r.payAmountCents.value))
                && audit == old(audit) + [(created.value, OrderCreated)]
                && |PendingIds(orders.rows, input.user)| == |PendingIds(old(orders.rows), input.user)| + 1
                && |PendingIds(orders.rows, input.user)| <= limits.maxPending
    {
      created := None;
      var admitted := Admit(input, limits);
      if !admitted {
        return;
      }
      hide Admissible;
      var pending := orders.CountPendingByUser(input.user);
      if pending >= limits.maxPending {
        return;
      }
      if input.feeBps.Some? {
        PayAmountIsLeast(input.cents, input.feeBps.value, 0);
      }
      hide PayAmount, Quoted;
      var expiresAt := nowTs + Max(limits.timeoutMinutes, 1) * 60;
      var payCents := if input.feeBps.Some? then Some(PayAmount(input.cents, input.feeBps.value)) else None;
      var r := Row(input.user, input.cents, payCents, input.code, Pending, input.orderType, None, input.groupId,
        input.days, expiresAt, None, None, None, None, orders.now);
      ghost var rows := orders.rows;
      created := orders.InsertPending(r);
      if created.Some? {
        audit := audit + [(created.value, OrderCreated)];
        assert PendingIds(orders.rows, input.user) == PendingIds(rows, input.user) + {created.value};
      }
    }
  }
}
