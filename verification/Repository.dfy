/**
 The orders table and its statements (src/order/repository.rs).  Each method is one transaction: it
 updates the row it names if the row meets the guard, and leaves the table as it was otherwise.
 */
module Repository {
  import opened Common
  import opened Orders
  import opened Listing

  class OrderRepository {
    var rows: seq<Row>
    var now: int       // unixepoch()

    constructor (now: int)
      ensures rows == [] && this.now == now
    {
      this.now := now;
      rows := [];
    }

    method GetById(o: nat) returns (r: Option<Row>)
      ensures r.Some? <==> o < |rows|
      ensures r.Some? ==> r.value == rows[o]
    {
      r := if o < |rows| then Some(rows[o]) else None;
    }

    method CountPendingByUser(user: int) returns (n: nat)
      ensures n == |PendingIds(rows, user)|
    {
      n := CountPending(rows, user);
      CountPendingIsCardinality(rows, user);
    }

    /** The earliest overdue orders, as many as the limit allows. */
    method ListExpiredPending(nowTs: int, limit: int) returns (ids: seq<nat>)
      ensures ids == ListExpired(rows, nowTs, limit)
      ensures Earliest(rows, nowTs, ids)
      ensures |ids| == if limit < 0 then |Overdues(rows, nowTs)| else Min(limit, |Overdues(rows, nowTs)|)
    {
      ids := ListExpired(rows, nowTs, limit);
      ListExpiredIsEarliest(rows, nowTs, limit);
    }

    /** The recharge code is unique: an insert with a code already used fails. */
    method InsertPending(r: Row) returns (o: Option<nat>)
      modifies this`rows
      ensures o.Some? <==> forall i :: 0 <= i < |old(rows)| ==> old(rows)[i].rechargeCode != r.rechargeCode
      ensures o.Some? ==> o.value == |old(rows)|
      ensures rows == if o.Some? then old(rows) + [r] else old(rows)
    {
      if exists i :: 0 <= i < |rows| && rows[i].rechargeCode == r.rechargeCode {
        return None;
      }
      o := Some(|rows|);
      rows := rows + [r];
    }

    method MarkStatusIfPending(o: nat, status: Status) returns (won: bool)
      modifies this`rows
      ensures won <==> o < |old(rows)| && old(rows)[o].status == Pending
      ensures rows == if won then old(rows)[o := old(rows)[o].(status := status, updatedAt := now)] else old(rows)
    {
      won := o < |rows| && rows[o].status == Pending;
      if won {
        rows := rows[o := rows[o].(status := status, updatedAt := now)];
      }
    }

    method MarkPaidIfPendingOrRecentExpired(o: nat, trade: string, cents: int, paidAt: int, graceGte: int)
      returns (won: bool)
      modifies this`rows
      ensures won <==> o < |old(rows)| && (old(rows)[o].status == Pending ||
                                           (old(rows)[o].status == Expired && old(rows)[o].updatedAt >= graceGte))
      ensures rows == if !won then old(rows)
                      else old(rows)[o := old(rows)[o].(status := Paid, payAmountCents := Some(cents),
                                            tradeNo := Some(trade), paidAt := Some(paidAt), failedAt := None,
                                            updatedAt := now)]
    {
      won := o < |rows| && (rows[o].status == Pending || (rows[o].status == Expired && rows[o].updatedAt >= graceGte));
      if won {
        rows := rows[o := rows[o].(status := Paid, payAmountCents := Some(cents), tradeNo := Some(trade),
                     paidAt := Some(paidAt), failedAt := None, updatedAt := now)];
      }
    }

    method MarkRechargingIfPaidOrFailed(o: nat) returns (won: bool)
      modifies this`rows
      ensures won <==> o < |old(rows)| && old(rows)[o].status in {Paid, Failed}
      ensures rows == if won then old(rows)[o := old(rows)[o].(status := Recharging, updatedAt := now)] else old(rows)
    {
      won := o < |rows| && rows[o].status in {Paid, Failed};
      if won {
        rows := rows[o := rows[o].(status := Recharging, updatedAt := now)];
      }
    }

    method ResetToPaidIfRetryable(o: nat) returns (won: bool)
      modifies this`rows
      ensures won <==> o < |old(rows)| && old(rows)[o].status in {Failed, Paid} && old(rows)[o].paidAt.Some?
      ensures rows == if !won then old(rows)
                      else old(rows)[o := old(rows)[o].(status := Paid, failedAt := None, updatedAt := now)]
    {
      won := o < |rows| && rows[o].status in {Failed, Paid} && rows[o].paidAt != None;
      if won {
        rows := rows[o := rows[o].(status := Paid, failedAt := None, updatedAt := now)];
      }
    }

    method MarkRefundRequested(o: nat, user: int, cents: int) returns (won: bool)
      modifies this`rows
      ensures won <==> o < |old(rows)| && old(rows)[o].user == user && old(rows)[o].status == Completed &&
                       old(rows)[o].orderType == Balance
      ensures rows == if !won then old(rows)
                      else old(rows)[o := old(rows)[o].(status := RefundRequested, refundCents := Some(cents),
                                            updatedAt := now)]
    {
      won := o < |rows| && rows[o].user == user && rows[o].status == Completed && rows[o].orderType == Balance;
      if won {
        rows := rows[o := rows[o].(status := RefundRequested, refundCents := Some(cents), updatedAt := now)];
      }
    }

    method MarkRefundingIfRefundable(o: nat) returns (won: bool)
      modifies this`rows
      ensures won <==> o < |old(rows)| && old(rows)[o].status in {Completed, RefundRequested, RefundFailed}
      ensures rows == if won then old(rows)[o := old(rows)[o].(status := Refunding, updatedAt := now)] else old(rows)
    {
      won := o < |rows| && rows[o].status in {Completed, RefundRequested, RefundFailed};
      if won {
        rows := rows[o := rows[o].(status := Refunding, updatedAt := now)];
      }
    }

    method RestoreAfterRefundGatewayFailure(o: nat, status: Status) returns (won: bool)
      modifies this`rows
      ensures won <==> o < |old(rows)| && old(rows)[o].status == Refunding
      ensures rows == if !won then old(rows)
                      else old(rows)[o := old(rows)[o].(status := status, failedAt := None, updatedAt := now)]
    {
      won := o < |rows| && rows[o].status == Refunding;
      if won {
        rows := rows[o := rows[o].(status := status, failedAt := None, updatedAt := now)];
      }
    }

    method MarkRefundFailed(o: nat, failedAt: int) returns (won: bool)
      modifies this`rows
      ensures won <==> o < |old(rows)| && old(rows)[o].status == Refunding
      ensures rows == if !won then old(rows)
                      else old(rows)[o := old(rows)[o].(status := RefundFailed, failedAt := Some(failedAt),
                                            updatedAt := now)]
    {
      won := o < |rows| && rows[o].status == Refunding;
      if won {
        rows := rows[o := rows[o].(status := RefundFailed, failedAt := Some(failedAt), updatedAt := now)];
      }
    }

    method MarkRefunded(o: nat, status: Status, cents: int) returns (won: bool)
      modifies this`rows
      ensures won <==> o < |old(rows)| && old(rows)[o].status == Refunding
      ensures rows == if !won then old(rows)
                      else old(rows)[o := old(rows)[o].(status := status, refundCents := Some(cents),
                                            failedAt := None, updatedAt := now)]
    {
      won := o < |rows| && rows[o].status == Refunding;
      if won {
        rows := rows[o := rows[o].(status := status, refundCents := Some(cents), failedAt := None, updatedAt := now)];
      }
    }

    method MarkCompletedAfterFulfillment(o: nat, completedAt: int) returns (won: bool)
      modifies this`rows
      ensures won <==> o < |old(rows)| && old(rows)[o].status in {Recharging, Paid, Failed}
      ensures rows == if !won then old(rows)
                      else old(rows)[o := old(rows)[o].(status := Completed, completedAt := Some(completedAt),
                                            failedAt := None, updatedAt := now)]
    {
      won := o < |rows| && rows[o].status in {Recharging, Paid, Failed};
      if won {
        rows := rows[o := rows[o].(status := Completed, completedAt := Some(completedAt), failedAt := None,
                     updatedAt := now)];
      }
    }

    method MarkFailedIfRecharging(o: nat, failedAt: int) returns (won: bool)
      modifies this`rows
      ensures won <==> o < |old(rows)| && old(rows)[o].status == Recharging
      ensures rows == if !won then old(rows)
                      else old(rows)[o := old(rows)[o].(status := Failed, failedAt := Some(failedAt), updatedAt := now)]
    {
      won := o < |rows| && rows[o].status == Recharging;
      if won {
        rows := rows[o := rows[o].(status := Failed, failedAt := Some(failedAt), updatedAt := now)];
      }
    }

    method SetPaymentDetails(o: nat, trade: string) returns (won: bool)
      modifies this`rows
      ensures won <==> o < |old(rows)|
      ensures rows == if !won then old(rows)
                      else old(rows)[o := old(rows)[o].(tradeNo := Some(trade), updatedAt := now)]
    {
      won := o < |rows|;
      if won {
        rows := rows[o := rows[o].(tradeNo := Some(trade), updatedAt := now)];
      }
    }
  }
}
