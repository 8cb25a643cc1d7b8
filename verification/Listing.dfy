/** The queries over the whole table: list_expired_pending and count_pending_by_user (src/order/repository.rs). */
module Listing {
  import opened Common
  import opened Orders

  predicate Overdue(r: Row, now: int) {
    r.status == Pending && r.expiresAt < now
  }

  predicate InRange(ids: seq<nat>, n: nat) {
    forall k :: 0 <= k < |ids| ==> ids[k] < n
  }

  /** Inserts order `o` into ids sorted by expiry, after the ones that expire no later. */
  function Insert(rows: seq<Row>, ids: seq<nat>, o: nat): (r: seq<nat>)
    requires o < |rows| && InRange(ids, |rows|)
    ensures |r| == |ids| + 1 && InRange(r, |rows|)
  {
    if ids == [] || rows[o].expiresAt < rows[ids[0]].expiresAt then [o] + ids
    else [ids[0]] + Insert(rows, ids[1..], o)
  }

  /** The overdue orders among the first `n` rows, earliest expiry first. */
  function OverdueIds(rows: seq<Row>, now: int, n: nat): (ids: seq<nat>)
    requires n <= |rows|
    ensures InRange(ids, |rows|)
  {
    if n == 0 then []
    else
      var ids := OverdueIds(rows, now, n - 1);
      if Overdue(rows[n - 1], now) then Insert(rows, ids, n - 1) else ids
  }

  /** ORDER BY expires_at ASC LIMIT limit; a negative limit means none. */
  function ListExpired(rows: seq<Row>, now: int, limit: int): (ids: seq<nat>)
    ensures InRange(ids, |rows|)
  {
    var ids := OverdueIds(rows, now, |rows|);
    if 0 <= limit < |ids| then ids[..limit] else ids
  }

  // ---- what the listing promises ----

  function Overdues(rows: seq<Row>, now: int): set<nat> {
    set o: nat | o < |rows| && rows[o].status == Pending && rows[o].expiresAt < now
  }

  ghost predicate SortedByExpiry(rows: seq<Row>, ids: seq<nat>)
    requires InRange(ids, |rows|)
  {
    forall i, j :: 0 <= i < j < |ids| ==> rows[ids[i]].expiresAt <= rows[ids[j]].expiresAt
  }

  ghost predicate Distinct(ids: seq<nat>) {
    forall i, j :: 0 <= i < j < |ids| ==> ids[i] != ids[j]
  }

  /** Overdue orders without repetition, in order of expiry, and none left out expires before one listed. */
  ghost predicate Earliest(rows: seq<Row>, now: int, ids: seq<nat>) {
    && InRange(ids, |rows|) && Distinct(ids) && SortedByExpiry(rows, ids)
    && (forall o :: o in ids ==> o in Overdues(rows, now))
    && (forall o, p :: o in ids && p in Overdues(rows, now) && p !in ids ==> rows[o].expiresAt <= rows[p].expiresAt)
  }

  lemma {:induction false} InsertMembers(rows: seq<Row>, ids: seq<nat>, o: nat, x: nat)
    requires o < |rows| && InRange(ids, |rows|)
    ensures x in Insert(rows, ids, o) <==> x == o || x in ids
  {
    if ids != [] && rows[ids[0]].expiresAt <= rows[o].expiresAt {
      InsertMembers(rows, ids[1..], o, x);
      assert ids == [ids[0]] + ids[1..];
    }
  }

  lemma {:induction false} InsertSorts(rows: seq<Row>, ids: seq<nat>, o: nat)
    requires o < |rows| && InRange(ids, |rows|) && SortedByExpiry(rows, ids)
    ensures SortedByExpiry(rows, Insert(rows, ids, o))
  {
    if ids != [] && rows[ids[0]].expiresAt <= rows[o].expiresAt {
      var rest := Insert(rows, ids[1..], o);
      InsertSorts(rows, ids[1..], o);
      forall j | 0 <= j < |rest| ensures rows[ids[0]].expiresAt <= rows[rest[j]].expiresAt {
        InsertMembers(rows, ids[1..], o, rest[j]);
      }
    }
  }

  lemma {:induction false} InsertDistinct(rows: seq<Row>, ids: seq<nat>, o: nat)
    requires o < |rows| && InRange(ids, |rows|) && Distinct(ids) && o !in ids
    ensures Distinct(Insert(rows, ids, o))
  {
    if ids != [] && rows[ids[0]].expiresAt <= rows[o].expiresAt {
      var rest := Insert(rows, ids[1..], o);
      InsertDistinct(rows, ids[1..], o);
      forall j | 0 <= j < |rest| ensures ids[0] != rest[j] {
        InsertMembers(rows, ids[1..], o, rest[j]);
      }
    }
  }

  /** All the overdue orders among the first `n`. */
  lemma {:induction false} OverdueIdsMembers(rows: seq<Row>, now: int, n: nat, o: nat)
    requires n <= |rows|
    ensures o in OverdueIds(rows, now, n) <==> o < n && Overdue(rows[o], now)
  {
    if n > 0 {
      OverdueIdsMembers(rows, now, n - 1, o);
      InsertMembers(rows, OverdueIds(rows, now, n - 1), n - 1, o);
    }
  }

  lemma {:induction false} OverdueIdsSorted(rows: seq<Row>, now: int, n: nat)
    requires n <= |rows|
    ensures Distinct(OverdueIds(rows, now, n)) && SortedByExpiry(rows, OverdueIds(rows, now, n))
  {
    hide Distinct, SortedByExpiry, Insert;
    if n == 0 {
      NothingIsSorted(rows);
    } else {
      OverdueIdsSorted(rows, now, n - 1);
      OverdueIdsMembers(rows, now, n - 1, n - 1);
      InsertSorts(rows, OverdueIds(rows, now, n - 1), n - 1);
      InsertDistinct(rows, OverdueIds(rows, now, n - 1), n - 1);
    }
  }

  lemma NothingIsSorted(rows: seq<Row>)
    ensures Distinct([]) && SortedByExpiry(rows, [])
  {
  }

  lemma {:induction false} DistinctCardinality(ids: seq<nat>, s: set<nat>)
    requires Distinct(ids) && forall o :: o in ids <==> o in s
    ensures |ids| == |s|
  {
    if ids == [] {
      assert s == {};
    } else {
      var n := |ids| - 1;
      var last := ids[n];
      assert forall o :: o in ids[..n] <==> o in s - {last};
      DistinctCardinality(ids[..n], s - {last});
    }
  }

  /** The listing is the earliest overdue orders, exactly as many as the limit and the table allow. */
  lemma ListExpiredIsEarliest(rows: seq<Row>, now: int, limit: int)
    ensures Earliest(rows, now, ListExpired(rows, now, limit))
    ensures var n := |Overdues(rows, now)|;
            |ListExpired(rows, now, limit)| == if limit < 0 then n else Min(limit, n)
  {
    hide Overdues, OverdueIds, Earliest;
    var all := OverdueIds(rows, now, |rows|);
    AllOverdueIds(rows, now);
    DistinctCardinality(all, Overdues(rows, now));
    var ids := ListExpired(rows, now, limit);
    assert ids == all[..|ids|];
    PrefixIsEarliest(rows, now, all, |ids|);
  }

  lemma AllOverdueIds(rows: seq<Row>, now: int)
    ensures var ids := OverdueIds(rows, now, |rows|);
            Distinct(ids) && SortedByExpiry(rows, ids) && forall o :: o in ids <==> o in Overdues(rows, now)
  {
    hide Distinct, SortedByExpiry, OverdueIds;
    OverdueIdsSorted(rows, now, |rows|);
    forall o: nat ensures o in OverdueIds(rows, now, |rows|) <==> o in Overdues(rows, now) {
      OverdueIdsMembers(rows, now, |rows|, o);
    }
  }

  /** Any beginning of the sorted overdue orders is an earliest choice. */
  lemma PrefixIsEarliest(rows: seq<Row>, now: int, all: seq<nat>, n: nat)
    requires n <= |all| && InRange(all, |rows|) && Distinct(all) && SortedByExpiry(rows, all)
    requires forall o :: o in all <==> o in Overdues(rows, now)
    ensures Earliest(rows, now, all[..n])
  {
    hide Overdues;
    var ids := all[..n];
    forall o | o in ids ensures o in Overdues(rows, now) {
      assert o in all;
    }
    forall o, p | o in ids && p in Overdues(rows, now) && p !in ids ensures rows[o].expiresAt <= rows[p].expiresAt {
      LaterExpiresLater(rows, all, n, o, p);
    }
  }

  lemma PrefixMembers(all: seq<nat>, n: nat)
    requires n <= |all|
    ensures forall k :: 0 <= k < n ==> all[k] in all[..n]
  {
    assert forall k :: 0 <= k < n ==> all[..n][k] == all[k];
  }

  lemma LaterExpiresLater(rows: seq<Row>, all: seq<nat>, n: nat, o: nat, p: nat)
    requires n <= |all| && InRange(all, |rows|) && SortedByExpiry(rows, all)
    requires o in all[..n] && p in all && p !in all[..n]
    ensures rows[o].expiresAt <= rows[p].expiresAt
  {
    PrefixMembers(all, n);
    var i :| 0 <= i < n && all[..n][i] == o;
    var j :| 0 <= j < |all| && all[j] == p;
  }

  // ---- counting pending orders ----

  function PendingIds(rows: seq<Row>, user: int): set<nat> {
    set o: nat | o < |rows| && rows[o].user == user && rows[o].status == Pending
  }

  function CountPending(rows: seq<Row>, user: int): nat {
    if rows == [] then 0
    else
      var r := rows[|rows| - 1];
      CountPending(rows[..|rows| - 1], user) + if r.user == user && r.status == Pending then 1 else 0
  }

  lemma {:induction false} CountPendingIsCardinality(rows: seq<Row>, user: int)
    ensures CountPending(rows, user) == |PendingIds(rows, user)|
  {
    if rows == [] {
      assert PendingIds(rows, user) == {};
    } else {
      var n := |rows| - 1;
      CountPendingIsCardinality(rows[..n], user);
      var last: set<nat> := if rows[n].user == user && rows[n].status == Pending then {n} else {};
      assert PendingIds(rows, user) == PendingIds(rows[..n], user) + last;
    }
  }

  lemma {:induction false} CountPendingUpdate(rows: seq<Row>, o: nat, r: Row, u: int)
    requires o < |rows|
    ensures CountPending(rows[o := r], u) == CountPending(rows, u) - CountPending([rows[o]], u) + CountPending([r], u)
  {
    var n := |rows| - 1;
    if o == n {
      assert rows[o := r][..n] == rows[..n];
    } else {
      CountPendingUpdate(rows[..n], o, r, u);
      assert rows[o := r][..n] == rows[..n][o := r];
    }
  }
}
