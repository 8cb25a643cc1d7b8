/** Sums over all workers and over all orders, and how one update changes them. */
module Sums {
  import opened Protocol
  import opened Facts
  import opened World

  // ---- over workers ----

  function Total(jobs: seq<Job>, o: nat, x: Kind): int {
    if jobs == [] then 0 else Total(jobs[..|jobs| - 1], o, x) + Give(jobs[|jobs| - 1], o, x)
  }

  lemma {:induction false} TotalUpdate(jobs: seq<Job>, w: nat, k: Job, o: nat, x: Kind)
    requires w < |jobs|
    ensures Total(jobs[w := k], o, x) == Total(jobs, o, x) - Give(jobs[w], o, x) + Give(k, o, x)
  {
    var n := |jobs| - 1;
    if w == n {
      assert jobs[w := k][..n] == jobs[..n];
    } else {
      TotalUpdate(jobs[..n], w, k, o, x);
      assert jobs[w := k][..n] == jobs[..n][w := k];
    }
  }

  lemma TotalAppend(jobs: seq<Job>, k: Job, o: nat, x: Kind)
    ensures Total(jobs + [k], o, x) == Total(jobs, o, x) + Give(k, o, x)
  {
    assert (jobs + [k])[..|jobs|] == jobs;
  }

  lemma {:induction false} TotalNothing(jobs: seq<Job>, o: nat, x: Kind)
    requires forall w :: 0 <= w < |jobs| ==> Give(jobs[w], o, x) == 0
    ensures Total(jobs, o, x) == 0
  {
    if jobs != [] {
      TotalNothing(jobs[..|jobs| - 1], o, x);
    }
  }

  /** Only `Units` can be negative, so a total is at least what any two workers give. */
  lemma {:induction false} TotalCovers(jobs: seq<Job>, o: nat, x: Kind, w: nat, u: nat)
    requires x != Units && w < |jobs| && u < |jobs|
    ensures Total(jobs, o, x) >= Give(jobs[w], o, x) + if w == u then 0 else Give(jobs[u], o, x)
  {
    var n := |jobs| - 1;
    TotalNonNegative(jobs[..n], o, x);
    if w < n && u < n {
      TotalCovers(jobs[..n], o, x, w, u);
    } else if w < n {
      TotalCovers(jobs[..n], o, x, w, w);
    } else if u < n {
      TotalCovers(jobs[..n], o, x, u, u);
    }
  }

  lemma {:induction false} TotalNonNegative(jobs: seq<Job>, o: nat, x: Kind)
    requires x != Units
    ensures Total(jobs, o, x) >= 0
  {
    if jobs != [] {
      TotalNonNegative(jobs[..|jobs| - 1], o, x);
    }
  }

  // ---- over orders ----

  function NetOn(v: View, x: Account): int {
    if AccountOf(v.cell.row) == x then OrderNet(v) else 0
  }

  /** What the service has put on an account through the first `n` orders. */
  function Net(s: Sys, n: nat, x: Account): int
    requires n <= |s.cells|
  {
    if n == 0 then 0 else Net(s, n - 1, x) + NetOn(ViewOf(s, n - 1), x)
  }

  /** Two systems that show the same first `n` orders, except perhaps order `o`. */
  lemma {:induction false} NetDiffers(s: Sys, t: Sys, n: nat, o: nat, x: Account)
    requires n <= |s.cells| && n <= |t.cells|
    requires forall i :: 0 <= i < n && i != o ==> ViewOf(t, i) == ViewOf(s, i)
    ensures Net(t, n, x) - Net(s, n, x) == if o < n then NetOn(ViewOf(t, o), x) - NetOn(ViewOf(s, o), x) else 0
  {
    if n > 0 {
      NetDiffers(s, t, n - 1, o, x);
    }
  }
}
