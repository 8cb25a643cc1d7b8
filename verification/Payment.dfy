/**
 Payment instances, their limits, and the choice of one for an order (src/payment.rs).  A limit of 0 means
 unlimited.
 */
module Payment {
  import opened Common
  import opened Fees

  /** Per payment type, in cents; the JSON reader turns anything that is not a non-negative number into 0. */
  datatype ChannelLimits = ChannelLimits(singleMin: nat, singleMax: nat, dailyLimit: nat)

  datatype Instance = Instance(
    id: string,
    providerKey: string,
    sortOrder: int,
    supportedTypes: seq<string>,
    limits: map<string, ChannelLimits>)

  function LimitsOf(i: Instance, t: string): ChannelLimits {
    if t in i.limits then i.limits[t] else ChannelLimits(0, 0, 0)
  }

  function Used(usage: map<string, int>, id: string): int {
    if id in usage then usage[id] else 0
  }

  predicate SupportsType(i: Instance, t: string) {
    i.supportedTypes == [] || t in i.supportedTypes
  }

  function ProviderKeyForType(t: string): Option<string> {
    if "alipay_direct" <= t then Some("alipay")
    else if t == "alipay" then Some("easypay")
    else if "wxpay_direct" <= t then Some("wxpay")
    else if t == "wxpay" then Some("easypay")
    else if "stripe" <= t then Some("stripe")
    else None
  }

  function ProviderSupportedTypes(key: string): seq<string> {
    if key == "easypay" then ["alipay", "wxpay"]
    else if key == "alipay" then ["alipay_direct"]
    else if key == "wxpay" then ["wxpay_direct"]
    else if key == "stripe" then ["stripe"]
    else []
  }

  /** Routing agrees with the types on offer: a type goes to a provider that offers it or a stem of it. */
  lemma RoutingMatchesOffers(t: string, key: string)
    ensures t in ProviderSupportedTypes(key) ==> ProviderKeyForType(t) == Some(key)
    ensures ProviderKeyForType(t) == Some(key) ==> exists u :: u in ProviderSupportedTypes(key) && u <= t
  {
    match ProviderKeyForType(t)
    case Some(k) =>
      if k == key {
        var stem := if k == "easypay" then t else ProviderSupportedTypes(key)[0];
        assert stem in ProviderSupportedTypes(key) && stem <= t;
      }
    case None =>
  }

  predicate Matches(i: Instance, t: string) {
    ProviderKeyForType(t) == Some(i.providerKey) && SupportsType(i, t)
  }

  /** instance_accepts_amount */
  predicate Accepts(i: Instance, t: string, cents: int, usage: map<string, int>) {
    var l := LimitsOf(i, t);
    if l.singleMin > 0 && cents < l.singleMin then false
    else if l.singleMax > 0 && cents > l.singleMax then false
    else if l.dailyLimit > 0 && Used(usage, i.id) + cents > l.dailyLimit then false
    else true
  }

  // ---- the bounds shown to users ----

  datatype Aggregate = Aggregate(
    singleMin: int,
    singleMax: int,
    allBlocked: bool,
    maxRemaining: Option<int>,
    hasInstances: bool)

  /** What an instance can still take today, when it has a daily limit. */
  function Remaining(i: Instance, t: string, usage: map<string, int>): int {
    Max(LimitsOf(i, t).dailyLimit - Used(usage, i.id), 0)
  }

  /** Limited by day, with nothing left above its own minimum. */
  predicate Blocked(i: Instance, t: string, usage: map<string, int>) {
    LimitsOf(i, t).dailyLimit > 0 && Remaining(i, t, usage) <= LimitsOf(i, t).singleMin
  }

  /** The least singleMin, where 0 counts as no minimum. */
  ghost predicate MinSummary(s: seq<Instance>, t: string, m: int) {
    && 0 <= m
    && (forall k :: 0 <= k < |s| ==> m <= LimitsOf(s[k], t).singleMin)
    && ((exists k :: 0 <= k < |s| && LimitsOf(s[k], t).singleMin == m) || (m == I64_MAX))
  }

  /** From this position on every instance has a maximum; the one before it has none. */
  function LimitedFrom(s: seq<Instance>, t: string): (k: nat)
    ensures k <= |s| && (k > 0 ==> LimitsOf(s[k - 1], t).singleMax == 0)
    ensures forall j :: k <= j < |s| ==> LimitsOf(s[j], t).singleMax > 0
  {
    var n := |s| - 1;
    if s == [] then 0 else if LimitsOf(s[n], t).singleMax == 0 then |s| else LimitedFrom(s[..n], t)
  }

  /** The greatest singleMax after the last unlimited instance; 0 when that is the last of all. */
  ghost predicate MaxSummary(s: seq<Instance>, t: string, m: int) {
    var k := LimitedFrom(s, t);
    && (k == |s| ==> m == 0)
    && (k < |s| ==> m > 0)
    && (forall j :: k <= j < |s| ==> LimitsOf(s[j], t).singleMax <= m)
    && (k < |s| ==> exists j :: k <= j < |s| && LimitsOf(s[j], t).singleMax == m)
  }

  /** From this position on every instance has a daily limit; the one before it has none. */
  function DailyFrom(s: seq<Instance>, t: string): (k: nat)
    ensures k <= |s| && (k > 0 ==> LimitsOf(s[k - 1], t).dailyLimit == 0)
    ensures forall j :: k <= j < |s| ==> LimitsOf(s[j], t).dailyLimit > 0
  {
    var n := |s| - 1;
    if s == [] then 0 else if LimitsOf(s[n], t).dailyLimit == 0 then |s| else DailyFrom(s[..n], t)
  }

  /** The greatest remaining capacity of the open instances after the last one without a daily limit. */
  ghost predicate RemainingSummary(s: seq<Instance>, t: string, usage: map<string, int>, m: Option<int>) {
    var k := DailyFrom(s, t);
    && (m.None? ==> forall j :: k <= j < |s| ==> Blocked(s[j], t, usage))
    && (m.Some? ==>
          && (forall j :: k <= j < |s| && !Blocked(s[j], t, usage) ==> Remaining(s[j], t, usage) <= m.value)
          && (exists j :: k <= j < |s| && !Blocked(s[j], t, usage) && Remaining(s[j], t, usage) == m.value))
  }

  ghost predicate Summarises(s: seq<Instance>, t: string, usage: map<string, int>, a: Aggregate) {
    && (a.hasInstances <==> s != [])
    && (s == [] ==> a.singleMin == 0 && a.singleMax == 0 && !a.allBlocked && a.maxRemaining.None?)
    && (s != [] ==>
          && (MinSummary(s, t, a.singleMin) || (MinSummary(s, t, I64_MAX) && a.singleMin == 0))
          && MaxSummary(s, t, a.singleMax)
          && RemainingSummary(s, t, usage, a.maxRemaining)
          && (a.allBlocked <==> forall k :: 0 <= k < |s| ==> Blocked(s[k], t, usage)))
  }

  function Supporting(instances: seq<Instance>, t: string): (s: seq<Instance>)
    ensures forall i :: i in s <==> i in instances && Matches(i, t)
  {
    if instances == [] then []
    else
      var n := |instances| - 1;
      Supporting(instances[..n], t) + if Matches(instances[n], t) then [instances[n]] else []
  }

  method AggregateInstanceLimits(types: seq<string>, instances: seq<Instance>, usage: map<string, int>)
    returns (result: map<string, Aggregate>)
    requires forall i :: i in instances ==> forall t :: t in i.limits ==> i.limits[t].singleMin <= I64_MAX
    ensures result.Keys == set t | t in types
    ensures forall t :: t in result ==> Summarises(Supporting(instances, t), t, usage, result[t])
  {
    result := map[];
    var i := 0;
    while i < |types|
      invariant 0 <= i <= |types|
      invariant result.Keys == set t | t in types[..i]
      invariant forall t :: t in result ==> Summarises(Supporting(instances, t), t, usage, result[t])
    {
      var supporting := Supporting(instances, types[i]);
      var a := AggregateSupporting(supporting, types[i], usage);
      result := result[types[i] := a];
      assert types[..i + 1] == types[..i] + [types[i]];
      i := i + 1;
    }
    assert types[..i] == types;
  }

  lemma EmptySummaries(t: string, usage: map<string, int>)
    ensures MinSummary([], t, I64_MAX) && MaxSummary([], t, 0) && RemainingSummary([], t, usage, None)
  {
  }

  lemma MinStep(s: seq<Instance>, i: Instance, t: string, m: int)
    requires MinSummary(s, t, m)
    ensures MinSummary(s + [i], t, Min(m, LimitsOf(i, t).singleMin))
  {
    var u := s + [i];
    if LimitsOf(i, t).singleMin <= m {
      assert LimitsOf(u[|s|], t).singleMin == Min(m, LimitsOf(i, t).singleMin);
    } else if m != I64_MAX {
      var k :| 0 <= k < |s| && LimitsOf(s[k], t).singleMin == m;
      assert u[k] == s[k];
    }
  }

  /** The next value of the running maximum. */
  function NextMax(m: int, singleMax: int): int {
    if singleMax == 0 then 0 else if m != 0 then Max(m, singleMax) else singleMax
  }

  lemma MaxStep(s: seq<Instance>, i: Instance, t: string, m: int)
    requires MaxSummary(s, t, m)
    ensures MaxSummary(s + [i], t, NextMax(m, LimitsOf(i, t).singleMax))
  {
    var u := s + [i];
    LimitedStep(s, i, t);
    hide LimitedFrom, LimitsOf;
    var k := LimitedFrom(s, t);
    if LimitsOf(i, t).singleMax > 0 {
      if k < |s| && m > LimitsOf(i, t).singleMax {
        var j :| k <= j < |s| && LimitsOf(s[j], t).singleMax == m;
        assert LimitsOf(u[j], t).singleMax == m;
      } else {
        assert LimitsOf(u[|s|], t).singleMax == NextMax(m, LimitsOf(i, t).singleMax);
      }
    }
  }

  lemma LimitedStep(s: seq<Instance>, i: Instance, t: string)
    ensures LimitedFrom(s + [i], t) == if LimitsOf(i, t).singleMax == 0 then |s| + 1 else LimitedFrom(s, t)
  {
    assert (s + [i])[..|s|] == s && (s + [i])[|s|] == i;
    hide LimitsOf;
  }

  /** The next value of the running capacity. */
  function NextRemaining(i: Instance, t: string, usage: map<string, int>, m: Option<int>): Option<int> {
    if LimitsOf(i, t).dailyLimit == 0 then None
    else if Blocked(i, t, usage) then m
    else Some(if m.Some? then Max(m.value, Remaining(i, t, usage)) else Remaining(i, t, usage))
  }

  lemma RemainingStep(s: seq<Instance>, i: Instance, t: string, usage: map<string, int>, m: Option<int>)
    requires RemainingSummary(s, t, usage, m)
    ensures RemainingSummary(s + [i], t, usage, NextRemaining(i, t, usage, m))
  {
    var u := s + [i];
    assert u[..|s|] == s && u[|s|] == i;
    hide Blocked, Remaining;
    var k := DailyFrom(s, t);
    if LimitsOf(i, t).dailyLimit != 0 && m.Some? {
      var j :| k <= j < |s| && !Blocked(s[j], t, usage) && Remaining(s[j], t, usage) == m.value;
      assert u[j] == s[j];
    }
  }

  lemma NothingToSummarise(t: string, usage: map<string, int>)
    ensures Summarises([], t, usage, Aggregate(0, 0, false, None, false))
  {
  }

  lemma SummaryComplete(s: seq<Instance>, t: string, usage: map<string, int>, singleMin: int, singleMax: int,
                        allBlocked: bool, maxRemaining: Option<int>)
    requires s != [] && MinSummary(s, t, singleMin) && MaxSummary(s, t, singleMax)
    requires RemainingSummary(s, t, usage, maxRemaining)
    requires allBlocked <==> forall j :: 0 <= j < |s| ==> Blocked(s[j], t, usage)
    ensures var m := if singleMin == I64_MAX then 0 else singleMin;
            Summarises(s, t, usage, Aggregate(m, singleMax, allBlocked, maxRemaining, true))
  {
    hide MinSummary, MaxSummary, RemainingSummary, Blocked;
  }

  /** The single limits of one more instance. */
  method WidenSingle(l: ChannelLimits, singleMin: int, singleMax: int) returns (newMin: int, newMax: int)
    requires 0 <= singleMin
    ensures newMin == Min(singleMin, l.singleMin) && newMax == NextMax(singleMax, l.singleMax)
  {
    newMin, newMax := singleMin, singleMax;
    if l.singleMin == 0 {
      newMin := 0;
    } else if l.singleMin < newMin {
      newMin := l.singleMin;
    }
    if l.singleMax == 0 {
      newMax := 0;
    } else if newMax != 0 {
      newMax := Max(newMax, l.singleMax);
    } else {
      newMax := l.singleMax;
    }
  }

  /** The daily limit of one more instance. */
  method WidenDaily(i: Instance, t: string, usage: map<string, int>, allBlocked: bool, maxRemaining: Option<int>)
    returns (stillBlocked: bool, newRemaining: Option<int>)
    ensures stillBlocked == (allBlocked && Blocked(i, t, usage))
    ensures newRemaining == NextRemaining(i, t, usage, maxRemaining)
  {
    var l := LimitsOf(i, t);
    if l.dailyLimit <= 0 {
      return false, None;
    }
    stillBlocked, newRemaining := allBlocked, maxRemaining;
    var remaining := Max(l.dailyLimit - Used(usage, i.id), 0);
    if remaining > Max(l.singleMin, 0) {
      stillBlocked := false;
      if maxRemaining.Some? {
        newRemaining := Some(Max(maxRemaining.value, remaining));
      } else {
        newRemaining := Some(remaining);
      }
    }
  }

  /** The loop over the instances that support one payment type. */
  method AggregateSupporting(s: seq<Instance>, t: string, usage: map<string, int>) returns (a: Aggregate)
    requires forall i :: i in s && t in i.limits ==> i.limits[t].singleMin <= I64_MAX
    ensures Summarises(s, t, usage, a)
  {
    hide Summarises, LimitsOf, MinSummary, MaxSummary, RemainingSummary, NextMax, NextRemaining, Blocked;
    if s == [] {
      NothingToSummarise(t, usage);
      return Aggregate(0, 0, false, None, false);
    }
    var singleMin, singleMax, allBlocked, maxRemaining: Option<int> := I64_MAX, 0, true, None;
    var k := 0;
    EmptySummaries(t, usage);
    while k < |s|
      invariant 0 <= k <= |s| && 0 <= singleMin
      invariant MinSummary(s[..k], t, singleMin)
      invariant MaxSummary(s[..k], t, singleMax)
      invariant RemainingSummary(s[..k], t, usage, maxRemaining)
      invariant allBlocked <==> forall j :: 0 <= j < k ==> Blocked(s[j], t, usage)
    {
      MinStep(s[..k], s[k], t, singleMin);
      MaxStep(s[..k], s[k], t, singleMax);
      RemainingStep(s[..k], s[k], t, usage, maxRemaining);
      assert s[..k + 1] == s[..k] + [s[k]];
      singleMin, singleMax := WidenSingle(LimitsOf(s[k], t), singleMin, singleMax);
      allBlocked, maxRemaining := WidenDaily(s[k], t, usage, allBlocked, maxRemaining);
      k := k + 1;
    }
    assert s[..k] == s;
    SummaryComplete(s, t, usage, singleMin, singleMax, allBlocked, maxRemaining);
    if singleMin == I64_MAX {
      singleMin := 0;
    }
    a := Aggregate(singleMin, singleMax, allBlocked, maxRemaining, true);
  }

  // ---- the bounds against the routing test ----

  /** No accepted amount lies below the shown minimum. */
  lemma MinimumIsSound(s: seq<Instance>, t: string, usage: map<string, int>, a: Aggregate, i: Instance, cents: int)
    requires Summarises(s, t, usage, a) && i in s && cents > 0 && Accepts(i, t, cents, usage)
    ensures cents >= a.singleMin
  {
    hide MaxSummary, RemainingSummary;
    var k :| 0 <= k < |s| && s[k] == i;
  }

  /** Nor is the minimum too low: some instance has it as its own. */
  lemma MinimumIsTight(s: seq<Instance>, t: string, usage: map<string, int>, a: Aggregate)
    requires Summarises(s, t, usage, a) && s != []
    requires forall i :: i in s ==> LimitsOf(i, t).singleMin < I64_MAX
    ensures exists i :: i in s && LimitsOf(i, t).singleMin == a.singleMin
  {
    hide MaxSummary, RemainingSummary;
    assert LimitsOf(s[0], t).singleMin < I64_MAX;
    assert MinSummary(s, t, a.singleMin);
    var k :| 0 <= k < |s| && LimitsOf(s[k], t).singleMin == a.singleMin;
    assert s[k] in s;
  }

  /** The shown maximum, when there is one, holds back no amount that some instance accepts. */
  ghost predicate MaximumIsSound(s: seq<Instance>, t: string, usage: map<string, int>, a: Aggregate) {
    a.singleMax > 0 ==> forall i, cents :: i in s && cents > 0 && Accepts(i, t, cents, usage) ==> cents <= a.singleMax
  }

  lemma PreviousIsMember<T>(s: seq<T>, k: nat)
    requires k <= |s|
    ensures k == 0 || s[k - 1] in s
  {
  }

  /** With a maximum on every instance the shown maximum is sound. */
  lemma MaximumSoundWhenAllLimited(s: seq<Instance>, t: string, usage: map<string, int>, a: Aggregate)
    requires Summarises(s, t, usage, a) && s != []
    requires forall i :: i in s ==> LimitsOf(i, t).singleMax > 0
    ensures MaximumIsSound(s, t, usage, a) && a.singleMax > 0
  {
    PreviousIsMember(s, LimitedFrom(s, t));
    forall i, cents | i in s && cents > 0 && Accepts(i, t, cents, usage) ensures cents <= a.singleMax {
      var j :| 0 <= j < |s| && s[j] == i;
      assert LimitsOf(s[j], t).singleMax <= a.singleMax;
    }
  }

  /**
   The instance accepts nothing above the bound: its maximum or what is left of its day is not above it, or
   its limits leave no amount at all.
   */
  predicate StaysBelow(i: Instance, t: string, usage: map<string, int>, bound: int) {
    var l := LimitsOf(i, t);
    || 0 < l.singleMax <= bound
    || (l.dailyLimit > 0 && Remaining(i, t, usage) <= bound)
    || 0 < l.singleMax < l.singleMin
    || (l.dailyLimit > 0 && Remaining(i, t, usage) < l.singleMin)
  }

  /** The least amount above the bound that the instance could accept. */
  function JustAbove(i: Instance, t: string, bound: int): int {
    Max(Max(bound, 0) + 1, LimitsOf(i, t).singleMin)
  }

  lemma AcceptsJustAbove(i: Instance, t: string, usage: map<string, int>, bound: int)
    requires bound >= 0
    ensures StaysBelow(i, t, usage, bound) <==> !Accepts(i, t, JustAbove(i, t, bound), usage)
  {
  }

  lemma StaysBelowBounds(i: Instance, t: string, usage: map<string, int>, bound: int, cents: int)
    requires StaysBelow(i, t, usage, bound) && cents > 0 && Accepts(i, t, cents, usage)
    ensures cents <= bound
  {
  }

  /**
   The shown maximum holds back nothing acceptable if and only if every instance stays below it, by its own
   maximum, by its day, or because its limits leave nothing.
   */
  lemma MaximumSoundExactly(s: seq<Instance>, t: string, usage: map<string, int>, a: Aggregate)
    requires Summarises(s, t, usage, a) && a.singleMax > 0
    ensures MaximumIsSound(s, t, usage, a) <==> forall i :: i in s ==> StaysBelow(i, t, usage, a.singleMax)
  {
    hide Summarises, StaysBelow, Accepts, JustAbove;
    if forall i :: i in s ==> StaysBelow(i, t, usage, a.singleMax) {
      forall i, cents | i in s && cents > 0 && Accepts(i, t, cents, usage) ensures cents <= a.singleMax {
        StaysBelowBounds(i, t, usage, a.singleMax, cents);
      }
    } else {
      var i :| i in s && !StaysBelow(i, t, usage, a.singleMax);
      AcceptsJustAbove(i, t, usage, a.singleMax);
      JustAboveIsAbove(i, t, a.singleMax);
      assert Accepts(i, t, JustAbove(i, t, a.singleMax), usage);
    }
  }

  lemma JustAboveIsAbove(i: Instance, t: string, bound: int)
    ensures JustAbove(i, t, bound) > bound && JustAbove(i, t, bound) > 0
  {
  }

  /**
   Where no daily limits interfere this comes down to the order of the instances: the shown maximum is sound
   if and only if all are limited or the last one is not.
   */
  lemma MaximumSoundByOrder(s: seq<Instance>, t: string, usage: map<string, int>, a: Aggregate)
    requires Summarises(s, t, usage, a) && s != []
    requires forall i :: i in s ==> LimitsOf(i, t).dailyLimit == 0
    ensures MaximumIsSound(s, t, usage, a) <==>
            (forall i :: i in s ==> LimitsOf(i, t).singleMax > 0) || LimitsOf(s[|s| - 1], t).singleMax == 0
  {
    var k := LimitedFrom(s, t);
    if k == |s| {
      hide RemainingSummary, MinSummary;
      PreviousIsMember(s, k);
    } else {
      hide RemainingSummary, MinSummary;
      MaximumSoundExactly(s, t, usage, a);
      forall i | i in s && LimitsOf(i, t).singleMax > 0 && k == 0 ensures StaysBelow(i, t, usage, a.singleMax) {
        var j :| 0 <= j < |s| && s[j] == i;
      }
      PreviousIsMember(s, k);
      assert k == 0 ==> forall i :: i in s ==> LimitsOf(i, t).singleMax > 0;
    }
  }

  /** A daily limit without a maximum, then a maximum of 500: 500 is shown, and the first one accepts more. */
  lemma MaximumUnsound(t: string)
    ensures var l := [ChannelLimits(0, 0, 100_000), ChannelLimits(0, 500, 100_000)];
            var s := [Instance("a", "easypay", 0, [], map[t := l[0]]), Instance("b", "easypay", 1, [], map[t := l[1]])];
            var a := Aggregate(0, 500, false, Some(100_000), true);
            Summarises(s, t, map[], a) && !MaximumIsSound(s, t, map[], a)
  {
    var l := [ChannelLimits(0, 0, 100_000), ChannelLimits(0, 500, 100_000)];
    var s := [Instance("a", "easypay", 0, [], map[t := l[0]]), Instance("b", "easypay", 1, [], map[t := l[1]])];
    var a := Aggregate(0, 500, false, Some(100_000), true);
    assert LimitsOf(s[0], t) == l[0] && LimitsOf(s[1], t) == l[1];
    assert s[..1] == [s[0]] && LimitedFrom(s, t) == 1 && DailyFrom(s, t) == 0;
    assert Remaining(s[0], t, map[]) == 100_000;
    assert s[0] in s && Accepts(s[0], t, 501, map[]);
  }

  /** An instance whose minimum is all it has left still accepts exactly that amount, although it counts as blocked. */
  predicate LastPenny(i: Instance, t: string, usage: map<string, int>, cents: int) {
    LimitsOf(i, t).dailyLimit > 0 && cents == LimitsOf(i, t).singleMin == Remaining(i, t, usage)
  }

  /** What an instance with a daily limit accepts is within its remaining capacity. */
  lemma AcceptedIsWithinDay(i: Instance, t: string, usage: map<string, int>, cents: int)
    requires LimitsOf(i, t).dailyLimit > 0 && cents > 0 && Accepts(i, t, cents, usage)
    ensures cents <= Remaining(i, t, usage)
    ensures Blocked(i, t, usage) ==> LastPenny(i, t, usage, cents)
  {
  }

  /** With a daily limit on every instance the shown capacity is sound, up to the last-penny amounts. */
  lemma CapacityIsSound(s: seq<Instance>, t: string, usage: map<string, int>, a: Aggregate, i: Instance, cents: int)
    requires Summarises(s, t, usage, a) && i in s && cents > 0 && Accepts(i, t, cents, usage)
    requires forall j :: j in s ==> LimitsOf(j, t).dailyLimit > 0
    ensures (a.maxRemaining.Some? && cents <= a.maxRemaining.value) || LastPenny(i, t, usage, cents)
  {
    PreviousIsMember(s, DailyFrom(s, t));
    var j :| 0 <= j < |s| && s[j] == i;
    AcceptedIsWithinDay(i, t, usage, cents);
  }

  /**
   The shown capacity, when there is one, is sound up to the last-penny amounts if and only if every instance
   stays below it or is blocked.
   */
  lemma CapacitySoundExactly(s: seq<Instance>, t: string, usage: map<string, int>, a: Aggregate)
    requires Summarises(s, t, usage, a) && a.maxRemaining.Some?
    ensures (forall i, cents :: i in s && cents > 0 && Accepts(i, t, cents, usage) ==>
               cents <= a.maxRemaining.value || LastPenny(i, t, usage, cents)) <==>
            (forall i :: i in s ==> StaysBelow(i, t, usage, a.maxRemaining.value) || Blocked(i, t, usage))
  {
    var bound := a.maxRemaining.value;
    CapacityIsPositive(s, t, usage, a);
    hide Summarises, StaysBelow, Accepts, JustAbove, Blocked, LastPenny, LimitsOf;
    if forall i :: i in s ==> StaysBelow(i, t, usage, bound) || Blocked(i, t, usage) {
      forall i, cents | i in s && cents > 0 && Accepts(i, t, cents, usage)
        ensures cents <= bound || LastPenny(i, t, usage, cents)
      {
        if StaysBelow(i, t, usage, bound) {
          StaysBelowBounds(i, t, usage, bound, cents);
        } else {
          BlockedAcceptsLastPenny(i, t, usage, cents);
        }
      }
    } else {
      var i :| i in s && !StaysBelow(i, t, usage, bound) && !Blocked(i, t, usage);
      AcceptsJustAbove(i, t, usage, bound);
      JustAboveIsAbove(i, t, bound);
      OpenHasNoLastPenny(i, t, usage, JustAbove(i, t, bound));
      assert Accepts(i, t, JustAbove(i, t, bound), usage);
    }
  }

  lemma CapacityIsPositive(s: seq<Instance>, t: string, usage: map<string, int>, a: Aggregate)
    requires Summarises(s, t, usage, a) && a.maxRemaining.Some?
    ensures a.maxRemaining.value > 0
  {
    hide MinSummary, MaxSummary;
  }

  lemma BlockedAcceptsLastPenny(i: Instance, t: string, usage: map<string, int>, cents: int)
    requires Blocked(i, t, usage) && cents > 0 && Accepts(i, t, cents, usage)
    ensures LastPenny(i, t, usage, cents)
  {
    AcceptedIsWithinDay(i, t, usage, cents);
  }

  lemma OpenHasNoLastPenny(i: Instance, t: string, usage: map<string, int>, cents: int)
    requires !Blocked(i, t, usage)
    ensures !LastPenny(i, t, usage, cents)
  {
  }

  /** Where no single maxima interfere this means that every instance has a daily limit. */
  lemma CapacitySoundByDays(s: seq<Instance>, t: string, usage: map<string, int>, a: Aggregate)
    requires Summarises(s, t, usage, a) && a.maxRemaining.Some?
    requires forall i :: i in s ==> LimitsOf(i, t).singleMax == 0
    ensures (forall i, cents :: i in s && cents > 0 && Accepts(i, t, cents, usage) ==>
               cents <= a.maxRemaining.value || LastPenny(i, t, usage, cents)) <==>
            (forall i :: i in s ==> LimitsOf(i, t).dailyLimit > 0)
  {
    if forall i :: i in s ==> LimitsOf(i, t).dailyLimit > 0 {
      forall i, cents | i in s && cents > 0 && Accepts(i, t, cents, usage)
        ensures cents <= a.maxRemaining.value || LastPenny(i, t, usage, cents)
      {
        CapacityIsSound(s, t, usage, a, i, cents);
      }
    } else {
      CapacitySoundExactly(s, t, usage, a);
      hide Summarises;
    }
  }

  /** An instance without a daily limit, then one with 100 left: 100 is shown, and the first one accepts more. */
  lemma CapacityUnsound(t: string)
    ensures var l := ChannelLimits(0, 0, 100);
            var s := [Instance("a", "easypay", 0, [], map[]), Instance("b", "easypay", 1, [], map[t := l])];
            var a := Aggregate(0, 0, false, Some(100), true);
            && Summarises(s, t, map[], a) && Accepts(s[0], t, 101, map[]) && !LastPenny(s[0], t, map[], 101)
  {
    var l := ChannelLimits(0, 0, 100);
    var s := [Instance("a", "easypay", 0, [], map[]), Instance("b", "easypay", 1, [], map[t := l])];
    assert LimitsOf(s[0], t) == ChannelLimits(0, 0, 0) && LimitsOf(s[1], t) == l;
    assert s[..1] == [s[0]] && LimitedFrom(s, t) == 2 && DailyFrom(s, t) == 1;
    assert Remaining(s[1], t, map[]) == 100 && !Blocked(s[1], t, map[]);
  }

  /** A minimum never above the maximum. */
  predicate WellFormed(i: Instance, t: string) {
    LimitsOf(i, t).singleMax == 0 || LimitsOf(i, t).singleMin <= LimitsOf(i, t).singleMax
  }

  lemma OpenAccepts(i: Instance, t: string, usage: map<string, int>)
    requires WellFormed(i, t) && !Blocked(i, t, usage)
    ensures Accepts(i, t, Max(LimitsOf(i, t).singleMin, 1), usage)
  {
  }

  /**
   A method is shown as blocked by the day exactly when no instance accepts any amount, except that an
   instance that can take its own minimum and nothing else is overlooked.
   */
  lemma BlockedMeansNothingAccepted(s: seq<Instance>, t: string, usage: map<string, int>, a: Aggregate)
    requires Summarises(s, t, usage, a) && s != []
    requires forall i :: i in s ==> WellFormed(i, t)
    ensures (exists i, cents :: i in s && cents > 0 && Accepts(i, t, cents, usage)) <==>
            !a.allBlocked || exists i, cents :: i in s && cents > 0 && LastPenny(i, t, usage, cents)
  {
    hide MinSummary, MaxSummary, RemainingSummary;
    if !a.allBlocked {
      var k :| 0 <= k < |s| && !Blocked(s[k], t, usage);
      assert s[k] in s;
      OpenAccepts(s[k], t, usage);
    } else if i, cents :| i in s && cents > 0 && LastPenny(i, t, usage, cents) {
      assert WellFormed(i, t);
      assert Accepts(i, t, cents, usage);
    } else {
      forall i, cents | i in s && cents > 0 && Accepts(i, t, cents, usage) ensures false {
        var k :| 0 <= k < |s| && s[k] == i;
        AcceptedIsWithinDay(i, t, usage, cents);
      }
    }
  }

  // ---- choosing an instance ----

  datatype Selection = Selected(id: string) | NoInstance | Unavailable

  /** Position `i` comes before `j`: by sort order, then by position. */
  predicate Before(s: seq<Instance>, i: nat, j: nat)
    requires i < |s| && j < |s|
  {
    s[i].sortOrder < s[j].sortOrder || (s[i].sortOrder == s[j].sortOrder && i < j)
  }

  ghost predicate Ordered(s: seq<Instance>, order: seq<nat>) {
    && (forall k :: 0 <= k < |order| ==> order[k] < |s|)
    && (forall k, l :: 0 <= k < l < |order| ==> Before(s, order[k], order[l]))
  }

  /** The positions of the first `n` instances in stable sort order. */
  method SortByOrder(s: seq<Instance>) returns (order: seq<nat>)
    ensures Ordered(s, order)
    ensures forall i :: i in order <==> 0 <= i < |s|
  {
    order := [];
    var n := 0;
    while n < |s|
      invariant 0 <= n <= |s| && Ordered(s, order)
      invariant forall i :: i in order <==> 0 <= i < n
    {
      var k := |order|;
      while k > 0 && s[n].sortOrder < s[order[k - 1]].sortOrder
        invariant 0 <= k <= |order|
        invariant forall l :: k <= l < |order| ==> s[n].sortOrder < s[order[l]].sortOrder
      {
        k := k - 1;
      }
      InsertKeepsOrder(s, order, n, k);
      order := order[..k] + [n] + order[k..];
      n := n + 1;
    }
  }

  lemma InsertKeepsOrder(s: seq<Instance>, order: seq<nat>, n: nat, k: nat)
    requires n < |s| && Ordered(s, order) && k <= |order|
    requires forall i :: i in order <==> 0 <= i < n
    requires forall l :: k <= l < |order| ==> s[n].sortOrder < s[order[l]].sortOrder
    requires k > 0 ==> s[order[k - 1]].sortOrder <= s[n].sortOrder
    ensures Ordered(s, order[..k] + [n] + order[k..])
    ensures forall i :: i in order[..k] + [n] + order[k..] <==> 0 <= i < n + 1
  {
    var next := order[..k] + [n] + order[k..];
    InsertMembers(order, n, k);
    forall i, j | 0 <= i < j < |next| ensures Before(s, next[i], next[j]) {
      InsertBefore(s, order, n, k, i, j);
    }
  }

  lemma InsertMembers(order: seq<nat>, n: nat, k: nat)
    requires k <= |order|
    ensures forall i :: i in order[..k] + [n] + order[k..] <==> i in order || i == n
  {
    assert order == order[..k] + order[k..];
  }

  lemma InsertBefore(s: seq<Instance>, order: seq<nat>, n: nat, k: nat, i: nat, j: nat)
    requires n < |s| && Ordered(s, order) && k <= |order| && i < j <= |order|
    requires forall l :: l in order <==> 0 <= l < n
    requires forall l :: k <= l < |order| ==> s[n].sortOrder < s[order[l]].sortOrder
    requires k > 0 ==> s[order[k - 1]].sortOrder <= s[n].sortOrder
    ensures var next := order[..k] + [n] + order[k..]; next[j] < |s| && next[i] < |s| && Before(s, next[i], next[j])
  {
    var next := order[..k] + [n] + order[k..];
    var a := if i < k then i else i - 1;
    var b := j - 1;
    if j < k {
      assert next[i] == order[i] && next[j] == order[j];
    } else if j == k {
      assert next[i] == order[i] && next[j] == n && order[i] in order;
      assert i < k - 1 ==> Before(s, order[i], order[k - 1]);
    } else if i == k {
      assert next[i] == n && next[j] == order[b];
    } else {
      assert next[i] == order[a] && next[j] == order[b];
    }
  }

  /** The provider of the type, and the type is among those listed, if any are. */
  ghost predicate Serves(i: Instance, t: string) {
    ProviderKeyForType(t) == Some(i.providerKey) && (i.supportedTypes == [] || t in i.supportedTypes)
  }

  /** Within every limit the instance has for the type; a limit of 0 is none. */
  ghost predicate Takes(i: Instance, t: string, cents: int, usage: map<string, int>) {
    t in i.limits ==>
      && (i.limits[t].singleMin > 0 ==> i.limits[t].singleMin <= cents)
      && (i.limits[t].singleMax > 0 ==> cents <= i.limits[t].singleMax)
      && (i.limits[t].dailyLimit > 0 ==> (if i.id in usage then usage[i.id] else 0) + cents <= i.limits[t].dailyLimit)
  }

  lemma AcceptsExactly(i: Instance, t: string, cents: int, usage: map<string, int>)
    ensures Matches(i, t) <==> Serves(i, t)
    ensures Accepts(i, t, cents, usage) <==> Takes(i, t, cents, usage)
  {
    hide ProviderKeyForType;
  }

  /** The instance at `i` takes the order, and none that takes it comes before. */
  ghost predicate FirstAccepting(s: seq<Instance>, t: string, cents: int, usage: map<string, int>, i: nat) {
    && i < |s| && Serves(s[i], t) && Takes(s[i], t, cents, usage)
    && forall j: nat :: j < |s| && Serves(s[j], t) && Takes(s[j], t, cents, usage) ==> i == j || Before(s, i, j)
  }

  /** There are instances for the type, and every one of them rejects the amount. */
  ghost predicate AllReject(s: seq<Instance>, t: string, cents: int, usage: map<string, int>) {
    (exists i :: i in s && Serves(i, t)) && forall i :: i in s && Serves(i, t) ==> !Takes(i, t, cents, usage)
  }

  /**
   The first instance in sort order, ties by position, that supports the type and accepts the amount with
   its fee.  It fails exactly when the amount is not positive, or some instances support the type and all
   of them reject the amount.
   */
  method ResolvePaymentSelection(s: seq<Instance>, t: string, amount: int, bps: int, usage: map<string, int>)
    returns (r: Selection)
    ensures r.Selected? ==> amount > 0 && exists i: nat ::
              FirstAccepting(s, t, PayAmount(amount, bps), usage, i) && s[i].id == r.id
    ensures r.NoInstance? <==> amount > 0 && forall i :: i in s ==> !Serves(i, t)
    ensures r.Unavailable? <==> (amount <= 0 || AllReject(s, t, PayAmount(amount, bps), usage))
  {
    if amount <= 0 {
      return Unavailable;
    }
    var payCents := PayAmount(amount, bps);
    forall i | i in s
      ensures (Matches(i, t) <==> Serves(i, t)) && (Accepts(i, t, payCents, usage) <==> Takes(i, t, payCents, usage))
    {
      AcceptsExactly(i, t, payCents, usage);
    }
    var order := SortByOrder(s);
    if ProviderKeyForType(t).None? {
      return NoInstance;
    }
    hide Accepts, Matches, Takes, PayAmount;
    var k := 0;
    var matching := false;
    while k < |order|
      invariant 0 <= k <= |order|
      invariant matching <==> exists l :: 0 <= l < k && Matches(s[order[l]], t)
      invariant forall l :: 0 <= l < k && Matches(s[order[l]], t) ==> !Accepts(s[order[l]], t, payCents, usage)
    {
      if Matches(s[order[k]], t) {
        matching := true;
        if Accepts(s[order[k]], t, payCents, usage) {
          ghost var i := order[k];
          forall j: nat | j < |s| && Serves(s[j], t) && Takes(s[j], t, payCents, usage)
            ensures i == j || Before(s, i, j)
          {
            assert j in order;
            var l :| 0 <= l < |order| && order[l] == j;
          }
          assert FirstAccepting(s, t, payCents, usage, i);
          return Selected(s[order[k]].id);
        }
      }
      k := k + 1;
    }
    forall i | i in s && Serves(i, t) ensures matching && !Takes(i, t, payCents, usage) {
      var j :| 0 <= j < |s| && s[j] == i;
      assert j in order;
      var l :| 0 <= l < |order| && order[l] == j;
    }
    r := if matching then Unavailable else NoInstance;
  }
}
