/**
 EasyPay request signing and notification checking (src/payment_provider.rs).  The hash, the decimal reader
 and the byte encoding of strings are parameters.
 */
module EasyPay {
  import opened Common
  import opened SecureEquality
  import opened Strings

  datatype Param = Param(key: string, value: string)

  predicate IsKept(p: Param) {
    p.key != "sign" && p.key != "sign_type" && p.value != ""
  }

  function Kept(params: seq<Param>): (r: seq<Param>)
    ensures forall p :: p in r <==> p in params && IsKept(p)
  {
    if params == [] then []
    else
      var n := |params| - 1;
      Kept(params[..n]) + if IsKept(params[n]) then [params[n]] else []
  }

  // ---- sorting by key ----

  /** String order: the first difference decides, a proper prefix comes first. */
  predicate Less(a: string, b: string) {
    if b == "" then false
    else if a == "" then true
    else if a[0] == b[0] then Less(a[1..], b[1..])
    else a[0] < b[0]
  }

  /** The strings agree up to position `k`, where the first one ends or has the smaller character. */
  ghost predicate DiffersAt(a: string, b: string, k: nat) {
    k <= |a| && k < |b| && a[..k] == b[..k] && (k == |a| || a[k] < b[k])
  }

  lemma {:induction false} LessMeansFirstDifference(a: string, b: string)
    ensures Less(a, b) <==> exists k: nat :: DiffersAt(a, b, k)
  {
    if a == "" && b != "" {
      assert DiffersAt(a, b, 0);
    } else if a != "" && b != "" && a[0] == b[0] {
      LessMeansFirstDifference(a[1..], b[1..]);
      if k: nat :| DiffersAt(a[1..], b[1..], k) {
        assert a[..k + 1] == [a[0]] + a[1..][..k] && b[..k + 1] == [b[0]] + b[1..][..k];
        assert DiffersAt(a, b, k + 1);
      }
      if k: nat :| DiffersAt(a, b, k) {
        assert k > 0;
        assert a[1..][..k - 1] == a[..k][1..] && b[1..][..k - 1] == b[..k][1..];
        assert DiffersAt(a[1..], b[1..], k - 1);
      }
    } else if a != "" && b != "" {
      if a[0] < b[0] {
        assert DiffersAt(a, b, 0);
      }
      forall k: nat | DiffersAt(a, b, k) ensures Less(a, b) {
        assert k > 0 ==> a[..k][0] == b[..k][0];
      }
    }
  }

  lemma {:induction false} LessTotal(a: string, b: string)
    ensures Less(a, b) || a == b || Less(b, a)
    ensures !(Less(a, b) && Less(b, a)) && !Less(a, a)
  {
    if a != "" && b != "" && a[0] == b[0] {
      LessTotal(a[1..], b[1..]);
      assert a == [a[0]] + a[1..] && b == [b[0]] + b[1..];
    }
    if a != "" {
      LessTotal(a[1..], a[1..]);
    }
  }

  lemma {:induction false} LessTransitive(a: string, b: string, c: string)
    requires Less(a, b) && Less(b, c)
    ensures Less(a, c)
  {
    if a != "" && a[0] == b[0] && b[0] == c[0] {
      LessTransitive(a[1..], b[1..], c[1..]);
    }
  }

  /** A stable sort, one element at a time. */
  function Insert(s: seq<Param>, p: Param): seq<Param> {
    if s == [] || Less(p.key, s[0].key) then [p] + s else [s[0]] + Insert(s[1..], p)
  }

  function Sort(params: seq<Param>): seq<Param> {
    if params == [] then [] else Insert(Sort(params[..|params| - 1]), params[|params| - 1])
  }

  ghost predicate Sorted(s: seq<Param>) {
    forall i, j :: 0 <= i < j < |s| ==> Less(s[i].key, s[j].key)
  }

  ghost predicate DistinctKeys(s: seq<Param>) {
    forall i, j :: 0 <= i < j < |s| ==> s[i].key != s[j].key
  }

  /** The same pairs, in whatever order and number. */
  ghost predicate SamePairs(a: seq<Param>, b: seq<Param>) {
    forall p :: p in a <==> p in b
  }

  lemma {:induction false} InsertMembers(s: seq<Param>, p: Param, q: Param)
    ensures q in Insert(s, p) <==> q == p || q in s
  {
    if s != [] && !Less(p.key, s[0].key) {
      InsertMembers(s[1..], p, q);
      assert s == [s[0]] + s[1..];
    }
  }

  lemma {:induction false} InsertSorts(s: seq<Param>, p: Param)
    requires Sorted(s) && forall q :: q in s ==> q.key != p.key
    ensures Sorted(Insert(s, p))
  {
    if s == [] {
    } else if Less(p.key, s[0].key) {
      forall j | 0 <= j < |s| ensures Less(p.key, s[j].key) {
        if j > 0 {
          LessTransitive(p.key, s[0].key, s[j].key);
        }
      }
    } else {
      InsertSorts(s[1..], p);
      var rest := Insert(s[1..], p);
      LessTotal(p.key, s[0].key);
      forall j | 0 <= j < |rest| ensures Less(s[0].key, rest[j].key) {
        InsertMembers(s[1..], p, rest[j]);
      }
    }
  }

  /** Sorting keeps the pairs and, for distinct keys, puts them in strict order. */
  lemma {:induction false} SortSorts(params: seq<Param>)
    ensures SamePairs(Sort(params), params)
    ensures DistinctKeys(params) ==> Sorted(Sort(params))
  {
    if params != [] {
      var n := |params| - 1;
      SortSorts(params[..n]);
      assert params == params[..n] + [params[n]];
      forall q ensures q in Sort(params) <==> q in params {
        InsertMembers(Sort(params[..n]), params[n], q);
      }
      if DistinctKeys(params) {
        InsertSorts(Sort(params[..n]), params[n]);
      }
    }
  }

  /** Only one strict order of a set of pairs exists. */
  lemma {:induction false} SortedUnique(a: seq<Param>, b: seq<Param>)
    requires Sorted(a) && Sorted(b) && SamePairs(a, b)
    ensures a == b
  {
    if a == [] {
      assert forall i :: 0 <= i < |b| ==> b[i] in b;
    } else {
      assert a[0] in b;
      assert b[0] in a;
      FirstIsLeast(a, b);
      TailsMatch(a, b);
      SortedUnique(a[1..], b[1..]);
      assert a == [a[0]] + a[1..] && b == [b[0]] + b[1..];
    }
  }

  lemma FirstIsLeast(a: seq<Param>, b: seq<Param>)
    requires Sorted(a) && Sorted(b) && a != [] && b != [] && a[0] in b && b[0] in a
    ensures a[0] == b[0]
  {
    LessTotal(a[0].key, b[0].key);
    FirstOrLater(b, a[0]);
    FirstOrLater(a, b[0]);
  }

  lemma FirstOrLater(s: seq<Param>, p: Param)
    requires Sorted(s) && p in s
    ensures s[0] == p || Less(s[0].key, p.key)
  {
    var i :| 0 <= i < |s| && s[i] == p;
  }

  lemma TailsMatch(a: seq<Param>, b: seq<Param>)
    requires Sorted(a) && Sorted(b) && SamePairs(a, b) && a != [] && b != [] && a[0] == b[0]
    ensures SamePairs(a[1..], b[1..])
  {
    forall p ensures p in a[1..] ==> p in b[1..] {
      if p in a[1..] {
        TailOf(a, b, p);
      }
    }
    forall p ensures p in b[1..] ==> p in a[1..] {
      if p in b[1..] {
        TailOf(b, a, p);
      }
    }
  }

  lemma TailOf(a: seq<Param>, b: seq<Param>, p: Param)
    requires Sorted(a) && SamePairs(a, b) && a != [] && b != [] && a[0] == b[0] && p in a[1..]
    ensures p in b[1..]
  {
    var i :| 0 <= i < |a| - 1 && a[1..][i] == p;
    assert Less(a[0].key, a[i + 1].key);
    LessTotal(p.key, p.key);
    assert p in a && p != b[0];
    assert b == [b[0]] + b[1..];
  }

  // ---- the signed string ----

  function Join(s: seq<Param>): string {
    if s == [] then ""
    else if |s| == 1 then s[0].key + "=" + s[0].value
    else s[0].key + "=" + s[0].value + "&" + Join(s[1..])
  }

  function SignInput(params: seq<Param>, pkey: string): string {
    Join(Sort(Kept(params))) + pkey
  }

  lemma {:induction false} KeptDistinct(params: seq<Param>)
    requires DistinctKeys(params)
    ensures DistinctKeys(Kept(params))
  {
    if params != [] {
      var n := |params| - 1;
      KeptDistinct(params[..n]);
      forall p | p in Kept(params[..n]) ensures p.key != params[n].key {
        assert p in params[..n];
      }
    }
  }

  /** The signed string depends only on the set of pairs that are kept. */
  lemma SigningIsCanonical(a: seq<Param>, b: seq<Param>, pkey: string)
    requires DistinctKeys(a) && DistinctKeys(b) && SamePairs(Kept(a), Kept(b))
    ensures SignInput(a, pkey) == SignInput(b, pkey)
  {
    KeptDistinct(a);
    KeptDistinct(b);
    SortSorts(Kept(a));
    SortSorts(Kept(b));
    SortedUnique(Sort(Kept(a)), Sort(Kept(b)));
  }

  /** No separator inside a key, no pair separator inside a value. */
  predicate Plain(p: Param) {
    '=' !in p.key && '&' !in p.key && '&' !in p.value
  }

  ghost predicate AllPlain(s: seq<Param>) {
    forall p :: p in s ==> Plain(p)
  }

  function Pair(p: Param): string {
    p.key + "=" + p.value
  }

  lemma FirstPartDetermined(a: string, b: string, a': string, b': string, c: char)
    requires a + [c] + b == a' + [c] + b' && c !in a && c !in a'
    ensures a == a' && b == b'
  {
    if |a| < |a'| {
      EarlierHolds(a, b, a', b', c);
    } else if |a'| < |a| {
      EarlierHolds(a', b', a, b, c);
    } else {
      var s := a + [c] + b;
      assert a == s[..|a|] && a' == s[..|a|] && b == s[|a| + 1..] && b' == s[|a| + 1..];
    }
  }

  lemma EarlierHolds(a: string, b: string, a': string, b': string, c: char)
    requires a + [c] + b == a' + [c] + b' && |a| < |a'|
    ensures c in a'
  {
    assert (a + [c] + b)[|a|] == c;
    assert a'[|a|] == (a' + [c] + b')[|a|];
  }

  lemma PairDetermined(p: Param, q: Param)
    requires Plain(p) && Plain(q) && Pair(p) == Pair(q)
    ensures p == q
  {
    FirstPartDetermined(p.key, p.value, q.key, q.value, '=');
  }

  lemma {:induction false} JoinDetermined(a: seq<Param>, b: seq<Param>)
    requires AllPlain(a) && AllPlain(b) && Join(a) == Join(b)
    ensures a == b
  {
    if a != [] && b != [] {
      assert a[0] in a && b[0] in b;
      var p, q := Pair(a[0]), Pair(b[0]);
      assert '&' !in p && '&' !in q;
      if |a| > 1 && |b| > 1 {
        assert Join(a) == p + ['&'] + Join(a[1..]) && Join(b) == q + ['&'] + Join(b[1..]);
        FirstPartDetermined(p, Join(a[1..]), q, Join(b[1..]), '&');
        PairDetermined(a[0], b[0]);
        JoinDetermined(a[1..], b[1..]);
        assert a == [a[0]] + a[1..] && b == [b[0]] + b[1..];
      } else if |a| == 1 && |b| == 1 {
        PairDetermined(a[0], b[0]);
      } else {
        OneIsNotMany(a, b);
      }
    }
  }

  lemma OneIsNotMany(a: seq<Param>, b: seq<Param>)
    requires a != [] && b != [] && AllPlain(a) && AllPlain(b) && (|a| == 1) != (|b| == 1)
    ensures Join(a) != Join(b)
  {
    assert a[0] in a && b[0] in b;
    assert |a| > 1 ==> Join(a)[|Pair(a[0])|] == '&';
    assert |b| > 1 ==> Join(b)[|Pair(b[0])|] == '&';
  }

  function Pairs(s: seq<Param>): (r: seq<string>)
    ensures |r| == |s| && forall i :: 0 <= i < |s| ==> r[i] == s[i].key + "=" + s[i].value
  {
    seq(|s|, i requires 0 <= i < |s| => s[i].key + "=" + s[i].value)
  }

  lemma {:induction false} JoinComesApart(s: seq<Param>)
    requires AllPlain(s) && s != []
    ensures Split(Join(s), '&') == Pairs(s)
  {
    assert s[0] in s;
    var p := s[0].key + "=" + s[0].value;
    if |s| == 1 {
      SplitLast(p, '&');
    } else {
      JoinComesApart(s[1..]);
      assert Join(s) == p + ['&'] + Join(s[1..]);
      SplitFirst(p, Join(s[1..]), '&');
      assert Pairs(s) == [p] + Pairs(s[1..]);
    }
  }

  /**
   What is signed is the kept pairs in key order, as key=value with & between them, and the merchant's key right
   after them.
   */
  lemma SignInputComesApart(params: seq<Param>, pkey: string) returns (s: seq<Param>, body: string)
    requires DistinctKeys(params) && AllPlain(Kept(params))
    ensures Sorted(s) && |s| == |Kept(params)| && SamePairs(s, Kept(params)) && SignInput(params, pkey) == body + pkey
    ensures if s == [] then body == "" else Split(body, '&') == Pairs(s)
  {
    s := Sort(Kept(params));
    body := Join(s);
    KeptDistinct(params);
    SortSorts(Kept(params));
    SortLength(Kept(params));
    if s != [] {
      JoinComesApart(s);
    }
  }

  lemma {:induction false} SortLength(params: seq<Param>)
    ensures |Sort(params)| == |params|
  {
    if params != [] {
      SortLength(params[..|params| - 1]);
      InsertLength(Sort(params[..|params| - 1]), params[|params| - 1]);
    }
  }

  lemma {:induction false} InsertLength(s: seq<Param>, p: Param)
    ensures |Insert(s, p)| == |s| + 1
  {
    if s != [] {
      InsertLength(s[1..], p);
    }
  }

  /** For plain pairs with distinct keys the signed string identifies the set of pairs it was made from. */
  lemma SignInputIdentifiesPairs(a: seq<Param>, b: seq<Param>, pkey: string)
    requires DistinctKeys(a) && DistinctKeys(b) && AllPlain(Kept(a)) && AllPlain(Kept(b))
    ensures SignInput(a, pkey) == SignInput(b, pkey) <==> SamePairs(Kept(a), Kept(b))
  {
    if SamePairs(Kept(a), Kept(b)) {
      SigningIsCanonical(a, b, pkey);
    } else if SignInput(a, pkey) == SignInput(b, pkey) {
      SortSorts(Kept(a));
      SortSorts(Kept(b));
      var x, y := Join(Sort(Kept(a))), Join(Sort(Kept(b)));
      assert x == (x + pkey)[..|x|] && y == (y + pkey)[..|y|];
      JoinDetermined(Sort(Kept(a)), Sort(Kept(b)));
    }
  }

  /** Signing reads the parameters, keeps what is to be signed, sorts it and hashes it with the key. */
  method GenerateEasyPaySign(params: seq<Param>, pkey: string, hash: string -> string) returns (sign: string)
    ensures sign == hash(SignInput(params, pkey))
  {
    var filtered: seq<Param> := [];
    var i := 0;
    while i < |params|
      invariant 0 <= i <= |params| && filtered == Kept(params[..i])
    {
      if params[i].key != "sign" && params[i].key != "sign_type" && params[i].value != "" {
        filtered := filtered + [params[i]];
      }
      assert params[..i + 1][..i] == params[..i];
      i := i + 1;
    }
    assert params[..i] == params;
    filtered := SortByKey(filtered);
    var query := "";
    i := |filtered|;
    while i > 0
      invariant 0 <= i <= |filtered| && query == Join(filtered[i..])
    {
      i := i - 1;
      var pair := filtered[i].key + "=" + filtered[i].value;
      assert filtered[i..][1..] == filtered[i + 1..];
      query := if i + 1 == |filtered| then pair else pair + "&" + query;
    }
    sign := hash(query + pkey);
  }

  method SortByKey(params: seq<Param>) returns (sorted: seq<Param>)
    ensures sorted == Sort(params)
  {
    sorted := [];
    var n := 0;
    while n < |params|
      invariant 0 <= n <= |params| && sorted == Sort(params[..n])
    {
      assert params[..n + 1][..n] == params[..n];
      sorted := InsertByKey(sorted, params[n]);
      n := n + 1;
    }
    assert params[..n] == params;
  }

  method InsertByKey(s: seq<Param>, p: Param) returns (r: seq<Param>)
    ensures r == Insert(s, p)
  {
    hide Less;
    var k := 0;
    while k < |s| && !Less(p.key, s[k].key)
      invariant 0 <= k <= |s| && Insert(s, p) == s[..k] + Insert(s[k..], p)
    {
      InsertSkips(s, p, k);
      k := k + 1;
    }
    r := s[..k] + ([p] + s[k..]);
  }

  lemma InsertSkips(s: seq<Param>, p: Param, k: nat)
    requires k < |s| && !Less(p.key, s[k].key)
    ensures s[..k] + Insert(s[k..], p) == s[..k + 1] + Insert(s[k + 1..], p)
  {
    hide Less;
    assert s[k..][1..] == s[k + 1..];
  }

  // ---- notifications ----

  type Params = map<string, string>

  datatype Notification = Notification(tradeNo: string, orderId: string, cents: int, success: bool)

  datatype Failure = MissingSign | BadSignature | PidMismatch | InvalidAmount

  datatype Verdict = Accepted(notification: Notification) | Rejected(reason: Failure)

  function ValueOf(params: Params, key: string): string {
    if key in params then params[key] else ""
  }

  /** The decoded query: of a repeated key the last value counts. */
  function Decoded(received: seq<Param>): Params {
    if received == [] then map[]
    else
      var n := |received| - 1;
      Decoded(received[..n])[received[n].key := received[n].value]
  }

  /** The entries in the order in which the map is walked, which nothing determines. */
  ghost predicate Walks(order: seq<string>, params: Params) {
    (forall i, j :: 0 <= i < j < |order| ==> order[i] != order[j]) && forall k :: k in order <==> k in params
  }

  function Entries(params: Params, order: seq<string>): (r: seq<Param>)
    requires forall k :: k in order ==> k in params
    ensures |r| == |order| && forall i :: 0 <= i < |r| ==> r[i] == Param(order[i], params[order[i]])
  {
    seq(|order|, i requires 0 <= i < |order| => Param(order[i], params[order[i]]))
  }

  /** Reads an amount in cents out of its decimal notation, if it is one. */
  type Reader = string -> Option<int>

  function Judge(params: Params, expected: string, pid: string, cents: Reader): Verdict {
    if "sign" !in params then Rejected(MissingSign)
    else if params["sign"] != expected then Rejected(BadSignature)
    else if "pid" in params && params["pid"] != pid then Rejected(PidMismatch)
    else if "money" !in params || cents(params["money"]).GetOr(0) <= 0 then Rejected(InvalidAmount)
    else
      Accepted(Notification(ValueOf(params, "trade_no"), ValueOf(params, "out_trade_no"),
        cents(params["money"]).value, ValueOf(params, "trade_status") == "TRADE_SUCCESS"))
  }

  /** Injective, as UTF-8 is. */
  ghost predicate Faithful(bytes: string -> seq<byte>) {
    forall a, b :: bytes(a) == bytes(b) ==> a == b
  }

  method VerifyEasyPayNotification(received: seq<Param>, walk: seq<string>, pid: string, pkey: string,
                                   hash: string -> string, cents: Reader, bytes: string -> seq<byte>)
    returns (v: Verdict)
    requires Faithful(bytes) && Walks(walk, Decoded(received) - {"inst"})
    ensures var params := Decoded(received) - {"inst"};
            v == Judge(params, hash(SignInput(Entries(params, walk), pkey)), pid, cents)
    ensures var params := Decoded(received) - {"inst"};
            var genuine := "sign" in params && params["sign"] == hash(SignInput(Entries(params, walk), pkey));
            var foreign := "pid" in params && params["pid"] != pid;
            var paid := "money" in params && cents(params["money"]).Some? && cents(params["money"]).value > 0;
            && (v.Accepted? <==> genuine && !foreign && paid)
            && (v == Rejected(MissingSign) <==> "sign" !in params)
            && (v == Rejected(BadSignature) <==> "sign" in params && !genuine)
            && (v == Rejected(PidMismatch) <==> genuine && foreign)
            && (v == Rejected(InvalidAmount) <==> genuine && !foreign && !paid)
            && (v.Accepted? ==>
                  && cents(params["money"]) == Some(v.notification.cents)
                  && v.notification.orderId == (if "out_trade_no" in params then params["out_trade_no"] else "")
                  && v.notification.tradeNo == (if "trade_no" in params then params["trade_no"] else "")
                  && (v.notification.success <==>
                        "trade_status" in params && params["trade_status"] == "TRADE_SUCCESS"))
  {
    var params := Decoded(received) - {"inst"};
    if "sign" !in params {
      return Rejected(MissingSign);
    }
    var expected := GenerateEasyPaySign(Entries(params, walk), pkey, hash);
    var matches := SecureEquals(bytes(expected), bytes(params["sign"]));
    if !matches {
      return Rejected(BadSignature);
    }
    if "pid" in params && params["pid"] != pid {
      return Rejected(PidMismatch);
    }
    if "money" !in params {
      return Rejected(InvalidAmount);
    }
    var amount := cents(params["money"]);
    if amount.None? || amount.value <= 0 {
      return Rejected(InvalidAmount);
    }
    v := Accepted(Notification(ValueOf(params, "trade_no"), ValueOf(params, "out_trade_no"), amount.value,
      ValueOf(params, "trade_status") == "TRADE_SUCCESS"));
  }

  // ---- round trip ----

  lemma {:induction false} DecodedHolds(received: seq<Param>, k: string, v: string)
    requires DistinctKeys(received)
    ensures Param(k, v) in received <==> k in Decoded(received) && Decoded(received)[k] == v
  {
    if received != [] {
      var n := |received| - 1;
      DecodedHolds(received[..n], k, v);
      assert received == received[..n] + [received[n]];
      if received[n].key == k {
        assert forall i :: 0 <= i < n ==> received[..n][i].key != k;
      }
    }
  }

  lemma EntriesDistinct(params: Params, walk: seq<string>)
    requires Walks(walk, params)
    ensures DistinctKeys(Entries(params, walk))
  {
  }

  lemma EntriesArePairs(received: seq<Param>, walk: seq<string>, p: Param)
    requires DistinctKeys(received) && Walks(walk, Decoded(received) - {"inst"})
    ensures p in Entries(Decoded(received) - {"inst"}, walk) <==> p in received && p.key != "inst"
  {
    var params := Decoded(received) - {"inst"};
    var entries := Entries(params, walk);
    DecodedHolds(received, p.key, p.value);
    if p in entries {
      var i :| 0 <= i < |entries| && entries[i] == p;
      assert walk[i] in walk;
    }
    if p in received && p.key != "inst" {
      assert p.key in params && p.key in walk;
      var i :| 0 <= i < |walk| && walk[i] == p.key;
      assert entries[i] == p;
    }
  }

  /** What the sender adds to the parameters it signed; `inst` only names the instance the callback is for. */
  function Sent(signed: seq<Param>, sign: string, signType: string, inst: Option<string>): seq<Param> {
    signed + [Param("sign", sign), Param("sign_type", signType)] +
    if inst.Some? then [Param("inst", inst.value)] else []
  }

  predicate Signable(signed: seq<Param>) {
    forall i :: 0 <= i < |signed| ==> signed[i].key !in {"sign", "sign_type", "inst"}
  }

  /**
   The receiver computes the sender's signature, in whatever order the parameters arrive and the map is
   walked: exactly the pairs that were signed are signed again.
   */
  lemma ReceiverSignsTheSame(signed: seq<Param>, sign: string, signType: string, inst: Option<string>,
                             received: seq<Param>, walk: seq<string>, pkey: string)
    requires DistinctKeys(signed) && Signable(signed) && DistinctKeys(received)
    requires SamePairs(received, Sent(signed, sign, signType, inst))
    requires Walks(walk, Decoded(received) - {"inst"})
    ensures SignInput(Entries(Decoded(received) - {"inst"}, walk), pkey) == SignInput(signed, pkey)
  {
    var entries := Entries(Decoded(received) - {"inst"}, walk);
    EntriesDistinct(Decoded(received) - {"inst"}, walk);
    forall p ensures p in Kept(entries) <==> p in Kept(signed) {
      EntriesArePairs(received, walk, p);
      SentMembers(signed, sign, signType, inst, p);
    }
    SigningIsCanonical(entries, signed, pkey);
  }

  lemma SentMembers(signed: seq<Param>, sign: string, signType: string, inst: Option<string>, p: Param)
    requires Signable(signed)
    ensures IsKept(p) && p.key != "inst" ==> (p in Sent(signed, sign, signType, inst) <==> p in signed)
    ensures p in signed ==> p.key !in {"sign", "sign_type", "inst"}
  {
  }

  /** A notification signed with the right key is accepted, with its own fields. */
  lemma SignedNotificationAccepted(signed: seq<Param>, signType: string, inst: Option<string>, received: seq<Param>,
                                   walk: seq<string>, pid: string, pkey: string, hash: string -> string, cents: Reader,
                                   money: string)
    requires DistinctKeys(signed) && Signable(signed) && DistinctKeys(received)
    requires SamePairs(received, Sent(signed, hash(SignInput(signed, pkey)), signType, inst))
    requires Walks(walk, Decoded(received) - {"inst"})
    requires forall p :: p in signed && p.key == "pid" ==> p.value == pid
    requires Param("money", money) in signed && cents(money).GetOr(0) > 0
    ensures var params := Decoded(received) - {"inst"};
            var v := Judge(params, hash(SignInput(Entries(params, walk), pkey)), pid, cents);
            && v.Accepted? && v.notification.cents == cents(money).value
            && (forall o :: Param("out_trade_no", o) in signed ==> v.notification.orderId == o)
            && (forall o :: Param("trade_no", o) in signed ==> v.notification.tradeNo == o)
            && (v.notification.success <==> Param("trade_status", "TRADE_SUCCESS") in signed)
  {
    var sign := hash(SignInput(signed, pkey));
    ReceiverSignsTheSame(signed, sign, signType, inst, received, walk, pkey);
    SignArrives(signed, sign, signType, inst, received);
    var params := Decoded(received) - {"inst"};
    forall k, v | k !in {"sign", "sign_type", "inst"}
      ensures Param(k, v) in signed <==> k in params && params[k] == v
    {
      FieldArrives(signed, sign, signType, inst, received, k, v);
    }
    SignedFieldsAccepted(signed, params, sign, pid, cents, money);
  }

  lemma SignArrives(signed: seq<Param>, sign: string, signType: string, inst: Option<string>, received: seq<Param>)
    requires DistinctKeys(received) && SamePairs(received, Sent(signed, sign, signType, inst))
    ensures "sign" in Decoded(received) && Decoded(received)["sign"] == sign
  {
    var sent := Sent(signed, sign, signType, inst);
    assert sent[|signed|] == Param("sign", sign);
    assert Param("sign", sign) in received;
    DecodedHolds(received, "sign", sign);
  }

  lemma FieldArrives(signed: seq<Param>, sign: string, signType: string, inst: Option<string>, received: seq<Param>,
                     k: string, v: string)
    requires DistinctKeys(received) && SamePairs(received, Sent(signed, sign, signType, inst))
    requires k !in {"sign", "sign_type", "inst"}
    ensures Param(k, v) in signed <==> k in Decoded(received) && Decoded(received)[k] == v
  {
    DecodedHolds(received, k, v);
    assert Param(k, v) in Sent(signed, sign, signType, inst) <==> Param(k, v) in signed;
  }

  /** The verdict on parameters that hold the signature and the signed fields. */
  lemma SignedFieldsAccepted(signed: seq<Param>, params: Params, sign: string, pid: string, cents: Reader,
                             money: string)
    requires "sign" in params && params["sign"] == sign
    requires forall k, v :: k !in {"sign", "sign_type", "inst"} ==>
               (Param(k, v) in signed <==> k in params && params[k] == v)
    requires forall p :: p in signed && p.key == "pid" ==> p.value == pid
    requires Param("money", money) in signed && cents(money).GetOr(0) > 0
    ensures var v := Judge(params, sign, pid, cents);
            && v.Accepted? && v.notification.cents == cents(money).value
            && (forall o :: Param("out_trade_no", o) in signed ==> v.notification.orderId == o)
            && (forall o :: Param("trade_no", o) in signed ==> v.notification.tradeNo == o)
            && (v.notification.success <==> Param("trade_status", "TRADE_SUCCESS") in signed)
  {
    if "pid" in params {
      assert Param("pid", params["pid"]) in signed;
    }
  }

  // ---- payment requests ----

  datatype Request = Request(
    pid: string, paymentType: string, orderId: string, notifyUrl: string, returnUrl: string, subject: string,
    money: string, clientIp: string, cid: Option<string>, isMobile: bool)

  /** Every key a request can carry, then what is never signed. */
  function RequestKeys(): seq<string> {
    ["pid", "type", "out_trade_no", "notify_url", "return_url", "name", "money", "clientip", "cid", "device",
     "sign", "sign_type", "inst"]
  }

  lemma RequestKeysDistinct(i: nat, j: nat)
    requires i < j < 13
    ensures RequestKeys()[i] != RequestKeys()[j]
  {
    var a, b := RequestKeys()[i], RequestKeys()[j];
    assert |a| == |b| ==> a[0] != b[0];
  }

  /** The keys of `params` are request keys, at these increasing positions. */
  ghost predicate Drawn(params: seq<Param>, at: seq<nat>) {
    && |at| == |params|
    && (forall i :: 0 <= i < |at| ==> at[i] < 13 && params[i].key == RequestKeys()[at[i]])
    && (forall i, j :: 0 <= i < j < |at| ==> at[i] < at[j])
  }

  lemma DrawnOneMore(params: seq<Param>, at: seq<nat>, p: Param, k: nat)
    requires Drawn(params, at) && k < 13 && p.key == RequestKeys()[k] && forall i :: 0 <= i < |at| ==> at[i] < k
    ensures Drawn(params + [p], at + [k])
  {
    hide RequestKeys;
  }

  lemma DrawnDistinct(params: seq<Param>, at: seq<nat>)
    requires Drawn(params, at)
    ensures DistinctKeys(params)
    ensures (forall i :: 0 <= i < |at| ==> at[i] < 10) ==> Signable(params)
  {
    hide RequestKeys;
    forall i, j | 0 <= i < j < |params| ensures params[i].key != params[j].key {
      RequestKeysDistinct(at[i], at[j]);
    }
    if forall i :: 0 <= i < |at| ==> at[i] < 10 {
      forall i | 0 <= i < |params| ensures params[i].key !in {"sign", "sign_type", "inst"} {
        RequestKeysDistinct(at[i], 10);
        RequestKeysDistinct(at[i], 11);
        RequestKeysDistinct(at[i], 12);
        LastRequestKeys();
      }
    }
  }

  lemma LastRequestKeys()
    ensures RequestKeys()[10] == "sign" && RequestKeys()[11] == "sign_type" && RequestKeys()[12] == "inst"
    ensures RequestKeys()[8] == "cid" && RequestKeys()[9] == "device"
  {
  }

  lemma FixedParamsDrawn(r: Request)
    ensures Drawn(FixedParams(r), [0, 1, 2, 3, 4, 5, 6, 7])
  {
  }

  lemma SignedFields(r: Request)
    ensures FixedParams(r) ==
            [Param("pid", r.pid), Param("type", r.paymentType), Param("out_trade_no", r.orderId),
             Param("notify_url", r.notifyUrl), Param("return_url", r.returnUrl), Param("name", r.subject),
             Param("money", r.money), Param("clientip", r.clientIp)]
  {
  }

  function FixedParams(r: Request): seq<Param> {
    [Param("pid", r.pid), Param("type", r.paymentType), Param("out_trade_no", r.orderId),
     Param("notify_url", r.notifyUrl), Param("return_url", r.returnUrl), Param("name", r.subject),
     Param("money", r.money), Param("clientip", r.clientIp)]
  }

  /** The signing part of create_payment: what is sent is what was signed, the signature and its type. */
  method SignRequest(r: Request, pkey: string, hash: string -> string)
    returns (params: seq<Param>, ghost signed: seq<Param>)
    ensures params == Sent(signed, hash(SignInput(signed, pkey)), "MD5", None)
    ensures DistinctKeys(params) && DistinctKeys(signed) && Signable(signed)
    ensures signed == [Param("pid", r.pid), Param("type", r.paymentType), Param("out_trade_no", r.orderId),
                       Param("notify_url", r.notifyUrl), Param("return_url", r.returnUrl), Param("name", r.subject),
                       Param("money", r.money), Param("clientip", r.clientIp)] +
                      (if r.cid.Some? then [Param("cid", r.cid.value)] else []) +
                      (if r.isMobile then [Param("device", "mobile")] else [])
  {
    SignedFields(r);
    hide RequestKeys, FixedParams, Drawn, DistinctKeys, Signable, SignInput;
    FixedParamsDrawn(r);
    LastRequestKeys();
    params := FixedParams(r);
    ghost var at: seq<nat> := [0, 1, 2, 3, 4, 5, 6, 7];
    if r.cid.Some? {
      DrawnOneMore(params, at, Param("cid", r.cid.value), 8);
      params, at := params + [Param("cid", r.cid.value)], at + [8];
    }
    if r.isMobile {
      DrawnOneMore(params, at, Param("device", "mobile"), 9);
      params, at := params + [Param("device", "mobile")], at + [9];
    }
    signed := params;
    DrawnDistinct(signed, at);
    var sign := GenerateEasyPaySign(params, pkey, hash);
    DrawnOneMore(params, at, Param("sign", sign), 10);
    params := params + [Param("sign", sign)];
    DrawnOneMore(params, at + [10], Param("sign_type", "MD5"), 11);
    params := params + [Param("sign_type", "MD5")];
    DrawnDistinct(params, at + [10] + [11]);
  }
}
