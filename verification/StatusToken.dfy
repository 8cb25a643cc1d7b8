/**
 The token that lets its bearer look at one order for a day (src/http/orders.rs).  The keyed hash, with its
 base64url encoding (section 5 of RFC 4648), is a parameter.
 */
module StatusToken {
  import opened Common
  import opened SecureEquality
  import opened Strings

  const ORDER_STATUS_ACCESS_PURPOSE := "order-status-access:v2"
  const ORDER_STATUS_ACCESS_TTL_MS := 24 * 60 * 60 * 1000
  const I64_MAX := 0x7fff_ffff_ffff_ffff

  // ---- decimal notation ----

  predicate IsDigit(c: char) {
    '0' <= c <= '9'
  }

  function DigitValue(c: char): nat
    requires IsDigit(c)
  {
    c as int - '0' as int
  }

  function DigitChar(d: nat): (c: char)
    requires d < 10
    ensures IsDigit(c) && DigitValue(c) == d
  {
    ('0' as int + d) as char
  }

  ghost predicate AllDigits(s: string) {
    forall i :: 0 <= i < |s| ==> IsDigit(s[i])
  }

  function PrintNat(n: nat): (s: string)
    ensures |s| > 0 && AllDigits(s)
  {
    if n < 10 then [DigitChar(n)] else PrintNat(n / 10) + [DigitChar(n % 10)]
  }

  function Print(n: int): string {
    if n < 0 then "-" + PrintNat(-n) else PrintNat(n)
  }

  /** The value of a string of digits; nothing if another character occurs. */
  function ParseDigits(s: string): Option<nat> {
    if s == "" then Some(0)
    else
      var n := |s| - 1;
      var high := ParseDigits(s[..n]);
      if high.Some? && IsDigit(s[n]) then Some(10 * high.value + DigitValue(s[n])) else None
  }

  /** Reads a 64-bit integer: an optional sign and at least one digit, within range. */
  function ParseI64(s: string): Option<int> {
    if s == "" then None
    else
      var signed := s[0] == '+' || s[0] == '-';
      var digits := if signed then s[1..] else s;
      var n := ParseDigits(digits);
      if digits == "" || n.None? then None
      else
        var size: int := n.value;
        var value := if s[0] == '-' then -size else size;
        if -I64_MAX - 1 <= value <= I64_MAX then Some(value) else None
  }

  lemma {:induction false} ParsePrintNat(n: nat)
    ensures ParseDigits(PrintNat(n)) == Some(n)
  {
    if n < 10 {
      assert PrintNat(n)[..0] == "";
    } else {
      ParsePrintNat(n / 10);
      var s := PrintNat(n);
      assert s[..|s| - 1] == PrintNat(n / 10);
    }
  }

  /** Reading back what was printed gives the number. */
  lemma ParsePrint(n: int)
    requires -I64_MAX - 1 <= n <= I64_MAX
    ensures ParseI64(Print(n)) == Some(n)
  {
    ParsePrintNat(if n < 0 then -n else n);
    if n < 0 {
      assert Print(n)[1..] == PrintNat(-n);
    }
  }

  lemma {:induction false} ParseDigitsExactly(s: string)
    ensures ParseDigits(s).Some? <==> AllDigits(s)
  {
    if s != "" {
      var n := |s| - 1;
      ParseDigitsExactly(s[..n]);
      assert s == s[..n] + [s[n]];
    }
  }

  /** A numeral without superfluous zeros: printing what was read gives it back. */
  lemma {:induction false} PrintParse(s: string)
    requires s != "" && AllDigits(s) && (s[0] != '0' || |s| == 1)
    ensures ParseDigits(s).Some? && PrintNat(ParseDigits(s).value) == s
    ensures |s| > 1 ==> ParseDigits(s).value >= 10
  {
    var n := |s| - 1;
    ParseDigitsExactly(s);
    if n == 0 {
      assert s[..0] == "";
      assert DigitChar(DigitValue(s[0])) == s[0];
    } else {
      PrintParse(s[..n]);
      var high := ParseDigits(s[..n]).value;
      assert n == 1 ==> s[..1][0] == s[0] && s[..1][..0] == "";
      assert high >= 1;
      assert DigitChar(DigitValue(s[n])) == s[n];
      assert s == s[..n] + [s[n]];
    }
  }

  /** What is read is an optional sign and at least one digit, within 64 bits. */
  lemma ParseI64Exactly(s: string, n: int)
    ensures ParseI64(s) == Some(n) <==>
              && -0x8000_0000_0000_0000 <= n <= 0x7fff_ffff_ffff_ffff
              && exists digits :: digits != "" && AllDigits(digits) && ParseDigits(digits).Some? &&
                   ((s == digits && n == ParseDigits(digits).value) ||
                    (s == "+" + digits && n == ParseDigits(digits).value) ||
                    (s == "-" + digits && n + ParseDigits(digits).value == 0))
  {
    if s != "" {
      var digits := if s[0] == '+' || s[0] == '-' then s[1..] else s;
      ParseDigitsExactly(digits);
      assert s == [s[0]] + s[1..];
      hide ParseDigits;
    }
  }

  lemma PrintInjective(m: int, n: int)
    requires Print(m) == Print(n)
    ensures m == n
  {
    ParsePrintNat(if m < 0 then -m else m);
    ParsePrintNat(if n < 0 then -n else n);
    assert m < 0 ==> Print(m)[1..] == PrintNat(-m);
    assert n < 0 ==> Print(n)[1..] == PrintNat(-n);
    assert m >= 0 ==> IsDigit(Print(m)[0]);
    assert n >= 0 ==> IsDigit(Print(n)[0]);
  }

  // ---- trimming ----

  /** Unicode white space. */
  predicate IsSpace(ch: char) {
    var n := ch as int;
    9 <= n <= 13 || n in {0x20, 0x85, 0xa0, 0x1680, 0x2028, 0x2029, 0x202f, 0x205f, 0x3000} || 0x2000 <= n <= 0x200a
  }

  /** The characters with the property White_Space. */
  lemma SpacesExactly(ch: char)
    ensures IsSpace(ch) <==>
            ch as int in {0x9, 0xa, 0xb, 0xc, 0xd, 0x20, 0x85, 0xa0, 0x1680, 0x2000, 0x2001, 0x2002, 0x2003, 0x2004,
                          0x2005, 0x2006, 0x2007, 0x2008, 0x2009, 0x200a, 0x2028, 0x2029, 0x202f, 0x205f, 0x3000}
  {
  }

  function TrimStart(s: string): string {
    if s != "" && IsSpace(s[0]) then TrimStart(s[1..]) else s
  }

  function TrimEnd(s: string): string {
    if s != "" && IsSpace(s[|s| - 1]) then TrimEnd(s[..|s| - 1]) else s
  }

  function Trim(s: string): string {
    TrimEnd(TrimStart(s))
  }

  ghost predicate AllSpaces(s: string) {
    forall i :: 0 <= i < |s| ==> IsSpace(s[i])
  }

  lemma {:induction false} TrimStartTakesSpaces(s: string) returns (a: string)
    ensures s == a + TrimStart(s) && AllSpaces(a) && (TrimStart(s) != "" ==> !IsSpace(TrimStart(s)[0]))
  {
    a := "";
    if s != "" && IsSpace(s[0]) {
      var b := TrimStartTakesSpaces(s[1..]);
      a := [s[0]] + b;
      assert s == [s[0]] + s[1..];
    }
  }

  lemma {:induction false} TrimEndTakesSpaces(s: string) returns (b: string)
    ensures s == TrimEnd(s) + b && AllSpaces(b)
    ensures TrimEnd(s) != "" ==> !IsSpace(TrimEnd(s)[|TrimEnd(s)| - 1]) && TrimEnd(s)[0] == s[0]
  {
    b := "";
    if s != "" && IsSpace(s[|s| - 1]) {
      var c := TrimEndTakesSpaces(s[..|s| - 1]);
      b := c + [s[|s| - 1]];
    }
  }

  /** Trimming takes white space off both ends, all of it and nothing else. */
  lemma TrimTakesSpaces(s: string) returns (a: string, b: string)
    ensures s == a + Trim(s) + b && AllSpaces(a) && AllSpaces(b)
    ensures Trim(s) != "" ==> !IsSpace(Trim(s)[0]) && !IsSpace(Trim(s)[|Trim(s)| - 1])
  {
    a := TrimStartTakesSpaces(s);
    b := TrimEndTakesSpaces(TrimStart(s));
  }

  // ---- the token ----

  /** A keyed hash in base64url without padding: never empty, no '.', no white space. */
  type Signer = (string, string) -> string

  predicate IsBase64Url(ch: char) {
    'A' <= ch <= 'Z' || 'a' <= ch <= 'z' || '0' <= ch <= '9' || ch == '-' || ch == '_'
  }

  ghost predicate SignerOk(sign: Signer) {
    forall k, m {:trigger sign(k, m)} ::
      sign(k, m) != "" && forall i :: 0 <= i < |sign(k, m)| ==> IsBase64Url(sign(k, m)[i])
  }

  function Message(orderId: string, user: int, expiresAt: int): string {
    ORDER_STATUS_ACCESS_PURPOSE + ":" + orderId + ":" + Print(user) + ":" + Print(expiresAt)
  }

  function CreateToken(sign: Signer, adminToken: Option<string>, orderId: string, user: int, now: int): Option<string> {
    if adminToken.None? then None
    else
      var expiresAt := now + ORDER_STATUS_ACCESS_TTL_MS;
      Some(Print(expiresAt) + "." + Print(user) + "." + sign(adminToken.value, Message(orderId, user, expiresAt)))
  }

  predicate VerifyToken(sign: Signer, adminToken: Option<string>, orderId: string, token: Option<string>, now: int) {
    if token.None? || Trim(token.value) == "" then false
    else if adminToken.None? then false
    else
      var parts := Split(Trim(token.value), '.');
      if |parts| != 3 then false
      else
        var expiresAt := ParseI64(parts[0]);
        var user := ParseI64(parts[1]);
        if expiresAt.GetOr(0) <= 0 then false
        else if user.None? || user.value < 0 then false
        else if now > expiresAt.value then false
        else sign(adminToken.value, Message(orderId, user.value, expiresAt.value)) == parts[2]
  }

  /** Trimmed, the token is two readable numbers and a signature, joined by dots. */
  ghost predicate TokenParts(token: string, expiry: int, user: int, signature: string) {
    var parts := Split(Trim(token), '.');
    |parts| == 3 && ParseI64(parts[0]) == Some(expiry) && ParseI64(parts[1]) == Some(user) && parts[2] == signature
  }

  /** What is signed, letter by letter. */
  function MessageText(orderId: string, user: int, expiry: int): string {
    "order-status-access:v2:" + orderId + ":" + Print(user) + ":" + Print(expiry)
  }

  lemma MessageIsText(orderId: string, user: int, expiry: int)
    ensures Message(orderId, user, expiry) == MessageText(orderId, user, expiry)
  {
    assert ORDER_STATUS_ACCESS_PURPOSE + ":" == "order-status-access:v2:";
  }

  /**
   A string is accepted exactly if it consists of a positive expiry not yet past, a non-negative user and the
   signature of the message about the order, that user and that expiry.
   */
  lemma AcceptedExactly(sign: Signer, adminToken: Option<string>, orderId: string, token: Option<string>, now: int)
    ensures VerifyToken(sign, adminToken, orderId, token, now) <==>
              && token.Some? && adminToken.Some?
              && exists expiry, user, signature :: TokenParts(token.value, expiry, user, signature) &&
                   0 < expiry && now <= expiry && 0 <= user &&
                   signature == sign(adminToken.value, MessageText(orderId, user, expiry))
  {
    hide ParseI64, Message, Trim;
    forall user, expiry ensures Message(orderId, user, expiry) == MessageText(orderId, user, expiry) {
      MessageIsText(orderId, user, expiry);
    }
    if VerifyToken(sign, adminToken, orderId, token, now) {
      var parts := Split(Trim(token.value), '.');
      assert TokenParts(token.value, ParseI64(parts[0]).value, ParseI64(parts[1]).value, parts[2]);
    }
  }

  method VerifyOrderStatusAccessToken(sign: Signer, adminToken: Option<string>, orderId: string, token: Option<string>,
                                      now: int, bytes: string -> seq<byte>)
    returns (valid: bool)
    requires forall a, b :: bytes(a) == bytes(b) ==> a == b
    ensures valid == VerifyToken(sign, adminToken, orderId, token, now)
    ensures valid <==>
              && token.Some? && adminToken.Some?
              && exists expiry, user, signature :: TokenParts(token.value, expiry, user, signature) &&
                   0 < expiry && now <= expiry && 0 <= user &&
                   signature == sign(adminToken.value, MessageText(orderId, user, expiry))
  {
    AcceptedExactly(sign, adminToken, orderId, token, now);
    hide TokenParts;
    if token.None? {
      return false;
    }
    var trimmed := Trim(token.value);
    if trimmed == "" || adminToken.None? {
      return false;
    }
    var parts := Split(trimmed, '.');
    if |parts| != 3 {
      return false;
    }
    var expiresAt := ParseI64(parts[0]);
    if expiresAt.None? || expiresAt.value <= 0 {
      return false;
    }
    var user := ParseI64(parts[1]);
    if user.None? || user.value < 0 || now > expiresAt.value {
      return false;
    }
    var expected := sign(adminToken.value, Message(orderId, user.value, expiresAt.value));
    valid := SecureEquals(bytes(expected), bytes(parts[2]));
  }

  // ---- round trip ----

  lemma PrintLacks(n: int, c: char)
    requires !IsDigit(c) && c != '-'
    ensures Lacks(Print(n), c)
  {
  }

  lemma TrimKeeps(s: string)
    requires s != "" && !IsSpace(s[0]) && !IsSpace(s[|s| - 1])
    ensures Trim(s) == s
  {
  }

  /** A token of two numbers and a signature comes apart into just these. */
  lemma TokenComesApart(expiresAt: int, user: int, signature: string)
    requires signature != "" && forall i :: 0 <= i < |signature| ==> IsBase64Url(signature[i])
    ensures var token := Print(expiresAt) + "." + Print(user) + "." + signature;
            Trim(token) == token && Split(token, '.') == [Print(expiresAt), Print(user), signature]
  {
    var a, b := Print(expiresAt), Print(user);
    var token := a + "." + b + "." + signature;
    PrintLacks(expiresAt, '.');
    PrintLacks(user, '.');
    assert token[0] == a[0] && token[|token| - 1] == signature[|signature| - 1];
    TrimKeeps(token);
    assert token == a + ['.'] + (b + ['.'] + signature);
    SplitFirst(a, b + ['.'] + signature, '.');
    SplitFirst(b, signature, '.');
    SplitLast(signature, '.');
  }

  /**
   A created token verifies for its order exactly at the instants up to and including its expiry, for every
   order id, every admin token and every non-negative user.
   */
  lemma TokenRoundTrip(sign: Signer, adminToken: string, orderId: string, user: int, created: int, now: int)
    requires SignerOk(sign) && -I64_MAX - 1 <= user <= I64_MAX
    requires 0 < created + ORDER_STATUS_ACCESS_TTL_MS <= I64_MAX
    ensures var token := CreateToken(sign, Some(adminToken), orderId, user, created);
            VerifyToken(sign, Some(adminToken), orderId, token, now) <==>
            user >= 0 && now <= created + 24 * 60 * 60 * 1000
  {
    var expiresAt := created + ORDER_STATUS_ACCESS_TTL_MS;
    var signature := sign(adminToken, Message(orderId, user, expiresAt));
    TokenComesApart(expiresAt, user, signature);
    ParsePrint(expiresAt);
    ParsePrint(user);
    hide Print, ParseI64, Split, Trim, Message;
  }

  // ---- a token is about one order, one user and one expiry ----

  /** What follows the last separator is determined. */
  lemma LastPartDetermined(a: string, b: string, a': string, b': string, c: char)
    requires a + [c] + b == a' + [c] + b' && Lacks(b, c) && Lacks(b', c)
    ensures a == a' && b == b'
  {
    if |b| < |b'| {
      LongerHolds(a, b, a', b', c);
    } else if |b'| < |b| {
      LongerHolds(a', b', a, b, c);
    } else {
      var s := a + [c] + b;
      assert a == s[..|a|] && a' == s[..|a|] && b == s[|a| + 1..] && b' == s[|a| + 1..];
    }
  }

  lemma LongerHolds(a: string, b: string, a': string, b': string, c: char)
    requires a + [c] + b == a' + [c] + b' && |b| < |b'|
    ensures c in b'
  {
    assert (a + [c] + b)[|a|] == c;
    assert b'[|a| - |a'| - 1] == (a' + [c] + b')[|a|];
  }

  /** The signed message determines what it is about, whatever characters an order id has. */
  lemma MessageInjective(o: string, u: int, e: int, o': string, u': int, e': int)
    requires Message(o, u, e) == Message(o', u', e')
    ensures o == o' && u == u' && e == e'
  {
    var head := ORDER_STATUS_ACCESS_PURPOSE + ":";
    PrintLacks(e, ':');
    PrintLacks(e', ':');
    PrintLacks(u, ':');
    PrintLacks(u', ':');
    var (x, x') := (head + o + ":" + Print(u), head + o' + ":" + Print(u'));
    assert Message(o, u, e) == x + [':'] + Print(e) && Message(o', u', e') == x' + [':'] + Print(e');
    LastPartDetermined(x, Print(e), x', Print(e'), ':');
    assert x == (head + o) + [':'] + Print(u) && x' == (head + o') + [':'] + Print(u');
    LastPartDetermined(head + o, Print(u), head + o', Print(u'), ':');
    assert o == (head + o)[|head|..] && o' == (head + o')[|head|..];
    PrintInjective(e, e');
    PrintInjective(u, u');
  }

  /** Presented for another order, a token is accepted only if two different messages have one signature. */
  lemma TokenBoundToOrder(sign: Signer, adminToken: string, orderId: string, other: string, user: int, created: int,
                          now: int)
    requires SignerOk(sign) && 0 <= user <= I64_MAX && 0 < created + ORDER_STATUS_ACCESS_TTL_MS <= I64_MAX
    requires orderId != other
    ensures var expiresAt := created + ORDER_STATUS_ACCESS_TTL_MS;
            var token := CreateToken(sign, Some(adminToken), orderId, user, created);
            var (m, m') := (Message(orderId, user, expiresAt), Message(other, user, expiresAt));
            && m != m'
            && (VerifyToken(sign, Some(adminToken), other, token, now) <==>
                now <= expiresAt && sign(adminToken, m) == sign(adminToken, m'))
  {
    var expiresAt := created + ORDER_STATUS_ACCESS_TTL_MS;
    TokenComesApart(expiresAt, user, sign(adminToken, Message(orderId, user, expiresAt)));
    ParsePrint(expiresAt);
    ParsePrint(user);
    if Message(orderId, user, expiresAt) == Message(other, user, expiresAt) {
      MessageInjective(orderId, user, expiresAt, other, user, expiresAt);
    }
    hide Print, ParseI64, Split, Trim, Message;
  }
}
