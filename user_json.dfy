/**
 * `JSON.stringify` and `JSON.parse` as the session code applies them to a `User`
 * (src/app/context/auth-provider.tsx, lines 13 and 20): a canonical encoding
 * `{"id":<int>,"username":"<text>","email":"<text>"}` and a parser for exactly
 * that shape, with the round trip `Parse(Serialize(u)) == Some(u)` proved.
 */
module UserJson {
  import opened Wrappers
  import opened AuthTypes

  predicate IsDigit(c: char) {
    '0' <= c <= '9'
  }

  predicate AllDigits(s: string) {
    forall i :: 0 <= i < |s| ==> IsDigit(s[i])
  }

  function DigitChar(d: nat): (c: char)
    requires d < 10
    ensures IsDigit(c) && c as int - '0' as int == d
  {
    ('0' as int + d) as char
  }

  /** The decimal digits of `n`, most significant first, with no leading zero. */
  function NatToDecimal(n: nat): (s: string)
    ensures |s| > 0 && AllDigits(s)
    ensures |s| > 1 ==> s[0] != '0'
  {
    if n < 10 then [DigitChar(n)] else NatToDecimal(n / 10) + [DigitChar(n % 10)]
  }

  /** The number a string of decimal digits denotes. */
  function DecimalValue(s: string): nat
    requires AllDigits(s)
  {
    if s == [] then 0 else DecimalValue(s[..|s| - 1]) * 10 + (s[|s| - 1] as int - '0' as int)
  }

  lemma {:induction false} DecimalRoundTrip(n: nat)
    ensures DecimalValue(NatToDecimal(n)) == n
  {
    if n >= 10 {
      var s := NatToDecimal(n);
      assert s[..|s| - 1] == NatToDecimal(n / 10);
      DecimalRoundTrip(n / 10);
    }
  }

  /** The length of the longest prefix of `s` made of digits. */
  function DigitRun(s: string): (k: nat)
    ensures k <= |s| && AllDigits(s[..k])
    ensures k < |s| ==> !IsDigit(s[k])
  {
    if s != [] && IsDigit(s[0]) then
      var k := 1 + DigitRun(s[1..]);
      assert s[..k] == [s[0]] + s[1..][..k - 1];
      k
    else 0
  }

  /** A JSON integer: an optional minus sign and decimal digits. */
  function IntToJson(i: int): (s: string)
    ensures |s| > 0
  {
    if i < 0 then "-" + NatToDecimal(-i) else NatToDecimal(i)
  }

  /** A string of digits is positive when it does not start with a zero. */
  lemma {:induction false} DecimalPositive(d: string)
    requires AllDigits(d) && d != [] && d[0] != '0'
    ensures DecimalValue(d) > 0
  {
    if |d| > 1 {
      DecimalPositive(d[..|d| - 1]);
    }
  }

  /** A digit string with no leading zero is the decimal form of its own value. */
  lemma {:induction false} DecimalCanonical(d: string)
    requires AllDigits(d) && d != []
    requires |d| > 1 ==> d[0] != '0'
    ensures NatToDecimal(DecimalValue(d)) == d
  {
    if |d| > 1 {
      var front := d[..|d| - 1];
      DecimalPositive(front);
      DecimalCanonical(front);
      var n := DecimalValue(d);
      assert n / 10 == DecimalValue(front) && n % 10 == d[|d| - 1] as int - '0' as int;
      assert d == front + [d[|d| - 1]];
    }
  }

  /**
   * Reads a maximal run of digits as JSON does: fails on an empty run and on a
   * leading zero before further digits.
   */
  function ParseNat(s: string): (r: Option<(nat, string)>)
    ensures r.Some? ==> s == NatToDecimal(r.value.0) + r.value.1
    ensures r.Some? ==> r.value.1 == [] || !IsDigit(r.value.1[0])
  {
    var k := DigitRun(s);
    if k == 0 || (k > 1 && s[0] == '0') then None
    else
      DecimalCanonical(s[..k]);
      assert s == s[..k] + s[k..];
      Some((DecimalValue(s[..k]), s[k..]))
  }

  /** Reads a JSON integer; `-0` is refused, as `IntToJson` never writes it. */
  function ParseInt(s: string): (r: Option<(int, string)>)
    ensures r.Some? ==> s == IntToJson(r.value.0) + r.value.1
    ensures r.Some? ==> r.value.1 == [] || !IsDigit(r.value.1[0])
  {
    if s != [] && s[0] == '-' then
      match ParseNat(s[1..])
      case None => None
      case Some((n, rest)) =>
        if n == 0 then None
        else
          assert s == "-" + s[1..];
          Some((-(n as int), rest))
    else
      match ParseNat(s)
      case None => None
      case Some((n, rest)) => Some((n as int, rest))
  }

  lemma {:induction false} DigitRunOf(d: string, rest: string)
    requires AllDigits(d)
    requires rest == [] || !IsDigit(rest[0])
    ensures DigitRun(d + rest) == |d|
  {
    if d != [] {
      assert (d + rest)[0] == d[0];
      assert (d + rest)[1..] == d[1..] + rest;
      DigitRunOf(d[1..], rest);
    } else {
      assert d + rest == rest;
    }
  }

  lemma IntRoundTrip(i: int, rest: string)
    requires rest == [] || !IsDigit(rest[0])
    ensures ParseInt(IntToJson(i) + rest) == Some((i, rest))
  {
    var m: nat := if i < 0 then -i else i;
    var d := NatToDecimal(m);
    DigitRunOf(d, rest);
    assert (d + rest)[..|d|] == d;
    assert (d + rest)[|d|..] == rest;
    DecimalRoundTrip(m);
    if i < 0 {
      assert ("-" + d + rest)[1..] == d + rest;
    }
  }

  /** JSON string escaping of the quote and the backslash. */
  function EscapeChar(c: char): string
  {
    if c == '"' || c == '\\' then ['\\', c] else [c]
  }

  function Escape(s: string): string
  {
    if s == [] then [] else EscapeChar(s[0]) + Escape(s[1..])
  }

  function StringToJson(s: string): (r: string)
    ensures |r| >= 2 && r[0] == '"'
  {
    "\"" + Escape(s) + "\""
  }

  /**
   * Reads the body of a JSON string up to its closing quote, undoing the escapes;
   * gives the text and what follows the closing quote.
   */
  function ParseStringBody(s: string): (r: Option<(string, string)>)
    ensures r.Some? ==> s == Escape(r.value.0) + "\"" + r.value.1
    decreases |s|
  {
    if s == [] then None
    else if s[0] == '"' then
      assert s == "\"" + s[1..];
      Some(("", s[1..]))
    else if s[0] == '\\' then
      if |s| >= 2 && (s[1] == '"' || s[1] == '\\') then
        match ParseStringBody(s[2..])
        case None => None
        case Some((v, rest)) =>
          assert ([s[1]] + v)[1..] == v;
          assert s == EscapeChar(s[1]) + (Escape(v) + "\"" + rest);
          Some(([s[1]] + v, rest))
      else None
    else
      match ParseStringBody(s[1..])
      case None => None
      case Some((v, rest)) =>
        assert ([s[0]] + v)[1..] == v;
        assert s == EscapeChar(s[0]) + (Escape(v) + "\"" + rest);
        Some(([s[0]] + v, rest))
  }

  function ParseString(s: string): (r: Option<(string, string)>)
    ensures r.Some? ==> s == StringToJson(r.value.0) + r.value.1
  {
    if s != [] && s[0] == '"' then ParseStringBody(s[1..]) else None
  }

  lemma {:induction false} StringBodyRoundTrip(v: string, rest: string)
    ensures ParseStringBody(Escape(v) + "\"" + rest) == Some((v, rest))
  {
    if v == [] {
      assert Escape(v) + "\"" + rest == "\"" + rest;
    } else {
      var tail := Escape(v[1..]) + "\"" + rest;
      assert Escape(v) + "\"" + rest == EscapeChar(v[0]) + tail;
      StringBodyRoundTrip(v[1..], rest);
      assert [v[0]] + v[1..] == v;
      if v[0] == '"' || v[0] == '\\' {
        assert (EscapeChar(v[0]) + tail)[2..] == tail;
      } else {
        assert (EscapeChar(v[0]) + tail)[1..] == tail;
      }
    }
  }

  lemma StringRoundTrip(v: string, rest: string)
    ensures ParseString(StringToJson(v) + rest) == Some((v, rest))
  {
    var s := StringToJson(v) + rest;
    assert s[1..] == Escape(v) + "\"" + rest;
    StringBodyRoundTrip(v, rest);
  }

  const IdField := "{\"id\":"
  const UsernameField := ",\"username\":"
  const EmailField := ",\"email\":"
  const Close := "}"

  /** `JSON.stringify(user)` for a record whose keys come in the order id, username, email. */
  function Serialize(u: User): (s: string)
    ensures |s| > 0 && s[0] == '{'
  {
    IdField + (IntToJson(u.id) + (UsernameField + (StringToJson(u.username)
      + (EmailField + (StringToJson(u.email) + Close)))))
  }

  /** Consumes the literal `lit` at the start of `s`. */
  function Expect(lit: string, s: string): (r: Option<string>)
    ensures r.Some? <==> lit <= s
    ensures r.Some? ==> s == lit + r.value
  {
    if lit <= s then Some(s[|lit|..]) else None
  }

  /**
   * `JSON.parse` of a stored user: a user exactly when `s` is the canonical text
   * `Serialize` writes for it (the converse is `ParseSerialize`).
   */
  function Parse(s: string): (r: Option<User>)
    ensures r.Some? ==> s == Serialize(r.value)
  {
    var rest :- Expect(IdField, s);
    ParseFromId(rest)
  }

  function ParseFromId(s: string): (r: Option<User>)
    ensures r.Some? ==> s == IntToJson(r.value.id) + (UsernameField + (StringToJson(r.value.username)
                               + (EmailField + (StringToJson(r.value.email) + Close))))
  {
    var id :- ParseInt(s);
    var rest :- Expect(UsernameField, id.1);
    ParseFromUsername(id.0, rest)
  }

  function ParseFromUsername(id: int, s: string): (r: Option<User>)
    ensures r.Some? ==> r.value.id == id
    ensures r.Some? ==> s == StringToJson(r.value.username) + (EmailField + (StringToJson(r.value.email) + Close))
  {
    var username :- ParseString(s);
    var rest :- Expect(EmailField, username.1);
    ParseFromEmail(id, username.0, rest)
  }

  function ParseFromEmail(id: int, username: string, s: string): (r: Option<User>)
    ensures r.Some? ==> r.value.id == id && r.value.username == username
    ensures r.Some? ==> s == StringToJson(r.value.email) + Close
  {
    var email :- ParseString(s);
    var rest :- Expect(Close, email.1);
    if rest == [] then Some(User(id, username, email.0)) else None
  }

  lemma ExpectPrefix(lit: string, rest: string)
    ensures Expect(lit, lit + rest) == Some(rest)
  {
    assert lit <= lit + rest;
    assert (lit + rest)[|lit|..] == rest;
  }

  /** Reading back what was written gives the same user. */
  lemma ParseSerialize(u: User)
    ensures Parse(Serialize(u)) == Some(u)
  {
    var i := IntToJson(u.id);
    var n := StringToJson(u.username);
    var e := StringToJson(u.email);
    var r4 := Close;
    var r3 := e + r4;
    var r2 := EmailField + r3;
    var r1 := n + r2;
    var r0 := UsernameField + r1;
    assert Serialize(u) == IdField + (i + r0);
    ExpectPrefix(IdField, i + r0);
    StringRoundTrip(u.email, r4);
    ExpectPrefix(Close, []);
    assert Close + [] == Close;
    assert ParseFromEmail(u.id, u.username, r3) == Some(u);
    assert ParseFromUsername(u.id, r1) == Some(u) by {
      StringRoundTrip(u.username, r2);
      ExpectPrefix(EmailField, r3);
    }
    assert ParseFromId(i + r0) == Some(u) by {
      IntRoundTrip(u.id, r0);
      ExpectPrefix(UsernameField, r1);
    }
  }

  /** The stored text restores user `u` exactly when it is the text login wrote for `u`. */
  lemma ParseIsInverse(s: string, u: User)
    ensures Parse(s) == Some(u) <==> s == Serialize(u)
  {
    ParseSerialize(u);
  }
}
