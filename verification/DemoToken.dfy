/** Demo tokens: four newline-joined fields and their MAC, in base64url. */
module DemoToken {
  import opened LabSessions
  import opened Base64Url

  type Text = seq<Byte>

  const NEWLINE: Byte := 10
  const RETURN: Byte := 13

  const INT64_MIN: int := -0x8000_0000_0000_0000
  const INT64_MAX: int := 0x7FFF_FFFF_FFFF_FFFF

  type int64 = x: int | INT64_MIN <= x <= INT64_MAX

  predicate Plain(t: Text) {
    NEWLINE !in t
  }

  // ---------------------------------------------------------------- decimal numbers

  /** The digits of a natural number, most significant first. */
  function Digits(n: nat): (r: Text)
    ensures |r| > 0 && forall i :: 0 <= i < |r| ==> 48 <= r[i] <= 57
  {
    if n < 10 then [48 + n] else Digits(n / 10) + [48 + n % 10]
  }

  function FormatInt(n: int64): Text {
    var m: int := n;
    if m < 0 then [45] + Digits(-m) else Digits(m)
  }

  function Number(t: Text): Option<nat>
    decreases |t|
  {
    if t == [] then Some(0)
    else
      var front := Number(t[..|t| - 1]);
      var d := t[|t| - 1];
      if front.None? || d < 48 || d > 57 then None else Some(front.value * 10 + (d - 48))
  }

  /** ParseInt(s, 10, 64): an optional sign, at least one digit, nothing else, and the value in range. */
  function ParseInt(t: Text): Option<int64> {
    var signed := |t| > 0 && (t[0] == 43 || t[0] == 45);
    var digits := if signed then t[1..] else t;
    if digits == [] then None
    else
      var n := Number(digits);
      if n.None? then None
      else
        var m: int := n.value;
        var v := if signed && t[0] == 45 then -m else m;
        if INT64_MIN <= v <= INT64_MAX then Some(v) else None
  }

  lemma {:induction false} DigitsThenNumber(n: nat)
    ensures Number(Digits(n)) == Some(n)
  {
    var d := Digits(n);
    if n < 10 {
      assert d[..|d| - 1] == [];
    } else {
      DigitsThenNumber(n / 10);
      assert d[..|d| - 1] == Digits(n / 10);
    }
  }

  function Ten(k: nat): nat {
    if k == 0 then 1 else 10 * Ten(k - 1)
  }

  /** The leading digit counts for its place. */
  lemma {:induction false} NumberPlace(d: Byte, t: Text)
    requires Number([d] + t).Some?
    ensures Number(t).Some? && Number([d] + t).value == (d - 48) * Ten(|t|) + Number(t).value
  {
    var s := [d] + t;
    if t == [] {
      assert s[..0] == [];
    } else {
      assert s[..|s| - 1] == [d] + t[..|t| - 1];
      NumberPlace(d, t[..|t| - 1]);
    }
  }

  /** Digits and nothing else make a number. */
  lemma {:induction false} NumberDigits(t: Text)
    ensures Number(t).Some? <==> forall i :: 0 <= i < |t| ==> 48 <= t[i] <= 57
  {
    if t != [] {
      NumberDigits(t[..|t| - 1]);
    }
  }

  /** Exactly an optional sign and digits whose value an int64 can hold. */
  lemma ParseExact(t: Text)
    ensures var signed := t != [] && (t[0] == '+' as int || t[0] == '-' as int);
            var digits := if signed then t[1..] else t;
            var n := if Number(digits).Some? then Number(digits).value else 0;
            var v := if signed && t[0] == '-' as int then -n else n;
            && (ParseInt(t).Some? <==> digits != [] && (forall i :: 0 <= i < |digits| ==> 48 <= digits[i] <= 57)
                                       && -0x8000_0000_0000_0000 <= v <= 0x7FFF_FFFF_FFFF_FFFF)
            && (ParseInt(t).Some? ==> ParseInt(t).value == v)
  {
    hide Number;
    NumberDigits(if t != [] && (t[0] == 43 || t[0] == 45) then t[1..] else t);
  }

  /** No leading zero, and '-' for a negative number. */
  lemma {:induction false} DigitsStart(n: nat)
    ensures Digits(n)[0] == 48 ==> n == 0 && |Digits(n)| == 1
  {
    if n >= 10 {
      DigitsStart(n / 10);
    }
  }

  lemma FormatStarts(n: int64)
    ensures var t, m: int := FormatInt(n), n; m < 0 <==> t[0] == '-' as int
    ensures var t, m: int := FormatInt(n), n; t[0] == '0' as int ==> m == 0 && |t| == 1
  {
    var m: int := n;
    if m >= 0 {
      DigitsStart(m);
    }
  }

  lemma FormatThenParse(n: int64)
    ensures ParseInt(FormatInt(n)) == Some(n)
    ensures Plain(FormatInt(n))
  {
    var t := FormatInt(n);
    var m: int := n;
    if m < 0 {
      DigitsThenNumber(-m);
      assert t[1..] == Digits(-m);
    } else {
      DigitsThenNumber(m);
    }
  }

  // ---------------------------------------------------------------- joining and splitting

  function Join(parts: seq<Text>): Text
    decreases |parts|
  {
    if parts == [] then [] else if |parts| == 1 then parts[0] else parts[0] + [NEWLINE] + Join(parts[1..])
  }

  /** Where the first newline stands, or the length when there is none. */
  function Cut(t: Text): (n: nat)
    ensures n <= |t| && Plain(t[..n]) && (n < |t| ==> t[n] == NEWLINE)
    decreases |t|
  {
    if t == [] || t[0] == NEWLINE then 0
    else
      assert t[1..][..Cut(t[1..])] == t[1..1 + Cut(t[1..])];
      assert t[..1 + Cut(t[1..])] == [t[0]] + t[1..1 + Cut(t[1..])];
      1 + Cut(t[1..])
  }

  /** SplitN: at most n pieces, the last one taking whatever is left. */
  function SplitN(t: Text, n: nat): seq<Text>
    requires n > 0
    decreases n
  {
    if n == 1 || Cut(t) == |t| then [t] else [t[..Cut(t)]] + SplitN(t[Cut(t) + 1..], n - 1)
  }

  lemma {:induction false} CutAfter(a: Text, b: Text)
    requires Plain(a)
    ensures Cut(a + [NEWLINE] + b) == |a|
    decreases |a|
  {
    var t := a + [NEWLINE] + b;
    if a != [] {
      assert t[1..] == a[1..] + [NEWLINE] + b;
      CutAfter(a[1..], b);
    }
  }

  lemma SplitCons(a: Text, b: Text, n: nat)
    requires Plain(a) && n > 1
    ensures SplitN(a + [NEWLINE] + b, n) == [a] + SplitN(b, n - 1)
  {
    hide Cut, Plain;
    CutAfter(a, b);
    var t := a + [NEWLINE] + b;
    assert t[..|a|] == a && t[|a| + 1..] == b;
  }

  /** Splitting a join gives the parts back when all but the last are free of newlines. */
  lemma {:induction false} JoinThenSplit(parts: seq<Text>)
    requires parts != [] && forall i :: 0 <= i < |parts| - 1 ==> Plain(parts[i])
    ensures SplitN(Join(parts), |parts|) == parts
    decreases |parts|
  {
    hide Cut, Plain;
    if |parts| == 1 {
    } else {
      hide Join, SplitN;
      assert parts == [parts[0]] + parts[1..];
      JoinCons(parts[0], parts[1..]);
      SplitCons(parts[0], Join(parts[1..]), |parts|);
      JoinThenSplit(parts[1..]);
    }
  }

  lemma {:induction false} SplitThenJoin(t: Text, n: nat)
    requires n > 0
    ensures Join(SplitN(t, n)) == t
    decreases n
  {
    if n > 1 && Cut(t) < |t| {
      var rest := t[Cut(t) + 1..];
      SplitThenJoin(rest, n - 1);
      assert SplitN(t, n)[1..] == SplitN(rest, n - 1);
      assert t == t[..Cut(t)] + [NEWLINE] + rest;
    }
  }

  lemma {:induction false} SplitPieces(t: Text, n: nat)
    requires n > 0
    ensures 0 < |SplitN(t, n)| <= n
    ensures forall i :: 0 <= i < |SplitN(t, n)| - 1 ==> Plain(SplitN(t, n)[i])
    decreases n
  {
    if n > 1 && Cut(t) < |t| {
      SplitPieces(t[Cut(t) + 1..], n - 1);
    }
  }

  // ---------------------------------------------------------------- tokens

  datatype Claims = Claims(scenarioID: Text, aeEmail: Text, expUnix: int64, tokenID: Text)

  datatype Verdict = Accepted(claims: Claims) | Invalid | OutOfDate

  function Payload(c: Claims): Text {
    Join([c.scenarioID, c.aeEmail, FormatInt(c.expUnix), c.tokenID])
  }

  function Generate(mac: Text -> Text, c: Claims): Text {
    Encode(Payload(c) + [NEWLINE] + mac(Payload(c)))
  }

  function Validate(mac: Text -> Text, token: Text, now: int): Verdict {
    var raw := Decode(token);
    if raw.None? then Invalid
    else
      var parts := SplitN(raw.value, 5);
      if |parts| != 5 then Invalid
      else if mac(Join(parts[..4])) != parts[4] then Invalid
      else
        var exp := ParseInt(parts[2]);
        if exp.None? then Invalid
        else if now > exp.value then OutOfDate
        else Accepted(Claims(parts[0], parts[1], exp.value, parts[3]))
  }

  /** Removes the characters that delimit fields. */
  function Sanitize(t: Text): (r: Text)
    ensures Plain(r) && RETURN !in r
    ensures Plain(t) && RETURN !in t ==> r == t
    decreases |t|
  {
    if t == [] then []
    else if t[0] == NEWLINE || t[0] == RETURN then Sanitize(t[1..])
    else [t[0]] + Sanitize(t[1..])
  }

  /** Character by character: line feeds and carriage returns go, everything else stays where it is. */
  lemma {:induction false} SanitizeJoins(a: Text, b: Text)
    ensures Sanitize(a + b) == Sanitize(a) + Sanitize(b)
    decreases |a|
  {
    if a == [] {
      assert a + b == b;
    } else {
      assert (a + b)[1..] == a[1..] + b;
      SanitizeJoins(a[1..], b);
    }
  }

  lemma SanitizeOne(c: Byte)
    ensures Sanitize([c]) == if c == 10 || c == 13 then [] else [c]
  {
  }

  lemma JoinFive(a: Text, b: Text, c: Text, d: Text, e: Text)
    ensures Join([a, b, c, d, e]) == Join([a, b, c, d]) + [NEWLINE] + e
  {
    hide Join;
    JoinTwo(d, e);
    JoinThree(c, d, e);
    JoinThree(b, c, d);
    JoinCons(b, [c, d, e]);
    assert [b, c, d, e] == [b] + [c, d, e];
    JoinCons(a, [b, c, d, e]);
    assert [a, b, c, d, e] == [a] + [b, c, d, e];
    JoinCons(a, [b, c, d]);
    assert [a, b, c, d] == [a] + [b, c, d];
  }

  lemma JoinThree(a: Text, b: Text, c: Text)
    ensures Join([a, b, c]) == a + [NEWLINE] + (b + [NEWLINE] + c)
  {
    hide Join;
    JoinTwo(b, c);
    JoinCons(a, [b, c]);
    assert [a, b, c] == [a] + [b, c];
  }

  lemma JoinTwo(a: Text, b: Text)
    ensures Join([a, b]) == a + [NEWLINE] + b
  {
    hide Join;
    JoinOne(b);
    JoinCons(a, [b]);
    assert [a, b] == [a] + [b];
  }

  lemma JoinCons(a: Text, rest: seq<Text>)
    requires rest != []
    ensures Join([a] + rest) == a + [NEWLINE] + Join(rest)
  {
    assert ([a] + rest)[1..] == rest;
  }

  lemma JoinOne(a: Text)
    ensures Join([a]) == a
  {
  }

  /** A token is the base64url of its fields and their MAC, line by line. */
  lemma TokenIs(mac: Text -> Text, c: Claims)
    ensures var payload := c.scenarioID + [10] + c.aeEmail + [10] + FormatInt(c.expUnix) + [10] + c.tokenID;
            Generate(mac, c) == Encode(payload + [10] + mac(payload))
  {
    hide Encode, FormatInt, Join;
    JoinFour(c.scenarioID, c.aeEmail, FormatInt(c.expUnix), c.tokenID);
  }

  lemma JoinFour(a: Text, b: Text, c: Text, d: Text)
    ensures Join([a, b, c, d]) == a + [NEWLINE] + b + [NEWLINE] + c + [NEWLINE] + d
  {
    hide Join;
    JoinThree(b, c, d);
    JoinCons(a, [b, c, d]);
    assert [a, b, c, d] == [a] + [b, c, d];
  }

  /** Whatever the MAC, validating a generated token gives back exactly its fields until it runs out of date. */
  lemma TokenRoundTrip(mac: Text -> Text, c: Claims, now: int)
    requires Plain(c.scenarioID) && Plain(c.aeEmail) && Plain(c.tokenID)
    ensures Validate(mac, Generate(mac, c), now) == if now > c.expUnix then OutOfDate else Accepted(c)
  {
    hide Join, SplitN, Encode, Decode, FormatInt, ParseInt;
    var payload := Payload(c);
    var parts := [c.scenarioID, c.aeEmail, FormatInt(c.expUnix), c.tokenID, mac(payload)];
    RoundTrip(payload + [NEWLINE] + mac(payload));
    FormatThenParse(c.expUnix);
    JoinFive(c.scenarioID, c.aeEmail, FormatInt(c.expUnix), c.tokenID, mac(payload));
    JoinThenSplit(parts);
    assert parts[..4] == [c.scenarioID, c.aeEmail, FormatInt(c.expUnix), c.tokenID];
  }

  /** Nothing is accepted but a payload followed by its own MAC, and the claims are that payload's fields. */
  lemma AcceptedIsSigned(mac: Text -> Text, token: Text, now: int) returns (number: Text)
    requires Validate(mac, token, now).Accepted?
    ensures var c := Validate(mac, token, now).claims;
            var payload := c.scenarioID + [10] + c.aeEmail + [10] + number + [10] + c.tokenID;
            && Decode(token) == Some(payload + [10] + mac(payload))
            && ParseInt(number) == Some(c.expUnix) && now <= c.expUnix
            && Plain(c.scenarioID) && Plain(c.aeEmail) && Plain(c.tokenID)
  {
    hide Join, Decode, ParseInt, SplitN;
    var raw := Decode(token).value;
    var parts := SplitN(raw, 5);
    number := parts[2];
    SplitThenJoin(raw, 5);
    SplitPieces(raw, 5);
    assert parts == [parts[0], parts[1], parts[2], parts[3], parts[4]];
    assert parts[..4] == [parts[0], parts[1], parts[2], parts[3]];
    JoinFour(parts[0], parts[1], parts[2], parts[3]);
    JoinFive(parts[0], parts[1], parts[2], parts[3], parts[4]);
  }

  // ---------------------------------------------------------------- the expiry a token is given

  const MAX_EXPIRY_HOURS: int := 8760
  const HOUR_NANOS: int := 3_600_000_000_000

  /** A missing or non-positive request means three days; a year is the most. */
  function ClampHours(requested: int): (h: int)
    ensures 1 <= h <= 8760
    ensures h == if requested < 1 then 72 else if requested > 8760 then 8760 else requested
    ensures h * HOUR_NANOS <= INT64_MAX
  {
    if requested <= 0 then 72 else if requested > MAX_EXPIRY_HOURS then MAX_EXPIRY_HOURS else requested
  }
}
