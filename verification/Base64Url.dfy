/** Unpadded base64url (RFC 4648, sections 3.2 and 5), as Go's RawURLEncoding reads and writes it. */
module Base64Url {
  import opened LabSessions

  type Byte = x: int | 0 <= x < 256

  type Sextet = x: int | 0 <= x < 64

  function Letter(v: Sextet): Byte {
    if v < 26 then 'A' as int + v
    else if v < 52 then 'a' as int + (v - 26)
    else if v < 62 then '0' as int + (v - 52)
    else if v == 62 then '-' as int
    else '_' as int
  }

  function Value(c: Byte): Option<Sextet> {
    if 'A' as int <= c <= 'Z' as int then Some(c - 'A' as int)
    else if 'a' as int <= c <= 'z' as int then Some(c - 'a' as int + 26)
    else if '0' as int <= c <= '9' as int then Some(c - '0' as int + 52)
    else if c == '-' as int then Some(62)
    else if c == '_' as int then Some(63)
    else None
  }

  lemma LetterThenValue(v: Sextet)
    ensures Value(Letter(v)) == Some(v)
    ensures Letter(v) != 10 && Letter(v) != 13
  {
  }

  /** The alphabet of RFC 4648, section 5, in its order. */
  lemma LetterIs(v: Sextet)
    ensures v < 26 ==> Letter(v) == "ABCDEFGHIJKLMNOPQRSTUVWXYZ"[v] as int
    ensures 26 <= v < 52 ==> Letter(v) == "abcdefghijklmnopqrstuvwxyz"[v - 26] as int
    ensures 52 <= v ==> Letter(v) == "0123456789-_"[v - 52] as int
  {
  }

  /** Nothing outside the alphabet has a value. */
  lemma ValueIs(c: Byte)
    ensures Value(c).Some? ==> Letter(Value(c).value) == c
    ensures Value(c).None? ==> forall v: Sextet :: Letter(v) != c
  {
  }

  // ---------------------------------------------------------------- groups

  /** Three bytes make four sextets; one or two bytes left over make two or three. */
  function Sextets(b: seq<Byte>): seq<Sextet>
    decreases |b|
  {
    if |b| == 0 then []
    else if |b| == 1 then [b[0] / 4, b[0] % 4 * 16]
    else if |b| == 2 then [b[0] / 4, b[0] % 4 * 16 + b[1] / 16, b[1] % 16 * 4]
    else [b[0] / 4, b[0] % 4 * 16 + b[1] / 16, b[1] % 16 * 4 + b[2] / 64, b[2] % 64] + Sextets(b[3..])
  }

  /** Three numbers below 256 and four below 64 that are one number. */
  predicate Regroups(x: int, y: int, z: int, a: int, b: int, c: int, d: int) {
    (x * 256 + y) * 256 + z == ((a * 64 + b) * 64 + c) * 64 + d
  }

  /** A group of bytes and its sextets are the same number, a short group filled up with zeros, and the groups follow
      one another. */
  lemma GroupsAre(b: seq<Byte>)
    ensures var s := Sextets(b);
            && (|b| == 0 ==> s == [])
            && (|b| == 1 ==> |s| == 2 && Regroups(b[0], 0, 0, s[0], s[1], 0, 0))
            && (|b| == 2 ==> |s| == 3 && Regroups(b[0], b[1], 0, s[0], s[1], s[2], 0))
            && (|b| >= 3 ==> |s| >= 4 && Regroups(b[0], b[1], b[2], s[0], s[1], s[2], s[3])
                             && s[4..] == Sextets(b[3..]))
  {
  }

  /** The first byte is in sextets 0 and 1, the second in 1 and 2, the third in 2 and 3. */
  function First(a: Sextet, b: Sextet): Byte {
    var (x: int, y: int) := (a, b);
    x * 4 + y / 16
  }

  function Second(b: Sextet, c: Sextet): Byte {
    var (x: int, y: int) := (b, c);
    x % 16 * 16 + y / 4
  }

  function Third(c: Sextet, d: Sextet): Byte {
    var (x: int, y: int) := (c, d);
    x % 4 * 64 + y
  }

  /** A single sextet left over is an error; bits past the last byte are dropped. */
  function Bytes(s: seq<Sextet>): Option<seq<Byte>>
    decreases |s|
  {
    if |s| == 0 then Some([])
    else if |s| == 1 then None
    else if |s| == 2 then Some([First(s[0], s[1])])
    else if |s| == 3 then Some([First(s[0], s[1]), Second(s[1], s[2])])
    else
      var rest := Bytes(s[4..]);
      if rest.None? then None
      else Some([First(s[0], s[1]), Second(s[1], s[2]), Third(s[2], s[3])] + rest.value)
  }

  /** Neighbouring sextets carry a byte between them. */
  lemma SextetsCarry(x: Byte, y: Byte, z: Byte)
    ensures First(x / 4, x % 4 * 16) == x && First(x / 4, x % 4 * 16 + y / 16) == x
    ensures Second(x % 4 * 16 + y / 16, y % 16 * 4) == y && Second(x % 4 * 16 + y / 16, y % 16 * 4 + z / 64) == y
    ensures Third(y % 16 * 4 + z / 64, z % 64) == z
  {
  }

  lemma {:induction false} SextetsThenBytes(b: seq<Byte>)
    ensures Bytes(Sextets(b)) == Some(b)
    decreases |b|
  {
    hide First, Second, Third;
    if b != [] {
      SextetsCarry(b[0], if |b| > 1 then b[1] else 0, if |b| > 2 then b[2] else 0);
    }
    if |b| >= 3 {
      SextetsThenBytes(b[3..]);
      assert Sextets(b)[4..] == Sextets(b[3..]);
      assert b == [b[0], b[1], b[2]] + b[3..];
    } else if |b| == 2 {
      assert b == [b[0], b[1]];
    } else if |b| == 1 {
      assert b == [b[0]];
    }
  }

  // ---------------------------------------------------------------- text

  function Letters(s: seq<Sextet>): seq<Byte> {
    seq(|s|, i requires 0 <= i < |s| => Letter(s[i]))
  }

  function Values(t: seq<Byte>): Option<seq<Sextet>>
    decreases |t|
  {
    if t == [] then Some([])
    else
      var rest := Values(t[1..]);
      if Value(t[0]).None? || rest.None? then None else Some([Value(t[0]).value] + rest.value)
  }

  /** Go's decoder skips line breaks wherever they stand. */
  function Unbroken(t: seq<Byte>): seq<Byte>
    decreases |t|
  {
    if t == [] then []
    else if t[0] == 10 || t[0] == 13 then Unbroken(t[1..])
    else [t[0]] + Unbroken(t[1..])
  }

  function Encode(b: seq<Byte>): seq<Byte> {
    Letters(Sextets(b))
  }

  function Decode(t: seq<Byte>): Option<seq<Byte>> {
    var s := Values(Unbroken(t));
    if s.None? then None else Bytes(s.value)
  }

  lemma {:induction false} LettersThenValues(s: seq<Sextet>)
    ensures Unbroken(Letters(s)) == Letters(s)
    ensures Values(Letters(s)) == Some(s)
    decreases |s|
  {
    if s != [] {
      LettersThenValues(s[1..]);
      LetterThenValue(s[0]);
      assert Letters(s)[1..] == Letters(s[1..]);
      assert s == [s[0]] + s[1..];
      assert Letters(s) == [Letter(s[0])] + Letters(s[1..]);
    } else {
      assert Letters(s) == [];
    }
  }

  /** Decoding what was encoded gives it back, for every byte string. */
  lemma RoundTrip(b: seq<Byte>)
    ensures Decode(Encode(b)) == Some(b)
  {
    LettersThenValues(Sextets(b));
    SextetsThenBytes(b);
  }
}
