/** The frame the lab's injector sends to the browser, decoded by sections 5.2 and 5.3 of RFC 6455. */
module WebSocketFrames {
  import opened LabSessions

  type Byte = x: int | 0 <= x < 256

  // ---------------------------------------------------------------- bits

  /** Bitwise exclusive or. */
  function Xor(a: nat, b: nat): nat {
    if a == 0 && b == 0 then 0 else (if a % 2 == b % 2 then 0 else 1) + 2 * Xor(a / 2, b / 2)
  }

  lemma {:induction false} XorBound(a: nat, b: nat, k: nat)
    requires a < Power(k) && b < Power(k)
    ensures Xor(a, b) < Power(k)
  {
    if k > 0 {
      XorBound(a / 2, b / 2, k - 1);
    }
  }

  lemma XorStep(a: nat, b: nat)
    ensures Xor(a, b) % 2 == (if a % 2 == b % 2 then 0 else 1) && Xor(a, b) / 2 == Xor(a / 2, b / 2)
  {
  }

  lemma {:induction false} XorTwice(a: nat, b: nat)
    ensures Xor(Xor(a, b), b) == a
  {
    if a == 0 && b == 0 {
    } else {
      hide Xor;
      var x := Xor(a, b);
      XorStep(a, b);
      XorStep(x, b);
      XorTwice(a / 2, b / 2);
    }
  }

  function Power(k: nat): nat {
    if k == 0 then 1 else 2 * Power(k - 1)
  }

  /** Bitwise or. */
  function Or(a: nat, b: nat): nat {
    if a == 0 && b == 0 then 0 else (if a % 2 == 0 && b % 2 == 0 then 0 else 1) + 2 * Or(a / 2, b / 2)
  }

  lemma OrStep(a: nat, b: nat)
    ensures Or(a, b) == (if a % 2 == 0 && b % 2 == 0 then 0 else 1) + 2 * Or(a / 2, b / 2)
  {
  }

  lemma OrNothing()
    ensures Or(0, 0) == 0
  {
  }

  /** Setting a bit above all of a number's own adds it. */
  lemma {:induction false} OrAbove(n: nat, k: nat)
    requires n < Power(k)
    ensures Or(Power(k), n) == Power(k) + n
  {
    hide Or;
    OrStep(Power(k), n);
    if k == 0 {
      OrNothing();
    } else {
      assert Power(k) / 2 == Power(k - 1) && Power(k) % 2 == 0;
      OrAbove(n / 2, k - 1);
    }
  }

  function XorByte(a: Byte, b: Byte): Byte {
    assert Power(8) == 256;
    XorBound(a, b, 8);
    Xor(a, b)
  }

  function TopBit(n: Byte): (b: Byte)
    requires n < 128
    ensures b == 128 + n && b == Or(0x80, n)
  {
    assert Power(7) == 128;
    OrAbove(n, 7);
    Or(0x80, n)
  }

  // ---------------------------------------------------------------- sending

  function Low(n: nat): (b: Byte) {
    n % 256
  }

  /** Big-endian on two bytes, as struct.pack does for '>H'; it refuses what does not fit. */
  function PackShort(n: nat): Option<seq<Byte>> {
    if n < 65536 then Some([Low(n / 256), Low(n)]) else None
  }

  function Header(n: nat): Option<seq<Byte>> {
    if n < 126 then Some([0x81, TopBit(n)])
    else
      var length := PackShort(n);
      if length.None? then None else Some([0x81, 0xFE] + length.value)
  }

  /** Each byte against the mask, whose four bytes repeat. */
  function Masked(msg: seq<Byte>, mask: seq<Byte>): (r: seq<Byte>)
    requires |mask| == 4
    ensures |r| == |msg|
  {
    seq(|msg|, i requires 0 <= i < |msg| => XorByte(msg[i], mask[i % 4]))
  }

  /** What is sent: header, mask, masked message. None stands for the error raised for a message too long. */
  function Frame(msg: seq<Byte>, mask: seq<Byte>): Option<seq<Byte>>
    requires |mask| == 4
  {
    var header := Header(|msg|);
    if header.None? then None else Some(header.value + mask + Masked(msg, mask))
  }

  // ---------------------------------------------------------------- what goes over the wire

  predicate Bit(b: nat, k: nat)
    requires k < 8
  {
    b / [1, 2, 4, 8, 16, 32, 64, 128][k] % 2 == 1
  }

  lemma {:induction false} XorBit(a: nat, b: nat, k: nat)
    requires k < 8
    ensures Bit(Xor(a, b), k) <==> Bit(a, k) != Bit(b, k)
    decreases k
  {
    XorStep(a, b);
    if k == 0 {
      BitNone(a, b);
    } else {
      hide Xor, Bit;
      XorBit(a / 2, b / 2, k - 1);
      BitBelow(a, k);
      BitBelow(b, k);
      BitBelow(Xor(a, b), k);
    }
  }

  lemma BitNone(a: nat, b: nat)
    ensures Bit(Xor(a, b), 0) <==> Bit(a, 0) != Bit(b, 0)
  {
    hide Xor;
    XorStep(a, b);
  }

  lemma BitBelow(n: nat, k: nat)
    requires 0 < k < 8
    ensures Bit(n, k) <==> Bit(n / 2, k - 1)
  {
  }

  /** Section 5.3 of RFC 6455, bit by bit: after header and mask, byte i of the message against byte i modulo four of
      the mask. */
  lemma FrameBits(msg: seq<Byte>, mask: seq<Byte>, i: nat, k: nat)
    requires |mask| == 4 && i < |msg| < 65536 && k < 8
    ensures Frame(msg, mask).Some?
    ensures var f, h := Frame(msg, mask).value, if |msg| < 126 then 2 else 4;
            && |f| == h + 4 + |msg| && f[h..h + 4] == mask
            && (Bit(f[h + 4 + i], k) <==> Bit(msg[i], k) != Bit(mask[i % 4], k))
  {
    hide Bit, Xor;
    var h := Header(|msg|).value;
    XorBit(msg[i], mask[i % 4], k);
    assert Frame(msg, mask).value[|h| + 4 + i] == Masked(msg, mask)[i];
  }

  /** Section 5.2, byte by byte: a final text frame, masked, its length in seven bits or in two further bytes. */
  lemma FrameHeader(msg: seq<Byte>, mask: seq<Byte>)
    requires |mask| == 4 && |msg| < 65536
    ensures Frame(msg, mask).Some?
    ensures var f, n := Frame(msg, mask).value, |msg|;
            f[..if n < 126 then 2 else 4] == if n < 126 then [0x81, 128 + n] else [0x81, 254, n / 256, n % 256]
  {
    hide Masked;
    var h := Header(|msg|).value;
    assert Frame(msg, mask).value[..|h|] == h;
  }

  // ---------------------------------------------------------------- receiving

  /** A frame as section 5.2 lays it out. */
  datatype Received = Received(fin: bool, reserved: nat, opcode: nat, masked: bool, payload: seq<Byte>, rest: seq<Byte>)

  function Number(s: seq<Byte>): nat {
    if s == [] then 0 else Number(s[..|s| - 1]) * 256 + s[|s| - 1]
  }

  /** How many bytes extend the seven-bit length. */
  function Extension(length: nat): nat {
    if length == 126 then 2 else if length == 127 then 8 else 0
  }

  /** The payload length: the seven bits, or the extension, which has to be needed. */
  function Length(seven: nat, extension: seq<Byte>): Option<nat> {
    if seven < 126 then Some(seven)
    else
      var n := Number(extension);
      if n < 126 || (seven == 127 && n < 65536) then None else Some(n)
  }

  /** The number whose lowest k bits are set where those of two others differ. */
  function Differing(a: nat, b: nat, k: nat): (r: nat)
    ensures r < Power(k)
  {
    if k == 0 then 0 else (if a % 2 != b % 2 then 1 else 0) + 2 * Differing(a / 2, b / 2, k - 1)
  }

  /** The masking algorithm of section 5.3, as the receiver undoes it: byte i against byte i modulo four. */
  function Unmasked(data: seq<Byte>, mask: seq<Byte>): (r: seq<Byte>)
    requires |mask| == 4
    ensures |r| == |data|
  {
    assert Power(8) == 256;
    seq(|data|, i requires 0 <= i < |data| => Differing(data[i], mask[i % 4], 8))
  }

  function Receive(s: seq<Byte>): Option<Received> {
    if |s| < 2 then None
    else
      var fin, reserved, opcode := s[0] / 128 == 1, s[0] / 16 % 8, s[0] % 16;
      var masked, seven := s[1] / 128 == 1, s[1] % 128;
      var e := 2 + Extension(seven);
      var p := if masked then e + 4 else e;
      if |s| < p then None
      else
        var n := Length(seven, s[2..e]);
        if n.None? || |s| < p + n.value then None
        else
          var data, rest := s[p..p + n.value], s[p + n.value..];
          Some(Received(fin, reserved, opcode, masked, if masked then Unmasked(data, s[e..p]) else data, rest))
  }

  // ---------------------------------------------------------------- round trip

  lemma MaskTwice(msg: seq<Byte>, mask: seq<Byte>)
    requires |mask| == 4
    ensures Masked(Masked(msg, mask), mask) == msg
  {
    forall i | 0 <= i < |msg|
      ensures Masked(Masked(msg, mask), mask)[i] == msg[i]
    {
      XorTwice(msg[i], mask[i % 4]);
    }
  }

  lemma {:induction false} DifferingIsXor(a: nat, b: nat, k: nat)
    requires a < Power(k) && b < Power(k)
    ensures Differing(a, b, k) == Xor(a, b)
  {
    if k > 0 {
      DifferingIsXor(a / 2, b / 2, k - 1);
    }
  }

  /** The receiver undoes the sender's masking. */
  lemma UnmaskMasked(msg: seq<Byte>, mask: seq<Byte>)
    requires |mask| == 4
    ensures Unmasked(Masked(msg, mask), mask) == msg
  {
    hide Differing, Xor;
    assert Power(8) == 256;
    forall i | 0 <= i < |msg|
      ensures Unmasked(Masked(msg, mask), mask)[i] == msg[i]
    {
      DifferingIsXor(XorByte(msg[i], mask[i % 4]), mask[i % 4], 8);
      XorTwice(msg[i], mask[i % 4]);
    }
  }

  lemma TwoBytes(n: nat)
    requires n < 65536
    ensures Number([Low(n / 256), Low(n)]) == n
  {
    var s := [Low(n / 256), Low(n)];
    assert s[..1] == [s[0]] && s[..1][..0] == [];
    assert Number(s[..1]) == n / 256;
  }

  /** The lengths of the parts of a frame. */
  lemma HeaderReads(n: nat)
    requires n < 65536
    ensures Header(n).Some?
    ensures var h := Header(n).value;
            && |h| == 2 + Extension(h[1] % 128) && h[0] == 0x81 && h[1] / 128 == 1
            && Length(h[1] % 128, h[2..]) == Some(n)
  {
    if n >= 126 {
      TwoBytes(n);
      assert Header(n).value[2..] == [Low(n / 256), Low(n)];
    }
  }

  /** Exactly the messages shorter than 65536 bytes are sent. */
  lemma SendsExactly(msg: seq<Byte>, mask: seq<Byte>)
    requires |mask| == 4
    ensures Frame(msg, mask).Some? <==> |msg| < 65536
  {
  }

  /** Whatever follows it, the frame of a message is received as one final, masked text frame with that message. */
  lemma RoundTrip(msg: seq<Byte>, mask: seq<Byte>, rest: seq<Byte>)
    requires |mask| == 4 && |msg| < 65536
    ensures Frame(msg, mask).Some?
    ensures Receive(Frame(msg, mask).value + rest) == Some(Received(true, 0, 1, true, msg, rest))
  {
    hide Header, Length, Masked, Unmasked;
    SendsExactly(msg, mask);
    HeaderReads(|msg|);
    var h, data := Header(|msg|).value, Masked(msg, mask);
    var s := h + mask + data + rest;
    assert Frame(msg, mask).value + rest == s;
    assert s[0] == h[0] && s[1] == h[1] && s[2..|h|] == h[2..];
    assert s[|h|..|h| + 4] == mask && s[|h| + 4..|h| + 4 + |msg|] == data && s[|h| + 4 + |msg|..] == rest;
    UnmaskMasked(msg, mask);
  }
}
