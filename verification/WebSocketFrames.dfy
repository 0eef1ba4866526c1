/** Frames of the echo workload: the writer, the reader with its in-place unmasking loop, and the echo loop
    (sections 5.2, 5.3 and 5.5.1 of RFC 6455; FIN and fragmentation are not looked at). */
module WebSocketFrames {
  import opened Wrappers

  datatype Frame = Frame(opcode: bv8, data: Bytes)

  const TEXT: bv8 := 0x1
  const BINARY: bv8 := 0x2
  const CLOSE: bv8 := 0x8

  /** One more than the largest length the eight-byte form can carry. */
  const LIMIT := 0x1_0000_0000_0000_0000

  predicate Fits(f: Frame) {
    f.opcode <= 0x0F && |f.data| < LIMIT
  }

  // ---- Big-endian numbers ---------------------------------------------------------

  function Byte(d0: bool, d1: bool, d2: bool, d3: bool, d4: bool, d5: bool, d6: bool, d7: bool): bv8 {
    (if d0 then 0x01 else 0) | (if d1 then 0x02 else 0) | (if d2 then 0x04 else 0) | (if d3 then 0x08 else 0)
    | (if d4 then 0x10 else 0) | (if d5 then 0x20 else 0) | (if d6 then 0x40 else 0) | (if d7 then 0x80 else 0)
  }

  function Number(d0: bool, d1: bool, d2: bool, d3: bool, d4: bool, d5: bool, d6: bool, d7: bool): (n: nat)
    ensures n < 256 && (n < 128 <==> !d7)
  {
    (if d0 then 1 else 0) + (if d1 then 2 else 0) + (if d2 then 4 else 0) + (if d3 then 8 else 0)
    + (if d4 then 16 else 0) + (if d5 then 32 else 0) + (if d6 then 64 else 0) + (if d7 then 128 else 0)
  }

  predicate Odd(n: nat) { n % 2 == 1 }

  /** The byte with this value, and the value of a byte, by their eight bits. */
  function ToByte(n: nat): bv8
    requires n < 256
  {
    var b := n / 2;
    var c := b / 2;
    var d := c / 2;
    var e := d / 2;
    var f := e / 2;
    var g := f / 2;
    var h := g / 2;
    Byte(Odd(n), Odd(b), Odd(c), Odd(d), Odd(e), Odd(f), Odd(g), Odd(h))
  }

  function FromByte(b: bv8): (n: nat)
    ensures n < 256
  {
    Number(b & 0x01 != 0, b & 0x02 != 0, b & 0x04 != 0, b & 0x08 != 0,
           b & 0x10 != 0, b & 0x20 != 0, b & 0x40 != 0, b & 0x80 != 0)
  }

  lemma BitsBack(d0: bool, d1: bool, d2: bool, d3: bool, d4: bool, d5: bool, d6: bool, d7: bool)
    ensures var b := Byte(d0, d1, d2, d3, d4, d5, d6, d7);
            && (b & 0x01 != 0 <==> d0) && (b & 0x02 != 0 <==> d1) && (b & 0x04 != 0 <==> d2) && (b & 0x08 != 0 <==> d3)
            && (b & 0x10 != 0 <==> d4) && (b & 0x20 != 0 <==> d5) && (b & 0x40 != 0 <==> d6) && (b & 0x80 != 0 <==> d7)
  {
  }

  lemma Half(n: nat)
    ensures n == n / 2 + n / 2 + if Odd(n) then 1 else 0
  {
  }

  lemma Weigh(a: nat, b: nat, c: nat, d: nat, e: nat, f: nat, g: nat, h: nat,
              d0: bool, d1: bool, d2: bool, d3: bool, d4: bool, d5: bool, d6: bool, d7: bool)
    requires a == b + b + (if d0 then 1 else 0) && b == c + c + (if d1 then 1 else 0)
    requires c == d + d + (if d2 then 1 else 0) && d == e + e + (if d3 then 1 else 0)
    requires e == f + f + (if d4 then 1 else 0) && f == g + g + (if d5 then 1 else 0)
    requires g == h + h + (if d6 then 1 else 0) && h == if d7 then 1 else 0
    ensures a == Number(d0, d1, d2, d3, d4, d5, d6, d7)
  {
  }

  lemma TopBit(h: nat)
    requires h < 2
    ensures h == if Odd(h) then 1 else 0
  {
  }

  lemma ByteRoundTrip(n: nat)
    requires n < 256
    ensures FromByte(ToByte(n)) == n
    ensures n < 128 ==> ToByte(n) & 0x80 == 0
  {
    hide Byte, Number, Odd;
    var b := n / 2;
    var c := b / 2;
    var d := c / 2;
    var e := d / 2;
    var f := e / 2;
    var g := f / 2;
    var h := g / 2;
    Half(n); Half(b); Half(c); Half(d); Half(e); Half(f); Half(g);
    TopBit(h);
    BitsBack(Odd(n), Odd(b), Odd(c), Odd(d), Odd(e), Odd(f), Odd(g), Odd(h));
    Weigh(n, b, c, d, e, f, g, h, Odd(n), Odd(b), Odd(c), Odd(d), Odd(e), Odd(f), Odd(g), Odd(h));
  }

  /** The value of a byte is the number it stands for, and the other way round. */
  lemma ByteValue(b: bv8)
    ensures FromByte(b) == b as int
  {
  }

  lemma ValueByte(n: nat)
    requires n < 256
    ensures ToByte(n) == n as bv8
  {
    hide ToByte, FromByte;
    ByteRoundTrip(n);
    ByteValue(ToByte(n));
  }

  function Pack(n: nat, width: nat): (s: Bytes)
    ensures |s| == width
  {
    if width == 0 then [] else Pack(n / 256, width - 1) + [ToByte(n % 256)]
  }

  function Unpack(s: Bytes): nat {
    if s == [] then 0 else Unpack(s[..|s| - 1]) * 256 + FromByte(s[|s| - 1])
  }

  function Pow256(width: nat): nat {
    if width == 0 then 1 else 256 * Pow256(width - 1)
  }

  lemma {:induction false} PackUnpack(n: nat, width: nat)
    requires n < Pow256(width)
    ensures Unpack(Pack(n, width)) == n
  {
    hide ToByte, FromByte;
    if width > 0 {
      PackUnpack(n / 256, width - 1);
      ByteRoundTrip(n % 256);
      assert Pack(n, width)[..width - 1] == Pack(n / 256, width - 1);
    }
  }

  lemma Widths()
    ensures Pow256(2) == 65536 && Pow256(8) == LIMIT
  {
    assert Pow256(1) == 256 && Pow256(2) == 65536;
    assert Pow256(4) == 256 * Pow256(3) == 256 * 256 * Pow256(2);
    assert Pow256(6) == 256 * Pow256(5) == 256 * 256 * Pow256(4);
    assert Pow256(8) == 256 * Pow256(7) == 256 * 256 * Pow256(6);
  }

  // ---- Masking ----------------------------------------------------------------------

  function Masked(data: Bytes, key: Bytes): (r: Bytes)
    requires |key| == 4
    ensures |r| == |data|
  {
    seq(|data|, i requires 0 <= i < |data| => data[i] ^ key[i % 4])
  }

  lemma XorTwice(x: bv8, y: bv8)
    ensures (x ^ y) ^ y == x
  {
  }

  /** Unmasking is masking: doing it twice gives the data back, whatever its length. */
  lemma MaskTwice(data: Bytes, key: Bytes)
    requires |key| == 4
    ensures Masked(Masked(data, key), key) == data
  {
    forall i | 0 <= i < |data|
      ensures Masked(Masked(data, key), key)[i] == data[i]
    {
      XorTwice(data[i], key[i % 4]);
    }
  }

  // ---- The wire format ----------------------------------------------------------------

  /** The length field in its three forms, with the mask bit. */
  function LengthField(length: nat, mask: bv8): (s: Bytes)
    requires length < LIMIT
    ensures |s| == if length < 126 then 1 else if length < 65536 then 3 else 9
  {
    if length < 126 then [mask | ToByte(length)]
    else if length < 65536 then [mask | 126] + Pack(length, 2)
    else [mask | 127] + Pack(length, 8)
  }

  /** A frame as a peer may send it: any high bits in the first byte, masked with a key or not. */
  function Wire(f: Frame, high: bv8, key: Option<Bytes>): Bytes
    requires Fits(f) && (key.Some? ==> |key.value| == 4)
  {
    [(high & 0xF0) | f.opcode]
    + (match key
       case None => LengthField(|f.data|, 0) + f.data
       case Some(k) => LengthField(|f.data|, 0x80) + k + Masked(f.data, k))
  }

  datatype Parsed = Parsed(frame: Frame, rest: Bytes)

  /** The fields of the two bytes a frame begins with. */
  function OpcodeOf(b: bv8): bv8 { b & 0x0F }

  predicate IsMasked(b: bv8) { b & 0x80 != 0 }

  function CodeOf(b: bv8): nat { FromByte(b & 0x7F) }

  /** How many bytes of length follow. */
  function Extra(code: nat): nat {
    if code == 126 then 2 else if code == 127 then 8 else 0
  }

  /** The payload, and what follows it. */
  function ParsePayload(opcode: bv8, masked: bool, length: nat, u: Bytes): (p: Option<Parsed>)
    ensures p.Some? ==> |p.value.rest| + length + (if masked then 4 else 0) == |u| && |p.value.frame.data| == length
  {
    var key := if masked then 4 else 0;
    if |u| < key + length then None
    else
      var data := if masked then Masked(u[4..4 + length], u[..4]) else u[..length];
      Some(Parsed(Frame(opcode, data), u[key + length..]))
  }

  /** What follows the first two bytes: the longer forms of the length, the mask key and the payload. */
  function ParseBody(opcode: bv8, masked: bool, code: nat, t: Bytes): (p: Option<Parsed>)
    ensures p.Some? ==> |p.value.rest| <= |t|
  {
    var n := Extra(code);
    if |t| < n then None
    else ParsePayload(opcode, masked, if n == 0 then code else Unpack(t[..n]), t[n..])
  }

  /** The first frame of a byte stream, and what follows it; None if the stream ends before it does. */
  function Parse(s: Bytes): (p: Option<Parsed>)
    ensures p.Some? ==> |p.value.rest| < |s|
  {
    if |s| < 2 then None else ParseBody(OpcodeOf(s[0]), IsMasked(s[1]), CodeOf(s[1]), s[2..])
  }

  // ---- The same byte by byte --------------------------------------------------------

  /** How many bytes of a frame come before its key or payload (section 5.2 of RFC 6455). */
  ghost function HeaderSize(s: Bytes): nat
    requires |s| >= 2
  {
    if s[1] & 0x7F == 126 then 4 else if s[1] & 0x7F == 127 then 10 else 2
  }

  /** The number in four bytes, the most significant one first. */
  ghost function FourAt(s: Bytes, i: nat): nat
    requires i + 4 <= |s|
  {
    0x100_0000 * s[i] as int + 0x1_0000 * s[i + 1] as int + 0x100 * s[i + 2] as int + s[i + 3] as int
  }

  /** The length of the payload: seven bits, or two or eight bytes with the most significant one first. */
  ghost function PayloadSize(s: Bytes): nat
    requires |s| >= 2 && |s| >= HeaderSize(s)
  {
    if s[1] & 0x7F == 126 then 0x100 * s[2] as int + s[3] as int
    else if s[1] & 0x7F == 127 then 0x1_0000_0000 * FourAt(s, 2) + FourAt(s, 6)
    else (s[1] & 0x7F) as int
  }

  /** Where the payload begins: after the header and, if the mask bit is set, four bytes of key. */
  ghost function PayloadStart(s: Bytes): nat
    requires |s| >= 2
  {
    HeaderSize(s) + if s[1] & 0x80 != 0 then 4 else 0
  }

  /** The stream holds a whole frame. */
  ghost predicate Whole(s: Bytes) {
    |s| >= 2 && |s| >= HeaderSize(s) && |s| >= PayloadStart(s) + PayloadSize(s)
  }

  /** These are its fields, byte by byte, and this is what follows it. */
  ghost predicate Reads(s: Bytes, f: Frame, rest: Bytes)
    requires Whole(s)
  {
    && f.opcode == s[0] & 0x0F && |f.data| == PayloadSize(s)
    && (forall i :: 0 <= i < |f.data| ==>
          f.data[i] == if s[1] & 0x80 != 0 then s[PayloadStart(s) + i] ^ s[HeaderSize(s) + i % 4]
                       else s[PayloadStart(s) + i])
    && rest == s[PayloadStart(s) + PayloadSize(s)..]
  }

  lemma UnpackLast(s: Bytes, b: bv8)
    ensures Unpack(s + [b]) == 0x100 * Unpack(s) + b as int
  {
    hide FromByte;
    assert (s + [b])[..|s|] == s;
    ByteValue(b);
  }

  lemma UnpackTwo(a: bv8, b: bv8)
    ensures Unpack([a, b]) == 0x100 * a as int + b as int
  {
    UnpackLast([], a);
    UnpackLast([a], b);
    assert [] + [a] == [a] && [a] + [b] == [a, b];
  }

  lemma FourMore(x: int, a: int, b: int, c: int, d: int, y: int, z: int, u: int, v: int)
    requires y == 0x100 * x + a && z == 0x100 * y + b && u == 0x100 * z + c && v == 0x100 * u + d
    ensures v == 0x1_0000_0000 * x + 0x100_0000 * a + 0x1_0000 * b + 0x100 * c + d
  {
  }

  lemma UnpackFour(s: Bytes, n: nat)
    requires n + 4 <= |s|
    ensures Unpack(s[..n + 4]) == 0x1_0000_0000 * Unpack(s[..n]) + FourAt(s, n)
  {
    hide Unpack;
    forall j | n <= j < n + 4
      ensures Unpack(s[..j + 1]) == 0x100 * Unpack(s[..j]) + s[j] as int
    {
      UnpackLast(s[..j], s[j]);
      assert s[..j] + [s[j]] == s[..j + 1];
    }
    FourMore(Unpack(s[..n]), s[n] as int, s[n + 1] as int, s[n + 2] as int, s[n + 3] as int,
             Unpack(s[..n + 1]), Unpack(s[..n + 2]), Unpack(s[..n + 3]), Unpack(s[..n + 4]));
  }

  lemma SameFour(s: Bytes, i: nat, t: Bytes, j: nat)
    requires i + 4 <= |s| && j + 4 <= |t|
    requires s[i] == t[j] && s[i + 1] == t[j + 1] && s[i + 2] == t[j + 2] && s[i + 3] == t[j + 3]
    ensures FourAt(s, i) == FourAt(t, j)
  {
  }

  lemma UnpackEight(s: Bytes)
    requires |s| == 8
    ensures Unpack(s) == 0x1_0000_0000 * FourAt(s, 0) + FourAt(s, 4)
  {
    assert Unpack(s[..0]) == 0;
    UnpackFour(s, 0);
    UnpackFour(s, 4);
    hide Unpack, FourAt;
    assert s[..8] == s;
  }

  /** The code of the length field, as a byte and as a number. */
  lemma CodeIs(b: bv8)
    ensures CodeOf(b) == (b & 0x7F) as int
    ensures b & 0x7F == 126 <==> CodeOf(b) == 126
    ensures b & 0x7F == 127 <==> CodeOf(b) == 127
  {
    hide FromByte;
    ByteValue(b & 0x7F);
  }

  /** Where the reader looks for the length is where it is. */
  lemma LengthIs(s: Bytes)
    requires |s| >= 2
    ensures var code, t := CodeOf(s[1]), s[2..];
            && HeaderSize(s) == 2 + Extra(code)
            && (|t| >= Extra(code) ==>
                  PayloadSize(s) == if Extra(code) == 0 then code else Unpack(t[..Extra(code)]))
  {
    hide CodeOf, Unpack, FourAt;
    CodeIs(s[1]);
    var code, t := CodeOf(s[1]), s[2..];
    if code == 126 && |t| >= 2 {
      UnpackTwo(s[2], s[3]);
      assert t[..2] == [s[2], s[3]];
    } else if code == 127 && |t| >= 8 {
      UnpackEight(t[..8]);
      SameFour(t[..8], 0, s, 2);
      SameFour(t[..8], 4, s, 6);
    }
  }

  /** Parse reads whole frames and nothing else, each byte from its place in the stream. */
  lemma ParseReads(s: Bytes)
    ensures Parse(s).Some? <==> Whole(s)
    ensures Parse(s).Some? ==> Reads(s, Parse(s).value.frame, Parse(s).value.rest)
  {
    hide CodeOf, Unpack, PayloadSize, HeaderSize, Extra;
    if |s| >= 2 {
      LengthIs(s);
    }
  }

  /** The whole frames of a byte stream, up to where it ends or breaks off. */
  function Frames(s: Bytes): seq<Frame>
    decreases |s|
  {
    match Parse(s)
    case None => []
    case Some(p) => [p.frame] + Frames(p.rest)
  }

  // ---- Round trip -------------------------------------------------------------------

  lemma HeadBits(high: bv8, opcode: bv8)
    requires opcode <= 0x0F
    ensures OpcodeOf((high & 0xF0) | opcode) == opcode
  {
  }

  lemma CodeBits(mask: bv8, code: bv8)
    requires mask in {0, 0x80} && code & 0x80 == 0
    ensures CodeOf(mask | code) == FromByte(code) && (IsMasked(mask | code) <==> mask == 0x80)
  {
    hide FromByte;
    assert (mask | code) & 0x7F == code;
  }

  /** The codes that say that a longer length follows. */
  lemma LongCodes()
    ensures FromByte(126) == 126 && FromByte(127) == 127
  {
  }

  /** Reading a length field gives back the length and the mask bit. */
  lemma LengthReads(length: nat, mask: bv8)
    requires length < LIMIT && mask in {0, 0x80}
    ensures var s := LengthField(length, mask);
            && (IsMasked(s[0]) <==> mask == 0x80) && Extra(CodeOf(s[0])) == |s| - 1
            && length == if |s| == 1 then CodeOf(s[0]) else Unpack(s[1..])
  {
    hide CodeOf, IsMasked, ToByte, FromByte;
    Widths();
    LongCodes();
    if length < 126 {
      ByteRoundTrip(length);
      CodeBits(mask, ToByte(length));
    } else if length < 65536 {
      CodeBits(mask, 126);
      PackUnpack(length, 2);
      assert LengthField(length, mask)[1..] == Pack(length, 2);
    } else {
      CodeBits(mask, 127);
      PackUnpack(length, 8);
      assert LengthField(length, mask)[1..] == Pack(length, 8);
    }
  }

  /** A well-formed frame in parts is read part by part. */
  lemma ParseParts(head: bv8, field: Bytes, length: nat, mask: bv8, key: Bytes, content: Bytes, rest: Bytes)
    requires length < LIMIT && mask in {0, 0x80} && field == LengthField(length, mask)
    requires |content| == length && |key| == if mask == 0x80 then 4 else 0
    ensures Parse([head] + (field + key + content) + rest)
            == Some(Parsed(Frame(OpcodeOf(head), if mask == 0x80 then Masked(content, key) else content), rest))
  {
    hide Masked, Unpack, Pack, Extra, LengthField, ParsePayload, OpcodeOf, IsMasked, CodeOf;
    LengthReads(length, mask);
    var u := key + content + rest;
    Slices(head, field, key, content, rest);
    PayloadParts(OpcodeOf(head), mask == 0x80, length, key, content, rest);
  }

  lemma Slices(head: bv8, field: Bytes, key: Bytes, content: Bytes, rest: Bytes)
    requires field != []
    ensures var s, u := [head] + (field + key + content) + rest, key + content + rest;
            && |s| >= 2 && s[0] == head && s[1] == field[0]
            && |s[2..]| >= |field| - 1 && s[2..][..|field| - 1] == field[1..] && s[2..][|field| - 1..] == u
  {
    var s, u := [head] + (field + key + content) + rest, key + content + rest;
    var t := field[1..] + u;
    assert field == [field[0]] + field[1..];
    assert s == [head, field[0]] + t;
    assert s[2..] == t;
  }

  lemma PayloadParts(opcode: bv8, masked: bool, length: nat, key: Bytes, content: Bytes, rest: Bytes)
    requires |content| == length && |key| == if masked then 4 else 0
    ensures ParsePayload(opcode, masked, length, key + content + rest)
            == Some(Parsed(Frame(opcode, if masked then Masked(content, key) else content), rest))
  {
    hide Masked;
    var u := key + content + rest;
    if masked {
      assert u[4..4 + length] == content && u[..4] == key;
    } else {
      assert u[..length] == content;
    }
    assert u[|key| + length..] == rest;
  }

  lemma ParseWire(f: Frame, high: bv8, key: Option<Bytes>, rest: Bytes)
    requires Fits(f) && (key.Some? ==> |key.value| == 4)
    ensures Parse(Wire(f, high, key) + rest) == Some(Parsed(f, rest))
  {
    hide Masked, LengthField, Parse, OpcodeOf;
    HeadBits(high, f.opcode);
    match key {
      case None =>
        ParseParts((high & 0xF0) | f.opcode, LengthField(|f.data|, 0), |f.data|, 0, [], f.data, rest);
        assert LengthField(|f.data|, 0) + [] == LengthField(|f.data|, 0);
      case Some(k) =>
        ParseParts((high & 0xF0) | f.opcode, LengthField(|f.data|, 0x80), |f.data|, 0x80, k, Masked(f.data, k), rest);
        MaskTwice(f.data, k);
    }
  }

  /** What a peer sends: frames with the way each is sent. */
  datatype Sent = Sent(frame: Frame, high: bv8, key: Option<Bytes>)

  ghost predicate Sendable(sent: seq<Sent>) {
    forall x :: x in sent ==> Fits(x.frame) && (x.key.Some? ==> |x.key.value| == 4)
  }

  function Stream(sent: seq<Sent>): Bytes
    requires Sendable(sent)
  {
    if sent == [] then [] else Wire(sent[0].frame, sent[0].high, sent[0].key) + Stream(sent[1..])
  }

  function Payloads(sent: seq<Sent>): seq<Frame> {
    seq(|sent|, i requires 0 <= i < |sent| => sent[i].frame)
  }

  lemma NoFrame()
    ensures Frames([]) == [] && Left([]) == []
  {
  }

  lemma NextFrame(s: Bytes, f: Frame, rest: Bytes)
    requires Parse(s) == Some(Parsed(f, rest))
    ensures Frames(s) == [f] + Frames(rest) && Left(s) == Left(rest)
  {
    hide Parse;
  }

  /** Reading the concatenated encodings returns exactly the frames sent, and consumes all bytes. */
  lemma {:induction false} StreamReads(sent: seq<Sent>)
    requires Sendable(sent)
    ensures Frames(Stream(sent)) == Payloads(sent)
    ensures Left(Stream(sent)) == []
  {
    hide Parse, Wire, Fits, Frames, Left;
    if sent == [] {
      NoFrame();
    } else {
      var x, rest := sent[0], Stream(sent[1..]);
      ParseWire(x.frame, x.high, x.key, rest);
      NextFrame(Stream(sent), x.frame, rest);
      StreamReads(sent[1..]);
      assert Payloads(sent) == [x.frame] + Payloads(sent[1..]);
    }
  }

  /** The bytes of an unfinished frame at the end of a stream. */
  function Left(s: Bytes): Bytes
    decreases |s|
  {
    match Parse(s)
    case None => s
    case Some(p) => Left(p.rest)
  }

  // ---- make_frame ------------------------------------------------------------------

  /** The server's own encoding: FIN set, no mask. */
  function Encoding(f: Frame): Bytes
    requires Fits(f)
  {
    Wire(f, 0x80, None)
  }

  /** The length bytes of an unmasked frame. */
  function PlainLength(length: nat): Bytes
    requires length < LIMIT
  {
    if length < 126 then [ToByte(length)]
    else if length < 65536 then [126] + Pack(length, 2)
    else [127] + Pack(length, 8)
  }

  lemma NoBits(b: bv8, opcode: bv8)
    ensures 0 | b == b && (0x80 & 0xF0) | opcode == 0x80 | opcode
  {
  }

  lemma EncodingParts(f: Frame)
    requires Fits(f)
    ensures Encoding(f) == [0x80 | f.opcode] + PlainLength(|f.data|) + f.data
  {
    hide Pack, ToByte;
    var length := |f.data|;
    NoBits(126, f.opcode);
    NoBits(127, f.opcode);
    if length < 126 {
      NoBits(ToByte(length), f.opcode);
    }
    assert LengthField(length, 0) == PlainLength(length);
  }

  lemma PlainUnmasked(length: nat)
    requires length < LIMIT
    ensures |PlainLength(length)| >= 1 && PlainLength(length)[0] & 0x80 == 0
  {
    hide ToByte;
    if length < 126 {
      ByteRoundTrip(length);
    }
  }

  method MakeFrame(opcode: bv8, data: Bytes) returns (frame: Bytes)
    requires Fits(Frame(opcode, data))
    ensures frame == Encoding(Frame(opcode, data)) && |frame| >= 2
    ensures Parse(frame) == Some(Parsed(Frame(opcode, data), []))
    ensures frame[0] == 0x80 | opcode && frame[1] & 0x80 == 0
  {
    hide Parse, Pack, ToByte, Encoding;
    frame := [0x80 | opcode];
    var length := |data|;
    if length < 126 {
      frame := frame + [ToByte(length)];
    } else if length < 65536 {
      frame := frame + [126];
      frame := frame + Pack(length, 2);
    } else {
      frame := frame + [127];
      frame := frame + Pack(length, 8);
    }
    assert frame == [0x80 | opcode] + PlainLength(length);
    PlainUnmasked(length);
    frame := frame + data;
    EncodingParts(Frame(opcode, data));
    EncodingReads(Frame(opcode, data));
  }

  lemma EncodingReads(f: Frame)
    requires Fits(f)
    ensures Parse(Encoding(f)) == Some(Parsed(f, []))
  {
    hide Parse, Wire;
    ParseWire(f, 0x80, None, []);
    assert Wire(f, 0x80, None) + [] == Wire(f, 0x80, None);
  }

  lemma {:induction false} UnpackBound(s: Bytes)
    ensures Unpack(s) < Pow256(|s|)
  {
    if s != [] {
      UnpackBound(s[..|s| - 1]);
    }
  }

  /** make_frame uses the shortest form: no byte string that reads as this one frame is shorter. */
  lemma ShortestForm(f: Frame, s: Bytes)
    requires Fits(f) && Parse(s) == Some(Parsed(f, []))
    ensures |Encoding(f)| <= |s|
  {
    hide CodeOf, IsMasked, Unpack;
    Widths();
    if Extra(CodeOf(s[1])) == 2 {
      UnpackBound(s[2..][..2]);
    }
    SevenBits(s[1]);
  }

  lemma SevenBits(b: bv8)
    ensures CodeOf(b) <= 127
  {
    assert (b & 0x7F) & 0x80 == 0;
  }

  // ---- read_frame ------------------------------------------------------------------

  /** asyncio's StreamReader over everything the peer will have sent when it closes. */
  class Reader {
    var rest: Bytes

    constructor (input: Bytes)
      ensures rest == input
    {
      rest := input;
    }

    /** readexactly: None is IncompleteReadError, which uses up what there was. */
    method ReadExactly(n: nat) returns (bytes: Option<Bytes>)
      modifies this
      ensures bytes == if n <= |old(rest)| then Some(old(rest)[..n]) else None
      ensures rest == if n <= |old(rest)| then old(rest)[n..] else []
    {
      if n <= |rest| {
        bytes := Some(rest[..n]);
        rest := rest[n..];
      } else {
        bytes := None;
        rest := [];
      }
    }
  }

  /** The unmasking loop, in place. */
  method Unmask(data: array<bv8>, mask: Bytes)
    requires |mask| == 4
    modifies data
    ensures data[..] == Masked(old(data[..]), mask)
    ensures forall i :: 0 <= i < data.Length ==> data[i] == old(data[i]) ^ mask[i % 4]
  {
    for i := 0 to data.Length
      invariant forall k :: 0 <= k < i ==> data[k] == old(data[k]) ^ mask[k % 4]
      invariant forall k :: i <= k < data.Length ==> data[k] == old(data[k])
    {
      data[i] := data[i] ^ mask[i % 4];
    }
  }

  method UnmaskCopy(bytes: Bytes, mask: Bytes) returns (data: Bytes)
    requires |mask| == 4
    ensures data == Masked(bytes, mask)
  {
    var buffer := new bv8[|bytes|](i requires 0 <= i < |bytes| => bytes[i]);
    assert buffer[..] == bytes;
    Unmask(buffer, mask);
    data := buffer[..];
  }

  /** The length, from the code and if need be the bytes after it. */
  method ReadLength(reader: Reader, code: nat) returns (length: Option<nat>)
    modifies reader
    ensures length == if |old(reader.rest)| < Extra(code) then None
                      else Some(if Extra(code) == 0 then code else Unpack(old(reader.rest)[..Extra(code)]))
    ensures reader.rest == if |old(reader.rest)| < Extra(code) then [] else old(reader.rest)[Extra(code)..]
  {
    if code == 126 {
      var bytes := reader.ReadExactly(2);
      length := if bytes.Some? then Some(Unpack(bytes.value)) else None;
    } else if code == 127 {
      var bytes := reader.ReadExactly(8);
      length := if bytes.Some? then Some(Unpack(bytes.value)) else None;
    } else {
      length := Some(code);
    }
  }

  /** read_frame: exactly the first frame of what is to come, or None if the stream ends before it does. */
  method ReadFrame(reader: Reader) returns (frame: Option<Frame>)
    modifies reader
    ensures frame == match Parse(old(reader.rest)) { case None => None case Some(p) => Some(p.frame) }
    ensures Parse(old(reader.rest)).Some? ==> reader.rest == Parse(old(reader.rest)).value.rest
    ensures |reader.rest| <= |old(reader.rest)|
    ensures frame.Some? <==> Whole(old(reader.rest))
    ensures frame.Some? ==> Reads(old(reader.rest), frame.value, reader.rest)
  {
    hide Masked, Unpack, Extra, OpcodeOf, IsMasked, CodeOf, Whole, Reads;
    ParseReads(reader.rest);
    frame := None;
    var head := reader.ReadExactly(2);
    if head.Some? {
      var opcode, masked, code := OpcodeOf(head.value[0]), IsMasked(head.value[1]), CodeOf(head.value[1]);
      var length := ReadLength(reader, code);
      if length.Some? {
        var data := ReadPayload(reader, masked, length.value);
        if data.Some? {
          frame := Some(Frame(opcode, data.value));
        }
      }
    }
  }

  method ReadPayload(reader: Reader, masked: bool, length: nat) returns (data: Option<Bytes>)
    modifies reader
    ensures var s, key := old(reader.rest), if masked then 4 else 0;
            if |s| < key + length then data == None
            else && data == Some(if masked then Masked(s[4..4 + length], s[..4]) else s[..length])
                 && reader.rest == s[key + length..]
    ensures |reader.rest| <= |old(reader.rest)|
  {
    hide Masked;
    ghost var s := reader.rest;
    assert |s| >= 4 + length ==> s[4..][..length] == s[4..4 + length] && s[4..][length..] == s[4 + length..];
    data := None;
    if masked {
      var mask := reader.ReadExactly(4);
      if mask.Some? {
        var bytes := reader.ReadExactly(length);
        if bytes.Some? {
          var clear := UnmaskCopy(bytes.value, mask.value);
          data := Some(clear);
        }
      }
    } else {
      data := reader.ReadExactly(length);
    }
  }

  // ---- The echo loop ---------------------------------------------------------------

  function FirstClose(frames: seq<Frame>): (n: nat)
    ensures n <= |frames| && (n < |frames| ==> frames[n].opcode == CLOSE)
    ensures forall i :: 0 <= i < n ==> frames[i].opcode != CLOSE
  {
    if frames == [] || frames[0].opcode == CLOSE then 0 else 1 + FirstClose(frames[1..])
  }

  predicate Message(f: Frame) { f.opcode in {TEXT, BINARY} }

  /** The text and binary frames, in order. */
  function Messages(frames: seq<Frame>): seq<Frame> {
    if frames == [] then []
    else Messages(frames[..|frames| - 1]) + if Message(frames[|frames| - 1]) then [frames[|frames| - 1]] else []
  }

  /** The text and binary frames before the first close, then one empty close if there is one. */
  function Replies(frames: seq<Frame>): seq<Frame> {
    var n := FirstClose(frames);
    Messages(frames[..n]) + if n < |frames| then [Frame(CLOSE, [])] else []
  }

  ghost predicate AllFit(frames: seq<Frame>) {
    forall f :: f in frames ==> Fits(f)
  }

  function Encodings(frames: seq<Frame>): Bytes
    requires AllFit(frames)
  {
    if frames == [] then [] else Encodings(frames[..|frames| - 1]) + Encoding(frames[|frames| - 1])
  }

  lemma EncodingsOne(frames: seq<Frame>, f: Frame)
    requires AllFit(frames) && Fits(f)
    ensures AllFit(frames + [f]) && Encodings(frames + [f]) == Encodings(frames) + Encoding(f)
  {
    assert (frames + [f])[..|frames|] == frames;
  }

  lemma MessagesOne(frames: seq<Frame>, f: Frame)
    ensures Messages(frames + [f]) == Messages(frames) + if Message(f) then [f] else []
  {
    assert (frames + [f])[..|frames|] == frames;
  }

  /** A frame that was read can be written. */
  lemma ParsedFits(s: Bytes)
    ensures Parse(s).Some? ==> Fits(Parse(s).value.frame)
  {
    hide Masked, Unpack, OpcodeOf, IsMasked, CodeOf;
    if Parse(s).Some? {
      LowBits(s[0]);
      Widths();
      SevenBits(s[1]);
      if Extra(CodeOf(s[1])) != 0 {
        UnpackBound(s[2..][..Extra(CodeOf(s[1]))]);
      }
    }
  }

  lemma LowBits(b: bv8)
    ensures OpcodeOf(b) <= 0x0F
  {
  }

  lemma {:induction false} MessagesFit(frames: seq<Frame>)
    requires AllFit(frames)
    ensures AllFit(Messages(frames))
  {
    if frames != [] {
      MessagesFit(frames[..|frames| - 1]);
    }
  }

  lemma {:induction false} FramesFit(s: Bytes)
    ensures AllFit(Frames(s))
    decreases |s|
  {
    if Parse(s).Some? {
      ParsedFits(s);
      FramesFit(Parse(s).value.rest);
    }
  }

  /** Every reply to a stream can be written. */
  lemma RepliesFit(s: Bytes)
    ensures AllFit(Replies(Frames(s)))
  {
    FramesFit(s);
    MessagesFit(Frames(s)[..FirstClose(Frames(s))]);
  }

  lemma {:induction false} MessagesCons(f: Frame, rest: seq<Frame>)
    ensures Messages([f] + rest) == (if Message(f) then [f] else []) + Messages(rest)
    decreases |rest|
  {
    if rest == [] {
      MessagesOne([], f);
      assert [] + [f] == [f] + rest;
    } else {
      var before, last := rest[..|rest| - 1], rest[|rest| - 1];
      MessagesCons(f, before);
      MessagesOne([f] + before, last);
      MessagesOne(before, last);
      assert [f] + before + [last] == [f] + rest && before + [last] == rest;
    }
  }

  /** The answers, frame by frame. */
  lemma RepliesCons(f: Frame, rest: seq<Frame>)
    ensures Replies([f] + rest) ==
            if f.opcode == 0x8 then [Frame(0x8, [])]
            else (if f.opcode == 0x1 || f.opcode == 0x2 then [f] else []) + Replies(rest)
    ensures Replies([]) == []
  {
    var frames := [f] + rest;
    assert frames[1..] == rest;
    if f.opcode != CLOSE {
      var n := FirstClose(rest);
      assert FirstClose(frames) == n + 1;
      assert frames[..n + 1] == [f] + rest[..n];
      MessagesCons(f, rest[..n]);
    }
  }

  /** What a stream gets as the answer to its next frame. */
  lemma NextReply(s: Bytes)
    ensures Replies(Frames(s)) ==
            match Parse(s) {
              case None => []
              case Some(p) =>
                if p.frame.opcode == CLOSE then [Frame(CLOSE, [])]
                else (if Message(p.frame) then [p.frame] else []) + Replies(Frames(p.rest))
            }
    ensures Parse(s).Some? ==> Fits(Parse(s).value.frame) && |Parse(s).value.rest| < |s|
  {
    match Parse(s) {
      case None =>
        RepliesCons(Frame(CLOSE, []), []);
      case Some(p) =>
        ParsedFits(s);
        RepliesCons(p.frame, Frames(p.rest));
    }
  }

  /** The answers given so far, and those still to come. */
  ghost predicate Midway(replies: seq<Frame>, sent: seq<Frame>, todo: seq<Frame>, lost: bool) {
    AllFit(replies) && AllFit(sent) && sent <= replies && (!lost ==> replies == sent + todo)
  }

  lemma SendOne(replies: seq<Frame>, sent: seq<Frame>, f: Frame, todo: seq<Frame>)
    requires Midway(replies, sent, [f] + todo, false)
    ensures Midway(replies, sent + [f], todo, false) && Midway(replies, sent + [f], todo, true) && Fits(f)
    ensures Encodings(sent + [f]) == Encodings(sent) + Encoding(f)
  {
    hide Encoding, Fits;
    assert sent + ([f] + todo) == sent + [f] + todo;
    assert (sent + [f] + todo)[|sent|] == f && f in replies;
    EncodingsOne(sent, f);
  }

  /** Does draining the writer fail?  Not on a connection that holds. */
  method ConnectionError(steady: bool) returns (failed: bool)
    ensures steady ==> !failed
  {
    failed := *;
    if steady {
      failed := false;
    }
  }

  /** The echo loop.  It answers, in order, every text and binary frame before the first close with the same
      frame, and the first close with one empty close; if writing fails it stops after some of the answers. */
  method Echo(reader: Reader, steady: bool) returns (out: Bytes, lost: bool, ghost sent: seq<Frame>)
    modifies reader
    ensures AllFit(sent) && out == Encodings(sent) && sent <= Replies(Frames(old(reader.rest)))
    ensures !lost ==> sent == Replies(Frames(old(reader.rest)))
    ensures steady ==> !lost
  {
    hide Parse, Encoding, Message, Frames, Replies, Fits;
    ghost var replies := Replies(Frames(reader.rest));
    RepliesFit(reader.rest);
    out, lost, sent := [], false, [];
    var closed := false;
    while !closed && !lost
      invariant Midway(replies, sent, if closed then [] else Replies(Frames(reader.rest)), lost)
      invariant out == Encodings(sent) && (steady ==> !lost)
      decreases |reader.rest|, !closed, !lost
    {
      NextReply(reader.rest);
      var frame := ReadFrame(reader);
      if frame.None? {
        closed := true;
      } else if frame.value.opcode == CLOSE {
        SendOne(replies, sent, Frame(CLOSE, []), []);
        var reply := MakeFrame(CLOSE, []);
        out, sent, closed := out + reply, sent + [Frame(CLOSE, [])], true;
        lost := ConnectionError(steady);
      } else if Message(frame.value) {
        SendOne(replies, sent, frame.value, Replies(Frames(reader.rest)));
        var reply := MakeFrame(frame.value.opcode, frame.value.data);
        out, sent := out + reply, sent + [frame.value];
        lost := ConnectionError(steady);
      }
    }
  }

  /** A client that reads the answers reads exactly them. */
  lemma EncodingsRead(frames: seq<Frame>)
    requires AllFit(frames)
    ensures Frames(Encodings(frames)) == frames && Left(Encodings(frames)) == []
  {
    EncodingsStream(frames);
    StreamReads(AsSent(frames));
    assert Payloads(AsSent(frames)) == frames;
  }

  function AsSent(frames: seq<Frame>): seq<Sent> {
    seq(|frames|, i requires 0 <= i < |frames| => Sent(frames[i], 0x80, None))
  }

  lemma {:induction false} StreamOne(sent: seq<Sent>, last: Sent)
    requires Sendable(sent + [last]) && Sendable(sent)
    ensures Stream(sent + [last]) == Stream(sent) + Wire(last.frame, last.high, last.key)
  {
    hide Wire, Fits;
    if sent == [] {
      assert [] + [last] == [last] && [last][1..] == [];
    } else {
      assert (sent + [last])[1..] == sent[1..] + [last];
      StreamOne(sent[1..], last);
    }
  }

  lemma {:induction false} EncodingsStream(frames: seq<Frame>)
    requires AllFit(frames)
    ensures Sendable(AsSent(frames)) && Encodings(frames) == Stream(AsSent(frames))
  {
    hide Wire, Fits;
    if frames != [] {
      var before, last := frames[..|frames| - 1], frames[|frames| - 1];
      EncodingsStream(before);
      assert AsSent(frames) == AsSent(before) + [Sent(last, 0x80, None)];
      StreamOne(AsSent(before), Sent(last, 0x80, None));
    }
  }

  /** End to end: whatever a peer sends, masked or not, the answers it reads back are its text and binary
      frames before its first close, then one empty close if it sent one. */
  lemma EchoEndToEnd(sent: seq<Sent>, answered: seq<Frame>)
    requires Sendable(sent) && AllFit(answered) && answered == Replies(Frames(Stream(sent)))
    ensures Frames(Encodings(answered)) == Replies(Payloads(sent)) && Left(Encodings(answered)) == []
  {
    StreamReads(sent);
    EncodingsRead(answered);
  }
}
