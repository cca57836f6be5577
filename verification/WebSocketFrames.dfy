// The frames of the tools tunnel on the wire (RFC 6455, sections 5.2 and 5.3).
module WebSocketFrames {
  import opened Options

  type Byte = n: int | 0 <= n < 256

  type Bytes = seq<Byte>

  // 8 MiB; the reader refuses a longer payload.
  const LIMIT := 8388608

  const TEXT: Byte := 0x1
  const CLOSE: Byte := 0x8
  const PING: Byte := 0x9
  const PONG: Byte := 0xA

  datatype Frame = Frame(opcode: Byte, payload: Bytes)

  /******* Numbers in network order *******/

  predicate Fits(n: nat, width: nat) {
    if width == 0 then n == 0 else Fits(n / 256, width - 1)
  }

  function BigEndian(n: nat, width: nat): (b: Bytes)
    ensures |b| == width
  {
    if width == 0 then [] else BigEndian(n / 256, width - 1) + [n % 256]
  }

  function Number(b: Bytes): nat {
    if b == [] then 0 else 256 * Number(b[..|b| - 1]) + b[|b| - 1]
  }

  lemma {:induction false} NumberSnoc(b: Bytes, last: Byte)
    ensures Number(b + [last]) == 256 * Number(b) + last
  {
    assert (b + [last])[..|b|] == b;
  }

  lemma {:induction false} NumberOfBigEndian(n: nat, width: nat)
    requires Fits(n, width)
    ensures Number(BigEndian(n, width)) == n
  {
    if width > 0 {
      var q, r := n / 256, n % 256;
      NumberOfBigEndian(q, width - 1);
      NumberSnoc(BigEndian(q, width - 1), r);
      assert n == 256 * q + r;
    }
  }

  lemma {:induction false} BigEndianOfNumber(b: Bytes)
    ensures Fits(Number(b), |b|)
    ensures BigEndian(Number(b), |b|) == b
  {
    if b != [] {
      var front, last := b[..|b| - 1], b[|b| - 1];
      BigEndianOfNumber(front);
      assert b == front + [last];
      NumberSnoc(front, last);
      assert Number(b) / 256 == Number(front) && Number(b) % 256 == last;
    }
  }

  lemma {:induction false} FitsWidths(n: nat)
    ensures Fits(n, 2) <==> n <= 65535
    ensures n <= 65535 ==> Fits(n, 8)
    ensures n <= LIMIT ==> Fits(n, 8)
  {
    FitsStep(n, 8);
    FitsStep(n / 256, 7);
    FitsStep(n / 256 / 256, 6);
    FitsStep(n / 256 / 256 / 256, 5);
    FitsZero(4);
    FitsStep(n, 2);
    FitsStep(n / 256, 1);
  }

  lemma FitsStep(n: nat, width: nat)
    requires width > 0
    ensures Fits(n, width) == Fits(n / 256, width - 1)
  {
  }

  lemma {:induction false} FitsZero(width: nat)
    ensures Fits(0, width)
  {
    if width > 0 { FitsZero(width - 1); }
  }

  /******* Masking *******/

  // Bitwise exclusive or of the lowest bits.
  function XorBits(a: nat, b: nat, bits: nat): nat {
    if bits == 0 then 0 else (if a % 2 == b % 2 then 0 else 1) + 2 * XorBits(a / 2, b / 2, bits - 1)
  }

  predicate FitsBits(n: nat, bits: nat) {
    if bits == 0 then n == 0 else FitsBits(n / 2, bits - 1)
  }

  lemma Halves(bit: nat, rest: nat)
    requires bit < 2
    ensures (bit + 2 * rest) / 2 == rest && (bit + 2 * rest) % 2 == bit
  {
  }

  lemma {:induction false} XorBitsTwice(a: nat, b: nat, bits: nat)
    requires FitsBits(a, bits)
    ensures FitsBits(XorBits(a, b, bits), bits)
    ensures XorBits(XorBits(a, b, bits), b, bits) == a
  {
    if bits > 0 {
      XorBitsTwice(a / 2, b / 2, bits - 1);
      Halves(if a % 2 == b % 2 then 0 else 1, XorBits(a / 2, b / 2, bits - 1));
    }
  }

  function PowerOfTwo(bits: nat): nat {
    if bits == 0 then 1 else 2 * PowerOfTwo(bits - 1)
  }

  lemma {:induction false} FitsPower(n: nat, bits: nat)
    ensures FitsBits(n, bits) <==> n < PowerOfTwo(bits)
  {
    if bits > 0 {
      FitsPower(n / 2, bits - 1);
    }
  }

  lemma {:induction false} FitsByte(n: nat)
    ensures FitsBits(n, 8) <==> n < 256
  {
    FitsPower(n, 8);
    assert PowerOfTwo(4) == 16 && PowerOfTwo(8) == 16 * PowerOfTwo(4);
  }

  function Xor(a: Byte, b: Byte): Byte {
    FitsByte(a);
    XorBitsTwice(a, b, 8);
    FitsByte(XorBits(a, b, 8));
    XorBits(a, b, 8)
  }

  lemma XorTwice(a: Byte, b: Byte)
    ensures Xor(Xor(a, b), b) == a
  {
    FitsByte(a);
    XorBitsTwice(a, b, 8);
  }

  // Bit k of a number.
  function Bit(n: nat, k: nat): nat {
    if k == 0 then n % 2 else Bit(n / 2, k - 1)
  }

  // It is exclusive or: a bit of the result is set when exactly one of the two is.
  lemma {:induction false} XorBit(a: Byte, b: Byte, k: nat)
    requires k < 8
    ensures Bit(Xor(a, b), k) == 1 <==> Bit(a, k) != Bit(b, k)
  {
    XorBitsBit(a, b, 8, k);
  }

  lemma {:induction false} XorBitsBit(a: nat, b: nat, bits: nat, k: nat)
    requires k < bits
    ensures Bit(XorBits(a, b, bits), k) == 1 <==> Bit(a, k) != Bit(b, k)
  {
    BitIsBit(a, k);
    BitIsBit(b, k);
    Halves(if a % 2 == b % 2 then 0 else 1, XorBits(a / 2, b / 2, bits - 1));
    if k > 0 {
      XorBitsBit(a / 2, b / 2, bits - 1, k - 1);
    }
  }

  lemma {:induction false} BitIsBit(n: nat, k: nat)
    ensures Bit(n, k) < 2
  {
    if k > 0 {
      BitIsBit(n / 2, k - 1);
    }
  }

  // And a byte is its eight bits.
  lemma {:induction false} BitsDetermine(a: nat, b: nat, bits: nat)
    requires FitsBits(a, bits) && FitsBits(b, bits) && forall k | 0 <= k < bits :: Bit(a, k) == Bit(b, k)
    ensures a == b
  {
    if bits > 0 {
      assert Bit(a, 0) == Bit(b, 0);
      forall k | 0 <= k < bits - 1 ensures Bit(a / 2, k) == Bit(b / 2, k) {
        assert Bit(a, k + 1) == Bit(b, k + 1);
      }
      BitsDetermine(a / 2, b / 2, bits - 1);
    }
  }

  lemma ByteOfBits(a: Byte, b: Byte)
    requires forall k | 0 <= k < 8 :: Bit(a, k) == Bit(b, k)
    ensures a == b
  {
    FitsByte(a);
    FitsByte(b);
    BitsDetermine(a, b, 8);
  }

  function Masked(payload: Bytes, mask: Bytes): (r: Bytes)
    requires |mask| == 4
    ensures |r| == |payload|
  {
    seq(|payload|, i requires 0 <= i < |payload| => Xor(payload[i], mask[i % 4]))
  }

  // Each payload byte is combined with the mask byte of its position.
  lemma {:induction false} MaskedBit(payload: Bytes, mask: Bytes, i: nat, k: nat)
    requires |mask| == 4 && i < |payload| && k < 8
    ensures Bit(Masked(payload, mask)[i], k) == 1 <==> Bit(payload[i], k) != Bit(mask[i % 4], k)
  {
    XorBit(payload[i], mask[i % 4], k);
  }

  lemma MaskedTwice(payload: Bytes, mask: Bytes)
    requires |mask| == 4
    ensures Masked(Masked(payload, mask), mask) == payload
  {
    forall i | 0 <= i < |payload| ensures Masked(Masked(payload, mask), mask)[i] == payload[i] {
      XorTwice(payload[i], mask[i % 4]);
    }
  }

  /******* Writing *******/

  // How many bytes hold the length after the second byte.
  datatype Form = Short | Medium | Long

  function Width(form: Form): nat {
    match form case Short => 0 case Medium => 2 case Long => 8
  }

  function Marker(form: Form, length: nat): Byte
    requires form == Short ==> length < 126
  {
    match form case Short => length case Medium => 126 case Long => 127
  }

  predicate FormFits(form: Form, length: nat) {
    match form case Short => length < 126 case Medium => length <= 65535 case Long => Fits(length, 8)
  }

  predicate MaskOk(mask: Option<Bytes>) { mask.Some? ==> |mask.value| == 4 }

  // FIN and the reserved bits; the opcode is the rest of the first byte.
  predicate HighBits(high: Byte) { high % 16 == 0 }

  function EncodeHeader(high: Byte, opcode: Byte, length: nat, form: Form, masked: bool): Bytes
    requires HighBits(high) && opcode < 16 && FormFits(form, length)
  {
    [high + opcode, (if masked then 128 else 0) + Marker(form, length)] + BigEndian(length, Width(form))
  }

  function EncodeBody(payload: Bytes, mask: Option<Bytes>): Bytes
    requires MaskOk(mask)
  {
    if mask.Some? then mask.value + Masked(payload, mask.value) else payload
  }

  // Any way section 5.2 allows to write a frame: the four high bits of the first byte,
  // the length form and the mask are free.
  function EncodeWith(high: Byte, frame: Frame, form: Form, mask: Option<Bytes>): (r: Bytes)
    requires HighBits(high) && frame.opcode < 16 && FormFits(form, |frame.payload|) && MaskOk(mask)
    ensures |r| == 2 + Width(form) + (if mask.Some? then 4 else 0) + |frame.payload|
  {
    EncodeHeader(high, frame.opcode, |frame.payload|, form, mask.Some?) + EncodeBody(frame.payload, mask)
  }

  function ShortestForm(length: nat): Form {
    if length < 126 then Short else if length <= 65535 then Medium else Long
  }

  // Numbers of two and of eight bytes in network order, the highest byte first.
  function Number2(b: Bytes): nat
    requires |b| == 2
  {
    0x100 * (b[0] as nat) + b[1] as nat
  }

  function Number4(b: Bytes): nat
    requires |b| == 4
  {
    0x100_0000 * (b[0] as nat) + 0x1_0000 * (b[1] as nat) + 0x100 * (b[2] as nat) + b[3] as nat
  }

  lemma {:induction false} NumberPrefix(b: Bytes, k: nat)
    requires k < |b|
    ensures Number(b[..k + 1]) == 256 * Number(b[..k]) + b[k]
  {
    assert b[..k + 1][..k] == b[..k];
  }

  lemma {:induction false} NumberIs2(b: Bytes)
    requires |b| == 2
    ensures Number(b) == Number2(b)
  {
    NumberPrefix(b, 0);
    NumberPrefix(b, 1);
    assert b[..2] == b;
  }

  lemma {:induction false} NumberIs4(b: Bytes)
    requires |b| >= 4
    ensures Number(b[..4]) == Number4(b[..4])
  {
    NumberPrefix(b, 0);
    NumberPrefix(b, 1);
    NumberPrefix(b, 2);
    NumberPrefix(b, 3);
  }

  lemma {:induction false} NumberIs8(b: Bytes)
    requires |b| == 8
    ensures Number(b) == 0x1_0000_0000 * Number4(b[..4]) + Number4(b[4..])
  {
    NumberIs4(b);
    NumberPrefix(b, 4);
    NumberPrefix(b, 5);
    NumberPrefix(b, 6);
    NumberPrefix(b, 7);
    assert b[..8] == b;
  }

  // The bytes of a frame, position by position: the first two, the length in none, two or
  // eight more, the mask, and the payload.
  lemma FrameBytes(high: Byte, frame: Frame, form: Form, mask: Option<Bytes>)
    requires HighBits(high) && frame.opcode < 16 && FormFits(form, |frame.payload|) && MaskOk(mask)
    ensures var (b, n, bit) := (EncodeWith(high, frame, form, mask), |frame.payload|, if mask.Some? then 128 else 0);
            && |b| >= 2 && b[0] == high + frame.opcode
            && match form
               case Short => b[1] == bit + n && b[2..] == EncodeBody(frame.payload, mask)
               case Medium => b[1] == bit + 126 && |b| >= 4 && Number2(b[2..4]) == n
                              && b[4..] == EncodeBody(frame.payload, mask)
               case Long => b[1] == bit + 127 && |b| >= 10
                            && 0x1_0000_0000 * Number4(b[2..6]) + Number4(b[6..10]) == n
                            && b[10..] == EncodeBody(frame.payload, mask)
  {
    var b, n, digits := EncodeWith(high, frame, form, mask), |frame.payload|, BigEndian(|frame.payload|, Width(form));
    assert b[2..2 + Width(form)] == digits;
    assert b[2 + Width(form)..] == EncodeBody(frame.payload, mask);
    if form != Short {
      FormFitsWidth(form, n);
      NumberOfBigEndian(n, Width(form));
      if form == Medium {
        NumberIs2(digits);
      } else {
        NumberIs8(digits);
        assert digits[..4] == b[2..6] && digits[4..] == b[6..10];
      }
    }
  }

  // Behind the length stand the mask, when there is one, and the payload under it.
  lemma BodyBytes(payload: Bytes, mask: Option<Bytes>)
    requires MaskOk(mask)
    ensures mask.None? ==> EncodeBody(payload, mask) == payload
    ensures mask.Some? ==>
              && |EncodeBody(payload, mask)| == 4 + |payload| && EncodeBody(payload, mask)[..4] == mask.value
              && forall i, k | 0 <= i < |payload| && 0 <= k < 8 ::
                   Bit(EncodeBody(payload, mask)[4 + i], k) == 1 <==> Bit(payload[i], k) != Bit(mask.value[i % 4], k)
  {
    if mask.Some? {
      forall i, k | 0 <= i < |payload| && 0 <= k < 8
        ensures Bit(EncodeBody(payload, mask)[4 + i], k) == 1 <==> Bit(payload[i], k) != Bit(mask.value[i % 4], k)
      {
        MaskedBit(payload, mask.value, i, k);
      }
    }
  }

  // send_frame writes the shortest of these forms, with the final bit and a mask.
  lemma SentForm(frame: Frame, mask: Bytes)
    requires |mask| == 4 && frame.opcode < 16 && Fits(|frame.payload|, 8)
    ensures FormFits(if |frame.payload| < 126 then Short else if |frame.payload| < 0x1_0000 then Medium else Long,
                     |frame.payload|)
    ensures Encode(frame, mask)
         == EncodeWith(0x80, frame,
                       if |frame.payload| < 126 then Short else if |frame.payload| < 0x1_0000 then Medium else Long,
                       Some(mask))
  {
    FitsWidths(|frame.payload|);
  }

  // What send_frame writes.
  function Encode(frame: Frame, mask: Bytes): Bytes
    requires |mask| == 4 && frame.opcode < 16 && Fits(|frame.payload|, 8)
  {
    FitsWidths(|frame.payload|);
    EncodeWith(128, frame, ShortestForm(|frame.payload|), Some(mask))
  }

  /******* Reading *******/

  datatype Parsed = Got(frame: Frame, rest: Bytes) | TooLong | Incomplete

  function FormOf(second: Byte): Form {
    if second % 128 == 126 then Medium else if second % 128 == 127 then Long else Short
  }

  function HeaderSize(b: Bytes): nat
    requires |b| >= 2
  {
    2 + Width(FormOf(b[1]))
  }

  function LengthOf(b: Bytes): nat
    requires |b| >= 2 && |b| >= HeaderSize(b)
  {
    if FormOf(b[1]) == Short then b[1] % 128 else Number(b[2..HeaderSize(b)])
  }

  // The payload without its mask, and what follows.
  function Body(masked: bool, b: Bytes, length: nat): (r: Option<(Bytes, Bytes)>)
    ensures r.Some? ==> |r.value.0| == length && |r.value.1| <= |b| && r.value.1 == b[|b| - |r.value.1|..]
  {
    if masked then
      if |b| < 4 + length then None else Some((Masked(b[4..4 + length], b[..4]), b[4 + length..]))
    else
      if |b| < length then None else Some((b[..length], b[length..]))
  }

  // One turn of receive: two bytes, the length, the limit, the mask, the payload.
  function Parse(b: Bytes): (r: Parsed)
    ensures r.Got? ==> |r.rest| + 2 <= |b| && r.rest == b[|b| - |r.rest|..] && |r.frame.payload| <= LIMIT
  {
    if |b| < 2 || |b| < HeaderSize(b) then Incomplete
    else if LengthOf(b) > LIMIT then TooLong
    else
      var body := Body(b[1] >= 128, b[HeaderSize(b)..], LengthOf(b));
      if body.None? then Incomplete else Got(Frame(b[0] % 16, body.value.0), body.value.1)
  }

  // The second byte gives back the form, the short length and the mask bit.
  lemma SecondByte(form: Form, length: nat, masked: bool)
    requires FormFits(form, length)
    ensures var second := (if masked then 128 else 0) + Marker(form, length);
            && FormOf(second) == form
            && (form == Short ==> second % 128 == length)
            && (second >= 128) == masked
  {
  }

  lemma HeaderRoundTrip(high: Byte, opcode: Byte, length: nat, form: Form, masked: bool, tail: Bytes)
    requires HighBits(high) && opcode < 16 && FormFits(form, length)
    ensures var b := EncodeHeader(high, opcode, length, form, masked) + tail;
            && |b| >= HeaderSize(b) && b[0] % 16 == opcode && (b[1] >= 128) == masked
            && LengthOf(b) == length && b[HeaderSize(b)..] == tail
  {
    SecondByte(form, length, masked);
    var b := EncodeHeader(high, opcode, length, form, masked) + tail;
    assert b[0] == high + opcode && b[1] == (if masked then 128 else 0) + Marker(form, length);
    assert HeaderSize(b) == 2 + Width(form);
    assert b[2 + Width(form)..] == tail;
    if form != Short {
      assert b[2..2 + Width(form)] == BigEndian(length, Width(form));
      FormFitsWidth(form, length);
      NumberOfBigEndian(length, Width(form));
    }
  }

  lemma {:induction false} FormFitsWidth(form: Form, length: nat)
    requires FormFits(form, length) && form != Short
    ensures Fits(length, Width(form))
  {
    FitsWidths(length);
  }

  lemma BodyRoundTrip(payload: Bytes, mask: Option<Bytes>, tail: Bytes)
    requires MaskOk(mask)
    ensures Body(mask.Some?, EncodeBody(payload, mask) + tail, |payload|) == Some((payload, tail))
  {
    var b := EncodeBody(payload, mask) + tail;
    if mask.Some? {
      assert b[..4] == mask.value && b[4..4 + |payload|] == Masked(payload, mask.value);
      MaskedTwice(payload, mask.value);
      assert b[4 + |payload|..] == tail;
    }
  }

  // Reading gives back a frame written in any allowed way, and leaves what follows it.
  lemma ParseOfEncode(high: Byte, frame: Frame, form: Form, mask: Option<Bytes>, tail: Bytes)
    requires HighBits(high) && frame.opcode < 16 && |frame.payload| <= LIMIT
    requires FormFits(form, |frame.payload|) && MaskOk(mask)
    ensures Parse(EncodeWith(high, frame, form, mask) + tail) == Got(frame, tail)
  {
    var header := EncodeHeader(high, frame.opcode, |frame.payload|, form, mask.Some?);
    var body := EncodeBody(frame.payload, mask);
    assert EncodeWith(high, frame, form, mask) + tail == header + (body + tail);
    HeaderRoundTrip(high, frame.opcode, |frame.payload|, form, mask.Some?, body + tail);
    BodyRoundTrip(frame.payload, mask, tail);
  }

  // The reader takes what send_frame wrote exactly up to the limit.
  lemma ReadsUpToLimit(frame: Frame, mask: Bytes, tail: Bytes)
    requires |mask| == 4 && frame.opcode < 16 && Fits(|frame.payload|, 8)
    ensures Parse(Encode(frame, mask) + tail).Got? <==> |frame.payload| <= 8 * 1024 * 1024
    ensures |frame.payload| > 8 * 1024 * 1024 ==> Parse(Encode(frame, mask) + tail).TooLong?
  {
    var form := ShortestForm(|frame.payload|);
    FitsWidths(|frame.payload|);
    if |frame.payload| <= LIMIT {
      ParseOfEncode(128, frame, form, Some(mask), tail);
    } else {
      var body := EncodeBody(frame.payload, Some(mask));
      HeaderRoundTrip(128, frame.opcode, |frame.payload|, form, true, body + tail);
      assert Encode(frame, mask) + tail == EncodeHeader(128, frame.opcode, |frame.payload|, form, true) + (body + tail);
    }
  }

  lemma HeaderReadBack(b: Bytes)
    requires |b| >= 2 && |b| >= HeaderSize(b)
    ensures FormFits(FormOf(b[1]), LengthOf(b))
    ensures b[..HeaderSize(b)] == EncodeHeader(b[0] / 16 * 16, b[0] % 16, LengthOf(b), FormOf(b[1]), b[1] >= 128)
  {
    var form := FormOf(b[1]);
    assert b[..HeaderSize(b)] == [b[0], b[1]] + b[2..HeaderSize(b)];
    if form != Short {
      BigEndianOfNumber(b[2..HeaderSize(b)]);
      FitsWidths(LengthOf(b));
    }
    assert b[2..HeaderSize(b)] == BigEndian(LengthOf(b), Width(form));
  }

  lemma BodyReadBack(masked: bool, b: Bytes, length: nat)
    requires Body(masked, b, length).Some?
    ensures var body := Body(masked, b, length).value;
            b == EncodeBody(body.0, if masked then Some(b[..4]) else None) + body.1
  {
    if masked {
      MaskedTwice(b[4..4 + length], b[..4]);
      assert b == b[..4] + b[4..4 + length] + b[4 + length..];
    }
  }

  lemma SplitAt(b: Bytes, n: nat, middle: Bytes, tail: Bytes)
    requires n <= |b| && b[n..] == middle + tail
    ensures b == (b[..n] + middle) + tail
  {
    assert b == b[..n] + b[n..];
  }

  // And it accepts nothing else: what it reads was written in one of those ways.
  lemma ParsedIsEncoded(b: Bytes) returns (form: Form, mask: Option<Bytes>)
    requires Parse(b).Got?
    ensures Writable(Written(b[0] / 16 * 16, Parse(b).frame, form, mask)) && |Parse(b).frame.payload| <= LIMIT
    ensures b == EncodeWith(b[0] / 16 * 16, Parse(b).frame, form, mask) + Parse(b).rest
  {
    form := FormOf(b[1]);
    var n := HeaderSize(b);
    mask := if b[1] >= 128 then Some(b[n..][..4]) else None;
    HeaderReadBack(b);
    GotBody(b);
    var f := Parse(b).frame;
    SplitAt(b, n, EncodeBody(f.payload, mask), Parse(b).rest);
    HighByte(b[0]);
  }

  lemma HighByte(first: Byte)
    ensures HighBits(first / 16 * 16)
  {
  }

  lemma GotBody(b: Bytes)
    requires Parse(b).Got?
    ensures |b| >= HeaderSize(b) && |Parse(b).frame.payload| == LengthOf(b) && Parse(b).frame.opcode == b[0] % 16
    ensures b[1] >= 128 ==> |b[HeaderSize(b)..]| >= 4
    ensures var mask := if b[1] >= 128 then Some(b[HeaderSize(b)..][..4]) else None;
            b[HeaderSize(b)..] == EncodeBody(Parse(b).frame.payload, mask) + Parse(b).rest
  {
    BodyReadBack(b[1] >= 128, b[HeaderSize(b)..], LengthOf(b));
  }

  lemma BodyExtends(masked: bool, b: Bytes, length: nat, more: Bytes)
    requires Body(masked, b, length).Some?
    ensures var body := Body(masked, b, length).value;
            Body(masked, b + more, length) == Some((body.0, body.1 + more))
  {
    if masked {
      assert (b + more)[..4] == b[..4] && (b + more)[4..4 + length] == b[4..4 + length];
      assert (b + more)[4 + length..] == b[4 + length..] + more;
    } else {
      assert (b + more)[..length] == b[..length] && (b + more)[length..] == b[length..] + more;
    }
  }

  // Bytes that arrive later do not change what has been read.
  lemma ParseExtends(b: Bytes, more: Bytes)
    ensures Parse(b).Got? ==> Parse(b + more) == Got(Parse(b).frame, Parse(b).rest + more)
    ensures Parse(b).TooLong? ==> Parse(b + more).TooLong?
  {
    if |b| >= 2 && |b| >= HeaderSize(b) {
      var n := HeaderSize(b);
      assert (b + more)[2..n] == b[2..n] && (b + more)[n..] == b[n..] + more;
      assert HeaderSize(b + more) == n && LengthOf(b + more) == LengthOf(b);
      if Parse(b).Got? {
        BodyExtends(b[1] >= 128, b[n..], LengthOf(b), more);
      }
    }
  }

  // Of all masked ways to write a frame, send_frame takes one of the fewest bytes.
  lemma ShortestLength(frame: Frame, form: Form, mask: Bytes, high: Byte)
    requires |mask| == 4 && frame.opcode < 16 && HighBits(high)
    requires FormFits(form, |frame.payload|) && Fits(|frame.payload|, 8)
    ensures |Encode(frame, mask)| <= |EncodeWith(high, frame, form, Some(mask))|
    ensures |Encode(frame, mask)| == |EncodeWith(high, frame, form, Some(mask))| ==>
              form == ShortestForm(|frame.payload|)
  {
    FitsWidths(|frame.payload|);
  }

  /******* Sequences of frames *******/

  // A frame as some peer writes it.
  datatype Written = Written(high: Byte, frame: Frame, form: Form, mask: Option<Bytes>)

  predicate Writable(w: Written) {
    && HighBits(w.high) && w.frame.opcode < 16
    && FormFits(w.form, |w.frame.payload|) && MaskOk(w.mask)
  }

  predicate AllWritable(list: seq<Written>) {
    forall i | 0 <= i < |list| :: Writable(list[i])
  }

  predicate WithinLimit(list: seq<Written>) {
    forall i | 0 <= i < |list| :: |list[i].frame.payload| <= LIMIT
  }

  function WireOne(w: Written): Bytes
    requires Writable(w)
  {
    EncodeWith(w.high, w.frame, w.form, w.mask)
  }

  function Pieces(list: seq<Written>): seq<Bytes>
    requires AllWritable(list)
  {
    seq(|list|, i requires 0 <= i < |list| => WireOne(list[i]))
  }

  function Flatten(pieces: seq<Bytes>): Bytes {
    if pieces == [] then [] else pieces[0] + Flatten(pieces[1..])
  }

  lemma {:induction false} FlattenConcat(a: seq<Bytes>, b: seq<Bytes>)
    ensures Flatten(a + b) == Flatten(a) + Flatten(b)
  {
    if a == [] {
      assert a + b == b;
    } else {
      assert (a + b)[1..] == a[1..] + b;
      FlattenConcat(a[1..], b);
    }
  }

  function Wire(list: seq<Written>): Bytes
    requires AllWritable(list)
  {
    Flatten(Pieces(list))
  }

  lemma WireFromFirst(list: seq<Written>)
    requires AllWritable(list) && list != []
    ensures Wire(list) == WireOne(list[0]) + Wire(list[1..])
  {
    assert Pieces(list)[1..] == Pieces(list[1..]);
  }

  /******* A part of a frame *******/

  // The bytes that a frame takes, as its header says.
  function FrameSize(b: Bytes): nat
    requires |b| >= 2 && |b| >= HeaderSize(b)
  {
    HeaderSize(b) + (if b[1] >= 128 then 4 else 0) + LengthOf(b)
  }

  lemma SizeOfWritten(w: Written, tail: Bytes)
    requires Writable(w)
    ensures var b := WireOne(w) + tail; |b| >= HeaderSize(b) && FrameSize(b) == |WireOne(w)|
  {
    var header := EncodeHeader(w.high, w.frame.opcode, |w.frame.payload|, w.form, w.mask.Some?);
    var body := EncodeBody(w.frame.payload, w.mask);
    assert WireOne(w) + tail == header + (body + tail);
    HeaderRoundTrip(w.high, w.frame.opcode, |w.frame.payload|, w.form, w.mask.Some?, body + tail);
    SecondByte(w.form, |w.frame.payload|, w.mask.Some?);
  }

  lemma SizeOfPart(b: Bytes, more: Bytes)
    requires |b| >= 2 && |b| >= HeaderSize(b)
    ensures |b + more| >= HeaderSize(b + more) && FrameSize(b + more) == FrameSize(b)
  {
    assert (b + more)[2..HeaderSize(b)] == b[2..HeaderSize(b)];
  }

  // A part of a frame does not begin with a frame.
  lemma PartHasNoFrame(w: Written, n: nat, first: Written, rest: Bytes)
    requires Writable(w) && n < |WireOne(w)| && Writable(first)
    ensures WireOne(w)[..n] != WireOne(first) + rest
  {
    var part := WireOne(w)[..n];
    if part == WireOne(first) + rest {
      SizeOfWritten(first, rest);
      SizeOfPart(part, WireOne(w)[n..]);
      assert part + WireOne(w)[n..] == WireOne(w) + [];
      SizeOfWritten(w, []);
    }
  }

  // What begins with a frame does so in one way.
  lemma FirstIsUnique(v: Written, rest: Bytes, w: Written, other: Bytes)
    requires Writable(v) && Writable(w) && WireOne(v) + rest == WireOne(w) + other
    ensures rest == other
  {
    SizeOfWritten(v, rest);
    SizeOfWritten(w, other);
    assert rest == (WireOne(v) + rest)[|WireOne(v)|..] && other == (WireOne(w) + other)[|WireOne(w)|..];
  }

  lemma StripFirst(front: seq<Written>, part: Bytes, list: seq<Written>)
    requires AllWritable(front) && AllWritable(list) && front != [] && list != []
    requires Wire(front) + part == Wire(list)
    ensures Wire(front[1..]) + part == Wire(list[1..])
  {
    WireFromFirst(front);
    WireFromFirst(list);
    assert Wire(front) + part == WireOne(front[0]) + (Wire(front[1..]) + part);
    FirstIsUnique(front[0], Wire(front[1..]) + part, list[0], Wire(list[1..]));
  }

  // Frames followed by a part of one more are not the wire of any list of frames.
  lemma {:induction false} PartIsNoWire(front: seq<Written>, w: Written, n: nat, list: seq<Written>)
    requires AllWritable(front) && Writable(w) && 0 < n < |WireOne(w)| && AllWritable(list)
    ensures Wire(front) + WireOne(w)[..n] != Wire(list)
  {
    WireOfNothing();
    if list == [] {
      assert |Wire(front) + WireOne(w)[..n]| > 0;
    } else if front == [] {
      WireFromFirst(list);
      PartHasNoFrame(w, n, list[0], Wire(list[1..]));
      assert [] + WireOne(w)[..n] == WireOne(w)[..n];
    } else {
      PartIsNoWire(front[1..], w, n, list[1..]);
      if Wire(front) + WireOne(w)[..n] == Wire(list) {
        StripFirst(front, WireOne(w)[..n], list);
      }
    }
  }

  lemma WireOfNothing()
    ensures Wire([]) == []
  {
    assert Pieces([]) == [];
  }

  function FramesOf(list: seq<Written>): seq<Frame> {
    seq(|list|, i requires 0 <= i < |list| => list[i].frame)
  }

  // As send_frame writes it.
  function Sent(frame: Frame, mask: Bytes): Written
    requires |mask| == 4
  {
    Written(128, frame, ShortestForm(|frame.payload|), Some(mask))
  }

  lemma SentIsEncode(frame: Frame, mask: Bytes)
    requires |mask| == 4 && frame.opcode < 16 && Fits(|frame.payload|, 8)
    ensures AllWritable([Sent(frame, mask)])
    ensures Wire([Sent(frame, mask)]) == Encode(frame, mask)
  {
    FitsWidths(|frame.payload|);
    var w := Sent(frame, mask);
    assert Writable(w);
    WireFromFirst([w]);
    assert Pieces([w][1..]) == [];
  }

  // The first n frames of a stream and the bytes after them.
  function Decode(n: nat, b: Bytes): Option<(seq<Frame>, Bytes)> {
    if n == 0 then Some(([], b))
    else if !Parse(b).Got? then None
    else
      var r := Decode(n - 1, Parse(b).rest);
      if r.None? then None else Some(([Parse(b).frame] + r.value.0, r.value.1))
  }

  lemma WireFirst(list: seq<Written>, tail: Bytes)
    requires AllWritable(list) && WithinLimit(list) && list != []
    ensures Parse(Wire(list) + tail) == Got(list[0].frame, Wire(list[1..]) + tail)
  {
    var w := list[0];
    assert Writable(w);
    WireFromFirst(list);
    assert Wire(list) + tail == WireOne(w) + (Wire(list[1..]) + tail);
    ParseOfEncode(w.high, w.frame, w.form, w.mask, Wire(list[1..]) + tail);
  }

  lemma FramesFromFirst(list: seq<Written>)
    requires list != []
    ensures FramesOf(list) == [list[0].frame] + FramesOf(list[1..])
  {
  }

  lemma DecodeFirst(n: nat, b: Bytes, frame: Frame, rest: Bytes, frames: seq<Frame>, tail: Bytes)
    requires Parse(b) == Got(frame, rest) && Decode(n, rest) == Some((frames, tail))
    ensures Decode(n + 1, b) == Some(([frame] + frames, tail))
  {
  }

  // Round trip: the same opcodes and payloads in order, and exactly the trailing bytes.
  lemma {:induction false} DecodeOfWire(list: seq<Written>, tail: Bytes)
    requires AllWritable(list) && WithinLimit(list)
    ensures Decode(|list|, Wire(list) + tail) == Some((FramesOf(list), tail))
  {
    if list == [] {
      assert Pieces(list) == [] && Wire(list) + tail == tail && FramesOf(list) == [];
    } else {
      WireFirst(list, tail);
      DecodeOfWire(list[1..], tail);
      FramesFromFirst(list);
      DecodeFirst(|list| - 1, Wire(list) + tail, list[0].frame, Wire(list[1..]) + tail, FramesOf(list[1..]), tail);
    }
  }

  lemma WireOfConcat(a: seq<Written>, b: seq<Written>)
    requires AllWritable(a) && AllWritable(b) && AllWritable(a + b)
    ensures Wire(a + b) == Wire(a) + Wire(b)
  {
    assert Pieces(a + b) == Pieces(a) + Pieces(b);
    FlattenConcat(Pieces(a), Pieces(b));
  }

  /******* The opcodes of section 5.2 *******/

  lemma EmptyFrame(opcode: Byte)
    requires opcode < 16
    ensures Parse([0x80 + opcode, 0]) == Got(Frame(opcode, []), [])
  {
    var frame := Frame(opcode, []);
    assert EncodeWith(0x80, frame, Short, None) + [] == [0x80 + opcode, 0];
    ParseOfEncode(0x80, frame, Short, None, []);
  }

  lemma EmptySent(opcode: Byte, mask: Bytes)
    requires |mask| == 4 && opcode < 16
    ensures Fits(0, 8) && Encode(Frame(opcode, []), mask)[0] == 0x80 + opcode
  {
    FitsWidths(0);
  }

  // What the first byte of a final frame says: a text, a close, a ping and a pong.
  lemma Opcodes(mask: Bytes)
    requires |mask| == 4
    ensures Parse([0x81, 0]) == Got(Frame(TEXT, []), []) && Parse([0x88, 0]) == Got(Frame(CLOSE, []), [])
    ensures Parse([0x89, 0]) == Got(Frame(PING, []), []) && Parse([0x8A, 0]) == Got(Frame(PONG, []), [])
    ensures Fits(0, 8) && Encode(Frame(TEXT, []), mask)[0] == 0x81 && Encode(Frame(PONG, []), mask)[0] == 0x8A
  {
    EmptyFrame(TEXT);
    EmptyFrame(CLOSE);
    EmptyFrame(PING);
    EmptyFrame(PONG);
    EmptySent(TEXT, mask);
    EmptySent(PONG, mask);
  }
}
