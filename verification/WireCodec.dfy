/** The lightwalletd wire format by hand: varints, gRPC frames, and the two response
    parsers (Protocol Buffers Encoding, section "Base 128 Varints"). */
module WireCodec {
  import opened Common

  function Pow2(n: nat): (r: nat)
    ensures r > 0
  {
    if n == 0 then 1 else 2 * Pow2(n - 1)
  }

  lemma {:induction false} Pow2Adds(a: nat, b: nat)
    ensures Pow2(a + b) == Pow2(a) * Pow2(b)
  {
    if a > 0 {
      Pow2Adds(a - 1, b);
      assert Pow2(a + b) == 2 * Pow2(a - 1 + b) == 2 * (Pow2(a - 1) * Pow2(b));
      MulAssoc(2, Pow2(a - 1), Pow2(b));
    }
  }

  lemma MulAssoc(x: int, y: int, z: int)
    ensures x * (y * z) == (x * y) * z
  {
  }

  lemma {:induction false} Pow2Monotone(a: nat, b: nat)
    requires a <= b
    ensures Pow2(a) <= Pow2(b)
    decreases b
  {
    if a < b {
      Pow2Monotone(a, b - 1);
    }
  }

  lemma Pow2Of64()
    ensures Pow2(64) == 0x1_0000_0000_0000_0000
    ensures Pow2(7) == 128
  {
    assert Pow2(7) == 128 && Pow2(8) == 256;
    Pow2Adds(8, 8);
    Pow2Adds(16, 16);
    Pow2Adds(32, 32);
    hide Pow2;
  }

  // ---------- varints ----------

  /** The varint of a value: seven bits a byte, least significant first. */
  function Varint(v: nat): (bs: seq<byte>)
    ensures |bs| > 0
  {
    if v < 128 then [v] else [v % 128 + 128] + Varint(v / 128)
  }

  method EncodeVarint(value: u64) returns (encoded: seq<byte>)
    ensures encoded == Varint(value)
  {
    var v: nat := value;
    encoded := [];
    while true
      invariant encoded + Varint(v) == Varint(value)
      decreases v
    {
      var low: byte := v % 128;
      ghost var v0 := v;
      v := v / 128;
      if v == 0 {
        assert Varint(v0) == [low];
        encoded := encoded + [low];
        break;
      }
      assert Varint(v0) == [low + 128] + Varint(v);
      assert encoded + ([low + 128] + Varint(v)) == (encoded + [low + 128]) + Varint(v);
      encoded := encoded + [low + 128];
    }
  }

  datatype Read = Read(value: u64, index: nat)

  /** One byte's bits at their place; bits beyond the 64th fall off. */
  function Placed(b: byte, shift: nat): u64 {
    Placed64(b, shift);
    (b % 128) * Pow2(shift) % 0x1_0000_0000_0000_0000
  }

  lemma Placed64(b: byte, shift: nat)
    ensures 0 <= (b % 128) * Pow2(shift) % 0x1_0000_0000_0000_0000 <= U64_MAX
  {
  }

  /** The bits of either number. */
  function BitwiseOr(a: nat, b: nat): nat
    decreases a + b
  {
    if a == 0 && b == 0 then 0 else 2 * BitwiseOr(a / 2, b / 2) + if a % 2 == 1 || b % 2 == 1 then 1 else 0
  }

  lemma {:induction false} BitwiseOrFits(a: nat, b: nat, width: nat)
    requires a < Pow2(width) && b < Pow2(width)
    ensures BitwiseOr(a, b) < Pow2(width)
    decreases width
  {
    if width > 0 && !(a == 0 && b == 0) {
      BitwiseOrFits(a / 2, b / 2, width - 1);
    }
  }

  lemma {:induction false} NothingAdded(b: nat)
    ensures BitwiseOr(0, b) == b
  {
    if b > 0 {
      NothingAdded(b / 2);
    }
  }

  /** Numbers that share no bit, one below the place and one above: either's bits are their sum. */
  lemma {:induction false} DisjointBitsAdd(a: nat, b: nat, place: nat)
    requires a < Pow2(place) && b % Pow2(place) == 0
    ensures BitwiseOr(a, b) == a + b
    decreases place
  {
    if place == 0 {
      NothingAdded(b);
    } else if a > 0 || b > 0 {
      HalfIsAligned(b, Pow2(place - 1));
      DisjointBitsAdd(a / 2, b / 2, place - 1);
    }
  }

  lemma HalfIsAligned(b: nat, p: nat)
    requires p > 0 && b % (2 * p) == 0
    ensures b % 2 == 0 && (b / 2) % p == 0
  {
    var n := b / (2 * p);
    assert b == 2 * p * n == 2 * (p * n);
    RemainderIs(n, p, 0);
  }

  function Or(value: u64, placed: u64): u64 {
    Pow2Of64();
    BitwiseOrFits(value, placed, 64);
    BitwiseOr(value, placed)
  }

  function ReadFrom(data: seq<byte>, index: nat, value: u64, shift: nat): (r: Option<Read>)
    requires index <= |data|
    ensures r.Some? ==> index < r.value.index <= |data|
    decreases |data| - index
  {
    if index == |data| || shift >= 64 then None
    else
      var b := data[index];
      var value' := Or(value, Placed(b, shift));
      if b < 128 then Some(Read(value', index + 1)) else ReadFrom(data, index + 1, value', shift + 7)
  }

  /** The varint at `index`, and where it ends; nothing when it is cut off or over ten bytes. */
  function ReadVarint(data: seq<byte>, index: nat): (r: Option<Read>)
    requires index <= |data|
    ensures r.Some? ==> index < r.value.index <= |data|
  {
    ReadFrom(data, index, 0, 0)
  }

  method ReadVarintLoop(data: seq<byte>, start: nat) returns (r: Option<Read>)
    requires start <= |data|
    ensures r == ReadVarint(data, start)
  {
    var index := start;
    var value: u64 := 0;
    var shift := 0;
    while index < |data| && shift < 64
      invariant start <= index <= |data|
      invariant ReadFrom(data, index, value, shift) == ReadVarint(data, start)
    {
      var b := data[index];
      index := index + 1;
      value := Or(value, Placed(b, shift));
      if b < 128 { return Some(Read(value, index)); }
      shift := shift + 7;
    }
    return None;
  }

  lemma SplitProduct(v: nat, p: nat)
    ensures v * p == (v % 128) * p + (v / 128) * (p * 128)
  {
    var low, q := v % 128, v / 128;
    assert v == low + q * 128;
    assert (low + q * 128) * p == low * p + (q * 128) * p;
    assert (q * 128) * p == q * (p * 128);
  }

  lemma LowBitsFit(low: nat, p: nat, value: nat)
    requires low < 128 && value < p
    ensures low * p + value < p * 128
  {
    assert low * p <= 127 * p;
  }

  lemma TooFarOverflows(v: nat, shift: nat)
    requires v > 0 && shift >= 64
    ensures v * Pow2(shift) > U64_MAX
  {
    Pow2Of64();
    Pow2Monotone(64, shift);
    hide Pow2;
    NoSmallerThan(v, Pow2(shift), Pow2(64));
  }

  lemma NoSmallerThan(v: nat, p: nat, q: nat)
    requires v > 0 && p >= q
    ensures v * p >= q
  {
  }

  /** The value so far lies below the byte's place, so `|=` adds, and nothing overflows,
      whatever the byte is. */
  lemma OrIsExact(value: u64, b: byte, shift: nat)
    requires value < Pow2(shift) && shift < 64
    ensures value + Placed(b, shift) <= U64_MAX
    ensures Or(value, Placed(b, shift)) == value + Placed(b, shift) < Pow2(shift + 7)
  {
    var p, q := Pow2(shift), Pow2(64 - shift);
    Pow2Of64();
    Pow2Adds(shift, 64 - shift);
    Pow2Adds(shift, 7);
    PlacedBits(b % 128, p, q, value);
    PlacedIsAligned(b, shift);
    DisjointBitsAdd(value, Placed(b, shift), shift);
    hide Pow2, BitwiseOr;
    assert Placed(b, shift) == (b % 128) * p % 0x1_0000_0000_0000_0000;
  }

  /** The placed byte has no bit below its place. */
  lemma PlacedIsAligned(b: byte, shift: nat)
    requires shift < 64
    ensures Placed(b, shift) % Pow2(shift) == 0
  {
    var p, q := Pow2(shift), Pow2(64 - shift);
    Pow2Of64();
    Pow2Adds(shift, 64 - shift);
    hide Pow2;
    ModProduct(b % 128, p, q);
    RemainderIs((b % 128) % q, p, 0);
    assert (b % 128) * p % (p * q) == ((b % 128) % q) * p + 0;
  }

  /** What the reader holds after `n` more bytes, none of them the last. */
  function Held(data: seq<byte>, index: nat, value: u64, shift: nat, n: nat): u64
    requires index + n <= |data|
    decreases n
  {
    if n == 0 then value else Held(data, index + 1, Or(value, Placed(data[index], shift)), shift + 7, n - 1)
  }

  /** At every step of reading, whatever the bytes are, the value lies below the place of the
      next byte and that byte's bits at or above it: they share no bit. */
  lemma {:induction false} HeldBelow(data: seq<byte>, index: nat, value: u64, shift: nat, n: nat)
    requires index + n < |data| && value < Pow2(shift) && shift + 7 * n < 64
    ensures var held, place := Held(data, index, value, shift, n), shift + 7 * n;
            && held < Pow2(place)
            && Placed(data[index + n], place) % Pow2(place) == 0
    decreases n
  {
    OrIsExact(value, data[index], shift);
    PlacedIsAligned(data[index], shift);
    if n > 0 {
      HeldBelow(data, index + 1, Or(value, Placed(data[index], shift)), shift + 7, n - 1);
    }
    hide Pow2, Placed, Or;
  }

  lemma PlacedBits(k: nat, p: nat, q: nat, value: nat)
    requires p > 0 && q > 0 && p * q == 0x1_0000_0000_0000_0000 && k < 128 && value < p
    ensures (k * p) % 0x1_0000_0000_0000_0000 + value <= U64_MAX
    ensures (k * p) % 0x1_0000_0000_0000_0000 + value < p * 128
  {
    var r := k % q;
    ModProduct(k, p, q);
    BelowProduct(r, p, q, value);
    LowBitsFit(r, p, value);
  }

  lemma BelowProduct(k: nat, p: nat, q: nat, value: nat)
    requires k < q && value < p
    ensures k * p + value < p * q
  {
    assert k * p <= (q - 1) * p;
  }

  /** Scaling commutes with taking the remainder. */
  lemma ModProduct(k: nat, p: nat, q: nat)
    requires p > 0 && q > 0
    ensures (k * p) % (p * q) == (k % q) * p
  {
    var d, r := k / q, k % q;
    assert k * p == d * (p * q) + r * p by {
      assert k == d * q + r;
      assert (d * q + r) * p == (d * q) * p + r * p;
      assert (d * q) * p == d * (p * q);
    }
    BelowProduct(r, p, q, 0);
    RemainderIs(d, p * q, r * p);
  }

  lemma RemainderIs(d: nat, m: nat, r: nat)
    requires r < m
    ensures (d * m + r) % m == r
  {
    var x := d * m + r;
    assert x == (x / m) * m + x % m;
    QuotientIs(x / m, d, m, x % m, r);
  }

  lemma Multiple(a: int, b: int, m: nat)
    requires a > b
    ensures a * m >= b * m + m
  {
    assert a * m == b * m + (a - b) * m;
    NoSmallerThan(a - b, m, m);
  }

  lemma QuotientIs(a: int, b: int, m: nat, x: nat, y: nat)
    requires a * m + x == b * m + y && x < m && y < m
    ensures x == y
  {
    if a > b {
      Multiple(a, b, m);
    } else if a < b {
      Multiple(b, a, m);
    }
  }

  /** One byte of a varint with more to come: what it adds, and what is left. */
  lemma VarintStep(v: nat, value: u64, shift: nat)
    requires v >= 128 && value < Pow2(shift) && v * Pow2(shift) + value <= U64_MAX
    ensures var value' := (v % 128) * Pow2(shift) + value;
            && Or(value, Placed(v % 128 + 128, shift)) == value' && value' < Pow2(shift + 7)
            && (v / 128) * Pow2(shift + 7) + value' == v * Pow2(shift) + value
  {
    PlacedFits(v, value, shift);
    OrIsExact(value, v % 128 + 128, shift);
    Pow2Of64();
    Pow2Adds(shift, 7);
    hide Pow2, Placed, Or;
    LowBits(v, Pow2(shift), value);
  }

  /** The byte's bits at their place do not fall off, and the place is below the 64th. */
  lemma PlacedFits(v: nat, value: u64, shift: nat)
    requires v > 0 && value < Pow2(shift) && v * Pow2(shift) + value <= U64_MAX
    ensures shift < 64 && Placed(v % 128, shift) == Placed(v % 128 + 128, shift) == (v % 128) * Pow2(shift)
  {
    if shift >= 64 { TooFarOverflows(v, shift); }
    hide Pow2;
    LowBits(v, Pow2(shift), value);
    assert (v % 128 + 128) % 128 == v % 128;
  }

  lemma LowBits(v: nat, p: nat, value: nat)
    requires value < p && v * p + value <= U64_MAX
    ensures (v % 128) * p + value <= U64_MAX && (v % 128) * p + value < p * 128
    ensures ((v % 128) * p) % 0x1_0000_0000_0000_0000 == (v % 128) * p
    ensures (v / 128) * (p * 128) + ((v % 128) * p + value) == v * p + value
  {
    SplitProduct(v, p);
    LowBitsFit(v % 128, p, value);
    ProductIsNatural(v / 128, p * 128);
  }

  lemma ProductIsNatural(a: nat, b: nat)
    ensures a * b >= 0
  {
  }

  /** Reading a varint that starts at `index` within `data`. */
  lemma {:induction false} ReadFromVarint(data: seq<byte>, index: nat, v: nat, value: u64, shift: nat)
    requires index + |Varint(v)| <= |data| && data[index..index + |Varint(v)|] == Varint(v)
    requires value < Pow2(shift) && v * Pow2(shift) + value <= U64_MAX && (v > 0 || shift == 0)
    ensures ReadFrom(data, index, value, shift) == Some(Read(v * Pow2(shift) + value, index + |Varint(v)|))
    decreases v
  {
    hide Pow2, Placed, Or;
    PlaceIsInside(v, shift);
    var bs := Varint(v);
    assert data[index] == bs[0];
    if v >= 128 {
      var q := v / 128;
      assert bs == [v % 128 + 128] + Varint(q);
      assert data[index + 1..index + 1 + |Varint(q)|] == Varint(q) by {
        assert data[index..index + |bs|][1..] == data[index + 1..index + |bs|];
      }
      VarintStep(v, value, shift);
      ReadFromVarint(data, index + 1, q, (v % 128) * Pow2(shift) + value, shift + 7);
      hide Varint;
    } else {
      LastByte(v, value, shift);
      hide Varint;
    }
  }

  lemma PlaceIsInside(v: nat, shift: nat)
    requires v * Pow2(shift) <= U64_MAX && (v > 0 || shift == 0)
    ensures shift < 64
  {
    if shift >= 64 { TooFarOverflows(v, shift); }
  }

  lemma LastByte(v: nat, value: u64, shift: nat)
    requires v < 128 && shift < 64 && value < Pow2(shift) && v * Pow2(shift) + value <= U64_MAX
    ensures Or(value, Placed(v, shift)) == v * Pow2(shift) + value
  {
    OrIsExact(value, v, shift);
    hide Pow2, Or;
    assert v % 128 == v;
  }

  /** For every 64-bit value, whatever surrounds it: reading its varint gives it back and
      stops at its end. */
  lemma VarintRoundTrip(before: seq<byte>, v: u64, rest: seq<byte>)
    ensures ReadVarint(before + Varint(v) + rest, |before|) == Some(Read(v, |before| + |Varint(v)|))
  {
    var data := before + Varint(v) + rest;
    assert data[|before|..|before| + |Varint(v)|] == Varint(v);
    assert Pow2(0) == 1;
    ReadFromVarint(data, |before|, v, 0, 0);
  }

  /** Where a varint is read from does not matter. */
  lemma {:induction false} ReadShifts(pre: seq<byte>, m: seq<byte>, index: nat, value: u64, shift: nat)
    requires index <= |m|
    ensures var a, b := ReadFrom(pre + m, |pre| + index, value, shift), ReadFrom(m, index, value, shift);
            a == if b.None? then None else Some(Read(b.value.value, |pre| + b.value.index))
    decreases |m| - index
  {
    if index < |m| && shift < 64 {
      assert (pre + m)[|pre| + index] == m[index];
      ReadShifts(pre, m, index + 1, Or(value, Placed(m[index], shift)), shift + 7);
    }
  }

  lemma ReadVarintShifts(pre: seq<byte>, m: seq<byte>, index: nat)
    requires index <= |m|
    ensures var a, b := ReadVarint(pre + m, |pre| + index), ReadVarint(m, index);
            a == if b.None? then None else Some(Read(b.value.value, |pre| + b.value.index))
  {
    ReadShifts(pre, m, index, 0, 0);
  }

  // ---------- signed codes ----------

  type int32 = x: int | -0x8000_0000 <= x < 0x8000_0000

  /** A negative int32 is sent sign-extended to 64 bits. */
  function SignExtend(code: int32): u64 {
    if code < 0 then code + 0x1_0000_0000_0000_0000 else code
  }

  /** The low 32 bits, read as a signed number. */
  function ToInt32(v: u64): int32 {
    var low := v % 0x1_0000_0000;
    if low >= 0x8000_0000 then low - 0x1_0000_0000 else low
  }

  lemma Int32RoundTrip(code: int32)
    ensures ToInt32(SignExtend(code)) == code
  {
    if code < 0 {
      assert code + 0x1_0000_0000_0000_0000 == 0xFFFF_FFFF * 0x1_0000_0000 + (code + 0x1_0000_0000);
    }
  }

  // ---------- frames ----------

  function BigEndian32(n: nat): seq<byte>
    requires n < 0x1_0000_0000
  {
    [n / 0x100_0000, n / 0x1_0000 % 256, n / 256 % 256, n % 256]
  }

  function GrpcFrame(payload: seq<byte>): seq<byte>
    requires |payload| < 0x1_0000_0000
  {
    [0] + BigEndian32(|payload|) + payload
  }

  function GrpcPayload(data: seq<byte>): Option<seq<byte>> {
    if |data| < 5 || data[0] != 0 then None
    else
      var b1: int, b2: int, b3: int, b4: int := data[1], data[2], data[3], data[4];
      var length := ((b1 * 256 + b2) * 256 + b3) * 256 + b4;
      if 5 + length > |data| then None else Some(data[5..5 + length])
  }

  lemma FrameRoundTrip(payload: seq<byte>, trailing: seq<byte>)
    requires |payload| < 0x1_0000_0000
    ensures GrpcPayload(GrpcFrame(payload) + trailing) == Some(payload)
  {
    var n := |payload|;
    var data := GrpcFrame(payload) + trailing;
    assert data[1] == n / 0x100_0000 && data[2] == n / 0x1_0000 % 256 && data[3] == n / 256 % 256 && data[4] == n % 256;
    assert ((n / 0x100_0000 * 256 + n / 0x1_0000 % 256) * 256 + n / 256 % 256) * 256 + n % 256 == n;
    assert data[5..5 + n] == payload;
  }

  // ---------- fields ----------

  const INT_MAX: int := 0x7FFF_FFFF_FFFF_FFFF

  /** End of a length-delimited body whose length varint is at `index`: its start and end. */
  function Delimited(data: seq<byte>, index: nat): (r: Option<(nat, nat)>)
    requires index <= |data|
    ensures r.Some? ==> index < r.value.0 <= r.value.1 <= |data|
  {
    var length := ReadVarint(data, index);
    if length.None? || length.value.value > INT_MAX || |data| - length.value.index < length.value.value then None
    else Some((length.value.index, length.value.index + length.value.value))
  }

  function SkipField(data: seq<byte>, wireType: nat, index: nat): (r: Option<nat>)
    requires index <= |data|
    ensures r.Some? ==> index <= r.value <= |data|
  {
    match wireType
    case 0 =>
      var v := ReadVarint(data, index);
      if v.None? then None else Some(v.value.index)
    case 1 => if |data| - index >= 8 then Some(index + 8) else None
    case 2 =>
      var body := Delimited(data, index);
      if body.None? then None else Some(body.value.1)
    case 5 => if |data| - index >= 4 then Some(index + 4) else None
    case _ => None
  }

  lemma SkipShifts(pre: seq<byte>, m: seq<byte>, wireType: nat, index: nat)
    requires index <= |m|
    ensures var a, b := SkipField(pre + m, wireType, |pre| + index), SkipField(m, wireType, index);
            a == if b.None? then None else Some(|pre| + b.value)
  {
    ReadVarintShifts(pre, m, index);
    hide ReadVarint;
  }

  lemma DelimitedShifts(pre: seq<byte>, m: seq<byte>, index: nat)
    requires index <= |m|
    ensures var a, b := Delimited(pre + m, |pre| + index), Delimited(m, index);
            a == if b.None? then None else Some((|pre| + b.value.0, |pre| + b.value.1))
    ensures var b := Delimited(m, index);
            b.Some? ==> (pre + m)[|pre| + b.value.0..|pre| + b.value.1] == m[b.value.0..b.value.1]
  {
    ReadVarintShifts(pre, m, index);
    hide ReadVarint;
  }

  // ---------- the response parsers ----------

  datatype SendResponse = SendResponse(errorCode: int32, errorMessage: string)

  /** UTF-8 decoding, which may reject; left to the platform. */
  type Utf8 = seq<byte> -> Option<string>

  function ParseSendFrom(utf8: Utf8, data: seq<byte>, index: nat, code: Option<int32>, message: string): Option<SendResponse>
    requires index <= |data|
    decreases |data| - index
  {
    if index == |data| then Some(SendResponse(if code.Some? then code.value else 0, message))
    else
      var key := ReadVarint(data, index);
      if key.None? then None
      else
        var field, wireType, at := key.value.value / 8, key.value.value % 8, key.value.index;
        if field == 1 && wireType == 0 then
          var v := ReadVarint(data, at);
          if v.None? then None
          else ParseSendFrom(utf8, data, v.value.index, Some(ToInt32(v.value.value)), message)
        else if field == 2 && wireType == 2 then
          var body := Delimited(data, at);
          if body.None? then None
          else
            var decoded := utf8(data[body.value.0..body.value.1]);
            if decoded.None? then None else ParseSendFrom(utf8, data, body.value.1, code, decoded.value)
        else
          var next := SkipField(data, wireType, at);
          if next.None? then None else ParseSendFrom(utf8, data, next.value, code, message)
  }

  function ParseSendResponse(utf8: Utf8, frame: seq<byte>): Option<SendResponse> {
    var payload := GrpcPayload(frame);
    if payload.None? then None else ParseSendFrom(utf8, payload.value, 0, None, "")
  }

  method ParseSendLoop(utf8: Utf8, frame: seq<byte>) returns (r: Option<SendResponse>)
    ensures r == ParseSendResponse(utf8, frame)
  {
    var payload := GrpcPayload(frame);
    if payload.None? { return None; }
    var data := payload.value;
    var index := 0;
    var code: Option<int32> := None;
    var message := "";
    while index < |data|
      invariant index <= |data|
      invariant ParseSendFrom(utf8, data, index, code, message) == ParseSendFrom(utf8, data, 0, None, "")
      decreases |data| - index
    {
      var key := ReadVarintLoop(data, index);
      if key.None? { return None; }
      var field, wireType := key.value.value / 8, key.value.value % 8;
      if field == 1 && wireType == 0 {
        var v := ReadVarintLoop(data, key.value.index);
        if v.None? { return None; }
        code, index := Some(ToInt32(v.value.value)), v.value.index;
      } else if field == 2 && wireType == 2 {
        var body := Delimited(data, key.value.index);
        if body.None? { return None; }
        var decoded := utf8(data[body.value.0..body.value.1]);
        if decoded.None? { return None; }
        message, index := decoded.value, body.value.1;
      } else {
        var next := SkipField(data, wireType, key.value.index);
        if next.None? { return None; }
        index := next.value;
      }
    }
    return Some(SendResponse(if code.Some? then code.value else 0, message));
  }

  datatype Observation = Mempool | Forked | Mined(height: u64)

  function ParseTransactionFrom(data: seq<byte>, index: nat, height: u64): Option<u64>
    requires index <= |data|
    decreases |data| - index
  {
    if index == |data| then Some(height)
    else
      var key := ReadVarint(data, index);
      if key.None? then None
      else
        var field, wireType, at := key.value.value / 8, key.value.value % 8, key.value.index;
        if field == 2 && wireType == 0 then
          var v := ReadVarint(data, at);
          if v.None? then None else ParseTransactionFrom(data, v.value.index, v.value.value)
        else
          var next := SkipField(data, wireType, at);
          if next.None? then None else ParseTransactionFrom(data, next.value, height)
  }

  function Observed(height: u64): Observation {
    if height == 0 then Mempool else if height == 0xFFFF_FFFF_FFFF_FFFF then Forked else Mined(height)
  }

  function ParseTransactionResponse(frame: seq<byte>): Option<Observation> {
    var payload := GrpcPayload(frame);
    if payload.None? then None
    else
      var height := ParseTransactionFrom(payload.value, 0, 0);
      if height.None? then None else Some(Observed(height.value))
  }

  method ParseTransactionLoop(frame: seq<byte>) returns (r: Option<Observation>)
    ensures r == ParseTransactionResponse(frame)
  {
    var payload := GrpcPayload(frame);
    if payload.None? { return None; }
    var data := payload.value;
    var index := 0;
    var height: u64 := 0;
    while index < |data|
      invariant index <= |data|
      invariant ParseTransactionFrom(data, index, height) == ParseTransactionFrom(data, 0, 0)
      decreases |data| - index
    {
      var key := ReadVarintLoop(data, index);
      if key.None? { return None; }
      var field, wireType := key.value.value / 8, key.value.value % 8;
      if field == 2 && wireType == 0 {
        var v := ReadVarintLoop(data, key.value.index);
        if v.None? { return None; }
        height, index := v.value.value, v.value.index;
      } else {
        var next := SkipField(data, wireType, key.value.index);
        if next.None? { return None; }
        index := next.value;
      }
    }
    return Some(Observed(height));
  }

  // ---------- a reference printer, and unknown fields ----------

  /** A protobuf field as any conforming peer writes it. */
  datatype Field =
    | VarintField(number: nat, value: u64)
    | Fixed64(number: nat, bytes: seq<byte>)
    | Bytes(number: nat, bytes: seq<byte>)
    | Fixed32(number: nat, bytes: seq<byte>)

  function WireType(f: Field): nat {
    match f
    case VarintField(_, _) => 0
    case Fixed64(_, _) => 1
    case Bytes(_, _) => 2
    case Fixed32(_, _) => 5
  }

  predicate WellFormed(f: Field) {
    && f.number * 8 + 7 <= U64_MAX
    && (f.Fixed64? ==> |f.bytes| == 8) && (f.Fixed32? ==> |f.bytes| == 4) && (f.Bytes? ==> |f.bytes| <= INT_MAX)
  }

  function Body(f: Field): seq<byte> {
    match f
    case VarintField(_, v) => Varint(v)
    case Bytes(_, bs) => Varint(|bs|) + bs
    case Fixed64(_, bs) => bs
    case Fixed32(_, bs) => bs
  }

  function Print(f: Field): seq<byte> {
    Varint(f.number * 8 + WireType(f)) + Body(f)
  }

  lemma KeyIsRead(f: Field, m: seq<byte>)
    requires WellFormed(f)
    ensures ReadVarint(Print(f) + m, 0) == Some(Read(f.number * 8 + WireType(f), |Print(f)| - |Body(f)|))
  {
    hide ReadVarint, Varint, Body;
    HeadIsRead(f.number * 8 + WireType(f), Body(f), m);
  }

  lemma HeadIsRead(key: u64, body: seq<byte>, m: seq<byte>)
    ensures ReadVarint(Varint(key) + body + m, 0) == Some(Read(key, |Varint(key)|))
  {
    hide ReadVarint, Varint;
    VarintRoundTrip([], key, body + m);
    assert [] + Varint(key) + (body + m) == Varint(key) + body + m;
  }

  lemma VarintBodyIsRead(key: seq<byte>, v: u64, m: seq<byte>)
    ensures ReadVarint(key + Varint(v) + m, |key|) == Some(Read(v, |key + Varint(v)|))
  {
    VarintRoundTrip(key, v, m);
  }

  lemma BytesBodyIsRead(key: seq<byte>, bs: seq<byte>, m: seq<byte>)
    requires |bs| <= INT_MAX
    ensures var data := key + (Varint(|bs|) + bs) + m;
            Delimited(data, |key|) == Some((|key| + |Varint(|bs|)|, |key| + |Varint(|bs|)| + |bs|))
  {
    hide ReadVarint, Varint;
    VarintRoundTrip(key, |bs|, bs + m);
    assert key + Varint(|bs|) + (bs + m) == key + (Varint(|bs|) + bs) + m;
  }

  lemma BodyIsSkipped(f: Field, m: seq<byte>)
    requires WellFormed(f)
    ensures SkipField(Print(f) + m, WireType(f), |Print(f)| - |Body(f)|) == Some(|Print(f)|)
    ensures f.Bytes? ==> Delimited(Print(f) + m, |Print(f)| - |Body(f)|) == Some((|Print(f)| - |f.bytes|, |Print(f)|))
    ensures f.VarintField? ==> ReadVarint(Print(f) + m, |Print(f)| - |Body(f)|) == Some(Read(f.value, |Print(f)|))
  {
    var key := Varint(f.number * 8 + WireType(f));
    if f.VarintField? {
      VarintBodyIsRead(key, f.value, m);
    } else if f.Bytes? {
      BytesBodyIsRead(key, f.bytes, m);
    }
    hide ReadVarint, Varint, Delimited;
  }

  /** The position of the remaining message does not matter to the parser. */
  lemma {:induction false} ParseSendShifts(utf8: Utf8, pre: seq<byte>, m: seq<byte>, index: nat, code: Option<int32>, message: string)
    requires index <= |m|
    ensures ParseSendFrom(utf8, pre + m, |pre| + index, code, message) == ParseSendFrom(utf8, m, index, code, message)
    decreases |m| - index
  {
    hide ReadVarint, SkipField, Delimited;
    if index < |m| {
      ReadVarintShifts(pre, m, index);
      var key := ReadVarint(m, index);
      if key.Some? {
        var field, wireType, at := key.value.value / 8, key.value.value % 8, key.value.index;
        ReadVarintShifts(pre, m, at);
        DelimitedShifts(pre, m, at);
        SkipShifts(pre, m, wireType, at);
        if field == 1 && wireType == 0 {
          var v := ReadVarint(m, at);
          if v.Some? { ParseSendShifts(utf8, pre, m, v.value.index, Some(ToInt32(v.value.value)), message); }
        } else if field == 2 && wireType == 2 {
          var body := Delimited(m, at);
          if body.Some? {
            var decoded := utf8(m[body.value.0..body.value.1]);
            if decoded.Some? { ParseSendShifts(utf8, pre, m, body.value.1, code, decoded.value); }
          }
        } else {
          var next := SkipField(m, wireType, at);
          if next.Some? { ParseSendShifts(utf8, pre, m, next.value, code, message); }
        }
      }
    }
  }

  predicate KnownToSend(f: Field) {
    (f.number == 1 && f.VarintField?) || (f.number == 2 && f.Bytes?)
  }

  /** The key splits into the number and the wire type. */
  lemma KeySplits(f: Field)
    ensures (f.number * 8 + WireType(f)) / 8 == f.number && (f.number * 8 + WireType(f)) % 8 == WireType(f)
  {
  }

  /** One field of no interest: the parser steps over it. */
  lemma StepsOver(utf8: Utf8, data: seq<byte>, number: nat, wireType: nat, key: u64, at: nat, end: nat, code: Option<int32>, message: string)
    requires ReadVarint(data, 0) == Some(Read(key, at)) && key / 8 == number && key % 8 == wireType
    requires !(number == 1 && wireType == 0) && !(number == 2 && wireType == 2)
    requires at <= |data| && SkipField(data, wireType, at) == Some(end)
    ensures end <= |data| && ParseSendFrom(utf8, data, 0, code, message) == ParseSendFrom(utf8, data, end, code, message)
  {
    hide ReadVarint, SkipField;
  }

  /** A field the parser does not know, in front of any message, changes nothing: neither a
      result nor a rejection. */
  lemma UnknownFieldIsIgnored(utf8: Utf8, f: Field, m: seq<byte>, code: Option<int32>, message: string)
    requires WellFormed(f) && !KnownToSend(f)
    ensures ParseSendFrom(utf8, Print(f) + m, 0, code, message) == ParseSendFrom(utf8, m, 0, code, message)
  {
    hide ReadVarint, SkipField, Delimited, Print, Body, ParseSendFrom;
    KeyIsRead(f, m);
    KeySplits(f);
    BodyIsSkipped(f, m);
    var at := |Print(f)| - |Body(f)|;
    StepsOver(utf8, Print(f) + m, f.number, WireType(f), f.number * 8 + WireType(f), at, |Print(f)|, code, message);
    ParseSendShifts(utf8, Print(f), m, 0, code, message);
  }

  /** A field the transaction parser does not know. */
  predicate KnownToTransaction(f: Field) {
    f.number == 2 && f.VarintField?
  }

  lemma {:induction false} ParseTransactionShifts(pre: seq<byte>, m: seq<byte>, index: nat, height: u64)
    requires index <= |m|
    ensures ParseTransactionFrom(pre + m, |pre| + index, height) == ParseTransactionFrom(m, index, height)
    decreases |m| - index
  {
    hide ReadVarint, SkipField;
    if index < |m| {
      ReadVarintShifts(pre, m, index);
      var key := ReadVarint(m, index);
      if key.Some? {
        var field, wireType, at := key.value.value / 8, key.value.value % 8, key.value.index;
        ReadVarintShifts(pre, m, at);
        SkipShifts(pre, m, wireType, at);
        if field == 2 && wireType == 0 {
          var v := ReadVarint(m, at);
          if v.Some? { ParseTransactionShifts(pre, m, v.value.index, v.value.value); }
        } else {
          var next := SkipField(m, wireType, at);
          if next.Some? { ParseTransactionShifts(pre, m, next.value, height); }
        }
      }
    }
  }

  lemma TransactionStepsOver(data: seq<byte>, number: nat, wireType: nat, key: u64, at: nat, end: nat, height: u64)
    requires ReadVarint(data, 0) == Some(Read(key, at)) && key / 8 == number && key % 8 == wireType
    requires !(number == 2 && wireType == 0)
    requires at <= |data| && SkipField(data, wireType, at) == Some(end)
    ensures end <= |data| && ParseTransactionFrom(data, 0, height) == ParseTransactionFrom(data, end, height)
  {
    hide ReadVarint, SkipField;
  }

  lemma UnknownFieldIsIgnoredInTransaction(f: Field, m: seq<byte>, height: u64)
    requires WellFormed(f) && !KnownToTransaction(f)
    ensures ParseTransactionFrom(Print(f) + m, 0, height) == ParseTransactionFrom(m, 0, height)
  {
    hide ReadVarint, SkipField, Delimited, Print, Body, ParseTransactionFrom;
    KeyIsRead(f, m);
    KeySplits(f);
    BodyIsSkipped(f, m);
    var at := |Print(f)| - |Body(f)|;
    TransactionStepsOver(Print(f) + m, f.number, WireType(f), f.number * 8 + WireType(f), at, |Print(f)|, height);
    ParseTransactionShifts(Print(f), m, 0, height);
  }

  /** A server's answer for a transaction: the raw bytes and the height. The height decides,
      and a height left out (zero) means the mempool. */
  lemma TransactionRoundTrip(raw: seq<byte>, height: u64, trailing: seq<byte>)
    requires |raw| <= INT_MAX && |Print(Bytes(1, raw)) + Print(VarintField(2, height))| < 0x1_0000_0000
    ensures ParseTransactionResponse(GrpcFrame(Print(Bytes(1, raw)) + Print(VarintField(2, height))) + trailing)
            == Some(Observed(height))
    ensures ParseTransactionFrom(Print(Bytes(1, raw)), 0, 0) == Some(0)
  {
    var f, g := Bytes(1, raw), VarintField(2, height);
    UnknownFieldIsIgnoredInTransaction(f, [], 0);
    assert Print(f) + [] == Print(f);
    FrameRoundTrip(Print(f) + Print(g), trailing);
    UnknownFieldIsIgnoredInTransaction(f, Print(g), 0);
    KeyIsRead(g, []);
    BodyIsSkipped(g, []);
    assert Print(g) + [] == Print(g);
    hide ReadVarint, SkipField, Print, Body, GrpcPayload, GrpcFrame, Delimited;
  }

  /** The response as a conforming server writes it: zero and empty values are omitted. */
  function PrintSend(code: int32, text: seq<byte>): seq<byte> {
    (if code == 0 then [] else Print(VarintField(1, SignExtend(code))))
    + (if text == [] then [] else Print(Bytes(2, text)))
  }

  /** Every error code and message survives the trip. */
  lemma SendResponseRoundTrip(utf8: Utf8, code: int32, text: seq<byte>, message: string, trailing: seq<byte>)
    requires utf8(text) == Some(message) && (text == [] ==> message == "")
    requires |text| <= INT_MAX && |PrintSend(code, text)| < 0x1_0000_0000
    ensures ParseSendResponse(utf8, GrpcFrame(PrintSend(code, text)) + trailing) == Some(SendResponse(code, message))
  {
    var first := if code == 0 then [] else Print(VarintField(1, SignExtend(code)));
    var second := if text == [] then [] else Print(Bytes(2, text));
    FrameRoundTrip(first + second, trailing);
    if code == 0 {
      assert first + second == second;
      MessageIsRead(utf8, None, text, message);
    } else {
      var f := VarintField(1, SignExtend(code));
      KeyIsRead(f, second);
      BodyIsSkipped(f, second);
      Int32RoundTrip(code);
      ParseSendShifts(utf8, first, second, 0, Some(code), "");
      MessageIsRead(utf8, Some(code), text, message);
    }
  }

  lemma MessageIsRead(utf8: Utf8, code: Option<int32>, text: seq<byte>, message: string)
    requires utf8(text) == Some(message) && (text == [] ==> message == "") && |text| <= INT_MAX
    ensures var m := if text == [] then [] else Print(Bytes(2, text));
            ParseSendFrom(utf8, m, 0, code, "") == Some(SendResponse(if code.Some? then code.value else 0, message))
  {
    if text != [] {
      var f := Bytes(2, text);
      var m := Print(f);
      KeyIsRead(f, []);
      BodyIsSkipped(f, []);
      assert m + [] == m;
      assert m[|m| - |text|..|m|] == text;
    }
  }
}
