/**
  The notification payload decoder of the Senssun body scale (`read_stable` and
  `decode_weight` in sensor.py).

  A payload is the byte string the scale pushes on its notify characteristic.
  Bytes 9..14 are unpacked big-endian as `>bhhb`: a signed marker byte, the
  signed 16-bit raw weight (in units of 100 g), a signed 16-bit field that is
  not used, and the signed control byte `ctr1`. A reading is stable when bits
  0x80 and 0x20 of the control byte are both set.
 */
module Decoder {

  import opened Wrappers

  /** An element of a Python `bytes`/`bytearray`: an integer in 0..255. */
  newtype byte = x: int | 0 <= x < 256

  /** Offset of the unpacked window inside the payload. */
  const WindowStart: nat := 9
  /** One past the last byte of the window: `data[9:15]`. */
  const WindowEnd: nat := 15
  /** Size in bytes of the `>bhhb` structure. */
  const StructSize: nat := 6
  /** Mask of the two status bits that flag a settled measurement. */
  const StableMask: nat := 0xA0
  /** The device reports weight in 100-gram units. */
  const GramsPerUnit: int := 100

  /** What one call of `decode_weight` produces. */
  datatype Reading =
    | Stable(grams: int)   // a stable measurement, in grams
    | Unstable             // `None`: the control byte does not flag a stable reading
    | Malformed            // `unpack` raised: the window is not six bytes long

  /** The four values of `unpack(">bhhb", ...)`. */
  datatype Fields = Fields(marker: int, weightRaw: int, spare: int, ctr1: int)

  /** Whether the bit of value `weight` (a power of two) is set in `a`. */
  predicate HasBit(a: nat, weight: nat)
    requires weight > 0
  {
    a / weight % 2 == 1
  }

  /** Bitwise and of two naturals, one bit at a time from the least significant. */
  function BitAnd(a: nat, b: nat): (r: nat)
    ensures r <= a && r <= b
    decreases a
  {
    if a == 0 || b == 0 then 0
    else 2 * BitAnd(a / 2, b / 2) + (if a % 2 == 1 && b % 2 == 1 then 1 else 0)
  }

  /**
    Python's `x & m` for a mask `m` below 256. Python ints behave as infinite
    two's-complement bit strings, so with such a mask only the low eight bits of
    `x`, that is `x % 256`, take part, also when `x` is negative.
   */
  function PyAnd8(x: int, m: nat): (r: nat)
    requires m < 256
    ensures r <= m
  {
    BitAnd(x % 256, m)
  }

  /** The signed value of one byte (format character `b`). */
  function Signed8(b: byte): (v: int)
    ensures -128 <= v < 128
    ensures v % 256 == b as int
    ensures v < 0 <==> b >= 128
  {
    if b >= 128 then b as int - 256 else b as int
  }

  /** The signed value of a big-endian 16-bit word (format character `>h`). */
  function Signed16(hi: byte, lo: byte): (v: int)
    ensures -32768 <= v < 32768
    ensures v % 65536 == hi as int * 256 + lo as int
  {
    var u := hi as int * 256 + lo as int;
    if u >= 32768 then u - 65536 else u
  }

  /** Python's `data[i:j]` for 0 <= i <= j: both bounds are clamped to the length. */
  function Slice(data: seq<byte>, i: nat, j: nat): (w: seq<byte>)
    requires i <= j
    ensures |w| == (if |data| <= i then 0 else if |data| <= j then |data| - i else j - i)
    ensures forall k :: 0 <= k < |w| ==> w[k] == data[i + k]
  {
    var lo := if |data| < i then |data| else i;
    var hi := if |data| < j then |data| else j;
    data[lo..hi]
  }

  /** `struct.unpack(">bhhb", x)`: `None` where Python raises `struct.error`. */
  function Unpack(x: seq<byte>): (f: Option<Fields>)
    ensures f.Some? <==> |x| == StructSize
    ensures f.Some? ==> f.value.weightRaw == Signed16(x[1], x[2]) && f.value.ctr1 == Signed8(x[5])
  {
    if |x| != StructSize then None
    else Some(Fields(Signed8(x[0]), Signed16(x[1], x[2]), Signed16(x[3], x[4]), Signed8(x[5])))
  }

  /**
    `read_stable`: 1 when the control byte, taken as its two's-complement bit
    pattern, has both bit 7 (0x80) and bit 5 (0x20) set, else 0.
   */
  function ReadStable(ctr1: int): (r: int)
    requires -128 <= ctr1 < 128
    ensures r == 0 || r == 1
    ensures r == 1 <==> HasBit(ctr1 % 256, 0x80) && HasBit(ctr1 % 256, 0x20)
  {
    StableMaskBits(ctr1 % 256);
    if PyAnd8(ctr1, StableMask) == StableMask then 1 else 0
  }

  /** The raw control byte carries the stable flag: both status bits are set. */
  predicate IsStableByte(b: byte) {
    HasBit(b as nat, 0x80) && HasBit(b as nat, 0x20)
  }

  /**
    `decode_weight`: unpack bytes 9..14, give `Unstable` unless the control
    byte is stable, otherwise the raw weight times 100.
   */
  function DecodeWeight(data: seq<byte>): (r: Reading)
    ensures r.Malformed? <==> |data| < WindowEnd
    ensures r.Stable? ==> r.grams % GramsPerUnit == 0 && -3276800 <= r.grams <= 3276700
  {
    match Unpack(Slice(data, WindowStart, WindowEnd))
    case None => Malformed
    case Some(f) =>
      if ReadStable(f.ctr1) == 0 then Unstable
      else Stable(f.weightRaw * GramsPerUnit)
  }

  /** The exceptions `decode_weight` raises as written. */
  datatype Raised = StructError | NameError

  /**
    `decode_weight` exactly as written: `read_stable` is a class attribute but
    is called as a bare name, which Python looks up among the module's globals
    and builtins only, so every payload that `unpack` accepts raises `NameError`.
   */
  function DecodeWeightAsWritten(data: seq<byte>): (e: Raised)
    ensures e == NameError <==> |data| >= WindowEnd
  {
    match Unpack(Slice(data, WindowStart, WindowEnd))
    case None => StructError
    case Some(_) => NameError
  }

  /** Big-endian two's-complement 16-bit encoding of `w`. */
  function Encode16(w: int): (b: (byte, byte))
    requires -32768 <= w < 32768
  {
    var u := w % 65536;
    ((u / 256) as byte, (u % 256) as byte)
  }

  /** A 15-byte payload carrying raw weight `w` and control byte `ctr1`, every other byte zero. */
  function EncodePayload(w: int, ctr1: byte): (p: seq<byte>)
    requires -32768 <= w < 32768
    ensures |p| == WindowEnd
  {
    var (hi, lo) := Encode16(w);
    [0, 0, 0, 0, 0, 0, 0, 0, 0, 0, hi, lo, 0, 0, ctr1]
  }

  // ---------------------------------------------------------------------------
  // Properties of the decoder
  // ---------------------------------------------------------------------------

  /**
    Masking a byte with 0xA0 keeps exactly its bits 7 and 5, so the mask test
    `u & 0xA0 == 0xA0` holds exactly when both bits are set.
   */
  lemma {:induction false} StableMaskBits(u: nat)
    requires u < 256
    ensures BitAnd(u, StableMask) == StableMask <==> HasBit(u, 0x80) && HasBit(u, 0x20)
  {
    // 0xA0 is 1010_0000: peel the eight bits of `u` off one at a time.
    var u1 := u / 2;
    var u2 := u1 / 2;
    var u3 := u2 / 2;
    var u4 := u3 / 2;
    var u5 := u4 / 2;
    var u6 := u5 / 2;
    var u7 := u6 / 2;
    assert u5 == u / 32 && u7 == u / 128;
    assert BitAnd(u7, 1) == u7 % 2;
    assert BitAnd(u6, 2) == 2 * BitAnd(u7, 1);
    assert BitAnd(u5, 5) == 2 * BitAnd(u6, 2) + u5 % 2;
    assert BitAnd(u4, 10) == 2 * BitAnd(u5, 5);
    assert BitAnd(u3, 20) == 2 * BitAnd(u4, 10);
    assert BitAnd(u2, 40) == 2 * BitAnd(u3, 20);
    assert BitAnd(u1, 80) == 2 * BitAnd(u2, 40);
    assert BitAnd(u, 160) == 2 * BitAnd(u1, 80);
  }

  /** Going through the signed value of the control byte keeps its bit pattern. */
  lemma ReadStableOfByte(b: byte)
    ensures ReadStable(Signed8(b)) == 1 <==> IsStableByte(b)
  {
  }

  /** A stable control byte is a negative signed byte: bit 7 is its sign bit. */
  lemma StableControlIsNegative(ctr1: int)
    requires -128 <= ctr1 < 128
    ensures ReadStable(ctr1) == 1 ==> ctr1 < 0
  {
  }

  /** Signed16 inverts Encode16 on the 16-bit range. */
  lemma Signed16Encode16(w: int)
    requires -32768 <= w < 32768
    ensures Signed16(Encode16(w).0, Encode16(w).1) == w
  {
    var u := w % 65536;
    assert u == if w < 0 then w + 65536 else w;
  }

  /** The outcome of decoding a payload of at least 15 bytes, in terms of its bytes 10, 11 and 14. */
  lemma DecodeWellFormed(data: seq<byte>)
    requires |data| >= WindowEnd
    ensures DecodeWeight(data) ==
      if IsStableByte(data[14]) then Stable(Signed16(data[10], data[11]) * GramsPerUnit) else Unstable
  {
    var w := Slice(data, WindowStart, WindowEnd);
    assert w[1] == data[10] && w[2] == data[11] && w[5] == data[14];
    ReadStableOfByte(data[14]);
  }

  /** Only bytes 10, 11 and 14 matter: bytes 0..9, 12, 13 and everything past 14 do not. */
  lemma DecodeDependsOnlyOnWeightAndControl(a: seq<byte>, b: seq<byte>)
    requires |a| >= WindowEnd && |b| >= WindowEnd
    requires a[10] == b[10] && a[11] == b[11] && a[14] == b[14]
    ensures DecodeWeight(a) == DecodeWeight(b)
  {
    DecodeWellFormed(a);
    DecodeWellFormed(b);
  }

  /** An unstable control byte gives no reading, whatever the weight bytes hold. */
  lemma UnstableIgnoresWeight(data: seq<byte>)
    requires |data| >= WindowEnd && !IsStableByte(data[14])
    ensures DecodeWeight(data) == Unstable
  {
    DecodeWellFormed(data);
  }

  /** Encoding a raw weight with a control byte decodes to that weight times 100, or to no reading. */
  lemma DecodeEncode(w: int, ctr1: byte)
    requires -32768 <= w < 32768
    ensures DecodeWeight(EncodePayload(w, ctr1)) ==
      if IsStableByte(ctr1) then Stable(w * GramsPerUnit) else Unstable
  {
    DecodeWellFormed(EncodePayload(w, ctr1));
    Signed16Encode16(w);
  }

  /** Every stable reading is the decoding of the canonical payload of its raw weight. */
  lemma EncodeDecode(data: seq<byte>)
    requires DecodeWeight(data).Stable?
    ensures var g := DecodeWeight(data).grams;
      -32768 <= g / GramsPerUnit < 32768 &&
      DecodeWeight(EncodePayload(g / GramsPerUnit, StableMask as byte)) == DecodeWeight(data)
  {
    var g := DecodeWeight(data).grams;
    DecodeEncode(g / GramsPerUnit, StableMask as byte);
  }

  /** Example: raw weight 5 with control byte 0xA0 is a stable 500 g. */
  lemma StableExample()
    ensures DecodeWeight([0, 0, 0, 0, 0, 0, 0, 0, 0, 0x01, 0x00, 0x05, 0x00, 0x00, 0xA0]) == Stable(500)
  {
    DecodeWellFormed([0, 0, 0, 0, 0, 0, 0, 0, 0, 0x01, 0x00, 0x05, 0x00, 0x00, 0xA0]);
  }

  /** The same payload with control byte 0x00 gives no reading. */
  lemma UnstableExample()
    ensures DecodeWeight([0, 0, 0, 0, 0, 0, 0, 0, 0, 0x01, 0x00, 0x05, 0x00, 0x00, 0x00]) == Unstable
  {
    DecodeWellFormed([0, 0, 0, 0, 0, 0, 0, 0, 0, 0x01, 0x00, 0x05, 0x00, 0x00, 0x00]);
  }

  /**
    As written, the payload of `StableExample` raises instead of giving the
    500 g that `DecodeWeight`, with `read_stable` reached, gives.
   */
  lemma AsWrittenRaisesOnStablePayload()
    ensures var p: seq<byte> := [0, 0, 0, 0, 0, 0, 0, 0, 0, 0x01, 0x00, 0x05, 0x00, 0x00, 0xA0];
      DecodeWeightAsWritten(p) == NameError && DecodeWeight(p) == Stable(500)
  {
    StableExample();
  }
}
