/**
 * The Neuroon mask's fixed-width sensor frames (EegFrame, PatFrame) and their codec:
 * `from_bytes_array` decodes 20 bytes in big- or little-endian order, `to_bytes`
 * writes a frame back.  Byte order changes only how each multi-byte field reads its
 * own bytes; it never moves a field.
 */
module FrameCodec {
  import opened Wrappers

  type uint8 = x: int | 0 <= x < 0x100
  type int8 = x: int | -0x80 <= x < 0x80
  type int16 = x: int | -0x8000 <= x < 0x8000
  type uint32 = x: int | 0 <= x < 0x1_0000_0000
  type int32 = x: int | -0x8000_0000 <= x < 0x8000_0000

  datatype ByteOrder = BigEndian | LittleEndian

  /** Width in bytes of every frame on the wire. */
  const FRAME_BYTES: nat := 20
  /** EegFrame::Length, the number of samples in one EEG frame. */
  const EEG_FRAME_LENGTH: nat := 8
  /** The order `from_bytes_array` uses when none is given. */
  const DEFAULT_ORDER: ByteOrder := BigEndian

  type EegSignal = s: seq<int16> | |s| == 8 witness [0, 0, 0, 0, 0, 0, 0, 0]
  /** Bytes 8..11 of a PAT frame: no named field covers them, they travel verbatim. */
  type ReservedBytes = s: seq<uint8> | |s| == 4 witness [0, 0, 0, 0]
  type Temperatures = s: seq<int8> | |s| == 2 witness [0, 0]

  datatype EegFrame = EegFrame(timestamp: uint32, signal: EegSignal)

  datatype AccelAxes = AccelAxes(x: int16, y: int16, z: int16)

  datatype PatFrame = PatFrame(
    timestamp: uint32,
    irLed: int32,
    reserved: ReservedBytes,
    accelAxes: AccelAxes,
    temperature: Temperatures)

  // ---------------------------------------------------------------------------
  // Reading one field's bytes as a number

  /** The unsigned value of the two bytes at `at`, read in `order`. */
  function Word16(bytes: seq<uint8>, at: nat, order: ByteOrder): (w: nat)
    requires at + 2 <= |bytes|
    ensures w < 0x1_0000
  {
    match order
    case BigEndian => bytes[at] as int * 0x100 + bytes[at + 1] as int
    case LittleEndian => bytes[at + 1] as int * 0x100 + bytes[at] as int
  }

  /** The unsigned value of the four bytes at `at`, read in `order`. */
  function Word32(bytes: seq<uint8>, at: nat, order: ByteOrder): (w: nat)
    requires at + 4 <= |bytes|
    ensures w < 0x1_0000_0000
  {
    // the four bytes are two 16-bit halves, most significant half first in big-endian order
    match order
    case BigEndian => Word16(bytes, at, order) * 0x1_0000 + Word16(bytes, at + 2, order)
    case LittleEndian => Word16(bytes, at + 2, order) * 0x1_0000 + Word16(bytes, at, order)
  }

  /** Two's complement reading of an unsigned 8-bit value. */
  function Signed8(w: uint8): int8
  {
    if w < 0x80 then w else w - 0x100
  }

  function Signed16(w: nat): int16
    requires w < 0x1_0000
  {
    if w < 0x8000 then w else w - 0x1_0000
  }

  function Signed32(w: nat): int32
    requires w < 0x1_0000_0000
  {
    if w < 0x8000_0000 then w else w - 0x1_0000_0000
  }

  /** The bit pattern of a signed value: the inverse of the signed readings above. */
  function Unsigned8(v: int8): (w: uint8)
    ensures Signed8(w) == v
  {
    if v < 0 then v + 0x100 else v
  }

  function Unsigned16(v: int16): (w: nat)
    ensures w < 0x1_0000 && Signed16(w) == v
  {
    if v < 0 then v + 0x1_0000 else v
  }

  function Unsigned32(v: int32): (w: nat)
    ensures w < 0x1_0000_0000 && Signed32(w) == v
  {
    if v < 0 then v + 0x1_0000_0000 else v
  }

  lemma SignedInverse16(w: nat)
    requires w < 0x1_0000
    ensures Unsigned16(Signed16(w)) == w
  {
  }

  lemma SignedInverse32(w: nat)
    requires w < 0x1_0000_0000
    ensures Unsigned32(Signed32(w)) == w
  {
  }

  // ---------------------------------------------------------------------------
  // Writing one field's bytes

  /** The two bytes that read back as `w` in `order`. */
  function Word16Bytes(w: nat, order: ByteOrder): (bs: seq<uint8>)
    requires w < 0x1_0000
    ensures |bs| == 2 && Word16(bs, 0, order) == w
  {
    var hi, lo := w / 0x100, w % 0x100;
    match order
    case BigEndian => [hi, lo]
    case LittleEndian => [lo, hi]
  }

  /** The four bytes that read back as `w` in `order`. */
  function Word32Bytes(w: nat, order: ByteOrder): (bs: seq<uint8>)
    requires w < 0x1_0000_0000
    ensures |bs| == 4 && Word32(bs, 0, order) == w
  {
    var hi, lo := w / 0x1_0000, w % 0x1_0000;
    match order
    case BigEndian => Word16Bytes(hi, order) + Word16Bytes(lo, order)
    case LittleEndian => Word16Bytes(lo, order) + Word16Bytes(hi, order)
  }

  /** Writing back what was read at `at` reproduces those two bytes. */
  lemma Word16BytesOfRead(bytes: seq<uint8>, at: nat, order: ByteOrder)
    requires at + 2 <= |bytes|
    ensures Word16Bytes(Word16(bytes, at, order), order) == bytes[at..at + 2]
  {
  }

  /** Writing back what was read at `at` reproduces those four bytes. */
  lemma Word32BytesOfRead(bytes: seq<uint8>, at: nat, order: ByteOrder)
    requires at + 4 <= |bytes|
    ensures Word32Bytes(Word32(bytes, at, order), order) == bytes[at..at + 4]
  {
    var first, second := Word16(bytes, at, order), Word16(bytes, at + 2, order);
    Word16BytesOfRead(bytes, at, order);
    Word16BytesOfRead(bytes, at + 2, order);
    assert bytes[at..at + 4] == bytes[at..at + 2] + bytes[at + 2..at + 4];
    match order
    case BigEndian => HalvesOfWord32(first, second);
    case LittleEndian => HalvesOfWord32(second, first);
  }

  /** The two 16-bit halves of a 32-bit value are its quotient and remainder by 0x1_0000. */
  lemma HalvesOfWord32(hi: nat, lo: nat)
    requires hi < 0x1_0000 && lo < 0x1_0000
    ensures (hi * 0x1_0000 + lo) / 0x1_0000 == hi && (hi * 0x1_0000 + lo) % 0x1_0000 == lo
  {
  }

  // ---------------------------------------------------------------------------
  // EegFrame: bytes 0..3 the timestamp, then eight signed 16-bit samples

  /** EegFrame::from_bytes_array: None when fewer than 20 bytes are given. */
  function EegFromBytes(bytes: seq<uint8>, order: ByteOrder): (r: Option<EegFrame>)
    ensures r.Some? <==> |bytes| >= FRAME_BYTES
  {
    if |bytes| < FRAME_BYTES then None
    else
      var signal := seq(8, i requires 0 <= i < 8 => Signed16(Word16(bytes, 4 + 2 * i, order)));
      Some(EegFrame(Word32(bytes, 0, order), signal))
  }

  /** The bytes of the samples, each written as a two-byte field in `order`. */
  function SamplesBytes(signal: seq<int16>, order: ByteOrder): (bs: seq<uint8>)
    ensures |bs| == 2 * |signal|
  {
    seq(2 * |signal|, j requires 0 <= j < 2 * |signal| => Word16Bytes(Unsigned16(signal[j / 2]), order)[j % 2])
  }

  /** EegFrame::to_bytes. */
  function EegToBytes(f: EegFrame, order: ByteOrder): (bytes: seq<uint8>)
    ensures |bytes| == FRAME_BYTES
  {
    Word32Bytes(f.timestamp, order) + SamplesBytes(f.signal, order)
  }

  // ---------------------------------------------------------------------------
  // PatFrame: timestamp, IR reading, 4 reserved bytes, accelerometer, temperatures

  /** PatFrame::from_bytes_array: None when fewer than 20 bytes are given. */
  function PatFromBytes(bytes: seq<uint8>, order: ByteOrder): (r: Option<PatFrame>)
    ensures r.Some? <==> |bytes| >= FRAME_BYTES
  {
    if |bytes| < FRAME_BYTES then None
    else
      var axes := AccelAxes(
        Signed16(Word16(bytes, 12, order)),
        Signed16(Word16(bytes, 14, order)),
        Signed16(Word16(bytes, 16, order)));
      Some(PatFrame(
        Word32(bytes, 0, order),
        Signed32(Word32(bytes, 4, order)),
        bytes[8..12],
        axes,
        [Signed8(bytes[18]), Signed8(bytes[19])]))
  }

  /** PatFrame::to_bytes. */
  function PatToBytes(f: PatFrame, order: ByteOrder): (bytes: seq<uint8>)
    ensures |bytes| == FRAME_BYTES
  {
    Word32Bytes(f.timestamp, order)
    + Word32Bytes(Unsigned32(f.irLed), order)
    + f.reserved
    + Word16Bytes(Unsigned16(f.accelAxes.x), order)
    + Word16Bytes(Unsigned16(f.accelAxes.y), order)
    + Word16Bytes(Unsigned16(f.accelAxes.z), order)
    + [Unsigned8(f.temperature[0]), Unsigned8(f.temperature[1])]
  }

  // ---------------------------------------------------------------------------
  // Round trips

  /** A field's reading depends on its own two bytes only. */
  lemma Word16OfSpan(bytes: seq<uint8>, at: nat, order: ByteOrder)
    requires at + 2 <= |bytes|
    ensures Word16(bytes, at, order) == Word16(bytes[at..at + 2], 0, order)
  {
  }

  /** A field's reading depends on its own four bytes only. */
  lemma Word32OfSpan(bytes: seq<uint8>, at: nat, order: ByteOrder)
    requires at + 4 <= |bytes|
    ensures Word32(bytes, at, order) == Word32(bytes[at..at + 4], 0, order)
  {
    Word16OfSpan(bytes, at, order);
    Word16OfSpan(bytes, at + 2, order);
    Word16OfSpan(bytes[at..at + 4], 0, order);
    Word16OfSpan(bytes[at..at + 4], 2, order);
  }

  lemma SamplesBytesAt(signal: seq<int16>, order: ByteOrder, i: nat)
    requires i < |signal|
    ensures SamplesBytes(signal, order)[2 * i..2 * i + 2] == Word16Bytes(Unsigned16(signal[i]), order)
  {
    var bs := SamplesBytes(signal, order);
    assert bs[2 * i] == Word16Bytes(Unsigned16(signal[i]), order)[0];
    assert bs[2 * i + 1] == Word16Bytes(Unsigned16(signal[i]), order)[1];
  }

  /** Decoding what EegFrame::to_bytes wrote gives the frame back. */
  lemma EegEncodeDecode(f: EegFrame, order: ByteOrder)
    ensures EegFromBytes(EegToBytes(f, order), order) == Some(f)
  {
    var bytes := EegToBytes(f, order);
    EegTimestampRoundTrip(f, order);
    forall i | 0 <= i < 8
      ensures Signed16(Word16(bytes, 4 + 2 * i, order)) == f.signal[i]
    {
      EegSampleRoundTrip(f, order, i);
    }
    EegFromFields(bytes, order, f);
  }

  /** Any 20 bytes whose fields read as those of `f` decode to `f`. */
  lemma EegFromFields(bytes: seq<uint8>, order: ByteOrder, f: EegFrame)
    requires |bytes| == FRAME_BYTES && Word32(bytes, 0, order) == f.timestamp
    requires forall i :: 0 <= i < 8 ==> Signed16(Word16(bytes, 4 + 2 * i, order)) == f.signal[i]
    ensures EegFromBytes(bytes, order) == Some(f)
  {
    assert EegFromBytes(bytes, order).value.signal == f.signal;
  }

  lemma EegTimestampRoundTrip(f: EegFrame, order: ByteOrder)
    ensures Word32(EegToBytes(f, order), 0, order) == f.timestamp
  {
    var bytes := EegToBytes(f, order);
    assert bytes[..4] == Word32Bytes(f.timestamp, order);
    Word32OfSpan(bytes, 0, order);
  }

  lemma EegSampleRoundTrip(f: EegFrame, order: ByteOrder, i: nat)
    requires i < 8
    ensures Signed16(Word16(EegToBytes(f, order), 4 + 2 * i, order)) == f.signal[i]
  {
    var head, samples := Word32Bytes(f.timestamp, order), SamplesBytes(f.signal, order);
    SamplesBytesAt(f.signal, order, i);
    SliceAfter(head, samples, 2 * i, 2);
    Word16At(head + samples, 4 + 2 * i, Unsigned16(f.signal[i]), order);
  }

  /** A slice of the second part of a concatenation. */
  lemma SliceAfter(a: seq<uint8>, b: seq<uint8>, k: nat, n: nat)
    requires k + n <= |b|
    ensures (a + b)[|a| + k..|a| + k + n] == b[k..k + n]
  {
  }

  /** Decoding 20 bytes and writing the frame back reproduces every byte. */
  lemma EegDecodeEncode(bytes: seq<uint8>, order: ByteOrder)
    requires |bytes| == FRAME_BYTES
    ensures EegFromBytes(bytes, order).Some?
    ensures EegToBytes(EegFromBytes(bytes, order).value, order) == bytes
  {
    var f := EegFromBytes(bytes, order).value;
    Word32BytesOfRead(bytes, 0, order);
    forall j | 0 <= j < 16
      ensures SamplesBytes(f.signal, order)[j] == bytes[4 + j]
    {
      var i := j / 2;
      Word16BytesOfRead(bytes, 4 + 2 * i, order);
      SignedInverse16(Word16(bytes, 4 + 2 * i, order));
    }
    assert EegToBytes(f, order) == bytes[..4] + bytes[4..];
  }

  /** Where PatFrame::to_bytes puts each field. */
  lemma PatToBytesFields(f: PatFrame, order: ByteOrder)
    ensures var bytes := PatToBytes(f, order);
      && bytes[0..4] == Word32Bytes(f.timestamp, order)
      && bytes[4..8] == Word32Bytes(Unsigned32(f.irLed), order)
      && bytes[8..12] == f.reserved
      && bytes[12..14] == Word16Bytes(Unsigned16(f.accelAxes.x), order)
      && bytes[14..16] == Word16Bytes(Unsigned16(f.accelAxes.y), order)
      && bytes[16..18] == Word16Bytes(Unsigned16(f.accelAxes.z), order)
      && bytes[18] == Unsigned8(f.temperature[0]) && bytes[19] == Unsigned8(f.temperature[1])
  {
  }

  /** A two-byte field written as `w` reads back as `w` in place. */
  lemma Word16At(bytes: seq<uint8>, at: nat, w: nat, order: ByteOrder)
    requires at + 2 <= |bytes| && w < 0x1_0000 && bytes[at..at + 2] == Word16Bytes(w, order)
    ensures Word16(bytes, at, order) == w
  {
    Word16OfSpan(bytes, at, order);
  }

  /** A four-byte field written as `w` reads back as `w` in place. */
  lemma Word32At(bytes: seq<uint8>, at: nat, w: nat, order: ByteOrder)
    requires at + 4 <= |bytes| && w < 0x1_0000_0000 && bytes[at..at + 4] == Word32Bytes(w, order)
    ensures Word32(bytes, at, order) == w
  {
    Word32OfSpan(bytes, at, order);
  }

  /** Decoding what PatFrame::to_bytes wrote gives the frame back, reserved bytes included. */
  lemma PatEncodeDecode(f: PatFrame, order: ByteOrder)
    ensures PatFromBytes(PatToBytes(f, order), order) == Some(f)
  {
    var bytes := PatToBytes(f, order);
    PatToBytesFields(f, order);
    Word32At(bytes, 0, f.timestamp, order);
    Word32At(bytes, 4, Unsigned32(f.irLed), order);
    Word16At(bytes, 12, Unsigned16(f.accelAxes.x), order);
    Word16At(bytes, 14, Unsigned16(f.accelAxes.y), order);
    Word16At(bytes, 16, Unsigned16(f.accelAxes.z), order);
    var d := PatFromBytes(bytes, order).value;
    assert d.temperature == f.temperature;
  }

  /** Decoding 20 bytes as a PAT frame and writing it back reproduces every byte. */
  lemma PatDecodeEncode(bytes: seq<uint8>, order: ByteOrder)
    requires |bytes| == FRAME_BYTES
    ensures PatFromBytes(bytes, order).Some?
    ensures PatToBytes(PatFromBytes(bytes, order).value, order) == bytes
  {
    var f := PatFromBytes(bytes, order).value;
    var out := PatToBytes(f, order);
    PatToBytesFields(f, order);
    Word32BytesOfRead(bytes, 0, order);
    Word32BytesOfRead(bytes, 4, order);
    SignedInverse32(Word32(bytes, 4, order));
    Word16BytesOfRead(bytes, 12, order);
    SignedInverse16(Word16(bytes, 12, order));
    Word16BytesOfRead(bytes, 14, order);
    SignedInverse16(Word16(bytes, 14, order));
    Word16BytesOfRead(bytes, 16, order);
    SignedInverse16(Word16(bytes, 16, order));
    forall j | 0 <= j < FRAME_BYTES
      ensures out[j] == bytes[j]
    {
      if j < 4 {
        assert out[j] == out[0..4][j];
      } else if j < 8 {
        assert out[j] == out[4..8][j - 4];
      } else if j < 12 {
        assert out[j] == out[8..12][j - 8];
      } else if j < 14 {
        assert out[j] == out[12..14][j - 12];
      } else if j < 16 {
        assert out[j] == out[14..16][j - 14];
      } else if j < 18 {
        assert out[j] == out[16..18][j - 16];
      }
    }
  }

  // ---------------------------------------------------------------------------
  // Byte order flips only the reading of each field's own bytes

  /** Where byte `j` comes from once every multi-byte EEG field has its bytes reversed in place. */
  function EegSwapIndex(j: nat): (k: nat)
    ensures j < FRAME_BYTES ==> k < FRAME_BYTES
  {
    if j < 4 then 3 - j
    else if j < FRAME_BYTES then (if j % 2 == 0 then j + 1 else j - 1)
    else j
  }

  /** Where byte `j` comes from once every multi-byte PAT field has its bytes reversed in place;
      the reserved bytes and the single-byte temperatures stay put. */
  function PatSwapIndex(j: nat): (k: nat)
    ensures j < FRAME_BYTES ==> k < FRAME_BYTES
  {
    if j < 4 then 3 - j
    else if j < 8 then 11 - j
    else if j < 12 then j
    else if j < 18 then (if j % 2 == 0 then j + 1 else j - 1)
    else j
  }

  function Permuted(bytes: seq<uint8>, index: nat -> nat): (r: seq<uint8>)
    requires forall j :: 0 <= j < |bytes| ==> index(j) < |bytes|
    ensures |r| == |bytes|
  {
    seq(|bytes|, j requires 0 <= j < |bytes| => bytes[index(j)])
  }

  /** Little-endian EEG decoding is big-endian decoding of the same bytes with each
      multi-byte field's own bytes reversed: no field moves. */
  lemma EegLittleEndianIsFieldwiseReversal(bytes: seq<uint8>)
    requires |bytes| == FRAME_BYTES
    ensures EegFromBytes(bytes, LittleEndian) == EegFromBytes(Permuted(bytes, EegSwapIndex), BigEndian)
  {
    var swapped := Permuted(bytes, EegSwapIndex);
    var le := EegFromBytes(bytes, LittleEndian).value;
    var be := EegFromBytes(swapped, BigEndian).value;
    forall i | 0 <= i < 8
      ensures le.signal[i] == be.signal[i]
    {
      assert swapped[4 + 2 * i] == bytes[4 + 2 * i + 1];
      assert swapped[4 + 2 * i + 1] == bytes[4 + 2 * i];
    }
    assert le.signal == be.signal;
  }

  /** The same for PAT frames: the reserved bytes and temperatures read the same in both orders. */
  lemma PatLittleEndianIsFieldwiseReversal(bytes: seq<uint8>)
    requires |bytes| == FRAME_BYTES
    ensures PatFromBytes(bytes, LittleEndian) == PatFromBytes(Permuted(bytes, PatSwapIndex), BigEndian)
  {
    var swapped := Permuted(bytes, PatSwapIndex);
    assert swapped[8..12] == bytes[8..12];
  }
}
