/**
 * Touch-frame decoder: turns the 16-byte snapshot of registers 0x00..0x0F
 * into a clamped touch count, the raw gesture code and one decoded record
 * per touch slot.
 *
 * Register values are unsigned integers, and each shift and mask of the
 * driver is written as the arithmetic it performs on such a value:
 * `b >> k` is `b / 2^k`, `b & (2^k - 1)` is `b % 2^k`, and
 * `(v << 8) | low` is `v * 256 + low` because `low` is below 256.
 */
module Decoder {
  import opened Registers

  /** Bits 7..6 of a slot's X-high register: the touch event code. */
  function EventBits(xh: Byte): (e: Byte)
    ensures e <= 3
    ensures e * 64 <= xh < e * 64 + 64
  {
    xh / 64
  }

  /** Bits 7..4 of a register (the touch ID in Y-high, the area in Misc). */
  function UpperNibble(b: Byte): (n: Byte)
    ensures n <= 15
    ensures n * 16 <= b < n * 16 + 16
  {
    b / 16
  }

  /**
   * A 12-bit coordinate: bits 11..8 are the low nibble of the high register,
   * bits 7..0 are the low register. Both parts can be read back from it.
   */
  function Coordinate(high: Byte, low: Byte): (c: Word)
    ensures c < 4096
    ensures c / 256 == high % 16 && c % 256 == low
  {
    (high % 16) * 256 + low
  }

  /**
   * The touch count as the driver keeps it: 1 and 2 pass through, every
   * other register value (0 and the invalid 3..255) becomes 0.
   */
  function ClampTouchCount(n: Byte): (c: Byte)
    ensures c <= 2
    ensures c == n <==> n <= 2
    ensures c != n ==> c == 0
  {
    if n > 2 || n == 0 then 0 else n
  }

  /** One slot's decoded record, in the ranges of the driver's per-slot arrays. */
  datatype Slot = Slot(event: Byte, x: Word, y: Word, id: Word, weight: Byte, area: Byte)

  /** The ranges the decoder can produce: 2-bit event, 12-bit X and Y, 4-bit ID and area. */
  predicate WellFormed(s: Slot)
  {
    s.event <= 3 && s.x < 4096 && s.y < 4096 && s.id <= 15 && s.area <= 15
  }

  /** The register of field `f` of slot `slot` within a snapshot. */
  function Reg(frame: seq<Byte>, f: SlotField, slot: nat): Byte
    requires |frame| == FrameLength && slot < MaxTouchPoints
  {
    frame[SlotRegister(f, slot)]
  }

  /**
   * Decodes slot `slot` of a snapshot: the event, X, ID and Y from the
   * X-high/X-low/Y-high/Y-low registers, the weight as it is and the area
   * from the Misc register. The result is always well formed.
   */
  function DecodeSlot(frame: seq<Byte>, slot: nat): (s: Slot)
    requires |frame| == FrameLength && slot < MaxTouchPoints
    ensures WellFormed(s)
  {
    var xh := Reg(frame, XHigh, slot);
    var yh := Reg(frame, YHigh, slot);
    Slot(EventBits(xh),
         Coordinate(xh, Reg(frame, XLow, slot)),
         Coordinate(yh, Reg(frame, YLow, slot)),
         UpperNibble(yh),
         Reg(frame, Weight, slot),
         UpperNibble(Reg(frame, Misc, slot)))
  }

  /**
   * The six register values a controller reports for a well-formed record,
   * with every bit the decoder ignores set to zero.
   */
  function EncodeSlot(s: Slot): (rec: seq<Byte>)
    requires WellFormed(s)
    ensures |rec| == SlotStride
  {
    [ s.event * 64 + s.x / 256,
      s.x % 256,
      s.id * 16 + s.y / 256,
      s.y % 256,
      s.weight,
      s.area * 16 ]
  }

  /** The six registers of slot `slot`, read at the slot's stride from the snapshot. */
  function SlotRecord(frame: seq<Byte>, slot: nat): (rec: seq<Byte>)
    requires |frame| == FrameLength && slot < MaxTouchPoints
    ensures |rec| == SlotStride
  {
    frame[SlotRegister(XHigh, slot)..SlotRegister(XHigh, slot) + SlotStride]
  }

  /**
   * A slot record with the bits the decoder ignores cleared: bits 5..4 of
   * X-high and bits 3..0 of Misc.
   */
  function SignificantBits(rec: seq<Byte>): (m: seq<Byte>)
    requires |rec| == SlotStride
    ensures |m| == SlotStride
  {
    [rec[0] / 64 * 64 + rec[0] % 16, rec[1], rec[2], rec[3], rec[4], rec[5] / 16 * 16]
  }

  /** The whole decoded snapshot. */
  datatype Frame = Frame(touches: Byte, gesture: Byte, slots: seq<Slot>)

  /** Decodes a full 16-byte snapshot: count, gesture and both slots. */
  function DecodeFrame(frame: seq<Byte>): (f: Frame)
    requires |frame| == FrameLength
    ensures f.touches <= 2 && |f.slots| == MaxTouchPoints
    ensures f.gesture == frame[RegGestId]
    ensures forall i :: 0 <= i < MaxTouchPoints ==> WellFormed(f.slots[i])
  {
    Frame(ClampTouchCount(frame[RegTdStatus]), frame[RegGestId],
          [DecodeSlot(frame, 0), DecodeSlot(frame, 1)])
  }

  /**
   * The decoded fields of slot `slot` are the driver's register formulas at
   * stride SlotStride from the first slot's registers: event = XH >> 6,
   * x = ((XH & 0x0F) << 8) | XL, y = ((YH & 0x0F) << 8) | YL, id = YH >> 4,
   * weight = WEIGHT and area = MISC >> 4.
   */
  lemma DecodeSlotRegisters(frame: seq<Byte>, slot: nat)
    requires |frame| == FrameLength && slot < MaxTouchPoints
    ensures var s := DecodeSlot(frame, slot);
            && s.event == frame[RegP1XH + slot * SlotStride] / 64
            && s.x == (frame[RegP1XH + slot * SlotStride] as int % 16) * 256 + frame[RegP1XL + slot * SlotStride]
            && s.y == (frame[RegP1YH + slot * SlotStride] as int % 16) * 256 + frame[RegP1YL + slot * SlotStride]
            && s.id == frame[RegP1YH + slot * SlotStride] / 16
            && s.weight == frame[RegP1Weight + slot * SlotStride]
            && s.area == frame[RegP1Misc + slot * SlotStride] / 16
  {
  }

  /** Decoding what a controller encodes for a well-formed record gives the record back. */
  lemma DecodeEncodeSlot(frame: seq<Byte>, slot: nat, s: Slot)
    requires |frame| == FrameLength && slot < MaxTouchPoints && WellFormed(s)
    requires SignificantBits(SlotRecord(frame, slot)) == EncodeSlot(s)
    ensures DecodeSlot(frame, slot) == s
  {
    var rec := SlotRecord(frame, slot);
    var enc := EncodeSlot(s);
    assert rec[0] / 64 * 64 + rec[0] % 16 == enc[0];
    assert rec[1] == enc[1] && rec[2] == enc[2] && rec[3] == enc[3] && rec[4] == enc[4];
    assert rec[5] / 16 * 16 == enc[5];
  }

  /**
   * Re-encoding a decoded slot gives back the slot's registers with the
   * ignored bits cleared: the decoder reads every significant bit.
   */
  lemma EncodeDecodeSlot(frame: seq<Byte>, slot: nat)
    requires |frame| == FrameLength && slot < MaxTouchPoints
    ensures EncodeSlot(DecodeSlot(frame, slot)) == SignificantBits(SlotRecord(frame, slot))
  {
  }

  /**
   * A slot's decoded record depends on the significant bits of its own six
   * registers and on nothing else in the snapshot.
   */
  lemma SlotReadsOnlyItsRecord(a: seq<Byte>, b: seq<Byte>, slot: nat)
    requires |a| == FrameLength && |b| == FrameLength && slot < MaxTouchPoints
    requires SignificantBits(SlotRecord(a, slot)) == SignificantBits(SlotRecord(b, slot))
    ensures DecodeSlot(a, slot) == DecodeSlot(b, slot)
  {
    EncodeDecodeSlot(a, slot);
    DecodeEncodeSlot(b, slot, DecodeSlot(a, slot));
  }

  /** The frames a decode can produce: a count of at most 2 and two well-formed slots. */
  predicate Decodable(f: Frame)
  {
    f.touches <= 2 && |f.slots| == MaxTouchPoints && WellFormed(f.slots[0]) && WellFormed(f.slots[1])
  }

  /**
   * A snapshot a controller could report for a decodable frame: device mode
   * 0, the gesture code, the count, both slot records and a zero in 0x0F.
   */
  function EncodeFrame(f: Frame): (frame: seq<Byte>)
    requires Decodable(f)
    ensures |frame| == FrameLength
  {
    [0, f.gesture, f.touches] + EncodeSlot(f.slots[0]) + EncodeSlot(f.slots[1]) + [0]
  }

  /** Decoding the snapshot encoded for a decodable frame gives the frame back. */
  lemma DecodeEncodeFrame(f: Frame)
    requires Decodable(f)
    ensures DecodeFrame(EncodeFrame(f)) == f
  {
    var frame := EncodeFrame(f);
    assert SlotRecord(frame, 0) == EncodeSlot(f.slots[0]);
    assert SlotRecord(frame, 1) == EncodeSlot(f.slots[1]);
    DecodeEncodeSlot(frame, 0, f.slots[0]);
    DecodeEncodeSlot(frame, 1, f.slots[1]);
  }

  /**
   * The decoder's range is exactly the decodable frames: some snapshot
   * decodes to `f` if and only if its count is at most 2 and both of its
   * slots are well formed.
   */
  lemma DecodeFrameRange(f: Frame)
    ensures (exists frame :: |frame| == FrameLength && DecodeFrame(frame) == f) <==> Decodable(f)
  {
    if Decodable(f) {
      DecodeEncodeFrame(f);
      assert |EncodeFrame(f)| == FrameLength && DecodeFrame(EncodeFrame(f)) == f;
    }
  }
}
