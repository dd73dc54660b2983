/**
 * Register map of the FT6206 capacitive touch controller, as the driver's
 * header defines it: the touch-data block at the bottom of the address space,
 * the configuration registers, the gesture codes and the interrupt modes.
 */
module Registers {

  /** An unsigned 8-bit register value. */
  type Byte = b: int | 0 <= b < 0x100

  /** An unsigned 16-bit value (coordinates, dimensions). */
  type Word = w: int | 0 <= w < 0x1_0000

  /** 7-bit bus address of the controller. */
  const I2CAddress: nat := 0x38

  // Touch-data block (read in one 16-byte transfer starting at DevMode).
  const RegDevMode: nat := 0x00
  const RegGestId: nat := 0x01
  const RegTdStatus: nat := 0x02

  const RegP1XH: nat := 0x03
  const RegP1XL: nat := 0x04
  const RegP1YH: nat := 0x05
  const RegP1YL: nat := 0x06
  const RegP1Weight: nat := 0x07
  const RegP1Misc: nat := 0x08

  const RegP2XH: nat := 0x09
  const RegP2XL: nat := 0x0A
  const RegP2YH: nat := 0x0B
  const RegP2YL: nat := 0x0C
  const RegP2Weight: nat := 0x0D
  const RegP2Misc: nat := 0x0E

  // Configuration registers.
  const RegThGroup: nat := 0x80
  const RegPeriodActive: nat := 0x88
  const RegPeriodMonitor: nat := 0x89
  const RegGMode: nat := 0xA4

  // Gesture codes reported in RegGestId.
  const GestureNone: Byte := 0x00
  const GestureMoveUp: Byte := 0x10
  const GestureMoveRight: Byte := 0x14
  const GestureMoveDown: Byte := 0x18
  const GestureMoveLeft: Byte := 0x1C
  const GestureZoomIn: Byte := 0x48
  const GestureZoomOut: Byte := 0x49

  /** The six codes that name a gesture; every other byte means "no gesture". */
  const GestureCodes: set<Byte> :=
    {GestureMoveUp, GestureMoveRight, GestureMoveDown, GestureMoveLeft, GestureZoomIn, GestureZoomOut}

  // Interrupt output modes written to RegGMode.
  const InterruptPolling: Byte := 0x00
  const InterruptTrigger: Byte := 0x01

  /** Detection threshold written to RegThGroup by default. */
  const DefaultThreshold: Byte := 128

  /** Number of touch slots the controller tracks (length of every per-slot array). */
  const MaxTouchPoints: nat := 2

  /** Length of the touch-data snapshot read from RegDevMode. */
  const FrameLength: nat := 16

  /** Distance between the first registers of two consecutive slot records. */
  const SlotStride: nat := 6

  /** The six registers of one slot record, in address order. */
  datatype SlotField = XHigh | XLow | YHigh | YLow | Weight | Misc

  /** Address of a field in the first slot's record. */
  function FirstSlotRegister(f: SlotField): nat
  {
    match f
    case XHigh => RegP1XH
    case XLow => RegP1XL
    case YHigh => RegP1YH
    case YLow => RegP1YL
    case Weight => RegP1Weight
    case Misc => RegP1Misc
  }

  /** Address of a field in the second slot's record. */
  function SecondSlotRegister(f: SlotField): nat
  {
    match f
    case XHigh => RegP2XH
    case XLow => RegP2XL
    case YHigh => RegP2YH
    case YLow => RegP2YL
    case Weight => RegP2Weight
    case Misc => RegP2Misc
  }

  /**
   * Address of field `f` of slot `slot`, computed as the decoder does it:
   * the first slot's register plus `slot` strides. It is the header's own
   * register for either slot, and lies inside the 16-byte snapshot.
   */
  function SlotRegister(f: SlotField, slot: nat): (r: nat)
    requires slot < MaxTouchPoints
    ensures RegP1XH <= r < FrameLength
    ensures slot == 0 ==> r == FirstSlotRegister(f)
    ensures slot == 1 ==> r == SecondSlotRegister(f)
  {
    FirstSlotRegister(f) + slot * SlotStride
  }

  /** Each second-slot register is the matching first-slot register plus one stride. */
  lemma SecondSlotIsOneStrideAway(f: SlotField)
    ensures SecondSlotRegister(f) == FirstSlotRegister(f) + SlotStride
  {
  }

  /**
   * No two (field, slot) pairs share a register, and every slot register lies
   * above the count register and inside the snapshot, so a 16-byte read from
   * RegDevMode holds every slot register at the index equal to its address.
   */
  lemma SlotRegistersDistinct(f: SlotField, s: nat, g: SlotField, t: nat)
    requires s < MaxTouchPoints && t < MaxTouchPoints
    ensures SlotRegister(f, s) == SlotRegister(g, t) <==> f == g && s == t
    ensures RegTdStatus < SlotRegister(f, s) < FrameLength
  {
  }

  /** The six gesture codes are pairwise distinct and none is GestureNone. */
  lemma GestureCodesDistinct()
    ensures |GestureCodes| == 6
    ensures GestureNone !in GestureCodes
  {
  }
}
