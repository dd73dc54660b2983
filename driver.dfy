/**
 * The driver session: one object that owns the panel's orientation and
 * dimensions and the per-slot buffers that every frame decode overwrites in
 * place. Bus reads are replaced by their results: ReadData takes the 16-byte
 * snapshot of registers 0x00..0x0F, single-register queries take the byte
 * read, and SetInterruptMode returns the byte it would write.
 */
module Driver {
  import opened Registers
  import opened Decoder
  import opened Rotation
  import opened Queries

  /** One finger's state as the caller sees it. */
  datatype TouchPoint = TouchPoint(state: Byte, x: Word, y: Word, z: Word, id: Word)

  /** The point returned for an out-of-range index: everything zero. */
  const NoPoint := TouchPoint(0, 0, 0, 0, 0)

  /** The point a slot record gives before rotation. */
  function RawPoint(s: Slot): TouchPoint
  {
    TouchPoint(s.event, s.x, s.y, s.weight, s.id)
  }

  /**
   * A point with its coordinates rotated for the current orientation; the
   * raw coordinates can be recovered from the result, and the event,
   * weight and ID are carried over.
   */
  function RotatePoint(p: TouchPoint, rotation: Byte, width: Word, height: Word): (q: TouchPoint)
    ensures q.state == p.state && q.z == p.z && q.id == p.id
    ensures Unrotate(rotation, width, height, q.x, q.y) == (p.x, p.y)
  {
    RotateRoundTrip(rotation, width, height, p.x, p.y);
    var (sx, sy) := Rotate(rotation, width, height, p.x, p.y);
    p.(x := sx, y := sy)
  }

  /** The point a slot record gives on the screen for a rotation and current dimensions. */
  function ScreenPoint(s: Slot, rotation: Byte, width: Word, height: Word): TouchPoint
  {
    RotatePoint(RawPoint(s), rotation, width, height)
  }

  class FT6206 {
    var touches: Byte
    var gestureID: Byte
    var defWidth: Word
    var defHeight: Word
    var width: Word
    var height: Word
    var rotation: Byte

    // Per-slot buffers; the arrays themselves are embedded in the object.
    const touchEvent: array<Byte>
    const touchX: array<Word>
    const touchY: array<Word>
    const touchID: array<Word>
    const touchArea: array<Byte>
    const touchWeight: array<Byte>
    const touchPoints: array<TouchPoint>

    /**
     * Object invariant: every per-slot array has one entry per slot, and the
     * arrays of the same element type are distinct. The scalar fields are
     * public in the driver, so nothing is assumed about their values here.
     */
    ghost predicate Valid()
    {
      && touchEvent.Length == MaxTouchPoints
      && touchX.Length == MaxTouchPoints
      && touchY.Length == MaxTouchPoints
      && touchID.Length == MaxTouchPoints
      && touchArea.Length == MaxTouchPoints
      && touchWeight.Length == MaxTouchPoints
      && touchPoints.Length == MaxTouchPoints
      && touchX != touchY && touchX != touchID && touchY != touchID
      && touchArea != touchWeight && touchEvent != touchArea && touchEvent != touchWeight
    }

    /**
     * The orientation the driver's own methods keep: the rotation is a
     * quarter-turn count and the current dimensions are the ones it implies.
     */
    ghost predicate Oriented()
      reads this
    {
      rotation < 4 && (width, height) == Dimensions(rotation, defWidth, defHeight)
    }

    /** The record slot `i` of the per-slot arrays currently holds. */
    ghost function StoredSlot(i: nat): Slot
      reads this, touchEvent, touchX, touchY, touchID, touchArea, touchWeight
      requires Valid() && i < MaxTouchPoints
    {
      Slot(touchEvent[i], touchX[i], touchY[i], touchID[i], touchWeight[i], touchArea[i])
    }

    /** The decoded frame the session currently holds: count, gesture and both slot records. */
    ghost function StoredFrame(): Frame
      reads this, touchEvent, touchX, touchY, touchID, touchArea, touchWeight
      requires Valid()
    {
      Frame(touches, gestureID, [StoredSlot(0), StoredSlot(1)])
    }

    /**
     * A session for a panel of the given native size: unrotated, no
     * touches, and each point slot reset to a zero point carrying its own
     * index as ID.
     */
    constructor (nativeWidth: Word, nativeHeight: Word)
      ensures Valid() && Oriented()
      ensures defWidth == nativeWidth && defHeight == nativeHeight
      ensures width == nativeWidth && height == nativeHeight
      ensures rotation == 0 && touches == 0
      ensures touchPoints[..] == [TouchPoint(0, 0, 0, 0, 0), TouchPoint(0, 0, 0, 0, 1)]
      ensures fresh(touchPoints) && fresh(touchEvent) && fresh(touchX) && fresh(touchY)
      ensures fresh(touchID) && fresh(touchArea) && fresh(touchWeight)
    {
      defWidth := nativeWidth;
      defHeight := nativeHeight;
      width := nativeWidth;
      height := nativeHeight;
      touchEvent := new Byte[MaxTouchPoints](_ => 0);
      touchX := new Word[MaxTouchPoints](_ => 0);
      touchY := new Word[MaxTouchPoints](_ => 0);
      touchID := new Word[MaxTouchPoints](_ => 0);
      touchArea := new Byte[MaxTouchPoints](_ => 0);
      touchWeight := new Byte[MaxTouchPoints](_ => 0);
      var points := new TouchPoint[MaxTouchPoints](_ => NoPoint);
      var i := 0;
      while i < MaxTouchPoints
        invariant 0 <= i <= MaxTouchPoints
        invariant forall k :: 0 <= k < i ==> points[k] == TouchPoint(0, 0, 0, 0, k)
      {
        points[i] := TouchPoint(0, 0, 0, 0, i);
        i := i + 1;
      }
      touchPoints := points;
      touches := 0;
      rotation := 0;
    }

    /**
     * Stores the requested rotation modulo 4 and returns it; the current
     * dimensions become the native ones for 0/180 degrees and the swapped
     * native ones for 90/270 degrees. The native dimensions never change.
     */
    method SetRotation(r: Byte) returns (current: Byte)
      modifies this`rotation, this`width, this`height
      ensures Oriented()
      ensures current == rotation == NormalizeRotation(r)
      ensures SwapsAxes(rotation) ==> width == defHeight && height == defWidth
      ensures !SwapsAxes(rotation) ==> width == defWidth && height == defHeight
    {
      rotation := r % 4;
      if rotation == 0 || rotation == 2 {
        width := defWidth;
        height := defHeight;
      } else if rotation == 1 || rotation == 3 {
        width := defHeight;
        height := defWidth;
      }
      current := rotation;
    }

    /** The stored rotation: a quarter-turn count whenever the orientation is the one the methods keep. */
    function GetRotation(): (r: Byte)
      reads this
      ensures Oriented() ==> r < 4
    {
      rotation
    }

    /** The current width: the native height when the axes are swapped, the native width otherwise. */
    function GetWidth(): (w: Word)
      reads this
      ensures Oriented() ==> w == if SwapsAxes(rotation) then defHeight else defWidth
    {
      width
    }

    /** The current height: the native width when the axes are swapped, the native height otherwise. */
    function GetHeight(): (h: Word)
      reads this
      ensures Oriented() ==> h == if SwapsAxes(rotation) then defWidth else defHeight
    {
      height
    }

    /** Touch count from the byte read from the status register: 1 and 2 are kept, the rest read as 0. */
    method GetTouches(tdStatus: Byte) returns (n: Byte)
      ensures n <= 2
      ensures n == tdStatus <==> tdStatus <= 2
      ensures n != tdStatus ==> n == 0
      ensures n == ClampTouchCount(tdStatus)
    {
      n := tdStatus;
      if n > 2 {
        n := 0;
      }
    }

    /** Whole-panel presence from the status register byte: touched exactly when it reports 1 or 2 touches. */
    method IsTouched(tdStatus: Byte) returns (touched: bool)
      ensures touched <==> tdStatus == 1 || tdStatus == 2
    {
      var n := GetTouches(tdStatus);
      touched := n > 0;
    }

    /** The interrupt mode written to the mode register, and success; modes above 1 become 1. */
    method SetInterruptMode(mode: Byte) returns (written: Byte, ok: bool)
      ensures written == ClampInterruptMode(mode)
      ensures ok
    {
      written := mode;
      if written > 1 {
        written := 1;
      }
      ok := true;
    }

    /** Name of the gesture code read from the gesture register. */
    method GetGestureName(gestureCode: Byte) returns (name: string)
      ensures name == GestureName(gestureCode)
    {
      if gestureCode == GestureMoveUp {
        name := "Move Up";
      } else if gestureCode == GestureMoveRight {
        name := "Move Right";
      } else if gestureCode == GestureMoveDown {
        name := "Move Down";
      } else if gestureCode == GestureMoveLeft {
        name := "Move Left";
      } else if gestureCode == GestureZoomIn {
        name := "Zoom In";
      } else if gestureCode == GestureZoomOut {
        name := "Zoom Out";
      } else {
        name := "None";
      }
    }

    /**
     * One pass of the decode loop: extracts slot `i` of a snapshot into the
     * per-slot arrays at index `i`, leaving the other index as it was.
     */
    method StoreSlot(frame: seq<Byte>, i: nat)
      requires Valid() && |frame| == FrameLength && i < MaxTouchPoints
      modifies touchEvent, touchX, touchY, touchID, touchArea, touchWeight
      ensures StoredSlot(i) == DecodeSlot(frame, i)
      ensures forall k :: 0 <= k < MaxTouchPoints && k != i ==>
        && touchEvent[k] == old(touchEvent[k]) && touchX[k] == old(touchX[k])
        && touchY[k] == old(touchY[k]) && touchID[k] == old(touchID[k])
        && touchWeight[k] == old(touchWeight[k]) && touchArea[k] == old(touchArea[k])
    {
      touchEvent[i] := frame[RegP1XH + i * SlotStride] / 64;

      touchX[i] := frame[RegP1XH + i * SlotStride] % 16;
      touchX[i] := touchX[i] * 256;
      touchX[i] := touchX[i] + frame[RegP1XL + i * SlotStride];

      touchY[i] := frame[RegP1YH + i * SlotStride] % 16;
      touchY[i] := touchY[i] * 256;
      touchY[i] := touchY[i] + frame[RegP1YL + i * SlotStride];

      touchID[i] := frame[RegP1YH + i * SlotStride] / 16;

      touchWeight[i] := frame[RegP1Weight + i * SlotStride];
      touchArea[i] := frame[RegP1Misc + i * SlotStride] / 16;
      DecodeSlotRegisters(frame, i);
    }

    /**
     * Rewrites the coordinates of every point slot for the current rotation
     * and (already swapped) dimensions, in place.
     */
    method ApplyRotation()
      requires Valid()
      modifies touchPoints
      ensures forall k :: 0 <= k < MaxTouchPoints ==>
        touchPoints[k] == RotatePoint(old(touchPoints[k]), rotation, width, height)
    {
      var i := 0;
      while i < MaxTouchPoints
        modifies touchPoints
        invariant 0 <= i <= MaxTouchPoints
        invariant forall k :: 0 <= k < i ==>
          touchPoints[k] == RotatePoint(old(touchPoints[k]), rotation, width, height)
        invariant forall k :: i <= k < MaxTouchPoints ==> touchPoints[k] == old(touchPoints[k])
      {
        var point := touchPoints[i];
        if rotation == 0 {
          touchPoints[i] := touchPoints[i].(x := point.x, y := point.y);
        } else if rotation == 1 {
          touchPoints[i] := touchPoints[i].(x := point.y, y := Sub16(height, point.x));
        } else if rotation == 2 {
          touchPoints[i] := touchPoints[i].(x := Sub16(width, point.x), y := Sub16(height, point.y));
        } else if rotation == 3 {
          touchPoints[i] := touchPoints[i].(x := Sub16(width, point.y), y := point.x);
        }
        i := i + 1;
      }
    }

    /**
     * Decodes a snapshot of registers 0x00..0x0F into the session: the
     * clamped count, the raw gesture code, each slot's fields into the
     * per-slot arrays, and each slot's point, rotated for the current
     * orientation, into touchPoints. Both slots are decoded and rotated
     * whatever the count says; orientation and dimensions are untouched,
     * and a rotation outside 0..3 leaves the points unrotated.
     */
    method ReadData(frame: seq<Byte>)
      requires Valid() && |frame| == FrameLength
      modifies this`touches, this`gestureID
      modifies touchEvent, touchX, touchY, touchID, touchArea, touchWeight, touchPoints
      ensures Valid()
      ensures touches == ClampTouchCount(frame[RegTdStatus])
      ensures gestureID == frame[RegGestId]
      ensures StoredFrame() == DecodeFrame(frame)
      ensures forall i :: 0 <= i < MaxTouchPoints ==>
        touchPoints[i] == ScreenPoint(DecodeSlot(frame, i), rotation, width, height)
    {
      touches := frame[RegTdStatus];
      if touches > 2 || touches == 0 {
        touches := 0;
      }
      gestureID := frame[RegGestId];

      var i := 0;
      while i < MaxTouchPoints
        modifies touchEvent, touchX, touchY, touchID, touchArea, touchWeight
        invariant 0 <= i <= MaxTouchPoints && Valid()
        invariant forall k :: 0 <= k < i ==> StoredSlot(k) == DecodeSlot(frame, k)
      {
        StoreSlot(frame, i);
        i := i + 1;
      }

      touchPoints[0] := touchPoints[0].(state := touchEvent[0], x := touchX[0], y := touchY[0],
                                        z := touchWeight[0], id := touchID[0]);
      touchPoints[1] := touchPoints[1].(state := touchEvent[1], x := touchX[1], y := touchY[1],
                                        z := touchWeight[1], id := touchID[1]);

      ApplyRotation();
    }

    /**
     * Decodes a snapshot, then reports whether slot `id` holds event code 1;
     * an index beyond the slots reports false.
     */
    method IsSlotTouched(id: Byte, frame: seq<Byte>) returns (touched: bool)
      requires Valid() && |frame| == FrameLength
      modifies this`touches, this`gestureID
      modifies touchEvent, touchX, touchY, touchID, touchArea, touchWeight, touchPoints
      ensures Valid()
      ensures touches == ClampTouchCount(frame[RegTdStatus]) && gestureID == frame[RegGestId]
      ensures StoredFrame() == DecodeFrame(frame)
      ensures forall i :: 0 <= i < MaxTouchPoints ==>
        touchPoints[i] == ScreenPoint(DecodeSlot(frame, i), rotation, width, height)
      ensures touched <==> id < MaxTouchPoints && DecodeSlot(frame, id).event == 1
    {
      ReadData(frame);
      if id >= MaxTouchPoints {
        return false;
      }
      touched := touchPoints[id].state == 1;
    }

    /**
     * Decodes a snapshot, then returns the rotated point of slot `n`, or the
     * zero point when `n` is not a slot index.
     */
    method GetPoint(n: Byte, frame: seq<Byte>) returns (p: TouchPoint)
      requires Valid() && |frame| == FrameLength
      modifies this`touches, this`gestureID
      modifies touchEvent, touchX, touchY, touchID, touchArea, touchWeight, touchPoints
      ensures Valid()
      ensures touches == ClampTouchCount(frame[RegTdStatus]) && gestureID == frame[RegGestId]
      ensures StoredFrame() == DecodeFrame(frame)
      ensures forall i :: 0 <= i < MaxTouchPoints ==>
        touchPoints[i] == ScreenPoint(DecodeSlot(frame, i), rotation, width, height)
      ensures n >= MaxTouchPoints ==> p == NoPoint
      ensures n < MaxTouchPoints ==> p == ScreenPoint(DecodeSlot(frame, n), rotation, width, height)
    {
      ReadData(frame);
      if n >= MaxTouchPoints {
        return TouchPoint(0, 0, 0, 0, 0);
      }
      p := touchPoints[n];
    }
  }
}
