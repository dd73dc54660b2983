/**
 * The session's small pure queries: the interrupt-mode clamp applied before
 * the mode register is written, and the gesture-code name table.
 */
module Queries {
  import opened Registers

  /**
   * The interrupt mode actually written: polling (0) and trigger (1) pass
   * through, every larger request is forced to trigger mode.
   */
  function ClampInterruptMode(mode: Byte): (m: Byte)
    ensures m == InterruptPolling || m == InterruptTrigger
    ensures m == mode <==> mode <= 1
    ensures m != mode ==> m == InterruptTrigger
  {
    if mode > 1 then 1 else mode
  }

  /** Name of a gesture code; every code outside the table is "None". */
  function GestureName(id: Byte): (name: string)
    ensures name == "None" <==> id !in GestureCodes
  {
    if id == GestureMoveUp then "Move Up"
    else if id == GestureMoveRight then "Move Right"
    else if id == GestureMoveDown then "Move Down"
    else if id == GestureMoveLeft then "Move Left"
    else if id == GestureZoomIn then "Zoom In"
    else if id == GestureZoomOut then "Zoom Out"
    else "None"
  }

  /** The gesture code a name stands for; "None" and unknown names give GestureNone. */
  function GestureCode(name: string): Byte
  {
    if name == "Move Up" then GestureMoveUp
    else if name == "Move Right" then GestureMoveRight
    else if name == "Move Down" then GestureMoveDown
    else if name == "Move Left" then GestureMoveLeft
    else if name == "Zoom In" then GestureZoomIn
    else if name == "Zoom Out" then GestureZoomOut
    else GestureNone
  }

  /**
   * The name table is unambiguous: the name of a gesture code leads back to
   * that code, and every code outside the table reads back as GestureNone.
   */
  lemma GestureNameRoundTrip(id: Byte)
    ensures GestureCode(GestureName(id)) == if id in GestureCodes then id else GestureNone
  {
  }

  /** Different gesture codes of the table have different names. */
  lemma GestureNamesDistinct(a: Byte, b: Byte)
    requires a in GestureCodes && b in GestureCodes
    ensures GestureName(a) == GestureName(b) ==> a == b
  {
    GestureNameRoundTrip(a);
    GestureNameRoundTrip(b);
  }
}
