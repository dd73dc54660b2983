# FT6206 touch-frame decoder and coordinate transform

A Dafny model of the core of the CSE_FT6206 Arduino driver for the FocalTech
FT6206 capacitive touch controller: the decoder that turns the 16-byte block of
registers 0x00..0x0F into a touch count, a gesture code and two touch-slot
records; the rotation transform that rewrites each slot's coordinates for one
of four panel orientations; and the session state around them (orientation,
current and native dimensions, the per-slot buffers, the touch-count and
interrupt-mode clamps, the gesture-name table).

Files:

- `registers.dfy` (module `Registers`): the register map, gesture codes,
  interrupt modes, default threshold and slot geometry of the header; the
  6-register stride between slot records.
- `decoder.dfy` (module `Decoder`): the per-slot bit extraction, the slot
  record, the touch-count clamp and the full-frame decode, with an encoder of
  slot records and of whole snapshots as the decoder's inverse.
- `rotation.dfy` (module `Rotation`): rotation normalisation, the dimension
  swap and the coordinate transform with its inverse.
- `queries.dfy` (module `Queries`): the interrupt-mode clamp and the gesture
  name table with its inverse.
- `driver.dfy` (module `Driver`): the session object `FT6206`, a class whose
  fields are the driver's fields and whose per-slot buffers are arrays of
  length 2 updated in place.

Modelling choices:

- Register values are integers in 0..255 (`Byte`) and coordinates and
  dimensions integers in 0..65535 (`Word`). Each shift and mask is written as
  the arithmetic it performs: `b >> k` as `b / 2^k`, `b & 0x0F` as `b % 16`,
  `(v << 8) | low` as `v * 256 + low` (exact because `low < 256`).
- The 16-bit subtractions of the rotation transform wrap modulo 2^16
  (`Rotation.Sub16`).
- The bus is replaced by values. `ReadData` takes the 16-byte snapshot of
  registers 0x00..0x0F, so index equals register address. The single-register
  queries take the byte read. `SetInterruptMode` returns the byte it writes to
  the mode register (0xA4).
- `readData` is one function in the source. Here its decode loop body is
  `FT6206.StoreSlot` and its rotation loop is `FT6206.ApplyRotation`; both
  keep the source's statements and are called from `ReadData`.
- The touch-point type used by the .cpp file (`CSE_TouchPoint`) is declared
  outside the two source files. It is modelled as the datatype
  `TouchPoint(state, x, y, z, id)` with unsigned 16-bit x, y, z and id.
- `getPoint` decodes a frame before it checks the index
  (src/CSE_FT6206.cpp:248-252), so an out-of-range index still refreshes the
  session.
- The rotation is applied to both slots after every decode, whatever the
  touch count (src/CSE_FT6206.cpp:459).
- The driver has no single-slot decode, so none is modelled.
- The driver's fields are public (src/CSE_FT6206.h:103-117). `FT6206.Valid`
  therefore covers only the shape of the per-slot arrays, which every method
  needs. The orientation its own methods keep (rotation in 0..3, current
  dimensions matching it) is the separate predicate `FT6206.Oriented`:
  `SetRotation` establishes it, the getters state their results under it,
  and `ReadData` needs it nowhere. With a rotation of 4 or more, `ReadData`
  leaves the points unrotated, as the `switch` at src/CSE_FT6206.cpp:462
  does, and it uses the stored width and height as they are.

## Model

| member | source | states |
|---|---|---|
| `Registers.SlotRegister` | src/CSE_FT6206.h:25-37 | first-slot register plus `slot * 6` is the header's own register for slot 1 and slot 2, and lies in 0x03..0x0F |
| `Registers.SecondSlotIsOneStrideAway` | src/CSE_FT6206.h:25-37 | every slot-2 register is the matching slot-1 register plus 6 |
| `Registers.SlotRegistersDistinct` | src/CSE_FT6206.h:21-37 | (field, slot) pairs map to distinct registers, all above the count register and below 16, so a 16-byte read from 0x00 covers them |
| `Registers.GestureCodesDistinct` | src/CSE_FT6206.h:66-72 | the six gesture codes are pairwise distinct and none is the "no gesture" code 0x00 |
| `Decoder.EventBits` | src/CSE_FT6206.cpp:428 | the event is the top two bits of X-high: at most 3, and `e * 64 <= xh < e * 64 + 64` |
| `Decoder.UpperNibble` | src/CSE_FT6206.cpp:438-441 | the ID and area are the top four bits: at most 15, and `n * 16 <= b < n * 16 + 16` |
| `Decoder.Coordinate` | src/CSE_FT6206.cpp:430-436 | a 12-bit coordinate (below 4096) whose bits 11..8 are the high register's low nibble and whose bits 7..0 are the low register |
| `Decoder.ClampTouchCount` | src/CSE_FT6206.cpp:402-408 | the stored count is in {0,1,2}; it equals the register exactly when the register is at most 2, and is 0 otherwise |
| `Decoder.DecodeSlot` | src/CSE_FT6206.cpp:427-442 | every decoded slot is well formed: event at most 3, X and Y below 4096, ID and area at most 15 |
| `Decoder.DecodeFrame` | src/CSE_FT6206.cpp:401-442 | a full decode gives a count at most 2, the gesture byte passed through unchanged and two well-formed slots |
| `Decoder.DecodeSlotRegisters` | src/CSE_FT6206.cpp:427-442 | slot i's fields are the driver's formulas on registers `0x03 + 6i .. 0x08 + 6i` of the snapshot |
| `Decoder.DecodeEncodeSlot` | src/CSE_FT6206.cpp:427-442 | a snapshot whose slot registers carry the encoding of a well-formed record decodes to that record |
| `Decoder.EncodeDecodeSlot` | src/CSE_FT6206.cpp:427-442 | re-encoding a decoded slot gives its registers back with only the ignored bits (X-high bits 5..4, Misc bits 3..0) cleared |
| `Decoder.SlotReadsOnlyItsRecord` | src/CSE_FT6206.cpp:427-442 | a slot's decode depends only on the significant bits of its own six registers |
| `Decoder.DecodeEncodeFrame` | src/CSE_FT6206.cpp:401-442 | a snapshot built from a count of at most 2, a gesture byte and two well-formed slot records decodes back to exactly that count, gesture and records |
| `Decoder.DecodeFrameRange` | src/CSE_FT6206.cpp:401-442 | some 16-byte snapshot decodes to a frame if and only if its count is at most 2 and both of its slots are well formed: the decoder's range is exactly the well-formed frames |
| `Rotation.NormalizeRotation` | src/CSE_FT6206.cpp:126 | the stored rotation is in 0..3, congruent to the request modulo 4, and equal to it when it is already below 4 |
| `Rotation.Dimensions` | src/CSE_FT6206.cpp:129-140 | native (width, height) for rotations 0 and 2, exchanged for 1 and 3 |
| `Rotation.Sub16` | src/CSE_FT6206.cpp:469-476 | 16-bit unsigned subtraction: the plain difference when no borrow, the difference plus 2^16 otherwise |
| `Rotation.Rotate` | src/CSE_FT6206.cpp:462-479 | 90 degrees: x is the raw y and y plus the raw x wraps to the height; 180 degrees: x plus raw x wraps to the width and y plus raw y to the height; 270 degrees: x plus raw y wraps to the width and y is the raw x; 0 degrees and any rotation outside 0..3 leave the point unchanged |
| `Rotation.RotateRoundTrip` | src/CSE_FT6206.cpp:459-480 | for every rotation, dimensions and point, the inverse transform undoes the transform and vice versa, wrap-around included |
| `Rotation.RotateStaysOnScreen` | src/CSE_FT6206.cpp:459-480 | a raw point inside the native panel maps inside the current (swapped) screen with no wrap-around |
| `Rotation.HalfTurnTwice` | src/CSE_FT6206.cpp:471-473 | applying the 180-degree transform twice with the same dimensions returns the raw point |
| `Rotation.QuarterThenThreeQuarters` | src/CSE_FT6206.cpp:467-477 | the 90-degree then the 270-degree transform is the identity when the second width is the first height |
| `Queries.ClampInterruptMode` | src/CSE_FT6206.cpp:325-329 | the written mode is polling (0) or trigger (1); it equals the request exactly when the request is at most 1, and is trigger otherwise |
| `Queries.GestureName` | src/CSE_FT6206.cpp:349-368 | the name is "None" exactly for the codes outside the six gesture codes |
| `Queries.GestureNameRoundTrip` | src/CSE_FT6206.cpp:352-366 | reading a gesture code's name back gives the code, and any unknown code reads back as 0x00 |
| `Queries.GestureNamesDistinct` | src/CSE_FT6206.cpp:352-364 | two gesture codes with the same name are the same code |
| `Driver.RotatePoint` | src/CSE_FT6206.cpp:459-480 | a rotated point keeps its event, weight and ID, and its raw coordinates are recovered by the inverse transform |
| `Driver.FT6206.constructor` | src/CSE_FT6206.cpp:22-46 | native and current dimensions are the arguments, rotation and count are 0, and point slot i is the zero point with ID i |
| `Driver.FT6206.SetRotation` | src/CSE_FT6206.cpp:125-143 | stores and returns the request modulo 4 and, from any prior state, establishes the orientation invariant: current dimensions become native or swapped native; native dimensions are kept |
| `Driver.FT6206.GetRotation` | src/CSE_FT6206.cpp:151-153 | the stored rotation is in 0..3 whenever the orientation invariant holds |
| `Driver.FT6206.GetWidth` | src/CSE_FT6206.cpp:161-163 | under the orientation invariant, the current width is the native height when the axes are swapped, the native width otherwise |
| `Driver.FT6206.GetHeight` | src/CSE_FT6206.cpp:171-173 | under the orientation invariant, the current height is the native width when the axes are swapped, the native height otherwise |
| `Driver.FT6206.GetTouches` | src/CSE_FT6206.cpp:195-202 | returns the status byte when it is at most 2 and 0 otherwise, which is the same clamp `readData` applies |
| `Driver.FT6206.IsTouched` | src/CSE_FT6206.cpp:231-233 | the panel is touched exactly when the status register reports 1 or 2 touches |
| `Driver.FT6206.SetInterruptMode` | src/CSE_FT6206.cpp:325-331 | writes the clamped mode and reports success |
| `Driver.FT6206.GetGestureName` | src/CSE_FT6206.cpp:349-368 | returns the table name of the gesture byte read |
| `Driver.FT6206.StoreSlot` | src/CSE_FT6206.cpp:427-442 | one pass of the decode loop stores slot i's decoded fields at index i of the six per-slot arrays and leaves the other index unchanged |
| `Driver.FT6206.ApplyRotation` | src/CSE_FT6206.cpp:459-480 | every point slot's coordinates are replaced by their rotation for the current orientation and dimensions, nothing else changes |
| `Driver.FT6206.ReadData` | src/CSE_FT6206.cpp:375-500 | for any rotation and dimensions: the stored count, gesture and per-slot arrays together are exactly `DecodeFrame` of the snapshot (clamped count, raw gesture, both decoded slots), and each point is its decoded slot rotated once; orientation and dimensions are kept |
| `Driver.FT6206.IsSlotTouched` | src/CSE_FT6206.cpp:211-224 | after the decode, whose stored frame and points are those of `ReadData`, true exactly when the index is a slot and that slot's event code is 1 |
| `Driver.FT6206.GetPoint` | src/CSE_FT6206.cpp:247-255 | after the decode, whose stored frame and points are those of `ReadData`, the rotated point of slot n, or the zero point when n is not a slot index |

## Left out

- Bus transport (`readRegister8`, `writeRegister8`, the Wire transaction in `readData`): replaced by the snapshot and byte parameters above.
- Bytes missing from the bus: when the bus has no data, `readData` and `readRegister8` leave storage uninitialised. The model requires a full 16-byte snapshot.
- `begin`: it drives the reset and interrupt pins with fixed delays and writes the default threshold. It is hardware sequencing, and its `inited` guard is never set, so it makes no state change to model. The default threshold value (128) is kept as `Registers.DefaultThreshold`.
- Debug printing under the debug compile flags: output only, and compiled out by default.
- One-register pass-throughs `getActiveScanRate`, `getMonitorScanRate`, `setActiveScanRate`, `setMonitorScanRate`, `setThreshold`, `getGestureID` and `getInterruptMode`: each only forwards one byte to or from a register.
- `Driver.FT6206.constructor`: the bus object and the reset and interrupt pin numbers it stores are not modelled. `CSE_TouchPoint (0, 0, 0, i)` is taken to set x, y and z to 0 and the ID to i, with state 0.
- `Driver.FT6206.GetPoint`: the default-constructed `CSE_TouchPoint` is taken to be all zero, because its declaration is not part of this model.
- The header's `TS_Point` class and its comparison operators are not used by the .cpp file, so they are not modelled.
- Signed coordinates: the model takes the touch point's x and y as unsigned 16-bit. The header's `TS_Point` holds `int16_t` x, y and z (src/CSE_FT6206.h:92-94). If `CSE_TouchPoint` does the same, a mirrored coordinate that wraps reads back negative, with the same bits. For example, rotation 1 with height 240 and raw x 300 gives y = 65476 here and -60 in a signed field.
- C++ default arguments: `getPoint(n = 0)`, `setRotation(r = 0)`, `setInterruptMode(mode = 1)` and `setThreshold(threshold = 128)` (src/CSE_FT6206.h:121-134). Every modelled operation takes its argument explicitly. The default threshold is kept as `Registers.DefaultThreshold`.
- Concurrency: the driver assumes single-threaded access and has no locking, so nothing is modelled.
