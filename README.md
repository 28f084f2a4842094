# MxMotion driver model

A Dafny model of the MxMotion driver (`MxMotion.ts`) for a 9-axis motion
sensor reached over I2C at bus address 0x23. The driver starts the sensor up
and reads three kinds of 16-bit signed channels (orientation angles, raw
acceleration counts, raw angular-rate counts), each stored as a low-byte
register followed by a high-byte register.

The bus is replaced by the sensor's register file held in memory:

- `MxMotion.Sensor` holds a byte array `regs` indexed by register address
  (the driver uses addresses 1 to 20) and a `trace` of what the driver sends:
  the two-byte frames it writes and the pause between them.
- `I2cRead` is a lookup in `regs`; `I2cWrite` stores one byte and appends the
  frame `[register, value]` addressed to 0x23 to the trace.
- The readers are methods that change nothing. They select a register pair
  by selector number, combine the bytes with `h << 8 | l` and sign-extend.
  Their contracts name the register addresses as numbers, so they also check
  the address map; with `DecodeEncode` and `EncodeDecode` every reading is
  the unique Int16 whose two bytes are those registers.

Files:

- `bits.dfy` (module `Bits`): JavaScript's `|` on non-negative integers, and
  the fact that OR-ing a k-bit value into a value shifted left by k bits is a
  plain sum.
- `word16.dfy` (module `Word16`): bytes, 16-bit two's-complement decoding and
  its inverse, and both round trips.
- `mx_motion.dfy` (module `MxMotion`): the register map, the selector
  enumerations, the `Sensor` class with `Init` and the three readers, and a
  client scenario (`Scenario`) that starts a sensor up and reads from it.

The code of `MxMotion.ts` has one register layout, a fixed enable value
(0x01) and two-byte pitch decoding.

## Model

| member | source | states |
|---|---|---|
| Bits.Or | MxMotion.ts:69 | Bitwise OR of two naturals is at least each operand and at most their sum. |
| Bits.OrOfShiftedIsSum | MxMotion.ts:69 | If l fits in k bits, x shifted left by k bits and OR-ed with l equals `x * 2^k + l`: the two parts never overlap. |
| Word16.Combine | MxMotion.ts:69 | For bytes h and l, h shifted left by 8 and OR-ed with l equals `h * 256 + l` and lies in [0, 65535]. |
| Word16.SignExtend | MxMotion.ts:70-72 | Subtracting 65536 above 32767 gives a value in [-32768, 32767] that is congruent to the input modulo 65536 and is negative exactly when bit 15 is set. |
| Word16.Decode | MxMotion.ts:69-72 | The signed value of a register pair is an Int16 whose residue modulo 65536 is `h * 256 + l`. |
| Word16.Encode | MxMotion.ts:69-72 | Splitting an Int16 into high and low bytes gives the pair whose unsigned word is the value modulo 65536; the high byte is at least 128 exactly for negative values. |
| Word16.DecodeEncode | MxMotion.ts:69-72 | Decoding the bytes of any Int16 gives it back, so every Int16 is a possible reading. |
| Word16.EncodeDecode | MxMotion.ts:69-72 | Splitting the decoded value of any register pair gives the pair back, so decoding is one-to-one; with DecodeEncode it is a bijection onto Int16. |
| MxMotion.Address | MxMotion.ts:21-43 | Register addresses run from 1 to 20, and each register's address is its position in the enumeration's declaration order plus one. |
| MxMotion.AxisType.Value | MxMotion.ts:1-6 | The selector of an axis is its position in the declaration order X, Y, Z, counted from 0, so it lies in [0, 2]. |
| MxMotion.EularType.Value | MxMotion.ts:8-13 | The selector of an orientation angle is its position in the declaration order Roll, Pitch, Yaw, counted from 0, so it lies in [0, 2]. |
| MxMotion.Sensor.I2cRead | MxMotion.ts:155-158 | Reading the k-th register the enumeration declares (counted from 0) returns the register-file cell at address k + 1. |
| MxMotion.Sensor.I2cWrite | MxMotion.ts:148-153 | Writing a register sets that one cell, leaves every other cell unchanged and appends the frame [register, value] for bus address 0x23 to the trace. |
| MxMotion.Sensor.Pause | MxMotion.ts:53 | A pause appends a marker with its duration to the trace and sends nothing. |
| MxMotion.Sensor.Init | MxMotion.ts:50-56 | With Device_ID = 0x44: the trace gains exactly the write of 0x02 to register 2, a 500 ms pause, and the write of 0x01 to register 2, in that order; register 2 ends at 0x01 and no other register changes. With any other Device_ID: neither the registers nor the trace change. |
| MxMotion.Sensor.ReadEular | MxMotion.ts:64-90 | Selectors 0, 1, 2 (Roll, Pitch, Yaw) return `Decode` of the (high, low) register pair at addresses (4, 3), (6, 5), (8, 7) respectively; any other selector returns 0; the result always lies in [-32768, 32767]; nothing is modified. |
| MxMotion.Sensor.ReadAccel | MxMotion.ts:98-118 | Selectors 0, 1, 2 (X, Y, Z) return `Decode` of the (high, low) register pair at addresses (16, 15), (18, 17), (20, 19); any other selector returns 0 (the sign check runs on 0 and keeps it); the result lies in [-32768, 32767]; nothing is modified. |
| MxMotion.Sensor.ReadGyro | MxMotion.ts:126-146 | Selectors 0, 1, 2 (X, Y, Z) return `Decode` of the (high, low) register pair at addresses (10, 9), (12, 11), (14, 13); any other selector returns 0; the result lies in [-32768, 32767]; nothing is modified. |

## Left out

- The I2C transport (`pins.createBuffer`, `pins.i2cWriteBuffer`, `pins.i2cWriteNumber`, `pins.i2cReadNumber`): foreign runtime calls, replaced by the in-memory register file. Bus failures and NACKs are not visible to this code.
- The register-address byte that `i2cRead` writes before each read is not recorded in the trace: reads are modelled as lookups, so the trace holds only writes and pauses.
- A write is modelled as storing the byte in the register. What the sensor itself does on reset (0x02 to Device_CONFIG) to its other registers is hardware behaviour outside the driver.
- `basic.pause(500)`: a scheduler delay, recorded only as a `Paused(500)` marker in the trace; time is not modelled.
- Block annotations and doc comments (`//%` lines): editor metadata with no behaviour.
- Physical units: the "mm/s^2" and "dgree/s" labels have no scaling code behind them; the readers return raw counts.
- Selectors are modelled as integers. A JavaScript number that is not an integer also misses every `case` and falls to the default branch, as any integer outside 0 to 2 does.
- Bits.Or: JavaScript's 32-bit conversion of the operands and result of `<<` and `|` is not modelled (`h << 8` is written `h * 256`); for a byte shifted by 8 and OR-ed with a byte every value stays below 2^16, where that conversion is the identity.
