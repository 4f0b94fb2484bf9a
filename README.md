# MCP23017 register layer, modelled in Dafny

This project models the register and bit-addressing layer of the `IOPi`
driver for the MCP23017 16-bit I/O expander (`mcp23017.js`). The chip splits
its sixteen pins into two 8-bit ports. The driver turns each pin-level
operation (pin 0 to 15) or port-level operation (port `0` = A, any other
value = B) into a single register address and a byte. It then hands that
pair to an I2C transport. It also keeps a shadow copy of the registers it
tracks in `this.config`.

The modules, one per concern:

- `Wrappers` (`wrappers.dfy`): `Option`. `None` stands for JavaScript's `undefined`.
- `Bits` (`bits.dfy`): `checkBit` and `updateByte` as functions on
  non-negative integers. JavaScript's `&`, `|` and `& ~` are written out bit
  by bit (`And`, `Or`, `AndNot`). `1 << k` is `Pow2(k)`. The lemmas relate
  these operators to an independent reference, `Bit(x, i)`. `ForcesBit(b, x, k, v)`
  says that x is b with bit k forced to v and every other bit kept.
  `updateByte(updateByte(b, k, 1), k, 0)` gives back `b` only when bit k of
  `b` was clear. In general the result is `b` with bit k cleared.
- `Registers` (`registers.dfy`): the register-address table, with its
  inverse `Lookup`.
- `I2C` (`bus.dfy`): the transport, modelled as an abstract register file
  `regs` keyed by (device address, register). A ghost `log` records every
  `Read(addr, reg, value)` and `Write(addr, reg, value)` in order. A read
  returns what the register file holds, so reads echo earlier writes. The
  file's initial contents are arbitrary. `I2C.Bus.ReadByte` and
  `I2C.Bus.WriteByte` stand for the transport's `readByteSync` and
  `writeByteSync`; they belong to the transport, not to the driver, so they
  have no row below.
- `MCP23017` (`iopi.dfy`): the `IOPi` class. Its `config` field is a
  `Config` record holding the same twelve fields as the source's
  `this.config`. Methods that keep a cache reassign `config`; every method
  except setInterruptPolarity talks to `bus`. Each method's contract gives
  the whole new cache and the exact transfer logged.
  `MCP23017.ReadPair` is a helper that performs two of the constructor's
  consecutive reads; the constructor's row covers it.

The model follows the code as written, including where it departs from the
driver's own comments:

- `setPinPullup`, `invertPin` and `setInterruptOnPin` do not adjust the bit
  offset for pins 8 to 15. They force bit `pin` rather than bit `pin - 8`.
  `setPinPullup` also starts from port A's cached pull-up byte. So
  `setPinPullup(8, 1)` writes port A's pull-up byte with bit 8 set (a value
  of 256 or more) to GPPUB, so port B's pull-up bits 0 to 7 become port A's.
- `setInterruptPolarity` reads the misspelled `this.condig` and throws a
  TypeError. The model returns `TypeError`. It issues no bus transfer. For
  value 0 it first clears bit 1 of the cached IOCON, as the source does
  before the failing line.
- `readPort` has no `return`, so it gives the caller nothing. Only its
  effect on the cache is modelled.
- `resetInterrupts` returns only the INTCAPB value (the comma operator),
  not the pair of values.
## Model

| member | source | states |
|---|---|---|
| `Bits.CheckBitIsBit` | mcp23017.js:130-136 | checkBit(b, k) is bit k of b: 1 exactly when that bit is set, 0 otherwise, and always 0 or 1 |
| `Bits.CheckBitExamples` | mcp23017.js:130-136 | checkBit(0b10110010, 1) == 1 and checkBit(0b10110010, 0) == 0 |
| `Bits.UpdateByteCharacterised` | mcp23017.js:141-147 | updateByte has a result exactly when the value is 0 or 1; that result is the one number whose bit k is the value and whose other bits are those of b |
| `Bits.UpdateByteForces` | mcp23017.js:141-147 | for value 0 or 1, updateByte's result has bit k equal to the value and every other bit as in b |
| `Bits.UpdateByteIdempotent` | mcp23017.js:141-147 | applying updateByte twice with the same bit and value gives the same result as applying it once |
| `Bits.UpdateByteSetThenClear` | mcp23017.js:141-147 | setting then clearing bit k is clearing it; this gives back b exactly when bit k of b was 0 |
| `Bits.UpdateThenCheckBit` | mcp23017.js:130-147 | checkBit of updateByte's result at bit k is the forced value; at any other bit it is checkBit of the original |
| `Bits.UpdateByteWithinByte` | mcp23017.js:141-147 | for a byte below 256 and bit below 8, updateByte's result is still below 256 |
| `Bits.UpdateByteAboveByte` | mcp23017.js:184-192 | with an unadjusted offset (bit 8 or more), bits 0 to 7 are kept; setting gives a value of at least 256; clearing leaves a byte unchanged |
| `Registers.AddressRoundTrip` | mcp23017.js:13-70 | every register's address is at most 0x15, and looking that address up gives the register back |
| `Registers.LookupRoundTrip` | mcp23017.js:13-70 | an address names a register exactly when it is in 0x00..0x15 and not 0x0B, and that register has that address |
| `Registers.AddressesDistinct` | mcp23017.js:13-70 | no two registers of the table share an address |
| `MCP23017.IOPi.constructor` | mcp23017.js:72-113 | the address becomes 0x20 when the argument is falsy; the log gets exactly one write (IOCON = 0x22), then reads of IODIRA, IODIRB, GPIOA, GPIOB, GPPUA, GPPUB, IPOLA and IPOLB in that order; each cache field holds the value its read returned; inta = intb = 0 and ioconfig = 0x22 |
| `MCP23017.IOPi.SetPinDirection` | mcp23017.js:154-162 | pin < 8: only bit pin of port_a_direction changes, to the direction, and that byte is written to IODIRA. Otherwise: only bit pin-8 of port_b_direction changes and is written to IODIRB. No other cache field changes; exactly one write is logged |
| `MCP23017.IOPi.SetPortDirection` | mcp23017.js:169-177 | port 0: the IODIRA write of the byte, and port_a_direction becomes the byte. Any other port: the same on IODIRB and port_b_direction. Nothing else in the cache changes |
| `MCP23017.IOPi.SetPinPullup` | mcp23017.js:184-192 | pin < 8: only bit pin of port_a_pullup changes and is written to GPPUA. Otherwise, as written: port_b_pullup becomes port_a_pullup with bit pin (not pin-8) forced, and that is written to GPPUB. Nothing else changes |
| `MCP23017.IOPi.SetPortPullups` | mcp23017.js:197-205 | port 0: the pull-up A cache becomes the byte and one GPPUA write is logged. Any other port: the same on B and GPPUB. Nothing else changes |
| `MCP23017.IOPi.WritePin` | mcp23017.js:208-217 | pin < 8: only bit pin of port_a_value changes, to the value, and that byte is written to GPIOA (0x12). Otherwise: only bit pin-8 of port_b_value changes and is written to GPIOB (0x13). No other field changes; exactly one write is logged |
| `MCP23017.IOPi.WritePort` | mcp23017.js:224-232 | port 0: one GPIOA write of the byte, and port_a_value becomes the byte. Any other port: the same on GPIOB and port_b_value. Nothing else changes |
| `MCP23017.IOPi.ReadPin` | mcp23017.js:238-250 | one read of GPIOA (pin < 8) or GPIOB; only that port's value cache changes, to the byte read; the result is bit pin (or pin-8) of that byte, 0 or 1 |
| `MCP23017.IOPi.ReadPort` | mcp23017.js:257-266 | one read of GPIOA (port 0) or GPIOB; only that port's value cache changes, to the byte read |
| `MCP23017.IOPi.InvertPin` | mcp23017.js:274-282 | pin < 8: only bit pin of port_a_polarity changes and is written to IPOLA. Otherwise, as written: bit pin (not pin-8) of port_b_polarity is forced and written to IPOLB. Nothing else changes |
| `MCP23017.IOPi.InvertPort` | mcp23017.js:290-298 | port 0: one IPOLA write of the byte, and port_a_polarity becomes the byte. Any other port: the same on B. Nothing else changes |
| `MCP23017.IOPi.MirrorInterrupts` | mcp23017.js:305-313 | ioconfig bit 6 is cleared for value 0 and set for any other value; its other bits and all other fields are kept; the new byte is written to IOCON (0x0A) |
| `MCP23017.IOPi.SetInterruptPolarity` | mcp23017.js:320-328 | always fails with TypeError and makes no bus transfer; for value 0 bit 1 of the cached ioconfig is cleared first, any other value leaves the cache unchanged |
| `MCP23017.IOPi.SetInterruptType` | mcp23017.js:336-342 | one write of the byte to INTCONA (port 0) or INTCONB; the cache is unchanged |
| `MCP23017.IOPi.SetInterruptDefaults` | mcp23017.js:350-356 | one write of the byte to DEFVALA (port 0) or DEFVALB; the cache is unchanged |
| `MCP23017.IOPi.SetInterruptOnPort` | mcp23017.js:363-371 | port 0: one GPINTENA write of the byte, and inta becomes the byte. Any other port: GPINTENB and intb. Nothing else changes |
| `MCP23017.IOPi.SetInterruptOnPin` | mcp23017.js:378-386 | pin < 8: only bit pin of inta changes and is written to GPINTENA. Otherwise, as written: bit pin (not pin-8) of intb is forced and written to GPINTENB. Nothing else changes |
| `MCP23017.IOPi.ReadInterruptStatus` | mcp23017.js:393-401 | one read of INTFA (port 0) or INTFB, whose byte is returned; the cache is unchanged |
| `MCP23017.IOPi.ReadInterruptCapture` | mcp23017.js:408-416 | one read of INTCAPA (port 0) or INTCAPB, whose byte is returned; the cache is unchanged |
| `MCP23017.IOPi.ResetInterrupts` | mcp23017.js:421-425 | exactly two reads, INTCAPA then INTCAPB; the result is the INTCAPB byte only; the cache is unchanged |
| `MCP23017.WriteThenReadPin` | mcp23017.js:208-250 | against the echoing register file, writePin(p, v) followed by readPin(p) returns v, after exactly two transfers |

## Left out

- The transport itself (`i2c.openSync`, `readByteSync` and `writeByteSync` from `i2c-bus`, mcp23017.js:2, 94). It is a foreign library. The constructor receives an already-open `Bus`, and the bus identifier is not modelled.
- Transport failures (absent device, NACK). The model's bus never fails. Because of that, the constructor stores its eight reads into the cache after the last read, not one at a time. The difference would only show if a read threw.
- Changes the chip makes by itself between transfers: the live level of an input pin in GPIO, interrupt flags and captures, and the clearing of the interrupt condition when INTCAP is read. Reads echo the register file, which holds what was last written (its initial contents are arbitrary). So `MCP23017.WriteThenReadPin` shows the echoing register file, not the chip's behaviour for a pin configured as input.
- JavaScript's 32-bit bitwise semantics. Values and shift counts are unbounded non-negative integers, so results only agree with JavaScript for operands below 2^31 and shift counts below 31. Negative numbers and non-numeric arguments, with the loose `==` coercion they would go through, are not modelled. Port bytes are `nat`, and the transport stores a written value as given.
- `MCP23017.IOPi.SetPinDirection`: requires direction 0 or 1. For any other direction `updateByte` returns `undefined`, which the source would cache and write. `Bits.UpdateByteCharacterised` models that case as `None`. Pins are not bounded: like the source, any pin of 8 or more takes the port B branch (the driver documents pins 0 to 15, and setPinPullup's comment says 1 to 16).
- `MCP23017.IOPi.SetPinPullup`: requires value 0 or 1, because with any other value `updateByte` returns `undefined`, as for SetPinDirection.
- `MCP23017.IOPi.WritePin`: requires value 0 or 1, because with any other value `updateByte` returns `undefined`, as for SetPinDirection.
- `MCP23017.IOPi.InvertPin`: requires polarity 0 or 1, because with any other value `updateByte` returns `undefined`, as for SetPinDirection.
- `MCP23017.IOPi.SetInterruptOnPin`: requires value 0 or 1, because with any other value `updateByte` returns `undefined`, as for SetPinDirection.
- Negative pins: pins are `nat`. In the source a negative pin takes the port A branch and reaches `1 << pin` with a negative shift count.
- The commented-out initialisation in the constructor (mcp23017.js:115-122). It is not executed.
