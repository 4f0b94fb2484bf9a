/**
 * The IOPi driver for one MCP23017 chip.  The object keeps a shadow copy
 * of the chip registers it tracks (the `config` record) and turns every
 * pin (documented as 0 to 15, not checked) or port (0 = A, anything else
 * = B) operation into one register address and one byte for the bus.  Pins
 * below 8 belong to port A at bit `pin`, the others to port B at bit
 * `pin - 8`.
 */
module MCP23017 {
  import opened Wrappers
  import opened Bits
  import opened Registers
  import opened I2C

  /** The cached register values, and the device address. */
  datatype Config = Config(
    portADirection: nat,
    portBDirection: nat,
    portAValue: nat,
    portBValue: nat,
    portAPullup: nat,
    portBPullup: nat,
    portAPolarity: nat,
    portBPolarity: nat,
    inta: nat,          // interrupt enable, port A
    intb: nat,          // interrupt enable, port B
    ioaddress: int,     // I2C address of the chip
    ioconfig: nat)      // IOCON

  /**
   * The outcome of an operation that can throw.  Only setInterruptPolarity
   * uses it, and it always throws; `Pass` is the outcome it never reaches.
   */
  datatype Outcome = Pass | TypeError

  /** JavaScript's truthiness of the address argument (None is `undefined`). */
  predicate Falsy(address: Option<int>)
  {
    address.None? || address.value == 0
  }

  class IOPi {
    const bus: Bus
    var config: Config

    /**
     * Opens the chip: sets the address (0x20 when none is given), writes
     * IOCON = 0x22, then reads the direction, value, pull-up and polarity
     * registers of both ports, in that order, into the cache.
     */
    constructor (bus: Bus, address: Option<int>)
      modifies bus
      ensures this.bus == bus
      ensures config.ioaddress == if Falsy(address) then 0x20 else address.value
      ensures config.inta == 0 && config.intb == 0 && config.ioconfig == 0x22
      ensures bus.regs == old(bus.regs)[(config.ioaddress, Address(IOCON)) := 0x22]
      ensures bus.log == old(bus.log) + [
        Write(config.ioaddress, Address(IOCON), 0x22),
        Read(config.ioaddress, Address(IODIRA), config.portADirection),
        Read(config.ioaddress, Address(IODIRB), config.portBDirection),
        Read(config.ioaddress, Address(GPIOA), config.portAValue),
        Read(config.ioaddress, Address(GPIOB), config.portBValue),
        Read(config.ioaddress, Address(GPPUA), config.portAPullup),
        Read(config.ioaddress, Address(GPPUB), config.portBPullup),
        Read(config.ioaddress, Address(IPOLA), config.portAPolarity),
        Read(config.ioaddress, Address(IPOLB), config.portBPolarity)]
      ensures config.portADirection == bus.Peek(config.ioaddress, Address(IODIRA))
      ensures config.portBDirection == bus.Peek(config.ioaddress, Address(IODIRB))
      ensures config.portAValue == bus.Peek(config.ioaddress, Address(GPIOA))
      ensures config.portBValue == bus.Peek(config.ioaddress, Address(GPIOB))
      ensures config.portAPullup == bus.Peek(config.ioaddress, Address(GPPUA))
      ensures config.portBPullup == bus.Peek(config.ioaddress, Address(GPPUB))
      ensures config.portAPolarity == bus.Peek(config.ioaddress, Address(IPOLA))
      ensures config.portBPolarity == bus.Peek(config.ioaddress, Address(IPOLB))
    {
      this.bus := bus;
      config := Config(0x00, 0x00, 0x00, 0x00, 0x00, 0x00, 0x00, 0x00, 0x00, 0x00, 0x20, 0x22);
      new;
      config := config.(ioaddress := if Falsy(address) then 0x20 else address.value);
      var a := config.ioaddress;
      bus.WriteByte(a, Address(IOCON), config.ioconfig);
      var dirA, dirB := ReadPair(bus, a, IODIRA, IODIRB);
      var valA, valB := ReadPair(bus, a, GPIOA, GPIOB);
      var pullA, pullB := ReadPair(bus, a, GPPUA, GPPUB);
      var polA, polB := ReadPair(bus, a, IPOLA, IPOLB);
      config := config.(portADirection := dirA, portBDirection := dirB,
                        portAValue := valA, portBValue := valB,
                        portAPullup := pullA, portBPullup := pullB,
                        portAPolarity := polA, portBPolarity := polB);
    }

    /** setPinDirection: direction 1 = input, 0 = output. */
    method SetPinDirection(pin: nat, direction: int)
      requires direction == 0 || direction == 1
      modifies this, bus
      ensures pin < 8 ==>
        && config == old(config).(portADirection := config.portADirection)
        && ForcesBit(old(config.portADirection), config.portADirection, pin, direction)
        && bus.Wrote(config.ioaddress, Address(IODIRA), config.portADirection)
      ensures 8 <= pin ==>
        && config == old(config).(portBDirection := config.portBDirection)
        && ForcesBit(old(config.portBDirection), config.portBDirection, pin - 8, direction)
        && bus.Wrote(config.ioaddress, Address(IODIRB), config.portBDirection)
    {
      if pin < 8 {
        UpdateByteForces(config.portADirection, pin, direction);
        config := config.(portADirection := UpdateByte(config.portADirection, pin, direction).value);
        bus.WriteByte(config.ioaddress, Address(IODIRA), config.portADirection);
      } else {
        UpdateByteForces(config.portBDirection, pin - 8, direction);
        config := config.(portBDirection := UpdateByte(config.portBDirection, pin - 8, direction).value);
        bus.WriteByte(config.ioaddress, Address(IODIRB), config.portBDirection);
      }
    }

    /** setPortDirection: one byte for all eight pins of a port. */
    method SetPortDirection(port: int, direction: nat)
      modifies this, bus
      ensures port == 0 ==>
        && config == old(config).(portADirection := direction)
        && bus.Wrote(config.ioaddress, Address(IODIRA), direction)
      ensures port != 0 ==>
        && config == old(config).(portBDirection := direction)
        && bus.Wrote(config.ioaddress, Address(IODIRB), direction)
    {
      if port == 0 {
        bus.WriteByte(config.ioaddress, Address(IODIRA), direction);
        config := config.(portADirection := direction);
      } else {
        bus.WriteByte(config.ioaddress, Address(IODIRB), direction);
        config := config.(portBDirection := direction);
      }
    }

    /**
     * setPinPullup, as written: for pins 8 to 15 the new port B byte is
     * port A's cached byte with bit `pin` (not `pin - 8`) forced.
     */
    method SetPinPullup(pin: nat, value: int)
      requires value == 0 || value == 1
      modifies this, bus
      ensures pin < 8 ==>
        && config == old(config).(portAPullup := config.portAPullup)
        && ForcesBit(old(config.portAPullup), config.portAPullup, pin, value)
        && bus.Wrote(config.ioaddress, Address(GPPUA), config.portAPullup)
      ensures 8 <= pin ==>
        && config == old(config).(portBPullup := config.portBPullup)
        && ForcesBit(old(config.portAPullup), config.portBPullup, pin, value)
        && bus.Wrote(config.ioaddress, Address(GPPUB), config.portBPullup)
    {
      if pin < 8 {
        UpdateByteForces(config.portAPullup, pin, value);
        config := config.(portAPullup := UpdateByte(config.portAPullup, pin, value).value);
        bus.WriteByte(config.ioaddress, Address(GPPUA), config.portAPullup);
      } else {
        UpdateByteForces(config.portAPullup, pin, value);
        config := config.(portBPullup := UpdateByte(config.portAPullup, pin, value).value);
        bus.WriteByte(config.ioaddress, Address(GPPUB), config.portBPullup);
      }
    }

    /** setPortPullups */
    method SetPortPullups(port: int, value: nat)
      modifies this, bus
      ensures port == 0 ==>
        && config == old(config).(portAPullup := value)
        && bus.Wrote(config.ioaddress, Address(GPPUA), value)
      ensures port != 0 ==>
        && config == old(config).(portBPullup := value)
        && bus.Wrote(config.ioaddress, Address(GPPUB), value)
    {
      if port == 0 {
        config := config.(portAPullup := value);
        bus.WriteByte(config.ioaddress, Address(GPPUA), value);
      } else {
        config := config.(portBPullup := value);
        bus.WriteByte(config.ioaddress, Address(GPPUB), value);
      }
    }

    /** writePin: read-modify-write of the port's value through the cache. */
    method WritePin(pin: nat, value: int)
      requires value == 0 || value == 1
      modifies this, bus
      ensures pin < 8 ==>
        && config == old(config).(portAValue := config.portAValue)
        && ForcesBit(old(config.portAValue), config.portAValue, pin, value)
        && bus.Wrote(config.ioaddress, Address(GPIOA), config.portAValue)
      ensures 8 <= pin ==>
        && config == old(config).(portBValue := config.portBValue)
        && ForcesBit(old(config.portBValue), config.portBValue, pin - 8, value)
        && bus.Wrote(config.ioaddress, Address(GPIOB), config.portBValue)
    {
      if pin < 8 {
        UpdateByteForces(config.portAValue, pin, value);
        config := config.(portAValue := UpdateByte(config.portAValue, pin, value).value);
        bus.WriteByte(config.ioaddress, Address(GPIOA), config.portAValue);
      } else {
        var bit := pin - 8;
        UpdateByteForces(config.portBValue, bit, value);
        config := config.(portBValue := UpdateByte(config.portBValue, bit, value).value);
        bus.WriteByte(config.ioaddress, Address(GPIOB), config.portBValue);
      }
    }

    /** writePort */
    method WritePort(port: int, value: nat)
      modifies this, bus
      ensures port == 0 ==>
        && config == old(config).(portAValue := value)
        && bus.Wrote(config.ioaddress, Address(GPIOA), value)
      ensures port != 0 ==>
        && config == old(config).(portBValue := value)
        && bus.Wrote(config.ioaddress, Address(GPIOB), value)
    {
      if port == 0 {
        bus.WriteByte(config.ioaddress, Address(GPIOA), value);
        config := config.(portAValue := value);
      } else {
        bus.WriteByte(config.ioaddress, Address(GPIOB), value);
        config := config.(portBValue := value);
      }
    }

    /** readPin: re-reads the pin's port from the chip into the cache and returns the pin's bit. */
    method ReadPin(pin: nat) returns (r: nat)
      modifies this, bus
      ensures pin < 8 ==>
        && config == old(config).(portAValue := config.portAValue)
        && bus.ReadGave(config.ioaddress, Address(GPIOA), config.portAValue)
        && r == Bit(config.portAValue, pin)
      ensures 8 <= pin ==>
        && config == old(config).(portBValue := config.portBValue)
        && bus.ReadGave(config.ioaddress, Address(GPIOB), config.portBValue)
        && r == Bit(config.portBValue, pin - 8)
      ensures r == 0 || r == 1
    {
      var v := bus.ReadByte(config.ioaddress, if pin < 8 then Address(GPIOA) else Address(GPIOB));
      if pin < 8 {
        config := config.(portAValue := v);
        r := CheckBit(config.portAValue, pin);
        CheckBitIsBit(config.portAValue, pin);
      } else {
        var bit := pin - 8;
        config := config.(portBValue := v);
        r := CheckBit(config.portBValue, bit);
        CheckBitIsBit(config.portBValue, bit);
      }
    }

    /** readPort: refreshes the port's value cache; readPort has no return statement, so it yields undefined. */
    method ReadPort(port: int)
      modifies this, bus
      ensures port == 0 ==>
        && config == old(config).(portAValue := config.portAValue)
        && bus.ReadGave(config.ioaddress, Address(GPIOA), config.portAValue)
      ensures port != 0 ==>
        && config == old(config).(portBValue := config.portBValue)
        && bus.ReadGave(config.ioaddress, Address(GPIOB), config.portBValue)
    {
      if port == 0 {
        var v := bus.ReadByte(config.ioaddress, Address(GPIOA));
        config := config.(portAValue := v);
      } else {
        var v := bus.ReadByte(config.ioaddress, Address(GPIOB));
        config := config.(portBValue := v);
      }
    }

    /** invertPin, as written: for pins 8 to 15 it forces bit `pin` of port B's polarity. */
    method InvertPin(pin: nat, polarity: int)
      requires polarity == 0 || polarity == 1
      modifies this, bus
      ensures pin < 8 ==>
        && config == old(config).(portAPolarity := config.portAPolarity)
        && ForcesBit(old(config.portAPolarity), config.portAPolarity, pin, polarity)
        && bus.Wrote(config.ioaddress, Address(IPOLA), config.portAPolarity)
      ensures 8 <= pin ==>
        && config == old(config).(portBPolarity := config.portBPolarity)
        && ForcesBit(old(config.portBPolarity), config.portBPolarity, pin, polarity)
        && bus.Wrote(config.ioaddress, Address(IPOLB), config.portBPolarity)
    {
      if pin < 8 {
        UpdateByteForces(config.portAPolarity, pin, polarity);
        config := config.(portAPolarity := UpdateByte(config.portAPolarity, pin, polarity).value);
        bus.WriteByte(config.ioaddress, Address(IPOLA), config.portAPolarity);
      } else {
        UpdateByteForces(config.portBPolarity, pin, polarity);
        config := config.(portBPolarity := UpdateByte(config.portBPolarity, pin, polarity).value);
        bus.WriteByte(config.ioaddress, Address(IPOLB), config.portBPolarity);
      }
    }

    /** invertPort */
    method InvertPort(port: int, polarity: nat)
      modifies this, bus
      ensures port == 0 ==>
        && config == old(config).(portAPolarity := polarity)
        && bus.Wrote(config.ioaddress, Address(IPOLA), polarity)
      ensures port != 0 ==>
        && config == old(config).(portBPolarity := polarity)
        && bus.Wrote(config.ioaddress, Address(IPOLB), polarity)
    {
      if port == 0 {
        bus.WriteByte(config.ioaddress, Address(IPOLA), polarity);
        config := config.(portAPolarity := polarity);
      } else {
        bus.WriteByte(config.ioaddress, Address(IPOLB), polarity);
        config := config.(portBPolarity := polarity);
      }
    }

    /** mirrorInterrupts: clears IOCON bit 6 for value 0, sets it for any other value. */
    method MirrorInterrupts(value: int)
      modifies this, bus
      ensures config == old(config).(ioconfig := config.ioconfig)
      ensures ForcesBit(old(config.ioconfig), config.ioconfig, 6, if value == 0 then 0 else 1)
      ensures bus.Wrote(config.ioaddress, Address(IOCON), config.ioconfig)
    {
      if value == 0 {
        UpdateByteForces(config.ioconfig, 6, 0);
        config := config.(ioconfig := UpdateByte(config.ioconfig, 6, 0).value);
        bus.WriteByte(config.ioaddress, Address(IOCON), config.ioconfig);
      } else {
        UpdateByteForces(config.ioconfig, 6, 1);
        config := config.(ioconfig := UpdateByte(config.ioconfig, 6, 1).value);
        bus.WriteByte(config.ioaddress, Address(IOCON), config.ioconfig);
      }
    }

    /**
     * setInterruptPolarity, as written: it reads a field of the misspelled,
     * undefined `condig` and throws a TypeError before any bus transfer.
     * For value 0 the cache update of IOCON (bit 1 cleared) happens first.
     */
    method SetInterruptPolarity(value: int) returns (r: Outcome)
      modifies this
      ensures r == TypeError
      ensures value == 0 ==>
        && config == old(config).(ioconfig := config.ioconfig)
        && ForcesBit(old(config.ioconfig), config.ioconfig, 1, 0)
      ensures value != 0 ==> config == old(config)
    {
      if value == 0 {
        UpdateByteForces(config.ioconfig, 1, 0);
        config := config.(ioconfig := UpdateByte(config.ioconfig, 1, 0).value);
      }
      r := TypeError;
    }

    /** setInterruptType: writes INTCON; nothing is cached. */
    method SetInterruptType(port: int, value: nat)
      modifies bus
      ensures port == 0 ==> bus.Wrote(config.ioaddress, Address(INTCONA), value)
      ensures port != 0 ==> bus.Wrote(config.ioaddress, Address(INTCONB), value)
    {
      if port == 0 {
        bus.WriteByte(config.ioaddress, Address(INTCONA), value);
      } else {
        bus.WriteByte(config.ioaddress, Address(INTCONB), value);
      }
    }

    /** setInterruptDefaults: writes DEFVAL; nothing is cached. */
    method SetInterruptDefaults(port: int, value: nat)
      modifies bus
      ensures port == 0 ==> bus.Wrote(config.ioaddress, Address(DEFVALA), value)
      ensures port != 0 ==> bus.Wrote(config.ioaddress, Address(DEFVALB), value)
    {
      if port == 0 {
        bus.WriteByte(config.ioaddress, Address(DEFVALA), value);
      } else {
        bus.WriteByte(config.ioaddress, Address(DEFVALB), value);
      }
    }

    /** setInterruptOnPort */
    method SetInterruptOnPort(port: int, value: nat)
      modifies this, bus
      ensures port == 0 ==>
        && config == old(config).(inta := value)
        && bus.Wrote(config.ioaddress, Address(GPINTENA), value)
      ensures port != 0 ==>
        && config == old(config).(intb := value)
        && bus.Wrote(config.ioaddress, Address(GPINTENB), value)
    {
      if port == 0 {
        bus.WriteByte(config.ioaddress, Address(GPINTENA), value);
        config := config.(inta := value);
      } else {
        bus.WriteByte(config.ioaddress, Address(GPINTENB), value);
        config := config.(intb := value);
      }
    }

    /** setInterruptOnPin, as written: for pins 8 to 15 it forces bit `pin` of the port B cache. */
    method SetInterruptOnPin(pin: nat, value: int)
      requires value == 0 || value == 1
      modifies this, bus
      ensures pin < 8 ==>
        && config == old(config).(inta := config.inta)
        && ForcesBit(old(config.inta), config.inta, pin, value)
        && bus.Wrote(config.ioaddress, Address(GPINTENA), config.inta)
      ensures 8 <= pin ==>
        && config == old(config).(intb := config.intb)
        && ForcesBit(old(config.intb), config.intb, pin, value)
        && bus.Wrote(config.ioaddress, Address(GPINTENB), config.intb)
    {
      if pin < 8 {
        UpdateByteForces(config.inta, pin, value);
        config := config.(inta := UpdateByte(config.inta, pin, value).value);
        bus.WriteByte(config.ioaddress, Address(GPINTENA), config.inta);
      } else {
        UpdateByteForces(config.intb, pin, value);
        config := config.(intb := UpdateByte(config.intb, pin, value).value);
        bus.WriteByte(config.ioaddress, Address(GPINTENB), config.intb);
      }
    }

    /** readInterruptStatus: one read of INTF; nothing is cached. */
    method ReadInterruptStatus(port: int) returns (r: nat)
      modifies bus
      ensures port == 0 ==> bus.ReadGave(config.ioaddress, Address(INTFA), r)
      ensures port != 0 ==> bus.ReadGave(config.ioaddress, Address(INTFB), r)
    {
      if port == 0 {
        r := bus.ReadByte(config.ioaddress, Address(INTFA));
      } else {
        r := bus.ReadByte(config.ioaddress, Address(INTFB));
      }
    }

    /** readInterruptCapture: one read of INTCAP; nothing is cached. */
    method ReadInterruptCapture(port: int) returns (r: nat)
      modifies bus
      ensures port == 0 ==> bus.ReadGave(config.ioaddress, Address(INTCAPA), r)
      ensures port != 0 ==> bus.ReadGave(config.ioaddress, Address(INTCAPB), r)
    {
      if port == 0 {
        r := bus.ReadByte(config.ioaddress, Address(INTCAPA));
      } else {
        r := bus.ReadByte(config.ioaddress, Address(INTCAPB));
      }
    }

    /**
     * resetInterrupts: reads INTCAPA, then INTCAPB; the comma operator in
     * its return makes it return only the second value.
     */
    method ResetInterrupts() returns (r: nat)
      modifies bus
      ensures r == old(bus.Peek(config.ioaddress, Address(INTCAPB)))
      ensures bus.regs == old(bus.regs)
      ensures bus.log == old(bus.log) + [
        Read(config.ioaddress, Address(INTCAPA), old(bus.Peek(config.ioaddress, Address(INTCAPA)))),
        Read(config.ioaddress, Address(INTCAPB), r)]
    {
      var first := ReadInterruptCapture(0);
      r := ReadInterruptCapture(1);
    }
  }

  /** Two consecutive register reads, as the constructor does for each register pair. */
  method ReadPair(bus: Bus, a: int, ra: Register, rb: Register) returns (x: nat, y: nat)
    modifies bus
    ensures bus.regs == old(bus.regs)
    ensures x == bus.Peek(a, Address(ra)) && y == bus.Peek(a, Address(rb))
    ensures bus.log == old(bus.log) + [Read(a, Address(ra), x), Read(a, Address(rb), y)]
  {
    x := bus.ReadByte(a, Address(ra));
    y := bus.ReadByte(a, Address(rb));
  }

  /**
   * Against the echoing register file, reading a pin right after writing it
   * gives back the value written.
   */
  method WriteThenReadPin(dev: IOPi, pin: nat, value: int) returns (r: nat)
    requires value == 0 || value == 1
    modifies dev, dev.bus
    ensures r == value
    ensures |dev.bus.log| == |old(dev.bus.log)| + 2
  {
    dev.WritePin(pin, value);
    r := dev.ReadPin(pin);
  }
}
