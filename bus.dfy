/**
 * The I2C transport the driver is built on, as an abstract register file:
 * for each device address, the contents of each register.  Every transfer
 * is recorded in a ghost log, in order.  The initial contents are
 * arbitrary; after that a read returns what the register file holds, so
 * reads echo earlier writes.  Changes the chip makes by itself between
 * transfers (input pin levels, interrupt flags) are not modelled.
 */
module I2C {
  datatype Txn =
    | Read(addr: int, reg: nat, value: nat)
    | Write(addr: int, reg: nat, value: nat)

  class Bus {
    var regs: map<(int, nat), nat>
    ghost var log: seq<Txn>

    constructor (initial: map<(int, nat), nat>)
      ensures regs == initial && log == []
    {
      regs := initial;
      log := [];
    }

    /** What register reg of the device at addr holds (0 if never set). */
    function Peek(addr: int, reg: nat): nat
      reads this
    {
      if (addr, reg) in regs then regs[(addr, reg)] else 0
    }

    /** Since the pre-state, exactly one write of v to (addr, reg) happened. */
    twostate predicate Wrote(addr: int, reg: nat, v: nat)
      reads this
    {
      && log == old(log) + [Write(addr, reg, v)]
      && regs == old(regs)[(addr, reg) := v]
    }

    /** Since the pre-state, exactly one read of (addr, reg) happened, and it returned v. */
    twostate predicate ReadGave(addr: int, reg: nat, v: nat)
      reads this
    {
      && v == old(Peek(addr, reg))
      && log == old(log) + [Read(addr, reg, v)]
      && regs == old(regs)
    }

    /** readByteSync(addr, reg) */
    method ReadByte(addr: int, reg: nat) returns (v: nat)
      modifies this
      ensures ReadGave(addr, reg, v)
    {
      v := Peek(addr, reg);
      log := log + [Read(addr, reg, v)];
    }

    /** writeByteSync(addr, reg, v) */
    method WriteByte(addr: int, reg: nat, v: nat)
      modifies this
      ensures Wrote(addr, reg, v)
    {
      regs := regs[(addr, reg) := v];
      log := log + [Write(addr, reg, v)];
    }
  }
}
