/**
 * The MCP23017 register-address table: each named register and its
 * one-byte address.  Address 0x0B has no name in the table.
 */
module Registers {
  import opened Wrappers

  datatype Register =
    | IODIRA | IODIRB     // I/O direction, 1 = input, 0 = output
    | IPOLA | IPOLB       // input polarity
    | GPINTENA | GPINTENB // interrupt-on-change enable
    | DEFVALA | DEFVALB   // interrupt default compare value
    | INTCONA | INTCONB   // interrupt control
    | IOCON               // chip configuration
    | GPPUA | GPPUB       // pull-up resistors
    | INTFA | INTFB       // interrupt flags
    | INTCAPA | INTCAPB   // interrupt capture
    | GPIOA | GPIOB       // port data
    | OLATA | OLATB       // output latches

  function Address(r: Register): nat
  {
    match r
    case IODIRA => 0x00
    case IODIRB => 0x01
    case IPOLA => 0x02
    case IPOLB => 0x03
    case GPINTENA => 0x04
    case GPINTENB => 0x05
    case DEFVALA => 0x06
    case DEFVALB => 0x07
    case INTCONA => 0x08
    case INTCONB => 0x09
    case IOCON => 0x0A
    case GPPUA => 0x0C
    case GPPUB => 0x0D
    case INTFA => 0x0E
    case INTFB => 0x0F
    case INTCAPA => 0x10
    case INTCAPB => 0x11
    case GPIOA => 0x12
    case GPIOB => 0x13
    case OLATA => 0x14
    case OLATB => 0x15
  }

  /** The register a one-byte address names, if any. */
  function Lookup(a: int): Option<Register>
  {
    match a
    case 0x00 => Some(IODIRA)
    case 0x01 => Some(IODIRB)
    case 0x02 => Some(IPOLA)
    case 0x03 => Some(IPOLB)
    case 0x04 => Some(GPINTENA)
    case 0x05 => Some(GPINTENB)
    case 0x06 => Some(DEFVALA)
    case 0x07 => Some(DEFVALB)
    case 0x08 => Some(INTCONA)
    case 0x09 => Some(INTCONB)
    case 0x0A => Some(IOCON)
    case 0x0C => Some(GPPUA)
    case 0x0D => Some(GPPUB)
    case 0x0E => Some(INTFA)
    case 0x0F => Some(INTFB)
    case 0x10 => Some(INTCAPA)
    case 0x11 => Some(INTCAPB)
    case 0x12 => Some(GPIOA)
    case 0x13 => Some(GPIOB)
    case 0x14 => Some(OLATA)
    case 0x15 => Some(OLATB)
    case _ => None
  }

  /** Every register has an address inside 0x00..0x15, and looking it up gives the register back. */
  lemma AddressRoundTrip(r: Register)
    ensures Address(r) <= 0x15
    ensures Lookup(Address(r)) == Some(r)
  {
  }

  /** Every address the table knows is the address of the register it names. */
  lemma LookupRoundTrip(a: int)
    ensures Lookup(a).Some? ==> Address(Lookup(a).value) == a
    ensures Lookup(a).Some? <==> 0x00 <= a <= 0x15 && a != 0x0B
  {
  }

  /** No two registers share an address. */
  lemma AddressesDistinct(r: Register, s: Register)
    ensures Address(r) == Address(s) ==> r == s
  {
  }
}
