/** 8-bit I/O registers of the microcontroller and the bit arithmetic the
    drivers perform on them.  A register is an object because several
    drivers hold a pointer to the same one (both lamps and the relay sit on
    one output port). */
module Ports {

  /** A bit position inside an 8-bit register (PB0..PB7, PD0..PD7). */
  type PinIndex = p: nat | p < 8

  /** `_BV(p)`, i.e. `1 << p` on an 8-bit register. */
  function Bit(p: PinIndex): bv8 {
    1 << p
  }

  /** Level of bit `p` of `v`. */
  predicate TestBit(v: bv8, p: PinIndex) {
    v & Bit(p) != 0
  }

  /** `v |= (1 << p)`: bit `p` becomes 1, every other bit keeps its level. */
  function SetBit(v: bv8, p: PinIndex): (r: bv8)
    ensures TestBit(r, p)
    ensures forall i: PinIndex :: i != p ==> TestBit(r, i) == TestBit(v, i)
  {
    v | Bit(p)
  }

  /** `v &= ~(1 << p)`: bit `p` becomes 0, every other bit keeps its level. */
  function ClearBit(v: bv8, p: PinIndex): (r: bv8)
    ensures !TestBit(r, p)
    ensures forall i: PinIndex :: i != p ==> TestBit(r, i) == TestBit(v, i)
  {
    v & !Bit(p)
  }

  /** `v ^= (1 << p)`: bit `p` flips, every other bit keeps its level. */
  function ToggleBit(v: bv8, p: PinIndex): (r: bv8)
    ensures TestBit(r, p) == !TestBit(v, p)
    ensures forall i: PinIndex :: i != p ==> TestBit(r, i) == TestBit(v, i)
  {
    v ^ Bit(p)
  }

  /** An 8-bit memory-mapped register (PORTx or DDRx).  `value` is what the
      register holds; `writes` is every value stored into it, in order, which
      is what a peripheral wired to the pins observes. */
  class Register {
    var value: bv8
    ghost var writes: seq<bv8>

    constructor (v: bv8)
      ensures value == v && writes == []
    {
      value := v;
      writes := [];
    }

    /** One store to the register. */
    method Write(v: bv8)
      modifies this
      ensures value == v
      ensures writes == old(writes) + [v]
    {
      value := v;
      writes := writes + [v];
    }
  }
}
