/** The indicator and pump drivers: each drives one output pin of a port by a
    single read-modify-write of the port (or of its data-direction register). */
module Indicators {
  import opened Ports

  /** An output line: the pin number and pointers to its PORT and DDR
      registers.  The source has two structs of this shape, `indicator` and
      `pump`; both are this datatype. */
  datatype OutputLine = OutputLine(pin: PinIndex, port: Register, ddr: Register)

  type Indicator = OutputLine
  type Pump = OutputLine

  /** Two lines are distinct when they are different pins or different ports. */
  predicate Distinct(a: OutputLine, b: OutputLine) {
    a.port != b.port || a.pin != b.pin
  }

  /** `indicator_init`: makes the pin an output; the other DDR bits are kept. */
  method IndicatorInit(ind: Indicator)
    modifies ind.ddr
    ensures ind.ddr.value == SetBit(old(ind.ddr.value), ind.pin)
    ensures ind.ddr.writes == old(ind.ddr.writes) + [ind.ddr.value]
  {
    ind.ddr.Write(SetBit(ind.ddr.value, ind.pin));
  }

  /** `indicator_on`: drives the pin high; the other port bits are kept. */
  method IndicatorOn(ind: Indicator)
    modifies ind.port
    ensures ind.port.value == SetBit(old(ind.port.value), ind.pin)
    ensures ind.port.writes == old(ind.port.writes) + [ind.port.value]
  {
    ind.port.Write(SetBit(ind.port.value, ind.pin));
  }

  /** `indicator_off`: drives the pin low; the other port bits are kept. */
  method IndicatorOff(ind: Indicator)
    modifies ind.port
    ensures ind.port.value == ClearBit(old(ind.port.value), ind.pin)
    ensures ind.port.writes == old(ind.port.writes) + [ind.port.value]
  {
    ind.port.Write(ClearBit(ind.port.value, ind.pin));
  }

  /** `indicator_blink`: flips the pin (the hold delay is not modelled). */
  method IndicatorBlink(ind: Indicator, delayMs: int)
    modifies ind.port
    ensures ind.port.value == ToggleBit(old(ind.port.value), ind.pin)
    ensures ind.port.writes == old(ind.port.writes) + [ind.port.value]
  {
    ind.port.Write(ToggleBit(ind.port.value, ind.pin));
  }

  /** Two blinks of the same pin give the port back its original value. */
  lemma BlinkTwiceRestores(v: bv8, p: PinIndex)
    ensures ToggleBit(ToggleBit(v, p), p) == v
  {
  }

  /** `pump_init`: makes the pump pin an output. */
  method PumpInit(p: Pump)
    modifies p.ddr
    ensures p.ddr.value == SetBit(old(p.ddr.value), p.pin)
    ensures p.ddr.writes == old(p.ddr.writes) + [p.ddr.value]
  {
    p.ddr.Write(SetBit(p.ddr.value, p.pin));
  }

  /** `pump_on`: drives the pump pin high. */
  method PumpOn(p: Pump)
    modifies p.port
    ensures p.port.value == SetBit(old(p.port.value), p.pin)
    ensures p.port.writes == old(p.port.writes) + [p.port.value]
  {
    p.port.Write(SetBit(p.port.value, p.pin));
  }

  /** `pump_off`: drives the pump pin low. */
  method PumpOff(p: Pump)
    modifies p.port
    ensures p.port.value == ClearBit(old(p.port.value), p.pin)
    ensures p.port.writes == old(p.port.writes) + [p.port.value]
  {
    p.port.Write(ClearBit(p.port.value, p.pin));
  }
}
