/** The direction detector: the pin-change interrupt handler that watches the
    two infrared beams of the doorway and counts people walking in and out.
    The entry beam (IR_SENSE_1, PD2) is on the outside, the exit beam
    (IR_SENSE_2, PD3) on the inside; both sensors pull their pin low while
    the beam is broken. */
module Detector {
  import opened Ports

  /** `uint8_t`.  Every value the handler stores in its flags and latches is
      0 or 1, so no wrap-around can occur in them. */
  newtype uint8 = x: int | 0 <= x < 256

  /** The handler's global state: the beam latches `int_last_state_1/2`, the
      pass flags `int_flag_1/2` and the people `count`. */
  datatype State = State(entryLatch: uint8, exitLatch: uint8,
                         entryFlag: uint8, exitFlag: uint8, count: int)

  /** The power-on values of the globals. */
  const Initial: State := State(0, 0, 0, 0, 0)

  /** What the handler reads from the sensor port: which beams are broken. */
  datatype Sample = Sample(entryBroken: bool, exitBroken: bool)

  const EntrySensePin: PinIndex := 2
  const ExitSensePin: PinIndex := 3

  /** Decoding `PIND`: a beam is broken when its pin reads low. */
  function SampleOf(pind: bv8): (x: Sample)
    ensures x.entryBroken <==> pind & 0x04 == 0
    ensures x.exitBroken <==> pind & 0x08 == 0
  {
    Sample(!TestBit(pind, EntrySensePin), !TestBit(pind, ExitSensePin))
  }

  /** The flags and latches hold 0 or 1, and the two pass flags are never set
      together: at most one half-finished pass is remembered. */
  predicate Valid(s: State) {
    s.entryLatch <= 1 && s.exitLatch <= 1 && s.entryFlag <= 1 && s.exitFlag <= 1 &&
    !(s.entryFlag == 1 && s.exitFlag == 1)
  }

  /** Nothing is latched and no pass is half finished. */
  predicate AtRest(s: State) {
    s.entryLatch == 0 && s.exitLatch == 0 && s.entryFlag == 0 && s.exitFlag == 0
  }

  /** The entry half of the handler.  While the beam is broken the latch is
      set; when the beam is clear again with the latch set, the latch is
      cleared and the pass is completed: with no flag set the entry flag is
      raised, with only the exit flag set a person has left (the count goes
      down and the exit flag is dropped), and otherwise nothing else happens. */
  function EntryHalf(s: State, broken: bool): (r: State)
    ensures Valid(s) ==> Valid(r)
    ensures s.count - 1 <= r.count <= s.count
    ensures r.exitLatch == s.exitLatch
    ensures r.entryFlag != s.entryFlag ==> !broken && s.entryLatch == 1
  {
    if broken then
      if s.entryLatch == 0 then s.(entryLatch := 1) else s
    else if s.entryLatch == 1 then
      var t := s.(entryLatch := 0);
      if t.entryFlag == 0 && t.exitFlag == 0 then t.(entryFlag := 1)
      else if t.entryFlag == 0 && t.exitFlag == 1 then t.(count := t.count - 1, exitFlag := 0)
      else t
    else s
  }

  /** The exit half, the mirror image: with no flag set the exit flag is
      raised, with only the entry flag set a person has come in (the count
      goes up and the entry flag is dropped). */
  function ExitHalf(s: State, broken: bool): (r: State)
    ensures Valid(s) ==> Valid(r)
    ensures s.count <= r.count <= s.count + 1
    ensures r.entryLatch == s.entryLatch
    ensures r.exitFlag != s.exitFlag ==> !broken && s.exitLatch == 1
  {
    if broken then
      if s.exitLatch == 0 then s.(exitLatch := 1) else s
    else if s.exitLatch == 1 then
      var t := s.(exitLatch := 0);
      if t.entryFlag == 0 && t.exitFlag == 0 then t.(exitFlag := 1)
      else if t.entryFlag == 1 && t.exitFlag == 0 then t.(count := t.count + 1, entryFlag := 0)
      else t
    else s
  }

  /** One invocation of the handler: the entry half, then the exit half on
      the state the entry half left.  It keeps `Valid` and moves the count by
      at most one. */
  function Step(s: State, x: Sample): (r: State)
    ensures Valid(s) ==> Valid(r)
    ensures -1 <= r.count - s.count <= 1
  {
    ExitHalf(EntryHalf(s, x.entryBroken), x.exitBroken)
  }

  /** The handler invoked once per sample, in order. */
  function Run(s: State, xs: seq<Sample>): State
    decreases |xs|
  {
    if xs == [] then s else Run(Step(s, xs[0]), xs[1..])
  }

  lemma {:induction false} RunAppend(s: State, xs: seq<Sample>, ys: seq<Sample>)
    ensures Run(s, xs + ys) == Run(Run(s, xs), ys)
    decreases |xs|
  {
    if xs != [] {
      assert (xs + ys)[0] == xs[0];
      assert (xs + ys)[1..] == xs[1..] + ys;
      RunAppend(Step(s, xs[0]), xs[1..], ys);
    } else {
      assert xs + ys == ys;
    }
  }

  /** Every state the handler reaches from a valid one is valid; in
      particular every state reached from power-on. */
  lemma {:induction false} RunPreservesValid(s: State, xs: seq<Sample>)
    requires Valid(s)
    ensures Valid(Run(s, xs))
    decreases |xs|
  {
    if xs != [] {
      RunPreservesValid(Step(s, xs[0]), xs[1..]);
    }
  }

  /** After `n` invocations the count is within `n` of where it started. */
  lemma {:induction false} RunCountBound(s: State, xs: seq<Sample>)
    ensures s.count - |xs| <= Run(s, xs).count <= s.count + |xs|
    decreases |xs|
  {
    if xs != [] {
      RunCountBound(Step(s, xs[0]), xs[1..]);
    }
  }

  /*** Single invocations ***/

  /** Entry beam broken with the latch clear: the entry half sets the latch
      and leaves the flags and the count alone. */
  lemma EntryBreakLatches(s: State)
    requires s.entryLatch == 0
    ensures EntryHalf(s, true) == s.(entryLatch := 1)
  {
  }

  /** Entry beam clear again with the latch set and no flag set: the latch is
      cleared and the entry flag raised. */
  lemma EntryClearRaisesFlag(s: State)
    requires s.entryLatch == 1 && s.entryFlag == 0 && s.exitFlag == 0
    ensures EntryHalf(s, false) == s.(entryLatch := 0, entryFlag := 1)
  {
  }

  /** Entry completion while the exit flag is set: one person has left. */
  lemma EntryClearCountsOut(s: State)
    requires s.entryLatch == 1 && s.entryFlag == 0 && s.exitFlag == 1
    ensures EntryHalf(s, false) == s.(entryLatch := 0, exitFlag := 0, count := s.count - 1)
  {
  }

  /** Exit completion while the entry flag is set: one person has come in. */
  lemma ExitClearCountsIn(s: State)
    requires s.exitLatch == 1 && s.entryFlag == 1 && s.exitFlag == 0
    ensures ExitHalf(s, false) == s.(exitLatch := 0, entryFlag := 0, count := s.count + 1)
  {
  }

  /** Exit beam broken with the latch clear: the exit half sets the latch
      and leaves the flags and the count alone. */
  lemma ExitBreakLatches(s: State)
    requires s.exitLatch == 0
    ensures ExitHalf(s, true) == s.(exitLatch := 1)
  {
  }

  /** Exit beam clear again with the latch set and no flag set: the latch is
      cleared and the exit flag raised. */
  lemma ExitClearRaisesFlag(s: State)
    requires s.exitLatch == 1 && s.entryFlag == 0 && s.exitFlag == 0
    ensures ExitHalf(s, false) == s.(exitLatch := 0, exitFlag := 1)
  {
  }

  /** A second entry completion while the entry flag is already set changes
      neither the flags nor the count; only the latch is cleared. */
  lemma RepeatedEntryIgnored(s: State)
    requires s.entryLatch == 1 && s.entryFlag == 1
    ensures EntryHalf(s, false) == s.(entryLatch := 0)
  {
  }

  /** A second exit completion while the exit flag is already set changes
      neither the flags nor the count; only the latch is cleared. */
  lemma RepeatedExitIgnored(s: State)
    requires s.exitLatch == 1 && s.exitFlag == 1
    ensures ExitHalf(s, false) == s.(exitLatch := 0)
  {
  }

  /** Exactly when one invocation lowers and raises the count.  The exit half
      sees the entry flag the entry half has just raised, so an entry and an
      exit completing in the same invocation count one person in. */
  lemma StepCountChange(s: State, x: Sample)
    requires Valid(s)
    ensures Step(s, x).count == s.count - 1 <==>
      !x.entryBroken && s.entryLatch == 1 && s.entryFlag == 0 && s.exitFlag == 1
    ensures Step(s, x).count == s.count + 1 <==>
      !x.exitBroken && s.exitLatch == 1 &&
      ((s.entryFlag == 1 && s.exitFlag == 0) ||
       (!x.entryBroken && s.entryLatch == 1 && s.entryFlag == 0 && s.exitFlag == 0))
  {
  }

  /** Both beams clearing in the same invocation with both latches set and
      no flag set: the person is counted in. */
  lemma SimultaneousClearCountsIn(s: State)
    requires s.entryLatch == 1 && s.exitLatch == 1 && s.entryFlag == 0 && s.exitFlag == 0
    ensures Step(s, Sample(false, false)) == s.(entryLatch := 0, exitLatch := 0, count := s.count + 1)
  {
  }

  /*** Walks through the doorway ***/

  datatype Pass = Inward | Outward

  /** The samples a person produces walking through the doorway, breaking
      and clearing one beam before the other: outside beam first when
      coming in, inside beam first when going out. */
  function Samples(p: Pass): seq<Sample> {
    match p
    case Inward => [Sample(true, false), Sample(false, false), Sample(false, true), Sample(false, false)]
    case Outward => [Sample(false, true), Sample(false, false), Sample(true, false), Sample(false, false)]
  }

  function Walk(ps: seq<Pass>): seq<Sample>
    decreases |ps|
  {
    if ps == [] then [] else Samples(ps[0]) + Walk(ps[1..])
  }

  /** People in minus people out. */
  function Net(ps: seq<Pass>): int
    decreases |ps|
  {
    if ps == [] then 0 else (if ps[0] == Inward then 1 else -1) + Net(ps[1..])
  }

  lemma RunFour(s: State, xs: seq<Sample>)
    requires |xs| == 4
    ensures Run(s, xs) == Step(Step(Step(Step(s, xs[0]), xs[1]), xs[2]), xs[3])
  {
    var s1 := Step(s, xs[0]);
    var s2 := Step(s1, xs[1]);
    var s3 := Step(s2, xs[2]);
    assert xs[1..][0] == xs[1] && xs[1..][1..] == xs[2..];
    assert xs[2..][0] == xs[2] && xs[2..][1..] == xs[3..];
    assert xs[3..][0] == xs[3] && xs[3..][1..] == [];
    assert Run(s3, xs[3..]) == Step(s3, xs[3]);
    assert Run(s2, xs[2..]) == Run(s3, xs[3..]);
    assert Run(s1, xs[1..]) == Run(s2, xs[2..]);
  }

  /** One pass from rest moves the count by one in its direction and leaves
      the detector at rest again. */
  lemma PassCounts(s: State, p: Pass)
    requires AtRest(s)
    ensures Run(s, Samples(p)) == s.(count := s.count + (if p == Inward then 1 else -1))
  {
    RunFour(s, Samples(p));
  }

  /** A walk from rest ends at rest, with the count moved by the number of
      people in minus the number of people out: going in then out (or out
      then in) leaves the count where it was. */
  lemma {:induction false} WalkCounts(s: State, ps: seq<Pass>)
    requires AtRest(s)
    ensures Run(s, Walk(ps)) == s.(count := s.count + Net(ps))
    decreases |ps|
  {
    if ps != [] {
      RunAppend(s, Samples(ps[0]), Walk(ps[1..]));
      PassCounts(s, ps[0]);
      WalkCounts(Run(s, Samples(ps[0])), ps[1..]);
    }
  }

  /** The same person breaking both beams at once on the way in is still
      counted once. */
  lemma OverlappingInwardCounts(s: State)
    requires AtRest(s)
    ensures Run(s, [Sample(true, false), Sample(true, true), Sample(false, true), Sample(false, false)])
            == s.(count := s.count + 1)
  {
    RunFour(s, [Sample(true, false), Sample(true, true), Sample(false, true), Sample(false, false)]);
  }

  /** Passing the entry beam twice with no exit in between counts nobody:
      the second completion finds the entry flag set and leaves it set. */
  lemma DoubleEntryIgnored(s: State)
    requires AtRest(s)
    ensures Run(s, [Sample(true, false), Sample(false, false), Sample(true, false), Sample(false, false)])
            == s.(entryFlag := 1)
  {
    RunFour(s, [Sample(true, false), Sample(false, false), Sample(true, false), Sample(false, false)]);
  }

  /** A walk with as many people in as out leaves the count where it was. */
  lemma BalancedWalkKeepsCount(s: State, ps: seq<Pass>)
    requires AtRest(s) && Net(ps) == 0
    ensures Run(s, Walk(ps)).count == s.count
  {
    WalkCounts(s, ps);
  }

  /*** The handler on the globals ***/

  /** The globals the handler shares with the main loop. */
  class Counter {
    var entryLatch: uint8
    var exitLatch: uint8
    var entryFlag: uint8
    var exitFlag: uint8
    var count: int

    function Snapshot(): State
      reads this
    {
      State(entryLatch, exitLatch, entryFlag, exitFlag, count)
    }

    /** The globals at power-on. */
    constructor ()
      ensures Snapshot() == Initial
    {
      entryLatch, exitLatch, entryFlag, exitFlag, count := 0, 0, 0, 0, 0;
    }

    /** `ISR(PCINT2_vect)` after its debounce delay, given the value read
        from the sensor port. */
    method Isr(pind: bv8)
      modifies this
      ensures Snapshot() == Step(old(Snapshot()), SampleOf(pind))
    {
      // entry sensor
      if !TestBit(pind, EntrySensePin) {
        if entryLatch == 0 {
          entryLatch := 1;
        }
      } else if entryLatch == 1 {
        entryLatch := 0;
        if entryFlag == 0 && exitFlag == 0 {
          entryFlag := 1;
        } else if entryFlag == 0 && exitFlag == 1 {
          count := count - 1;
          exitFlag := 0;
        }
      }
      // exit sensor
      if !TestBit(pind, ExitSensePin) {
        if exitLatch == 0 {
          exitLatch := 1;
        }
      } else if exitLatch == 1 {
        exitLatch := 0;
        if entryFlag == 0 && exitFlag == 0 {
          exitFlag := 1;
        } else if entryFlag == 1 && exitFlag == 0 {
          count := count + 1;
          entryFlag := 0;
        }
      }
    }
  }
}
