/** The character-display driver: a 4-bit bus on the upper half of one port
    (D4..D7 on bits 4..7), a register-select line RS and an enable line E on
    the lower half.  Each byte goes out as two nibbles, high nibble first, and
    the display latches a nibble, together with the level of RS, when E falls. */
module LcdDriver {
  import opened Ports

  /** The `lcd` struct: pin numbers and pointers to the PORT and DDR registers.
      The data pins d4..d7 are only used to configure the DDR; the transfers
      always put the nibble on bits 4..7. */
  datatype Lcd = Lcd(d4: PinIndex, d5: PinIndex, d6: PinIndex, d7: PinIndex,
                     rs: PinIndex, e: PinIndex, port: Register, ddr: Register)

  /** One byte sent to the display: to the instruction register (RS low) or to
      the data register (RS high). */
  datatype Transfer = Command(byte: bv8) | Char(byte: bv8)

  /** What the display samples at one falling edge of E: the RS level and the
      nibble on D4..D7. */
  datatype Latch = Latch(rs: bool, nibble: bv8)

  /*** Port arithmetic ***/

  /** One store the driver makes to the display's port, as a function of the
      value the port holds: the byte's high nibble or low nibble onto bits
      4..7 (bits 0..3 kept), or one pin raised or lowered. */
  datatype Store = PutHigh(byte: bv8) | PutLow(byte: bv8) | Raise(pin: PinIndex) | Lower(pin: PinIndex)

  function Apply(v: bv8, s: Store): (r: bv8)
    ensures s.PutHigh? ==> r & 0x0F == v & 0x0F && r >> 4 == s.byte >> 4
    ensures s.PutLow? ==> r & 0x0F == v & 0x0F && r >> 4 == s.byte & 0x0F
    ensures s.Raise? ==> r == SetBit(v, s.pin)
    ensures s.Lower? ==> r == ClearBit(v, s.pin)
  {
    match s
    case PutHigh(b) => (v & 0x0F) | (b & 0xF0)
    case PutLow(b) => (v & 0x0F) | (b << 4)
    case Raise(p) => SetBit(v, p)
    case Lower(p) => ClearBit(v, p)
  }

  /** The values the port takes when the stores `ss` are made, starting from `v`. */
  function Perform(v: bv8, ss: seq<Store>): (ws: seq<bv8>)
    ensures |ws| == |ss|
    decreases |ss|
  {
    if ss == [] then [] else var x := Apply(v, ss[0]); [x] + Perform(x, ss[1..])
  }

  /** The stores of `LCD_Write_Command` (for a `Command`) or `LCD_Write_Char`
      (for a `Char`): high nibble, RS, an E pulse, low nibble, an E pulse. */
  function TransferStores(t: Transfer, rs: PinIndex, e: PinIndex): seq<Store> {
    [PutHigh(t.byte), if t.Char? then Raise(rs) else Lower(rs), Raise(e), Lower(e),
     PutLow(t.byte), Raise(e), Lower(e)]
  }

  function StoresOf(ts: seq<Transfer>, rs: PinIndex, e: PinIndex): (ss: seq<Store>)
    ensures |ss| == 7 * |ts|
  {
    if ts == [] then [] else TransferStores(ts[0], rs, e) + StoresOf(ts[1..], rs, e)
  }

  /** The value a register holds after the stores `ws`, starting from `p`. */
  function Settled(p: bv8, ws: seq<bv8>): bv8 {
    if ws == [] then p else ws[|ws| - 1]
  }

  /** All port values of the transfers `ts`, in order, starting from port value `p`. */
  function Writes(p: bv8, ts: seq<Transfer>, rs: PinIndex, e: PinIndex): seq<bv8> {
    Perform(p, StoresOf(ts, rs, e))
  }

  /** Port value after the transfers `ts`. */
  function Final(p: bv8, ts: seq<Transfer>, rs: PinIndex, e: PinIndex): bv8 {
    Settled(p, Writes(p, ts, rs, e))
  }

  lemma PerformCons(v: bv8, s: Store, ss: seq<Store>)
    ensures Perform(v, [s] + ss) == [Apply(v, s)] + Perform(Apply(v, s), ss)
  {
    assert ([s] + ss)[1..] == ss;
  }

  /** The stores of a transfer, peeled off one at a time. */
  lemma TransferStoresSplit(t: Transfer, rs: PinIndex, e: PinIndex)
    ensures var ss := TransferStores(t, rs, e);
      && [ss[6]] == ss[6..]
      && [ss[5]] + ss[6..] == ss[5..]
      && [ss[4]] + ss[5..] == ss[4..]
      && [ss[3]] + ss[4..] == ss[3..]
      && [ss[2]] + ss[3..] == ss[2..]
      && [ss[1]] + ss[2..] == ss[1..]
      && [ss[0]] + ss[1..] == ss
  {
  }

  /** What one transfer does to the port: the first store keeps bits 0..3 and
      puts the byte's high nibble on bits 4..7; RS is then lowered for a
      command and raised for a character; E is raised and lowered again; the
      next store keeps bits 0..3 and puts the low nibble on bits 4..7; E is
      raised and lowered again, so E is low when the transfer ends. */
  lemma TransferPortValues(p: bv8, t: Transfer, rs: PinIndex, e: PinIndex)
    ensures
      var w := Perform(p, TransferStores(t, rs, e));
      && w[0] & 0x0F == p & 0x0F && w[0] >> 4 == t.byte >> 4
      && TestBit(w[1], rs) == t.Char?
      && TestBit(w[2], e) && !TestBit(w[3], e)
      && w[4] & 0x0F == w[3] & 0x0F && w[4] >> 4 == t.byte & 0x0F
      && TestBit(w[5], e) && !TestBit(w[6], e)
  {
    var ss := TransferStores(t, rs, e);
    TransferStoresSplit(t, rs, e);
    var v0 := Apply(p, ss[0]);
    var v1 := Apply(v0, ss[1]);
    var v2 := Apply(v1, ss[2]);
    var v3 := Apply(v2, ss[3]);
    var v4 := Apply(v3, ss[4]);
    var v5 := Apply(v4, ss[5]);
    PerformCons(v5, ss[6], []);
    PerformCons(v4, ss[5], ss[6..]);
    PerformCons(v3, ss[4], ss[5..]);
    PerformCons(v2, ss[3], ss[4..]);
    PerformCons(v1, ss[2], ss[3..]);
    PerformCons(v0, ss[1], ss[2..]);
    PerformCons(p, ss[0], ss[1..]);
    var w := Perform(p, ss);
    assert w[0] == v0 && w[1] == v1 && w[2] == v2 && w[3] == v3;
    assert w[4] == v4 && w[5] == v5;
  }

  /** Sending `a` then `b` stores exactly what sending `a + b` stores. */
  lemma {:induction false} PerformAppend(v: bv8, a: seq<Store>, b: seq<Store>)
    ensures Perform(v, a + b) == Perform(v, a) + Perform(Settled(v, Perform(v, a)), b)
    decreases |a|
  {
    if a == [] {
      assert a + b == b;
    } else {
      var x := Apply(v, a[0]);
      assert (a + b)[0] == a[0];
      assert (a + b)[1..] == a[1..] + b;
      PerformAppend(x, a[1..], b);
      assert Settled(v, Perform(v, a)) == Settled(x, Perform(x, a[1..]));
    }
  }

  lemma {:induction false} StoresOfAppend(a: seq<Transfer>, b: seq<Transfer>, rs: PinIndex, e: PinIndex)
    ensures StoresOf(a + b, rs, e) == StoresOf(a, rs, e) + StoresOf(b, rs, e)
    decreases |a|
  {
    if a == [] {
      assert a + b == b;
    } else {
      assert (a + b)[0] == a[0];
      assert (a + b)[1..] == a[1..] + b;
      StoresOfAppend(a[1..], b, rs, e);
    }
  }

  lemma SettledAppend(p: bv8, a: seq<bv8>, b: seq<bv8>)
    ensures Settled(p, a + b) == Settled(Settled(p, a), b)
  {
  }

  /** Sending `a` then `b` makes the same port writes as sending `a + b`. */
  lemma WritesAppend(p: bv8, a: seq<Transfer>, b: seq<Transfer>, rs: PinIndex, e: PinIndex)
    ensures Writes(p, a + b, rs, e) == Writes(p, a, rs, e) + Writes(Final(p, a, rs, e), b, rs, e)
    ensures Final(p, a + b, rs, e) == Final(Final(p, a, rs, e), b, rs, e)
  {
    StoresOfAppend(a, b, rs, e);
    PerformAppend(p, StoresOf(a, rs, e), StoresOf(b, rs, e));
    SettledAppend(p, Writes(p, a, rs, e), Writes(Final(p, a, rs, e), b, rs, e));
  }

  /*** What the display sees ***/

  /** The latch taken when the port goes from `prev` to `next`: one exactly
      when E falls. */
  function Edge(prev: bv8, next: bv8, rs: PinIndex, e: PinIndex): seq<Latch> {
    if TestBit(prev, e) && !TestBit(next, e) then [Latch(TestBit(next, rs), next >> 4)] else []
  }

  /** Every latch the display takes while the port, initially `prev`, receives
      the stores `ws`. */
  function Strobes(prev: bv8, ws: seq<bv8>, rs: PinIndex, e: PinIndex): seq<Latch>
    decreases |ws|
  {
    if ws == [] then [] else Edge(prev, ws[0], rs, e) + Strobes(ws[0], ws[1..], rs, e)
  }

  lemma {:induction false} StrobesAppend(prev: bv8, a: seq<bv8>, b: seq<bv8>, rs: PinIndex, e: PinIndex)
    ensures Strobes(prev, a + b, rs, e) == Strobes(prev, a, rs, e) + Strobes(Settled(prev, a), b, rs, e)
    decreases |a|
  {
    if a == [] {
      assert a + b == b;
    } else {
      assert (a + b)[0] == a[0];
      assert (a + b)[1..] == a[1..] + b;
      StrobesAppend(a[0], a[1..], b, rs, e);
      SettledAppend(prev, [a[0]], a[1..]);
      assert [a[0]] + a[1..] == a;
    }
  }

  /** The nibbles one transfer puts on the bus: high nibble first, both with
      the RS level of the transfer. */
  function NibblesOf(t: Transfer): seq<Latch> {
    [Latch(t.Char?, t.byte >> 4), Latch(t.Char?, t.byte & 0x0F)]
  }

  function Nibbles(ts: seq<Transfer>): (ls: seq<Latch>)
    ensures |ls| == 2 * |ts|
  {
    if ts == [] then [] else NibblesOf(ts[0]) + Nibbles(ts[1..])
  }

  /** RS and E are wired to two different pins of the lower half of the port
      (on the board, PB2 and PB3). */
  predicate ControlPinsLow(rs: PinIndex, e: PinIndex) {
    rs < 4 && e < 4 && rs != e
  }

  /** The board's wiring: RS on PB2, E on PB3. */
  const LcdRsPin: PinIndex := 2
  const LcdEPin: PinIndex := 3

  /** A store that keeps bits 0..3 keeps the level of RS and E. */
  lemma LowHalfKept(v: bv8, r: bv8, i: PinIndex)
    requires r & 0x0F == v & 0x0F && i < 4
    ensures TestBit(r, i) == TestBit(v, i)
  {
  }

  /** Raising or lowering RS or E keeps the nibble on bits 4..7. */
  lemma HighHalfKept(v: bv8, i: PinIndex)
    requires i < 4
    ensures SetBit(v, i) >> 4 == v >> 4 && ClearBit(v, i) >> 4 == v >> 4
  {
  }

  lemma StrobesCons(prev: bv8, x: bv8, xs: seq<bv8>, rs: PinIndex, e: PinIndex)
    ensures Strobes(prev, [x] + xs, rs, e) == Edge(prev, x, rs, e) + Strobes(x, xs, rs, e)
  {
    assert ([x] + xs)[1..] == xs;
  }

  lemma StrobesPerformCons(v: bv8, s: Store, ss: seq<Store>, rs: PinIndex, e: PinIndex)
    ensures Strobes(v, Perform(v, [s] + ss), rs, e)
         == Edge(v, Apply(v, s), rs, e) + Strobes(Apply(v, s), Perform(Apply(v, s), ss), rs, e)
  {
    PerformCons(v, s, ss);
    StrobesCons(v, Apply(v, s), Perform(Apply(v, s), ss), rs, e);
  }

  /** A nibble store does not move E, so the display latches nothing. */
  lemma NoEdgeOnNibble(v: bv8, s: Store, rs: PinIndex, e: PinIndex)
    requires (s.PutHigh? || s.PutLow?) && e < 4
    ensures Edge(v, Apply(v, s), rs, e) == []
  {
    LowHalfKept(v, Apply(v, s), e);
  }

  /** Moving a pin other than E, or raising E, latches nothing. */
  lemma NoEdgeOnPin(v: bv8, s: Store, rs: PinIndex, e: PinIndex)
    requires (s.Raise? || s.Lower?) && (s.pin != e || s.Raise?)
    ensures Edge(v, Apply(v, s), rs, e) == []
  {
  }

  /** Lowering a raised E latches RS and bits 4..7. */
  lemma EdgeOnLowerE(v: bv8, rs: PinIndex, e: PinIndex)
    requires TestBit(v, e) && ControlPinsLow(rs, e)
    ensures Edge(v, Apply(v, Lower(e)), rs, e) == [Latch(TestBit(v, rs), v >> 4)]
  {
    HighHalfKept(v, e);
  }

  /** The port value after the first half of a transfer (high nibble, RS,
      E pulse). */
  function AfterFirstHalf(p: bv8, t: Transfer, rs: PinIndex, e: PinIndex): bv8 {
    var ss := TransferStores(t, rs, e);
    Apply(Apply(Apply(Apply(p, ss[0]), ss[1]), ss[2]), ss[3])
  }

  /** The first half of a transfer latches the high nibble with the
      transfer's RS level. */
  lemma FirstNibbleLatched(p: bv8, t: Transfer, rs: PinIndex, e: PinIndex)
    requires ControlPinsLow(rs, e)
    ensures var v3 := AfterFirstHalf(p, t, rs, e);
      && Strobes(p, Perform(p, TransferStores(t, rs, e)), rs, e)
         == [Latch(t.Char?, t.byte >> 4)] + Strobes(v3, Perform(v3, TransferStores(t, rs, e)[4..]), rs, e)
      && TestBit(v3, rs) == t.Char?
  {
    var ss := TransferStores(t, rs, e);
    TransferStoresSplit(t, rs, e);
    var v0 := Apply(p, ss[0]);
    var v1 := Apply(v0, ss[1]);
    var v2 := Apply(v1, ss[2]);
    StrobesPerformCons(v2, ss[3], ss[4..], rs, e);
    StrobesPerformCons(v1, ss[2], ss[3..], rs, e);
    StrobesPerformCons(v0, ss[1], ss[2..], rs, e);
    StrobesPerformCons(p, ss[0], ss[1..], rs, e);
    NoEdgeOnNibble(p, ss[0], rs, e);
    NoEdgeOnPin(v0, ss[1], rs, e);
    NoEdgeOnPin(v1, ss[2], rs, e);
    HighHalfKept(v0, rs);
    HighHalfKept(v1, e);
    assert TestBit(v2, rs) == t.Char? && v2 >> 4 == t.byte >> 4;
    EdgeOnLowerE(v2, rs, e);
  }

  /** The second half of a transfer (low nibble, E pulse), started with RS at
      the transfer's level, latches the low nibble. */
  lemma SecondNibbleLatched(v3: bv8, t: Transfer, rs: PinIndex, e: PinIndex)
    requires ControlPinsLow(rs, e) && TestBit(v3, rs) == t.Char?
    ensures Strobes(v3, Perform(v3, TransferStores(t, rs, e)[4..]), rs, e) == [Latch(t.Char?, t.byte & 0x0F)]
  {
    var ss := TransferStores(t, rs, e);
    TransferStoresSplit(t, rs, e);
    var v4 := Apply(v3, ss[4]);
    var v5 := Apply(v4, ss[5]);
    StrobesPerformCons(v5, ss[6], [], rs, e);
    StrobesPerformCons(v4, ss[5], ss[6..], rs, e);
    StrobesPerformCons(v3, ss[4], ss[5..], rs, e);
    NoEdgeOnNibble(v3, ss[4], rs, e);
    NoEdgeOnPin(v4, ss[5], rs, e);
    LowHalfKept(v3, v4, rs);
    HighHalfKept(v4, e);
    assert TestBit(v5, rs) == t.Char? && v5 >> 4 == t.byte & 0x0F;
    EdgeOnLowerE(v5, rs, e);
  }

  /** One transfer makes the display latch exactly its two nibbles, in order,
      whatever the port held before. */
  lemma TransferLatches(p: bv8, t: Transfer, rs: PinIndex, e: PinIndex)
    requires ControlPinsLow(rs, e)
    ensures Strobes(p, Perform(p, TransferStores(t, rs, e)), rs, e) == NibblesOf(t)
  {
    FirstNibbleLatched(p, t, rs, e);
    SecondNibbleLatched(AfterFirstHalf(p, t, rs, e), t, rs, e);
  }

  /** Whatever the port held before, a sequence of transfers makes the
      display latch exactly their nibbles, in order. */
  lemma {:induction false} BusCarriesNibbles(p: bv8, ts: seq<Transfer>, rs: PinIndex, e: PinIndex)
    requires ControlPinsLow(rs, e)
    ensures Strobes(p, Writes(p, ts, rs, e), rs, e) == Nibbles(ts)
    decreases |ts|
  {
    if ts != [] {
      var w := Perform(p, TransferStores(ts[0], rs, e));
      PerformAppend(p, TransferStores(ts[0], rs, e), StoresOf(ts[1..], rs, e));
      StrobesAppend(p, w, Writes(Settled(p, w), ts[1..], rs, e), rs, e);
      TransferLatches(p, ts[0], rs, e);
      BusCarriesNibbles(Settled(p, w), ts[1..], rs, e);
    }
  }

  /** The display's 4-bit interface: two latched nibbles make one byte, high
      nibble first, sent to the register the first nibble's RS selects. */
  function Assemble(latches: seq<Latch>): seq<Transfer>
    decreases |latches|
  {
    if |latches| < 2 then []
    else
      var b := (latches[0].nibble << 4) | (latches[1].nibble & 0x0F);
      [if latches[0].rs then Char(b) else Command(b)] + Assemble(latches[2..])
  }

  /** Splitting bytes into nibbles and reassembling them gives the bytes back. */
  lemma {:induction false} AssembleNibbles(ts: seq<Transfer>)
    ensures Assemble(Nibbles(ts)) == ts
    decreases |ts|
  {
    if ts != [] {
      var ls := Nibbles(ts);
      assert ls[..2] == NibblesOf(ts[0]);
      assert ls[2..] == Nibbles(ts[1..]);
      var b := ts[0].byte;
      assert ((b >> 4) << 4) | ((b & 0x0F) & 0x0F) == b;
      AssembleNibbles(ts[1..]);
      assert ts == [ts[0]] + ts[1..];
    }
  }

  /** What the display receives is exactly the transfers the driver sent. */
  lemma DisplayReceives(p: bv8, ts: seq<Transfer>, rs: PinIndex, e: PinIndex)
    requires ControlPinsLow(rs, e)
    ensures Assemble(Strobes(p, Writes(p, ts, rs, e), rs, e)) == ts
  {
    BusCarriesNibbles(p, ts, rs, e);
    AssembleNibbles(ts);
  }

  /** On the board's wiring, what the display decodes is exactly what the
      driver sent. */
  lemma BoardDisplayReceives(p: bv8, ts: seq<Transfer>)
    ensures Assemble(Strobes(p, Writes(p, ts, LcdRsPin, LcdEPin), LcdRsPin, LcdEPin)) == ts
  {
    DisplayReceives(p, ts, LcdRsPin, LcdEPin);
  }

  /*** Strings and positioning ***/

  /** The characters of a C string held in `s`: those before the first NUL
      (all of `s` if it holds none). */
  function CString(s: seq<bv8>): (r: seq<bv8>)
    ensures r <= s
    ensures 0 !in r
    ensures |r| < |s| ==> s[|r|] == 0
  {
    if s == [] || s[0] == 0 then [] else [s[0]] + CString(s[1..])
  }

  /** The NUL-free prefix ending at a NUL (or at the end) is the C string. */
  lemma {:induction false} CStringIsPrefixBeforeNul(s: seq<bv8>, i: nat)
    requires i <= |s| && 0 !in s[..i]
    requires i < |s| ==> s[i] == 0
    ensures CString(s) == s[..i]
  {
    if i > 0 {
      assert s[0] == s[..i][0];
      assert s[1..][..i - 1] == s[..i][1..];
      CStringIsPrefixBeforeNul(s[1..], i - 1);
      assert s[..i] == [s[0]] + s[1..][..i - 1];
    }
  }

  function Chars(s: seq<bv8>): (ts: seq<Transfer>)
    ensures |ts| == |s|
  {
    seq(|s|, i requires 0 <= i < |s| => Char(s[i]))
  }

  /** The positioning command `LCD_Write_String_XY` sends before the text:
      a set-DDRAM-address command (bit 7 set) for address `0x40 * row + pos`
      when the row is 0 or 1 and the column is below 16, and none otherwise. */
  function Position(row: bv8, pos: bv8): (r: seq<Transfer>)
    ensures |r| <= 1
    ensures r != [] <==> (row == 0 || row == 1) && pos < 16
    ensures r != [] ==> r[0].Command? && r[0].byte & 0x80 == 0x80
    ensures r != [] ==> (r[0].byte & 0x7F) as int == 0x40 * row as int + pos as int
  {
    if row == 0 && pos < 16 then [Command((pos & 0x0F) | 0x80)]
    else if row == 1 && pos < 16 then [Command((pos & 0x0F) | 0xC0)]
    else []
  }

  /** The commands of `LCD_Init`, in order. */
  const InitSequence: seq<Transfer> :=
    [Command(0x03), Command(0x03), Command(0x03), Command(0x02), Command(0x02),
     Command(0x28), Command(0x0C), Command(0x06), Command(0x01)]

  /** The commands of `LCD_Clear`: clear display, then return home. */
  const ClearSequence: seq<Transfer> := [Command(0x01), Command(0x02)]

  /*** The driver ***/

  /** The display's port received exactly the stores of `ts`, starting from
      value `p0` with history `w0`. */
  ghost predicate Issued(display: Lcd, p0: bv8, w0: seq<bv8>, ts: seq<Transfer>)
    reads display.port
  {
    display.port.writes == w0 + Writes(p0, ts, display.rs, display.e) &&
    display.port.value == Final(p0, ts, display.rs, display.e)
  }

  /** Issuing `ts` and then `us` is issuing `ts + us`. */
  lemma IssuedThen(display: Lcd, p0: bv8, w0: seq<bv8>, ts: seq<Transfer>,
                   p1: bv8, w1: seq<bv8>, us: seq<Transfer>)
    requires p1 == Final(p0, ts, display.rs, display.e)
    requires w1 == w0 + Writes(p0, ts, display.rs, display.e)
    requires Issued(display, p1, w1, us)
    ensures Issued(display, p0, w0, ts + us)
  {
    WritesAppend(p0, ts, us, display.rs, display.e);
  }

  /** The port received exactly the stores `ss`, starting from value `p0`
      with history `w0`. */
  ghost predicate Performed(port: Register, p0: bv8, w0: seq<bv8>, ss: seq<Store>)
    reads port
  {
    port.writes == w0 + Perform(p0, ss) && port.value == Settled(p0, Perform(p0, ss))
  }

  lemma PerformSnoc(v: bv8, ss: seq<Store>, s: Store)
    ensures Perform(v, ss + [s]) == Perform(v, ss) + [Apply(Settled(v, Perform(v, ss)), s)]
  {
    PerformAppend(v, ss, [s]);
    assert [s][1..] == [];
  }

  /** One read-modify-write `s` of the port, after the stores `done`. */
  method Put(port: Register, ghost p0: bv8, ghost w0: seq<bv8>, ghost done: seq<Store>, s: Store)
    requires Performed(port, p0, w0, done)
    modifies port
    ensures Performed(port, p0, w0, done + [s])
  {
    port.Write(Apply(port.value, s));
    PerformSnoc(p0, done, s);
  }

  lemma IssuedOne(display: Lcd, p0: bv8, w0: seq<bv8>, t: Transfer)
    requires Performed(display.port, p0, w0, TransferStores(t, display.rs, display.e))
    ensures Issued(display, p0, w0, [t])
  {
    assert [t][1..] == [];
    assert StoresOf([t], display.rs, display.e) == TransferStores(t, display.rs, display.e) + [];
    assert StoresOf([t], display.rs, display.e) == TransferStores(t, display.rs, display.e);
  }

  /** `LCD_Write_Command`. */
  method WriteCommand(display: Lcd, command: bv8)
    modifies display.port
    ensures Issued(display, old(display.port.value), old(display.port.writes), [Command(command)])
  {
    var port, rs, e := display.port, display.rs, display.e;
    ghost var p0, w0, done := port.value, port.writes, [];
    assert w0 + Perform(p0, done) == w0;
    Put(port, p0, w0, done, PutHigh(command));  // high nibble
    done := done + [PutHigh(command)];
    Put(port, p0, w0, done, Lower(rs));  // RS = 0
    done := done + [Lower(rs)];
    Put(port, p0, w0, done, Raise(e));  // E high
    done := done + [Raise(e)];
    Put(port, p0, w0, done, Lower(e));  // E low
    done := done + [Lower(e)];
    Put(port, p0, w0, done, PutLow(command));  // low nibble
    done := done + [PutLow(command)];
    Put(port, p0, w0, done, Raise(e));  // E high
    done := done + [Raise(e)];
    Put(port, p0, w0, done, Lower(e));  // E low
    done := done + [Lower(e)];
    assert done == TransferStores(Command(command), rs, e);
    IssuedOne(display, p0, w0, Command(command));
  }

  /** `LCD_Write_Char`. */
  method WriteChar(display: Lcd, data: bv8)
    modifies display.port
    ensures Issued(display, old(display.port.value), old(display.port.writes), [Char(data)])
  {
    var port, rs, e := display.port, display.rs, display.e;
    ghost var p0, w0, done := port.value, port.writes, [];
    assert w0 + Perform(p0, done) == w0;
    Put(port, p0, w0, done, PutHigh(data));  // high nibble
    done := done + [PutHigh(data)];
    Put(port, p0, w0, done, Raise(rs));  // RS = 1
    done := done + [Raise(rs)];
    Put(port, p0, w0, done, Raise(e));  // E high
    done := done + [Raise(e)];
    Put(port, p0, w0, done, Lower(e));  // E low
    done := done + [Lower(e)];
    Put(port, p0, w0, done, PutLow(data));  // low nibble
    done := done + [PutLow(data)];
    Put(port, p0, w0, done, Raise(e));  // E high
    done := done + [Raise(e)];
    Put(port, p0, w0, done, Lower(e));  // E low
    done := done + [Lower(e)];
    assert done == TransferStores(Char(data), rs, e);
    IssuedOne(display, p0, w0, Char(data));
  }

  /** The first four commands of `LCD_Init`: the wake-up sequence that
      puts the controller into 4-bit mode. */
  method WakeUp(display: Lcd)
    modifies display.port
    ensures Issued(display, old(display.port.value), old(display.port.writes), InitSequence[..4])
  {
    ghost var p0, w0 := display.port.value, display.port.writes;
    WriteCommand(display, 0x03);
    ghost var sent := [Command(0x03)];
    WriteCommands(display, p0, w0, sent, 0x03);
    sent := sent + [Command(0x03)];
    WriteCommands(display, p0, w0, sent, 0x03);
    sent := sent + [Command(0x03)];
    WriteCommands(display, p0, w0, sent, 0x02);
    sent := sent + [Command(0x02)];
    assert sent == InitSequence[..4];
  }

  /** `LCD_Init`: configures the six display pins as outputs (the DDR is
      assigned, not or-ed), then sends the power-on command sequence. */
  method Init(display: Lcd)
    requires display.port != display.ddr
    modifies display.port, display.ddr
    ensures display.ddr.value ==
      Bit(display.d4) | Bit(display.d5) | Bit(display.d6) | Bit(display.d7) | Bit(display.rs) | Bit(display.e)
    ensures Issued(display, old(display.port.value), old(display.port.writes), InitSequence)
  {
    display.ddr.Write(Bit(display.d4) | Bit(display.d5) | Bit(display.d6) | Bit(display.d7) | Bit(display.rs) | Bit(display.e));
    ghost var p0, w0 := display.port.value, display.port.writes;
    WakeUp(display);
    ghost var sent := InitSequence[..4];
    WriteCommands(display, p0, w0, sent, 0x02);
    sent := sent + [Command(0x02)];
    WriteCommands(display, p0, w0, sent, 0x28);
    sent := sent + [Command(0x28)];
    WriteCommands(display, p0, w0, sent, 0x0C);
    sent := sent + [Command(0x0C)];
    WriteCommands(display, p0, w0, sent, 0x06);
    sent := sent + [Command(0x06)];
    WriteCommands(display, p0, w0, sent, 0x01);
    sent := sent + [Command(0x01)];
    assert sent == InitSequence;
  }

  /** Sends one more command after the transfers `ts` already issued. */
  method WriteCommands(display: Lcd, ghost p0: bv8, ghost w0: seq<bv8>, ghost ts: seq<Transfer>, command: bv8)
    requires Issued(display, p0, w0, ts)
    modifies display.port
    ensures Issued(display, p0, w0, ts + [Command(command)])
  {
    ghost var p1, w1 := display.port.value, display.port.writes;
    WriteCommand(display, command);
    IssuedThen(display, p0, w0, ts, p1, w1, [Command(command)]);
  }

  /** `LCD_Write_String`: one character transfer per character before the
      first NUL, in order. */
  method WriteString(display: Lcd, data: seq<bv8>)
    modifies display.port
    ensures Issued(display, old(display.port.value), old(display.port.writes), Chars(CString(data)))
  {
    ghost var p0, w0 := display.port.value, display.port.writes;
    var i := 0;
    assert Writes(p0, [], display.rs, display.e) == [];
    while i < |data| && data[i] != 0
      invariant i <= |data| && 0 !in data[..i]
      invariant Issued(display, p0, w0, Chars(data[..i]))
    {
      ghost var p1, w1 := display.port.value, display.port.writes;
      WriteChar(display, data[i]);
      IssuedThen(display, p0, w0, Chars(data[..i]), p1, w1, [Char(data[i])]);
      assert Chars(data[..i]) + [Char(data[i])] == Chars(data[..i + 1]);
      assert data[..i + 1] == data[..i] + [data[i]];
      i := i + 1;
    }
    CStringIsPrefixBeforeNul(data, i);
  }

  /** `LCD_Write_String_XY`: the positioning command, if any, then the string. */
  method WriteStringAt(display: Lcd, row: bv8, pos: bv8, data: seq<bv8>)
    modifies display.port
    ensures Issued(display, old(display.port.value), old(display.port.writes),
                   Position(row, pos) + Chars(CString(data)))
  {
    ghost var p0, w0 := display.port.value, display.port.writes;
    if row == 0 && pos < 16 {
      WriteCommand(display, (pos & 0x0F) | 0x80);
    } else if row == 1 && pos < 16 {
      WriteCommand(display, (pos & 0x0F) | 0xC0);
    } else {
      assert Writes(p0, [], display.rs, display.e) == [];
    }
    ghost var p1, w1 := display.port.value, display.port.writes;
    WriteString(display, data);
    IssuedThen(display, p0, w0, Position(row, pos), p1, w1, Chars(CString(data)));
  }

  /** `LCD_Clear`. */
  method Clear(display: Lcd)
    modifies display.port
    ensures Issued(display, old(display.port.value), old(display.port.writes), ClearSequence)
  {
    ghost var p0, w0 := display.port.value, display.port.writes;
    WriteCommand(display, 0x01);
    WriteCommands(display, p0, w0, [Command(0x01)], 0x02);
  }
}
