/** The firmware's main program: start-up of the lamps, relay and display,
    and the endless loop that shows the people count and drives the lamps and
    the relay from it. */
module Firmware {
  import opened Ports
  import opened Indicators
  import opened LcdDriver
  import opened Detector

  /*** The loop's decisions ***/

  /** The loop's guard against a negative count: a negative count becomes 0,
      any other count is kept. */
  function Clamp(n: int): (r: int)
    ensures r >= 0
    ensures n >= 0 ==> r == n
    ensures n < 0 ==> r == 0
  {
    if n < 0 then 0 else n
  }

  /** Clamping twice is clamping once. */
  lemma ClampIdempotent(n: int)
    ensures Clamp(Clamp(n)) == Clamp(n)
  {
  }

  /** The levels of the two lamps and the relay. */
  datatype Indication = Indication(led1: bool, led2: bool, relay: bool)

  /** Somebody inside: lamp 1 on, lamp 2 and the relay off.  Nobody inside:
      lamp 1 off, lamp 2 and the relay on. */
  function Outputs(count: int): (o: Indication)
    ensures o.led1 <==> count > 0
    ensures o.led2 == !o.led1
    ensures o.relay == o.led2
  {
    if count > 0 then Indication(true, false, false) else Indication(false, true, true)
  }

  /** Clamping never changes what the lamps and the relay show. */
  lemma OutputsIgnoreClamp(n: int)
    ensures Outputs(Clamp(n)) == Outputs(n)
  {
  }

  /*** The count as text ***/

  /** The ASCII digit of `d`. */
  function Digit(d: nat): (c: bv8)
    requires d < 10
    ensures 0x30 <= c <= 0x39
  {
    (0x30 + d) as bv8
  }

  predicate IsDigit(c: bv8) {
    0x30 <= c <= 0x39
  }

  /** `%d` of a non-negative number: its decimal digits, most significant
      first, without leading zeros. */
  function Decimal(n: nat): (r: seq<bv8>)
    ensures |r| >= 1
    ensures forall i :: 0 <= i < |r| ==> IsDigit(r[i])
    decreases n
  {
    if n < 10 then [Digit(n)] else Decimal(n / 10) + [Digit(n % 10)]
  }

  /** The value of a string of decimal digits. */
  function ParseDecimal(s: seq<bv8>): nat
    requires forall i :: 0 <= i < |s| ==> IsDigit(s[i])
    decreases |s|
  {
    if s == [] then 0
    else 10 * ParseDecimal(s[..|s| - 1]) + (s[|s| - 1] - 0x30) as nat
  }

  lemma DigitValue(d: nat)
    requires d < 10
    ensures (Digit(d) - 0x30) as nat == d
  {
  }

  /** The digits read back give the number. */
  lemma {:induction false} ParseDecimalInverts(n: nat)
    ensures ParseDecimal(Decimal(n)) == n
    decreases n
  {
    var r := Decimal(n);
    if n < 10 {
      assert r[..0] == [];
      DigitValue(n);
    } else {
      var q, d := n / 10, n % 10;
      assert r == Decimal(q) + [Digit(d)];
      assert r[..|r| - 1] == Decimal(q);
      ParseDecimalInverts(q);
      DigitValue(d);
      assert ParseDecimal(r) == 10 * q + d;
    }
  }

  function Pow10(k: nat): (r: nat)
    ensures r >= 1
  {
    if k == 0 then 1 else 10 * Pow10(k - 1)
  }

  /** A number has at most `k` digits exactly when it is below `10^k`. */
  lemma {:induction false} DecimalLength(n: nat, k: nat)
    requires k >= 1
    ensures |Decimal(n)| <= k <==> n < Pow10(k)
    decreases n
  {
    if n >= 10 {
      if k == 1 {
        assert |Decimal(n / 10)| >= 1;
      } else {
        DecimalLength(n / 10, k - 1);
        assert n / 10 < Pow10(k - 1) <==> n < 10 * Pow10(k - 1);
      }
    } else {
      assert Pow10(k) == 10 * Pow10(k - 1);
    }
  }

  /** The text `"People Cnt: "`. */
  const Label: seq<bv8> := [0x50, 0x65, 0x6F, 0x70, 0x6C, 0x65, 0x20, 0x43, 0x6E, 0x74, 0x3A, 0x20]

  /** What `sprintf(lcd_buffer, "People Cnt: %d", count)` prints (without
      the terminating NUL): the label, a minus sign for a negative count, and
      the digits of the count's magnitude. */
  function Render(n: int): (r: seq<bv8>)
    ensures Label <= r
    ensures 0 !in r
  {
    if n < 0 then Label + [0x2D] + Decimal(-n) else Label + Decimal(n)
  }

  /** After the label, the text of a non-negative count reads back as the
      count. */
  lemma RenderShowsCount(n: nat)
    ensures forall i :: |Label| <= i < |Render(n)| ==> IsDigit(Render(n)[i])
    ensures ParseDecimal(Render(n)[|Label|..]) == n
  {
    assert Render(n)[|Label|..] == Decimal(n);
    ParseDecimalInverts(n);
  }

  /** `char lcd_buffer[16]`. */
  const LcdBufferLength := 16

  /** With the buffer as declared, the text and its NUL fit exactly when the
      count is below 1000: from 1000 on, `sprintf` writes past the end of
      `lcd_buffer`. */
  lemma RenderFitsDeclaredBuffer(n: nat)
    ensures |Render(n)| + 1 <= LcdBufferLength <==> n < 1000
  {
    DecimalLength(n, 3);
  }

  /** The count 1000 needs 17 bytes, one more than the buffer has. */
  lemma DeclaredBufferOverflows()
    ensures |Render(1000)| + 1 == LcdBufferLength + 1
  {
    DecimalLength(1000, 4);
    DecimalLength(1000, 3);
  }

  /** A buffer for the text of any 16-bit `int`: the label, a sign, five
      digits and the NUL. */
  const CountBufferLength := 19

  /** Every 16-bit count, with its NUL, fits the corrected buffer. */
  lemma RenderFits(n: int)
    requires -32768 <= n <= 32767
    ensures |Render(n)| + 1 <= CountBufferLength
  {
    if n < 0 {
      DecimalLength(-n, 5);
    } else {
      DecimalLength(n, 5);
    }
  }

  /** `sprintf` into `buffer`: afterwards the buffer holds `Render(n)` as a
      NUL-terminated C string, and the bytes after the NUL are untouched. */
  method Format(buffer: array<bv8>, n: int)
    requires |Render(n)| < buffer.Length
    modifies buffer
    ensures buffer[..|Render(n)|] == Render(n) && buffer[|Render(n)|] == 0
    ensures CString(buffer[..]) == Render(n)
    ensures buffer[|Render(n)| + 1..] == old(buffer[|Render(n)| + 1..])
  {
    var text := Render(n);
    forall i | 0 <= i < |text| {
      buffer[i] := text[i];
    }
    buffer[|text|] := 0;
    assert buffer[..][..|text|] == buffer[..|text|] == text;
    CStringIsPrefixBeforeNul(buffer[..], |text|);
  }

  /*** Start-up and the loop ***/

  /** The start-up banner, `"Advanced People"` and `"Counter Project"`. */
  const BannerTop: seq<bv8> :=
    [0x41, 0x64, 0x76, 0x61, 0x6E, 0x63, 0x65, 0x64, 0x20, 0x50, 0x65, 0x6F, 0x70, 0x6C, 0x65]
  const BannerBottom: seq<bv8> :=
    [0x43, 0x6F, 0x75, 0x6E, 0x74, 0x65, 0x72, 0x20, 0x50, 0x72, 0x6F, 0x6A, 0x65, 0x63, 0x74]

  /** The banner: the two texts, each at the start of its row. */
  const BannerTransfers: seq<Transfer> :=
    Position(0, 0) + Chars(BannerTop) + Position(1, 0) + Chars(BannerBottom)

  /** Lines 132-133 of `main`: the two banner texts at the start of the two
      rows. */
  method ShowBanner(screen: Lcd)
    modifies screen.port
    ensures Issued(screen, old(screen.port.value), old(screen.port.writes), BannerTransfers)
  {
    ghost var p0, w0 := screen.port.value, screen.port.writes;
    WriteStringAt(screen, 0, 0, BannerTop + [0]);
    CStringIsPrefixBeforeNul(BannerTop + [0], |BannerTop|);
    ghost var p1, w1 := screen.port.value, screen.port.writes;
    WriteStringAt(screen, 1, 0, BannerBottom + [0]);
    CStringIsPrefixBeforeNul(BannerBottom + [0], |BannerBottom|);
    IssuedThen(screen, p0, w0, Position(0, 0) + Chars(BannerTop), p1, w1, Position(1, 0) + Chars(BannerBottom));
    assert (Position(0, 0) + Chars(BannerTop)) + (Position(1, 0) + Chars(BannerBottom)) == BannerTransfers;
  }

  /** `after` agrees with `before` on every bit except the pins `p`, `q`
      and `r`. */
  predicate KeepsOtherBits(after: bv8, before: bv8, p: PinIndex, q: PinIndex, r: PinIndex) {
    forall i: PinIndex :: i != p && i != q && i != r ==> TestBit(after, i) == TestBit(before, i)
  }

  /** Setting one of the pins `p`, `q`, `r` keeps the other bits. */
  lemma SetBitKeepsOthers(v: bv8, before: bv8, pin: PinIndex, p: PinIndex, q: PinIndex, r: PinIndex)
    requires KeepsOtherBits(v, before, p, q, r)
    requires pin == p || pin == q || pin == r
    ensures KeepsOtherBits(SetBit(v, pin), before, p, q, r)
  {
  }

  /** Setting a bit keeps every bit that is already set. */
  lemma SetBitKeepsSet(v: bv8, pin: PinIndex, t: PinIndex)
    requires TestBit(v, t)
    ensures TestBit(SetBit(v, pin), t)
  {
  }

  /** Lines 124-126 of `main`: the two lamps and the relay become outputs;
      every other DDR bit keeps its level, even where the three lines share
      one DDR. */
  method InitOutputs(led1: Indicator, led2: Indicator, relay: Indicator)
    modifies led1.ddr, led2.ddr, relay.ddr
    ensures TestBit(led1.ddr.value, led1.pin) && TestBit(led2.ddr.value, led2.pin) &&
            TestBit(relay.ddr.value, relay.pin)
    ensures KeepsOtherBits(led1.ddr.value, old(led1.ddr.value), led1.pin, led2.pin, relay.pin)
    ensures KeepsOtherBits(led2.ddr.value, old(led2.ddr.value), led1.pin, led2.pin, relay.pin)
    ensures KeepsOtherBits(relay.ddr.value, old(relay.ddr.value), led1.pin, led2.pin, relay.pin)
    ensures led1.ddr == led2.ddr == relay.ddr ==>
              led1.ddr.value == SetBit(SetBit(SetBit(old(led1.ddr.value), led1.pin), led2.pin), relay.pin)
  {
    var p, q, r := led1.pin, led2.pin, relay.pin;
    ghost var a, b, c := led1.ddr.value, led2.ddr.value, relay.ddr.value;
    assert KeepsOtherBits(a, a, p, q, r);
    IndicatorInit(led1);
    SetBitKeepsOthers(a, a, p, p, q, r);
    assert KeepsOtherBits(led1.ddr.value, a, p, q, r);
    assert KeepsOtherBits(led2.ddr.value, b, p, q, r);
    assert KeepsOtherBits(relay.ddr.value, c, p, q, r);
    assert led1.ddr == led2.ddr ==> led2.ddr.value == SetBit(a, p);
    ghost var v1 := led2.ddr.value;
    IndicatorInit(led2);
    SetBitKeepsOthers(v1, b, q, p, q, r);
    if led1.ddr == led2.ddr {
      SetBitKeepsSet(v1, q, p);
    }
    assert KeepsOtherBits(led1.ddr.value, a, p, q, r);
    assert KeepsOtherBits(led2.ddr.value, b, p, q, r);
    assert KeepsOtherBits(relay.ddr.value, c, p, q, r);
    assert led1.ddr == led2.ddr == relay.ddr ==> relay.ddr.value == SetBit(SetBit(a, p), q);
    ghost var v2 := relay.ddr.value;
    IndicatorInit(relay);
    SetBitKeepsOthers(v2, c, r, p, q, r);
    if led1.ddr == relay.ddr {
      SetBitKeepsSet(v2, r, p);
    }
    if led2.ddr == relay.ddr {
      SetBitKeepsSet(v2, r, q);
    }
  }

  /** `main` up to its loop: the three output lines are made outputs, the
      display is initialised, shows the banner on its two rows and is
      cleared again. */
  method Boot(screen: Lcd, led1: Indicator, led2: Indicator, relay: Indicator)
    requires screen.port != screen.ddr
    requires led1.ddr != screen.port && led2.ddr != screen.port && relay.ddr != screen.port
    requires led1.ddr != screen.ddr && led2.ddr != screen.ddr && relay.ddr != screen.ddr
    modifies led1.ddr, led2.ddr, relay.ddr, screen.port, screen.ddr
    ensures TestBit(led1.ddr.value, led1.pin) && TestBit(led2.ddr.value, led2.pin) &&
            TestBit(relay.ddr.value, relay.pin)
    ensures KeepsOtherBits(led1.ddr.value, old(led1.ddr.value), led1.pin, led2.pin, relay.pin)
    ensures KeepsOtherBits(led2.ddr.value, old(led2.ddr.value), led1.pin, led2.pin, relay.pin)
    ensures KeepsOtherBits(relay.ddr.value, old(relay.ddr.value), led1.pin, led2.pin, relay.pin)
    ensures led1.ddr == led2.ddr == relay.ddr ==>
              led1.ddr.value == SetBit(SetBit(SetBit(old(led1.ddr.value), led1.pin), led2.pin), relay.pin)
    ensures screen.ddr.value ==
      Bit(screen.d4) | Bit(screen.d5) | Bit(screen.d6) | Bit(screen.d7) | Bit(screen.rs) | Bit(screen.e)
    ensures Issued(screen, old(screen.port.value), old(screen.port.writes),
                   InitSequence + BannerTransfers + ClearSequence)
  {
    InitOutputs(led1, led2, relay);
    ghost var p0, w0 := screen.port.value, screen.port.writes;
    Init(screen);
    ghost var p1, w1 := screen.port.value, screen.port.writes;
    ShowBanner(screen);
    IssuedThen(screen, p0, w0, InitSequence, p1, w1, BannerTransfers);
    ghost var p2, w2 := screen.port.value, screen.port.writes;
    Clear(screen);
    IssuedThen(screen, p0, w0, InitSequence + BannerTransfers, p2, w2, ClearSequence);
  }

  /** The board's output lines: lamp 1 on PD4, lamp 2 on PD5, the relay on PD6. */
  const Led1Pin: PinIndex := 4
  const Led2Pin: PinIndex := 5
  const RelayPin: PinIndex := 6

  /** The board's three output lines share one port and one DDR, on three
      different pins, so they are pairwise distinct lines. */
  lemma BoardLinesDistinct(port: Register, ddr: Register)
    ensures var led1, led2, relay :=
              OutputLine(Led1Pin, port, ddr), OutputLine(Led2Pin, port, ddr), OutputLine(RelayPin, port, ddr);
            Distinct(led1, led2) && Distinct(led1, relay) && Distinct(led2, relay)
  {
  }

  /** The control logic at the end of the loop: lamp 1 on while anybody is
      inside, lamp 2 and the relay on while the room is empty. */
  method SetOutputs(count: int, led1: Indicator, led2: Indicator, relay: Indicator)
    requires Distinct(led1, led2) && Distinct(led1, relay) && Distinct(led2, relay)
    modifies led1.port, led2.port, relay.port
    ensures TestBit(led1.port.value, led1.pin) == Outputs(count).led1
    ensures TestBit(led2.port.value, led2.pin) == Outputs(count).led2
    ensures TestBit(relay.port.value, relay.pin) == Outputs(count).relay
  {
    if count > 0 {
      IndicatorOn(led1);
      IndicatorOff(led2);
      IndicatorOff(relay);
    } else {
      IndicatorOff(led1);
      IndicatorOn(led2);
      IndicatorOn(relay);
    }
  }

  /** One pass of `main`'s loop: clamp the count, print it into the buffer,
      show the buffer on the first row, and set the lamps and the relay from
      the count. */
  method LoopIteration(c: Counter, buffer: array<bv8>, screen: Lcd,
                       led1: Indicator, led2: Indicator, relay: Indicator)
    requires buffer.Length == LcdBufferLength
    requires c.count < 1000
    requires Distinct(led1, led2) && Distinct(led1, relay) && Distinct(led2, relay)
    requires screen.port != led1.port && screen.port != led2.port && screen.port != relay.port
    modifies c, buffer, screen.port, led1.port, led2.port, relay.port
    ensures c.Snapshot() == old(c.Snapshot()).(count := Clamp(old(c.count)))
    ensures |Render(c.count)| < buffer.Length
    ensures buffer[..|Render(c.count)|] == Render(c.count) && buffer[|Render(c.count)|] == 0
    ensures buffer[|Render(c.count)| + 1..] == old(buffer[..])[|Render(c.count)| + 1..]
    ensures Issued(screen, old(screen.port.value), old(screen.port.writes),
                   Position(0, 0) + Chars(Render(c.count)))
    ensures TestBit(led1.port.value, led1.pin) == Outputs(c.count).led1
    ensures TestBit(led2.port.value, led2.pin) == Outputs(c.count).led2
    ensures TestBit(relay.port.value, relay.pin) == Outputs(c.count).relay
  {
    if c.count < 0 {
      c.count := 0;
    }
    RenderFitsDeclaredBuffer(c.count);
    ghost var k := |Render(c.count)| + 1;
    ghost var untouched := buffer[k..];
    Format(buffer, c.count);
    assert buffer[k..] == untouched;
    WriteStringAt(screen, 0, 0, buffer[..]);
    SetOutputs(c.count, led1, led2, relay);
  }
}
