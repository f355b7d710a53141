/** The DM163 constant-current LED driver: 24 channel bytes (8 LEDs times
    red, green, blue) and 24 brightness entries (6 bits each), shifted out
    bit by bit on GPIO lines.

    Every `gpio_pin_set_dt` call is recorded as one `Write` event appended
    to the driver's `trace`; the pure functions below give the exact event
    sequence of each flush, and the lemmas state its ordering. */
module Dm163 {
  import opened Common

  const NUM_LEDS: int := 8
  const NUM_CHANNELS: int := NUM_LEDS * 3
  /** Width of one channel entry in the colour bank. */
  const CHANNEL_BITS: nat := 8
  /** Width of one brightness entry in the dot-correction bank. */
  const BRIGHTNESS_BITS: nat := 6
  /** Brightness every entry gets at initialisation (`0x3f`). */
  const DEFAULT_BRIGHTNESS: Byte := 0x3f
  /** The channel index after whose bits a pending row is turned off. */
  const ROW_OFF_INDEX: int := 2
  /** Zephyr's `EINVAL`; the setters return its negation. */
  const EINVAL: int := 22

  /** The lines the driver writes: its own six configured lines, and the
      matrix row lines handed to `TurnOffRow` by the application. */
  datatype Pin = En | Gck | Lat | Rst | Selbk | Sin | Line(id: nat)

  /** One `gpio_pin_set_dt(pin, level)` call. */
  datatype Event = Write(pin: Pin, level: int)

  // ---------------------------------------------------------------------
  // Bit arithmetic

  function Pow2(k: nat): (r: nat)
    ensures r >= 1
  {
    if k == 0 then 1 else 2 * Pow2(k - 1)
  }

  /** `v >> k` for a non-negative `v`. */
  function Shr(v: nat, k: nat): nat
  {
    if k == 0 then v else Shr(v, k - 1) / 2
  }

  /** `(v >> k) & 1`. */
  function Bit(v: nat, k: nat): int
  {
    Shr(v, k) % 2
  }

  // ---------------------------------------------------------------------
  // The event sequences of pulse_data, flush_channels and flush_brightness

  /** One turn of `pulse_data`'s loop: bit `k` of `v` on `sin`, then a clock pulse. */
  function BitPulse(v: nat, k: nat): seq<Event>
  {
    [Write(Sin, Bit(v, k)), Write(Gck, 1), Write(Gck, 0)]
  }

  /** The turns of `pulse_data`'s loop for bit numbers `hi - 1` down to `lo`. */
  function BitsFrom(v: nat, lo: nat, hi: nat): (t: seq<Event>)
    ensures |t| == if lo <= hi then 3 * (hi - lo) else 0
    decreases hi - lo
  {
    if lo >= hi then [] else BitsFrom(v, lo + 1, hi) + BitPulse(v, lo)
  }

  /** What `pulse_data(v, bits)` writes: `bits` bits of `v`, most significant first. */
  function PulseEvents(v: nat, bits: nat): (t: seq<Event>)
    ensures |t| == 3 * bits
  {
    BitsFrom(v, 0, bits)
  }

  /** The turns of a flush loop for array indices `hi - 1` down to `lo`,
      each entry sent as `bits` bits. */
  function EntriesFrom(vals: seq<Byte>, bits: nat, lo: nat, hi: nat): (t: seq<Event>)
    requires hi <= |vals|
    ensures |t| == if lo <= hi then 3 * bits * (hi - lo) else 0
    decreases hi - lo
  {
    if lo >= hi then [] else EntriesFrom(vals, bits, lo + 1, hi) + PulseEvents(vals[lo], bits)
  }

  /** The latch pulse: `lat` low, then high. */
  function Latch(): seq<Event>
  {
    [Write(Lat, 0), Write(Lat, 1)]
  }

  /** The row-off step of a channel flush: the pending row line set to 0, if any. */
  function RowOff(row: Option<nat>): seq<Event>
  {
    if row.Some? then [Write(Line(row.value), 0)] else []
  }

  /** Everything `flush_channels` writes, given the channel array and the
      pending row: indices 23 down to 2, the row-off step, indices 1 and 0,
      then the latch pulse. */
  function ChannelFlush(ch: seq<Byte>, row: Option<nat>): (t: seq<Event>)
    requires |ch| == NUM_CHANNELS
  {
    EntriesFrom(ch, CHANNEL_BITS, ROW_OFF_INDEX, NUM_CHANNELS)
      + (RowOff(row) + (EntriesFrom(ch, CHANNEL_BITS, 0, ROW_OFF_INDEX) + Latch()))
  }

  /** Everything `flush_brightness` writes: bank select low, indices 23 down
      to 0 at 6 bits each, the latch pulse, bank select high again. */
  function BrightnessFlush(br: seq<Byte>): (t: seq<Event>)
    requires |br| == NUM_CHANNELS
    ensures |t| == 18 * NUM_CHANNELS + 4
    ensures t[0] == Write(Selbk, 0) && t[|t| - 1] == Write(Selbk, 1)
  {
    [Write(Selbk, 0)] + (EntriesFrom(br, BRIGHTNESS_BITS, 0, NUM_CHANNELS) + (Latch() + [Write(Selbk, 1)]))
  }

  /** Brightness percentage scaled to the chip's range: `value * 63 / 100`. */
  function ScaleBrightness(value: Byte): (r: Byte)
    ensures r * 100 <= value * 63 < (r + 1) * 100
    ensures value <= 100 ==> r <= 63
  {
    value * 63 / 100
  }

  /** Byte `i` of a `set_color` request, zero past the colours given. */
  function ColorComponent(color: seq<Byte>, i: nat): Byte
  {
    if i < |color| then color[i] else 0
  }

  // ---------------------------------------------------------------------
  // Observers of a trace

  /** The value spelled by the levels written on `sin`, the first one most
      significant; any non-zero level reads as 1. */
  function SinValue(t: seq<Event>): nat
  {
    if t == [] then 0
    else
      var e := t[|t| - 1];
      if e.pin == Sin then 2 * SinValue(t[..|t| - 1]) + (if e.level != 0 then 1 else 0)
      else SinValue(t[..|t| - 1])
  }

  /** The writes of `t` that go to matrix row lines, in order. */
  function RowWrites(t: seq<Event>): seq<Event>
  {
    if t == [] then []
    else RowWrites(t[..|t| - 1]) + (if t[|t| - 1].pin.Line? then [t[|t| - 1]] else [])
  }

  /** Every write of `t` goes to the data or the clock line. */
  ghost predicate OnlyShiftLines(t: seq<Event>)
  {
    forall e :: e in t ==> e.pin.Sin? || e.pin.Gck?
  }

  // ---------------------------------------------------------------------
  // Lemmas about pulse_data

  /** The `j`-th clock cycle of `BitsFrom(v, lo, hi)` carries bit `hi - 1 - j`:
      bits go out most significant first, each written on `sin` and followed
      by `gck` high, then `gck` low. */
  lemma {:induction false} BitsOrder(v: nat, lo: nat, hi: nat, j: nat)
    requires lo <= hi && j < hi - lo
    ensures BitsFrom(v, lo, hi)[3 * j] == Write(Sin, Bit(v, hi - 1 - j))
    ensures BitsFrom(v, lo, hi)[3 * j + 1] == Write(Gck, 1)
    ensures BitsFrom(v, lo, hi)[3 * j + 2] == Write(Gck, 0)
    decreases hi - lo
  {
    var rest := BitsFrom(v, lo + 1, hi);
    assert BitsFrom(v, lo, hi) == rest + BitPulse(v, lo);
    if j < hi - lo - 1 {
      BitsOrder(v, lo + 1, hi, j);
    }
  }

  /** `pulse_data(v, bits)`: clock cycle `j` carries bit `bits - 1 - j` of `v`. */
  lemma PulseOrder(v: nat, bits: nat, j: nat)
    requires j < bits
    ensures |PulseEvents(v, bits)| == 3 * bits
    ensures PulseEvents(v, bits)[3 * j] == Write(Sin, Bit(v, bits - 1 - j))
    ensures PulseEvents(v, bits)[3 * j + 1] == Write(Gck, 1)
    ensures PulseEvents(v, bits)[3 * j + 2] == Write(Gck, 0)
  {
    BitsOrder(v, 0, bits, j);
  }

  lemma SinValueOfPulse(rest: seq<Event>, v: nat, k: nat)
    ensures SinValue(rest + BitPulse(v, k)) == 2 * SinValue(rest) + Bit(v, k)
  {
    var t := rest + BitPulse(v, k);
    assert t[..|t| - 1] == rest + [Write(Sin, Bit(v, k)), Write(Gck, 1)];
    assert t[..|t| - 1][..|t| - 2] == rest + [Write(Sin, Bit(v, k))];
    assert t[..|t| - 1][..|t| - 2][..|t| - 3] == rest;
    var u := rest + [Write(Sin, Bit(v, k))];
    assert SinValue(u) == 2 * SinValue(rest) + Bit(v, k) by {
      assert u[..|u| - 1] == rest;
    }
    assert SinValue(t) == SinValue(u);
  }

  lemma ShiftOneMore(x: nat, s: nat, p: nat, y: nat, b: int)
    requires x == p * y + s
    ensures 2 * x + b == (2 * p) * y + (2 * s + b)
  {
  }

  /** Reading back the `sin` levels of `BitsFrom(v, lo, hi)` yields bits
      `lo` to `hi - 1` of `v`: together with the bits from `hi` up they
      make up `v >> lo`. */
  lemma {:induction false} BitsValue(v: nat, lo: nat, hi: nat)
    requires lo <= hi
    ensures SinValue(BitsFrom(v, lo, hi)) < Pow2(hi - lo)
    ensures Shr(v, lo) == Pow2(hi - lo) * Shr(v, hi) + SinValue(BitsFrom(v, lo, hi))
    decreases hi - lo
  {
    if lo == hi {
      assert BitsFrom(v, lo, hi) == [];
    } else {
      var rest := BitsFrom(v, lo + 1, hi);
      assert BitsFrom(v, lo, hi) == rest + BitPulse(v, lo);
      SinValueOfPulse(rest, v, lo);
      BitsValue(v, lo + 1, hi);
      assert Shr(v, lo) == 2 * Shr(v, lo + 1) + Bit(v, lo);
      ShiftOneMore(Shr(v, lo + 1), SinValue(rest), Pow2(hi - lo - 1), Shr(v, hi), Bit(v, lo));
    }
  }

  /** `v >> k` is 0 once `k` covers every bit of `v`. */
  lemma {:induction false} ShrPastWidth(v: nat, n: nat, k: nat)
    requires v < Pow2(n) && k <= n
    ensures Shr(v, k) < Pow2(n - k)
  {
    if k > 0 {
      ShrPastWidth(v, n, k - 1);
      assert Pow2(n - k + 1) == 2 * Pow2(n - k);
    }
  }

  /** `pulse_data(v, 8)` puts all of the byte `v` on `sin`. */
  lemma ChannelByteSent(v: Byte)
    ensures SinValue(PulseEvents(v, CHANNEL_BITS)) == v
  {
    BitsValue(v, 0, CHANNEL_BITS);
    assert Pow2(CHANNEL_BITS) == 256;
    ShrPastWidth(v, CHANNEL_BITS, CHANNEL_BITS);
  }

  /** `pulse_data(v, 6)` puts the low 6 bits of `v` on `sin`. */
  lemma BrightnessBitsSent(v: Byte)
    ensures SinValue(PulseEvents(v, BRIGHTNESS_BITS)) == v % 64
  {
    BitsValue(v, 0, BRIGHTNESS_BITS);
    assert Pow2(BRIGHTNESS_BITS) == 64;
    var q, r := Shr(v, BRIGHTNESS_BITS), SinValue(PulseEvents(v, BRIGHTNESS_BITS));
    assert v == 64 * q + r && 0 <= r < 64;
    DivModUnique64(v, q, r);
  }

  lemma DivModUnique64(v: nat, q: int, r: int)
    requires v == 64 * q + r && 0 <= r < 64
    ensures r == v % 64
  {
  }

  /** All of `pulse_data`'s writes go to `sin` and `gck`. */
  lemma {:induction false} BitsOnlyShiftLines(v: nat, lo: nat, hi: nat)
    ensures OnlyShiftLines(BitsFrom(v, lo, hi))
    decreases hi - lo
  {
    if lo < hi {
      BitsOnlyShiftLines(v, lo + 1, hi);
    }
  }

  // ---------------------------------------------------------------------
  // Lemmas about the flush sequences

  lemma SliceLeft(a: seq<Event>, b: seq<Event>, i: nat, j: nat)
    requires i <= j <= |a|
    ensures (a + b)[i .. j] == a[i .. j]
  {
  }

  lemma SliceRight(a: seq<Event>, b: seq<Event>, i: nat, j: nat)
    requires |a| <= i <= j <= |a| + |b|
    ensures (a + b)[i .. j] == b[i - |a| .. j - |a|]
  {
  }

  lemma AppendAssoc(a: seq<Event>, b: seq<Event>, c: seq<Event>)
    ensures (a + b) + c == a + (b + c)
  {
  }

  /** `p` sits right after `a` in `a + (p + b)`. */
  lemma Middle(a: seq<Event>, p: seq<Event>, b: seq<Event>)
    ensures (a + (p + b))[|a| .. |a| + |p|] == p
  {
    SliceRight(a, p + b, |a|, |a| + |p|);
    SliceLeft(p, b, 0, |p|);
  }

  /** Entries are sent from the highest index down: those above `j` first,
      then entry `j`, then those below it. */
  lemma {:induction false} EntriesSplit(vals: seq<Byte>, bits: nat, lo: nat, hi: nat, j: nat)
    requires lo <= j < hi <= |vals|
    ensures EntriesFrom(vals, bits, lo, hi)
            == EntriesFrom(vals, bits, j + 1, hi)
               + (PulseEvents(vals[j], bits) + EntriesFrom(vals, bits, lo, j))
    decreases j - lo
  {
    var above, p := EntriesFrom(vals, bits, j + 1, hi), PulseEvents(vals[j], bits);
    if lo == j {
      assert EntriesFrom(vals, bits, lo, j) == [];
      assert p + [] == p;
    } else {
      EntriesSplit(vals, bits, lo + 1, hi, j);
      var below, q := EntriesFrom(vals, bits, lo + 1, j), PulseEvents(vals[lo], bits);
      assert EntriesFrom(vals, bits, lo, j) == below + q;
      AppendAssoc(p, below, q);
      AppendAssoc(above, p + below, q);
    }
  }

  /** Entry `j` occupies the `3 * bits` events that follow the blocks of
      entries `hi - 1` down to `j + 1`. */
  lemma EntriesOrder(vals: seq<Byte>, bits: nat, lo: nat, hi: nat, j: nat)
    requires lo <= j < hi <= |vals|
    ensures var n := |EntriesFrom(vals, bits, j + 1, hi)|;
      n == 3 * bits * (hi - 1 - j)
      && n + 3 * bits <= |EntriesFrom(vals, bits, lo, hi)|
      && EntriesFrom(vals, bits, lo, hi)[n .. n + 3 * bits] == PulseEvents(vals[j], bits)
  {
    EntriesSplit(vals, bits, lo, hi, j);
    Middle(EntriesFrom(vals, bits, j + 1, hi), PulseEvents(vals[j], bits), EntriesFrom(vals, bits, lo, j));
  }

  lemma {:induction false} EntriesOnlyShiftLines(vals: seq<Byte>, bits: nat, lo: nat, hi: nat)
    requires hi <= |vals|
    ensures OnlyShiftLines(EntriesFrom(vals, bits, lo, hi))
    decreases hi - lo
  {
    if lo < hi {
      EntriesOnlyShiftLines(vals, bits, lo + 1, hi);
      BitsOnlyShiftLines(vals[lo], 0, bits);
    }
  }

  lemma {:induction false} RowWritesAppend(a: seq<Event>, b: seq<Event>)
    ensures RowWrites(a + b) == RowWrites(a) + RowWrites(b)
    decreases |b|
  {
    if b == [] {
      assert a + b == a;
    } else {
      var b' := b[..|b| - 1];
      assert (a + b)[..|a + b| - 1] == a + b';
      RowWritesAppend(a, b');
    }
  }

  lemma RowWritesAround(hi: seq<Event>, r: seq<Event>, lo: seq<Event>)
    requires OnlyShiftLines(hi) && OnlyShiftLines(lo)
    ensures RowWrites(hi + (r + (lo + Latch()))) == RowWrites(r)
  {
    var rest := lo + Latch();
    assert RowWrites(hi) == [] by {
      NoRowWrites(hi);
    }
    assert RowWrites(rest) == [] by {
      assert forall e :: e in Latch() ==> e.pin.Lat?;
      NoRowWrites(rest);
    }
    RowWritesAppend(hi, r + rest);
    RowWritesAppend(r, rest);
    assert RowWrites(r) + [] == RowWrites(r);
  }

  /** A channel flush writes to a row line exactly once when a row is
      pending (that row, level 0) and never otherwise. */
  lemma ChannelFlushRowWrites(ch: seq<Byte>, row: Option<nat>)
    requires |ch| == NUM_CHANNELS
    ensures RowWrites(ChannelFlush(ch, row)) == RowOff(row)
  {
    EntriesOnlyShiftLines(ch, CHANNEL_BITS, ROW_OFF_INDEX, NUM_CHANNELS);
    EntriesOnlyShiftLines(ch, CHANNEL_BITS, 0, ROW_OFF_INDEX);
    RowWritesAround(EntriesFrom(ch, CHANNEL_BITS, ROW_OFF_INDEX, NUM_CHANNELS), RowOff(row),
                    EntriesFrom(ch, CHANNEL_BITS, 0, ROW_OFF_INDEX));
    RowOffWrites(row);
  }

  lemma RowOffWrites(row: Option<nat>)
    ensures RowWrites(RowOff(row)) == RowOff(row)
  {
    if row.Some? {
      assert RowOff(row)[..0] == [];
    }
  }

  /** A brightness flush never writes to a row line. */
  lemma BrightnessFlushRowWrites(br: seq<Byte>)
    requires |br| == NUM_CHANNELS
    ensures RowWrites(BrightnessFlush(br)) == []
  {
    EntriesOnlyShiftLines(br, BRIGHTNESS_BITS, 0, NUM_CHANNELS);
    NoRowWrites(BrightnessFlush(br));
  }

  lemma {:induction false} NoRowWrites(t: seq<Event>)
    requires forall e :: e in t ==> e.pin.Sin? || e.pin.Gck? || e.pin.Lat? || e.pin.Selbk?
    ensures RowWrites(t) == []
  {
    if t != [] {
      assert t[|t| - 1] in t;
      NoRowWrites(t[..|t| - 1]);
    }
  }

  /** A pending row is turned off once by the next channel flush and not
      again by the flush after it, which finds the slot empty. */
  lemma RowOffConsumedOnce(ch1: seq<Byte>, ch2: seq<Byte>, line: nat)
    requires |ch1| == NUM_CHANNELS && |ch2| == NUM_CHANNELS
    ensures RowWrites(ChannelFlush(ch1, Some(line)) + ChannelFlush(ch2, None)) == [Write(Line(line), 0)]
  {
    RowWritesAppend(ChannelFlush(ch1, Some(line)), ChannelFlush(ch2, None));
    ChannelFlushRowWrites(ch1, Some(line));
    ChannelFlushRowWrites(ch2, None);
  }

  /** A channel flush is 24 entries of 8 clock cycles (3 writes each),
      the row-off step if a row is pending, and the latch pulse last. */
  lemma ChannelFlushLatched(ch: seq<Byte>, row: Option<nat>)
    requires |ch| == NUM_CHANNELS
    ensures var t := ChannelFlush(ch, row);
      |t| == 24 * NUM_CHANNELS + |RowOff(row)| + 2
      && t[|t| - 2 ..] == Latch()
  {
    var hi := EntriesFrom(ch, CHANNEL_BITS, ROW_OFF_INDEX, NUM_CHANNELS);
    var lo := EntriesFrom(ch, CHANNEL_BITS, 0, ROW_OFF_INDEX);
    var rest := lo + Latch();
    var mid := RowOff(row) + rest;
    var n := |hi + mid|;
    SliceRight(hi, mid, n - 2, n);
    SliceRight(RowOff(row), rest, |mid| - 2, |mid|);
    SliceRight(lo, Latch(), |rest| - 2, |rest|);
    assert Latch()[0 .. 2] == Latch();
  }

  /** Index in a channel flush of the first event of channel `j`: indices
      23 down to 2 come first, then the row-off step, then indices 1 and 0. */
  function ChannelStart(row: Option<nat>, j: nat): nat
    requires j < NUM_CHANNELS
  {
    24 * (23 - j) + (if j < ROW_OFF_INDEX then |RowOff(row)| else 0)
  }

  /** Channel `j`'s 8 bits sit at `ChannelStart(row, j)` in a channel flush
      and spell `ch[j]`. */
  lemma ChannelFlushBlock(ch: seq<Byte>, row: Option<nat>, j: nat)
    requires |ch| == NUM_CHANNELS && j < NUM_CHANNELS
    ensures var t := ChannelFlush(ch, row); var start := ChannelStart(row, j);
      start + 24 <= |t|
      && t[start .. start + 24] == PulseEvents(ch[j], CHANNEL_BITS)
      && SinValue(t[start .. start + 24]) == ch[j]
  {
    if j >= ROW_OFF_INDEX {
      HighBlock(ch, row, j);
    } else {
      LowBlock(ch, row, j);
    }
    ChannelByteSent(ch[j]);
  }

  lemma HighBlock(ch: seq<Byte>, row: Option<nat>, j: nat)
    requires |ch| == NUM_CHANNELS && ROW_OFF_INDEX <= j < NUM_CHANNELS
    ensures var t := ChannelFlush(ch, row); var s := ChannelStart(row, j);
      s + 24 <= |t| && t[s .. s + 24] == PulseEvents(ch[j], CHANNEL_BITS)
  {
    var hi := EntriesFrom(ch, CHANNEL_BITS, ROW_OFF_INDEX, NUM_CHANNELS);
    var mid := RowOff(row) + (EntriesFrom(ch, CHANNEL_BITS, 0, ROW_OFF_INDEX) + Latch());
    var k := 23 - j;
    EntriesOrder(ch, CHANNEL_BITS, ROW_OFF_INDEX, NUM_CHANNELS, j);
    SliceLeft(hi, mid, 24 * k, 24 * k + 24);
    assert ChannelStart(row, j) == 24 * k;
  }

  lemma LowBlock(ch: seq<Byte>, row: Option<nat>, j: nat)
    requires |ch| == NUM_CHANNELS && j < ROW_OFF_INDEX
    ensures var t := ChannelFlush(ch, row); var s := ChannelStart(row, j);
      s + 24 <= |t| && t[s .. s + 24] == PulseEvents(ch[j], CHANNEL_BITS)
  {
    var hi := EntriesFrom(ch, CHANNEL_BITS, ROW_OFF_INDEX, NUM_CHANNELS);
    var above := EntriesFrom(ch, CHANNEL_BITS, j + 1, ROW_OFF_INDEX);
    var p := PulseEvents(ch[j], CHANNEL_BITS);
    var below := EntriesFrom(ch, CHANNEL_BITS, 0, j);
    EntriesSplit(ch, CHANNEL_BITS, 0, ROW_OFF_INDEX, j);
    MiddleOfFlush(hi, RowOff(row), above, p, below, Latch());
    assert |hi| == 528 && |p| == 24 && |above| == 24 * (1 - j);
    assert ChannelStart(row, j) == |hi| + |RowOff(row)| + |above|;
  }

  /** Generic form of `LowBlock`'s slice: `p` follows `hi`, `r` and `a`. */
  lemma MiddleOfFlush(hi: seq<Event>, r: seq<Event>, a: seq<Event>, p: seq<Event>, b: seq<Event>, l: seq<Event>)
    ensures var t := hi + (r + ((a + (p + b)) + l)); var s := |hi| + |r| + |a|;
      s + |p| <= |t| && t[s .. s + |p|] == p
  {
    var lo := a + (p + b);
    Middle(a, p, b);
    SliceLeft(lo, l, |a|, |a| + |p|);
    SliceRight(r, lo + l, |r| + |a|, |r| + |a| + |p|);
    SliceRight(hi, r + (lo + l), |hi| + |r| + |a|, |hi| + |r| + |a| + |p|);
  }

  /** The row-off write comes right after the 8 bits of channel 2 and right
      before those of channel 1. */
  lemma RowOffAfterIndexTwo(ch: seq<Byte>, line: nat)
    requires |ch| == NUM_CHANNELS
    ensures var t := ChannelFlush(ch, Some(line));
      t[504 .. 528] == PulseEvents(ch[2], CHANNEL_BITS)
      && t[528] == Write(Line(line), 0)
      && t[529 .. 553] == PulseEvents(ch[1], CHANNEL_BITS)
  {
    ChannelFlushBlock(ch, Some(line), 2);
    ChannelFlushBlock(ch, Some(line), 1);
    var hi := EntriesFrom(ch, CHANNEL_BITS, ROW_OFF_INDEX, NUM_CHANNELS);
    assert |hi| == 528;
  }

  /** With no row pending, channel 1 follows channel 2 directly. */
  lemma NoRowOffWhenNonePending(ch: seq<Byte>)
    requires |ch| == NUM_CHANNELS
    ensures var t := ChannelFlush(ch, None);
      t[504 .. 528] == PulseEvents(ch[2], CHANNEL_BITS)
      && t[528 .. 552] == PulseEvents(ch[1], CHANNEL_BITS)
  {
    var hi := EntriesFrom(ch, CHANNEL_BITS, ROW_OFF_INDEX, NUM_CHANNELS);
    var lo := EntriesFrom(ch, CHANNEL_BITS, 0, ROW_OFF_INDEX);
    var rest := lo + Latch();
    var mid := RowOff(None) + rest;
    EntriesOrder(ch, CHANNEL_BITS, ROW_OFF_INDEX, NUM_CHANNELS, 2);
    SliceLeft(hi, mid, 504, 528);
    EntriesOrder(ch, CHANNEL_BITS, 0, ROW_OFF_INDEX, 1);
    SliceRight(hi, mid, 528, 552);
    SliceRight(RowOff(None), rest, 0, 24);
    SliceLeft(lo, Latch(), 0, 24);
  }

  /** A brightness flush starts by selecting the brightness bank, keeps it
      selected through the data and the latch pulse, and restores the bank
      select line last. */
  lemma BrightnessFlushBracket(br: seq<Byte>)
    requires |br| == NUM_CHANNELS
    ensures var t := BrightnessFlush(br);
      |t| == 18 * NUM_CHANNELS + 4
      && t[0] == Write(Selbk, 0)
      && t[|t| - 3 ..] == Latch() + [Write(Selbk, 1)]
      && (forall i :: 0 < i < |t| - 1 ==> t[i].pin != Selbk)
  {
    var body := EntriesFrom(br, BRIGHTNESS_BITS, 0, NUM_CHANNELS);
    EntriesOnlyShiftLines(br, BRIGHTNESS_BITS, 0, NUM_CHANNELS);
    BracketShape(body);
  }

  lemma BracketShape(body: seq<Event>)
    requires OnlyShiftLines(body)
    ensures var t := [Write(Selbk, 0)] + (body + (Latch() + [Write(Selbk, 1)]));
      t[0] == Write(Selbk, 0)
      && t[|t| - 3 ..] == Latch() + [Write(Selbk, 1)]
      && (forall i :: 0 < i < |t| - 1 ==> t[i].pin != Selbk)
  {
    var tail := Latch() + [Write(Selbk, 1)];
    var t := [Write(Selbk, 0)] + (body + tail);
    assert t[|t| - 3 ..] == tail;
    forall i | 0 < i < |t| - 1
      ensures t[i].pin != Selbk
    {
      if i <= |body| {
        assert t[i] == body[i - 1];
        assert body[i - 1] in body;
      } else {
        assert t[i] == tail[i - 1 - |body|];
      }
    }
  }

  /** In a brightness flush, entry `j` is sent as the low 6 bits of
      `br[j]`, entries in reverse index order after the bank-select write. */
  lemma BrightnessFlushBlock(br: seq<Byte>, j: nat)
    requires |br| == NUM_CHANNELS && j < NUM_CHANNELS
    ensures var t := BrightnessFlush(br); var start := 1 + 18 * (23 - j);
      start + 18 <= |t|
      && t[start .. start + 18] == PulseEvents(br[j], BRIGHTNESS_BITS)
      && SinValue(t[start .. start + 18]) == br[j] % 64
  {
    var body := EntriesFrom(br, BRIGHTNESS_BITS, 0, NUM_CHANNELS);
    var tail := Latch() + [Write(Selbk, 1)];
    var k := 23 - j;
    EntriesOrder(br, BRIGHTNESS_BITS, 0, NUM_CHANNELS, j);
    SliceLeft(body, tail, 18 * k, 18 * k + 18);
    SliceRight([Write(Selbk, 0)], body + tail, 1 + 18 * k, 1 + 18 * k + 18);
    BrightnessBitsSent(br[j]);
  }

  /** The events `flush_channels` has written once entries `i + 1 ..
      NUM_CHANNELS - 1` have been shifted out (and the row turned off,
      once entry 2 is done). */
  ghost function ChannelsDone(ch: seq<Byte>, row: Option<nat>, i: int): seq<Event>
    requires |ch| == NUM_CHANNELS && -1 <= i < NUM_CHANNELS
  {
    if i >= ROW_OFF_INDEX then EntriesFrom(ch, CHANNEL_BITS, i + 1, NUM_CHANNELS)
    else EntriesFrom(ch, CHANNEL_BITS, ROW_OFF_INDEX, NUM_CHANNELS)
         + (RowOff(row) + EntriesFrom(ch, CHANNEL_BITS, i + 1, ROW_OFF_INDEX))
  }

  lemma ChannelsDoneStart(o: seq<Event>, ch: seq<Byte>, row: Option<nat>)
    requires |ch| == NUM_CHANNELS
    ensures o == o + ChannelsDone(ch, row, NUM_CHANNELS - 1)
  {
  }

  lemma ChannelsDoneStep(o: seq<Event>, ch: seq<Byte>, row: Option<nat>, i: int)
    requires |ch| == NUM_CHANNELS && 0 <= i < NUM_CHANNELS
    ensures i != ROW_OFF_INDEX || row == None ==>
      o + ChannelsDone(ch, row, i - 1) == (o + ChannelsDone(ch, row, i)) + PulseEvents(ch[i], CHANNEL_BITS)
    ensures i == ROW_OFF_INDEX && row.Some? ==>
      o + ChannelsDone(ch, row, i - 1)
      == ((o + ChannelsDone(ch, row, i)) + PulseEvents(ch[i], CHANNEL_BITS)) + [Write(Line(row.value), 0)]
  {
    var p := PulseEvents(ch[i], CHANNEL_BITS);
    var hi := EntriesFrom(ch, CHANNEL_BITS, ROW_OFF_INDEX, NUM_CHANNELS);
    if i > ROW_OFF_INDEX {
      AppendAssoc(o, ChannelsDone(ch, row, i), p);
    } else if i == ROW_OFF_INDEX {
      assert hi == ChannelsDone(ch, row, i) + p;
      assert EntriesFrom(ch, CHANNEL_BITS, i, ROW_OFF_INDEX) == [];
      assert RowOff(row) + [] == RowOff(row);
      assert ChannelsDone(ch, row, i - 1) == hi + RowOff(row);
      AppendAssoc(o, ChannelsDone(ch, row, i), p);
      AppendAssoc(o, hi, RowOff(row));
      if row == None {
        assert hi + [] == hi;
      }
    } else {
      var lo := EntriesFrom(ch, CHANNEL_BITS, i + 1, ROW_OFF_INDEX);
      assert EntriesFrom(ch, CHANNEL_BITS, i, ROW_OFF_INDEX) == lo + p;
      AppendAssoc(RowOff(row), lo, p);
      AppendAssoc(hi, RowOff(row) + lo, p);
      AppendAssoc(o, ChannelsDone(ch, row, i), p);
    }
  }

  lemma ChannelsDoneLatched(o: seq<Event>, ch: seq<Byte>, row: Option<nat>)
    requires |ch| == NUM_CHANNELS
    ensures o + ChannelsDone(ch, row, -1) + [Write(Lat, 0)] + [Write(Lat, 1)]
            == o + ChannelFlush(ch, row)
  {
    var hi := EntriesFrom(ch, CHANNEL_BITS, ROW_OFF_INDEX, NUM_CHANNELS);
    var lo := EntriesFrom(ch, CHANNEL_BITS, 0, ROW_OFF_INDEX);
    assert ChannelsDone(ch, row, -1) == hi + (RowOff(row) + lo);
    assert ChannelFlush(ch, row) == hi + (RowOff(row) + (lo + Latch()));
  }

  lemma BracketStep(o: seq<Event>, done: seq<Event>)
    ensures o + [Write(Selbk, 0)] + done + [Write(Lat, 0)] + [Write(Lat, 1)] + [Write(Selbk, 1)]
            == o + ([Write(Selbk, 0)] + (done + (Latch() + [Write(Selbk, 1)])))
  {
  }

  // ---------------------------------------------------------------------
  // The driver

  /** One DM163 device: its two 24-entry banks, the pending row-off slot
      and the GPIO writes made so far. */
  class Driver {
    const brightness: array<Byte>
    const channels: array<Byte>
    /** The row line to turn off during the next channel flush, if any. */
    var rowToTurnOff: Option<nat>
    /** Every GPIO write made so far, oldest first. */
    var trace: seq<Event>

    ghost predicate Valid()
      reads this
    {
      brightness.Length == NUM_CHANNELS && channels.Length == NUM_CHANNELS
      && brightness != channels
    }

    /** `dm163_init`: release reset, default both banks, flush brightness
        then channels, then enable the outputs if that line is connected. */
    constructor Init(enableConnected: bool)
      ensures Valid() && fresh(brightness) && fresh(channels)
      ensures forall i :: 0 <= i < NUM_CHANNELS ==> brightness[i] == DEFAULT_BRIGHTNESS
      ensures forall i :: 0 <= i < NUM_CHANNELS ==> channels[i] == 0
      ensures rowToTurnOff == None
      ensures trace == [Write(Rst, 0)] + BrightnessFlush(brightness[..])
                       + ChannelFlush(channels[..], None)
                       + (if enableConnected then [Write(En, 1)] else [])
    {
      brightness := new Byte[NUM_CHANNELS](_ => DEFAULT_BRIGHTNESS);
      channels := new Byte[NUM_CHANNELS](_ => 0);
      rowToTurnOff := None;
      trace := [];
      new;
      ghost var ch := channels[..];
      SetPin(Rst, 0);
      assert trace == [Write(Rst, 0)];
      FlushBrightness();
      ghost var afterBrightness := trace;
      FlushChannels();
      assert trace == afterBrightness + ChannelFlush(ch, None);
      ghost var afterChannels := trace;
      if enableConnected {
        SetPin(En, 1);
      } else {
        assert afterChannels + [] == afterChannels;
      }
    }

    /** `gpio_pin_set_dt`. */
    method SetPin(pin: Pin, level: int)
      modifies this`trace
      ensures trace == old(trace) + [Write(pin, level)]
    {
      trace := trace + [Write(pin, level)];
    }

    /** `dm163_turn_off_row`: a later request replaces an unconsumed one;
        `None` (a null row) cancels a pending request. */
    method TurnOffRow(row: Option<nat>)
      modifies this`rowToTurnOff
      ensures rowToTurnOff == row
    {
      rowToTurnOff := row;
    }

    /** `pulse_data`: `bits` bits of `v`, most significant first, each
        followed by a clock pulse. */
    method PulseData(v: Byte, bits: nat)
      modifies this`trace
      ensures trace == old(trace) + PulseEvents(v, bits)
    {
      var led: int := bits - 1;
      while led >= 0
        invariant -1 <= led < bits
        invariant trace == old(trace) + BitsFrom(v, led + 1, bits)
      {
        var bit := Shr(v, led) % 2;
        SetPin(Sin, bit);
        SetPin(Gck, 1);
        SetPin(Gck, 0);
        led := led - 1;
      }
    }

    /** `flush_channels`: shifts the channel bank out and latches it,
        turning off the pending row, if any, after channel 2. */
    method FlushChannels()
      requires Valid()
      modifies this`trace, this`rowToTurnOff
      ensures trace == old(trace) + ChannelFlush(channels[..], old(rowToTurnOff))
      ensures rowToTurnOff == None
    {
      ghost var row := rowToTurnOff;
      ghost var ch := channels[..];
      ChannelsDoneStart(old(trace), ch, row);
      var i: int := NUM_CHANNELS - 1;
      while i >= 0
        invariant -1 <= i < NUM_CHANNELS
        invariant trace == old(trace) + ChannelsDone(ch, row, i)
        invariant rowToTurnOff == if i >= ROW_OFF_INDEX then row else None
      {
        ChannelsDoneStep(old(trace), ch, row, i);
        PulseData(channels[i], CHANNEL_BITS);
        if i == ROW_OFF_INDEX && rowToTurnOff.Some? {
          SetPin(Line(rowToTurnOff.value), 0);
          rowToTurnOff := None;
        }
        i := i - 1;
      }
      SetPin(Lat, 0);
      SetPin(Lat, 1);
      ChannelsDoneLatched(old(trace), ch, row);
    }

    /** `flush_brightness`: selects the brightness bank, shifts it out at 6
        bits per entry, latches, and selects the channel bank again. The
        row-off slot is left alone. */
    method FlushBrightness()
      requires Valid()
      modifies this`trace
      ensures trace == old(trace) + BrightnessFlush(brightness[..])
      ensures rowToTurnOff == old(rowToTurnOff)
    {
      ghost var br := brightness[..];
      SetPin(Selbk, 0);
      ghost var done: seq<Event> := [];
      var i: int := NUM_CHANNELS - 1;
      while i >= 0
        invariant -1 <= i < NUM_CHANNELS
        invariant trace == old(trace) + [Write(Selbk, 0)] + done
        invariant done == EntriesFrom(br, BRIGHTNESS_BITS, i + 1, NUM_CHANNELS)
      {
        ghost var p := PulseEvents(brightness[i], BRIGHTNESS_BITS);
        PulseData(brightness[i], BRIGHTNESS_BITS);
        AppendAssoc(old(trace) + [Write(Selbk, 0)], done, p);
        done := done + p;
        i := i - 1;
      }
      SetPin(Lat, 0);
      SetPin(Lat, 1);
      SetPin(Selbk, 1);
      BracketStep(old(trace), done);
    }

    /** `dm163_set_brightness`: the LED's three brightness entries become
        the scaled percentage and the bank is flushed. */
    method SetBrightness(led: U32, value: Byte) returns (ret: int)
      requires Valid()
      modifies brightness, this`trace
      ensures ret == if led < NUM_LEDS then 0 else -EINVAL
      ensures rowToTurnOff == old(rowToTurnOff)
      ensures led >= NUM_LEDS ==>
        brightness[..] == old(brightness[..]) && trace == old(trace)
      ensures led < NUM_LEDS ==>
        (forall j :: 0 <= j < NUM_CHANNELS ==>
          brightness[j] == if j / 3 == led then ScaleBrightness(value) else old(brightness[j]))
        && trace == old(trace) + BrightnessFlush(brightness[..])
    {
      if led >= NUM_LEDS {
        return -EINVAL;
      }
      var scaled := value * 63 / 100;
      brightness[led * 3] := scaled;
      brightness[led * 3 + 1] := scaled;
      brightness[led * 3 + 2] := scaled;
      FlushBrightness();
      return 0;
    }

    /** `dm163_on`: the LED's three channels become `0xff`. */
    method On(led: U32) returns (ret: int)
      requires Valid()
      modifies channels, this`trace, this`rowToTurnOff
      ensures ret == if led < NUM_LEDS then 0 else -EINVAL
      ensures led >= NUM_LEDS ==>
        channels[..] == old(channels[..]) && trace == old(trace)
        && rowToTurnOff == old(rowToTurnOff)
      ensures led < NUM_LEDS ==>
        (forall j :: 0 <= j < NUM_CHANNELS ==>
          channels[j] == if j / 3 == led then 0xff else old(channels[j]))
        && trace == old(trace) + ChannelFlush(channels[..], old(rowToTurnOff))
        && rowToTurnOff == None
    {
      if led >= NUM_LEDS {
        return -EINVAL;
      }
      channels[led * 3] := 0xff;
      channels[led * 3 + 1] := 0xff;
      channels[led * 3 + 2] := 0xff;
      FlushChannels();
      return 0;
    }

    /** `dm163_off`: the LED's three channels become `0x00`. */
    method Off(led: U32) returns (ret: int)
      requires Valid()
      modifies channels, this`trace, this`rowToTurnOff
      ensures ret == if led < NUM_LEDS then 0 else -EINVAL
      ensures led >= NUM_LEDS ==>
        channels[..] == old(channels[..]) && trace == old(trace)
        && rowToTurnOff == old(rowToTurnOff)
      ensures led < NUM_LEDS ==>
        (forall j :: 0 <= j < NUM_CHANNELS ==>
          channels[j] == if j / 3 == led then 0x00 else old(channels[j]))
        && trace == old(trace) + ChannelFlush(channels[..], old(rowToTurnOff))
        && rowToTurnOff == None
    {
      if led >= NUM_LEDS {
        return -EINVAL;
      }
      channels[led * 3] := 0x00;
      channels[led * 3 + 1] := 0x00;
      channels[led * 3 + 2] := 0x00;
      FlushChannels();
      return 0;
    }

    /** `dm163_set_color`: `color` holds the `num_colors` bytes given; the
        LED's channels take them in order and the missing ones become 0. */
    method SetColor(led: U32, color: seq<Byte>) returns (ret: int)
      requires Valid() && |color| < 256
      modifies channels, this`trace, this`rowToTurnOff
      ensures ret == if led < NUM_LEDS && |color| <= 3 then 0 else -EINVAL
      ensures ret != 0 ==>
        channels[..] == old(channels[..]) && trace == old(trace)
        && rowToTurnOff == old(rowToTurnOff)
      ensures ret == 0 ==>
        (forall j :: 0 <= j < NUM_CHANNELS ==>
          channels[j] == if j / 3 == led then ColorComponent(color, j % 3) else old(channels[j]))
        && trace == old(trace) + ChannelFlush(channels[..], old(rowToTurnOff))
        && rowToTurnOff == None
    {
      if led >= NUM_LEDS || |color| > 3 {
        return -EINVAL;
      }
      for i := 0 to 3
        modifies channels
        invariant forall j :: 0 <= j < NUM_CHANNELS ==>
          channels[j] == if j / 3 == led && j % 3 < i then ColorComponent(color, j % 3) else old(channels[j])
      {
        channels[led * 3 + i] := if i < |color| then color[i] else 0;
      }
      FlushChannels();
      return 0;
    }

    /** `dm163_write_channels`: copies `buf` (`num` bytes) to channels
        `start` onwards and flushes. The bound check adds in 32-bit
        arithmetic, so a sum that wraps passes it; the copy loop then runs
        zero times and the bank is still flushed. */
    method WriteChannels(start: U32, num: U32, buf: seq<Byte>) returns (ret: int)
      requires Valid() && |buf| == num
      modifies channels, this`trace, this`rowToTurnOff
      ensures ret == if (start + num) % U32_MODULUS > NUM_CHANNELS then -EINVAL else 0
      ensures ret != 0 ==>
        channels[..] == old(channels[..]) && trace == old(trace)
        && rowToTurnOff == old(rowToTurnOff)
      ensures ret == 0 ==>
        (forall j :: 0 <= j < NUM_CHANNELS ==>
          channels[j] == if start + num < U32_MODULUS && start <= j < start + num
                         then buf[j - start] else old(channels[j]))
        && trace == old(trace) + ChannelFlush(channels[..], old(rowToTurnOff))
        && rowToTurnOff == None
    {
      var end := if start + num < U32_MODULUS then start + num else start + num - U32_MODULUS;
      assert end == (start + num) % U32_MODULUS;
      if end > NUM_CHANNELS {
        return -EINVAL;
      }
      var i := start;
      while i < end
        modifies channels
        invariant start <= i
        invariant i > start ==> i <= end && end == start + num
        invariant forall j :: 0 <= j < NUM_CHANNELS ==>
          channels[j] == if start <= j < i then buf[j - start] else old(channels[j])
      {
        channels[i] := buf[i - start];
        i := i + 1;
      }
      FlushChannels();
      return 0;
    }
  }
}
