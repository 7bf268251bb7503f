/** The LED status engine of src/led_status.cpp: master-brightness scaling,
    the physical-write de-duplication and re-assert cache, the trend
    hysteresis, the animation-mode selection with its Party and
    invalid-data overrides, the fade, and the background-task setup. */
module LedStatus {
  import opened Units

  const OFF_LEVEL: real := 0.001
  const REASSERT_MS: int := 1500
  const BOARD_OFF_REASSERT_MS: int := 2000
  const ANIM_MIN_UPDATE_MS: int := 33
  /** The "nothing written yet" value of the re-assert cache. */
  const NO_COLOR: u32 := 0xFFFF_FFFF

  const EVENT_SLOW_THRESH: real := 5.0
  const EVENT_FAST_THRESH: real := 10.0
  const PARTY_ENTER_THRESH: real := 20.0
  const PARTY_EXIT_THRESH: real := 15.0
  const TREND_ENTER: real := 0.02
  const TREND_EXIT: real := 0.005

  const BREATHE_SLOW_PERIOD_MS: u32 := 2400
  const BREATHE_FAST_PERIOD_MS: u32 := 900
  const PARTY_PERIOD_MS: u32 := 2500
  const BREATHE_MIN_FRAC: real := 0.15

  datatype Rgb = Rgb(r: byte, g: byte, b: byte)

  const Black: Rgb := Rgb(0, 0, 0)
  const Green: Rgb := Rgb(0, 150, 0)
  const Red: Rgb := Rgb(150, 0, 0)
  const Blue: Rgb := Rgb(0, 0, 150)
  const Purple: Rgb := Rgb(100, 0, 120)
  const Yellow: Rgb := Rgb(150, 150, 0)
  const Cyan: Rgb := Rgb(0, 150, 150)
  const Gray: Rgb := Rgb(60, 60, 60)
  const WhiteLow: Rgb := Rgb(30, 30, 30)

  datatype Trend = Neutral | Up | Down
  datatype AnimMode = Solid | BreatheSlow | BreatheFast | Party

  /** A physical write: the external strip, or the onboard pixel that is
      only ever forced off. */
  datatype Strip = External | Board
  datatype BusWrite = BusWrite(strip: Strip, color: Rgb)

  // ---------------------------------------------------------------- scaling

  /** `ledStatusSetMasterBrightness`'s clamp. */
  function ClampUnit(x: real): (r: real)
    ensures 0.0 <= r <= 1.0
    ensures 0.0 <= x <= 1.0 ==> r == x
    ensures x < 0.0 ==> r == 0.0
    ensures x > 1.0 ==> r == 1.0
  {
    if x < 0.0 then 0.0 else if x > 1.0 then 1.0 else x
  }

  lemma {:induction false} ScaledNotAbove(v: byte, m: real)
    requires 0.0 < m <= 1.0
    ensures 0 <= (v as real * m + 0.5).Floor <= v
  {
    assert v as real * m <= v as real * 1.0;
    assert (v as real + 0.5).Floor == v;
  }

  /** `scaleBright`: a channel times master and animation factor, rounded
      half up; black at or below the off level, never above the input. */
  function ScaleBright(v: byte, m: real): (r: byte)
    ensures r <= v
    ensures m <= OFF_LEVEL ==> r == 0
    ensures m >= 1.0 ==> r == v
  {
    if m <= OFF_LEVEL then 0
    else
      var m' := if m > 1.0 then 1.0 else m;
      ScaledNotAbove(v, m');
      (v as real * m' + 0.5).Floor
  }

  /** `scaleBright` on each channel; `m` is master brightness times the
      animation factor. */
  function ScaleColor(c: Rgb, m: real): (s: Rgb)
    ensures s.r <= c.r && s.g <= c.g && s.b <= c.b
  {
    Rgb(ScaleBright(c.r, m), ScaleBright(c.g, m), ScaleBright(c.b, m))
  }

  /** The logical colour `setLedScaled` records: black when master is off. */
  function LogicalOf(c: Rgb, master: real): (l: Rgb)
    ensures master <= OFF_LEVEL ==> l == Black
    ensures master > OFF_LEVEL ==> l == c
  {
    if master <= OFF_LEVEL then Black else c
  }

  /** The colour `setLedScaled` puts on the bus. */
  function Physical(c: Rgb, master: real, anim: real): (p: Rgb)
    requires 0.0 <= master <= 1.0
    ensures master <= OFF_LEVEL ==> p == Black
    ensures p.r <= c.r && p.g <= c.g && p.b <= c.b
    ensures master == 1.0 && anim == 1.0 ==> p == c
  {
    if master <= OFF_LEVEL then ScaleColor(Black, master) else ScaleColor(c, master * anim)
  }

  // ---------------------------------------------------------------- packing

  /** `r << 16 | g << 8 | b`. */
  function Pack(c: Rgb): (p: u32)
    ensures p < 0x100_0000
    ensures p != NO_COLOR
  {
    c.r * 0x1_0000 + c.g * 0x100 + c.b
  }

  /** `(p >> 16) & 0xFF`, `(p >> 8) & 0xFF`, `p & 0xFF`. */
  function Unpack(p: u32): Rgb {
    Rgb((p / 0x1_0000) % 0x100, (p / 0x100) % 0x100, p % 0x100)
  }

  lemma {:induction false} UnpackPack(c: Rgb)
    ensures Unpack(Pack(c)) == c
  {
    var p := Pack(c);
    assert p / 0x100 == c.r * 0x100 + c.g;
    assert p / 0x1_0000 == c.r;
  }

  lemma {:induction false} PackUnpack(p: u32)
    requires p < 0x100_0000
    ensures Pack(Unpack(p)) == p
  {
    var c := Unpack(p);
    assert p / 0x100 == c.r * 0x100 + c.g;
  }

  /** The colour the service re-sends from the cache; the sentinel goes
      out as black. */
  function ReassertColor(cache: u32): (c: Rgb)
    ensures cache == NO_COLOR ==> c == Black
    ensures cache < 0x100_0000 ==> Pack(c) == cache
  {
    var c := Unpack(if cache == NO_COLOR then 0 else cache);
    if cache < 0x100_0000 then PackUnpack(cache); c else c
  }

  /** The re-asserted colour is the one last written. */
  lemma {:induction false} ReassertRoundTrip(c: Rgb)
    ensures ReassertColor(Pack(c)) == c
  {
    UnpackPack(c);
  }

  /** The de-dup test: the same packed colour, written under
      REASSERT_MS ago, is not written again. */
  predicate SkipWrite(packed: u32, cacheColor: u32, cacheMs: u32, nowMs: u32)
    ensures cacheColor == NO_COLOR && packed < 0x100_0000 ==> !SkipWrite(packed, cacheColor, cacheMs, nowMs)
    ensures nowMs == cacheMs ==> (SkipWrite(packed, cacheColor, cacheMs, nowMs) <==> packed == cacheColor)
  {
    packed == cacheColor && Elapsed(nowMs, cacheMs) < REASSERT_MS
  }

  // ---------------------------------------------------------------- fade

  /** C's `/` for a positive divisor: truncation toward zero. */
  function TruncDiv(a: int, b: int): (q: int)
    requires b > 0
    ensures Abs(q) == Abs(a) / b
    ensures a >= 0 ==> q >= 0
    ensures a <= 0 ==> q <= 0
  {
    if a >= 0 then a / b
    else
      var k := (-a) / b;
      assert 0 <= k;
      -k
  }

  lemma {:induction false} NonPositiveFactor(x: int, k: int)
    requires k > 0 && x * k <= 0
    ensures x <= 0
  {
  }

  lemma {:induction false} FractionBounded(d: nat, i: nat, steps: int)
    requires 0 < steps && i <= steps
    ensures (d * i) / steps <= d
  {
    var q := (d * i) / steps;
    assert d * i <= d * steps by {
      assert d * (steps - i) >= 0;
    }
    assert (q - d) * steps <= 0;
    NonPositiveFactor(q - d, steps);
  }

  lemma {:induction false} NegativeFactor(x: int, k: int)
    requires k > 0 && x * k < 0
    ensures x < 0
  {
  }

  lemma {:induction false} CancelFactor(d: nat, steps: int)
    requires 0 < steps
    ensures (d * steps) / steps == d
  {
    var q := (d * steps) / steps;
    var r := (d * steps) % steps;
    assert (d - q) * steps == r;
    assert (q - d) * steps <= 0;
    NonPositiveFactor(q - d, steps);
    assert (d - q - 1) * steps < 0;
    NegativeFactor(d - q - 1, steps);
  }

  lemma {:induction false} FadeStepBounded(d: int, i: int, steps: int)
    requires 1 <= i <= steps
    ensures Abs(TruncDiv(d * i, steps)) <= Abs(d)
    ensures i == steps ==> TruncDiv(d * i, steps) == d
  {
    assert Abs(d * i) == Abs(d) * i;
    FractionBounded(Abs(d), i, steps);
    if i == steps {
      CancelFactor(Abs(d), steps);
    }
  }

  /** Channel value of fade step `i` of `steps`: `start + (target - start) * i / steps`. */
  function FadeChannel(start: byte, target: byte, i: int, steps: int): (v: byte)
    requires 1 <= i <= steps
    ensures start <= target ==> start <= v <= target
    ensures target <= start ==> target <= v <= start
    ensures i == steps ==> v == target
  {
    FadeStepBounded(target - start, i, steps);
    start + TruncDiv((target - start) * i, steps)
  }

  function FadeColor(start: Rgb, target: Rgb, i: int, steps: int): (c: Rgb)
    requires 1 <= i <= steps
    ensures i == steps ==> c == target
  {
    Rgb(FadeChannel(start.r, target.r, i, steps),
        FadeChannel(start.g, target.g, i, steps),
        FadeChannel(start.b, target.b, i, steps))
  }

  /** The writes of the first `n` fade steps. */
  function FadeWrites(start: Rgb, target: Rgb, n: nat, steps: int, master: real): (w: seq<BusWrite>)
    requires n <= steps
    ensures |w| == n
    ensures n > 0 ==> w[n - 1].color == ScaleColor(FadeColor(start, target, n, steps), master)
    decreases n
  {
    if n == 0 then []
    else FadeWrites(start, target, n - 1, steps, master)
         + [BusWrite(External, ScaleColor(FadeColor(start, target, n, steps), master))]
  }

  /** A complete fade's last frame is the target colour, scaled. */
  lemma {:induction false} FadeEndsAtTarget(start: Rgb, target: Rgb, steps: int, master: real)
    requires steps >= 1
    ensures FadeWrites(start, target, steps, steps, master)[steps - 1]
            == BusWrite(External, ScaleColor(target, master))
  {
  }

  // ---------------------------------------------------------------- trend and mode

  /** The near-zero hysteresis of the trend. */
  function NextTrend(t: Trend, change: real): (t': Trend)
    ensures t == Neutral ==> (t' == Up <==> change > TREND_ENTER)
    ensures t == Neutral ==> (t' == Down <==> change < -TREND_ENTER)
    ensures t == Up ==> (t' == Neutral <==> change < TREND_EXIT) && t' != Down
    ensures t == Down ==> (t' == Neutral <==> change > -TREND_EXIT) && t' != Up
  {
    match t
    case Neutral => if change > TREND_ENTER then Up else if change < -TREND_ENTER then Down else Neutral
    case Up => if change < TREND_EXIT then Neutral else Up
    case Down => if change > -TREND_EXIT then Neutral else Down
  }

  /** +0.03, +0.001, -0.03 from Neutral give Up, Neutral, Down: the exit
      threshold returns Up to Neutral before Down can be entered. */
  lemma {:induction false} TrendSequence()
    ensures NextTrend(Neutral, 0.03) == Up
    ensures NextTrend(Up, 0.001) == Neutral
    ensures NextTrend(Neutral, -0.03) == Down
  {
  }

  function AbsReal(x: real): (r: real)
    ensures r >= 0.0 && (r == x || r == -x)
  {
    if x < 0.0 then -x else x
  }

  /** The magnitude-based animation mode. */
  function ModeFor(change: real): (m: AnimMode)
    ensures m != Party
    ensures m == BreatheFast <==> AbsReal(change) >= EVENT_FAST_THRESH
    ensures m == BreatheSlow <==> EVENT_SLOW_THRESH <= AbsReal(change) < EVENT_FAST_THRESH
    ensures m == Solid <==> AbsReal(change) < EVENT_SLOW_THRESH
  {
    var mag := AbsReal(change);
    if mag >= EVENT_FAST_THRESH then BreatheFast
    else if mag >= EVENT_SLOW_THRESH then BreatheSlow
    else Solid
  }

  /** The base colour of a trend: gray, green or red, one per trend. */
  function TrendColor(t: Trend): (c: Rgb)
    ensures c == Gray <==> t == Neutral
    ensures c == Green <==> t == Up
    ensures c == Red <==> t == Down
  {
    match t
    case Neutral => Gray
    case Up => Green
    case Down => Red
  }

  /** The breathing period of a mode. */
  function PeriodFor(m: AnimMode): (p: u32)
    ensures m == BreatheFast ==> p == BREATHE_FAST_PERIOD_MS
    ensures m != BreatheFast ==> p == BREATHE_SLOW_PERIOD_MS
  {
    if m == BreatheFast then BREATHE_FAST_PERIOD_MS else BREATHE_SLOW_PERIOD_MS
  }

  /** The phase `breatheFactor` feeds to its sine: wall-clock epoch time
      when it is valid, else time since the animation (re)started, both
      modulo the period. */
  function BreathePhase(synced: bool, epochMs: nat, nowMs: u32, startMs: u32, periodMs: u32): (p: nat)
    requires periodMs > 0
    ensures p < periodMs
  {
    if synced then epochMs % periodMs else Elapsed(nowMs, startMs) % periodMs
  }

  /** `breatheFactor` around its sine: `wave` is `(sin(2 pi phase / period) + 1) / 2`,
      which the model takes as given. */
  function BreatheFactor(periodMs: u32, wave: real): (f: real)
    requires 0.0 <= wave <= 1.0
    ensures BREATHE_MIN_FRAC <= f <= 1.0
    ensures periodMs == 0 ==> f == 1.0
    ensures periodMs > 0 && wave == 0.0 ==> f == BREATHE_MIN_FRAC
  {
    if periodMs == 0 then 1.0 else BREATHE_MIN_FRAC + (1.0 - BREATHE_MIN_FRAC) * wave
  }

  /** The Party hue: elapsed time within the rainbow period, as degrees. */
  function PartyHue(nowMs: u32): (h: real)
    ensures 0.0 <= h < 360.0
  {
    ((nowMs % PARTY_PERIOD_MS) as real / PARTY_PERIOD_MS as real) * 360.0
  }

  /** The animation state that `updateLedForPrice` rewrites. */
  datatype Anim = Anim(trend: Trend, mode: AnimMode, base: Rgb)

  /** What one `updateLedForPrice` decides: the new animation state,
      whether the animation clock restarts, and whether it renders the
      base colour at once. */
  datatype PriceStep = PriceStep(anim: Anim, restart: bool, render: bool)

  function OnPrice(a: Anim, change: real, priceOk: bool): (s: PriceStep)
    ensures !priceOk ==> s.anim == Anim(a.trend, Solid, Yellow) && !s.restart && s.render
    ensures priceOk && change >= PARTY_ENTER_THRESH ==>
              s.anim == a.(mode := Party) && !s.render && (s.restart <==> a.mode != Party)
    ensures priceOk && change < PARTY_ENTER_THRESH ==>
              && s.anim.mode == ModeFor(change) && s.anim.mode != Party
              && s.anim.trend == NextTrend(a.trend, change)
              && s.anim.base == TrendColor(s.anim.trend)
              && s.render
              && (s.restart <==> a.mode != s.anim.mode || a.base != s.anim.base)
  {
    if !priceOk then
      PriceStep(a.(mode := Solid, base := Yellow), false, true)
    else if change >= PARTY_ENTER_THRESH then
      PriceStep(a.(mode := Party), a.mode != Party, false)
    else
      var exitParty := a.mode == Party && change < PARTY_EXIT_THRESH;
      var modeBefore := if exitParty then Solid else a.mode;
      var t := NextTrend(a.trend, change);
      var m := ModeFor(change);
      var b := TrendColor(t);
      var changed := m != modeBefore || b != a.base;
      PriceStep(Anim(t, m, b), exitParty || changed, true)
  }

  /** In the code as written, any valid change below the Party entry
      threshold leaves Party, even one above the exit threshold: +25%
      enters, +16% already leaves (for BreatheFast). */
  lemma {:induction false} PartyExit(a: Anim)
    ensures OnPrice(a, 25.0, true).anim.mode == Party
    ensures OnPrice(a.(mode := Party), 16.0, true).anim.mode == BreatheFast
    ensures OnPrice(a.(mode := Party), 14.0, true).anim.mode == BreatheFast
  {
  }

  /** The Party exit the code evidently intends: between the exit and the
      enter threshold Party stays, as it does above the enter threshold,
      and only a change below the exit threshold leaves it. Everything
      else is as written. */
  function OnPriceIntended(a: Anim, change: real, priceOk: bool): (s: PriceStep)
    ensures priceOk && a.mode == Party && PARTY_EXIT_THRESH <= change < PARTY_ENTER_THRESH ==>
              s == PriceStep(a, false, false)
    ensures !(priceOk && a.mode == Party && PARTY_EXIT_THRESH <= change < PARTY_ENTER_THRESH) ==>
              s == OnPrice(a, change, priceOk)
  {
    if priceOk && a.mode == Party && PARTY_EXIT_THRESH <= change < PARTY_ENTER_THRESH then PriceStep(a, false, false)
    else OnPrice(a, change, priceOk)
  }

  /** The hysteresis of Party with the intended exit: a valid change is in
      Party afterwards exactly when it reaches the enter threshold, or when
      Party was on and the change has not fallen below the exit threshold. */
  lemma {:induction false} PartyHysteresis(a: Anim, change: real)
    ensures OnPriceIntended(a, change, true).anim.mode == Party
            <==> change >= PARTY_ENTER_THRESH || (a.mode == Party && change >= PARTY_EXIT_THRESH)
  {
    if change < PARTY_ENTER_THRESH && !(a.mode == Party && change >= PARTY_EXIT_THRESH) {
      assert OnPrice(a, change, true).anim.mode == ModeFor(change);
    }
  }

  /** The +25%, +16%, +14% sequence with the intended exit: enter, remain,
      leave. */
  lemma {:induction false} PartyEnterRemainExit(a: Anim)
    requires a.mode != Party
    ensures var s1 := OnPriceIntended(a, 25.0, true).anim;
            var s2 := OnPriceIntended(s1, 16.0, true).anim;
            var s3 := OnPriceIntended(s2, 14.0, true).anim;
            s1.mode == Party && s2.mode == Party && s3.mode == BreatheFast
  {
    PartyHysteresis(a, 25.0);
  }

  /** What `ledAnimUpdate` renders, as colour and animation factor; None
      when the application is not running. */
  datatype Frame = NoFrame | Frame(color: Rgb, anim: real)

  function AnimFrame(appRunning: bool, priceOk: bool, a: Anim, wave: real, rainbow: Rgb): (f: Frame)
    requires 0.0 <= wave <= 1.0
    ensures !appRunning <==> f == NoFrame
    ensures appRunning && !priceOk ==> f == Frame(Yellow, 1.0)
    ensures appRunning && priceOk && a.mode == Party ==> f == Frame(rainbow, 1.0)
    ensures appRunning && priceOk && a.mode == Solid ==> f == Frame(a.base, 1.0)
    ensures appRunning && priceOk && (a.mode == BreatheSlow || a.mode == BreatheFast) ==>
      f == Frame(a.base, BreatheFactor(PeriodFor(a.mode), wave))
    ensures f.Frame? ==> BREATHE_MIN_FRAC <= f.anim <= 1.0
  {
    if !appRunning then NoFrame
    else if !priceOk then Frame(Yellow, 1.0)
    else if a.mode == Party then Frame(rainbow, 1.0)
    else if a.mode == Solid then Frame(a.base, 1.0)
    else Frame(a.base, BreatheFactor(PeriodFor(a.mode), wave))
  }

  /** The clamp shared by `ledAnimStartTask` and the task itself. */
  function ClampHz(hz: int): (r: int)
    ensures 5 <= r <= 60
    ensures 5 <= hz <= 60 ==> r == hz
    ensures hz < 5 ==> r == 5
    ensures hz > 60 ==> r == 60
  {
    if hz < 5 then 5 else if hz > 60 then 60 else hz
  }

  // ---------------------------------------------------------------- the write path

  /** What the write path reads and never changes: which strips exist and
      the master level. */
  datatype Hw = Hw(hasPixel: bool, hasBoardPixel: bool, master: real)

  /** The statics the write path changes: the logical colour, the
      re-assert cache, the board stamp, and every physical write so far. */
  datatype Output = Output(logical: Rgb, lastColor: u32, lastShowMs: u32, lastBoardOffMs: u32,
                           writes: seq<BusWrite>)

  /** `setLedScaled`: record the logical colour, and write the scaled
      colour unless the cache shows it went out under REASSERT_MS ago. */
  function Scaled(hw: Hw, o: Output, c: Rgb, anim: real, nowMs: u32): (r: Output)
    requires 0.0 <= hw.master <= 1.0
    ensures !hw.hasPixel ==> r == o
    ensures r.lastBoardOffMs == o.lastBoardOffMs
    ensures hw.hasPixel ==> r.logical == LogicalOf(c, hw.master)
    ensures |o.writes| <= |r.writes| <= |o.writes| + 1 && r.writes[..|o.writes|] == o.writes
    ensures hw.hasPixel ==>
              var p := Physical(c, hw.master, anim);
              if SkipWrite(Pack(p), o.lastColor, o.lastShowMs, nowMs)
              then r.writes == o.writes && r.lastColor == o.lastColor && r.lastShowMs == o.lastShowMs
              else r.writes == o.writes + [BusWrite(External, p)] && r.lastColor == Pack(p) && r.lastShowMs == nowMs
  {
    if !hw.hasPixel then o
    else
      var p := Physical(c, hw.master, anim);
      if SkipWrite(Pack(p), o.lastColor, o.lastShowMs, nowMs) then o.(logical := LogicalOf(c, hw.master))
      else o.(logical := LogicalOf(c, hw.master), lastColor := Pack(p), lastShowMs := nowMs,
              writes := o.writes + [BusWrite(External, p)])
  }

  /** Setting the same colour twice in the same millisecond writes once:
      the second call finds it in the cache. */
  lemma {:induction false} ScaledDeduplicates(hw: Hw, o: Output, c: Rgb, anim: real, nowMs: u32)
    requires 0.0 <= hw.master <= 1.0
    ensures Scaled(hw, Scaled(hw, o, c, anim, nowMs), c, anim, nowMs) == Scaled(hw, o, c, anim, nowMs)
  {
    if hw.hasPixel {
      var p := Physical(c, hw.master, anim);
      var o1 := Scaled(hw, o, c, anim, nowMs);
      assert o1.lastColor == Pack(p);
      assert Elapsed(nowMs, o1.lastShowMs) < REASSERT_MS by {
        if !SkipWrite(Pack(p), o.lastColor, o.lastShowMs, nowMs) {
          assert o1.lastShowMs == nowMs;
          ElapsedNoWrap(nowMs, nowMs);
        }
      }
    }
  }

  /** After `setLedScaled` the cache holds the colour on the bus, whether
      it was written now or earlier: the service re-asserts exactly it. */
  lemma {:induction false} ScaledCacheIsShown(hw: Hw, o: Output, c: Rgb, anim: real, nowMs: u32)
    requires 0.0 <= hw.master <= 1.0 && hw.hasPixel
    ensures ReassertColor(Scaled(hw, o, c, anim, nowMs).lastColor) == Physical(c, hw.master, anim)
  {
    ReassertRoundTrip(Physical(c, hw.master, anim));
  }

  /** `ledStatusService`: force the onboard pixel off every
      BOARD_OFF_REASSERT_MS, and re-send the cached colour once
      REASSERT_MS have passed since the last write, unless master is off. */
  function Serviced(hw: Hw, o: Output, nowMs: u32): (r: Output)
    ensures r.logical == o.logical && r.lastColor == o.lastColor
    ensures var boardDue := hw.hasBoardPixel && Elapsed(nowMs, o.lastBoardOffMs) >= BOARD_OFF_REASSERT_MS;
            var resend := hw.hasPixel && hw.master > OFF_LEVEL && Elapsed(nowMs, o.lastShowMs) >= REASSERT_MS;
            && r.writes == o.writes
                           + (if boardDue then [BusWrite(Board, Black)] else [])
                           + (if resend then [BusWrite(External, ReassertColor(o.lastColor))] else [])
            && r.lastBoardOffMs == (if boardDue then nowMs else o.lastBoardOffMs)
            && r.lastShowMs == (if resend then nowMs else o.lastShowMs)
  {
    var boardDue := hw.hasBoardPixel && Elapsed(nowMs, o.lastBoardOffMs) >= BOARD_OFF_REASSERT_MS;
    var resend := hw.hasPixel && hw.master > OFF_LEVEL && Elapsed(nowMs, o.lastShowMs) >= REASSERT_MS;
    var o1 := if boardDue then o.(writes := o.writes + [BusWrite(Board, Black)], lastBoardOffMs := nowMs) else o;
    if resend then o1.(writes := o1.writes + [BusWrite(External, ReassertColor(o.lastColor))], lastShowMs := nowMs)
    else o1
  }

  /** Servicing twice at the same moment is servicing once: whatever was
      due has just been stamped. */
  lemma {:induction false} ServiceIdempotent(hw: Hw, o: Output, nowMs: u32)
    ensures Serviced(hw, Serviced(hw, o, nowMs), nowMs) == Serviced(hw, o, nowMs)
  {
    ElapsedNoWrap(nowMs, nowMs);
  }

  /** The factor `updateLedForPrice` renders with at once: full for a
      solid colour, the current breathing factor otherwise. */
  function RenderFactor(m: AnimMode, wave: real): (f: real)
    requires 0.0 <= wave <= 1.0
    ensures BREATHE_MIN_FRAC <= f <= 1.0
    ensures m == Solid ==> f == 1.0
  {
    if m == Solid then 1.0 else BreatheFactor(PeriodFor(m), wave)
  }

  /** `ledAnimUpdate`: the frame `AnimFrame` selects, through `setLedScaled`. */
  function AnimUpdated(hw: Hw, o: Output, appRunning: bool, priceOk: bool, a: Anim,
                       wave: real, rainbow: Rgb, nowMs: u32): (r: Output)
    requires 0.0 <= hw.master <= 1.0 && 0.0 <= wave <= 1.0
    ensures !appRunning ==> r == o
    ensures appRunning ==> var f := AnimFrame(appRunning, priceOk, a, wave, rainbow);
                           r == Scaled(hw, o, f.color, f.anim, nowMs)
    ensures |o.writes| <= |r.writes| <= |o.writes| + 1 && r.writes[..|o.writes|] == o.writes
  {
    match AnimFrame(appRunning, priceOk, a, wave, rainbow)
    case NoFrame => o
    case Frame(c, f) => Scaled(hw, o, c, f, nowMs)
  }

  /** One tick of the background task: `ledStatusService`, then
      `ledAnimUpdate` from the published context. It appends at most three
      writes (board off, re-assert, frame) and never rewrites history. */
  function TaskTicked(hw: Hw, o: Output, appRunning: bool, priceOk: bool, a: Anim,
                      wave: real, rainbow: Rgb, nowMs: u32): (r: Output)
    requires 0.0 <= hw.master <= 1.0 && 0.0 <= wave <= 1.0
    ensures |o.writes| <= |r.writes| <= |o.writes| + 3
    ensures r.writes[..|o.writes|] == o.writes
  {
    var s := Serviced(hw, o, nowMs);
    var r := AnimUpdated(hw, s, appRunning, priceOk, a, wave, rainbow, nowMs);
    assert r.writes[..|s.writes|] == s.writes;
    assert r.writes[..|o.writes|] == s.writes[..|o.writes|];
    r
  }

  /** With the application running, a task tick leaves the frame it drew
      in the cache, so the next re-assert repeats exactly it. */
  lemma {:induction false} TaskTickCachesFrame(hw: Hw, o: Output, priceOk: bool, a: Anim,
                                               wave: real, rainbow: Rgb, nowMs: u32)
    requires 0.0 <= hw.master <= 1.0 && 0.0 <= wave <= 1.0 && hw.hasPixel
    ensures var f := AnimFrame(true, priceOk, a, wave, rainbow);
            ReassertColor(TaskTicked(hw, o, true, priceOk, a, wave, rainbow, nowMs).lastColor)
              == Physical(f.color, hw.master, f.anim)
  {
    var f := AnimFrame(true, priceOk, a, wave, rainbow);
    ScaledCacheIsShown(hw, Serviced(hw, o, nowMs), f.color, f.anim, nowMs);
  }

  // ---------------------------------------------------------------- the statics

  class Led {
    var hasPixel: bool
    var hasBoardPixel: bool
    var master: real
    var logical: Rgb
    var lastColor: u32
    var lastShowMs: u32
    var lastBoardOffMs: u32
    var trend: Trend
    var mode: AnimMode
    var base: Rgb
    var animStartMs: u32
    var animLastMs: u32
    var taskRunning: bool
    var animHz: int
    var taskCore: int
    var ctxAppRunning: bool
    var ctxPriceOk: bool
    /** Every physical write, in order. */
    var writes: seq<BusWrite>

    ghost predicate Valid()
      reads this
    {
      && 0.0 <= master <= 1.0
      && (lastColor == NO_COLOR || lastColor < 0x100_0000)
      && 5 <= animHz <= 60
      && 0 <= taskCore <= 1
    }

    function AnimState(): Anim
      reads this
    {
      Anim(trend, mode, base)
    }

    function HwOf(): Hw
      reads this
    {
      Hw(hasPixel, hasBoardPixel, master)
    }

    function Out(): Output
      reads this
    {
      Output(logical, lastColor, lastShowMs, lastBoardOffMs, writes)
    }

    /** The statics' initial values. */
    constructor ()
      ensures Valid()
      ensures !hasPixel && !hasBoardPixel && !taskRunning && writes == []
      ensures master == 0.5 && logical == Black && lastColor == NO_COLOR
      ensures AnimState() == Anim(Neutral, Solid, Gray) && animHz == 30
    {
      hasPixel, hasBoardPixel := false, false;
      master := 0.5;
      logical := Black;
      lastColor, lastShowMs, lastBoardOffMs := NO_COLOR, 0, 0;
      trend, mode, base := Neutral, Solid, Gray;
      animStartMs, animLastMs := 0, 0;
      taskRunning, animHz, taskCore := false, 30, 0;
      ctxAppRunning, ctxPriceOk := false, false;
      writes := [];
    }

    /** `ledStatusBegin`: create and clear each strip once, then reset the cache. */
    method Begin(nowMs: u32)
      requires Valid()
      modifies this`hasPixel, this`hasBoardPixel, this`writes, this`lastColor,
               this`lastShowMs, this`animStartMs, this`animLastMs
      ensures Valid() && hasPixel && hasBoardPixel
      ensures writes == old(writes)
                        + (if old(hasPixel) then [] else [BusWrite(External, Black)])
                        + (if old(hasBoardPixel) then [] else [BusWrite(Board, Black)])
      ensures lastColor == NO_COLOR && lastShowMs == 0
      ensures animStartMs == nowMs && animLastMs == 0
    {
      if !hasPixel {
        hasPixel := true;
        writes := writes + [BusWrite(External, Black)];
      }
      if !hasBoardPixel {
        hasBoardPixel := true;
        writes := writes + [BusWrite(Board, Black)];
      }
      lastColor := NO_COLOR;
      lastShowMs := 0;
      animStartMs := nowMs;
      animLastMs := 0;
    }

    method SetMasterBrightness(level: real)
      requires Valid()
      modifies this`master
      ensures Valid() && master == ClampUnit(level)
    {
      var m := level;
      if m < 0.0 {
        m := 0.0;
      }
      if m > 1.0 {
        m := 1.0;
      }
      master := m;
    }

    /** `setLedScaled`: record the logical colour, scale it, and write it
      unless the cache shows the same colour written within REASSERT_MS. */
    method SetScaled(c: Rgb, anim: real, nowMs: u32)
      requires Valid()
      modifies this`logical, this`lastColor, this`lastShowMs, this`writes
      ensures Valid()
      ensures Out() == Scaled(HwOf(), old(Out()), c, anim, nowMs)
    {
      if !hasPixel {
        return;
      }
      logical := LogicalOf(c, master);
      var shown := Physical(c, master, anim);
      WriteDeduplicated(shown, nowMs);
    }

    /** The packing and de-duplication half of `setLedScaled`. */
    method WriteDeduplicated(shown: Rgb, nowMs: u32)
      requires Valid()
      modifies this`lastColor, this`lastShowMs, this`writes
      ensures Valid()
      ensures if SkipWrite(Pack(shown), old(lastColor), old(lastShowMs), nowMs)
              then writes == old(writes) && lastColor == old(lastColor) && lastShowMs == old(lastShowMs)
              else writes == old(writes) + [BusWrite(External, shown)] && lastColor == Pack(shown) && lastShowMs == nowMs
    {
      var packed := Pack(shown);
      if packed == lastColor && Elapsed(nowMs, lastShowMs) < REASSERT_MS {
        return;
      }
      writes := writes + [BusWrite(External, shown)];
      lastColor := packed;
      lastShowMs := nowMs;
    }

    /** `setLed`: full animation factor. */
    method SetLed(c: Rgb, nowMs: u32)
      requires Valid()
      modifies this`logical, this`lastColor, this`lastShowMs, this`writes
      ensures Valid()
      ensures Out() == Scaled(HwOf(), old(Out()), c, 1.0, nowMs)
    {
      SetScaled(c, 1.0, nowMs);
    }

    /** `ledStatusService`: force the onboard pixel off every
      BOARD_OFF_REASSERT_MS, and re-send the cached colour once
      REASSERT_MS have passed since the last write, unless master is off. */
    method Service(nowMs: u32)
      requires Valid()
      modifies this`writes, this`lastBoardOffMs, this`lastShowMs
      ensures Valid()
      ensures Out() == Serviced(HwOf(), old(Out()), nowMs)
    {
      if hasBoardPixel && Elapsed(nowMs, lastBoardOffMs) >= BOARD_OFF_REASSERT_MS {
        writes := writes + [BusWrite(Board, Black)];
        lastBoardOffMs := nowMs;
      }
      if !hasPixel {
        return;
      }
      if master <= OFF_LEVEL {
        return;
      }
      if Elapsed(nowMs, lastShowMs) >= REASSERT_MS {
        var packed := lastColor;
        if packed == NO_COLOR {
          packed := 0;
        }
        var shown := Rgb((packed / 0x1_0000) % 0x100, (packed / 0x100) % 0x100, packed % 0x100);
        writes := writes + [BusWrite(External, shown)];
        lastShowMs := nowMs;
      }
    }

    /** `fadeLedTo`: interpolate from the logical colour to `target` in
      `steps` writes, then record the target as logical and in the cache.
      `nowMs` is the clock at the end of the fade. */
    method FadeTo(target: Rgb, steps: int, nowMs: u32)
      requires Valid()
      modifies this`logical, this`lastColor, this`lastShowMs, this`writes
      ensures Valid()
      ensures !hasPixel ==> unchanged(this)
      ensures hasPixel ==>
        && writes == old(writes) + (if steps > 0 then FadeWrites(old(logical), target, steps, steps, master) else [])
        && logical == target
        && lastColor == Pack(ScaleColor(target, master))
        && lastShowMs == nowMs
    {
      if !hasPixel {
        return;
      }
      if steps > 0 {
        PlayFade(logical, target, steps, nowMs);
      }
      logical := target;
      lastColor := Pack(ScaleColor(target, master));
      lastShowMs := nowMs;
    }

    /** The frame loop of `fadeLedTo`. */
    method PlayFade(start: Rgb, target: Rgb, steps: int, nowMs: u32)
      requires steps > 0
      modifies this`lastShowMs, this`writes
      ensures writes == old(writes) + FadeWrites(start, target, steps, steps, master)
      ensures lastShowMs == nowMs
    {
      var i := 1;
      while i <= steps
        invariant 1 <= i <= steps + 1
        invariant writes == old(writes) + FadeWrites(start, target, i - 1, steps, master)
        invariant i > 1 ==> lastShowMs == nowMs
      {
        var frame := FadeColor(start, target, i, steps);
        writes := writes + [BusWrite(External, ScaleColor(frame, master))];
        lastShowMs := nowMs;
        i := i + 1;
      }
    }

    /** `updateLedForPrice`, as written (see `OnPrice`). `wave` stands for
      the sine term of the breathing factor at this moment. */
    method UpdateForPrice(change: real, priceOk: bool, nowMs: u32, wave: real)
      requires Valid() && 0.0 <= wave <= 1.0
      modifies this`trend, this`mode, this`base, this`animStartMs, this`animLastMs,
               this`logical, this`lastColor, this`lastShowMs, this`writes
      ensures Valid()
      ensures var s := OnPrice(old(AnimState()), change, priceOk);
              && AnimState() == s.anim
              && (s.restart ==> animStartMs == nowMs && animLastMs == 0)
              && (!s.restart ==> animStartMs == old(animStartMs) && animLastMs == old(animLastMs))
              && Out() == if s.render then Scaled(HwOf(), old(Out()), s.anim.base, RenderFactor(s.anim.mode, wave), nowMs)
                          else old(Out())
    {
      var s := OnPrice(AnimState(), change, priceOk);
      trend, mode, base := s.anim.trend, s.anim.mode, s.anim.base;
      if s.restart {
        animStartMs := nowMs;
        animLastMs := 0;
      }
      if s.render {
        var f := 1.0;
        if mode != Solid {
          f := BreatheFactor(PeriodFor(mode), wave);
        }
        SetScaled(base, f, nowMs);
      }
    }

    /** `ledAnimUpdate`. `wave` and `rainbow` stand for the breathing sine
      term and the Party colour at this moment. */
    method AnimUpdate(appRunning: bool, priceOk: bool, nowMs: u32, wave: real, rainbow: Rgb)
      requires Valid() && 0.0 <= wave <= 1.0
      modifies this`logical, this`lastColor, this`lastShowMs, this`writes
      ensures Valid()
      ensures Out() == AnimUpdated(HwOf(), old(Out()), appRunning, priceOk, AnimState(), wave, rainbow, nowMs)
    {
      if !appRunning {
        return;
      }
      if !priceOk {
        SetScaled(Yellow, 1.0, nowMs);
        return;
      }
      if mode == Party {
        SetScaled(rainbow, 1.0, nowMs);
        return;
      }
      if mode == Solid {
        SetScaled(base, 1.0, nowMs);
        return;
      }
      var f := BreatheFactor(PeriodFor(mode), wave);
      SetScaled(base, f, nowMs);
    }

    /** `ledAnimLoop`: publish the context; with the background task
      running only service the strip, otherwise animate at most every
      ANIM_MIN_UPDATE_MS. */
    method AnimLoop(appRunning: bool, priceOk: bool, nowMs: u32, wave: real, rainbow: Rgb)
      requires Valid() && 0.0 <= wave <= 1.0
      modifies this`ctxAppRunning, this`ctxPriceOk, this`animLastMs, this`lastBoardOffMs,
               this`logical, this`lastColor, this`lastShowMs, this`writes
      ensures Valid()
      ensures ctxAppRunning == appRunning && ctxPriceOk == priceOk
      ensures taskRunning ==> Out() == Serviced(HwOf(), old(Out()), nowMs) && animLastMs == old(animLastMs)
      ensures !taskRunning && Elapsed(nowMs, old(animLastMs)) < ANIM_MIN_UPDATE_MS ==>
                Out() == old(Out()) && animLastMs == old(animLastMs)
      ensures !taskRunning && Elapsed(nowMs, old(animLastMs)) >= ANIM_MIN_UPDATE_MS ==>
                && Out() == AnimUpdated(HwOf(), old(Out()), appRunning, priceOk, AnimState(), wave, rainbow, nowMs)
                && animLastMs == nowMs
    {
      ctxAppRunning := appRunning;
      ctxPriceOk := priceOk;
      if taskRunning {
        Service(nowMs);
        return;
      }
      if Elapsed(nowMs, animLastMs) < ANIM_MIN_UPDATE_MS {
        return;
      }
      animLastMs := nowMs;
      AnimUpdate(appRunning, priceOk, nowMs, wave, rainbow);
    }

    /** One tick of the background task: service, then animate from the
      published context. */
    method TaskTick(nowMs: u32, wave: real, rainbow: Rgb)
      requires Valid() && 0.0 <= wave <= 1.0
      modifies this`lastBoardOffMs, this`logical, this`lastColor, this`lastShowMs, this`writes
      ensures Valid()
      ensures Out() == TaskTicked(HwOf(), old(Out()), ctxAppRunning, ctxPriceOk, AnimState(), wave, rainbow, nowMs)
    {
      Service(nowMs);
      AnimUpdate(ctxAppRunning, ctxPriceOk, nowMs, wave, rainbow);
    }

    /** `ledAnimStartTask`: once only; clamps the rate and the core.
        `created` is whether the task creation succeeds; when it fails the
        handle stays null, so the main loop keeps animating and a later
        call tries again. */
    method StartTask(hz: int, core: int, created: bool)
      requires Valid() && 0 <= hz < 0x1_0000 && 0 <= core < 0x100
      modifies this`taskRunning, this`animHz, this`taskCore
      ensures Valid()
      ensures taskRunning <==> old(taskRunning) || created
      ensures old(taskRunning) ==> animHz == old(animHz) && taskCore == old(taskCore)
      ensures !old(taskRunning) ==> animHz == ClampHz(hz) && taskCore == (if core > 1 then 0 else core)
    {
      if taskRunning {
        return;
      }
      var h := hz;
      if h < 5 {
        h := 5;
      }
      if h > 60 {
        h := 60;
      }
      animHz := h;
      var c := core;
      if c > 1 {
        c := 0;
      }
      taskCore := c;
      taskRunning := created;
    }
  }
}
