/**
 A model of Dave Green's "cubehelix" colour scheme (D. A. Green 2011,
 Bull. Astr. Soc. India 39, 289) as built by `cmap` in cubehelix.py.

 The trigonometric functions and the gamma power are floating-point
 numerics; here they are parameters of the model (the `Numerics` record),
 about which only the endpoint facts of the power are ever assumed
 (`PowLaws`). All arithmetic is on exact reals.
 */
module CubeHelix {

  /** Number of table entries; `nlev` is fixed to 256 in the source. */
  const Levels: nat := 256

  /** The value of Python's `math.pi`, as an exact decimal. */
  const Pi: real := 3.141592653589793

  /** The five keyword parameters of `cmap`. */
  datatype Config = Config(start: real, rot: real, gamma: real, hue: real, reverse: bool)

  /** The defaults of `cmap`. */
  const Default: Config := Config(0.5, -1.5, 1.0, 1.2, false)

  /** The numeric library: `np.cos`, `np.sin` and `**` on reals. */
  datatype Numerics = Numerics(cos: real -> real, sin: real -> real, pow: (real, real) -> real)

  /** The only facts about the power that the colour map relies on:
      1**g == 1 for every g, and 0**g == 0 for every positive g. */
  ghost predicate PowLaws(num: Numerics)
  {
    && (forall g :: num.pow(1.0, g) == 1.0)
    && (forall g :: g > 0.0 ==> num.pow(0.0, g) == 0.0)
  }

  /** One breakpoint `(x, y0, y1)` of a segmented colour map channel. */
  datatype Breakpoint = Breakpoint(x: real, y0: real, y1: real)

  /** The dictionary `{'red': rr, 'blue': bb, 'green': gg}` that is handed
      to the colour-map constructor. */
  datatype CDict = CDict(red: seq<Breakpoint>, blue: seq<Breakpoint>, green: seq<Breakpoint>)

  /** The three colour channels as parallel sequences. */
  datatype Channels = Channels(red: seq<real>, grn: seq<real>, blu: seq<real>)
  {
    ghost predicate SameLength(n: nat)
    {
      |red| == n && |grn| == n && |blu| == n
    }
  }

  // ---------------------------------------------------------------------
  // The grid and the elementwise formulas
  // ---------------------------------------------------------------------

  /** Position `k` of an evenly spaced grid of `n` points on [0,1]. */
  function Fraction(k: nat, n: nat): (t: real)
    requires n >= 2
    ensures k == 0 ==> t == 0.0
    ensures k == n - 1 ==> t == 1.0
    ensures k < n ==> 0.0 <= t <= 1.0
  {
    k as real / (n - 1) as real
  }

  lemma FractionMonotone(i: nat, j: nat, n: nat)
    requires n >= 2 && i < j
    ensures Fraction(i, n) < Fraction(j, n)
  {
  }

  /** `np.arange(nlev)/(nlev-1.)`: n points, from exactly 0 to exactly 1,
      strictly increasing, all within [0,1]. */
  function Grid(n: nat): (fract: seq<real>)
    requires n >= 2
    ensures |fract| == n
    ensures fract[0] == 0.0 && fract[n - 1] == 1.0
    ensures forall i, j :: 0 <= i < j < n ==> fract[i] < fract[j]
    ensures forall k :: 0 <= k < n ==> 0.0 <= fract[k] <= 1.0
  {
    var fract := seq(n, k requires 0 <= k < n => Fraction(k, n));
    forall i, j | 0 <= i < j < n
      ensures fract[i] < fract[j]
    {
      FractionMonotone(i, j, n);
    }
    fract
  }

  /** The hue angle at grid position `t`; it is computed from the
      unwarped position, before gamma is applied. */
  function HueAngle(start: real, rot: real, t: real): real
  {
    2.0 * Pi * (start / 3.0 + 1.0 + rot * t)
  }

  /** The amplitude away from the grey diagonal: it vanishes at both ends of
      the intensity range and everywhere when `hue` is 0. */
  function Amplitude(hue: real, f: real): (amp: real)
    ensures f == 0.0 || f == 1.0 || hue == 0.0 ==> amp == 0.0
    ensures hue >= 0.0 && 0.0 <= f <= 1.0 ==> 0.0 <= amp <= hue / 8.0
  {
    var amp := hue * f * (1.0 - f) / 2.0;
    AmplitudeBound(hue, f, amp);
    amp
  }

  /** f(1-f) is at most 1/4 on [0,1], so the amplitude is at most hue/8. */
  lemma AmplitudeBound(hue: real, f: real, amp: real)
    requires amp == hue * f * (1.0 - f) / 2.0
    ensures hue >= 0.0 && 0.0 <= f <= 1.0 ==> 0.0 <= amp <= hue / 8.0
  {
    if hue < 0.0 || f < 0.0 || f > 1.0 {
      return;
    }
    var q := f * (1.0 - f);
    ProductBound(f);
    ScaleMonotone(hue, 0.0, q);
    ScaleMonotone(hue, q, 0.25);
    ProductAssociative(hue, f, 1.0 - f);
    var m := hue * f * (1.0 - f);
    assert 0.0 <= m <= hue * 0.25;
    assert amp == m / 2.0;
  }

  /** 0 <= f(1-f) <= 1/4 on [0,1]. */
  lemma ProductBound(f: real)
    requires 0.0 <= f <= 1.0
    ensures 0.0 <= f * (1.0 - f) <= 0.25
  {
    var d := f - 0.5;
    assert f * (1.0 - f) == 0.25 - d * d;
    SquareNonNegative(d);
    NonNegativeProduct(f, 1.0 - f);
  }

  lemma SquareNonNegative(d: real)
    ensures d * d >= 0.0
  {
    if d < 0.0 {
      NonNegativeProduct(-d, -d);
      assert d * d == (-d) * (-d);
    } else {
      NonNegativeProduct(d, d);
    }
  }

  lemma ScaleMonotone(c: real, a: real, b: real)
    requires c >= 0.0 && a <= b
    ensures c * a <= c * b
  {
    NonNegativeProduct(c, b - a);
    assert c * (b - a) == c * b - c * a;
  }

  lemma ProductAssociative(a: real, b: real, c: real)
    ensures a * b * c == a * (b * c)
  {
  }

  lemma NonNegativeProduct(a: real, b: real)
    requires a >= 0.0 && b >= 0.0
    ensures a * b >= 0.0
  {
  }

  /** The three main equations: intensity plus amplitude times a fixed
      combination of the cosine and sine of the hue angle. */
  function RedOf(num: Numerics, f: real, amp: real, angle: real): real
  {
    f + amp * (-0.14861 * num.cos(angle) + 1.78277 * num.sin(angle))
  }

  function GreenOf(num: Numerics, f: real, amp: real, angle: real): real
  {
    f + amp * (-0.29227 * num.cos(angle) - 0.90649 * num.sin(angle))
  }

  function BlueOf(num: Numerics, f: real, amp: real, angle: real): real
  {
    f + amp * (1.97294 * num.cos(angle))
  }

  /** Where the amplitude is 0, all three equations give the intensity. */
  lemma NoAmplitudeIsGrey(num: Numerics, f: real, angle: real)
    ensures RedOf(num, f, 0.0, angle) == f
    ensures GreenOf(num, f, 0.0, angle) == f
    ensures BlueOf(num, f, 0.0, angle) == f
  {
  }

  // ---------------------------------------------------------------------
  // The vectorised pipeline before clipping (elementwise sequence maps)
  // ---------------------------------------------------------------------

  function Angles(start: real, rot: real, fract: seq<real>): (angle: seq<real>)
    ensures |angle| == |fract|
  {
    seq(|fract|, k requires 0 <= k < |fract| => HueAngle(start, rot, fract[k]))
  }

  function Warped(num: Numerics, gamma: real, fract: seq<real>): (f: seq<real>)
    ensures |f| == |fract|
  {
    seq(|fract|, k requires 0 <= k < |fract| => num.pow(fract[k], gamma))
  }

  function Amplitudes(hue: real, f: seq<real>): (amp: seq<real>)
    ensures |amp| == |f|
  {
    seq(|f|, k requires 0 <= k < |f| => Amplitude(hue, f[k]))
  }

  function Reds(num: Numerics, f: seq<real>, amp: seq<real>, angle: seq<real>): (red: seq<real>)
    requires |amp| == |f| && |angle| == |f|
    ensures |red| == |f|
  {
    seq(|f|, k requires 0 <= k < |f| => RedOf(num, f[k], amp[k], angle[k]))
  }

  function Greens(num: Numerics, f: seq<real>, amp: seq<real>, angle: seq<real>): (grn: seq<real>)
    requires |amp| == |f| && |angle| == |f|
    ensures |grn| == |f|
  {
    seq(|f|, k requires 0 <= k < |f| => GreenOf(num, f[k], amp[k], angle[k]))
  }

  function Blues(num: Numerics, f: seq<real>, amp: seq<real>, angle: seq<real>): (blu: seq<real>)
    requires |amp| == |f| && |angle| == |f|
    ensures |blu| == |f|
  {
    seq(|f|, k requires 0 <= k < |f| => BlueOf(num, f[k], amp[k], angle[k]))
  }

  /** The unclipped channels of an `n`-point map. */
  function RawChannels(num: Numerics, p: Config, n: nat): (c: Channels)
    requires n >= 2
    ensures c.SameLength(n)
  {
    var fract := Grid(n);
    var angle := Angles(p.start, p.rot, fract);
    var f := Warped(num, p.gamma, fract);
    var amp := Amplitudes(p.hue, f);
    Channels(Reds(num, f, amp, angle), Greens(num, f, amp, angle), Blues(num, f, amp, angle))
  }

  /** Entry k of the raw channels: the angle is taken at the grid point
      k/(n-1) itself and the intensity is that point raised to gamma. */
  lemma RawChannelsAt(num: Numerics, p: Config, n: nat, k: nat)
    requires n >= 2 && k < n
    ensures var t := Fraction(k, n);
            var f := num.pow(t, p.gamma);
            var amp := Amplitude(p.hue, f);
            var angle := HueAngle(p.start, p.rot, t);
            var c := RawChannels(num, p, n);
            && c.red[k] == RedOf(num, f, amp, angle)
            && c.grn[k] == GreenOf(num, f, amp, angle)
            && c.blu[k] == BlueOf(num, f, amp, angle)
  {
  }

  /** Gamma never reaches the hue angle: for every gamma g, raw entry k is
      the main equation at intensity t**g, but always at the angle of the
      unwarped grid point t = k/(n-1). */
  lemma GammaOnlyWarpsIntensity(num: Numerics, p: Config, n: nat, k: nat)
    requires n >= 2 && k < n
    ensures forall g :: var t := Fraction(k, n);
                        var f := num.pow(t, g);
                        RawChannels(num, p.(gamma := g), n).red[k] == RedOf(num, f, Amplitude(p.hue, f), HueAngle(p.start, p.rot, t))
    ensures forall g :: var t := Fraction(k, n);
                        var f := num.pow(t, g);
                        RawChannels(num, p.(gamma := g), n).grn[k] == GreenOf(num, f, Amplitude(p.hue, f), HueAngle(p.start, p.rot, t))
    ensures forall g :: var t := Fraction(k, n);
                        var f := num.pow(t, g);
                        RawChannels(num, p.(gamma := g), n).blu[k] == BlueOf(num, f, Amplitude(p.hue, f), HueAngle(p.start, p.rot, t))
  {
    forall g {
      RawChannelsAt(num, p.(gamma := g), n, k);
    }
  }

  // ---------------------------------------------------------------------
  // Clipping
  // ---------------------------------------------------------------------

  function ClipHigh(x: real): real { if x > 1.0 then 1.0 else x }

  function ClipLow(x: real): real { if x < 0.0 then 0.0 else x }

  /** The two masked writes in sequence: first values above 1, then values
      below 0. The result is the nearest point of [0,1]. */
  function Clamp(x: real): (y: real)
    ensures 0.0 <= y <= 1.0
    ensures 0.0 <= x <= 1.0 ==> y == x
    ensures x > 1.0 ==> y == 1.0
    ensures x < 0.0 ==> y == 0.0
  {
    ClipLow(ClipHigh(x))
  }

  function ClipHighAll(s: seq<real>): (r: seq<real>)
    ensures |r| == |s|
  {
    seq(|s|, i requires 0 <= i < |s| => ClipHigh(s[i]))
  }

  function ClipLowAll(s: seq<real>): (r: seq<real>)
    ensures |r| == |s|
  {
    seq(|s|, i requires 0 <= i < |s| => ClipLow(s[i]))
  }

  /** One channel after both masked writes: pointwise clamping, so every
      value lies in [0,1] and values already there are kept. */
  function ClampAll(s: seq<real>): (r: seq<real>)
    ensures |r| == |s|
    ensures forall i :: 0 <= i < |s| ==> r[i] == Clamp(s[i])
    ensures forall i :: 0 <= i < |s| ==> 0.0 <= r[i] <= 1.0
    ensures forall i :: 0 <= i < |s| && 0.0 <= s[i] <= 1.0 ==> r[i] == s[i]
  {
    ClipLowAll(ClipHighAll(s))
  }

  /** Each channel is clamped on its own. */
  function ClampChannels(c: Channels): Channels
  {
    Channels(ClampAll(c.red), ClampAll(c.grn), ClampAll(c.blu))
  }

  // ---------------------------------------------------------------------
  // Reversal
  // ---------------------------------------------------------------------

  /** `s[::-1]`. */
  function Reversed(s: seq<real>): (r: seq<real>)
    ensures |r| == |s|
  {
    seq(|s|, k requires 0 <= k < |s| => s[|s| - 1 - k])
  }

  /** Reversing twice gives back the original. */
  lemma ReversedInvolution(s: seq<real>)
    ensures Reversed(Reversed(s)) == s
  {

  }

  /** Clamping is pointwise, so it commutes with reversal. */
  lemma ClampReverseCommute(s: seq<real>)
    ensures ClampAll(Reversed(s)) == Reversed(ClampAll(s))
  {

  }

  /** All three channels reversed in lockstep. */
  function ReverseChannels(c: Channels): Channels
  {
    Channels(Reversed(c.red), Reversed(c.grn), Reversed(c.blu))
  }

  // ---------------------------------------------------------------------
  // The breakpoint table
  // ---------------------------------------------------------------------

  /** The breakpoint list of one channel: entry k is at the grid point
      k/(n-1) and has equal left and right values c[k], so the map has no
      jumps. */
  function Table(c: seq<real>): (rows: seq<Breakpoint>)
    requires |c| >= 2
    ensures |rows| == |c|
    ensures forall k :: 0 <= k < |c| ==> rows[k].x == Grid(|c|)[k]
    ensures forall k :: 0 <= k < |c| ==> rows[k].y0 == c[k] && rows[k].y1 == c[k]
  {
    seq(|c|, k requires 0 <= k < |c| => Breakpoint(Fraction(k, |c|), c[k], c[k]))
  }

  /** The channels after clipping and, if asked for, reversal. */
  function FinalChannels(num: Numerics, p: Config, n: nat): (c: Channels)
    requires n >= 2
    ensures c.SameLength(n)
    ensures forall k :: 0 <= k < n ==>
      var raw := RawChannels(num, p, n);
      var j := if p.reverse then n - 1 - k else k;
      c.red[k] == Clamp(raw.red[j]) && c.grn[k] == Clamp(raw.grn[j]) && c.blu[k] == Clamp(raw.blu[j])
    ensures forall k :: 0 <= k < n ==>
      0.0 <= c.red[k] <= 1.0 && 0.0 <= c.grn[k] <= 1.0 && 0.0 <= c.blu[k] <= 1.0
  {
    var clamped := ClampChannels(RawChannels(num, p, n));
    if p.reverse then ReverseChannels(clamped) else clamped
  }

  /** The `cdict` of an `n`-point map with configuration `p`. */
  function Colormap(num: Numerics, p: Config, n: nat): (d: CDict)
    requires n >= 2
    ensures |d.red| == n && |d.blue| == n && |d.green| == n
  {
    var c := FinalChannels(num, p, n);
    CDict(Table(c.red), Table(c.blu), Table(c.grn))
  }

  // ---------------------------------------------------------------------
  // Properties of the colour map
  // ---------------------------------------------------------------------

  /** The colour of entry k of the final map, read from the three lists. */
  function ColourAt(d: CDict, k: nat): (real, real, real)
    requires k < |d.red| && k < |d.green| && k < |d.blue|
  {
    (d.red[k].y0, d.green[k].y0, d.blue[k].y0)
  }

  /** Every list has n entries at the grid points in increasing order, from
      0 to 1, every value lies in [0,1] and the two values of each entry
      agree. */
  lemma ColormapShape(num: Numerics, p: Config, n: nat)
    requires n >= 2
    ensures var d := Colormap(num, p, n);
            && d.red[0].x == 0.0 && d.red[n - 1].x == 1.0
            && (forall i, j :: 0 <= i < j < n ==> d.red[i].x < d.red[j].x)
            && (forall k :: 0 <= k < n ==> d.red[k].x == d.green[k].x == d.blue[k].x == Fraction(k, n))
            && (forall k :: 0 <= k < n ==> d.red[k].y0 == d.red[k].y1 && 0.0 <= d.red[k].y0 <= 1.0)
            && (forall k :: 0 <= k < n ==> d.green[k].y0 == d.green[k].y1 && 0.0 <= d.green[k].y0 <= 1.0)
            && (forall k :: 0 <= k < n ==> d.blue[k].y0 == d.blue[k].y1 && 0.0 <= d.blue[k].y0 <= 1.0)
  {

  }

  /** Reversal law: the reversed map has at entry k the colour that the
      unreversed one has at entry n-1-k, for all three channels at once,
      and the x coordinates are the same in both. */
  lemma ReverseLaw(num: Numerics, p: Config, n: nat, k: nat)
    requires n >= 2 && k < n
    ensures var fwd := Colormap(num, p.(reverse := false), n);
            var bwd := Colormap(num, p.(reverse := true), n);
            && ColourAt(bwd, k) == ColourAt(fwd, n - 1 - k)
            && bwd.red[k].x == fwd.red[k].x
            && bwd.green[k].x == fwd.green[k].x
            && bwd.blue[k].x == fwd.blue[k].x
  {
    var raw := RawChannels(num, p, n);
    assert RawChannels(num, p.(reverse := false), n) == raw;
    assert RawChannels(num, p.(reverse := true), n) == raw;
    var cl := ClampChannels(raw);
    assert FinalChannels(num, p.(reverse := true), n).red[k] == cl.red[n - 1 - k];
    assert FinalChannels(num, p.(reverse := true), n).grn[k] == cl.grn[n - 1 - k];
    assert FinalChannels(num, p.(reverse := true), n).blu[k] == cl.blu[n - 1 - k];
  }

  /** The reversed map, built by reversing the raw channels first and
      clamping afterwards, is the same map: the two orders are interchangeable. */
  lemma ReverseBeforeClamp(num: Numerics, p: Config, n: nat)
    requires n >= 2 && p.reverse
    ensures FinalChannels(num, p, n) == ClampChannels(ReverseChannels(RawChannels(num, p, n)))
  {

  }

  /** Whatever start and rot are, the unreversed map begins at black and
      ends at white (for gamma > 0, where 0**gamma == 0). */
  lemma BlackToWhite(num: Numerics, p: Config, n: nat)
    requires n >= 2 && PowLaws(num) && p.gamma > 0.0 && !p.reverse
    ensures ColourAt(Colormap(num, p, n), 0) == (0.0, 0.0, 0.0)
    ensures ColourAt(Colormap(num, p, n), n - 1) == (1.0, 1.0, 1.0)
  {

  }

  /** The reversed map runs from white to black. */
  lemma WhiteToBlack(num: Numerics, p: Config, n: nat)
    requires n >= 2 && PowLaws(num) && p.gamma > 0.0 && p.reverse
    ensures ColourAt(Colormap(num, p, n), 0) == (1.0, 1.0, 1.0)
    ensures ColourAt(Colormap(num, p, n), n - 1) == (0.0, 0.0, 0.0)
  {
    BlackToWhite(num, p.(reverse := false), n);
    ReverseLaw(num, p, n, 0);
    ReverseLaw(num, p, n, n - 1);
    assert p.(reverse := true) == p;
  }

  /** The default cubehelix scheme runs from black to white. */
  lemma DefaultBlackToWhite(num: Numerics)
    requires PowLaws(num)
    ensures ColourAt(Colormap(num, Default, Levels), 0) == (0.0, 0.0, 0.0)
    ensures ColourAt(Colormap(num, Default, Levels), Levels - 1) == (1.0, 1.0, 1.0)
  {

  }

  /** With hue 0 the map is a grey ramp: the three channels agree at every
      entry and equal the clamped intensity at the (possibly mirrored)
      grid point; where that intensity already lies in [0,1] it is the
      intensity itself. */
  lemma GreyRamp(num: Numerics, p: Config, n: nat, k: nat)
    requires n >= 2 && k < n && p.hue == 0.0
    ensures var j := if p.reverse then n - 1 - k else k;
            var f := num.pow(Fraction(j, n), p.gamma);
            var d := Colormap(num, p, n);
            && ColourAt(d, k) == (Clamp(f), Clamp(f), Clamp(f))
            && (0.0 <= f <= 1.0 ==> ColourAt(d, k) == (f, f, f))
  {
    var j := if p.reverse then n - 1 - k else k;
    RawChannelsAt(num, p, n, j);
    var f := num.pow(Fraction(j, n), p.gamma);
    NoAmplitudeIsGrey(num, f, HueAngle(p.start, p.rot, Fraction(j, n)));
    var cl := ClampChannels(RawChannels(num, p, n));
    var c := FinalChannels(num, p, n);
    assert c.red[k] == cl.red[j] && c.grn[k] == cl.grn[j] && c.blu[k] == cl.blu[j];
  }

  // ---------------------------------------------------------------------
  // The imperative steps of `cmap`
  // ---------------------------------------------------------------------

  /** `a[np.where(a > 1.)] = 1.`: every entry above 1 is overwritten with 1. */
  method ClipAbove(a: array<real>)
    modifies a
    ensures a[..] == ClipHighAll(old(a[..]))
  {
    for i := 0 to a.Length
      invariant forall j :: 0 <= j < i ==> a[j] == ClipHigh(old(a[j]))
      invariant forall j :: i <= j < a.Length ==> a[j] == old(a[j])
    {
      if a[i] > 1.0 {
        a[i] := 1.0;
      }
    }
  }

  /** `a[np.where(a < 0.)] = 0.`: every entry below 0 is overwritten with 0. */
  method ClipBelow(a: array<real>)
    modifies a
    ensures a[..] == ClipLowAll(old(a[..]))
  {
    for i := 0 to a.Length
      invariant forall j :: 0 <= j < i ==> a[j] == ClipLow(old(a[j]))
      invariant forall j :: i <= j < a.Length ==> a[j] == old(a[j])
    {
      if a[i] < 0.0 {
        a[i] := 0.0;
      }
    }
  }

  /** `a[::-1]`: a new array holding the entries of `a` in reverse order. */
  method Reverse(a: array<real>) returns (b: array<real>)
    ensures fresh(b)
    ensures b[..] == Reversed(a[..])
  {
    b := new real[a.Length];
    for k := 0 to a.Length
      invariant forall j :: 0 <= j < k ==> b[j] == a[a.Length - 1 - j]
    {
      b[k] := a[a.Length - 1 - k];
    }
  }

  /** A fresh numpy-style array holding `s`. */
  method ToArray(s: seq<real>) returns (a: array<real>)
    ensures fresh(a)
    ensures a[..] == s
  {
    a := new real[|s|](i requires 0 <= i < |s| => s[i]);
  }

  /** Lines 61-85 of `cmap`: the channel arrays are computed, clipped in
      place and, if asked for, replaced by their reversed copies. */
  method ChannelArrays(num: Numerics, p: Config, nlev: nat) returns (red: array<real>, grn: array<real>, blu: array<real>)
    requires nlev >= 2
    ensures fresh(red) && fresh(grn) && fresh(blu)
    ensures red[..] == FinalChannels(num, p, nlev).red
    ensures grn[..] == FinalChannels(num, p, nlev).grn
    ensures blu[..] == FinalChannels(num, p, nlev).blu
  {
    // grid, hue angle, warped intensity and amplitude
    var fract := Grid(nlev);
    var angle := Angles(p.start, p.rot, fract);
    var f := Warped(num, p.gamma, fract);
    var amp := Amplitudes(p.hue, f);

    // each channel from its own equation, as a fresh array
    red := ToArray(Reds(num, f, amp, angle));
    grn := ToArray(Greens(num, f, amp, angle));
    blu := ToArray(Blues(num, f, amp, angle));
    ghost var raw := RawChannels(num, p, nlev);
    assert red[..] == raw.red && grn[..] == raw.grn && blu[..] == raw.blu;

    // clip to [0,1]: values above 1 first, then values below 0
    ClipAbove(red);
    ClipAbove(grn);
    ClipAbove(blu);
    ClipBelow(red);
    ClipBelow(grn);
    ClipBelow(blu);
    assert red[..] == ClampAll(raw.red) && grn[..] == ClampAll(raw.grn) && blu[..] == ClampAll(raw.blu);

    // with `reverse`, each name now refers to its channel read backwards
    if p.reverse {
      red := Reverse(red);
      blu := Reverse(blu);
      grn := Reverse(grn);
    }
  }

  /** Lines 88-94 of `cmap`: one pass over the indices appends entry k to
      each of the three lists. */
  method Tables(red: array<real>, grn: array<real>, blu: array<real>) returns (cdict: CDict)
    requires red.Length >= 2 && grn.Length == red.Length && blu.Length == red.Length
    ensures cdict == CDict(Table(red[..]), Table(blu[..]), Table(grn[..]))
  {
    var nlev := red.Length;
    var rr: seq<Breakpoint> := [];
    var bb: seq<Breakpoint> := [];
    var gg: seq<Breakpoint> := [];
    for k := 0 to nlev
      invariant |rr| == k && |bb| == k && |gg| == k
      invariant forall j :: 0 <= j < k ==> rr[j] == Breakpoint(Fraction(j, nlev), red[j], red[j])
      invariant forall j :: 0 <= j < k ==> bb[j] == Breakpoint(Fraction(j, nlev), blu[j], blu[j])
      invariant forall j :: 0 <= j < k ==> gg[j] == Breakpoint(Fraction(j, nlev), grn[j], grn[j])
    {
      var x := k as real / (nlev - 1) as real;
      rr := rr + [Breakpoint(x, red[k], red[k])];
      bb := bb + [Breakpoint(x, blu[k], blu[k])];
      gg := gg + [Breakpoint(x, grn[k], grn[k])];
    }
    cdict := CDict(rr, bb, gg);
  }

  /** `cmap`: the breakpoint dictionary of the 256-entry cubehelix map. */
  method Cmap(num: Numerics, p: Config) returns (cdict: CDict)
    ensures cdict == Colormap(num, p, Levels)
  {
    var nlev := Levels;
    var red, grn, blu := ChannelArrays(num, p, nlev);
    cdict := Tables(red, grn, blu);
  }
}
