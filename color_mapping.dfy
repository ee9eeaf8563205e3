/** Wavelength-to-colour mapping used to paint the wave curves: Dan Bruton's
    piecewise-linear approximation of the visible spectrum, an edge
    attenuation factor, and Python's round-half-to-even on each channel. */
module ColorMapping {

  /** An integer RGB triple as the curve pens receive it. */
  datatype Rgb = Rgb(r: int, g: int, b: int)

  /** The un-attenuated channel intensities of one spectral band. */
  datatype RawRgb = RawRgb(r: real, g: real, b: real)

  /** The visible range of the mapping: the closed interval [380, 750] nm. */
  predicate Visible(nm: real) {
    380.0 <= nm <= 750.0
  }

  /** Band k of the six spectral bands; all are half-open except the last. */
  predicate InBand(k: int, nm: real) {
    match k
    case 0 => 380.0 <= nm < 440.0
    case 1 => 440.0 <= nm < 490.0
    case 2 => 490.0 <= nm < 510.0
    case 3 => 510.0 <= nm < 580.0
    case 4 => 580.0 <= nm < 645.0
    case 5 => 645.0 <= nm <= 750.0
    case _ => false
  }

  predicate InUnit(v: real) {
    0.0 <= v <= 1.0
  }

  /** Python's built-in round on a number: the nearest integer, and on an
      exact tie the even one. */
  function RoundHalfEven(x: real): (n: int)
    ensures x - 0.5 <= n as real <= x + 0.5
    ensures (n as real - x == 0.5 || x - n as real == 0.5) ==> n % 2 == 0
  {
    var f := x.Floor;
    var frac := x - f as real;
    if frac < 0.5 then f
    else if frac > 0.5 then f + 1
    else if f % 2 == 0 then f
    else f + 1
  }

  /** The if/elif chain that picks the raw channels, one branch per band;
      outside the visible range every channel is 0.5. */
  function Raw(nm: real): (c: RawRgb)
    ensures InUnit(c.r) && InUnit(c.g) && InUnit(c.b)
    ensures !Visible(nm) ==> c == RawRgb(0.5, 0.5, 0.5)
    ensures Visible(nm) ==> c.r == 1.0 || c.g == 1.0 || c.b == 1.0
  {
    if InBand(0, nm) then RawRgb(-(nm - 440.0) / (440.0 - 380.0), 0.0, 1.0)
    else if InBand(1, nm) then RawRgb(0.0, (nm - 440.0) / (490.0 - 440.0), 1.0)
    else if InBand(2, nm) then RawRgb(0.0, 1.0, -(nm - 510.0) / (510.0 - 490.0))
    else if InBand(3, nm) then RawRgb((nm - 510.0) / (580.0 - 510.0), 1.0, 0.0)
    else if InBand(4, nm) then RawRgb(1.0, -(nm - 645.0) / (645.0 - 580.0), 0.0)
    else if InBand(5, nm) then RawRgb(1.0, 0.0, 0.0)
    else RawRgb(0.5, 0.5, 0.5)
  }

  /** Brightness factor: ramps up from 0.3 over [380, 420), is 1 over
      [420, 700), ramps down to 0.3 over [700, 750], and is 0 elsewhere. */
  function Attenuation(nm: real): (f: real)
    ensures Visible(nm) ==> 0.3 <= f <= 1.0
    ensures !Visible(nm) ==> f == 0.0
    ensures 420.0 <= nm < 700.0 ==> f == 1.0
    ensures (nm == 380.0 || nm == 750.0) ==> f == 0.3
  {
    if 380.0 <= nm < 420.0 then 0.3 + 0.7 * (nm - 380.0) / (420.0 - 380.0)
    else if 420.0 <= nm < 700.0 then 1.0
    else if 700.0 <= nm <= 750.0 then 0.3 + 0.7 * (750.0 - nm) / (750.0 - 700.0)
    else 0.0
  }

  /** The scaled, rounded value of one channel. */
  function Channel(raw: real, factor: real): (v: int) {
    RoundHalfEven(255.0 * raw * factor)
  }

  /** wavelength_to_rgb: total over the reals, every channel in [0, 255], and
      black (not grey) outside the visible range, because the grey raw
      channels are multiplied by a zero factor. */
  function WavelengthToRgb(nm: real): (c: Rgb)
    ensures 0 <= c.r <= 255 && 0 <= c.g <= 255 && 0 <= c.b <= 255
    ensures !Visible(nm) ==> c == Rgb(0, 0, 0)
  {
    var raw := Raw(nm);
    var f := Attenuation(nm);
    ChannelInRange(raw.r, f);
    ChannelInRange(raw.g, f);
    ChannelInRange(raw.b, f);
    Rgb(Channel(raw.r, f), Channel(raw.g, f), Channel(raw.b, f))
  }

  function Max3(a: int, b: int, c: int): (m: int) {
    if a >= b && a >= c then a else if b >= c then b else c
  }

  /** Rounding never reverses the order of two numbers. */
  lemma RoundMonotone(x: real, y: real)
    requires x <= y
    ensures RoundHalfEven(x) <= RoundHalfEven(y)
  {
    if x < y {
      var rx, ry := RoundHalfEven(x), RoundHalfEven(y);
      assert (rx - ry) as real <= (x + 0.5) - (y - 0.5) < 1.0;
    }
  }

  lemma ProductInUnit(a: real, b: real)
    requires InUnit(a) && InUnit(b)
    ensures 0.0 <= a * b <= b
  {
    assert (1.0 - a) * b >= 0.0;
  }

  /** A raw channel in [0,1] times a factor in [0,1] rounds into [0, 255],
      and never above the rounded factor itself. */
  lemma ChannelInRange(raw: real, factor: real)
    requires InUnit(raw) && InUnit(factor)
    ensures 0 <= Channel(raw, factor) <= RoundHalfEven(255.0 * factor) <= 255
  {
    var v, w := 255.0 * raw * factor, 255.0 * factor;
    ProductInUnit(raw, factor);
    assert v == 255.0 * (raw * factor);
    assert 0.0 <= v <= w <= 255.0;
    RoundMonotone(0.0, v);
    RoundMonotone(v, w);
    RoundMonotone(w, 255.0);
  }

  /** The guards of Raw's chain partition the visible range: inside it
      exactly one band applies, outside it none does. */
  lemma ExactlyOneBand(nm: real)
    ensures Visible(nm) ==> exists k :: 0 <= k < 6 && InBand(k, nm)
    ensures forall k, j :: InBand(k, nm) && InBand(j, nm) ==> k == j
    ensures !Visible(nm) ==> forall k :: !InBand(k, nm)
  {
    if Visible(nm) {
      if nm < 440.0 { assert InBand(0, nm); }
      else if nm < 490.0 { assert InBand(1, nm); }
      else if nm < 510.0 { assert InBand(2, nm); }
      else if nm < 580.0 { assert InBand(3, nm); }
      else if nm < 645.0 { assert InBand(4, nm); }
      else { assert InBand(5, nm); }
    }
  }

  /** The channel that is at full raw intensity: blue on [380, 490), green on
      [490, 580), red on [580, 750]. */
  lemma DominantChannel(nm: real)
    ensures 380.0 <= nm < 490.0 ==> Raw(nm).b == 1.0
    ensures 490.0 <= nm < 580.0 ==> Raw(nm).g == 1.0
    ensures 580.0 <= nm <= 750.0 ==> Raw(nm).r == 1.0
  {
  }

  /** The brightest output channel is the rounded brightness factor, which is
      255 on [420, 700). */
  lemma {:induction false} MaxChannelIsFactor(nm: real)
    requires Visible(nm)
    ensures Max3(WavelengthToRgb(nm).r, WavelengthToRgb(nm).g, WavelengthToRgb(nm).b)
            == RoundHalfEven(255.0 * Attenuation(nm))
    ensures 420.0 <= nm < 700.0 ==>
            Max3(WavelengthToRgb(nm).r, WavelengthToRgb(nm).g, WavelengthToRgb(nm).b) == 255
  {
    var raw, f := Raw(nm), Attenuation(nm);
    ChannelInRange(raw.r, f);
    ChannelInRange(raw.g, f);
    ChannelInRange(raw.b, f);
    assert Channel(1.0, f) == RoundHalfEven(255.0 * f);
    DominantChannel(nm);
  }

  /** Reference values: 650 nm is pure red, 550 nm is (146, 255, 0), the
      exact tie 76.5 at both edges rounds to the even 76, and 300 nm is
      black. */
  lemma ReferenceColors()
    ensures WavelengthToRgb(650.0) == Rgb(255, 0, 0)
    ensures WavelengthToRgb(550.0) == Rgb(146, 255, 0)
    ensures WavelengthToRgb(380.0) == Rgb(76, 0, 76)
    ensures WavelengthToRgb(750.0) == Rgb(76, 0, 0)
    ensures WavelengthToRgb(300.0) == Rgb(0, 0, 0)
  {
    assert Raw(550.0).r == 4.0 / 7.0;
    assert 255.0 * (4.0 / 7.0) * 1.0 == 1020.0 / 7.0;
    assert RoundHalfEven(1020.0 / 7.0) == 146;
    assert RoundHalfEven(76.5) == 76;
    assert RoundHalfEven(255.0) == 255;
    assert RoundHalfEven(0.0) == 0;
  }
}
