/** The wave field of the refraction widget: a piecewise sine over a fixed
    grid of 3000 positions, split into three media by two boundaries, with an
    optional Cauchy-style dispersion of the indices of media 2 and 3.
    Sine and pi are parameters (a `Trig` value): only their bounds are used. */
module WaveField {

  /** numpy.linspace(0, 3000, 3000): 3000 evenly spaced points from 0 to 3000. */
  const SampleCount: nat := 3000

  /** The constant multiplier that keeps the drawn amplitude small. */
  const VisualizationScale: real := 0.1

  /** The seven wavelengths drawn in white-light mode, in curve order. */
  const PrismWavelengths: seq<real> := [400.0, 450.0, 500.0, 550.0, 600.0, 650.0, 700.0]

  /** Sine and pi, known only through the facts the model relies on. */
  datatype Trig = Trig(sin: real -> real, pi: real) {
    /** Sine, applied through a function so that every use is the same term. */
    function Sin(t: real): (s: real) {
      sin(t)
    }

    ghost predicate Valid() {
      && (forall t :: -1.0 <= Sin(t) <= 1.0)
      && Sin(0.0) == 0.0
      && pi > 0.0
    }
  }

  /** A snapshot of the widget's simulation parameters. */
  datatype Params = Params(
    wavelength: real,
    amplitude: real,
    speed: real,
    n1: real,
    n2: real,
    n3: real,
    boundary1: real,
    boundary2: real,
    prismMode: bool,
    whiteLight: bool,
    time: real)

  /** The parameters the widget starts with. */
  const DefaultParams: Params :=
    Params(550.0, 5.0, 2.0, 1.0003, 1.33, 1.52, 1000.0, 2000.0, false, false, 0.0)

  /** The i-th grid position, computed exactly: 3000 * i / 2999. */
  function Position(i: int): (x: real)
    ensures i == 0 ==> x == 0.0
    ensures i == SampleCount - 1 ==> x == 3000.0
    ensures 0 <= i < SampleCount ==> 0.0 <= x <= 3000.0
  {
    3000.0 * i as real / 2999.0
  }

  lemma PositionIncreasing(i: int, j: int)
    requires i < j
    ensures Position(i) < Position(j)
  {
  }

  /** Effective indices of media 2 and 3 at wavelength `wl`. */
  datatype Indices = Indices(n2: real, n3: real)

  /** (550 / wl) squared, the wavelength-dependent part of the dispersion. */
  function DispersionTerm(wl: real): (d: real)
    requires wl != 0.0
    ensures d > 0.0
  {
    (550.0 / wl) * (550.0 / wl)
  }

  /** With prism mode off the indices are the base ones; with it on, media 2
      and 3 get 0.0006 and 0.0008 times (550/wl)^2 added, so both are
      strictly above their base index. Medium 1 has no dispersion. */
  function EffectiveIndices(p: Params, wl: real): (n: Indices)
    requires wl != 0.0
    ensures !p.prismMode ==> n == Indices(p.n2, p.n3)
    ensures p.prismMode ==> n.n2 > p.n2 && n.n3 > p.n3
  {
    if p.prismMode then
      Indices(p.n2 + 0.0006 * DispersionTerm(wl), p.n3 + 0.0008 * DispersionTerm(wl))
    else
      Indices(p.n2, p.n3)
  }

  /** The dispersion term decreases strictly as the wavelength grows. */
  lemma DispersionTermDecreasing(wl: real, wl': real)
    requires 0.0 < wl < wl'
    ensures DispersionTerm(wl) > DispersionTerm(wl')
  {
    var a, b := 550.0 / wl, 550.0 / wl';
    assert a * wl == 550.0 && b * wl' == 550.0;
    assert 0.0 < b < a;
    assert b * b < a * b < a * a;
  }

  /** In prism mode the effective indices of media 2 and 3 fall strictly as
      the wavelength grows (shorter wavelengths refract more), and at the
      reference wavelength 550 nm they are exactly n2 + 0.0006, n3 + 0.0008. */
  lemma {:induction false} DispersionOrdering(p: Params, wl: real, wl': real)
    requires p.prismMode && 0.0 < wl < wl'
    ensures EffectiveIndices(p, wl).n2 > EffectiveIndices(p, wl').n2
    ensures EffectiveIndices(p, wl).n3 > EffectiveIndices(p, wl').n3
    ensures EffectiveIndices(p, 550.0) == Indices(p.n2 + 0.0006, p.n3 + 0.0008)
  {
    DispersionTermDecreasing(wl, wl');
  }

  /** The wavenumbers k_i = 2 pi n_i / wl of the three media. */
  datatype Wavenumbers = Wavenumbers(k1: real, k2: real, k3: real)

  /** The wavenumber of a medium of index n. */
  function Wavenumber(pi: real, n: real, wl: real): (k: real)
    requires wl != 0.0
  {
    2.0 * pi * n / wl
  }

  function WavenumbersAt(p: Params, wl: real, pi: real): (k: Wavenumbers)
    requires wl != 0.0
  {
    var n := EffectiveIndices(p, wl);
    Wavenumbers(Wavenumber(pi, p.n1, wl), Wavenumber(pi, n.n2, wl), Wavenumber(pi, n.n3, wl))
  }

  /** The three masks of the position grid. */
  predicate InMask1(p: Params, x: real) {
    x <= p.boundary1
  }

  predicate InMask2(p: Params, x: real) {
    p.boundary1 < x <= p.boundary2
  }

  predicate InMask3(p: Params, x: real) {
    x > p.boundary2
  }

  /** The medium whose masked assignment writes position x last: the last
      mask, in the order 1, 2, 3, that contains x. Some mask always does. */
  function Region(p: Params, x: real): (r: int)
    ensures 1 <= r <= 3
    ensures r == 3 <==> InMask3(p, x)
    ensures r == 2 <==> InMask2(p, x) && !InMask3(p, x)
    ensures r == 1 <==> InMask1(p, x) && !InMask2(p, x) && !InMask3(p, x)
  {
    if x > p.boundary2 then 3 else if x > p.boundary1 then 2 else 1
  }

  /** Phase of a medium whose wave restarts at `origin` (0 for medium 1). */
  function Phase(p: Params, k: real, origin: real, x: real): (ph: real) {
    k * (x - origin) - p.speed * p.time
  }

  /** What one masked assignment writes at position x. */
  function RegionSample(p: Params, trig: Trig, k: real, origin: real, x: real): (v: real) {
    p.amplitude * VisualizationScale * trig.Sin(Phase(p, k, origin, x))
  }

  /** The value left at position x after the three masked assignments. */
  function Sample(p: Params, wl: real, trig: Trig, x: real): (v: real)
    requires wl != 0.0
  {
    var k := WavenumbersAt(p, wl, trig.pi);
    match Region(p, x)
    case 1 => RegionSample(p, trig, k.k1, 0.0, x)
    case 2 => RegionSample(p, trig, k.k2, p.boundary1, x)
    case _ => RegionSample(p, trig, k.k3, p.boundary2, x)
  }

  /** The waveform over the whole grid, aligned with the positions. */
  function Wave(p: Params, wl: real, trig: Trig): (w: seq<real>)
    requires wl != 0.0
    ensures |w| == SampleCount
  {
    seq(SampleCount, i => Sample(p, wl, trig, Position(i)))
  }

  /** Every position lies in some mask; masks 1 and 2, and 2 and 3, never
      overlap; masks 1 and 3 overlap exactly on (boundary2, boundary1]; and
      when boundary1 >= boundary2 mask 2 is empty. */
  lemma MaskPartition(p: Params, x: real)
    ensures InMask1(p, x) || InMask2(p, x) || InMask3(p, x)
    ensures !(InMask1(p, x) && InMask2(p, x)) && !(InMask2(p, x) && InMask3(p, x))
    ensures InMask1(p, x) && InMask3(p, x) <==> p.boundary2 < x <= p.boundary1
    ensures p.boundary1 >= p.boundary2 ==> !InMask2(p, x)
  {
  }

  /** Along the increasing grid the regions never go back: the media are
      contiguous, in the order 1, 2, 3. With ordered boundaries the masks are
      pairwise disjoint. */
  lemma RegionsContiguous(p: Params, i: int, j: int)
    requires 0 <= i <= j < SampleCount
    ensures Region(p, Position(i)) <= Region(p, Position(j))
    ensures p.boundary1 < p.boundary2 ==> !(InMask1(p, Position(i)) && InMask3(p, Position(i)))
  {
    if i < j {
      PositionIncreasing(i, j);
    }
  }

  /** Last writer wins: a position in both mask 1 and mask 3 (possible only
      when boundary1 >= boundary2) keeps the medium-3 value. */
  lemma OverlapTakesMedium3(p: Params, wl: real, trig: Trig, x: real)
    requires wl != 0.0
    requires InMask1(p, x) && InMask3(p, x)
    ensures p.boundary2 < p.boundary1
    ensures Sample(p, wl, trig, x)
            == RegionSample(p, trig, WavenumbersAt(p, wl, trig.pi).k3, p.boundary2, x)
  {
  }

  /** The value each position ends with, read off the masks in the order
      they are written: mask 3 wins wherever it applies, mask 2 wherever it
      applies and mask 3 does not, and mask 1 only where neither later mask
      applies. Each value is the source's expression written out: medium 1
      counts its phase from the grid origin, media 2 and 3 restart theirs
      at their own boundary and use the (possibly dispersed) index. */
  lemma {:induction false} SampleFormula(p: Params, wl: real, trig: Trig, x: real)
    requires wl != 0.0
    ensures InMask3(p, x) ==>
      Sample(p, wl, trig, x) == p.amplitude * 0.1 * trig.Sin(
        (2.0 * trig.pi * (if p.prismMode then p.n3 + 0.0008 * ((550.0 / wl) * (550.0 / wl)) else p.n3) / wl)
          * (x - p.boundary2) - p.speed * p.time)
    ensures InMask2(p, x) && !InMask3(p, x) ==>
      Sample(p, wl, trig, x) == p.amplitude * 0.1 * trig.Sin(
        (2.0 * trig.pi * (if p.prismMode then p.n2 + 0.0006 * ((550.0 / wl) * (550.0 / wl)) else p.n2) / wl)
          * (x - p.boundary1) - p.speed * p.time)
    ensures InMask1(p, x) && !InMask2(p, x) && !InMask3(p, x) ==>
      Sample(p, wl, trig, x) == p.amplitude * 0.1 * trig.Sin((2.0 * trig.pi * p.n1 / wl) * x - p.speed * p.time)
  {
    var k := WavenumbersAt(p, wl, trig.pi);
    if InMask3(p, x) {
      assert Phase(p, k.k3, p.boundary2, x)
          == (2.0 * trig.pi * (if p.prismMode then p.n3 + 0.0008 * ((550.0 / wl) * (550.0 / wl)) else p.n3) / wl)
             * (x - p.boundary2) - p.speed * p.time;
    } else if InMask2(p, x) {
      assert Phase(p, k.k2, p.boundary1, x)
          == (2.0 * trig.pi * (if p.prismMode then p.n2 + 0.0006 * ((550.0 / wl) * (550.0 / wl)) else p.n2) / wl)
             * (x - p.boundary1) - p.speed * p.time;
    } else {
      assert Phase(p, k.k1, 0.0, x) == (2.0 * trig.pi * p.n1 / wl) * x - p.speed * p.time;
    }
  }

  /** Locality: a sample depends only on the index of the medium that writes
      it. Changing n1 leaves media 2 and 3 alone; changing n2, n3 or the
      prism mode leaves medium 1 alone. */
  lemma Locality(p: Params, q: Params, wl: real, trig: Trig, x: real)
    requires wl != 0.0
    requires p.(n1 := q.n1, n2 := q.n2, n3 := q.n3, prismMode := q.prismMode) == q
    ensures Region(p, x) == Region(q, x)
    ensures Region(p, x) == 1 && p.n1 == q.n1 ==> Sample(p, wl, trig, x) == Sample(q, wl, trig, x)
    ensures Region(p, x) == 2 && EffectiveIndices(p, wl).n2 == EffectiveIndices(q, wl).n2
            ==> Sample(p, wl, trig, x) == Sample(q, wl, trig, x)
    ensures Region(p, x) == 3 && EffectiveIndices(p, wl).n3 == EffectiveIndices(q, wl).n3
            ==> Sample(p, wl, trig, x) == Sample(q, wl, trig, x)
  {
    assert p.amplitude == q.amplitude && p.speed == q.speed && p.time == q.time;
    assert p.boundary1 == q.boundary1 && p.boundary2 == q.boundary2;
    assert forall k, origin :: Phase(p, k, origin, x) == Phase(q, k, origin, x);
    SampleFormula(p, wl, trig, x);
    SampleFormula(q, wl, trig, x);
  }

  lemma ScaledSineBound(a: real, s: real)
    requires -1.0 <= s <= 1.0
    ensures -0.1 * Abs(a) <= a * VisualizationScale * s <= 0.1 * Abs(a)
  {
    var m := Abs(a);
    MulNonNeg(m, 1.0 - s);
    MulNonNeg(m, 1.0 + s);
    assert a * s == m * s || a * s == -(m * s);
    assert a * VisualizationScale * s == 0.1 * (a * s);
  }

  lemma MulNonNeg(a: real, b: real)
    requires a >= 0.0 && b >= 0.0
    ensures a * b >= 0.0
  {
  }

  function Abs(a: real): (m: real) {
    if a < 0.0 then -a else a
  }

  /** Every sample is bounded by a tenth of the amplitude. */
  lemma {:induction false} SampleBound(p: Params, wl: real, trig: Trig, x: real)
    requires wl != 0.0 && trig.Valid()
    ensures -0.1 * Abs(p.amplitude) <= Sample(p, wl, trig, x) <= 0.1 * Abs(p.amplitude)
  {
    var k := WavenumbersAt(p, wl, trig.pi);
    var origin, kr := if Region(p, x) == 1 then 0.0 else if Region(p, x) == 2 then p.boundary1 else p.boundary2,
                      if Region(p, x) == 1 then k.k1 else if Region(p, x) == 2 then k.k2 else k.k3;
    assert Sample(p, wl, trig, x) == RegionSample(p, trig, kr, origin, x);
    ScaledSineBound(p.amplitude, trig.Sin(Phase(p, kr, origin, x)));
  }

  /** A sample is zero exactly when the amplitude is zero or the sine of the
      writing medium's phase is zero: no position is left at the initial
      zero for any other reason. */
  lemma {:induction false} ZeroSample(p: Params, wl: real, trig: Trig, x: real)
    requires wl != 0.0
    ensures var k := WavenumbersAt(p, wl, trig.pi);
            var ph := match Region(p, x)
                      case 1 => Phase(p, k.k1, 0.0, x)
                      case 2 => Phase(p, k.k2, p.boundary1, x)
                      case _ => Phase(p, k.k3, p.boundary2, x);
            Sample(p, wl, trig, x) == 0.0 <==> p.amplitude == 0.0 || trig.Sin(ph) == 0.0
  {
    var k := WavenumbersAt(p, wl, trig.pi);
    var ph := match Region(p, x)
              case 1 => Phase(p, k.k1, 0.0, x)
              case 2 => Phase(p, k.k2, p.boundary1, x)
              case _ => Phase(p, k.k3, p.boundary2, x);
    var s := trig.Sin(ph);
    assert Sample(p, wl, trig, x) == (p.amplitude * s) * 0.1;
    if p.amplitude != 0.0 && s != 0.0 {
      assert p.amplitude * s != 0.0;
    }
  }

  /** At time 0 the sample at position 0 is 0 when both boundaries are at or
      after the start of the grid. */
  lemma WaveStartsAtZero(p: Params, wl: real, trig: Trig)
    requires wl != 0.0 && trig.Valid()
    requires p.time == 0.0 && 0.0 <= p.boundary1 && 0.0 <= p.boundary2
    ensures Wave(p, wl, trig)[0] == 0.0
  {
    assert Position(0) == 0.0;
    assert Phase(p, WavenumbersAt(p, wl, trig.pi).k1, 0.0, 0.0) == 0.0;
  }
}
