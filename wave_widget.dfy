/** The refraction widget's simulation state: its parameter fields, the
    three-pass masked wave computation, the animation tick and the
    one-field setters. Plot items are represented only by the data last
    handed to them. */
module WaveWidget {
  import opened WaveField
  import opened ColorMapping

  /** A white-light curve: its fixed wavelength and the data last set on it. */
  datatype Curve = Curve(wavelength: real, data: seq<real>)

  /** The white-light curves as a tick leaves them: one per prism
      wavelength, in order, each holding that wavelength's waveform. */
  function WhiteLightCurves(p: Params, trig: Trig): (cs: seq<Curve>)
    ensures |cs| == |PrismWavelengths|
    ensures forall i :: 0 <= i < |cs| ==> cs[i].wavelength == PrismWavelengths[i]
  {
    seq(|PrismWavelengths|, i requires 0 <= i < |PrismWavelengths| =>
      Curve(PrismWavelengths[i], Wave(p, PrismWavelengths[i], trig)))
  }

  class WaveSimulationWidget {
    /** Sine and pi as the computation sees them. */
    const trig: Trig

    var wavelength: real
    var amplitude: real
    var speed: real
    var n1: real
    var n2: real
    var n3: real
    var boundary1: real
    var boundary2: real
    var prismMode: bool
    var whiteLight: bool
    var time: real

    /** The data last set on the single-wavelength curve. */
    var waveCurve: seq<real>
    /** The white-light curves, created once in prism-wavelength order. */
    var waveCurves: seq<Curve>

    /** The white-light curves are the seven prism wavelengths, in order. */
    ghost predicate Valid()
      reads this
    {
      && |waveCurves| == |PrismWavelengths|
      && forall i :: 0 <= i < |waveCurves| ==> waveCurves[i].wavelength == PrismWavelengths[i]
    }

    /** The current parameter fields as one value. */
    function Snapshot(): (p: Params)
      reads this
    {
      Params(wavelength, amplitude, speed, n1, n2, n3, boundary1, boundary2,
             prismMode, whiteLight, time)
    }

    /** Starts from the default parameters and computes the single curve
        and the seven white-light curves once. */
    constructor (trig: Trig)
      ensures this.trig == trig && Valid()
      ensures Snapshot() == DefaultParams
      ensures waveCurve == Wave(DefaultParams, 550.0, trig)
      ensures waveCurves == WhiteLightCurves(DefaultParams, trig)
    {
      this.trig := trig;
      wavelength, amplitude, speed := 550.0, 5.0, 2.0;
      n1, n2, n3 := 1.0003, 1.33, 1.52;
      time := 0.0;
      prismMode, whiteLight := false, false;
      boundary1, boundary2 := 1000.0, 2000.0;
      waveCurve, waveCurves := [], [];
      new;
      waveCurve := CalculateWave(wavelength);
      var i := 0;
      while i < |PrismWavelengths|
        invariant 0 <= i <= |PrismWavelengths|
        invariant Snapshot() == DefaultParams && this.trig == trig
        invariant waveCurve == Wave(DefaultParams, 550.0, trig)
        invariant waveCurves == WhiteLightCurves(DefaultParams, trig)[..i]
      {
        var wl := PrismWavelengths[i];
        var wave := CalculateWave(wl);
        waveCurves := waveCurves + [Curve(wl, wave)];
        i := i + 1;
      }
    }

    /** calculate_wave: a zero array, then the medium-1, medium-2 and
        medium-3 masks written in that order. The result is the waveform
        of the current parameters at wavelength wl. */
    method CalculateWave(wl: real) returns (wave: seq<real>)
      requires wl != 0.0
      ensures wave == Wave(Snapshot(), wl, trig)
    {
      var p := Snapshot();
      var k := WavenumbersAt(p, wl, trig.pi);
      var a := new real[SampleCount](_ => 0.0);

      var i := 0;
      while i < SampleCount
        invariant 0 <= i <= SampleCount
        invariant forall j :: 0 <= j < SampleCount ==>
          a[j] == (if j < i && InMask1(p, Position(j)) then RegionSample(p, trig, k.k1, 0.0, Position(j))
                   else 0.0)
      {
        if InMask1(p, Position(i)) {
          a[i] := RegionSample(p, trig, k.k1, 0.0, Position(i));
        }
        i := i + 1;
      }

      i := 0;
      while i < SampleCount
        invariant 0 <= i <= SampleCount
        invariant forall j :: 0 <= j < SampleCount ==>
          a[j] == (if j < i && InMask2(p, Position(j)) then RegionSample(p, trig, k.k2, p.boundary1, Position(j))
                   else if InMask1(p, Position(j)) then RegionSample(p, trig, k.k1, 0.0, Position(j))
                   else 0.0)
      {
        if InMask2(p, Position(i)) {
          a[i] := RegionSample(p, trig, k.k2, p.boundary1, Position(i));
        }
        i := i + 1;
      }

      i := 0;
      while i < SampleCount
        invariant 0 <= i <= SampleCount
        invariant forall j :: 0 <= j < SampleCount ==>
          a[j] == (if j < i && InMask3(p, Position(j)) then RegionSample(p, trig, k.k3, p.boundary2, Position(j))
                   else if InMask2(p, Position(j)) then RegionSample(p, trig, k.k2, p.boundary1, Position(j))
                   else if InMask1(p, Position(j)) then RegionSample(p, trig, k.k1, 0.0, Position(j))
                   else 0.0)
      {
        if InMask3(p, Position(i)) {
          a[i] := RegionSample(p, trig, k.k3, p.boundary2, Position(i));
        }
        i := i + 1;
      }

      wave := a[..];
      assert forall j :: 0 <= j < SampleCount ==> wave[j] == Sample(p, wl, trig, Position(j));
    }

    /** update_animation: time advances by exactly 0.01 and no other
        parameter changes; then either the single curve is recomputed at
        the current wavelength, or each white-light curve at its own. */
    method UpdateAnimation()
      requires Valid()
      requires !whiteLight ==> wavelength != 0.0
      modifies this`time, this`waveCurve, this`waveCurves
      ensures Valid()
      ensures Snapshot() == old(Snapshot()).(time := old(time) + 0.01)
      ensures whiteLight ==> waveCurves == WhiteLightCurves(Snapshot(), trig) && waveCurve == old(waveCurve)
      ensures !whiteLight ==> waveCurve == Wave(Snapshot(), wavelength, trig) && waveCurves == old(waveCurves)
    {
      time := time + 0.01;
      if whiteLight {
        var i := 0;
        while i < |waveCurves|
          modifies this`waveCurves
          invariant 0 <= i <= |waveCurves| == |PrismWavelengths|
          invariant forall j :: i <= j < |waveCurves| ==> waveCurves[j].wavelength == PrismWavelengths[j]
          invariant forall j :: 0 <= j < i ==>
            waveCurves[j] == Curve(PrismWavelengths[j], Wave(Snapshot(), PrismWavelengths[j], trig))
        {
          var wl := waveCurves[i].wavelength;
          var wave := CalculateWave(wl);
          waveCurves := waveCurves[i := Curve(wl, wave)];
          i := i + 1;
        }
      } else {
        waveCurve := CalculateWave(wavelength);
      }
    }

    method UpdateWavelength(value: real)
      modifies this`wavelength
      ensures Snapshot() == old(Snapshot()).(wavelength := value)
      ensures Valid() == old(Valid())
    {
      wavelength := value;
    }

    method UpdateAmplitude(value: real)
      modifies this`amplitude
      ensures Snapshot() == old(Snapshot()).(amplitude := value)
      ensures Valid() == old(Valid())
    {
      amplitude := value;
    }

    method UpdateSpeed(value: real)
      modifies this`speed
      ensures Snapshot() == old(Snapshot()).(speed := value)
      ensures Valid() == old(Valid())
    {
      speed := value;
    }

    method UpdateN1(value: real)
      modifies this`n1
      ensures Snapshot() == old(Snapshot()).(n1 := value)
      ensures Valid() == old(Valid())
    {
      n1 := value;
    }

    method UpdateN2(value: real)
      modifies this`n2
      ensures Snapshot() == old(Snapshot()).(n2 := value)
      ensures Valid() == old(Valid())
    {
      n2 := value;
    }

    method UpdateN3(value: real)
      modifies this`n3
      ensures Snapshot() == old(Snapshot()).(n3 := value)
      ensures Valid() == old(Valid())
    {
      n3 := value;
    }

    method TogglePrismMode(enabled: bool)
      modifies this`prismMode
      ensures Snapshot() == old(Snapshot()).(prismMode := enabled)
      ensures Valid() == old(Valid())
    {
      prismMode := enabled;
    }

    method ToggleWhiteLight(enabled: bool)
      modifies this`whiteLight
      ensures Snapshot() == old(Snapshot()).(whiteLight := enabled)
      ensures Valid() == old(Valid())
    {
      whiteLight := enabled;
    }
  }

  /** The pens the seven white-light curves are created with: 650 nm and
      700 nm get the same pure red. In exact arithmetic 400 nm and 500 nm
      hit the rounding ties 110.5 and 127.5, which go to the even
      neighbour. */
  lemma WhiteLightColors()
    ensures WavelengthToRgb(PrismWavelengths[0]) == Rgb(110, 0, 166)
    ensures WavelengthToRgb(PrismWavelengths[1]) == Rgb(0, 51, 255)
    ensures WavelengthToRgb(PrismWavelengths[2]) == Rgb(0, 255, 128)
    ensures WavelengthToRgb(PrismWavelengths[3]) == Rgb(146, 255, 0)
    ensures WavelengthToRgb(PrismWavelengths[4]) == Rgb(255, 177, 0)
    ensures WavelengthToRgb(PrismWavelengths[5]) == Rgb(255, 0, 0)
    ensures WavelengthToRgb(PrismWavelengths[6]) == Rgb(255, 0, 0)
  {
    assert RoundHalfEven(110.5) == 110;
    assert RoundHalfEven(165.75) == 166;
    assert RoundHalfEven(51.0) == 51;
    assert RoundHalfEven(127.5) == 128;
    assert RoundHalfEven(1020.0 / 7.0) == 146;
    assert RoundHalfEven(2295.0 / 13.0) == 177;
    assert RoundHalfEven(255.0) == 255;
    assert RoundHalfEven(0.0) == 0;
  }
}
