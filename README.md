# Light wave refraction visualiser: verified model of the wave core

LightVis.py draws a light wave crossing three media. The wave is a
piecewise sine over a fixed grid of 3000 positions. Two boundaries split the
grid into three media. Each medium has its own wavenumber `2·π·n/λ`. An
optional prism mode adds a Cauchy-style dispersion to media 2 and 3. A timer
advances the clock and recomputes the curves: either one curve at the chosen
wavelength, or seven "white light" curves at fixed wavelengths. The seven
white-light curves get their pens from Dan Bruton's wavelength-to-RGB
approximation when they are created (LightVis.py:176-184). The single curve
starts with a blue pen (LightVis.py:170). It is recoloured by that mapping
only in `update_plot` (LightVis.py:271-273), and only when white-light mode
is off. `update_plot` runs after the wavelength, index, medium and prism
setters (LightVis.py:276-321).

This project models that core in Dafny:

- `ColorMapping` (color_mapping.dfy) models `wavelength_to_rgb` as pure functions over `real`. It has the six spectral bands, the edge attenuation factor, and Python's round-half-to-even.
- `WaveField` (wave_field.dfy) specifies `calculate_wave`. A parameter snapshot `Params` is mapped to the last-writer-wins waveform `Wave`. The lemmas cover the masks, dispersion, phase reset, locality and bounds.
- `WaveWidget` (wave_widget.dfy) is the class `WaveSimulationWidget` with the source's parameter fields.
  - `CalculateWave` fills a zero array in three masked passes and is proved equal to `Wave`.
  - `UpdateAnimation` advances `time` by 0.01 and recomputes the single curve or the seven white-light curves.
  - Each setter changes exactly one field.

Sine and π are not computed. They are a `Trig` value (a function `sin` and a
number `pi`). Lemmas that need their properties require `Trig.Valid()`:
`-1 <= Sin(t) <= 1`, `Sin(0) == 0`, `pi > 0`. The grid positions are exact
reals `3000·i/2999`.

Where the code's comments or apparent intent differ from what it does, the model follows the code:

- A wavelength outside [380, 750] gives (0, 0, 0), not grey (128, 128, 128). The code sets the raw channels to 0.5, but the attenuation factor there is 0.0, and the factor multiplies every channel (LightVis.py:42-57).
- The code never validates the boundary order. When `boundary1 >= boundary2`, mask 2 is empty. Positions in (boundary2, boundary1] are written by mask 1 and then overwritten by mask 3. No clamping or rejection happens (LightVis.py:225-240).
- The comment about mapping a 10-100 simulation wavelength to 380-750 nm is stale. The argument is used directly as nanometres (LightVis.py:15, 206).
- `phase1_boundary` and `phase2_boundary` are computed but never used (LightVis.py:231, 237-238). The model has no counterpart for them.

## Model

| member | source | states |
|---|---|---|
| `ColorMapping.RoundHalfEven` | LightVis.py:55-57 | Python's `round`: the result is within 1/2 of its argument, and on an exact tie it is even |
| `ColorMapping.Raw` | LightVis.py:18-43 | every raw channel is in [0, 1]; outside [380, 750] all three are 0.5; inside, at least one channel is 1.0 |
| `ColorMapping.Attenuation` | LightVis.py:46-53 | the factor is in [0.3, 1] on [380, 750] and exactly 0 outside; it is 1 on [420, 700) and 0.3 at both ends |
| `ColorMapping.WavelengthToRgb` | LightVis.py:11-59 | total on every real; each channel is an integer in [0, 255]; outside [380, 750] the result is (0, 0, 0) |
| `ColorMapping.RoundMonotone` | LightVis.py:55-57 | rounding preserves order: x <= y implies round(x) <= round(y) |
| `ColorMapping.ChannelInRange` | LightVis.py:55-57 | a scaled channel rounds into [0, 255] and never above round(255·factor) |
| `ColorMapping.ExactlyOneBand` | LightVis.py:18-43 | the six guards of the if/elif chain (five half-open, the last closed) partition [380, 750]: inside it exactly one guard holds, outside it none does, so only the final grey branch applies there |
| `ColorMapping.DominantChannel` | LightVis.py:18-41 | raw blue is 1.0 on [380, 490), raw green on [490, 580), raw red on [580, 750] |
| `ColorMapping.MaxChannelIsFactor` | LightVis.py:18-57 | inside the visible range the largest output channel equals round(255·factor), which is 255 on [420, 700) |
| `ColorMapping.ReferenceColors` | LightVis.py:11-59 | 650 nm gives (255, 0, 0); 550 nm gives (146, 255, 0); 380 nm gives (76, 0, 76) and 750 nm gives (76, 0, 0), because the tie 76.5 rounds to even; 300 nm gives (0, 0, 0) |
| `WaveField.Position` | LightVis.py:104 | grid position 0 is 0, position 2999 is 3000, and every grid position lies in [0, 3000] |
| `WaveField.PositionIncreasing` | LightVis.py:104 | the grid is strictly increasing |
| `WaveField.DispersionTerm` | LightVis.py:210-211 | (550/λ)² is strictly positive for every non-zero λ |
| `WaveField.EffectiveIndices` | LightVis.py:203-215 | with prism mode off the indices of media 2 and 3 are the base ones; with it on each is strictly above its base index |
| `WaveField.DispersionTermDecreasing` | LightVis.py:210-211 | for 0 < λ < λ', (550/λ)² > (550/λ')² |
| `WaveField.DispersionOrdering` | LightVis.py:203-215 | in prism mode both effective indices fall strictly as λ grows, and at 550 nm they are exactly n2 + 0.0006 and n3 + 0.0008 |
| `WaveField.Region` | LightVis.py:225-240 | the region of a position is the last mask, in write order, that contains it; some mask always contains it |
| `WaveField.Wave` | LightVis.py:197-242 | the waveform has one value per grid position (3000) |
| `WaveField.MaskPartition` | LightVis.py:225-236 | every position is in some mask; masks 1 and 2, and masks 2 and 3, never overlap; masks 1 and 3 overlap exactly on (boundary2, boundary1]; mask 2 is empty when boundary1 >= boundary2 |
| `WaveField.RegionsContiguous` | LightVis.py:225-236 | along the grid the region never decreases, so the media are contiguous in order 1, 2, 3; with boundary1 < boundary2 masks 1 and 3 are disjoint |
| `WaveField.OverlapTakesMedium3` | LightVis.py:225-240 | a position in both mask 1 and mask 3 exists only when boundary2 < boundary1, and it keeps the medium-3 value (last writer wins) |
| `WaveField.SampleFormula` | LightVis.py:203-240 | read in the masks' write order: where mask 3 holds the value is A·0.1·sin(2π·n3'/λ·(x − boundary2) − speed·time); where mask 2 holds and mask 3 does not it is A·0.1·sin(2π·n2'/λ·(x − boundary1) − speed·time); where only mask 1 holds it is A·0.1·sin(2π·n1/λ·x − speed·time); n2' and n3' are n2 + 0.0006·(550/λ)² and n3 + 0.0008·(550/λ)² in prism mode and the base indices otherwise |
| `WaveField.Locality` | LightVis.py:218-240 | a sample depends only on the index of the medium that writes it: n1 affects only region 1; n2, n3 and prism mode affect only their own region |
| `WaveField.SampleBound` | LightVis.py:227-240 | every sample lies within ±0.1·\|amplitude\| |
| `WaveField.ZeroSample` | LightVis.py:199-240 | a sample is 0 exactly when the amplitude is 0 or the sine of its region's phase is 0, so no position keeps the initial zero for any other reason |
| `WaveField.WaveStartsAtZero` | LightVis.py:224-227 | at time 0, with both boundaries at or after 0, the sample at x = 0 is 0 |
| `WaveWidget.WhiteLightCurves` | LightVis.py:174-190 | the white-light curves are the seven prism wavelengths in order, each holding its own waveform |
| `WaveWidget.WaveSimulationWidget.constructor` | LightVis.py:62-190 | starts from wavelength 550, amplitude 5, speed 2, n = 1.0003, 1.33, 1.52, boundaries 1000 and 2000, both modes off, time 0; computes the single curve and the seven white-light curves |
| `WaveWidget.WaveSimulationWidget.CalculateWave` | LightVis.py:197-242 | a zero array written by mask 1, then mask 2, then mask 3 ends up equal to the last-writer-wins waveform `Wave` of the current fields |
| `WaveWidget.WaveSimulationWidget.UpdateAnimation` | LightVis.py:244-256 | time grows by exactly 0.01 and no other parameter changes; in white-light mode each of the seven curves is recomputed at its own wavelength and the single curve is untouched; otherwise only the single curve is recomputed, at the current wavelength |
| `WaveWidget.WaveSimulationWidget.UpdateWavelength` | LightVis.py:276-277 | changes the wavelength and nothing else; the white-light curve invariant `Valid()` holds afterwards exactly when it held before |
| `WaveWidget.WaveSimulationWidget.UpdateAmplitude` | LightVis.py:280-281 | changes the amplitude and nothing else; the white-light curve invariant `Valid()` holds afterwards exactly when it held before |
| `WaveWidget.WaveSimulationWidget.UpdateSpeed` | LightVis.py:291-292 | changes the speed and nothing else; the white-light curve invariant `Valid()` holds afterwards exactly when it held before |
| `WaveWidget.WaveSimulationWidget.UpdateN1` | LightVis.py:294-295 | changes n1 and nothing else; the white-light curve invariant `Valid()` holds afterwards exactly when it held before |
| `WaveWidget.WaveSimulationWidget.UpdateN2` | LightVis.py:298-299 | changes n2 and nothing else; the white-light curve invariant `Valid()` holds afterwards exactly when it held before |
| `WaveWidget.WaveSimulationWidget.UpdateN3` | LightVis.py:302-303 | changes n3 and nothing else; the white-light curve invariant `Valid()` holds afterwards exactly when it held before |
| `WaveWidget.WaveSimulationWidget.TogglePrismMode` | LightVis.py:318-320 | changes prism mode and nothing else; the white-light curve invariant `Valid()` holds afterwards exactly when it held before |
| `WaveWidget.WaveSimulationWidget.ToggleWhiteLight` | LightVis.py:323-325 | changes white-light mode and nothing else; the white-light curve invariant `Valid()` holds afterwards exactly when it held before |
| `WaveWidget.WhiteLightColors` | LightVis.py:174-184 | the seven curve colours are (110, 0, 166), (0, 51, 255), (0, 255, 128), (146, 255, 0), (255, 177, 0), (255, 0, 0) and (255, 0, 0); at 500 nm the blue product is the tie 127.5, which rounds to the even 128; at 400 nm the red product is 110.5 in exact arithmetic (just below it in floats), and both give 110 |

## Left out

- All PyQt5/pyqtgraph construction and rendering is left out (LightVis.py:62-170, 258-273, 341-632). This covers plot items, regions, boundary lines, labels, `setData`/`setPen`/`setVisible`, titles, and `update_plot`. It is display code calling into foreign libraries. A curve is represented only by the data last handed to it.
- `update_medium1`..`update_medium3` are left out (LightVis.py:306-316). Each changes only `current_mediumN`, a display name. Its call to `update_plot` relabels the media, recolours the regions and, when white-light mode is off, gives the single curve the pen of the current wavelength. None of this touches the wave data.
- `update_amplitude` also sets the plot's y-range, and `toggle_white_light` also shows or hides curves and sets the title. Only their state change is modelled.
- `QTimer` scheduling and the tab-driven start and stop are left out (LightVis.py:193-195, 635-641). A tick is a plain call of `UpdateAnimation`.
- Sine and π are abstract (`Trig`). No fact about actual sine values is used or proved.
- Floating point is left out. Positions (`numpy.linspace`), the 0.01 time steps, the dispersion term and the colour products are exact reals. A float product that lands just off an exact tie may round differently from the real model.
- The model of `calculate_wave` returns the array's contents as a sequence, not the numpy array object.
- The slider glue in `LightSimulationApp` is left out (`value/100`, `int(n*100)`, LightVis.py:659-693). These are float conversions in UI handlers.
- Y-range and zoom handling is left out (LightVis.py:280-289, 697-704). It is display only.
- The prism-mode check box is never connected to `toggle_prism_mode` (LightVis.py:515, 616-632). Prism mode is still modelled as an ordinary parameter.
- `WaveWidget.WaveSimulationWidget.CalculateWave` requires a non-zero wavelength. The source divides by it and would raise `ZeroDivisionError`. Its callers only ever pass slider values in [380, 750] or the seven prism wavelengths.
- `WaveWidget.WaveSimulationWidget.UpdateAnimation` requires the same of the current wavelength in single-curve mode, for the same reason.
