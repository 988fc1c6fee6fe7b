# DaisySP Oscillator: configuration state

This project models the configuration part of `daisysp::Oscillator`, the
per-sample oscillator of the DaisySP audio library. It covers the waveform
selector enumeration (`WAVE_SIN` … `WAVE_POLYBLEP_SQUARE`, then the count
sentinel `WAVE_LAST`), the object's private fields, and the four operations
that configure it:

- `Init(sample_rate)` resets the object to its documented defaults: 100 Hz,
  amplitude 0.5, phase 0 and sine.
- `SetFreq(f)` stores the frequency and recomputes the phase increment.
- `SetAmp(a)` stores the amplitude.
- `SetWaveform(wf)` stores an 8-bit selector. A value that names no waveform
  falls back to sine.

Everything is in `oscillator.dfy`, in module `DaisySP`. The module has two layers:

- The class `DaisySP.Oscillator` has the source's fields (`waveform`, `amp`,
  `freq`, `sr`, `phase`, `phaseInc`, `lastOut`, `lastFreq`) and methods that
  update them in place (`modifies this`). Each method's postcondition says
  which field gets which value and that every other field is unchanged. Each
  method also ties the new ghost `Snapshot()` of the fields to `Step` applied
  to the old snapshot.
- `Step` and `Run` describe the same operations on values: one call, or a
  sequence of calls (`Call`). Their lemmas cover any sequence of
  configuration calls. After Init, or once SetWaveform has been called, the
  selector always names a waveform. After Init, the phase increment always
  matches the current frequency and sample rate. Before either call the
  fields are whatever the empty constructor left. Init forgets
  all earlier history except the previous sample and the previous frequency.
  Setters of different fields commute. A bad selector can be swapped for
  `WAVE_SIN` anywhere in a sequence without changing the outcome.

`CalcPhaseInc` is declared at `daisysp/modules/oscillator.h:92` without a
body. The header says only that SetFreq "recalculates phase increment". The
model therefore leaves the increment uninterpreted: it is a function of the
frequency and the current sample rate, and each object receives it as a
constructor argument (`phaseIncOf`). The model never assumes what it computes.
No visible code writes `last_out_` or `last_freq_` (declared at
`daisysp/modules/oscillator.h:96`). The model proves only that Init and the
setters leave them unchanged, under the assumption about `CalcPhaseInc` stated
under "## Left out".

Float fields are modelled as `real`: the operations only copy values and do no
arithmetic. `uint8_t` is `Uint8`, a natural number below 256. The defaults
`100.0f` and `0.5f` are exact in single precision, so modelling them as reals
loses nothing.

## Model

| member | source | states |
|---|---|---|
| `DaisySP.Waveform.Tag` | daisysp/modules/oscillator.h:22-33 | every waveform's enumerator value is below the sentinel `WAVE_LAST` (8) |
| `DaisySP.FromTag` | daisysp/modules/oscillator.h:22-33 | a selector value names a waveform exactly when it is below `WAVE_LAST`, and the waveform it names has that value as its tag |
| `DaisySP.TagRoundTrip` | daisysp/modules/oscillator.h:22-33 | different waveforms have different tags; with `FromTag`, the tags are exactly 0 to 7 |
| `DaisySP.SelectorOrSine` | daisysp/modules/oscillator.h:81 | the stored selector is always below `WAVE_LAST`; a selector that names a waveform is kept verbatim; any other selects sine |
| `DaisySP.Step` | daisysp/modules/oscillator.h:48-81 | no configuration call changes the previous sample or the previous frequency |
| `DaisySP.Run` | daisysp/modules/oscillator.h:48-81 | no sequence of configuration calls changes the previous sample or the previous frequency |
| `DaisySP.InitDefaults` | daisysp/modules/oscillator.h:42-57 | after Init: the given sample rate, 100 Hz, amplitude 0.5, phase 0, sine, and the increment for 100 Hz at the new sample rate, whatever the prior state |
| `DaisySP.StepConfigured` | daisysp/modules/oscillator.h:48-81 | Init establishes "selector valid and increment current", and each setter preserves it |
| `DaisySP.StepWaveformValid` | daisysp/modules/oscillator.h:81 | after Init or SetWaveform the selector is valid whatever it was before; SetFreq and SetAmp keep a valid selector valid |
| `DaisySP.SetWaveformKeepsTags` | daisysp/modules/oscillator.h:81 | SetWaveform with any waveform's tag stores that tag and changes no other field |
| `DaisySP.SetWaveformFallback` | daisysp/modules/oscillator.h:81 | SetWaveform with a value of `WAVE_LAST` or more leaves the same state as SetWaveform(`WAVE_SIN`) |
| `DaisySP.SetWaveformLastWins` | daisysp/modules/oscillator.h:81 | a second SetWaveform completely overrides the first; calling it twice with the same argument is the same as calling it once |
| `DaisySP.SettersCommute` | daisysp/modules/oscillator.h:63-81 | setters of different fields (frequency, amplitude, waveform) give the same state in either order |
| `DaisySP.RunKeepsConfigured` | daisysp/modules/oscillator.h:48-81 | once the selector is valid and the increment current, any sequence of configuration calls keeps both |
| `DaisySP.RunKeepsWaveformValid` | daisysp/modules/oscillator.h:81 | a valid selector stays valid under any sequence of configuration calls |
| `DaisySP.WaveformValidAfterSetWaveform` | daisysp/modules/oscillator.h:81 | once SetWaveform has been called (any argument, any calls before or after), the selector names a waveform |
| `DaisySP.ConfiguredAfterInit` | daisysp/modules/oscillator.h:48-57 | after Init and any later configuration calls, the selector is valid and the increment is computed from the current frequency and sample rate |
| `DaisySP.InitForgetsHistory` | daisysp/modules/oscillator.h:48-57 | two objects that agree on the previous sample and previous frequency end in the same state after Init and the same later calls |
| `DaisySP.FallbackInRun` | daisysp/modules/oscillator.h:81 | anywhere in a sequence of calls, SetWaveform with an out-of-range value can be replaced by SetWaveform(`WAVE_SIN`) without changing the final state |
| `DaisySP.PhaseIncReadsOnlyFreqAndRate` | daisysp/modules/oscillator.h:92 | the increment computed in SetFreq(f) depends on no field except the sample rate: two states with equal `sr` get the same increment; the increment computed in Init does not depend on the prior state; no formula such as `f / sr` is assumed |
| `DaisySP.Oscillator.constructor` | daisysp/modules/oscillator.h:15 | fixes the object's phase-increment computation; like the empty C++ constructor, it leaves every field unconstrained |
| `DaisySP.Oscillator.Init` | daisysp/modules/oscillator.h:48-57 | sets sample rate, 100 Hz, amplitude 0.5, phase 0 and `WAVE_SIN`; the increment is computed for 100 Hz at the new sample rate; the previous sample and previous frequency are unchanged; the result is configured |
| `DaisySP.Oscillator.SetFreq` | daisysp/modules/oscillator.h:63-68 | sets the frequency, and the increment for it at the current sample rate; the other six fields are unchanged; the configured invariant is kept |
| `DaisySP.Oscillator.SetAmp` | daisysp/modules/oscillator.h:74 | stores the amplitude without clamping; every other field is unchanged |
| `DaisySP.Oscillator.SetWaveform` | daisysp/modules/oscillator.h:81 | an in-range selector is stored verbatim, an out-of-range one becomes `WAVE_SIN`, so the selector is always below `WAVE_LAST`; every other field is unchanged |

## Left out

- `Process()` (daisysp/modules/oscillator.h:88) is declared without a body. It is floating-point signal processing: sine evaluation, polyBLEP correction, leaky integration and phase wrap. None of it is modelled, so neither are the sample-level properties (phase wrap, output range, edge continuity).
- `CalcPhaseInc` (daisysp/modules/oscillator.h:92) is declared without a body. It is an uninterpreted parameter of type `(freq, sr) -> real`, and no arithmetic property of the increment (such as `freq / sr`) is claimed.
- `CalcPhaseInc`: in the source it is a private non-const member, called from Init (line 55) and SetFreq (line 67), so it could read or write any field. The model assumes it reads only `f` and `sr_` and writes no field. The `lastOut`/`lastFreq` clauses of `Step`, `Run`, `Oscillator.Init` and `Oscillator.SetFreq` depend on that assumption. If the helper caches the frequency in `last_freq_`, those clauses do not hold for the source.
- `SetWaveform` takes a `uint8_t` (daisysp/modules/oscillator.h:81). A caller's wider integer argument is reduced modulo 256 before the call, so 257 selects `WAVE_TRI`, not sine. The model's `Uint8` argument starts after that conversion, and the fallback to sine covers only the values 8 to 255.
- IEEE-754 single-precision semantics (rounding, NaN, infinities, denormals) are not modelled; fields are reals.
- Init takes any sample rate. The model, like the source, does not require it to be positive.
- The destructor (daisysp/modules/oscillator.h:16) does nothing and is not modelled.
- The meaning of `last_out_` and `last_freq_` is not modelled. No visible code writes them; only their non-modification is proved.
- Threading and audio-callback scheduling are not modelled. The object is single-writer.
