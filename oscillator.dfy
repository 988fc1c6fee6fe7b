/** A model of the configuration state of daisysp::Oscillator: the waveform
    selector enumeration, the object's fields, and the four configuration
    operations Init, SetFreq, SetAmp and SetWaveform. Single-precision float
    fields are modelled as `real` (the operations only copy values), and
    `uint8_t` as a natural number below 256.

    The module has two layers. The class `Oscillator` holds the fields and
    updates them in place. Its ghost function `Snapshot` gives the fields as a
    `State` value, and every method ties its new snapshot to `Step` applied to
    the old one. The lemmas about `Step` and `Run` (any sequence of calls) are
    therefore lemmas about the class. */
module DaisySP {

  /** The C++ `uint8_t`. */
  type Uint8 = n: nat | n < 256

  // ---------------------------------------------------------------------------
  // The waveform selector enumeration
  // ---------------------------------------------------------------------------

  /** The waveforms the oscillator can synthesise. The first five are naive
      forms, the last three bandlimited (polyBLEP) forms. */
  datatype Waveform =
    | Sin | Tri | Saw | Ramp | Square
    | PolyblepTri | PolyblepSaw | PolyblepSquare
  {
    /** The value of the enumerator naming this waveform (WAVE_SIN, WAVE_TRI, ...). */
    function Tag(): (t: Uint8)
      ensures t < WAVE_LAST
    {
      match this
      case Sin => 0
      case Tri => 1
      case Saw => 2
      case Ramp => 3
      case Square => 4
      case PolyblepTri => 5
      case PolyblepSaw => 6
      case PolyblepSquare => 7
    }
  }

  /** The sentinel enumerator after the last waveform: the number of waveforms. */
  const WAVE_LAST: Uint8 := 8

  /** The enumerator of the default waveform. */
  const WAVE_SIN: Uint8 := Sin.Tag()

  datatype Option<T> = None | Some(value: T)

  /** The waveform a selector value names, if any. Together with
      `TagRoundTrip` this says that `Tag` numbers the waveforms consecutively
      from 0 up to, and not including, WAVE_LAST. */
  function FromTag(n: Uint8): (w: Option<Waveform>)
    ensures w.Some? <==> n < WAVE_LAST
    ensures w.Some? ==> w.value.Tag() == n
  {
    if n == 0 then Some(Sin)
    else if n == 1 then Some(Tri)
    else if n == 2 then Some(Saw)
    else if n == 3 then Some(Ramp)
    else if n == 4 then Some(Square)
    else if n == 5 then Some(PolyblepTri)
    else if n == 6 then Some(PolyblepSaw)
    else if n == 7 then Some(PolyblepSquare)
    else None
  }

  /** No two waveforms share a tag. */
  lemma TagRoundTrip(w: Waveform)
    ensures FromTag(w.Tag()) == Some(w)
  {
  }

  /** The selector SetWaveform stores for its argument: a selector that names a
      waveform is kept, any other value is replaced by the sine selector. */
  function SelectorOrSine(wf: Uint8): (r: Uint8)
    ensures r < WAVE_LAST
    ensures FromTag(wf).Some? ==> r == wf
    ensures FromTag(wf).None? ==> FromTag(r) == Some(Sin)
  {
    if wf < WAVE_LAST then wf else WAVE_SIN
  }

  // ---------------------------------------------------------------------------
  // The object's state as a value, and the configuration calls on it
  // ---------------------------------------------------------------------------

  /** The private phase-increment helper, as a function of the frequency and
      the sample rate. Its body is not part of this model, so it is left
      uninterpreted: each object is given one. Modelling it this way assumes
      that the helper reads only the frequency and the sample rate and writes
      no field. */
  type PhaseIncFn = (real, real) -> real

  /** The private fields of an Oscillator. */
  datatype State = State(
    waveform: Uint8,
    amp: real,
    freq: real,
    sr: real,
    phase: real,
    phaseInc: real,
    lastOut: real,
    lastFreq: real)

  /** A call of one of the configuration operations, with its argument. */
  datatype Call =
    | InitCall(sampleRate: real)
    | FreqCall(f: real)
    | AmpCall(a: real)
    | WaveformCall(wf: Uint8)

  /** The state after one configuration call. None of them touches the
      previous sample or the previous frequency. */
  function Step(s: State, c: Call, incOf: PhaseIncFn): (r: State)
    ensures r.lastOut == s.lastOut && r.lastFreq == s.lastFreq
  {
    match c
    case InitCall(sampleRate) =>
      s.(sr := sampleRate, freq := 100.0, amp := 0.5, phase := 0.0,
         phaseInc := incOf(100.0, sampleRate), waveform := WAVE_SIN)
    case FreqCall(f) => s.(freq := f, phaseInc := incOf(f, s.sr))
    case AmpCall(a) => s.(amp := a)
    case WaveformCall(wf) => s.(waveform := SelectorOrSine(wf))
  }

  /** The state after a sequence of configuration calls, made in order. No
      sequence of them changes the previous sample or the previous frequency. */
  function Run(s: State, cs: seq<Call>, incOf: PhaseIncFn): (r: State)
    ensures r.lastOut == s.lastOut && r.lastFreq == s.lastFreq
    decreases |cs|
  {
    if cs == [] then s else Run(Step(s, cs[0], incOf), cs[1..], incOf)
  }

  /** The selector names a waveform. */
  predicate WaveformValid(s: State) {
    s.waveform < WAVE_LAST
  }

  /** The phase increment is the one computed from the current frequency and
      the current sample rate. */
  predicate PhaseIncCurrent(s: State, incOf: PhaseIncFn) {
    s.phaseInc == incOf(s.freq, s.sr)
  }

  /** The invariant of an initialised oscillator. */
  predicate Configured(s: State, incOf: PhaseIncFn) {
    WaveformValid(s) && PhaseIncCurrent(s, incOf)
  }

  // ---------------------------------------------------------------------------
  // Properties of single calls
  // ---------------------------------------------------------------------------

  /** Init sets the documented defaults whatever the previous state was, and
      computes the phase increment from the new sample rate. */
  lemma InitDefaults(s: State, sampleRate: real, incOf: PhaseIncFn)
    ensures var r := Step(s, InitCall(sampleRate), incOf);
      r.sr == sampleRate && r.freq == 100.0 && r.amp == 0.5 && r.phase == 0.0 &&
      FromTag(r.waveform) == Some(Sin) &&
      r.phaseInc == incOf(100.0, sampleRate) &&
      Configured(r, incOf)
  {
  }

  /** Init establishes the invariant, and every other call preserves it. */
  lemma StepConfigured(s: State, c: Call, incOf: PhaseIncFn)
    requires c.InitCall? || Configured(s, incOf)
    ensures Configured(Step(s, c, incOf), incOf)
  {
  }

  /** Any call other than SetWaveform leaves a valid selector valid, and
      SetWaveform makes it valid whatever it was. */
  lemma StepWaveformValid(s: State, c: Call, incOf: PhaseIncFn)
    requires c.InitCall? || c.WaveformCall? || WaveformValid(s)
    ensures WaveformValid(Step(s, c, incOf))
  {
  }

  /** SetWaveform stores the tag of every waveform verbatim. */
  lemma SetWaveformKeepsTags(s: State, w: Waveform, incOf: PhaseIncFn)
    ensures Step(s, WaveformCall(w.Tag()), incOf) == s.(waveform := w.Tag())
  {
  }

  /** SetWaveform with a value that names no waveform has the same effect as
      SetWaveform(WAVE_SIN). */
  lemma SetWaveformFallback(s: State, wf: Uint8, incOf: PhaseIncFn)
    requires wf >= WAVE_LAST
    ensures Step(s, WaveformCall(wf), incOf) == Step(s, WaveformCall(WAVE_SIN), incOf)
  {
  }

  /** A second SetWaveform overrides the first completely; in particular,
      SetWaveform is idempotent. */
  lemma SetWaveformLastWins(s: State, x: Uint8, y: Uint8, incOf: PhaseIncFn)
    ensures Step(Step(s, WaveformCall(x), incOf), WaveformCall(y), incOf)
         == Step(s, WaveformCall(y), incOf)
    ensures Step(Step(s, WaveformCall(x), incOf), WaveformCall(x), incOf)
         == Step(s, WaveformCall(x), incOf)
  {
  }

  /** The phase increment that SetFreq and Init compute depends on no field
      other than the sample rate: two states that agree on `sr` get the same
      increment from SetFreq(f), and Init's increment does not depend on the
      prior state at all. */
  lemma PhaseIncReadsOnlyFreqAndRate(s: State, t: State, f: real, sampleRate: real, incOf: PhaseIncFn)
    requires s.sr == t.sr
    ensures Step(s, FreqCall(f), incOf).phaseInc == Step(t, FreqCall(f), incOf).phaseInc
    ensures Step(s, InitCall(sampleRate), incOf).phaseInc == Step(t, InitCall(sampleRate), incOf).phaseInc
  {
  }

  /** Two setters of different fields. */
  predicate DifferentSetters(c: Call, d: Call) {
    !c.InitCall? && !d.InitCall? &&
    !(c.FreqCall? && d.FreqCall?) &&
    !(c.AmpCall? && d.AmpCall?) &&
    !(c.WaveformCall? && d.WaveformCall?)
  }

  /** Each setter affects only its own fields, so setters of different fields
      may be called in either order. */
  lemma SettersCommute(s: State, c: Call, d: Call, incOf: PhaseIncFn)
    requires DifferentSetters(c, d)
    ensures Step(Step(s, c, incOf), d, incOf) == Step(Step(s, d, incOf), c, incOf)
  {
  }

  // ---------------------------------------------------------------------------
  // Properties of sequences of calls
  // ---------------------------------------------------------------------------

  /** Running two sequences one after the other is running their concatenation. */
  lemma {:induction false} RunAppend(s: State, a: seq<Call>, b: seq<Call>, incOf: PhaseIncFn)
    ensures Run(s, a + b, incOf) == Run(Run(s, a, incOf), b, incOf)
    decreases |a|
  {
    if a != [] {
      assert (a + b)[0] == a[0];
      assert (a + b)[1..] == a[1..] + b;
      var t := Step(s, a[0], incOf);
      RunAppend(t, a[1..], b, incOf);
      assert Run(s, a + b, incOf) == Run(t, a[1..] + b, incOf);
      assert Run(s, a, incOf) == Run(t, a[1..], incOf);
    } else {
      assert a + b == b;
    }
  }

  /** Once configured, an oscillator stays configured under any sequence of
      configuration calls: the selector always names a waveform and the phase
      increment always matches the current frequency and sample rate. */
  lemma {:induction false} RunKeepsConfigured(s: State, cs: seq<Call>, incOf: PhaseIncFn)
    requires Configured(s, incOf)
    ensures Configured(Run(s, cs, incOf), incOf)
    decreases |cs|
  {
    if cs != [] {
      StepConfigured(s, cs[0], incOf);
      RunKeepsConfigured(Step(s, cs[0], incOf), cs[1..], incOf);
    }
  }

  /** A valid selector stays valid under any sequence of configuration calls. */
  lemma {:induction false} RunKeepsWaveformValid(s: State, cs: seq<Call>, incOf: PhaseIncFn)
    requires WaveformValid(s)
    ensures WaveformValid(Run(s, cs, incOf))
    decreases |cs|
  {
    if cs != [] {
      StepWaveformValid(s, cs[0], incOf);
      RunKeepsWaveformValid(Step(s, cs[0], incOf), cs[1..], incOf);
    }
  }

  /** Once SetWaveform has been called, whatever its argument and whatever
      calls come before or after it, the selector names a waveform. */
  lemma {:induction false} WaveformValidAfterSetWaveform(s: State, before: seq<Call>, wf: Uint8, after: seq<Call>, incOf: PhaseIncFn)
    ensures WaveformValid(Run(s, before + [WaveformCall(wf)] + after, incOf))
  {
    var m := Run(s, before, incOf);
    assert before + [WaveformCall(wf)] + after == before + ([WaveformCall(wf)] + after);
    RunAppend(s, before, [WaveformCall(wf)] + after, incOf);
    RunAppend(m, [WaveformCall(wf)], after, incOf);
    StepWaveformValid(m, WaveformCall(wf), incOf);
    assert Run(m, [WaveformCall(wf)], incOf) == Step(m, WaveformCall(wf), incOf);
    RunKeepsWaveformValid(Step(m, WaveformCall(wf), incOf), after, incOf);
  }

  /** After Init, whatever configuration calls follow, the selector names a
      waveform and the phase increment is current. */
  lemma {:induction false} ConfiguredAfterInit(s: State, sampleRate: real, cs: seq<Call>, incOf: PhaseIncFn)
    ensures Configured(Run(s, [InitCall(sampleRate)] + cs, incOf), incOf)
  {
    var t := Step(s, InitCall(sampleRate), incOf);
    StepConfigured(s, InitCall(sampleRate), incOf);
    assert Run(s, [InitCall(sampleRate)] + cs, incOf) == Run(t, cs, incOf) by {
      assert ([InitCall(sampleRate)] + cs)[1..] == cs;
    }
    RunKeepsConfigured(t, cs, incOf);
  }

  /** Init forgets everything but the previous sample and the previous
      frequency: two oscillators that agree on those two fields are in the
      same state after Init and the same following calls. */
  lemma {:induction false} InitForgetsHistory(s: State, t: State, sampleRate: real, cs: seq<Call>, incOf: PhaseIncFn)
    requires s.lastOut == t.lastOut && s.lastFreq == t.lastFreq
    ensures Run(s, [InitCall(sampleRate)] + cs, incOf) == Run(t, [InitCall(sampleRate)] + cs, incOf)
  {
    assert ([InitCall(sampleRate)] + cs)[1..] == cs;
    assert Step(s, InitCall(sampleRate), incOf) == Step(t, InitCall(sampleRate), incOf);
  }

  /** Anywhere in a sequence of calls, SetWaveform with a value that names no
      waveform can be replaced by SetWaveform(WAVE_SIN) without changing the
      outcome. */
  lemma {:induction false} FallbackInRun(s: State, before: seq<Call>, wf: Uint8, after: seq<Call>, incOf: PhaseIncFn)
    requires wf >= WAVE_LAST
    ensures Run(s, before + [WaveformCall(wf)] + after, incOf)
         == Run(s, before + [WaveformCall(WAVE_SIN)] + after, incOf)
  {
    var m := Run(s, before, incOf);
    RunAppend(s, before, [WaveformCall(wf)] + after, incOf);
    RunAppend(s, before, [WaveformCall(WAVE_SIN)] + after, incOf);
    assert before + [WaveformCall(wf)] + after == before + ([WaveformCall(wf)] + after);
    assert before + [WaveformCall(WAVE_SIN)] + after == before + ([WaveformCall(WAVE_SIN)] + after);
    RunAppend(m, [WaveformCall(wf)], after, incOf);
    RunAppend(m, [WaveformCall(WAVE_SIN)], after, incOf);
    SetWaveformFallback(m, wf, incOf);
  }

  // ---------------------------------------------------------------------------
  // The object
  // ---------------------------------------------------------------------------

  class Oscillator {
    var waveform: Uint8
    var amp: real
    var freq: real
    var sr: real
    var phase: real
    var phaseInc: real
    var lastOut: real
    var lastFreq: real

    /** The phase-increment computation this object uses. */
    const phaseIncOf: PhaseIncFn

    /** The C++ constructor leaves every field uninitialised; so does this
        one, apart from fixing the phase-increment computation. */
    constructor (phaseIncOf: PhaseIncFn)
      ensures this.phaseIncOf == phaseIncOf
    {
      this.phaseIncOf := phaseIncOf;
    }

    /** The private helper CalcPhaseInc: the increment for frequency `f` at
        the current sample rate. */
    function CalcPhaseInc(f: real): (inc: real)
      reads this
    {
      phaseIncOf(f, sr)
    }

    /** The fields as a value. */
    ghost function Snapshot(): (s: State)
      reads this
    {
      State(waveform, amp, freq, sr, phase, phaseInc, lastOut, lastFreq)
    }

    /** Resets the oscillator to its defaults for the given sample rate: 100 Hz,
        amplitude 0.5, phase 0, sine. The sample rate is stored before the
        phase increment is computed, so the increment is the one for the new
        rate. The previous sample and previous frequency are left as they are. */
    method Init(sampleRate: real)
      modifies this
      ensures sr == sampleRate && freq == 100.0 && amp == 0.5 && phase == 0.0
      ensures phaseInc == phaseIncOf(100.0, sampleRate)
      ensures waveform == WAVE_SIN
      ensures lastOut == old(lastOut) && lastFreq == old(lastFreq)
      ensures Configured(Snapshot(), phaseIncOf)
      ensures Snapshot() == Step(old(Snapshot()), InitCall(sampleRate), phaseIncOf)
    {
      sr := sampleRate;
      freq := 100.0;
      amp := 0.5;
      phase := 0.0;
      phaseInc := CalcPhaseInc(freq);
      waveform := WAVE_SIN;
    }

    /** Changes the frequency and recomputes the phase increment at the current
        sample rate; nothing else changes. */
    method SetFreq(f: real)
      modifies this
      ensures freq == f && phaseInc == phaseIncOf(f, sr)
      ensures waveform == old(waveform) && amp == old(amp) && sr == old(sr) && phase == old(phase)
      ensures lastOut == old(lastOut) && lastFreq == old(lastFreq)
      ensures old(Configured(Snapshot(), phaseIncOf)) ==> Configured(Snapshot(), phaseIncOf)
      ensures Snapshot() == Step(old(Snapshot()), FreqCall(f), phaseIncOf)
    {
      freq := f;
      phaseInc := CalcPhaseInc(f);
    }

    /** Stores the amplitude as given, without clamping; nothing else changes. */
    method SetAmp(a: real)
      modifies this
      ensures amp == a
      ensures waveform == old(waveform) && freq == old(freq) && sr == old(sr)
      ensures phase == old(phase) && phaseInc == old(phaseInc)
      ensures lastOut == old(lastOut) && lastFreq == old(lastFreq)
      ensures old(Configured(Snapshot(), phaseIncOf)) ==> Configured(Snapshot(), phaseIncOf)
      ensures Snapshot() == Step(old(Snapshot()), AmpCall(a), phaseIncOf)
    {
      amp := a;
    }

    /** Selects the waveform; a value that names no waveform selects sine.
        Afterwards the selector names a waveform whatever it was before;
        nothing else changes. */
    method SetWaveform(wf: Uint8)
      modifies this
      ensures wf < WAVE_LAST ==> waveform == wf
      ensures wf >= WAVE_LAST ==> waveform == WAVE_SIN
      ensures waveform < WAVE_LAST
      ensures amp == old(amp) && freq == old(freq) && sr == old(sr)
      ensures phase == old(phase) && phaseInc == old(phaseInc)
      ensures lastOut == old(lastOut) && lastFreq == old(lastFreq)
      ensures old(PhaseIncCurrent(Snapshot(), phaseIncOf)) ==> Configured(Snapshot(), phaseIncOf)
      ensures Snapshot() == Step(old(Snapshot()), WaveformCall(wf), phaseIncOf)
    {
      waveform := SelectorOrSine(wf);
    }
  }
}
