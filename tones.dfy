/**
 * The tone planning behind `Speaker.beep`: the frequency pre-scan `max_freq`,
 * the sample-rate ladder, the duty-cycle check and the beat plan of
 * `tone2audio`. Pitches are resolved to frequencies by a lookup `freq`
 * supplied by the caller (gpiozero's `Tone(e).frequency`).
 */
module Tones {
  import opened Common

  /**
   * One element of a tune: a pitch, or a list/tuple of elements that shares
   * one beat of the enclosing level.
   */
  datatype Phrase<P> = Note(pitch: P) | Group(items: seq<Phrase<P>>)

  /** A pitch of the tune together with how many groups enclose it. */
  datatype Leaf<P> = Leaf(pitch: P, depth: nat)

  /** One rendered note: its pitch, how long it sounds and the silence after it (in ms). */
  datatype Segment<P> = Segment(pitch: P, soundMs: real, gapMs: real)

  /** The pitches of `tones`, left to right, each with its nesting depth counted from `depth`. */
  function Leaves<P>(tones: seq<Phrase<P>>, depth: nat): seq<Leaf<P>>
    decreases tones
  {
    if tones == [] then []
    else
      var last := tones[|tones| - 1];
      Leaves(tones[..|tones| - 1], depth) +
      match last
      case Note(p) => [Leaf(p, depth)]
      case Group(items) => Leaves(items, depth + 1)
  }

  /**
   * `max_freq(tones)`: a left fold that starts at 0 and takes the larger of
   * the running value and each element's frequency, recursing into groups.
   */
  function MaxFreq<P>(tones: seq<Phrase<P>>, freq: P -> real): (r: real)
    ensures r >= 0.0
    decreases tones
  {
    if tones == [] then 0.0
    else
      var last := tones[|tones| - 1];
      Max(MaxFreq(tones[..|tones| - 1], freq),
          match last
          case Note(p) => freq(p)
          case Group(items) => MaxFreq(items, freq))
  }

  /** No pitch of the tune, at any depth, has a higher frequency than `MaxFreq`. */
  lemma {:induction false} MaxFreqIsUpperBound<P>(tones: seq<Phrase<P>>, freq: P -> real, depth: nat)
    ensures forall l :: l in Leaves(tones, depth) ==> freq(l.pitch) <= MaxFreq(tones, freq)
    decreases tones
  {
    if tones != [] {
      var init := tones[..|tones| - 1];
      var last := tones[|tones| - 1];
      MaxFreqIsUpperBound(init, freq, depth);
      match last
      case Note(p) =>
      case Group(items) =>
        MaxFreqIsUpperBound(items, freq, depth + 1);
    }
  }

  /** `MaxFreq` is 0 (the fold's start value) or the frequency of one of the tune's pitches. */
  lemma {:induction false} MaxFreqIsAttained<P>(tones: seq<Phrase<P>>, freq: P -> real, depth: nat)
    ensures MaxFreq(tones, freq) == 0.0 ||
            exists l :: l in Leaves(tones, depth) && freq(l.pitch) == MaxFreq(tones, freq)
    decreases tones
  {
    if tones != [] {
      var init := tones[..|tones| - 1];
      var last := tones[|tones| - 1];
      MaxFreqIsAttained(init, freq, depth);
      match last
      case Note(p) =>
        assert Leaf(p, depth) in Leaves(tones, depth);
      case Group(items) =>
        MaxFreqIsAttained(items, freq, depth + 1);
    }
  }

  /** A tune without pitches (empty, or groups of empty groups) scans to 0. */
  lemma {:induction false} MaxFreqWithoutLeaves<P>(tones: seq<Phrase<P>>, freq: P -> real, depth: nat)
    requires Leaves(tones, depth) == []
    ensures MaxFreq(tones, freq) == 0.0
  {
    MaxFreqIsAttained(tones, freq, depth);
  }

  /**
   * The sample rate `beep` renders at for a highest frequency `f`: 44100
   * above 11025 Hz, 22050 above 800 Hz, 16000 otherwise.
   */
  function RateTier(f: real): (sr: nat)
    ensures sr in {16000, 22050, 44100}
    ensures sr == 44100 <==> f > 11025.0
    ensures sr == 16000 <==> f <= 800.0
    ensures f <= 22050.0 ==> 2.0 * f <= sr as real
  {
    if f > 11025.0 then 44100
    else if f > 800.0 then 22050
    else 16000
  }

  /** A higher maximum frequency never selects a lower sample rate. */
  lemma RateTierMonotone(f: real, g: real)
    requires f <= g
    ensures RateTier(f) <= RateTier(g)
  {
  }

  /** `0 < duty_cycle <= 1`, the range `beep` accepts. */
  predicate ValidDutyCycle(dutyCycle: real) {
    0.0 < dutyCycle <= 1.0
  }

  /** The segment rendered for one pitch given the beat of its level. */
  function NoteSegment<P>(pitch: P, beatMs: real, dutyCycle: real): (s: Segment<P>)
    ensures s.pitch == pitch
    ensures s.soundMs + s.gapMs == beatMs
  {
    var duty := beatMs * dutyCycle;
    Segment(pitch, duty, beatMs - duty)
  }

  /** With an accepted duty cycle a note sounds for part of a positive beat and the gap is never negative. */
  lemma NoteSegmentWithinBeat<P>(pitch: P, beatMs: real, dutyCycle: real)
    requires ValidDutyCycle(dutyCycle) && beatMs > 0.0
    ensures 0.0 < NoteSegment(pitch, beatMs, dutyCycle).soundMs <= beatMs
    ensures 0.0 <= NoteSegment(pitch, beatMs, dutyCycle).gapMs < beatMs
    ensures NoteSegment(pitch, beatMs, dutyCycle).gapMs == 0.0 <==> dutyCycle == 1.0
  {
    assert beatMs * dutyCycle <= beatMs * 1.0;
    assert beatMs * dutyCycle > 0.0;
  }

  /**
   * The plan of `tone2audio(tones, base_beat_ms, duty_cycle, sr)`: a left
   * fold that appends one segment per pitch and the plan of each group
   * rendered with half the beat. No pitch, however deeply nested, takes
   * longer than one beat of the top level.
   */
  function TonePlan<P>(tones: seq<Phrase<P>>, beatMs: real, dutyCycle: real): (r: seq<Segment<P>>)
    ensures beatMs >= 0.0 ==> forall i :: 0 <= i < |r| ==> 0.0 <= r[i].soundMs + r[i].gapMs <= beatMs
    decreases tones
  {
    if tones == [] then []
    else
      var last := tones[|tones| - 1];
      TonePlan(tones[..|tones| - 1], beatMs, dutyCycle) +
      match last
      case Note(p) => [NoteSegment(p, beatMs, dutyCycle)]
      case Group(items) => TonePlan(items, beatMs / 2.0, dutyCycle)
  }

  /** `2^d` as a real. */
  function Pow2(d: nat): (r: real)
    ensures r >= 1.0
  {
    if d == 0 then 1.0 else 2.0 * Pow2(d - 1)
  }

  /** The beat of a pitch at nesting depth `d` under a base beat of `baseMs`. */
  function BeatAt(baseMs: real, d: nat): real {
    baseMs / Pow2(d)
  }

  /** The plan the tune's pitches get, read off their depths alone. */
  function LeafSegments<P>(leaves: seq<Leaf<P>>, baseMs: real, dutyCycle: real): (r: seq<Segment<P>>)
    ensures |r| == |leaves|
  {
    if leaves == [] then []
    else
      var l := leaves[|leaves| - 1];
      LeafSegments(leaves[..|leaves| - 1], baseMs, dutyCycle) + [NoteSegment(l.pitch, BeatAt(baseMs, l.depth), dutyCycle)]
  }

  lemma {:induction false} LeafSegmentsAppend<P>(a: seq<Leaf<P>>, b: seq<Leaf<P>>, baseMs: real, dutyCycle: real)
    ensures LeafSegments(a + b, baseMs, dutyCycle) == LeafSegments(a, baseMs, dutyCycle) + LeafSegments(b, baseMs, dutyCycle)
    decreases |b|
  {
    if b != [] {
      var b' := b[..|b| - 1];
      assert (a + b)[..|a + b| - 1] == a + b';
      assert (a + b)[|a + b| - 1] == b[|b| - 1];
      LeafSegmentsAppend(a, b', baseMs, dutyCycle);
    } else {
      assert a + b == a;
    }
  }

  lemma HalveBeat(baseMs: real, d: nat)
    ensures BeatAt(baseMs, d) / 2.0 == BeatAt(baseMs, d + 1)
  {
  }

  /**
   * The beat plan is the tune's pitches in left-to-right order, each at depth
   * `d` rendered with the beat `baseMs / 2^d`, sounding `beat * duty_cycle`
   * and followed by `beat - beat * duty_cycle` of silence.
   */
  lemma {:induction false} TonePlanByDepth<P>(tones: seq<Phrase<P>>, baseMs: real, dutyCycle: real, depth: nat)
    ensures TonePlan(tones, BeatAt(baseMs, depth), dutyCycle) == LeafSegments(Leaves(tones, depth), baseMs, dutyCycle)
    decreases tones
  {
    if tones != [] {
      var init := tones[..|tones| - 1];
      TonePlanByDepth(init, baseMs, dutyCycle, depth);
      match tones[|tones| - 1]
      case Note(p) =>
        NoteStep(tones, p, baseMs, dutyCycle, depth);
      case Group(items) =>
        TonePlanByDepth(items, baseMs, dutyCycle, depth + 1);
        GroupStep(tones, items, baseMs, dutyCycle, depth);
    }
  }

  lemma NoteStep<P>(tones: seq<Phrase<P>>, p: P, baseMs: real, dutyCycle: real, depth: nat)
    requires tones != [] && tones[|tones| - 1] == Note(p)
    requires TonePlan(tones[..|tones| - 1], BeatAt(baseMs, depth), dutyCycle) == LeafSegments(Leaves(tones[..|tones| - 1], depth), baseMs, dutyCycle)
    ensures TonePlan(tones, BeatAt(baseMs, depth), dutyCycle) == LeafSegments(Leaves(tones, depth), baseMs, dutyCycle)
  {
  }

  lemma TonePlanGroupStep<P>(tones: seq<Phrase<P>>, items: seq<Phrase<P>>, beatMs: real, dutyCycle: real)
    requires tones != [] && tones[|tones| - 1] == Group(items)
    ensures TonePlan(tones, beatMs, dutyCycle) == TonePlan(tones[..|tones| - 1], beatMs, dutyCycle) + TonePlan(items, beatMs / 2.0, dutyCycle)
  {
  }

  lemma GroupStep<P>(tones: seq<Phrase<P>>, items: seq<Phrase<P>>, baseMs: real, dutyCycle: real, depth: nat)
    requires tones != [] && tones[|tones| - 1] == Group(items)
    requires TonePlan(tones[..|tones| - 1], BeatAt(baseMs, depth), dutyCycle) == LeafSegments(Leaves(tones[..|tones| - 1], depth), baseMs, dutyCycle)
    requires TonePlan(items, BeatAt(baseMs, depth + 1), dutyCycle) == LeafSegments(Leaves(items, depth + 1), baseMs, dutyCycle)
    ensures TonePlan(tones, BeatAt(baseMs, depth), dutyCycle) == LeafSegments(Leaves(tones, depth), baseMs, dutyCycle)
  {
    var init := tones[..|tones| - 1];
    var beat := BeatAt(baseMs, depth);
    var half := BeatAt(baseMs, depth + 1);
    HalveBeat(baseMs, depth);
    assert beat / 2.0 == half;
    TonePlanGroupStep(tones, items, beat, dutyCycle);
    assert Leaves(tones, depth) == Leaves(init, depth) + Leaves(items, depth + 1);
    LeafSegmentsAppend(Leaves(init, depth), Leaves(items, depth + 1), baseMs, dutyCycle);
  }

  /** What `beep` hands to the renderer: the chosen sample rate and the beat plan. */
  datatype Rendering<P> = Rendering(sampleRate: nat, plan: seq<Segment<P>>)

  /**
   * The checks and planning of `beep(tones, repeat, tempo, duty_cycle)`:
   * the duty cycle is validated first, then the rate tier comes from the
   * frequency pre-scan, then the tune is planned with a base beat of
   * `60000 / tempo` ms.
   */
  function Beep<P>(tones: seq<Phrase<P>>, tempo: real, dutyCycle: real, freq: P -> real): (r: Result<Rendering<P>>)
    ensures r.Err? <==> !ValidDutyCycle(dutyCycle) || tempo == 0.0
    ensures !ValidDutyCycle(dutyCycle) ==> r == Err(DutyCycleOutOfRange)
    ensures ValidDutyCycle(dutyCycle) && tempo == 0.0 ==> r == Err(ZeroTempo)
    ensures r.Ok? ==> r.value.sampleRate == RateTier(MaxFreq(tones, freq))
    ensures r.Ok? ==> r.value.plan == LeafSegments(Leaves(tones, 0), 60000.0 / tempo, dutyCycle)
  {
    if !ValidDutyCycle(dutyCycle) then Err(DutyCycleOutOfRange)
    else
      var sr := RateTier(MaxFreq(tones, freq));
      if tempo == 0.0 then Err(ZeroTempo)
      else
        var base := 60000.0 / tempo;
        assert BeatAt(base, 0) == base;
        TonePlanByDepth(tones, base, dutyCycle, 0);
        Ok(Rendering(sr, TonePlan(tones, base, dutyCycle)))
  }

  /** Every pitch of an accepted tune at or below 22050 Hz is below the Nyquist limit of the chosen rate. */
  lemma BeepRateCoversTune<P>(tones: seq<Phrase<P>>, tempo: real, dutyCycle: real, freq: P -> real, l: Leaf<P>)
    requires Beep(tones, tempo, dutyCycle, freq).Ok?
    requires l in Leaves(tones, 0)
    requires MaxFreq(tones, freq) <= 22050.0
    ensures 2.0 * freq(l.pitch) <= Beep(tones, tempo, dutyCycle, freq).value.sampleRate as real
  {
    MaxFreqIsUpperBound(tones, freq, 0);
  }
}
