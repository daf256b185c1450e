# Cozmars speaker: block production and tone planning

A Dafny model of the audio pipeline of the Cozmars robot's `Speaker`
(`rcute_cozmars/speaker.py`). The speaker turns a sound source into a stream
of fixed-size PCM blocks and pushes them to the robot, pausing between pushes
once a preload is used up. `beep` plans a tune of possibly nested pitches. `say` picks
an espeak voice from the text. The model covers:

- `common.dfy` (module `Common`): bytes, blocks, the exceptions the speaker
  raises (`TypeError`, `ValueError` from `tee` and from `beep`,
  `ZeroDivisionError`) as a `Result` datatype.
- `blocks.dfy` (module `Blocks`): the chunker `raw_gen` and the repeat expander
  `repeat_gen`. The chunker is the loop method `RawGen`, proved equal to the
  function `Chunks`. Lemmas about `Chunks` give the block length, the block
  count (the ceiling of the length over the block length), the concatenation
  (the data followed by the fewest padding zeros) and the empty case.
  `repeat_gen` is `RepeatGen` over a finite block sequence.
- `tones.dfy` (module `Tones`): the tune as a datatype `Phrase` (a pitch, or a
  group that shares one beat). It holds the frequency scan `max_freq`, the
  sample-rate ladder, the duty-cycle check, and the beat plan of `tone2audio`.
  The plan is a list of (pitch, sounded ms, gap ms) segments. It is proved equal
  to the pitches in left-to-right order, each with the beat `base / 2^depth`.
- `voice.dfy` (module `Voice`): the default voice of `say` and the merge of
  the caller's options over it.
- `playback.dfy` (module `Playback`): the source dispatch of `play`, the
  preload counter and its sleep decisions, and a `Speaker` class. Its `Play`
  method records the stream parameters (`_t_sr`, `_t_dt`, `_t_bs`). It appends
  every push and every sleep to an `output` sequence, which stands for the
  input stream and the pacing waits.

Points where the code does less, or something else, than its names and
comments suggest:

- The rate ladder is not the minimum that the comment at `speaker.py:114`
  ("find min freq required to save bandwidth") suggests. It uses fixed
  thresholds of 800 Hz and 11025 Hz, so a 5000 Hz tune gets 22050 Hz although
  16000 Hz would already cover tones up to 8000 Hz. At exactly 11025 Hz the
  chosen 22050 Hz is twice the frequency, not strictly above it. `RateTier`
  proves `2f <= rate` for `f <= 22050`.
- The parameter `preload` reads like a number of blocks, but the counter
  grows by the block duration after each push, so `preload` is measured in
  seconds of audio (`PacingClosedForm`). With the defaults (`preload=1`,
  `block_duration=0.1`) the blocks that go out back to back, with no sleep
  after them, are ten in exact arithmetic and eleven with Python floats: ten
  additions of 0.1 give 0.9999999999999999, which is still below 1.
- A negative `repeat` raises `ValueError` from `itertools.tee`. A zero
  `repeat` plays nothing.

## Model

| member | source | states |
|---|---|---|
| `Blocks.Chunks` | rcute_cozmars/speaker.py:171-177 | every window yielded, the last one too, has exactly `bs * w` bytes; no data gives no windows, and any data gives at least one |
| `Blocks.ChunksCount` | rcute_cozmars/speaker.py:173 | the window count `c` satisfies `len <= c * n < len + n`, i.e. it is the ceiling of `len / n` |
| `Blocks.ChunksConcat` | rcute_cozmars/speaker.py:173-177 | the windows joined are the input followed by exactly the padding zero bytes |
| `Blocks.Padding` | rcute_cozmars/speaker.py:175-176 | fewer zero bytes are added than one block holds |
| `Blocks.PaddingIsFewest` | rcute_cozmars/speaker.py:175-176 | no smaller number of zero bytes brings the length to a multiple of the block length |
| `Blocks.RawGen` | rcute_cozmars/speaker.py:171-177 | the offset loop with slicing and in-loop padding yields exactly `Chunks(data, bs * w)` |
| `Blocks.RepeatGen` | rcute_cozmars/speaker.py:179-184 | the expansion fails exactly for a negative count (`tee` raises `ValueError`), otherwise succeeds |
| `Blocks.Cycle` | rcute_cozmars/speaker.py:183-184 | the `tee` copies yield only input blocks, and nothing exactly when there are no copies or no input |
| `Blocks.CycleRepetition` | rcute_cozmars/speaker.py:183-184 | the `n` tee copies yield `n * len` blocks and the `j`-th run of them is the input, block for block |
| `Blocks.RepeatGenRuns` | rcute_cozmars/speaker.py:179-184 | for any count `>= 1`, including the pass-through at 1, the output has `repeat * len` blocks and each run is the input (the zero case is `RepeatGenEmpty`'s) |
| `Blocks.RepeatOnceIsCycle` | rcute_cozmars/speaker.py:180-181 | the pass-through for `repeat == 1` yields the same as a single tee copy |
| `Blocks.RepeatGenEmpty` | rcute_cozmars/speaker.py:182-184 | `repeat == 0` (an empty tuple of tee copies), or an empty input, yields nothing |
| `Tones.MaxFreq` | rcute_cozmars/speaker.py:126-127 | the fold starting from 0 never goes below 0 |
| `Tones.MaxFreqIsUpperBound` | rcute_cozmars/speaker.py:126-127 | the result is at least the frequency of every pitch at every nesting depth |
| `Tones.MaxFreqIsAttained` | rcute_cozmars/speaker.py:126-127 | the result is 0 or the frequency of one of the tune's pitches |
| `Tones.MaxFreqWithoutLeaves` | rcute_cozmars/speaker.py:126-127 | an empty tune, or one made only of empty groups, scans to 0 |
| `Tones.RateTier` | rcute_cozmars/speaker.py:115-121 | the rate is one of 16000/22050/44100, 44100 exactly above 11025 Hz, 16000 exactly at or below 800 Hz, and at least twice the frequency up to 22050 Hz |
| `Tones.RateTierMonotone` | rcute_cozmars/speaker.py:116-121 | a higher maximum frequency never selects a lower rate |
| `Tones.NoteSegment` | rcute_cozmars/speaker.py:130-131 | sounded time and gap of a pitch add up to its beat |
| `Tones.NoteSegmentWithinBeat` | rcute_cozmars/speaker.py:112-113 | with an accepted duty cycle the sounded time is positive and at most the beat, and the gap is non-negative and vanishes exactly for duty cycle 1 |
| `Tones.TonePlan` | rcute_cozmars/speaker.py:129-134 | the fold of `tone2audio`, halving the beat inside each group: with a non-negative base beat, no pitch, however deeply nested, takes longer than one base beat |
| `Tones.TonePlanByDepth` | rcute_cozmars/speaker.py:129-134 | the plan lists the pitches left to right, a pitch at depth `d` with beat `base / 2^d`, sounding `beat * duty_cycle` and then silent for `beat - beat * duty_cycle` |
| `Tones.Beep` | rcute_cozmars/speaker.py:112-122 | the checks `beep` makes before rendering fail exactly when the duty cycle is outside (0, 1] (`ValidDutyCycle`, checked first, `ValueError`) or the tempo is 0; otherwise the rate is the ladder's tier for the scanned maximum and the plan is the depth-halved segments with base beat `60000 / tempo` |
| `Tones.BeepRateCoversTune` | rcute_cozmars/speaker.py:114-121 | for an accepted tune up to 22050 Hz, every pitch is at most half the chosen rate |
| `Voice.ContainsHan` | rcute_cozmars/speaker.py:86 | the regular-expression search, a scan from the text's start, succeeds exactly when some character lies in U+4E00..U+9FFF |
| `Voice.DefaultVoice` | rcute_cozmars/speaker.py:86 | the default voice is `zh` exactly when the text holds an ideograph, else `en` |
| `Voice.EspeakSettings` | rcute_cozmars/speaker.py:86-89 | the attributes set are the caller's options plus `voice`; every caller option keeps its value; without a `voice` option the default voice is used |
| `Voice.VoiceSelection` | rcute_cozmars/speaker.py:86-87 | an explicit `voice` always wins; otherwise `zh` iff some character is in U+4E00..U+9FFF and `en` iff none is |
| `Playback.Normalize` | rcute_cozmars/speaker.py:35-49 | the dispatch fails (TypeError) exactly for a non-iterable source; a file takes the decoder's rate, block size and blocks; arrays and bytes keep the requested rate and block size and give exactly `Chunks` of their bytes, blocks of `bs * w` bytes; another iterable is used as it is |
| `Playback.CounterBounded` | rcute_cozmars/speaker.py:55-59 | the preload counter (`Counter`: 0, then `+ bd` per push while below `preload`) never goes negative for `bd >= 0`, and once it has moved it exceeds `preload` by less than one block |
| `Playback.Pacing` | rcute_cozmars/speaker.py:55-61 | one sleep decision per pushed block |
| `Playback.CounterClosedForm` | rcute_cozmars/speaker.py:58-59 | with `bd >= 0` the counter reaches `preload` after `k` pushes exactly when `k * bd >= preload`, and below that it equals `k * bd` |
| `Playback.PacingClosedForm` | rcute_cozmars/speaker.py:55-61 | push `k` is followed by a sleep exactly when `k * bd >= preload`: preload is measured in seconds |
| `Playback.PacingStaysPaced` | rcute_cozmars/speaker.py:58-61 | once a push is followed by a sleep, every later push is too |
| `Playback.SessionShape` | rcute_cozmars/speaker.py:56-61 | a session (`Session`, one `Step` per block: push, then sleep if paced) opens with a push, every sleep lasts the pause, and a sleep is always followed by a push, never by another sleep |
| `Playback.SessionPushes` | rcute_cozmars/speaker.py:56-57 | the pushes of a session are exactly its blocks, in order; sleeps push nothing |
| `Playback.PlayEvents` | rcute_cozmars/speaker.py:39-63 | `play` fails exactly for a non-iterable source (TypeError) or a negative repeat count (ValueError) |
| `Playback.PlayPushes` | rcute_cozmars/speaker.py:49-57 | `play` pushes exactly the repeated blocks of the normalised source, in order |
| `Playback.PlayBytesPushes` | rcute_cozmars/speaker.py:45-57 | for a byte buffer, `play` pushes the chunked buffer `repeat` times, and the chunks hold the buffer and then its padding |
| `Playback.Speaker.Play` | rcute_cozmars/speaker.py:27-63 | on success the output grows by exactly the session's pushes and sleeps; on an error nothing is output; a non-iterable source changes nothing; otherwise `_t_sr/_t_dt/_t_bs` are the normalised stream's |
| `Playback.Speaker.PushPaced` | rcute_cozmars/speaker.py:54-61 | the loop appends, for each block, its push and then a sleep of `0.95 * bd` exactly when the preload counter has reached `preload` |

## Left out

- Decoding of files and URLs (`file_sr_bs_gen`): HTTP fetch, soundfile and librosa decoding, resampling. `Play` takes the decoder as a parameter `decodeFile` returning (rate, block size, blocks). Its failures are not modelled. A `FileLike` source is a path or URL string. An object with a `read` method also takes this branch of `play`, but `file_sr_bs_gen` calls `src.startswith`, which such an object lacks, so the source fails there; that case is not modelled.
- numpy conversion in `np_gen` (channel averaging, float/int scaling). A `SampleArray` source carries the bytes of the already converted array. Only the chunking it hands to `raw_gen` is modelled.
- `bs = int(bd * sr)`: the block size is a parameter. For an array or a byte buffer it is required positive, together with the sample width. A zero block length there, where Python's `range` would raise, is excluded by that precondition and not modelled as an error. Files and other iterables do not use it and accept any value.
- `util.sample_width(dt)`: the sample width is a positive parameter `width`.
- Resolution of the `sample_rate`, `dtype` and `block_duration` keyword arguments against the speaker's defaults. `Play` takes the resolved values.
- Concurrency and transport: the `asyncio.Lock`, opening and closing the stream by `async with self`, `run_in_executor`, the RPC accessors `_get_rpc` and `_volume`. The actual waiting is also left out: a sleep is an event in `output`.
- Floating point: counter, beats, durations and frequencies are exact reals. Rounding in `count += bd` is not modelled. Boundary cases differ by a block: with `preload=1` and `bd=0.1` the model first sleeps after the eleventh push (`PacingClosedForm`), Python only after the twelfth.
- Pitch lookup: `Tone(e).frequency` is a caller-supplied total function `freq`. Invalid pitch names, which raise in gpiozero, are not modelled.
- pydub rendering in `tone2audio`: sine generation, silence, the crossfade and the resulting `AudioSegment` lengths. The `play` call on `aud.raw_data` that follows is also left out. Only the plan of segments is modelled, and no rendered duration is claimed.
- espeak synthesis and WAV parsing in `say`, and its `play` call. Setting attributes on the synthesiser is modelled as the resulting option map.
- `Tones.Beep`: only a tempo of exactly 0 is an error. A negative tempo gives negative beats, which the plan carries as they are. Rendering can fail after these checks: `tone2audio` appends each note's silence with a crossfade as long as the silence, and pydub's `append` rejects a crossfade longer than the tone, so for a duty cycle below 0.5 a tune with a pitch raises `ValueError`. The same crossfade fades the gap over the end of the tone instead of adding silence after it. `Tones.Beep` also plans every pitch, while `beep` iterates `tones` twice (`max_freq`, then `tone2audio`), so a one-shot iterator is used up by the scan and renders nothing.
- Non-integer `repeat` values and sources whose items are not byte strings are not modelled.
