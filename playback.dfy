/**
 * `Speaker.play`: the dispatch on the kind of source, and the session that
 * pushes the (repeated) blocks to the speaker's input stream, pausing after
 * each push once the preload is used up.
 */
module Playback {
  import opened Common
  import opened Blocks

  /** The kinds of `src` that `play` tells apart, in the order it tests them. */
  datatype Source =
    | FileLike(locator: string)          // a path or URL string
    | SampleArray(pcm: seq<Byte>)        // a numpy array, given by the bytes of its conversion to the target dtype
    | RawBytes(data: seq<Byte>)          // a `bytes` buffer of PCM in the target dtype
    | BlockIterable(blocks: seq<Block>)  // any other iterable, whose items are the blocks
    | NotIterable                        // anything else

  /** A normalised source: the sample rate and block size to open the stream with, and the blocks. */
  datatype Stream = Stream(sampleRate: nat, blockSize: nat, blocks: seq<Block>)

  /**
   * What `play` makes of `src` before streaming: the file decoder's own rate,
   * block size and blocks for a file or URL; the chunked bytes at the
   * requested rate for an array or a byte buffer; an iterable as it is; and a
   * TypeError for anything else. `decodeFile` stands for `file_sr_bs_gen`.
   */
  function Normalize(src: Source, sampleRate: nat, bs: nat, width: nat, decodeFile: string -> Stream): (r: Result<Stream>)
    requires src.SampleArray? || src.RawBytes? ==> bs > 0 && width > 0
    ensures r.Err? <==> src.NotIterable?
    ensures r.Err? ==> r.error == UnableToOpen
    ensures src.FileLike? ==> r == Ok(decodeFile(src.locator))
    ensures src.SampleArray? || src.RawBytes? || src.BlockIterable? ==>
              r.Ok? && r.value.sampleRate == sampleRate && r.value.blockSize == bs
    ensures src.SampleArray? || src.RawBytes? ==>
              forall k :: 0 <= k < |r.value.blocks| ==> |r.value.blocks[k]| == bs * width
    ensures src.SampleArray? ==> r.value.blocks == Chunks(src.pcm, bs * width)
    ensures src.RawBytes? ==> r.value.blocks == Chunks(src.data, bs * width)
    ensures src.BlockIterable? ==> r.value.blocks == src.blocks
  {
    match src
    case FileLike(locator) => Ok(decodeFile(locator))
    case SampleArray(pcm) => Ok(Stream(sampleRate, bs, Chunks(pcm, bs * width)))
    case RawBytes(data) => Ok(Stream(sampleRate, bs, Chunks(data, bs * width)))
    case BlockIterable(blocks) => Ok(Stream(sampleRate, bs, blocks))
    case NotIterable => Err(UnableToOpen)
  }

  /**
   * The value of `play`'s preload counter after `k` pushes: it starts at 0
   * and grows by the block duration `bd` after each push made while it is
   * still below `preload`.
   */
  function Counter(k: nat, preload: real, bd: real): real {
    if k == 0 then 0.0
    else
      var c := Counter(k - 1, preload, bd);
      if c < preload then c + bd else c
  }

  /**
   * With a non-negative block duration the counter never goes negative, and
   * once it has moved it overshoots `preload` by less than one block.
   */
  lemma {:induction false} CounterBounded(k: nat, preload: real, bd: real)
    requires bd >= 0.0
    ensures 0.0 <= Counter(k, preload, bd)
    ensures Counter(k, preload, bd) > 0.0 ==> Counter(k, preload, bd) < preload + bd
  {
    if k > 0 {
      CounterBounded(k - 1, preload, bd);
    }
  }

  /** The sleep decisions of `play` for `n` pushes: push `k` is followed by a sleep when the counter has reached `preload`. */
  function Pacing(n: nat, preload: real, bd: real): (d: seq<bool>)
    ensures |d| == n
  {
    if n == 0 then [] else Pacing(n - 1, preload, bd) + [Counter(n - 1, preload, bd) >= preload]
  }

  lemma PacingStep(i: nat, preload: real, bd: real)
    ensures Pacing(i + 1, preload, bd) == Pacing(i, preload, bd) + [!(Counter(i, preload, bd) < preload)]
    ensures Counter(i + 1, preload, bd) ==
            if Counter(i, preload, bd) < preload then Counter(i, preload, bd) + bd else Counter(i, preload, bd)
  {
  }

  lemma {:induction false} PacingAt(n: nat, preload: real, bd: real, k: nat)
    requires k < n
    ensures Pacing(n, preload, bd)[k] == (Counter(k, preload, bd) >= preload)
  {
    if k < n - 1 {
      PacingAt(n - 1, preload, bd, k);
    }
  }

  /** With a non-negative block duration the counter is `k * bd` until it reaches `preload`. */
  lemma {:induction false} CounterClosedForm(k: nat, preload: real, bd: real)
    requires bd >= 0.0
    ensures Counter(k, preload, bd) >= preload <==> k as real * bd >= preload
    ensures Counter(k, preload, bd) < preload ==> Counter(k, preload, bd) == k as real * bd
  {
    if k > 0 {
      CounterClosedForm(k - 1, preload, bd);
      assert k as real * bd == (k - 1) as real * bd + bd;
    }
  }

  /**
   * Because the counter grows by the block duration, `preload` is measured in
   * seconds: push `k` (from 0) is followed by a sleep exactly when the `k`
   * blocks before it hold at least `preload` seconds of audio.
   */
  lemma PacingClosedForm(n: nat, preload: real, bd: real, k: nat)
    requires bd >= 0.0 && k < n
    ensures Pacing(n, preload, bd)[k] <==> k as real * bd >= preload
  {
    PacingAt(n, preload, bd, k);
    CounterClosedForm(k, preload, bd);
  }

  /** Once one push is followed by a sleep, so is every later push, whatever the block duration. */
  lemma {:induction false} PacingStaysPaced(n: nat, preload: real, bd: real, j: nat, k: nat)
    requires j <= k < n
    requires Pacing(n, preload, bd)[j]
    ensures Pacing(n, preload, bd)[k]
  {
    PacingAt(n, preload, bd, j);
    PacingAt(n, preload, bd, k);
    CounterStays(preload, bd, j, k);
  }

  lemma {:induction false} CounterStays(preload: real, bd: real, j: nat, k: nat)
    requires j <= k && Counter(j, preload, bd) >= preload
    ensures Counter(k, preload, bd) == Counter(j, preload, bd)
  {
    if j < k {
      CounterStays(preload, bd, j, k - 1);
    }
  }

  /** What the session does, in order: push a block, or sleep for some seconds. */
  datatype Event = Push(block: Block) | Sleep(seconds: real)

  /**
   * The events of a session that pushes `blocks`, sleeping `pause` seconds
   * after the pushes `sleeps` marks (see `SessionPushes` and `SessionShape`).
   */
  function Session(blocks: seq<Block>, sleeps: seq<bool>, pause: real): (e: seq<Event>)
    requires |sleeps| == |blocks|
  {
    if blocks == [] then []
    else
      var n := |blocks| - 1;
      Session(blocks[..n], sleeps[..n], pause) + Step(blocks[n], sleeps[n], pause)
  }

  /** One round of the session: push the block, then sleep if the round is paced. */
  function Step(block: Block, sleep: bool, pause: real): seq<Event> {
    if sleep then [Push(block), Sleep(pause)] else [Push(block)]
  }

  /** The blocks that reach the input stream, in the order pushed. */
  function Pushed(events: seq<Event>): seq<Block> {
    if events == [] then []
    else
      var n := |events| - 1;
      Pushed(events[..n]) + (if events[n].Push? then [events[n].block] else [])
  }

  lemma PushedSnoc(events: seq<Event>, e: Event)
    ensures Pushed(events + [e]) == Pushed(events) + (if e.Push? then [e.block] else [])
  {
    assert (events + [e])[..|events|] == events;
  }

  /** One more block (and perhaps a sleep) at the end of a session. */
  lemma SessionSnoc(blocks: seq<Block>, sleeps: seq<bool>, pause: real, b: Block, sleep: bool)
    requires |sleeps| == |blocks|
    ensures Session(blocks + [b], sleeps + [sleep], pause) == Session(blocks, sleeps, pause) + Step(b, sleep, pause)
  {
    assert (blocks + [b])[..|blocks|] == blocks;
    assert (sleeps + [sleep])[..|sleeps|] == sleeps;
  }

  /** Pushing block `i` extends the session by one paced or unpaced round. */
  lemma SessionGrows(blocks: seq<Block>, i: nat, preload: real, bd: real)
    requires i < |blocks|
    ensures Session(blocks[..i + 1], Pacing(i + 1, preload, bd), bd * 0.95) ==
            Session(blocks[..i], Pacing(i, preload, bd), bd * 0.95) + Step(blocks[i], !(Counter(i, preload, bd) < preload), bd * 0.95)
  {
    PacingStep(i, preload, bd);
    assert blocks[..i + 1] == blocks[..i] + [blocks[i]];
    SessionSnoc(blocks[..i], Pacing(i, preload, bd), bd * 0.95, blocks[i], !(Counter(i, preload, bd) < preload));
  }

  /** A session pushes exactly its blocks, in order, and nothing else; sleeps push nothing. */
  lemma {:induction false} SessionPushes(blocks: seq<Block>, sleeps: seq<bool>, pause: real)
    requires |sleeps| == |blocks|
    ensures Pushed(Session(blocks, sleeps, pause)) == blocks
    decreases |blocks|
  {
    if blocks != [] {
      var n := |blocks| - 1;
      var before := Session(blocks[..n], sleeps[..n], pause);
      SessionPushes(blocks[..n], sleeps[..n], pause);
      assert blocks[..n] + [blocks[n]] == blocks;
      PushedSnoc(before, Push(blocks[n]));
      if sleeps[n] {
        assert Session(blocks, sleeps, pause) == before + [Push(blocks[n])] + [Sleep(pause)];
        PushedSnoc(before + [Push(blocks[n])], Sleep(pause));
      } else {
        assert Session(blocks, sleeps, pause) == before + [Push(blocks[n])];
      }
    }
  }

  /**
   * A session opens with a push, every sleep in it lasts `pause`, and a sleep
   * is always followed by a push, never by another sleep.
   */
  lemma {:induction false} SessionShape(blocks: seq<Block>, sleeps: seq<bool>, pause: real)
    requires |sleeps| == |blocks|
    ensures blocks != [] ==> Session(blocks, sleeps, pause)[0].Push?
    ensures var e := Session(blocks, sleeps, pause);
            forall i :: 0 <= i < |e| && e[i].Sleep? ==> e[i].seconds == pause
    ensures var e := Session(blocks, sleeps, pause);
            forall i :: 0 <= i < |e| - 1 && e[i].Sleep? ==> e[i + 1].Push?
  {
    if blocks != [] {
      var n := |blocks| - 1;
      var init := Session(blocks[..n], sleeps[..n], pause);
      var step := Step(blocks[n], sleeps[n], pause);
      SessionShape(blocks[..n], sleeps[..n], pause);
      var e := Session(blocks, sleeps, pause);
      assert e == init + step;
      if init == [] {
        assert e == step;
      } else {
        assert e[0] == init[0];
      }
      forall i | 0 <= i < |e| && e[i].Sleep?
        ensures e[i].seconds == pause
      {
        if i < |init| { assert e[i] == init[i]; } else { assert e[i] == step[i - |init|]; }
      }
      forall i | 0 <= i < |e| - 1 && e[i].Sleep?
        ensures e[i + 1].Push?
      {
        if i + 1 < |init| {
          assert e[i] == init[i] && e[i + 1] == init[i + 1];
        } else if i + 1 == |init| {
          assert e[i + 1] == step[0];
        } else {
          assert false;
        }
      }
    }
  }

  /**
   * The events `play` produces for `src`, or the error it raises: the
   * normalised blocks, repeated, each pushed and paced.
   */
  function PlayEvents(src: Source, repeat: int, preload: real, sr: nat, bd: real, bs: nat, width: nat,
                      decodeFile: string -> Stream): (r: Result<seq<Event>>)
    requires src.SampleArray? || src.RawBytes? ==> bs > 0 && width > 0
    ensures r.Err? <==> src.NotIterable? || repeat < 0
    ensures r.Err? ==> r.error == if src.NotIterable? then UnableToOpen else NegativeRepeat
  {
    match Normalize(src, sr, bs, width, decodeFile)
    case Err(e) => Err(e)
    case Ok(stream) =>
      match RepeatGen(stream.blocks, repeat)
      case Err(e) => Err(e)
      case Ok(blocks) => Ok(Session(blocks, Pacing(|blocks|, preload, bd), bd * 0.95))
  }

  /** The outcome of `play`. */
  datatype Outcome = Done | Failed(error: Error)

  /** The speaker as `play` drives it: the stream parameters and what went to the input stream. */
  class Speaker {
    var streamRate: nat        // `_t_sr`
    var streamType: string     // `_t_dt`
    var streamBlockSize: nat   // `_t_bs`
    var output: seq<Event>     // the pushes to `_input_stream` and the pacing sleeps, in order

    constructor ()
      ensures output == []
    {
      streamRate, streamType, streamBlockSize := 0, "", 0;
      output := [];
    }

    /**
     * `play(src, repeat, preload, sample_rate=sr, dtype=dt, block_duration=bd)`
     * with blocks of `bs` samples of `width` bytes: normalise the source
     * (raising a TypeError before anything changes for a source that is not
     * iterable), record the stream parameters, then push every block of the
     * repeated stream, each followed by a sleep of `0.95 * bd` once the
     * preload counter has reached `preload`.
     */
    method Play(src: Source, repeat: int, preload: real, sr: nat, dt: string, bd: real, bs: nat, width: nat,
                decodeFile: string -> Stream) returns (r: Outcome)
      requires src.SampleArray? || src.RawBytes? ==> bs > 0 && width > 0
      modifies this
      ensures var events := PlayEvents(src, repeat, preload, sr, bd, bs, width, decodeFile);
              && (events.Err? ==> r == Failed(events.error) && output == old(output))
              && (events.Ok? ==> r == Done && output == old(output) + events.value)
      ensures src.NotIterable? ==> unchanged(this)
      ensures !src.NotIterable? ==>
                var stream := Normalize(src, sr, bs, width, decodeFile).value;
                streamRate == stream.sampleRate && streamType == dt && streamBlockSize == stream.blockSize
    {
      var stream: Stream;
      match src {
        case FileLike(locator) =>
          stream := decodeFile(locator);
        case SampleArray(pcm) =>
          var blocks := RawGen(pcm, bs, width);
          stream := Stream(sr, bs, blocks);
        case RawBytes(data) =>
          var blocks := RawGen(data, bs, width);
          stream := Stream(sr, bs, blocks);
        case BlockIterable(blocks) =>
          stream := Stream(sr, bs, blocks);
        case NotIterable =>
          return Failed(UnableToOpen);
      }
      streamRate, streamType, streamBlockSize := stream.sampleRate, dt, stream.blockSize;
      var repeated := RepeatGen(stream.blocks, repeat);
      if repeated.Err? {
        return Failed(repeated.error);
      }
      PushPaced(repeated.value, preload, bd);
      return Done;
    }

    /**
     * The body of `play`'s `async with self:` block: push each block to the
     * input stream and, once the preload counter has reached `preload`,
     * sleep for `0.95 * bd` after the push; before that, add `bd` to the
     * counter instead.
     */
    method PushPaced(blocks: seq<Block>, preload: real, bd: real)
      modifies this`output
      ensures output == old(output) + Session(blocks, Pacing(|blocks|, preload, bd), bd * 0.95)
    {
      var count := 0.0;
      var i := 0;
      ghost var start := output;
      while i < |blocks|
        invariant 0 <= i <= |blocks|
        invariant count == Counter(i, preload, bd)
        invariant output == start + Session(blocks[..i], Pacing(i, preload, bd), bd * 0.95)
      {
        ghost var done := Session(blocks[..i], Pacing(i, preload, bd), bd * 0.95);
        ghost var next := Session(blocks[..i + 1], Pacing(i + 1, preload, bd), bd * 0.95);
        SessionGrows(blocks, i, preload, bd);
        PacingStep(i, preload, bd);
        output := output + [Push(blocks[i])];
        if count < preload {
          count := count + bd;
          assert next == done + [Push(blocks[i])];
        } else {
          output := output + [Sleep(bd * 0.95)];
          assert next == done + [Push(blocks[i])] + [Sleep(bd * 0.95)];
        }
        assert output == start + next;
        i := i + 1;
      }
      assert blocks[..i] == blocks;
    }
  }

  /** `play` pushes exactly the repeated blocks of the normalised source, in order. */
  lemma PlayPushes(src: Source, repeat: int, preload: real, sr: nat, bd: real, bs: nat, width: nat,
                   decodeFile: string -> Stream)
    requires src.SampleArray? || src.RawBytes? ==> bs > 0 && width > 0
    requires PlayEvents(src, repeat, preload, sr, bd, bs, width, decodeFile).Ok?
    ensures Pushed(PlayEvents(src, repeat, preload, sr, bd, bs, width, decodeFile).value) ==
            RepeatGen(Normalize(src, sr, bs, width, decodeFile).value.blocks, repeat).value
  {
    var blocks := RepeatGen(Normalize(src, sr, bs, width, decodeFile).value.blocks, repeat).value;
    SessionPushes(blocks, Pacing(|blocks|, preload, bd), bd * 0.95);
  }

  /**
   * For a byte buffer, `play` pushes the chunked buffer `repeat` times over;
   * the chunks' bytes are the buffer followed by its padding.
   */
  lemma PlayBytesPushes(data: seq<Byte>, repeat: nat, preload: real, sr: nat, bd: real, bs: nat, width: nat,
                        decodeFile: string -> Stream)
    requires bs > 0 && width > 0
    ensures PlayEvents(RawBytes(data), repeat, preload, sr, bd, bs, width, decodeFile).Ok?
    ensures Pushed(PlayEvents(RawBytes(data), repeat, preload, sr, bd, bs, width, decodeFile).value) ==
            RepeatGen(Chunks(data, bs * width), repeat).value
    ensures Flatten(Chunks(data, bs * width)) == data + Zeros(Padding(data, bs * width))
  {
    var blocks := Chunks(data, bs * width);
    assert Normalize(RawBytes(data), sr, bs, width, decodeFile) == Ok(Stream(sr, bs, blocks));
    PlayPushes(RawBytes(data), repeat, preload, sr, bd, bs, width, decodeFile);
    ChunksConcat(data, bs * width);
  }
}
