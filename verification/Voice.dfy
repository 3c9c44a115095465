/** The microphone callback, the playback queue and the decoder of one voice peer
    (src/audio.rs). */
module Voice {
  import opened Base
  import opened Audio

  // ---------------------------------------------------------------- microphone

  /** `phase` is in units of 1/rate; `sent` are the frames offered to the encoder. */
  datatype MicState = MicState(phase: nat, frame: seq<Sample>, sent: seq<seq<Sample>>)

  /** A callback that is not muted frames the old rest and the resampled input; a
      muted one forgets the rest and keeps the phase. */
  function Hear(rate: nat, s: MicState, data: seq<Sample>, muted: bool): MicState
    requires rate > 0
  {
    if muted then s.(frame := [])
    else
      var all := s.frame + Resample(OPUS_RATE, rate, s.phase, data);
      MicState(PhaseAfter(OPUS_RATE, rate, s.phase, |data|), Rest(all), s.sent + Frames(all))
  }

  class Microphone {
    const rate: nat
    var phase: nat
    var frame: seq<Sample>
    var sent: seq<seq<Sample>>

    ghost predicate Valid()
      reads this
    {
      rate > 0 && phase < rate && |frame| < FRAME_SAMPLES && Whole(sent)
    }

    ghost function State(): MicState
      reads this
    {
      MicState(phase, frame, sent)
    }

    constructor (rate: nat)
      requires rate > 0
      ensures Valid() && this.rate == rate && State() == MicState(0, [], [])
    {
      this.rate := rate;
      phase, frame, sent := 0, [], [];
    }

    /** One input sample, after those of `heard`. */
    method Push(sample: Sample, ghost heard: seq<Sample>, ghost before: seq<seq<Sample>>)
      requires Valid() && sent == before + Frames(heard) && frame == Rest(heard)
      modifies this
      ensures Valid()
      ensures var more := heard + Repeat(sample, Due(OPUS_RATE, rate, old(phase)));
              sent == before + Frames(more) && frame == Rest(more)
      ensures phase == Next(OPUS_RATE, rate, old(phase))
    {
      ghost var d := 0;
      assert heard + Repeat(sample, 0) == heard;
      phase := phase + OPUS_RATE;
      while phase >= rate
        invariant phase + d * rate == old(phase) + OPUS_RATE
        invariant |frame| < FRAME_SAMPLES && Whole(sent)
        invariant sent == before + Frames(heard + Repeat(sample, d))
        invariant frame == Rest(heard + Repeat(sample, d))
      {
        FramesPush(heard + Repeat(sample, d), sample);
        RepeatMore(heard, sample, d);
        Distribute(d, 1, rate);
        frame := frame + [sample];
        phase := phase - rate;
        d := d + 1;
        if |frame| == FRAME_SAMPLES {
          sent := sent + [frame];
          frame := [];
        }
      }
      Quotient(old(phase) + OPUS_RATE, rate, d, phase);
    }

    method Callback(data: seq<Sample>, muted: bool)
      requires Valid()
      modifies this
      ensures Valid() && State() == Hear(rate, old(State()), data, muted)
    {
      if muted {
        frame := [];
        return;
      }
      ghost var heard := frame;
      FramesShort(frame);
      PhaseStart(OPUS_RATE, rate, phase);
      for i := 0 to |data|
        invariant Valid()
        invariant heard == old(frame) + Resample(OPUS_RATE, rate, old(phase), data[..i])
        invariant sent == old(sent) + Frames(heard) && frame == Rest(heard)
        invariant phase == PhaseAfter(OPUS_RATE, rate, old(phase), i)
      {
        ResampleOneMore(OPUS_RATE, rate, old(phase), data, i);
        Join(old(frame), Resample(OPUS_RATE, rate, old(phase), data[..i]),
          Repeat(data[i], Due(OPUS_RATE, rate, phase)));
        ghost var due := Due(OPUS_RATE, rate, phase);
        Push(data[i], heard, old(sent));
        heard := heard + Repeat(data[i], due);
      }
      assert data[..|data|] == data;
    }
  }

  lemma RepeatMore(heard: seq<Sample>, x: Sample, d: nat)
    ensures heard + Repeat(x, d) + [x] == heard + Repeat(x, d + 1)
  {
  }

  lemma FramesShort(xs: seq<Sample>)
    requires |xs| < FRAME_SAMPLES
    ensures Frames(xs) == [] && Rest(xs) == xs
  {
  }

  lemma ResampleOneMore(step: nat, unit: nat, phase: nat, data: seq<Sample>, i: nat)
    requires phase < unit && i < |data|
    ensures Resample(step, unit, phase, data[..i + 1]) ==
            Resample(step, unit, phase, data[..i]) + Repeat(data[i], Due(step, unit, PhaseAfter(step, unit, phase, i)))
    ensures PhaseAfter(step, unit, phase, i + 1) == Next(step, unit, PhaseAfter(step, unit, phase, i))
  {
    assert data[..i + 1] == data[..i] + [data[i]];
    ResampleSplits(step, unit, phase, data[..i], [data[i]]);
    PhasesAdd(step, unit, phase, i, 1);
    hide PhaseAfter, Next;
    OneSample(step, unit, PhaseAfter(step, unit, phase, i), data[i]);
  }

  lemma OneSample(step: nat, unit: nat, phase: nat, x: Sample)
    requires unit > 0
    ensures Resample(step, unit, phase, [x]) == Repeat(x, Due(step, unit, phase))
    ensures PhaseAfter(step, unit, phase, 1) == Next(step, unit, phase)
  {
    var one := [x];
    assert one[1..] == [];
    assert Repeat(x, Due(step, unit, phase)) + [] == Repeat(x, Due(step, unit, phase));
  }

  /** While not muted, two callbacks do what one callback with all their input does. */
  lemma CallbacksJoin(rate: nat, s: MicState, xs: seq<Sample>, ys: seq<Sample>)
    requires s.phase < rate
    ensures Hear(rate, Hear(rate, s, xs, false), ys, false) == Hear(rate, s, xs + ys, false)
  {
    var p := PhaseAfter(OPUS_RATE, rate, s.phase, |xs|);
    var a, b := Resample(OPUS_RATE, rate, s.phase, xs), Resample(OPUS_RATE, rate, p, ys);
    ResampleSplits(OPUS_RATE, rate, s.phase, xs, ys);
    PhasesAdd(OPUS_RATE, rate, s.phase, |xs|, |ys|);
    hide PhaseAfter, Resample, Frames, Rest;
    Join(s.frame, a, b);
    FramesContinue(s.frame + a, b);
    Join(s.sent, Frames(s.frame + a), Frames(Rest(s.frame + a) + b));
  }

  function HearAll(rate: nat, s: MicState, callbacks: seq<seq<Sample>>): MicState
    requires rate > 0
    decreases |callbacks|
  {
    if callbacks == [] then s else HearAll(rate, Hear(rate, s, callbacks[0], false), callbacks[1..])
  }

  lemma NothingHeard(rate: nat, s: MicState)
    requires s.phase < rate && |s.frame| < FRAME_SAMPLES
    ensures Hear(rate, s, [], false) == s
  {
    PhaseStart(OPUS_RATE, rate, s.phase);
    assert s.frame + [] == s.frame && s.sent + [] == s.sent;
    FramesShort(s.frame);
  }

  /** However the input is split into callbacks, the frames, the rest and the phase
      are those of one callback with the whole stream. */
  lemma {:induction false} SplitDoesNotMatter(rate: nat, s: MicState, callbacks: seq<seq<Sample>>)
    requires s.phase < rate && |s.frame| < FRAME_SAMPLES
    ensures HearAll(rate, s, callbacks) == Hear(rate, s, Flatten(callbacks), false)
    decreases |callbacks|
  {
    hide Hear;
    if callbacks == [] {
      NothingHeard(rate, s);
    } else {
      var next := Hear(rate, s, callbacks[0], false);
      HeardFits(rate, s, callbacks[0]);
      SplitDoesNotMatter(rate, next, callbacks[1..]);
      CallbacksJoin(rate, s, callbacks[0], Flatten(callbacks[1..]));
    }
  }

  lemma HeardFits(rate: nat, s: MicState, data: seq<Sample>)
    requires rate > 0
    ensures Hear(rate, s, data, false).phase < rate && |Hear(rate, s, data, false).frame| < FRAME_SAMPLES
  {
    FramesKeepAll(s.frame + Resample(OPUS_RATE, rate, s.phase, data));
  }

  /** From a fresh microphone: frames of exactly 960 and a shorter rest make up the
      resampled stream, floor(k * 48000 / rate) samples for k inputs. */
  lemma MicrophoneExactly(rate: nat, callbacks: seq<seq<Sample>>)
    requires rate > 0
    ensures var s := HearAll(rate, MicState(0, [], []), callbacks);
            var stream := Flatten(callbacks);
            && Flatten(s.sent) + s.frame == Resample(OPUS_RATE, rate, 0, stream)
            && Whole(s.sent) && |s.frame| < FRAME_SAMPLES
            && FRAME_SAMPLES * |s.sent| + |s.frame| == |stream| * OPUS_RATE / rate
  {
    var stream := Flatten(callbacks);
    var out := Resample(OPUS_RATE, rate, 0, stream);
    SplitDoesNotMatter(rate, MicState(0, [], []), callbacks);
    FramesKeepAll(out);
    ResampleCounts(OPUS_RATE, rate, 0, stream);
    hide Resample, Frames, Rest, PhaseAfter, Flatten;
    assert [] + out == out && [] + Frames(out) == Frames(out);
  }

  // ---------------------------------------------------------------- playback

  function Clamp(x: Sample): Sample {
    if x < -1.0 then -1.0 else if x > 1.0 then 1.0 else x
  }

  function Distance(x: Sample, y: Sample): Sample {
    if x <= y then y - x else x - y
  }

  /** Of the samples from -1 to 1 it is the nearest. */
  lemma ClampedIsNearest(x: Sample, y: Sample)
    requires -1.0 <= y <= 1.0
    ensures -1.0 <= Clamp(x) <= 1.0 && Distance(x, Clamp(x)) <= Distance(x, y)
  {
  }

  function Clamped(xs: seq<Sample>): seq<Sample> {
    seq(|xs|, i requires 0 <= i < |xs| => Clamp(xs[i]))
  }

  function Cut(xs: seq<Sample>, n: nat): seq<Sample> {
    xs[..Min(|xs|, n)]
  }

  /** The queue between the mixer and the speaker; a push into a full queue is lost. */
  class Playback {
    const capacity: nat
    var buffer: seq<Sample>

    constructor (capacity: nat)
      ensures this.capacity == capacity && buffer == []
    {
      this.capacity := capacity;
      buffer := [];
    }

    method TryPush(sample: Sample)
      modifies this
      ensures buffer == if |old(buffer)| < capacity then old(buffer) + [sample] else old(buffer)
    {
      if |buffer| < capacity {
        buffer := buffer + [sample];
      }
    }

    method PushSample(sample: Sample, phase: nat, outputRate: nat, ghost out: seq<Sample>, ghost before: seq<Sample>)
      returns (next: nat)
      requires |before| <= capacity && buffer == Cut(before + out, capacity)
      modifies this
      ensures next == Next(outputRate, OPUS_RATE, phase)
      ensures buffer == Cut(before + (out + Repeat(Clamp(sample), Due(outputRate, OPUS_RATE, phase))), capacity)
    {
      ghost var d := 0;
      assert before + (out + Repeat(Clamp(sample), 0)) == before + out;
      next := phase + outputRate;
      while next >= OPUS_RATE
        invariant next + d * OPUS_RATE == phase + outputRate
        invariant buffer == Cut(before + (out + Repeat(Clamp(sample), d)), capacity)
      {
        CutMore(before + (out + Repeat(Clamp(sample), d)), Clamp(sample), capacity);
        assert before + (out + Repeat(Clamp(sample), d)) + [Clamp(sample)] ==
                 before + (out + Repeat(Clamp(sample), d + 1));
        TryPush(Clamp(sample));
        next := next - OPUS_RATE;
        d := d + 1;
      }
      Quotient(phase + outputRate, OPUS_RATE, d, next);
    }

    /** A mixed frame is resampled from phase zero; what does not fit is lost. */
    method PushResampled(input: seq<Sample>, outputRate: nat)
      requires |buffer| <= capacity
      modifies this
      ensures buffer == Cut(old(buffer) + Resample(outputRate, OPUS_RATE, 0, Clamped(input)), capacity)
    {
      var phase := 0;
      assert old(buffer) + [] == old(buffer);
      assert Clamped(input)[..0] == [];
      PhaseStart(outputRate, OPUS_RATE, 0);
      for i := 0 to |input|
        invariant phase == PhaseAfter(outputRate, OPUS_RATE, 0, i)
        invariant buffer == Cut(old(buffer) + Resample(outputRate, OPUS_RATE, 0, Clamped(input)[..i]), capacity)
      {
        ResampleOneMore(outputRate, OPUS_RATE, 0, Clamped(input), i);
        phase := PushSample(input[i], phase, outputRate, Resample(outputRate, OPUS_RATE, 0, Clamped(input)[..i]),
          old(buffer));
      }
      assert Clamped(input)[..|input|] == Clamped(input);
    }
  }

  /** What is in the queue after a push: what was there, then for each sample due the
      nearest sample from -1 to 1 of the input that it falls on, as far as there is room. */
  lemma QueuedAt(capacity: nat, before: seq<Sample>, input: seq<Sample>, outputRate: nat, k: nat)
    requires |before| <= capacity && outputRate > 0
    ensures var queue := Cut(before + Resample(outputRate, OPUS_RATE, 0, Clamped(input)), capacity);
            && |queue| == Min(|before| + |input| * outputRate / 48000, capacity)
            && (k < |before| ==> queue[k] == before[k])
            && (|before| <= k < |queue| ==>
                  var i := ((k - |before| + 1) * 48000 - 1) / outputRate;
                  0 <= i < |input| && queue[k] == Clamp(input[i]))
  {
    hide Resample;
    var out := Resample(outputRate, OPUS_RATE, 0, Clamped(input));
    ResampleCounts(outputRate, OPUS_RATE, 0, Clamped(input));
    if |before| <= k < |before| + |out| {
      ResampleAt(outputRate, OPUS_RATE, 0, Clamped(input), k - |before|);
    }
  }

  lemma CutMore(xs: seq<Sample>, x: Sample, n: nat)
    ensures Cut(xs + [x], n) == if |Cut(xs, n)| < n then Cut(xs, n) + [x] else Cut(xs, n)
  {
  }

  /** A frame of 960 samples becomes floor(rate / 50) samples. */
  lemma PlaybackFrameLength(outputRate: nat, frame: seq<Sample>)
    requires |frame| == FRAME_SAMPLES
    ensures |Resample(outputRate, OPUS_RATE, 0, frame)| == outputRate / 50
  {
    ResampleCounts(outputRate, OPUS_RATE, 0, frame);
  }

  /** The phase is not carried from frame to frame, so k frames fall short of the
      resampling of their whole stream, except exactly when k * (rate % 50) < 50. */
  lemma PlaybackKeepsPaceExactly(outputRate: nat, frames: seq<seq<Sample>>, stream: seq<Sample>)
    requires Whole(frames) && stream == Flatten(frames)
    ensures |frames| * (outputRate / 50) <= |Resample(outputRate, OPUS_RATE, 0, stream)|
    ensures |frames| * (outputRate / 50) == |Resample(outputRate, OPUS_RATE, 0, stream)| <==>
            |frames| * (outputRate % 50) < 50
  {
    WholeLength(frames);
    ResampleCounts(outputRate, OPUS_RATE, 0, stream);
    Scale(|frames|, outputRate);
    PaceExactly(|frames|, outputRate);
  }

  /** At a real rate: two frames played at 11025 samples a second come out one
      sample short of their stream. */
  lemma PlaybackLagsAt11025(first: seq<Sample>, second: seq<Sample>)
    requires |first| == FRAME_SAMPLES && |second| == FRAME_SAMPLES
    ensures |Resample(11025, OPUS_RATE, 0, first)| + |Resample(11025, OPUS_RATE, 0, second)| == 440
    ensures |Resample(11025, OPUS_RATE, 0, first + second)| == 441
  {
    PlaybackFrameLength(11025, first);
    PlaybackFrameLength(11025, second);
    ResampleCounts(11025, OPUS_RATE, 0, first + second);
  }

  lemma Scale(k: nat, n: nat)
    ensures ((960 * k) * n) / 48000 == (k * n) / 50
  {
    assert (960 * k) * n == 960 * (k * n);
  }

  lemma PaceExactly(k: nat, n: nat)
    ensures k * (n / 50) <= (k * n) / 50
    ensures k * (n / 50) == (k * n) / 50 <==> k * (n % 50) < 50
  {
    Pace(k, n, n / 50, n % 50);
  }

  lemma Pace(k: nat, n: nat, q: nat, r: nat)
    requires n == 50 * q + r
    ensures k * n == (k * q) * 50 + k * r
  {
    assert k * n == k * (50 * q) + k * r;
    assert k * (50 * q) == (k * q) * 50;
  }

  lemma {:induction false} WholeLength(frames: seq<seq<Sample>>)
    requires Whole(frames)
    ensures |Flatten(frames)| == FRAME_SAMPLES * |frames|
  {
    if frames != [] {
      assert |frames[0]| == FRAME_SAMPLES;
      WholeLength(frames[1..]);
    }
  }

  // ---------------------------------------------------------------- sequence numbers

  /** u32 subtraction that wraps around. */
  function WrappingSub(x: U32, y: U32): U32 {
    (x - y) % U32_LIMIT
  }

  /** The wire form of a counter. */
  function Wrap(n: int): U32 {
    n % U32_LIMIT
  }

  predicate SequenceIsNewer(sequence: U32, previous: U32) {
    var difference := WrappingSub(sequence, previous);
    difference != 0 && difference < 0xffff_ffff / 2
  }

  const WINDOW: int := 0x7fff_ffff

  lemma WrappedDifference(s: int, p: int)
    ensures WrappingSub(Wrap(s), Wrap(p)) == Wrap(s - p)
  {
  }

  /** Between counters in this window, the comparison of their wire forms is the
      comparison of the counters. */
  lemma NewerExactly(s: int, p: int)
    requires -WINDOW - 2 <= s - p <= WINDOW - 1
    ensures SequenceIsNewer(Wrap(s), Wrap(p)) <==> s > p
  {
    WrappedDifference(s, p);
  }

  /** It fails just beyond both ends of the window. */
  lemma NewerWindowIsTight(p: int)
    ensures !SequenceIsNewer(Wrap(p + WINDOW), Wrap(p))
    ensures SequenceIsNewer(Wrap(p - WINDOW - 3), Wrap(p))
  {
    WrappedDifference(p + WINDOW, p);
    WrappedDifference(p - WINDOW - 3, p);
  }

  /** "Greater than" of section 3.2 of RFC 1982, with 32 serial bits. */
  predicate SerialGreater(x: U32, y: U32) {
    (x < y && y - x > 0x8000_0000) || (x > y && x - y < 0x8000_0000)
  }

  /** The two orders differ exactly at a distance of 2^31 - 1. */
  lemma DiffersFromSerialOrder(x: U32, y: U32)
    ensures SequenceIsNewer(x, y) != SerialGreater(x, y) <==> WrappingSub(x, y) == WINDOW
  {
  }

  // ---------------------------------------------------------------- decoder of one peer

  const MAX_QUEUED: nat := 10 * FRAME_SAMPLES

  datatype DecoderState = DecoderState(last: Option<U32>, queued: seq<Sample>)

  predicate Passes(last: Option<U32>, sequence: U32) {
    last.Some? ==> SequenceIsNewer(sequence, last.value)
  }

  function Newest(xs: seq<Sample>, n: nat): seq<Sample> {
    if |xs| <= n then xs else xs[|xs| - n..]
  }

  /** `pcm` is what the codec makes of the packet, nothing when it refuses it. */
  function Decode(s: DecoderState, sequence: U32, pcm: Option<seq<Sample>>): DecoderState {
    if Passes(s.last, sequence) && pcm.Some?
    then DecoderState(Some(sequence), Newest(s.queued + pcm.value, MAX_QUEUED))
    else s
  }

  class PeerDecoder {
    var last: Option<U32>
    var queued: seq<Sample>

    ghost function State(): DecoderState
      reads this
    {
      DecoderState(last, queued)
    }

    constructor ()
      ensures State() == DecoderState(None, [])
    {
      last, queued := None, [];
    }

    method Take(sequence: U32, pcm: Option<seq<Sample>>)
      modifies this
      ensures State() == Decode(old(State()), sequence, pcm)
    {
      if last.Some? && !SequenceIsNewer(sequence, last.value) {
        return;
      }
      if pcm.Some? {
        ghost var all := queued + pcm.value;
        queued := queued + pcm.value;
        ghost var k := 0;
        while |queued| > MAX_QUEUED
          invariant k <= |all| && queued == all[k..] && |queued| >= Min(|all|, MAX_QUEUED)
        {
          queued := queued[1..];
          k := k + 1;
        }
        last := Some(sequence);
      }
    }
  }

  /** A packet with its true counter. */
  datatype Arrival = Arrival(counter: int, pcm: Option<seq<Sample>>)

  /** The counters of the packets that a decoder accepts. */
  function AcceptedCounters(s: DecoderState, arrivals: seq<Arrival>): seq<int>
    decreases |arrivals|
  {
    if arrivals == [] then []
    else
      var a := arrivals[0];
      (if Passes(s.last, Wrap(a.counter)) && a.pcm.Some? then [a.counter] else [])
      + AcceptedCounters(Decode(s, Wrap(a.counter), a.pcm), arrivals[1..])
  }

  predicate Above(top: Option<int>, n: int) {
    top.Some? ==> n > top.value
  }

  /** The counters above everything before them, of packets that decode. */
  function RunningMaxima(top: Option<int>, arrivals: seq<Arrival>): seq<int>
    decreases |arrivals|
  {
    if arrivals == [] then []
    else
      var a := arrivals[0];
      if Above(top, a.counter) && a.pcm.Some? then [a.counter] + RunningMaxima(Some(a.counter), arrivals[1..])
      else RunningMaxima(top, arrivals[1..])
  }

  /** Each arrival is within the window of the last accepted counter. */
  predicate NeverFar(top: Option<int>, arrivals: seq<Arrival>)
    decreases |arrivals|
  {
    arrivals == [] ||
    var a := arrivals[0];
    && (top.Some? ==> -WINDOW - 2 <= a.counter - top.value <= WINDOW - 1)
    && NeverFar(if Above(top, a.counter) && a.pcm.Some? then Some(a.counter) else top, arrivals[1..])
  }

  /** Under loss, reordering and duplication, across any number of wraps, a decoder
      accepts exactly the packets whose true counter exceeds all it accepted. */
  lemma {:induction false} DecoderTakesRunningMaxima(s: DecoderState, top: Option<int>, arrivals: seq<Arrival>)
    requires s.last == match top case None => None case Some(n) => Some(Wrap(n))
    requires NeverFar(top, arrivals)
    ensures AcceptedCounters(s, arrivals) == RunningMaxima(top, arrivals)
    decreases |arrivals|
  {
    if arrivals != [] {
      var a := arrivals[0];
      if top.Some? {
        NewerExactly(a.counter, top.value);
      }
      var later := if Above(top, a.counter) && a.pcm.Some? then Some(a.counter) else top;
      DecoderTakesRunningMaxima(Decode(s, Wrap(a.counter), a.pcm), later, arrivals[1..]);
    }
  }

  predicate Ascending(xs: seq<int>) {
    forall i, j :: 0 <= i < j < |xs| ==> xs[i] < xs[j]
  }

  lemma {:induction false} RunningMaximaAscend(top: Option<int>, arrivals: seq<Arrival>)
    ensures Ascending(RunningMaxima(top, arrivals))
    ensures forall i :: 0 <= i < |RunningMaxima(top, arrivals)| ==> Above(top, RunningMaxima(top, arrivals)[i])
    decreases |arrivals|
  {
    if arrivals != [] {
      var a := arrivals[0];
      if Above(top, a.counter) && a.pcm.Some? {
        RunningMaximaAscend(Some(a.counter), arrivals[1..]);
      } else {
        RunningMaximaAscend(top, arrivals[1..]);
      }
    }
  }

  function DecodeAll(s: DecoderState, arrivals: seq<Arrival>): DecoderState
    decreases |arrivals|
  {
    if arrivals == [] then s
    else DecodeAll(Decode(s, Wrap(arrivals[0].counter), arrivals[0].pcm), arrivals[1..])
  }

  /** The samples of the packets that are above everything before them, in order. */
  function SamplesAbove(top: Option<int>, arrivals: seq<Arrival>): seq<Sample>
    decreases |arrivals|
  {
    if arrivals == [] then []
    else
      var a := arrivals[0];
      if Above(top, a.counter) && a.pcm.Some? then a.pcm.value + SamplesAbove(Some(a.counter), arrivals[1..])
      else SamplesAbove(top, arrivals[1..])
  }

  lemma NewestTwice(xs: seq<Sample>, ys: seq<Sample>, n: nat)
    ensures Newest(Newest(xs, n) + ys, n) == Newest(xs + ys, n)
  {
  }

  /** Then a decoder has queued the last 9,600 samples of these packets, in the order
      of their counters. */
  lemma {:induction false} DecoderQueuesRunningMaxima(s: DecoderState, top: Option<int>, arrivals: seq<Arrival>)
    requires s.last == match top case None => None case Some(n) => Some(Wrap(n))
    requires NeverFar(top, arrivals) && |s.queued| <= 9600
    ensures var all := s.queued + SamplesAbove(top, arrivals);
            DecodeAll(s, arrivals).queued == if |all| <= 9600 then all else all[|all| - 9600..]
    decreases |arrivals|
  {
    if arrivals == [] {
      assert s.queued + [] == s.queued;
    } else {
      var a := arrivals[0];
      if top.Some? {
        NewerExactly(a.counter, top.value);
      }
      var taken := Above(top, a.counter) && a.pcm.Some?;
      var later := if taken then Some(a.counter) else top;
      DecoderQueuesRunningMaxima(Decode(s, Wrap(a.counter), a.pcm), later, arrivals[1..]);
      if taken {
        var rest := SamplesAbove(later, arrivals[1..]);
        NewestTwice(s.queued + a.pcm.value, rest, 9600);
        Join(s.queued, a.pcm.value, rest);
      }
    }
  }
}
