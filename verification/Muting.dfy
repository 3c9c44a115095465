/** A microphone that is muted and unmuted while it runs (src/audio.rs, build_input):
    what it sends comes from the unmuted stretches only, each framed on its own. */
module Muting {
  import opened Audio
  import opened Voice

  datatype Callback = Callback(data: seq<Sample>, muted: bool)

  function HearRun(rate: nat, s: MicState, callbacks: seq<Callback>): MicState
    requires rate > 0
    decreases |callbacks|
  {
    if callbacks == [] then s
    else HearRun(rate, Hear(rate, s, callbacks[0].data, callbacks[0].muted), callbacks[1..])
  }

  /** The input between the muted callbacks, which cut the run into stretches; the first
      comes before the first of them, the last after the last. */
  function Stretches(callbacks: seq<Callback>): (stretches: seq<seq<Sample>>)
    ensures stretches != []
  {
    if callbacks == [] then [[]]
    else
      var rest := Stretches(callbacks[1..]);
      if callbacks[0].muted then [[]] + rest else [callbacks[0].data + rest[0]] + rest[1..]
  }

  /** The phase after a number of samples, counting the unmuted ones only. */
  function PhaseOf(rate: nat, phase: nat, stretches: seq<seq<Sample>>, i: nat): nat
    requires rate > 0 && i <= |stretches|
    decreases i
  {
    if i == 0 then phase
    else PhaseOf(rate, PhaseAfter(OPUS_RATE, rate, phase, |stretches[0]|), stretches[1..], i - 1)
  }

  /** Each stretch resampled from the phase that the one before left, and framed on its
      own; `rest` is what the first stretch goes on from. */
  function FramesOf(rate: nat, phase: nat, rest: seq<Sample>, stretches: seq<seq<Sample>>): seq<seq<Sample>>
    requires rate > 0
    decreases |stretches|
  {
    if stretches == [] then []
    else
      Frames(rest + Resample(OPUS_RATE, rate, phase, stretches[0])) +
      FramesOf(rate, PhaseAfter(OPUS_RATE, rate, phase, |stretches[0]|), [], stretches[1..])
  }

  /** What is left over of the last stretch. */
  function RestOf(rate: nat, phase: nat, rest: seq<Sample>, stretches: seq<seq<Sample>>): seq<Sample>
    requires rate > 0 && stretches != []
    decreases |stretches|
  {
    if |stretches| == 1 then Rest(rest + Resample(OPUS_RATE, rate, phase, stretches[0]))
    else RestOf(rate, PhaseAfter(OPUS_RATE, rate, phase, |stretches[0]|), [], stretches[1..])
  }

  /** Over a run of callbacks with their mute flags: the frames sent are those of the
      unmuted stretches, each on its own; what is left over is that of the last stretch;
      and the phase is the one that the unmuted samples leave. */
  lemma {:induction false} OnlyUnmutedIsSent(rate: nat, s: MicState, callbacks: seq<Callback>)
    requires s.phase < rate && |s.frame| < FRAME_SAMPLES
    ensures var later, stretches := HearRun(rate, s, callbacks), Stretches(callbacks);
            && later.sent == s.sent + FramesOf(rate, s.phase, s.frame, stretches)
            && later.frame == RestOf(rate, s.phase, s.frame, stretches)
            && later.phase == PhaseOf(rate, s.phase, stretches, |stretches|)
    decreases |callbacks|
  {
    var stretches := Stretches(callbacks);
    if callbacks == [] {
      OneStretch(rate, s.phase, s.frame, []);
      NothingHeard(rate, s);
    } else {
      var c, rest := callbacks[0], Stretches(callbacks[1..]);
      var next := Hear(rate, s, c.data, c.muted);
      if c.muted {
        OnlyUnmutedIsSent(rate, next, callbacks[1..]);
        EmptyStretch(rate, s.phase, s.frame, rest);
      } else {
        HeardFits(rate, s, c.data);
        OnlyUnmutedIsSent(rate, next, callbacks[1..]);
        StretchContinues(rate, s.phase, s.frame, c.data, rest);
        Join(s.sent, Frames(s.frame + Resample(OPUS_RATE, rate, s.phase, c.data)),
             FramesOf(rate, next.phase, next.frame, rest));
      }
    }
  }

  lemma OneStretch(rate: nat, phase: nat, frame: seq<Sample>, data: seq<Sample>)
    requires rate > 0
    ensures var out := frame + Resample(OPUS_RATE, rate, phase, data);
            FramesOf(rate, phase, frame, [data]) == Frames(out) && RestOf(rate, phase, frame, [data]) == Rest(out)
    ensures PhaseOf(rate, phase, [data], 1) == PhaseAfter(OPUS_RATE, rate, phase, |data|)
  {
    var one := [data];
    assert one[1..] == [];
    hide Frames, Resample, PhaseAfter;
    assert FramesOf(rate, PhaseAfter(OPUS_RATE, rate, phase, |data|), [], []) == [];
  }

  /** A muted callback ends a stretch: the rest is gone, the phase is kept. */
  lemma EmptyStretch(rate: nat, phase: nat, frame: seq<Sample>, rest: seq<seq<Sample>>)
    requires phase < rate && |frame| < FRAME_SAMPLES && rest != []
    ensures var all := [[]] + rest;
            && FramesOf(rate, phase, frame, all) == FramesOf(rate, phase, [], rest)
            && RestOf(rate, phase, frame, all) == RestOf(rate, phase, [], rest)
            && PhaseOf(rate, phase, all, |all|) == PhaseOf(rate, phase, rest, |rest|)
  {
    var all: seq<seq<Sample>> := [[]] + rest;
    assert all[1..] == rest && all[0] == [];
    PhaseStart(OPUS_RATE, rate, phase);
    FramesShort(frame);
    assert frame + [] == frame;
  }

  lemma FirstTwoParts(rate: nat, phase: nat, frame: seq<Sample>, xs: seq<Sample>, ys: seq<Sample>)
    requires phase < rate
    ensures var out := frame + Resample(OPUS_RATE, rate, phase, xs);
            var p := PhaseAfter(OPUS_RATE, rate, phase, |xs|);
            var more := Rest(out) + Resample(OPUS_RATE, rate, p, ys);
            var all := frame + Resample(OPUS_RATE, rate, phase, xs + ys);
            && Frames(all) == Frames(out) + Frames(more) && Rest(all) == Rest(more)
            && PhaseAfter(OPUS_RATE, rate, phase, |xs + ys|) == PhaseAfter(OPUS_RATE, rate, p, |ys|)
  {
    ResampleSplits(OPUS_RATE, rate, phase, xs, ys);
    PhasesAdd(OPUS_RATE, rate, phase, |xs|, |ys|);
    hide Frames, Resample, PhaseAfter, Rest;
    var p := PhaseAfter(OPUS_RATE, rate, phase, |xs|);
    var x, y := Resample(OPUS_RATE, rate, phase, xs), Resample(OPUS_RATE, rate, p, ys);
    Join(frame, x, y);
    FramesContinue(frame + x, y);
  }

  /** An unmuted callback lengthens the stretch it begins. */
  lemma StretchContinues(rate: nat, phase: nat, frame: seq<Sample>, data: seq<Sample>, rest: seq<seq<Sample>>)
    requires phase < rate && rest != []
    ensures var all := [data + rest[0]] + rest[1..];
            var out := frame + Resample(OPUS_RATE, rate, phase, data);
            var p := PhaseAfter(OPUS_RATE, rate, phase, |data|);
            && FramesOf(rate, phase, frame, all) == Frames(out) + FramesOf(rate, p, Rest(out), rest)
            && RestOf(rate, phase, frame, all) == RestOf(rate, p, Rest(out), rest)
            && PhaseOf(rate, phase, all, |all|) == PhaseOf(rate, p, rest, |rest|)
  {
    hide Frames, Resample, PhaseAfter, Rest;
    var all := [data + rest[0]] + rest[1..];
    var out := frame + Resample(OPUS_RATE, rate, phase, data);
    var p := PhaseAfter(OPUS_RATE, rate, phase, |data|);
    var more := Rest(out) + Resample(OPUS_RATE, rate, p, rest[0]);
    assert all[1..] == rest[1..] && all[0] == data + rest[0];
    FirstTwoParts(rate, phase, frame, data, rest[0]);
    Join(Frames(out), Frames(more), FramesOf(rate, PhaseAfter(OPUS_RATE, rate, p, |rest[0]|), [], rest[1..]));
  }

  // ---------------------------------------------------------------- where a frame comes from

  lemma {:induction false} InOneFrame(xs: seq<Sample>, frame: seq<Sample>, x: Sample)
    requires frame in Frames(xs) && x in frame
    ensures x in xs
    decreases |xs|
  {
    if frame != xs[..FRAME_SAMPLES] {
      InOneFrame(xs[FRAME_SAMPLES..], frame, x);
    }
  }

  lemma {:induction false} InInput(step: nat, unit: nat, phase: nat, xs: seq<Sample>, x: Sample)
    requires unit > 0 && x in Resample(step, unit, phase, xs)
    ensures x in xs
    decreases |xs|
  {
    if x !in Repeat(xs[0], Due(step, unit, phase)) {
      InInput(step, unit, Next(step, unit, phase), xs[1..], x);
    }
  }

  lemma {:induction false} FrameOfStretch(rate: nat, phase: nat, stretches: seq<seq<Sample>>, frame: seq<Sample>)
    returns (i: nat)
    requires rate > 0 && frame in FramesOf(rate, phase, [], stretches)
    ensures i < |stretches|
    ensures frame in Frames(Resample(OPUS_RATE, rate, PhaseOf(rate, phase, stretches, i), stretches[i]))
    decreases |stretches|
  {
    hide Frames, Resample, PhaseAfter;
    var out := Resample(OPUS_RATE, rate, phase, stretches[0]);
    assert [] + out == out;
    if frame in Frames(out) {
      i := 0;
    } else {
      var j := FrameOfStretch(rate, PhaseAfter(OPUS_RATE, rate, phase, |stretches[0]|), stretches[1..], frame);
      i := j + 1;
    }
  }

  /** Every frame that a fresh microphone sends is a frame of one unmuted stretch: it
      holds no sample heard while muted, and joins none from both sides of a mute. */
  lemma SentFromOneStretch(rate: nat, callbacks: seq<Callback>, frame: seq<Sample>) returns (i: nat)
    requires rate > 0 && frame in HearRun(rate, MicState(0, [], []), callbacks).sent
    ensures var stretches := Stretches(callbacks);
            && i < |stretches| && |frame| == FRAME_SAMPLES
            && frame in Frames(Resample(OPUS_RATE, rate, PhaseOf(rate, 0, stretches, i), stretches[i]))
            && forall x :: x in frame ==> x in stretches[i]
  {
    var stretches := Stretches(callbacks);
    hide Frames, Resample, PhaseOf, Stretches, FramesOf, HearRun;
    OnlyUnmutedIsSent(rate, MicState(0, [], []), callbacks);
    assert [] + FramesOf(rate, 0, [], stretches) == FramesOf(rate, 0, [], stretches);
    i := FrameOfStretch(rate, 0, stretches, frame);
    var p := PhaseOf(rate, 0, stretches, i);
    FramesKeepAll(Resample(OPUS_RATE, rate, p, stretches[i]));
    forall x | x in frame
      ensures x in stretches[i]
    {
      InOneFrame(Resample(OPUS_RATE, rate, p, stretches[i]), frame, x);
      InInput(OPUS_RATE, rate, p, stretches[i], x);
    }
  }

  /** What is heard while muted makes no difference. */
  lemma {:induction false} MutedInputIsIgnored(rate: nat, s: MicState, callbacks: seq<Callback>, others: seq<Callback>)
    requires rate > 0 && |callbacks| == |others|
    requires forall i :: 0 <= i < |callbacks| ==>
               callbacks[i].muted == others[i].muted && (callbacks[i].muted || callbacks[i] == others[i])
    ensures HearRun(rate, s, callbacks) == HearRun(rate, s, others)
    decreases |callbacks|
  {
    if callbacks != [] {
      MutedInputIsIgnored(rate, Hear(rate, s, callbacks[0].data, callbacks[0].muted), callbacks[1..], others[1..]);
    }
  }

  /** A muted callback sends nothing, leaves no rest and keeps the phase, after whatever
      came before. */
  lemma {:induction false} MutedCallbackIsSilent(rate: nat, s: MicState, callbacks: seq<Callback>, data: seq<Sample>)
    requires rate > 0
    ensures var before := HearRun(rate, s, callbacks);
            HearRun(rate, s, callbacks + [Callback(data, true)]) == MicState(before.phase, [], before.sent)
    decreases |callbacks|
  {
    var all := callbacks + [Callback(data, true)];
    if callbacks == [] {
      assert all[0] == Callback(data, true) && all[1..] == [];
    } else {
      assert all[0] == callbacks[0] && all[1..] == callbacks[1..] + [Callback(data, true)];
      MutedCallbackIsSilent(rate, Hear(rate, s, callbacks[0].data, callbacks[0].muted), callbacks[1..], data);
    }
  }
}
