/** The arithmetic of the voice path (src/audio.rs): resampling with an exact phase,
    framing across callbacks, and the filter on wrapping sequence numbers. */
module Audio {
  import opened Base

  const FRAME_SAMPLES: nat := 960
  const OPUS_RATE: nat := 48000

  type Sample = real

  // ---------------------------------------------------------------- resampling

  function Repeat(x: Sample, n: nat): (r: seq<Sample>)
    ensures |r| == n
  {
    seq(n, i => x)
  }

  /** Output samples due after one more input sample. */
  function Due(step: nat, unit: nat, phase: nat): nat
    requires unit > 0
  {
    (phase + step) / unit
  }

  function Next(step: nat, unit: nat, phase: nat): (next: nat)
    requires unit > 0
    ensures next < unit
  {
    (phase + step) % unit
  }

  /** The phase is kept in units of 1/unit: every input sample adds `step`, and one
      output sample is due for every whole unit. */
  function Resample(step: nat, unit: nat, phase: nat, xs: seq<Sample>): seq<Sample>
    requires unit > 0
    decreases |xs|
  {
    if xs == [] then []
    else Repeat(xs[0], Due(step, unit, phase)) + Resample(step, unit, Next(step, unit, phase), xs[1..])
  }

  function PhaseAfter(step: nat, unit: nat, phase: nat, n: nat): nat
    requires unit > 0
  {
    (phase + n * step) % unit
  }

  lemma Distribute(q: nat, p: nat, unit: nat)
    ensures (q + p) * unit == q * unit + p * unit
  {
  }

  lemma Divide(a: nat, unit: nat)
    requires unit > 0
    ensures a == (a / unit) * unit + a % unit
  {
  }

  /** Adding in two steps leaves the same remainder and the same whole units. */
  lemma ModStep(a: nat, b: nat, unit: nat)
    requires unit > 0
    ensures (a % unit + b) % unit == (a + b) % unit
    ensures a / unit + (a % unit + b) / unit == (a + b) / unit
  {
    var q, r := a / unit, a % unit;
    var p, s := (r + b) / unit, (r + b) % unit;
    Divide(a, unit);
    Divide(r + b, unit);
    Distribute(q, p, unit);
    Quotient(a + b, unit, q + p, s);
  }

  lemma {:induction false} ResampleCounts(step: nat, unit: nat, phase: nat, xs: seq<Sample>)
    requires unit > 0 && phase < unit
    ensures |Resample(step, unit, phase, xs)| == (phase + |xs| * step) / unit
    decreases |xs|
  {
    if xs == [] {
      Quotient(phase, unit, 0, phase);
    } else {
      var next := Next(step, unit, phase);
      ResampleCounts(step, unit, next, xs[1..]);
      ModStep(phase + step, |xs[1..]| * step, unit);
      assert phase + step + |xs[1..]| * step == phase + |xs| * step;
    }
  }

  lemma PhaseStep(step: nat, unit: nat, phase: nat, n: nat)
    requires unit > 0
    ensures PhaseAfter(step, unit, Next(step, unit, phase), n) == PhaseAfter(step, unit, phase, n + 1)
  {
    ModStep(phase + step, n * step, unit);
    Distribute(n, 1, step);
  }

  lemma PhaseStart(step: nat, unit: nat, phase: nat)
    requires phase < unit
    ensures PhaseAfter(step, unit, phase, 0) == phase
  {
    Quotient(phase, unit, 0, phase);
  }

  /** A stream resampled in two parts is the stream resampled at once. */
  lemma {:induction false} ResampleSplits(step: nat, unit: nat, phase: nat, xs: seq<Sample>, ys: seq<Sample>)
    requires phase < unit
    ensures Resample(step, unit, phase, xs + ys) ==
            Resample(step, unit, phase, xs) + Resample(step, unit, PhaseAfter(step, unit, phase, |xs|), ys)
    decreases |xs|
  {
    hide PhaseAfter, Repeat, Due, Next;
    if xs == [] {
      assert xs + ys == ys;
      PhaseStart(step, unit, phase);
    } else {
      var all, next := xs + ys, Next(step, unit, phase);
      assert all[0] == xs[0] && all[1..] == xs[1..] + ys;
      ResampleSplits(step, unit, next, xs[1..], ys);
      PhaseStep(step, unit, phase, |xs[1..]|);
      Join(Repeat(xs[0], Due(step, unit, phase)), Resample(step, unit, next, xs[1..]),
           Resample(step, unit, PhaseAfter(step, unit, phase, |xs|), ys));
    }
  }

  lemma Join<T>(xs: seq<T>, ys: seq<T>, zs: seq<T>)
    ensures xs + (ys + zs) == (xs + ys) + zs
  {
  }

  lemma PhasesAdd(step: nat, unit: nat, phase: nat, m: nat, n: nat)
    requires unit > 0
    ensures PhaseAfter(step, unit, PhaseAfter(step, unit, phase, m), n) == PhaseAfter(step, unit, phase, m + n)
  {
    ModStep(phase + m * step, n * step, unit);
    assert (m + n) * step == m * step + n * step;
  }

  /** Sample j of the result is the first input sample by which j + 1 samples are
      due: the input at position ((j + 1) * unit - 1 - phase) / step. */
  lemma {:induction false} ResampleAt(step: nat, unit: nat, phase: nat, xs: seq<Sample>, j: nat)
    requires unit > 0 && phase < unit && step > 0
    requires j < |Resample(step, unit, phase, xs)|
    ensures var i := ((j + 1) * unit - 1 - phase) / step;
            0 <= i < |xs| && Resample(step, unit, phase, xs)[j] == xs[i]
    decreases |xs|
  {
    var due, next := Due(step, unit, phase), Next(step, unit, phase);
    Divide(phase + step, unit);
    var before := (j + 1) * unit - 1 - phase;
    assert (j + 1) * unit >= unit;
    if j < due {
      OneDue(j, due, unit);
      assert 0 <= before < step;
      Quotient(before, step, 0, before);
    } else {
      ResampleAt(step, unit, next, xs[1..], j - due);
      OneDue(due, j + 1, unit);
      var later := (j - due + 1) * unit - 1 - next;
      Distribute(j - due + 1, due, unit);
      assert before == later + step;
      Divide(later, step);
      var i := later / step;
      Distribute(i, 1, step);
      Quotient(before, step, i + 1, later % step);
      assert xs[1..][i] == xs[i + 1];
    }
  }

  lemma OneDue(j: nat, due: nat, unit: nat)
    requires j < due
    ensures (j + 1) * unit <= due * unit
  {
    Product(j, due, unit);
    Distribute(j, 1, unit);
  }

  // ---------------------------------------------------------------- framing

  function Frames(xs: seq<Sample>): seq<seq<Sample>>
    decreases |xs|
  {
    if |xs| < FRAME_SAMPLES then [] else [xs[..FRAME_SAMPLES]] + Frames(xs[FRAME_SAMPLES..])
  }

  function Rest(xs: seq<Sample>): seq<Sample>
    decreases |xs|
  {
    if |xs| < FRAME_SAMPLES then xs else Rest(xs[FRAME_SAMPLES..])
  }

  function Flatten(frames: seq<seq<Sample>>): seq<Sample> {
    if frames == [] then [] else frames[0] + Flatten(frames[1..])
  }

  predicate Whole(frames: seq<seq<Sample>>) {
    forall i :: 0 <= i < |frames| ==> |frames[i]| == FRAME_SAMPLES
  }

  /** Framing keeps every sample in order, in frames of 960 and a shorter rest. */
  lemma {:induction false} FramesKeepAll(xs: seq<Sample>)
    ensures Flatten(Frames(xs)) + Rest(xs) == xs
    ensures Whole(Frames(xs)) && |Rest(xs)| < FRAME_SAMPLES
    ensures FRAME_SAMPLES * |Frames(xs)| + |Rest(xs)| == |xs|
    decreases |xs|
  {
    if |xs| >= FRAME_SAMPLES {
      var tail := xs[FRAME_SAMPLES..];
      FramesKeepAll(tail);
      assert Frames(xs)[1..] == Frames(tail);
      assert Flatten(Frames(xs)) == xs[..FRAME_SAMPLES] + Flatten(Frames(tail));
      Join(xs[..FRAME_SAMPLES], Flatten(Frames(tail)), Rest(tail));
      assert xs[..FRAME_SAMPLES] + tail == xs;
    }
  }

  /** There is no other way to cut a stream into frames of 960 and a shorter rest. */
  lemma {:induction false} FramesUnique(frames: seq<seq<Sample>>, rest: seq<Sample>)
    requires Whole(frames) && |rest| < FRAME_SAMPLES
    ensures Frames(Flatten(frames) + rest) == frames && Rest(Flatten(frames) + rest) == rest
  {
    if frames == [] {
      assert Flatten(frames) + rest == rest;
    } else {
      var all, tail := Flatten(frames) + rest, Flatten(frames[1..]) + rest;
      FramesUnique(frames[1..], rest);
      assert |frames[0]| == FRAME_SAMPLES;
      assert all == frames[0] + tail;
      assert all[..FRAME_SAMPLES] == frames[0] && all[FRAME_SAMPLES..] == tail;
    }
  }

  lemma {:induction false} FlattenConcat(xs: seq<seq<Sample>>, ys: seq<seq<Sample>>)
    ensures Flatten(xs + ys) == Flatten(xs) + Flatten(ys)
  {
    if xs == [] {
      assert xs + ys == ys;
    } else {
      var all := xs + ys;
      assert all[0] == xs[0] && all[1..] == xs[1..] + ys;
      FlattenConcat(xs[1..], ys);
      Join(xs[0], Flatten(xs[1..]), Flatten(ys));
    }
  }

  /** Framing may start over from the rest of what was framed before. */
  lemma FramesContinue(xs: seq<Sample>, ys: seq<Sample>)
    ensures Frames(xs + ys) == Frames(xs) + Frames(Rest(xs) + ys)
    ensures Rest(xs + ys) == Rest(Rest(xs) + ys)
  {
    var more := Rest(xs) + ys;
    FramesKeepAll(xs);
    FramesKeepAll(more);
    FlattenConcat(Frames(xs), Frames(more));
    Join(Flatten(Frames(xs)), Rest(xs), ys);
    Join(Flatten(Frames(xs)), Flatten(Frames(more)), Rest(more));
    FramesUnique(Frames(xs) + Frames(more), Rest(more));
  }

  lemma FramesPush(xs: seq<Sample>, x: Sample)
    ensures if |Rest(xs)| == FRAME_SAMPLES - 1
            then Frames(xs + [x]) == Frames(xs) + [Rest(xs) + [x]] && Rest(xs + [x]) == []
            else Frames(xs + [x]) == Frames(xs) && Rest(xs + [x]) == Rest(xs) + [x]
  {
    FramesKeepAll(xs);
    FramesContinue(xs, [x]);
    var more := Rest(xs) + [x];
    if |more| == FRAME_SAMPLES {
      assert more[..FRAME_SAMPLES] == more && more[FRAME_SAMPLES..] == [];
    } else {
      assert Frames(xs) + [] == Frames(xs);
    }
  }
}
