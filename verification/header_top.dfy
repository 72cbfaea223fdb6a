/** The announcement ticker above the header: one message at a time, a circular loader that
    fills over 4.5 seconds, then the next message; a button pauses and resumes it. The clock is
    an input: each tick receives the milliseconds elapsed since the current timer started. */
module HeaderTop {

  const Messages: seq<string> := [
    "Livraison GRATUITE sur tous les produits",
    "-10 % sur Chic Girl \U{2014} stocks limit\U{00E9}s !"
  ]

  /** The time the loader takes to fill, in milliseconds. */
  const Duration: real := 4500.0

  /** `Math.min((elapsed / DURATION) * 100, 100)`. */
  function Progress(elapsed: real): (r: real)
    ensures r <= 100.0
    ensures elapsed >= 0.0 ==> r >= 0.0
    ensures r == 100.0 <==> elapsed >= Duration
    ensures elapsed < Duration ==> r == elapsed / Duration * 100.0
  {
    if elapsed / Duration * 100.0 <= 100.0 then elapsed / Duration * 100.0 else 100.0
  }

  /** The loader grows with time until it is full. */
  lemma ProgressMonotone(a: real, b: real)
    requires a <= b
    ensures Progress(a) <= Progress(b)
  {
  }

  /** How many of the ticks `samples` fill the loader, that is, how many message changes
      they cause. */
  function Rotations(samples: seq<real>): (r: nat)
    ensures r <= |samples|
  {
    if samples == [] then 0
    else Rotations(samples[..|samples| - 1]) + (if samples[|samples| - 1] >= Duration then 1 else 0)
  }

  /** One more tick adds one rotation exactly when it fills the loader. */
  lemma RotationsStep(samples: seq<real>, k: nat)
    requires k < |samples|
    ensures Rotations(samples[..k + 1]) == Rotations(samples[..k]) + (if samples[k] >= Duration then 1 else 0)
  {
    assert samples[..k + 1][..k] == samples[..k];
  }

  /** Stepping the index once more after `x` steps is taking `x + 1` steps. */
  lemma ModStep(x: nat)
    ensures (x % |Messages| + 1) % |Messages| == (x + 1) % |Messages|
  {
    assert |Messages| == 2;
  }

  /** The ticker's state. */
  class Ticker {
    var index: nat
    var paused: bool
    var progress: real

    predicate Valid()
      reads this
    {
      index < |Messages| && 0.0 <= progress <= 100.0
    }

    /** Exactly the message at `index` is visible. */
    predicate Visible(i: int)
      reads this
    {
      i == index
    }

    constructor ()
      ensures index == 0 && !paused && progress == 0.0 && Valid()
    {
      index, paused, progress := 0, false, 0.0;
    }

    /** One tick of the running timer, `elapsed` milliseconds after it started. Below a full
        loader the progress follows the clock; a full loader resets it to 0 and moves to the
        next message, wrapping round after the last (which restarts the timer). */
    method Tick(elapsed: real)
      requires Valid() && !paused && elapsed >= 0.0
      modifies this
      ensures Valid() && paused == old(paused)
      ensures elapsed >= Duration ==> progress == 0.0 && index == (old(index) + 1) % |Messages|
      ensures elapsed < Duration ==> progress == Progress(elapsed) && index == old(index)
    {
      var value := Progress(elapsed);
      progress := value;
      if value == 100.0 {
        progress := 0.0;
        index := (index + 1) % |Messages|;
      }
    }

    /** The pause button. While paused no timer runs, so neither the progress nor the message
        changes until it is pressed again. */
    method TogglePause()
      modifies this
      ensures paused == !old(paused) && index == old(index) && progress == old(progress)
    {
      paused := !paused;
    }

    /** The running timer over the ticks `samples`: after them, the ticker has moved on by one
        message per full loader, wrapping round, and its state stays valid. */
    method Run(samples: seq<real>)
      requires Valid() && !paused
      requires forall i :: 0 <= i < |samples| ==> samples[i] >= 0.0
      modifies this
      ensures Valid() && !paused
      ensures index == (old(index) + Rotations(samples)) % |Messages|
      ensures |samples| > 0 && samples[|samples| - 1] < Duration ==>
                progress == Progress(samples[|samples| - 1])
    {
      var k := 0;
      ghost var start := index;
      assert |Messages| == 2;
      while k < |samples|
        invariant 0 <= k <= |samples|
        invariant Valid() && !paused
        invariant index == (start + Rotations(samples[..k])) % |Messages|
        invariant k > 0 && samples[k - 1] < Duration ==> progress == Progress(samples[k - 1])
      {
        RotationsStep(samples, k);
        ModStep(start + Rotations(samples[..k]));
        Tick(samples[k]);
        k := k + 1;
      }
      assert samples[..k] == samples;
    }
  }
}
