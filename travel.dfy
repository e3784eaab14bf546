/** The `distance` accumulator Transition_Iris and Transition_Cut share:
    every update pushes the pieces max(w, h) / duration further apart and
    the transition stops once the distance exceeds the screen diagonal. */
module Travel {

  /** max(w, h), the distance covered over one full duration. */
  function Reach(w: int, h: int): int {
    if w >= h then w else h
  }

  /** w * w + h * h, the squared screen diagonal. */
  function DiagonalSquared(w: int, h: int): real {
    (w * w + h * h) as real
  }

  /** d <= sqrt(w * w + h * h), stated without the square root. */
  predicate WithinDiagonal(d: real, w: int, h: int) {
    d <= 0.0 || d * d <= DiagonalSquared(w, h)
  }

  /** The distance one update adds. */
  function Step(w: int, h: int, duration: int): real
    requires duration >= 1
  {
    (Reach(w, h) as real) / (duration as real)
  }

  /** What update changes: the running flag, the distance, the ticks left. */
  datatype Traveller = Traveller(active: bool, distance: real, remaining: int)

  /** One call of update on a `w` x `h` picture with the given duration. */
  function Tick(t: Traveller, w: int, h: int, duration: int): Traveller
    requires duration >= 1
  {
    if !t.active then t
    else
      var d := t.distance + Step(w, h, duration);
      Traveller(WithinDiagonal(d, w, h), d, t.remaining - 1)
  }

  /** n successive calls of update. */
  function Ticks(t: Traveller, w: int, h: int, duration: int, n: nat): Traveller
    requires duration >= 1
  {
    if n == 0 then t else Tick(Ticks(t, w, h, duration, n - 1), w, h, duration)
  }

  /** The state start leaves: running, distance 0, `remaining` ticks. */
  function Started(remaining: int): Traveller {
    Traveller(true, 0.0, remaining)
  }

  /** A stopped transition stays stopped, so one that runs after n updates
      ran after every earlier one; and it runs because its distance is
      within the diagonal. */
  lemma {:induction false} RunningSoFar(t: Traveller, w: int, h: int, dur: int, n: nat)
    requires dur >= 1 && n >= 1 && Ticks(t, w, h, dur, n).active
    ensures Ticks(t, w, h, dur, n - 1).active
    ensures WithinDiagonal(Ticks(t, w, h, dur, n).distance, w, h)
  {
  }

  /** While the transition runs, the n-th update has moved it exactly
      n * max(w, h) / duration. */
  lemma {:induction false} DistanceWhileActive(w: int, h: int, dur: int, r: int, n: nat)
    requires dur >= 1
    ensures var t := Ticks(Started(r), w, h, dur, n);
      t.active ==> t.distance == (n as real) * Step(w, h, dur)
  {
    if n > 0 {
      var t := Ticks(Started(r), w, h, dur, n);
      if t.active {
        RunningSoFar(Started(r), w, h, dur, n);
        DistanceWhileActive(w, h, dur, r, n - 1);
        var p := Ticks(Started(r), w, h, dur, n - 1);
        var s := Step(w, h, dur);
        assert t.distance == p.distance + s;
        OneMoreStep(n - 1, s);
      }
    }
  }

  /** k steps and one more are k + 1 steps. */
  lemma OneMoreStep(k: nat, s: real)
    ensures (k as real) * s + s == ((k + 1) as real) * s
  {
  }

  /** Squares keep the order of non-negative reals. */
  lemma SquareMonotone(x: real, y: real)
    requires 0.0 <= x <= y
    ensures x * x <= y * y
  {
    assert x * x <= x * y;
    assert x * y <= y * y;
  }

  /** Any distance up to max(w, h) is within the diagonal. */
  lemma ReachWithinDiagonal(w: int, h: int, x: real)
    requires w >= 1 && h >= 1 && 0.0 <= x <= Reach(w, h) as real
    ensures WithinDiagonal(x, w, h)
  {
    var m := Reach(w, h) as real;
    SquareMonotone(x, m);
    assert (w * w) as real == (w as real) * (w as real);
    assert (h * h) as real == (h as real) * (h as real);
    assert m * m <= DiagonalSquared(w, h);
  }

  /** Any distance of at least 2 * max(w, h) is beyond the diagonal. */
  lemma TwiceReachBeyondDiagonal(w: int, h: int, x: real)
    requires w >= 1 && h >= 1 && x >= 2.0 * (Reach(w, h) as real)
    ensures !WithinDiagonal(x, w, h)
  {
    var m := Reach(w, h) as real;
    SquareMonotone(2.0 * m, x);
    SquareMonotone(w as real, m);
    SquareMonotone(h as real, m);
    assert (w * w) as real == (w as real) * (w as real);
    assert (h * h) as real == (h as real) * (h as real);
    assert DiagonalSquared(w, h) <= 2.0 * (m * m);
    assert m * m >= 1.0 by { SquareMonotone(1.0, m); }
  }

  /** k steps of one update's size with 0 <= k <= dur cover between 0 and
      max(w, h); k >= 2 * dur steps cover at least 2 * max(w, h). */
  lemma StepsCover(w: int, h: int, dur: int, k: nat)
    requires w >= 1 && h >= 1 && dur >= 1
    ensures k <= dur ==> 0.0 <= (k as real) * Step(w, h, dur) <= Reach(w, h) as real
    ensures k >= 2 * dur ==> (k as real) * Step(w, h, dur) >= 2.0 * (Reach(w, h) as real)
  {
    var m := Reach(w, h) as real;
    var dd := dur as real;
    var s := Step(w, h, dur);
    assert s == m / dd;
    assert s * dd == m;
    assert s >= 0.0;
    if k <= dur {
      assert (k as real) * s <= dd * s;
    }
    if k >= 2 * dur {
      assert (k as real) * s >= (2.0 * dd) * s;
    }
  }

  /** On a picture of positive size, the transition still runs after each of
      its first `dur` updates: dur steps of max(w, h) / dur reach exactly
      max(w, h), which is at most the diagonal. */
  lemma {:induction false} ActiveThroughDuration(w: int, h: int, dur: int, r: int, n: nat)
    requires w >= 1 && h >= 1 && dur >= 1 && n <= dur
    ensures Ticks(Started(r), w, h, dur, n).active
  {
    if n > 0 {
      ActiveThroughDuration(w, h, dur, r, n - 1);
      DistanceWhileActive(w, h, dur, r, n - 1);
      var p := Ticks(Started(r), w, h, dur, n - 1);
      var d := p.distance + Step(w, h, dur);
      assert d == (n as real) * Step(w, h, dur) by {
        OneMoreStep(n - 1, Step(w, h, dur));
      }
      StepsCover(w, h, dur, n);
      ReachWithinDiagonal(w, h, d);
      assert Ticks(Started(r), w, h, dur, n) == Tick(p, w, h, dur);
    }
  }

  /** On a picture of positive size the transition has stopped by its
      2 * dur-th update: that many steps would reach 2 * max(w, h), which
      exceeds the diagonal. */
  lemma StoppedByTwiceDuration(w: int, h: int, dur: int, r: int, n: nat)
    requires w >= 1 && h >= 1 && dur >= 1 && n >= 2 * dur
    ensures !Ticks(Started(r), w, h, dur, n).active
  {
    if Ticks(Started(r), w, h, dur, n).active {
      RunningSoFar(Started(r), w, h, dur, n);
      DistanceWhileActive(w, h, dur, r, n);
      StepsCover(w, h, dur, n);
      TwiceReachBeyondDiagonal(w, h, (n as real) * Step(w, h, dur));
    }
  }

  /** The ticks left never decide anything: two runs that differ only in
      `remaining` agree on the running flag and the distance forever. */
  lemma {:induction false} RemainingIrrelevant(t: Traveller, r: int, w: int, h: int, dur: int, n: nat)
    requires dur >= 1
    ensures Ticks(t.(remaining := r), w, h, dur, n).active == Ticks(t, w, h, dur, n).active
    ensures Ticks(t.(remaining := r), w, h, dur, n).distance == Ticks(t, w, h, dur, n).distance
  {
    if n > 0 {
      RemainingIrrelevant(t, r, w, h, dur, n - 1);
    }
  }
}
