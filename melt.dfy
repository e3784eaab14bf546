/** Transition_Melt: the DOOM-style melt. start gives each of 500 vertical
    slices a start offset by a clamped random walk; every update moves all
    slices down by the same whole number of pixels and redraws them; the
    melt runs while some slice has not passed the bottom of the sprite. */
module Melt {
  import opened Canvas

  /** Number of vertical slices. */
  const Slices: nat := 500

  /** Offsets are clamped so that no slice starts below its resting place. */
  function ClampToTop(v: int): int {
    if v > 0 then 0 else v
  }

  /** The random draws start makes: the first offset's draw in [0, 100) and
      one draw in [0, 50) for each further slice. */
  predicate DrawsInRange(first: int, steps: seq<int>) {
    && 0 <= first < 100
    && |steps| == Slices - 1
    && forall i :: 0 <= i < |steps| ==> 0 <= steps[i] < 50
  }

  /** The start profile built from the draws: slice 0 starts `first` pixels
      up, each further slice moves by its draw minus 25 from the previous
      one, never below 0. */
  ghost predicate Profile(hs: seq<int>, first: int, steps: seq<int>) {
    && |hs| == |steps| + 1
    && hs[0] == -first
    && forall i :: 1 <= i < |hs| ==> hs[i] == ClampToTop(hs[i - 1] + steps[i - 1] - 25)
  }

  /** Every start offset is at most 0, slice 0 starts between 99 pixels up
      and 0, and each slice starts at most 25 pixels above and 24 pixels
      below its left neighbour. */
  lemma ProfileBounds(hs: seq<int>, first: int, steps: seq<int>)
    requires DrawsInRange(first, steps) && Profile(hs, first, steps)
    ensures |hs| == Slices
    ensures -99 <= hs[0] <= 0
    ensures forall i :: 0 <= i < |hs| ==> hs[i] <= 0
    ensures forall i :: 1 <= i < |hs| ==> hs[i - 1] - 25 <= hs[i] <= hs[i - 1] + 24
  {
    forall i | 0 <= i < |hs|
      ensures hs[i] <= 0
    {
      if i > 0 {
        assert hs[i] == ClampToTop(hs[i - 1] + steps[i - 1] - 25);
      }
    }
  }

  /** The whole number of pixels every slice falls per update:
      floor(snapshot height / duration). */
  function FallStep(snap: Frame, duration: int): int
    requires duration >= 1
  {
    snap.height / duration
  }

  /** The width of one slice: ceil(snapshot width / 500). */
  function SliceWidth(snap: Frame): int {
    (snap.width + Slices - 1) / Slices
  }

  /** Every offset moved down by `step`. */
  function Shifted(hs: seq<int>, step: int): seq<int> {
    seq(|hs|, i requires 0 <= i < |hs| => hs[i] + step)
  }

  /** Some slice has not yet passed `limit` (the sprite's height). */
  predicate Unfallen(hs: seq<int>, limit: int) {
    exists i :: 0 <= i < |hs| && hs[i] <= limit
  }

  /** The drawing of one update: slice i is the column of the snapshot at
      x = i * width, drawn at the same x and at height max(0, offset). */
  function SliceFrame(hs: seq<int>, snap: Frame): seq<Draw> {
    seq(|hs|, i requires 0 <= i < |hs| =>
      SliceBlit(i * SliceWidth(snap), SliceWidth(snap), snap.height, i * SliceWidth(snap),
                if hs[i] < 0 then 0 else hs[i]))
  }

  /** What update changes: the running flag, the offsets, the ticks left. */
  datatype Melting = Melting(active: bool, heights: seq<int>, remaining: int)

  /** One call of update: all offsets move by `step`; the melt keeps running
      iff some slice is still at or above `limit`. */
  function Tick(m: Melting, step: int, limit: int): Melting {
    if !m.active then m
    else
      var hs := Shifted(m.heights, step);
      Melting(Unfallen(hs, limit), hs, m.remaining - 1)
  }

  /** n successive calls of update. */
  function Ticks(m: Melting, step: int, limit: int, n: nat): Melting {
    if n == 0 then m else Tick(Ticks(m, step, limit, n - 1), step, limit)
  }

  /** While the melt runs, n updates have moved every slice by exactly
      n * step, and after at least one update it runs because some slice
      is still at or above the limit. */
  lemma {:induction false} HeightsWhileActive(m: Melting, step: int, limit: int, n: nat)
    requires m.active
    ensures var t := Ticks(m, step, limit, n);
      t.active ==> t.heights == Shifted(m.heights, n * step)
    ensures var t := Ticks(m, step, limit, n);
      t.active && n >= 1 ==> Unfallen(t.heights, limit)
  {
    if n > 0 {
      HeightsWhileActive(m, step, limit, n - 1);
      var p := Ticks(m, step, limit, n - 1);
      if p.active {
        assert Shifted(Shifted(m.heights, (n - 1) * step), step) == Shifted(m.heights, n * step);
      }
    }
  }

  /** With a positive step the melt ends: if no start offset is below `low`,
      it has stopped after any n >= 1 updates with low + n * step > limit. */
  lemma StopsWhenStepPositive(m: Melting, step: int, limit: int, low: int, n: nat)
    requires m.active && step >= 1 && n >= 1 && low + n * step > limit
    requires forall i :: 0 <= i < |m.heights| ==> m.heights[i] >= low
    ensures !Ticks(m, step, limit, n).active
  {
    var t := Ticks(m, step, limit, n);
    HeightsWhileActive(m, step, limit, n);
    if t.active {
      assert false;
    }
  }

  /** A concrete bound: with step >= 1, limit - low + 1 updates always suffice. */
  lemma StopsWithin(m: Melting, step: int, limit: int, low: int)
    requires m.active && step >= 1 && low <= limit
    requires forall i :: 0 <= i < |m.heights| ==> m.heights[i] >= low
    ensures !Ticks(m, step, limit, limit - low + 1).active
  {
    var n := limit - low + 1;
    assert n * step >= n;
    StopsWhenStepPositive(m, step, limit, low, n);
  }

  /** With step 0 (snapshot height smaller than the duration) a melt that has
      a slice at or above the limit never stops. */
  lemma {:induction false} NeverStopsWhenStepZero(m: Melting, limit: int, n: nat)
    requires m.active && Unfallen(m.heights, limit)
    ensures Ticks(m, 0, limit, n).active
    ensures Ticks(m, 0, limit, n).heights == m.heights
  {
    if n > 0 {
      NeverStopsWhenStepZero(m, limit, n - 1);
      assert Shifted(m.heights, 0) == m.heights;
    }
  }

  /** The countdown does not end the melt: from any start profile (offsets
      at most 0) on a sprite at least as tall as the snapshot, the melt still
      runs after all `dur` ticks of its countdown, when `remaining` is 0. */
  lemma {:induction false} OutlastsCountdown(hs: seq<int>, snap: Frame, dur: int, limit: int, n: nat)
    requires |hs| >= 1 && forall i :: 0 <= i < |hs| ==> hs[i] <= 0
    requires dur >= 1 && limit >= snap.height && n <= dur
    ensures Ticks(Melting(true, hs, dur), FallStep(snap, dur), limit, n).active
    ensures Ticks(Melting(true, hs, dur), FallStep(snap, dur), limit, n).remaining == dur - n
  {
    if n > 0 {
      var step := FallStep(snap, dur);
      var m := Melting(true, hs, dur);
      OutlastsCountdown(hs, snap, dur, limit, n - 1);
      HeightsWhileActive(m, step, limit, n - 1);
      var p := Ticks(m, step, limit, n - 1);
      assert p.heights == Shifted(hs, (n - 1) * step);
      FallWithinSnapshot(snap, dur, n);
      assert (n - 1) * step + step == n * step;
      var moved := Shifted(p.heights, step);
      assert moved[0] == hs[0] + (n - 1) * step + step;
      assert Unfallen(moved, limit);
    }
  }

  /** n <= dur steps of floor(height / dur) move no further than the height. */
  lemma FallWithinSnapshot(snap: Frame, dur: int, n: nat)
    requires dur >= 1 && n <= dur
    ensures 0 <= n * FallStep(snap, dur) <= snap.height
  {
    var step := FallStep(snap, dur);
    assert step * dur <= snap.height;
    assert n * step <= dur * step;
  }

  /** Transition_Melt: a melt of `snap` drawn on `screen`. */
  class MeltTransition {
    const screen: Sprite
    const white: int
    /** Only a fade-in (+1) melts. */
    const fadeSign: int
    /** The captured frame the slices are cut from. */
    const snap: Frame
    var heights: array<int>
    var active: bool
    var duration: int
    var remainingDuration: int

    /** The abstract state update works on. */
    ghost function State(): Melting
      reads this, heights
    {
      Melting(active, heights[..], remainingDuration)
    }

    ghost predicate Valid()
      reads this
    {
      active ==> duration >= 1 && heights.Length == Slices
    }

    /** What start(d) leaves on a melt that was not running; update keeps
        `duration` and the heights array. */
    ghost predicate StartedWith(d: int, first: int, steps: seq<int>)
      reads this, heights
    {
      && (fadeSign > 0 ==>
            && heights.Length == Slices && Profile(heights[..], first, steps)
            && duration == 2 * d && remainingDuration == 2 * d)
      && (fadeSign > 0 <==> active)
    }

    /** The effect of one update. */
    twostate predicate Ticked()
      requires old(Valid())
      reads this, heights, screen
    {
      && heights == old(heights) && duration == old(duration)
      && (old(active) ==> State() == Tick(old(State()), FallStep(snap, duration), screen.height))
      && (!old(active) ==> State() == old(State()))
      && screen.canvas == (if old(active) then SliceFrame(heights[..], snap) else old(screen.canvas))
    }

    /** initialize: stopped, no slices yet. */
    constructor (screen: Sprite, white: int, fadeSign: int, snap: Frame)
      ensures this.screen == screen && this.white == white && this.fadeSign == fadeSign
      ensures this.snap == snap
      ensures !active && Valid() && fresh(heights)
    {
      this.screen := screen;
      this.white := white;
      this.fadeSign := fadeSign;
      this.snap := snap;
      heights := new int[0];
      active := false;
      duration := 0;
      remainingDuration := 0;
    }

    /** start(d): only a fade-in melts. It builds the 500 start offsets from
        the draws and runs for a nominal 2 * d ticks. Nothing is drawn. */
    method Start(d: int, first: int, steps: seq<int>)
      requires Valid()
      requires fadeSign > 0 ==> d >= 1
      requires DrawsInRange(first, steps)
      modifies this
      ensures Valid()
      ensures fadeSign > 0 ==> fresh(heights) && StartedWith(d, first, steps)
      ensures fadeSign <= 0 ==>
        heights == old(heights) && active == old(active) && duration == old(duration)
        && remainingDuration == old(remainingDuration)
    {
      if fadeSign > 0 {
        var hs := new int[Slices];
        hs[0] := -first;
        var i := 1;
        while i < Slices
          invariant 1 <= i <= Slices
          invariant hs[0] == -first
          invariant forall k :: 1 <= k < i ==> hs[k] == ClampToTop(hs[k - 1] + steps[k - 1] - 25)
        {
          var tmp := steps[i - 1] - 25 + hs[i - 1];
          if tmp > 0 {
            tmp := 0;
          }
          hs[i] := tmp;
          i := i + 1;
        }
        heights := hs;
        duration := d * 2;
        remainingDuration := d * 2;
        active := true;
      }
    }

    /** update: clear the sprite, move every slice down by the same step,
        keep running iff some slice is at or above the sprite's bottom,
        redraw every slice, count down. */
    method Update()
      requires Valid()
      modifies this`active, this`remainingDuration, heights, screen`canvas
      ensures Valid() && Ticked()
    {
      if active {
        var w := SliceWidth(snap);
        var h := snap.height;
        screen.canvas := [];
        active := false;
        var i := 0;
        while i < Slices
          modifies heights, this`active
          invariant 0 <= i <= Slices
          invariant forall k :: 0 <= k < i ==> heights[k] == old(heights[k]) + FallStep(snap, duration)
          invariant forall k :: i <= k < Slices ==> heights[k] == old(heights[k])
          invariant active <==> exists k :: 0 <= k < i && heights[k] <= screen.height
        {
          heights[i] := heights[i] + snap.height / duration;
          active := active || heights[i] <= screen.height;
          i := i + 1;
        }
        assert heights[..] == Shifted(old(heights[..]), FallStep(snap, duration));
        if active {
          var k :| 0 <= k < Slices && heights[k] <= screen.height;
          assert heights[..][k] <= screen.height;
        }
        assert active == Unfallen(heights[..], screen.height);
        i := 0;
        assert SliceFrame(heights[..0], snap) == [];
        while i < Slices
          modifies screen`canvas
          invariant 0 <= i <= Slices
          invariant screen.canvas == SliceFrame(heights[..i], snap)
        {
          var dh := if heights[i] < 0 then 0 else heights[i];
          assert SliceFrame(heights[..i + 1], snap) == SliceFrame(heights[..i], snap)
            + [SliceBlit(i * w, w, h, i * w, dh)];
          screen.canvas := screen.canvas + [SliceBlit(i * w, w, h, i * w, dh)];
          i := i + 1;
        }
        assert heights[..Slices] == heights[..];
        remainingDuration := remainingDuration - 1;
      }
    }
  }
}
