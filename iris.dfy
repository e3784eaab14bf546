/** Transition_Iris: the mechanical iris. Six copies of the captured frame
    are each masked to a wedge from the frame centre; every update draws
    blade i pushed outwards along angle i * 60 degrees and moves the blades
    further apart, until they are a screen diagonal away. */
module Iris {
  import opened Canvas
  import Travel

  /** Number of blades (snapshot copies). */
  const Blades: nat := 6

  /** The rim vertices of blade i's mask, in drawing order, as angle indices
      (index k stands for k * 60 degrees): i itself, then (i + j) mod 6 for
      j = 1 .. floor(6 / 2) - 1. */
  function Rim(i: nat): seq<nat> {
    [i] + seq(Blades / 2 - 1, j requires 0 <= j < Blades / 2 - 1 => (i + j + 1) % Blades)
  }

  /** Consecutive rim vertices are neighbouring angle indices. */
  predicate Consecutive(rim: seq<nat>) {
    forall t :: 0 <= t < |rim| - 1 ==> rim[t + 1] == (rim[t] + 1) % Blades
  }

  /** The 60-degree sectors a wedge mask covers: sector k lies between angle
      indices k and k + 1, and the wedge centre, rim[0], ..., rim[m - 1], centre
      covers the sector starting at each rim vertex but the last. */
  function Sectors(rim: seq<nat>): set<nat> {
    set t | 0 <= t < |rim| - 1 :: rim[t]
  }

  /** Blade i's rim has three vertices, starts at i, is consecutive, and every
      index it uses is an angle index below 6. */
  lemma RimShape(i: nat)
    requires i < Blades
    ensures |Rim(i)| == 3 && Rim(i)[0] == i
    ensures Consecutive(Rim(i))
    ensures forall t :: 0 <= t < |Rim(i)| ==> Rim(i)[t] < Blades
    ensures Rim(i) == [i, (i + 1) % Blades, (i + 2) % Blades]
  {
  }

  /** Sector k lies in blade i exactly when i is k or the blade before it:
      blades are 120-degree wedges that overlap their neighbours. */
  lemma SectorInBlade(k: nat, i: nat)
    requires k < Blades && i < Blades
    ensures k in Sectors(Rim(i)) <==> i == k || i == (k + Blades - 1) % Blades
  {
    RimShape(i);
    var rim := Rim(i);
    assert Sectors(rim) == {rim[0], rim[1]} by {
      assert forall t :: 0 <= t < 2 ==> rim[t] in Sectors(rim);
    }
  }

  /** Every sector is covered by exactly two blades, so the six masks overlap
      rather than partition the frame. */
  lemma EachSectorTwice(k: nat)
    requires k < Blades
    ensures (set i | 0 <= i < Blades && k in Sectors(Rim(i))) == {k, (k + Blades - 1) % Blades}
    ensures |set i | 0 <= i < Blades && k in Sectors(Rim(i))| == 2
  {
    forall i | 0 <= i < Blades
      ensures k in Sectors(Rim(i)) <==> i == k || i == (k + Blades - 1) % Blades
    {
      SectorInBlade(k, i);
    }
    var both := set i | 0 <= i < Blades && k in Sectors(Rim(i));
    assert both == {k, (k + Blades - 1) % Blades};
    assert k != (k + Blades - 1) % Blades;
  }

  /** Builds blade i's rim the way start's inner loop traces the path. */
  method BladeOutline(i: nat) returns (rim: seq<nat>)
    requires i < Blades
    ensures rim == Rim(i)
  {
    rim := [i];
    var j := 1;
    while j < Blades / 2
      invariant 1 <= j <= Blades / 2
      invariant rim == [i] + seq(j - 1, k requires 0 <= k < j - 1 => (i + k + 1) % Blades)
    {
      rim := rim + [(i + j) % Blades];
      j := j + 1;
    }
  }

  /** One update's drawing: blade i pushed `distance` along angle index i. */
  function Spread(distance: real): seq<Draw> {
    seq(Blades, i requires 0 <= i < Blades => RadialBlit(i, i, distance))
  }

  /** start's drawing: every masked blade at (0, 0), in blade order. */
  function Assembled(): seq<Draw> {
    seq(Blades, i requires 0 <= i < Blades => Blit(i))
  }

  /** Transition_Iris: an iris of the captured frame drawn on `screen`. */
  class IrisTransition {
    const screen: Sprite
    const white: int
    /** Only a fade-in (+1) opens the iris. */
    const fadeSign: int
    var snaps: seq<Layer>
    var distance: real
    var active: bool
    var duration: int
    var remainingDuration: int

    /** The abstract state update works on. */
    ghost function State(): Travel.Traveller
      reads this
    {
      Travel.Traveller(active, distance, remainingDuration)
    }

    ghost predicate Valid()
      reads this
    {
      |snaps| == Blades && (active ==> duration >= 1)
    }

    /** What start(d) leaves on an iris that was not running: the masked
        blades, drawn in place as the sprite's latest commands, and a
        countdown of 5 * d ticks; update keeps the masks and `duration`. */
    ghost predicate StartedWith(d: int)
      reads this, screen
    {
      && (fadeSign > 0 ==>
            && distance == 0.0 && duration == 5 * d && remainingDuration == 5 * d
            && (forall i :: 0 <= i < |snaps| ==> snaps[i].mask == Wedge(Rim(i)))
            && |screen.canvas| >= Blades
            && screen.canvas[|screen.canvas| - Blades..] == Assembled())
      && (fadeSign > 0 <==> active)
    }

    /** The effect of one update. */
    twostate predicate Ticked()
      requires old(Valid())
      reads this, screen
    {
      && snaps == old(snaps) && duration == old(duration)
      && (old(active) ==>
            State() == Travel.Tick(old(State()), snaps[0].frame.width, snaps[0].frame.height, duration))
      && (!old(active) ==> State() == old(State()))
      && screen.canvas == (if old(active) then Spread(old(distance)) else old(screen.canvas))
    }

    /** initialize: stopped, with six unmasked copies of the captured frame. */
    constructor (screen: Sprite, white: int, fadeSign: int, snap: Frame)
      ensures this.screen == screen && this.white == white && this.fadeSign == fadeSign
      ensures |snaps| == Blades && forall i :: 0 <= i < Blades ==> snaps[i] == Layer(snap, Whole)
      ensures !active && Valid()
    {
      this.screen := screen;
      this.white := white;
      this.fadeSign := fadeSign;
      distance := 0.0;
      active := false;
      duration := 0;
      remainingDuration := 0;
      var copies: seq<Layer> := [];
      var i := 0;
      while i < Blades
        invariant 0 <= i <= Blades
        invariant |copies| == i && forall k :: 0 <= k < i ==> copies[k] == Layer(snap, Whole)
      {
        copies := copies + [Layer(snap, Whole)];
        i := i + 1;
      }
      snaps := copies;
    }

    /** start(d): only a fade-in opens the iris. It masks copy i to blade i's
        wedge and draws it in place, resets the distance and runs for
        5 * d ticks. */
    method Start(d: int)
      requires Valid()
      requires fadeSign > 0 ==> d >= 1
      modifies this, screen`canvas
      ensures Valid()
      ensures fadeSign > 0 ==> StartedWith(d) && screen.canvas == old(screen.canvas) + Assembled()
      ensures forall i :: 0 <= i < |snaps| ==> snaps[i].frame == old(snaps[i].frame)
      ensures fadeSign <= 0 ==>
        snaps == old(snaps) && distance == old(distance) && active == old(active)
        && duration == old(duration) && remainingDuration == old(remainingDuration)
        && screen.canvas == old(screen.canvas)
    {
      if fadeSign > 0 {
        var i := 0;
        while i < |snaps|
          modifies this`snaps, screen`canvas
          invariant 0 <= i <= |snaps| == Blades
          invariant forall k :: 0 <= k < |snaps| ==> snaps[k].frame == old(snaps[k].frame)
          invariant forall k :: 0 <= k < i ==> snaps[k].mask == Wedge(Rim(k))
          invariant screen.canvas == old(screen.canvas) + Assembled()[..i]
        {
          var rim := BladeOutline(i);
          snaps := snaps[i := snaps[i].(mask := Wedge(rim))];
          screen.canvas := screen.canvas + [Blit(i)];
          i := i + 1;
        }
        distance := 0.0;
        duration := d * 5;
        remainingDuration := d * 5;
        active := true;
      }
    }

    /** update: clear the sprite, draw blade i pushed `distance` along angle
        index i, then move the blades max(w, h) / duration further and keep
        running while the distance is within the diagonal; count down. */
    method Update()
      requires Valid()
      modifies this`distance, this`active, this`remainingDuration, screen`canvas
      ensures Valid() && Ticked()
    {
      if active {
        var w := snaps[0].frame.width;
        var h := snaps[0].frame.height;
        var d := distance;
        screen.canvas := [];
        var i := 0;
        while i < |snaps|
          modifies screen`canvas
          invariant 0 <= i <= |snaps| == Blades
          invariant screen.canvas == Spread(d)[..i]
        {
          screen.canvas := screen.canvas + [RadialBlit(i, i, d)];
          i := i + 1;
        }
        distance := d + (Travel.Reach(w, h) as real) / (duration as real);
        active := Travel.WithinDiagonal(distance, w, h);
        remainingDuration := remainingDuration - 1;
      }
    }
  }
}
