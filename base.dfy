/** Transition_Base: the plain black/white fade every other transition
    starts from. start(d) arms a countdown of d ticks and paints the sprite;
    each update moves the sprite's opacity 1/remaining of the way towards 0
    (fade-in) or 255 (fade-out) and counts down. */
module Base {
  import opened Canvas

  /** What update changes: the running flag, the ticks left and the sprite opacity. */
  datatype Fader = Fader(active: bool, remaining: int, opacity: real)

  /** A running fade has at least one tick left, so a step never divides by zero. */
  predicate Counting(f: Fader) {
    f.active ==> f.remaining >= 1
  }

  /** Opacity after one step with `remaining` ticks to go: a fade-in (sign > 0)
      removes 1/remaining of it, any other sign adds 1/remaining of what is
      missing to 255. */
  function Faded(opacity: real, remaining: int, sign: int): real
    requires remaining >= 1
  {
    if sign > 0 then opacity - opacity / (remaining as real)
    else opacity + (255.0 - opacity) / (remaining as real)
  }

  /** One call of update: nothing when stopped, otherwise one fade step and
      one tick of the countdown; the fade keeps running while ticks remain. */
  function Tick(f: Fader, sign: int): (g: Fader)
    requires Counting(f)
    ensures Counting(g)
  {
    if !f.active then f
    else Fader(f.remaining - 1 > 0, f.remaining - 1, Faded(f.opacity, f.remaining, sign))
  }

  /** n successive calls of update. */
  function Ticks(f: Fader, sign: int, n: nat): (g: Fader)
    requires Counting(f)
    ensures Counting(g)
  {
    if n == 0 then f else Tick(Ticks(f, sign, n - 1), sign)
  }

  /** The state start(d) leaves for a fade that plays. */
  function Started(d: int, opacity: real): Fader {
    Fader(true, d, opacity)
  }

  /** Started with d >= 1 ticks, the fade still runs after n < d updates and
      stops on exactly the d-th update. */
  lemma {:induction false} CountdownExact(d: int, o: real, sign: int, n: nat)
    requires d >= 1
    ensures Ticks(Started(d, o), sign, n).active <==> n < d
    ensures Ticks(Started(d, o), sign, n).remaining == if n < d then d - n else 0
  {
    if n > 0 {
      CountdownExact(d, o, sign, n - 1);
    }
  }

  /** A share 1/r of a non-negative amount, r >= 1, lies between 0 and the amount. */
  lemma ShareBounds(x: real, r: real)
    requires x >= 0.0 && r >= 1.0
    ensures 0.0 <= x / r <= x
  {
    var q := x / r;
    assert q * r == x;
    assert q >= 0.0;
    assert q * (r - 1.0) >= 0.0;
  }

  /** One fade step keeps the opacity within [0, 255], moves it only towards
      its target, and lands exactly on the target when one tick is left. */
  lemma FadedBounds(o: real, r: int, sign: int)
    requires 0.0 <= o <= 255.0 && r >= 1
    ensures 0.0 <= Faded(o, r, sign) <= 255.0
    ensures sign > 0 ==> Faded(o, r, sign) <= o
    ensures sign <= 0 ==> o <= Faded(o, r, sign)
    ensures r == 1 ==> Faded(o, r, sign) == if sign > 0 then 0.0 else 255.0
  {
    if sign > 0 {
      ShareBounds(o, r as real);
    } else {
      ShareBounds(255.0 - o, r as real);
    }
  }

  /** Over a whole countdown started with d >= 1 from an opacity in [0, 255]:
      the opacity stays in [0, 255], never rises during a fade-in and never
      falls during a fade-out, and from the d-th update on it is exactly 0
      (fade-in) or 255 (fade-out). */
  lemma {:induction false} OpacityOverCountdown(d: int, o: real, sign: int, n: nat)
    requires d >= 1 && 0.0 <= o <= 255.0
    ensures 0.0 <= Ticks(Started(d, o), sign, n).opacity <= 255.0
    ensures n >= 1 && sign > 0 ==>
      Ticks(Started(d, o), sign, n).opacity <= Ticks(Started(d, o), sign, n - 1).opacity
    ensures n >= 1 && sign <= 0 ==>
      Ticks(Started(d, o), sign, n - 1).opacity <= Ticks(Started(d, o), sign, n).opacity
    ensures n >= d ==> Ticks(Started(d, o), sign, n).opacity == if sign > 0 then 0.0 else 255.0
  {
    if n > 0 {
      OpacityOverCountdown(d, o, sign, n - 1);
      CountdownExact(d, o, sign, n - 1);
      var f := Ticks(Started(d, o), sign, n - 1);
      if f.active {
        FadedBounds(f.opacity, f.remaining, sign);
      }
    }
  }

  /** Transition_Base: one fade drawn on `screen`. */
  class BaseTransition {
    const screen: Sprite
    /** 0 fills black, 1 fills white, any other value (the engine passes 2) means none. */
    const white: int
    /** +1 for a fade-in, -1 for a fade-out. */
    const fadeSign: int
    var active: bool
    var duration: int
    var remainingDuration: int

    /** The abstract state update works on. */
    ghost function Countdown(): Fader
      reads this, screen
    {
      Fader(active, remainingDuration, screen.opacity)
    }

    ghost predicate Valid()
      reads this
    {
      active ==> remainingDuration >= 1
    }

    /** Whether start fills the sprite and plays the fade. */
    predicate Plays() {
      white == 0 || white == 1
    }

    /** What start(d) leaves: a countdown of d ticks that runs exactly when
        the sprite was filled white (1) or black (0). */
    ghost predicate StartedWith(d: int)
      reads this, screen
    {
      && duration == d && remainingDuration == d
      && active == Plays()
      && (white == 1 ==> screen.canvas == [Fill(White)])
      && (white == 0 ==> screen.canvas == [Fill(Black)])
    }

    /** The effect of one update on the fade's state. */
    twostate predicate Ticked()
      requires old(Valid())
      reads this, screen
    {
      && Countdown() == Tick(old(Countdown()), fadeSign)
      && duration == old(duration)
      && screen.canvas == old(screen.canvas)
    }

    /** initialize: stopped, with the colour and direction stored as given. */
    constructor (screen: Sprite, white: int, fadeSign: int)
      ensures this.screen == screen && this.white == white && this.fadeSign == fadeSign
      ensures !active && Valid()
    {
      this.screen := screen;
      this.white := white;
      this.fadeSign := fadeSign;
      active := false;
      duration := 0;
      remainingDuration := 0;
    }

    /** start(d): arm a countdown of d ticks; fill the sprite white (1) or
        black (0) and play, or with any other colour stay stopped and paint
        nothing. The sprite's opacity is left as it is. */
    method Start(d: int)
      requires Plays() ==> d >= 1
      modifies this, screen`canvas
      ensures Valid() && StartedWith(d)
      ensures duration == d && remainingDuration == d && active == Plays()
      ensures screen.canvas == (if white == 1 then [Fill(White)]
                                else if white == 0 then [Fill(Black)]
                                else old(screen.canvas))
    {
      duration := d;
      remainingDuration := d;
      active := true;
      if white == 1 {
        screen.canvas := [Fill(White)];
      } else if white == 0 {
        screen.canvas := [Fill(Black)];
      } else {
        active := false;
      }
    }

    /** update: one step of the fade while it runs; nothing once it stopped. */
    method Update()
      requires Valid()
      modifies this`active, this`remainingDuration, screen`opacity
      ensures Valid() && Ticked()
    {
      if active {
        if fadeSign > 0 {
          screen.opacity := screen.opacity - screen.opacity / (remainingDuration as real);
        } else {
          screen.opacity := screen.opacity + (255.0 - screen.opacity) / (remainingDuration as real);
        }
        remainingDuration := remainingDuration - 1;
        active := remainingDuration > 0;
      }
    }
  }
}
