/**
 * The per-frame integer animations of the trackers: the "grow" circle with
 * an integer direction (modern and advanced trackers), the pulse with a
 * boolean direction (main.py and its scratch copy), and the fading
 * click/wheel effects that are redrawn once per frame until their lifetime
 * runs out.
 */
module Pulse {
  import opened Options

  // ---------------------------------------------------------------------
  // Grow circle: radius += direction * 2, turn at > 60 and < 20

  datatype Grow = Grow(radius: int, direction: int)

  const GROW_START := Grow(30, 1)

  function GrowStep(g: Grow): Grow {
    var r := g.radius + g.direction * 2;
    if r > 60 then Grow(r, -1)
    else if r < 20 then Grow(r, 1)
    else Grow(r, g.direction)
  }

  /** The states reachable from 30 going up: the radius never leaves [18, 62]. */
  ghost predicate GrowInv(g: Grow) {
    && 18 <= g.radius <= 62
    && ((g.direction == 1 && g.radius <= 60) || (g.direction == -1 && g.radius >= 20))
  }

  /** One frame keeps the invariant and moves the radius by exactly 2. */
  lemma GrowStepKeeps(g: Grow)
    requires GrowInv(g)
    ensures GrowInv(GrowStep(g))
    ensures GrowStep(g).radius == g.radius + 2 || GrowStep(g).radius == g.radius - 2
  {
  }

  function GrowFrames(g: Grow, n: nat): Grow
    decreases n
  {
    if n == 0 then g else GrowFrames(GrowStep(g), n - 1)
  }

  /** From the initial 30/up state the radius stays within [18, 62] forever. */
  lemma {:induction false} GrowBounded(g: Grow, n: nat)
    requires GrowInv(g)
    ensures GrowInv(GrowFrames(g, n))
    ensures 18 <= GrowFrames(g, n).radius <= 62
    decreases n
  {
    if n > 0 {
      GrowStepKeeps(g);
      GrowBounded(GrowStep(g), n - 1);
    }
  }

  lemma GrowStartBounded(n: nat)
    ensures 18 <= GrowFrames(GROW_START, n).radius <= 62
  {
    GrowBounded(GROW_START, n);
  }

  // ---------------------------------------------------------------------
  // Pulse: a boolean direction, +2 while growing, turn at > 60 and < 30

  datatype Pulse = Pulse(radius: int, grow: bool)

  const PULSE_START := Pulse(40, true)

  function PulseStep(p: Pulse): Pulse {
    if p.grow then
      var r := p.radius + 2;
      Pulse(r, !(r > 60))
    else
      var r := p.radius - 2;
      Pulse(r, r < 30)
  }

  ghost predicate PulseInv(p: Pulse) {
    && 28 <= p.radius <= 62
    && (p.grow ==> p.radius <= 60)
    && (!p.grow ==> p.radius >= 30)
  }

  lemma PulseStepKeeps(p: Pulse)
    requires PulseInv(p)
    ensures PulseInv(PulseStep(p))
    ensures PulseStep(p).radius == p.radius + (if p.grow then 2 else -2)
  {
  }

  function PulseFrames(p: Pulse, n: nat): Pulse
    decreases n
  {
    if n == 0 then p else PulseFrames(PulseStep(p), n - 1)
  }

  /** From the initial 40/growing state the radius stays within [28, 62]. */
  lemma {:induction false} PulseBounded(p: Pulse, n: nat)
    requires PulseInv(p)
    ensures PulseInv(PulseFrames(p, n))
    ensures 28 <= PulseFrames(p, n).radius <= 62
    decreases n
  {
    if n > 0 {
      PulseStepKeeps(p);
      PulseBounded(PulseStep(p), n - 1);
    }
  }

  lemma PulseStartBounded(n: nat)
    ensures 28 <= PulseFrames(PULSE_START, n).radius <= 62
  {
    PulseBounded(PULSE_START, n);
  }

  // ---------------------------------------------------------------------
  // Fading effects: each drawn frame grows the radius and spends one unit of
  // lifetime; the effect is deleted once the lifetime is <= 0.

  datatype Fading = Fading(radius: int, lifetime: int)

  /** One drawn frame; `growth` is 3 for click rings and 0 for the wheel label. */
  function Fade(e: Fading, growth: int): Option<Fading> {
    var next := Fading(e.radius + growth, e.lifetime - 1);
    if next.lifetime <= 0 then None else Some(next)
  }

  function FadeFrames(e: Fading, growth: int, n: nat): Option<Fading>
    decreases n
  {
    if n == 0 then Some(e)
    else match Fade(e, growth)
      case None => None
      case Some(next) => FadeFrames(next, growth, n - 1)
  }

  /**
   * An effect created with lifetime `L >= 1` survives exactly `L - 1`
   * frames (so it is drawn `L` times), its radius growing by `growth` per
   * frame, and is gone after the `L`-th frame.
   */
  lemma {:induction false} FadeLifetime(e: Fading, growth: int, n: nat)
    requires 1 <= e.lifetime
    ensures n < e.lifetime ==> FadeFrames(e, growth, n) == Some(Fading(e.radius + growth * n, e.lifetime - n))
    ensures n >= e.lifetime ==> FadeFrames(e, growth, n) == None
    decreases n
  {
    if n > 0 {
      if e.lifetime == 1 {
        assert Fade(e, growth) == None;
      } else {
        var next := Fading(e.radius + growth, e.lifetime - 1);
        assert Fade(e, growth) == Some(next);
        FadeLifetime(next, growth, n - 1);
        assert e.radius + growth + growth * (n - 1) == e.radius + growth * n;
      }
    }
  }
}
