/**
 * The particle background: a field of particles spawned from random draws, and the
 * per-frame step that applies the market trend to the vertical velocity, lets the
 * pointer push particles away, caps the speed, moves them and bounces them off the
 * walls of the canvas.
 */
module Particles {
  import opened Wrappers
  import opened JsText

  datatype Trend = Up | Down | Neutral

  /** A velocity or an offset. */
  datatype Vec = Vec(x: real, y: real)

  datatype Particle = Particle(
    x: real, y: real,
    vx: real, vy: real,
    size: real,
    color: string,
    originalY: real,
    originalVY: real)

  /** The component's props that shape the particles. */
  datatype Config = Config(
    count: nat,
    baseColor: string,
    sizeMin: real, sizeMax: real,
    speed: real,
    trend: Trend,
    interactionRadius: real,
    repelStrength: real,
    trendStrength: real)

  const DefaultConfig: Config := Config(100, "rgba(200, 200, 200, 0.6)", 1.0, 3.0, 0.5, Neutral, 100.0, 0.5, 0.1)

  /** `mousePositionRef`: the pointer relative to the canvas, or absent. */
  datatype Pointer = Pointer(x: Option<real>, y: Option<real>)

  const NoPointer: Pointer := Pointer(None, None)

  /**
   * The random numbers one particle is made from: the draws for size, position and
   * speed factor in [0, 1), and the cosine and sine of its random direction.
   */
  datatype Draw = Draw(size: real, x: real, y: real, cos: real, sin: real, speed: real)

  predicate UnitDraw(d: Draw)
  {
    0.0 <= d.size < 1.0 && 0.0 <= d.x < 1.0 && 0.0 <= d.y < 1.0 && 0.0 <= d.speed < 1.0
  }

  // ---------------------------------------------------------------------------
  // Spawning
  // ---------------------------------------------------------------------------

  /** One iteration of `initParticles`' loop on a canvas of the given size. */
  function Spawn(d: Draw, cfg: Config, width: real, height: real): Particle
  {
    var size := Between(d.size, cfg.sizeMin, cfg.sizeMax);
    var x := Times(d.x, width);
    var y := Times(d.y, height);
    var speedFactor := (d.speed * 0.5 + 0.5) * cfg.speed;
    var vy := d.sin * speedFactor;
    Particle(x, y, d.cos * speedFactor, vy, size, cfg.baseColor, y, vy)
  }

  /** `random * (hi - lo) + lo`: a draw in [0, 1) stretched onto [lo, hi). */
  function Between(t: real, lo: real, hi: real): real
  {
    Times(t, hi - lo) + lo
  }

  /** The particles `initParticles` makes, one per draw, in order. */
  function Spawned(draws: seq<Draw>, cfg: Config, width: real, height: real): (r: seq<Particle>)
    ensures |r| == |draws|
  {
    seq(|draws|, i requires 0 <= i < |draws| => Spawn(draws[i], cfg, width, height))
  }

  /** A fresh particle has the configured color and remembers its starting height and vertical velocity. */
  lemma SpawnRecords(d: Draw, cfg: Config, width: real, height: real)
    ensures var p := Spawn(d, cfg, width, height);
      p.color == cfg.baseColor && p.originalY == p.y && p.originalVY == p.vy
  {
  }

  /** With draws in [0, 1) the size lies in [sizeMin, sizeMax). */
  lemma SpawnSize(d: Draw, cfg: Config, width: real, height: real)
    requires UnitDraw(d) && cfg.sizeMin < cfg.sizeMax
    ensures cfg.sizeMin <= Spawn(d, cfg, width, height).size < cfg.sizeMax
  {
    BetweenBounds(d.size, cfg.sizeMin, cfg.sizeMax);
    assert Spawn(d, cfg, width, height).size == Between(d.size, cfg.sizeMin, cfg.sizeMax);
  }

  /** With draws in [0, 1) a particle starts on the canvas: `0 <= x < width`, `0 <= y < height`. */
  lemma SpawnOnCanvas(d: Draw, cfg: Config, width: real, height: real)
    requires UnitDraw(d) && width > 0.0 && height > 0.0
    ensures var p := Spawn(d, cfg, width, height);
      0.0 <= p.x < width && 0.0 <= p.y < height
  {
    BelowUnit(d.x, width);
    BelowUnit(d.y, height);
    var p := Spawn(d, cfg, width, height);
    assert p.x == Times(d.x, width) && p.y == Times(d.y, height);
  }

  /** A draw in [0, 1) lands in [lo, hi). */
  lemma BetweenBounds(t: real, lo: real, hi: real)
    requires 0.0 <= t < 1.0 && lo < hi
    ensures lo <= Between(t, lo, hi) < hi
  {
    BelowUnit(t, hi - lo);
  }

  /** A fraction in [0, 1) of a positive span lies in [0, span). */
  lemma BelowUnit(t: real, span: real)
    requires 0.0 <= t < 1.0 && span > 0.0
    ensures 0.0 <= Times(t, span) < span
  {
    assert span - Times(t, span) == (1.0 - t) * span;
  }

  /** A canvas of zero area still gets every particle, all on the zero-width or zero-height edge. */
  lemma ZeroAreaStillSpawns(draws: seq<Draw>, cfg: Config)
    ensures var ps := Spawned(draws, cfg, 0.0, 0.0);
      |ps| == |draws| && forall i :: 0 <= i < |ps| ==> ps[i].x == 0.0 && ps[i].y == 0.0
  {
  }

  // ---------------------------------------------------------------------------
  // The frame step
  // ---------------------------------------------------------------------------

  /** The trend's vertical velocity: the particle's original one, raised, lowered or kept. */
  function TrendVY(p: Particle, trend: Trend, strength: real): (r: real)
    ensures trend == Up ==> r == p.originalVY - strength
    ensures trend == Down ==> r == p.originalVY + strength
    ensures trend == Neutral ==> r == p.originalVY
  {
    match trend
    case Up => p.originalVY - strength
    case Down => p.originalVY + strength
    case Neutral => p.originalVY
  }

  /** The trend replaces the vertical velocity. */
  function ApplyTrend(p: Particle, cfg: Config): Particle
  {
    p.(vy := TrendVY(p, cfg.trend, cfg.trendStrength))
  }

  /**
   * The pointer's push: when both coordinates are known, the velocity gains `kick` of the
   * offset from the pointer to the particle. `kick` stands for the distance test and the
   * force of the repulsion.
   */
  function Repel(p: Particle, mouse: Pointer, kick: Vec -> Vec): Particle
  {
    if mouse.x.Some? && mouse.y.Some? then
      var k := kick(Vec(p.x - mouse.x.value, p.y - mouse.y.value));
      p.(vx := p.vx + k.x, vy := p.vy + k.y)
    else p
  }

  /** The speed cap, given as the velocity it leaves. */
  function Cap(p: Particle, cap: Vec -> Vec): Particle
  {
    var v := cap(Vec(p.vx, p.vy));
    p.(vx := v.x, vy := v.y)
  }

  function Move(p: Particle): Particle
  {
    p.(x := p.x + p.vx, y := p.y + p.vy)
  }

  function Max(a: real, b: real): real { if a >= b then a else b }
  function Min(a: real, b: real): real { if a <= b then a else b }

  /** The position and velocity of a particle along one axis. */
  datatype Axis = Axis(pos: real, vel: real)

  /** An edge is past a wall: `pos - size < 0` or `pos + size > limit`. */
  predicate Crossing(a: Axis, size: real, limit: real)
  {
    a.pos - size < 0.0 || a.pos + size > limit
  }

  /** The wall collision on one axis: turn back and clamp into `[size, limit - size]`. */
  function Reflect(a: Axis, size: real, limit: real): Axis
  {
    if Crossing(a, size, limit) then Axis(Max(size, Min(a.pos, limit - size)), -a.vel)
    else a
  }

  function Bounce(p: Particle, width: real, height: real): Particle
  {
    var ax := Reflect(Axis(p.x, p.vx), p.size, width);
    var ay := Reflect(Axis(p.y, p.vy), p.size, height);
    p.(x := ax.pos, vx := ax.vel, y := ay.pos, vy := ay.vel)
  }

  /** One particle's update in `animate`, in the order the frame applies them. */
  function Step(p: Particle, cfg: Config, mouse: Pointer, width: real, height: real,
                kick: Vec -> Vec, cap: Vec -> Vec): Particle
  {
    Bounce(Move(Cap(Repel(ApplyTrend(p, cfg), mouse, kick), cap)), width, height)
  }

  /** Every particle stepped, each on its own. */
  function StepAll(ps: seq<Particle>, cfg: Config, mouse: Pointer, width: real, height: real,
                   kick: Vec -> Vec, cap: Vec -> Vec): (r: seq<Particle>)
    ensures |r| == |ps|
  {
    seq(|ps|, i requires 0 <= i < |ps| => Step(ps[i], cfg, mouse, width, height, kick, cap))
  }

  /** A wall hit turns the velocity back and clamps the position; otherwise nothing changes. */
  lemma ReflectRule(a: Axis, size: real, limit: real)
    ensures var r := Reflect(a, size, limit);
      if Crossing(a, size, limit) then r.vel == -a.vel && r.pos == Max(size, Min(a.pos, limit - size))
      else r == a
  {
  }

  /**
   * After a reflection the edge is never past the low wall, and it is inside the high one
   * whenever the particle fits.
   */
  lemma ReflectBounds(a: Axis, size: real, limit: real)
    ensures Reflect(a, size, limit).pos >= size
    ensures limit >= 2.0 * size ==> Reflect(a, size, limit).pos <= limit - size
  {
  }

  /** A particle that fits is left where a reflection put it by a second reflection. */
  lemma ReflectSettles(a: Axis, size: real, limit: real)
    requires limit >= 2.0 * size
    ensures !Crossing(Reflect(a, size, limit), size, limit)
    ensures Reflect(Reflect(a, size, limit), size, limit) == Reflect(a, size, limit)
  {
    ReflectBounds(a, size, limit);
  }

  /** After a step, `x >= size` and `y >= size`; on a canvas the particle fits, it is fully inside. */
  lemma StepBounds(p: Particle, cfg: Config, mouse: Pointer, width: real, height: real,
                   kick: Vec -> Vec, cap: Vec -> Vec)
    ensures var q := Step(p, cfg, mouse, width, height, kick, cap);
      q.x >= q.size && q.y >= q.size
      && (width >= 2.0 * q.size ==> q.x <= width - q.size)
      && (height >= 2.0 * q.size ==> q.y <= height - q.size)
  {
    var m := Move(Cap(Repel(ApplyTrend(p, cfg), mouse, kick), cap));
    ReflectBounds(Axis(m.x, m.vx), m.size, width);
    ReflectBounds(Axis(m.y, m.vy), m.size, height);
  }

  /** A step keeps what the frame never writes: size, color, original height and vertical velocity. */
  lemma StepKeeps(p: Particle, cfg: Config, mouse: Pointer, width: real, height: real,
                  kick: Vec -> Vec, cap: Vec -> Vec)
    ensures var q := Step(p, cfg, mouse, width, height, kick, cap);
      q.size == p.size && q.color == p.color && q.originalY == p.originalY
      && q.originalVY == p.originalVY
  {
  }

  /**
   * The trend overrides rather than accumulates: the step does not depend on the vertical
   * velocity it starts from, and the next frame's trend velocity is this frame's.
   */
  lemma TrendOverrides(p: Particle, vy: real, cfg: Config, mouse: Pointer, width: real, height: real,
                       kick: Vec -> Vec, cap: Vec -> Vec)
    ensures Step(p.(vy := vy), cfg, mouse, width, height, kick, cap) == Step(p, cfg, mouse, width, height, kick, cap)
    ensures TrendVY(Step(p, cfg, mouse, width, height, kick, cap), cfg.trend, cfg.trendStrength)
         == TrendVY(p, cfg.trend, cfg.trendStrength)
  {
    StepKeeps(p, cfg, mouse, width, height, kick, cap);
    assert ApplyTrend(p.(vy := vy), cfg) == ApplyTrend(p, cfg);
  }

  /** Without both pointer coordinates there is no repulsion. */
  lemma NoPointerNoRepulsion(p: Particle, mouse: Pointer, kick: Vec -> Vec)
    requires mouse.x.None? || mouse.y.None?
    ensures Repel(p, mouse, kick) == p
  {
  }

  /** Without a pointer the step is trend, cap, move and bounce alone. */
  lemma StepWithoutPointer(p: Particle, cfg: Config, width: real, height: real,
                           kick: Vec -> Vec, cap: Vec -> Vec)
    ensures Step(p, cfg, NoPointer, width, height, kick, cap)
         == Bounce(Move(Cap(ApplyTrend(p, cfg), cap)), width, height)
  {
    NoPointerNoRepulsion(ApplyTrend(p, cfg), NoPointer, kick);
  }

  /** Stepping a whole field keeps the particle count and steps each particle on its own. */
  lemma StepAllPointwise(ps: seq<Particle>, cfg: Config, mouse: Pointer, width: real, height: real,
                         kick: Vec -> Vec, cap: Vec -> Vec, i: nat)
    requires i < |ps|
    ensures |StepAll(ps, cfg, mouse, width, height, kick, cap)| == |ps|
    ensures StepAll(ps, cfg, mouse, width, height, kick, cap)[i] == Step(ps[i], cfg, mouse, width, height, kick, cap)
  {
  }

  /** The animation starts only when both sides of the `dimensions` state are positive. */
  predicate StartsAnimation(width: real, height: real)
  {
    width > 0.0 && height > 0.0
  }

  const CanvasSizeModulus: int := 0x1_0000_0000

  /**
   * A length stored in the canvas's `width` or `height` attribute, an unsigned 32-bit
   * integer: the length truncated toward zero, then reduced modulo 2^32.
   */
  function CanvasDimension(length: real): (r: nat)
    ensures r < CanvasSizeModulus
  {
    var whole := if length >= 0.0 then length.Floor else -((-length).Floor);
    whole % CanvasSizeModulus
  }

  /** A bounding-rect length in range keeps its whole pixels and loses only its fraction. */
  lemma CanvasDimensionDropsFraction(length: real)
    requires 0.0 <= length < CanvasSizeModulus as real
    ensures CanvasDimension(length) == length.Floor
    ensures CanvasDimension(length) as real <= length < CanvasDimension(length) as real + 1.0
  {
    assert 0 <= length.Floor < CanvasSizeModulus;
  }

  /** A fractional rect of 300.5 by 200.5 gives a 300 by 200 canvas. */
  lemma FractionalRectExample()
    ensures CanvasDimension(300.5) == 300 && CanvasDimension(200.5) == 200
  {
    CanvasDimensionDropsFraction(300.5);
    CanvasDimensionDropsFraction(200.5);
  }

  // ---------------------------------------------------------------------------
  // The component's state
  // ---------------------------------------------------------------------------

  /**
   * The canvas and its whole-pixel size, the `dimensions` state that keeps the bounding
   * rect's exact size, the latched pointer and `particlesRef.current`, which the frame
   * updates in place and a resize replaces.
   */
  class ParticleField {
    var hasCanvas: bool
    var width: real
    var height: real
    var rectWidth: real
    var rectHeight: real
    var mouse: Pointer
    var particles: array<Particle>

    /** Mounted with or without a canvas; no size, no particles and no pointer yet. */
    constructor (hasCanvas: bool)
      ensures this.hasCanvas == hasCanvas && width == 0.0 && height == 0.0
      ensures rectWidth == 0.0 && rectHeight == 0.0
      ensures mouse == NoPointer && particles.Length == 0
    {
      this.hasCanvas := hasCanvas;
      width, height := 0.0, 0.0;
      rectWidth, rectHeight := 0.0, 0.0;
      mouse := NoPointer;
      particles := new Particle[0];
    }

    /** The animation effect starts a loop: both sides of `dimensions` are positive. */
    predicate Animating()
      reads this
    {
      StartsAnimation(rectWidth, rectHeight)
    }

    /** `initParticles`: without a canvas nothing happens; otherwise one fresh particle per draw. */
    method InitParticles(cfg: Config, draws: seq<Draw>)
      requires |draws| == cfg.count
      modifies this
      ensures hasCanvas == old(hasCanvas) && width == old(width) && height == old(height)
      ensures rectWidth == old(rectWidth) && rectHeight == old(rectHeight)
      ensures mouse == old(mouse)
      ensures !hasCanvas ==> particles == old(particles)
      ensures hasCanvas ==> fresh(particles) && particles[..] == Spawned(draws, cfg, width, height)
    {
      if !hasCanvas {
        return;
      }
      var spawned := new Particle[cfg.count];
      for i := 0 to cfg.count
        modifies spawned
        invariant forall j :: 0 <= j < i ==> spawned[j] == Spawn(draws[j], cfg, width, height)
      {
        spawned[i] := Spawn(draws[i], cfg, width, height);
      }
      particles := spawned;
    }

    /**
     * `updateDimensions`: the canvas takes the bounding rect's size as whole pixels,
     * `dimensions` keeps the exact size, and a new field is spawned on the canvas.
     */
    method Resize(newWidth: real, newHeight: real, cfg: Config, draws: seq<Draw>)
      requires hasCanvas && |draws| == cfg.count
      modifies this
      ensures hasCanvas && mouse == old(mouse)
      ensures width == CanvasDimension(newWidth) as real && height == CanvasDimension(newHeight) as real
      ensures rectWidth == newWidth && rectHeight == newHeight
      ensures fresh(particles) && particles[..] == Spawned(draws, cfg, width, height)
    {
      width, height := CanvasDimension(newWidth) as real, CanvasDimension(newHeight) as real;
      rectWidth, rectHeight := newWidth, newHeight;
      InitParticles(cfg, draws);
    }

    /** `handleMouseMove`: latch the pointer relative to the canvas's top-left corner. */
    method MouseMove(clientX: real, clientY: real, left: real, top: real)
      modifies this`mouse
      ensures hasCanvas ==> mouse == Pointer(Some(clientX - left), Some(clientY - top))
      ensures !hasCanvas ==> mouse == old(mouse)
    {
      if hasCanvas {
        mouse := Pointer(Some(clientX - left), Some(clientY - top));
      }
    }

    /** `handleMouseLeave`: the pointer is gone. */
    method MouseLeave()
      modifies this`mouse
      ensures mouse == NoPointer
    {
      mouse := NoPointer;
    }

    /** One frame of `animate`: every particle stepped in place. */
    method Animate(cfg: Config, kick: Vec -> Vec, cap: Vec -> Vec)
      modifies particles
      ensures particles[..] == StepAll(old(particles[..]), cfg, mouse, width, height, kick, cap)
    {
      var n := particles.Length;
      for i := 0 to n
        invariant forall j :: 0 <= j < i ==> particles[j] == Step(old(particles[j]), cfg, mouse, width, height, kick, cap)
        invariant forall j :: i <= j < n ==> particles[j] == old(particles[j])
      {
        particles[i] := Step(particles[i], cfg, mouse, width, height, kick, cap);
      }
    }
  }
}
