/** Velocity, acceleration and time-to-live integration shared by game objects. */
module Updatables {
  import opened Wrappers
  import opened Vectors

  /** `ttl`: a number of remaining updates, `Infinity` by default. */
  datatype Ttl = Infinity | Count(n: real)

  predicate Positive(t: Ttl)
  {
    t.Infinity? || t.n > 0.0
  }

  /** `ttl--`; `Infinity - 1` is still `Infinity`. */
  function Decrement(t: Ttl): Ttl
  {
    match t
    case Infinity => Infinity
    case Count(n) => Count(n - 1.0)
  }

  /** The state `advance` updates. */
  datatype Motion = Motion(position: Vec2, velocity: Vec2, acceleration: Vec2, ttl: Ttl)

  /** A fresh object: everything at zero and an infinite time to live. */
  const Initial := Motion(Zero, Zero, Zero, Infinity)

  /**
   * The time step applies when `dt` is given and non-zero (JavaScript's `if (dt)`);
   * otherwise whole vectors are added.
   */
  function Scaled(v: Vec2, dt: Option<real>): Vec2
  {
    if dt.Some? && dt.value != 0.0 then Times(v, dt.value) else v
  }

  /**
   * `advance(dt)`: the velocity gains the (scaled) acceleration, then the
   * position gains the (scaled) new velocity, then `ttl` goes down by one.
   */
  function Step(m: Motion, dt: Option<real>): (r: Motion)
    ensures r.acceleration == m.acceleration
    ensures r.ttl == Decrement(m.ttl)
  {
    var velocity := Plus(m.velocity, Scaled(m.acceleration, dt));
    Motion(Plus(m.position, Scaled(velocity, dt)), velocity, m.acceleration, Decrement(m.ttl))
  }

  /** With a time step the update is semi-implicit Euler: p + v dt + a dt^2, v + a dt. */
  lemma StepWithTimeStep(m: Motion, dt: real)
    requires dt != 0.0
    ensures Step(m, Some(dt)).velocity == Plus(m.velocity, Times(m.acceleration, dt))
    ensures Step(m, Some(dt)).position ==
            Plus(Plus(m.position, Times(m.velocity, dt)), Times(m.acceleration, dt * dt))
  {
    var a, v, p := m.acceleration, m.velocity, m.position;
    assert (v.x + a.x * dt) * dt == v.x * dt + a.x * (dt * dt);
    assert (v.y + a.y * dt) * dt == v.y * dt + a.y * (dt * dt);
  }

  /** `n` updates without a time step. */
  function AdvanceTimes(m: Motion, n: nat): Motion
  {
    if n == 0 then m else Step(AdvanceTimes(m, n - 1), None)
  }

  /** 0 + 1 + ... + n. */
  function Triangle(n: nat): nat
  {
    if n == 0 then 0 else Triangle(n - 1) + n
  }

  /** Under constant acceleration and no time step, after `n` updates the velocity is v + n a. */
  lemma {:induction false} VelocityAfterUpdates(m: Motion, n: nat)
    ensures AdvanceTimes(m, n).acceleration == m.acceleration
    ensures AdvanceTimes(m, n).velocity == Plus(m.velocity, Times(m.acceleration, n as real))
  {
    if n > 0 {
      VelocityAfterUpdates(m, n - 1);
      var k := (n - 1) as real;
      Distributes(m.acceleration.x, k, 1.0);
      Distributes(m.acceleration.y, k, 1.0);
    }
  }

  /** ... and the position is p + n v + (1 + ... + n) a. */
  lemma {:induction false} PositionAfterUpdates(m: Motion, n: nat)
    ensures AdvanceTimes(m, n).position ==
            Plus(Plus(m.position, Times(m.velocity, n as real)), Times(m.acceleration, Triangle(n) as real))
  {
    if n > 0 {
      PositionAfterUpdates(m, n - 1);
      VelocityAfterUpdates(m, n);
      var prev := AdvanceTimes(m, n - 1);
      var vel := AdvanceTimes(m, n).velocity;
      assert AdvanceTimes(m, n).position == Plus(prev.position, vel);
      var a, v, p := m.acceleration, m.velocity, m.position;
      assert prev.position == Plus(Plus(p, Times(v, (n - 1) as real)), Times(a, Triangle(n - 1) as real));
      assert vel == Plus(v, Times(a, n as real));
      StepSum(p, v, a, n);
    }
  }

  /** One update's position step: (p + (n - 1) v + T(n - 1) a) + (v + n a) == p + n v + T(n) a. */
  lemma StepSum(p: Vec2, v: Vec2, a: Vec2, n: nat)
    requires n > 0
    ensures Plus(Plus(Plus(p, Times(v, (n - 1) as real)), Times(a, Triangle(n - 1) as real)), Plus(v, Times(a, n as real))) ==
            Plus(Plus(p, Times(v, n as real)), Times(a, Triangle(n) as real))
  {
    var k, t := (n - 1) as real, Triangle(n - 1) as real;
    assert n as real == k + 1.0 && Triangle(n) as real == t + n as real;
    Distributes(v.x, k, 1.0);
    Distributes(v.y, k, 1.0);
    Distributes(a.x, t, n as real);
    Distributes(a.y, t, n as real);
  }

  lemma Distributes(c: real, u: real, w: real)
    ensures c * u + c * w == c * (u + w)
  {
  }

  /** An object with a finite ttl stays alive for exactly the updates that keep it above zero. */
  lemma {:induction false} AliveAfterUpdates(m: Motion, n: nat)
    requires m.ttl.Count?
    ensures AdvanceTimes(m, n).ttl == Count(m.ttl.n - n as real)
    ensures Positive(AdvanceTimes(m, n).ttl) <==> m.ttl.n > n as real
  {
    if n > 0 {
      AliveAfterUpdates(m, n - 1);
    }
  }

  /** Without a time step: velocity (5,10) plus acceleration (15,20); position (5,10) plus velocity (15,20). */
  lemma AdvanceWithoutTimeStepExamples()
    ensures Step(Motion(Zero, Vec2(5.0, 10.0), Vec2(15.0, 20.0), Infinity), None).velocity == Vec2(20.0, 30.0)
    ensures Step(Motion(Vec2(5.0, 10.0), Vec2(15.0, 20.0), Zero, Infinity), None).position == Vec2(20.0, 30.0)
    ensures Step(Initial.(ttl := Count(10.0)), None).ttl == Count(9.0)
  {
  }

  /** A time step of 0.5 halves the added acceleration and velocity. */
  lemma AdvanceWithTimeStepExamples()
    ensures Step(Motion(Zero, Vec2(5.0, 10.0), Vec2(10.0, 20.0), Infinity), Some(0.5)).velocity == Vec2(10.0, 20.0)
    ensures Step(Motion(Vec2(5.0, 10.0), Vec2(10.0, 20.0), Zero, Infinity), Some(0.5)).position == Vec2(10.0, 20.0)
  {
    assert Scaled(Vec2(10.0, 20.0), Some(0.5)) == Vec2(5.0, 10.0);
    assert Scaled(Zero, Some(0.5)) == Zero;
  }

  /**
   * An updatable object. `dx`/`dy` read and write the velocity components,
   * `ddx`/`ddy` the acceleration components.
   */
  class Updatable {
    var position: Vec2
    var velocity: Vec2
    var acceleration: Vec2
    var ttl: Ttl

    function State(): Motion
      reads this
    {
      Motion(position, velocity, acceleration, ttl)
    }

    /** `new Updatable({dx, dy, ddx, ddy, ttl})`: zero position, the given rates, and the given ttl or an infinite one. */
    constructor (dx: real, dy: real, ddx: real, ddy: real, ttl: Option<real>)
      ensures State() == Initial.(velocity := Vec2(dx, dy), acceleration := Vec2(ddx, ddy),
                                  ttl := if ttl.Some? then Count(ttl.value) else Infinity)
    {
      position, velocity, acceleration := Zero, Vec2(dx, dy), Vec2(ddx, ddy);
      this.ttl := if ttl.Some? then Count(ttl.value) else Infinity;
    }

    function Dx(): real reads this { velocity.x }
    function Dy(): real reads this { velocity.y }
    function Ddx(): real reads this { acceleration.x }
    function Ddy(): real reads this { acceleration.y }

    method SetDx(v: real)
      modifies this`velocity
      ensures velocity == Vec2(v, old(velocity.y))
    {
      velocity := velocity.(x := v);
    }

    method SetDy(v: real)
      modifies this`velocity
      ensures velocity == Vec2(old(velocity.x), v)
    {
      velocity := velocity.(y := v);
    }

    method SetDdx(v: real)
      modifies this`acceleration
      ensures acceleration == Vec2(v, old(acceleration.y))
    {
      acceleration := acceleration.(x := v);
    }

    method SetDdy(v: real)
      modifies this`acceleration
      ensures acceleration == Vec2(old(acceleration.x), v)
    {
      acceleration := acceleration.(y := v);
    }

    /** `isAlive()`: exactly when ttl is above zero. */
    predicate IsAlive()
      reads this
    {
      Positive(ttl)
    }

    /** `advance(dt)`. */
    method Advance(dt: Option<real>)
      modifies this
      ensures State() == Step(old(State()), dt)
    {
      velocity := Plus(velocity, Scaled(acceleration, dt));
      position := Plus(position, Scaled(velocity, dt));
      ttl := Decrement(ttl);
    }

    /** `update(dt)`: the default update is `advance(dt)`. */
    method Update(dt: Option<real>)
      modifies this
      ensures State() == Step(old(State()), dt)
    {
      Advance(dt);
    }
  }
}
