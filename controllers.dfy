/** The per-tick controllers farancanvas schedules for every entity:
    `RigidbodyController` (velocity and acceleration integration),
    `AnimationController` (frame cycling) and `SpriteCollisionDetector`
    (tag-dispatched box overlap), plus the immediate effect of `push`.
    The tick rate `fps` is a parameter. */
module Controllers {

  import opened Wrappers
  import opened Vectors
  import opened World

  // ---------------------------------------------------------------------------
  // Rigidbody integration

  /** The part of an entity the rigidbody controller reads and writes. */
  datatype Motion = Motion(position: Vector3, velocity: Vector3, acceleration: Vector3)

  function MotionOf(d: Drawable): Motion
    reads d
  {
    Motion(d.position, d.velocity, d.acceleration)
  }

  /** `v` with every axis divided by `k`. */
  function Div(v: Vector3, k: real): Vector3
    requires k != 0.0
  {
    Vector3(v.x / k, v.y / k, v.z / k)
  }

  /** One tick: the position moves by the old velocity over `fps`, then the
      velocity moves by the acceleration over `fps`. */
  function Step(m: Motion, fps: real): (r: Motion)
    requires fps > 0.0
    ensures r.acceleration == m.acceleration
    ensures forall a :: Get(r.position, a) == Get(m.position, a) + Get(m.velocity, a) / fps
    ensures forall a :: Get(r.velocity, a) == Get(m.velocity, a) + Get(m.acceleration, a) / fps
  {
    Motion(Plus(m.position, Div(m.velocity, fps)), Plus(m.velocity, Div(m.acceleration, fps)), m.acceleration)
  }

  /** `n` ticks in a row. */
  function Steps(m: Motion, fps: real, n: nat): Motion
    requires fps > 0.0
  {
    if n == 0 then m else Step(Steps(m, fps, n - 1), fps)
  }

  /** `RigidbodyController(rigid)`: the loop over "x", "y", "z" that updates
      each axis of the position and then of the velocity. The `rigidbody` flag
      is not consulted. */
  method RigidbodyController(rigid: Drawable, fps: real)
    requires fps > 0.0
    modifies rigid`position, rigid`velocity
    ensures MotionOf(rigid) == Step(old(MotionOf(rigid)), fps)
  {
    var k := 0;
    while k < 3
      invariant 0 <= k <= 3
      invariant forall j :: 0 <= j < k ==>
        && Get(rigid.position, Axes[j]) == Get(old(rigid.position), Axes[j]) + Get(old(rigid.velocity), Axes[j]) / fps
        && Get(rigid.velocity, Axes[j]) == Get(old(rigid.velocity), Axes[j]) + Get(rigid.acceleration, Axes[j]) / fps
      invariant forall j :: k <= j < 3 ==>
        && Get(rigid.position, Axes[j]) == Get(old(rigid.position), Axes[j])
        && Get(rigid.velocity, Axes[j]) == Get(old(rigid.velocity), Axes[j])
    {
      var axis := Axes[k];
      rigid.position := With(rigid.position, axis, Get(rigid.position, axis) + Get(rigid.velocity, axis) / fps);
      rigid.velocity := With(rigid.velocity, axis, Get(rigid.velocity, axis) + Get(rigid.acceleration, axis) / fps);
      k := k + 1;
    }
    var after := Step(old(MotionOf(rigid)), fps);
    assert Axes[0] == X && Axes[1] == Y && Axes[2] == Z;
    AxesDetermine(rigid.position, after.position);
    AxesDetermine(rigid.velocity, after.velocity);
  }

  /** Closed form of the integration on one axis: after `n` ticks the velocity
      has grown by `n` times `a / fps` and the position by `n` times `v / fps`
      plus `n (n - 1) / 2` times `a / fps / fps`; the acceleration is untouched. */
  lemma {:induction false} StepsClosedForm(m: Motion, fps: real, n: nat, axis: Axis)
    requires fps > 0.0
    ensures var p, v, a := Get(m.position, axis), Get(m.velocity, axis), Get(m.acceleration, axis);
            var r := Steps(m, fps, n);
            && r.acceleration == m.acceleration
            && Get(r.velocity, axis) == VelocityAfter(v, a, fps, n)
            && Get(r.position, axis) == PositionAfter(p, v, a, fps, n)
  {
    if n > 0 {
      StepsClosedForm(m, fps, n - 1, axis);
      var prev := Steps(m, fps, n - 1);
      assert Steps(m, fps, n) == Step(prev, fps);
      ClosedFormStep(Get(m.position, axis), Get(m.velocity, axis), Get(m.acceleration, axis), fps,
                     n - 1, Get(prev.position, axis), Get(prev.velocity, axis));
    }
  }

  /** The velocity on one axis after `n` ticks from `v` under acceleration `a`. */
  function VelocityAfter(v: real, a: real, fps: real, n: nat): real
    requires fps > 0.0
  {
    v + (n as real) * (a / fps)
  }

  /** The position on one axis after `n` ticks from `p` with velocity `v` and
      acceleration `a`. */
  function PositionAfter(p: real, v: real, a: real, fps: real, n: nat): real
    requires fps > 0.0
  {
    p + (n as real) * (v / fps) + Triangle(n) * (a / fps / fps)
  }

  /** The arithmetic of the inductive step of `StepsClosedForm`, for the axis
      values `pos` and `vel` after `k` ticks. */
  lemma ClosedFormStep(p: real, v: real, a: real, fps: real, k: nat, pos: real, vel: real)
    requires fps > 0.0
    requires vel == VelocityAfter(v, a, fps, k)
    requires pos == PositionAfter(p, v, a, fps, k)
    ensures vel + a / fps == VelocityAfter(v, a, fps, k + 1)
    ensures pos + vel / fps == PositionAfter(p, v, a, fps, k + 1)
  {
    var kr := k as real;
    var da := a / fps;
    var perTick, drift := v / fps, da / fps;
    assert ((k + 1) as real) == kr + 1.0;
    Distribute(kr, 1.0, da);
    DivAdd(v, kr * da, fps);
    DivMul(kr, da, fps);
    assert vel / fps == perTick + kr * drift;
    Distribute(kr, 1.0, perTick);
    Distribute(Triangle(k), kr, drift);
    assert Triangle(k + 1) == Triangle(k) + kr;
  }

  /** `0 + 1 + ... + (n - 1)`: how many times the per-tick acceleration
      increment has reached the position after `n` ticks. */
  function Triangle(n: nat): real
  {
    if n == 0 then 0.0 else Triangle(n - 1) + (n - 1) as real
  }

  /** The triangular number is `n (n - 1) / 2`. */
  lemma {:induction false} TriangleFormula(n: nat)
    ensures 2.0 * Triangle(n) == (n * (n - 1)) as real
  {
    if n > 0 {
      TriangleFormula(n - 1);
      assert n * (n - 1) == (n - 1) * (n - 2) + 2 * (n - 1);
    }
  }

  lemma DivAdd(x: real, y: real, f: real)
    requires f != 0.0
    ensures (x + y) / f == x / f + y / f
  {
  }

  lemma DivMul(k: real, x: real, f: real)
    requires f != 0.0
    ensures (k * x) / f == k * (x / f)
  {
  }

  lemma Distribute(k: real, c: real, x: real)
    ensures (k + c) * x == k * x + c * x
  {
  }

  /** With no acceleration the velocity never changes and the position moves by
      `velocity / fps` every tick. */
  lemma {:induction false} ConstantVelocity(m: Motion, fps: real, n: nat)
    requires fps > 0.0 && m.acceleration == Origin
    ensures Steps(m, fps, n).velocity == m.velocity && Steps(m, fps, n).acceleration == Origin
    ensures Steps(m, fps, n).position == Plus(m.position, Scale(Div(m.velocity, fps), n as real))
  {
    if n == 0 {
      assert Scale(Div(m.velocity, fps), 0.0) == Origin;
    } else {
      ConstantVelocity(m, fps, n - 1);
      var prev := Steps(m, fps, n - 1);
      var d := Div(m.velocity, fps);
      assert Steps(m, fps, n) == Step(prev, fps);
      assert Div(m.acceleration, fps) == Origin;
      PlusLaws(prev.velocity, Origin);
      ScaleSucc(d, (n - 1) as real);
      assert ((n - 1) as real) + 1.0 == n as real;
    }
  }

  /** Adding one more copy of `d` to `k` copies. */
  lemma ScaleSucc(d: Vector3, k: real)
    ensures Plus(Scale(d, k), d) == Scale(d, k + 1.0)
  {
    Distribute(k, 1.0, d.x);
    Distribute(k, 1.0, d.y);
    Distribute(k, 1.0, d.z);
  }

  /** At 60 ticks per second an entity moving at 60 units per second along x
      advances exactly one unit per tick. */
  lemma SixtyPerSecond(m: Motion, n: nat)
    requires m.velocity == Vector3(60.0, 0.0, 0.0) && m.acceleration == Origin
    ensures Steps(m, 60.0, n).position == Plus(m.position, Vector3(n as real, 0.0, 0.0))
  {
    ConstantVelocity(m, 60.0, n);
    OneUnitPerTick(n as real);
  }

  lemma OneUnitPerTick(k: real)
    ensures Scale(Div(Vector3(60.0, 0.0, 0.0), 60.0), k) == Vector3(k, 0.0, 0.0)
  {
    assert Div(Vector3(60.0, 0.0, 0.0), 60.0) == Vector3(1.0, 0.0, 0.0);
  }

  /** The immediate effect of `push(dis, time)`: every axis of the velocity
      becomes `dis / time`. The zero-velocity resets the source schedules with
      `setTimeout` are not part of this model. */
  method Push(rigid: Drawable, dis: Vector3, time: real)
    requires time != 0.0
    modifies rigid`velocity
    ensures rigid.velocity == Div(dis, time)
  {
    var k := 0;
    while k < 3
      invariant 0 <= k <= 3
      invariant forall j :: 0 <= j < k ==> Get(rigid.velocity, Axes[j]) == Get(dis, Axes[j]) / time
    {
      var axis := Axes[k];
      rigid.velocity := With(rigid.velocity, axis, Get(dis, axis) / time);
      k := k + 1;
    }
    assert Axes[0] == X && Axes[1] == Y && Axes[2] == Z;
    AxesDetermine(rigid.velocity, Div(dis, time));
  }

  /** A push over `time` seconds, integrated for the `time * fps` ticks that
      span it without acceleration, moves the entity by exactly `dis`. */
  lemma PushCoversDistance(m: Motion, dis: Vector3, time: real, fps: real, n: nat)
    requires time > 0.0 && fps > 0.0 && (n as real) == time * fps
    requires m.velocity == Div(dis, time) && m.acceleration == Origin
    ensures Steps(m, fps, n).position == Plus(m.position, dis)
  {
    ConstantVelocity(m, fps, n);
    var nr, tf := n as real, time * fps;
    var u := Div(m.velocity, fps);
    assert u == Vector3(dis.x / time / fps, dis.y / time / fps, dis.z / time / fps);
    assert Scale(u, nr) == Scale(u, tf);
    Cancel(dis.x, time, fps);
    Cancel(dis.y, time, fps);
    Cancel(dis.z, time, fps);
  }

  lemma Cancel(d: real, t: real, f: real)
    requires t != 0.0 && f != 0.0
    ensures d / t / f * (t * f) == d
  {
  }

  // ---------------------------------------------------------------------------
  // Animation

  /** The frame a track shows for counter value `frame`: `track[frame % length]`;
      indexing an empty track gives `undefined`. */
  function FrameAt(track: seq<string>, frame: nat): Option<string>
  {
    if |track| == 0 then None else Some(track[frame % |track|])
  }

  /** A property name the animation loop acts on: non-empty and a key of `animationOn`. */
  predicate Animates(key: string, animationOn: map<string, seq<string>>)
  {
    key != "" && key in animationOn
  }

  /** The counter and image after the loop has visited `keys`: each animating
      key shows its track at the current counter and bumps the counter. */
  function Animate(keys: seq<string>, animationOn: map<string, seq<string>>,
                   frame: nat, image: Option<string>): (nat, Option<string>)
  {
    if |keys| == 0 then (frame, image)
    else
      var (f, img) := Animate(keys[..|keys| - 1], animationOn, frame, image);
      var key := keys[|keys| - 1];
      if Animates(key, animationOn) then (f + 1, FrameAt(animationOn[key], f)) else (f, img)
  }

  /** How many of `keys` animate. */
  function AnimatingCount(keys: seq<string>, animationOn: map<string, seq<string>>): nat
  {
    if |keys| == 0 then 0
    else AnimatingCount(keys[..|keys| - 1], animationOn) + (if Animates(keys[|keys| - 1], animationOn) then 1 else 0)
  }

  /** The counter is shared by all animating keys: one tick advances it by the
      number of them, and with none the image is left alone. */
  lemma {:induction false} AnimateCounter(keys: seq<string>, animationOn: map<string, seq<string>>,
                                          frame: nat, image: Option<string>)
    ensures Animate(keys, animationOn, frame, image).0 == frame + AnimatingCount(keys, animationOn)
    ensures AnimatingCount(keys, animationOn) == 0 ==> Animate(keys, animationOn, frame, image).1 == image
  {
    if |keys| > 0 {
      AnimateCounter(keys[..|keys| - 1], animationOn, frame, image);
    }
  }

  /** With a single animating key the tick shows that key's track at the old
      counter: successive ticks step through the track and wrap around. */
  lemma {:induction false} AnimateSingle(keys: seq<string>, animationOn: map<string, seq<string>>,
                                         frame: nat, image: Option<string>, k: nat)
    requires k < |keys| && Animates(keys[k], animationOn)
    requires forall j :: 0 <= j < |keys| && j != k ==> !Animates(keys[j], animationOn)
    ensures Animate(keys, animationOn, frame, image) == (frame + 1, FrameAt(animationOn[keys[k]], frame))
  {
    var n := |keys| - 1;
    var prefix := keys[..n];
    if k < n {
      AnimateSingle(prefix, animationOn, frame, image, k);
    } else {
      AnimateCounter(prefix, animationOn, frame, image);
      NoneAnimate(prefix, animationOn);
    }
  }

  lemma {:induction false} NoneAnimate(keys: seq<string>, animationOn: map<string, seq<string>>)
    requires forall j :: 0 <= j < |keys| ==> !Animates(keys[j], animationOn)
    ensures AnimatingCount(keys, animationOn) == 0
  {
    if |keys| > 0 {
      NoneAnimate(keys[..|keys| - 1], animationOn);
    }
  }

  /** `AnimationController(sprite)`: loops over the sprite's enumerable property
      names, given here as `keys` in enumeration order since a Dafny object has
      no such list; a name that is also a key of `animationOn` shows the next
      frame of that track. */
  method AnimationController(sprite: Drawable, keys: seq<string>)
    modifies sprite`animationFrame, sprite`image
    ensures (sprite.animationFrame, sprite.image)
            == Animate(keys, sprite.animationOn, old(sprite.animationFrame), old(sprite.image))
  {
    var i := 0;
    while i < |keys|
      invariant 0 <= i <= |keys|
      invariant (sprite.animationFrame, sprite.image)
                == Animate(keys[..i], sprite.animationOn, old(sprite.animationFrame), old(sprite.image))
    {
      assert keys[..i + 1][..i] == keys[..i];
      var key := keys[i];
      if key != "" && key in sprite.animationOn {
        sprite.image := FrameAt(sprite.animationOn[key], sprite.animationFrame);
        sprite.animationFrame := sprite.animationFrame + 1;
      }
      i := i + 1;
    }
    assert keys[..i] == keys;
  }

  // ---------------------------------------------------------------------------
  // Collision detection

  /** The boxes `[p, p + e]` and `[q, q + f]` share a point on every axis;
      touching faces count. */
  predicate Overlap(p: Vector3, e: Vector3, q: Vector3, f: Vector3)
  {
    && p.x + e.x >= q.x && p.x <= q.x + f.x
    && p.y + e.y >= q.y && p.y <= q.y + f.y
    && p.z + e.z >= q.z && p.z <= q.z + f.z
  }

  /** `current` has a handler for `sprite`'s tag and their collision boxes overlap. */
  predicate Hits(current: Drawable, sprite: Drawable)
    reads current, sprite
  {
    && sprite.tag in current.collideWithTag
    && Overlap(current.position, current.collisionEnd, sprite.position, sprite.collisionEnd)
  }

  /** Overlap does not depend on which box is the scanning one. */
  lemma OverlapSymmetric(p: Vector3, e: Vector3, q: Vector3, f: Vector3)
    ensures Overlap(p, e, q, f) <==> Overlap(q, f, p, e)
  {
  }

  /** The scan does not skip the scanning entity: a sprite with a handler for
      its own tag and a box of non-negative extent hits itself. */
  lemma SelfHit(current: Drawable)
    requires current.tag in current.collideWithTag
    requires current.collisionEnd.x >= 0.0 && current.collisionEnd.y >= 0.0 && current.collisionEnd.z >= 0.0
    ensures Hits(current, current)
  {
  }

  /** `SpriteCollisionDetector(current)` over the active scene's sprite list:
      the indices of the sprites whose handler is called, in call order. Each
      hit sprite is dispatched once, in list order, and no other. With no
      active scene the source throws. */
  method SpriteCollisionDetector(engine: Engine, current: Drawable) returns (dispatched: seq<nat>)
    requires engine.currentScene != null
    ensures var list := engine.currentScene.spriteList;
            forall i :: i in dispatched <==> 0 <= i < |list| && Hits(current, list[i])
    ensures forall j, k :: 0 <= j < k < |dispatched| ==> dispatched[j] < dispatched[k]
  {
    var scene := engine.currentScene;
    dispatched := [];
    var i := 0;
    while i < |scene.spriteList|
      invariant 0 <= i <= |scene.spriteList|
      invariant forall n :: n in dispatched <==> 0 <= n < i && Hits(current, scene.spriteList[n])
      invariant forall j :: 0 <= j < |dispatched| ==> dispatched[j] < i
      invariant forall j, k :: 0 <= j < k < |dispatched| ==> dispatched[j] < dispatched[k]
    {
      var sprite := scene.spriteList[i];
      if Hits(current, sprite) {
        dispatched := dispatched + [i];
      }
      i := i + 1;
    }
  }
}
