/** Three-axis vectors and the world-to-screen projection of farancanvas.
    A source `Vector3` object is modelled as an immutable value: every operation
    the engine defines on it returns a new vector. */
module Vectors {

  import opened Wrappers

  datatype Vector3 = Vector3(x: real, y: real, z: real)

  /** The three axis names the source iterates over ("x", "y", "z"). */
  datatype Axis = X | Y | Z

  const Axes: seq<Axis> := [X, Y, Z]

  /** The zero vector, the default of every vector-valued entity field. */
  const Origin := Vector3(0.0, 0.0, 0.0)

  function Get(v: Vector3, a: Axis): real
  {
    match a
    case X => v.x
    case Y => v.y
    case Z => v.z
  }

  /** `v` with axis `a` overwritten, as `v[axis] = value` does on the source object. */
  function With(v: Vector3, a: Axis, value: real): (r: Vector3)
    ensures Get(r, a) == value
    ensures forall b :: b != a ==> Get(r, b) == Get(v, b)
  {
    match a
    case X => v.(x := value)
    case Y => v.(y := value)
    case Z => v.(z := value)
  }

  /** Two vectors are equal exactly when they agree on every axis. */
  lemma {:induction false} AxesDetermine(u: Vector3, v: Vector3)
    requires forall a :: Get(u, a) == Get(v, a)
    ensures u == v
  {
    assert Get(u, X) == Get(v, X) && Get(u, Y) == Get(v, Y) && Get(u, Z) == Get(v, Z);
  }

  /** Number of axes on which `u` and `v` agree: the counter `d` of `isEqual`. */
  function MatchCount(u: Vector3, v: Vector3): (d: nat)
    ensures d <= 3
  {
    (if u.x == v.x then 1 else 0) + (if u.y == v.y then 1 else 0) + (if u.z == v.z then 1 else 0)
  }

  /** `isEqual`: at least three of the axes match. */
  function IsEqual(u: Vector3, v: Vector3): (r: bool)
    ensures r <==> u == v
  {
    MatchCount(u, v) >= 3
  }

  /** `plus`: a fresh vector holding the axis-wise sums. */
  function Plus(u: Vector3, v: Vector3): (r: Vector3)
    ensures forall a :: Get(r, a) == Get(u, a) + Get(v, a)
  {
    Vector3(u.x + v.x, u.y + v.y, u.z + v.z)
  }

  function Scale(v: Vector3, k: real): Vector3
  {
    Vector3(v.x * k, v.y * k, v.z * k)
  }

  /** `plus` is commutative and has the zero vector as identity. */
  lemma PlusLaws(u: Vector3, v: Vector3)
    ensures Plus(u, v) == Plus(v, u)
    ensures Plus(u, Origin) == u
  {
  }

  /** `toPerPixel`: world units to pixels, axis by axis, with the surface's
      per-axis scale `perPixel` (the source reads `canvas.perPixel`). */
  function ToPerPixel(v: Vector3, perPixel: Vector3): (r: Vector3)
    ensures forall a :: Get(r, a) == Get(v, a) * Get(perPixel, a)
  {
    Vector3(v.x * perPixel.x, v.y * perPixel.y, v.z * perPixel.z)
  }

  /** Converting a sum to pixels is the sum of the converted parts. */
  lemma ToPerPixelAdditive(u: Vector3, v: Vector3, perPixel: Vector3)
    ensures ToPerPixel(Plus(u, v), perPixel) == Plus(ToPerPixel(u, perPixel), ToPerPixel(v, perPixel))
  {
  }

  /** The drawing conventions selected by `canvas.drawType`. */
  datatype DrawType = Normal | Centered | CanvasOrigin

  /** The six `drawType` strings the projection recognises. */
  function ParseDrawType(name: string): Option<DrawType>
  {
    if name == "centered" || name == "center" then Some(Centered)
    else if name == "javascript" || name == "canvas" then Some(CanvasOrigin)
    else if name == "normal" || name == "standard" then Some(Normal)
    else None
  }

  /** `toScreenFormat`: the screen-space origin of a box at `position` with
      extent `size`, on a surface `height` pixels tall. An unrecognised draw
      type falls out of the source's `switch` and yields nothing. The `isGUI`
      argument of the source is accepted there but never used. */
  function ToScreenFormat(position: Vector3, size: Vector3, drawType: string,
                          height: real, perPixel: Vector3): (r: Option<Vector3>)
    ensures r.Some? <==> drawType in ["normal", "standard", "centered", "center", "canvas", "javascript"]
  {
    var t := ToPerPixel(position, perPixel);
    var s := ToPerPixel(size, perPixel);
    match ParseDrawType(drawType)
    case Some(Centered) => Some(Vector3(t.x + s.x, height - t.y - s.y - t.y / 2.0, t.z))
    case Some(CanvasOrigin) => Some(Vector3(t.x, t.y, t.x))
    case Some(Normal) => Some(Vector3(t.x, height - t.y - s.y, 0.0))
    case None => None
  }

  /** The two names of each convention give the same point. */
  lemma ScreenFormatAliases(position: Vector3, size: Vector3, height: real, perPixel: Vector3)
    ensures ToScreenFormat(position, size, "normal", height, perPixel)
         == ToScreenFormat(position, size, "standard", height, perPixel)
    ensures ToScreenFormat(position, size, "centered", height, perPixel)
         == ToScreenFormat(position, size, "center", height, perPixel)
    ensures ToScreenFormat(position, size, "canvas", height, perPixel)
         == ToScreenFormat(position, size, "javascript", height, perPixel)
  {
  }

  /** In the normal convention world y grows upwards: the projected origin is
      the top-left corner of the box on a screen whose rows grow downwards, so
      the box's top edge lands at `height - (y + h) * perPixel.y` and its bottom
      edge at `height - y * perPixel.y`; x is only scaled. */
  lemma NormalIsBottomUp(position: Vector3, size: Vector3, height: real, perPixel: Vector3)
    ensures var o := ToScreenFormat(position, size, "normal", height, perPixel).value;
            && o.x == position.x * perPixel.x
            && o.y == height - (position.y + size.y) * perPixel.y
            && o.y + size.y * perPixel.y == height - position.y * perPixel.y
            && o.z == 0.0
  {
  }

  /** Moving a box up by `d` world units moves its normal-mode origin up the
      screen by `d * perPixel.y` pixels and leaves x where it was. */
  lemma NormalShiftUp(position: Vector3, size: Vector3, d: real, height: real, perPixel: Vector3)
    ensures var o := ToScreenFormat(position, size, "normal", height, perPixel).value;
            var o' := ToScreenFormat(Plus(position, Vector3(0.0, d, 0.0)), size, "normal", height, perPixel).value;
            o'.x == o.x && o'.y == o.y - d * perPixel.y
  {
  }

  /** The centered convention is the normal one shifted right by the box's
      pixel width and up by half the position's pixel height, keeping z. */
  lemma CenteredFromNormal(position: Vector3, size: Vector3, height: real, perPixel: Vector3)
    ensures var n := ToScreenFormat(position, size, "normal", height, perPixel).value;
            var c := ToScreenFormat(position, size, "centered", height, perPixel).value;
            && c.x == n.x + size.x * perPixel.x
            && c.y == n.y - position.y * perPixel.y / 2.0
            && c.z == position.z * perPixel.z
  {
  }

  /** The canvas convention ignores the size and the height: the origin is the
      pixel position itself, with x repeated in z. */
  lemma CanvasIgnoresSize(position: Vector3, size: Vector3, size': Vector3,
                          height: real, height': real, perPixel: Vector3)
    ensures ToScreenFormat(position, size, "canvas", height, perPixel)
         == ToScreenFormat(position, size', "canvas", height', perPixel)
    ensures ToScreenFormat(position, size, "canvas", height, perPixel).value
         == Vector3(position.x * perPixel.x, position.y * perPixel.y, position.x * perPixel.x)
  {
  }

  /** A 500-pixel-tall surface at 100 pixels per unit: a half-unit box at
      (1, 1, 0) has its normal-mode origin at (100, 350). */
  lemma NormalExample()
    ensures ToScreenFormat(Vector3(1.0, 1.0, 0.0), Vector3(0.5, 0.5, 0.0), "normal",
                           500.0, Vector3(100.0, 100.0, 100.0))
         == Some(Vector3(100.0, 350.0, 0.0))
  {
  }
}
