/** Shared value types of the scene: the interaction mode, points in the
    plane and in space, and the immutable per-particle record produced by
    the layout generator. */
module Types {

  datatype Option<+T> = None | Some(value: T)

  /** The global mode every particle group animates toward. */
  datatype TreeState = Scattered | TreeShape

  /** A 2D interaction vector (the `{ x, y }` record shared between the
      input handlers and the scene). */
  datatype Vec2 = Vec2(x: real, y: real)

  /** A point in space (three.js `Vector3`, with exact reals). */
  datatype Vec3 = Vec3(x: real, y: real, z: real)

  /** One particle: its two target positions, its static visual attributes
      and its identifier. Created once by the layout generator, never mutated. */
  datatype ParticleData = ParticleData(
    id: int,
    treePosition: Vec3,
    scatterPosition: Vec3,
    scale: real,
    rotation: (real, real, real),
    color: Option<string>,
    speed: real)

  function Abs(x: real): (r: real)
    ensures r >= 0.0 && (r == x || r == -x)
  {
    if x < 0.0 then -x else x
  }
}
