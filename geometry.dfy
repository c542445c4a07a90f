/**
 * Positions, velocities and the transform an entity or agent carries.
 * glam's f32 vectors are modelled by exact real coordinates: the simulation
 * only copies them in the parts modelled here, and compares them with the
 * perception radius.
 */
module Geometry {

  datatype Vec3 = Vec3(x: real, y: real, z: real)

  /** `Vec3::ZERO` and `Vec3::default()`. */
  const Zero: Vec3 := Vec3(0.0, 0.0, 0.0)

  /** `Vec3::ONE`. */
  const One: Vec3 := Vec3(1.0, 1.0, 1.0)

  function Plus(a: Vec3, b: Vec3): Vec3 {
    Vec3(a.x + b.x, a.y + b.y, a.z + b.z)
  }

  function DistanceSquared(a: Vec3, b: Vec3): real {
    (a.x - b.x) * (a.x - b.x) + (a.y - b.y) * (a.y - b.y) + (a.z - b.z) * (a.z - b.z)
  }

  /** `Agent::PERSEPTON_RADIUS`. */
  const PerceptionRadius: real := 10.0

  /**
   * `a.distance(b) < PERSEPTON_RADIUS`: since a distance is never negative,
   * this is the same as comparing squares.
   */
  predicate InRange(a: Vec3, b: Vec3) {
    DistanceSquared(a, b) < PerceptionRadius * PerceptionRadius
  }

  datatype Rotation = Rotation(direction: Vec3, angle: real)

  /** `Rotation::default()`: no rotation about the negative z axis. */
  const DefaultRotation: Rotation := Rotation(Vec3(0.0, 0.0, -1.0), 0.0)

  datatype Transform = Transform(position: Vec3, scale: Vec3, rotation: Rotation)

  /** `Transform::with_pos`: the given position, unit scale, default rotation. */
  function WithPos(position: Vec3): (t: Transform)
    ensures t.position == position && t.scale == One && t.rotation == DefaultRotation
  {
    Transform(position, One, DefaultRotation)
  }

  /** `Transform::update_pos`: moves the position by `dif`, nothing else. */
  function UpdatePos(t: Transform, dif: Vec3): (r: Transform)
    ensures r.scale == t.scale && r.rotation == t.rotation
    ensures r.position == Plus(t.position, dif)
  {
    t.(position := Plus(t.position, dif))
  }
}
