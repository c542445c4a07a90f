/** A static or dynamic drawable with a transform (src/entity.rs). */
module Entities {
  import opened Geometry

  /** How the renderer treats a drawable; agents are `Dynamic`. */
  datatype RenderType = Static | Dynamic

  /**
   * An entity is a plain value: it has no mutators, so its transform and its
   * flag stay what `New` gave them, and both accessors only read.
   */
  datatype Entity = Entity(transform: Transform, isStatic: bool) {

    function IsStatic(): bool {
      isStatic
    }

    function GetTransform(): Transform {
      transform
    }
  }

  /** `Entity::new(pos, is_static)`. */
  function New(pos: Vec3, isStatic: bool): (e: Entity)
    ensures e.IsStatic() == isStatic
    ensures e.GetTransform().position == pos
    ensures e.GetTransform().scale == One && e.GetTransform().rotation == DefaultRotation
  {
    Entity(WithPos(pos), isStatic)
  }
}
