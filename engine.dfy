/** Values the game borrows from the engine and from the picking library:
    vectors, transforms and the per-entity picking components.  Coordinates are
    `real`: the engine's single-precision arithmetic is not modelled. */
module Engine {

  datatype Option<+T> = None | Some(value: T)

  /** A point or offset in world space; `y` is the vertical axis. */
  datatype Vec3 = Vec3(x: real, y: real, z: real)

  /** The orientation part of a transform.  `Identity` is what a freshly spawned
      transform carries; `LookingAt(eye, target)` stands for the quaternion the
      engine computes when an entity standing at `eye` is turned to face
      `target` with the world up axis as reference.  The quaternion itself is
      engine code and is kept opaque.  As a modelling choice the value records
      the pair it was computed from; the engine's rotation depends only on the
      direction from `eye` to `target`, so different pairs may give the same
      rotation (and may give the identity).  No lemma relies on different pairs
      giving different rotations, or on `LookingAt` differing from `Identity`. */
  datatype Rotation = Identity | LookingAt(eye: Vec3, target: Vec3)

  /** An entity's pose.  Scale is never touched by the game and is left out. */
  datatype Transform = Transform(translation: Vec3, rotation: Rotation)

  /** A transform at the given coordinates with no rotation. */
  function FromXyz(x: real, y: real, z: real): Transform
  {
    Transform(Vec3(x, y, z), Identity)
  }

  /** The picking library's `Hover` and `Selection` components of one entity.
      Both are attached together by the pickable bundle; the library sets
      `hovered` while the pointer rests on the entity and sets `selected` on a
      press over it.  The game only reads `hovered` and only clears `selected`. */
  datatype Pick = Pick(hovered: bool, selected: bool)

  /** The components a pickable bundle starts with: not hovered, not selected. */
  const FreshPick: Pick := Pick(false, false)
}
