/** Optional values: a lookup that may find nothing, a supplier that may return nothing. */
module Options {
  datatype Option<T> = None | Some(value: T)
}

/** The scene-graph entities the terrain code hands to the renderer. */
module Scene {
  /** A loaded or cloned mesh, known to the model by its identity and its `name`; a clone
      carries its template's name. */
  datatype Object3D = Object3D(id: nat, name: string)

  /** A point in world space. */
  datatype Vec3 = Vec3(x: real, y: real, z: real)

  /** An object after `obj.position.set(x, y, z)`. */
  datatype Placed = Placed(obj: Object3D, x: real, y: real, z: real)

  /** Squared Euclidean distance between two points (`distanceTo` without its square root). */
  function SquaredDistance(a: Vec3, b: Vec3): (d2: real)
    ensures d2 >= 0.0
  {
    (a.x - b.x) * (a.x - b.x) + (a.y - b.y) * (a.y - b.y) + (a.z - b.z) * (a.z - b.z)
  }
}
