/** The few Three.js values the scene's components read and write: vectors,
    camera poses and the live camera itself. Numbers are reals; floating-point
    rounding is not modelled. */
module Three {

  datatype Option<+T> = None | Some(value: T)

  /** A Three.js `Vector3`, as a value. */
  datatype Vec3 = Vec3(x: real, y: real, z: real)

  /** A camera placement: where it stands and the point it looks at. */
  datatype Pose = Pose(position: Vec3, lookAt: Vec3)

  function Add(a: Vec3, b: Vec3): Vec3 {
    Vec3(a.x + b.x, a.y + b.y, a.z + b.z)
  }

  function Sub(a: Vec3, b: Vec3): Vec3 {
    Vec3(a.x - b.x, a.y - b.y, a.z - b.z)
  }

  function Scale(a: Vec3, k: real): Vec3 {
    Vec3(a.x * k, a.y * k, a.z * k)
  }

  /** The live camera that every component moves. `lookTarget` records the
      point last passed to `camera.lookAt`; the orientation Three.js derives
      from it is not modelled. */
  class Camera {
    var position: Vec3
    var lookTarget: Vec3
    const fov: real
    const isPerspective: bool

    constructor (position: Vec3, lookTarget: Vec3, fov: real, isPerspective: bool)
      ensures this.position == position && this.lookTarget == lookTarget
      ensures this.fov == fov && this.isPerspective == isPerspective
    {
      this.position := position;
      this.lookTarget := lookTarget;
      this.fov := fov;
      this.isPerspective := isPerspective;
    }
  }
}
