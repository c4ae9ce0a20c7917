// One cloud instance (the CloudData class).
module Clouds {
  import opened Vectors
  import opened Animation

  /**
   * A cloud billboard. Its position, rotation and grid coordinates are fixed at construction
   * (nothing assigns them afterwards), so they are constants here; its scale, its active flag
   * and its cached distance to the camera change in place.
   */
  class CloudData {
    const pos: Vec3
    var scale: Vec3
    const rot: Quaternion
    var active: bool
    const x: int
    const y: int
    var distFromCam: real

    /** Stores every argument and, through SetActive, starts the cloud out active. */
    constructor (pos: Vec3, scale: Vec3, rot: Quaternion, x: int, y: int, distFromCam: real)
      ensures this.pos == pos && this.scale == scale && this.rot == rot
      ensures active
      ensures this.x == x && this.y == y && this.distFromCam == distFromCam
    {
      this.pos := pos;
      this.scale := scale;
      this.rot := rot;
      this.x := x;
      this.y := y;
      this.distFromCam := distFromCam;
      new;
      SetActive(true);
    }

    /** The read-only isActive property. */
    function IsActive(): bool
      reads this
    {
      active
    }

    /** The only way the active flag is written. */
    method SetActive(state: bool)
      modifies this`active
      ensures active == state
    {
      active := state;
    }

    /** The animation state (scale and active flag) this cloud is in. */
    function State(): Anim
      reads this
    {
      Anim(scale, active)
    }
  }
}
