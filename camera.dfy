/** The game's fly camera: Euler angles (yaw, pitch), a field of view, and the
    mouse-driven updates that keep pitch and field of view inside fixed bounds. */
module Cameras {
  import opened Common

  /** The constructor's default arguments. */
  const DefaultYaw: real := -90.0
  const DefaultPitch: real := 0.0
  const DefaultMoveSpeed: real := 5.0
  const DefaultMouseSensitivity: real := 0.25
  const DefaultFovy: real := 45.0

  /** The bounds `zoom` keeps the field of view in, and `rotate` the pitch. */
  const MinFovy: real := 1.0
  const MaxFovy: real := 45.0
  const MaxPitch: real := 89.0

  /** `v` brought into `[lo, hi]`: unchanged inside, the nearer bound outside. */
  function Clamp(v: real, lo: real, hi: real): (r: real)
    requires lo <= hi
    ensures lo <= r <= hi
    ensures lo <= v <= hi ==> r == v
    ensures v < lo ==> r == lo
    ensures hi < v ==> r == hi
  {
    if v < lo then lo else if hi < v then hi else v
  }

  /** The field of view after one scroll of `offset`: an in-range fovy moves by
      `-offset` and is then clamped; an out-of-range one (possible after `setFovy`)
      does not move and is only clamped. */
  function ZoomedFovy(fovy: real, offset: real): (r: real)
    ensures MinFovy <= r <= MaxFovy
    ensures MinFovy <= fovy <= MaxFovy && MinFovy <= fovy - offset <= MaxFovy ==> r == fovy - offset
    ensures MinFovy <= fovy <= MaxFovy && fovy - offset < MinFovy ==> r == MinFovy
    ensures MinFovy <= fovy <= MaxFovy && MaxFovy < fovy - offset ==> r == MaxFovy
    ensures !(MinFovy <= fovy <= MaxFovy) ==> r == Clamp(fovy, MinFovy, MaxFovy)
  {
    if MinFovy <= fovy <= MaxFovy then Clamp(fovy - offset, MinFovy, MaxFovy)
    else Clamp(fovy, MinFovy, MaxFovy)
  }

  /** A scroll that stays inside the bounds is undone by the opposite scroll. */
  lemma ZoomUndo(fovy: real, offset: real)
    requires MinFovy <= fovy <= MaxFovy && MinFovy <= fovy - offset <= MaxFovy
    ensures ZoomedFovy(ZoomedFovy(fovy, offset), -offset) == fovy
  {
    assert ZoomedFovy(fovy, offset) == fovy - offset;
  }

  /** The pitch after a mouse move of `pitchOffset`: scaled by the sensitivity, added,
      and clamped to `[-MaxPitch, MaxPitch]`. */
  function RotatedPitch(pitch: real, pitchOffset: real, sensitivity: real): (r: real)
    ensures -MaxPitch <= r <= MaxPitch
    ensures -MaxPitch <= pitch + pitchOffset * sensitivity <= MaxPitch ==> r == pitch + pitchOffset * sensitivity
    ensures pitch + pitchOffset * sensitivity > MaxPitch ==> r == MaxPitch
    ensures pitch + pitchOffset * sensitivity < -MaxPitch ==> r == -MaxPitch
  {
    Clamp(pitch + pitchOffset * sensitivity, -MaxPitch, MaxPitch)
  }

  /** A pitch that is already in range is kept by a mouse move with no vertical part. */
  lemma RotateStill(pitch: real, sensitivity: real)
    requires -MaxPitch <= pitch <= MaxPitch
    ensures RotatedPitch(pitch, 0.0, sensitivity) == pitch
  {
    assert 0.0 * sensitivity == 0.0;
  }

  class Camera {
    var position: Vec3
    var worldUp: Vec3
    var yaw: real
    var pitch: real
    var moveSpeed: real
    var mouseSensitivity: real
    var fovy: real

    /** `Camera(position, up, yaw, pitch, moveSpeed, mouseSensitivity, fovy)`: every
        setting is stored as given; the world-up vector is the `up` argument. */
    constructor (position: Vec3, up: Vec3, yaw: real, pitch: real,
                 moveSpeed: real, mouseSensitivity: real, fovy: real)
      ensures this.position == position && worldUp == up
      ensures this.yaw == yaw && this.pitch == pitch
      ensures this.moveSpeed == moveSpeed && this.mouseSensitivity == mouseSensitivity
      ensures this.fovy == fovy
    {
      this.position := position;
      this.worldUp := up;
      this.yaw := yaw;
      this.pitch := pitch;
      this.moveSpeed := moveSpeed;
      this.mouseSensitivity := mouseSensitivity;
      this.fovy := fovy;
    }

    /** `Camera()` with every default argument: at the origin, y up, looking down -z. */
    constructor Default()
      ensures position == Zero3 && worldUp == Vec3(0.0, 1.0, 0.0)
      ensures yaw == DefaultYaw && pitch == DefaultPitch
      ensures moveSpeed == DefaultMoveSpeed && mouseSensitivity == DefaultMouseSensitivity
      ensures fovy == DefaultFovy && MinFovy <= fovy <= MaxFovy && -MaxPitch <= pitch <= MaxPitch
    {
      position := Zero3;
      worldUp := Vec3(0.0, 1.0, 0.0);
      yaw := DefaultYaw;
      pitch := DefaultPitch;
      moveSpeed := DefaultMoveSpeed;
      mouseSensitivity := DefaultMouseSensitivity;
      fovy := DefaultFovy;
    }

    /** `setYawPitch`: both angles are stored as given; unlike `rotate`, the pitch is
        not clamped. */
    method SetYawPitch(newYaw: real, newPitch: real)
      modifies this`yaw, this`pitch
      ensures yaw == newYaw && pitch == newPitch
    {
      yaw := newYaw;
      pitch := newPitch;
    }

    /** `rotate`: yaw moves freely by the scaled offset; pitch moves by its scaled
        offset and is clamped. */
    method Rotate(yawOffset: real, pitchOffset: real)
      modifies this`yaw, this`pitch
      ensures yaw == old(yaw) + yawOffset * mouseSensitivity
      ensures pitch == RotatedPitch(old(pitch), pitchOffset, mouseSensitivity)
    {
      yaw := yaw + yawOffset * mouseSensitivity;
      pitch := pitch + pitchOffset * mouseSensitivity;
      if pitch > MaxPitch {
        pitch := MaxPitch;
      }
      if pitch < -MaxPitch {
        pitch := -MaxPitch;
      }
    }

    /** `zoom`: the three conditional assignments of the scroll handler. */
    method Zoom(fovyOffset: real)
      modifies this`fovy
      ensures fovy == ZoomedFovy(old(fovy), fovyOffset)
    {
      if MinFovy <= fovy && fovy <= MaxFovy {
        fovy := fovy - fovyOffset;
      }
      if fovy <= MinFovy {
        fovy := MinFovy;
      }
      if fovy >= MaxFovy {
        fovy := MaxFovy;
      }
    }
  }
}
