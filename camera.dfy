/**
 * The free-fly camera: a position, a world-up reference, yaw and pitch in
 * degrees, movement speed, look sensitivity, a zoom factor, and the
 * front/right/up basis derived from yaw, pitch and world-up.
 *
 * The trigonometry and the inverse square root the camera relies on belong
 * to the host's maths library; they enter the model as a `MathLib` value of
 * functions fixed when the camera is built. Normalisation and the cross
 * product are spelled out over those, as the library defines them.
 */
module FreeCamera {
  import opened Vectors

  /** The five movement directions a key press can request. */
  datatype Direction = Up | Forward | Backward | Left | Right

  const DefaultPos: Vec3 := Vec3(0.0, 10.0, 3.0)
  const DefaultFront: Vec3 := Vec3(0.0, 0.0, -1.0)
  const DefaultWorldUp: Vec3 := Vec3(0.0, 1.0, 0.0)
  const DefaultYaw: real := -90.0
  const DefaultPitch: real := 0.0
  const DefaultMovementSpeed: real := 10.0
  const DefaultSensitivity: real := 0.16
  const DefaultZoom: real := 1.0

  /** `look` keeps pitch within [-PitchLimit, PitchLimit] degrees when asked to. */
  const PitchLimit: real := 89.0
  const MinZoom: real := 0.1
  const MaxZoom: real := 3.0
  /** Zoom change per unit of vertical scroll. */
  const ZoomPerScroll: real := 0.05

  /** Degrees-to-radians conversion, cosine, sine and inverse square root of the host library. */
  datatype MathLib = MathLib(
    radians: real -> real,
    cos: real -> real,
    sin: real -> real,
    inverseSqrt: real -> real)

  function Radians(lib: MathLib, degrees: real): real { lib.radians(degrees) }
  function Cos(lib: MathLib, angle: real): real { lib.cos(angle) }
  function Sin(lib: MathLib, angle: real): real { lib.sin(angle) }
  function InverseSqrt(lib: MathLib, x: real): real { lib.inverseSqrt(x) }

  /**
   * Product of two reals. Products of library results and of offsets with the
   * sensitivity are written through it, so that what the camera computes and
   * what it is specified by are compared term by term.
   */
  function Mul(a: real, b: real): real { a * b }

  /** `v` scaled by the inverse of its length. */
  function Normalize(lib: MathLib, v: Vec3): Vec3 {
    Scale(v, InverseSqrt(lib, Dot(v, v)))
  }

  datatype Basis = Basis(front: Vec3, right: Vec3, up: Vec3)

  /**
   * The basis a camera looking along (yaw, pitch) has: front from the angles,
   * right from front and world-up, up from right and front. It is a function
   * of yaw, pitch and world-up alone; the previous basis plays no part.
   */
  function BasisFor(lib: MathLib, yaw: real, pitch: real, worldUp: Vec3): Basis {
    var radYaw := Radians(lib, yaw);
    var radPitch := Radians(lib, pitch);
    var direction := Vec3(Mul(Cos(lib, radYaw), Cos(lib, radPitch)), Sin(lib, radPitch), Mul(Sin(lib, radYaw), Cos(lib, radPitch)));
    var front := Normalize(lib, direction);
    var right := Normalize(lib, Cross(front, worldUp));
    Basis(front, right, Normalize(lib, Cross(right, front)))
  }

  /**
   * The three basis vectors are mutually perpendicular and right is
   * perpendicular to world-up, whatever the library's trigonometry returns.
   */
  lemma BasisPerpendicular(lib: MathLib, yaw: real, pitch: real, worldUp: Vec3)
    ensures var b := BasisFor(lib, yaw, pitch, worldUp);
      && Dot(b.front, b.right) == 0.0
      && Dot(b.right, b.up) == 0.0
      && Dot(b.front, b.up) == 0.0
      && Dot(b.right, worldUp) == 0.0
  {
    var b := BasisFor(lib, yaw, pitch, worldUp);
    var c1 := Cross(b.front, worldUp);
    var k1 := InverseSqrt(lib, Dot(c1, c1));
    var c2 := Cross(b.right, b.front);
    var k2 := InverseSqrt(lib, Dot(c2, c2));
    CrossPerpendicular(b.front, worldUp);
    CrossPerpendicular(b.right, b.front);
    DotScale(b.front, c1, k1);
    DotScale(c1, worldUp, k1);
    DotScale(b.right, c2, k2);
    DotScale(b.front, c2, k2);
  }

  /**
   * With the default yaw of -90 degrees and pitch 0, a library whose
   * trigonometry is exact at those angles gives front (0, 0, -1), right
   * (1, 0, 0) and up (0, 1, 0): the default yaw is what makes the computed
   * front agree with the default front.
   */
  lemma DefaultBasis(lib: MathLib)
    requires lib.cos(lib.radians(DefaultYaw)) == 0.0 && lib.sin(lib.radians(DefaultYaw)) == -1.0
    requires lib.cos(lib.radians(DefaultPitch)) == 1.0 && lib.sin(lib.radians(DefaultPitch)) == 0.0
    requires lib.inverseSqrt(1.0) == 1.0
    ensures BasisFor(lib, DefaultYaw, DefaultPitch, DefaultWorldUp)
      == Basis(DefaultFront, Vec3(1.0, 0.0, 0.0), DefaultWorldUp)
  {
    var direction := Vec3(0.0, 0.0, -1.0);
    assert Dot(direction, direction) == 1.0;
    assert Normalize(lib, direction) == DefaultFront;
    var right := Cross(DefaultFront, DefaultWorldUp);
    assert right == Vec3(1.0, 0.0, 0.0);
    assert Normalize(lib, right) == right;
    var up := Cross(right, DefaultFront);
    assert up == DefaultWorldUp;
    assert Normalize(lib, up) == up;
  }

  /** A pitch whose sine is zero yields a level front: looking sideways never tilts it. */
  lemma LevelPitchLevelFront(lib: MathLib, yaw: real, pitch: real, worldUp: Vec3)
    requires lib.sin(lib.radians(pitch)) == 0.0
    ensures BasisFor(lib, yaw, pitch, worldUp).front.y == 0.0
  {
  }

  /** `v` clamped into [lo, hi]. */
  function Clamp(v: real, lo: real, hi: real): (r: real)
    requires lo <= hi
    ensures lo <= r <= hi
    ensures lo <= v <= hi ==> r == v
    ensures v < lo ==> r == lo
    ensures hi < v ==> r == hi
  {
    if v < lo then lo else if v > hi then hi else v
  }

  function Min(a: real, b: real): real {
    if b < a then b else a
  }

  function Max(a: real, b: real): real {
    if a < b then b else a
  }

  /** The source's `max(lo, min(v, hi))` is the clamp of `v` into [lo, hi]. */
  lemma ClampIsMaxOfMin(v: real, lo: real, hi: real)
    requires lo <= hi
    ensures Max(lo, Min(v, hi)) == Clamp(v, lo, hi)
  {
  }

  /** The front vector with its vertical component dropped. */
  function Level(v: Vec3): Vec3 {
    Vec3(v.x, 0.0, v.z)
  }

  /** How far one `move` call shifts the position. */
  function Displacement(direction: Direction, front: Vec3, right: Vec3, worldUp: Vec3, speed: real, dt: real): (d: Vec3)
    ensures direction != Up ==> d.y == 0.0
  {
    match direction
    case Up => Scale(Scale(worldUp, speed), dt)
    case Forward => Scale(Scale(Level(front), speed), dt)
    case Backward => Neg(Scale(Scale(Level(front), speed), dt))
    case Left => Neg(Scale(Scale(Level(right), speed), dt))
    case Right => Scale(Scale(Level(right), speed), dt)
  }

  /** Moving forward then backward, or left then right, for the same time returns to the start. */
  lemma OppositeMovesCancel(p: Vec3, front: Vec3, right: Vec3, worldUp: Vec3, speed: real, dt: real)
    ensures Add(Add(p, Displacement(Forward, front, right, worldUp, speed, dt)),
                Displacement(Backward, front, right, worldUp, speed, dt)) == p
    ensures Add(Add(p, Displacement(Left, front, right, worldUp, speed, dt)),
                Displacement(Right, front, right, worldUp, speed, dt)) == p
  {
  }

  /** Moving up displaces by world-up scaled by speed * dt. */
  lemma UpDisplacement(front: Vec3, right: Vec3, worldUp: Vec3, speed: real, dt: real)
    ensures Displacement(Up, front, right, worldUp, speed, dt) == Scale(worldUp, speed * dt)
  {
    ScaleScale(worldUp, speed, dt);
  }

  /** With the default world-up, moving up changes only the height, by speed * dt. */
  lemma UpMoveIsVertical(front: Vec3, right: Vec3, speed: real, dt: real)
    ensures Displacement(Up, front, right, DefaultWorldUp, speed, dt) == Vec3(0.0, speed * dt, 0.0)
  {
  }

  class Camera {
    const lib: MathLib
    var front: Vec3
    var worldUp: Vec3
    var up: Vec3
    var right: Vec3
    var yaw: real
    var pitch: real
    var movementSpeed: real
    var sensitivity: real
    var zoom: real
    /** The position, the one field the renderer may also write directly. */
    var pos: Vec3

    /** Zoom lies in its range and the basis is the one yaw, pitch and world-up determine. */
    ghost predicate Valid()
      reads this
    {
      && MinZoom <= zoom <= MaxZoom
      && Basis(front, right, up) == BasisFor(lib, yaw, pitch, worldUp)
    }

    /** The default camera. */
    constructor (lib: MathLib)
      ensures this.lib == lib && Valid()
      ensures pos == DefaultPos && worldUp == DefaultWorldUp
      ensures yaw == DefaultYaw && pitch == DefaultPitch
      ensures movementSpeed == DefaultMovementSpeed && sensitivity == DefaultSensitivity
      ensures zoom == DefaultZoom
      ensures -PitchLimit <= pitch <= PitchLimit
    {
      this.lib := lib;
      front := DefaultFront;
      worldUp := DefaultWorldUp;
      yaw := DefaultYaw;
      pitch := DefaultPitch;
      movementSpeed := DefaultMovementSpeed;
      sensitivity := DefaultSensitivity;
      zoom := DefaultZoom;
      pos := DefaultPos;
      new;
      UpdateDirectionVectors();
    }

    /** A camera at `position` looking along (yaw, pitch); pitch is stored as given, not clamped. */
    constructor WithPose(lib: MathLib, position: Vec3, worldUp: Vec3, yaw: real, pitch: real)
      ensures this.lib == lib && Valid()
      ensures pos == position && this.worldUp == worldUp
      ensures this.yaw == yaw && this.pitch == pitch
      ensures movementSpeed == DefaultMovementSpeed && sensitivity == DefaultSensitivity
      ensures zoom == DefaultZoom
    {
      this.lib := lib;
      front := DefaultFront;
      this.worldUp := worldUp;
      this.yaw := yaw;
      this.pitch := pitch;
      movementSpeed := DefaultMovementSpeed;
      sensitivity := DefaultSensitivity;
      zoom := DefaultZoom;
      pos := position;
      new;
      UpdateDirectionVectors();
    }

    /** Recomputes front, right and up from yaw, pitch and world-up; nothing else changes. */
    method UpdateDirectionVectors()
      modifies this`front, this`right, this`up
      ensures Basis(front, right, up) == BasisFor(lib, yaw, pitch, worldUp)
    {
      var direction := front;
      var radYaw := Radians(lib, yaw);
      var radPitch := Radians(lib, pitch);
      direction := direction.(x := Mul(Cos(lib, radYaw), Cos(lib, radPitch)));
      direction := direction.(y := Sin(lib, radPitch));
      direction := direction.(z := Mul(Sin(lib, radYaw), Cos(lib, radPitch)));
      front := Normalize(lib, direction);
      right := Normalize(lib, Cross(front, worldUp));
      up := Normalize(lib, Cross(right, front));
    }

    /**
     * Turns the camera by pointer motion scaled by the sensitivity, clamps
     * pitch when `constrainPitch` holds, and recomputes the basis.
     */
    method Look(xoffset: real, yoffset: real, constrainPitch: bool := true)
      requires Valid()
      modifies this`yaw, this`pitch, this`front, this`right, this`up
      ensures Valid()
      ensures yaw == old(yaw) + Mul(xoffset, sensitivity)
      ensures constrainPitch ==> pitch == Clamp(old(pitch) + Mul(yoffset, sensitivity), -PitchLimit, PitchLimit)
      ensures !constrainPitch ==> pitch == old(pitch) + Mul(yoffset, sensitivity)
      ensures constrainPitch ==> -PitchLimit <= pitch <= PitchLimit
      ensures Basis(front, right, up) == BasisFor(lib, yaw, pitch, worldUp)
      ensures xoffset == 0.0 && yoffset == 0.0 && (!constrainPitch || -PitchLimit <= old(pitch) <= PitchLimit) ==>
        yaw == old(yaw) && pitch == old(pitch) && front == old(front) && right == old(right) && up == old(up)
    {
      var xOffScaled := Mul(xoffset, sensitivity);
      var yOffScaled := Mul(yoffset, sensitivity);
      yaw := yaw + xOffScaled;
      pitch := pitch + yOffScaled;
      if constrainPitch {
        ClampIsMaxOfMin(pitch, -PitchLimit, PitchLimit);
        pitch := Max(-PitchLimit, Min(pitch, PitchLimit));
      }
      UpdateDirectionVectors();
    }

    /**
     * Moves along world-up, or along the level part of front or right, by
     * speed * dt; only the position changes.
     */
    method Move(direction: Direction, dt: real)
      requires Valid()
      modifies this`pos
      ensures Valid()
      ensures pos == Add(old(pos), Displacement(direction, front, right, worldUp, movementSpeed, dt))
      ensures direction != Up ==> pos.y == old(pos).y
    {
      ghost var d := Displacement(direction, front, right, worldUp, movementSpeed, dt);
      if direction == Up {
        pos := Add(pos, Scale(Scale(worldUp, movementSpeed), dt));
        assert pos == Add(old(pos), d);
      }
      if direction == Forward {
        pos := Add(pos, Scale(Scale(Vec3(front.x, 0.0, front.z), movementSpeed), dt));
        assert pos == Add(old(pos), d);
      }
      if direction == Backward {
        pos := Sub(pos, Scale(Scale(Vec3(front.x, 0.0, front.z), movementSpeed), dt));
        assert pos == Add(old(pos), d);
      }
      if direction == Left {
        pos := Sub(pos, Scale(Scale(Vec3(right.x, 0.0, right.z), movementSpeed), dt));
        assert pos == Add(old(pos), d);
      }
      if direction == Right {
        pos := Add(pos, Scale(Scale(Vec3(right.x, 0.0, right.z), movementSpeed), dt));
        assert pos == Add(old(pos), d);
      }
    }

    /** Zooms by vertical scroll, clamped to [MinZoom, MaxZoom]; the horizontal offset has no effect. */
    method HandleZoom(xoffset: real, yoffset: real)
      requires Valid()
      modifies this`zoom
      ensures Valid()
      ensures zoom == Clamp(old(zoom) - yoffset * ZoomPerScroll, MinZoom, MaxZoom)
      ensures MinZoom <= zoom <= MaxZoom
    {
      zoom := zoom - yoffset * ZoomPerScroll;
      if zoom < MinZoom {
        zoom := MinZoom;
      } else if zoom > MaxZoom {
        zoom := MaxZoom;
      }
    }

    function Zoom(): (z: real)
      reads this
      requires Valid()
      ensures z == zoom && MinZoom <= z <= MaxZoom
    {
      zoom
    }

    /** The position, as the renderer reads it. */
    function Position(): Vec3
      reads this
    {
      pos
    }

    /** Places the camera at `newPos`; orientation, zoom and speeds stay as they were. */
    method SetPosition(newPos: Vec3)
      requires Valid()
      modifies this`pos
      ensures Valid()
      ensures Position() == newPos
    {
      pos := newPos;
    }
  }

  /** A client: moving forward and then backward for the same time leaves the camera where it was. */
  method ForwardAndBack(c: Camera, dt: real)
    requires c.Valid()
    modifies c`pos
    ensures c.Valid() && c.pos == old(c.pos)
    ensures c.yaw == old(c.yaw) && c.pitch == old(c.pitch) && c.zoom == old(c.zoom)
  {
    c.Move(Forward, dt);
    c.Move(Backward, dt);
    OppositeMovesCancel(old(c.pos), c.front, c.right, c.worldUp, c.movementSpeed, dt);
  }

  /**
   * From the default pose, a purely sideways look keeps pitch at 0 and, for
   * a library whose sine of 0 is 0, keeps the front level.
   */
  method SidewaysLookFromDefault(lib: MathLib, xoffset: real) returns (c: Camera)
    requires lib.sin(lib.radians(0.0)) == 0.0
    ensures c.Valid() && c.pitch == 0.0 && c.front.y == 0.0
    ensures c.yaw == DefaultYaw + Mul(xoffset, DefaultSensitivity)
  {
    c := new Camera(lib);
    c.Look(xoffset, 0.0);
    LevelPitchLevelFront(lib, c.yaw, c.pitch, c.worldUp);
  }
}
