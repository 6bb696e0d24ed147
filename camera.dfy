// The fly-through camera: a position, yaw and pitch angles in degrees, a
// virtual field of view (zoom) and the front/right/up basis derived from
// the angles, updated in place by the keyboard, mouse-motion and
// mouse-wheel handlers.
//
// Arithmetic is over the reals: the single-precision rounding of the
// source is not modelled. The trigonometry and the inverse square root
// that glm::normalize uses are not modelled either; they are the three
// functions of a MathLib value that the camera is built with, so every
// property below holds whatever those functions compute.
module Camera {
  import opened Glm

  datatype Direction = Forward | Backward | Left | Right | Up | Down

  const DefaultYaw: real := -90.0
  const DefaultPitch: real := 0.0
  const Speed: real := 0.1
  const Sensitivity: real := 0.1
  const DefaultZoom: real := 45.0

  const MaxPitch: real := 89.0
  const MinZoom: real := 1.0
  const MaxZoom: real := 45.0

  /** cosf(radians(a)), sinf(radians(a)) and glm::inversesqrt, left abstract. */
  datatype MathLib = MathLib(cosDeg: real -> real, sinDeg: real -> real, inverseSqrt: real -> real)

  datatype Basis = Basis(front: Vec3, right: Vec3, up: Vec3)

  /** The arguments of a glm::lookAt call: the view matrix it stands for. */
  datatype LookAt = LookAt(eye: Vec3, center: Vec3, up: Vec3)

  /** glm::normalize: v scaled by the inverse square root of its squared length. */
  function Normalize(lib: MathLib, v: Vec3): Vec3 {
    Scale(v, lib.inverseSqrt(Dot(v, v)))
  }

  /**
   * The basis updateCameraVectors derives from the angles: front from yaw
   * and pitch, right from front and the world up vector, and up from right
   * and front. Whatever the trigonometry, the three vectors are pairwise
   * orthogonal.
   */
  function CameraVectors(lib: MathLib, yaw: real, pitch: real, worldUp: Vec3): Basis {
    var front := Normalize(lib, FrontDirection(lib, yaw, pitch));
    var right := Normalize(lib, Cross(front, worldUp));
    Basis(front, right, Normalize(lib, Cross(right, front)))
  }

  /** The unnormalised front vector (cos yaw cos pitch, sin pitch, sin yaw cos pitch). */
  function FrontDirection(lib: MathLib, yaw: real, pitch: real): Vec3 {
    Vec3(lib.cosDeg(yaw) * lib.cosDeg(pitch), lib.sinDeg(pitch), lib.sinDeg(yaw) * lib.cosDeg(pitch))
  }

  /** Whatever the trigonometry computes, the derived basis vectors are pairwise orthogonal. */
  lemma BasisOrthogonal(lib: MathLib, yaw: real, pitch: real, worldUp: Vec3)
    ensures var b := CameraVectors(lib, yaw, pitch, worldUp);
      Dot(b.front, b.right) == 0.0 && Dot(b.front, b.up) == 0.0 && Dot(b.right, b.up) == 0.0
  {
    var b := CameraVectors(lib, yaw, pitch, worldUp);
    var c1 := Cross(b.front, worldUp);
    var c2 := Cross(b.right, b.front);
    assert b.right == Scale(c1, lib.inverseSqrt(Dot(c1, c1)));
    assert b.up == Scale(c2, lib.inverseSqrt(Dot(c2, c2)));
    CrossOrthogonalLeft(b.front, worldUp);
    DotScaleRight(b.front, c1, lib.inverseSqrt(Dot(c1, c1)));
    CrossOrthogonalRight(b.right, b.front);
    DotScaleRight(b.front, c2, lib.inverseSqrt(Dot(c2, c2)));
    CrossOrthogonalLeft(b.right, b.front);
    DotScaleRight(b.right, c2, lib.inverseSqrt(Dot(c2, c2)));
  }

  /** Pitch after the two clamping tests of the mouse handler. */
  function ClampPitch(p: real): (r: real)
    ensures -MaxPitch <= r <= MaxPitch
    ensures r == p <==> -MaxPitch <= p <= MaxPitch
    ensures p > MaxPitch ==> r == MaxPitch
    ensures p < -MaxPitch ==> r == -MaxPitch
  {
    if p > MaxPitch then MaxPitch else if p < -MaxPitch then -MaxPitch else p
  }

  /** Zoom after one wheel event of delta y. */
  function Scrolled(zoom: real, y: real): (r: real)
    ensures MinZoom <= r <= MaxZoom
    ensures r == zoom - y <==> MinZoom <= zoom - y <= MaxZoom
    ensures zoom - y < MinZoom ==> r == MinZoom
    ensures zoom - y > MaxZoom ==> r == MaxZoom
  {
    var z := zoom - y;
    if z < MinZoom then MinZoom else if z > MaxZoom then MaxZoom else z
  }

  /** Zoom after n wheel events of the same delta y. */
  function ScrolledTimes(zoom: real, y: real, n: nat): real {
    if n == 0 then zoom else Scrolled(ScrolledTimes(zoom, y, n - 1), y)
  }

  function Max(a: real, b: real): real {
    if a < b then b else a
  }

  /** The sum of n deltas of y. */
  function Total(y: real, n: nat): (t: real)
    ensures y >= 0.0 ==> t >= 0.0
  {
    if n == 0 then 0.0 else Total(y, n - 1) + y
  }

  lemma {:induction false} TotalIsProduct(y: real, n: nat)
    ensures Total(y, n) == (n as real) * y
  {
    if n > 0 {
      TotalIsProduct(y, n - 1);
      assert (n as real) * y == ((n - 1) as real) * y + y;
    }
  }

  lemma {:induction false} ScrolledTimesTotal(zoom: real, y: real, n: nat)
    requires MinZoom <= zoom <= MaxZoom && y >= 0.0
    ensures ScrolledTimes(zoom, y, n) == Max(MinZoom, zoom - Total(y, n))
  {
    if n > 0 {
      ScrolledTimesTotal(zoom, y, n - 1);
    }
  }

  /**
   * Scrolling n times by a non-negative delta from a zoom in range lowers
   * the zoom by n times the delta, stopping at the lower bound.
   */
  lemma ScrolledTimesDown(zoom: real, y: real, n: nat)
    requires MinZoom <= zoom <= MaxZoom && y >= 0.0
    ensures ScrolledTimes(zoom, y, n) == Max(MinZoom, zoom - (n as real) * y)
  {
    ScrolledTimesTotal(zoom, y, n);
    TotalIsProduct(y, n);
  }

  /** Scrolling down by at least the distance to the lower bound leaves the zoom at the bound. */
  lemma ScrollToMin(zoom: real, y: real, n: nat)
    requires MinZoom <= zoom <= MaxZoom && y >= 0.0
    requires (n as real) * y >= zoom - MinZoom
    ensures ScrolledTimes(zoom, y, n) == MinZoom
  {
    ScrolledTimesDown(zoom, y, n);
  }

  /** From the default zoom, ten wheel steps of 1 give 35 and fifty more give 1. */
  lemma ScrollFromDefault()
    ensures ScrolledTimes(DefaultZoom, 1.0, 10) == 35.0
    ensures ScrolledTimes(ScrolledTimes(DefaultZoom, 1.0, 10), 1.0, 50) == MinZoom
  {
    ScrolledTimesDown(DefaultZoom, 1.0, 10);
    ScrollToMin(35.0, 1.0, 50);
  }

  /** Position after one keyboard step in direction d, the basis being b. */
  function Moved(p: Vec3, b: Basis, d: Direction): Vec3 {
    match d
    case Forward => Add(p, Scale(b.front, Speed))
    case Backward => Sub(p, Scale(b.front, Speed))
    case Left => Sub(p, Scale(b.right, Speed))
    case Right => Add(p, Scale(b.right, Speed))
    case Up => Add(p, Scale(b.up, Speed))
    case Down => Sub(p, Scale(b.up, Speed))
  }

  function Opposite(d: Direction): Direction {
    match d
    case Forward => Backward
    case Backward => Forward
    case Left => Right
    case Right => Left
    case Up => Down
    case Down => Up
  }

  /** A step followed by the opposite step returns the camera to where it was. */
  lemma MoveThenOpposite(p: Vec3, b: Basis, d: Direction)
    ensures Moved(Moved(p, b, d), b, Opposite(d)) == p
  {
  }

  /** Position after the keyboard steps ds, taken in order. */
  function MovedAll(p: Vec3, b: Basis, ds: seq<Direction>): Vec3
    decreases ds
  {
    if ds == [] then p else MovedAll(Moved(p, b, ds[0]), b, ds[1..])
  }

  /** How far a single step in d goes along the axis whose plus and minus directions are given. */
  function Unit(d: Direction, plus: Direction, minus: Direction): real {
    if d == plus then 1.0 else if d == minus then -1.0 else 0.0
  }

  /** Steps in direction plus minus steps in direction minus, among ds. */
  function Net(ds: seq<Direction>, plus: Direction, minus: Direction): real {
    if ds == [] then 0.0 else Unit(ds[0], plus, minus) + Net(ds[1..], plus, minus)
  }

  /** The position reached by f, r and u steps along front, right and up from p. */
  function Along(p: Vec3, b: Basis, f: real, r: real, u: real): Vec3 {
    Add(p, Add(Add(Scale(b.front, Speed * f), Scale(b.right, Speed * r)), Scale(b.up, Speed * u)))
  }

  lemma AlongNowhere(p: Vec3, b: Basis)
    ensures Along(p, b, 0.0, 0.0, 0.0) == p
  {
    assert Speed * 0.0 == 0.0;
    ScaleZero(b.front);
    ScaleZero(b.right);
    ScaleZero(b.up);
  }

  lemma ScaleZero(v: Vec3)
    ensures Scale(v, 0.0) == Zero3
  {
  }

  lemma ScaleAdd(v: Vec3, a: real, c: real)
    ensures Scale(v, a + c) == Add(Scale(v, a), Scale(v, c))
  {
  }

  /** One step in direction d adds one to the count of its axis (minus one for backward, left, down). */
  lemma StepAlong(p: Vec3, b: Basis, d: Direction, f: real, r: real, u: real)
    ensures Along(Moved(p, b, d), b, f, r, u) ==
            Along(p, b, Unit(d, Forward, Backward) + f, Unit(d, Right, Left) + r, Unit(d, Up, Down) + u)
  {
    match d
    case Forward => ScaleAdd(b.front, Speed, Speed * f);
    case Backward => ScaleAdd(b.front, -Speed, Speed * f);
    case Right => ScaleAdd(b.right, Speed, Speed * r);
    case Left => ScaleAdd(b.right, -Speed, Speed * r);
    case Up => ScaleAdd(b.up, Speed, Speed * u);
    case Down => ScaleAdd(b.up, -Speed, Speed * u);
  }

  /**
   * Any sequence of keyboard steps moves the camera as far as the same
   * steps in any other order: the position reached only depends on how many
   * steps were taken in each direction.
   */
  lemma {:induction false} MovedAllByCounts(p: Vec3, b: Basis, ds: seq<Direction>)
    ensures MovedAll(p, b, ds) ==
            Along(p, b, Net(ds, Forward, Backward), Net(ds, Right, Left), Net(ds, Up, Down))
    decreases ds
  {
    if ds == [] {
      AlongNowhere(p, b);
    } else {
      var d, rest := ds[0], ds[1..];
      var f, r, u := Net(rest, Forward, Backward), Net(rest, Right, Left), Net(rest, Up, Down);
      calc {
        MovedAll(p, b, ds);
        MovedAll(Moved(p, b, d), b, rest);
        { MovedAllByCounts(Moved(p, b, d), b, rest); }
        Along(Moved(p, b, d), b, f, r, u);
        { StepAlong(p, b, d, f, r, u); }
        Along(p, b, Unit(d, Forward, Backward) + f, Unit(d, Right, Left) + r, Unit(d, Up, Down) + u);
        Along(p, b, Net(ds, Forward, Backward), Net(ds, Right, Left), Net(ds, Up, Down));
      }
    }
  }

  class Camera {
    var position: Vec3
    var front: Vec3
    var up: Vec3
    var right: Vec3
    var worldUp: Vec3
    var yaw: real
    var pitch: real
    var zoom: real
    const lib: MathLib

    /** The zoom is in range and the basis is the one the angles give. */
    ghost predicate Valid()
      reads this
    {
      MinZoom <= zoom <= MaxZoom &&
      Basis(front, right, up) == CameraVectors(lib, yaw, pitch, worldUp)
    }

    function CurrentBasis(): Basis
      reads this
    {
      Basis(front, right, up)
    }

    constructor (lib: MathLib, position: Vec3, up: Vec3, yaw: real, pitch: real)
      ensures Valid()
      ensures this.lib == lib && this.position == position && worldUp == up
      ensures this.yaw == yaw && this.pitch == pitch && zoom == DefaultZoom
      ensures CurrentBasis() == CameraVectors(lib, yaw, pitch, up)
    {
      this.lib := lib;
      this.position := position;
      front := Vec3(0.0, 0.0, -1.0);
      this.up := Zero3;
      right := Zero3;
      worldUp := up;
      this.yaw := yaw;
      this.pitch := pitch;
      zoom := DefaultZoom;
      new;
      UpdateCameraVectors();
    }

    /** The constructor with every default argument. */
    constructor Default(lib: MathLib)
      ensures Valid()
      ensures this.lib == lib && position == Zero3 && worldUp == Vec3(0.0, 1.0, 0.0)
      ensures yaw == DefaultYaw && pitch == DefaultPitch && zoom == DefaultZoom
    {
      this.lib := lib;
      position := Zero3;
      front := Vec3(0.0, 0.0, -1.0);
      up := Zero3;
      right := Zero3;
      worldUp := Vec3(0.0, 1.0, 0.0);
      yaw := DefaultYaw;
      pitch := DefaultPitch;
      zoom := DefaultZoom;
      new;
      UpdateCameraVectors();
    }

    /** The view looks from the position along front, with up as vertical. */
    function ViewMatrix(): (m: LookAt)
      reads this
      ensures m.eye == position && Sub(m.center, m.eye) == front && m.up == up
    {
      LookAt(position, Add(position, front), up)
    }

    method ProcessKeyboard(direction: Direction)
      modifies this
      ensures old(Valid()) ==> Valid()
      ensures position == Moved(old(position), CurrentBasis(), direction)
      ensures yaw == old(yaw) && pitch == old(pitch) && zoom == old(zoom)
      ensures CurrentBasis() == old(CurrentBasis()) && worldUp == old(worldUp)
    {
      match direction
      case Forward => position := Add(position, Scale(front, Speed));
      case Backward => position := Sub(position, Scale(front, Speed));
      case Left => position := Sub(position, Scale(right, Speed));
      case Right => position := Add(position, Scale(right, Speed));
      case Up => position := Add(position, Scale(up, Speed));
      case Down => position := Sub(position, Scale(up, Speed));
    }

    method ProcessMouseMovement(xOffset: real, yOffset: real)
      requires Valid()
      modifies this
      ensures Valid()
      ensures yaw == old(yaw) + xOffset * Sensitivity
      ensures pitch == ClampPitch(old(pitch) + yOffset * Sensitivity)
      ensures -MaxPitch <= pitch <= MaxPitch
      ensures -MaxPitch <= old(pitch) + yOffset * Sensitivity <= MaxPitch ==> pitch == old(pitch) + yOffset * Sensitivity
      ensures position == old(position) && zoom == old(zoom) && worldUp == old(worldUp)
    {
      var x := xOffset * Sensitivity;
      var y := yOffset * Sensitivity;
      yaw := yaw + x;
      pitch := pitch + y;
      if pitch > MaxPitch {
        pitch := MaxPitch;
      }
      if pitch < -MaxPitch {
        pitch := -MaxPitch;
      }
      UpdateCameraVectors();
    }

    method ProcessMouseScroll(yOffset: real)
      requires Valid()
      modifies this
      ensures Valid()
      ensures zoom == Scrolled(old(zoom), yOffset)
      ensures MinZoom <= old(zoom) - yOffset <= MaxZoom ==> zoom == old(zoom) - yOffset
      ensures position == old(position) && yaw == old(yaw) && pitch == old(pitch)
      ensures CurrentBasis() == old(CurrentBasis()) && worldUp == old(worldUp)
    {
      zoom := zoom - yOffset;
      if zoom < MinZoom {
        zoom := MinZoom;
      }
      if zoom > MaxZoom {
        zoom := MaxZoom;
      }
    }

    method UpdateCameraVectors()
      modifies this
      ensures CurrentBasis() == CameraVectors(lib, yaw, pitch, worldUp)
      ensures position == old(position) && worldUp == old(worldUp)
      ensures yaw == old(yaw) && pitch == old(pitch) && zoom == old(zoom)
    {
      front := Normalize(lib, FrontDirection(lib, yaw, pitch));
      right := Normalize(lib, Cross(front, worldUp));
      up := Normalize(lib, Cross(right, front));
    }

    /** The field of view, in range whenever the camera is valid. */
    function Zoom(): (z: real)
      reads this
      ensures Valid() ==> MinZoom <= z <= MaxZoom
    {
      zoom
    }

    function Position(): Vec3 reads this { position }

    function Front(): Vec3 reads this { front }

    function Yaw(): real reads this { yaw }

    function Pitch(): real reads this { pitch }
  }

  /** Stepping in a direction and then in the opposite one leaves the camera where it was. */
  method StepAndReturn(c: Camera, d: Direction)
    modifies c
    ensures c.position == old(c.position) && c.CurrentBasis() == old(c.CurrentBasis())
    ensures c.ViewMatrix() == old(c.ViewMatrix())
  {
    c.ProcessKeyboard(d);
    c.ProcessKeyboard(Opposite(d));
    MoveThenOpposite(old(c.position), c.CurrentBasis(), d);
  }

  /**
   * A mouse motion that does not reach the pitch limits is undone by the
   * opposite motion: angles and basis are restored.
   */
  method LookAndReturn(c: Camera, dx: real, dy: real)
    requires c.Valid()
    requires -MaxPitch <= c.pitch <= MaxPitch
    requires -MaxPitch <= c.pitch + dy * Sensitivity <= MaxPitch
    modifies c
    ensures c.Valid()
    ensures c.yaw == old(c.yaw) && c.pitch == old(c.pitch)
    ensures c.CurrentBasis() == old(c.CurrentBasis()) && c.ViewMatrix() == old(c.ViewMatrix())
  {
    c.ProcessMouseMovement(dx, dy);
    c.ProcessMouseMovement(-dx, -dy);
  }
}
