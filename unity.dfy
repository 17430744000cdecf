/** The slice of the game engine that the gameplay scripts lean on: optional references,
    vectors, key codes, the Mathf helpers they call, Vector3 equality, C# 32-bit integer
    arithmetic and the scene objects whose flags the scripts write. Floats are modelled
    as exact reals. */
module Unity {

  datatype Option<+T> = None | Some(value: T)

  // ---------------------------------------------------------------------------
  // Vectors
  // ---------------------------------------------------------------------------

  datatype Vec3 = Vec3(x: real, y: real, z: real)
  datatype Vec2 = Vec2(x: real, y: real)

  const Zero3: Vec3 := Vec3(0.0, 0.0, 0.0)

  function Plus(a: Vec3, b: Vec3): Vec3 {
    Vec3(a.x + b.x, a.y + b.y, a.z + b.z)
  }

  function Minus(a: Vec3, b: Vec3): Vec3 {
    Vec3(a.x - b.x, a.y - b.y, a.z - b.z)
  }

  function SqrMagnitude(v: Vec3): (r: real)
    ensures r >= 0.0
  {
    v.x * v.x + v.y * v.y + v.z * v.z
  }

  /** Vector3's `==` operator: the difference is shorter than 1e-5. */
  predicate SameVector(a: Vec3, b: Vec3) {
    SqrMagnitude(Minus(a, b)) < 0.00001 * 0.00001
  }

  // ---------------------------------------------------------------------------
  // Mathf
  // ---------------------------------------------------------------------------

  function Abs(x: real): real {
    if x < 0.0 then -x else x
  }

  function MaxReal(a: real, b: real): real {
    if a > b then a else b
  }

  /** The smallest positive float the engine calls Mathf.Epsilon (1.401298e-45). */
  const FloatEpsilon: real := 1.401298 / 1000000000000000000000000000000000000000000000.0

  /** Mathf.Approximately: the two values differ by less than a millionth of the larger
      magnitude, or by less than eight times the smallest float. */
  predicate Approximately(a: real, b: real) {
    Abs(b - a) < MaxReal(0.000001 * MaxReal(Abs(a), Abs(b)), FloatEpsilon * 8.0)
  }

  /** Mathf.Clamp on floats: below `lo` gives `lo`, otherwise above `hi` gives `hi`. */
  function Clamp(v: real, lo: real, hi: real): (r: real)
    ensures lo <= hi ==> lo <= r <= hi
    ensures v < lo ==> r == lo
    ensures lo <= v && hi < v ==> r == hi
    ensures lo <= v <= hi ==> r == v
  {
    if v < lo then lo else if v > hi then hi else v
  }

  /** Mathf.Clamp on ints, with the same order of tests as the float version. */
  function ClampInt(v: int, lo: int, hi: int): (r: int)
    ensures lo <= hi ==> lo <= r <= hi
    ensures v < lo ==> r == lo
    ensures lo <= v && hi < v ==> r == hi
    ensures lo <= v <= hi ==> r == v
  {
    if v < lo then lo else if v > hi then hi else v
  }

  function MaxInt(a: int, b: int): (r: int)
    ensures r >= a && r >= b && (r == a || r == b)
  {
    if a > b then a else b
  }

  // ---------------------------------------------------------------------------
  // C# int
  // ---------------------------------------------------------------------------

  const MinInt32: int := -0x8000_0000
  const MaxInt32: int := 0x7FFF_FFFF

  type int32 = x: int | MinInt32 <= x <= MaxInt32

  /** Two's-complement wrap-around of an unchecked C# int operation. */
  function Wrap32(x: int): (r: int32)
    ensures MinInt32 <= x <= MaxInt32 ==> r == x
    ensures (r - x) % 0x1_0000_0000 == 0
  {
    (x - MinInt32) % 0x1_0000_0000 + MinInt32
  }

  /** C#'s `%` for a positive divisor: it truncates towards zero, so the remainder takes
      the dividend's sign. */
  function Remainder(a: int, b: int): (r: int)
    requires b > 0
    ensures a >= 0 ==> 0 <= r < b && r == a % b
    ensures a < 0 ==> -b < r <= 0
  {
    if a >= 0 then a % b else -((-a) % b)
  }

  function Add32(a: int32, b: int32): int32 { Wrap32(a + b) }
  function Sub32(a: int32, b: int32): int32 { Wrap32(a - b) }

  // ---------------------------------------------------------------------------
  // Keys
  // ---------------------------------------------------------------------------

  /** The KeyCode values the scripts configure. */
  datatype KeyCode = A | D | E | J | L | W | Space

  /** The name KeyCode.ToString() produces, as interpolated into prompt strings. */
  function KeyName(k: KeyCode): (s: string)
    ensures |s| > 0
  {
    match k
    case A => "A"
    case D => "D"
    case E => "E"
    case J => "J"
    case L => "L"
    case W => "W"
    case Space => "Space"
  }

  // ---------------------------------------------------------------------------
  // Scene objects whose state the scripts write
  // ---------------------------------------------------------------------------

  /** A component with an `enabled` flag (a script, a light, a fan). */
  class Behaviour {
    var enabled: bool
    constructor (enabled: bool)
      ensures this.enabled == enabled
    {
      this.enabled := enabled;
    }
  }

  /** A renderer, shown or hidden through its `enabled` flag. */
  class Renderer {
    var enabled: bool
    constructor (enabled: bool)
      ensures this.enabled == enabled
    {
      this.enabled := enabled;
    }
  }

  /** A scene object; SetActive writes `activeSelf`. */
  class GameObject {
    var activeSelf: bool
    constructor (active: bool)
      ensures activeSelf == active
    {
      activeSelf := active;
    }
  }

  /** A text component; writing its `text` changes what it shows. */
  class Label {
    var text: string
    constructor (text: string)
      ensures this.text == text
    {
      this.text := text;
    }
  }

  /** A player's root transform, with its rigidbody's velocity when it has one. */
  class Body {
    var position: Vec3
    var hasRigidbody: bool
    var velocity: Vec3
    constructor (position: Vec3, hasRigidbody: bool)
      ensures this.position == position && this.hasRigidbody == hasRigidbody
      ensures velocity == Zero3
    {
      this.position := position;
      this.hasRigidbody := hasRigidbody;
      velocity := Zero3;
    }
  }

  /** Index of the first non-null entry of an array of references, or its length if
      every entry is null (a foreach that breaks at the first live target). */
  function FirstNonNull(s: seq<object?>): (k: nat)
    ensures k <= |s|
    ensures k < |s| ==> s[k] != null
    ensures forall j :: 0 <= j < k ==> s[j] == null
  {
    if |s| == 0 then 0
    else if s[0] != null then 0
    else 1 + FirstNonNull(s[1..])
  }
}
