/**
 * Stand-ins for the engine types the game's scripts touch. Each reference type
 * keeps only the state the scripts read or write; `SetActive` on a game object
 * becomes a write of its `active` field.
 */
module Engine {

  /** An RGBA colour with real components (float rounding is not modelled). */
  datatype Color = Color(r: real, g: real, b: real, a: real)

  /** Clamps an interpolation parameter into [0, 1], as `Color.Lerp` does before use. */
  function Clamp01(t: real): (u: real)
    ensures 0.0 <= u <= 1.0
    ensures 0.0 <= t <= 1.0 ==> u == t
  {
    if t < 0.0 then 0.0 else if t > 1.0 then 1.0 else t
  }

  /** Linear interpolation between two colours with a clamped parameter. */
  function Lerp(from: Color, to: Color, t: real): Color
  {
    var u := Clamp01(t);
    Color(from.r + (to.r - from.r) * u, from.g + (to.g - from.g) * u,
          from.b + (to.b - from.b) * u, from.a + (to.a - from.a) * u)
  }

  /** A scene object; `active` is its own active flag (activeSelf). */
  class GameObject {
    var active: bool
  }

  /** A material asset, only ever assigned by reference. */
  class Material {
  }

  /** A renderer; only the material it draws with is modelled. */
  class Renderer {
    var material: Material?
  }

  /** A light; only its colour is modelled. */
  class Light {
    var color: Color
  }

  datatype CursorLockMode = None | Locked | Confined

  /** The global cursor state. */
  class Cursor {
    var lockState: CursorLockMode
    var visible: bool
  }

  /** The input component of the first-person controller package. */
  class StarterAssetsInputs {
    var interact: bool
    var cursorLocked: bool
    var cursorInputForLook: bool
  }

  /** The first-person movement controller; only whether it is enabled is modelled. */
  class FirstPersonController {
    var enabled: bool
  }
}
