/** The Unity value types the terrain pipeline uses, with `real` in place of
    `float`. */
module Unity {

  datatype Vector2 = Vector2(x: real, y: real)

  datatype Vector3 = Vector3(x: real, y: real, z: real)
  {
    function Plus(other: Vector3): Vector3
    {
      Vector3(x + other.x, y + other.y, z + other.z)
    }
  }

  datatype Color = Color(r: real, g: real, b: real, a: real)

  const Black: Color := Color(0.0, 0.0, 0.0, 1.0)
  const White: Color := Color(1.0, 1.0, 1.0, 1.0)

  function Clamp01(t: real): real
  {
    if t < 0.0 then 0.0 else if t > 1.0 then 1.0 else t
  }

  /** `Color.Lerp`: componentwise linear interpolation, `t` clamped to [0, 1]. */
  function Lerp(a: Color, b: Color, t: real): Color
  {
    var u := Clamp01(t);
    Color(a.r + (b.r - a.r) * u, a.g + (b.g - a.g) * u, a.b + (b.b - a.b) * u, a.a + (b.a - a.a) * u)
  }
}
