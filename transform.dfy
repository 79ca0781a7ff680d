/**
 * The transform a shape carries: a translation of any coordinate type, a
 * rotation count (positive clockwise) and a two-component scale.  The pair
 * type `Float2D` is modelled over integers.
 */
module CoreTransform {

  datatype Float2D = Float2D(x: int, y: int)

  /** The one-argument form: both components equal. */
  function Splat(v: int): (f: Float2D)
    ensures f.x == v && f.y == v
  {
    Float2D(v, v)
  }

  function Add(a: Float2D, b: Float2D): Float2D
  {
    Float2D(a.x + b.x, a.y + b.y)
  }

  function Neg(a: Float2D): Float2D
  {
    Float2D(-a.x, -a.y)
  }

  /** Negation undoes itself and is the additive inverse; addition is commutative. */
  lemma Float2DLaws(a: Float2D, b: Float2D)
    ensures Neg(Neg(a)) == a
    ensures Add(a, Neg(a)) == Splat(0)
    ensures Add(a, b) == Add(b, a)
  {
  }

  /** `+=`: each component is increased by the matching component of `rhs`. */
  method AddAssign(f: Float2D, rhs: Float2D) returns (updated: Float2D)
    ensures updated.x == f.x + rhs.x && updated.y == f.y + rhs.y
    ensures updated == Add(f, rhs)
  {
    updated := f.(x := f.x + rhs.x);
    updated := updated.(y := updated.y + rhs.y);
  }

  /** `*=`: each component is multiplied by the matching component of `rhs`. */
  method MulAssign(f: Float2D, rhs: Float2D) returns (updated: Float2D)
    ensures updated.x == f.x * rhs.x && updated.y == f.y * rhs.y
  {
    updated := f.(x := f.x * rhs.x);
    updated := updated.(y := updated.y * rhs.y);
  }

  datatype Transform<T> = Transform(translation: T, rotation: int, scale: Float2D)

  /** The default transform: the default translation, no rotation and unit scale. */
  function DefaultTransform<T>(zero: T): (t: Transform<T>)
    ensures t.translation == zero && t.rotation == 0 && t.scale == Splat(1)
  {
    Transform(zero, 0, Splat(1))
  }

  /** Combining two transforms adds each part; `add` is the translation type's `+`. */
  function AddTransform<T>(a: Transform<T>, b: Transform<T>, add: (T, T) -> T): Transform<T>
  {
    Transform(add(a.translation, b.translation), a.rotation + b.rotation, Add(a.scale, b.scale))
  }

  /** The inverse transform: translation times -1 (`mul` is the translation type's `*`), rotation and scale negated. */
  function NegTransform<T>(t: Transform<T>, mul: (T, int) -> T): Transform<T>
  {
    Transform(mul(t.translation, -1), -t.rotation, Neg(t.scale))
  }

  /**
   * Negating twice gives the transform back whenever multiplying the
   * translation by -1 twice does; the rotations of `t` and `-t` cancel.
   */
  lemma NegTransformInvolution<T>(t: Transform<T>, mul: (T, int) -> T)
    requires mul(mul(t.translation, -1), -1) == t.translation
    ensures NegTransform(NegTransform(t, mul), mul) == t
    ensures t.rotation + NegTransform(t, mul).rotation == 0
    ensures Add(t.scale, NegTransform(t, mul).scale) == Splat(0)
  {
    Float2DLaws(t.scale, t.scale);
  }

  /** Combining is commutative whenever the translation type's `+` is. */
  lemma AddTransformCommutes<T>(a: Transform<T>, b: Transform<T>, add: (T, T) -> T)
    requires add(a.translation, b.translation) == add(b.translation, a.translation)
    ensures AddTransform(a, b, add) == AddTransform(b, a, add)
  {
    Float2DLaws(a.scale, b.scale);
  }
}
