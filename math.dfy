/**
 * Value types of the geometry layer. Floating-point arithmetic is not modelled:
 * a Float is an uninterpreted 32-bit pattern, and only where values go is reasoned about.
 */
module Math {
  type byte = x: int | 0 <= x < 0x100
  type uint16 = x: int | 0 <= x < 0x1_0000

  datatype Float = Float(bits: bv32)

  datatype Vec2D = Vec2D(x: Float, y: Float)

  datatype Mat2D = Mat2D(xx: Float, xy: Float, yx: Float, yy: Float, tx: Float, ty: Float)
}
