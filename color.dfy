/** RGB colours and their channel-wise algebra. Channels are plain reals: the
    layer never clamps, so out-of-range values such as (-0.5, 0.4, 1.7) are
    ordinary colours (clamping happens only when a canvas is serialised).
    `Color::new` is the datatype constructor `Color(r, g, b)`. */
module Colors {
  import opened Utils

  datatype Color = Color(r: real, g: real, b: real)

  const Black := Color(0.0, 0.0, 0.0)
  const White := Color(1.0, 1.0, 1.0)

  /** `a + b`: channel-wise sum. */
  function Add(a: Color, b: Color): Color
  {
    Color(a.r + b.r, a.g + b.g, a.b + b.b)
  }

  /** `-a`: every channel negated. */
  function Neg(a: Color): Color
  {
    Color(-a.r, -a.g, -a.b)
  }

  /** `a - b`, which the source defines as `a + -b`. */
  function Sub(a: Color, b: Color): (c: Color)
    ensures c.r == a.r - b.r && c.g == a.g - b.g && c.b == a.b - b.b
  {
    Add(a, Neg(b))
  }

  /** `a * s` for a scalar s. */
  function Scale(a: Color, s: real): Color
  {
    Color(a.r * s, a.g * s, a.b * s)
  }

  /** `a * b` for two colours: the channel-wise (Hadamard) product. */
  function Mul(a: Color, b: Color): Color
  {
    Color(a.r * b.r, a.g * b.g, a.b * b.b)
  }

  /** `a / s`, which the source defines as `a * (1 / s)`. */
  function Div(a: Color, s: real): (c: Color)
    requires s != 0.0
    ensures c.r * s == a.r && c.g * s == a.g && c.b * s == a.b
  {
    Scale(a, 1.0 / s)
  }

  /** `PartialEq`: every channel approximately equal. */
  predicate Equal(a: Color, b: Color)
  {
    ApproxEq(a.r, b.r) && ApproxEq(a.g, b.g) && ApproxEq(a.b, b.b)
  }

  lemma AddCommutative(a: Color, b: Color)
    ensures Add(a, b) == Add(b, a)
  {
  }

  lemma AddAssociative(a: Color, b: Color, c: Color)
    ensures Add(Add(a, b), c) == Add(a, Add(b, c))
  {
  }

  /** Black is the neutral element of addition. */
  lemma AddBlack(a: Color)
    ensures Add(a, Black) == a && Add(Black, a) == a
  {
  }

  lemma NegInvolutive(a: Color)
    ensures Neg(Neg(a)) == a
  {
  }

  /** Subtraction undoes addition, and a colour minus itself is black. */
  lemma SubAddRoundTrip(a: Color, b: Color)
    ensures Add(Sub(a, b), b) == a
    ensures Sub(Add(a, b), b) == a
    ensures Sub(a, a) == Black
  {
  }

  lemma ScaleDistributes(a: Color, b: Color, s: real)
    ensures Scale(Add(a, b), s) == Add(Scale(a, s), Scale(b, s))
  {
  }

  /** Scaling by a scalar is the Hadamard product with a grey of that level. */
  lemma ScaleIsMulByGrey(a: Color, s: real)
    ensures Scale(a, s) == Mul(a, Color(s, s, s))
  {
  }

  lemma MulCommutative(a: Color, b: Color)
    ensures Mul(a, b) == Mul(b, a)
  {
  }

  /** White is the neutral element of the Hadamard product, black absorbs. */
  lemma MulWhiteBlack(a: Color)
    ensures Mul(a, White) == a
    ensures Mul(a, Black) == Black
  {
  }

  /** Division by s is undone by scaling by s. */
  lemma DivScaleRoundTrip(a: Color, s: real)
    requires s != 0.0
    ensures Scale(Div(a, s), s) == a
    ensures Div(Scale(a, s), s) == a
  {
  }

  lemma EqualReflexive(a: Color)
    ensures Equal(a, a)
  {
  }

  lemma EqualSymmetric(a: Color, b: Color)
    ensures Equal(a, b) <==> Equal(b, a)
  {
  }

  /** The colour tests: construction keeps out-of-range channels, and the
      arithmetic results, which over reals hold exactly. */
  lemma ColorExamples()
    ensures Color(-0.5, 0.4, 1.7).r == -0.5 && Color(-0.5, 0.4, 1.7).g == 0.4 && Color(-0.5, 0.4, 1.7).b == 1.7
    ensures Add(Color(0.9, 0.6, 0.75), Color(0.7, 0.1, 0.25)) == Color(1.6, 0.7, 1.0)
    ensures Sub(Color(0.9, 0.6, 0.75), Color(0.7, 0.1, 0.25)) == Color(0.2, 0.5, 0.5)
    ensures Scale(Color(0.2, 0.3, 0.4), 2.0) == Color(0.4, 0.6, 0.8)
    ensures Mul(Color(1.0, 0.2, 0.4), Color(0.9, 1.0, 0.1)) == Color(0.9, 0.2, 0.04)
  {
  }
}
