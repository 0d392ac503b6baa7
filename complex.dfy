/**
 * Complex values as exact pairs of reals. Both precisions of the source
 * (std::complex<double> and the 25-digit mp_complex) are modelled by this one
 * type; rounding is not modelled. Addition, subtraction, multiplication,
 * conjugation and division are exact; the transcendental routines of the
 * host libraries are parameters (a Numerics record) because their code is
 * not part of this model.
 */
module Complex {
  datatype Cx = Cx(re: real, im: real)

  const Zero := Cx(0.0, 0.0)
  const I := Cx(0.0, 1.0)

  /** The floating-point routines of the host math libraries, left uninterpreted. */
  datatype Numerics = Numerics(
    sin: Cx -> Cx, cos: Cx -> Cx, tan: Cx -> Cx,
    sinh: Cx -> Cx, cosh: Cx -> Cx, tanh: Cx -> Cx,
    pow: (Cx, Cx) -> Cx,
    /** what the library's division returns for a zero divisor (infinities or NaN in IEEE arithmetic) */
    divByZero: Cx -> Cx)

  function Add(z: Cx, w: Cx): Cx { Cx(z.re + w.re, z.im + w.im) }

  function Sub(z: Cx, w: Cx): Cx { Cx(z.re - w.re, z.im - w.im) }

  function Mul(z: Cx, w: Cx): Cx { Cx(z.re * w.re - z.im * w.im, z.re * w.im + z.im * w.re) }

  function Conj(z: Cx): Cx { Cx(z.re, -z.im) }

  function NormSq(z: Cx): real { z.re * z.re + z.im * z.im }

  /**
   * (a+bi)/(c+di). A divisor with c*c + d*d == 0 (the zero divisor) follows
   * the library's own convention.
   */
  function Div(z: Cx, w: Cx, num: Numerics): Cx {
    var n := NormSq(w);
    if n == 0.0 then num.divByZero(z)
    else Cx((z.re * w.re + z.im * w.im) / n, (z.im * w.re - z.re * w.im) / n)
  }

  /** Conjugation is an involution, and z times its conjugate is the real number |z|^2. */
  lemma ConjProperties(z: Cx)
    ensures Conj(Conj(z)) == z
    ensures Mul(z, Conj(z)) == Cx(NormSq(z), 0.0)
  {
  }

  /** Division by a non-zero divisor is the inverse of multiplication: (z / w) * w == z. */
  lemma DivThenMul(z: Cx, w: Cx, num: Numerics)
    requires NormSq(w) != 0.0
    ensures Mul(Div(z, w, num), w) == z
  {
    var n := NormSq(w);
    var a, b, c, d := z.re, z.im, w.re, w.im;
    var q := Div(z, w, num);
    assert q.re == (a * c + b * d) / n && q.im == (b * c - a * d) / n;
    calc {
      q.re * c - q.im * d;
      ((a * c + b * d) * c - (b * c - a * d) * d) / n;
      { assert (a * c + b * d) * c - (b * c - a * d) * d == a * (c * c + d * d); }
      a * n / n;
      a;
    }
    calc {
      q.re * d + q.im * c;
      ((a * c + b * d) * d + (b * c - a * d) * c) / n;
      { assert (a * c + b * d) * d + (b * c - a * d) * c == b * (c * c + d * d); }
      b * n / n;
      b;
    }
  }
}
