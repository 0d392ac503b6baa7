/**
 * The sample generators of utilities.cpp over exact reals: linspace fills a
 * buffer with evenly spaced values, latspace fills a buffer with the points
 * of a rectangular lattice, row by row.
 */
module Utilities {
  import opened Complex

  /** The distance between neighbouring samples of linspace. */
  function Step(left: real, right: real, n: nat): real
    requires n >= 2
  {
    (right - left) / ((n - 1) as real)
  }

  /** The n samples linspace writes: sample i is left plus i steps. */
  function LinspaceSeq(left: real, right: real, n: nat): (s: seq<real>)
    requires n >= 2
    ensures |s| == n
  {
    seq(n, i => left + Step(left, right, n) * (i as real))
  }

  /**
   * linspace: overwrite every element of the buffer, element i becoming
   * left + step * i. The buffer keeps its length.
   */
  method Linspace(left: real, right: real, container: array<real>)
    requires container.Length >= 2
    modifies container
    ensures container[..] == LinspaceSeq(left, right, container.Length)
  {
    var stepSize := (right - left) / ((container.Length - 1) as real);
    var i := 0;
    while i < container.Length
      invariant 0 <= i <= container.Length
      invariant forall k :: 0 <= k < i ==> container[k] == left + stepSize * (k as real)
    {
      container[i] := left + stepSize * (i as real);
      i := i + 1;
    }
    var samples := LinspaceSeq(left, right, container.Length);
    assert stepSize == Step(left, right, container.Length);
    forall k | 0 <= k < container.Length
      ensures container[k] == samples[k]
    {
      assert samples[k] == left + stepSize * (k as real);
    }
    assert container[..] == samples;
  }

  /** The samples start at left, end at right, and neighbours are one step apart. */
  lemma LinspaceEnds(left: real, right: real, n: nat)
    requires n >= 2
    ensures LinspaceSeq(left, right, n)[0] == left
    ensures LinspaceSeq(left, right, n)[n - 1] == right
    ensures forall i :: 0 <= i < n - 1 ==>
      LinspaceSeq(left, right, n)[i + 1] - LinspaceSeq(left, right, n)[i] == Step(left, right, n)
  {
    var s := LinspaceSeq(left, right, n);
    var d := Step(left, right, n);
    var m := (n - 1) as real;
    assert d * m == right - left;
    assert s[n - 1] == left + d * m;
    forall i | 0 <= i < n - 1
      ensures s[i + 1] - s[i] == d
    {
      assert s[i + 1] == left + d * ((i + 1) as real);
      assert d * ((i + 1) as real) == d * (i as real) + d;
    }
  }

  /** Increasing end points give strictly increasing samples. */
  lemma LinspaceIncreasing(left: real, right: real, n: nat)
    requires n >= 2 && left < right
    ensures forall i, j :: 0 <= i < j < n ==> LinspaceSeq(left, right, n)[i] < LinspaceSeq(left, right, n)[j]
  {
    var s := LinspaceSeq(left, right, n);
    var d := Step(left, right, n);
    assert d > 0.0;
    forall i, j | 0 <= i < j < n
      ensures s[i] < s[j]
    {
      assert d * (j as real) - d * (i as real) == d * ((j - i) as real);
      assert d * ((j - i) as real) > 0.0;
    }
  }

  /** Three samples on [0, 1] are 0, 0.5 and 1. */
  lemma LinspaceThreeOnUnit()
    ensures LinspaceSeq(0.0, 1.0, 3) == [0.0, 0.5, 1.0]
  {
    var s := LinspaceSeq(0.0, 1.0, 3);
    assert Step(0.0, 1.0, 3) == 0.5;
    assert s[0] == 0.0 && s[1] == 0.5 && s[2] == 1.0;
  }

  /** The lattice point in row j and column k: real part from the column, imaginary part from the row. */
  function Point(left: Cx, spacing: Cx, j: nat, k: nat): Cx {
    Cx(left.re + (k as real) * spacing.re, left.im + (j as real) * spacing.im)
  }

  /** Row j of the lattice: cols points from left to right. */
  function Row(left: Cx, spacing: Cx, j: nat, cols: nat): (r: seq<Cx>)
    ensures |r| == cols
  {
    seq(cols, (k: int) requires 0 <= k => Point(left, spacing, j, k))
  }

  /** The first `rows` rows of the lattice, one after the other. */
  function Lattice(left: Cx, spacing: Cx, rows: nat, cols: nat): seq<Cx>
    decreases rows
  {
    if rows == 0 then [] else Lattice(left, spacing, rows - 1, cols) + Row(left, spacing, rows - 1, cols)
  }

  /**
   * A buffer after writing pts from its start through an iterator that
   * stops at the end: the points that fit, then the old contents.
   */
  function Fill<T>(old_: seq<T>, pts: seq<T>): (r: seq<T>)
    ensures |r| == |old_|
    ensures forall p :: 0 <= p < |old_| && p < |pts| ==> r[p] == pts[p]
    ensures forall p :: |pts| <= p < |old_| ==> r[p] == old_[p]
  {
    if |pts| <= |old_| then pts + old_[|pts|..] else pts[..|old_|]
  }

  /** The lattice has rows * cols points. */
  lemma {:induction false} LatticeLength(left: Cx, spacing: Cx, rows: nat, cols: nat)
    ensures |Lattice(left, spacing, rows, cols)| == rows * cols
    decreases rows
  {
    if rows > 0 {
      LatticeLength(left, spacing, rows - 1, cols);
      assert (rows - 1) * cols + cols == rows * cols;
    }
  }

  /** The lattice is stored row-major: the point in row j and column k is at j * cols + k. */
  lemma {:induction false} LatticeRowMajor(left: Cx, spacing: Cx, rows: nat, cols: nat, j: nat, k: nat)
    requires j < rows && k < cols
    ensures j * cols + k < |Lattice(left, spacing, rows, cols)|
    ensures Lattice(left, spacing, rows, cols)[j * cols + k] == Point(left, spacing, j, k)
    decreases rows
  {
    var prev := Lattice(left, spacing, rows - 1, cols);
    LatticeLength(left, spacing, rows - 1, cols);
    LatticeLength(left, spacing, rows, cols);
    if j < rows - 1 {
      LatticeRowMajor(left, spacing, rows - 1, cols, j, k);
    } else {
      assert j * cols == |prev|;
    }
  }

  /** A 2 by 2 lattice from 0 with unit spacing, in the order latspace writes it. */
  lemma LatticeTwoByTwo()
    ensures Lattice(Cx(0.0, 0.0), Cx(1.0, 1.0), 2, 2) == [Cx(0.0, 0.0), Cx(1.0, 0.0), Cx(0.0, 1.0), Cx(1.0, 1.0)]
  {
    var l, sp := Cx(0.0, 0.0), Cx(1.0, 1.0);
    assert Lattice(l, sp, 0, 2) == [];
    assert Row(l, sp, 0, 2) == [Cx(0.0, 0.0), Cx(1.0, 0.0)];
    assert Row(l, sp, 1, 2) == [Cx(0.0, 1.0), Cx(1.0, 1.0)];
  }

  /**
   * latspace: write the lattice points row by row (imaginary part outer,
   * real part inner) into the buffer, never past its end. rows and cols
   * are the numbers of times the source's two loop tests succeed.
   */
  method Latspace(left: Cx, spacing: Cx, rows: nat, cols: nat, container: array<Cx>)
    modifies container
    ensures container[..] == Fill(old(container[..]), Lattice(left, spacing, rows, cols))
  {
    ghost var s0 := container[..];
    var iter := 0;
    var y := left;
    for j := 0 to rows
      invariant y == Cx(left.re + (j as real) * spacing.re, left.im + (j as real) * spacing.im)
      invariant iter == Min(|Lattice(left, spacing, j, cols)|, container.Length)
      invariant container[..] == Fill(s0, Lattice(left, spacing, j, cols))
    {
      iter := LatspaceRow(left, spacing, y, j, cols, container, iter, s0);
      y := Add(y, spacing);
      assert ((j + 1) as real) * spacing.re == (j as real) * spacing.re + spacing.re;
      assert ((j + 1) as real) * spacing.im == (j as real) * spacing.im + spacing.im;
    }
  }

  /** The inner loop of latspace: row j, whose points all have y's imaginary part. */
  method LatspaceRow(left: Cx, spacing: Cx, y: Cx, j: nat, cols: nat, container: array<Cx>, iter0: nat, ghost s0: seq<Cx>)
    returns (iter: nat)
    requires y.im == left.im + (j as real) * spacing.im
    requires iter0 == Min(|Lattice(left, spacing, j, cols)|, container.Length)
    requires container[..] == Fill(s0, Lattice(left, spacing, j, cols))
    modifies container
    ensures iter == Min(|Lattice(left, spacing, j + 1, cols)|, container.Length)
    ensures container[..] == Fill(s0, Lattice(left, spacing, j + 1, cols))
  {
    iter := iter0;
    ghost var done := Lattice(left, spacing, j, cols);
    var x := left;
    for k := 0 to cols
      invariant x.re == left.re + (k as real) * spacing.re
      invariant iter == Min(|done| + k, container.Length)
      invariant container[..] == Fill(s0, done + Row(left, spacing, j, cols)[..k])
    {
      ghost var pts := done + Row(left, spacing, j, cols)[..k];
      assert Cx(x.re, y.im) == Point(left, spacing, j, k);
      iter := PutPoint(container, iter, Cx(x.re, y.im), s0, pts);
      SnocPrefix(done, Row(left, spacing, j, cols), k);
      x := Add(x, spacing);
      assert ((k + 1) as real) * spacing.re == (k as real) * spacing.re + spacing.re;
    }
    assert Row(left, spacing, j, cols)[..cols] == Row(left, spacing, j, cols);
  }

  /** One write through the iterator, made only while it has not reached the end of the buffer. */
  method PutPoint<T>(container: array<T>, iter0: nat, p: T, ghost s0: seq<T>, ghost pts: seq<T>) returns (iter: nat)
    requires container[..] == Fill(s0, pts)
    requires iter0 == Min(|pts|, container.Length)
    modifies container
    ensures iter == Min(|pts| + 1, container.Length)
    ensures container[..] == Fill(s0, pts + [p])
  {
    FillStep(s0, pts, p, container[..]);
    iter := iter0;
    if iter < container.Length {
      container[iter] := p;
      iter := iter + 1;
    }
  }

  /** Writing one more point: the slot after the last written one changes, if there is one. */
  lemma FillStep<T>(s0: seq<T>, pts: seq<T>, p: T, cur: seq<T>)
    requires cur == Fill(s0, pts)
    ensures |pts| < |s0| ==> Fill(s0, pts + [p]) == cur[|pts| := p]
    ensures |pts| >= |s0| ==> Fill(s0, pts + [p]) == cur
  {
  }

  lemma SnocPrefix<T>(done: seq<T>, r: seq<T>, k: nat)
    requires k < |r|
    ensures done + r[..k + 1] == (done + r[..k]) + [r[k]]
  {
    assert r[..k + 1] == r[..k] + [r[k]];
  }

  function Min(a: nat, b: nat): nat {
    if a <= b then a else b
  }
}
