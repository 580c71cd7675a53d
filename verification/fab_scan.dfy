/** The host-side NaN/Inf scans of an AMReX FArrayBox.

    A FAB holds `nvar` components of real data over a cell-centred box
    `domain`, stored in Fortran order: x fastest, then y, then z, then the
    component.  The scans are const members: they read the data and return
    whether some value in a region passes a floating-point test, and the
    "where" variants also report the cell of the first such value in loop
    order (component outermost, then k, then j, then i, all ascending).

    Floating point is not modelled: a value is only classified as finite,
    infinite or NaN, and the scans are written once for an arbitrary test
    `test: Real -> bool` and then used with `IsNaN` and `IsInf`. */
module FabScan {

  /** A cell index in three dimensions. */
  datatype IntVect = IntVect(x: int, y: int, z: int)

  /** A cell-centred box with inclusive corners; it is empty when `hi < lo`
      in some direction. */
  datatype Box = Box(lo: IntVect, hi: IntVect)

  /** The classification of a floating-point value that the scans observe. */
  datatype Real = Finite(value: real) | Infinite(negative: bool) | NaN

  predicate IsNaN(v: Real) { v.NaN? }

  predicate IsInf(v: Real) { v.Infinite? }

  predicate InBox(b: Box, c: IntVect)
  {
    b.lo.x <= c.x <= b.hi.x && b.lo.y <= c.y <= b.hi.y && b.lo.z <= c.z <= b.hi.z
  }

  /** `Box::contains(Box)`: both corners of `inner` lie within `outer`. */
  predicate Contains(outer: Box, inner: Box)
  {
    outer.lo.x <= inner.lo.x && outer.lo.y <= inner.lo.y && outer.lo.z <= inner.lo.z &&
    inner.hi.x <= outer.hi.x && inner.hi.y <= outer.hi.y && inner.hi.z <= outer.hi.z
  }

  /** For a non-empty `inner`, containment of the corners is containment of
      every cell. */
  lemma ContainsCells(outer: Box, inner: Box)
    requires !IsEmpty(inner)
    ensures Contains(outer, inner) <==> forall c :: InBox(inner, c) ==> InBox(outer, c)
  {
    if forall c :: InBox(inner, c) ==> InBox(outer, c) {
      assert InBox(inner, inner.lo) && InBox(inner, inner.hi);
    }
  }

  predicate IsEmpty(b: Box)
  {
    b.hi.x < b.lo.x || b.hi.y < b.lo.y || b.hi.z < b.lo.z
  }

  /** `Box::numPts`: the number of cells, zero for an empty box. */
  function NumPts(b: Box): (r: nat)
    ensures r == 0 <==> IsEmpty(b)
  {
    if IsEmpty(b) then 0
    else
      var nx, ny, nz := b.hi.x - b.lo.x + 1, b.hi.y - b.lo.y + 1, b.hi.z - b.lo.z + 1;
      assert nx * ny > 0;
      nx * ny * nz
  }

  /** Loop order of the box scans: position (n, k, j, i) strictly before
      (n0, k0, j0, i0) when it is lexicographically smaller. */
  predicate Before(n: int, k: int, j: int, i: int, n0: int, k0: int, j0: int, i0: int)
  {
    n < n0 || (n == n0 && (k < k0 || (k == k0 && (j < j0 || (j == j0 && i < i0)))))
  }

  /** Position (n, k, j, i) is visited by a scan of `bx`, components
      `scomp .. scomp+ncomp-1`. */
  predicate InScan(bx: Box, scomp: int, ncomp: int, n: int, k: int, j: int, i: int)
  {
    scomp <= n < scomp + ncomp && InBox(bx, IntVect(i, j, k))
  }

  /** Component `n` exists in a FAB of `nvar` components. */
  predicate HasComponent(nvar: int, n: int)
  {
    0 <= n < nvar
  }

  /** The argument checks a box scan asserts, as written: the start
      component and the count are each within `nComp()`, and `bx` lies in
      the domain. */
  predicate AssertedScanArgs(domain: Box, nvar: int, bx: Box, scomp: int, ncomp: int)
  {
    0 <= scomp && 1 <= ncomp && scomp < nvar && ncomp <= nvar && Contains(domain, bx)
  }

  /** The arguments with which a box scan stays inside the data: the
      asserted checks plus `scomp + ncomp <= nComp()`, since the component
      loop runs up to `scomp + ncomp - 1`. */
  predicate ValidScanArgs(domain: Box, nvar: int, bx: Box, scomp: int, ncomp: int)
  {
    AssertedScanArgs(domain, nvar, bx, scomp, ncomp) && scomp + ncomp <= nvar
  }

  /** The asserted checks let through a component range that runs past the
      last component: with two components, `scomp = 1, ncomp = 2` passes
      every check, yet the loop reads component 2. */
  lemma AssertedArgsAllowOverrun()
    ensures var d := Box(IntVect(0, 0, 0), IntVect(0, 0, 0));
            AssertedScanArgs(d, 2, d, 1, 2) && !ValidScanArgs(d, 2, d, 1, 2) &&
            InScan(d, 1, 2, 2, 0, 0, 0) && !HasComponent(2, 2)
  {
  }

  /** Under the corrected checks every component a scan visits exists. */
  lemma ValidArgsKeepComponentsInRange(domain: Box, nvar: int, bx: Box, scomp: int, ncomp: int,
                                       n: int, k: int, j: int, i: int)
    requires ValidScanArgs(domain, nvar, bx, scomp, ncomp) && InScan(bx, scomp, ncomp, n, k, j, i)
    ensures HasComponent(nvar, n) && InBox(domain, IntVect(i, j, k))
  {
  }

  /** The bound that makes `a + A*b` a valid index into `A*B` slots. */
  lemma StrideBound(a: int, sa: int, b: int, sb: int)
    requires 0 <= a < sa && 0 <= b < sb
    ensures 0 <= a + sa * b < sa * sb
  {
    assert sa * b <= sa * (sb - 1) by {
      assert sa * (sb - 1) - sa * b == sa * (sb - 1 - b);
    }
  }

  /** The strided offset of a cell and component in an `nx*ny*nz` block of
      `nv` components is its nested (Horner) form, and lies below
      `nx*ny*nz*nv`. */
  lemma OffsetLayout(a: int, b: int, c: int, n: int, nx: int, ny: int, nz: int, nv: int)
    requires 0 <= a < nx && 0 <= b < ny && 0 <= c < nz && 0 <= n < nv
    ensures a + b * nx + c * (nx * ny) + n * (nx * ny * nz) == a + nx * (b + ny * (c + nz * n))
    ensures 0 <= a + nx * (b + ny * (c + nz * n)) < nx * ny * nz * nv
  {
    StrideBound(c, nz, n, nv);
    StrideBound(b, ny, c + nz * n, nz * nv);
    StrideBound(a, nx, b + ny * (c + nz * n), ny * (nz * nv));
    assert nx * (ny * (nz * nv)) == nx * ny * nz * nv;
    assert nx * (b + ny * (c + nz * n)) == b * nx + c * (nx * ny) + n * (nx * ny * nz);
  }

  class FArrayBox {
    /** The box the data is defined on. */
    var domain: Box
    /** `nComp()`: the number of components. */
    var nvar: int
    /** The data buffer `dptr`; it may be longer than `numPts()*nvar`. */
    var dptr: array<Real>

    ghost predicate Valid()
      reads this
    {
      0 <= nvar && NumPts(domain) * nvar <= dptr.Length
    }

    /** `FArrayBox(const Box& b, int ncomp, Real* p)`: a FAB over an
        existing buffer. */
    constructor Wrap(b: Box, ncomp: int, p: array<Real>)
      requires 0 <= ncomp && NumPts(b) * ncomp <= p.Length
      ensures Valid()
      ensures domain == b && nvar == ncomp && dptr == p
    {
      domain, nvar, dptr := b, ncomp, p;
    }

    /** Position of cell (i, j, k), component n in the buffer, with the
        strides of `Array4`: x is contiguous, then y, z and the component. */
    function Offset(i: int, j: int, k: int, n: int): (p: int)
      reads this
      requires Valid() && InBox(domain, IntVect(i, j, k)) && 0 <= n < nvar
      ensures 0 <= p < NumPts(domain) * nvar
      ensures p == (i - domain.lo.x) + (domain.hi.x - domain.lo.x + 1) *
                   ((j - domain.lo.y) + (domain.hi.y - domain.lo.y + 1) *
                    ((k - domain.lo.z) + (domain.hi.z - domain.lo.z + 1) * n))
    {
      var lo := domain.lo;
      var nx, ny, nz := domain.hi.x - lo.x + 1, domain.hi.y - lo.y + 1, domain.hi.z - lo.z + 1;
      OffsetLayout(i - lo.x, j - lo.y, k - lo.z, n, nx, ny, nz, nvar);
      var jstride := nx;
      var kstride := nx * ny;
      var nstride := nx * ny * nz;
      (i - lo.x) + (j - lo.y) * jstride + (k - lo.z) * kstride + n * nstride
    }

    /** `a(i, j, k, n)` with `a = this->array()`. */
    function At(i: int, j: int, k: int, n: int): Real
      reads this, dptr
      requires Valid() && InBox(domain, IntVect(i, j, k)) && 0 <= n < nvar
    {
      dptr[Offset(i, j, k, n)]
    }

    predicate ScanArgs(bx: Box, scomp: int, ncomp: int)
      reads this
    {
      ValidScanArgs(domain, nvar, bx, scomp, ncomp)
    }

    /** Some value among the first `numPts()*nvar` entries of the buffer
        passes `test`. */
    ghost predicate AnyFlat(test: Real -> bool)
      reads this, dptr
      requires Valid()
    {
      exists p :: 0 <= p < NumPts(domain) * nvar && test(dptr[p])
    }

    /** Some visited position of the box scan passes `test`. */
    ghost predicate AnyInBox(test: Real -> bool, bx: Box, scomp: int, ncomp: int)
      reads this, dptr
      requires Valid() && ScanArgs(bx, scomp, ncomp)
    {
      exists n, k, j, i :: InScan(bx, scomp, ncomp, n, k, j, i) && test(At(i, j, k, n))
    }

    /** No visited position before (n0, k0, j0, i0) in loop order passes `test`. */
    ghost predicate CleanBefore(test: Real -> bool, bx: Box, scomp: int, ncomp: int,
                                n0: int, k0: int, j0: int, i0: int)
      reads this, dptr
      requires Valid() && ScanArgs(bx, scomp, ncomp)
    {
      forall n, k, j, i ::
        InScan(bx, scomp, ncomp, n, k, j, i) && Before(n, k, j, i, n0, k0, j0, i0) ==>
        !test(At(i, j, k, n))
    }

    /** `cell` holds the first value in loop order that passes `test`. */
    ghost predicate FirstHit(test: Real -> bool, bx: Box, scomp: int, ncomp: int, cell: IntVect)
      reads this, dptr
      requires Valid() && ScanArgs(bx, scomp, ncomp)
    {
      InBox(bx, cell) &&
      exists n :: scomp <= n < scomp + ncomp && test(At(cell.x, cell.y, cell.z, n)) &&
                  CleanBefore(test, bx, scomp, ncomp, n, cell.z, cell.y, cell.x)
    }

    /** The flat scan: walks the buffer from the start, stopping at the first
        entry that passes `test`. */
    method ScanFlat(test: Real -> bool) returns (found: bool)
      requires Valid()
      ensures found <==> AnyFlat(test)
    {
      var n := NumPts(domain) * nvar;
      var i := 0;
      while i < n
        invariant 0 <= i <= n
        invariant forall q :: 0 <= q < i ==> !test(dptr[q])
      {
        if test(dptr[i]) {
          return true;
        }
        i := i + 1;
      }
      return false;
    }

    /** The box scan with a `where` argument: four nested loops over the
        component, k, j and i; on the first value that passes `test` it
        reports its cell, otherwise `where` is handed back unchanged. */
    method ScanBox(test: Real -> bool, bx: Box, scomp: int, ncomp: int, where: IntVect)
      returns (found: bool, cell: IntVect)
      requires Valid() && ScanArgs(bx, scomp, ncomp)
      ensures found <==> AnyInBox(test, bx, scomp, ncomp)
      ensures found ==> FirstHit(test, bx, scomp, ncomp, cell)
      ensures !found ==> cell == where
    {
      assert 0 <= scomp && scomp + ncomp <= nvar && Contains(domain, bx);
      var lo, hi := bx.lo, bx.hi;
      var n := scomp;
      while n < scomp + ncomp
        invariant scomp <= n <= scomp + ncomp
        invariant CleanBefore(test, bx, scomp, ncomp, n, lo.z, lo.y, lo.x)
      {
        var k := lo.z;
        while k <= hi.z
          invariant lo.z <= k && (k <= hi.z + 1 || k == lo.z)
          invariant CleanBefore(test, bx, scomp, ncomp, n, k, lo.y, lo.x)
        {
          var j := lo.y;
          while j <= hi.y
            invariant lo.y <= j && (j <= hi.y + 1 || j == lo.y)
            invariant CleanBefore(test, bx, scomp, ncomp, n, k, j, lo.x)
          {
            var i := lo.x;
            while i <= hi.x
              invariant lo.x <= i && (i <= hi.x + 1 || i == lo.x)
              invariant CleanBefore(test, bx, scomp, ncomp, n, k, j, i)
            {
              if test(At(i, j, k, n)) {
                return true, IntVect(i, j, k);
              }
              i := i + 1;
            }
            j := j + 1;
          }
          k := k + 1;
        }
        n := n + 1;
      }
      return false, where;
    }

    // The eight host-path overloads of contains_nan and contains_inf.

    /** `contains_nan()`. */
    method ContainsNaN() returns (found: bool)
      requires Valid()
      ensures found <==> exists p :: 0 <= p < NumPts(domain) * nvar && IsNaN(dptr[p])
    {
      found := ScanFlat(IsNaN);
    }

    /** `contains_nan(bx, scomp, ncomp)`. */
    method ContainsNaNInBox(bx: Box, scomp: int, ncomp: int) returns (found: bool)
      requires Valid() && ScanArgs(bx, scomp, ncomp)
      ensures found <==> exists n, k, j, i ::
        InScan(bx, scomp, ncomp, n, k, j, i) && IsNaN(At(i, j, k, n))
    {
      var cell;
      found, cell := ScanBox(IsNaN, bx, scomp, ncomp, bx.lo);
    }

    /** `contains_nan(where)`: the box scan over the whole domain and all
        components. */
    method ContainsNaNWhere(where: IntVect) returns (found: bool, cell: IntVect)
      requires Valid() && 1 <= nvar
      ensures found <==> AnyInBox(IsNaN, domain, 0, nvar)
      ensures found ==> FirstHit(IsNaN, domain, 0, nvar, cell)
      ensures !found ==> cell == where
    {
      found, cell := ScanBox(IsNaN, domain, 0, nvar, where);
    }

    /** `contains_nan(bx, scomp, ncomp, where)`. */
    method ContainsNaNInBoxWhere(bx: Box, scomp: int, ncomp: int, where: IntVect)
      returns (found: bool, cell: IntVect)
      requires Valid() && ScanArgs(bx, scomp, ncomp)
      ensures found <==> AnyInBox(IsNaN, bx, scomp, ncomp)
      ensures found ==> FirstHit(IsNaN, bx, scomp, ncomp, cell)
      ensures !found ==> cell == where
    {
      found, cell := ScanBox(IsNaN, bx, scomp, ncomp, where);
    }

    /** `contains_inf()`. */
    method ContainsInf() returns (found: bool)
      requires Valid()
      ensures found <==> exists p :: 0 <= p < NumPts(domain) * nvar && IsInf(dptr[p])
    {
      found := ScanFlat(IsInf);
    }

    /** `contains_inf(bx, scomp, ncomp)`. */
    method ContainsInfInBox(bx: Box, scomp: int, ncomp: int) returns (found: bool)
      requires Valid() && ScanArgs(bx, scomp, ncomp)
      ensures found <==> exists n, k, j, i ::
        InScan(bx, scomp, ncomp, n, k, j, i) && IsInf(At(i, j, k, n))
    {
      var cell;
      found, cell := ScanBox(IsInf, bx, scomp, ncomp, bx.lo);
    }

    /** `contains_inf(where)`. */
    method ContainsInfWhere(where: IntVect) returns (found: bool, cell: IntVect)
      requires Valid() && 1 <= nvar
      ensures found <==> AnyInBox(IsInf, domain, 0, nvar)
      ensures found ==> FirstHit(IsInf, domain, 0, nvar, cell)
      ensures !found ==> cell == where
    {
      found, cell := ScanBox(IsInf, domain, 0, nvar, where);
    }

    /** `contains_inf(bx, scomp, ncomp, where)`. */
    method ContainsInfInBoxWhere(bx: Box, scomp: int, ncomp: int, where: IntVect)
      returns (found: bool, cell: IntVect)
      requires Valid() && ScanArgs(bx, scomp, ncomp)
      ensures found <==> AnyInBox(IsInf, bx, scomp, ncomp)
      ensures found ==> FirstHit(IsInf, bx, scomp, ncomp, cell)
      ensures !found ==> cell == where
    {
      found, cell := ScanBox(IsInf, bx, scomp, ncomp, where);
    }
  }

  /** Splitting an index into `s*m` slots into a position within a block of
      `s` and a block number. */
  lemma DivStep(p: int, s: int, m: int)
    requires 0 < s && 0 <= p < s * m
    ensures 0 <= p % s < s && 0 <= p / s < m && p == p % s + s * (p / s)
  {
  }

  /** Every index of the first `numPts()*nvar` entries is the offset of some
      cell of the domain and some component. */
  lemma {:induction false} OffsetOnto(fab: FArrayBox, p: int)
    requires fab.Valid() && 0 <= p < NumPts(fab.domain) * fab.nvar
    ensures exists n, k, j, i :: InBox(fab.domain, IntVect(i, j, k)) && 0 <= n < fab.nvar &&
                                 fab.Offset(i, j, k, n) == p
  {
    var d := fab.domain;
    var nx, ny, nz := d.hi.x - d.lo.x + 1, d.hi.y - d.lo.y + 1, d.hi.z - d.lo.z + 1;
    assert !IsEmpty(d);
    assert NumPts(d) * fab.nvar == nx * (ny * (nz * fab.nvar));
    DivStep(p, nx, ny * (nz * fab.nvar));
    var a, q := p % nx, p / nx;
    DivStep(q, ny, nz * fab.nvar);
    var b, r := q % ny, q / ny;
    DivStep(r, nz, fab.nvar);
    var c, n := r % nz, r / nz;
    assert fab.Offset(d.lo.x + a, d.lo.y + b, d.lo.z + c, n) == p;
  }

  /** The flat scan and the box scan over the whole domain and all
      components look at the same values: `contains_nan()` and
      `contains_nan(where)` (and their Inf counterparts) agree on whether
      a hit exists. */
  lemma FlatScanMatchesDomainScan(fab: FArrayBox, test: Real -> bool)
    requires fab.Valid() && 1 <= fab.nvar
    ensures fab.AnyFlat(test) <==> fab.AnyInBox(test, fab.domain, 0, fab.nvar)
  {
    if fab.AnyFlat(test) {
      var p :| 0 <= p < NumPts(fab.domain) * fab.nvar && test(fab.dptr[p]);
      OffsetOnto(fab, p);
      var n, k, j, i :| InBox(fab.domain, IntVect(i, j, k)) && 0 <= n < fab.nvar &&
                        fab.Offset(i, j, k, n) == p;
      assert InScan(fab.domain, 0, fab.nvar, n, k, j, i) && test(fab.At(i, j, k, n));
    }
    if fab.AnyInBox(test, fab.domain, 0, fab.nvar) {
      var n, k, j, i :| InScan(fab.domain, 0, fab.nvar, n, k, j, i) && test(fab.At(i, j, k, n));
      var p := fab.Offset(i, j, k, n);
      assert test(fab.dptr[p]);
    }
  }

  /** The cell a "where" scan reports is determined by the data: two cells
      that both hold the first hit in loop order are the same cell. */
  lemma FirstHitUnique(fab: FArrayBox, test: Real -> bool, bx: Box, scomp: int, ncomp: int,
                       c1: IntVect, c2: IntVect)
    requires fab.Valid() && fab.ScanArgs(bx, scomp, ncomp)
    requires fab.FirstHit(test, bx, scomp, ncomp, c1) && fab.FirstHit(test, bx, scomp, ncomp, c2)
    ensures c1 == c2
  {
    var n1 :| scomp <= n1 < scomp + ncomp && test(fab.At(c1.x, c1.y, c1.z, n1)) &&
              fab.CleanBefore(test, bx, scomp, ncomp, n1, c1.z, c1.y, c1.x);
    var n2 :| scomp <= n2 < scomp + ncomp && test(fab.At(c2.x, c2.y, c2.z, n2)) &&
              fab.CleanBefore(test, bx, scomp, ncomp, n2, c2.z, c2.y, c2.x);
    if Before(n1, c1.z, c1.y, c1.x, n2, c2.z, c2.y, c2.x) {
      assert InScan(bx, scomp, ncomp, n1, c1.z, c1.y, c1.x);
      assert false;
    } else if Before(n2, c2.z, c2.y, c2.x, n1, c1.z, c1.y, c1.x) {
      assert InScan(bx, scomp, ncomp, n2, c2.z, c2.y, c2.x);
      assert false;
    }
  }
}
