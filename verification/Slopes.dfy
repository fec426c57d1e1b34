/** Derivatives by their definition: a function of a step is near its value plus a slope times
    the step, up to a multiple of the step's square. The tangents of the graph are slopes. */
module Slopes {
  import opened Basics
  import opened Graphs
  import opened Tangents

  function Abs(x: real): real { if x < 0.0 then -x else x }

  /** Within `r` of no step, `f` leaves the line of slope `d` by at most `c` times the square. */
  ghost predicate Near(f: real -> real, d: real, r: real, c: real) {
    r > 0.0 && c >= 0.0 && forall h: real :: Abs(h) <= r ==> Abs(Left(f, d, h)) <= Prod(c, Prod(h, h))
  }

  /** What is left of `f` at `h` beside its value and the slope's part. */
  function Left(f: real -> real, d: real, h: real): real { f(h) - f(0.0) - Prod(d, h) }

  /** `d` is the derivative of `f` where the step is none. */
  ghost predicate HasSlope(f: real -> real, d: real) { exists r, c :: Near(f, d, r, c) }

  // --- magnitudes -------------------------------------------------------------------------------------

  lemma AbsProd(x: real, y: real)
    ensures Abs(Prod(x, y)) == Prod(Abs(x), Abs(y)) && Prod(Abs(x), Abs(y)) >= 0.0
  {
    if x < 0.0 { assert (-x) * y == -(x * y) && (-x) * (-y) == x * y; }
    if y < 0.0 { assert x * (-y) == -(x * y); }
  }

  lemma AbsSum(x: real, y: real)
    ensures Abs(x + y) <= Abs(x) + Abs(y) && Abs(x - y) <= Abs(x) + Abs(y)
  {
  }

  lemma Monotone(x: real, y: real, c: real)
    requires x <= y && c >= 0.0
    ensures Prod(c, x) <= Prod(c, y) && Prod(x, c) <= Prod(y, c)
  {
    assert c * (y - x) >= 0.0;
    assert c * (y - x) == c * y - c * x;
  }

  lemma Laws(x: real, y: real, z: real)
    ensures Prod(x, y) == Prod(y, x) && Prod(Prod(x, y), z) == Prod(x, Prod(y, z))
    ensures Prod(x, y + z) == Prod(x, y) + Prod(x, z) && Prod(y + z, x) == Prod(y, x) + Prod(z, x)
    ensures Prod(x, y - z) == Prod(x, y) - Prod(x, z) && Prod(0.0, x) == 0.0 && Prod(1.0, x) == x
  {
  }

  /** The square of a step of at most one: not negative, at most the step, at most one. */
  lemma SquareSmall(h: real)
    requires Abs(h) <= 1.0
    ensures 0.0 <= Prod(h, h) <= Abs(h) && Prod(h, h) == Prod(Abs(h), Abs(h))
  {
    AbsProd(h, h);
    Monotone(Abs(h), 1.0, Abs(h));
    Laws(1.0, Abs(h), 0.0);
    assert Prod(1.0, Abs(h)) == Abs(h);
  }

  // --- the rules ----------------------------------------------------------------------------------------

  lemma ConstSlope(f: real -> real)
    requires forall h: real :: f(h) == f(0.0)
    ensures Near(f, 0.0, 1.0, 0.0)
  {
    forall h: real | Abs(h) <= 1.0 ensures Abs(Left(f, 0.0, h)) <= Prod(0.0, Prod(h, h)) {
      Laws(h, 0.0, 0.0);
    }
  }

  lemma StepSlope(f: real -> real)
    requires forall h: real :: f(h) == f(0.0) + h
    ensures Near(f, 1.0, 1.0, 0.0)
  {
    forall h: real | Abs(h) <= 1.0 ensures Abs(Left(f, 1.0, h)) <= Prod(0.0, Prod(h, h)) {
      Laws(h, 0.0, 0.0);
    }
  }

  function Smaller(a: real, b: real): real { if a < b then a else b }

  lemma SumSlope(f: real -> real, d: real, r: real, c: real, g: real -> real, e: real, s: real, b: real,
                 k: real -> real)
    requires Near(f, d, r, c) && Near(g, e, s, b) && forall h: real :: k(h) == f(h) + g(h)
    ensures Near(k, d + e, Smaller(r, s), c + b)
  {
    hide Prod;
    forall h: real | Abs(h) <= Smaller(r, s) ensures Abs(Left(k, d + e, h)) <= Prod(c + b, Prod(h, h)) {
      Laws(h, d, e);
      Laws(Prod(h, h), c, b);
      AbsSum(Left(f, d, h), Left(g, e, h));
      assert Abs(Left(f, d, h)) <= Prod(c, Prod(h, h)) && Abs(Left(g, e, h)) <= Prod(b, Prod(h, h));
    }
  }

  lemma NegSlope(f: real -> real, d: real, r: real, c: real, k: real -> real)
    requires Near(f, d, r, c) && forall h: real :: k(h) == -f(h)
    ensures Near(k, -d, r, c)
  {
    forall h: real | Abs(h) <= r ensures Abs(Left(k, -d, h)) <= Prod(c, Prod(h, h)) {
      assert Left(k, -d, h) == -Left(f, d, h);
      assert Abs(Left(f, d, h)) <= Prod(c, Prod(h, h));
    }
  }

  /** How far `f` moves with a step of at most one. */
  lemma Moves(f: real -> real, d: real, r: real, c: real, h: real)
    requires Near(f, d, r, c) && Abs(h) <= r && Abs(h) <= 1.0
    ensures Abs(f(h) - f(0.0)) <= Prod(Abs(d) + c, Abs(h))
  {
    hide Prod;
    assert Abs(Left(f, d, h)) <= Prod(c, Prod(h, h));
    SquareSmall(h);
    Monotone(Prod(h, h), Abs(h), c);
    AbsProd(d, h);
    AbsSum(Left(f, d, h), Prod(d, h));
    Laws(Abs(h), Abs(d), c);
  }

  /** One term of a product's rest: a factor times what is at most `c` times the square. */
  lemma Term(x: real, e: real, c: real, q: real)
    requires Abs(e) <= Prod(c, q)
    ensures Abs(Prod(x, e)) <= Prod(Prod(Abs(x), c), q)
  {
    hide Prod;
    AbsProd(x, e);
    Monotone(Abs(e), Prod(c, q), Abs(x));
    Laws(Abs(x), c, q);
  }

  /** The constant of a product's rest. */
  function ProductRest(a: real, d: real, c: real, b: real, e: real, k: real): real {
    Prod(Abs(d), Abs(e)) + Prod(Abs(a), k) + Prod(Abs(b), c) + Prod(Abs(d), k) + Prod(Abs(e), c) + Prod(c, k)
  }

  /** `(a + d h + x) (b + e h + y)` beside `a b + (d b + a e) h`. */
  lemma Expand(a: real, d: real, x: real, b: real, e: real, y: real, h: real)
    ensures Prod(a + Prod(d, h) + x, b + Prod(e, h) + y) - Prod(a, b) - Prod(Prod(d, b) + Prod(a, e), h)
         == Prod(Prod(d, e), Prod(h, h)) + Prod(a, y) + Prod(b, x) + Prod(d, Prod(h, y)) + Prod(e, Prod(h, x))
            + Prod(x, y)
  {
  }

  lemma SixTerms(t1: real, t2: real, t3: real, t4: real, t5: real, t6: real)
    ensures Abs(t1 + t2 + t3 + t4 + t5 + t6) <= Abs(t1) + Abs(t2) + Abs(t3) + Abs(t4) + Abs(t5) + Abs(t6)
  {
  }

  lemma SixFactors(a: real, b: real, c: real, d: real, e: real, f: real, q: real)
    ensures Prod(a + b + c + d + e + f, q) ==
            Prod(a, q) + Prod(b, q) + Prod(c, q) + Prod(d, q) + Prod(e, q) + Prod(f, q)
  {
  }

  lemma ProductBound(a: real, d: real, x: real, c: real, b: real, e: real, y: real, k: real, h: real)
    requires Abs(h) <= 1.0 && c >= 0.0 && k >= 0.0 && Abs(x) <= Prod(c, Prod(h, h)) && Abs(y) <= Prod(k, Prod(h, h))
    ensures Abs(Prod(a + Prod(d, h) + x, b + Prod(e, h) + y) - Prod(a, b) - Prod(Prod(d, b) + Prod(a, e), h))
         <= Prod(ProductRest(a, d, c, b, e, k), Prod(h, h))
  {
    hide Prod;
    var q := Prod(h, h);
    SquareSmall(h);
    Expand(a, d, x, b, e, y, h);
    AbsProd(Prod(d, e), q);
    AbsProd(d, e);
    Term(a, y, k, q);
    Term(b, x, c, q);
    Shrunk(h, y, k, q);
    Term(d, Prod(h, y), k, q);
    Shrunk(h, x, c, q);
    Term(e, Prod(h, x), c, q);
    Both(x, c, y, k, q);
    SixTerms(Prod(Prod(d, e), q), Prod(a, y), Prod(b, x), Prod(d, Prod(h, y)), Prod(e, Prod(h, x)), Prod(x, y));
    SixFactors(Prod(Abs(d), Abs(e)), Prod(Abs(a), k), Prod(Abs(b), c), Prod(Abs(d), k), Prod(Abs(e), c), Prod(c, k), q);
  }

  lemma Shrunk(h: real, y: real, k: real, q: real)
    requires Abs(h) <= 1.0 && Abs(y) <= Prod(k, q)
    ensures Abs(Prod(h, y)) <= Prod(k, q)
  {
    hide Prod;
    AbsProd(h, y);
    Monotone(Abs(h), 1.0, Abs(y));
    Laws(Abs(y), 0.0, 0.0);
  }

  lemma Both(x: real, c: real, y: real, k: real, q: real)
    requires 0.0 <= q <= 1.0 && c >= 0.0 && k >= 0.0 && Abs(x) <= Prod(c, q) && Abs(y) <= Prod(k, q)
    ensures Abs(Prod(x, y)) <= Prod(Prod(c, k), q)
  {
    hide Prod;
    AbsProd(x, y);
    Monotone(q, 1.0, k);
    Laws(k, 1.0, 0.0);
    Monotone(Abs(y), k, Abs(x));
    Monotone(Abs(x), Prod(c, q), k);
    Laws(c, q, k);
    Laws(q, k, 0.0);
    Laws(c, k, q);
  }

  lemma ProductSlope(f: real -> real, d: real, r: real, c: real, g: real -> real, e: real, s: real, b: real,
                     k: real -> real)
    requires Near(f, d, r, c) && Near(g, e, s, b) && forall h: real :: k(h) == Prod(f(h), g(h))
    ensures Near(k, Prod(d, g(0.0)) + Prod(f(0.0), e), Smaller(1.0, Smaller(r, s)),
                 ProductRest(f(0.0), d, c, g(0.0), e, b))
  {
    hide Prod;
    var slope := Prod(d, g(0.0)) + Prod(f(0.0), e);
    var rest := ProductRest(f(0.0), d, c, g(0.0), e, b);
    RestPositive(f(0.0), d, c, g(0.0), e, b);
    forall h: real | Abs(h) <= Smaller(1.0, Smaller(r, s)) ensures Abs(Left(k, slope, h)) <= Prod(rest, Prod(h, h)) {
      assert Abs(Left(f, d, h)) <= Prod(c, Prod(h, h)) && Abs(Left(g, e, h)) <= Prod(b, Prod(h, h));
      ProductBound(f(0.0), d, Left(f, d, h), c, g(0.0), e, Left(g, e, h), b, h);
      assert f(h) == f(0.0) + Prod(d, h) + Left(f, d, h) && g(h) == g(0.0) + Prod(e, h) + Left(g, e, h);
    }
  }

  lemma RestPositive(a: real, d: real, c: real, b: real, e: real, k: real)
    requires c >= 0.0 && k >= 0.0
    ensures ProductRest(a, d, c, b, e, k) >= 0.0
  {
    hide Prod;
    AbsProd(d, e);
    AbsProd(a, k);
    AbsProd(b, c);
    AbsProd(d, k);
    AbsProd(e, c);
    AbsProd(c, k);
  }

  /** Functions that agree near no step have one slope. */
  lemma SameNear(f: real -> real, d: real, r: real, c: real, g: real -> real, s: real)
    requires Near(f, d, r, c) && s > 0.0 && forall h: real :: Abs(h) <= s ==> g(h) == f(h)
    ensures Near(g, d, Smaller(r, s), c)
  {
    hide Prod;
    assert Abs(0.0) <= s;
    forall h: real | Abs(h) <= Smaller(r, s) ensures Abs(Left(g, d, h)) <= Prod(c, Prod(h, h)) {
      assert Abs(Left(f, d, h)) <= Prod(c, Prod(h, h));
    }
  }

  /** A step so small that a function moves by at most `room`. */
  lemma Room(d: real, r: real, c: real, room: real) returns (s: real)
    requires r > 0.0 && c >= 0.0 && room > 0.0
    ensures 0.0 < s <= r && s <= 1.0
    ensures forall h: real :: Abs(h) <= s ==> Prod(Abs(d) + c, Abs(h)) <= room
  {
    var l := Abs(d) + c + 1.0;
    var t := room / l;
    assert l * t == room && t > 0.0;
    s := Smaller(1.0, Smaller(r, t));
    forall h: real | Abs(h) <= s ensures Prod(Abs(d) + c, Abs(h)) <= room {
      Monotone(Abs(d) + c, l, Abs(h));
      Monotone(Abs(h), t, l);
    }
  }

  /** A function that is not zero stays so, with its sign. */
  lemma StaysNonzero(f: real -> real, d: real, r: real, c: real) returns (s: real)
    requires Near(f, d, r, c) && f(0.0) != 0.0
    ensures 0.0 < s <= r && forall h: real :: Abs(h) <= s ==>
              (f(0.0) > 0.0 ==> f(h) > 0.0) && (f(0.0) < 0.0 ==> f(h) < 0.0)
  {
    hide Prod;
    s := Room(d, r, c, Abs(f(0.0)) / 2.0);
    forall h: real | Abs(h) <= s ensures (f(0.0) > 0.0 ==> f(h) > 0.0) && (f(0.0) < 0.0 ==> f(h) < 0.0) {
      Moves(f, d, r, c, h);
    }
  }

  // --- functions of functions ------------------------------------------------------------------------------

  /** `u` around `v`. */
  function Around(u: real -> real, v: real): real -> real { (h: real) => u(v + h) }

  /** `u` has slope `d` at `v`. */
  ghost predicate SlopeAt(u: real -> real, v: real, d: real) { HasSlope(Around(u, v), d) }

  /** The part of a composition's rest that is the inner one's, and the part that is the outer's. */
  lemma ComposeBound(d: real, c: real, e: real, b: real, x: real, m: real, y: real, h: real)
    requires Abs(h) <= 1.0 && c >= 0.0 && b >= 0.0
    requires Abs(x) <= Prod(c, Prod(h, h)) && Abs(m) <= Prod(Abs(d) + c, Abs(h)) && Abs(y) <= Prod(b, Prod(m, m))
    ensures Abs(Prod(e, x) + y)
         <= Prod(Prod(Abs(e), c) + Prod(b, Prod(Abs(d) + c, Abs(d) + c)), Prod(h, h))
  {
    hide Prod;
    var q, l := Prod(h, h), Abs(d) + c;
    Term(e, x, c, q);
    SquareBound(m, l, h);
    Monotone(Prod(m, m), Prod(Prod(l, l), q), b);
    Laws(b, Prod(l, l), q);
    AbsSum(Prod(e, x), y);
    Laws(q, Prod(Abs(e), c), Prod(b, Prod(l, l)));
    assert Abs(y) <= Prod(b, Prod(m, m)) <= Prod(b, Prod(Prod(l, l), q)) == Prod(Prod(b, Prod(l, l)), q);
    assert Abs(Prod(e, x)) <= Prod(Prod(Abs(e), c), q);
    assert Prod(Prod(Abs(e), c) + Prod(b, Prod(l, l)), q) == Prod(Prod(Abs(e), c), q) + Prod(Prod(b, Prod(l, l)), q);
  }

  lemma SquareBound(m: real, l: real, h: real)
    requires Abs(m) <= Prod(l, Abs(h)) && l >= 0.0
    ensures Prod(m, m) <= Prod(Prod(l, l), Prod(h, h))
  {
    hide Prod;
    var n := Prod(l, Abs(h));
    AbsProd(m, m);
    AbsProd(h, h);
    Monotone(Abs(m), n, Abs(m));
    Monotone(Abs(m), n, n);
    Squares(m);
    Squares(h);
    Laws(l, Abs(h), n);
    Laws(Abs(h), l, Abs(h));
    Laws(l, Abs(h), Abs(h));
    Laws(l, l, Prod(Abs(h), Abs(h)));
  }

  lemma Squares(x: real)
    ensures Prod(x, x) == Prod(Abs(x), Abs(x)) && Prod(x, x) >= 0.0
  {
  }

  lemma ComposeSlope(u: real -> real, e: real, s: real, b: real, f: real -> real, d: real, r: real, c: real,
                     k: real -> real) returns (t: real, a: real)
    requires Near(f, d, r, c) && Near(Around(u, f(0.0)), e, s, b) && forall h: real :: k(h) == u(f(h))
    ensures Near(k, Prod(e, d), t, a)
  {
    hide Prod;
    var outer := Around(u, f(0.0));
    t := Room(d, r, c, s);
    a := Prod(Abs(e), c) + Prod(b, Prod(Abs(d) + c, Abs(d) + c));
    AbsProd(e, c);
    Squares(Abs(d) + c);
    AbsProd(b, Prod(Abs(d) + c, Abs(d) + c));
    forall h: real | Abs(h) <= t ensures Abs(Left(k, Prod(e, d), h)) <= Prod(a, Prod(h, h)) {
      var m := f(h) - f(0.0);
      Moves(f, d, r, c, h);
      assert Abs(Left(outer, e, m)) <= Prod(b, Prod(m, m));
      assert Abs(Left(f, d, h)) <= Prod(c, Prod(h, h));
      assert outer(m) == u(f(h)) && outer(0.0) == u(f(0.0));
      Laws(e, d, h);
      Laws(e, m, Prod(d, h));
      assert Left(k, Prod(e, d), h) == Prod(e, Left(f, d, h)) + Left(outer, e, m);
      ComposeBound(d, c, e, b, Left(f, d, h), m, Left(outer, e, m), h);
    }
  }

  /** What is left of a function of two variables beside its slopes' parts. */
  function Left2(u: (real, real) -> real, v: real, w: real, d: real, e: real, x: real, y: real): real {
    u(v + x, w + y) - u(v, w) - Prod(d, x) - Prod(e, y)
  }

  ghost predicate Near2(u: (real, real) -> real, v: real, w: real, d: real, e: real, r: real, c: real) {
    r > 0.0 && c >= 0.0 && forall x: real, y: real :: Abs(x) <= r && Abs(y) <= r ==>
        Abs(Left2(u, v, w, d, e, x, y)) <= Prod(c, Prod(x, x) + Prod(y, y))
  }

  ghost predicate SlopesAt(u: (real, real) -> real, v: real, w: real, d: real, e: real) {
    exists r, c :: Near2(u, v, w, d, e, r, c)
  }

  lemma Compose2Slope(u: (real, real) -> real, d: real, e: real, s: real, b: real,
                      f: real -> real, fd: real, fr: real, fc: real, g: real -> real, gd: real, gr: real, gc: real,
                      k: real -> real) returns (t: real, a: real)
    requires Near(f, fd, fr, fc) && Near(g, gd, gr, gc) && Near2(u, f(0.0), g(0.0), d, e, s, b)
    requires forall h: real :: k(h) == u(f(h), g(h))
    ensures Near(k, Prod(d, fd) + Prod(e, gd), t, a)
  {
    hide Prod;
    var t1 := Room(fd, fr, fc, s);
    var t2 := Room(gd, gr, gc, s);
    t := Smaller(t1, t2);
    var l1, l2 := Abs(fd) + fc, Abs(gd) + gc;
    a := Prod(Abs(d), fc) + Prod(Abs(e), gc) + Prod(b, Prod(l1, l1) + Prod(l2, l2));
    AbsProd(d, fc);
    AbsProd(e, gc);
    Squares(l1);
    Squares(l2);
    AbsProd(b, Prod(l1, l1) + Prod(l2, l2));
    forall h: real | Abs(h) <= t ensures Abs(Left(k, Prod(d, fd) + Prod(e, gd), h)) <= Prod(a, Prod(h, h)) {
      Moves(f, fd, fr, fc, h);
      Moves(g, gd, gr, gc, h);
      assert Abs(Left(f, fd, h)) <= Prod(fc, Prod(h, h)) && Abs(Left(g, gd, h)) <= Prod(gc, Prod(h, h));
      Compose2At(u, f(0.0), g(0.0), d, e, s, b, f(h) - f(0.0), fd, fc, g(h) - g(0.0), gd, gc, h);
    }
  }

  /** The bound at one step, the inner functions' moves given. */
  lemma Compose2At(u: (real, real) -> real, v: real, w: real, d: real, e: real, s: real, b: real,
                   x: real, fd: real, fc: real, y: real, gd: real, gc: real, h: real)
    requires Near2(u, v, w, d, e, s, b) && Abs(x) <= s && Abs(y) <= s && fc >= 0.0 && gc >= 0.0
    requires Abs(x) <= Prod(Abs(fd) + fc, Abs(h)) && Abs(y) <= Prod(Abs(gd) + gc, Abs(h))
    requires Abs(x - Prod(fd, h)) <= Prod(fc, Prod(h, h)) && Abs(y - Prod(gd, h)) <= Prod(gc, Prod(h, h))
    ensures var l1, l2 := Abs(fd) + fc, Abs(gd) + gc;
            && Abs(u(v + x, w + y) - u(v, w) - Prod(Prod(d, fd) + Prod(e, gd), h))
               <= Prod(Prod(Abs(d), fc) + Prod(Abs(e), gc) + Prod(b, Prod(l1, l1) + Prod(l2, l2)), Prod(h, h))
  {
    hide Prod;
    assert Abs(Left2(u, v, w, d, e, x, y)) <= Prod(b, Prod(x, x) + Prod(y, y));
    Compose2Parts(d, e, fd, gd, x, y, h);
    Compose2Bound(d, fc, x - Prod(fd, h), e, gc, y - Prod(gd, h), b, x, Abs(fd) + fc, y, Abs(gd) + gc,
                  Left2(u, v, w, d, e, x, y), h);
  }

  lemma Compose2Parts(d: real, e: real, fd: real, gd: real, x: real, y: real, h: real)
    ensures Prod(d, x - Prod(fd, h)) + Prod(e, y - Prod(gd, h))
         == Prod(d, x) + Prod(e, y) - Prod(Prod(d, fd) + Prod(e, gd), h)
  {
  }

  lemma Compose2Bound(d: real, fc: real, p: real, e: real, gc: real, q: real, b: real, x: real, l1: real, y: real,
                      l2: real, z: real, h: real)
    requires Abs(p) <= Prod(fc, Prod(h, h)) && Abs(q) <= Prod(gc, Prod(h, h)) && b >= 0.0 && l1 >= 0.0 && l2 >= 0.0
    requires Abs(x) <= Prod(l1, Abs(h)) && Abs(y) <= Prod(l2, Abs(h)) && Abs(z) <= Prod(b, Prod(x, x) + Prod(y, y))
    ensures Abs(Prod(d, p) + Prod(e, q) + z)
         <= Prod(Prod(Abs(d), fc) + Prod(Abs(e), gc) + Prod(b, Prod(l1, l1) + Prod(l2, l2)), Prod(h, h))
  {
    hide Prod;
    var w := Prod(h, h);
    Term(d, p, fc, w);
    Term(e, q, gc, w);
    SquareBound(x, l1, h);
    SquareBound(y, l2, h);
    Laws(w, Prod(l1, l1), Prod(l2, l2));
    Monotone(Prod(x, x) + Prod(y, y), Prod(Prod(l1, l1) + Prod(l2, l2), w), b);
    Laws(b, Prod(l1, l1) + Prod(l2, l2), w);
    AbsSum(Prod(d, p), Prod(e, q));
    AbsSum(Prod(d, p) + Prod(e, q), z);
    Laws(w, Prod(Abs(d), fc), Prod(Abs(e), gc));
    Laws(w, Prod(Abs(d), fc) + Prod(Abs(e), gc), Prod(b, Prod(l1, l1) + Prod(l2, l2)));
  }

  // --- lists -------------------------------------------------------------------------------------------------

  function At(fs: seq<real -> real>, h: real): (r: seq<real>)
    ensures |r| == |fs|
  { seq(|fs|, i requires 0 <= i < |fs| => fs[i](h)) }

  /** Every function has its slope. */
  ghost predicate AllSlopes(fs: seq<real -> real>, ds: seq<real>) {
    |ds| == |fs| && forall i :: 0 <= i < |fs| ==> HasSlope(fs[i], ds[i])
  }

  lemma Both2(f: real -> real, d: real, g: real -> real, e: real, k: real -> real)
    requires HasSlope(f, d) && HasSlope(g, e) && forall h: real :: k(h) == f(h) + g(h)
    ensures HasSlope(k, d + e)
  {
    var r, c :| Near(f, d, r, c);
    var s, b :| Near(g, e, s, b);
    SumSlope(f, d, r, c, g, e, s, b, k);
  }

  lemma Times2(f: real -> real, d: real, g: real -> real, e: real, k: real -> real)
    requires HasSlope(f, d) && HasSlope(g, e) && forall h: real :: k(h) == Prod(f(h), g(h))
    ensures HasSlope(k, Prod(d, g(0.0)) + Prod(f(0.0), e))
  {
    hide Prod, ProductRest;
    var r, c :| Near(f, d, r, c);
    var s, b :| Near(g, e, s, b);
    ProductSlope(f, d, r, c, g, e, s, b, k);
  }

  lemma SlopeOf(f: real -> real, d: real, r: real, c: real)
    requires Near(f, d, r, c)
    ensures HasSlope(f, d)
  {
  }

  lemma {:induction false} SumsSlope(fs: seq<real -> real>, ds: seq<real>, k: real -> real)
    requires AllSlopes(fs, ds) && forall h: real :: k(h) == SumOf(At(fs, h))
    ensures HasSlope(k, SumOf(ds))
  {
    hide HasSlope;
    if fs == [] {
      ConstSlope(k);
      SlopeOf(k, 0.0, 1.0, 0.0);
    } else {
      hide SumOf;
      var n := |fs| - 1;
      var rest := SumAlong(fs[..n]);
      SumsSlope(fs[..n], ds[..n], rest);
      forall h: real ensures k(h) == rest(h) + fs[n](h) {
        AtPrefix(fs, n, h);
        LastTerm(At(fs, h));
      }
      LastTerm(ds);
      Both2(rest, SumOf(ds[..n]), fs[n], ds[n], k);
    }
  }

  function SumAlong(fs: seq<real -> real>): real -> real { (h: real) => SumOf(At(fs, h)) }

  function ProductAlong(fs: seq<real -> real>): real -> real { (h: real) => ProductOf(At(fs, h)) }

  lemma AtEach(fs: seq<real -> real>, h: real)
    ensures |At(fs, h)| == |fs| && forall i :: 0 <= i < |fs| ==> At(fs, h)[i] == fs[i](h)
  {
  }

  lemma AtPrefix(fs: seq<real -> real>, n: nat, h: real)
    requires n <= |fs|
    ensures At(fs, h)[..n] == At(fs[..n], h)
  {
  }

  lemma {:induction false} LastTerm(xs: seq<real>)
    requires xs != []
    ensures SumOf(xs) == SumOf(xs[..|xs| - 1]) + xs[|xs| - 1]
  {
  }

  lemma {:induction false} LastFactor(xs: seq<real>, ds: seq<real>)
    requires |xs| == |ds| > 0
    ensures var n := |xs| - 1;
            && ProductOf(xs) == Prod(ProductOf(xs[..n]), xs[n])
            && ProductTan(xs, ds) == Prod(ProductTan(xs[..n], ds[..n]), xs[n]) + Prod(ProductOf(xs[..n]), ds[n])
  {
    var n := |xs| - 1;
    hide Prod;
    ProdIs(ProductOf(xs[..n]), xs[n]);
    ProdIs(ProductTan(xs[..n], ds[..n]), xs[n]);
    ProdIs(ProductOf(xs[..n]), ds[n]);
  }

  lemma ProdIs(x: real, y: real)
    ensures Prod(x, y) == x * y
  {
  }

  lemma {:induction false} ProductsSlope(fs: seq<real -> real>, ds: seq<real>, k: real -> real)
    requires AllSlopes(fs, ds) && forall h: real :: k(h) == ProductOf(At(fs, h))
    ensures HasSlope(k, ProductTan(At(fs, 0.0), ds))
  {
    hide HasSlope;
    if fs == [] {
      ConstSlope(k);
      SlopeOf(k, 0.0, 1.0, 0.0);
    } else {
      hide ProductOf, ProductTan, Prod;
      var n := |fs| - 1;
      var rest := ProductAlong(fs[..n]);
      ProductsSlope(fs[..n], ds[..n], rest);
      forall h: real ensures k(h) == Prod(rest(h), fs[n](h)) {
        AtPrefix(fs, n, h);
        LastFactor(At(fs, h), ds);
      }
      Times2(rest, ProductTan(At(fs[..n], 0.0), ds[..n]), fs[n], ds[n], k);
      AtPrefix(fs, n, 0.0);
      LastFactor(At(fs, 0.0), ds);
    }
  }

  /** The first `n` products of two lists added up, and their slopes. */
  function DotTo(xs: seq<real>, ys: seq<real>, n: nat): real
    requires n <= |xs| && n <= |ys|
  { if n == 0 then 0.0 else DotTo(xs, ys, n - 1) + Prod(xs[n - 1], ys[n - 1]) }

  function DotTanTo(xs: seq<real>, ds: seq<real>, ys: seq<real>, es: seq<real>, n: nat): real
    requires n <= |xs| == |ds| == |ys| == |es|
  {
    if n == 0 then 0.0
    else DotTanTo(xs, ds, ys, es, n - 1) + (Prod(ds[n - 1], ys[n - 1]) + Prod(xs[n - 1], es[n - 1]))
  }

  function DotAlong(fs: seq<real -> real>, gs: seq<real -> real>, n: nat): real -> real
    requires n <= |fs| && n <= |gs|
  { (h: real) => DotTo(At(fs, h), At(gs, h), n) }

  lemma {:induction false} DotSlopeTo(fs: seq<real -> real>, ds: seq<real>, gs: seq<real -> real>, es: seq<real>,
                                      n: nat)
    requires AllSlopes(fs, ds) && AllSlopes(gs, es) && n <= |fs| == |gs|
    ensures HasSlope(DotAlong(fs, gs, n), DotTanTo(At(fs, 0.0), ds, At(gs, 0.0), es, n))
  {
    hide HasSlope, Prod, DotTo, DotTanTo, DotAlong, TimesOf, At;
    if n == 0 {
      DotNone(fs, ds, gs, es);
    } else {
      DotSlopeTo(fs, ds, gs, es, n - 1);
      TimesOfSlope(fs[n - 1], ds[n - 1], gs[n - 1], es[n - 1]);
      forall h: real
        ensures DotAlong(fs, gs, n)(h) == DotAlong(fs, gs, n - 1)(h) + TimesOf(fs[n - 1], gs[n - 1])(h) {
        DotNext(fs, gs, n, h);
      }
      Both2(DotAlong(fs, gs, n - 1), DotTanTo(At(fs, 0.0), ds, At(gs, 0.0), es, n - 1), TimesOf(fs[n - 1], gs[n - 1]),
            Prod(ds[n - 1], gs[n - 1](0.0)) + Prod(fs[n - 1](0.0), es[n - 1]), DotAlong(fs, gs, n));
      DotTanNext(fs, ds, gs, es, n);
    }
  }

  lemma DotNone(fs: seq<real -> real>, ds: seq<real>, gs: seq<real -> real>, es: seq<real>)
    requires |fs| == |ds| == |gs| == |es|
    ensures HasSlope(DotAlong(fs, gs, 0), DotTanTo(At(fs, 0.0), ds, At(gs, 0.0), es, 0))
  {
    hide HasSlope;
    var k := DotAlong(fs, gs, 0);
    forall h: real ensures k(h) == 0.0 { DotAlongAt(fs, gs, 0, h); }
    ConstSlope(k);
    SlopeOf(k, 0.0, 1.0, 0.0);
  }

  function TimesOf(f: real -> real, g: real -> real): real -> real { (h: real) => Prod(f(h), g(h)) }

  lemma TimesOfSlope(f: real -> real, d: real, g: real -> real, e: real)
    requires HasSlope(f, d) && HasSlope(g, e)
    ensures HasSlope(TimesOf(f, g), Prod(d, g(0.0)) + Prod(f(0.0), e))
  {
    hide HasSlope, Prod;
    Times2(f, d, g, e, TimesOf(f, g));
  }

  lemma DotAlongAt(fs: seq<real -> real>, gs: seq<real -> real>, n: nat, h: real)
    requires n <= |fs| && n <= |gs|
    ensures DotAlong(fs, gs, n)(h) == DotTo(At(fs, h), At(gs, h), n)
  {
    hide DotTo;
  }

  lemma TimesOfAt(f: real -> real, g: real -> real, h: real)
    ensures TimesOf(f, g)(h) == Prod(f(h), g(h))
  {
    hide Prod;
  }

  lemma {:induction false} DotLast(xs: seq<real>, ys: seq<real>, n: nat)
    requires 0 < n <= |xs| && n <= |ys|
    ensures DotTo(xs, ys, n) == DotTo(xs, ys, n - 1) + Prod(xs[n - 1], ys[n - 1])
  {
    hide Prod;
  }

  lemma {:induction false} DotNext(fs: seq<real -> real>, gs: seq<real -> real>, n: nat, h: real)
    requires 0 < n <= |fs| && n <= |gs|
    ensures DotAlong(fs, gs, n)(h) == DotAlong(fs, gs, n - 1)(h) + TimesOf(fs[n - 1], gs[n - 1])(h)
  {
    hide Prod, DotTo, DotAlong, TimesOf;
    DotAlongAt(fs, gs, n, h);
    DotAlongAt(fs, gs, n - 1, h);
    TimesOfAt(fs[n - 1], gs[n - 1], h);
    DotLast(At(fs, h), At(gs, h), n);
  }

  lemma {:induction false} DotTanNext(fs: seq<real -> real>, ds: seq<real>, gs: seq<real -> real>, es: seq<real>,
                                      n: nat)
    requires 0 < n <= |fs| == |ds| == |gs| == |es|
    ensures DotTanTo(At(fs, 0.0), ds, At(gs, 0.0), es, n)
         == DotTanTo(At(fs, 0.0), ds, At(gs, 0.0), es, n - 1)
            + (Prod(ds[n - 1], gs[n - 1](0.0)) + Prod(fs[n - 1](0.0), es[n - 1]))
  {
    hide Prod;
  }

  lemma {:induction false} DotIs(xs: seq<real>, ys: seq<real>, n: nat)
    requires n <= |xs| == |ys|
    ensures SumOf(Times(xs, ys)[..n]) == DotTo(xs, ys, n)
  {
    hide Prod;
    if n > 0 {
      DotIs(xs, ys, n - 1);
      assert Times(xs, ys)[..n][..n - 1] == Times(xs, ys)[..n - 1];
      ProdIs(xs[n - 1], ys[n - 1]);
    }
  }

  lemma {:induction false} DotTanIs(xs: seq<real>, ds: seq<real>, ys: seq<real>, es: seq<real>, terms: seq<real>,
                                    n: nat)
    requires n <= |xs| == |ds| == |ys| == |es| == |terms|
    requires forall i :: 0 <= i < |xs| ==> terms[i] == ds[i] * ys[i] + xs[i] * es[i]
    ensures SumOf(terms[..n]) == DotTanTo(xs, ds, ys, es, n)
  {
    hide Prod;
    if n > 0 {
      DotTanIs(xs, ds, ys, es, terms, n - 1);
      assert terms[..n][..n - 1] == terms[..n - 1];
      ProdIs(ds[n - 1], ys[n - 1]);
      ProdIs(xs[n - 1], es[n - 1]);
    }
  }

  lemma {:induction false} DotSlope(fs: seq<real -> real>, ds: seq<real>, gs: seq<real -> real>, es: seq<real>,
                                    k: real -> real)
    requires AllSlopes(fs, ds) && AllSlopes(gs, es) && |fs| == |gs|
    requires forall h: real :: k(h) == SumOf(Times(At(fs, h), At(gs, h)))
    ensures HasSlope(k, DotTan(At(fs, 0.0), ds, At(gs, 0.0), es))
  {
    hide HasSlope, SumOf, Prod, At;
    var n := |fs|;
    DotSlopeTo(fs, ds, gs, es, n);
    forall h: real ensures k(h) == DotAlong(fs, gs, n)(h) {
      DotIs(At(fs, h), At(gs, h), n);
      assert Times(At(fs, h), At(gs, h))[..n] == Times(At(fs, h), At(gs, h));
    }
    var xs, ys := At(fs, 0.0), At(gs, 0.0);
    var terms := seq(n, i requires 0 <= i < n => ds[i] * ys[i] + xs[i] * es[i]);
    DotTanIs(xs, ds, ys, es, terms, n);
    assert terms[..n] == terms;
    SameSlope(DotAlong(fs, gs, n), k, DotTanTo(xs, ds, ys, es, n));
  }

  lemma SameSlope(f: real -> real, g: real -> real, d: real)
    requires HasSlope(f, d) && forall h: real :: g(h) == f(h)
    ensures HasSlope(g, d)
  {
    var r, c :| Near(f, d, r, c);
    SameNear(f, d, r, c, g, r);
  }

  // --- extrema -------------------------------------------------------------------------------------------------

  /** Term `i` is the greatest, or the least, and no term before it is. */
  ghost predicate First(op: ReduceOp, xs: seq<real>, i: nat) {
    && i < |xs|
    && (forall j :: 0 <= j < |xs| ==> if op.Max? then xs[j] <= xs[i] else xs[i] <= xs[j])
    && forall j :: 0 <= j < i ==> xs[j] != xs[i]
  }

  /** An extremum is its first extremal term, and its tangent that term's. */
  lemma {:induction false} ExtremumFirst(op: ReduceOp, xs: seq<real>, ds: seq<real>) returns (i: nat)
    requires (op.Min? || op.Max?) && |xs| == |ds| > 0
    ensures First(op, xs, i) && ReduceOf(op, xs) == xs[i] && ReduceTan(op, xs, ds) == ds[i]
  {
    var n := |xs| - 1;
    if n == 0 {
      i := 0;
    } else {
      i := ExtremumFirst(op, xs[..n], ds[..n]);
      assert xs[..n][i] == xs[i] && ds[..n][i] == ds[i];
      assert forall j :: 0 <= j < n ==> xs[..n][j] == xs[j];
      if if op.Max? then xs[n] > xs[i] else xs[n] < xs[i] { i := n; }
    }
  }

  /** Every other term is strictly on the near side of term `i`. */
  ghost predicate Alone(op: ReduceOp, xs: seq<real>, i: nat) {
    i < |xs| && forall j :: 0 <= j < |xs| && j != i ==> if op.Max? then xs[j] < xs[i] else xs[i] < xs[j]
  }

  /** A term that is alone stays so while the step is small. */
  lemma {:induction false} StaysAlone(op: ReduceOp, fs: seq<real -> real>, ds: seq<real>, i: nat, n: nat)
    returns (s: real)
    requires AllSlopes(fs, ds) && Alone(op, At(fs, 0.0), i) && n <= |fs|
    ensures s > 0.0
    ensures forall h: real, j: nat :: Abs(h) <= s && j < n && j != i ==>
                if op.Max? then fs[j](h) < fs[i](h) else fs[i](h) < fs[j](h)
  {
    hide HasSlope, Near;
    if n == 0 {
      s := 1.0;
    } else {
      var t := StaysAlone(op, fs, ds, i, n - 1);
      if n - 1 == i {
        s := t;
      } else {
        assert At(fs, 0.0)[n - 1] != At(fs, 0.0)[i];
        var u := StaysApart(fs[i], ds[i], fs[n - 1], ds[n - 1]);
        s := Smaller(t, u);
      }
    }
  }

  /** Two functions that differ stay in their order. */
  lemma {:induction false} StaysApart(f: real -> real, d: real, g: real -> real, e: real) returns (s: real)
    requires HasSlope(f, d) && HasSlope(g, e) && f(0.0) != g(0.0)
    ensures s > 0.0
    ensures forall h: real :: Abs(h) <= s ==> (f(0.0) < g(0.0) ==> f(h) < g(h)) && (g(0.0) < f(0.0) ==> g(h) < f(h))
  {
    hide Near, Prod;
    var minus := (h: real) => -g(h);
    var k := (h: real) => f(h) + minus(h);
    var r, c :| Near(f, d, r, c);
    var t, b :| Near(g, e, t, b);
    NegSlope(g, e, t, b, minus);
    SumSlope(f, d, r, c, minus, -e, t, b, k);
    s := StaysNonzero(k, d + -e, Smaller(r, t), c + b);
    forall h: real | Abs(h) <= s
      ensures (f(0.0) < g(0.0) ==> f(h) < g(h)) && (g(0.0) < f(0.0) ==> g(h) < f(h)) {
      assert (k(0.0) > 0.0 ==> k(h) > 0.0) && (k(0.0) < 0.0 ==> k(h) < 0.0);
    }
  }

  lemma ExtremumSlope(op: ReduceOp, fs: seq<real -> real>, ds: seq<real>, i: nat, k: real -> real)
    requires (op.Min? || op.Max?) && fs != [] && AllSlopes(fs, ds) && Alone(op, At(fs, 0.0), i)
    requires forall h: real :: k(h) == ReduceOf(op, At(fs, h))
    ensures HasSlope(k, ReduceTan(op, At(fs, 0.0), ds))
  {
    hide ReduceOf, ReduceTan;
    var s := StaysAlone(op, fs, ds, i, |fs|);
    assert Abs(0.0) <= s;
    forall h: real | Abs(h) <= s ensures k(h) == fs[i](h) {
      var first := ExtremumFirst(op, At(fs, h), ds);
      assert At(fs, h)[first] == fs[first](h) && At(fs, h)[i] == fs[i](h);
      assert first == i;
    }
    var first := ExtremumFirst(op, At(fs, 0.0), ds);
    assert At(fs, 0.0)[first] == fs[first](0.0) && At(fs, 0.0)[i] == fs[i](0.0);
    assert first == i;
    var r, c :| Near(fs[i], ds[i], r, c);
    SameNear(fs[i], ds[i], r, c, k, s);
  }

  // --- the graph -------------------------------------------------------------------------------------------------

  /** The point with symbol `j` moved by `h`. */
  function Shift(p: Point, j: nat, h: real): Point {
    Point((s: nat) => if s == j then p.sym(s) + h else p.sym(s), p.un, p.bin, p.pow)
  }

  /** The value of node `e` as symbol `j` moves. */
  function Along(g: seq<Node>, p: Point, j: nat, e: nat): real -> real
    requires Ok(g) && e < |g|
  { (h: real) => Eval(g, Shift(p, j, h), e) }

  function AllAlong(g: seq<Node>, p: Point, j: nat, os: seq<nat>): (r: seq<real -> real>)
    requires Ok(g) && Below(os, |g|)
    ensures |r| == |os| && forall i :: 0 <= i < |os| ==> os[i] < |g| && r[i] == Along(g, p, j, os[i])
  {
    assert forall i :: 0 <= i < |os| ==> os[i] in os;
    seq(|os|, i requires 0 <= i < |os| => Along(g, p, j, os[i]))
  }

  function UnOf(p: Point, op: UnOp): real -> real { (x: real) => p.un(op, x) }

  function BinOf(p: Point, op: BinOp): (real, real) -> real { (x: real, y: real) => p.bin(op, x, y) }

  function PowOf(p: Point, n: int): real -> real { (x: real) => p.pow(x, n) }

  predicate Shaped(n: Node) {
    (n.Reduce? && (n.rop.Min? || n.rop.Max?) ==> n.args != []) && (n.Dot? ==> |n.xs| == |n.ys|)
  }

  /** What makes a node differentiable where its operands have these values: its functions have
      the slopes they bring, no comparison is between equals, an extremum is attained once. */
  ghost predicate NodeTame(p: Point, n: Node, v: seq<real>)
    requires |v| == |Operands(n)|
  {
    match n
    case Un(op, _) => SlopeAt(UnOf(p, op), v[0], p.un(Slope(op), v[0]))
    case Bin(op, _, _) =>
      SlopesAt(BinOf(p, op), v[0], v[1], p.bin(Partial(op, false), v[0], v[1]), p.bin(Partial(op, true), v[0], v[1]))
    case Pow(_, k) => SlopeAt(PowOf(p, k), v[0], Prod(k as real, p.pow(v[0], k - 1)))
    case Cmp(_, _, _) => v[0] != v[1]
    case Reduce(op, _) => op.Min? || op.Max? ==> exists i: nat :: Alone(op, v, i)
    case _ => true
  }

  /** No selection hangs on a zero that is not a comparison's or a constant. */
  ghost predicate ConditionTame(g: seq<Node>, p: Point, n: Node)
    requires Ok(g)
  { n.Select? ==> n.c < |g| && (Eval(g, p, n.c) != 0.0 || g[n.c].Cmp? || g[n.c].Const?) }

  /** Every node under `e` is tame at the point. */
  ghost predicate Tame(g: seq<Node>, p: Point, e: nat)
    requires Ok(g) && e < |g|
    decreases e
  {
    && NodeTame(p, g[e], Args(g, p, e)) && ConditionTame(g, p, g[e])
    && forall i :: 0 <= i < |Operands(g[e])| ==> Before(Operands(g[e])[i], e) && Tame(g, p, Operands(g[e])[i])
  }

  predicate Before(o: nat, e: nat) { o < e }

  /** Points that read alike give one value. */
  lemma {:induction false} SameValue(g: seq<Node>, p: Point, q: Point, e: nat)
    requires Ok(g) && e < |g| && (forall s: nat :: p.sym(s) == q.sym(s))
    requires p.un == q.un && p.bin == q.bin && p.pow == q.pow
    ensures Eval(g, p, e) == Eval(g, q, e)
    decreases e
  {
    hide ValueOf;
    var os := Operands(g[e]);
    assert NodeOk(g[e], e);
    forall i | 0 <= i < |os| ensures Args(g, p, e)[i] == Args(g, q, e)[i] {
      assert os[i] in os;
      SameValue(g, p, q, os[i]);
    }
    assert Args(g, p, e) == Args(g, q, e);
    SameNode(p, q, g[e], Args(g, p, e));
  }

  lemma SameNode(p: Point, q: Point, n: Node, v: seq<real>)
    requires (forall s: nat :: p.sym(s) == q.sym(s)) && p.un == q.un && p.bin == q.bin && p.pow == q.pow
    requires |v| == |Operands(n)| && (n.Reduce? && (n.rop.Min? || n.rop.Max?) ==> n.args != [])
    requires n.Dot? ==> |n.xs| == |n.ys|
    ensures ValueOf(p, n, v) == ValueOf(q, n, v)
  {
  }

  /** No step: the value at the point. */
  lemma AlongNone(g: seq<Node>, p: Point, j: nat, e: nat)
    requires Ok(g) && e < |g|
    ensures Along(g, p, j, e)(0.0) == Eval(g, p, e)
  {
    SameValue(g, Shift(p, j, 0.0), p, e);
  }

  /** The value of a node along the move is the node's of its operands' values. */
  lemma AlongIs(g: seq<Node>, p: Point, j: nat, e: nat, h: real)
    requires Ok(g) && e < |g|
    ensures NodeOk(g[e], |g|) && Below(Operands(g[e]), |g|)
    ensures Along(g, p, j, e)(h) == ValueOf(Shift(p, j, h), g[e], At(AllAlong(g, p, j, Operands(g[e])), h))
  {
    hide ValueOf;
    EvalIs(g, Shift(p, j, h), e);
    assert Evals(g, Shift(p, j, h), Operands(g[e])) == At(AllAlong(g, p, j, Operands(g[e])), h);
  }

  lemma AllAlongNone(g: seq<Node>, p: Point, j: nat, os: seq<nat>)
    requires Ok(g) && Below(os, |g|)
    ensures At(AllAlong(g, p, j, os), 0.0) == Evals(g, p, os)
  {
    hide Eval;
    forall i | 0 <= i < |os| ensures At(AllAlong(g, p, j, os), 0.0)[i] == Evals(g, p, os)[i] {
      assert os[i] in os;
      AlongNone(g, p, j, os[i]);
    }
  }

  /** `f` is constant while the step is small. */
  ghost predicate Flat(f: real -> real) { exists s :: Still(f, s) }

  ghost predicate Still(f: real -> real, s: real) { s > 0.0 && forall h: real :: Abs(h) <= s ==> f(h) == f(0.0) }

  lemma FlatSlope(f: real -> real, k: real -> real)
    requires Flat(f) && forall h: real :: k(h) == f(h)
    ensures HasSlope(k, 0.0)
  {
    hide Prod;
    var s :| Still(f, s);
    forall h: real | Abs(h) <= s ensures Abs(Left(k, 0.0, h)) <= Prod(0.0, Prod(h, h)) {
      assert f(h) == f(0.0) && k(0.0) == f(0.0);
      Laws(h, 0.0, 0.0);
      Laws(Prod(h, h), 0.0, 0.0);
    }
    assert Near(k, 0.0, s, 0.0);
  }

  /** A comparison of two functions that differ is constant. */
  lemma CmpFlat(op: CmpOp, f: real -> real, d: real, g: real -> real, e: real, k: real -> real)
    requires HasSlope(f, d) && HasSlope(g, e) && f(0.0) != g(0.0)
    requires forall h: real :: k(h) == if Holds(op, f(h), g(h)) then 1.0 else 0.0
    ensures Flat(k)
  {
    hide HasSlope;
    var s := StaysApart(f, d, g, e);
    forall h: real | Abs(h) <= s ensures k(h) == k(0.0) {
      assert (f(0.0) < g(0.0) ==> f(h) < g(h)) && (g(0.0) < f(0.0) ==> g(h) < f(h));
    }
    assert Still(k, s);
  }

  /** A selection whose condition keeps whether it is zero is the branch taken. */
  lemma SelectSlope(c: real -> real, d: real, f: real -> real, fd: real, g: real -> real, gd: real, k: real -> real)
    requires HasSlope(c, d) && HasSlope(f, fd) && HasSlope(g, gd) && (c(0.0) != 0.0 || Flat(c))
    requires forall h: real :: k(h) == if c(h) != 0.0 then f(h) else g(h)
    ensures HasSlope(k, if c(0.0) != 0.0 then fd else gd)
  {
    var s: real;
    if c(0.0) != 0.0 {
      var r, b :| Near(c, d, r, b);
      s := StaysNonzero(c, d, r, b);
    } else {
      s :| Still(c, s);
    }
    hide Near, Prod;
    if c(0.0) != 0.0 {
      forall h: real | Abs(h) <= s ensures k(h) == f(h) {
        assert (c(0.0) > 0.0 ==> c(h) > 0.0) && (c(0.0) < 0.0 ==> c(h) < 0.0);
      }
      var r, b :| Near(f, fd, r, b);
      SameNear(f, fd, r, b, k, s);
    } else {
      forall h: real | Abs(h) <= s ensures k(h) == g(h) { assert c(h) == c(0.0); }
      var r, b :| Near(g, gd, r, b);
      SameNear(g, gd, r, b, k, s);
    }
  }

  lemma ComposeAt(u: real -> real, e: real, f: real -> real, d: real, k: real -> real)
    requires SlopeAt(u, f(0.0), e) && HasSlope(f, d) && forall h: real :: k(h) == u(f(h))
    ensures HasSlope(k, Prod(e, d))
  {
    hide Near, Prod;
    var s, b :| Near(Around(u, f(0.0)), e, s, b);
    var r, c :| Near(f, d, r, c);
    var t, a := ComposeSlope(u, e, s, b, f, d, r, c, k);
  }

  lemma Compose2Slopes(u: (real, real) -> real, d: real, e: real, f: real -> real, fd: real, g: real -> real, gd: real,
                       k: real -> real)
    requires SlopesAt(u, f(0.0), g(0.0), d, e) && HasSlope(f, fd) && HasSlope(g, gd)
    requires forall h: real :: k(h) == u(f(h), g(h))
    ensures HasSlope(k, Prod(d, fd) + Prod(e, gd))
  {
    hide Near, Near2, Prod;
    var s, b :| Near2(u, f(0.0), g(0.0), d, e, s, b);
    var r, c :| Near(f, fd, r, c);
    var t, a :| Near(g, gd, t, a);
    var w, z := Compose2Slope(u, d, e, s, b, f, fd, r, c, g, gd, t, a, k);
  }

  lemma NegOf(f: real -> real, d: real, k: real -> real)
    requires HasSlope(f, d) && forall h: real :: k(h) == -f(h)
    ensures HasSlope(k, -d)
  {
    hide Near;
    var r, c :| Near(f, d, r, c);
    NegSlope(f, d, r, c, k);
  }

  lemma LeafSlope(p: Point, j: nat, n: Node, k: real -> real)
    requires n.Const? || n.Sym?
    requires forall h: real :: k(h) == ValueOf(Shift(p, j, h), n, [])
    ensures HasSlope(k, Rule(p, j, n, [], []))
  {
    if n == Sym(j) {
      StepSlope(k);
      SlopeOf(k, 1.0, 1.0, 0.0);
    } else {
      ConstSlope(k);
      SlopeOf(k, 0.0, 1.0, 0.0);
    }
  }

  /** What a node's slope is found from: its operands' functions, their slopes, and that the node
      is tame. */
  ghost predicate NodeSlopes(p: Point, j: nat, n: Node, fs: seq<real -> real>, ds: seq<real>, k: real -> real) {
    && Shaped(n) && AllSlopes(fs, ds) && |fs| == |Operands(n)| && NodeTame(p, n, At(fs, 0.0))
    && (n.Select? && fs[0](0.0) == 0.0 ==> Flat(fs[0]))
    && forall h: real :: k(h) == ValueOf(Shift(p, j, h), n, At(fs, h))
  }

  lemma LeafNode(p: Point, j: nat, n: Node, fs: seq<real -> real>, ds: seq<real>, k: real -> real)
    requires (n.Const? || n.Sym?) && NodeSlopes(p, j, n, fs, ds, k)
    ensures HasSlope(k, Rule(p, j, n, At(fs, 0.0), ds))
  {
    hide HasSlope, SlopeAt, SlopesAt, Flat, Alone, Prod;
    AtEach(fs, 0.0);
    forall h: real ensures At(fs, h) == [] {}
    LeafSlope(p, j, n, k);
  }

  /** The value and the rule of a node of one or two operands, in products that are named. */
  lemma ValueIs(p: Point, n: Node, v: seq<real>)
    requires |v| == |Operands(n)| && (n.Add? || n.Mul? || n.Neg? || n.Pow? || n.Un? || n.Bin?)
    ensures n.Add? ==> ValueOf(p, n, v) == v[0] + v[1]
    ensures n.Mul? ==> ValueOf(p, n, v) == Prod(v[0], v[1])
    ensures n.Neg? ==> ValueOf(p, n, v) == -v[0]
    ensures n.Pow? ==> ValueOf(p, n, v) == p.pow(v[0], n.n)
    ensures n.Un? ==> ValueOf(p, n, v) == p.un(n.op, v[0])
    ensures n.Bin? ==> ValueOf(p, n, v) == p.bin(n.bop, v[0], v[1])
  {
  }

  lemma RuleIs(p: Point, j: nat, n: Node, v: seq<real>, d: seq<real>)
    requires |v| == |d| == |Operands(n)| && (n.Add? || n.Mul? || n.Neg? || n.Pow? || n.Un? || n.Bin?)
    ensures n.Add? ==> Rule(p, j, n, v, d) == d[0] + d[1]
    ensures n.Mul? ==> Rule(p, j, n, v, d) == Prod(d[0], v[1]) + Prod(v[0], d[1])
    ensures n.Neg? ==> Rule(p, j, n, v, d) == -d[0]
    ensures n.Pow? ==> Rule(p, j, n, v, d) == Prod(Prod(n.n as real, p.pow(v[0], n.n - 1)), d[0])
    ensures n.Un? ==> Rule(p, j, n, v, d) == Prod(p.un(Slope(n.op), v[0]), d[0])
    ensures n.Bin? ==> Rule(p, j, n, v, d) ==
                       Prod(p.bin(Partial(n.bop, false), v[0], v[1]), d[0])
                       + Prod(p.bin(Partial(n.bop, true), v[0], v[1]), d[1])
  {
  }

  lemma AddNode(p: Point, j: nat, n: Node, fs: seq<real -> real>, ds: seq<real>, k: real -> real)
    requires (n.Add?) && NodeSlopes(p, j, n, fs, ds, k)
    ensures HasSlope(k, Rule(p, j, n, At(fs, 0.0), ds))
  {
    hide HasSlope, SlopeAt, SlopesAt, Flat, Alone, Prod, ValueOf, Rule;
    AtEach(fs, 0.0);
    RuleIs(p, j, n, At(fs, 0.0), ds);
    forall h: real ensures k(h) == fs[0](h) + fs[1](h) {
      AtEach(fs, h);
      ValueIs(Shift(p, j, h), n, At(fs, h));
    }
    Both2(fs[0], ds[0], fs[1], ds[1], k);
  }

  lemma NegNode(p: Point, j: nat, n: Node, fs: seq<real -> real>, ds: seq<real>, k: real -> real)
    requires (n.Neg?) && NodeSlopes(p, j, n, fs, ds, k)
    ensures HasSlope(k, Rule(p, j, n, At(fs, 0.0), ds))
  {
    hide HasSlope, SlopeAt, SlopesAt, Flat, Alone, Prod, ValueOf, Rule;
    AtEach(fs, 0.0);
    RuleIs(p, j, n, At(fs, 0.0), ds);
    forall h: real ensures k(h) == -fs[0](h) {
      AtEach(fs, h);
      ValueIs(Shift(p, j, h), n, At(fs, h));
    }
    NegOf(fs[0], ds[0], k);
  }

  lemma MulNode(p: Point, j: nat, n: Node, fs: seq<real -> real>, ds: seq<real>, k: real -> real)
    requires (n.Mul?) && NodeSlopes(p, j, n, fs, ds, k)
    ensures HasSlope(k, Rule(p, j, n, At(fs, 0.0), ds))
  {
    hide HasSlope, SlopeAt, SlopesAt, Flat, Alone, Prod, ValueOf, Rule;
    AtEach(fs, 0.0);
    RuleIs(p, j, n, At(fs, 0.0), ds);
    forall h: real ensures k(h) == Prod(fs[0](h), fs[1](h)) {
      AtEach(fs, h);
      ValueIs(Shift(p, j, h), n, At(fs, h));
    }
    Times2(fs[0], ds[0], fs[1], ds[1], k);
  }

  lemma PowNode(p: Point, j: nat, n: Node, fs: seq<real -> real>, ds: seq<real>, k: real -> real)
    requires (n.Pow?) && NodeSlopes(p, j, n, fs, ds, k)
    ensures HasSlope(k, Rule(p, j, n, At(fs, 0.0), ds))
  {
    hide HasSlope, SlopeAt, SlopesAt, Flat, Alone, Prod, ValueOf, Rule;
    AtEach(fs, 0.0);
    RuleIs(p, j, n, At(fs, 0.0), ds);
    forall h: real ensures k(h) == PowOf(p, n.n)(fs[0](h)) {
      AtEach(fs, h);
      ValueIs(Shift(p, j, h), n, At(fs, h));
    }
    ComposeAt(PowOf(p, n.n), Prod(n.n as real, p.pow(fs[0](0.0), n.n - 1)), fs[0], ds[0], k);
  }

  lemma UnNode(p: Point, j: nat, n: Node, fs: seq<real -> real>, ds: seq<real>, k: real -> real)
    requires (n.Un?) && NodeSlopes(p, j, n, fs, ds, k)
    ensures HasSlope(k, Rule(p, j, n, At(fs, 0.0), ds))
  {
    hide HasSlope, SlopeAt, SlopesAt, Flat, Alone, Prod, ValueOf, Rule;
    AtEach(fs, 0.0);
    RuleIs(p, j, n, At(fs, 0.0), ds);
    forall h: real ensures k(h) == UnOf(p, n.op)(fs[0](h)) {
      AtEach(fs, h);
      ValueIs(Shift(p, j, h), n, At(fs, h));
    }
    ComposeAt(UnOf(p, n.op), p.un(Slope(n.op), fs[0](0.0)), fs[0], ds[0], k);
  }

  lemma BinNode(p: Point, j: nat, n: Node, fs: seq<real -> real>, ds: seq<real>, k: real -> real)
    requires (n.Bin?) && NodeSlopes(p, j, n, fs, ds, k)
    ensures HasSlope(k, Rule(p, j, n, At(fs, 0.0), ds))
  {
    hide HasSlope, SlopeAt, SlopesAt, Flat, Alone, Prod, ValueOf, Rule;
    AtEach(fs, 0.0);
    RuleIs(p, j, n, At(fs, 0.0), ds);
    forall h: real ensures k(h) == BinOf(p, n.bop)(fs[0](h), fs[1](h)) {
      AtEach(fs, h);
      ValueIs(Shift(p, j, h), n, At(fs, h));
    }
    Compose2Slopes(BinOf(p, n.bop), p.bin(Partial(n.bop, false), fs[0](0.0), fs[1](0.0)),
                   p.bin(Partial(n.bop, true), fs[0](0.0), fs[1](0.0)), fs[0], ds[0], fs[1], ds[1], k);
  }

  lemma BranchNode(p: Point, j: nat, n: Node, fs: seq<real -> real>, ds: seq<real>, k: real -> real)
    requires (n.Cmp? || n.Select?) && NodeSlopes(p, j, n, fs, ds, k)
    ensures HasSlope(k, Rule(p, j, n, At(fs, 0.0), ds))
  {
    hide HasSlope, SlopeAt, SlopesAt, Flat, Alone, Prod;
    AtEach(fs, 0.0);
    if n.Cmp? {
      CmpFlat(n.cop, fs[0], ds[0], fs[1], ds[1], k);
      FlatSlope(k, k);
    } else {
      SelectSlope(fs[0], ds[0], fs[1], ds[1], fs[2], ds[2], k);
    }
  }

  lemma ListNode(p: Point, j: nat, n: Node, fs: seq<real -> real>, ds: seq<real>, k: real -> real)
    requires (n.Reduce? || n.Dot?) && NodeSlopes(p, j, n, fs, ds, k)
    ensures HasSlope(k, Rule(p, j, n, At(fs, 0.0), ds))
  {
    hide HasSlope, SlopeAt, SlopesAt, Flat, Alone, Prod, ReduceOf, ReduceTan, DotTan, Times, SumOf;
    if n.Reduce? {
      ReduceSlope(n.rop, fs, ds, k);
    } else {
      var m := |n.xs|;
      forall h: real ensures At(fs, h)[..m] == At(fs[..m], h) && At(fs, h)[m..] == At(fs[m..], h) {}
      DotSlope(fs[..m], ds[..m], fs[m..], ds[m..], k);
    }
  }

  /** A node's rule gives its slope from its operands'. */
  lemma NodeSlope(p: Point, j: nat, n: Node, fs: seq<real -> real>, ds: seq<real>, k: real -> real)
    requires NodeSlopes(p, j, n, fs, ds, k)
    ensures HasSlope(k, Rule(p, j, n, At(fs, 0.0), ds))
  {
    hide HasSlope, NodeSlopes, Rule;
    match n
    case Const(_) => LeafNode(p, j, n, fs, ds, k);
    case Sym(_) => LeafNode(p, j, n, fs, ds, k);
    case Add(_, _) => AddNode(p, j, n, fs, ds, k);
    case Neg(_) => NegNode(p, j, n, fs, ds, k);
    case Mul(_, _) => MulNode(p, j, n, fs, ds, k);
    case Pow(_, _) => PowNode(p, j, n, fs, ds, k);
    case Un(_, _) => UnNode(p, j, n, fs, ds, k);
    case Bin(_, _, _) => BinNode(p, j, n, fs, ds, k);
    case Cmp(_, _, _) => BranchNode(p, j, n, fs, ds, k);
    case Select(_, _, _) => BranchNode(p, j, n, fs, ds, k);
    case Reduce(_, _) => ListNode(p, j, n, fs, ds, k);
    case Dot(_, _) => ListNode(p, j, n, fs, ds, k);
  }

  lemma ReduceSlope(op: ReduceOp, fs: seq<real -> real>, ds: seq<real>, k: real -> real)
    requires AllSlopes(fs, ds) && (op.Min? || op.Max? ==> fs != [] && exists i: nat :: Alone(op, At(fs, 0.0), i))
    requires forall h: real :: k(h) == ReduceOf(op, At(fs, h))
    ensures HasSlope(k, ReduceTan(op, At(fs, 0.0), ds))
  {
    hide HasSlope, Alone;
    match op
    case Sum => SumsSlope(fs, ds, k);
    case Product => ProductsSlope(fs, ds, k);
    case Min =>
      var i: nat :| Alone(op, At(fs, 0.0), i);
      assert i < |fs| by { AloneIn(op, At(fs, 0.0), i); }
      ExtremumSlope(op, fs, ds, i, k);
    case Max =>
      var i: nat :| Alone(op, At(fs, 0.0), i);
      assert i < |fs| by { AloneIn(op, At(fs, 0.0), i); }
      ExtremumSlope(op, fs, ds, i, k);
  }

  lemma AloneIn(op: ReduceOp, xs: seq<real>, i: nat)
    requires Alone(op, xs, i)
    ensures i < |xs|
  {
  }

  lemma TameParts(g: seq<Node>, p: Point, e: nat)
    requires Ok(g) && e < |g| && Tame(g, p, e)
    ensures NodeOk(g[e], |g|) && Shaped(g[e]) && Below(Operands(g[e]), |g|) && ConditionTame(g, p, g[e])
    ensures NodeTame(p, g[e], Evals(g, p, Operands(g[e])))
    ensures forall i :: 0 <= i < |Operands(g[e])| ==> Operands(g[e])[i] < e && Tame(g, p, Operands(g[e])[i])
  {
    hide NodeTame, ConditionTame, Eval;
    assert NodeOk(g[e], e);
    assert Args(g, p, e) == Evals(g, p, Operands(g[e]));
    forall i | 0 <= i < |Operands(g[e])| ensures Operands(g[e])[i] < e && Tame(g, p, Operands(g[e])[i]) {
      assert Before(Operands(g[e])[i], e) && Tame(g, p, Operands(g[e])[i]);
    }
  }

  /** The condition of a tame selection keeps whether it is zero. */
  lemma ConditionFlat(g: seq<Node>, p: Point, j: nat, c: nat)
    requires Ok(g) && c < |g| && Tame(g, p, c) && (g[c].Cmp? || g[c].Const?)
    requires forall i :: 0 <= i < |Operands(g[c])| ==>
               && Operands(g[c])[i] < |g|
               && HasSlope(Along(g, p, j, Operands(g[c])[i]), Tan(g, p, j, Operands(g[c])[i]))
    ensures Flat(Along(g, p, j, c))
  {
    hide HasSlope, Tan, Flat, Tame, Eval;
    TameParts(g, p, c);
    var k := Along(g, p, j, c);
    if g[c].Const? {
      forall h: real ensures k(h) == g[c].v { ConstIs(g, Shift(p, j, h), c); }
      ConstFlat(k);
    } else {
      var a, b := g[c].a, g[c].b;
      assert Operands(g[c]) == [a, b];
      var fs := AllAlong(g, p, j, [a, b]);
      AllAlongNone(g, p, j, [a, b]);
      AtEach(fs, 0.0);
      assert HasSlope(Along(g, p, j, Operands(g[c])[0]), Tan(g, p, j, a));
      assert HasSlope(Along(g, p, j, Operands(g[c])[1]), Tan(g, p, j, b));
      forall h: real ensures k(h) == if Holds(g[c].cop, fs[0](h), fs[1](h)) then 1.0 else 0.0 {
        AlongIs(g, p, j, c, h);
        AtEach(fs, h);
      }
      CmpFlat(g[c].cop, fs[0], Tan(g, p, j, a), fs[1], Tan(g, p, j, b), k);
    }
  }

  lemma ConstFlat(k: real -> real)
    requires forall h: real :: k(h) == k(0.0)
    ensures Flat(k)
  {
    assert Still(k, 1.0);
  }

  /** The tangent of every node is its derivative, wherever the expression is tame. */
  lemma {:induction false} TanSlope(g: seq<Node>, p: Point, j: nat, e: nat)
    requires Ok(g) && e < |g| && Tame(g, p, e)
    ensures HasSlope(Along(g, p, j, e), Tan(g, p, j, e))
    decreases e
  {
    hide HasSlope, Rule, Flat, Tame, NodeTame, ValueOf, Eval, Tan;
    TameParts(g, p, e);
    var os := Operands(g[e]);
    var fs, ds, k := AllAlong(g, p, j, os), Tans(g, p, j, os), Along(g, p, j, e);
    forall i | 0 <= i < |os| ensures HasSlope(fs[i], ds[i]) { TanSlope(g, p, j, os[i]); }
    AllAlongNone(g, p, j, os);
    AtEach(fs, 0.0);
    forall h: real ensures k(h) == ValueOf(Shift(p, j, h), g[e], At(fs, h)) { AlongIs(g, p, j, e, h); }
    if g[e].Select? && fs[0](0.0) == 0.0 {
      var c := g[e].c;
      assert os[0] == c;
      TameParts(g, p, c);
      forall i | 0 <= i < |Operands(g[c])|
        ensures HasSlope(Along(g, p, j, Operands(g[c])[i]), Tan(g, p, j, Operands(g[c])[i])) {
        TanSlope(g, p, j, Operands(g[c])[i]);
      }
      ConditionFlat(g, p, j, c);
    }
    NodeSlope(p, j, g[e], fs, ds, k);
    TanIs(g, p, j, e);
  }

  /** A function has one slope. */
  lemma SlopeUnique(f: real -> real, d: real, e: real)
    requires HasSlope(f, d) && HasSlope(f, e)
    ensures d == e
  {
    hide Prod;
    var r, c :| Near(f, d, r, c);
    var s, b :| Near(f, e, s, b);
    if d != e {
      var h := TooSmall(Abs(d - e), c + b, Smaller(r, s));
      assert Abs(Left(f, d, h)) <= Prod(c, Prod(h, h)) && Abs(Left(f, e, h)) <= Prod(b, Prod(h, h));
      Laws(h, d, e);
      Laws(h, d - e, 0.0);
      Laws(d, h, 0.0);
      Laws(e, h, 0.0);
      Laws(Prod(h, h), c, b);
      AbsSum(Left(f, e, h), Left(f, d, h));
      AbsProd(d - e, h);
      assert false;
    }
  }

  /** A step whose square, that often, is less than so many steps. */
  lemma TooSmall(m: real, c: real, r: real) returns (h: real)
    requires m > 0.0 && c >= 0.0 && r > 0.0
    ensures 0.0 < h <= r && Prod(c, Prod(h, h)) < Prod(m, h)
  {
    var l := c + 1.0;
    var t := m / l;
    assert l * t == m && t > 0.0;
    h := Smaller(r, t / 2.0);
    var ch := c * h;
    assert ch <= l * h <= l * (t / 2.0) < m;
    assert c * (h * h) == ch * h < m * h;
  }

  /** An expression the differentiation returns is worth the derivative at every point the
      expression differentiated is tame at. */
  lemma DerivativeIs(g: seq<Node>, p: Point, j: nat, e: nat, d: nat)
    requires Ok(g) && Derives(g, d, e, j) && Tame(g, p, e)
    ensures HasSlope(Along(g, p, j, e), Eval(g, p, d))
  {
    hide HasSlope, Tame, Eval, Tan;
    TanSlope(g, p, j, e);
  }

  function RealPower(x: real, n: nat): real { if n == 0 then 1.0 else Prod(RealPower(x, n - 1), x) }

  /** A power by repeated multiplication has the slope its rule brings. */
  lemma {:induction false} PowTame(v: real, n: nat, u: real -> real)
    requires forall x: real :: u(x) == RealPower(x, n)
    ensures SlopeAt(u, v, if n == 0 then 0.0 else Prod(n as real, RealPower(v, n - 1)))
  {
    hide HasSlope, Prod;
    var k := Around(u, v);
    if n == 0 {
      ConstSlope(k);
      SlopeOf(k, 0.0, 1.0, 0.0);
    } else {
      var w: real -> real := (x: real) => RealPower(x, n - 1);
      var step: real -> real := (h: real) => v + h;
      PowTame(v, n - 1, w);
      StepSlope(step);
      SlopeOf(step, 1.0, 1.0, 0.0);
      var d := if n == 1 then 0.0 else Prod((n - 1) as real, RealPower(v, n - 2));
      Times2(Around(w, v), d, step, 1.0, k);
      PowerRule(v, n);
    }
  }

  lemma PowerRule(v: real, n: nat)
    requires n > 0
    ensures Prod(if n == 1 then 0.0 else Prod((n - 1) as real, RealPower(v, n - 2)), v) + Prod(RealPower(v, n - 1), 1.0)
         == Prod(n as real, RealPower(v, n - 1))
  {
    hide Prod;
    var q := RealPower(v, n - 1);
    Laws(q, 1.0, (n - 1) as real);
    Laws(v, 0.0, 0.0);
    assert n as real == (n - 1) as real + 1.0;
    if n > 1 {
      Laws((n - 1) as real, RealPower(v, n - 2), v);
    } else {
      Laws(0.0, v, 0.0);
      Laws(q, 0.0, 1.0);
    }
  }
}
