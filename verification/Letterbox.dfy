/** Where a picture goes on the screen: scaled to fit the mode, centred, its shape kept.  The source computes
    in doubles; here the same expressions are over exact reals. */
module Letterbox {
  import opened Arithmetic

  datatype Rectangle = Rectangle(x: nat, y: nat, w: nat, h: nat)

  type Size = n: nat | 1 <= n < 0x1_0000_0000 witness 1

  function RawHeight(modeW: Size, srcW: Size, srcH: Size): nat {
    assert srcW as real / srcH as real > 0.0;
    Rounded(modeW as real / (srcW as real / srcH as real))
  }

  function RawWidth(modeH: Size, srcW: Size, srcH: Size): nat {
    Rounded(modeH as real * (srcW as real / srcH as real))
  }

  function AtMost(n: nat, limit: nat): nat { if n > limit then limit else n }

  function AtLeastOne(n: int): int { if n == 0 then 1 else n }

  function Offset(mode: nat, dst: nat): nat { if dst < mode then (mode - dst) / 2 else 0 }

  predicate Wider(modeW: Size, modeH: Size, srcW: Size, srcH: Size) {
    srcW as real / srcH as real > modeW as real / modeH as real
  }

  function Fit(modeW: Size, modeH: Size, srcW: Size, srcH: Size): (r: Rectangle)
    ensures 1 <= r.w <= modeW && 1 <= r.h <= modeH
  {
    var w := AtLeastOne(if Wider(modeW, modeH, srcW, srcH) then modeW else AtMost(RawWidth(modeH, srcW, srcH), modeW));
    var h := AtLeastOne(if Wider(modeW, modeH, srcW, srcH) then AtMost(RawHeight(modeW, srcW, srcH), modeH) else modeH);
    Rectangle(Offset(modeW, w), Offset(modeH, h), w, h)
  }

  // ---------- the same in integers ----------

  lemma HeightInIntegers(modeW: Size, srcW: Size, srcH: Size)
    ensures RawHeight(modeW, srcW, srcH) == Nearest(modeW * srcH, srcW)
  {
    var m, w, h := modeW as real, srcW as real, srcH as real;
    assert w / h > 0.0;
    var x := m / (w / h);
    assert x * (w / h) == m && (w / h) * h == w;
    assert x * w == x * ((w / h) * h) == (x * (w / h)) * h == m * h;
    assert m * h == (modeW * srcH) as real;
    RoundedQuotient(x, modeW * srcH, srcW);
  }

  lemma WidthInIntegers(modeH: Size, srcW: Size, srcH: Size)
    ensures RawWidth(modeH, srcW, srcH) == Nearest(modeH * srcW, srcH)
  {
    var m, w, h := modeH as real, srcW as real, srcH as real;
    var x := m * (w / h);
    assert (w / h) * h == w;
    assert x * h == m * ((w / h) * h) == m * w;
    assert m * w == (modeH * srcW) as real;
    RoundedQuotient(x, modeH * srcW, srcH);
  }

  lemma WiderInIntegers(modeW: Size, modeH: Size, srcW: Size, srcH: Size)
    ensures Wider(modeW, modeH, srcW, srcH) <==> srcW * modeH > modeW * srcH
  {
    var mw, mh, w, h := modeW as real, modeH as real, srcW as real, srcH as real;
    var p, q := w / h, mw / mh;
    assert p * h == w && q * mh == mw;
    assert w * mh == p * (h * mh) && mw * h == q * (h * mh);
    assert h * mh > 0.0;
    assert w * mh == (srcW * modeH) as real && mw * h == (modeW * srcH) as real;
    if p > q {
      assert (p - q) * (h * mh) > 0.0;
    } else {
      assert (q - p) * (h * mh) >= 0.0;
    }
  }

  /** The clamps to the mode's size never change anything: the rounded size already fits. */
  lemma UpperClampsNeverFire(modeW: Size, modeH: Size, srcW: Size, srcH: Size)
    ensures if Wider(modeW, modeH, srcW, srcH) then RawHeight(modeW, srcW, srcH) <= modeH
            else RawWidth(modeH, srcW, srcH) <= modeW
  {
    WiderInIntegers(modeW, modeH, srcW, srcH);
    if Wider(modeW, modeH, srcW, srcH) {
      HeightInIntegers(modeW, srcW, srcH);
      NearestBounded(modeW * srcH, srcW, modeH);
    } else {
      WidthInIntegers(modeH, srcW, srcH);
      NearestBounded(modeH * srcW, srcH, modeW);
    }
  }

  /** The fitted rectangle without clamps and without reals.  width and height are the source's sides
      measured against the mode's, so that comparing them compares the aspects. */
  predicate IsFit(r: Rectangle, modeW: Size, modeH: Size, srcW: Size, srcH: Size) {
    var width: int, height: int := modeH * srcW, modeW * srcH;
    && (if width > height then r.w == modeW && r.h == AtLeastOne(Nearest(height, srcW))
        else r.w == AtLeastOne(Nearest(width, srcH)) && r.h == modeH)
    && r.x == Offset(modeW, r.w) && r.y == Offset(modeH, r.h)
  }

  lemma FitInIntegers(modeW: Size, modeH: Size, srcW: Size, srcH: Size)
    ensures IsFit(Fit(modeW, modeH, srcW, srcH), modeW, modeH, srcW, srcH)
  {
    UpperClampsNeverFire(modeW, modeH, srcW, srcH);
    WiderInIntegers(modeW, modeH, srcW, srcH);
    HeightInIntegers(modeW, srcW, srcH);
    WidthInIntegers(modeH, srcW, srcH);
  }

  // ---------- what the rectangle promises ----------

  /** The rectangle lies inside the mode, fills it in one direction, and is centred in the other to within
      one pixel (the odd one goes to the right or to the bottom). */
  lemma InsideFillingCentred(modeW: Size, modeH: Size, srcW: Size, srcH: Size)
    ensures var r := Fit(modeW, modeH, srcW, srcH);
            && r.w >= 1 && r.h >= 1 && r.x + r.w <= modeW && r.y + r.h <= modeH
            && (r.w == modeW || r.h == modeH)
            && 0 <= (modeW - r.x - r.w) - r.x <= 1
            && 0 <= (modeH - r.y - r.h) - r.y <= 1
  {
  }

  /** dst pixels where a / b would be exact: off by half a pixel at most, or raised to the one-pixel minimum
      from less than half. */
  predicate WithinHalfPixel(dst: int, a: int, b: int) {
    || 2 * (b * dst) <= 2 * a + b < 2 * (b * dst) + 2 * b
    || (dst == 1 && 2 * a < b)
  }

  lemma NearestWithinHalf(a: nat, b: nat)
    requires b > 0
    ensures WithinHalfPixel(AtLeastOne(Nearest(a, b)), a, b)
  {
    var n := Nearest(a, b);
    NearestIs(a, b, n);
    assert 2 * b * n == 2 * (b * n);
  }

  lemma ShapeOfFit(r: Rectangle, modeW: Size, modeH: Size, srcW: Size, srcH: Size, width: nat, height: nat)
    requires width == modeH * srcW && height == modeW * srcH && IsFit(r, modeW, modeH, srcW, srcH)
    ensures if width > height then r.w == modeW && WithinHalfPixel(r.h, height, srcW)
            else r.h == modeH && WithinHalfPixel(r.w, width, srcH)
  {
    NearestWithinHalf(height, srcW);
    NearestWithinHalf(width, srcH);
  }

  /** The picture's shape is kept to within half a pixel: exact would be height / srcW or width / srcH. */
  lemma AspectWithinHalfPixel(modeW: Size, modeH: Size, srcW: Size, srcH: Size, width: nat, height: nat)
    requires width == modeH * srcW && height == modeW * srcH
    ensures var r := Fit(modeW, modeH, srcW, srcH);
            if width > height then r.w == modeW && WithinHalfPixel(r.h, height, srcW)
            else r.h == modeH && WithinHalfPixel(r.w, width, srcH)
  {
    FitInIntegers(modeW, modeH, srcW, srcH);
    ShapeOfFit(Fit(modeW, modeH, srcW, srcH), modeW, modeH, srcW, srcH, width, height);
  }

  /** a/b and c/d are the same number, so they round alike. */
  lemma NearestOfEqualRatios(a: nat, b: nat, c: nat, d: nat)
    requires b > 0 && d > 0 && a * d == c * b
    ensures Nearest(a, b) == Nearest(c, d)
  {
    var q := Nearest(a, b);
    NearestIs(a, b, q);
    assert d * (2 * b * q) <= d * (2 * a + b) < d * (2 * b * q + 2 * b);
    assert d * (2 * a + b) == b * (2 * c + d);
    assert d * (2 * b * q) == b * (2 * d * q) && d * (2 * b * q + 2 * b) == b * (2 * d * q + 2 * d);
    assert b * (2 * d * q) <= b * (2 * c + d) < b * (2 * d * q + 2 * d);
    Cancel(b, 2 * d * q, 2 * c + d);
    CancelStrict(b, 2 * c + d, 2 * d * q + 2 * d);
    NearestIs(c, d, q);
  }

  lemma WiderOfEqualRatios(modeW: Size, modeH: Size, w: Size, h: Size, v: Size, g: Size)
    requires w * g == v * h && modeH * w > modeW * h
    ensures modeH * v > modeW * g
  {
    assert g * (modeH * w) > g * (modeW * h);
    assert g * (modeH * w) == modeH * (w * g) == modeH * (v * h) == h * (modeH * v);
    assert g * (modeW * h) == h * (modeW * g);
    CancelStrict(h, modeW * g, modeH * v);
  }

  lemma EqualProducts(m: nat, a: nat, b: nat, c: nat, d: nat)
    requires a * b == c * d
    ensures (m * a) * b == (m * c) * d
  {
    assert (m * a) * b == m * (a * b) && (m * c) * d == m * (c * d);
  }

  lemma SameRatioSameFit(modeW: Size, modeH: Size, w: Size, h: Size, v: Size, g: Size, r: Rectangle, q: Rectangle)
    requires IsFit(r, modeW, modeH, w, h) && IsFit(q, modeW, modeH, v, g) && w * g == v * h
    ensures r == q
  {
    EqualProducts(modeW, h, v, g, w);
    EqualProducts(modeH, w, g, v, h);
    if modeH * w > modeW * h {
      WiderOfEqualRatios(modeW, modeH, w, h, v, g);
      NearestOfEqualRatios(modeW * h, w, modeW * g, v);
    } else if modeH * v > modeW * g {
      WiderOfEqualRatios(modeW, modeH, v, g, w, h);
    } else {
      NearestOfEqualRatios(modeH * w, h, modeH * v, g);
    }
  }

  /** Only the ratio of the source's sides matters. */
  lemma DependsOnRatioOnly(modeW: Size, modeH: Size, w: Size, h: Size, v: Size, g: Size)
    requires w * g == v * h
    ensures Fit(modeW, modeH, w, h) == Fit(modeW, modeH, v, g)
  {
    FitInIntegers(modeW, modeH, w, h);
    FitInIntegers(modeW, modeH, v, g);
    SameRatioSameFit(modeW, modeH, w, h, v, g, Fit(modeW, modeH, w, h), Fit(modeW, modeH, v, g));
  }

  lemma NearestOfMultiple(n: nat, b: nat)
    requires b > 0
    ensures Nearest(b * n, b) == n
  {
    NearestIs(b * n, b, n);
  }

  lemma TimesStrict(a: nat, b: nat, c: nat)
    requires a < b && c > 0
    ensures c * a < c * b
  {
    TimesAtLeastOne(c, b - a);
  }

  lemma FittedWide(modeW: Size, modeH: Size, h: Size, r: Rectangle)
    requires h < modeH && IsFit(r, modeW, modeH, modeW, h)
    ensures r.w == modeW && r.h == h
  {
    NearestOfMultiple(h, modeW);
    TimesStrict(h, modeH, modeW);
  }

  lemma FittedTall(modeW: Size, modeH: Size, w: Size, r: Rectangle)
    requires w <= modeW && IsFit(r, modeW, modeH, w, modeH)
    ensures r.w == w && r.h == modeH
  {
    NearestOfMultiple(w, modeH);
    if w < modeW {
      TimesStrict(w, modeW, modeH);
    }
  }

  /** A picture already of the fitted size is placed exactly there: fitting twice is fitting once. */
  lemma FitIsIdempotent(modeW: Size, modeH: Size, srcW: Size, srcH: Size)
    ensures var r := Fit(modeW, modeH, srcW, srcH); Fit(modeW, modeH, r.w, r.h) == r
  {
    InsideFillingCentred(modeW, modeH, srcW, srcH);
    var r := Fit(modeW, modeH, srcW, srcH);
    var again := Fit(modeW, modeH, r.w, r.h);
    FitInIntegers(modeW, modeH, r.w, r.h);
    if r.h < modeH {
      FittedWide(modeW, modeH, r.h, again);
    } else {
      FittedTall(modeW, modeH, r.w, again);
    }
  }

  // ---------- the sizes commit_plane remembers ----------

  /** srcW and srcH are the last non-zero sizes seen, 0 before any. */
  class Plane {
    const modeW: Size
    const modeH: Size
    var srcW: nat
    var srcH: nat

    ghost predicate Valid()
      reads this
    {
      srcW < 0x1_0000_0000 && srcH < 0x1_0000_0000
    }

    constructor (modeW: Size, modeH: Size)
      ensures Valid() && srcW == srcH == 0 && this.modeW == modeW && this.modeH == modeH
    {
      this.modeW, this.modeH, srcW, srcH := modeW, modeH, 0, 0;
    }

    /** A size of 0 means: as last time, or the mode's own when there was no last time. */
    method Place(w: nat, h: nat) returns (r: Rectangle)
      requires Valid() && w < 0x1_0000_0000 && h < 0x1_0000_0000
      modifies this
      ensures Valid()
      ensures srcW == (if w != 0 then w else old(srcW)) && srcH == (if h != 0 then h else old(srcH))
      ensures r == Fit(modeW, modeH, if srcW != 0 then srcW else modeW, if srcH != 0 then srcH else modeH)
    {
      var width: nat, height: nat := w, h;
      if width == 0 {
        width := if srcW != 0 then srcW else modeW;
      } else {
        srcW := width;
      }
      if height == 0 {
        height := if srcH != 0 then srcH else modeH;
      } else {
        srcH := height;
      }
      r := Scale(width, height);
    }

    method Scale(width: Size, height: Size) returns (r: Rectangle)
      ensures r == Fit(modeW, modeH, width, height)
    {
      var dstW: nat, dstH: nat := modeW, modeH;
      if Wider(modeW, modeH, width, height) {
        dstH := RawHeight(modeW, width, height);
        if dstH > modeH {
          dstH := modeH;
        }
      } else {
        dstW := RawWidth(modeH, width, height);
        if dstW > modeW {
          dstW := modeW;
        }
      }
      if dstW == 0 {
        dstW := 1;
      }
      if dstH == 0 {
        dstH := 1;
      }
      var x, y := 0, 0;
      if dstW < modeW {
        x := (modeW - dstW) / 2;
      }
      if dstH < modeH {
        y := (modeH - dstH) / 2;
      }
      r := Rectangle(x, y, dstW, dstH);
    }
  }
}
