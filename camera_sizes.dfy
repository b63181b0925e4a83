/** The pose-estimation app's preview-size selection: Java 32-bit integer arithmetic, the
    area comparator, the aspect-ratio filter with the smallest-big-enough / largest-other
    rule, and whether the display rotation swaps the sensor's width and height. */
module CameraSizes {
  import opened Common

  // ---------------------------------------------------------------------------
  // Java int arithmetic

  type Int32 = x: int | MinInt32 <= x <= MaxInt32

  const TwoTo32: int := 0x1_0000_0000

  /** The 32-bit two's-complement value of x: the Int32 congruent to x modulo 2^32. */
  function Wrap32(x: int): (r: Int32)
    ensures (r - x) % TwoTo32 == 0
    ensures MinInt32 <= x <= MaxInt32 ==> r == x
  {
    (x - MinInt32) % TwoTo32 + MinInt32
  }

  function Abs(x: int): nat
  {
    if x < 0 then -x else x
  }

  /** Euclidean division of naturals brackets the dividend. */
  lemma NatDivBounds(x: nat, y: nat)
    requires y > 0
    ensures 0 <= x / y <= x
    ensures (x / y) * y <= x < (x / y + 1) * y
  {
    var q, r := x / y, x % y;
    assert x == q * y + r;
    assert (q + 1) * y == q * y + y;
    MulLeMono(q, 1, q, y);
  }

  /** Division rounding toward zero, as Java's `/` does: the magnitude is the quotient of
      the magnitudes, negative exactly when the signs differ. */
  function TruncDiv(a: int, b: int): (q: int)
    requires b != 0
    ensures Abs(q) * Abs(b) <= Abs(a) < (Abs(q) + 1) * Abs(b)
    ensures q != 0 ==> (q < 0 <==> (a < 0) != (b < 0))
  {
    var q := Abs(a) / Abs(b);
    NatDivBounds(Abs(a), Abs(b));
    if (a < 0) != (b < 0) then -q else q
  }

  /** Java `a * b` on ints: the exact product, wrapped. */
  function Mul32(a: Int32, b: Int32): Int32
  {
    Wrap32(a * b)
  }

  /** Java `a / b` on ints: truncated, and MIN_VALUE / -1 wraps to MIN_VALUE. */
  function Div32(a: Int32, b: Int32): Int32
    requires b != 0
  {
    Wrap32(TruncDiv(a, b))
  }

  /** On non-negative operands whose product fits, `a * b / c` is the exact quotient. */
  lemma MulDivExact(a: Int32, b: Int32, c: Int32)
    requires 0 <= a && 0 <= b && 0 < c && a * b <= MaxInt32
    ensures Div32(Mul32(a, b), c) == a * b / c
  {
    var p: int := a * b;
    assert p >= 0 by {
      MulNonNegative(a, b);
    }
    NatDivBounds(p, c);
    assert TruncDiv(p, c) == p / c;
  }

  lemma MulNonNegative(a: int, b: int)
    requires 0 <= a && 0 <= b
    ensures 0 <= a * b
  {
  }

  /** The one quotient that does not fit: MIN_VALUE / -1 wraps back to MIN_VALUE. */
  lemma DivOverflow()
    ensures Div32(MinInt32, -1) == MinInt32
  {
    assert TruncDiv(MinInt32, -1) == MaxInt32 + 1;
  }

  // ---------------------------------------------------------------------------
  // Sizes and the area comparator

  datatype Size = Size(width: Int32, height: Int32)

  /** The area in 64-bit arithmetic: `width.toLong() * height`. */
  function Area(s: Size): int
  {
    s.width * s.height
  }

  function Signum(x: int): int
  {
    if x < 0 then -1 else if x == 0 then 0 else 1
  }

  /** CompareSizesByArea.compare: the sign of the difference of the two areas. */
  function CompareSizesByArea(lhs: Size, rhs: Size): (r: int)
    ensures -1 <= r <= 1
    ensures r < 0 <==> Area(lhs) < Area(rhs)
    ensures r == 0 <==> Area(lhs) == Area(rhs)
    ensures r > 0 <==> Area(lhs) > Area(rhs)
  {
    Signum(Area(lhs) - Area(rhs))
  }

  /** Neither a 64-bit area nor the difference of two of them overflows, so the sign is the
      sign of the exact difference: the cast to long is enough. */
  lemma AreaDifferenceFitsInLong(lhs: Size, rhs: Size)
    ensures MinInt64 <= Area(lhs) <= MaxInt64
    ensures MinInt64 <= Area(lhs) - Area(rhs) <= MaxInt64
  {
    AreaBounds(lhs);
    AreaBounds(rhs);
    AreaLowerBound(rhs);
  }

  /** |width * height| is at most 2^31 * 2^31. */
  lemma AreaBounds(s: Size)
    ensures -0x4000_0000_0000_0000 <= Area(s) <= 0x4000_0000_0000_0000
  {
    var w: int, h: int := s.width, s.height;
    MulLeMono(Abs(w), Abs(h), 0x8000_0000, 0x8000_0000);
    assert Abs(w) * Abs(h) == Abs(w * h) by {
      if w < 0 && h >= 0 {
        assert (-w) * h == -(w * h);
        MulNonNegative(-w, h);
      } else if w >= 0 && h < 0 {
        assert w * (-h) == -(w * h);
        MulNonNegative(w, -h);
      } else if w < 0 && h < 0 {
        assert (-w) * (-h) == w * h;
        MulNonNegative(-w, -h);
      } else {
        MulNonNegative(w, h);
      }
    }
  }

  /** A negative area has one factor at most 2^31 - 1 in size, so the area is above
      -2^62 + 2^31. */
  lemma AreaLowerBound(s: Size)
    ensures -0x4000_0000_0000_0000 + 0x8000_0000 <= Area(s)
  {
    var w: int, h: int := s.width, s.height;
    if w < 0 && h > 0 {
      MulLeMono(-w, h, 0x8000_0000, 0x7fff_ffff);
      assert (-w) * h == -(w * h);
    } else if w > 0 && h < 0 {
      MulLeMono(w, -h, 0x7fff_ffff, 0x8000_0000);
      assert w * (-h) == -(w * h);
    } else if w <= 0 && h <= 0 {
      MulNonNegative(-w, -h);
      assert (-w) * (-h) == w * h;
    } else {
      MulNonNegative(w, h);
    }
  }

  /** Products of naturals grow with both factors. */
  lemma MulLeMono(a: nat, b: nat, c: nat, d: nat)
    requires a <= c && b <= d
    ensures a * b <= c * d
  {
    MulNonNegative(a, d - b);
    MulNonNegative(c - a, d);
    assert a * d - a * b == a * (d - b);
    assert c * d - a * d == (c - a) * d;
  }

  /** The comparator is a total preorder by area: -1, 0 or 1 as the left area is smaller,
      equal or larger, antisymmetric, and transitive. */
  lemma CompareSizesByAreaIsOrder(a: Size, b: Size, c: Size)
    ensures CompareSizesByArea(a, b) in {-1, 0, 1}
    ensures CompareSizesByArea(a, b) < 0 <==> Area(a) < Area(b)
    ensures CompareSizesByArea(a, b) == 0 <==> Area(a) == Area(b)
    ensures CompareSizesByArea(a, b) == -CompareSizesByArea(b, a)
    ensures CompareSizesByArea(a, b) <= 0 && CompareSizesByArea(b, c) <= 0 ==> CompareSizesByArea(a, c) <= 0
  {
  }

  // ---------------------------------------------------------------------------
  // Choosing the preview size

  /** The first position of a smallest area in s. */
  ghost predicate IsFirstMin(s: seq<Size>, k: int)
  {
    && 0 <= k < |s|
    && (forall i :: 0 <= i < |s| ==> Area(s[k]) <= Area(s[i]))
    && (forall i :: 0 <= i < k ==> Area(s[k]) < Area(s[i]))
  }

  /** The first position of a largest area in s. */
  ghost predicate IsFirstMax(s: seq<Size>, k: int)
  {
    && 0 <= k < |s|
    && (forall i :: 0 <= i < |s| ==> Area(s[i]) <= Area(s[k]))
    && (forall i :: 0 <= i < k ==> Area(s[i]) < Area(s[k]))
  }

  /** A list has at most one first smallest and one first largest. */
  lemma FirstExtremeIsUnique(s: seq<Size>, k: int, m: int)
    ensures IsFirstMin(s, k) && IsFirstMin(s, m) ==> k == m
    ensures IsFirstMax(s, k) && IsFirstMax(s, m) ==> k == m
  {
    if IsFirstMin(s, k) && IsFirstMin(s, m) {
      var ak, am := Area(s[k]), Area(s[m]);
      assert ak <= am && am <= ak;
      assert k < m ==> am < ak;
      assert m < k ==> ak < am;
    }
    if IsFirstMax(s, k) && IsFirstMax(s, m) {
      var ak, am := Area(s[k]), Area(s[m]);
      assert ak <= am && am <= ak;
      assert k < m ==> ak < am;
      assert m < k ==> am < ak;
    }
  }

  /** Collections.min(s, CompareSizesByArea()): keep the first element, and replace it by
      each later one that compares strictly smaller. */
  method MinByArea(s: seq<Size>) returns (r: Size)
    requires s != []
    ensures exists k :: IsFirstMin(s, k) && r == s[k]
  {
    r := s[0];
    ghost var k := 0;
    for i := 1 to |s|
      invariant IsFirstMin(s[..i], k) && r == s[k]
    {
      if CompareSizesByArea(s[i], r) < 0 {
        r := s[i];
        k := i;
      }
    }
    assert s[..|s|] == s;
    assert IsFirstMin(s, k);
  }

  /** Collections.max(s, CompareSizesByArea()): keep the first element, and replace it by
      each later one that compares strictly larger. */
  method MaxByArea(s: seq<Size>) returns (r: Size)
    requires s != []
    ensures exists k :: IsFirstMax(s, k) && r == s[k]
  {
    r := s[0];
    ghost var k := 0;
    for i := 1 to |s|
      invariant IsFirstMax(s[..i], k) && r == s[k]
    {
      if CompareSizesByArea(s[i], r) > 0 {
        r := s[i];
        k := i;
      }
    }
    assert s[..|s|] == s;
    assert IsFirstMax(s, k);
  }

  /** An option is a candidate when it fits the maximum size and its height is its width
      scaled by the aspect ratio, in Java int arithmetic. */
  predicate Fits(option: Size, maxWidth: Int32, maxHeight: Int32, aspectRatio: Size)
    requires aspectRatio.width != 0
  {
    && option.width <= maxWidth && option.height <= maxHeight
    && option.height == Div32(Mul32(option.width, aspectRatio.height), aspectRatio.width)
  }

  predicate BigEnough(option: Size, textureViewWidth: Int32, textureViewHeight: Int32)
  {
    option.width >= textureViewWidth && option.height >= textureViewHeight
  }

  /** The candidates at least as big as the view, in the order of choices. */
  function BigEnoughCandidates(choices: seq<Size>, textureViewWidth: Int32, textureViewHeight: Int32,
                               maxWidth: Int32, maxHeight: Int32, aspectRatio: Size): (r: seq<Size>)
    requires aspectRatio.width != 0
    ensures |r| <= |choices|
    ensures forall x :: x in r ==>
      x in choices && Fits(x, maxWidth, maxHeight, aspectRatio) && BigEnough(x, textureViewWidth, textureViewHeight)
  {
    if choices == [] then []
    else
      var option := choices[|choices| - 1];
      BigEnoughCandidates(choices[..|choices| - 1], textureViewWidth, textureViewHeight, maxWidth, maxHeight, aspectRatio)
      + (if Fits(option, maxWidth, maxHeight, aspectRatio) && BigEnough(option, textureViewWidth, textureViewHeight)
         then [option] else [])
  }

  /** The other candidates, in the order of choices. */
  function NotBigEnoughCandidates(choices: seq<Size>, textureViewWidth: Int32, textureViewHeight: Int32,
                                  maxWidth: Int32, maxHeight: Int32, aspectRatio: Size): seq<Size>
    requires aspectRatio.width != 0
  {
    if choices == [] then []
    else
      var option := choices[|choices| - 1];
      NotBigEnoughCandidates(choices[..|choices| - 1], textureViewWidth, textureViewHeight, maxWidth, maxHeight, aspectRatio)
      + (if Fits(option, maxWidth, maxHeight, aspectRatio) && !BigEnough(option, textureViewWidth, textureViewHeight)
         then [option] else [])
  }

  /** The two candidate lists hold exactly the options that fit, split by whether they are
      big enough. */
  lemma {:induction false} CandidatesAreTheFittingOptions(choices: seq<Size>, textureViewWidth: Int32, textureViewHeight: Int32,
                                                          maxWidth: Int32, maxHeight: Int32, aspectRatio: Size, o: Size)
    requires aspectRatio.width != 0
    ensures o in BigEnoughCandidates(choices, textureViewWidth, textureViewHeight, maxWidth, maxHeight, aspectRatio) <==>
      o in choices && Fits(o, maxWidth, maxHeight, aspectRatio) && BigEnough(o, textureViewWidth, textureViewHeight)
    ensures o in NotBigEnoughCandidates(choices, textureViewWidth, textureViewHeight, maxWidth, maxHeight, aspectRatio) <==>
      o in choices && Fits(o, maxWidth, maxHeight, aspectRatio) && !BigEnough(o, textureViewWidth, textureViewHeight)
  {
    if choices != [] {
      var init := choices[..|choices| - 1];
      CandidatesAreTheFittingOptions(init, textureViewWidth, textureViewHeight, maxWidth, maxHeight, aspectRatio, o);
      assert choices == init + [choices[|choices| - 1]];
    }
  }

  /** chooseOptimalSize: the first smallest candidate that is big enough; else the first
      largest other candidate; else choices[0]. */
  method ChooseOptimalSize(choices: seq<Size>, textureViewWidth: Int32, textureViewHeight: Int32,
                           maxWidth: Int32, maxHeight: Int32, aspectRatio: Size) returns (r: Size)
    requires choices != [] && aspectRatio.width != 0
    ensures r in choices
    ensures
      var big := BigEnoughCandidates(choices, textureViewWidth, textureViewHeight, maxWidth, maxHeight, aspectRatio);
      var small := NotBigEnoughCandidates(choices, textureViewWidth, textureViewHeight, maxWidth, maxHeight, aspectRatio);
      && (big != [] ==> exists k :: IsFirstMin(big, k) && r == big[k])
      && (big == [] && small != [] ==> exists k :: IsFirstMax(small, k) && r == small[k])
      && (big == [] && small == [] ==> r == choices[0])
  {
    var bigEnough, notBigEnough := CollectCandidates(choices, textureViewWidth, textureViewHeight,
                                                     maxWidth, maxHeight, aspectRatio);
    if |bigEnough| > 0 {
      r := MinByArea(bigEnough);
      CandidatesAreTheFittingOptions(choices, textureViewWidth, textureViewHeight, maxWidth, maxHeight, aspectRatio, r);
    } else if |notBigEnough| > 0 {
      r := MaxByArea(notBigEnough);
      CandidatesAreTheFittingOptions(choices, textureViewWidth, textureViewHeight, maxWidth, maxHeight, aspectRatio, r);
    } else {
      r := choices[0];
    }
  }

  /** The loop of chooseOptimalSize over the choices: an option that fits the maxima with
      the aspect ratio goes to bigEnough when it covers the view, else to notBigEnough. */
  method CollectCandidates(choices: seq<Size>, textureViewWidth: Int32, textureViewHeight: Int32,
                           maxWidth: Int32, maxHeight: Int32, aspectRatio: Size)
    returns (bigEnough: seq<Size>, notBigEnough: seq<Size>)
    requires aspectRatio.width != 0
    ensures bigEnough == BigEnoughCandidates(choices, textureViewWidth, textureViewHeight, maxWidth, maxHeight, aspectRatio)
    ensures notBigEnough == NotBigEnoughCandidates(choices, textureViewWidth, textureViewHeight, maxWidth, maxHeight, aspectRatio)
  {
    bigEnough, notBigEnough := [], [];
    var w := aspectRatio.width;
    var h := aspectRatio.height;
    for i := 0 to |choices|
      invariant bigEnough == BigEnoughCandidates(choices[..i], textureViewWidth, textureViewHeight, maxWidth, maxHeight, aspectRatio)
      invariant notBigEnough == NotBigEnoughCandidates(choices[..i], textureViewWidth, textureViewHeight, maxWidth, maxHeight, aspectRatio)
    {
      var option := choices[i];
      assert choices[..i + 1][..i] == choices[..i];
      if option.width <= maxWidth && option.height <= maxHeight && option.height == Div32(Mul32(option.width, h), w) {
        if option.width >= textureViewWidth && option.height >= textureViewHeight {
          bigEnough := bigEnough + [option];
        } else {
          notBigEnough := notBigEnough + [option];
        }
      }
    }
    assert choices[..|choices|] == choices;
  }

  // ---------------------------------------------------------------------------
  // Display rotation

  /** Surface.ROTATION_0 .. ROTATION_270. */
  const Rotation0: int := 0
  const Rotation90: int := 1
  const Rotation180: int := 2
  const Rotation270: int := 3

  /** areDimensionsSwapped, with the sensor orientation passed in: upright and upside-down
      displays swap for a sensor at 90 or 270 degrees, landscape displays for a sensor at 0
      or 180 degrees, and an unknown rotation never swaps. */
  method AreDimensionsSwapped(displayRotation: int, sensorOrientation: int) returns (swappedDimensions: bool)
    ensures (displayRotation == Rotation0 || displayRotation == Rotation180) ==>
      (swappedDimensions <==> sensorOrientation == 90 || sensorOrientation == 270)
    ensures (displayRotation == Rotation90 || displayRotation == Rotation270) ==>
      (swappedDimensions <==> sensorOrientation == 0 || sensorOrientation == 180)
    ensures !(Rotation0 <= displayRotation <= Rotation270) ==> !swappedDimensions
    ensures Rotation0 <= displayRotation <= Rotation270 && sensorOrientation in {0, 90, 180, 270} ==>
      (swappedDimensions <==> (displayRotation * 90 + sensorOrientation) % 180 == 90)
  {
    swappedDimensions := false;
    if displayRotation == Rotation0 || displayRotation == Rotation180 {
      if sensorOrientation == 90 || sensorOrientation == 270 {
        swappedDimensions := true;
      }
    } else if displayRotation == Rotation90 || displayRotation == Rotation270 {
      if sensorOrientation == 0 || sensorOrientation == 180 {
        swappedDimensions := true;
      }
    }
  }
}
