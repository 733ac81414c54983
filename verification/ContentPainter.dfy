/** The layout half of the content-painter modifier: how a painter's
    intrinsic size and a content-scale policy turn a destination box into a
    drawn size, how incoming box constraints are adjusted before the child is
    measured, and how the four intrinsic-size queries are answered.

    Float geometry is modelled with exact reals. The content-scale policy is
    an open strategy, so it is a function-typed field of the modifier and
    nothing is assumed about it unless a lemma says so. */
module ContentPainter {

  // ---------------------------------------------------------------------------
  // Geometry
  // ---------------------------------------------------------------------------

  /** Kotlin's Int range; `Constraints.Infinity` is the largest Int. */
  const IntMin: int := -0x8000_0000
  const IntMax: int := 0x7FFF_FFFF
  const Infinity: int := IntMax

  function Max(a: int, b: int): (r: int) { if a >= b then a else b }

  function Clamp(x: int, lo: int, hi: int): (r: int) { if x < lo then lo else if x > hi then hi else x }

  function ClampReal(x: real, lo: real, hi: real): (r: real) { if x < lo then lo else if x > hi then hi else x }

  /** `Float.roundToInt`: nearest integer with ties towards positive
      infinity, saturating at the ends of the Int range. */
  function RoundToInt(x: real): (r: int)
    ensures IntMin <= r <= IntMax
    ensures IntMin as real <= x <= IntMax as real ==> r as real - 0.5 <= x < r as real + 0.5
    ensures x > IntMax as real ==> r == IntMax
    ensures x < IntMin as real ==> r == IntMin
  {
    var n := (x + 0.5).Floor;
    if n > IntMax then IntMax else if n < IntMin then IntMin else n
  }

  /** A float size. The destinations this modifier computes are always finite. */
  datatype Size = Size(width: real, height: real) {
    /** `Size.isEmpty`: no area. */
    predicate IsEmpty() { width <= 0.0 || height <= 0.0 }

    /** `Size * ScaleFactor`: component-wise scaling. */
    function Times(f: ScaleFactor): (r: Size) { Size(width * f.scaleX, height * f.scaleY) }
  }

  const Zero := Size(0.0, 0.0)

  datatype ScaleFactor = ScaleFactor(scaleX: real, scaleY: real)

  /** One dimension of a painter's intrinsic size: a finite float, or a
      non-finite one (infinite or NaN). */
  datatype Dimension = Finite(value: real) | NonFinite {
    /** `Float.takeOrElse`: the value when finite, the fallback otherwise. */
    function TakeOrElse(fallback: real): (r: real) {
      match this
      case Finite(v) => v
      case NonFinite => fallback
    }
  }

  /** `Size.Unspecified`, or a size whose dimensions may still be non-finite. */
  datatype IntrinsicSize = Unspecified | Specified(width: Dimension, height: Dimension)

  /** Box constraints. A maximum equal to `Infinity` is unbounded. */
  datatype Constraints = Constraints(minWidth: int, maxWidth: int, minHeight: int, maxHeight: int) {
    /** What the constraints type guarantees of every value it builds. */
    predicate Valid() {
      && 0 <= minWidth <= maxWidth <= Infinity
      && 0 <= minHeight <= maxHeight <= Infinity
    }

    predicate HasFixedWidth() { minWidth == maxWidth }
    predicate HasFixedHeight() { minHeight == maxHeight }
    predicate HasBoundedWidth() { maxWidth != Infinity }
    predicate HasBoundedHeight() { maxHeight != Infinity }

    /** `constrainWidth` / `constrainHeight` on Int: coerce into [min, max]. */
    function ConstrainWidth(w: int): (r: int) { Clamp(w, minWidth, maxWidth) }
    function ConstrainHeight(h: int): (r: int) { Clamp(h, minHeight, maxHeight) }

    /** The Float overloads: coerce into [min, max] converted to Float. */
    function ConstrainWidthReal(w: real): (r: real) { ClampReal(w, minWidth as real, maxWidth as real) }
    function ConstrainHeightReal(h: real): (r: real) { ClampReal(h, minHeight as real, maxHeight as real) }

    /** A measured size these constraints admit. */
    predicate Admits(width: int, height: int) {
      minWidth <= width <= maxWidth && minHeight <= height <= maxHeight
    }
  }

  /** The parts of the modifier that layout depends on: the painter's
      intrinsic size and the content-scale policy's `computeScaleFactor`. */
  datatype Modifier = Modifier(intrinsicSize: IntrinsicSize, computeScaleFactor: (Size, Size) -> ScaleFactor)

  // ---------------------------------------------------------------------------
  // calculateScaledSize
  // ---------------------------------------------------------------------------

  /** The size the painter is drawn at inside `dst`. An empty destination
      draws nothing; an unspecified intrinsic size fills the destination;
      otherwise the intrinsic size, with each non-finite dimension taken from
      the destination, is scaled by the policy's factor. */
  function CalculateScaledSize(m: Modifier, dst: Size): (r: Size)
    ensures dst.IsEmpty() ==> r == Zero
    ensures !dst.IsEmpty() && m.intrinsicSize.Unspecified? ==> r == dst
    ensures !dst.IsEmpty() && m.intrinsicSize.Specified? ==>
      var src := Size(m.intrinsicSize.width.TakeOrElse(dst.width), m.intrinsicSize.height.TakeOrElse(dst.height));
      var f := m.computeScaleFactor(src, dst);
      && r.width == (if m.intrinsicSize.width.Finite? then m.intrinsicSize.width.value else dst.width) * f.scaleX
      && r.height == (if m.intrinsicSize.height.Finite? then m.intrinsicSize.height.value else dst.height) * f.scaleY
  {
    if dst.IsEmpty() then Zero
    else match m.intrinsicSize
      case Unspecified => dst
      case Specified(w, h) =>
        var src := Size(w.TakeOrElse(dst.width), h.TakeOrElse(dst.height));
        src.Times(m.computeScaleFactor(src, dst))
  }

  /** A policy that leaves a non-empty size alone when source and destination
      agree (true of fit, crop, inside, fill-bounds and none; on an empty size
      the ratio-based ones divide zero by zero). */
  ghost predicate IdentityOnEqualSizes(computeScaleFactor: (Size, Size) -> ScaleFactor) {
    forall s: Size :: !s.IsEmpty() ==> computeScaleFactor(s, s) == ScaleFactor(1.0, 1.0)
  }

  /** With no finite intrinsic dimension, such a policy draws the painter at
      exactly the destination size. */
  lemma FullyNonFiniteFillsDestination(m: Modifier, dst: Size)
    requires m.intrinsicSize == Specified(NonFinite, NonFinite)
    requires IdentityOnEqualSizes(m.computeScaleFactor)
    requires !dst.IsEmpty()
    ensures CalculateScaledSize(m, dst) == dst
  {
  }

  /** The drawn size is never negative when the finite intrinsic dimensions
      and the policy's factors are not. */
  lemma ScaledSizeNonNegative(m: Modifier, dst: Size)
    requires forall s, d :: m.computeScaleFactor(s, d).scaleX >= 0.0 && m.computeScaleFactor(s, d).scaleY >= 0.0
    requires m.intrinsicSize.Specified? && m.intrinsicSize.width.Finite? ==> m.intrinsicSize.width.value >= 0.0
    requires m.intrinsicSize.Specified? && m.intrinsicSize.height.Finite? ==> m.intrinsicSize.height.value >= 0.0
    ensures CalculateScaledSize(m, dst).width >= 0.0 && CalculateScaledSize(m, dst).height >= 0.0
  {
  }

  // ---------------------------------------------------------------------------
  // modifyConstraints
  // ---------------------------------------------------------------------------

  /** The destination box the constraints are sized against when the
      intrinsic size is specified: the maximum box when both dimensions are
      bounded and one is fixed, otherwise each finite intrinsic dimension
      coerced into the constraints, falling back to the minimum. */
  function Destination(c: Constraints, width: Dimension, height: Dimension): (dst: Size)
    requires c.Valid()
    ensures c.minWidth as real <= dst.width <= c.maxWidth as real
    ensures c.minHeight as real <= dst.height <= c.maxHeight as real
    ensures c.HasBoundedWidth() && c.HasBoundedHeight() && (c.HasFixedWidth() || c.HasFixedHeight()) ==>
      dst == Size(c.maxWidth as real, c.maxHeight as real)
    ensures !(c.HasBoundedWidth() && c.HasBoundedHeight() && (c.HasFixedWidth() || c.HasFixedHeight())) ==>
      && (width.NonFinite? ==> dst.width == c.minWidth as real)
      && (height.NonFinite? ==> dst.height == c.minHeight as real)
      && (width.Finite? && c.minWidth as real <= width.value <= c.maxWidth as real ==> dst.width == width.value)
      && (height.Finite? && c.minHeight as real <= height.value <= c.maxHeight as real ==> dst.height == height.value)
      && (width.Finite? && width.value < c.minWidth as real ==> dst.width == c.minWidth as real)
      && (width.Finite? && width.value > c.maxWidth as real ==> dst.width == c.maxWidth as real)
      && (height.Finite? && height.value < c.minHeight as real ==> dst.height == c.minHeight as real)
      && (height.Finite? && height.value > c.maxHeight as real ==> dst.height == c.maxHeight as real)
  {
    if c.HasBoundedHeight() && c.HasBoundedWidth() && (c.HasFixedWidth() || c.HasFixedHeight()) then
      Size(c.maxWidth as real, c.maxHeight as real)
    else
      Size(
        match width { case Finite(w) => c.ConstrainWidthReal(w) case NonFinite => c.minWidth as real },
        match height { case Finite(h) => c.ConstrainHeightReal(h) case NonFinite => c.minHeight as real })
  }

  /** The constraints the child is measured under. Maximums never move; the
      new minimums stay within the original bounds. With an intrinsic size
      (and not both dimensions fixed) each new minimum is the rounded scaled
      size against the destination box, coerced into the original bounds. */
  function ModifyConstraints(m: Modifier, c: Constraints): (r: Constraints)
    requires c.Valid()
    ensures r.Valid()
    ensures r.maxWidth == c.maxWidth && r.maxHeight == c.maxHeight
    ensures c.minWidth <= r.minWidth <= c.maxWidth && c.minHeight <= r.minHeight <= c.maxHeight
    ensures c.HasFixedWidth() && c.HasFixedHeight() ==> r == c
    ensures m.intrinsicSize.Unspecified? && c.HasBoundedWidth() && c.HasBoundedHeight() ==>
      r == c.(minWidth := c.maxWidth, minHeight := c.maxHeight)
    ensures m.intrinsicSize.Unspecified? && !(c.HasBoundedWidth() && c.HasBoundedHeight()) ==> r == c
    ensures m.intrinsicSize.Specified? && !(c.HasFixedWidth() && c.HasFixedHeight()) ==>
      var s := CalculateScaledSize(m, Destination(c, m.intrinsicSize.width, m.intrinsicSize.height));
      var w := RoundToInt(s.width);
      var h := RoundToInt(s.height);
      && (c.minWidth <= w <= c.maxWidth ==> r.minWidth == w)
      && (w > c.maxWidth ==> r.minWidth == c.maxWidth)
      && (w < c.minWidth ==> r.minWidth == c.minWidth)
      && (c.minHeight <= h <= c.maxHeight ==> r.minHeight == h)
      && (h > c.maxHeight ==> r.minHeight == c.maxHeight)
      && (h < c.minHeight ==> r.minHeight == c.minHeight)
  {
    if c.HasFixedWidth() && c.HasFixedHeight() then c
    else
      var hasBoundSize := c.HasBoundedHeight() && c.HasBoundedWidth();
      match m.intrinsicSize
      case Unspecified =>
        if hasBoundSize then c.(minWidth := c.maxWidth, minHeight := c.maxHeight) else c
      case Specified(w, h) =>
        var scaled := CalculateScaledSize(m, Destination(c, w, h));
        c.(minWidth := c.ConstrainWidth(RoundToInt(scaled.width)),
           minHeight := c.ConstrainHeight(RoundToInt(scaled.height)))
  }

  /** An empty destination leaves the constraints as they were: the scaled
      size is zero and zero coerces to the old minimums. */
  lemma EmptyDestinationKeepsConstraints(m: Modifier, c: Constraints)
    requires c.Valid() && m.intrinsicSize.Specified?
    requires Destination(c, m.intrinsicSize.width, m.intrinsicSize.height).IsEmpty()
    ensures ModifyConstraints(m, c) == c
  {
  }

  /** Without an intrinsic size, adjusting twice is adjusting once. */
  lemma UnspecifiedModifyConstraintsIdempotent(m: Modifier, c: Constraints)
    requires c.Valid() && m.intrinsicSize.Unspecified?
    ensures ModifyConstraints(m, ModifyConstraints(m, c)) == ModifyConstraints(m, c)
  {
  }

  /** With an intrinsic size, idempotence depends on the policy: one whose
      factor grows with the destination (here, drawing at twice the
      destination size) raises the minimums again on every application. */
  lemma GrowingPolicyIsNotIdempotent()
    ensures var m := Modifier(Specified(Finite(10.0), Finite(10.0)), (s: Size, d: Size) => ScaleFactor(d.width / 5.0, d.height / 5.0));
      var c := Constraints(0, Infinity, 0, Infinity);
      && ModifyConstraints(m, c) == Constraints(20, Infinity, 20, Infinity)
      && ModifyConstraints(m, ModifyConstraints(m, c)) == Constraints(40, Infinity, 40, Infinity)
  {
    var m := Modifier(Specified(Finite(10.0), Finite(10.0)), (s: Size, d: Size) => ScaleFactor(d.width / 5.0, d.height / 5.0));
    var once := Constraints(20, Infinity, 20, Infinity);
    assert CalculateScaledSize(m, Size(10.0, 10.0)) == Size(20.0, 20.0);
    assert CalculateScaledSize(m, Size(20.0, 20.0)) == Size(40.0, 40.0);
    assert Destination(once, Finite(10.0), Finite(10.0)) == Size(20.0, 20.0);
  }

  /** Fill-bounds: scale each axis of the source onto the destination. Floats
      divide a positive width by zero to infinity; the sizes below never hit
      that case, so the zero branch is only there to keep the division total. */
  function FillBounds(s: Size, d: Size): (f: ScaleFactor)
    ensures s.width != 0.0 && s.height != 0.0 ==> f.scaleX * s.width == d.width && f.scaleY * s.height == d.height
  {
    ScaleFactor(if s.width == 0.0 then 0.0 else d.width / s.width,
                if s.height == 0.0 then 0.0 else d.height / s.height)
  }

  /** The stock fill-bounds policy, which stretches the source onto the
      destination, is not idempotent either: once the first adjustment fixes
      the width, the destination becomes the maximum box and the height
      minimum rises again. */
  lemma FillBoundsIsNotIdempotent()
    ensures var m := Modifier(Specified(Finite(400.0), Finite(200.0)),
                              FillBounds);
      var c := Constraints(0, 300, 0, 300);
      && ModifyConstraints(m, c) == Constraints(300, 300, 200, 300)
      && ModifyConstraints(m, ModifyConstraints(m, c)) == Constraints(300, 300, 300, 300)
  {
    var m := Modifier(Specified(Finite(400.0), Finite(200.0)),
                      FillBounds);
    var c := Constraints(0, 300, 0, 300);
    var once := Constraints(300, 300, 200, 300);
    assert Destination(c, Finite(400.0), Finite(200.0)) == Size(300.0, 200.0);
    assert CalculateScaledSize(m, Size(300.0, 200.0)) == Size(300.0, 200.0);
    assert Destination(once, Finite(400.0), Finite(200.0)) == Size(300.0, 300.0);
    assert CalculateScaledSize(m, Size(300.0, 300.0)) == Size(300.0, 300.0);
  }

  // ---------------------------------------------------------------------------
  // measure
  // ---------------------------------------------------------------------------

  /** The size a child reports after measurement. */
  datatype Placeable = Placeable(width: int, height: int)

  /** The modifier's own size and where it places its child. */
  datatype MeasureResult = MeasureResult(width: int, height: int, childX: int, childY: int)

  /** Measures the child under the adjusted constraints, takes the child's
      size as its own and places the child at the origin. */
  function Measure(m: Modifier, measure: Constraints -> Placeable, c: Constraints): (r: MeasureResult)
    requires c.Valid()
    ensures r.childX == 0 && r.childY == 0
    ensures var adjusted := ModifyConstraints(m, c);
      adjusted.Admits(measure(adjusted).width, measure(adjusted).height) ==>
        c.Admits(r.width, r.height) && r.width >= adjusted.minWidth && r.height >= adjusted.minHeight
    ensures r.width == measure(ModifyConstraints(m, c)).width
    ensures r.height == measure(ModifyConstraints(m, c)).height
  {
    var placeable := measure(ModifyConstraints(m, c));
    MeasureResult(placeable.width, placeable.height, 0, 0)
  }

  // ---------------------------------------------------------------------------
  // Intrinsic measurements
  // ---------------------------------------------------------------------------

  /** The child's own intrinsic-size answers. */
  datatype IntrinsicMeasurable = IntrinsicMeasurable(
    minIntrinsicWidth: int -> int,
    maxIntrinsicWidth: int -> int,
    minIntrinsicHeight: int -> int,
    maxIntrinsicHeight: int -> int)

  /** The shared specified-size path of the two width queries: ask the child
      under the height the adjusted constraints allow, then report the larger
      of the scaled width and the child's answer. */
  function ScaledIntrinsicWidth(m: Modifier, query: int -> int, height: int): (r: int)
    requires 0 <= height <= Infinity
  {
    var layoutWidth := query(ModifyConstraints(m, Constraints(0, Infinity, 0, height)).maxHeight);
    var scaled := CalculateScaledSize(m, Size(layoutWidth as real, height as real));
    Max(RoundToInt(scaled.width), layoutWidth)
  }

  /** The shared specified-size path of the two height queries. */
  function ScaledIntrinsicHeight(m: Modifier, query: int -> int, width: int): (r: int)
    requires 0 <= width <= Infinity
  {
    var layoutHeight := query(ModifyConstraints(m, Constraints(0, width, 0, Infinity)).maxWidth);
    var scaled := CalculateScaledSize(m, Size(width as real, layoutHeight as real));
    Max(RoundToInt(scaled.height), layoutHeight)
  }

  function MinIntrinsicWidth(m: Modifier, child: IntrinsicMeasurable, height: int): (r: int)
    requires m.intrinsicSize.Specified? ==> 0 <= height <= Infinity
    ensures m.intrinsicSize.Unspecified? ==> r == child.minIntrinsicWidth(height)
    ensures m.intrinsicSize.Specified? ==> r >= child.minIntrinsicWidth(height)
    ensures m.intrinsicSize.Specified? ==>
      var a := child.minIntrinsicWidth(height);
      r == Max(RoundToInt(CalculateScaledSize(m, Size(a as real, height as real)).width), a)
  {
    if m.intrinsicSize.Specified? then ScaledIntrinsicWidth(m, child.minIntrinsicWidth, height)
    else child.minIntrinsicWidth(height)
  }

  function MaxIntrinsicWidth(m: Modifier, child: IntrinsicMeasurable, height: int): (r: int)
    requires m.intrinsicSize.Specified? ==> 0 <= height <= Infinity
    ensures m.intrinsicSize.Unspecified? ==> r == child.maxIntrinsicWidth(height)
    ensures m.intrinsicSize.Specified? ==> r >= child.maxIntrinsicWidth(height)
    ensures m.intrinsicSize.Specified? ==>
      var a := child.maxIntrinsicWidth(height);
      r == Max(RoundToInt(CalculateScaledSize(m, Size(a as real, height as real)).width), a)
  {
    if m.intrinsicSize.Specified? then ScaledIntrinsicWidth(m, child.maxIntrinsicWidth, height)
    else child.maxIntrinsicWidth(height)
  }

  /** The minimum intrinsic height as the source writes it: without an
      intrinsic size it answers the child's minimum intrinsic WIDTH. */
  function MinIntrinsicHeightAsWritten(m: Modifier, child: IntrinsicMeasurable, width: int): (r: int)
    requires m.intrinsicSize.Specified? ==> 0 <= width <= Infinity
    ensures m.intrinsicSize.Unspecified? ==> r == child.minIntrinsicWidth(width)
    ensures m.intrinsicSize.Specified? ==> r >= child.minIntrinsicHeight(width)
    ensures m.intrinsicSize.Specified? ==>
      var a := child.minIntrinsicHeight(width);
      r == Max(RoundToInt(CalculateScaledSize(m, Size(width as real, a as real)).height), a)
  {
    if m.intrinsicSize.Specified? then ScaledIntrinsicHeight(m, child.minIntrinsicHeight, width)
    else child.minIntrinsicWidth(width)
  }

  /** A child whose minimum intrinsic width and height differ shows the
      as-written fallback answering the wrong question. */
  lemma MinIntrinsicHeightAsWrittenAnswersWidth()
    ensures var child := IntrinsicMeasurable(w => 100, w => 100, h => 50, h => 50);
      var m := Modifier(Unspecified, (s: Size, d: Size) => ScaleFactor(1.0, 1.0));
      MinIntrinsicHeightAsWritten(m, child, 10) == 100 != child.minIntrinsicHeight(10)
  {
  }

  /** The minimum intrinsic height as intended: the fallback delegates to
      the child's minimum intrinsic height, like the other three queries. */
  function MinIntrinsicHeight(m: Modifier, child: IntrinsicMeasurable, width: int): (r: int)
    requires m.intrinsicSize.Specified? ==> 0 <= width <= Infinity
    ensures m.intrinsicSize.Unspecified? ==> r == child.minIntrinsicHeight(width)
    ensures m.intrinsicSize.Specified? ==> r >= child.minIntrinsicHeight(width)
    ensures m.intrinsicSize.Specified? ==>
      var a := child.minIntrinsicHeight(width);
      r == Max(RoundToInt(CalculateScaledSize(m, Size(width as real, a as real)).height), a)
  {
    if m.intrinsicSize.Specified? then ScaledIntrinsicHeight(m, child.minIntrinsicHeight, width)
    else child.minIntrinsicHeight(width)
  }

  function MaxIntrinsicHeight(m: Modifier, child: IntrinsicMeasurable, width: int): (r: int)
    requires m.intrinsicSize.Specified? ==> 0 <= width <= Infinity
    ensures m.intrinsicSize.Unspecified? ==> r == child.maxIntrinsicHeight(width)
    ensures m.intrinsicSize.Specified? ==> r >= child.maxIntrinsicHeight(width)
    ensures m.intrinsicSize.Specified? ==>
      var a := child.maxIntrinsicHeight(width);
      r == Max(RoundToInt(CalculateScaledSize(m, Size(width as real, a as real)).height), a)
  {
    if m.intrinsicSize.Specified? then ScaledIntrinsicHeight(m, child.maxIntrinsicHeight, width)
    else child.maxIntrinsicHeight(width)
  }
}
