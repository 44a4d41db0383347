/** Where a face is: either nowhere known, or an axis-aligned bounding box
    (src/location.py). */
module Locations {
  import opened Wrappers

  /** A bounding box stores its four edges; width and height are views
      derived from them, and setting one moves the right or bottom edge. */
  datatype BBox = BBox(left: real, top: real, right: real, bottom: real) {

    /** The `width` getter. */
    function Width(): real {
      right - left
    }

    /** The `height` getter. */
    function Height(): real {
      bottom - top
    }

    /** The `width` setter: the left edge stays put, so reading the width back gives `w`. */
    function WithWidth(w: real): (b: BBox)
      ensures b.Width() == w
      ensures b.left == left && b.top == top && b.bottom == bottom
      ensures b.Height() == Height()
    {
      this.(right := left + w)
    }

    /** The `height` setter: the top edge stays put, so reading the height back gives `h`. */
    function WithHeight(h: real): (b: BBox)
      ensures b.Height() == h
      ensures b.left == left && b.top == top && b.right == right
      ensures b.Width() == Width()
    {
      this.(bottom := top + h)
    }
  }

  /** `UnknownLocation` carries no data; a known location is a box. */
  datatype Location = Unknown | Known(box: BBox)

  /** The four `ValueError`s the box constructor raises. */
  datatype BBoxError =
    | BothRightAndWidth
    | NeitherRightNorWidth
    | BothBottomAndHeight
    | NeitherBottomNorHeight

  /** The `BBox(left, top, *, right, bottom, width, height)` constructor: each
      keyword argument left at `None` is `None` here. Exactly one of right and
      width, and exactly one of bottom and height, must be given; the
      right/width pair is checked first. */
  function MakeBBox(left: real, top: real,
                    right: Option<real>, bottom: Option<real>,
                    width: Option<real>, height: Option<real>): (r: Result<BBox, BBoxError>)
    ensures r.Success? <==> right.Some? != width.Some? && bottom.Some? != height.Some?
    ensures right.Some? && width.Some? ==> r == Failure(BothRightAndWidth)
    ensures right.None? && width.None? ==> r == Failure(NeitherRightNorWidth)
    ensures right.Some? != width.Some? && bottom.Some? && height.Some? ==>
              r == Failure(BothBottomAndHeight)
    ensures right.Some? != width.Some? && bottom.None? && height.None? ==>
              r == Failure(NeitherBottomNorHeight)
    ensures r.Success? ==> r.value.left == left && r.value.top == top
    ensures r.Success? && right.Some? ==> r.value.right == right.value
    ensures r.Success? && width.Some? ==> r.value.right == left + width.value
    ensures r.Success? && bottom.Some? ==> r.value.bottom == bottom.value
    ensures r.Success? && height.Some? ==> r.value.bottom == top + height.value
  {
    if right.Some? && width.Some? then Failure(BothRightAndWidth)
    else if right.None? && width.None? then Failure(NeitherRightNorWidth)
    else if bottom.Some? && height.Some? then Failure(BothBottomAndHeight)
    else if bottom.None? && height.None? then Failure(NeitherBottomNorHeight)
    else
      var b0 := BBox(left, top, right.GetOr(0.0), bottom.GetOr(0.0));
      var b1 := if width.Some? then b0.WithWidth(width.value) else b0;
      var b2 := if height.Some? then b1.WithHeight(height.value) else b1;
      Success(b2)
  }

  /** A box built from a width and a height reports them back unchanged. */
  lemma MakeBBoxGetters(left: real, top: real,
                        right: Option<real>, bottom: Option<real>,
                        width: Option<real>, height: Option<real>)
    requires MakeBBox(left, top, right, bottom, width, height).Success?
    ensures var b := MakeBBox(left, top, right, bottom, width, height).value;
            (width.Some? ==> b.Width() == width.value) &&
            (right.Some? ==> b.Width() == right.value - left) &&
            (height.Some? ==> b.Height() == height.value) &&
            (bottom.Some? ==> b.Height() == bottom.value - top)
  {
  }

  /** The cases of the constructor that the repository's tests exercise. */
  lemma ConstructorExamples()
    ensures MakeBBox(1.0, 2.0, Some(3.0), Some(5.0), Some(4.0), None) == Failure(BothRightAndWidth)
    ensures MakeBBox(1.0, 2.0, Some(3.0), Some(4.0), None, Some(5.0)) == Failure(BothBottomAndHeight)
    ensures MakeBBox(1.0, 2.0, None, Some(3.0), None, None) == Failure(NeitherRightNorWidth)
    ensures MakeBBox(1.0, 2.0, Some(3.0), None, None, None) == Failure(NeitherBottomNorHeight)
    ensures MakeBBox(1.0, 2.0, Some(3.0), Some(4.0), None, None).Success?
    ensures MakeBBox(1.0, 2.0, Some(3.0), None, None, Some(4.0)).Success?
    ensures MakeBBox(1.0, 2.0, None, Some(4.0), Some(3.0), None).Success?
    ensures MakeBBox(1.0, 2.0, None, None, Some(3.0), Some(4.0)).Success?
  {
  }

  /** The getter and setter cases the repository's tests exercise. */
  lemma GetterSetterExamples()
    ensures MakeBBox(1.0, 2.0, Some(7.0), Some(11.0), None, None).value.Width() == 6.0
    ensures MakeBBox(1.0, 2.0, Some(7.0), Some(11.0), None, None).value.Height() == 9.0
    ensures MakeBBox(1.0, 2.0, Some(3.0), Some(4.0), None, None).value.WithWidth(6.0).right == 7.0
    ensures MakeBBox(1.0, 2.0, Some(3.0), None, None, Some(4.0)).value.WithHeight(9.0).bottom == 11.0
  {
  }
}
