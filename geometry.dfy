/** Pure geometry of the custom scroll view: the scroll bound, the clamped
    commit of a drag, and the size and position of the scroll indicator.
    Heights and offsets are `real` values standing in for CGFloat; an offset
    is how far the content is shifted up from the top (0 = top, negative =
    scrolled down). */
module ScrollGeometry {

  /** Smallest height the indicator is drawn with, in points. */
  const MinIndicatorHeight: real := 44.0

  function Min(a: real, b: real): real { if a <= b then a else b }

  function Max(a: real, b: real): real { if a >= b then a else b }

  function Abs(x: real): real { if x < 0.0 then -x else x }

  /** How far the content may scroll: the part of the content that does not
      fit in the viewport, or 0 when all of it fits. */
  function Bound(contentHeight: real, scrollHeight: real): (b: real)
    ensures b >= 0.0 && b >= contentHeight - scrollHeight
    ensures b == 0.0 || b == contentHeight - scrollHeight
    ensures b == 0.0 <==> contentHeight <= scrollHeight
  {
    Max(0.0, contentHeight - scrollHeight)
  }

  /** The settled offset after a drag of `dragDistance` is committed from
      `contentOffset`: the candidate `contentOffset + dragDistance` clamped
      into [-Bound, 0]. */
  function CommittedOffset(contentHeight: real, scrollHeight: real, contentOffset: real, dragDistance: real): (r: real)
    ensures -Bound(contentHeight, scrollHeight) <= r <= 0.0
    ensures contentHeight - scrollHeight <= 0.0 ==> r == 0.0
    ensures -Bound(contentHeight, scrollHeight) <= contentOffset + dragDistance <= 0.0 ==>
                r == contentOffset + dragDistance
    ensures contentOffset + dragDistance > 0.0 ==> r == 0.0
    ensures contentOffset + dragDistance < -Bound(contentHeight, scrollHeight) ==>
                r == -Bound(contentHeight, scrollHeight)
  {
    Max(-Bound(contentHeight, scrollHeight), Min(contentOffset + dragDistance, 0.0))
  }

  /** Committing a drag is idempotent: once settled, committing an empty drag
      leaves the offset where it is. */
  lemma CommitIdempotent(contentHeight: real, scrollHeight: real, contentOffset: real, dragDistance: real)
    ensures var settled := CommittedOffset(contentHeight, scrollHeight, contentOffset, dragDistance);
            CommittedOffset(contentHeight, scrollHeight, settled, 0.0) == settled
  {
  }

  /** Height of the indicator (the thumb): the viewport's share of the content
      applied to the viewport height, never below MinIndicatorHeight, and 0
      when either height is not positive. */
  function IndicatorHeight(scrollHeight: real, contentHeight: real): (h: real)
    ensures scrollHeight <= 0.0 || contentHeight <= 0.0 ==> h == 0.0
    ensures scrollHeight > 0.0 && contentHeight > 0.0 ==> h >= MinIndicatorHeight
    ensures scrollHeight > 0.0 && contentHeight > 0.0
              && scrollHeight * scrollHeight / contentHeight > MinIndicatorHeight ==>
                h == scrollHeight * scrollHeight / contentHeight
    ensures scrollHeight > 0.0 && contentHeight > 0.0
              && scrollHeight * scrollHeight / contentHeight <= MinIndicatorHeight ==>
                h == MinIndicatorHeight
  {
    if scrollHeight > 0.0 && contentHeight > 0.0 then
      var ratio := scrollHeight / contentHeight;
      var height := scrollHeight * ratio;
      assert height == scrollHeight * scrollHeight / contentHeight;
      if height > MinIndicatorHeight then height else MinIndicatorHeight
    else
      0.0
  }

  /** Above the minimum, the thumb takes the same share of the track as the
      viewport takes of the content. */
  lemma IndicatorProportional(scrollHeight: real, contentHeight: real)
    requires scrollHeight > 0.0 && contentHeight > 0.0
    requires IndicatorHeight(scrollHeight, contentHeight) > MinIndicatorHeight
    ensures IndicatorHeight(scrollHeight, contentHeight) / scrollHeight == scrollHeight / contentHeight
  {
  }

  /** When the content is taller than a viewport of at least the minimum
      thumb size, the thumb fits in the track. */
  lemma IndicatorFitsTrack(scrollHeight: real, contentHeight: real)
    requires MinIndicatorHeight <= scrollHeight <= contentHeight
    ensures IndicatorHeight(scrollHeight, contentHeight) <= scrollHeight
  {
  }

  /** Vertical position of the thumb in its track. The displayed offset
      `contentOffset + dragDistance` is mapped linearly onto the thumb's
      travel, dividing by `contentHeight - scrollHeight`. The source guards
      only against non-positive heights, so equal heights are excluded here. */
  function IndicatorOffsetY(contentOffset: real, dragDistance: real, scrollHeight: real, contentHeight: real): (y: real)
    requires scrollHeight > 0.0 && contentHeight > 0.0 ==> contentHeight != scrollHeight
    ensures scrollHeight <= 0.0 || contentHeight <= 0.0 ==> y == 0.0
    ensures contentOffset + dragDistance == 0.0 ==> y == 0.0
    ensures scrollHeight > 0.0 && contentHeight > 0.0
              && contentOffset + dragDistance == -(contentHeight - scrollHeight) ==>
                y == scrollHeight - IndicatorHeight(scrollHeight, contentHeight)
  {
    var distance := contentOffset + dragDistance;
    if scrollHeight > 0.0 && contentHeight > 0.0 then
      var topLimit := contentHeight - scrollHeight;
      var offset := (scrollHeight - IndicatorHeight(scrollHeight, contentHeight)) * distance / topLimit;
      -offset
    else
      0.0
  }

  /** The thumb's progress along its track equals the content's progress
      along its scroll range. */
  lemma ThumbProgressMatchesScroll(contentOffset: real, dragDistance: real, scrollHeight: real, contentHeight: real)
    requires 0.0 < scrollHeight < contentHeight
    requires IndicatorHeight(scrollHeight, contentHeight) < scrollHeight
    ensures IndicatorOffsetY(contentOffset, dragDistance, scrollHeight, contentHeight)
              / (scrollHeight - IndicatorHeight(scrollHeight, contentHeight))
            == -(contentOffset + dragDistance) / Bound(contentHeight, scrollHeight)
  {
    var travel := scrollHeight - IndicatorHeight(scrollHeight, contentHeight);
    var distance := contentOffset + dragDistance;
    var topLimit := contentHeight - scrollHeight;
    OffsetYFormula(contentOffset, dragDistance, scrollHeight, contentHeight);
    LinearMapProgress(travel, distance, topLimit);
    assert Bound(contentHeight, scrollHeight) == topLimit;
  }

  /** For an offset inside the scroll range, the thumb stays inside its
      track, between the top and `scrollHeight - IndicatorHeight`. */
  lemma ThumbWithinTrack(contentOffset: real, dragDistance: real, scrollHeight: real, contentHeight: real)
    requires MinIndicatorHeight <= scrollHeight < contentHeight
    requires -(contentHeight - scrollHeight) <= contentOffset + dragDistance <= 0.0
    ensures 0.0 <= IndicatorOffsetY(contentOffset, dragDistance, scrollHeight, contentHeight)
                <= scrollHeight - IndicatorHeight(scrollHeight, contentHeight)
  {
    IndicatorFitsTrack(scrollHeight, contentHeight);
    OffsetYFormula(contentOffset, dragDistance, scrollHeight, contentHeight);
    LinearMapWithin(scrollHeight - IndicatorHeight(scrollHeight, contentHeight),
                    contentOffset + dragDistance, contentHeight - scrollHeight);
  }

  /** Scrolling further down never moves the thumb up: the thumb follows
      the displayed offset, settled offset plus drag. */
  lemma ThumbMonotone(contentOffset1: real, dragDistance1: real, contentOffset2: real, dragDistance2: real,
                      scrollHeight: real, contentHeight: real)
    requires MinIndicatorHeight <= scrollHeight < contentHeight
    requires contentOffset2 + dragDistance2 <= contentOffset1 + dragDistance1
    ensures IndicatorOffsetY(contentOffset1, dragDistance1, scrollHeight, contentHeight)
              <= IndicatorOffsetY(contentOffset2, dragDistance2, scrollHeight, contentHeight)
  {
    IndicatorFitsTrack(scrollHeight, contentHeight);
    OffsetYFormula(contentOffset1, dragDistance1, scrollHeight, contentHeight);
    OffsetYFormula(contentOffset2, dragDistance2, scrollHeight, contentHeight);
    LinearMapMonotone(scrollHeight - IndicatorHeight(scrollHeight, contentHeight),
                      contentOffset1 + dragDistance1, contentOffset2 + dragDistance2,
                      contentHeight - scrollHeight);
  }

  /** Below a 44-point viewport the minimum thumb is taller than the track,
      so its travel is negative and the thumb moves up as the content scrolls
      down: a 20-point viewport over 100 points of content puts the thumb at
      0 at the top and at -24 at the bottom. */
  lemma ThumbReversedOnShortViewport()
    ensures IndicatorHeight(20.0, 100.0) == 44.0
    ensures IndicatorOffsetY(0.0, 0.0, 20.0, 100.0) == 0.0
    ensures IndicatorOffsetY(-80.0, 0.0, 20.0, 100.0) == -24.0
  {
    assert IndicatorHeight(20.0, 100.0) == 44.0;
    OffsetYFormula(-80.0, 0.0, 20.0, 100.0);
    assert LinearMap(-24.0, -80.0, 80.0) == -24.0;
  }

  // Helpers: the thumb position as a linear map, and facts about that map.

  /** Thumb position for scroll distance `distance` (negative downwards) out
      of a scroll range `topLimit`, over a track of length `travel`. */
  function LinearMap(travel: real, distance: real, topLimit: real): real
    requires topLimit != 0.0
  {
    -(travel * distance / topLimit)
  }

  lemma OffsetYFormula(contentOffset: real, dragDistance: real, scrollHeight: real, contentHeight: real)
    requires scrollHeight > 0.0 && contentHeight > 0.0 && contentHeight != scrollHeight
    ensures IndicatorOffsetY(contentOffset, dragDistance, scrollHeight, contentHeight)
            == LinearMap(scrollHeight - IndicatorHeight(scrollHeight, contentHeight),
                         contentOffset + dragDistance, contentHeight - scrollHeight)
  {
  }

  lemma LinearMapProgress(travel: real, distance: real, topLimit: real)
    requires travel > 0.0 && topLimit > 0.0
    ensures LinearMap(travel, distance, topLimit) / travel == -distance / topLimit
  {
    var q := distance / topLimit;
    assert travel * distance / topLimit == travel * q;
    assert -(travel * q) / travel == -q;
  }

  lemma LinearMapWithin(travel: real, distance: real, topLimit: real)
    requires travel >= 0.0 && topLimit > 0.0 && -topLimit <= distance <= 0.0
    ensures 0.0 <= LinearMap(travel, distance, topLimit) <= travel
  {
    var p := -distance / topLimit;
    assert LinearMap(travel, distance, topLimit) == travel * p;
    assert 0.0 <= p <= 1.0;
    assert travel * p <= travel * 1.0;
  }

  lemma LinearMapMonotone(travel: real, distance1: real, distance2: real, topLimit: real)
    requires travel >= 0.0 && topLimit > 0.0 && distance2 <= distance1
    ensures LinearMap(travel, distance1, topLimit) <= LinearMap(travel, distance2, topLimit)
  {
  }
}
