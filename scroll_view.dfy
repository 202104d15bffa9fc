/** The scroll-offset engine of the custom scroll view: four scalar fields
    updated by the measurement callback, the drag gesture and the two
    observed scroll requests. */
module ScrollView {
  import opened ScrollGeometry
  import opened ScrollAttribute

  /** The parts of a drag gesture value the engine reads: the y coordinates
      of where the drag started, where the finger is now, and where the
      momentum of the gesture is predicted to end. */
  datatype DragValue = DragValue(startLocationY: real, locationY: real, predictedEndLocationY: real)

  class CustomScrollView {
    /** Measured height of the content. */
    var contentHeight: real
    /** Settled offset of the content: 0 at the top, negative further down. */
    var contentOffset: real
    /** Transient offset of an ongoing drag, added to the settled offset. */
    var dragDistance: real
    /** Height of the viewport. */
    var scrollHeight: real
    /** The caller's command object, observed for scroll requests. */
    const attribute: CustomScrollAttribute

    constructor (attribute: CustomScrollAttribute)
      ensures this.attribute == attribute
      ensures contentHeight == 0.0 && contentOffset == 0.0
      ensures dragDistance == 0.0 && scrollHeight == 0.0
    {
      this.attribute := attribute;
      contentHeight := 0.0;
      contentOffset := 0.0;
      dragDistance := 0.0;
      scrollHeight := 0.0;
    }

    /** The offset the content is drawn at. */
    function DisplayedOffset(): real
      reads this
    {
      contentOffset + dragDistance
    }

    /** No drag is in progress and the settled offset lies in the scroll
        range of the stored heights. */
    ghost predicate AtRest()
      reads this
    {
      dragDistance == 0.0 && -Bound(contentHeight, scrollHeight) <= contentOffset <= 0.0
    }

    /** Records the measured content height and viewport height. */
    method UpdateContentHeight(height: real, scrollHeight: real)
      modifies this`contentHeight, this`scrollHeight
      ensures contentHeight == height && this.scrollHeight == scrollHeight
      ensures contentOffset == old(contentOffset) && dragDistance == old(dragDistance)
    {
      this.contentHeight := height;
      this.scrollHeight := scrollHeight;
    }

    /** A drag moved: the transient offset becomes the distance travelled
        since the drag started, unclamped; the settled offset is untouched. */
    method OnChanged(value: DragValue)
      modifies this`dragDistance
      ensures dragDistance == value.locationY - value.startLocationY
      ensures contentOffset == old(contentOffset)
      ensures DisplayedOffset() == old(contentOffset) + (value.locationY - value.startLocationY)
    {
      dragDistance := value.locationY - value.startLocationY;
    }

    /** A drag ended: the transient offset is dropped and the predicted
        distance of the gesture (not the distance actually travelled) is
        committed against the viewport height `scrollHeight` passed in. */
    method OnEnded(value: DragValue, scrollHeight: real)
      modifies this`dragDistance, this`contentOffset
      ensures dragDistance == 0.0
      ensures contentOffset == CommittedOffset(contentHeight, scrollHeight, old(contentOffset),
                                               value.predictedEndLocationY - value.startLocationY)
      ensures scrollHeight == this.scrollHeight ==> AtRest()
    {
      dragDistance := 0.0;
      var predictedDragDistance := value.predictedEndLocationY - value.startLocationY;
      UpdateContentOffset(predictedDragDistance, scrollHeight);
    }

    /** Commits a drag of `dragDistance` to the settled offset, clamped into
        the scroll range `[-(contentHeight - scrollHeight), 0]`; when the
        content fits in the viewport the offset is forced to 0. */
    method UpdateContentOffset(dragDistance: real, scrollHeight: real)
      modifies this`contentOffset
      ensures contentOffset == CommittedOffset(contentHeight, scrollHeight, old(contentOffset), dragDistance)
      ensures contentHeight - scrollHeight <= 0.0 ==> contentOffset == 0.0
      ensures contentHeight - scrollHeight > 0.0 ==>
                -(contentHeight - scrollHeight) <= contentOffset <= 0.0
      ensures -(contentHeight - scrollHeight) <= old(contentOffset) + dragDistance <= 0.0 ==>
                contentOffset == old(contentOffset) + dragDistance
    {
      var difference := contentHeight - scrollHeight;
      if difference <= 0.0 {
        contentOffset := 0.0;
      } else {
        var proposedOffset := contentOffset + dragDistance;
        if proposedOffset > 0.0 {
          proposedOffset := 0.0;
        } else if Abs(proposedOffset) > difference {
          proposedOffset := -difference;
        }
        contentOffset := proposedOffset;
      }
    }

    /** Observes the scroll-to-bottom request: when raised, the content is
        moved so that its bottom meets the viewport's bottom, without
        clamping, and the request is lowered. */
    method ObserveIsBottom()
      modifies this`contentOffset, attribute`isBottom
      ensures !attribute.isBottom
      ensures old(attribute.isBottom) ==> contentOffset == scrollHeight - contentHeight
      ensures !old(attribute.isBottom) ==> contentOffset == old(contentOffset)
      ensures old(attribute.isBottom) && dragDistance == 0.0 ==>
                (AtRest() <==> scrollHeight <= contentHeight)
    {
      if attribute.isBottom {
        contentOffset := scrollHeight - contentHeight;
        attribute.isBottom := false;
      }
    }

    /** Observes the scroll-to-top request: when raised, the content is moved
        back to the top and the request is lowered. */
    method ObserveIsTop()
      modifies this`contentOffset, attribute`isTop
      ensures !attribute.isTop
      ensures old(attribute.isTop) ==> contentOffset == 0.0
      ensures !old(attribute.isTop) ==> contentOffset == old(contentOffset)
      ensures old(attribute.isTop) && dragDistance == 0.0 ==> AtRest()
    {
      if attribute.isTop {
        contentOffset := 0.0;
        attribute.isTop := false;
      }
    }
  }

  /** A caller's session: the contracts above determine every offset. */
  method ScrollSession()
  {
    var attribute := new CustomScrollAttribute();
    var view := new CustomScrollView(attribute);
    view.UpdateContentHeight(1000.0, 500.0);

    // A drag up by 300 points, released with no further momentum.
    view.OnChanged(DragValue(600.0, 300.0, 300.0));
    assert view.DisplayedOffset() == -300.0;
    view.OnEnded(DragValue(600.0, 300.0, 300.0), 500.0);
    assert view.contentOffset == -300.0 && view.dragDistance == 0.0;

    // A fling whose momentum would carry the content past its end.
    view.OnEnded(DragValue(600.0, 500.0, -400.0), 500.0);
    assert view.contentOffset == -500.0;

    attribute.ScrollToTop();
    view.ObserveIsTop();
    assert view.contentOffset == 0.0 && !attribute.isTop;

    attribute.ScrollToBottom();
    view.ObserveIsBottom();
    assert view.contentOffset == -500.0 && !attribute.isBottom;

    // New measurements do not re-clamp the settled offset: the content now
    // fits, yet the offset stays at -500, out of the scroll range.
    view.UpdateContentHeight(300.0, 500.0);
    assert view.contentOffset == -500.0 && !view.AtRest();

    // With content shorter than the viewport a drag commits to 0, but the
    // bottom request moves the content down, out of the scroll range.
    view.OnEnded(DragValue(0.0, -50.0, -80.0), 500.0);
    assert view.contentOffset == 0.0;
    attribute.ScrollToBottom();
    view.ObserveIsBottom();
    assert view.contentOffset == 200.0;
  }
}
