# CustomScrollView scroll-offset engine in Dafny

This project models the scroll-offset engine of the SwiftUI `CustomScrollView`
(`CustomScrollView/ContentView.swift`): a vertical scroll container that keeps
four scalar `@State` fields and reads a caller-owned command object.

- `contentHeight` and `scrollHeight` are the measured heights of the content
  and of the viewport.
- `contentOffset` is the settled offset of the content: 0 at the top,
  negative when the content is scrolled up.
- `dragDistance` is the transient offset of a drag in progress. The content
  is drawn at `contentOffset + dragDistance`.
- `CustomScrollAttribute` carries two one-shot requests, `isTop` and
  `isBottom`. The view observes them, scrolls, and lowers them again.

The files:

- `geometry.dfy` (module `ScrollGeometry`) holds the pure geometry. `Bound`
  is the scroll range. `CommittedOffset` is the clamped commit of a drag and
  specifies `updateContentOffset`. `IndicatorHeight` and `IndicatorOffsetY`
  give the size and position of the indicator thumb. Lemmas relate thumb
  position to scroll position.
- `content_height.dfy` (module `ContentHeight`) models
  `ContentHeightKey.reduce`. The reported content height is a left fold of
  `Reduce` over the values reported by the views that set `ContentHeightKey`,
  starting from `DefaultValue` 0. It is proved equal to an independently
  defined sum. In this program exactly one view reports: the `VStack` that
  wraps the content (lines 87-90), with its own height, spacing included.
  That single-value case is `MeasuredSingle`.
- `scroll_attribute.dfy` (module `ScrollAttribute`) holds the class
  `CustomScrollAttribute` with its two flags and two request methods.
- `scroll_view.dfy` (module `ScrollView`) holds the class `CustomScrollView`,
  whose methods update the four fields. Each `onReceive` handler becomes an
  explicit "observe the pending flag" method. `ScrollSession` is a client
  that drives the view through drags and requests and checks each offset
  from the contracts alone.

CGFloat is modelled as `real`. A gesture value is reduced to the three y
coordinates the engine reads (`DragValue`).

Five behaviours of the code are reproduced as written, not corrected:

- Scrolling to the bottom sets `contentOffset = scrollHeight - contentHeight`
  without clamping. When the content is shorter than the viewport, this
  offset is positive and lies outside the scroll range. `ObserveIsBottom`
  states this, and `ScrollSession` shows it.
- `indicatorOffsetY` divides by `contentHeight - scrollHeight`. Its guard
  only excludes non-positive heights. The Dafny function therefore requires
  the two heights to differ when both are positive.
- Committing a drag clamps against the viewport height passed to `onEnded`,
  not the stored `scrollHeight` field. `OnEnded` guarantees the at-rest
  invariant only when the two agree.
- Recording new heights does not re-clamp the settled offset. After a view
  scrolled to -500 over 1000/500 is re-measured as 300/500, the offset stays
  at -500, outside the new scroll range. `ScrollSession` shows it.
- With a viewport under 44 points, the minimum thumb is taller than the
  viewport. The thumb's travel `scrollHeight - indicatorHeight` is then
  negative, so the thumb moves up as the content scrolls down.
  `ThumbReversedOnShortViewport` exhibits this for a 20-point viewport over
  100 points of content. For the same reason, `IndicatorFitsTrack`,
  `ThumbWithinTrack` and `ThumbMonotone` require a viewport of at least 44
  points.

## Model

| member | source | states |
|---|---|---|
| ScrollGeometry.Bound | CustomScrollView/ContentView.swift:162-164 | The scroll range is non-negative, at least `contentHeight - scrollHeight`, and equal to either 0 or that difference. It is 0 exactly when the content fits in the viewport. |
| ScrollGeometry.CommittedOffset | CustomScrollView/ContentView.swift:161-174 | The committed offset lies in `[-Bound, 0]`. It is 0 when the content fits. A candidate already in range is kept unchanged. A candidate above 0 becomes 0, and one below `-Bound` becomes `-Bound`. |
| ScrollGeometry.CommitIdempotent | CustomScrollView/ContentView.swift:165-173 | Committing an empty drag to an already committed offset leaves it unchanged. |
| ScrollGeometry.IndicatorHeight | CustomScrollView/ContentView.swift:137-144 | The thumb height is 0 when either height is non-positive. Otherwise it is at least 44. It equals `scrollHeight*scrollHeight/contentHeight` when that exceeds 44, and 44 otherwise. |
| ScrollGeometry.IndicatorProportional | CustomScrollView/ContentView.swift:139-140 | Above the minimum, thumb height / viewport height equals viewport height / content height. |
| ScrollGeometry.IndicatorFitsTrack | CustomScrollView/ContentView.swift:137-144 | When `44 <= scrollHeight <= contentHeight`, the thumb is no taller than the viewport. |
| ScrollGeometry.IndicatorOffsetY | CustomScrollView/ContentView.swift:128-135 | The thumb is at 0 when either height is non-positive, and at 0 when the displayed offset is 0. It is at `scrollHeight - IndicatorHeight` when the displayed offset is `-(contentHeight - scrollHeight)`. The heights must differ when both are positive. |
| ScrollGeometry.ThumbProgressMatchesScroll | CustomScrollView/ContentView.swift:128-135 | The thumb's fraction of its travel equals the content's fraction of its scroll range. |
| ScrollGeometry.ThumbWithinTrack | CustomScrollView/ContentView.swift:128-135 | For a displayed offset inside `[-Bound, 0]` (with viewport >= 44 and content taller than it), the thumb lies between 0 and `scrollHeight - IndicatorHeight`. |
| ScrollGeometry.ThumbMonotone | CustomScrollView/ContentView.swift:128-135 | For two displayed offsets (settled offset plus drag), the lower one never gives a smaller thumb offset: scrolling further down never moves the thumb up. |
| ScrollGeometry.ThumbReversedOnShortViewport | CustomScrollView/ContentView.swift:128-144 | With a 20-point viewport over 100 points of content, the thumb is 44 points tall. It sits at 0 at the top and at -24 at the bottom, so it moves the wrong way. |
| ContentHeight.MeasuredIsSum | CustomScrollView/ContentView.swift:192-195 | Folding `reduce` over the reported values from `defaultValue` 0 gives the sum of the values. |
| ContentHeight.MeasuredSingle | CustomScrollView/ContentView.swift:192-195 | With one reporting view, the case this program hits, the measured height is that view's own height. |
| ContentHeight.MeasuredAppend | CustomScrollView/ContentView.swift:192-195 | Folding two groups of reported values together gives the sum of folding each group. |
| ContentHeight.MeasuredCoversEachChild | CustomScrollView/ContentView.swift:192-195 | With non-negative reported values, each value lies between 0 and the measured height. |
| ScrollAttribute.CustomScrollAttribute.constructor | CustomScrollView/ContentView.swift:177-179 | Both requests start lowered. |
| ScrollAttribute.CustomScrollAttribute.ScrollToBottom | CustomScrollView/ContentView.swift:181-183 | Raises `isBottom` and leaves `isTop` unchanged. |
| ScrollAttribute.CustomScrollAttribute.ScrollToTop | CustomScrollView/ContentView.swift:185-187 | Raises `isTop` and leaves `isBottom` unchanged. |
| ScrollView.CustomScrollView.constructor | CustomScrollView/ContentView.swift:63-73 | All four fields start at 0, and the view observes the given command object. |
| ScrollView.CustomScrollView.UpdateContentHeight | CustomScrollView/ContentView.swift:146-149 | Stores both measured heights. The settled and transient offsets are unchanged, so the settled offset is not re-clamped to the new scroll range. |
| ScrollView.CustomScrollView.OnChanged | CustomScrollView/ContentView.swift:151-153 | Sets `dragDistance = location.y - startLocation.y`, unclamped, and changes nothing else. The displayed offset (line 95) becomes the old settled offset plus that delta. |
| ScrollView.CustomScrollView.OnEnded | CustomScrollView/ContentView.swift:155-159 | Leaves `dragDistance == 0`. It commits the predicted distance `predictedEndLocation.y - startLocation.y`, not the live drag distance, clamped against the passed-in viewport height. When that height equals the stored one, the view is at rest inside its scroll range. |
| ScrollView.CustomScrollView.UpdateContentOffset | CustomScrollView/ContentView.swift:161-174 | The new offset is `CommittedOffset` of the old offset and the drag. It is 0 when the content fits. Otherwise it lies in `[-(contentHeight - scrollHeight), 0]`, and an in-range candidate is stored unchanged. Only `contentOffset` changes. |
| ScrollView.CustomScrollView.ObserveIsBottom | CustomScrollView/ContentView.swift:97-102 | A raised `isBottom` sets `contentOffset = scrollHeight - contentHeight` and lowers the flag. When no drag is in progress, the resulting state is in range exactly when the content is at least as tall as the viewport. A lowered flag changes nothing. `isTop` is untouched. |
| ScrollView.CustomScrollView.ObserveIsTop | CustomScrollView/ContentView.swift:103-108 | A raised `isTop` sets `contentOffset = 0`, lowers the flag and, with no drag in progress, leaves the view at rest. A lowered flag changes nothing. `isBottom` is untouched. |

## Left out

- SwiftUI composition and styling (`body`, stacks, frames, clipping, the indicator's rounded rectangle, spring animations) is rendering, not engine logic.
- The demo `ContentView` and its preview are sample UI. Its two buttons only call `scrollToBottom`/`scrollToTop`, which are modelled.
- `ContentHeightGetter` and the `GeometryReader` measurement are layout-framework plumbing. The model takes the reported heights as inputs. Only the additive `reduce` fold is modelled.
- The timing of Combine delivery of the `@Published` flags is not modelled. Each handler is a method the caller invokes to observe the current flag, and the observe methods follow the handler text. In particular, a handler may run from the flag's `willSet` before `true` is stored, so a flag lowered by the handler could be raised again at run time. The model does not capture that ordering.
- CGFloat rounding, infinities and NaN are not modelled. Heights and offsets are exact reals.
- ScrollGeometry.IndicatorOffsetY: requires the two heights to differ when both are positive. In the source, equal positive heights divide by zero, giving an infinite or NaN thumb position, and that outcome is not modelled.
- Scrolling to an arbitrary offset, dragging the thumb itself, and hiding the indicator after inactivity do not exist in this code, so they are not modelled.
