/** The command object a caller holds to scroll the view programmatically.
    Each flag is a one-shot request: the caller raises it, the scroll view
    observes it, performs the scroll and lowers it again. */
module ScrollAttribute {

  class CustomScrollAttribute {
    /** A request to scroll to the bottom is pending. */
    var isBottom: bool
    /** A request to scroll to the top is pending. */
    var isTop: bool

    constructor ()
      ensures !isBottom && !isTop
    {
      isBottom := false;
      isTop := false;
    }

    /** Raises the scroll-to-bottom request; the top request is left alone. */
    method ScrollToBottom()
      modifies this
      ensures isBottom
      ensures isTop == old(isTop)
    {
      isBottom := true;
    }

    /** Raises the scroll-to-top request; the bottom request is left alone. */
    method ScrollToTop()
      modifies this
      ensures isTop
      ensures isBottom == old(isBottom)
    {
      isTop := true;
    }
  }
}
