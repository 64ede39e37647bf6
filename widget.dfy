/**
 * The label frame widget itself: the fields the two passes write in place,
 * the show/hide flags, and the visibility of the content children and of the
 * "..." placeholder. Each method does what the widget does, step by step, and
 * is proved against the functions of MeasurePass, LayoutPass and VisibilityMachine.
 */
module Widget {
  import opened Options
  import opened Geometry
  import opened FrameTypes
  import opened MeasurePass
  import opened LayoutPass
  import opened VisibilityMachine

  class LabelLayout {
    /** Side strip width, bottom row height, placeholder height, label alignment and offset. */
    const decor: Decor

    /** The top row height; a measure pass raises it to the label height. */
    var topH: int
    /** The label's width and height, written by a measure pass; the width is re-clamped by a layout pass. */
    var tvW: int
    var tvH: int
    /** The content allocation, written by a measure pass and re-clamped by a layout pass. */
    var customW: int
    var customH: int
    /** The inner box: the final box less the padding. */
    var childLeft: int
    var childTop: int
    var childRight: int
    var childBottom: int

    /** Expanded (true) or collapsed. */
    var showContent: bool
    /** Whether a tap on the label toggles showContent. */
    var enableHide: bool
    var enableAnimation: bool
    /** Set when a new layout is asked for. */
    var layoutRequested: bool

    /** The visibility of the content children, in child order after the eight fixed views. */
    var contentVis: seq<Vis>
    /** The visibility of the "..." placeholder. */
    var placeholderVis: Vis
    /** The reveal animation's start callback is still to come. */
    var revealStartPending: bool
    /** The conceal scale animation's end callback is still to come. */
    var concealEndPending: bool

    /** The fields the two passes work on. */
    function Measures(): Metrics
      reads this`topH, this`tvW, this`tvH, this`customW, this`customH
    {
      Metrics(topH, tvW, tvH, customW, customH)
    }

    /** The visibility state with the given visibility for the content child. */
    function VisWith(content: Vis): VisState
      reads this`placeholderVis, this`revealStartPending, this`concealEndPending
    {
      VisState(content, placeholderVis, revealStartPending, concealEndPending)
    }

    /**
     * Construction with the converted pixel constants, the default top row
     * height and the configured flags; the content children are those added so
     * far. The frame starts expanded, with the placeholder GONE.
     */
    constructor (decor: Decor, topRowHeight: int, animation: bool, canHideContent: bool, content: seq<Vis>)
      ensures this.decor == decor && Measures() == Metrics(topRowHeight, 0, 0, 0, 0)
      ensures childLeft == 0 && childTop == 0 && childRight == 0 && childBottom == 0
      ensures showContent && enableHide == canHideContent && enableAnimation == animation && !layoutRequested
      ensures contentVis == content && placeholderVis == Gone && !revealStartPending && !concealEndPending
    {
      this.decor := decor;
      topH, tvW, tvH, customW, customH := topRowHeight, 0, 0, 0, 0;
      childLeft, childTop, childRight, childBottom := 0, 0, 0, 0;
      showContent := true;
      enableAnimation := animation;
      enableHide := canHideContent;
      layoutRequested := false;
      contentVis := content;
      placeholderVis := Gone;
      revealStartPending, concealEndPending := false, false;
    }

    /**
     * onMeasure. `labelSize` is the label's unconstrained size, `sizes[i]` the
     * size content child i reports when measured against the constraint in
     * the returned probe, `given` the sizes carried by the two measure specs.
     */
    method Measure(given: Size, labelSize: Size, sizes: seq<Size>, pad: Padding) returns (out: MeasureOut)
      requires |sizes| == |contentVis|
      modifies this`topH, this`tvW, this`tvH, this`customW, this`customH
      ensures (Measures(), out) == Measured(decor, old(Measures()), showContent, labelSize, contentVis, sizes, given, pad)
    {
      tvH := labelSize.height;
      tvW := labelSize.width;
      if topH < tvH {
        topH := tvH;
      }
      var maxWidth := tvW + 2 * decor.side;
      var maxHeight := topH + decor.bottom + decor.placeholder;
      var probe: Option<Probe> := None;
      var i := 0;
      while i < |contentVis|
        invariant 0 <= i <= |contentVis|
        invariant forall j :: 0 <= j < i ==> contentVis[j] == Gone
        invariant probe == None
        invariant maxWidth == tvW + 2 * decor.side && maxHeight == topH + decor.bottom + decor.placeholder
      {
        if contentVis[i] != Gone {
          probe := Some(Probe(i, Size(given.width - 2 * decor.side, given.height - topH - decor.bottom)));
          maxHeight := sizes[i].height;
          maxWidth := sizes[i].width;
          FirstShownUnique(contentVis, i);
          break;
        }
        i := i + 1;
      }
      if probe == None {
        FirstShownUnique(contentVis, |contentVis|);
      }
      if showContent {
        customH := maxHeight;
        customW := maxWidth;
      } else {
        customH := decor.placeholder;
        customW := maxWidth;
      }
      out := MeasureOut(probe, Size(customW + 2 * decor.side + pad.left + pad.right,
                                    customH + topH + decor.bottom + pad.top + pad.bottom));
    }

    /** fadeInAnimation, for its effect on the placeholder. */
    method FadeInAnimation()
      modifies this`placeholderVis, this`revealStartPending
      ensures forall c :: VisWith(c) == FadeIn(enableAnimation, old(VisWith(c)))
    {
      if enableAnimation {
        revealStartPending := true;
      } else {
        placeholderVis := Gone;
      }
    }

    /** fadeOutAnimation, for its effect on the placeholder. */
    method FadeOutAnimation()
      modifies this`placeholderVis, this`concealEndPending
      ensures forall c :: VisWith(c) == FadeOut(enableAnimation, old(VisWith(c)))
    {
      if enableAnimation {
        concealEndPending := true;
      } else {
        placeholderVis := Visible;
      }
    }

    /**
     * The top row of onLayout: the label width clamped to the inner width less
     * the side strips, the two gaps, and the two top corners and the label,
     * placed by childLayout at the inner box's origin, which is the padding.
     */
    method LayoutTopRow(width: int, childWidth: int, pad: Padding) returns (upLeft: Rect, text: Rect, upRight: Rect)
      requires childLeft == pad.left && childTop == pad.top
      modifies this`tvW
      ensures tvW == AtMost(old(tvW), childWidth - 2 * decor.side)
      ensures (upLeft, text, upRight) == TopRow(decor, topH, tvW, tvH, width, childWidth, pad)
    {
      if tvW > childWidth - 2 * decor.side {
        tvW := childWidth - 2 * decor.side;
      }
      var g := Gaps(decor.labelPos, width, childWidth, tvW, decor.side, decor.labelOffset);
      var ulWidth, urWidth := g.0, g.1;
      upLeft := Place(pad, 0, Half(topH), ulWidth, tvH);
      upRight := Place(pad, childWidth - urWidth, Half(topH), childWidth, tvH);
      text := Place(pad, ulWidth, 0, ulWidth + tvW, tvH);
    }

    /** The content allocation clamped to the inner box less the rows and the side strips. */
    method ClampContent(childWidth: int, childHeight: int)
      modifies this`customH, this`customW
      ensures customH == AtMost(old(customH), childHeight - decor.bottom - topH)
      ensures customW == AtMost(old(customW), childWidth - 2 * decor.side)
    {
      if customH > childHeight - decor.bottom - topH {
        customH := childHeight - decor.bottom - topH;
      }
      if customW > childWidth - 2 * decor.side {
        customW := childWidth - 2 * decor.side;
      }
    }

    /**
     * The geometric part of onLayout for the box `frame` (its l, t, r, b): the
     * inner box, the clamps and every rectangle; the content rectangle when
     * expanded and the placeholder's when collapsed, each only when a first
     * content child exists.
     */
    method ArrangeRegions(frame: Rect, pad: Padding) returns (regions: Regions)
      modifies this`childLeft, this`childTop, this`childRight, this`childBottom, this`tvW, this`customH, this`customW
      ensures Measures() == Arranged(decor, old(Measures()), showContent, contentVis != [], frame, pad).0
      ensures regions == Arranged(decor, old(Measures()), showContent, contentVis != [], frame, pad).1
      ensures childLeft == pad.left && childTop == pad.top
      ensures childRight == frame.right - frame.left - pad.right && childBottom == frame.bottom - frame.top - pad.bottom
    {
      ghost var m0 := Measures();
      var width := frame.right - frame.left;
      var height := frame.bottom - frame.top;
      childBottom := height - pad.bottom;
      childTop := pad.top;
      childLeft := pad.left;
      childRight := width - pad.right;
      var childWidth := childRight - childLeft;
      var childHeight := childBottom - childTop;
      assert childWidth == InnerWidth(frame, pad) && childHeight == InnerHeight(frame, pad);

      var upLeft, text, upRight := LayoutTopRow(width, childWidth, pad);
      ClampContent(childWidth, childHeight);
      var left, right, content, placeholder, bottomLeft, bottomRight := LayoutBand(childWidth, childHeight, pad);
      regions := Regions(upLeft, text, upRight, left, right, content, placeholder, bottomLeft, bottomRight);
      assert Measures() == Clamped(decor, m0, childWidth, childHeight);
    }

    /**
     * The lower part of onLayout, once the allocation is clamped: the two side
     * strips and the content band, the content child's rectangle when expanded
     * or the placeholder's when collapsed (only when a first content child
     * exists), and the two bottom corners split at half the inner width.
     */
    method LayoutBand(childWidth: int, childHeight: int, pad: Padding)
      returns (left: Rect, right: Rect, content: Option<Rect>, placeholder: Option<Rect>, bottomLeft: Rect, bottomRight: Rect)
      ensures (left, right, content, placeholder, bottomLeft, bottomRight) ==
              Band(decor, Measures(), showContent, contentVis != [], childWidth, childHeight, pad)
    {
      left := Place(pad, 0, tvH, decor.side, topH + customH);
      right := Place(pad, childWidth - decor.side, topH, childWidth, topH + customH);
      content, placeholder := None, None;
      if contentVis != [] {
        if showContent {
          content := Some(Place(pad, decor.side, topH, childWidth - decor.side, topH + customH));
        } else {
          placeholder := Some(Place(pad, decor.side, topH - Half(decor.placeholder), childWidth - decor.side,
                                    topH + customH - Half(decor.placeholder)));
        }
      }
      bottomLeft := Place(pad, 0, topH + customH, Half(childWidth), childHeight);
      bottomRight := Place(pad, Half(childWidth), topH + customH, childWidth, childHeight);
    }

    /**
     * The visibility branch of onLayout: when expanded the first content child
     * becomes VISIBLE, with a reveal if it was not; when collapsed it becomes
     * INVISIBLE, with a conceal if it was VISIBLE. Nothing happens without a content child.
     */
    method SettleContent() returns (fired: Transition)
      modifies this`contentVis, this`placeholderVis, this`revealStartPending, this`concealEndPending
      ensures old(contentVis) == [] ==> contentVis == [] && VisWith(Gone) == old(VisWith(Gone)) && fired == NoTransition
      ensures old(contentVis) != [] ==>
        |contentVis| == |old(contentVis)| && contentVis[1..] == old(contentVis)[1..] &&
        (VisWith(contentVis[0]), fired) == Settle(showContent, enableAnimation, old(VisWith(contentVis[0])))
    {
      fired := NoTransition;
      if showContent {
        if contentVis != [] {
          if contentVis[0] != Visible {
            FadeInAnimation();
            fired := Reveal;
            contentVis := contentVis[0 := Visible];
          }
        }
      } else {
        if contentVis != [] {
          if contentVis[0] == Visible {
            FadeOutAnimation();
            fired := Conceal;
          }
          contentVis := contentVis[0 := Invisible];
        }
      }
    }

    /**
     * onLayout for the box `frame`: the rectangles of ArrangeRegions, then the
     * visibility of the first content child and of the placeholder, with the
     * transition started. The pass answers any outstanding request for a layout.
     */
    method Layout(frame: Rect, pad: Padding) returns (regions: Regions, fired: Transition)
      modifies this
      ensures (Measures(), regions) == Arranged(decor, old(Measures()), showContent, contentVis != [], frame, pad)
      ensures childLeft == pad.left && childTop == pad.top
      ensures childRight == frame.right - frame.left - pad.right && childBottom == frame.bottom - frame.top - pad.bottom
      ensures showContent == old(showContent) && enableHide == old(enableHide) &&
              enableAnimation == old(enableAnimation) && !layoutRequested
      ensures old(contentVis) == [] ==> contentVis == [] && VisWith(Gone) == old(VisWith(Gone)) && fired == NoTransition
      ensures old(contentVis) != [] ==>
        |contentVis| == |old(contentVis)| && contentVis[1..] == old(contentVis)[1..] &&
        (VisWith(contentVis[0]), fired) == Settle(showContent, enableAnimation, old(VisWith(contentVis[0])))
    {
      regions := ArrangeRegions(frame, pad);
      fired := SettleContent();
      layoutRequested := false;
    }

    /** A tap on the label: flips the expanded state and asks for a layout, only while hiding is enabled. */
    method Click()
      modifies this`showContent, this`layoutRequested
      ensures enableHide ==> showContent == !old(showContent) && layoutRequested
      ensures !enableHide ==> showContent == old(showContent) && layoutRequested == old(layoutRequested)
    {
      if enableHide {
        showContent := !showContent;
        layoutRequested := true;
      }
    }

    /** showContent: sets the expanded state and asks for a layout. */
    method ShowContent(enable: bool)
      modifies this`showContent, this`layoutRequested
      ensures showContent == enable && layoutRequested
    {
      showContent := enable;
      layoutRequested := true;
    }

    /** enableHideContent: whether label taps toggle the expanded state from now on. */
    method EnableHideContent(enable: bool)
      modifies this`enableHide
      ensures enableHide == enable
    {
      enableHide := enable;
    }

    /** enableAnimation: whether later transitions animate. */
    method EnableAnimation(enable: bool)
      modifies this`enableAnimation
      ensures enableAnimation == enable
    {
      enableAnimation := enable;
    }

    /** The reveal animation's start callback. */
    method OnRevealStart()
      modifies this`placeholderVis, this`revealStartPending
      ensures forall c :: VisWith(c) == RevealStarted(old(VisWith(c)))
    {
      if revealStartPending {
        placeholderVis := Gone;
        revealStartPending := false;
      }
    }

    /** The conceal scale animation's end callback. */
    method OnConcealEnd()
      modifies this`placeholderVis, this`concealEndPending
      ensures forall c :: VisWith(c) == ConcealEnded(old(VisWith(c)))
    {
      if concealEndPending {
        placeholderVis := Visible;
        concealEndPending := false;
      }
    }
  }

  /** Two taps on the label give back the expanded state they started from, whether or not hiding is enabled. */
  method TapTwice(w: LabelLayout)
    modifies w
    ensures w.showContent == old(w.showContent) && w.enableHide == old(w.enableHide)
  {
    w.Click();
    w.Click();
  }

  /** While hiding is disabled, no number of taps changes the expanded state. */
  method TapWhileDisabled(w: LabelLayout, taps: nat)
    requires !w.enableHide
    modifies w
    ensures w.showContent == old(w.showContent) && w.layoutRequested == old(w.layoutRequested)
  {
    var n := 0;
    while n < taps
      invariant w.showContent == old(w.showContent) && w.layoutRequested == old(w.layoutRequested)
      invariant !w.enableHide
    {
      w.Click();
      n := n + 1;
    }
  }
}
