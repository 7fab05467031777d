/** The maximize plugin `makeMaximizable`: a two-state machine, Restored and
    Maximized, toggled by a primary pointer-down on a trigger element or by
    `toggleMaximized`. Entering Maximized snapshots the element's box, fills
    the viewport (or the maximum size) on the handled axes, observes the
    element's size and re-maximizes on every window resize; leaving it
    writes the snapshot back and stops both. The size observer drops the
    Maximized flag as soon as the element's size no longer matches the
    viewport. */
module Maximizable {
  import opened Wrappers
  import opened Geometry
  import opened ElementCoords

  /** `maximize()`: on the horizontal axis `left` 0 and `width` the maximum
      width or else the viewport width; on the vertical axis the same with
      `top` and `height`. */
  function MaximizeWrites(constraint: Option<Direction>, limits: Option<SizeConstraints>, vp: Viewport): seq<Write> {
    (if HandlesX(constraint) then [Write(Left, 0), Write(Width, MaxWidth(limits).GetOr(vp.innerWidth))] else [])
    + (if HandlesY(constraint) then [Write(Top, 0), Write(Height, MaxHeight(limits).GetOr(vp.innerHeight))] else [])
  }

  /** Leaving Maximized: the snapshot's `left` and `width`, then its `top`
      and `height`, on the handled axes. */
  function RestoreWrites(constraint: Option<Direction>, snapshot: Box): seq<Write> {
    (if HandlesX(constraint) then [Write(Left, snapshot.left), Write(Width, snapshot.width)] else [])
    + (if HandlesY(constraint) then [Write(Top, snapshot.top), Write(Height, snapshot.height)] else [])
  }

  /** The size observer's test: a handled axis whose size differs from the viewport's. */
  predicate CancelsMaximize(box: Box, vp: Viewport, constraint: Option<Direction>) {
    || (HandlesX(constraint) && box.width != vp.innerWidth)
    || (HandlesY(constraint) && box.height != vp.innerHeight)
  }

  /** The box `maximize()` produces: the handled axes start at 0 and take the
      maximum size or else the viewport's; the other axis is untouched. */
  lemma MaximizedBox(box: Box, constraint: Option<Direction>, limits: Option<SizeConstraints>, vp: Viewport)
    ensures var m := ApplyBoxWrites(box, MaximizeWrites(constraint, limits, vp));
      && (HandlesX(constraint) ==> m.left == 0 && m.width == MaxWidth(limits).GetOr(vp.innerWidth))
      && (!HandlesX(constraint) ==> m.left == box.left && m.width == box.width)
      && (HandlesY(constraint) ==> m.top == 0 && m.height == MaxHeight(limits).GetOr(vp.innerHeight))
      && (!HandlesY(constraint) ==> m.top == box.top && m.height == box.height)
  {
    var xs := if HandlesX(constraint) then [Write(Left, 0), Write(Width, MaxWidth(limits).GetOr(vp.innerWidth))] else [];
    var ys := if HandlesY(constraint) then [Write(Top, 0), Write(Height, MaxHeight(limits).GetOr(vp.innerHeight))] else [];
    ApplyBoxWritesAppend(box, xs, ys);
    var mid := ApplyBoxWrites(box, xs);
    if HandlesX(constraint) {
      ApplyBoxWritesPair(box, xs[0], xs[1]);
    }
    if HandlesY(constraint) {
      ApplyBoxWritesPair(mid, ys[0], ys[1]);
    }
  }

  /** Restoring a snapshot gives back its handled axes and leaves the rest. */
  lemma RestoredBox(box: Box, constraint: Option<Direction>, snapshot: Box)
    ensures var r := ApplyBoxWrites(box, RestoreWrites(constraint, snapshot));
      && (HandlesX(constraint) ==> r.left == snapshot.left && r.width == snapshot.width)
      && (!HandlesX(constraint) ==> r.left == box.left && r.width == box.width)
      && (HandlesY(constraint) ==> r.top == snapshot.top && r.height == snapshot.height)
      && (!HandlesY(constraint) ==> r.top == box.top && r.height == box.height)
  {
    var xs := if HandlesX(constraint) then [Write(Left, snapshot.left), Write(Width, snapshot.width)] else [];
    var ys := if HandlesY(constraint) then [Write(Top, snapshot.top), Write(Height, snapshot.height)] else [];
    ApplyBoxWritesAppend(box, xs, ys);
    var mid := ApplyBoxWrites(box, xs);
    if HandlesX(constraint) {
      ApplyBoxWritesPair(box, xs[0], xs[1]);
    }
    if HandlesY(constraint) {
      ApplyBoxWritesPair(mid, ys[0], ys[1]);
    }
  }

  /** Maximizing and then restoring the snapshot taken before gives back the
      exact box, whatever the constraint, the limits and the viewport. */
  lemma RestoreAfterMaximize(box: Box, constraint: Option<Direction>, limits: Option<SizeConstraints>, vp: Viewport)
    ensures ApplyBoxWrites(ApplyBoxWrites(box, MaximizeWrites(constraint, limits, vp)), RestoreWrites(constraint, box)) == box
  {
    var m := ApplyBoxWrites(box, MaximizeWrites(constraint, limits, vp));
    MaximizedBox(box, constraint, limits, vp);
    RestoredBox(m, constraint, box);
  }

  /** The observer compares with the viewport, not with the maximum size: it
      cancels a fresh maximize exactly when a handled axis has a maximum size
      that differs from the viewport's. */
  lemma ObserverCancelsConstrainedMaximize(box: Box, constraint: Option<Direction>, limits: Option<SizeConstraints>, vp: Viewport)
    ensures CancelsMaximize(ApplyBoxWrites(box, MaximizeWrites(constraint, limits, vp)), vp, constraint)
      <==> || (HandlesX(constraint) && MaxWidth(limits).Some? && MaxWidth(limits).value != vp.innerWidth)
           || (HandlesY(constraint) && MaxHeight(limits).Some? && MaxHeight(limits).value != vp.innerHeight)
  {
    MaximizedBox(box, constraint, limits, vp);
  }

  /** One `makeMaximizable` instance: the element, its options, the state
      machine and the registrations it holds. */
  class Maximizable {
    const frame: Frame
    const movementConstraint: Option<Direction>
    const sizeConstraints: Option<SizeConstraints>
    var isMaximized: bool
    /** The box read when the element was last maximized. */
    var originalCoords: Option<Box>
    /** Whether the size observer watches the element. */
    var observing: bool
    /** Whether `maximize` listens for the window's `resize` and `orientationchange`. */
    var windowListening: bool
    /** Whether the handler listens for pointer-down on the trigger element. */
    var triggerListening: bool
    /** The `isMaximized` of the returned object, or `None` when setup threw. */
    var returnedIsMaximized: Option<bool>

    /** Maximized has a snapshot to go back to, and only Maximized is observed. */
    predicate Valid()
      reads this
    {
      && (isMaximized ==> originalCoords.Some?)
      && (observing ==> isMaximized)
    }

    /** Setup: listen on the trigger, toggle once when the element starts
        maximized, and return a copy of the flag. When that first toggle
        throws, setup throws with the trigger listener already registered. */
    constructor (frame: Frame, initiallyMaximized: bool, movementConstraint: Option<Direction>,
                 sizeConstraints: Option<SizeConstraints>, vp: Viewport)
      modifies frame
      ensures Valid()
      ensures this.frame == frame && this.movementConstraint == movementConstraint
      ensures this.sizeConstraints == sizeConstraints && triggerListening
      ensures if initiallyMaximized && ReadBox(old(frame.css)).Success? then
          && isMaximized && observing && windowListening
          && originalCoords == Some(ReadBox(old(frame.css)).value)
          && frame.css == ApplyWrites(old(frame.css), MaximizeWrites(movementConstraint, sizeConstraints, vp))
          && returnedIsMaximized == Some(true)
        else
          && !isMaximized && !observing && !windowListening && originalCoords == None
          && frame.css == old(frame.css)
          && returnedIsMaximized == (if initiallyMaximized then None else Some(false))
    {
      this.frame := frame;
      this.movementConstraint := movementConstraint;
      this.sizeConstraints := sizeConstraints;
      isMaximized := false;
      originalCoords := None;
      observing := false;
      windowListening := false;
      triggerListening := true;
      returnedIsMaximized := None;
      new;
      if initiallyMaximized {
        HandlePointerDown(true, vp);
        if !isMaximized {
          return;
        }
      }
      returnedIsMaximized := Some(isMaximized);
    }

    /** `maximize()`, also run on every window resize while listening. */
    method Maximize(vp: Viewport)
      modifies frame
      ensures frame.css == ApplyWrites(old(frame.css), MaximizeWrites(movementConstraint, sizeConstraints, vp))
    {
      ghost var before := frame.css;
      ghost var xs: seq<Write> := [];
      ghost var ys: seq<Write> := [];
      if HandlesX(movementConstraint) {
        xs := [Write(Left, 0), Write(Width, MaxWidth(sizeConstraints).GetOr(vp.innerWidth))];
        ApplyWritesPair(frame.css, xs[0], xs[1]);
        frame.css := SetCss(frame.css, Left, Px(0));
        frame.css := SetCss(frame.css, Width, Px(MaxWidth(sizeConstraints).GetOr(vp.innerWidth)));
      }
      ghost var middle := frame.css;
      if HandlesY(movementConstraint) {
        ys := [Write(Top, 0), Write(Height, MaxHeight(sizeConstraints).GetOr(vp.innerHeight))];
        ApplyWritesPair(frame.css, ys[0], ys[1]);
        frame.css := SetCss(frame.css, Top, Px(0));
        frame.css := SetCss(frame.css, Height, Px(MaxHeight(sizeConstraints).GetOr(vp.innerHeight)));
      }
      ApplyWritesAppend(before, xs, ys);
    }

    /** Writing the snapshot back on the handled axes. */
    method Restore(snapshot: Box)
      modifies frame
      ensures frame.css == ApplyWrites(old(frame.css), RestoreWrites(movementConstraint, snapshot))
    {
      ghost var before := frame.css;
      ghost var xs: seq<Write> := [];
      ghost var ys: seq<Write> := [];
      if HandlesX(movementConstraint) {
        xs := [Write(Left, snapshot.left), Write(Width, snapshot.width)];
        ApplyWritesPair(frame.css, xs[0], xs[1]);
        frame.css := SetCss(frame.css, Left, Px(snapshot.left));
        frame.css := SetCss(frame.css, Width, Px(snapshot.width));
      }
      ghost var middle := frame.css;
      if HandlesY(movementConstraint) {
        ys := [Write(Top, snapshot.top), Write(Height, snapshot.height)];
        ApplyWritesPair(frame.css, ys[0], ys[1]);
        frame.css := SetCss(frame.css, Top, Px(snapshot.top));
        frame.css := SetCss(frame.css, Height, Px(snapshot.height));
      }
      ApplyWritesAppend(before, xs, ys);
    }

    /** `handlePointerDown`: a primary event flips the state. Leaving
        Maximized writes the snapshot back and stops observing and listening
        to the window; entering it takes a new snapshot, maximizes, observes
        and listens. A failed read throws before anything changes. */
    method HandlePointerDown(isPrimary: bool, vp: Viewport)
      requires Valid()
      modifies this, frame
      ensures Valid()
      ensures triggerListening == old(triggerListening) && returnedIsMaximized == old(returnedIsMaximized)
      ensures if !isPrimary then
          && isMaximized == old(isMaximized) && originalCoords == old(originalCoords)
          && observing == old(observing) && windowListening == old(windowListening)
          && frame.css == old(frame.css)
        else if old(isMaximized) then
          && !isMaximized && originalCoords == old(originalCoords) && !observing && !windowListening
          && frame.css == ApplyWrites(old(frame.css), RestoreWrites(movementConstraint, old(originalCoords).value))
        else if ReadBox(old(frame.css)).Success? then
          && isMaximized && observing && windowListening
          && originalCoords == Some(ReadBox(old(frame.css)).value)
          && frame.css == ApplyWrites(old(frame.css), MaximizeWrites(movementConstraint, sizeConstraints, vp))
        else
          && isMaximized == old(isMaximized) && originalCoords == old(originalCoords)
          && observing == old(observing) && windowListening == old(windowListening)
          && frame.css == old(frame.css)
    {
      if !isPrimary {
        return;
      }
      if isMaximized {
        LeaveMaximized();
      } else {
        EnterMaximized(vp);
      }
    }

    /** The maximized branch of the handler: restore the snapshot, stop
        observing and listening, and clear the flag. */
    method LeaveMaximized()
      requires Valid() && isMaximized
      modifies this, frame
      ensures Valid()
      ensures triggerListening == old(triggerListening) && returnedIsMaximized == old(returnedIsMaximized)
      ensures !isMaximized && originalCoords == old(originalCoords) && !observing && !windowListening
      ensures frame.css == ApplyWrites(old(frame.css), RestoreWrites(movementConstraint, old(originalCoords).value))
    {
      Restore(originalCoords.value);
      observing := false;
      windowListening := false;
      isMaximized := false;
    }

    /** The other branch: take a snapshot, maximize, observe, listen and set
        the flag. A failed read throws before anything changes. */
    method EnterMaximized(vp: Viewport)
      requires Valid() && !isMaximized
      modifies this, frame
      ensures Valid()
      ensures triggerListening == old(triggerListening) && returnedIsMaximized == old(returnedIsMaximized)
      ensures if ReadBox(old(frame.css)).Success? then
          && isMaximized && observing && windowListening
          && originalCoords == Some(ReadBox(old(frame.css)).value)
          && frame.css == ApplyWrites(old(frame.css), MaximizeWrites(movementConstraint, sizeConstraints, vp))
        else
          && isMaximized == old(isMaximized) && originalCoords == old(originalCoords)
          && observing == old(observing) && windowListening == old(windowListening)
          && frame.css == old(frame.css)
    {
      var read := ReadBox(frame.css);
      if read.Failure? {
        return;
      }
      originalCoords := Some(read.value);
      Maximize(vp);
      observing := true;
      windowListening := true;
      isMaximized := true;
    }

    /** A pointer-down on the trigger element reaches the handler only while
        it listens, and then acts as `handlePointerDown` does. */
    method TriggerPointerDown(e: PointerEvent, vp: Viewport)
      requires Valid()
      modifies this, frame
      ensures Valid()
      ensures triggerListening == old(triggerListening) && returnedIsMaximized == old(returnedIsMaximized)
      ensures if !old(triggerListening) || !e.isPrimary then
          && isMaximized == old(isMaximized) && originalCoords == old(originalCoords)
          && observing == old(observing) && windowListening == old(windowListening)
          && frame.css == old(frame.css)
        else if old(isMaximized) then
          && !isMaximized && originalCoords == old(originalCoords) && !observing && !windowListening
          && frame.css == ApplyWrites(old(frame.css), RestoreWrites(movementConstraint, old(originalCoords).value))
        else if ReadBox(old(frame.css)).Success? then
          && isMaximized && observing && windowListening
          && originalCoords == Some(ReadBox(old(frame.css)).value)
          && frame.css == ApplyWrites(old(frame.css), MaximizeWrites(movementConstraint, sizeConstraints, vp))
        else
          && isMaximized == old(isMaximized) && originalCoords == old(originalCoords)
          && observing == old(observing) && windowListening == old(windowListening)
          && frame.css == old(frame.css)
    {
      if triggerListening {
        HandlePointerDown(e.isPrimary, vp);
      }
    }

    /** `toggleMaximized`: a primary pointer-down, also after the destructor.
        Leaving Maximized restores the snapshot, keeps it, and stops observing
        and listening; entering takes a new snapshot, maximizes, observes and
        listens; a failed read changes nothing. */
    method ToggleMaximized(vp: Viewport)
      requires Valid()
      modifies this, frame
      ensures Valid()
      ensures triggerListening == old(triggerListening) && returnedIsMaximized == old(returnedIsMaximized)
      ensures if old(isMaximized) then
          && !isMaximized && originalCoords == old(originalCoords) && !observing && !windowListening
          && frame.css == ApplyWrites(old(frame.css), RestoreWrites(movementConstraint, old(originalCoords).value))
        else if ReadBox(old(frame.css)).Success? then
          && isMaximized && observing && windowListening
          && originalCoords == Some(ReadBox(old(frame.css)).value)
          && frame.css == ApplyWrites(old(frame.css), MaximizeWrites(movementConstraint, sizeConstraints, vp))
        else
          && !isMaximized && originalCoords == old(originalCoords)
          && observing == old(observing) && windowListening == old(windowListening)
          && frame.css == old(frame.css)
    {
      HandlePointerDown(true, vp);
    }

    /** The size observer's callback: it reads the element's box and, when a
        handled axis no longer matches the viewport, drops the flag and stops
        observing. It neither restores the box nor stops the window listeners. */
    method ObserverFired(vp: Viewport)
      requires Valid()
      modifies this
      ensures Valid()
      ensures originalCoords == old(originalCoords) && windowListening == old(windowListening)
      ensures triggerListening == old(triggerListening) && returnedIsMaximized == old(returnedIsMaximized)
      ensures if old(observing) && ReadBox(frame.css).Success? && CancelsMaximize(ReadBox(frame.css).value, vp, movementConstraint)
        then !isMaximized && !observing
        else isMaximized == old(isMaximized) && observing == old(observing)
    {
      if !observing {
        return;
      }
      var read := ReadBox(frame.css);
      if read.Failure? {
        return;
      }
      if CancelsMaximize(read.value, vp, movementConstraint) {
        isMaximized := false;
        observing := false;
      }
    }

    /** A window `resize` or `orientationchange` runs `maximize` while listened for. */
    method WindowResized(vp: Viewport)
      modifies frame
      ensures frame.css == if windowListening
        then ApplyWrites(old(frame.css), MaximizeWrites(movementConstraint, sizeConstraints, vp))
        else old(frame.css)
    {
      if windowListening {
        Maximize(vp);
      }
    }

    /** `destructor`: stop listening on the trigger and, only when maximized,
        stop observing and listening to the window. The box stays as it is. */
    method Destructor()
      requires Valid()
      modifies this
      ensures Valid()
      ensures !triggerListening
      ensures isMaximized == old(isMaximized) && originalCoords == old(originalCoords)
      ensures returnedIsMaximized == old(returnedIsMaximized)
      ensures if old(isMaximized) then !observing && !windowListening
        else observing == old(observing) && windowListening == old(windowListening)
    {
      triggerListening := false;
      if isMaximized {
        observing := false;
        windowListening := false;
      }
    }
  }

  /** Toggling twice with no outside change reads back the box read before. */
  method ToggleTwiceRestores(css: Css, constraint: Option<Direction>, limits: Option<SizeConstraints>, vp: Viewport)
    returns (before: Result<Box, CoordError>, after: Result<Box, CoordError>, maximized: bool)
    ensures before.Success? ==> after == before && !maximized
  {
    before := ReadBox(css);
    var frame := new Frame(css);
    var m := new Maximizable(frame, false, constraint, limits, vp);
    m.ToggleMaximized(vp);
    if before.Success? {
      ghost var ws := MaximizeWrites(constraint, limits, vp);
      ReadBoxAfterWrites(css, before.value, ws);
      ghost var mid := frame.css;
      m.ToggleMaximized(vp);
      ReadBoxAfterWrites(mid, ApplyBoxWrites(before.value, ws), RestoreWrites(constraint, before.value));
      RestoreAfterMaximize(before.value, constraint, limits, vp);
    } else {
      m.ToggleMaximized(vp);
    }
    after := ReadBox(frame.css);
    maximized := m.isMaximized;
  }

  /** A maximum width of 500 in a 1000-pixel-wide viewport: the size observer
      cancels the maximized state at once, yet the window listeners stay, so
      the next window resize maximizes the element again while the flag says
      it is not maximized. */
  method AutoCancelScenario() returns (maximized: bool, listening: bool, width: int)
    ensures !maximized && listening && width == 500
  {
    var start := Box(10, 10, 100, 100);
    var limits := Some(SizeConstraints(None, Some(PartialCoord(None, None, Some(500), None))));
    var vp := Viewport(1000, 800);
    RenderRoundTrip(start);
    var frame := new Frame(Render(start));
    var m := new Maximizable(frame, true, Some(X), limits, vp);
    ghost var ws := MaximizeWrites(Some(X), limits, vp);
    ReadBoxAfterWrites(Render(start), start, ws);
    ObserverCancelsConstrainedMaximize(start, Some(X), limits, vp);
    MaximizedBox(start, Some(X), limits, vp);
    m.ObserverFired(vp);
    ghost var cancelled := frame.css;
    m.WindowResized(vp);
    ReadBoxAfterWrites(cancelled, ApplyBoxWrites(start, ws), ws);
    MaximizedBox(ApplyBoxWrites(start, ws), Some(X), limits, vp);
    maximized := m.isMaximized;
    listening := m.windowListening;
    var read := ReadBox(frame.css);
    width := read.value.width;
  }
}
