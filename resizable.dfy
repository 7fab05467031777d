/** The resize plugin `makeResizable`: a primary pointer-down on the handle
    records, per axis, the offset from the pointer to the far edge (normal
    mode) and to the near edge (inverse mode); while the drag lasts, every
    pointer move either sets the size so that the far edge follows the
    pointer, capped by the room left in the viewport, or moves the near edge
    to the pointer while the far edge stays where it was, never shrinking
    below the minimum size. */
module Resizable {
  import opened Wrappers
  import opened Geometry
  import opened ElementCoords

  /** What a pointer-down stores: the box it read and the four pointer offsets. */
  datatype ResizeSession = ResizeSession(originalCoords: Box, deltaX: int, deltaY: int, inverseDeltaX: int, inverseDeltaY: int)

  /** The session a primary pointer-down at `e` starts on an element at `box`:
      the pointer plus `delta` is the far edge, the pointer plus
      `inverseDelta` the near edge. */
  function StartResize(box: Box, e: PointerEvent): (s: ResizeSession)
    ensures s.originalCoords == box
    ensures e.clientX + s.deltaX == box.left + box.width && e.clientY + s.deltaY == box.top + box.height
    ensures e.clientX + s.inverseDeltaX == box.left && e.clientY + s.inverseDeltaY == box.top
  {
    ResizeSession(box, box.left + box.width - e.clientX, box.top + box.height - e.clientY,
                  box.left - e.clientX, box.top - e.clientY)
  }

  /** Normal mode on one axis: `Math.min(Math.max(minSize, pointer - origin + delta), room)`.
      The cap comes last, so it wins over the floor when the room is smaller. */
  function NormalSize(pointer: int, origin: int, delta: int, minSize: int, room: int): (size: int)
    ensures size <= room
    ensures minSize <= room ==> size >= minSize
    ensures minSize <= pointer - origin + delta <= room ==> size == pointer - origin + delta
    ensures size == room || size == minSize || size == pointer - origin + delta
  {
    Min(Max(minSize, pointer - origin + delta), room)
  }

  /** Inverse mode on one axis, the near edge:
      `Math.min(Math.max(0, pointer + inverseDelta), origEdge + origSize - minSize)`. */
  function InverseEdge(pointer: int, inverseDelta: int, origEdge: int, origSize: int, minSize: int): (edge: int)
    ensures edge <= origEdge + origSize - minSize
    ensures origEdge + origSize - minSize >= 0 ==> edge >= 0
    ensures 0 <= pointer + inverseDelta <= origEdge + origSize - minSize ==> edge == pointer + inverseDelta
  {
    Min(Max(0, pointer + inverseDelta), origEdge + origSize - minSize)
  }

  /** Inverse mode on one axis, the size: `Math.max(minSize, origSize - (edge - origEdge))`. */
  function InverseSize(edge: int, origEdge: int, origSize: int, minSize: int): (size: int)
    ensures size >= minSize
    ensures edge <= origEdge + origSize - minSize ==> edge + size == origEdge + origSize
  {
    Max(minSize, origSize - (edge - origEdge))
  }

  /** `inverseResize === 'x' || inverseResize === 'xy'` */
  predicate InvertsX(inverseResize: Option<Direction>) {
    inverseResize == Some(X) || inverseResize == Some(XY)
  }

  /** `inverseResize === 'y' || inverseResize === 'xy'` */
  predicate InvertsY(inverseResize: Option<Direction>) {
    inverseResize == Some(Y) || inverseResize == Some(XY)
  }

  /** `resizeParent(e, 'x', …)`: the width, always written. */
  function NormalXWrites(s: ResizeSession, current: Box, e: PointerEvent,
                         limits: Option<SizeConstraints>, vp: Viewport, offsetLeft: int): seq<Write> {
    [Write(Width, NormalSize(e.clientX, current.left, s.deltaX, MinWidth(limits), vp.innerWidth - offsetLeft))]
  }

  /** `resizeParent(e, 'y', …)`: the height, always written. */
  function NormalYWrites(s: ResizeSession, current: Box, e: PointerEvent,
                         limits: Option<SizeConstraints>, vp: Viewport, offsetTop: int): seq<Write> {
    [Write(Height, NormalSize(e.clientY, current.top, s.deltaY, MinHeight(limits), vp.innerHeight - offsetTop))]
  }

  /** `inverseResizeParent(e, 'x', …)`: `left` and then `width`, only when the near edge moves. */
  function InverseXWrites(s: ResizeSession, current: Box, e: PointerEvent, limits: Option<SizeConstraints>): seq<Write> {
    var orig := s.originalCoords;
    var newLeft := InverseEdge(e.clientX, s.inverseDeltaX, orig.left, orig.width, MinWidth(limits));
    if newLeft != current.left then
      [Write(Left, newLeft), Write(Width, InverseSize(newLeft, orig.left, orig.width, MinWidth(limits)))]
    else []
  }

  /** `inverseResizeParent(e, 'y', …)`: `top` and then `height`, only when the near edge moves. */
  function InverseYWrites(s: ResizeSession, current: Box, e: PointerEvent, limits: Option<SizeConstraints>): seq<Write> {
    var orig := s.originalCoords;
    var newTop := InverseEdge(e.clientY, s.inverseDeltaY, orig.top, orig.height, MinHeight(limits));
    if newTop != current.top then
      [Write(Top, newTop), Write(Height, InverseSize(newTop, orig.top, orig.height, MinHeight(limits)))]
    else []
  }

  /** The writes of one pointer move (`handlePointerMove`): the horizontal axis
      unless the constraint is `'y'`, then the vertical axis unless it is `'x'`. */
  function ResizeWrites(constraint: Option<Direction>, inverseResize: Option<Direction>, s: ResizeSession,
                        current: Box, e: PointerEvent, limits: Option<SizeConstraints>,
                        vp: Viewport, offsetLeft: int, offsetTop: int): seq<Write> {
    (if !HandlesX(constraint) then []
     else if InvertsX(inverseResize) then InverseXWrites(s, current, e, limits)
     else NormalXWrites(s, current, e, limits, vp, offsetLeft))
    + (if !HandlesY(constraint) then []
       else if InvertsY(inverseResize) then InverseYWrites(s, current, e, limits)
       else NormalYWrites(s, current, e, limits, vp, offsetTop))
  }

  /** Axis selection: `left` and `width` are written only when the horizontal
      axis is handled, `top` and `height` only when the vertical one is, and
      `left` and `top` only in inverse mode. In normal mode a handled axis
      always writes its size. */
  lemma ResizeWritesAxes(constraint: Option<Direction>, inverseResize: Option<Direction>, s: ResizeSession,
                         current: Box, e: PointerEvent, limits: Option<SizeConstraints>,
                         vp: Viewport, offsetLeft: int, offsetTop: int)
    ensures forall w :: w in ResizeWrites(constraint, inverseResize, s, current, e, limits, vp, offsetLeft, offsetTop) ==>
      && ((w.attr == Left || w.attr == Width) ==> HandlesX(constraint))
      && ((w.attr == Top || w.attr == Height) ==> HandlesY(constraint))
      && (w.attr == Left ==> InvertsX(inverseResize))
      && (w.attr == Top ==> InvertsY(inverseResize))
    ensures HandlesX(constraint) && !InvertsX(inverseResize) ==>
      Write(Width, NormalSize(e.clientX, current.left, s.deltaX, MinWidth(limits), vp.innerWidth - offsetLeft))
        in ResizeWrites(constraint, inverseResize, s, current, e, limits, vp, offsetLeft, offsetTop)
    ensures HandlesY(constraint) && !InvertsY(inverseResize) ==>
      Write(Height, NormalSize(e.clientY, current.top, s.deltaY, MinHeight(limits), vp.innerHeight - offsetTop))
        in ResizeWrites(constraint, inverseResize, s, current, e, limits, vp, offsetLeft, offsetTop)
  {
    var xs := if !HandlesX(constraint) then []
      else if InvertsX(inverseResize) then InverseXWrites(s, current, e, limits)
      else NormalXWrites(s, current, e, limits, vp, offsetLeft);
    var ys := if !HandlesY(constraint) then []
      else if InvertsY(inverseResize) then InverseYWrites(s, current, e, limits)
      else NormalYWrites(s, current, e, limits, vp, offsetTop);
    assert ResizeWrites(constraint, inverseResize, s, current, e, limits, vp, offsetLeft, offsetTop) == xs + ys;
    if HandlesX(constraint) && !InvertsX(inverseResize) {
      assert xs[0] in xs + ys;
    }
    if HandlesY(constraint) && !InvertsY(inverseResize) {
      assert ys[0] in xs + ys;
    }
  }

  /** Normal mode keeps the far edge under the pointer: with the near edge
      where the drag found it and no clamp in effect, the size grows by
      exactly the distance the pointer moved. */
  lemma NormalResizeFollowsPointer(orig: Box, down: PointerEvent, current: Box, e: PointerEvent,
                                   limits: Option<SizeConstraints>, vp: Viewport, offsetLeft: int)
    requires current.left == orig.left
    requires MinWidth(limits) <= orig.width + (e.clientX - down.clientX) <= vp.innerWidth - offsetLeft
    ensures NormalXWrites(StartResize(orig, down), current, e, limits, vp, offsetLeft)
      == [Write(Width, orig.width + (e.clientX - down.clientX))]
  {
  }

  /** Left 0, width 100, pointer down at 100 and moved to 150: the width becomes 150. */
  lemma NormalResizeExample()
    ensures NormalXWrites(StartResize(Box(0, 0, 100, 100), PointerEvent(true, 100, 0, None)),
                          Box(0, 0, 100, 100), PointerEvent(true, 150, 0, None), None, Viewport(1000, 800), 0)
      == [Write(Width, 150)]
  {
  }

  /** Inverse mode keeps the far edge where the drag found it and respects the
      minimum size: after a move that writes, the near edge plus the size is the
      original far edge and the size is at least the minimum; a move that would
      leave the near edge where it is writes nothing at all. */
  lemma InverseResizeKeepsFarEdge(s: ResizeSession, current: Box, e: PointerEvent, limits: Option<SizeConstraints>)
    ensures var ws := InverseXWrites(s, current, e, limits);
      var after := ApplyBoxWrites(current, ws);
      && (ws == [] <==> InverseEdge(e.clientX, s.inverseDeltaX, s.originalCoords.left, s.originalCoords.width, MinWidth(limits)) == current.left)
      && (ws != [] ==>
           && after.left + after.width == s.originalCoords.left + s.originalCoords.width
           && after.width >= MinWidth(limits)
           && after.top == current.top && after.height == current.height)
      && (ws == [] ==> after == current)
  {
    var orig := s.originalCoords;
    var edge := InverseEdge(e.clientX, s.inverseDeltaX, orig.left, orig.width, MinWidth(limits));
    if edge != current.left {
      ApplyBoxWritesPair(current, Write(Left, edge), Write(Width, InverseSize(edge, orig.left, orig.width, MinWidth(limits))));
    }
  }

  /** The same for the vertical axis. */
  lemma InverseResizeKeepsFarEdgeY(s: ResizeSession, current: Box, e: PointerEvent, limits: Option<SizeConstraints>)
    ensures var ws := InverseYWrites(s, current, e, limits);
      var after := ApplyBoxWrites(current, ws);
      && (ws == [] <==> InverseEdge(e.clientY, s.inverseDeltaY, s.originalCoords.top, s.originalCoords.height, MinHeight(limits)) == current.top)
      && (ws != [] ==>
           && after.top + after.height == s.originalCoords.top + s.originalCoords.height
           && after.height >= MinHeight(limits)
           && after.left == current.left && after.width == current.width)
      && (ws == [] ==> after == current)
  {
    var orig := s.originalCoords;
    var edge := InverseEdge(e.clientY, s.inverseDeltaY, orig.top, orig.height, MinHeight(limits));
    if edge != current.top {
      ApplyBoxWritesPair(current, Write(Top, edge), Write(Height, InverseSize(edge, orig.top, orig.height, MinHeight(limits))));
    }
  }

  /** Left 0, width 100, minimum width 20, pointer down at 0 and moved to 90:
      the near edge stops at 80 and the width at 20. */
  lemma InverseResizeExample()
    ensures InverseXWrites(StartResize(Box(0, 0, 100, 100), PointerEvent(true, 0, 0, None)),
                           Box(0, 0, 100, 100), PointerEvent(true, 90, 0, None),
                           Some(SizeConstraints(Some(PartialCoord(None, None, Some(20), None)), None)))
      == [Write(Left, 80), Write(Width, 20)]
  {
  }

  /** One `makeResizable` instance: the element it resizes, its options, the
      listeners it has registered on the handle, and the current drag. */
  class Resizable {
    const frame: Frame
    const movementConstraint: Option<Direction>
    const inverseResize: Option<Direction>
    const sizeConstraints: Option<SizeConstraints>
    var downListening: bool
    var upListening: bool
    var moveListening: bool
    var session: Option<ResizeSession>
    /** The pointer the handle has captured, if any. */
    var capture: Option<int>

    /** A move listener is only registered by a pointer-down that recorded a session. */
    predicate Valid()
      reads this
    {
      moveListening ==> session.Some?
    }

    /** Setup: listen for pointer-down and pointer-up on the handle. */
    constructor (frame: Frame, movementConstraint: Option<Direction>, inverseResize: Option<Direction>,
                 sizeConstraints: Option<SizeConstraints>)
      ensures Valid()
      ensures this.frame == frame && this.movementConstraint == movementConstraint
      ensures this.inverseResize == inverseResize && this.sizeConstraints == sizeConstraints
      ensures downListening && upListening && !moveListening
      ensures session == None && capture == None
    {
      this.frame := frame;
      this.movementConstraint := movementConstraint;
      this.inverseResize := inverseResize;
      this.sizeConstraints := sizeConstraints;
      downListening := true;
      upListening := true;
      moveListening := false;
      session := None;
      capture := None;
    }

    /** `handlePointerDown`: a primary event reads the element's box, records
        the offsets, listens for moves and captures the pointer. A failed read
        throws before anything changes. */
    method PointerDown(e: PointerEvent)
      requires Valid()
      modifies this
      ensures Valid()
      ensures downListening == old(downListening) && upListening == old(upListening)
      ensures if old(downListening) && e.isPrimary && ReadBox(frame.css).Success? then
          && session == Some(StartResize(ReadBox(frame.css).value, e))
          && moveListening
          && capture == (if e.pointerId.Some? then e.pointerId else old(capture))
        else
          session == old(session) && moveListening == old(moveListening) && capture == old(capture)
    {
      if !downListening || !e.isPrimary {
        return;
      }
      var read := ReadBox(frame.css);
      if read.Failure? {
        return;
      }
      session := Some(StartResize(read.value, e));
      moveListening := true;
      if e.pointerId.Some? {
        capture := e.pointerId;
      }
    }

    /** `handlePointerMove`: while a drag lasts, any pointer move reads the box
        and resizes each handled axis in its mode. A failed read throws before
        anything is written. `offsetLeft` and `offsetTop` are the element's
        layout offsets at the time of the move. */
    method PointerMove(e: PointerEvent, vp: Viewport, offsetLeft: int, offsetTop: int)
      requires Valid()
      modifies frame
      ensures if moveListening && ReadBox(old(frame.css)).Success? then
          && frame.css == ApplyWrites(old(frame.css), ResizeWrites(movementConstraint, inverseResize, session.value,
                                        ReadBox(old(frame.css)).value, e, sizeConstraints, vp, offsetLeft, offsetTop))
          && ReadBox(frame.css) == Success(ApplyBoxWrites(ReadBox(old(frame.css)).value,
                                        ResizeWrites(movementConstraint, inverseResize, session.value,
                                          ReadBox(old(frame.css)).value, e, sizeConstraints, vp, offsetLeft, offsetTop)))
        else frame.css == old(frame.css)
    {
      if !moveListening {
        return;
      }
      var read := ReadBox(frame.css);
      if read.Failure? {
        return;
      }
      var parentCoords := read.value;
      ghost var before := frame.css;
      ghost var xs: seq<Write> := [];
      ghost var ys: seq<Write> := [];
      if HandlesX(movementConstraint) {
        if InvertsX(inverseResize) {
          InverseResizeParentX(e, parentCoords);
          xs := InverseXWrites(session.value, parentCoords, e, sizeConstraints);
        } else {
          ResizeParentX(e, parentCoords, vp, offsetLeft);
          xs := NormalXWrites(session.value, parentCoords, e, sizeConstraints, vp, offsetLeft);
        }
      }
      assert frame.css == ApplyWrites(before, xs);
      ghost var middle := frame.css;
      if HandlesY(movementConstraint) {
        if InvertsY(inverseResize) {
          InverseResizeParentY(e, parentCoords);
          ys := InverseYWrites(session.value, parentCoords, e, sizeConstraints);
        } else {
          ResizeParentY(e, parentCoords, vp, offsetTop);
          ys := NormalYWrites(session.value, parentCoords, e, sizeConstraints, vp, offsetTop);
        }
      }
      assert frame.css == ApplyWrites(middle, ys);
      ApplyWritesAppend(before, xs, ys);
      ReadBoxAfterWrites(before, parentCoords, xs + ys);
    }

    /** `resizeParent(e, 'x', parentCoords)` */
    method ResizeParentX(e: PointerEvent, parentCoords: Box, vp: Viewport, offsetLeft: int)
      requires session.Some?
      modifies frame
      ensures frame.css == ApplyWrites(old(frame.css), NormalXWrites(session.value, parentCoords, e, sizeConstraints, vp, offsetLeft))
    {
      var width := NormalSize(e.clientX, parentCoords.left, session.value.deltaX, MinWidth(sizeConstraints), vp.innerWidth - offsetLeft);
      frame.css := SetCss(frame.css, Width, Px(width));
    }

    /** `resizeParent(e, 'y', parentCoords)` */
    method ResizeParentY(e: PointerEvent, parentCoords: Box, vp: Viewport, offsetTop: int)
      requires session.Some?
      modifies frame
      ensures frame.css == ApplyWrites(old(frame.css), NormalYWrites(session.value, parentCoords, e, sizeConstraints, vp, offsetTop))
    {
      var height := NormalSize(e.clientY, parentCoords.top, session.value.deltaY, MinHeight(sizeConstraints), vp.innerHeight - offsetTop);
      frame.css := SetCss(frame.css, Height, Px(height));
    }

    /** `inverseResizeParent(e, 'x', parentCoords)`: `left` and then `width`
        are written, and only when the near edge moves. */
    method InverseResizeParentX(e: PointerEvent, parentCoords: Box)
      requires session.Some?
      modifies frame
      ensures frame.css == ApplyWrites(old(frame.css), InverseXWrites(session.value, parentCoords, e, sizeConstraints))
    {
      var orig := session.value.originalCoords;
      var newLeft := InverseEdge(e.clientX, session.value.inverseDeltaX, orig.left, orig.width, MinWidth(sizeConstraints));
      if newLeft != parentCoords.left {
        ApplyWritesPair(frame.css, Write(Left, newLeft), Write(Width, InverseSize(newLeft, orig.left, orig.width, MinWidth(sizeConstraints))));
        frame.css := SetCss(frame.css, Left, Px(newLeft));
        frame.css := SetCss(frame.css, Width, Px(InverseSize(newLeft, orig.left, orig.width, MinWidth(sizeConstraints))));
      }
    }

    /** `inverseResizeParent(e, 'y', parentCoords)`: `top` and then `height`. */
    method InverseResizeParentY(e: PointerEvent, parentCoords: Box)
      requires session.Some?
      modifies frame
      ensures frame.css == ApplyWrites(old(frame.css), InverseYWrites(session.value, parentCoords, e, sizeConstraints))
    {
      var orig := session.value.originalCoords;
      var newTop := InverseEdge(e.clientY, session.value.inverseDeltaY, orig.top, orig.height, MinHeight(sizeConstraints));
      if newTop != parentCoords.top {
        ApplyWritesPair(frame.css, Write(Top, newTop), Write(Height, InverseSize(newTop, orig.top, orig.height, MinHeight(sizeConstraints))));
        frame.css := SetCss(frame.css, Top, Px(newTop));
        frame.css := SetCss(frame.css, Height, Px(InverseSize(newTop, orig.top, orig.height, MinHeight(sizeConstraints))));
      }
    }

    /** `handlePointerUp`: a primary event ends the drag and releases the pointer. */
    method PointerUp(e: PointerEvent)
      requires Valid()
      modifies this
      ensures Valid()
      ensures downListening == old(downListening) && upListening == old(upListening) && session == old(session)
      ensures if old(upListening) && e.isPrimary then
          && !moveListening
          && capture == (if e.pointerId.Some? && old(capture) == e.pointerId then None else old(capture))
        else moveListening == old(moveListening) && capture == old(capture)
    {
      if !upListening || !e.isPrimary {
        return;
      }
      moveListening := false;
      if e.pointerId.Some? && capture == e.pointerId {
        capture := None;
      }
    }

    /** `destructor`: all three listeners are removed; the element keeps its size. */
    method Destructor()
      requires Valid()
      modifies this
      ensures Valid()
      ensures !downListening && !upListening && !moveListening
      ensures session == old(session) && capture == old(capture)
    {
      downListening := false;
      upListening := false;
      moveListening := false;
    }
  }

  /** An inverse horizontal resize through the plugin: a 100-pixel box at the
      origin with a 20-pixel minimum width, pointer down at its left edge and
      moved to 90: the box now spans 80 to 100. */
  method InverseResizeScenario() returns (resized: Box)
    ensures resized == Box(0, 80, 20, 100)
  {
    var start := Box(0, 0, 100, 100);
    var limits := Some(SizeConstraints(Some(PartialCoord(None, None, Some(20), None)), None));
    RenderRoundTrip(start);
    var frame := new Frame(Render(start));
    var r := new Resizable(frame, Some(X), Some(X), limits);
    var down := PointerEvent(true, 0, 0, Some(1));
    var move := PointerEvent(true, 90, 0, Some(1));
    r.PointerDown(down);
    assert r.session == Some(StartResize(start, down));
    r.PointerMove(move, Viewport(1000, 800), 0, 0);
    InverseResizeExample();
    var ws := ResizeWrites(Some(X), Some(X), StartResize(start, down), start, move, limits, Viewport(1000, 800), 0, 0);
    assert ws == [Write(Left, 80), Write(Width, 20)] by {
      assert ws == InverseXWrites(StartResize(start, down), start, move, limits) + [];
    }
    ApplyBoxWritesPair(start, Write(Left, 80), Write(Width, 20));
    var read := ReadBox(frame.css);
    resized := read.value;
  }
}
