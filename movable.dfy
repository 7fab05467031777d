/** The drag plugin `makeMovable`: a primary pointer-down on the handle
    records the offset between the pointer and the element's top-left corner;
    while the drag lasts, every pointer move places the corner at the pointer
    minus that offset, clamped to the viewport, writing `left` and `top` only
    when they change; a primary pointer-up ends the drag. */
module Movable {
  import opened Wrappers
  import opened Geometry
  import opened ElementCoords

  /** What a pointer-down stores: the box it read and the pointer-to-corner offsets. */
  datatype DragSession = DragSession(originalCoords: Box, deltaX: int, deltaY: int)

  /** The session a primary pointer-down at `e` starts on an element at `box`. */
  function StartDrag(box: Box, e: PointerEvent): (s: DragSession)
    ensures s.originalCoords == box
    ensures e.clientX - s.deltaX == box.left && e.clientY - s.deltaY == box.top
  {
    DragSession(box, e.clientX - box.left, e.clientY - box.top)
  }

  /** `Math.min(Math.max(0, pointer - delta), viewportSize - size)`: the new
      position of the near edge on one axis. */
  function Translate(pointer: int, delta: int, viewportSize: int, size: int): (p: int)
    ensures p <= viewportSize - size
    ensures size <= viewportSize ==> p >= 0
    ensures 0 <= pointer - delta <= viewportSize - size ==> p == pointer - delta
    ensures p == pointer - delta || p == 0 || p == viewportSize - size
  {
    Min(Max(0, pointer - delta), viewportSize - size)
  }

  /** The style writes of one pointer move: `left` on the horizontal axis and
      `top` on the vertical one, each only when its axis is handled and the new
      value differs from the current one. */
  function MoveWrites(constraint: Option<Direction>, s: DragSession, current: Box, e: PointerEvent, vp: Viewport): seq<Write> {
    var newLeft := Translate(e.clientX, s.deltaX, vp.innerWidth, current.width);
    var newTop := Translate(e.clientY, s.deltaY, vp.innerHeight, current.height);
    (if HandlesX(constraint) && newLeft != current.left then [Write(Left, newLeft)] else [])
    + (if HandlesY(constraint) && newTop != current.top then [Write(Top, newTop)] else [])
  }

  /** A move writes only `left` and `top`, never the size; it writes `left`
      only when the horizontal axis is handled and `left` changes, with the
      clamped value, and `top` likewise. */
  lemma MoveWritesOnlyChanges(constraint: Option<Direction>, s: DragSession, current: Box, e: PointerEvent, vp: Viewport)
    ensures forall w :: w in MoveWrites(constraint, s, current, e, vp) ==>
      && (w.attr == Left || w.attr == Top)
      && (w.attr == Left ==> HandlesX(constraint) && w.value != current.left
                             && w.value == Translate(e.clientX, s.deltaX, vp.innerWidth, current.width))
      && (w.attr == Top ==> HandlesY(constraint) && w.value != current.top
                            && w.value == Translate(e.clientY, s.deltaY, vp.innerHeight, current.height))
    ensures Untouched(MoveWrites(constraint, s, current, e, vp), Width)
    ensures Untouched(MoveWrites(constraint, s, current, e, vp), Height)
  {
  }

  /** The box after a move: the handled axes hold the clamped position, the
      rest of the box is as it was. */
  lemma MovedBox(constraint: Option<Direction>, s: DragSession, current: Box, e: PointerEvent, vp: Viewport)
    ensures ApplyBoxWrites(current, MoveWrites(constraint, s, current, e, vp))
      == current.(left := if HandlesX(constraint) then Translate(e.clientX, s.deltaX, vp.innerWidth, current.width) else current.left,
                  top := if HandlesY(constraint) then Translate(e.clientY, s.deltaY, vp.innerHeight, current.height) else current.top)
  {
    var newLeft := Translate(e.clientX, s.deltaX, vp.innerWidth, current.width);
    var newTop := Translate(e.clientY, s.deltaY, vp.innerHeight, current.height);
    var horizontal := if HandlesX(constraint) && newLeft != current.left then [Write(Left, newLeft)] else [];
    var vertical := if HandlesY(constraint) && newTop != current.top then [Write(Top, newTop)] else [];
    ApplyBoxWritesAppend(current, horizontal, vertical);
  }

  /** A move to the place the drag started writes nothing. */
  lemma MoveInPlaceWritesNothing(constraint: Option<Direction>, box: Box, down: PointerEvent, vp: Viewport)
    requires 0 <= box.left <= vp.innerWidth - box.width
    requires 0 <= box.top <= vp.innerHeight - box.height
    ensures MoveWrites(constraint, StartDrag(box, down), box, down, vp) == []
  {
  }

  /** `toLowerCase` on the ASCII letters. */
  function AsciiLower(s: string): (r: string)
    ensures |r| == |s|
  {
    if s == [] then []
    else [if 'A' <= s[0] <= 'Z' then (s[0] as int + 32) as char else s[0]] + AsciiLower(s[1..])
  }

  /** A `position` under which `left` and `top` place the element. */
  predicate IsPositioned(position: string) {
    var p := AsciiLower(position);
    p == "relative" || p == "fixed" || p == "absolute"
  }

  /** One `makeMovable` instance: the element it moves, its constraint, the
      listeners it has registered on the handle, and the current drag. */
  class Movable {
    const frame: Frame
    const movementConstraint: Option<Direction>
    /** Whether setup warned that the element is not positioned. */
    const warned: bool
    var downListening: bool
    var upListening: bool
    var moveListening: bool
    var session: Option<DragSession>
    /** The pointer the handle has captured, if any. */
    var capture: Option<int>

    /** A move listener is only registered by a pointer-down that recorded a session. */
    predicate Valid()
      reads this
    {
      moveListening ==> session.Some?
    }

    /** Setup: warn when the element's `position` does not place it, then
        listen for pointer-down and pointer-up. */
    constructor (frame: Frame, movementConstraint: Option<Direction>, position: string)
      ensures Valid()
      ensures this.frame == frame && this.movementConstraint == movementConstraint
      ensures warned <==> !IsPositioned(position)
      ensures downListening && upListening && !moveListening
      ensures session == None && capture == None
    {
      this.frame := frame;
      this.movementConstraint := movementConstraint;
      warned := !IsPositioned(position);
      downListening := true;
      upListening := true;
      moveListening := false;
      session := None;
      capture := None;
    }

    /** `handlePointerDown`: a primary event reads the element's box, records
        the offsets, listens for moves and captures the pointer. A failed read
        throws before anything changes. */
    method PointerDown(e: PointerEvent)
      requires Valid()
      modifies this
      ensures Valid()
      ensures downListening == old(downListening) && upListening == old(upListening)
      ensures if old(downListening) && e.isPrimary && ReadBox(frame.css).Success? then
          && session == Some(StartDrag(ReadBox(frame.css).value, e))
          && moveListening
          && capture == (if e.pointerId.Some? then e.pointerId else old(capture))
        else
          session == old(session) && moveListening == old(moveListening) && capture == old(capture)
    {
      if !downListening || !e.isPrimary {
        return;
      }
      var read := ReadBox(frame.css);
      if read.Failure? {
        return;
      }
      session := Some(StartDrag(read.value, e));
      moveListening := true;
      if e.pointerId.Some? {
        capture := e.pointerId;
      }
    }

    /** `handlePointerMove`: while a drag lasts, any pointer move reads the box
        and writes the clamped position on the handled axes where it changed.
        A failed read throws before anything is written. */
    method PointerMove(e: PointerEvent, vp: Viewport)
      requires Valid()
      modifies frame
      ensures if moveListening && ReadBox(old(frame.css)).Success? then
          && frame.css == ApplyWrites(old(frame.css), MoveWrites(movementConstraint, session.value, ReadBox(old(frame.css)).value, e, vp))
          && ReadBox(frame.css) == Success(ApplyBoxWrites(ReadBox(old(frame.css)).value,
                                                          MoveWrites(movementConstraint, session.value, ReadBox(old(frame.css)).value, e, vp)))
        else frame.css == old(frame.css)
    {
      if !moveListening {
        return;
      }
      var read := ReadBox(frame.css);
      if read.Failure? {
        return;
      }
      var parentCoords := read.value;
      var s := session.value;
      ghost var before := frame.css;
      ghost var horizontal: seq<Write> := [];
      ghost var vertical: seq<Write> := [];
      if HandlesX(movementConstraint) {
        var newLeft := Translate(e.clientX, s.deltaX, vp.innerWidth, parentCoords.width);
        if newLeft != parentCoords.left {
          frame.css := SetCss(frame.css, Left, Px(newLeft));
          horizontal := [Write(Left, newLeft)];
        }
      }
      assert frame.css == ApplyWrites(before, horizontal);
      ghost var middle := frame.css;
      if HandlesY(movementConstraint) {
        var newTop := Translate(e.clientY, s.deltaY, vp.innerHeight, parentCoords.height);
        if newTop != parentCoords.top {
          frame.css := SetCss(frame.css, Top, Px(newTop));
          vertical := [Write(Top, newTop)];
        }
      }
      assert frame.css == ApplyWrites(middle, vertical);
      ghost var ws := MoveWrites(movementConstraint, s, parentCoords, e, vp);
      assert ws == horizontal + vertical;
      ApplyWritesAppend(before, horizontal, vertical);
      ReadBoxAfterWrites(before, parentCoords, ws);
    }

    /** `handlePointerUp`: a primary event ends the drag and releases the pointer. */
    method PointerUp(e: PointerEvent)
      requires Valid()
      modifies this
      ensures Valid()
      ensures downListening == old(downListening) && upListening == old(upListening) && session == old(session)
      ensures if old(upListening) && e.isPrimary then
          && !moveListening
          && capture == (if e.pointerId.Some? && old(capture) == e.pointerId then None else old(capture))
        else moveListening == old(moveListening) && capture == old(capture)
    {
      if !upListening || !e.isPrimary {
        return;
      }
      moveListening := false;
      if e.pointerId.Some? && capture == e.pointerId {
        capture := None;
      }
    }

    /** `destructor`: all three listeners are removed; the element keeps its place. */
    method Destructor()
      requires Valid()
      modifies this
      ensures Valid()
      ensures !downListening && !upListening && !moveListening
      ensures session == old(session) && capture == old(capture)
    {
      downListening := false;
      upListening := false;
      moveListening := false;
    }
  }

  /** A drag from inside a 50-pixel box at (10, 10): pointer down at (30, 30),
      move to (130, 130) in a 1000 by 800 viewport, and the box is at (110, 110). */
  method DragScenario() returns (moved: Box)
    ensures moved == Box(110, 110, 50, 50)
  {
    var start := Box(10, 10, 50, 50);
    RenderRoundTrip(start);
    var frame := new Frame(Render(start));
    var m := new Movable(frame, None, "absolute");
    m.PointerDown(PointerEvent(true, 30, 30, Some(1)));
    m.PointerMove(PointerEvent(true, 130, 130, Some(1)), Viewport(1000, 800));
    MovedBox(None, DragSession(start, 20, 20), start, PointerEvent(true, 130, 130, Some(1)), Viewport(1000, 800));
    var read := ReadBox(frame.css);
    moved := read.value;
  }
}
