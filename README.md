# composifyjs layout plugins in Dafny

This project models the interactive-layout core of composifyjs: the four
plugins that give an element window-manager behaviour, and the two
utilities they rely on.

- **Movable** (`makeMovable`): a primary pointer-down records the offset
  from the pointer to the element's top-left corner. Each pointer move then
  places the corner at the pointer minus that offset, clamped to the
  viewport. `left` and `top` are written only when they change.
- **Resizable** (`makeResizable`): normal mode keeps the far edge under the
  pointer, capped by the room left in the viewport and floored by the
  minimum size. Inverse mode moves the near edge while the far edge stays
  fixed.
- **Maximizable** (`makeMaximizable`): a two-state machine, Restored and
  Maximized. It snapshots the box, fills the viewport or the maximum size,
  and restores the snapshot. A size observer drops the Maximized flag when
  the element no longer matches the viewport.
- **Stackable** (`makeStackable`): elements carrying a marker class are
  stacked by `z-index`. A new member goes to `N + 1`. Bringing a member to
  the top lowers by one the members between its old place and the top.
- **ElementCoords** (`getElementCoords`): reads the computed `top`, `left`,
  `width` and `height`. It warns about values not of the form `-?[0-9]*px`,
  throws when a value has no leading number, and returns `parseInt` of each
  value.
- **ElementClasses** (`addClassesToElement`, `elementHasClasses`,
  `removeClassesFromElement`): functions from the old `class` attribute to
  the new one, or to the matching classes.

Shared modules:

- `Geometry` holds the box, the computed-style strings, the
  `'x' | 'y' | 'xy'` direction constraint and the size constraints of
  `src/component/models/coord.ts`. It also holds the viewport, pointer
  events and the style writes (`n + 'px'`) the plugins perform.
- `JsStrings` holds ECMAScript whitespace and `trim`.
- `Wrappers` holds `Option` and `Result`.

Each plugin is a class. Its fields are the closure variables of the
source: the drag session, `isMaximized`, `originalCoords`, and flags for
each listener, observer and pointer capture. Each DOM event handler is a
method. Each method's `ensures` gives the new state as a function of the
old one: the element's style after a list of writes, computed by a pure
function. Lemmas then state what the source promises about those
functions.

Stackable keeps the z-indices of all members of the marker class in one
shared `array`, which `bringToTop` renumbers in place with the source's
`for` loop.

A read that throws is modelled as the handler stopping before it changes
anything, which is what the source's exception does.

Behaviour of the code that the model keeps, though a reader might expect
otherwise:

- **Auto-cancel leaves the window listeners registered.** The size
  observer's callback clears the flag and unobserves
  (src/component/plugins/makeMaximizable.ts:53-54) but does not remove the
  window `resize` and `orientationchange` listeners added at lines 80-81.
  They go on re-maximizing the element while its flag says Restored
  (`Maximizable.AutoCancelScenario`).
- **Those listeners can outlive the destructor.** The destructor removes
  them only while the flag is set (src/component/plugins/makeMaximizable.ts:90-94),
  so after an auto-cancel they are never removed
  (`Maximizable.Maximizable.Destructor`).
- **A constrained maximize cancels itself.** `maximize` writes
  `max.width ?? innerWidth` (src/component/plugins/makeMaximizable.ts:35),
  but the observer compares the width with `innerWidth` (line 49). A
  maximum size that differs from the viewport is therefore cancelled as
  soon as the observer fires (`Maximizable.ObserverCancelsConstrainedMaximize`).
- **The stack is dense only if it was dense before.** `getElements` keys
  the map by the z-index string (src/component/plugins/makeStackable.ts:24-25),
  so duplicate z-indices collapse to the last element in document order.
  A non-numeric z-index makes the loop at line 45 run zero times.
  `bringToTop` keeps the z-indices a permutation of `1..N` only when they
  were one before (`Stackable.BringToTopKeepsDense`). The same holds for
  the members that carry a z-index while others have not joined yet
  (`Stackable.BringToTopKeepsStacked`).
- **`parseInt` also reads hexadecimal.** The reader calls `parseInt` with
  no radix (src/component/utils/getElementCoords.ts:24, 33), which reads a
  `0x` prefix as base 16, and the model does the same.
- **`add` and `remove` treat dots differently.** `add` strips every `.`,
  trims and does not deduplicate (src/component/utils/elementClasses.ts:14-23).
  `remove` compares the names as given and strips no dot (lines 58-65), so
  removing `.name` does not remove `name`.

## Model

| member | source | states |
|---|---|---|
| JsStrings.Trim | src/component/utils/getElementCoords.ts:13 | `String.prototype.trim`: the result neither starts nor ends with whitespace (TrimSpec states what is cut) |
| ElementCoords.IsPxForm | src/component/utils/getElementCoords.ts:13 | the test `/^-?[0-9]*px$/` on the trimmed value: an optional minus, any digits, then `px` (PxHasPxForm, FractionalNotPx and BarePxExample state it on values) |
| ElementCoords.ParseInt | src/component/utils/getElementCoords.ts:33 | `parseInt` without a radix: leading whitespace skipped, an optional sign, a `0x` prefix selecting base 16, then the leading digits, or NaN when there are none (ParseIntPx, ParseIntPxExamples, FractionalExample and BarePxExample state its values) |
| ElementCoords.ParseFloatIsNaN | src/component/utils/getElementCoords.ts:22-26 | `isNaN(parseFloat(s))`: after whitespace and a sign there is neither `Infinity`, nor a digit, nor a point followed by a digit (FractionalIsNumber and BarePxExample state it on values) |
| ElementCoords.ReadAttributes | src/component/utils/getElementCoords.ts:9-34 | the mapping over the coordinate attributes, stopped by the first throw; ReadAttributesThrows, ReadAttributesValues and ReadAttributesWarnings state it |
| ElementCoords.GetElementCoords | src/component/utils/getElementCoords.ts:3-36 | `getElementCoords`: the attributes warned about, and the four values or the error; GetElementCoordsThrows, GetElementCoordsValues and GetElementCoordsWarnings state it |
| ElementCoords.ReadBox | src/component/utils/getElementCoords.ts:3-36 | the reader in integer mode, as the plugins call it, with the values as a box; ReadBoxSpec states it |
| JsStrings.TrimSpec | src/component/utils/getElementCoords.ts:13 | `trim` is the slice of the value left once its whitespace ends are cut: everything cut is whitespace, and what is left neither starts nor ends with whitespace |
| JsStrings.TrimUnpadded | src/component/utils/getElementCoords.ts:13 | a value without surrounding whitespace is its own trim |
| ElementCoords.NonPxSpec | src/component/utils/getElementCoords.ts:13-20 | an attribute is warned about exactly when it is read and its trimmed value does not match `-?[0-9]*px` |
| ElementCoords.FirstUnparseableSpec | src/component/utils/getElementCoords.ts:22-31 | every attribute before the first failing one passes the NaN test, and the one at that index fails it |
| ElementCoords.ReadAttributesThrows | src/component/utils/getElementCoords.ts:22-31 | the mapping throws exactly when some attribute's parse is NaN, and the error names the first such attribute |
| ElementCoords.ReadAttributesValues | src/component/utils/getElementCoords.ts:33 | a mapping that does not throw yields `parseInt` of every value, one per attribute, in order |
| ElementCoords.ReadAttributesWarnings | src/component/utils/getElementCoords.ts:10-20 | the warnings cover the non-px values of the attributes read: all of them, or those up to and including the one that threw |
| ElementCoords.GetElementCoordsThrows | src/component/utils/getElementCoords.ts:22-31 | the reader succeeds iff no attribute fails the NaN test (`parseFloat` in float mode, `parseInt` otherwise); on failure the named attribute fails it |
| ElementCoords.GetElementCoordsValues | src/component/utils/getElementCoords.ts:33 | a successful read returns `parseInt` of each of the four values, also in float mode |
| ElementCoords.GetElementCoordsWarnings | src/component/utils/getElementCoords.ts:13-20 | a successful read warns about every attribute whose value is not of the px form, in attribute order |
| ElementCoords.IntegerModeYieldsIntegers | src/component/utils/getElementCoords.ts:22-33 | in integer mode every value of a successful read is an integer, never NaN |
| ElementCoords.ReadBoxSpec | src/component/utils/getElementCoords.ts:22-33 | the integer-mode read succeeds iff every value has a leading integer; the box holds those integers; a failure names an attribute that parses to NaN |
| ElementCoords.ParseIntPx | src/component/utils/getElementCoords.ts:33 | `parseInt(n + 'px')` is `n` for every integer `n`, negative ones included |
| ElementCoords.PxHasPxForm | src/component/utils/getElementCoords.ts:13 | a value written as `n + 'px'` matches `-?[0-9]*px` after trim |
| ElementCoords.ReadBoxAfterWrites | src/component/utils/getElementCoords.ts:22-33 | reading back after a list of `n + 'px'` writes gives the box changed by exactly those writes |
| ElementCoords.RenderRoundTrip | src/component/utils/getElementCoords.ts:9-35 | a style written entirely as `n + 'px'` reads back as the box it was written from |
| ElementCoords.RenderWarnsNothing | src/component/utils/getElementCoords.ts:13-20 | reading such a style produces no warning |
| ElementCoords.ParseIntPxExamples | src/component/utils/getElementCoords.ts:22-33 | "-5px" parses to -5 and "120px" to 120 |
| ElementCoords.FractionalNotPx | src/component/utils/getElementCoords.ts:13-20 | "10.7px" fails the px-form test, so it is warned about |
| ElementCoords.FractionalExample | src/component/utils/getElementCoords.ts:33 | "10.7px" is returned as 10 |
| ElementCoords.FractionalIsNumber | src/component/utils/getElementCoords.ts:22-31 | "10.7px" passes the NaN test in both modes |
| ElementCoords.BarePxExample | src/component/utils/getElementCoords.ts:13-31 | "px" passes the px-form test yet is NaN in both modes: a coordinate whose value is "px" is not warned about, and the reader throws |
| Movable.IsPositioned | src/component/plugins/makeMovable.ts:22-25 | the position test: the lower-cased `position` is `relative`, `fixed` or `absolute`; the constructor warns exactly when it fails |
| Movable.MoveWrites | src/component/plugins/makeMovable.ts:32-56 | the writes of one pointer move; MoveWritesOnlyChanges, MovedBox and MoveInPlaceWritesNothing state them |
| Movable.StartDrag | src/component/plugins/makeMovable.ts:63-65 | pointer-down records the box read, and the pointer minus the delta is the box's left and top |
| Movable.Translate | src/component/plugins/makeMovable.ts:36-39 | the new edge is at most viewport minus size, at least 0 when the element fits, and the unclamped `pointer - delta` when that is in range |
| Movable.MoveWritesOnlyChanges | src/component/plugins/makeMovable.ts:35-55 | a move writes only `left`/`top`, never the size; each only on a handled axis, only when it changes, and with the clamped value |
| Movable.MovedBox | src/component/plugins/makeMovable.ts:32-56 | after a move the handled axes hold the clamped position and the rest of the box is unchanged |
| Movable.MoveInPlaceWritesNothing | src/component/plugins/makeMovable.ts:36-54 | a move back to the pointer-down point of an in-viewport box writes nothing |
| Movable.Movable.constructor | src/component/plugins/makeMovable.ts:22-93 | setup warns iff the position is not relative/fixed/absolute and listens for down and up either way |
| Movable.Movable.PointerDown | src/component/plugins/makeMovable.ts:58-72 | a primary down records the drag session, listens for moves and captures the pointer; a non-primary down or a failed read changes nothing |
| Movable.Movable.PointerMove | src/component/plugins/makeMovable.ts:32-56 | while dragging, the style becomes the old style after the move writes, and the box read back is the moved box; otherwise nothing changes |
| Movable.Movable.PointerUp | src/component/plugins/makeMovable.ts:74-84 | a primary up stops listening for moves and releases the captured pointer; a non-primary up changes nothing |
| Movable.Movable.Destructor | src/component/plugins/makeMovable.ts:86-90 | all three listeners are gone and the drag state is left as it was |
| Movable.DragScenario | src/component/plugins/makeMovable.ts:32-72 | a 50-pixel box at (10, 10), down at (30, 30), moved to (130, 130) in a 1000×800 viewport, ends at (110, 110) |
| Resizable.StartResize | src/component/plugins/makeResizable.ts:123-127 | pointer plus `delta` is the far edge, and pointer plus `inverseDelta` is the near edge |
| Resizable.NormalSize | src/component/plugins/makeResizable.ts:38-45 | the size never exceeds the room left (the cap wins over the floor); it is at least the minimum when the room allows, and exactly `pointer - origin + delta` when in range |
| Resizable.InverseEdge | src/component/plugins/makeResizable.ts:64-69 | the near edge is at most the original far edge minus the minimum, at least 0 when that is non-negative, and the pointer plus `inverseDelta` when in range |
| Resizable.InverseSize | src/component/plugins/makeResizable.ts:73-77 | the size is at least the minimum, and the edge plus the size is the original far edge whenever the edge is within its cap |
| Resizable.ResizeWrites | src/component/plugins/makeResizable.ts:98-116 | the writes of one pointer move, the horizontal axis first; ResizeWritesAxes, NormalResizeFollowsPointer and InverseResizeKeepsFarEdge state them |
| Resizable.ResizeWritesAxes | src/component/plugins/makeResizable.ts:98-116 | `left`/`width` only on the horizontal axis, `top`/`height` only on the vertical, `left`/`top` only in inverse mode, and a handled normal axis always writes its size |
| Resizable.NormalResizeFollowsPointer | src/component/plugins/makeResizable.ts:38-45 | with the near edge unmoved and no clamp, the width grows by exactly the pointer's travel |
| Resizable.NormalResizeExample | src/component/plugins/makeResizable.ts:38-45 | left 0, width 100, down at 100, moved to 150 gives width 150 |
| Resizable.InverseResizeKeepsFarEdge | src/component/plugins/makeResizable.ts:63-78 | a horizontal write keeps left + width at the original far edge and the width at least the minimum; it writes nothing iff the new left equals the current one |
| Resizable.InverseResizeKeepsFarEdgeY | src/component/plugins/makeResizable.ts:79-95 | the same for top and height |
| Resizable.InverseResizeExample | src/component/plugins/makeResizable.ts:64-77 | left 0, width 100, minimum 20, down at 0, moved to 90 gives left 80 and width 20 |
| Resizable.Resizable.constructor | src/component/plugins/makeResizable.ts:154-155 | setup listens for down and up, with no session and no capture |
| Resizable.Resizable.PointerDown | src/component/plugins/makeResizable.ts:118-134 | a primary down records the four offsets, listens for moves and captures; a non-primary down or a failed read changes nothing |
| Resizable.Resizable.PointerMove | src/component/plugins/makeResizable.ts:98-116 | while dragging, the style becomes the old style after the resize writes of both handled axes, and the box reads back accordingly |
| Resizable.Resizable.ResizeParentX | src/component/plugins/makeResizable.ts:37-45 | the width is written with the normal-mode size |
| Resizable.Resizable.ResizeParentY | src/component/plugins/makeResizable.ts:46-55 | the height is written with the normal-mode size |
| Resizable.Resizable.InverseResizeParentX | src/component/plugins/makeResizable.ts:63-78 | `left` and then `width` are written, only when the near edge moves |
| Resizable.Resizable.InverseResizeParentY | src/component/plugins/makeResizable.ts:79-95 | `top` and then `height` are written, only when the near edge moves |
| Resizable.Resizable.PointerUp | src/component/plugins/makeResizable.ts:136-146 | a primary up stops listening for moves and releases the captured pointer; a non-primary up changes nothing |
| Resizable.Resizable.Destructor | src/component/plugins/makeResizable.ts:148-152 | all three listeners are gone, and the element keeps its size |
| Resizable.InverseResizeScenario | src/component/plugins/makeResizable.ts:58-134 | the inverse example run through the plugin: the box ends at left 80 with width 20 |
| Maximizable.MaximizeWrites | src/component/plugins/makeMaximizable.ts:31-42 | the writes of `maximize()`; MaximizedBox states the box they give |
| Maximizable.RestoreWrites | src/component/plugins/makeMaximizable.ts:63-72 | the snapshot written back on the handled axes; RestoredBox and RestoreAfterMaximize state the box they give |
| Maximizable.CancelsMaximize | src/component/plugins/makeMaximizable.ts:47-52 | the observer test: a handled axis whose size differs from the viewport; ObserverCancelsConstrainedMaximize and ObserverFired state it |
| Maximizable.MaximizedBox | src/component/plugins/makeMaximizable.ts:31-42 | handled axes start at 0 and take the maximum size or else the viewport's; an unhandled axis is untouched |
| Maximizable.RestoredBox | src/component/plugins/makeMaximizable.ts:63-72 | restoring writes the snapshot's handled axes back and leaves the rest |
| Maximizable.RestoreAfterMaximize | src/component/plugins/makeMaximizable.ts:58-85 | maximize followed by restoring the earlier snapshot gives back the exact box, for every constraint, limit and viewport |
| Maximizable.ObserverCancelsConstrainedMaximize | src/component/plugins/makeMaximizable.ts:44-56 | the observer cancels a fresh maximize exactly when a handled axis has a maximum size that differs from the viewport's |
| Maximizable.Maximizable.constructor | src/component/plugins/makeMaximizable.ts:101-111 | setup listens on the trigger; `initiallyMaximized` toggles once; the returned flag is a copy of the state at return, and is absent when the first read throws |
| Maximizable.Maximizable.Maximize | src/component/plugins/makeMaximizable.ts:31-42 | the style becomes the old style after the maximize writes |
| Maximizable.Maximizable.Restore | src/component/plugins/makeMaximizable.ts:63-72 | the style becomes the old style after the snapshot's writes on the handled axes |
| Maximizable.Maximizable.HandlePointerDown | src/component/plugins/makeMaximizable.ts:58-85 | a non-primary event changes nothing. Leaving restores the snapshot and stops observing and listening. Entering takes the snapshot, maximizes, observes and listens. A failed read changes nothing |
| Maximizable.Maximizable.LeaveMaximized | src/component/plugins/makeMaximizable.ts:63-76 | the snapshot is written back, the observer and window listeners are stopped, and the flag is cleared |
| Maximizable.Maximizable.EnterMaximized | src/component/plugins/makeMaximizable.ts:76-84 | the snapshot is the box read, the maximize writes are applied, and the observer and listeners start; a failed read changes nothing |
| Maximizable.Maximizable.TriggerPointerDown | src/component/plugins/makeMaximizable.ts:58-85 | an event that is non-primary or arrives after the destructor changes nothing. Otherwise it acts as the handler: leaving restores the kept snapshot and stops observing and listening; entering takes the snapshot, maximizes, observes and listens; a failed read changes nothing |
| Maximizable.Maximizable.ToggleMaximized | src/component/plugins/makeMaximizable.ts:97-99 | it is a primary pointer-down, also after the destructor: leaving restores the snapshot, keeps it, clears the flag and stops observing and listening; entering takes a new snapshot, maximizes, observes and listens; a failed read changes nothing |
| Maximizable.Maximizable.ObserverFired | src/component/plugins/makeMaximizable.ts:44-56 | while observing, a size mismatch on a handled axis clears the flag and stops observing; it neither restores the box nor removes the window listeners |
| Maximizable.Maximizable.WindowResized | src/component/plugins/makeMaximizable.ts:78-81 | a window resize re-applies the maximize writes exactly while the window listeners are registered |
| Maximizable.Maximizable.Destructor | src/component/plugins/makeMaximizable.ts:87-95 | the trigger listener is removed; the observer and window listeners are removed only when maximized; the box and flag stay |
| Maximizable.ToggleTwiceRestores | src/component/plugins/makeMaximizable.ts:63-84 | two toggles with no outside change read back the original box and end Restored |
| Maximizable.AutoCancelScenario | src/component/plugins/makeMaximizable.ts:44-56 | with a maximum width of 500 in a 1000-pixel viewport, the observer cancels at once, the window listeners stay, and the next resize writes width 500 again |
| Stackable.Elements | src/component/plugins/makeStackable.ts:17-26 | `getElements()`: the members with a z-index, keyed by it, the last in document order winning; ElementsSpec states it |
| Stackable.BringToTopResult | src/component/plugins/makeStackable.ts:33-53 | the z-indices after `bringToTop`; BringToTopAtTopIsNoOp, BringToTopMoves, the keeps-lemmas and the BringToTop method state it |
| Stackable.Joined | src/component/plugins/makeStackable.ts:60 | the z-indices after a member joins; JoinKeepsDense, JoinInOrder and the constructor state it |
| Stackable.ElementsSpec | src/component/plugins/makeStackable.ts:17-26 | the map holds exactly the non-empty z-indices in use, each for a member carrying it with no later member carrying it too |
| Stackable.ElementsOfDistinct | src/component/plugins/makeStackable.ts:17-26 | with distinct non-empty z-indices, the map has one entry per member, each pointing at that member |
| Stackable.ElementsOfDistinctSet | src/component/plugins/makeStackable.ts:17-26 | the same when only some members carry a z-index: one entry per member that carries one |
| Stackable.ElementsWithoutUnset | src/component/plugins/makeStackable.ts:24 | a member with an empty z-index adds no key: the map has the same z-indices as the map of the other members |
| Stackable.ElementsUnsetTail | src/component/plugins/makeStackable.ts:24 | members without a z-index do not contribute to the map |
| Stackable.BringToTopAtTopIsNoOp | src/component/plugins/makeStackable.ts:37-39 | a member whose z-index already equals the map size changes nothing |
| Stackable.BringToTopMoves | src/component/plugins/makeStackable.ts:41-53 | otherwise the member ends at N, the members the loop visits (z in (original, N]) go down by one, and all others keep their z-index |
| Stackable.BringToTopKeepsDense | src/component/plugins/makeStackable.ts:45-53 | z-indices that are a permutation of 1..N stay one |
| Stackable.BringToTopKeepsStacked | src/component/plugins/makeStackable.ts:45-53 | when some members carry no z-index yet, raising a member that carries one keeps the others without one, and the z-indices in use stay distinct integers from 1 to their number |
| Stackable.BringToTopKeepsOrder | src/component/plugins/makeStackable.ts:45-51 | in a dense stack, the relative order of every two other members is preserved |
| Stackable.JoinKeepsDense | src/component/plugins/makeStackable.ts:60 | a new member of a dense stack, wherever it stands in document order, joins at N + 1 and the stack stays dense |
| Stackable.JoinInOrder | src/component/plugins/makeStackable.ts:60 | members joining in document order get 1, 2, … in turn |
| Stackable.BringToTopExample | src/component/plugins/makeStackable.ts:45-53 | raising A in A 1, B 2, C 3 gives A 3, B 1, C 2 |
| Stackable.Stackable.constructor | src/component/plugins/makeStackable.ts:60-61 | the element's z-index becomes the number of distinct z-indices in use plus one, and the listener is registered |
| Stackable.Stackable.BringToTop | src/component/plugins/makeStackable.ts:28-54 | a non-primary pointer event changes nothing; otherwise the array becomes the `bringToTop` result, renumbered in place by the loop |
| Stackable.Stackable.PointerDown | src/component/plugins/makeStackable.ts:29-31 | a pointer-down reaches `bringToTop` only while listening and when primary |
| Stackable.Stackable.Destructor | src/component/plugins/makeStackable.ts:56-58 | the listener is removed |
| Stackable.StackScenario | src/component/plugins/makeStackable.ts:17-60 | three elements joining an empty class get 1, 2 and 3; raising the first gives 3, 1 and 2 |
| ElementClasses.Normalise | src/component/utils/elementClasses.ts:15-19 | the names the helpers work with: `[s]` for a string, the array itself, or the values of an object; Values states the last case |
| ElementClasses.AddClasses | src/component/utils/elementClasses.ts:4-25 | `addClassesToElement`: the new attribute; AddRewrites, AddAppends, AddRepeats, AddToEmpty and AddStripsDots state it |
| ElementClasses.HasClasses | src/component/utils/elementClasses.ts:27-42 | `elementHasClasses`; HasClassesSpec states it |
| ElementClasses.RemoveClasses | src/component/utils/elementClasses.ts:44-66 | `removeClassesFromElement`: the new attribute; RemoveClassesSpec and RemoveIdempotent state it |
| ElementClasses.Values | src/component/utils/elementClasses.ts:18 | `Object.values`: one value per entry, in entry order |
| ElementClasses.Split | src/component/utils/elementClasses.ts:9 | `split(' ')` gives at least one piece, and no piece contains a space |
| ElementClasses.RemoveDots | src/component/utils/elementClasses.ts:22 | the result has no `.`, and every other character occurs in it iff it occurs in the input |
| ElementClasses.Keep | src/component/utils/elementClasses.ts:41 | the filter keeps exactly the pieces whose membership in the search list is the one asked for |
| ElementClasses.JoinSplit | src/component/utils/elementClasses.ts:9-21 | joining the pieces of a split on `' '` gives back the string |
| ElementClasses.SplitJoin | src/component/utils/elementClasses.ts:58-65 | splitting joined space-free pieces gives back the pieces |
| ElementClasses.KeepIdempotent | src/component/utils/elementClasses.ts:62-64 | filtering twice with the same test is filtering once |
| ElementClasses.KeepAppend | src/component/utils/elementClasses.ts:39-41 | the filter distributes over concatenation, so it keeps the order of the pieces |
| ElementClasses.KeepPartition | src/component/utils/elementClasses.ts:62-64 | each piece is either kept or dropped, never both and never neither |
| ElementClasses.HasClassesSpec | src/component/utils/elementClasses.ts:27-42 | a class is in the answer iff the element has it and it is searched for; the answer is empty iff no class of the element is searched for |
| ElementClasses.RemoveClassesSpec | src/component/utils/elementClasses.ts:44-66 | the remaining classes are exactly those not searched for, joined with `' '`; `has` and `remove` split the element's classes between them |
| ElementClasses.RemoveIdempotent | src/component/utils/elementClasses.ts:58-65 | removing the same classes twice equals removing them once |
| ElementClasses.AddToEmpty | src/component/utils/elementClasses.ts:9-23 | adding to a missing or empty attribute gives no leading space: only the new classes, dot-stripped and trimmed |
| ElementClasses.AddRewrites | src/component/utils/elementClasses.ts:9-23 | for tidy new classes and any attribute, `add` writes the attribute with its dots stripped and its leading whitespace cut, a space, and the new classes; only the new classes when nothing of the old is left |
| ElementClasses.AddAppends | src/component/utils/elementClasses.ts:4-25 | for tidy new classes and any attribute, the classes after `add` are the element's classes as `add` rewrites them, followed by the new ones, repeats included; for tidy single-spaced classes the old classes come first unchanged, also when nothing is added |
| ElementClasses.AddRepeats | src/component/utils/elementClasses.ts:4-25 | adding a class the element already has, whatever else the attribute holds, appends it once more after the rewritten classes; it is still among those, so `has` finds it once more than among them and at least twice; for tidy single-spaced classes, exactly once more than before |
| ElementClasses.AddStripsDots | src/component/utils/elementClasses.ts:22 | adding `.name` adds `name` |
| ElementClasses.RemoveKeepsDottedMismatch | src/component/utils/elementClasses.ts:50-65 | removing `.name` leaves `name` in place, because `remove` strips no dot |

## Left out

- Floating-point arithmetic: the model's boxes are whole pixels. Client
  coordinates are integers, and the value of `parseFloat` is not modelled.
  Only its NaN test is, since the reader discards the float and returns
  `parseInt`.
- JavaScript numbers are modelled as unbounded integers. Precision loss
  beyond 2^53 is not modelled.
- Movable.IsPositioned: `toLowerCase` is modelled on ASCII letters only.
- Browser pointer capture is a field holding the captured pointer id.
  Capture semantics, such as event retargeting and the error a release of
  an uncaptured pointer raises, are not modelled.
- `ResizeObserver` scheduling is left out. The observer callback is a
  method that the environment calls, and the initial notification a
  browser delivers on `observe` is one such call.
- Window listeners are left out as a mechanism. The window `resize` and
  `orientationchange` listeners are one flag, and a window event is the
  `WindowResized` method.
- `getElement` (the lookup of an element by id string) and its throw for
  a missing element are left out: the class helpers take the attribute
  itself. `getAttribute` and `setAttribute` become the function's argument
  and result.
- ElementClasses.Values: an object's entries are given in property order.
  The ordering `Object.values` imposes, with integer-like keys first, is
  not modelled.
- ElementClasses.AddAppends, AddRewrites and AddRepeats: state the result
  for new classes that are tidy (no dots, no whitespace, none empty).
  New classes with dots are covered by AddStripsDots and AddToEmpty. New
  classes with spaces or empty names, and adding nothing to an attribute
  that is not tidy, are covered only by the definition of AddClasses.
- `console.warn` and `console.trace` are left out as output. The reader
  returns the attributes it warned about, and Movable keeps a `warned`
  flag.
- `offsetLeft` and `offsetTop` are parameters of `Resizable.PointerMove`.
  Layout is not modelled.
- The model reads an element's computed style as exactly the last inline
  `n + 'px'` value the plugins wrote. Stylesheet rules, `min-`/`max-width`,
  `box-sizing` and sub-pixel layout, which can make the computed value
  differ from the inline one, are not modelled. ElementCoords.ReadBoxAfterWrites,
  Movable.Movable.PointerMove, Resizable.Resizable.PointerMove,
  Maximizable.ToggleTwiceRestores, Maximizable.AutoCancelScenario and every
  scenario rely on this.
- Stackable.Stackable.constructor and BringToTop require `self < group.Length`:
  the element carries the marker class itself. The source never checks
  this. An element outside the class is not modelled. Such an element
  ends on a duplicate z-index: with members A 1 and B 2 and an outside
  element S at 3, raising S gives S 2 next to B 2.
- Stackable: the group array is the z-index list of the elements that
  carry the marker class, in document order. The element is at index
  `self`. `getElementsByClassName` itself is not modelled.
- Stackable: a z-index string is a datatype (empty, keyword or integer).
  Odd numeric spellings such as "01" are not modelled, and neither is the
  browser's normalisation of them.
- Maximizable.Maximizable.LeaveMaximized and EnterMaximized are the two
  branches of `handlePointerDown`, split out as methods of their own.
- The state hooks (`src/state/**`), `useElement`, `useComponentId`,
  `getHash` and `useDebouncedCallback` are not part of this model: they
  are a closure-based store, DOM creation, randomness and timers, and the
  plugins do not use them.
