/** The shared vocabulary of the layout plugins: the box of an element, the
    computed-style strings it is read from, the `'x' | 'y' | 'xy'` direction
    constraint, size constraints, the viewport and pointer events, and the
    style writes (`n + 'px'`) the plugins perform. */
module Geometry {
  import opened Wrappers

  /** The four coordinate attributes, in the order the coordinate reader visits them. */
  datatype Attr = Top | Left | Width | Height

  const CoordAttributes: seq<Attr> := [Top, Left, Width, Height]

  /** A box in whole pixels. */
  datatype Box = Box(top: int, left: int, width: int, height: int)

  /** The computed-style strings of the four coordinate attributes of an element. */
  datatype Css = Css(top: string, left: string, width: string, height: string)

  /** A size or position bound of which every part is optional (`Partial<TCoord>`). */
  datatype PartialCoord = PartialCoord(top: Option<int>, left: Option<int>, width: Option<int>, height: Option<int>)

  /** `TCoordConstraint`: optional lower and upper bounds. */
  datatype SizeConstraints = SizeConstraints(min: Option<PartialCoord>, max: Option<PartialCoord>)

  /** The direction constraint `'x' | 'y' | 'xy'`; absence is `None`. */
  datatype Direction = X | Y | XY

  /** `window.innerWidth` and `window.innerHeight`. */
  datatype Viewport = Viewport(innerWidth: int, innerHeight: int)

  /** The fields of a pointer event the plugins read. */
  datatype PointerEvent = PointerEvent(isPrimary: bool, clientX: int, clientY: int, pointerId: Option<int>)

  /** One assignment `style[attr] = value + 'px'`. */
  datatype Write = Write(attr: Attr, value: int)

  /** The element whose style the plugins read and write; several plugins may share one. */
  class Frame {
    var css: Css

    constructor (css: Css)
      ensures this.css == css
    {
      this.css := css;
    }
  }

  /** `movementConstraint !== 'y'`: the horizontal axis is handled. */
  predicate HandlesX(constraint: Option<Direction>) {
    constraint != Some(Y)
  }

  /** `movementConstraint !== 'x'`: the vertical axis is handled. */
  predicate HandlesY(constraint: Option<Direction>) {
    constraint != Some(X)
  }

  function Min(a: int, b: int): int { if a <= b then a else b }

  function Max(a: int, b: int): int { if a >= b then a else b }

  /** `sizeConstraints?.min?.width ?? 0` */
  function MinWidth(limits: Option<SizeConstraints>): int {
    if limits.Some? && limits.value.min.Some? then limits.value.min.value.width.GetOr(0) else 0
  }

  /** `sizeConstraints?.min?.height ?? 0` */
  function MinHeight(limits: Option<SizeConstraints>): int {
    if limits.Some? && limits.value.min.Some? then limits.value.min.value.height.GetOr(0) else 0
  }

  /** `sizeConstraints?.max?.width`, absent when any link of the chain is absent. */
  function MaxWidth(limits: Option<SizeConstraints>): Option<int> {
    if limits.Some? && limits.value.max.Some? then limits.value.max.value.width else None
  }

  /** `sizeConstraints?.max?.height` */
  function MaxHeight(limits: Option<SizeConstraints>): Option<int> {
    if limits.Some? && limits.value.max.Some? then limits.value.max.value.height else None
  }

  function DigitChar(d: nat): (c: char)
    requires d < 10
    ensures '0' <= c <= '9'
  {
    (('0' as int) + d) as char
  }

  /** The decimal digits of `n`, most significant first, without leading zeros. */
  function NatToDecimal(n: nat): (s: string)
    ensures |s| >= 1 && forall i :: 0 <= i < |s| ==> '0' <= s[i] <= '9'
  {
    if n < 10 then [DigitChar(n)] else NatToDecimal(n / 10) + [DigitChar(n % 10)]
  }

  /** How JavaScript turns an integral number into a string. */
  function IntToDecimal(n: int): string {
    if n < 0 then "-" + NatToDecimal(-n) else NatToDecimal(n)
  }

  /** `n + 'px'` */
  function Px(n: int): string {
    IntToDecimal(n) + "px"
  }

  function CssValue(css: Css, a: Attr): string {
    match a
    case Top => css.top
    case Left => css.left
    case Width => css.width
    case Height => css.height
  }

  function SetCss(css: Css, a: Attr, value: string): (r: Css)
    ensures CssValue(r, a) == value
    ensures forall b :: b != a ==> CssValue(r, b) == CssValue(css, b)
  {
    match a
    case Top => css.(top := value)
    case Left => css.(left := value)
    case Width => css.(width := value)
    case Height => css.(height := value)
  }

  function BoxValue(box: Box, a: Attr): int {
    match a
    case Top => box.top
    case Left => box.left
    case Width => box.width
    case Height => box.height
  }

  function SetBox(box: Box, a: Attr, value: int): (r: Box)
    ensures BoxValue(r, a) == value
    ensures forall b :: b != a ==> BoxValue(r, b) == BoxValue(box, b)
  {
    match a
    case Top => box.(top := value)
    case Left => box.(left := value)
    case Width => box.(width := value)
    case Height => box.(height := value)
  }

  /** Two boxes that agree on every attribute are equal. */
  lemma BoxExtensional(b1: Box, b2: Box)
    requires forall a :: BoxValue(b1, a) == BoxValue(b2, a)
    ensures b1 == b2
  {
    assert BoxValue(b1, Top) == BoxValue(b2, Top) && BoxValue(b1, Left) == BoxValue(b2, Left);
    assert BoxValue(b1, Width) == BoxValue(b2, Width) && BoxValue(b1, Height) == BoxValue(b2, Height);
  }

  /** The style after performing `writes` in order. */
  function ApplyWrites(css: Css, writes: seq<Write>): Css
    decreases |writes|
  {
    if writes == [] then css
    else ApplyWrites(SetCss(css, writes[0].attr, Px(writes[0].value)), writes[1..])
  }

  /** The same writes, seen on a box of integers. */
  function ApplyBoxWrites(box: Box, writes: seq<Write>): Box
    decreases |writes|
  {
    if writes == [] then box
    else ApplyBoxWrites(SetBox(box, writes[0].attr, writes[0].value), writes[1..])
  }

  /** A list of writes that never assigns `a`. */
  predicate Untouched(writes: seq<Write>, a: Attr) {
    forall w :: w in writes ==> w.attr != a
  }

  /** Performing two lists of writes one after the other is performing their concatenation. */
  lemma {:induction false} ApplyWritesAppend(css: Css, first: seq<Write>, second: seq<Write>)
    ensures ApplyWrites(css, first + second) == ApplyWrites(ApplyWrites(css, first), second)
    decreases |first|
  {
    if first == [] {
      assert first + second == second;
    } else {
      assert (first + second)[1..] == first[1..] + second && (first + second)[0] == first[0];
      ApplyWritesAppend(SetCss(css, first[0].attr, Px(first[0].value)), first[1..], second);
    }
  }

  /** The same on a box of integers. */
  lemma {:induction false} ApplyBoxWritesAppend(box: Box, first: seq<Write>, second: seq<Write>)
    ensures ApplyBoxWrites(box, first + second) == ApplyBoxWrites(ApplyBoxWrites(box, first), second)
    decreases |first|
  {
    if first == [] {
      assert first + second == second;
    } else {
      assert (first + second)[1..] == first[1..] + second && (first + second)[0] == first[0];
      ApplyBoxWritesAppend(SetBox(box, first[0].attr, first[0].value), first[1..], second);
    }
  }

  /** Two writes in a row. */
  lemma ApplyWritesPair(css: Css, first: Write, second: Write)
    ensures ApplyWrites(css, [first, second])
      == SetCss(SetCss(css, first.attr, Px(first.value)), second.attr, Px(second.value))
  {
    var once := SetCss(css, first.attr, Px(first.value));
    assert [first, second][1..] == [second] && [second][1..] == [];
    assert ApplyWrites(css, [first, second]) == ApplyWrites(once, [second]);
    assert ApplyWrites(once, [second]) == ApplyWrites(SetCss(once, second.attr, Px(second.value)), []);
  }

  /** Two writes in a row, on a box of integers. */
  lemma ApplyBoxWritesPair(box: Box, first: Write, second: Write)
    ensures ApplyBoxWrites(box, [first, second])
      == SetBox(SetBox(box, first.attr, first.value), second.attr, second.value)
  {
    var once := SetBox(box, first.attr, first.value);
    assert [first, second][1..] == [second] && [second][1..] == [];
    assert ApplyBoxWrites(box, [first, second]) == ApplyBoxWrites(once, [second]);
    assert ApplyBoxWrites(once, [second]) == ApplyBoxWrites(SetBox(once, second.attr, second.value), []);
  }

  /** The style with every attribute written as `value + 'px'`. */
  function Render(box: Box): Css {
    Css(Px(box.top), Px(box.left), Px(box.width), Px(box.height))
  }
}
