/** The coordinate reader `getElementCoords`: it reads the computed `top`,
    `left`, `width` and `height` strings of an element, warns about values
    that are not of the form `-?[0-9]*px`, throws when a value has no leading
    number, and returns each value as parsed by `parseInt` (section 19.2.5 of
    ECMA-262), also in the mode that checks with `parseFloat`. */
module ElementCoords {
  import opened Wrappers
  import opened JsStrings
  import opened Geometry

  /** A JavaScript number as `parseInt` produces it: an integer or NaN. */
  datatype Parsed = Int(value: int) | NaN

  /** The error thrown for the attribute that could not be resolved to a number. */
  datatype CoordError = CoordParseError(attr: Attr)

  /** What a read produced: the attributes it warned about, in order, and the values or the error. */
  datatype Reading<T> = Reading(warnings: seq<Attr>, coords: Result<T, CoordError>)

  /** The record the reader returns, one number per coordinate attribute. */
  datatype NumBox = NumBox(top: Parsed, left: Parsed, width: Parsed, height: Parsed)

  predicate IsDecimalDigit(c: char) {
    '0' <= c <= '9'
  }

  /** The value of `c` as a hexadecimal digit, or 36 when it is none. */
  function DigitValue(c: char): nat {
    if '0' <= c <= '9' then c as int - '0' as int
    else if 'a' <= c <= 'f' then c as int - 'a' as int + 10
    else if 'A' <= c <= 'F' then c as int - 'A' as int + 10
    else 36
  }

  /** The longest prefix of `s` made of digits of base `radix`. */
  function LeadingDigits(s: string, radix: nat): (ds: string)
  {
    if s != [] && DigitValue(s[0]) < radix then [s[0]] + LeadingDigits(s[1..], radix) else []
  }

  /** The number that the digit string `ds` denotes in base `radix`. */
  function DigitsValue(ds: string, radix: nat): nat {
    if ds == [] then 0 else DigitsValue(ds[..|ds| - 1], radix) * radix + DigitValue(ds[|ds| - 1])
  }

  /** The digits at the start of `u` in base `radix`, or NaN when there are none. */
  function ParseDigits(u: string, radix: nat): Parsed {
    var ds := LeadingDigits(u, radix);
    if ds == [] then NaN else Int(DigitsValue(ds, radix))
  }

  /** An unsigned numeral: a `0x`/`0X` prefix selects base 16, otherwise base 10. */
  function ParseUnsigned(u: string): Parsed {
    if |u| >= 2 && u[0] == '0' && (u[1] == 'x' || u[1] == 'X') then ParseDigits(u[2..], 16)
    else ParseDigits(u, 10)
  }

  /** `parseInt(s)` with no radix argument: leading whitespace skipped, an
      optional sign, then an unsigned numeral; NaN when it has no digit. */
  function ParseInt(s: string): Parsed {
    var t := TrimStart(s);
    if t != [] && t[0] == '-' then
      match ParseUnsigned(t[1..])
      case Int(v) => Int(-v)
      case NaN => NaN
    else if t != [] && t[0] == '+' then ParseUnsigned(t[1..])
    else ParseUnsigned(t)
  }

  /** `isNaN(parseFloat(s))`: after whitespace and an optional sign there is
      neither `Infinity`, nor a digit, nor a point followed by a digit. */
  predicate ParseFloatIsNaN(s: string) {
    var t := TrimStart(s);
    if t != [] && (t[0] == '-' || t[0] == '+') then UnsignedFloatIsNaN(t[1..]) else UnsignedFloatIsNaN(t)
  }

  /** `isNaN(parseFloat(u))` for a `u` that starts after the sign. */
  predicate UnsignedFloatIsNaN(u: string) {
    !(StartsWithInfinity(u)
      || (u != [] && IsDecimalDigit(u[0]))
      || (|u| >= 2 && u[0] == '.' && IsDecimalDigit(u[1])))
  }

  /** `u` begins with the word `Infinity`. */
  predicate StartsWithInfinity(u: string) {
    && |u| >= 8
    && u[0] == 'I' && u[1] == 'n' && u[2] == 'f' && u[3] == 'i'
    && u[4] == 'n' && u[5] == 'i' && u[6] == 't' && u[7] == 'y'
  }

  /** The test `/^-?[0-9]*px$/` on an already trimmed value. */
  predicate IsPxForm(t: string) {
    if t != [] && t[0] == '-' then IsUnsignedPxForm(t[1..]) else IsUnsignedPxForm(t)
  }

  /** The test `/^[0-9]*px$/`. */
  predicate IsUnsignedPxForm(u: string) {
    |u| >= 2 && u[|u| - 2] == 'p' && u[|u| - 1] == 'x' && forall i :: 0 <= i < |u| - 2 ==> IsDecimalDigit(u[i])
  }

  /** The NaN test of the reader: `parseFloat` in float mode, `parseInt` otherwise. */
  predicate Unparseable(value: string, asFloats: bool) {
    if asFloats then ParseFloatIsNaN(value) else ParseInt(value).NaN?
  }

  /** The warning about one attribute: the attribute itself when its trimmed
      value is not of the pixel form, nothing otherwise. */
  function Warning(css: Css, a: Attr): (w: seq<Attr>)
    ensures |w| <= 1
  {
    if IsPxForm(Trim(CssValue(css, a))) then [] else [a]
  }

  /** The attributes among `attrs` whose value is not of the pixel form. */
  function NonPx(css: Css, attrs: seq<Attr>): (r: seq<Attr>)
    ensures |r| <= |attrs|
  {
    if attrs == [] then []
    else Warning(css, attrs[0]) + NonPx(css, attrs[1..])
  }

  /** An attribute is warned about exactly when it is listed and its value is not of the pixel form. */
  lemma {:induction false} NonPxSpec(css: Css, attrs: seq<Attr>)
    ensures forall a :: a in NonPx(css, attrs) <==> a in attrs && !IsPxForm(Trim(CssValue(css, a)))
    decreases |attrs|
  {
    if attrs != [] {
      NonPxSpec(css, attrs[1..]);
      assert forall a :: a in attrs <==> a == attrs[0] || a in attrs[1..];
    }
  }

  /** No attribute is warned about when every value has the pixel form. */
  lemma {:induction false} NonPxNone(css: Css, attrs: seq<Attr>)
    requires forall i :: 0 <= i < |attrs| ==> IsPxForm(Trim(CssValue(css, attrs[i])))
    ensures NonPx(css, attrs) == []
    decreases |attrs|
  {
    if attrs != [] {
      NonPxNone(css, attrs[1..]);
    }
  }

  /** The index of the first attribute of `attrs` whose value fails the NaN
      test, or `|attrs|` when none does. */
  function FirstUnparseable(css: Css, attrs: seq<Attr>, asFloats: bool): (k: nat)
    ensures k <= |attrs|
    decreases |attrs|
  {
    if attrs == [] || Unparseable(CssValue(css, attrs[0]), asFloats) then 0
    else 1 + FirstUnparseable(css, attrs[1..], asFloats)
  }

  /** Every attribute before the index passes the NaN test and the one at the index fails it. */
  lemma {:induction false} FirstUnparseableSpec(css: Css, attrs: seq<Attr>, asFloats: bool)
    ensures forall j :: 0 <= j < FirstUnparseable(css, attrs, asFloats) ==> !Unparseable(CssValue(css, attrs[j]), asFloats)
    ensures FirstUnparseable(css, attrs, asFloats) < |attrs| ==> Unparseable(CssValue(css, attrs[FirstUnparseable(css, attrs, asFloats)]), asFloats)
    decreases |attrs|
  {
    if attrs != [] && !Unparseable(CssValue(css, attrs[0]), asFloats) {
      FirstUnparseableSpec(css, attrs[1..], asFloats);
      var k := FirstUnparseable(css, attrs, asFloats);
      forall j | 0 <= j < k ensures !Unparseable(CssValue(css, attrs[j]), asFloats) {
        if j > 0 { assert attrs[1..][j - 1] == attrs[j]; }
      }
      if k < |attrs| { assert attrs[1..][k - 1] == attrs[k]; }
    }
  }

  /** The mapping over `attrs` (`coordAttributes.map(...)`), stopped by the first throw. */
  function ReadAttributes(css: Css, attrs: seq<Attr>, asFloats: bool): Reading<seq<Parsed>>
    decreases |attrs|
  {
    if attrs == [] then Reading([], Success([]))
    else
      var value := CssValue(css, attrs[0]);
      var warned := Warning(css, attrs[0]);
      if Unparseable(value, asFloats) then Reading(warned, Failure(CoordParseError(attrs[0])))
      else
        var rest := ReadAttributes(css, attrs[1..], asFloats);
        Reading(warned + rest.warnings,
                match rest.coords
                case Success(vs) => Success([ParseInt(value)] + vs)
                case Failure(e) => Failure(e))
  }

  /** The mapping throws exactly when some attribute fails the NaN test, and
      then for the first such attribute. */
  lemma {:induction false} ReadAttributesThrows(css: Css, attrs: seq<Attr>, asFloats: bool)
    ensures ReadAttributes(css, attrs, asFloats).coords.Success? <==> FirstUnparseable(css, attrs, asFloats) == |attrs|
    ensures ReadAttributes(css, attrs, asFloats).coords.Failure? ==>
      ReadAttributes(css, attrs, asFloats).coords.error == CoordParseError(attrs[FirstUnparseable(css, attrs, asFloats)])
    decreases |attrs|
  {
    if attrs != [] && !Unparseable(CssValue(css, attrs[0]), asFloats) {
      ReadAttributesThrows(css, attrs[1..], asFloats);
    }
  }

  /** When the mapping does not throw, it yields `parseInt` of every value, in order. */
  lemma {:induction false} ReadAttributesValues(css: Css, attrs: seq<Attr>, asFloats: bool)
    requires ReadAttributes(css, attrs, asFloats).coords.Success?
    ensures |ReadAttributes(css, attrs, asFloats).coords.value| == |attrs|
    ensures forall i :: 0 <= i < |attrs| ==>
      ReadAttributes(css, attrs, asFloats).coords.value[i] == ParseInt(CssValue(css, attrs[i]))
    decreases |attrs|
  {
    if attrs != [] {
      ReadAttributesValues(css, attrs[1..], asFloats);
      var vs := ReadAttributes(css, attrs, asFloats).coords.value;
      forall i | 0 <= i < |attrs| ensures vs[i] == ParseInt(CssValue(css, attrs[i])) {
        if i > 0 { assert attrs[1..][i - 1] == attrs[i]; }
      }
    }
  }

  /** The mapping warns about the non-pixel values among those it read: all
      of them, or those up to and including the one that threw. */
  lemma ReadAttributesWarnings(css: Css, attrs: seq<Attr>, asFloats: bool)
    ensures ReadAttributes(css, attrs, asFloats).warnings
      == NonPx(css, attrs[..Min(FirstUnparseable(css, attrs, asFloats) + 1, |attrs|)])
  {
    WarningsOfRead(css, attrs, asFloats);
    ReadCountSpec(css, attrs, asFloats);
  }

  /** How many attributes the mapping reads: up to and including the first that throws. */
  function ReadCount(css: Css, attrs: seq<Attr>, asFloats: bool): (n: nat)
    ensures n <= |attrs|
    decreases |attrs|
  {
    if attrs == [] then 0
    else if Unparseable(CssValue(css, attrs[0]), asFloats) then 1
    else 1 + ReadCount(css, attrs[1..], asFloats)
  }

  /** The count read is one past the first attribute that throws, or all of them. */
  lemma {:induction false} ReadCountSpec(css: Css, attrs: seq<Attr>, asFloats: bool)
    ensures ReadCount(css, attrs, asFloats) == Min(FirstUnparseable(css, attrs, asFloats) + 1, |attrs|)
    decreases |attrs|
  {
    if attrs != [] {
      ReadCountSpec(css, attrs[1..], asFloats);
    }
  }

  /** The warnings are those about the attributes read. */
  lemma {:induction false} WarningsOfRead(css: Css, attrs: seq<Attr>, asFloats: bool)
    ensures ReadAttributes(css, attrs, asFloats).warnings == NonPx(css, attrs[..ReadCount(css, attrs, asFloats)])
    decreases |attrs|
  {
    if attrs == [] {
      assert attrs[..0] == [];
    } else if Unparseable(CssValue(css, attrs[0]), asFloats) {
      NonPxPrefix(css, attrs, 0);
      assert attrs[1..][..0] == [];
      assert Warning(css, attrs[0]) + [] == Warning(css, attrs[0]);
    } else {
      WarningsOfRead(css, attrs[1..], asFloats);
      NonPxPrefix(css, attrs, ReadCount(css, attrs[1..], asFloats));
    }
  }

  /** The warnings about a non-empty prefix: the first attribute's, then those about the rest of it. */
  lemma NonPxPrefix(css: Css, attrs: seq<Attr>, n: nat)
    requires n < |attrs|
    ensures NonPx(css, attrs[..n + 1]) == Warning(css, attrs[0]) + NonPx(css, attrs[1..][..n])
  {
    var prefix := attrs[..n + 1];
    assert prefix[0] == attrs[0] && prefix[1..] == attrs[1..][..n];
  }

  /** `getElementCoords(element, asFloats)` on the element's computed style. */
  function GetElementCoords(css: Css, asFloats: bool): Reading<NumBox> {
    var read := ReadAttributes(css, CoordAttributes, asFloats);
    match read.coords
    case Success(vs) =>
      ReadAttributesValues(css, CoordAttributes, asFloats);
      Reading(read.warnings, Success(NumBox(vs[0], vs[1], vs[2], vs[3])))
    case Failure(e) => Reading(read.warnings, Failure(e))
  }

  /** The reader succeeds exactly when no attribute fails the NaN test, and
      otherwise throws for a value that fails it. */
  lemma GetElementCoordsThrows(css: Css, asFloats: bool)
    ensures GetElementCoords(css, asFloats).coords.Success? <==> forall a: Attr :: !Unparseable(CssValue(css, a), asFloats)
    ensures GetElementCoords(css, asFloats).coords.Failure? ==>
      Unparseable(CssValue(css, GetElementCoords(css, asFloats).coords.error.attr), asFloats)
  {
    ReadAttributesThrows(css, CoordAttributes, asFloats);
    FirstUnparseableSpec(css, CoordAttributes, asFloats);
    var k := FirstUnparseable(css, CoordAttributes, asFloats);
    if k == |CoordAttributes| {
      forall a: Attr ensures !Unparseable(CssValue(css, a), asFloats) {
        assert a == CoordAttributes[0] || a == CoordAttributes[1] || a == CoordAttributes[2] || a == CoordAttributes[3];
      }
    }
  }

  /** A successful read returns `parseInt` of each of the four values, in
      either mode. */
  lemma GetElementCoordsValues(css: Css, asFloats: bool)
    requires GetElementCoords(css, asFloats).coords.Success?
    ensures GetElementCoords(css, asFloats).coords.value
         == NumBox(ParseInt(css.top), ParseInt(css.left), ParseInt(css.width), ParseInt(css.height))
  {
    ReadAttributesValues(css, CoordAttributes, asFloats);
  }

  /** A successful read warns about every value that is not of the pixel form. */
  lemma GetElementCoordsWarnings(css: Css, asFloats: bool)
    requires GetElementCoords(css, asFloats).coords.Success?
    ensures GetElementCoords(css, asFloats).warnings == NonPx(css, CoordAttributes)
  {
    ReadAttributesThrows(css, CoordAttributes, asFloats);
    ReadAttributesWarnings(css, CoordAttributes, asFloats);
    assert CoordAttributes[..|CoordAttributes|] == CoordAttributes;
  }

  /** In integer mode every value of a successful read is an integer. */
  lemma IntegerModeYieldsIntegers(css: Css)
    requires GetElementCoords(css, false).coords.Success?
    ensures ParseInt(css.top).Int? && ParseInt(css.left).Int?
    ensures ParseInt(css.width).Int? && ParseInt(css.height).Int?
  {
    GetElementCoordsThrows(css, false);
    assert !Unparseable(CssValue(css, Top), false) && !Unparseable(CssValue(css, Left), false);
    assert !Unparseable(CssValue(css, Width), false) && !Unparseable(CssValue(css, Height), false);
  }

  /** The reader as the plugins call it, in integer mode, with the values as a box. */
  function ReadBox(css: Css): Result<Box, CoordError> {
    match GetElementCoords(css, false).coords
    case Success(nb) =>
      GetElementCoordsValues(css, false);
      IntegerModeYieldsIntegers(css);
      Success(Box(nb.top.value, nb.left.value, nb.width.value, nb.height.value))
    case Failure(e) => Failure(e)
  }

  /** `ReadBox` succeeds exactly when every value has a leading integer, and
      the box holds those integers. */
  lemma ReadBoxSpec(css: Css)
    ensures ReadBox(css).Success? <==> forall a: Attr :: ParseInt(CssValue(css, a)).Int?
    ensures ReadBox(css).Success? ==> forall a: Attr :: ParseInt(CssValue(css, a)) == Int(BoxValue(ReadBox(css).value, a))
    ensures ReadBox(css).Failure? ==> ParseInt(CssValue(css, ReadBox(css).error.attr)).NaN?
  {
    GetElementCoordsThrows(css, false);
    if ReadBox(css).Success? {
      GetElementCoordsValues(css, false);
    }
  }

  /** A run of digits followed by a non-digit is exactly what `LeadingDigits` takes. */
  lemma {:induction false} LeadingDigitsOfRun(ds: string, rest: string)
    requires forall i :: 0 <= i < |ds| ==> IsDecimalDigit(ds[i])
    requires rest == [] || DigitValue(rest[0]) >= 10
    ensures LeadingDigits(ds + rest, 10) == ds
  {
    if ds != [] {
      assert (ds + rest)[1..] == ds[1..] + rest;
      LeadingDigitsOfRun(ds[1..], rest);
    }
  }

  /** The digits `NatToDecimal` writes denote the number written. */
  lemma {:induction false} DecimalValue(n: nat)
    ensures DigitsValue(NatToDecimal(n), 10) == n
  {
    if n >= 10 {
      var s := NatToDecimal(n);
      assert s[..|s| - 1] == NatToDecimal(n / 10);
      DecimalValue(n / 10);
    }
  }

  /** The unsigned part of what the plugins write is read as the number written. */
  lemma ParseUnsignedDecimal(m: nat)
    ensures ParseUnsigned(NatToDecimal(m) + "px") == Int(m)
  {
    var d := NatToDecimal(m);
    var u := d + "px";
    assert u[0] == d[0];
    assert u[1] != 'x' && u[1] != 'X' by {
      if |d| == 1 { assert u[1] == 'p'; } else { assert u[1] == d[1]; }
    }
    LeadingDigitsOfRun(d, "px");
    DecimalValue(m);
  }

  /** What the plugins write starts with a sign or a digit, never with whitespace. */
  lemma PxStartsUnpadded(n: int)
    ensures Px(n) != [] && !IsWhiteSpace(Px(n)[0]) && TrimStart(Px(n)) == Px(n)
    ensures Px(n)[0] == '-' <==> n < 0
    ensures Px(n)[0] != '+'
  {
    var d := NatToDecimal(if n < 0 then -n else n);
    assert '0' <= d[0] <= '9';
    if n < 0 {
      assert Px(n) == ['-'] + (d + "px");
    } else {
      assert Px(n) == d + "px";
    }
  }

  /** What the plugins write, `n + 'px'`, is read back by `parseInt` as `n`. */
  lemma ParseIntPx(n: int)
    ensures ParseInt(Px(n)) == Int(n)
  {
    if n < 0 {
      ParseIntNegativePx(n);
    } else {
      ParseIntNonNegativePx(n);
    }
  }

  /** `parseInt` reads a negative pixel value through its minus sign. */
  lemma ParseIntNegativePx(n: int)
    requires n < 0
    ensures ParseInt(Px(n)) == Int(n)
  {
    var u := NatToDecimal(-n) + "px";
    assert Px(n) == ['-'] + u;
    assert (['-'] + u)[1..] == u;
    PxStartsUnpadded(n);
    ParseUnsignedDecimal(-n);
    assert ParseUnsigned(Px(n)[1..]) == Int(-n);
  }

  /** `parseInt` reads a non-negative pixel value from its first digit. */
  lemma ParseIntNonNegativePx(n: int)
    requires n >= 0
    ensures ParseInt(Px(n)) == Int(n)
  {
    PxStartsUnpadded(n);
    ParseUnsignedDecimal(n);
    var t := TrimStart(Px(n));
    assert t[0] != '-' && t[0] != '+' && t == NatToDecimal(n) + "px";
  }

  /** What the plugins write has the pixel form, so reading it back never warns. */
  lemma PxHasPxForm(n: int)
    ensures IsPxForm(Trim(Px(n)))
  {
    var d := NatToDecimal(if n < 0 then -n else n);
    var u := d + "px";
    assert Px(n) == (if n < 0 then ['-'] + u else u);
    assert !IsWhiteSpace(Px(n)[|Px(n)| - 1]);
    PxStartsUnpadded(n);
    TrimUnpadded(Px(n));
    if n < 0 { assert Px(n)[1..] == u; }
    assert forall i :: 0 <= i < |u| - 2 ==> IsDecimalDigit(u[i]) by {
      assert forall i :: 0 <= i < |u| - 2 ==> u[i] == d[i];
    }
  }

  /** Writing `n + 'px'` to one attribute changes exactly that attribute of the box read back. */
  lemma ReadBoxAfterWrite(css: Css, box: Box, a: Attr, n: int)
    requires ReadBox(css) == Success(box)
    ensures ReadBox(SetCss(css, a, Px(n))) == Success(SetBox(box, a, n))
  {
    var css' := SetCss(css, a, Px(n));
    var box' := SetBox(box, a, n);
    ReadBoxSpec(css);
    ParseIntPx(n);
    forall b: Attr ensures ParseInt(CssValue(css', b)) == Int(BoxValue(box', b)) {
      if b != a {
        assert CssValue(css', b) == CssValue(css, b);
      }
    }
    ReadBoxSpec(css');
    BoxExtensional(ReadBox(css').value, box');
  }

  /** A list of writes changes the box read back exactly as it changes a box of integers. */
  lemma {:induction false} ReadBoxAfterWrites(css: Css, box: Box, writes: seq<Write>)
    requires ReadBox(css) == Success(box)
    ensures ReadBox(ApplyWrites(css, writes)) == Success(ApplyBoxWrites(box, writes))
    decreases |writes|
  {
    if writes != [] {
      ReadBoxAfterWrite(css, box, writes[0].attr, writes[0].value);
      ReadBoxAfterWrites(SetCss(css, writes[0].attr, Px(writes[0].value)),
                         SetBox(box, writes[0].attr, writes[0].value), writes[1..]);
    }
  }

  /** Every value of a style written entirely by the plugins is `n + 'px'` for the box's `n`. */
  lemma RenderValues(box: Box, a: Attr)
    ensures ParseInt(CssValue(Render(box), a)) == Int(BoxValue(box, a))
    ensures IsPxForm(Trim(CssValue(Render(box), a)))
  {
    assert CssValue(Render(box), a) == Px(BoxValue(box, a));
    ParseIntPx(BoxValue(box, a));
    PxHasPxForm(BoxValue(box, a));
  }

  /** A style written entirely by the plugins reads back as the box. */
  lemma RenderRoundTrip(box: Box)
    ensures ReadBox(Render(box)) == Success(box)
  {
    var css := Render(box);
    forall a: Attr ensures ParseInt(CssValue(css, a)) == Int(BoxValue(box, a)) {
      RenderValues(box, a);
    }
    ReadBoxSpec(css);
    BoxExtensional(ReadBox(css).value, box);
  }

  /** Reading a style written entirely by the plugins warns about nothing. */
  lemma RenderWarnsNothing(box: Box)
    ensures GetElementCoords(Render(box), false).warnings == []
  {
    var css := Render(box);
    RenderRoundTrip(box);
    GetElementCoordsWarnings(css, false);
    forall i | 0 <= i < |CoordAttributes| ensures IsPxForm(Trim(CssValue(css, CoordAttributes[i]))) {
      RenderValues(box, CoordAttributes[i]);
    }
    NonPxNone(css, CoordAttributes);

  }

  /** `parseInt` keeps the sign and the leading digits: "-5px" is -5, "120px" is 120. */
  lemma ParseIntPxExamples()
    ensures ParseInt("-5px") == Int(-5)
    ensures ParseInt("120px") == Int(120)
  {
    ParseIntPx(-5);
    ParseIntPx(120);
    assert Px(-5) == "-5px";
    assert Px(120) == "120px";
  }

  /** A fractional value has no pixel form, so it is warned about. */
  lemma FractionalNotPx()
    ensures !IsPxForm(Trim("10.7px"))
  {
    var s := "10.7px";
    assert s[0] == '1' && s[|s| - 1] == 'x';
    TrimUnpadded(s);
    assert !IsDecimalDigit(s[2]);
  }

  /** `parseInt` reads the integer part of a fractional value. */
  lemma FractionalExample()
    ensures ParseInt("10.7px") == Int(10)
  {
    var s := "10.7px";
    assert s[0] == '1' && !IsWhiteSpace(s[0]) && TrimStart(s) == s;
    assert ParseUnsigned(s) == ParseDigits(s, 10);
    assert LeadingDigits(s, 10) == "10" by {
      LeadingDigitsOfRun("10", ".7px");
      assert "10" + ".7px" == s;
    }
    assert DigitsValue("10", 10) == 10 by { DecimalValue(10); assert NatToDecimal(10) == "10"; }
  }

  /** A fractional value passes the NaN test in both modes. */
  lemma FractionalIsNumber()
    ensures !Unparseable("10.7px", false) && !Unparseable("10.7px", true)
  {
    FractionalExample();
    var s := "10.7px";
    assert s[0] == '1' && !IsWhiteSpace(s[0]) && TrimStart(s) == s;
  }

  /** "px" has the pixel form but no number in either mode: a value "px" is
      not warned about, and the reader throws. */
  lemma BarePxExample(css: Css, a: Attr, asFloats: bool)
    requires CssValue(css, a) == "px"
    ensures IsPxForm("px") && ParseInt("px") == NaN && Unparseable("px", asFloats)
    ensures Warning(css, a) == []
    ensures GetElementCoords(css, asFloats).coords.Failure?
  {
    assert "px"[0] == 'p' && TrimStart("px") == "px";
    TrimUnpadded("px");
    GetElementCoordsThrows(css, asFloats);
  }
}
