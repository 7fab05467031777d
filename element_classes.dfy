/** The class-attribute helpers `addClassesToElement`, `elementHasClasses`
    and `removeClassesFromElement`, as functions from the element's `class`
    attribute to the new attribute or to the matching classes. The attribute
    is split on single spaces, so consecutive spaces give empty class names. */
module ElementClasses {
  import opened Wrappers
  import opened JsStrings

  /** `TElementClasses`: one name, an array of names, or an object whose
      values are names (its entries in property order). */
  datatype Classes = Single(name: string) | List(names: seq<string>) | Record(entries: seq<(string, string)>)

  /** The values of an object's entries, in order. */
  function Values(entries: seq<(string, string)>): (vs: seq<string>)
    ensures |vs| == |entries| && forall i :: 0 <= i < |entries| ==> vs[i] == entries[i].1
  {
    if entries == [] then [] else [entries[0].1] + Values(entries[1..])
  }

  /** The names the helpers work with: `[s]` for a string, the array itself,
      or `Object.values` of an object. */
  function Normalise(classes: Classes): seq<string> {
    match classes
    case Single(name) => [name]
    case List(names) => names
    case Record(entries) => Values(entries)
  }

  /** `getAttribute('class') || ''`: a missing attribute reads as empty. */
  function AttributeOrEmpty(attribute: Option<string>): string {
    attribute.GetOr("")
  }

  /** `s.split(' ')`: the pieces between single spaces; the empty string gives one empty piece. */
  function Split(s: string): (parts: seq<string>)
    ensures |parts| >= 1
    ensures forall i :: 0 <= i < |parts| ==> ' ' !in parts[i]
  {
    if s == [] then [""]
    else
      var rest := Split(s[1..]);
      if s[0] == ' ' then [""] + rest else [[s[0]] + rest[0]] + rest[1..]
  }

  /** `parts.join(' ')` */
  function Join(parts: seq<string>): string {
    if parts == [] then ""
    else if |parts| == 1 then parts[0]
    else parts[0] + " " + Join(parts[1..])
  }

  /** `s.replace(/\./gim, '')`: every `'.'` removed. */
  function RemoveDots(s: string): (r: string)
    ensures '.' !in r
    ensures forall c :: c != '.' ==> (c in r <==> c in s)
  {
    if s == [] then [] else (if s[0] == '.' then [] else [s[0]]) + RemoveDots(s[1..])
  }

  /** The parts whose membership in `search` is `keep`, in order:
      `filter(c => search.includes(c))` or its negation. */
  function Keep(parts: seq<string>, search: seq<string>, keep: bool): (r: seq<string>)
    ensures |r| <= |parts|
    ensures forall x :: x in r <==> x in parts && (x in search) == keep
  {
    if parts == [] then []
    else (if (parts[0] in search) == keep then [parts[0]] else []) + Keep(parts[1..], search, keep)
  }

  /** `addClassesToElement`: the new `class` attribute. */
  function AddClasses(attribute: Option<string>, classes: Classes): string {
    Trim(RemoveDots(Join(Split(AttributeOrEmpty(attribute)) + Normalise(classes))))
  }

  /** `elementHasClasses`: the element's classes that are among `classes`, in attribute order. */
  function HasClasses(attribute: Option<string>, classes: Classes): seq<string> {
    Keep(Split(AttributeOrEmpty(attribute)), Normalise(classes), true)
  }

  /** `removeClassesFromElement`: the new `class` attribute. */
  function RemoveClasses(attribute: Option<string>, classes: Classes): string {
    Join(Keep(Split(AttributeOrEmpty(attribute)), Normalise(classes), false))
  }

  /** Joining the pieces of a split gives back the string. */
  lemma {:induction false} JoinSplit(s: string)
    ensures Join(Split(s)) == s
  {
    if s != [] {
      JoinSplit(s[1..]);
      var rest := Split(s[1..]);
      if s[0] != ' ' && |rest| > 1 {
        assert Join(Split(s)) == [s[0]] + rest[0] + " " + Join(rest[1..]);
      }
    }
  }

  /** A piece without spaces in front of a string becomes part of its first piece. */
  lemma {:induction false} SplitPrefix(w: string, s: string)
    requires ' ' !in w
    ensures Split(w + s) == [w + Split(s)[0]] + Split(s)[1..]
  {
    if w == [] {
      assert w + s == s && w + Split(s)[0] == Split(s)[0];
    } else {
      assert (w + s)[1..] == w[1..] + s;
      assert (w + s)[0] == w[0];
      SplitPrefix(w[1..], s);
      var rest := Split(w[1..] + s);
      assert rest[0] == w[1..] + Split(s)[0] && rest[1..] == Split(s)[1..];
      assert Split(w + s) == [[w[0]] + rest[0]] + rest[1..];
      assert [w[0]] + w[1..] == w;
      assert [w[0]] + (w[1..] + Split(s)[0]) == ([w[0]] + w[1..]) + Split(s)[0];
    }
  }

  /** Splitting joined pieces without spaces gives back the pieces. */
  lemma {:induction false} SplitJoin(parts: seq<string>)
    requires |parts| >= 1 && forall i :: 0 <= i < |parts| ==> ' ' !in parts[i]
    ensures Split(Join(parts)) == parts
  {
    if |parts| == 1 {
      SplitPrefix(parts[0], "");
      assert parts[0] + "" == parts[0];
    } else {
      var tail := Join(parts[1..]);
      SplitJoin(parts[1..]);
      assert Join(parts) == parts[0] + (" " + tail);
      SplitPrefix(parts[0], " " + tail);
      assert (" " + tail)[1..] == tail;
      assert parts[0] + "" == parts[0];
    }
  }

  /** `Keep` twice with the same test is `Keep` once. */
  lemma {:induction false} KeepIdempotent(parts: seq<string>, search: seq<string>, keep: bool)
    ensures Keep(Keep(parts, search, keep), search, keep) == Keep(parts, search, keep)
  {
    if parts != [] {
      KeepIdempotent(parts[1..], search, keep);
      var head := if (parts[0] in search) == keep then [parts[0]] else [];
      KeepAppend(head, Keep(parts[1..], search, keep), search, keep);
    }
  }

  /** `Keep` distributes over concatenation. */
  lemma {:induction false} KeepAppend(a: seq<string>, b: seq<string>, search: seq<string>, keep: bool)
    ensures Keep(a + b, search, keep) == Keep(a, search, keep) + Keep(b, search, keep)
  {
    if a == [] {
      assert a + b == b;
    } else {
      assert (a + b)[1..] == a[1..] + b && (a + b)[0] == a[0];
      KeepAppend(a[1..], b, search, keep);
      var head := if (a[0] in search) == keep then [a[0]] else [];
      calc {
        Keep(a + b, search, keep);
        head + Keep(a[1..] + b, search, keep);
        head + (Keep(a[1..], search, keep) + Keep(b, search, keep));
        (head + Keep(a[1..], search, keep)) + Keep(b, search, keep);
      }
    }
  }

  /** Keeping and dropping split the parts: every part lands in exactly one of the two. */
  lemma {:induction false} KeepPartition(parts: seq<string>, search: seq<string>)
    ensures |Keep(parts, search, true)| + |Keep(parts, search, false)| == |parts|
  {
    if parts != [] {
      KeepPartition(parts[1..], search);
    }
  }

  /** A piece of a `Keep` comes from the pieces it filtered, so it has no space either. */
  lemma KeepHasNoSpaces(parts: seq<string>, search: seq<string>, keep: bool)
    requires forall i :: 0 <= i < |parts| ==> ' ' !in parts[i]
    ensures forall i :: 0 <= i < |Keep(parts, search, keep)| ==> ' ' !in Keep(parts, search, keep)[i]
  {
    var r := Keep(parts, search, keep);
    forall i | 0 <= i < |r| ensures ' ' !in r[i] {
      assert r[i] in r;
      var k :| 0 <= k < |parts| && parts[k] == r[i];
    }
  }

  /** `has` answers with the element's classes that are searched for: a class
      is in the answer exactly when the element has it and it is searched for,
      and the answer is empty exactly when no class of the element is. */
  lemma HasClassesSpec(attribute: Option<string>, classes: Classes)
    ensures forall x :: (x in HasClasses(attribute, classes)
                         <==> x in Split(AttributeOrEmpty(attribute)) && x in Normalise(classes))
    ensures HasClasses(attribute, classes) == []
      <==> forall x :: x in Split(AttributeOrEmpty(attribute)) ==> x !in Normalise(classes)
  {
    var r := HasClasses(attribute, classes);
    if r != [] {
      assert r[0] in r;
    }
  }

  /** `remove` drops every searched-for class and keeps every other one; with
      `has` it splits the element's classes, each class going to one side. */
  lemma RemoveClassesSpec(attribute: Option<string>, classes: Classes)
    ensures var remaining := Keep(Split(AttributeOrEmpty(attribute)), Normalise(classes), false);
      && RemoveClasses(attribute, classes) == Join(remaining)
      && (forall x :: x in remaining <==> x in Split(AttributeOrEmpty(attribute)) && x !in Normalise(classes))
      && |HasClasses(attribute, classes)| + |remaining| == |Split(AttributeOrEmpty(attribute))|
  {
    KeepPartition(Split(AttributeOrEmpty(attribute)), Normalise(classes));
  }

  /** Removing the same classes twice is removing them once. */
  lemma RemoveIdempotent(attribute: Option<string>, classes: Classes)
    ensures RemoveClasses(Some(RemoveClasses(attribute, classes)), classes) == RemoveClasses(attribute, classes)
  {
    var search := Normalise(classes);
    var remaining := Keep(Split(AttributeOrEmpty(attribute)), search, false);
    KeepHasNoSpaces(Split(AttributeOrEmpty(attribute)), search, false);
    if remaining == [] {
      assert Join(remaining) == "";
    } else {
      SplitJoin(remaining);
      KeepIdempotent(Split(AttributeOrEmpty(attribute)), search, false);
    }
  }

  /** A missing or empty attribute adds no leading space: the result is as if
      only the new classes were joined. */
  lemma AddToEmpty(attribute: Option<string>, classes: Classes)
    requires attribute == None || attribute == Some("")
    ensures AddClasses(attribute, classes) == Trim(RemoveDots(Join(Normalise(classes))))
  {
    var names := Normalise(classes);
    assert Split(AttributeOrEmpty(attribute)) == [""];
    if names != [] {
      assert Join([""] + names) == " " + Join(names) by {
        assert ([""] + names)[1..] == names;
      }
      assert RemoveDots(" " + Join(names)) == " " + RemoveDots(Join(names)) by {
        assert (" " + Join(names))[1..] == Join(names);
      }
      assert TrimStart(" " + RemoveDots(Join(names))) == TrimStart(RemoveDots(Join(names))) by {
        assert (" " + RemoveDots(Join(names)))[1..] == RemoveDots(Join(names));
      }
    }
  }

  /** `add` appends and does not deduplicate. For new classes that are all
      tidy (no dots, no whitespace, none empty), whatever the attribute holds:
      the classes after `add` are the element's classes as `add` rewrites
      them (dots stripped, leading whitespace cut; nothing when that leaves
      nothing), followed by the new ones, repeats included. For an element
      whose classes are already tidy and single-spaced, that rewrite changes
      nothing: the old classes come first, unchanged. */
  lemma AddAppends(attribute: Option<string>, classes: Classes)
    requires AllTidy(Normalise(classes))
    ensures var kept := TrimStart(RemoveDots(AttributeOrEmpty(attribute)));
      Normalise(classes) != [] ==>
        Split(AddClasses(attribute, classes)) == (if kept == [] then [] else Split(kept)) + Normalise(classes)
    ensures AllTidy(Split(AttributeOrEmpty(attribute))) ==>
      Split(AddClasses(attribute, classes)) == Split(AttributeOrEmpty(attribute)) + Normalise(classes)
  {
    var a := AttributeOrEmpty(attribute);
    var names := Normalise(classes);
    var kept := TrimStart(RemoveDots(a));
    TidyPieces(names);
    if names != [] {
      AddRewrites(attribute, classes);
      SplitJoin(names);
      if kept != [] {
        SplitAppendSpace(kept, Join(names));
      }
    }
    if AllTidy(Split(a)) {
      TidyAttribute(a);
      if names == [] {
        assert Split(a) + names == Split(a);
        JoinSplit(a);
      }
    }
  }

  /** The attribute `add` writes for tidy new classes: the element's classes
      with dots stripped and leading whitespace cut, a space, and the new
      classes; only the new classes when nothing of the old is left. */
  lemma AddRewrites(attribute: Option<string>, classes: Classes)
    requires AllTidy(Normalise(classes)) && Normalise(classes) != []
    ensures var kept := TrimStart(RemoveDots(AttributeOrEmpty(attribute)));
      AddClasses(attribute, classes)
      == if kept == [] then Join(Normalise(classes)) else kept + " " + Join(Normalise(classes))
  {
    var a := AttributeOrEmpty(attribute);
    var names := Normalise(classes);
    var j := Join(names);
    JoinSplit(a);
    TidyPieces(names);
    JoinAppend(Split(a), names);
    NoDotsJoin(names);
    JoinStarts(names);
    JoinEnds(names);
    assert !IsWhiteSpace(j[0]) && !IsWhiteSpace(j[|j| - 1]) by {
      assert Tidy(names[0]) && Tidy(names[|names| - 1]);
    }
    RemoveDotsSpace(a, j);
    TrimSpace(RemoveDots(a), j);
  }

  /** Removing dots from two strings joined by a space, the second without dots. */
  lemma RemoveDotsSpace(a: string, j: string)
    requires RemoveDots(j) == j
    ensures RemoveDots(a + " " + j) == RemoveDots(a) + " " + j
  {
    RemoveDotsAppend(a + " ", j);
    RemoveDotsAppend(a, " ");
    assert RemoveDots(" ") == " ";
  }

  /** Trimming two strings joined by a space, the second without whitespace at its ends. */
  lemma TrimSpace(b: string, j: string)
    requires j != [] && !IsWhiteSpace(j[0]) && !IsWhiteSpace(j[|j| - 1])
    ensures Trim(b + " " + j) == if TrimStart(b) == [] then j else TrimStart(b) + " " + j
  {
    var c := " " + j;
    assert b + " " + j == b + c;
    TrimStartAppend(b, c);
    if TrimStart(b) == [] {
      assert c[0] == ' ' && c[1..] == j;
      assert TrimStart(c) == TrimStart(j);
      TrimUnpadded(j);
    } else {
      TrimEndUnpadded(TrimStart(b) + c);
    }
  }

  /** An attribute of tidy, single-spaced classes is left as it is by the
      rewrite `add` applies to it. */
  lemma TidyAttribute(a: string)
    requires AllTidy(Split(a))
    ensures TrimStart(RemoveDots(a)) == a && Trim(RemoveDots(a)) == a
  {
    var parts := Split(a);
    JoinSplit(a);
    TidyPieces(parts);
    NoDotsJoin(parts);
    JoinStarts(parts);
    JoinEnds(parts);
    assert !IsWhiteSpace(a[0]) && !IsWhiteSpace(a[|a| - 1]) by {
      assert Tidy(parts[0]) && Tidy(parts[|parts| - 1]);
    }
    TrimUnpadded(a);
  }

  /** Every piece is a tidy, non-empty class name. */
  predicate AllTidy(parts: seq<string>) {
    forall i :: 0 <= i < |parts| ==> Tidy(parts[i]) && parts[i] != []
  }

  /** Tidy pieces hold neither a space nor a dot. */
  lemma TidyPieces(parts: seq<string>)
    requires AllTidy(parts)
    ensures forall i :: 0 <= i < |parts| ==> ' ' !in parts[i] && '.' !in parts[i]
  {
    forall i | 0 <= i < |parts| ensures ' ' !in parts[i] && '.' !in parts[i] {
      assert Tidy(parts[i]);
    }
  }

  /** Joining two non-empty lists puts one space between their joins. */
  lemma {:induction false} JoinAppend(ps: seq<string>, qs: seq<string>)
    requires |ps| >= 1 && |qs| >= 1
    ensures Join(ps + qs) == Join(ps) + " " + Join(qs)
  {
    if |ps| == 1 {
      assert (ps + qs)[1..] == qs;
    } else {
      assert (ps + qs)[1..] == ps[1..] + qs;
      JoinAppend(ps[1..], qs);
    }
  }

  /** A space in a string splits it into the pieces of each side. */
  lemma {:induction false} SplitAppendSpace(x: string, y: string)
    ensures Split(x + " " + y) == Split(x) + Split(y)
  {
    if x == [] {
      assert x + " " + y == " " + y;
      assert (" " + y)[1..] == y;
    } else {
      var s := x + " " + y;
      assert s[0] == x[0] && s[1..] == x[1..] + " " + y;
      SplitAppendSpace(x[1..], y);
      var rest := Split(x[1..]);
      if x[0] != ' ' {
        assert (rest + Split(y))[0] == rest[0];
        assert (rest + Split(y))[1..] == rest[1..] + Split(y);
      }
    }
  }

  /** Every piece with its dots removed. */
  function StripDots(parts: seq<string>): (r: seq<string>)
    ensures |r| == |parts| && forall i :: 0 <= i < |parts| ==> r[i] == RemoveDots(parts[i])
  {
    if parts == [] then [] else [RemoveDots(parts[0])] + StripDots(parts[1..])
  }

  /** Removing the dots of joined pieces removes them piece by piece. */
  lemma {:induction false} RemoveDotsJoin(parts: seq<string>)
    ensures RemoveDots(Join(parts)) == Join(StripDots(parts))
  {
    if |parts| > 1 {
      RemoveDotsJoin(parts[1..]);
      RemoveDotsAppend(parts[0] + " ", Join(parts[1..]));
      RemoveDotsAppend(parts[0], " ");
      assert RemoveDots(" ") == " ";
      assert StripDots(parts)[1..] == StripDots(parts[1..]);
    }
  }

  /** The pieces of a string without its dots are its pieces without theirs. */
  lemma SplitRemoveDots(s: string)
    ensures Split(RemoveDots(s)) == StripDots(Split(s))
  {
    var parts := Split(s);
    JoinSplit(s);
    RemoveDotsJoin(parts);
    SplitJoin(StripDots(parts));
  }

  /** Cutting leading whitespace keeps every piece that starts with something else. */
  lemma {:induction false} TrimStartKeepsPiece(s: string, name: string)
    requires name != [] && !IsWhiteSpace(name[0]) && name in Split(s)
    ensures name in Split(TrimStart(s))
    decreases |s|
  {
    if s != [] && IsWhiteSpace(s[0]) {
      var rest := Split(s[1..]);
      if s[0] != ' ' {
        assert name != [s[0]] + rest[0];
      }
      assert name in rest;
      TrimStartKeepsPiece(s[1..], name);
    }
  }

  /** A name or attribute with no dot and no whitespace at all. */
  predicate Tidy(s: string) {
    forall i :: 0 <= i < |s| ==> s[i] != '.' && !IsWhiteSpace(s[i])
  }

  /** Removing dots from a concatenation removes them from each half. */
  lemma {:induction false} RemoveDotsAppend(a: string, b: string)
    ensures RemoveDots(a + b) == RemoveDots(a) + RemoveDots(b)
  {
    if a == [] {
      assert a + b == b;
    } else {
      assert (a + b)[1..] == a[1..] + b && (a + b)[0] == a[0];
      RemoveDotsAppend(a[1..], b);
      var head := if a[0] == '.' then [] else [a[0]];
      calc {
        RemoveDots(a + b);
        head + RemoveDots(a[1..] + b);
        head + (RemoveDots(a[1..]) + RemoveDots(b));
        (head + RemoveDots(a[1..])) + RemoveDots(b);
      }
    }
  }

  /** A string without dots is unchanged by removing dots. */
  lemma {:induction false} RemoveDotsNone(s: string)
    requires '.' !in s
    ensures RemoveDots(s) == s
  {
    if s != [] {
      assert s[0] in s;
      assert forall c :: c in s[1..] ==> c in s;
      RemoveDotsNone(s[1..]);
    }
  }

  /** Joined pieces without dots have no dot: removing dots changes nothing. */
  lemma {:induction false} NoDotsJoin(parts: seq<string>)
    requires forall i :: 0 <= i < |parts| ==> '.' !in parts[i]
    ensures RemoveDots(Join(parts)) == Join(parts)
  {
    if |parts| == 1 {
      RemoveDotsNone(parts[0]);
    } else if |parts| > 1 {
      NoDotsJoin(parts[1..]);
      RemoveDotsNone(parts[0]);
      RemoveDotsAppend(parts[0] + " ", Join(parts[1..]));
      RemoveDotsAppend(parts[0], " ");
    }
  }

  /** Joined pieces start like their first piece. */
  lemma JoinStarts(parts: seq<string>)
    requires |parts| >= 1 && parts[0] != []
    ensures Join(parts) != [] && Join(parts)[0] == parts[0][0]
  {
    if |parts| > 1 {
      assert Join(parts) == parts[0] + (" " + Join(parts[1..]));
    }
  }

  /** Joined pieces end like their last piece. */
  lemma {:induction false} JoinEnds(parts: seq<string>)
    requires |parts| >= 1 && parts[|parts| - 1] != []
    ensures Join(parts) != []
    ensures Join(parts)[|Join(parts)| - 1] == parts[|parts| - 1][|parts[|parts| - 1]| - 1]
  {
    if |parts| > 1 {
      JoinEnds(parts[1..]);
      assert Join(parts) == (parts[0] + " ") + Join(parts[1..]);
    }
  }

  /** Adding a class the element already has repeats it, whatever else the
      attribute holds: the class is appended after the element's classes as
      `add` rewrites them, it is still among those, and `has` finds it once
      more than among them, so at least twice. For tidy, single-spaced
      classes `has` finds it exactly once more than before. */
  lemma AddRepeats(attribute: Option<string>, name: string)
    requires Tidy(name) && name != [] && name in Split(AttributeOrEmpty(attribute))
    ensures var kept := Split(TrimStart(RemoveDots(AttributeOrEmpty(attribute))));
      var after := AddClasses(attribute, Single(name));
      && Split(after) == kept + [name]
      && name in kept
      && |HasClasses(Some(after), Single(name))| == |Keep(kept, [name], true)| + 1
      && |HasClasses(Some(after), Single(name))| >= 2
    ensures AllTidy(Split(AttributeOrEmpty(attribute))) ==>
      |HasClasses(Some(AddClasses(attribute, Single(name))), Single(name))|
      == |HasClasses(attribute, Single(name))| + 1
  {
    var a := AttributeOrEmpty(attribute);
    var b := RemoveDots(a);
    var kept := Split(TrimStart(b));
    assert AllTidy([name]);
    AddAppends(attribute, Single(name));
    SplitRemoveDots(a);
    var k :| 0 <= k < |Split(a)| && Split(a)[k] == name;
    RemoveDotsNone(name);
    assert StripDots(Split(a))[k] == name;
    assert !IsWhiteSpace(name[0]);
    TrimStartKeepsPiece(b, name);
    assert TrimStart(b) != [];
    var after := AddClasses(attribute, Single(name));
    assert Split(after) == kept + [name];
    KeepAppend(kept, [name], [name], true);
    assert Keep([name], [name], true) == [name] by {
      assert [name][1..] == [];
    }
    assert name in Keep(kept, [name], true);
    if AllTidy(Split(a)) {
      KeepAppend(Split(a), [name], [name], true);
    }
  }

  /** `add` strips dots: adding `.name` adds `name`. */
  lemma AddStripsDots(name: string)
    requires Tidy(name) && name != []
    ensures AddClasses(None, Single("." + name)) == name
  {
    AddToEmpty(None, Single("." + name));
    assert Join(Normalise(Single("." + name))) == "." + name;
    assert RemoveDots("." + name) == name by {
      assert ("." + name)[1..] == name;
      RemoveDotsNone(name);
    }
    TrimUnpadded(name);
  }

  /** `remove` compares names as given and strips no dot: removing `.name` leaves `name`. */
  lemma RemoveKeepsDottedMismatch(name: string)
    requires Tidy(name) && name != []
    ensures RemoveClasses(Some(name), Single("." + name)) == name
  {
    SplitPrefix(name, "");
    assert name + "" == name;
    assert name != "." + name by {
      assert ("." + name)[0] == '.' && name[0] != '.';
    }
    assert Keep([name], ["." + name], false) == [name] by {
      assert [name][1..] == [];
    }
  }
}
