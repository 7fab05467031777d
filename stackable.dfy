/** The stacking plugin `makeStackable`: the elements that carry a marker
    class are stacked by their `z-index`. A new member goes one above the
    number of distinct z-indices in use; bringing a member to the top lowers
    by one every member between its old place and the top, closing the gap,
    and puts it at the top. */
module Stackable {

  /** The inline `z-index` of an element as the browser serializes it: empty,
      a keyword such as `auto`, or an integer. */
  datatype ZIndex = Unset | Keyword(word: string) | Level(n: int)

  /** How `bringToTop` was called: directly, or as a pointer-down listener. */
  datatype Invocation = Direct | Pointer(isPrimary: bool)

  /** `getElements()`: the members with a z-index, keyed by it; for a
      z-index several members share, the last of them in document order. */
  function Elements(zs: seq<ZIndex>): map<ZIndex, nat> {
    if zs == [] then map[]
    else if zs[|zs| - 1] == Unset then Elements(zs[..|zs| - 1])
    else Elements(zs[..|zs| - 1])[zs[|zs| - 1] := |zs| - 1]
  }

  /** The map holds exactly the z-indices in use, each for a member that
      carries it, and no member after that one carries it too. */
  lemma {:induction false} ElementsSpec(zs: seq<ZIndex>)
    ensures forall k :: k in Elements(zs) ==> k != Unset && Elements(zs)[k] < |zs| && zs[Elements(zs)[k]] == k
    ensures forall j :: 0 <= j < |zs| && zs[j] != Unset ==> zs[j] in Elements(zs) && j <= Elements(zs)[zs[j]]
    decreases |zs|
  {
    if zs != [] {
      var last := |zs| - 1;
      ElementsSpec(zs[..last]);
      assert forall j :: 0 <= j < last ==> zs[..last][j] == zs[j];
    }
  }

  /** `parseInt(originalZIndex) + 1`, where the loop starts; a z-index that is
      not a number makes the loop run zero times, which starting above the
      top models. */
  function LoopStart(z: ZIndex, top: nat): int {
    if z.Level? then z.n + 1 else top + 1
  }

  /** Member `j` once the loop has visited the keys `lo` to `hi - 1`: lowered by
      one when it is the member the map holds for such a key. */
  function LoweredAt(zs: seq<ZIndex>, m: map<ZIndex, nat>, lo: int, hi: int, j: nat): ZIndex
    requires j < |zs|
  {
    if zs[j].Level? && lo <= zs[j].n < hi && zs[j] in m && m[zs[j]] == j then Level(zs[j].n - 1) else zs[j]
  }

  /** All members once the loop has visited the keys `lo` to `hi - 1`. */
  function Lowered(zs: seq<ZIndex>, m: map<ZIndex, nat>, lo: int, hi: int): (r: seq<ZIndex>)
    ensures |r| == |zs| && forall j :: 0 <= j < |zs| ==> r[j] == LoweredAt(zs, m, lo, hi, j)
  {
    seq(|zs|, j requires 0 <= j < |zs| => LoweredAt(zs, m, lo, hi, j))
  }

  /** Visiting key `i` lowers the one member the map holds for it, if any. */
  lemma LoweredAtStep(zs: seq<ZIndex>, lo: int, i: int, j: nat)
    requires j < |zs| && lo <= i
    ensures var m := Elements(zs);
      LoweredAt(zs, m, lo, i + 1, j)
        == if Level(i) in m && m[Level(i)] == j then Level(i - 1) else LoweredAt(zs, m, lo, i, j)
  {
    ElementsSpec(zs);
  }

  /** The z-indices after `bringToTop` on member `self`. */
  function BringToTopResult(zs: seq<ZIndex>, self: nat): seq<ZIndex>
    requires self < |zs|
  {
    var m := Elements(zs);
    var top := |m|;
    if zs[self] == Level(top) then zs
    else Lowered(zs, m, LoopStart(zs[self], top), top + 1)[self := Level(top)]
  }

  /** The z-indices after member `self` joins the stack. */
  function Joined(zs: seq<ZIndex>, self: nat): seq<ZIndex>
    requires self < |zs|
  {
    zs[self := Level(|Elements(zs)| + 1)]
  }

  /** The z-indices are exactly `1` to `N` for `N` members: integers in that
      range, no two alike. */
  predicate Dense(zs: seq<ZIndex>) {
    && (forall j :: 0 <= j < |zs| ==> zs[j].Level? && 1 <= zs[j].n <= |zs|)
    && (forall i, j :: 0 <= i < j < |zs| ==> zs[i] != zs[j])
  }

  /** With distinct z-indices, every member is the one the map holds for its
      z-index, and the map has one entry per member. */
  lemma {:induction false} ElementsOfDistinct(zs: seq<ZIndex>)
    requires forall j :: 0 <= j < |zs| ==> zs[j] != Unset
    requires forall i, j :: 0 <= i < j < |zs| ==> zs[i] != zs[j]
    ensures forall j :: 0 <= j < |zs| ==> zs[j] in Elements(zs) && Elements(zs)[zs[j]] == j
    ensures |Elements(zs)| == |zs|
    decreases |zs|
  {
    if zs != [] {
      var last := |zs| - 1;
      ElementsOfDistinct(zs[..last]);
      ElementsSpec(zs[..last]);
      assert zs[last] !in Elements(zs[..last]);
    }
  }

  /** A member already at the top stays there and nothing changes. */
  lemma BringToTopAtTopIsNoOp(zs: seq<ZIndex>, self: nat)
    requires self < |zs| && zs[self] == Level(|Elements(zs)|)
    ensures BringToTopResult(zs, self) == zs
  {
  }

  /** Otherwise the member ends at the top, `N`, the members the loop visits,
      those between its old z-index and `N`, go down by one, and the rest keep
      their z-index. */
  lemma BringToTopMoves(zs: seq<ZIndex>, self: nat)
    requires self < |zs| && zs[self] != Level(|Elements(zs)|)
    ensures var r := BringToTopResult(zs, self);
      var top := |Elements(zs)|;
      && |r| == |zs| && r[self] == Level(top)
      && forall j :: 0 <= j < |zs| && j != self ==>
           r[j] == (if zs[j].Level? && LoopStart(zs[self], top) <= zs[j].n <= top
                        && zs[j] in Elements(zs) && Elements(zs)[zs[j]] == j
                    then Level(zs[j].n - 1) else zs[j])
  {
  }

  /** `bringToTop` keeps the stack dense. */
  lemma BringToTopKeepsDense(zs: seq<ZIndex>, self: nat)
    requires self < |zs| && Dense(zs)
    ensures Dense(BringToTopResult(zs, self))
  {
    ElementsOfDistinct(zs);
    var r := BringToTopResult(zs, self);
    var n := |zs|;
    var o := zs[self].n;
    if zs[self] != Level(n) {
      assert o < n;
      forall j | 0 <= j < n && j != self
        ensures r[j] == (if o < zs[j].n then Level(zs[j].n - 1) else zs[j])
      {
        assert zs[j] != zs[self];
      }
      forall i, j | 0 <= i < j < n ensures r[i] != r[j] {
        assert zs[i] != zs[j];
        if i != self && j != self {
          assert zs[i] != zs[self] && zs[j] != zs[self];
        }
      }
    }
  }

  /** The number of members that carry a z-index. */
  function Count(zs: seq<ZIndex>): (c: nat)
    ensures c <= |zs|
  {
    if zs == [] then 0 else Count(zs[..|zs| - 1]) + (if zs[|zs| - 1] == Unset then 0 else 1)
  }

  /** A stack some of whose members may not carry a z-index yet: those that
      do carry distinct integers from `1` to the number of them. */
  predicate Stacked(zs: seq<ZIndex>) {
    && (forall j :: 0 <= j < |zs| ==> zs[j] == Unset || (zs[j].Level? && 1 <= zs[j].n <= Count(zs)))
    && (forall i, j :: 0 <= i < j < |zs| && zs[i] != Unset ==> zs[i] != zs[j])
  }

  /** With distinct z-indices among the members that carry one, each such
      member is the one the map holds for its z-index, and the map has one
      entry per such member. */
  lemma {:induction false} ElementsOfDistinctSet(zs: seq<ZIndex>)
    requires forall i, j :: 0 <= i < j < |zs| && zs[i] != Unset ==> zs[i] != zs[j]
    ensures forall j :: 0 <= j < |zs| && zs[j] != Unset ==> zs[j] in Elements(zs) && Elements(zs)[zs[j]] == j
    ensures |Elements(zs)| == Count(zs)
    decreases |zs|
  {
    if zs != [] {
      var last := |zs| - 1;
      ElementsOfDistinctSet(zs[..last]);
      ElementsSpec(zs[..last]);
      if zs[last] != Unset {
        assert zs[last] !in Elements(zs[..last]);
      }
    }
  }

  /** Two lists with their unset members at the same places count alike. */
  lemma {:induction false} CountSamePlaces(a: seq<ZIndex>, b: seq<ZIndex>)
    requires |a| == |b| && forall j :: 0 <= j < |a| ==> (a[j] == Unset <==> b[j] == Unset)
    ensures Count(a) == Count(b)
    decreases |a|
  {
    if a != [] {
      CountSamePlaces(a[..|a| - 1], b[..|b| - 1]);
    }
  }

  /** `bringToTop` on a member of a stack that not every member has joined
      yet: the members without a z-index keep none, and the others stay
      distinct integers from `1` to the number of them. */
  lemma BringToTopKeepsStacked(zs: seq<ZIndex>, self: nat)
    requires self < |zs| && Stacked(zs) && zs[self].Level?
    ensures forall j :: 0 <= j < |zs| ==> (BringToTopResult(zs, self)[j] == Unset <==> zs[j] == Unset)
    ensures Stacked(BringToTopResult(zs, self))
  {
    ElementsOfDistinctSet(zs);
    var r := BringToTopResult(zs, self);
    var n := Count(zs);
    var o := zs[self].n;
    if zs[self] != Level(n) {
      assert o < n;
      forall j | 0 <= j < |zs| && j != self
        ensures r[j] == (if zs[j].Level? && o < zs[j].n then Level(zs[j].n - 1) else zs[j])
      {
        if zs[j] != Unset {
          assert zs[j] != zs[self];
        }
      }
      CountSamePlaces(zs, r);
      forall i, j | 0 <= i < j < |zs| && r[i] != Unset ensures r[i] != r[j] {
        if zs[j] != Unset {
          assert zs[i] != zs[j];
          if i != self && j != self {
            assert zs[i] != zs[self] && zs[j] != zs[self];
          }
        }
      }
    }
  }

  /** `bringToTop` keeps the order of every pair of other members of a dense stack. */
  lemma BringToTopKeepsOrder(zs: seq<ZIndex>, self: nat, i: nat, j: nat)
    requires self < |zs| && Dense(zs)
    requires i < |zs| && j < |zs| && i != self && j != self
    requires zs[i].n < zs[j].n
    ensures BringToTopResult(zs, self)[i].n < BringToTopResult(zs, self)[j].n
  {
    ElementsOfDistinct(zs);
    assert zs[i] != zs[self] && zs[j] != zs[self];
  }

  /** The member at `self` and the others, in document order. */
  function Others(zs: seq<ZIndex>, self: nat): (r: seq<ZIndex>)
    requires self < |zs|
    ensures |r| == |zs| - 1
    ensures forall j :: 0 <= j < |zs| && j != self ==> zs[j] == r[if j < self then j else j - 1]
  {
    zs[..self] + zs[self + 1..]
  }

  /** A member without a z-index adds nothing to the map: it has the same
      z-indices as the map of the other members. */
  lemma ElementsWithoutUnset(zs: seq<ZIndex>, self: nat)
    requires self < |zs| && zs[self] == Unset
    ensures Elements(zs).Keys == Elements(Others(zs, self)).Keys
  {
    var others := Others(zs, self);
    ElementsSpec(zs);
    ElementsSpec(others);
    forall k | k in Elements(zs) ensures k in Elements(others) {
      var j := Elements(zs)[k];
      assert others[if j < self then j else j - 1] == k;
    }
    forall k | k in Elements(others) ensures k in Elements(zs) {
      var j := Elements(others)[k];
      assert zs[if j < self then j else j + 1] == k;
    }
  }

  /** A new member of a dense stack, not yet carrying a z-index, joins it as
      `N + 1` wherever it stands in document order, and the stack stays dense. */
  lemma JoinKeepsDense(zs: seq<ZIndex>, self: nat)
    requires self < |zs| && zs[self] == Unset && Dense(Others(zs, self))
    ensures Joined(zs, self)[self] == Level(|zs|)
    ensures Dense(Joined(zs, self))
  {
    var others := Others(zs, self);
    ElementsOfDistinct(others);
    ElementsWithoutUnset(zs, self);
    assert |Elements(zs)| == |Elements(zs).Keys| == |Elements(others).Keys| == |others|;
    var r := Joined(zs, self);
    forall i, j | 0 <= i < j < |zs| ensures r[i] != r[j] {
      if i != self && j != self {
        assert others[if i < self then i else i - 1] != others[if j < self then j else j - 1];
      }
    }
  }

  /** Members without a z-index do not appear in the map. */
  lemma {:induction false} ElementsUnsetTail(zs: seq<ZIndex>, k: nat)
    requires k <= |zs| && forall j :: k <= j < |zs| ==> zs[j] == Unset
    ensures Elements(zs) == Elements(zs[..k])
    decreases |zs|
  {
    if |zs| > k {
      var last := |zs| - 1;
      ElementsUnsetTail(zs[..last], k);
      assert zs[..last][..k] == zs[..k];
    } else {
      assert zs[..k] == zs;
    }
  }

  /** Members joining in document order, each while the ones after it carry
      no z-index, get `1`, `2`, … in turn and the stack stays dense. */
  lemma JoinInOrder(zs: seq<ZIndex>, k: nat)
    requires k < |zs| && Dense(zs[..k]) && forall j :: k <= j < |zs| ==> zs[j] == Unset
    ensures Joined(zs, k) == zs[..k] + [Level(k + 1)] + zs[k + 1..]
    ensures Dense(Joined(zs, k)[..k + 1])
  {
    ElementsUnsetTail(zs, k);
    ElementsOfDistinct(zs[..k]);
    var r := Joined(zs, k);
    assert r == zs[..k] + [Level(k + 1)] + zs[k + 1..];
    assert r[..k + 1] == zs[..k] + [Level(k + 1)];
  }

  /** Raising the bottom of the stack A 1, B 2, C 3 gives A 3, B 1, C 2. */
  lemma BringToTopExample()
    ensures BringToTopResult([Level(1), Level(2), Level(3)], 0) == [Level(3), Level(1), Level(2)]
  {
    var zs := [Level(1), Level(2), Level(3)];
    ElementsOfDistinct(zs);
    var r := BringToTopResult(zs, 0);
    assert LoweredAt(zs, Elements(zs), 2, 4, 1) == Level(1);
    assert LoweredAt(zs, Elements(zs), 2, 4, 2) == Level(2);
  }

  /** One `makeStackable` instance. `group` holds the z-indices of all members
      of the marker class in document order, this element among them at
      `self`; the array is shared by every instance of the class. */
  class Stackable {
    const group: array<ZIndex>
    const self: nat
    /** Whether `bringToTop` listens for pointer-down on the trigger element. */
    var listening: bool

    /** Setup: the element goes one above the z-indices in use, then listens. */
    constructor (group: array<ZIndex>, self: nat)
      requires self < group.Length
      modifies group
      ensures this.group == group && this.self == self && listening
      ensures group[..] == Joined(old(group[..]), self)
    {
      this.group := group;
      this.self := self;
      listening := true;
      new;
      var size := |Elements(group[..])|;
      group[self] := Level(size + 1);
    }

    /** `bringToTop`: a non-primary pointer event is ignored; otherwise the
        element goes to the top and the members above its old place come
        down by one, renumbered in place. */
    method BringToTop(invocation: Invocation)
      requires self < group.Length
      modifies group
      ensures group[..] == if invocation == Pointer(false) then old(group[..]) else BringToTopResult(old(group[..]), self)
    {
      if invocation == Pointer(false) {
        return;
      }
      ghost var zs := group[..];
      ElementsSpec(zs);
      var elements := Elements(group[..]);
      var size := |elements|;
      var originalZIndex := group[self];
      if originalZIndex == Level(size) {
        return;
      }
      if Level(size) in elements {
        group[self] := Level(size + 1);
      }
      ghost var held := group[self];
      var lo := LoopStart(originalZIndex, size);
      var i := lo;
      while i <= size
        invariant lo <= i && (i == lo || i <= size + 1)
        invariant group[self] == held
        invariant forall j :: 0 <= j < group.Length && j != self ==> group[j] == LoweredAt(zs, elements, lo, i, j)
      {
        forall j | 0 <= j < group.Length {
          LoweredAtStep(zs, lo, i, j);
        }
        var key := Level(i);
        if key in elements {
          var member := elements[key];
          group[member] := Level(i - 1);
        }
        i := i + 1;
      }
      group[self] := Level(size);
      assert group[..] == Lowered(zs, elements, lo, size + 1)[self := Level(size)];
    }

    /** A pointer-down on the trigger element reaches `bringToTop` only while it listens. */
    method PointerDown(isPrimary: bool)
      requires self < group.Length
      modifies group
      ensures group[..] == if listening && isPrimary then BringToTopResult(old(group[..]), self) else old(group[..])
    {
      if listening {
        BringToTop(Pointer(isPrimary));
      }
    }

    /** `destructor`: the listener is removed; the z-indices stay. */
    method Destructor()
      modifies this
      ensures !listening
    {
      listening := false;
    }
  }

  /** Three elements join an empty class in turn and get 1, 2 and 3; raising
      the first gives 3, 1 and 2. */
  method StackScenario() returns (joined: seq<ZIndex>, raised: seq<ZIndex>)
    ensures joined == [Level(1), Level(2), Level(3)]
    ensures raised == [Level(3), Level(1), Level(2)]
  {
    var group := new ZIndex[3](_ => Unset);
    JoinInOrder(group[..], 0);
    var a := new Stackable(group, 0);
    assert group[..] == [Level(1), Unset, Unset];
    JoinInOrder(group[..], 1);
    var b := new Stackable(group, 1);
    assert group[..] == [Level(1), Level(2), Unset];
    JoinInOrder(group[..], 2);
    var c := new Stackable(group, 2);
    joined := group[..];
    a.BringToTop(Direct);
    BringToTopExample();
    raised := group[..];
  }
}
