/**
 * The bounding-box bookkeeping of the image view: `rect_items` maps a
 * finding name to the list of box items drawn for it, in an insertion
 * ordered dictionary; a left press starts a box for the current finding,
 * moving the mouse resizes it, a release stops drawing, and boxes are
 * removed one at a time, all at once, or added back from a saved view.
 */
module Graphics {
  import opened Wrappers
  import opened Session

  /** A `BoundingBoxItem`: an object on the scene, told apart from the others by identity. */
  class BoundingBox {
    var rect: Rect

    constructor(r: Rect)
      ensures rect == r
    {
      rect := r;
    }
  }

  type Items = map<string, seq<BoundingBox>>

  /** The keys of an insertion-ordered dictionary: each listed once, exactly the keys of `m`. */
  ghost predicate Ordered(keys: seq<string>, m: Items)
  {
    (&& (forall i, j :: 0 <= i < j < |keys| ==> keys[i] != keys[j])
     && (forall k :: k in m <==> k in keys)) == true
  }

  // ---------------------------------------------------------------------------
  // Removing one box
  // ---------------------------------------------------------------------------

  /** The position of the first occurrence of `x`. */
  function Find<T(==)>(s: seq<T>, x: T): (i: int)
    requires x in s
    ensures 0 <= i < |s| && s[i] == x && x !in s[..i]
  {
    if s[0] == x then 0
    else
      var i := 1 + Find(s[1..], x);
      assert s[..i] == [s[0]] + s[1..][..i - 1];
      i
  }

  /** `lst.remove(x)`: only the first occurrence of `x` is taken out, and the rest keep their order. */
  function RemoveFirst<T(==)>(s: seq<T>, x: T): (r: seq<T>)
    requires x in s
    ensures |r| == |s| - 1
    ensures multiset(r) == multiset(s) - multiset{x}
    ensures r == s[..Find(s, x)] + s[Find(s, x) + 1..]
  {
    var i := Find(s, x);
    assert s == s[..i] + [x] + s[i + 1..];
    s[..i] + s[i + 1..]
  }

  /** The list stored under `k` holds `b`. */
  predicate Holds(m: Items, k: string, b: BoundingBox)
  {
    k in m && b in m[k]
  }

  /** The first key, in dictionary order, whose list holds `b`. */
  function FirstHolding(keys: seq<string>, m: Items, b: BoundingBox): (r: Option<int>)
    ensures r.Some? ==> 0 <= r.value < |keys| && Holds(m, keys[r.value], b)
    ensures r.Some? ==> forall j :: 0 <= j < r.value ==> !Holds(m, keys[j], b)
    ensures r.None? ==> forall j :: 0 <= j < |keys| ==> !Holds(m, keys[j], b)
    decreases |keys|
  {
    if keys == [] then None
    else if Holds(m, keys[0], b) then Some(0)
    else
      match FirstHolding(keys[1..], m, b)
      case None => None
      case Some(i) => Some(i + 1)
  }

  /** What `handle_removed_bbox` leaves: one occurrence removed from the first list holding `b`. */
  function Removed(keys: seq<string>, m: Items, b: BoundingBox): Items
  {
    match FirstHolding(keys, m, b)
    case None => m
    case Some(i) => m[keys[i] := RemoveFirst(m[keys[i]], b)]
  }

  /**
   * Removing a box takes exactly one occurrence of it out of the first
   * list that holds it, keeps every other list and key as it was, and
   * changes nothing when no list holds it.
   */
  lemma RemovedOne(keys: seq<string>, m: Items, b: BoundingBox)
    requires Ordered(keys, m)
    ensures Removed(keys, m, b).Keys == m.Keys
    ensures (forall k :: k in m ==> b !in m[k]) ==> Removed(keys, m, b) == m
    ensures (exists k :: k in m && b in m[k]) ==>
      exists i :: 0 <= i < |keys| && Holds(m, keys[i], b)
        && (forall j :: 0 <= j < i ==> !Holds(m, keys[j], b))
        && multiset(Removed(keys, m, b)[keys[i]]) == multiset(m[keys[i]]) - multiset{b}
        && (forall k :: k in m && k != keys[i] ==> Removed(keys, m, b)[k] == m[k])
  {
    if k :| k in m && b in m[k] {
      var i0 :| 0 <= i0 < |keys| && keys[i0] == k;
      assert Holds(m, keys[i0], b);
      var i := FirstHolding(keys, m, b).value;
      assert Holds(m, keys[i], b);
    }
  }

  /** When only the key at `j` holds `b`, it is the first one. */
  lemma FirstHoldingOnly(keys: seq<string>, m: Items, b: BoundingBox, j: int)
    requires 0 <= j < |keys| && Holds(m, keys[j], b)
    requires forall i :: 0 <= i < |keys| && i != j ==> !Holds(m, keys[i], b)
    ensures FirstHolding(keys, m, b) == Some(j)
  {
  }

  /** Removing the last element from behind a list that does not hold it gives the list back. */
  lemma RemoveAppended<T>(s: seq<T>, x: T)
    requires x !in s
    ensures RemoveFirst(s + [x], x) == s
  {
    var l := s + [x];
    assert l[..|s|] == s;
  }

  // ---------------------------------------------------------------------------
  // Adding boxes
  // ---------------------------------------------------------------------------

  /** Appending `b` to the list of `f`: `rect_items[f].append(b)`, or a new key `f` with `[b]`. */
  function Append(keys: seq<string>, m: Items, f: string, b: BoundingBox): (r: (seq<string>, Items))
  {
    (if f in m then keys else keys + [f], m[f := BoxesOf(m, f) + [b]])
  }

  /** The inner loop of `add_bboxes`: every box of `bs`, in order, appended to the list of `f`. */
  function AppendEach(keys: seq<string>, m: Items, f: string, bs: seq<BoundingBox>): (r: (seq<string>, Items))
    decreases |bs|
  {
    if bs == [] then (keys, m)
    else
      var p := AppendEach(keys, m, f, bs[..|bs| - 1]);
      Append(p.0, p.1, f, bs[|bs| - 1])
  }

  /** `add_bboxes`: the entries of the given dictionary, in its order, each appended finding by finding. */
  function AddAll(keys: seq<string>, m: Items, add: seq<(string, seq<BoundingBox>)>): (r: (seq<string>, Items))
    decreases |add|
  {
    if add == [] then (keys, m)
    else
      var p := AddAll(keys, m, add[..|add| - 1]);
      AppendEach(p.0, p.1, add[|add| - 1].0, add[|add| - 1].1)
  }

  /** All boxes the given entries hold for finding `k`, in order. */
  function ListFor(add: seq<(string, seq<BoundingBox>)>, k: string): seq<BoundingBox>
    decreases |add|
  {
    if add == [] then []
    else ListFor(add[..|add| - 1], k) + (if add[|add| - 1].0 == k then add[|add| - 1].1 else [])
  }

  /** Appending keeps the key order a dictionary order: a new key goes last. */
  lemma AppendOrdered(keys: seq<string>, m: Items, f: string, b: BoundingBox)
    requires Ordered(keys, m)
    ensures Ordered(Append(keys, m, f, b).0, Append(keys, m, f, b).1)
    ensures f in Append(keys, m, f, b).0
  {
    var r := Append(keys, m, f, b);
    if f !in m {
      assert f !in keys;
      forall i, j | 0 <= i < j < |r.0|
        ensures r.0[i] != r.0[j]
      {
        if j == |keys| {
          assert r.0[i] == keys[i];
        }
      }
      assert forall k :: k in r.0 <==> k in keys || k == f;
    }
  }

  /** Appending puts `b` last in the list of `f` and touches no other finding. */
  lemma AppendBoxes(keys: seq<string>, m: Items, f: string, b: BoundingBox)
    ensures forall k :: BoxesOf(Append(keys, m, f, b).1, k) == BoxesOf(m, k) + (if k == f then [b] else [])
    ensures forall k :: k in Append(keys, m, f, b).1 <==> k in m || k == f
  {
  }

  /** The inner loop keeps the key order a dictionary order. */
  lemma {:induction false} AppendEachOrdered(keys: seq<string>, m: Items, f: string, bs: seq<BoundingBox>)
    requires Ordered(keys, m)
    ensures Ordered(AppendEach(keys, m, f, bs).0, AppendEach(keys, m, f, bs).1)
    decreases |bs|
  {
    if bs != [] {
      var n := |bs| - 1;
      AppendEachOrdered(keys, m, f, bs[..n]);
      var p := AppendEach(keys, m, f, bs[..n]);
      AppendOrdered(p.0, p.1, f, bs[n]);
    }
  }

  /** The inner loop appends the boxes after the finding's own, in order, and touches no other finding. */
  lemma {:induction false} AppendEachBoxes(keys: seq<string>, m: Items, f: string, bs: seq<BoundingBox>)
    ensures forall k :: BoxesOf(AppendEach(keys, m, f, bs).1, k) == BoxesOf(m, k) + (if k == f then bs else [])
    ensures forall k :: k in AppendEach(keys, m, f, bs).1 <==> k in m || (k == f && bs != [])
    decreases |bs|
  {
    if bs != [] {
      var n := |bs| - 1;
      AppendEachBoxes(keys, m, f, bs[..n]);
      var p := AppendEach(keys, m, f, bs[..n]);
      var r := AppendEach(keys, m, f, bs);
      AppendBoxes(p.0, p.1, f, bs[n]);
      forall k
        ensures BoxesOf(r.1, k) == BoxesOf(m, k) + (if k == f then bs else [])
      {
        assert BoxesOf(r.1, k) == BoxesOf(p.1, k) + (if k == f then [bs[n]] else []);
        assert BoxesOf(p.1, k) == BoxesOf(m, k) + (if k == f then bs[..n] else []);
        assert bs == bs[..n] + [bs[n]];
      }
    }
  }

  /**
   * `add_bboxes` appends, for every finding, the boxes the given
   * dictionary holds for it after the ones already shown, creating the
   * key when it is missing; the key order stays a dictionary order.
   */
  lemma {:induction false} AddAllBoxes(keys: seq<string>, m: Items, add: seq<(string, seq<BoundingBox>)>)
    requires Ordered(keys, m)
    ensures Ordered(AddAll(keys, m, add).0, AddAll(keys, m, add).1)
    ensures forall k :: BoxesOf(AddAll(keys, m, add).1, k) == BoxesOf(m, k) + ListFor(add, k)
    ensures forall k :: k in AddAll(keys, m, add).1 <==> k in m || ListFor(add, k) != []
    decreases |add|
  {
    if add != [] {
      var n := |add| - 1;
      AddAllBoxes(keys, m, add[..n]);
      var p := AddAll(keys, m, add[..n]);
      AppendEachOrdered(p.0, p.1, add[n].0, add[n].1);
      AppendEachBoxes(p.0, p.1, add[n].0, add[n].1);
    }
  }

  /** A box just drawn for `f` and removed again leaves every list as it was; `f` keeps a list, perhaps an empty one. */
  lemma DrawThenRemove(keys: seq<string>, m: Items, f: string, b: BoundingBox)
    requires Ordered(keys, m)
    requires forall k :: k in m ==> b !in m[k]
    ensures Removed(Append(keys, m, f, b).0, Append(keys, m, f, b).1, b) == m[f := BoxesOf(m, f)]
  {
    var r := Append(keys, m, f, b);
    var l := BoxesOf(m, f);
    AppendOrdered(keys, m, f, b);
    var j :| 0 <= j < |r.0| && r.0[j] == f;
    forall i | 0 <= i < |r.0| && i != j
      ensures !Holds(r.1, r.0[i], b)
    {
      assert r.0[i] != f;
    }
    FirstHoldingOnly(r.0, r.1, b, j);
    RemovedAt(r.0, r.1, b, j);
    RemoveAppended(l, b);
    UpdateTwice(m, f, l + [b], l);
  }

  lemma RemovedAt(keys: seq<string>, m: Items, b: BoundingBox, j: int)
    requires 0 <= j < |keys| && FirstHolding(keys, m, b) == Some(j)
    ensures Holds(m, keys[j], b)
    ensures Removed(keys, m, b) == m[keys[j] := RemoveFirst(m[keys[j]], b)]
  {
  }

  /** Replacing the list of a key already present keeps the key order. */
  lemma OrderedUpdate(keys: seq<string>, m: Items, k: string, v: seq<BoundingBox>)
    requires Ordered(keys, m) && k in m
    ensures Ordered(keys, m[k := v])
  {
  }

  lemma UpdateTwice(m: Items, f: string, x: seq<BoundingBox>, y: seq<BoundingBox>)
    ensures m[f := x][f := y] == m[f := y]
  {
  }

  // ---------------------------------------------------------------------------
  // The view
  // ---------------------------------------------------------------------------

  /** `if self.current_finding`: a finding is set and its name is not empty. */
  predicate Drawing(finding: Option<string>)
  {
    finding.Some? && finding.value != ""
  }

  /** The box-drawing state of `CustomGraphicsView`. */
  class GraphicsView {
    var rectItems: Items
    /** The keys of `rect_items` in insertion order. */
    var findingOrder: seq<string>
    var startRect: BoundingBox?
    var currentFinding: Option<string>
    /** Whether `self.scene()` returns a scene. */
    var hasScene: bool

    /** The key order is the dictionary's; one obligation. */
    ghost predicate Valid()
      reads this`rectItems, this`findingOrder
    {
      Ordered(findingOrder, rectItems)
    }

    constructor(scene: bool)
      ensures Valid()
      ensures rectItems == map[] && findingOrder == [] && startRect == null && currentFinding == None && hasScene == scene
    {
      rectItems, findingOrder, startRect, currentFinding, hasScene := map[], [], null, None, scene;
    }

    /** `set_current_finding`; the colour is not modelled. */
    method SetCurrentFinding(finding: Option<string>)
      modifies this`currentFinding
      ensures currentFinding == finding
    {
      currentFinding := finding;
    }

    /**
     * `mousePressEvent`: with the left button, a scene and a current
     * finding, a new zero-size box at the press point is started and
     * appended to the finding's list; otherwise nothing changes.
     */
    method MousePress(left: bool, x: real, y: real)
      requires Valid()
      modifies this`rectItems, this`findingOrder, this`startRect
      ensures Valid()
      ensures left && hasScene && Drawing(currentFinding) ==>
        && startRect != null && fresh(startRect) && startRect.rect == Rect(x, y, 0.0, 0.0)
        && (findingOrder, rectItems) == Append(old(findingOrder), old(rectItems), currentFinding.value, startRect)
        && (forall k :: k in old(rectItems) ==> startRect !in old(rectItems[k]))
      ensures !(left && hasScene && Drawing(currentFinding)) ==>
        startRect == old(startRect) && rectItems == old(rectItems) && findingOrder == old(findingOrder)
    {
      if left && hasScene && Drawing(currentFinding) {
        var b := new BoundingBox(Rect(x, y, 0.0, 0.0));
        AppendOrdered(findingOrder, rectItems, currentFinding.value, b);
        startRect := b;
        findingOrder, rectItems := Append(findingOrder, rectItems, currentFinding.value, b).0, Append(findingOrder, rectItems, currentFinding.value, b).1;
      }
    }

    /**
     * `mouseMoveEvent`: while the left button is held, the box being
     * drawn keeps its origin and takes the mouse's offset from it as
     * width and height, which may be zero or negative. The lists are not
     * touched: the box they hold is the one resized.
     */
    method MouseMove(leftHeld: bool, x: real, y: real)
      modifies if startRect != null then {startRect} else {}
      ensures leftHeld && startRect != null ==>
        startRect.rect == Rect(old(startRect.rect).x, old(startRect.rect).y, x - old(startRect.rect).x, y - old(startRect.rect).y)
      ensures !leftHeld && startRect != null ==> startRect.rect == old(startRect.rect)
    {
      if leftHeld && startRect != null {
        var r := startRect.rect;
        startRect.rect := Rect(r.x, r.y, x - r.x, y - r.y);
      }
    }

    /** `mouseReleaseEvent`: drawing stops, the box stays in its list. */
    method MouseRelease(left: bool)
      modifies this`startRect
      ensures startRect == if left then null else old(startRect)
    {
      if left && startRect != null {
        startRect := null;
      }
    }

    /** `handle_removed_bbox`: the `for` loop over the findings in order, stopping at the first list holding the box. */
    method HandleRemovedBbox(b: BoundingBox)
      requires Valid()
      modifies this`rectItems
      ensures Valid()
      ensures rectItems == Removed(findingOrder, old(rectItems), b)
    {
      for i := 0 to |findingOrder|
        invariant forall j :: 0 <= j < i ==> !Holds(rectItems, findingOrder[j], b)
      {
        var k := findingOrder[i];
        if k in rectItems && b in rectItems[k] {
          assert FirstHolding(findingOrder, rectItems, b) == Some(i);
          RemovedAt(findingOrder, rectItems, b, i);
          OrderedUpdate(findingOrder, rectItems, k, RemoveFirst(rectItems[k], b));
          rectItems := rectItems[k := RemoveFirst(rectItems[k], b)];
          return;
        }
      }
    }

    /** `remove_all_bounding_boxes`: `rect_items` is cleared; taking the items off the scene is not modelled. */
    method RemoveAllBoundingBoxes()
      modifies this`rectItems, this`findingOrder
      ensures Valid()
      ensures rectItems == map[] && findingOrder == []
    {
      rectItems, findingOrder := map[], [];
    }

    /** `add_bboxes`: the two nested `for` loops over the given dictionary. */
    method AddBboxes(add: seq<(string, seq<BoundingBox>)>)
      requires Valid()
      modifies this`rectItems, this`findingOrder
      ensures Valid()
      ensures (findingOrder, rectItems) == AddAll(old(findingOrder), old(rectItems), add)
    {
      ghost var keys0, m0 := findingOrder, rectItems;
      for i := 0 to |add|
        invariant (findingOrder, rectItems) == AddAll(keys0, m0, add[..i])
        invariant Valid()
      {
        assert add[..i + 1][..i] == add[..i];
        var (f, bs) := add[i];
        ghost var keys1, m1 := findingOrder, rectItems;
        for j := 0 to |bs|
          invariant (findingOrder, rectItems) == AppendEach(keys1, m1, f, bs[..j])
          invariant Valid()
        {
          assert bs[..j + 1][..j] == bs[..j];
          AppendOrdered(findingOrder, rectItems, f, bs[j]);
          var p := Append(findingOrder, rectItems, f, bs[j]);
          findingOrder, rectItems := p.0, p.1;
        }
        assert bs[..|bs|] == bs;
      }
      assert add[..|add|] == add;
    }
  }
}
