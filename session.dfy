/**
 * The per-file annotation data shared by the three generations of the
 * session logic: the three-valued `viewed` flag, the scalar values a
 * checkbox or radio group can hold, bounding-box lists keyed by finding,
 * and one record of a saved session file.
 */
module Session {
  import opened Wrappers

  /** A file's `viewed` value: `False`, `True` or the string `"FAILED"`. */
  datatype ViewedFlag = NotViewed | Viewed | Failed
  {
    /** Python truthiness: both `True` and `"FAILED"` are truthy. */
    predicate Truthy()
    {
      !NotViewed?
    }
  }

  /** The value of a flag after the image is left: `"FAILED"` when the load failed, `True` otherwise. */
  function LeaveMark(prevFailed: bool): (r: ViewedFlag)
    ensures r.Truthy()
    ensures r.Failed? <==> prevFailed
  {
    if prevFailed then Failed else Viewed
  }

  /** A JSON scalar stored as a checkbox state, a radio choice or the `"FAIL"` marker. */
  datatype Value = Null | Bool(b: bool) | Int(i: int) | Str(s: string)

  const Fail: Value := Str("FAIL")

  /** The integer a value stands for in Python arithmetic: `bool` is a subclass of `int`. */
  function AsInt(v: Value): (r: Option<int>)
    ensures r.Some? <==> v.Bool? || v.Int?
  {
    match v
    case Bool(b) => Some(if b then 1 else 0)
    case Int(i) => Some(i)
    case _ => None
  }

  /** Python's `==` on values: `True == 1` and `False == 0`, otherwise equality of like values. */
  predicate PyEq(a: Value, b: Value)
  {
    if AsInt(a).Some? || AsInt(b).Some? then AsInt(a) == AsInt(b) else a == b
  }

  lemma PyEqIsEquivalence(a: Value, b: Value, c: Value)
    ensures PyEq(a, a)
    ensures PyEq(a, b) ==> PyEq(b, a)
    ensures PyEq(a, b) && PyEq(b, c) ==> PyEq(a, c)
    ensures a == b ==> PyEq(a, b)
  {
  }

  /** A rectangle as `QRectF.getRect()` reports it: origin, width and height. */
  datatype Rect = Rect(x: real, y: real, width: real, height: real)

  /** Boxes grouped by finding name, as in the `rect_items` and `bboxes` dictionaries. */
  type BoxMap<T> = map<string, seq<T>>

  /** `m.get(k, [])`. */
  function BoxesOf<T>(m: BoxMap<T>, k: string): seq<T>
  {
    if k in m then m[k] else []
  }

  /** The findings that hold at least one box, with their lists. */
  function NonEmpty<T>(m: BoxMap<T>): (r: BoxMap<T>)
    ensures forall k :: k in r <==> k in m && |m[k]| > 0
    ensures forall k :: k in r ==> r[k] == m[k]
    ensures forall k :: BoxesOf(r, k) == BoxesOf(m, k)
  {
    map k | k in m && |m[k]| > 0 :: m[k]
  }

  /**
   * The effect of appending every box of `add`, finding by finding, after
   * the boxes already in `m`: a finding gets a list only once a box is put in it.
   */
  function AddBoxes<T>(m: BoxMap<T>, add: BoxMap<T>): (r: BoxMap<T>)
    ensures forall k :: k in r <==> k in m || (k in add && |add[k]| > 0)
    ensures forall k :: BoxesOf(r, k) == BoxesOf(m, k) + BoxesOf(add, k)
  {
    map k | k in m.Keys + add.Keys && (k in m || |add[k]| > 0) :: BoxesOf(m, k) + BoxesOf(add, k)
  }

  /** A view without empty lists keeps none after boxes are added. */
  lemma AddBoxesKeepsNonEmpty<T>(m: BoxMap<T>, add: BoxMap<T>)
    requires forall k :: k in m ==> |m[k]| > 0
    ensures forall k :: k in AddBoxes(m, add) ==> |AddBoxes(m, add)[k]| > 0
  {
    var r := AddBoxes(m, add);
    forall k | k in r
      ensures |r[k]| > 0
    {
      assert BoxesOf(r, k) == BoxesOf(m, k) + BoxesOf(add, k);
    }
  }

  lemma AddBoxesAppend<T>(m: BoxMap<T>, first: BoxMap<T>, second: BoxMap<T>)
    ensures forall k :: BoxesOf(AddBoxes(AddBoxes(m, first), second), k) == BoxesOf(m, k) + BoxesOf(first, k) + BoxesOf(second, k)
  {
    var both := AddBoxes(m, first);
    forall k
      ensures BoxesOf(AddBoxes(both, second), k) == BoxesOf(m, k) + BoxesOf(first, k) + BoxesOf(second, k)
    {
      assert BoxesOf(AddBoxes(both, second), k) == BoxesOf(both, k) + BoxesOf(second, k);
      assert BoxesOf(both, k) == BoxesOf(m, k) + BoxesOf(first, k);
    }
  }

  /** Adding two lists of boxes one after the other appends both, in order. */
  lemma AddBoxesTwice<T>(m: BoxMap<T>, first: BoxMap<T>, second: BoxMap<T>)
    requires forall k :: k in m ==> |m[k]| > 0
    ensures var r := AddBoxes(AddBoxes(m, first), second);
      && (forall k :: k in r ==> |r[k]| > 0)
      && forall k :: BoxesOf(r, k) == BoxesOf(m, k) + BoxesOf(first, k) + BoxesOf(second, k)
  {
    var both := AddBoxes(m, first);
    AddBoxesKeepsNonEmpty(m, first);
    AddBoxesKeepsNonEmpty(both, second);
    AddBoxesAppend(m, first, second);
  }

  /** Adding boxes to an empty view keeps exactly the non-empty lists. */
  lemma AddToEmpty<T>(add: BoxMap<T>)
    ensures AddBoxes(map[], add) == NonEmpty(add)
    ensures forall k :: k in AddBoxes(map[], add) ==> |AddBoxes(map[], add)[k]| > 0
  {
    var r := AddBoxes(map[], add);
    forall k | k in r
      ensures r[k] == NonEmpty(add)[k]
    {
      assert BoxesOf(r, k) == BoxesOf(map[], k) + BoxesOf(add, k);
    }
  }

  /** Adding no boxes changes nothing. */
  lemma AddNothing<T>(m: BoxMap<T>)
    ensures AddBoxes(m, map[]) == m
  {
    var r := AddBoxes(m, map[]);
    forall k | k in r
      ensures r[k] == m[k]
    {
      assert BoxesOf(r, k) == BoxesOf(m, k) + BoxesOf(map[], k);
    }
  }

  /** One file's annotations, as the per-file dictionaries of a session hold them. */
  datatype FileState = FileState(
    viewed: ViewedFlag,
    rotation: int,
    notes: string,
    checkboxes: map<string, Value>,
    bboxes: BoxMap<Rect>,
    radiobuttons: map<string, Value>)

  /**
   * One element of the `files` list of a saved session. The optional keys
   * are the ones the loaders look up with `in` or that older files may lack.
   */
  datatype Entry = Entry(
    filename: string,
    viewed: ViewedFlag,
    rotation: int,
    notes: Option<string>,
    checkboxes: Option<map<string, Value>>,
    bboxes: Option<BoxMap<Rect>>,
    radiobuttons: Option<map<string, Value>>)

  /** `[entry['filename'] for entry in entries]`. */
  function Names(entries: seq<Entry>): (r: seq<string>)
    ensures |r| == |entries|
    ensures forall k :: 0 <= k < |r| ==> r[k] == entries[k].filename
  {
    seq(|entries|, k requires 0 <= k < |entries| => entries[k].filename)
  }

  /** Some entry is stored under the name `f`. */
  ghost predicate HasEntry(entries: seq<Entry>, f: string)
  {
    exists k :: 0 <= k < |entries| && entries[k].filename == f
  }

  /** The position of the entry for `f` that a loop storing entry after entry leaves behind: the last one. */
  function LastIndex(entries: seq<Entry>, f: string): (k: int)
    requires HasEntry(entries, f)
    ensures 0 <= k < |entries| && entries[k].filename == f
    ensures forall j :: k < j < |entries| ==> entries[j].filename != f
    decreases |entries|
  {
    var n := |entries| - 1;
    if entries[n].filename == f then n
    else
      assert HasEntry(entries[..n], f) by {
        var k :| 0 <= k < |entries| && entries[k].filename == f;
        assert entries[..n][k] == entries[k];
      }
      LastIndex(entries[..n], f)
  }

  /** In a list without repeated file names, each entry is the last one for its name. */
  lemma LastIndexOfDistinct(entries: seq<Entry>, k: int)
    requires 0 <= k < |entries|
    requires forall i, j :: 0 <= i < j < |entries| ==> entries[i].filename != entries[j].filename
    ensures HasEntry(entries, entries[k].filename)
    ensures LastIndex(entries, entries[k].filename) == k
  {
  }

  /** Storing one more entry: its own name now points at it, every other name is unaffected. */
  lemma LastIndexStep(entries: seq<Entry>, i: int, f: string)
    requires 0 <= i < |entries| && HasEntry(entries[..i + 1], f)
    ensures f == entries[i].filename ==> LastIndex(entries[..i + 1], f) == i
    ensures f != entries[i].filename ==> HasEntry(entries[..i], f)
    ensures f != entries[i].filename ==> LastIndex(entries[..i + 1], f) == LastIndex(entries[..i], f)
  {
    assert entries[..i + 1][..i] == entries[..i];
  }
}
