/**
 * The session logic of the older main window, `speedy_qc/main_window.py`.
 * It moves to the next unviewed file with a bounded circular search, turns
 * images with the opposite rotation sign, reorders the file list when a
 * session is restored, writes a bare list of records and merges loaded
 * checkbox values into the defaults. Two of its rules are modelled both as
 * written and as evidently intended: the bounding-box loader, and what
 * "Yes" does in the close dialog.
 */
module MainWindow {
  import opened Wrappers
  import opened Sorting
  import Strings
  import opened Session
  import MainApp

  // ---------------------------------------------------------------------------
  // Navigation
  // ---------------------------------------------------------------------------

  /** The files `__init__` lists: the DICOM names of the folder, sorted, none lost or added. */
  lemma DcmFiles(listing: seq<string>)
    ensures var files := Strings.SortStrings(Strings.DcmNames(listing));
      && (forall f :: f in files <==> f in listing && Strings.EndsWith(f, ".dcm"))
      && (forall i, j :: 0 <= i < j < |files| ==> Strings.Le(files[i], files[j]))
      && |files| == |Strings.DcmNames(listing)|
  {
    var files := Strings.SortStrings(Strings.DcmNames(listing));
    assert forall f :: f in files <==> f in multiset(Strings.DcmNames(listing));
    assert |files| == |multiset(files)|;
  }

  /** The position `k` steps after `cur` in a list of `n` files, going round from the last to the first. */
  function Ahead(cur: int, k: int, n: int): (r: int)
    requires 0 <= cur < n && 0 <= k <= n
    ensures 0 <= r < n
    ensures r == cur <==> k == 0 || k == n
  {
    if cur + k < n then cur + k else cur + k - n
  }

  /** One more step of the search is one more step round the list, as `(i + 1) % n` computes it. */
  lemma AheadNext(cur: int, k: int, n: int)
    requires 0 <= cur < n && 0 <= k < n
    ensures Ahead(cur, k + 1, n) == (Ahead(cur, k, n) + 1) % n
  {
    var x := Ahead(cur, k, n);
    if x + 1 < n {
      assert (x + 1) % n == x + 1;
    } else {
      assert (x + 1) % n == 0;
    }
  }

  /**
   * The least offset in `[k, n)` whose file the `while` loop of
   * `change_image` finds unviewed, counting from the file at `cur`.
   */
  function UnviewedAhead(files: seq<string>, viewed: map<string, ViewedFlag>, cur: int, k: int): (r: Option<int>)
    requires 0 <= cur < |files| && 1 <= k <= |files| && MainApp.Keyed(files, viewed)
    ensures r.Some? ==> k <= r.value < |files| && !viewed[files[Ahead(cur, r.value, |files|)]].Truthy()
    ensures r.Some? ==> forall j :: k <= j < r.value ==> viewed[files[Ahead(cur, j, |files|)]].Truthy()
    ensures r.None? ==> forall j :: k <= j < |files| ==> viewed[files[Ahead(cur, j, |files|)]].Truthy()
    decreases |files| - k
  {
    if k == |files| then None
    else if !viewed[files[Ahead(cur, k, |files|)]].Truthy() then Some(k)
    else UnviewedAhead(files, viewed, cur, k + 1)
  }

  /**
   * `change_image("next")`: the first unviewed file going round from the
   * one after `cur`; when the search comes back to `cur`, the file after it.
   */
  function SearchNext(files: seq<string>, viewed: map<string, ViewedFlag>, cur: int): (r: int)
    requires 0 <= cur < |files| && MainApp.Keyed(files, viewed)
    ensures 0 <= r < |files|
  {
    match UnviewedAhead(files, viewed, cur, 1)
    case Some(k) => Ahead(cur, k, |files|)
    case None => MainApp.NextIndex(cur, |files|)
  }

  /**
   * The search reaches the first unviewed file after `cur`, else the
   * first one before it, at most `n - 1` steps on; when every other file
   * is viewed it still advances by one, so with two or more files it never
   * stays on `cur`.
   */
  lemma SearchNextChoice(files: seq<string>, viewed: map<string, ViewedFlag>, cur: int)
    requires 0 <= cur < |files| && MainApp.Keyed(files, viewed)
    ensures var r := SearchNext(files, viewed, cur);
      && ((exists j :: cur < j < |files| && !viewed[files[j]].Truthy()) ==>
            cur < r && !viewed[files[r]].Truthy() && forall j :: cur < j < r ==> viewed[files[j]].Truthy())
      && ((forall j :: cur < j < |files| ==> viewed[files[j]].Truthy()) && (exists j :: 0 <= j < cur && !viewed[files[j]].Truthy()) ==>
            r < cur && !viewed[files[r]].Truthy() && forall j :: 0 <= j < r ==> viewed[files[j]].Truthy())
      && ((forall j :: 0 <= j < |files| && j != cur ==> viewed[files[j]].Truthy()) ==> r == (cur + 1) % |files|)
      && (|files| > 1 ==> r != cur)
  {
    var n := |files|;
    var r := SearchNext(files, viewed, cur);
    var u := UnviewedAhead(files, viewed, cur, 1);
    if j :| cur < j < n && !viewed[files[j]].Truthy() {
      assert Ahead(cur, j - cur, n) == j;
      var k := u.value;
      assert k <= j - cur;
      forall j' | cur < j' < r
        ensures viewed[files[j']].Truthy()
      {
        assert Ahead(cur, j' - cur, n) == j';
      }
    }
    if (forall j :: cur < j < n ==> viewed[files[j]].Truthy()) && exists j :: 0 <= j < cur && !viewed[files[j]].Truthy() {
      var j :| 0 <= j < cur && !viewed[files[j]].Truthy();
      assert Ahead(cur, j + n - cur, n) == j;
      var k := u.value;
      assert cur + k >= n;
      forall j' | 0 <= j' < r
        ensures viewed[files[j']].Truthy()
      {
        assert Ahead(cur, j' + n - cur, n) == j';
      }
    }
    if forall j :: 0 <= j < n && j != cur ==> viewed[files[j]].Truthy() {
      assert u.None?;
    }
  }

  /**
   * The `while` loop of `change_image`: step on from the file after `cur`
   * while the file is viewed and the search has not come back; after a full
   * lap the cursor moves by one, from the last file to the first.
   */
  method NextTarget(files: seq<string>, viewed: map<string, ViewedFlag>, cur: int) returns (next: int)
    requires 0 <= cur < |files| && MainApp.Keyed(files, viewed)
    ensures next == SearchNext(files, viewed, cur)
  {
    var n := |files|;
    AheadNext(cur, 0, n);
    next := (cur + 1) % n;
    ghost var steps := 1;
    while next != cur && viewed[files[next]].Truthy()
      invariant 1 <= steps <= n
      invariant next == Ahead(cur, steps, n)
      invariant UnviewedAhead(files, viewed, cur, steps) == UnviewedAhead(files, viewed, cur, 1)
      decreases n - steps
    {
      AheadNext(cur, steps, n);
      next := (next + 1) % n;
      steps := steps + 1;
    }
    if next == cur {
      next := cur + 1;
      if next >= n {
        next := 0;
      }
    }
  }

  /**
   * The two generations agree on "move to the next unviewed file" whenever
   * some other file is unviewed; when every other file is viewed the
   * current window stays put and the older one advances by one.
   */
  lemma NextGenerations(files: seq<string>, viewed: map<string, ViewedFlag>, cur: int)
    requires 0 <= cur < |files| && MainApp.Keyed(files, viewed) && Distinct(files)
    ensures (exists j :: 0 <= j < |files| && j != cur && !viewed[files[j]].Truthy()) ==>
      SearchNext(files, viewed, cur) == MainApp.NextUnrated(files, viewed, cur)
    ensures (forall j :: 0 <= j < |files| && j != cur ==> viewed[files[j]].Truthy()) ==>
      MainApp.NextUnrated(files, viewed, cur) == cur && SearchNext(files, viewed, cur) == MainApp.NextIndex(cur, |files|)
  {
    var r1, r2 := SearchNext(files, viewed, cur), MainApp.NextUnrated(files, viewed, cur);
    SearchNextChoice(files, viewed, cur);
    MainApp.NextUnratedChoice(files, viewed, cur);
    if exists j :: cur < j < |files| && !viewed[files[j]].Truthy() {
      assert r1 == r2;
    } else if exists j :: 0 <= j < |files| && j != cur && !viewed[files[j]].Truthy() {
      assert r1 == r2;
    }
  }

  // ---------------------------------------------------------------------------
  // Rotation
  // ---------------------------------------------------------------------------

  /** `rotate_image_right` of the older window: a quarter turn subtracted, kept in `[0, 360)`. */
  function RotateRight(r: int): (s: int)
    ensures 0 <= s < 360
    ensures (s - r + 90) % 360 == 0
  {
    (r - 90) % 360
  }

  /**
   * The older right turn is the current left turn; the older left turn,
   * `(r + 90) % 360`, is the current right turn, so the two conventions are
   * mirror images and a right turn followed by a left one restores the angle.
   */
  lemma RotationSignsOpposite(r: int)
    ensures RotateRight(r) == MainApp.RotateLeft(r)
    ensures MainApp.RotateRight(RotateRight(r)) == r % 360
    ensures RotateRight(MainApp.RotateRight(r)) == r % 360
    ensures 0 <= r < 360 ==> MainApp.RotateRight(RotateRight(r)) == r && RotateRight(MainApp.RotateRight(r)) == r
  {
    var a := RotateRight(r);
    MainApp.ModUnique(r + 270, (r - 90) / 360 + 1, a);
    MainApp.ModUnique(a + 90, r / 360 - (r - 90) / 360, r % 360);
    var b := MainApp.RotateRight(r);
    MainApp.ModUnique(b - 90, r / 360 - (r + 90) / 360, r % 360);
  }

  // ---------------------------------------------------------------------------
  // Saving
  // ---------------------------------------------------------------------------

  /** The per-file dictionaries of the older window. */
  datatype Tables = Tables(
    viewed: map<string, ViewedFlag>,
    rotation: map<string, int>,
    notes: map<string, string>,
    checkboxes: map<string, map<string, Value>>,
    bboxes: map<string, BoxMap<Rect>>)

  /** `d.get(f, default)`. */
  function Get<V>(m: map<string, V>, f: string, default: V): V
  {
    if f in m then m[f] else default
  }

  /** The dictionaries `save_json` indexes without a default hold every listed file. */
  ghost predicate Writable(files: seq<string>, t: Tables)
  {
    MainApp.Keyed(files, t.checkboxes) && MainApp.Keyed(files, t.bboxes)
  }

  /** The record `save_json` writes for file `f`: no radio buttons, `"FAIL"` for every checkbox of a failed image. */
  function OutputEntry(f: string, t: Tables, findings: seq<string>): Entry
    requires f in t.checkboxes && f in t.bboxes
  {
    var viewed := Get(t.viewed, f, NotViewed);
    Entry(f, viewed, Get(t.rotation, f, 0), Some(Get(t.notes, f, "")),
          Some(MainApp.CheckboxOut(viewed, t.checkboxes[f], findings)), Some(NonEmpty(t.bboxes[f])), None)
  }

  /** The bare list `save_json` writes: one record per listed file, in list order. */
  function Outputs(files: seq<string>, t: Tables, findings: seq<string>): (r: seq<Entry>)
    requires Writable(files, t)
    ensures |r| == |files|
    ensures forall k :: 0 <= k < |r| ==> r[k].filename == files[k] && r[k].radiobuttons.None?
    ensures forall k :: 0 <= k < |r| ==> r[k].checkboxes.Some? && forall c :: c in r[k].checkboxes.value <==> c in findings
    ensures forall k :: 0 <= k < |r| ==> (r[k].viewed == Failed <==> files[k] in t.viewed && t.viewed[files[k]] == Failed)
    ensures forall k :: 0 <= k < |r| && r[k].viewed == Failed ==> forall c :: c in r[k].checkboxes.value ==> r[k].checkboxes.value[c] == Fail
  {
    seq(|files|, k requires 0 <= k < |files| => OutputEntry(files[k], t, findings))
  }

  /** The loop of `save_json` over the file list, on the dictionaries as values. */
  method WriteEntries(files: seq<string>, t: Tables, findings: seq<string>) returns (out: seq<Entry>)
    requires Writable(files, t)
    ensures out == Outputs(files, t, findings)
  {
    out := [];
    for k := 0 to |files|
      invariant |out| == k
      invariant forall j :: 0 <= j < k ==> out[j] == OutputEntry(files[j], t, findings)
    {
      out := out + [OutputEntry(files[k], t, findings)];
    }
  }

  // ---------------------------------------------------------------------------
  // Loading bounding boxes
  // ---------------------------------------------------------------------------

  /**
   * `load_bounding_box` as written: the colour lookup raises for an
   * unconfigured finding, and the check `finding in self.bboxes` looks at the
   * dictionary keyed by file name. Unless the finding is also a file name,
   * the list is therefore replaced by the one new box.
   */
  function LoadBoundingBoxAsWritten(bboxes: map<string, BoxMap<Rect>>, file: string, finding: string, box: Rect, findings: seq<string>): (r: Result<map<string, BoxMap<Rect>>>)
    ensures r.Err? ==> r.error == KeyError
    ensures r.Ok? ==> file in bboxes && r.value.Keys == bboxes.Keys
    ensures r.Ok? && finding !in bboxes ==> r.value[file] == bboxes[file][finding := [box]]
  {
    if finding !in findings || file !in bboxes then Err(KeyError)
    else if finding in bboxes then
      if finding in bboxes[file] then Ok(bboxes[file := bboxes[file][finding := bboxes[file][finding] + [box]]])
      else Err(KeyError)
    else Ok(bboxes[file := bboxes[file][finding := [box]]])
  }

  /**
   * The loop over one finding's coordinate sets, with the loader as
   * written: the finding's list ends as its last box alone; only when the
   * finding is also a file name are the boxes appended, and then the
   * finding must already have a list.
   */
  function LoadBoxesAsWritten(bboxes: map<string, BoxMap<Rect>>, file: string, finding: string, boxes: seq<Rect>, findings: seq<string>): (r: Result<map<string, BoxMap<Rect>>>)
    ensures r.Err? <==> |boxes| > 0 && (finding !in findings || file !in bboxes || (finding in bboxes && finding !in bboxes[file]))
    ensures r.Err? ==> r.error == KeyError
    ensures r.Ok? ==> r.value.Keys == bboxes.Keys && forall g :: g in bboxes && g != file ==> r.value[g] == bboxes[g]
    ensures r.Ok? && |boxes| > 0 && finding !in bboxes ==> r.value[file] == bboxes[file][finding := [boxes[|boxes| - 1]]]
    ensures r.Ok? && |boxes| > 0 && finding in bboxes ==> r.value[file] == bboxes[file][finding := bboxes[file][finding] + boxes]
    decreases |boxes|
  {
    if boxes == [] then Ok(bboxes)
    else
      var n := |boxes| - 1;
      match LoadBoxesAsWritten(bboxes, file, finding, boxes[..n], findings)
      case Err(e) => Err(e)
      case Ok(m) =>
        assert boxes[..n] + [boxes[n]] == boxes;
        assert n > 0 && finding in bboxes ==> m[file][finding] + [boxes[n]] == bboxes[file][finding] + boxes;
        LoadBoundingBoxAsWritten(m, file, finding, boxes[n], findings)
  }

  /** `load_bounding_box` as intended: the new box goes after the boxes the file already holds for the finding. */
  function LoadBoundingBox(bboxes: map<string, BoxMap<Rect>>, file: string, finding: string, box: Rect, findings: seq<string>): (r: Result<map<string, BoxMap<Rect>>>)
  {
    if finding !in findings || file !in bboxes then Err(KeyError)
    else Ok(bboxes[file := bboxes[file][finding := BoxesOf(bboxes[file], finding) + [box]]])
  }

  /**
   * The loop over one finding's coordinate sets, with the loader as
   * intended: the boxes are appended in order, every other list and every
   * other file is left alone.
   */
  function LoadBoxes(bboxes: map<string, BoxMap<Rect>>, file: string, finding: string, boxes: seq<Rect>, findings: seq<string>): (r: Result<map<string, BoxMap<Rect>>>)
    ensures r.Err? <==> |boxes| > 0 && (finding !in findings || file !in bboxes)
    ensures r.Err? ==> r.error == KeyError
    ensures r.Ok? ==> r.value.Keys == bboxes.Keys && forall g :: g in bboxes && g != file ==> r.value[g] == bboxes[g]
    ensures r.Ok? && file in bboxes ==> BoxesOf(r.value[file], finding) == BoxesOf(bboxes[file], finding) + boxes
    ensures r.Ok? && file in bboxes ==> forall k :: k != finding ==> BoxesOf(r.value[file], k) == BoxesOf(bboxes[file], k)
    decreases |boxes|
  {
    if boxes == [] then Ok(bboxes)
    else
      match LoadBoxes(bboxes, file, finding, boxes[..|boxes| - 1], findings)
      case Err(e) => Err(e)
      case Ok(m) =>
        assert boxes[..|boxes| - 1] + [boxes[|boxes| - 1]] == boxes;
        LoadBoundingBox(m, file, finding, boxes[|boxes| - 1], findings)
  }

  /**
   * Two boxes saved for one finding: the loader as written keeps only the
   * second, the intended loader keeps both, in order.
   */
  lemma TwoBoxesAsWritten(b1: Rect, b2: Rect)
    ensures LoadBoxesAsWritten(map["a.dcm" := map[]], "a.dcm", "Nodule", [b1, b2], ["Nodule"]) == Ok(map["a.dcm" := map["Nodule" := [b2]]])
    ensures LoadBoxes(map["a.dcm" := map[]], "a.dcm", "Nodule", [b1, b2], ["Nodule"]) == Ok(map["a.dcm" := map["Nodule" := [b1, b2]]])
  {
    var f, nd, fs := "a.dcm", "Nodule", ["Nodule"];
    var start: map<string, BoxMap<Rect>> := map[f := map[]];
    assert nd in fs && f in start && nd !in start;
    assert [b1, b2][..1] == [b1] && [b1][..0] == [];
    var one := map[f := map[nd := [b1]]];
    assert BoxesOf(start[f], nd) + [b1] == [b1];
    assert start[f][nd := [b1]] == map[nd := [b1]];
    assert start[f := map[nd := [b1]]] == one;
    assert LoadBoundingBox(start, f, nd, b1, fs) == Ok(one);
    assert LoadBoxes(start, f, nd, [b1], fs) == Ok(one);
    assert BoxesOf(one[f], nd) + [b2] == [b1, b2];
    assert one[f][nd := [b1, b2]] == map[nd := [b1, b2]];
    assert one[f := map[nd := [b1, b2]]] == map[f := map[nd := [b1, b2]]];
    assert LoadBoundingBox(one, f, nd, b2, fs) == Ok(map[f := map[nd := [b1, b2]]]);
    assert LoadBoundingBoxAsWritten(start, f, nd, b1, fs) == Ok(one);
    assert LoadBoxesAsWritten(start, f, nd, [b1], fs) == Ok(one);
    assert nd !in one;
    assert one[f][nd := [b2]] == map[nd := [b2]];
    assert one[f := map[nd := [b2]]] == map[f := map[nd := [b2]]];
    assert LoadBoundingBoxAsWritten(one, f, nd, b2, fs) == Ok(map[f := map[nd := [b2]]]);
  }

  /** Some finding of a saved `bboxes` map holds a box, so `load_bounding_box` is called. */
  predicate HasBoxes(add: BoxMap<Rect>)
  {
    exists k :: k in add && |add[k]| > 0
  }

  /** Every box list reduced to its last box; empty lists are dropped. */
  function LastOfEach(m: BoxMap<Rect>): (r: BoxMap<Rect>)
    ensures forall k :: k in r <==> k in m && |m[k]| > 0
    ensures forall k :: k in r ==> r[k] == [m[k][|m[k]| - 1]]
  {
    map k | k in m && |m[k]| > 0 :: [m[k][|m[k]| - 1]]
  }

  /**
   * A file's box dictionary after one record's boxes are loaded with the
   * loader as written, `files` being the names `self.bboxes` is keyed by:
   * a finding that is not a file name keeps only its last saved box, one
   * that is one gets the saved boxes appended.
   */
  function EntryBoxesAsWritten(fm: BoxMap<Rect>, files: set<string>, add: BoxMap<Rect>): (r: BoxMap<Rect>)
    ensures forall k :: k in r <==> k in fm || (k in add && |add[k]| > 0)
    ensures forall k :: k in add && |add[k]| > 0 && k !in files ==> r[k] == [add[k][|add[k]| - 1]]
    ensures forall k :: k in add && |add[k]| > 0 && k in files && k in fm ==> r[k] == fm[k] + add[k]
    ensures forall k :: k in fm && !(k in add && |add[k]| > 0) ==> r[k] == fm[k]
  {
    map k | k in fm.Keys + (set c | c in add && |add[c]| > 0) ::
      if k in add && |add[k]| > 0 then (if k in files && k in fm then fm[k] + add[k] else [add[k][|add[k]| - 1]]) else fm[k]
  }

  /**
   * The boxes of one saved record, loaded by `load_from_json` as written:
   * an unconfigured finding, a file without a dictionary, or a finding that
   * is a file name without a list yet raises `KeyError` once a box is to be
   * loaded; otherwise only the record's file changes, as
   * `EntryBoxesAsWritten` says.
   */
  function LoadEntryBoxesAsWritten(bboxes: map<string, BoxMap<Rect>>, file: string, add: BoxMap<Rect>, findings: seq<string>): (r: Result<map<string, BoxMap<Rect>>>)
    ensures r.Err? <==> HasBoxes(add) && (!MainApp.BoxesConfigured(add, findings) || file !in bboxes ||
                                          exists k :: k in add && |add[k]| > 0 && k in bboxes && k !in bboxes[file])
    ensures r.Err? ==> r.error == KeyError
    ensures r.Ok? ==> r.value.Keys == bboxes.Keys && forall g :: g in bboxes && g != file ==> r.value[g] == bboxes[g]
    ensures r.Ok? && file in bboxes ==> r.value[file] == EntryBoxesAsWritten(bboxes[file], bboxes.Keys, add)
  {
    if !HasBoxes(add) then
      assert file in bboxes ==> EntryBoxesAsWritten(bboxes[file], bboxes.Keys, add) == bboxes[file];
      Ok(bboxes)
    else if !MainApp.BoxesConfigured(add, findings) || file !in bboxes ||
            exists k :: k in add && |add[k]| > 0 && k in bboxes && k !in bboxes[file] then Err(KeyError)
    else Ok(bboxes[file := EntryBoxesAsWritten(bboxes[file], bboxes.Keys, add)])
  }

  /**
   * Loading a record's boxes as written is loading each finding's list
   * with `LoadBoxesAsWritten`, whatever order the findings come in.
   */
  lemma EntryBoxesPerFindingAsWritten(bboxes: map<string, BoxMap<Rect>>, file: string, add: BoxMap<Rect>, findings: seq<string>, k: string)
    requires k in add
    requires LoadEntryBoxesAsWritten(bboxes, file, add, findings).Ok?
    ensures LoadBoxesAsWritten(bboxes, file, k, add[k], findings).Ok?
    ensures file in bboxes ==>
      BoxesOf(LoadEntryBoxesAsWritten(bboxes, file, add, findings).value[file], k) ==
      BoxesOf(LoadBoxesAsWritten(bboxes, file, k, add[k], findings).value[file], k)
  {
    if |add[k]| > 0 {
      assert HasBoxes(add);
    }
  }

  /**
   * The boxes of one saved record, loaded with the intended loader: every
   * configured finding's list grows by the saved boxes; an unconfigured
   * finding, or a file without a dictionary, raises `KeyError` once a box
   * is to be loaded.
   */
  function LoadEntryBoxes(bboxes: map<string, BoxMap<Rect>>, file: string, add: BoxMap<Rect>, findings: seq<string>): (r: Result<map<string, BoxMap<Rect>>>)
    ensures r.Err? <==> HasBoxes(add) && (!MainApp.BoxesConfigured(add, findings) || file !in bboxes)
    ensures r.Err? ==> r.error == KeyError
    ensures r.Ok? ==> r.value.Keys == bboxes.Keys && forall g :: g in bboxes && g != file ==> r.value[g] == bboxes[g]
    ensures r.Ok? && file in bboxes ==> forall k :: BoxesOf(r.value[file], k) == BoxesOf(bboxes[file], k) + BoxesOf(add, k)
  {
    if !HasBoxes(add) then
      assert forall k :: BoxesOf(add, k) == [];
      Ok(bboxes)
    else if !MainApp.BoxesConfigured(add, findings) || file !in bboxes then Err(KeyError)
    else Ok(bboxes[file := AddBoxes(bboxes[file], add)])
  }

  /**
   * Loading a record's boxes is loading each finding's list with the
   * intended loader, whatever order the findings come in: the record's
   * load fails exactly when some finding's load does, and each list ends as
   * that finding's load leaves it.
   */
  lemma EntryBoxesPerFinding(bboxes: map<string, BoxMap<Rect>>, file: string, add: BoxMap<Rect>, findings: seq<string>, k: string)
    requires k in add
    requires LoadEntryBoxes(bboxes, file, add, findings).Ok?
    ensures LoadBoxes(bboxes, file, k, add[k], findings).Ok?
    ensures file in bboxes ==>
      BoxesOf(LoadEntryBoxes(bboxes, file, add, findings).value[file], k) == BoxesOf(LoadBoxes(bboxes, file, k, add[k], findings).value[file], k)
  {
    if |add[k]| > 0 {
      assert HasBoxes(add);
    }
  }

  /** A record whose boxes some finding's load rejects makes the whole record's load fail. */
  lemma EntryBoxesRejects(bboxes: map<string, BoxMap<Rect>>, file: string, add: BoxMap<Rect>, findings: seq<string>, k: string)
    requires k in add && LoadBoxes(bboxes, file, k, add[k], findings).Err?
    ensures LoadEntryBoxes(bboxes, file, add, findings) == Err(KeyError)
  {
    assert HasBoxes(add);
  }

  // ---------------------------------------------------------------------------
  // Loading a session
  // ---------------------------------------------------------------------------

  /**
   * The checkbox values of one record merged into a file's dictionary: the
   * record's values win, names it lacks keep their old value, and a file
   * without a dictionary gets one only if the record has a value.
   */
  function MergeCheckboxes(cv: map<string, map<string, Value>>, f: string, saved: map<string, Value>): (r: map<string, map<string, Value>>)
    ensures forall g :: g != f ==> (g in r <==> g in cv) && (g in cv ==> r[g] == cv[g])
    ensures f in r <==> f in cv || saved != map[]
    ensures f in r ==> forall c :: c in r[f] <==> c in saved || (f in cv && c in cv[f])
    ensures f in r ==> forall c :: c in saved ==> r[f][c] == saved[c]
    ensures f in r ==> forall c :: c !in saved && f in cv && c in cv[f] ==> r[f][c] == cv[f][c]
  {
    if saved == map[] then cv
    else cv[f := (if f in cv then cv[f] else map[]) + saved]
  }

  /**
   * One record stored by `load_from_json`: flag, rotation and notes replace
   * the old ones, checkbox values are merged, boxes are loaded with
   * `load_bounding_box` as written; a record without notes, or boxes the
   * loader rejects, raise `KeyError`.
   */
  function StoreEntry(t: Tables, e: Entry, findings: seq<string>): (r: Result<Tables>)
    ensures r.Err? <==> e.notes.None? || (e.bboxes.Some? && LoadEntryBoxesAsWritten(t.bboxes, e.filename, e.bboxes.value, findings).Err?)
    ensures r.Err? ==> r.error == KeyError
    ensures r.Ok? ==> var f := e.filename;
      && r.value.viewed == t.viewed[f := e.viewed] && r.value.rotation == t.rotation[f := e.rotation]
      && r.value.notes == t.notes[f := e.notes.value]
      && r.value.checkboxes == (if e.checkboxes.Some? then MergeCheckboxes(t.checkboxes, f, e.checkboxes.value) else t.checkboxes)
      && r.value.bboxes == (if e.bboxes.Some? then LoadEntryBoxesAsWritten(t.bboxes, f, e.bboxes.value, findings).value else t.bboxes)
  {
    if e.notes.None? then Err(KeyError)
    else
      var f := e.filename;
      var cv := if e.checkboxes.Some? then MergeCheckboxes(t.checkboxes, f, e.checkboxes.value) else t.checkboxes;
      var b := if e.bboxes.Some? then LoadEntryBoxesAsWritten(t.bboxes, f, e.bboxes.value, findings) else Ok(t.bboxes);
      match b
      case Err(x) => Err(x)
      case Ok(bb) => Ok(Tables(t.viewed[f := e.viewed], t.rotation[f := e.rotation], t.notes[f := e.notes.value], cv, bb))
  }

  /** The dictionaries after the loop of `load_from_json` over the records, in order; a bad record raises. */
  function LoadTables(t: Tables, entries: seq<Entry>, findings: seq<string>): (r: Result<Tables>)
    ensures r.Err? ==> r.error == KeyError
    decreases |entries|
  {
    if entries == [] then Ok(t)
    else
      match LoadTables(t, entries[..|entries| - 1], findings)
      case Err(x) => Err(x)
      case Ok(u) => StoreEntry(u, entries[|entries| - 1], findings)
  }

  /** No file and no checkbox name is lost from the dictionaries. */
  ghost predicate Grows(t: Tables, u: Tables)
  {
    && t.viewed.Keys <= u.viewed.Keys && t.rotation.Keys <= u.rotation.Keys && t.notes.Keys <= u.notes.Keys
    && t.bboxes.Keys == u.bboxes.Keys
    && forall g :: g in t.checkboxes ==> g in u.checkboxes && t.checkboxes[g].Keys <= u.checkboxes[g].Keys
  }

  lemma StoreEntryGrows(t: Tables, e: Entry, findings: seq<string>)
    requires StoreEntry(t, e, findings).Ok?
    ensures Grows(t, StoreEntry(t, e, findings).value)
  {
  }

  /** Loading keeps every file and every checkbox name the dictionaries held, and adds no file to `bboxes`. */
  lemma {:induction false} LoadTablesGrows(t: Tables, entries: seq<Entry>, findings: seq<string>)
    requires LoadTables(t, entries, findings).Ok?
    ensures Grows(t, LoadTables(t, entries, findings).value)
    decreases |entries|
  {
    if entries != [] {
      var n := |entries| - 1;
      var mid := LoadTables(t, entries[..n], findings).value;
      LoadTablesGrows(t, entries[..n], findings);
      StoreEntryGrows(mid, entries[n], findings);
    }
  }

  /** No finding that holds a box shares its name with a key of `self.bboxes`. */
  predicate NoFileFinding(add: BoxMap<Rect>, files: set<string>)
  {
    forall c :: c in add && |add[c]| > 0 ==> c !in files
  }

  /**
   * The load succeeds when every record has notes, holds boxes only for
   * configured findings that are not file names, and names a file with a
   * box dictionary.
   */
  lemma {:induction false} LoadTablesOk(t: Tables, entries: seq<Entry>, findings: seq<string>)
    requires forall k :: 0 <= k < |entries| ==> entries[k].notes.Some? && entries[k].filename in t.bboxes
    requires forall k :: 0 <= k < |entries| && entries[k].bboxes.Some? ==> MainApp.BoxesConfigured(entries[k].bboxes.value, findings)
    requires forall k :: 0 <= k < |entries| && entries[k].bboxes.Some? ==> NoFileFinding(entries[k].bboxes.value, t.bboxes.Keys)
    ensures LoadTables(t, entries, findings).Ok?
    decreases |entries|
  {
    if entries != [] {
      var n := |entries| - 1;
      LoadTablesOk(t, entries[..n], findings);
      LoadTablesGrows(t, entries[..n], findings);
    }
  }

  /** File `f` is held alike, or absent alike, in the two sets of dictionaries. */
  predicate SameAt(t: Tables, u: Tables, f: string)
  {
    && (f in t.viewed <==> f in u.viewed) && (f in t.viewed ==> t.viewed[f] == u.viewed[f])
    && (f in t.rotation <==> f in u.rotation) && (f in t.rotation ==> t.rotation[f] == u.rotation[f])
    && (f in t.notes <==> f in u.notes) && (f in t.notes ==> t.notes[f] == u.notes[f])
    && (f in t.checkboxes <==> f in u.checkboxes) && (f in t.checkboxes ==> t.checkboxes[f] == u.checkboxes[f])
    && (f in t.bboxes <==> f in u.bboxes) && (f in t.bboxes ==> t.bboxes[f] == u.bboxes[f])
  }

  /** Storing a record touches only its own file, and what it leaves there depends only on what that file held. */
  lemma StoreEntryLocal(t: Tables, t': Tables, e: Entry, findings: seq<string>)
    requires SameAt(t, t', e.filename) && t.bboxes.Keys == t'.bboxes.Keys
    ensures StoreEntry(t, e, findings).Ok? <==> StoreEntry(t', e, findings).Ok?
    ensures StoreEntry(t, e, findings).Ok? ==> SameAt(StoreEntry(t, e, findings).value, StoreEntry(t', e, findings).value, e.filename)
  {
    var f := e.filename;
    if e.bboxes.Some? {
      LoadEntryBoxesLocal(t.bboxes, t'.bboxes, f, e.bboxes.value, findings);
    }
    if StoreEntry(t, e, findings).Ok? {
      StoreEntrySameAt(t, t', e, findings);
    }
  }

  lemma StoreEntrySameAt(t: Tables, t': Tables, e: Entry, findings: seq<string>)
    requires SameAt(t, t', e.filename) && t.bboxes.Keys == t'.bboxes.Keys
    requires StoreEntry(t, e, findings).Ok? && StoreEntry(t', e, findings).Ok?
    ensures SameAt(StoreEntry(t, e, findings).value, StoreEntry(t', e, findings).value, e.filename)
  {
    StoreEntryScalarsLocal(t, t', e, findings);
    StoreEntryCheckboxesLocal(t, t', e, findings);
    StoreEntryBoxesLocal(t, t', e, findings);
  }

  lemma StoreEntryScalarsLocal(t: Tables, t': Tables, e: Entry, findings: seq<string>)
    requires SameAt(t, t', e.filename)
    requires StoreEntry(t, e, findings).Ok? && StoreEntry(t', e, findings).Ok?
    ensures var u, u', f := StoreEntry(t, e, findings).value, StoreEntry(t', e, findings).value, e.filename;
      && (f in u.viewed <==> f in u'.viewed) && (f in u.viewed ==> u.viewed[f] == u'.viewed[f])
      && (f in u.rotation <==> f in u'.rotation) && (f in u.rotation ==> u.rotation[f] == u'.rotation[f])
      && (f in u.notes <==> f in u'.notes) && (f in u.notes ==> u.notes[f] == u'.notes[f])
  {
  }

  lemma StoreEntryCheckboxesLocal(t: Tables, t': Tables, e: Entry, findings: seq<string>)
    requires SameAt(t, t', e.filename)
    requires StoreEntry(t, e, findings).Ok? && StoreEntry(t', e, findings).Ok?
    ensures var u, u', f := StoreEntry(t, e, findings).value, StoreEntry(t', e, findings).value, e.filename;
      (f in u.checkboxes <==> f in u'.checkboxes) && (f in u.checkboxes ==> u.checkboxes[f] == u'.checkboxes[f])
  {
    if e.checkboxes.Some? {
      MergeCheckboxesLocal(t.checkboxes, t'.checkboxes, e.filename, e.checkboxes.value);
    }
  }

  lemma StoreEntryBoxesLocal(t: Tables, t': Tables, e: Entry, findings: seq<string>)
    requires SameAt(t, t', e.filename) && t.bboxes.Keys == t'.bboxes.Keys
    requires StoreEntry(t, e, findings).Ok? && StoreEntry(t', e, findings).Ok?
    ensures var u, u', f := StoreEntry(t, e, findings).value, StoreEntry(t', e, findings).value, e.filename;
      (f in u.bboxes <==> f in u'.bboxes) && (f in u.bboxes ==> u.bboxes[f] == u'.bboxes[f])
  {
    if e.bboxes.Some? {
      LoadEntryBoxesLocal(t.bboxes, t'.bboxes, e.filename, e.bboxes.value, findings);
    }
  }

  lemma MergeCheckboxesLocal(cv: map<string, map<string, Value>>, cv': map<string, map<string, Value>>, f: string, saved: map<string, Value>)
    requires (f in cv <==> f in cv') && (f in cv ==> cv[f] == cv'[f])
    ensures var a, b := MergeCheckboxes(cv, f, saved), MergeCheckboxes(cv', f, saved);
      (f in a <==> f in b) && (f in a ==> a[f] == b[f])
  {
    if saved != map[] {
      assert MergeCheckboxes(cv, f, saved)[f] == MergeCheckboxes(cv', f, saved)[f];
    }
  }

  lemma LoadEntryBoxesLocal(bb: map<string, BoxMap<Rect>>, bb': map<string, BoxMap<Rect>>, f: string, add: BoxMap<Rect>, findings: seq<string>)
    requires (f in bb <==> f in bb') && (f in bb ==> bb[f] == bb'[f]) && bb.Keys == bb'.Keys
    ensures LoadEntryBoxesAsWritten(bb, f, add, findings).Ok? <==> LoadEntryBoxesAsWritten(bb', f, add, findings).Ok?
    ensures var a, b := LoadEntryBoxesAsWritten(bb, f, add, findings), LoadEntryBoxesAsWritten(bb', f, add, findings);
      a.Ok? ==> (f in a.value <==> f in b.value) && (f in a.value ==> a.value[f] == b.value[f])
  {
  }

  /** Storing a record leaves every other file as it was. */
  lemma StoreEntryOthers(t: Tables, e: Entry, findings: seq<string>, g: string)
    requires StoreEntry(t, e, findings).Ok? && g != e.filename
    ensures SameAt(t, StoreEntry(t, e, findings).value, g)
  {
  }

  /** A file no record names is as it was before the load. */
  lemma {:induction false} LoadTablesAbsent(t: Tables, entries: seq<Entry>, findings: seq<string>, f: string)
    requires LoadTables(t, entries, findings).Ok?
    requires forall k :: 0 <= k < |entries| ==> entries[k].filename != f
    ensures SameAt(t, LoadTables(t, entries, findings).value, f)
    decreases |entries|
  {
    if entries != [] {
      var n := |entries| - 1;
      var mid := LoadTables(t, entries[..n], findings).value;
      LoadTablesAbsent(t, entries[..n], findings, f);
      StoreEntryOthers(mid, entries[n], findings, f);
    }
  }

  /** A file named by exactly one record holds what storing that record alone would leave. */
  lemma {:induction false} LoadTablesOnce(t: Tables, entries: seq<Entry>, findings: seq<string>, k: int)
    requires LoadTables(t, entries, findings).Ok?
    requires 0 <= k < |entries| && forall j :: 0 <= j < |entries| && j != k ==> entries[j].filename != entries[k].filename
    ensures StoreEntry(t, entries[k], findings).Ok?
    ensures SameAt(StoreEntry(t, entries[k], findings).value, LoadTables(t, entries, findings).value, entries[k].filename)
    decreases |entries|
  {
    var n := |entries| - 1;
    var p := entries[..n];
    var mid := LoadTables(t, p, findings).value;
    var f := entries[k].filename;
    assert LoadTables(t, entries, findings) == StoreEntry(mid, entries[n], findings);
    if k == n {
      LoadTablesAbsent(t, p, findings, f);
      LoadTablesGrows(t, p, findings);
      StoreEntryLocal(t, mid, entries[n], findings);
    } else {
      LoadTablesOnce(t, p, findings, k);
      StoreEntryOthers(mid, entries[n], findings, f);
    }
  }

  /** The dictionaries `__init__` sets up for the folder's files before anything is loaded. */
  function Fresh(files: seq<string>, findings: seq<string>): (t: Tables)
    ensures forall f :: f in files ==> f in t.viewed && t.viewed[f] == NotViewed && f in t.bboxes && t.bboxes[f] == map[]
    ensures forall f :: f in files ==> f in t.checkboxes && forall c :: c in t.checkboxes[f] <==> c in findings
    ensures forall f :: f in t.bboxes <==> f in files
  {
    Tables(map f | f in files :: NotViewed, map f | f in files :: 0, map f | f in files :: "",
           map f | f in files :: map c | c in findings :: Int(0), map f | f in files :: map[])
  }

  /**
   * A session written by `save_json` loads back into the dictionaries of a
   * new window, as long as no finding is named like an image file: each
   * file gets its flag, rotation, notes and checkbox map as saved, but
   * every finding keeps only the last of its saved boxes. The round trip
   * of the boxes thus holds exactly for sessions with at most one box per
   * finding, and a finding saved with several boxes loads back with one.
   */
  lemma SavedSessionLoads(files: seq<string>, t: Tables, findings: seq<string>, f: string)
    requires Distinct(files) && Writable(files, t)
    requires MainApp.Keyed(files, t.viewed) && MainApp.Keyed(files, t.rotation) && MainApp.Keyed(files, t.notes)
    requires forall k :: 0 <= k < |files| ==> MainApp.BoxesConfigured(t.bboxes[files[k]], findings)
    requires forall c :: c in findings ==> c !in files
    requires f in files
    ensures LoadTables(Fresh(files, findings), Outputs(files, t, findings), findings).Ok?
    ensures var u := LoadTables(Fresh(files, findings), Outputs(files, t, findings), findings).value;
      && f in u.viewed && u.viewed[f] == t.viewed[f]
      && f in u.rotation && u.rotation[f] == t.rotation[f]
      && f in u.notes && u.notes[f] == t.notes[f]
      && f in u.checkboxes && u.checkboxes[f] == MainApp.CheckboxOut(t.viewed[f], t.checkboxes[f], findings)
      && f in u.bboxes && u.bboxes[f] == LastOfEach(t.bboxes[f])
      && ((forall c :: c in t.bboxes[f] ==> |t.bboxes[f][c]| <= 1) ==> u.bboxes[f] == NonEmpty(t.bboxes[f]))
      && (forall c :: c in t.bboxes[f] && |t.bboxes[f][c]| > 1 ==> c in u.bboxes[f] && |u.bboxes[f][c]| == 1)
  {
    var start := Fresh(files, findings);
    var out := Outputs(files, t, findings);
    SavedSessionLoadable(files, t, findings);
    var j :| 0 <= j < |files| && files[j] == f;
    forall i | 0 <= i < |out| && i != j
      ensures out[i].filename != out[j].filename
    {
    }
    LoadTablesOnce(start, out, findings, j);
    assert out[j] == OutputEntry(f, t, findings);
    FreshStore(files, t, findings, f);
    LastOfEachSingle(t.bboxes[f]);
  }

  /** With at most one box per finding, keeping the last box of each list keeps the non-empty lists. */
  lemma LastOfEachSingle(m: BoxMap<Rect>)
    ensures (forall c :: c in m ==> |m[c]| <= 1) ==> LastOfEach(m) == NonEmpty(m)
  {
    if forall c :: c in m ==> |m[c]| <= 1 {
      forall c | c in LastOfEach(m)
        ensures LastOfEach(m)[c] == NonEmpty(m)[c]
      {
        assert m[c] == [m[c][0]];
      }
    }
  }

  /** A session written with configured box lists, none under a file name, loads into a new window without an error. */
  lemma SavedSessionLoadable(files: seq<string>, t: Tables, findings: seq<string>)
    requires Writable(files, t)
    requires forall k :: 0 <= k < |files| ==> MainApp.BoxesConfigured(t.bboxes[files[k]], findings)
    requires forall c :: c in findings ==> c !in files
    ensures LoadTables(Fresh(files, findings), Outputs(files, t, findings), findings).Ok?
  {
    var start := Fresh(files, findings);
    var out := Outputs(files, t, findings);
    forall k | 0 <= k < |out| && out[k].bboxes.Some?
      ensures MainApp.BoxesConfigured(out[k].bboxes.value, findings)
      ensures NoFileFinding(out[k].bboxes.value, start.bboxes.Keys)
    {
      assert out[k] == OutputEntry(files[k], t, findings);
    }
    forall k | 0 <= k < |out|
      ensures out[k].notes.Some? && out[k].filename in start.bboxes
    {
      assert out[k] == OutputEntry(files[k], t, findings);
      assert files[k] in files;
    }
    LoadTablesOk(start, out, findings);
  }

  /** The record `save_json` writes for a file, stored into the dictionaries of a new window. */
  lemma FreshStore(files: seq<string>, t: Tables, findings: seq<string>, f: string)
    requires f in files && f in t.viewed && f in t.rotation && f in t.notes && f in t.checkboxes && f in t.bboxes
    requires MainApp.BoxesConfigured(t.bboxes[f], findings)
    requires forall c :: c in findings ==> c !in files
    ensures StoreEntry(Fresh(files, findings), OutputEntry(f, t, findings), findings).Ok?
    ensures var s := StoreEntry(Fresh(files, findings), OutputEntry(f, t, findings), findings).value;
      && f in s.viewed && s.viewed[f] == t.viewed[f]
      && f in s.rotation && s.rotation[f] == t.rotation[f]
      && f in s.notes && s.notes[f] == t.notes[f]
      && f in s.checkboxes && s.checkboxes[f] == MainApp.CheckboxOut(t.viewed[f], t.checkboxes[f], findings)
      && f in s.bboxes && s.bboxes[f] == LastOfEach(t.bboxes[f])
  {
    var nb := NonEmpty(t.bboxes[f]);
    assert MainApp.BoxesConfigured(nb, findings);
    assert NoFileFinding(nb, Fresh(files, findings).bboxes.Keys);
    FreshStoreCheckboxes(files, t, findings, f);
    FreshStoreBoxes(files, t, findings, f);
  }

  lemma FreshStoreCheckboxes(files: seq<string>, t: Tables, findings: seq<string>, f: string)
    requires f in files && f in t.viewed && f in t.rotation && f in t.notes && f in t.checkboxes && f in t.bboxes
    requires StoreEntry(Fresh(files, findings), OutputEntry(f, t, findings), findings).Ok?
    ensures var s := StoreEntry(Fresh(files, findings), OutputEntry(f, t, findings), findings).value;
      f in s.checkboxes && s.checkboxes[f] == MainApp.CheckboxOut(t.viewed[f], t.checkboxes[f], findings)
  {
    var start := Fresh(files, findings);
    var saved := MainApp.CheckboxOut(t.viewed[f], t.checkboxes[f], findings);
    var s := StoreEntry(start, OutputEntry(f, t, findings), findings).value;
    assert s.checkboxes == MergeCheckboxes(start.checkboxes, f, saved);
    if saved != map[] {
      assert start.checkboxes[f] + saved == saved;
    }
  }

  lemma FreshStoreBoxes(files: seq<string>, t: Tables, findings: seq<string>, f: string)
    requires f in files && f in t.viewed && f in t.rotation && f in t.notes && f in t.checkboxes && f in t.bboxes
    requires StoreEntry(Fresh(files, findings), OutputEntry(f, t, findings), findings).Ok?
    requires NoFileFinding(t.bboxes[f], Fresh(files, findings).bboxes.Keys)
    ensures var s := StoreEntry(Fresh(files, findings), OutputEntry(f, t, findings), findings).value;
      f in s.bboxes && s.bboxes[f] == LastOfEach(t.bboxes[f])
  {
    var start := Fresh(files, findings);
    var nb := NonEmpty(t.bboxes[f]);
    var s := StoreEntry(start, OutputEntry(f, t, findings), findings).value;
    assert s.bboxes == LoadEntryBoxesAsWritten(start.bboxes, f, nb, findings).value;
    LoadIntoEmpty(start.bboxes, f, nb, findings);
    assert LastOfEach(nb) == LastOfEach(t.bboxes[f]);
  }

  /**
   * Loading lists into a file that holds no box, with the loader as
   * written and no finding named like a file, leaves each finding that had
   * boxes with its last box only.
   */
  lemma LoadIntoEmpty(bboxes: map<string, BoxMap<Rect>>, f: string, add: BoxMap<Rect>, findings: seq<string>)
    requires f in bboxes && bboxes[f] == map[]
    requires LoadEntryBoxesAsWritten(bboxes, f, add, findings).Ok?
    requires NoFileFinding(add, bboxes.Keys)
    ensures f in LoadEntryBoxesAsWritten(bboxes, f, add, findings).value
    ensures LoadEntryBoxesAsWritten(bboxes, f, add, findings).value[f] == LastOfEach(add)
  {
    assert EntryBoxesAsWritten(map[], bboxes.Keys, add) == LastOfEach(add);
  }

  /** The loop of `load_from_json`, on the dictionaries as values: record after record, stopping at the first that raises. */
  method LoadEntries(t: Tables, entries: seq<Entry>, findings: seq<string>) returns (r: Result<Tables>)
    ensures r == LoadTables(t, entries, findings)
  {
    var u := t;
    for i := 0 to |entries|
      invariant LoadTables(t, entries[..i], findings) == Ok(u)
    {
      assert entries[..i + 1][..i] == entries[..i];
      var s := StoreEntry(u, entries[i], findings);
      if s.Err? {
        assert LoadTables(t, entries[..i + 1], findings).Err?;
        LoadTablesPrefixErr(t, entries, findings, i + 1);
        return s;
      }
      u := s.value;
    }
    assert entries[..|entries|] == entries;
    return Ok(u);
  }

  /** Once a prefix of the records fails, the whole load fails. */
  lemma {:induction false} LoadTablesPrefixErr(t: Tables, entries: seq<Entry>, findings: seq<string>, i: int)
    requires 0 <= i <= |entries| && LoadTables(t, entries[..i], findings).Err?
    ensures LoadTables(t, entries, findings) == LoadTables(t, entries[..i], findings)
    decreases |entries| - i
  {
    if i < |entries| {
      assert entries[..i + 1][..i] == entries[..i];
      LoadTablesPrefixErr(t, entries, findings, i + 1);
    } else {
      assert entries[..i] == entries;
    }
  }

  // ---------------------------------------------------------------------------
  // Restoring a session
  // ---------------------------------------------------------------------------

  /** `[f for f in files if viewed[f]]` (`want` true) or `[f for f in files if not viewed[f]]` (`want` false). */
  function Select(files: seq<string>, viewed: map<string, ViewedFlag>, want: bool): (r: seq<string>)
    requires MainApp.Keyed(files, viewed)
    ensures |r| <= |files|
    ensures forall f :: f in r <==> f in files && viewed[f].Truthy() == want
    ensures forall i :: 0 <= i < |r| ==> r[i] in viewed && viewed[r[i]].Truthy() == want
    ensures (forall f :: f in files ==> viewed[f].Truthy() != want) ==> r == []
    decreases |files|
  {
    if files == [] then []
    else
      var rest := Select(files[1..], viewed, want);
      if viewed[files[0]].Truthy() == want then [files[0]] + rest else rest
  }

  /**
   * `restore_from_saved_state` of the older window: the position of the
   * saved file if it is listed, else the saved index as it is, with no
   * bound check; without both settings the cursor stays.
   */
  function RestoreIndex(files: seq<string>, saved: Option<(string, nat)>, cur: int): (r: int)
    ensures saved.None? ==> r == cur
    ensures saved.Some? && saved.value.0 in files ==>
      0 <= r < |files| && r == MainApp.RestoreIndex(files, Some((saved.value.0, saved.value.1 as int)), cur)
    ensures saved.Some? && saved.value.0 !in files ==> r == saved.value.1
  {
    match saved
    case None => cur
    case Some((lastFile, lastIndex)) =>
      if lastFile in files then Strings.IndexOf(files, lastFile) else lastIndex
  }

  /**
   * The reordered list: the unviewed files after position `idx`, then the
   * viewed files up to and including it; the list as it was when no file
   * after `idx` is unviewed.
   */
  function Reorder(files: seq<string>, viewed: map<string, ViewedFlag>, idx: nat): (r: seq<string>)
    requires MainApp.Keyed(files, viewed)
  {
    var cut := if idx + 1 <= |files| then idx + 1 else |files|;
    var after := Select(files[cut..], viewed, false);
    if after == [] then files else after + Select(files[..cut], viewed, true)
  }

  /** Every file of the reordered list is listed, and with no unviewed file after `idx` the list is kept as it is. */
  lemma ReorderKeeps(files: seq<string>, viewed: map<string, ViewedFlag>, idx: nat)
    requires MainApp.Keyed(files, viewed)
    ensures forall f :: f in Reorder(files, viewed, idx) ==> f in files
    ensures (forall j :: idx < j < |files| ==> viewed[files[j]].Truthy()) ==> Reorder(files, viewed, idx) == files
  {
    var cut := if idx + 1 <= |files| then idx + 1 else |files|;
    var tail, head := files[cut..], files[..cut];
    assert MainApp.Keyed(tail, viewed) && MainApp.Keyed(head, viewed);
    var after := Select(tail, viewed, false);
    assert forall f :: f in tail ==> f in files;
    assert forall f :: f in head ==> f in files;
    if forall j :: idx < j < |files| ==> viewed[files[j]].Truthy() {
      forall f | f in tail
        ensures viewed[f].Truthy()
      {
        var i :| 0 <= i < |tail| && tail[i] == f;
        assert files[cut + i] == f;
      }
    }
  }

  /**
   * When some file after `idx` is unviewed, the list becomes the unviewed
   * files after `idx`, then the viewed ones at or before it: a listed file
   * is kept exactly when it is one of those, and the others are dropped.
   */
  lemma ReorderKept(files: seq<string>, viewed: map<string, ViewedFlag>, idx: nat, f: string)
    requires MainApp.Keyed(files, viewed)
    requires exists j :: idx < j < |files| && !viewed[files[j]].Truthy()
    ensures var cut := if idx + 1 <= |files| then idx + 1 else |files|;
      Reorder(files, viewed, idx) == Select(files[cut..], viewed, false) + Select(files[..cut], viewed, true)
    ensures f in Reorder(files, viewed, idx) <==>
      (exists j :: idx < j < |files| && files[j] == f && !viewed[f].Truthy()) ||
      (exists j :: 0 <= j <= idx && j < |files| && files[j] == f && viewed[f].Truthy())
  {
    var cut := if idx + 1 <= |files| then idx + 1 else |files|;
    var tail, head := files[cut..], files[..cut];
    assert MainApp.Keyed(tail, viewed) && MainApp.Keyed(head, viewed);
    var j :| idx < j < |files| && !viewed[files[j]].Truthy();
    assert tail[j - cut] == files[j];
    assert Select(tail, viewed, false) != [];
    SliceMembers(files, cut, |files|, f);
    SliceMembers(files, 0, cut, f);
  }

  /** A name is in a slice exactly when it is listed at one of the slice's positions. */
  lemma SliceMembers(files: seq<string>, lo: int, hi: int, f: string)
    requires 0 <= lo <= hi <= |files|
    ensures f in files[lo..hi] <==> exists j :: lo <= j < hi && files[j] == f
  {
    if f in files[lo..hi] {
      var i :| 0 <= i < hi - lo && files[lo..hi][i] == f;
      assert files[lo + i] == f;
    }
    if j :| lo <= j < hi && files[j] == f {
      assert files[lo..hi][j - lo] == f;
    }
  }

  /**
   * The saved index is not checked, and the list can shrink, so the cursor
   * can end past the end of the list: three unviewed files, saved at the
   * second, leave only the third, with the cursor at position 1.
   */
  lemma RestoreLeavesCursorOutside()
    ensures var viewed := map["a.dcm" := NotViewed, "b.dcm" := NotViewed, "c.dcm" := NotViewed];
      Reorder(["a.dcm", "b.dcm", "c.dcm"], viewed, 1) == ["c.dcm"]
  {
    var files := ["a.dcm", "b.dcm", "c.dcm"];
    var viewed := map["a.dcm" := NotViewed, "b.dcm" := NotViewed, "c.dcm" := NotViewed];
    assert files[2..] == ["c.dcm"] && files[..2] == ["a.dcm", "b.dcm"];
    assert ["c.dcm"][1..] == [];
    assert Select(["c.dcm"], viewed, false) == ["c.dcm"];
    assert Select(["a.dcm", "b.dcm"], viewed, true) == [] by {
      assert ["a.dcm", "b.dcm"][1..] == ["b.dcm"];
      assert ["b.dcm"][1..] == [];
    }
  }

  // ---------------------------------------------------------------------------
  // Saving before closing
  // ---------------------------------------------------------------------------

  /**
   * What `save_to_json` returns as written, with Python's `None` as
   * `None`. For a new session, `save_as` returns `False` when its dialog
   * is cancelled and falls off its end, returning `None`, after writing
   * the file; both are falsy, so `save_to_json` returns `False` either
   * way. For a loaded session it writes the file and returns `None`.
   */
  function SaveToJsonAsWritten(loaded: bool, dialogAccepted: bool): (r: Option<bool>)
    ensures r == Some(false) <==> !loaded
    ensures r == None <==> loaded
    ensures r != Some(true)
  {
    if !loaded then Some(false) else None
  }

  /**
   * `closeEvent` as written: whether the window closes, and whether the
   * session was written. After "Yes" the result of `save_to_json` is taken
   * for truth, and it is never true.
   */
  function CloseEventAsWritten(button: MainApp.Button, loaded: bool, dialogAccepted: bool): (r: (bool, bool))
    ensures r.1 <==> button == MainApp.Yes && (loaded || dialogAccepted)
  {
    match button
    case Yes =>
      var saved := SaveToJsonAsWritten(loaded, dialogAccepted);
      (saved == Some(true), loaded || dialogAccepted)
    case Cancel => (false, false)
    case No => (true, false)
  }

  /** Only "No" closes the window; "Yes" on a loaded session writes it and still keeps the window open. */
  lemma YesNeverCloses(button: MainApp.Button, loaded: bool, dialogAccepted: bool)
    ensures CloseEventAsWritten(button, loaded, dialogAccepted).0 <==> button == MainApp.No
    ensures CloseEventAsWritten(MainApp.Yes, true, dialogAccepted) == (false, true)
  {
  }

  /**
   * The close decision as intended is that of the current window: the two
   * differ exactly when "Yes" is chosen and the session gets written, and
   * then the intended one closes.
   */
  lemma CloseEventCorrected(button: MainApp.Button, loaded: bool, dialogAccepted: bool)
    ensures CloseEventAsWritten(button, loaded, dialogAccepted) != MainApp.CloseEvent(button, loaded, dialogAccepted) <==>
      button == MainApp.Yes && (loaded || dialogAccepted)
    ensures button == MainApp.Yes && (loaded || dialogAccepted) ==> MainApp.CloseEvent(button, loaded, dialogAccepted) == (true, true)
    ensures CloseEventAsWritten(button, loaded, dialogAccepted).1 == MainApp.CloseEvent(button, loaded, dialogAccepted).1
  {
  }

  // ---------------------------------------------------------------------------
  // The window
  // ---------------------------------------------------------------------------

  /** The dictionaries hold every listed file, and each file's checkbox map every configured name. */
  ghost predicate Covers(files: seq<string>, t: Tables, findings: seq<string>)
  {
    && MainApp.Keyed(files, t.viewed) && MainApp.Keyed(files, t.rotation) && MainApp.Keyed(files, t.notes)
    && MainApp.Keyed(files, t.bboxes) && MainApp.Keyed(files, t.checkboxes)
    && forall k :: 0 <= k < |files| ==> forall c :: c in findings ==> c in t.checkboxes[files[k]]
  }

  /** The dictionaries of a new window cover its files. */
  lemma FreshCovers(files: seq<string>, findings: seq<string>)
    ensures Covers(files, Fresh(files, findings), findings)
  {
    var t := Fresh(files, findings);
    assert forall k :: 0 <= k < |files| ==> files[k] in files;
    assert MainApp.Keyed(files, t.viewed) && MainApp.Keyed(files, t.bboxes);
  }

  /** What a load that keeps every file and checkbox name keeps covered. */
  lemma GrowsCovers(files: seq<string>, t: Tables, u: Tables, findings: seq<string>)
    requires Covers(files, t, findings) && Grows(t, u)
    ensures Covers(files, u, findings)
  {
  }

  /** A list made of listed files is covered by the same dictionaries. */
  lemma SubsetCovers(files: seq<string>, l: seq<string>, t: Tables, findings: seq<string>)
    requires Covers(files, t, findings) && forall f :: f in l ==> f in files
    ensures Covers(l, t, findings)
  {
    forall k | 0 <= k < |l|
      ensures l[k] in t.viewed && l[k] in t.rotation && l[k] in t.notes && l[k] in t.bboxes
      ensures l[k] in t.checkboxes && forall c :: c in findings ==> c in t.checkboxes[l[k]]
    {
      assert l[k] in files;
      var j :| 0 <= j < |files| && files[j] == l[k];
    }
  }

  class MainWindow {
    var fileList: seq<string>
    var currentIndex: int
    var viewedValues: map<string, ViewedFlag>
    var rotation: map<string, int>
    var notes: map<string, string>
    var checkboxValues: map<string, map<string, Value>>
    var bboxes: map<string, BoxMap<Rect>>
    /** The boxes on screen: `image_view.rect_items`. */
    var rectItems: BoxMap<Rect>
    var findings: seq<string>
    var loaded: bool

    /** The five per-file dictionaries. */
    function Snapshot(): Tables
      reads this`viewedValues, this`rotation, this`notes, this`checkboxValues, this`bboxes
    {
      Tables(viewedValues, rotation, notes, checkboxValues, bboxes)
    }

    /**
     * The cursor is on a listed file and the dictionaries cover the list,
     * so the lookups of navigation, rotation, saving and the checkbox
     * display (`set_checkbox_value`) never raise.
     */
    ghost predicate Valid()
      reads this`fileList, this`currentIndex, this`viewedValues, this`rotation, this`notes, this`checkboxValues, this`bboxes, this`findings
    {
      0 <= currentIndex < |fileList| && Covers(fileList, Snapshot(), findings)
    }

    /**
     * The dictionaries `__init__` builds for the sorted DICOM files of the
     * folder listing, before a session is loaded; a folder without DICOM
     * files raises at the first `file_list[current_index]`, which the
     * precondition excludes.
     */
    constructor(listing: seq<string>, configured: seq<string>)
      requires |Strings.DcmNames(listing)| > 0
      ensures Valid()
      ensures fileList == Strings.SortStrings(Strings.DcmNames(listing))
      ensures forall f :: f in fileList <==> f in listing && Strings.EndsWith(f, ".dcm")
      ensures forall i, j :: 0 <= i < j < |fileList| ==> Strings.Le(fileList[i], fileList[j])
      ensures currentIndex == 0 && findings == configured && !loaded && rectItems == map[]
      ensures Snapshot() == Fresh(fileList, configured)
    {
      var files := Strings.SortStrings(Strings.DcmNames(listing));
      var t := Fresh(files, configured);
      fileList, currentIndex, findings, loaded, rectItems := files, 0, configured, false, map[];
      viewedValues, rotation, notes, checkboxValues, bboxes := t.viewed, t.rotation, t.notes, t.checkboxes, t.bboxes;
      new;
      assert Snapshot() == t;
      DcmFiles(listing);
      FreshCovers(files, configured);
    }

    /**
     * What `change_image` does: a direction other than "previous" and
     * "next" raises before anything changes; otherwise the file left is
     * marked, its boxes are stored, the cursor moves and the new file's
     * boxes are put on screen.
     */
    twostate predicate ChangeImageEffect(direction: string, prevFailed: bool, new r: Option<Error>)
      reads this
      requires old(Valid())
    {
      var cur := old(fileList[currentIndex]);
      var marked := old(viewedValues)[cur := LeaveMark(prevFailed)];
      && MainApp.Keyed(old(fileList), marked)
      && (direction != "previous" && direction != "next" ==>
            && r == Some(ValueError)
            && viewedValues == old(viewedValues) && bboxes == old(bboxes) && currentIndex == old(currentIndex) && rectItems == old(rectItems))
      && (direction == "previous" || direction == "next" ==>
            var target := if direction == "previous" then MainApp.PrevIndex(old(currentIndex), old(|fileList|))
                          else SearchNext(old(fileList), marked, old(currentIndex));
            && r.None?
            && viewedValues == marked
            && bboxes == old(bboxes)[cur := old(rectItems)]
            && currentIndex == target
            && old(fileList)[target] in bboxes
            && rectItems == NonEmpty(bboxes[old(fileList)[target]]))
    }

    /** `change_image`. */
    method ChangeImage(direction: string, prevFailed: bool) returns (r: Option<Error>)
      requires Valid()
      modifies this`viewedValues, this`bboxes, this`currentIndex, this`rectItems
      ensures Valid()
      ensures ChangeImageEffect(direction, prevFailed, r)
    {
      assert MainApp.Keyed(fileList, viewedValues);
      if direction != "previous" && direction != "next" {
        return Some(ValueError);
      }
      var cur := fileList[currentIndex];
      var marked := viewedValues[cur := LeaveMark(prevFailed)];
      MainApp.KeyedStore(fileList, viewedValues, cur, LeaveMark(prevFailed));
      var target;
      if direction == "previous" {
        target := MainApp.PrevIndex(currentIndex, |fileList|);
      } else {
        target := NextTarget(fileList, marked, currentIndex);
      }
      StoreAndMove(LeaveMark(prevFailed), target);
      ShowBoxes(fileList[target]);
      r := None;
    }

    /** Marks the file left, stores its boxes and moves the cursor. */
    method StoreAndMove(mark: ViewedFlag, target: int)
      requires Valid() && 0 <= target < |fileList|
      modifies this`viewedValues, this`bboxes, this`currentIndex
      ensures Valid()
      ensures viewedValues == old(viewedValues)[old(fileList[currentIndex]) := mark]
      ensures bboxes == old(bboxes)[old(fileList[currentIndex]) := rectItems]
      ensures currentIndex == target
    {
      var cur := fileList[currentIndex];
      MainApp.KeyedStore(fileList, viewedValues, cur, mark);
      MainApp.KeyedStore(fileList, bboxes, cur, rectItems);
      viewedValues, bboxes, currentIndex := viewedValues[cur := mark], bboxes[cur := rectItems], target;
    }

    /** `load_bounding_boxes` of the image view: the stored boxes of `f` are put on screen, finding by finding. */
    method ShowBoxes(f: string)
      requires f in bboxes
      modifies this`rectItems
      ensures rectItems == NonEmpty(bboxes[f])
    {
      AddToEmpty(bboxes[f]);
      rectItems := AddBoxes(map[], bboxes[f]);
    }

    /**
     * `prep_first_image`: the current file's stored boxes are added to the
     * view, after what it already shows. Its lookups of the file's rotation
     * and boxes cannot raise on a valid window; turning the boxes with the
     * image is left out like every box rotation.
     */
    method PrepFirstImage()
      requires Valid()
      modifies this`rectItems
      ensures fileList[currentIndex] in bboxes
      ensures forall g :: BoxesOf(rectItems, g) == BoxesOf(old(rectItems), g) + BoxesOf(bboxes[fileList[currentIndex]], g)
      ensures old(rectItems) == map[] ==> rectItems == NonEmpty(bboxes[fileList[currentIndex]])
      ensures old(rectItems) == map[] && (forall g :: g in bboxes[fileList[currentIndex]] ==> |bboxes[fileList[currentIndex]][g]| > 0)
              ==> rectItems == bboxes[fileList[currentIndex]]
    {
      var f := fileList[currentIndex];
      assert MainApp.Keyed(fileList, bboxes);
      AddToEmpty(bboxes[f]);
      assert (forall g :: g in bboxes[f] ==> |bboxes[f][g]| > 0) ==> NonEmpty(bboxes[f]) == bboxes[f];
      rectItems := AddBoxes(rectItems, bboxes[f]);
    }

    /** `previous_image`. */
    method PreviousImage() returns (r: Option<Error>)
      requires Valid()
      modifies this`viewedValues, this`bboxes, this`currentIndex, this`rectItems
      ensures Valid()
      ensures ChangeImageEffect("previous", false, r)
    {
      r := ChangeImage("previous", false);
    }

    /** `next_image(prev_failed)`: unlike the current window, the flag reaches `change_image`. */
    method NextImage(prevFailed: bool) returns (r: Option<Error>)
      requires Valid()
      modifies this`viewedValues, this`bboxes, this`currentIndex, this`rectItems
      ensures Valid()
      ensures ChangeImageEffect("next", prevFailed, r)
    {
      r := ChangeImage("next", prevFailed);
    }

    /** `rotate_image_right`: the boxes on screen are stored and a quarter turn is subtracted. */
    method RotateImageRight()
      requires Valid()
      modifies this`bboxes, this`rotation
      ensures Valid()
      ensures rotation == old(rotation)[fileList[currentIndex] := RotateRight(old(rotation)[fileList[currentIndex]])]
      ensures bboxes == old(bboxes)[fileList[currentIndex] := rectItems]
    {
      var f := fileList[currentIndex];
      assert MainApp.Keyed(fileList, rotation);
      MainApp.KeyedStore(fileList, bboxes, f, rectItems);
      MainApp.KeyedStore(fileList, rotation, f, RotateRight(rotation[f]));
      bboxes := bboxes[f := rectItems];
      rotation := rotation[f := RotateRight(rotation[f])];
    }

    /** `rotate_image_left`: the boxes on screen are stored and a quarter turn is added. */
    method RotateImageLeft()
      requires Valid()
      modifies this`bboxes, this`rotation
      ensures Valid()
      ensures rotation == old(rotation)[fileList[currentIndex] := MainApp.RotateRight(old(rotation)[fileList[currentIndex]])]
      ensures bboxes == old(bboxes)[fileList[currentIndex] := rectItems]
    {
      var f := fileList[currentIndex];
      assert MainApp.Keyed(fileList, rotation);
      MainApp.KeyedStore(fileList, bboxes, f, rectItems);
      MainApp.KeyedStore(fileList, rotation, f, MainApp.RotateRight(rotation[f]));
      bboxes := bboxes[f := rectItems];
      rotation := rotation[f := MainApp.RotateRight(rotation[f])];
    }

    /** `on_text_changed`: the normalised text becomes the current file's notes. */
    method OnTextChanged(text: string)
      requires Valid()
      modifies this`notes
      ensures Valid()
      ensures notes == old(notes)[fileList[currentIndex] := MainApp.NormaliseNotes(text)]
    {
      MainApp.KeyedStore(fileList, notes, fileList[currentIndex], MainApp.NormaliseNotes(text));
      notes := notes[fileList[currentIndex] := MainApp.NormaliseNotes(text)];
    }

    /** `save_json`: the boxes on screen are stored for the current file, then one record per file is written. */
    method SaveJson() returns (out: seq<Entry>)
      requires Valid()
      modifies this`bboxes
      ensures Valid()
      ensures bboxes == old(bboxes)[fileList[currentIndex] := rectItems]
      ensures out == Outputs(fileList, Snapshot(), findings)
    {
      MainApp.KeyedStore(fileList, bboxes, fileList[currentIndex], rectItems);
      bboxes := bboxes[fileList[currentIndex] := rectItems];
      out := WriteEntries(fileList, Snapshot(), findings);
    }

    /**
     * `load_from_json` and the assignment `self.loaded = ...` of
     * `__init__`: with the `new_json` setting nothing is loaded; otherwise
     * the records are stored in turn and the session counts as loaded.
     */
    method LoadFromJson(newJson: bool, entries: seq<Entry>) returns (r: Result<bool>)
      requires Valid()
      modifies this`viewedValues, this`rotation, this`notes, this`checkboxValues, this`bboxes, this`loaded
      ensures newJson ==> r == Ok(false) && loaded == false && Snapshot() == old(Snapshot())
      ensures !newJson ==> (r.Err? <==> LoadTables(old(Snapshot()), entries, findings).Err?)
      ensures !newJson && r.Err? ==> r.error == KeyError && unchanged(this)
      ensures !newJson && r.Ok? ==> r.value && loaded && Snapshot() == LoadTables(old(Snapshot()), entries, findings).value
      ensures r.Ok? ==> Valid()
    {
      if newJson {
        loaded := false;
        return Ok(false);
      }
      var u := LoadEntries(Snapshot(), entries, findings);
      if u.Err? {
        return Err(u.error);
      }
      LoadTablesGrows(Snapshot(), entries, findings);
      GrowsCovers(fileList, Snapshot(), u.value, findings);
      viewedValues, rotation, notes, checkboxValues, bboxes := u.value.viewed, u.value.rotation, u.value.notes, u.value.checkboxes, u.value.bboxes;
      loaded := true;
      r := Ok(true);
    }

    /**
     * `restore_from_saved_state`: the cursor is set from the saved settings
     * and the list is reordered. A cursor that ends past the end of the
     * list makes the next `file_list[current_index]` raise `IndexError`,
     * which aborts the window; the model then changes nothing.
     */
    method RestoreFromSavedState(saved: Option<(string, nat)>) returns (r: Option<Error>)
      requires Valid()
      modifies this`fileList, this`currentIndex
      ensures var idx := RestoreIndex(old(fileList), saved, old(currentIndex));
        idx >= 0 && var l := Reorder(old(fileList), viewedValues, idx as nat);
        && (r.None? <==> idx < |l|)
        && (r.None? ==> fileList == l && currentIndex == idx && Valid())
        && (r.Some? ==> r.value == IndexError && fileList == old(fileList) && currentIndex == old(currentIndex))
    {
      var idx := RestoreIndex(fileList, saved, currentIndex);
      assert MainApp.Keyed(fileList, viewedValues);
      var l := Reorder(fileList, viewedValues, idx as nat);
      if idx >= |l| {
        return Some(IndexError);
      }
      ReorderKeeps(fileList, viewedValues, idx as nat);
      SubsetCovers(fileList, l, Snapshot(), findings);
      fileList, currentIndex := l, idx;
      r := None;
    }
  }
}
