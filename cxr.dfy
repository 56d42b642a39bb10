/**
 * The prototype chest X-ray viewer: integer windowing of the displayed
 * pixels, navigation over the sorted `.dcm` files of a folder with a
 * `viewed` flag and one `consolidation` checkbox per file, the CSV file
 * those flags are saved to and restored from, and the reordering of the
 * list when a previous session is resumed.
 */
module Cxr {
  import opened Wrappers
  import opened Session
  import Strings
  import MainApp
  import MainWindow

  // ---------------------------------------------------------------------------
  // Windowing
  // ---------------------------------------------------------------------------

  /** The window width and centre `paintEvent` falls back to. */
  const DefaultWidth: int := 255
  const DefaultCenter: int := 127

  /** `np.clip(x, lo, hi)` on one pixel. */
  function Clip(x: int, lo: int, hi: int): (r: int)
    requires lo <= hi
    ensures lo <= r <= hi
  {
    if x < lo then lo else if x > hi then hi else x
  }

  /**
   * One pixel of `paintEvent`: `lo = c - w // 2`, `hi = c + w // 2`, the
   * value clipped to `[lo, hi]` and scaled by `(x - lo) * 255 // (hi - lo)`.
   * Python's `//` floors; with the positive divisors here Dafny's `/`
   * computes the same.
   */
  function WindowPixel(x: int, center: int, width: int): (r: int)
    requires width >= 2
    ensures 0 <= r <= 255
    ensures x <= center - width / 2 ==> r == 0
    ensures x >= center + width / 2 ==> r == 255
  {
    var lo := center - width / 2;
    var hi := center + width / 2;
    ScaleBounds(Clip(x, lo, hi) - lo, hi - lo);
    (Clip(x, lo, hi) - lo) * 255 / (hi - lo)
  }

  /** `a * 255 // k` stays in `[0, 255]` for `0 <= a <= k`, and is `255` at `a == k`. */
  lemma ScaleBounds(a: int, k: int)
    requires 0 <= a <= k && 0 < k
    ensures 0 <= a * 255 / k <= 255
    ensures a == 0 ==> a * 255 / k == 0
    ensures a == k ==> a * 255 / k == 255
  {
    MulMonotone(a, k, 255);
    DivMonotone(0, a * 255, k);
    DivMonotone(a * 255, k * 255, k);
    MulDivCancel(255, k);
  }

  lemma MulDivCancel(m: int, k: int)
    requires 0 < k
    ensures k * m / k == m
  {
    var q, rem := k * m / k, k * m % k;
    assert k * m == q * k + rem && 0 <= rem < k;
    assert (m - q) * k == rem;
    if m - q >= 1 {
      MulMonotone(1, m - q, k);
    } else if m - q <= -1 {
      MulMonotone(m - q, -1, k);
    }
  }

  /** Floor division by a positive number is monotone. */
  lemma DivMonotone(a: int, b: int, k: int)
    requires 0 <= a <= b && 0 < k
    ensures 0 <= a / k <= b / k
  {
    var qa, qb := a / k, b / k;
    assert a == qa * k + a % k && 0 <= a % k < k;
    assert b == qb * k + b % k && 0 <= b % k < k;
    if qa > qb {
      MulMonotone(qb + 1, qa, k);
    }
  }

  lemma MulMonotone(x: int, y: int, k: int)
    requires x <= y && 0 <= k
    ensures x * k <= y * k
  {
  }

  /** The windowed value never decreases as the pixel value grows. */
  lemma WindowMonotone(x: int, y: int, center: int, width: int)
    requires width >= 2 && x <= y
    ensures WindowPixel(x, center, width) <= WindowPixel(y, center, width)
  {
    var lo := center - width / 2;
    var hi := center + width / 2;
    var a, b := Clip(x, lo, hi) - lo, Clip(y, lo, hi) - lo;
    assert 0 <= a <= b;
    DivMonotone(a * 255, b * 255, hi - lo);
  }

  /**
   * With the default width and centre the window is `[0, 254]`: values
   * below `254` are shown unchanged, and everything from `254` on is white.
   */
  lemma DefaultWindowIdentity(x: int)
    ensures 0 <= x < 254 ==> WindowPixel(x, DefaultCenter, DefaultWidth) == x
    ensures x >= 254 ==> WindowPixel(x, DefaultCenter, DefaultWidth) == 255
    ensures x <= 0 ==> WindowPixel(x, DefaultCenter, DefaultWidth) == 0
  {
    if 0 <= x < 254 {
      assert x * 255 == x * 254 + x;
    }
  }

  /** The displayed image, row after row: every pixel windowed, each value fitting `np.uint8` unchanged. */
  function WindowImage(image: seq<int>, center: int, width: int): (r: seq<int>)
    requires width >= 2
    ensures |r| == |image|
    ensures forall i :: 0 <= i < |r| ==> 0 <= r[i] <= 255 && r[i] == WindowPixel(image[i], center, width)
  {
    seq(|image|, i requires 0 <= i < |image| => WindowPixel(image[i], center, width))
  }

  /** Windowing keeps the order of any two pixels of the image. */
  lemma WindowImageKeepsOrder(image: seq<int>, center: int, width: int, i: int, j: int)
    requires width >= 2 && 0 <= i < |image| && 0 <= j < |image| && image[i] <= image[j]
    ensures WindowImage(image, center, width)[i] <= WindowImage(image, center, width)[j]
  {
    WindowMonotone(image[i], image[j], center, width);
  }

  // ---------------------------------------------------------------------------
  // Files and flags
  // ---------------------------------------------------------------------------

  /** The `viewed` booleans read as the three-valued flags of the later windows. */
  function Flags(viewed: map<string, bool>): (r: map<string, ViewedFlag>)
    ensures r.Keys == viewed.Keys
    ensures forall f :: f in viewed ==> r[f].Truthy() == viewed[f] && !r[f].Failed?
  {
    map f | f in viewed :: if viewed[f] then Viewed else NotViewed
  }

  /** `d.get(f, False)`. */
  function Get(m: map<string, bool>, f: string): bool
  {
    f in m && m[f]
  }

  // ---------------------------------------------------------------------------
  // The CSV file
  // ---------------------------------------------------------------------------

  const Header: seq<string> := ["filename", "viewed", "consolidation"]

  /** Python's `str` of a `bool`, as `csv.writer` writes it. */
  function BoolText(b: bool): string
  {
    if b then "True" else "False"
  }

  /** The row `save_to_csv` writes for one file. */
  function Row(f: string, viewed: map<string, bool>, checkbox: map<string, bool>): seq<string>
  {
    [f, BoolText(Get(viewed, f)), BoolText(Get(checkbox, f))]
  }

  /** The rows after the header: one per listed file, in list order. */
  function DataRows(files: seq<string>, viewed: map<string, bool>, checkbox: map<string, bool>): (rows: seq<seq<string>>)
    ensures |rows| == |files|
    ensures forall k :: 0 <= k < |files| ==> |rows[k]| == 3 && rows[k][0] == files[k]
  {
    seq(|files|, k requires 0 <= k < |files| => Row(files[k], viewed, checkbox))
  }

  /** Everything `save_to_csv` writes. */
  function CsvRows(files: seq<string>, viewed: map<string, bool>, checkbox: map<string, bool>): (rows: seq<seq<string>>)
    ensures |rows| == |files| + 1 && rows[0] == Header && rows[1..] == DataRows(files, viewed, checkbox)
  {
    [Header] + DataRows(files, viewed, checkbox)
  }

  /** The loop of `load_from_csv` after the header: each row sets both flags of its file, a field is true iff it reads `True`. */
  function LoadRows(rows: seq<seq<string>>, viewed: map<string, bool>, checkbox: map<string, bool>): (r: Result<(map<string, bool>, map<string, bool>)>)
    ensures r.Err? ==> r.error == IndexError
    ensures r.Ok? ==> viewed.Keys <= r.value.0.Keys && checkbox.Keys <= r.value.1.Keys
    decreases |rows|
  {
    if rows == [] then Ok((viewed, checkbox))
    else
      match LoadRows(rows[..|rows| - 1], viewed, checkbox)
      case Err(e) => Err(e)
      case Ok((v, c)) =>
        var row := rows[|rows| - 1];
        if |row| < 3 then Err(IndexError)
        else Ok((v[row[0] := row[1] == "True"], c[row[0] := row[2] == "True"]))
  }

  /** `load_from_csv`: `next(reader)` on an empty file raises `StopIteration`; the header is skipped. */
  function LoadCsv(rows: seq<seq<string>>, viewed: map<string, bool>, checkbox: map<string, bool>): (r: Result<(map<string, bool>, map<string, bool>)>)
    ensures r.Ok? ==> viewed.Keys <= r.value.0.Keys && checkbox.Keys <= r.value.1.Keys
  {
    if rows == [] then Err(StopIteration) else LoadRows(rows[1..], viewed, checkbox)
  }

  /** Loading fails exactly when some row has fewer than three fields. */
  lemma {:induction false} LoadRowsFails(rows: seq<seq<string>>, viewed: map<string, bool>, checkbox: map<string, bool>)
    ensures LoadRows(rows, viewed, checkbox).Err? <==> exists k :: 0 <= k < |rows| && |rows[k]| < 3
    decreases |rows|
  {
    if rows != [] {
      var n := |rows| - 1;
      LoadRowsFails(rows[..n], viewed, checkbox);
      if exists k :: 0 <= k < n && |rows[..n][k]| < 3 {
        var k :| 0 <= k < n && |rows[..n][k]| < 3;
        assert rows[k] == rows[..n][k];
      }
      if k :| 0 <= k < n && |rows[k]| < 3 {
        assert rows[..n][k] == rows[k];
      }
    }
  }

  /** An empty file raises `StopIteration`; otherwise loading raises `IndexError` exactly at a short row. */
  lemma LoadCsvFails(rows: seq<seq<string>>, viewed: map<string, bool>, checkbox: map<string, bool>)
    ensures rows == [] ==> LoadCsv(rows, viewed, checkbox) == Err(StopIteration)
    ensures rows != [] ==>
      (LoadCsv(rows, viewed, checkbox) == Err(IndexError) <==> exists k :: 1 <= k < |rows| && |rows[k]| < 3)
    ensures rows != [] ==> LoadCsv(rows, viewed, checkbox).Ok? || LoadCsv(rows, viewed, checkbox) == Err(IndexError)
  {
    if rows != [] {
      LoadRowsFails(rows[1..], viewed, checkbox);
      if k :| 1 <= k < |rows| && |rows[k]| < 3 {
        assert rows[1..][k - 1] == rows[k];
      }
      if k :| 0 <= k < |rows| - 1 && |rows[1..][k]| < 3 {
        assert rows[k + 1] == rows[1..][k];
      }
    }
  }

  /**
   * What loading the rows of `files` does to dictionaries `v0` and `c0`:
   * each listed file gets the flags the rows were written from, and every
   * other entry is kept as it was; one obligation, like `Viewer.Valid`.
   */
  ghost predicate Restored(files: seq<string>, viewed: map<string, bool>, checkbox: map<string, bool>,
                           v0: map<string, bool>, c0: map<string, bool>, v: map<string, bool>, c: map<string, bool>)
  {
    (&& (forall f :: f in files ==> f in v && v[f] == Get(viewed, f) && f in c && c[f] == Get(checkbox, f))
     && (forall f :: f !in files ==> (f in v <==> f in v0) && (f in c <==> f in c0))
     && (forall f :: f !in files && f in v0 ==> v[f] == v0[f])
     && (forall f :: f !in files && f in c0 ==> c[f] == c0[f])) == true
  }

  /** Reading the data rows back stores, file by file, the flags they were written from. */
  lemma {:induction false} DataRowsLoad(files: seq<string>, viewed: map<string, bool>, checkbox: map<string, bool>,
                                        v0: map<string, bool>, c0: map<string, bool>)
    ensures LoadRows(DataRows(files, viewed, checkbox), v0, c0).Ok?
    ensures var r := LoadRows(DataRows(files, viewed, checkbox), v0, c0).value;
      Restored(files, viewed, checkbox, v0, c0, r.0, r.1)
    decreases |files|
  {
    if files != [] {
      var n := |files| - 1;
      var rows := DataRows(files, viewed, checkbox);
      var g := files[n];
      DataRowsSnoc(files, viewed, checkbox);
      DataRowsLoad(files[..n], viewed, checkbox, v0, c0);
      var p := LoadRows(rows[..n], v0, c0).value;
      assert LoadRows(rows, v0, c0) == Ok((p.0[g := Get(viewed, g)], p.1[g := Get(checkbox, g)]));
      RestoredStep(files[..n], g, viewed, checkbox, v0, c0, p.0, p.1);
    }
  }

  /** The rows of a list are the rows of all but its last file, then the last file's row. */
  lemma DataRowsSnoc(files: seq<string>, viewed: map<string, bool>, checkbox: map<string, bool>)
    requires files != []
    ensures var n := |files| - 1;
      && DataRows(files, viewed, checkbox)[..n] == DataRows(files[..n], viewed, checkbox)
      && DataRows(files, viewed, checkbox)[n] == Row(files[n], viewed, checkbox)
      && files == files[..n] + [files[n]]
  {
  }

  /** Loading one more row for `g` extends what is restored by `g`. */
  lemma RestoredStep(files: seq<string>, g: string, viewed: map<string, bool>, checkbox: map<string, bool>,
                     v0: map<string, bool>, c0: map<string, bool>, v: map<string, bool>, c: map<string, bool>)
    requires Restored(files, viewed, checkbox, v0, c0, v, c)
    ensures Restored(files + [g], viewed, checkbox, v0, c0, v[g := Get(viewed, g)], c[g := Get(checkbox, g)])
  {
    var l, v', c' := files + [g], v[g := Get(viewed, g)], c[g := Get(checkbox, g)];
    forall f | f in l
      ensures f in v' && v'[f] == Get(viewed, f) && f in c' && c'[f] == Get(checkbox, f)
    {
      if f != g {
        assert f in files;
      }
    }
    forall f | f !in l
      ensures (f in v' <==> f in v0) && (f in c' <==> f in c0)
      ensures f in v0 ==> v'[f] == v0[f]
      ensures f in c0 ==> c'[f] == c0[f]
    {
      assert f !in files && f != g;
    }
  }

  /**
   * `save_to_csv` followed by `load_from_csv`: both booleans of every
   * listed file come back as they were saved, and entries for other files
   * are left alone.
   */
  lemma CsvRoundTrip(files: seq<string>, viewed: map<string, bool>, checkbox: map<string, bool>,
                     v0: map<string, bool>, c0: map<string, bool>)
    ensures LoadCsv(CsvRows(files, viewed, checkbox), v0, c0).Ok?
    ensures var r := LoadCsv(CsvRows(files, viewed, checkbox), v0, c0).value;
      Restored(files, viewed, checkbox, v0, c0, r.0, r.1)
  {
    DataRowsLoad(files, viewed, checkbox, v0, c0);
  }

  // ---------------------------------------------------------------------------
  // Resuming a session
  // ---------------------------------------------------------------------------

  /**
   * The reordering of `__init__`: the unviewed files after position `idx`,
   * then the unviewed files up to and including it; the list as it was
   * when no file after `idx` is unviewed.
   */
  function Reorder(files: seq<string>, viewed: map<string, bool>, idx: nat): seq<string>
    requires MainApp.Keyed(files, viewed)
  {
    var cut := Cut(idx, |files|);
    var after := MainWindow.Select(files[cut..], Flags(viewed), false);
    if after == [] then files else after + MainWindow.Select(files[..cut], Flags(viewed), false)
  }

  /** The end of `file_list[:idx + 1]`, as Python clips it. */
  function Cut(idx: nat, n: nat): (cut: nat)
    ensures cut <= n
  {
    if idx + 1 <= n then idx + 1 else n
  }

  /** With no unviewed file after `idx` the list is kept as it is. */
  lemma ReorderKeepsList(files: seq<string>, viewed: map<string, bool>, idx: nat)
    requires MainApp.Keyed(files, viewed)
    requires forall j :: idx < j < |files| ==> viewed[files[j]]
    ensures Reorder(files, viewed, idx) == files
  {
    var cut := Cut(idx, |files|);
    var fl := Flags(viewed);
    var tail := files[cut..];
    assert MainApp.Keyed(tail, fl);
    forall g | g in tail
      ensures fl[g].Truthy()
    {
      var i :| 0 <= i < |tail| && tail[i] == g;
      assert files[cut + i] == g;
    }
  }

  /**
   * With some unviewed file after `idx`, the list becomes the unviewed
   * files after it, then the ones up to it: the files kept are exactly the
   * unviewed ones, so every viewed file is dropped.
   */
  lemma ReorderKeepsUnviewed(files: seq<string>, viewed: map<string, bool>, idx: nat, f: string)
    requires MainApp.Keyed(files, viewed)
    requires exists j :: idx < j < |files| && !viewed[files[j]]
    ensures MainApp.Keyed(files[Cut(idx, |files|)..], Flags(viewed)) && MainApp.Keyed(files[..Cut(idx, |files|)], Flags(viewed))
    ensures Reorder(files, viewed, idx) ==
      MainWindow.Select(files[Cut(idx, |files|)..], Flags(viewed), false) + MainWindow.Select(files[..Cut(idx, |files|)], Flags(viewed), false)
    ensures f in Reorder(files, viewed, idx) <==> f in files && !viewed[f]
  {
    var cut := Cut(idx, |files|);
    var fl := Flags(viewed);
    var tail, head := files[cut..], files[..cut];
    assert MainApp.Keyed(tail, fl) && MainApp.Keyed(head, fl);
    assert files == head + tail;
    var j :| idx < j < |files| && !viewed[files[j]];
    assert tail[j - cut] == files[j];
    assert MainWindow.Select(tail, fl, false) != [];
  }

  /**
   * Resuming can leave the cursor past the end of the list: `a.dcm` and
   * `b.dcm` viewed and left from `b.dcm` (index 1) leave only `c.dcm`, so
   * the cursor no longer names a file.
   */
  lemma ResumeLeavesCursorOutside()
    ensures var viewed := map["a.dcm" := true, "b.dcm" := true, "c.dcm" := false];
      Reorder(["a.dcm", "b.dcm", "c.dcm"], viewed, 1) == ["c.dcm"]
  {
    var files := ["a.dcm", "b.dcm", "c.dcm"];
    var viewed := map["a.dcm" := true, "b.dcm" := true, "c.dcm" := false];
    var fl := Flags(viewed);
    assert files[2..] == ["c.dcm"] && files[..2] == ["a.dcm", "b.dcm"];
    assert ["c.dcm"][1..] == [];
    assert MainWindow.Select(["c.dcm"], fl, false) == ["c.dcm"];
    assert MainWindow.Select(["a.dcm", "b.dcm"], fl, false) == [] by {
      assert ["a.dcm", "b.dcm"][1..] == ["b.dcm"];
      assert ["b.dcm"][1..] == [];
    }
  }

  // ---------------------------------------------------------------------------
  // Navigation
  // ---------------------------------------------------------------------------

  /**
   * `next_image` in terms of the `viewed` booleans: the first unviewed
   * file after `cur`, else the first one before it; with every other file
   * viewed, the next file round the list.
   */
  lemma NextChoice(files: seq<string>, viewed: map<string, bool>, cur: int)
    requires 0 <= cur < |files| && MainApp.Keyed(files, viewed)
    ensures MainApp.Keyed(files, Flags(viewed))
    ensures var r := MainWindow.SearchNext(files, Flags(viewed), cur);
      && ((exists j :: cur < j < |files| && !viewed[files[j]]) ==>
            cur < r && !viewed[files[r]] && forall j :: cur < j < r ==> viewed[files[j]])
      && ((forall j :: cur < j < |files| ==> viewed[files[j]]) && (exists j :: 0 <= j < cur && !viewed[files[j]]) ==>
            r < cur && !viewed[files[r]] && forall j :: 0 <= j < r ==> viewed[files[j]])
      && ((forall j :: 0 <= j < |files| && j != cur ==> viewed[files[j]]) ==> r == (cur + 1) % |files|)
  {
    var fl := Flags(viewed);
    assert MainApp.Keyed(files, fl);
    MainWindow.SearchNextChoice(files, fl, cur);
    if j :| cur < j < |files| && !viewed[files[j]] {
      assert !fl[files[j]].Truthy();
    }
    if j :| 0 <= j < cur && !viewed[files[j]] {
      assert !fl[files[j]].Truthy();
    }
  }

  /** The three answers of the "save changes?" question. */
  function CloseEvent(button: MainApp.Button): (r: (bool, bool))
    ensures r.0 <==> button != MainApp.Cancel
    ensures r.1 <==> button == MainApp.Yes
  {
    match button
    case Yes => (true, true)
    case No => (true, false)
    case Cancel => (false, false)
  }

  /** The prototype behaves like the later window on a session that already has a file: Yes saves and closes, No closes, Cancel stays. */
  lemma CloseEventAgrees(button: MainApp.Button, dialogAccepted: bool)
    ensures CloseEvent(button) == MainApp.CloseEvent(button, true, dialogAccepted)
  {
  }

  /**
   * `MainWindow` of the prototype. `lastViewed` is what `save_settings`
   * last wrote to `QSettings` (`last_file`, `last_index`).
   */
  class Viewer {
    var fileList: seq<string>
    var currentIndex: int
    var viewedValues: map<string, bool>
    var checkboxValues: map<string, bool>
    var lastViewed: Option<(string, nat)>

    /** Every listed file has a `viewed` entry and the cursor is not negative; one obligation, like `Valid`. */
    ghost predicate Ready()
      reads this`fileList, this`currentIndex, this`viewedValues
    {
      (0 <= currentIndex && MainApp.Keyed(fileList, viewedValues)) == true
    }

    /** `Ready`, and the cursor is on a listed file, so `file_list[current_index]` does not raise; one obligation. */
    ghost predicate Valid()
      reads this`fileList, this`currentIndex, this`viewedValues
    {
      (0 <= currentIndex < |fileList| && MainApp.Keyed(fileList, viewedValues)) == true
    }

    /** The start of `__init__`: the sorted `.dcm` names, all unviewed, no checkbox values yet. */
    constructor(names: seq<string>, settings: Option<(string, nat)>)
      ensures Ready()
      ensures fileList == Strings.SortStrings(Strings.DcmNames(names))
      ensures currentIndex == 0 && checkboxValues == map[] && lastViewed == settings
      ensures viewedValues.Keys == set f | f in fileList
      ensures forall f :: f in viewedValues ==> !viewedValues[f]
    {
      var files := Strings.SortStrings(Strings.DcmNames(names));
      fileList, currentIndex, checkboxValues, lastViewed := files, 0, map[], settings;
      viewedValues := map f | f in files :: false;
      assert forall k :: 0 <= k < |files| ==> files[k] in files;
    }

    /**
     * The rest of `__init__` up to the first `load_file`: without a CSV
     * file the list stays; with one, the flags are loaded, the cursor is
     * restored from the settings and the list reordered. `load_file`
     * raises `IndexError` when the cursor names no file.
     */
    method Open(csv: Option<seq<seq<string>>>) returns (r: Option<Error>)
      requires Ready()
      modifies this`fileList, this`currentIndex, this`viewedValues, this`checkboxValues
      ensures r.None? ==> Valid()
      ensures csv.None? ==> (fileList == old(fileList) && currentIndex == old(currentIndex)
        && viewedValues == old(viewedValues) && checkboxValues == old(checkboxValues)
        && r == (if currentIndex < |fileList| then None else Some(IndexError)))
      ensures csv.Some? && LoadCsv(csv.value, old(viewedValues), old(checkboxValues)).Err? ==>
        (r == Some(LoadCsv(csv.value, old(viewedValues), old(checkboxValues)).error)
        && fileList == old(fileList) && currentIndex == old(currentIndex)
        && (csv.value == [] ==> viewedValues == old(viewedValues) && checkboxValues == old(checkboxValues))
        && (csv.value != [] ==> LoadRows(csv.value[1..][..FirstShort(csv.value[1..])], old(viewedValues), old(checkboxValues))
                                == Ok((viewedValues, checkboxValues))))
      ensures csv.Some? && LoadCsv(csv.value, old(viewedValues), old(checkboxValues)).Ok? ==>
        var loaded := LoadCsv(csv.value, old(viewedValues), old(checkboxValues)).value;
        && viewedValues == loaded.0 && checkboxValues == loaded.1
        && currentIndex == MainWindow.RestoreIndex(old(fileList), lastViewed, old(currentIndex))
        && fileList == Reorder(old(fileList), viewedValues, currentIndex)
        && r == (if currentIndex < |fileList| then None else Some(IndexError))
    {
      if csv.Some? {
        r := LoadFromCsv(csv.value);
        if r.Some? {
          return;
        }
        Restore();
      }
      r := if currentIndex < |fileList| then None else Some(IndexError);
    }

    /**
     * `load_from_csv`. An empty file raises at the header and changes
     * nothing; otherwise the rows before the first short one are stored,
     * and a short row raises `IndexError` before touching its file.
     */
    method LoadFromCsv(rows: seq<seq<string>>) returns (r: Option<Error>)
      requires Ready()
      modifies this`viewedValues, this`checkboxValues
      ensures Ready()
      ensures r.None? <==> LoadCsv(rows, old(viewedValues), old(checkboxValues)).Ok?
      ensures r.Some? ==> r == Some(LoadCsv(rows, old(viewedValues), old(checkboxValues)).error)
      ensures r.None? ==> (viewedValues, checkboxValues) == LoadCsv(rows, old(viewedValues), old(checkboxValues)).value
      ensures rows == [] ==> viewedValues == old(viewedValues) && checkboxValues == old(checkboxValues)
      ensures rows != [] ==>
        LoadRows(rows[1..][..FirstShort(rows[1..])], old(viewedValues), old(checkboxValues)) == Ok((viewedValues, checkboxValues))
    {
      if rows == [] {
        return Some(StopIteration);
      }
      var loaded, v, c := ReadRows(rows[1..], viewedValues, checkboxValues);
      viewedValues, checkboxValues := v, c;
      r := if loaded.Ok? then None else Some(loaded.error);
    }

    /** Lines 78-91 of `__init__`: the saved file's position, else the saved index; then the reordering. */
    method Restore()
      requires Ready()
      modifies this`fileList, this`currentIndex
      ensures Ready()
      ensures currentIndex == MainWindow.RestoreIndex(old(fileList), lastViewed, old(currentIndex))
      ensures fileList == Reorder(old(fileList), viewedValues, currentIndex)
    {
      var idx := MainWindow.RestoreIndex(fileList, lastViewed, currentIndex);
      var l := Reorder(fileList, viewedValues, idx);
      ReorderListed(fileList, viewedValues, idx);
      fileList, currentIndex := l, idx;
    }

    /** `is_image_viewed`: the flag shown as "Viewed: Yes/No". */
    function IsImageViewed(): (b: bool)
      reads this
      requires Valid()
      ensures b <==> viewedValues[fileList[currentIndex]]
    {
      Get(viewedValues, fileList[currentIndex])
    }

    /** `previous_image`: the file left is marked viewed and saved to the settings; the cursor steps back, from the first to the last. */
    method PreviousImage()
      requires Valid()
      modifies this`currentIndex, this`viewedValues, this`lastViewed
      ensures Valid()
      ensures viewedValues == old(viewedValues)[old(fileList[currentIndex]) := true]
      ensures lastViewed == Some((old(fileList[currentIndex]), old(currentIndex)))
      ensures currentIndex == if old(currentIndex) == 0 then |fileList| - 1 else old(currentIndex) - 1
    {
      var f := fileList[currentIndex];
      MainApp.KeyedStore(fileList, viewedValues, f, true);
      viewedValues := viewedValues[f := true];
      lastViewed := Some((f, currentIndex));
      currentIndex := MainApp.PrevIndex(currentIndex, |fileList|);
    }

    /**
     * `next_image`: the file left is marked viewed and saved to the
     * settings; the `while` search then moves to the next unviewed file,
     * and when it comes back round the cursor moves one file on. With some
     * other file unviewed, the new file is shown as not viewed.
     */
    method NextImage()
      requires Valid()
      modifies this`currentIndex, this`viewedValues, this`lastViewed
      ensures Valid()
      ensures viewedValues == old(viewedValues)[old(fileList[currentIndex]) := true]
      ensures lastViewed == Some((old(fileList[currentIndex]), old(currentIndex)))
      ensures currentIndex == MainWindow.SearchNext(fileList, Flags(viewedValues), old(currentIndex))
      ensures (exists j :: 0 <= j < |fileList| && j != old(currentIndex) && !viewedValues[fileList[j]]) ==> !IsImageViewed()
    {
      var f, cur := fileList[currentIndex], currentIndex;
      MainApp.KeyedStore(fileList, viewedValues, f, true);
      viewedValues := viewedValues[f := true];
      lastViewed := Some((f, cur));
      NextChoice(fileList, viewedValues, cur);
      currentIndex := MainWindow.NextTarget(fileList, Flags(viewedValues), cur);
    }

    /** `on_consolidation_changed`: the checkbox state of the current file, as `bool(state)`. */
    method OnConsolidationChanged(state: int)
      requires Valid()
      modifies this`checkboxValues
      ensures checkboxValues == old(checkboxValues)[fileList[currentIndex] := state != 0]
    {
      checkboxValues := checkboxValues[fileList[currentIndex] := state != 0];
    }

    /** `save_to_csv`: the header, then one row per listed file with its two flags, `False` when absent. */
    method SaveToCsv() returns (rows: seq<seq<string>>)
      ensures rows == CsvRows(fileList, viewedValues, checkboxValues)
    {
      rows := [Header];
      for i := 0 to |fileList|
        invariant rows == CsvRows(fileList[..i], viewedValues, checkboxValues)
      {
        assert DataRows(fileList[..i + 1], viewedValues, checkboxValues)
          == DataRows(fileList[..i], viewedValues, checkboxValues) + [Row(fileList[i], viewedValues, checkboxValues)];
        rows := rows + [Row(fileList[i], viewedValues, checkboxValues)];
      }
      assert fileList[..|fileList|] == fileList;
    }
  }

  /** The reordered list holds only listed files, so it stays keyed. */
  lemma ReorderListed(files: seq<string>, viewed: map<string, bool>, idx: nat)
    requires MainApp.Keyed(files, viewed)
    ensures MainApp.Keyed(Reorder(files, viewed, idx), viewed)
  {
    var cut := Cut(idx, |files|);
    var fl := Flags(viewed);
    var l := Reorder(files, viewed, idx);
    assert MainApp.Keyed(files[cut..], fl) && MainApp.Keyed(files[..cut], fl);
    forall k | 0 <= k < |l|
      ensures l[k] in viewed
    {
      assert l[k] in l;
    }
  }

  /** The loop of `load_from_csv` over the rows after the header. */
  /**
   * The row loop: the result is `LoadRows`, and `v`, `c` are the flags as
   * the loop leaves them, holding every row before the first short one
   * (all rows when none is short).
   */
  method ReadRows(rows: seq<seq<string>>, viewed: map<string, bool>, checkbox: map<string, bool>)
    returns (r: Result<(map<string, bool>, map<string, bool>)>, v: map<string, bool>, c: map<string, bool>)
    ensures r == LoadRows(rows, viewed, checkbox)
    ensures LoadRows(rows[..FirstShort(rows)], viewed, checkbox) == Ok((v, c))
    ensures r.Ok? ==> r.value == (v, c)
  {
    v, c := viewed, checkbox;
    for i := 0 to |rows|
      invariant LoadRows(rows[..i], viewed, checkbox) == Ok((v, c))
      invariant forall j :: 0 <= j < i ==> |rows[j]| >= 3
    {
      assert rows[..i + 1][..i] == rows[..i];
      var row := rows[i];
      if |row| < 3 {
        assert LoadRows(rows[..i + 1], viewed, checkbox).Err?;
        LoadRowsErrPrefix(rows, viewed, checkbox, i + 1);
        r := Err(IndexError);
        return;
      }
      v, c := v[row[0] := row[1] == "True"], c[row[0] := row[2] == "True"];
    }
    assert rows[..|rows|] == rows;
    r := Ok((v, c));
  }

  /** The position of the first row with fewer than three fields, or the number of rows when there is none. */
  function FirstShort(rows: seq<seq<string>>): (r: nat)
    ensures r <= |rows|
    ensures forall j :: 0 <= j < r ==> |rows[j]| >= 3
    ensures r < |rows| ==> |rows[r]| < 3
  {
    if rows == [] then 0 else if |rows[0]| < 3 then 0 else 1 + FirstShort(rows[1..])
  }

  /** Once a prefix of the rows fails to load, the whole file does. */
  lemma {:induction false} LoadRowsErrPrefix(rows: seq<seq<string>>, viewed: map<string, bool>, checkbox: map<string, bool>, i: int)
    requires 0 <= i <= |rows| && LoadRows(rows[..i], viewed, checkbox).Err?
    ensures LoadRows(rows, viewed, checkbox) == Err(IndexError)
    decreases |rows| - i
  {
    if i == |rows| {
      assert rows[..i] == rows;
    } else {
      assert rows[..i + 1][..i] == rows[..i];
      LoadRowsErrPrefix(rows, viewed, checkbox, i + 1);
    }
  }
}
