/**
 * The dialogs that start a session: the load dialog and its exit code,
 * the set-up dialog that checks an annotation file against the image
 * folder before it lets the user go on, and the searchable file list used
 * to jump to an image.
 */
module Windows {
  import opened Wrappers
  import opened Sorting
  import opened Session
  import Strings

  // ---------------------------------------------------------------------------
  // The load dialog
  // ---------------------------------------------------------------------------

  /**
   * `LoadMessageBox`: `custom_return_code` only exists once the
   * configuration-wizard button has been pressed.
   */
  class LoadMessageBox {
    var customReturnCode: Option<int>
    var accepted: bool

    /** The wizard button is the only code that sets the attribute, and it sets 42. */
    predicate Valid()
      reads this
    {
      customReturnCode == None || customReturnCode == Some(42)
    }

    constructor()
      ensures Valid() && customReturnCode == None && !accepted
    {
      customReturnCode, accepted := None, false;
    }

    /** `on_wizard_button_clicked`: remember 42 and accept the dialog. */
    method OnWizardButtonClicked()
      modifies this
      ensures Valid()
      ensures customReturnCode == Some(42) && accepted
    {
      customReturnCode, accepted := Some(42), true;
    }

    /**
     * `exec` once the event loop has ended with `dialogAccepted`: the
     * custom code when the attribute exists, otherwise 1 for Accepted and
     * 0 for anything else.
     */
    method Exec(dialogAccepted: bool) returns (code: int)
      requires Valid()
      ensures code == 0 || code == 1 || code == 42
      ensures code == 42 <==> customReturnCode.Some?
      ensures customReturnCode.None? ==> (code == 1 <==> dialogAccepted)
    {
      match customReturnCode
      case Some(c) =>
        code := c;
      case None =>
        code := if dialogAccepted then 1 else 0;
    }
  }

  // ---------------------------------------------------------------------------
  // Checkbox values: Python's `sorted(set(values))`
  // ---------------------------------------------------------------------------

  /** The families Python's `<` keeps apart: `None`, numbers (`bool` is an `int`) and strings. */
  function Kind(v: Value): (k: nat)
    ensures k <= 2
    ensures k == 0 <==> v.Null?
    ensures k == 1 <==> AsInt(v).Some?
    ensures k == 2 <==> v.Str?
  {
    match v
    case Null => 0
    case Bool(_) => 1
    case Int(_) => 1
    case Str(_) => 2
  }

  lemma PyEqKind(a: Value, b: Value)
    requires PyEq(a, b)
    ensures Kind(a) == Kind(b)
  {
  }

  /** Python's `a < b` on two JSON values, or the `TypeError` it raises. */
  function PyLt(a: Value, b: Value): (r: Result<bool>)
    ensures r.Err? ==> r.error == TypeError
    ensures r.Err? <==> Kind(a) != Kind(b) || a.Null?
  {
    if Kind(a) != Kind(b) || a.Null? then Err(TypeError)
    else if a.Str? then Ok(Strings.Le(a.s, b.s) && a.s != b.s)
    else Ok(AsInt(a).value < AsInt(b).value)
  }

  /** A total order on all values: by family first, then Python's `<=` inside a family. */
  predicate ValueLe(a: Value, b: Value)
  {
    if Kind(a) != Kind(b) then Kind(a) < Kind(b)
    else if a.Str? then Strings.Le(a.s, b.s)
    else a.Null? || AsInt(a).value <= AsInt(b).value
  }

  const ValueOrder: (Value, Value) -> bool := (a, b) => ValueLe(a, b)

  lemma ValueOrderIsTotalPreorder()
    ensures IsTotalPreorder(ValueOrder)
  {
    forall a, b
      ensures ValueOrder(a, b) || ValueOrder(b, a)
    {
      if a.Str? && b.Str? {
        Strings.LeTotal(a.s, b.s);
      }
    }
    forall a, b, c | ValueOrder(a, b) && ValueOrder(b, c)
      ensures ValueOrder(a, c)
    {
      if a.Str? && b.Str? && c.Str? {
        Strings.LeTrans(a.s, b.s, c.s);
      }
    }
  }

  /** Two values each at most the other are equal in Python's sense. */
  lemma ValueLeAntisymmetric(a: Value, b: Value)
    requires ValueLe(a, b) && ValueLe(b, a)
    ensures PyEq(a, b)
  {
    if a.Str? && b.Str? {
      Strings.LeAntisymmetric(a.s, b.s);
    }
  }

  /** Python's `x in values`, which compares with `==`. */
  predicate HasEq(s: seq<Value>, x: Value)
  {
    exists i :: 0 <= i < |s| && PyEq(s[i], x)
  }

  /** No two values are `==`, as in a `set`. */
  ghost predicate EqFree(s: seq<Value>)
  {
    forall i, j :: 0 <= i < j < |s| ==> !PyEq(s[i], s[j])
  }

  /** `list(set(values))` up to order: a set keeps the first value of each `==` class. */
  function DedupValues(s: seq<Value>): (r: seq<Value>)
    ensures EqFree(r)
    ensures forall x :: x in r ==> x in s
    ensures forall x :: x in s ==> HasEq(r, x)
    decreases |s|
  {
    if s == [] then []
    else
      var d := DedupValues(s[..|s| - 1]);
      var x := s[|s| - 1];
      assert s == s[..|s| - 1] + [x];
      if HasEq(d, x) then d
      else
        var r := d + [x];
        assert forall i :: 0 <= i < |d| ==> r[i] == d[i];
        assert PyEq(r[|d|], x);
        r
  }

  lemma EqFreeDistinct(s: seq<Value>)
    requires EqFree(s)
    ensures Distinct(s)
  {
    forall i, j | 0 <= i < j < |s|
      ensures s[i] != s[j]
    {
      PyEqIsEquivalence(s[i], s[j], s[j]);
    }
  }

  lemma EqFreeAt(s: seq<Value>, i: int, j: int)
    requires EqFree(s) && 0 <= i < |s| && 0 <= j < |s| && i != j
    ensures !PyEq(s[i], s[j])
  {
    if j < i {
      PyEqIsEquivalence(s[i], s[j], s[j]);
    }
  }

  /** Reordering a set-like list keeps it set-like. */
  lemma EqFreePermutation(a: seq<Value>, b: seq<Value>)
    requires EqFree(a) && multiset(a) == multiset(b)
    ensures EqFree(b)
  {
    forall i, j | 0 <= i < j < |b|
      ensures !PyEq(b[i], b[j])
    {
      if b[i] == b[j] {
        EqFreeDistinct(a);
        RepeatedCount(b, i, j);
        DistinctCount(a, b[i]);
      } else {
        assert b[i] in multiset(a) && b[j] in multiset(a);
        var p :| 0 <= p < |a| && a[p] == b[i];
        var q :| 0 <= q < |a| && a[q] == b[j];
        if q < p {
          PyEqIsEquivalence(b[i], b[j], b[j]);
        }
      }
    }
  }

  /** Every value `==` to a member of `a` is `==` to a member of a reordering of `a`. */
  lemma HasEqPermutation(a: seq<Value>, b: seq<Value>, x: Value)
    requires multiset(a) == multiset(b) && HasEq(a, x)
    ensures HasEq(b, x)
  {
    var i :| 0 <= i < |a| && PyEq(a[i], x);
    assert a[i] in multiset(b);
    var j :| 0 <= j < |b| && b[j] == a[i];
  }

  /**
   * `sorted(set(values))` with the families kept apart instead of raising:
   * strictly increasing, and the same values up to `==`.
   */
  function SortedValues(vals: seq<Value>): (r: seq<Value>)
    ensures forall i, j :: 0 <= i < j < |r| ==> ValueLe(r[i], r[j]) && !PyEq(r[i], r[j])
    ensures forall x :: x in r ==> x in vals
    ensures forall x :: x in vals ==> HasEq(r, x)
  {
    ValueOrderIsTotalPreorder();
    var d := DedupValues(vals);
    var r := SortBy(d, ValueOrder);
    EqFreePermutation(d, r);
    assert forall x :: x in r ==> x in multiset(d);
    forall x | x in vals
      ensures HasEq(r, x)
    {
      HasEqPermutation(d, r, x);
    }
    r
  }

  /** Values from two families occur. */
  ghost predicate MixedKinds(vals: seq<Value>)
  {
    exists i, j :: 0 <= i < |vals| && 0 <= j < |vals| && Kind(vals[i]) != Kind(vals[j])
  }

  /** Two different positions hold values Python cannot compare with `<`. */
  predicate Incomparable(d: seq<Value>)
  {
    exists i, j :: 0 <= i < |d| && 0 <= j < |d| && i != j && PyLt(d[i], d[j]).Err?
  }

  /**
   * `sorted(set(values))` as the code calls it: a sort must compare every
   * two neighbours of its result, so it raises `TypeError` as soon as the
   * set holds two values Python cannot order.
   */
  function SortedValuesAsWritten(vals: seq<Value>): (r: Result<seq<Value>>)
    ensures r.Err? ==> r.error == TypeError
  {
    if Incomparable(DedupValues(vals)) then Err(TypeError)
    else Ok(SortedValues(vals))
  }

  lemma IncomparableMixed(vals: seq<Value>)
    requires Incomparable(DedupValues(vals))
    ensures MixedKinds(vals)
  {
    var d := DedupValues(vals);
    var i, j :| 0 <= i < |d| && 0 <= j < |d| && i != j && PyLt(d[i], d[j]).Err?;
    // two `None`s would be `==`, and a set holds only one
    EqFreeAt(d, i, j);
    assert d[i] in vals && d[j] in vals;
  }

  lemma MixedIncomparable(vals: seq<Value>)
    requires MixedKinds(vals)
    ensures Incomparable(DedupValues(vals))
  {
    var d := DedupValues(vals);
    var i, j :| 0 <= i < |vals| && 0 <= j < |vals| && Kind(vals[i]) != Kind(vals[j]);
    assert HasEq(d, vals[i]) && HasEq(d, vals[j]);
    var p :| 0 <= p < |d| && PyEq(d[p], vals[i]);
    var q :| 0 <= q < |d| && PyEq(d[q], vals[j]);
    PyEqKind(d[p], vals[i]);
    PyEqKind(d[q], vals[j]);
    assert PyLt(d[p], d[q]).Err?;
  }

  /** The sort as written raises exactly when two families meet, and agrees with `SortedValues` otherwise. */
  lemma AsWrittenFailsIffMixed(vals: seq<Value>)
    ensures SortedValuesAsWritten(vals).Err? <==> MixedKinds(vals)
    ensures !MixedKinds(vals) ==> SortedValuesAsWritten(vals) == Ok(SortedValues(vals))
  {
    if Incomparable(DedupValues(vals)) {
      IncomparableMixed(vals);
    }
    if MixedKinds(vals) {
      MixedIncomparable(vals);
    }
  }

  /** Without mixed families the corrected result is in Python's own strict `<` order. */
  lemma SortedValuesPythonOrder(vals: seq<Value>)
    requires !MixedKinds(vals)
    ensures forall i, j :: 0 <= i < j < |SortedValues(vals)| ==> PyLt(SortedValues(vals)[i], SortedValues(vals)[j]) == Ok(true)
  {
    var r := SortedValues(vals);
    forall i, j | 0 <= i < j < |r|
      ensures PyLt(r[i], r[j]) == Ok(true)
    {
      assert r[i] in vals && r[j] in vals;
      assert Kind(r[i]) == Kind(r[j]);
      assert ValueLe(r[i], r[j]) && !PyEq(r[i], r[j]);
    }
  }

  /** A `"FAIL"` written for an image that could not be opened, next to an ordinary integer value. */
  lemma FailBesideIntRaises()
    ensures SortedValuesAsWritten([Int(1), Fail]) == Err(TypeError)
  {
    var vals := [Int(1), Fail];
    assert Kind(vals[0]) != Kind(vals[1]);
    AsWrittenFailsIffMixed(vals);
  }

  // ---------------------------------------------------------------------------
  // The set-up dialog
  // ---------------------------------------------------------------------------

  /** One entry of the annotation file's `files` list; a JSON object keeps its keys in order. */
  datatype Record = Record(
    filename: string,
    checkboxes: Option<seq<(string, Value)>>,
    radiobuttons: Option<seq<(string, Value)>>)

  /** What `load_json_filenames_findings` hands back besides the opaque `config`. */
  datatype JsonFindings = JsonFindings(
    filenames: seq<string>,
    checkboxes: seq<string>,
    values: seq<Value>,
    radiobuttons: seq<string>)

  function Filenames(files: seq<Record>): (r: seq<string>)
    ensures |r| == |files|
    ensures forall i :: 0 <= i < |files| ==> r[i] == files[i].filename
  {
    seq(|files|, i requires 0 <= i < |files| => files[i].filename)
  }

  /** The pairs of every entry that has a `checkboxes` object, entry after entry. */
  function CheckboxPairs(files: seq<Record>): (r: seq<(string, Value)>)
    ensures forall p :: p in r <==> exists i :: 0 <= i < |files| && p in files[i].checkboxes.GetOr([])
  {
    if files == [] then []
    else
      var rest := CheckboxPairs(files[1..]);
      assert forall i :: 0 < i < |files| ==> files[i] == files[1..][i - 1];
      files[0].checkboxes.GetOr([]) + rest
  }

  /** The pairs of every entry that has a `radiobuttons` object, entry after entry. */
  function RadioPairs(files: seq<Record>): (r: seq<(string, Value)>)
    ensures forall p :: p in r <==> exists i :: 0 <= i < |files| && p in files[i].radiobuttons.GetOr([])
  {
    if files == [] then []
    else
      var rest := RadioPairs(files[1..]);
      assert forall i :: 0 < i < |files| ==> files[i] == files[1..][i - 1];
      files[0].radiobuttons.GetOr([]) + rest
  }

  function KeysOf(ps: seq<(string, Value)>): (r: seq<string>)
    ensures forall k :: k in r <==> exists v :: (k, v) in ps
  {
    var r := seq(|ps|, i requires 0 <= i < |ps| => ps[i].0);
    assert forall i :: 0 <= i < |ps| ==> (r[i], ps[i].1) == ps[i];
    r
  }

  function ValuesOf(ps: seq<(string, Value)>): (r: seq<Value>)
    ensures forall v :: v in r <==> exists k :: (k, v) in ps
  {
    var r := seq(|ps|, i requires 0 <= i < |ps| => ps[i].1);
    assert forall i :: 0 <= i < |ps| ==> (ps[i].0, r[i]) == ps[i];
    r
  }

  /** `load_json_filenames_findings` with the corrected value sort. */
  function LoadJsonFindings(files: seq<Record>): (r: JsonFindings)
    ensures r.filenames == Filenames(files)
    ensures forall i, j :: 0 <= i < j < |r.checkboxes| ==> Strings.Le(r.checkboxes[i], r.checkboxes[j]) && r.checkboxes[i] != r.checkboxes[j]
    ensures forall k :: k in r.checkboxes <==> exists v :: (k, v) in CheckboxPairs(files)
    ensures forall x :: x in r.values ==> exists k :: (k, x) in CheckboxPairs(files)
    ensures forall k, x :: (k, x) in CheckboxPairs(files) ==> HasEq(r.values, x)
    ensures forall i, j :: 0 <= i < j < |r.values| ==> ValueLe(r.values[i], r.values[j]) && !PyEq(r.values[i], r.values[j])
    ensures forall i, j :: 0 <= i < j < |r.radiobuttons| ==> Strings.Le(r.radiobuttons[i], r.radiobuttons[j]) && r.radiobuttons[i] != r.radiobuttons[j]
    ensures forall k :: k in r.radiobuttons <==> exists v :: (k, v) in RadioPairs(files)
  {
    var cb := CheckboxPairs(files);
    var vals := ValuesOf(cb);
    assert forall k, x :: (k, x) in cb ==> x in vals;
    JsonFindings(
      Filenames(files),
      Strings.SortedSet(KeysOf(cb)),
      SortedValues(vals),
      Strings.SortedSet(KeysOf(RadioPairs(files))))
  }

  /** `load_json_filenames_findings` as written, with its `sorted(set(cbox_values))`. */
  function LoadJsonFindingsAsWritten(files: seq<Record>): (r: Result<JsonFindings>)
    ensures r.Err? ==> r.error == TypeError
  {
    var cb := CheckboxPairs(files);
    match SortedValuesAsWritten(ValuesOf(cb))
    case Err(e) => Err(e)
    case Ok(v) =>
      Ok(JsonFindings(
        Filenames(files),
        Strings.SortedSet(KeysOf(cb)),
        v,
        Strings.SortedSet(KeysOf(RadioPairs(files)))))
  }

  /** The code as written fails exactly on mixed checkbox values, and agrees with the corrected result otherwise. */
  lemma LoadJsonFindingsAgree(files: seq<Record>)
    ensures LoadJsonFindingsAsWritten(files).Err? <==> MixedKinds(ValuesOf(CheckboxPairs(files)))
    ensures !MixedKinds(ValuesOf(CheckboxPairs(files))) ==> LoadJsonFindingsAsWritten(files) == Ok(LoadJsonFindings(files))
  {
    AsWrittenFailsIffMixed(ValuesOf(CheckboxPairs(files)));
  }

  /** An annotation file in which one image was marked `"FAIL"` and another scored 1 cannot be opened. */
  lemma FailedImageFileRaises()
    ensures LoadJsonFindingsAsWritten([
      Record("a.dcm", Some([("Quality", Int(1))]), None),
      Record("b.dcm", Some([("Quality", Fail)]), None)]) == Err(TypeError)
  {
    var files := [
      Record("a.dcm", Some([("Quality", Int(1))]), None),
      Record("b.dcm", Some([("Quality", Fail)]), None)];
    var vals := ValuesOf(CheckboxPairs(files));
    assert CheckboxPairs(files[1..]) == [("Quality", Fail)];
    assert vals == [Int(1), Fail];
    FailBesideIntRaises();
  }

  /** The annotation file names only images present in the folder, or the folder is not a directory. */
  ghost predicate ImagesCompatible(filenames: seq<string>, isDir: bool, folder: seq<string>)
  {
    !isDir || forall f :: f in filenames ==> f in folder && Strings.IsImageName(f)
  }

  /**
   * `check_json_image_compatibility`, with `os.path.isdir` and
   * `os.listdir` of the folder as the parameters `isDir` and `folder`.
   */
  method CheckJsonImageCompatibility(filenames: seq<string>, isDir: bool, folder: seq<string>) returns (ok: bool)
    ensures ok <==> ImagesCompatible(filenames, isDir, folder)
  {
    if !isDir {
      return true;
    }
    var imgs := FolderImages(folder);
    for i := 0 to |filenames|
      invariant forall k :: 0 <= k < i ==> filenames[k] in imgs
    {
      if filenames[i] !in imgs {
        return false;
      }
    }
    return true;
  }

  /** The sorted image names of the folder listing. */
  function FolderImages(folder: seq<string>): (r: seq<string>)
    ensures forall f :: f in r <==> f in folder && Strings.IsImageName(f)
  {
    var names := Strings.ImageNames(folder);
    var r := Strings.SortStrings(names);
    assert forall f :: f in r <==> f in multiset(names);
    r
  }

  /** The state of `SetupWindow` that the checks touch. */
  class SetupWindow {
    var jsonPath: string
    var savedJsonPath: Option<string>
    var okEnabled: bool
    var accepted: bool
    var findings: Option<JsonFindings>

    constructor(path: string, saved: Option<string>)
      ensures jsonPath == path && savedJsonPath == saved
      ensures okEnabled && !accepted && findings == None
    {
      jsonPath, savedJsonPath, okEnabled, accepted, findings := path, saved, true, false, None;
    }

    /**
     * `check_json_compatibility` on the current path: `isFile` stands for
     * `os.path.isfile`, `files` for the file's `files` list. The findings
     * are read by `load_json_filenames_findings` as written, so checkbox
     * values that mix numbers with `"FAIL"` raise `TypeError` before
     * anything is stored. A compatible file is remembered in the settings;
     * a missing one disables OK.
     */
    method CheckJsonCompatibility(isFile: bool, files: seq<Record>, isDir: bool, folder: seq<string>)
      returns (r: Result<bool>)
      modifies this
      ensures r.Err? <==> isFile && MixedKinds(ValuesOf(CheckboxPairs(files)))
      ensures r.Err? ==> r.error == TypeError
      ensures r.Err? ==> okEnabled == old(okEnabled) && findings == old(findings) && savedJsonPath == old(savedJsonPath)
      ensures r.Ok? ==> (r.value <==> isFile && ImagesCompatible(Filenames(files), isDir, folder))
      ensures jsonPath == old(jsonPath) && accepted == old(accepted)
      ensures !isFile ==> !okEnabled && findings == old(findings) && savedJsonPath == old(savedJsonPath)
      ensures isFile && r.Ok? ==> okEnabled == old(okEnabled) && findings == Some(LoadJsonFindings(files))
      ensures isFile && r.Ok? ==> savedJsonPath == if r.value then Some(jsonPath) else old(savedJsonPath)
    {
      if isFile {
        LoadJsonFindingsAgree(files);
        var loaded := LoadJsonFindingsAsWritten(files);
        if loaded.Err? {
          return Err(loaded.error);
        }
        findings := Some(loaded.value);
        var ok := CheckJsonImageCompatibility(loaded.value.filenames, isDir, folder);
        if ok {
          savedJsonPath := Some(jsonPath);
        }
        r := Ok(ok);
      } else {
        okEnabled := false;
        r := Ok(false);
      }
    }

    /**
     * `on_accepted`: the dialog closes only on a compatible file; otherwise
     * OK is disabled. The `TypeError` of the check propagates out of the
     * handler with the dialog still open.
     */
    method OnAccepted(isFile: bool, files: seq<Record>, isDir: bool, folder: seq<string>) returns (r: Result<()>)
      modifies this
      ensures r.Err? <==> isFile && MixedKinds(ValuesOf(CheckboxPairs(files)))
      ensures r.Err? ==> r.error == TypeError && accepted == old(accepted) && okEnabled == old(okEnabled)
      ensures jsonPath == old(jsonPath)
      ensures r.Ok? ==> (accepted <==> old(accepted) || (isFile && ImagesCompatible(Filenames(files), isDir, folder)))
      ensures r.Ok? && !(isFile && ImagesCompatible(Filenames(files), isDir, folder)) ==> !okEnabled
    {
      var ok := CheckJsonCompatibility(isFile, files, isDir, folder);
      if ok.Err? {
        return Err(ok.error);
      }
      if !ok.value {
        okEnabled := false;
        return Ok(());
      }
      accepted := true;
      return Ok(());
    }

    /** `accept`, overridden to do nothing so that only `on_accepted` can close the dialog. */
    method Accept()
      ensures accepted == old(accepted) && okEnabled == old(okEnabled)
    {
    }
  }

  // ---------------------------------------------------------------------------
  // The file selection dialog
  // ---------------------------------------------------------------------------

  /** `query.lower() in file.lower()`. */
  predicate Matches(f: string, query: string)
  {
    Strings.Contains(Strings.Lower(f), Strings.Lower(query))
  }

  /** The list comprehension of `filter_list`. */
  function Filter(files: seq<string>, query: string): (r: seq<string>)
    ensures forall f :: f in r <==> f in files && Matches(f, query)
    ensures |r| <= |files|
  {
    if files == [] then []
    else (if Matches(files[0], query) then [files[0]] else []) + Filter(files[1..], query)
  }

  /** Filtering works list piece by list piece, so it keeps the original order. */
  lemma {:induction false} FilterAppend(a: seq<string>, b: seq<string>, query: string)
    ensures Filter(a + b, query) == Filter(a, query) + Filter(b, query)
  {
    if a != [] {
      assert (a + b)[0] == a[0];
      assert (a + b)[1..] == a[1..] + b;
      FilterAppend(a[1..], b, query);
    } else {
      assert a + b == b;
    }
  }

  /** An empty search keeps every file. */
  lemma {:induction false} FilterEmptyQuery(files: seq<string>)
    ensures Filter(files, "") == files
  {
    if files != [] {
      assert Strings.Lower("") == "";
      FilterEmptyQuery(files[1..]);
    }
  }

  /** Typing the same query again changes nothing. */
  lemma {:induction false} FilterIdempotent(files: seq<string>, query: string)
    ensures Filter(Filter(files, query), query) == Filter(files, query)
  {
    if files != [] {
      FilterIdempotent(files[1..], query);
      if Matches(files[0], query) {
        assert Filter(files, query) == [files[0]] + Filter(files[1..], query);
        FilterAppend([files[0]], Filter(files[1..], query), query);
        assert [files[0]][1..] == [];
        assert Filter([files[0]], query) == [files[0]];
      } else {
        assert Filter(files, query) == Filter(files[1..], query);
      }
    }
  }

  /** `FileSelectionDialog`; `outcome` is `Some(true)` once accepted and `Some(false)` once rejected. */
  class FileSelectionDialog {
    var fileList: seq<string>
    var filteredList: seq<string>
    var selectedFile: Option<string>
    var okEnabled: bool
    var outcome: Option<bool>

    constructor(files: seq<string>)
      ensures fileList == files && filteredList == files
      ensures selectedFile == None && !okEnabled && outcome == None
    {
      fileList, filteredList, selectedFile, okEnabled, outcome := files, files, None, false, None;
    }

    /** `filter_list`: the shown list becomes the matching files, the full list stays. */
    method FilterList(query: string)
      modifies this`filteredList
      ensures filteredList == Filter(fileList, query)
    {
      filteredList := Filter(fileList, query);
    }

    /** `select_file`: remember the clicked name and enable OK. */
    method SelectFile(item: string)
      modifies this`selectedFile, this`okEnabled
      ensures selectedFile == Some(item) && okEnabled
    {
      selectedFile, okEnabled := Some(item), true;
    }

    /** `accept_file`: accept when a file is selected, reject otherwise. */
    method AcceptFile()
      modifies this`outcome
      ensures outcome == Some(selectedFile.Some?)
    {
      if selectedFile.Some? {
        outcome := Some(true);
      } else {
        outcome := Some(false);
      }
    }

    /** `select_and_accept_file`: a double click selects and accepts at once. */
    method SelectAndAcceptFile(item: string)
      modifies this`selectedFile, this`okEnabled, this`outcome
      ensures selectedFile == Some(item) && okEnabled && outcome == Some(true)
    {
      SelectFile(item);
      AcceptFile();
    }
  }
}
