/**
 * The annotation session of the current main window (`MainApp`): the
 * cursor over the file list, the per-file tables, navigation with
 * wrap-around, saving and loading a session, backup eviction and the
 * two-annotator conflict merge.
 */
module MainApp {
  import opened Wrappers
  import opened Sorting
  import opened Strings
  import opened Session
  import opened Config
  import opened Utils

  // ---------------------------------------------------------------------------
  // Navigation targets
  // ---------------------------------------------------------------------------

  /** `previous`: one step back, from the first file to the last. */
  function PrevIndex(i: int, n: int): (r: int)
    requires 0 <= i < n
    ensures 0 <= r < n
    ensures r == (i - 1) % n
  {
    if i - 1 < 0 then n - 1 else i - 1
  }

  /** `next`: one step on, from the last file to the first. */
  function NextIndex(i: int, n: int): (r: int)
    requires 0 <= i < n
    ensures 0 <= r < n
    ensures r == (i + 1) % n
  {
    if i == n - 1 then 0 else i + 1
  }

  lemma PrevNextInverse(i: int, n: int)
    requires 0 <= i < n
    ensures NextIndex(PrevIndex(i, n), n) == i
    ensures PrevIndex(NextIndex(i, n), n) == i
  {
  }

  /** Every listed file has an entry in the per-file dictionary `m`. */
  ghost predicate Keyed<V>(files: seq<string>, m: map<string, V>)
  {
    forall k :: 0 <= k < |files| ==> files[k] in m
  }

  /** Storing a value under a key keeps every listed file keyed. */
  lemma KeyedStore<V>(files: seq<string>, m: map<string, V>, key: string, v: V)
    requires Keyed(files, m)
    ensures Keyed(files, m[key := v])
  {
  }

  // ---------------------------------------------------------------------------
  // Progress
  // ---------------------------------------------------------------------------

  /**
   * The files `change_image` counts as done for the progress bar: those
   * whose flag is truthy and, in conflict resolution, that have a conflict.
   */
  function DoneFiles(viewed: map<string, ViewedFlag>, hasConflict: map<string, bool>, conflict: bool): (r: set<string>)
    ensures forall k :: k in r <==> k in viewed && viewed[k].Truthy() && (!conflict || (k in hasConflict && hasConflict[k]))
  {
    set k | k in viewed && viewed[k].Truthy() && (!conflict || (k in hasConflict && hasConflict[k]))
  }

  /**
   * `percent_viewed` in `change_image`: a hundred times the done files over
   * `n`, the number of listed files (of conflict files in conflict
   * resolution). The conflict count looks up `has_conflict` for every
   * truthy flag, so a viewed file without an entry raises `KeyError`; a
   * zero count of files raises `ZeroDivisionError`.
   */
  function PercentViewed(viewed: map<string, ViewedFlag>, hasConflict: map<string, bool>, conflict: bool, n: nat): (r: Result<real>)
    ensures r.Err? <==> n == 0 || (conflict && exists k :: k in viewed && viewed[k].Truthy() && k !in hasConflict)
    ensures r.Err? && n != 0 ==> r.error == KeyError
    ensures r.Ok? ==> r.value * n as real == 100.0 * |DoneFiles(viewed, hasConflict, conflict)| as real
    ensures r.Ok? ==> 0.0 <= r.value
    ensures r.Ok? ==> (r.value == 0.0 <==> DoneFiles(viewed, hasConflict, conflict) == {})
  {
    if conflict && exists k :: k in viewed && viewed[k].Truthy() && k !in hasConflict then Err(KeyError)
    else if n == 0 then Err(ZeroDivisionError)
    else Ok(100.0 * |DoneFiles(viewed, hasConflict, conflict)| as real / n as real)
  }

  /** A list without repeated names has as many names as entries. */
  lemma {:induction false} DistinctNames(files: seq<string>)
    requires Distinct(files)
    ensures |(set f | f in files)| == |files|
  {
    if |files| > 0 {
      var p := files[..|files| - 1];
      assert Distinct(p);
      DistinctNames(p);
      assert (set f | f in files) == (set f | f in p) + {files[|files| - 1]};
      assert files[|files| - 1] !in p;
    }
  }

  /**
   * Outside conflict resolution, with the flags keyed by exactly the
   * listed files, the progress is at most a hundred percent and reaches a
   * hundred exactly when every file is viewed or failed.
   */
  lemma PercentViewedBounds(files: seq<string>, viewed: map<string, ViewedFlag>, hasConflict: map<string, bool>)
    requires Distinct(files) && |files| > 0
    requires viewed.Keys == set f | f in files
    ensures PercentViewed(viewed, hasConflict, false, |files|).Ok?
    ensures PercentViewed(viewed, hasConflict, false, |files|).value <= 100.0
    ensures PercentViewed(viewed, hasConflict, false, |files|).value == 100.0 <==> forall k :: 0 <= k < |files| ==> viewed[files[k]].Truthy()
  {
    DoneCount(files, viewed, hasConflict);
    PercentOf(PercentViewed(viewed, hasConflict, false, |files|).value, |DoneFiles(viewed, hasConflict, false)|, |files|);
  }

  /** With the flags keyed by exactly the listed files, all of them are done exactly when the count reaches the list's length. */
  lemma DoneCount(files: seq<string>, viewed: map<string, ViewedFlag>, hasConflict: map<string, bool>)
    requires Distinct(files)
    requires viewed.Keys == set f | f in files
    ensures |DoneFiles(viewed, hasConflict, false)| <= |files|
    ensures |DoneFiles(viewed, hasConflict, false)| == |files| <==> forall k :: 0 <= k < |files| ==> viewed[files[k]].Truthy()
  {
    var done := DoneFiles(viewed, hasConflict, false);
    DistinctNames(files);
    assert |viewed.Keys| == |files|;
    var rest := viewed.Keys - done;
    DoneWithin(viewed, hasConflict, false);
    SubsetRest(done, viewed.Keys);
    assert (forall k :: 0 <= k < |files| ==> viewed[files[k]].Truthy()) ==> rest == {};
    if rest == {} {
      forall k | 0 <= k < |files|
        ensures viewed[files[k]].Truthy()
      {
        assert files[k] in viewed.Keys;
      }
    }
  }

  /** Only files with a flag are done. */
  lemma DoneWithin(viewed: map<string, ViewedFlag>, hasConflict: map<string, bool>, conflict: bool)
    ensures DoneFiles(viewed, hasConflict, conflict) <= viewed.Keys
  {
  }

  /** Taking a subset out of a set leaves the difference of their sizes. */
  lemma SubsetRest<T>(a: set<T>, b: set<T>)
    requires a <= b
    ensures |b - a| == |b| - |a|
  {
    assert b == a + (b - a);
  }

  /** A percentage of `c` out of `n >= c` is at most a hundred, and a hundred exactly when `c == n`. */
  lemma PercentOf(r: real, c: nat, n: nat)
    requires n > 0 && c <= n && r * n as real == 100.0 * c as real
    ensures r <= 100.0
    ensures r == 100.0 <==> c == n
  {
    if r == 100.0 {
      assert 100.0 * n as real == 100.0 * c as real;
    }
  }

  /** The first position in `[lo, hi)` whose file is not (truthily) viewed. */
  function FirstUnviewed(files: seq<string>, viewed: map<string, ViewedFlag>, lo: int, hi: int): (r: Option<int>)
    requires 0 <= lo <= hi <= |files| && Keyed(files, viewed)
    ensures r.Some? ==> lo <= r.value < hi && !viewed[files[r.value]].Truthy()
    ensures r.Some? ==> forall j :: lo <= j < r.value ==> viewed[files[j]].Truthy()
    ensures r.None? ==> forall j :: lo <= j < hi ==> viewed[files[j]].Truthy()
    decreases hi - lo
  {
    if lo == hi then None
    else if !viewed[files[lo]].Truthy() then Some(lo)
    else FirstUnviewed(files, viewed, lo + 1, hi)
  }

  /**
   * `next_unrated`: the name of the first unviewed file after `cur`, else
   * of the first one before it, looked up again with `list.index`; `cur`
   * when every other file is viewed or failed.
   */
  function NextUnrated(files: seq<string>, viewed: map<string, ViewedFlag>, cur: int): (r: int)
    requires 0 <= cur < |files| && Keyed(files, viewed)
    ensures 0 <= r < |files|
    ensures r == cur || !viewed[files[r]].Truthy()
  {
    match FirstUnviewed(files, viewed, cur + 1, |files|)
    case Some(j) => IndexOf(files, files[j])
    case None =>
      match FirstUnviewed(files, viewed, 0, cur)
      case Some(j) => IndexOf(files, files[j])
      case None => cur
  }

  /** On a list without repeated names, `next_unrated` is the circular search for the next unviewed file. */
  lemma NextUnratedChoice(files: seq<string>, viewed: map<string, ViewedFlag>, cur: int)
    requires 0 <= cur < |files| && Keyed(files, viewed) && Distinct(files)
    ensures var r := NextUnrated(files, viewed, cur);
      && ((exists j :: cur < j < |files| && !viewed[files[j]].Truthy()) ==>
            cur < r && !viewed[files[r]].Truthy() && forall j :: cur < j < r ==> viewed[files[j]].Truthy())
      && ((forall j :: cur < j < |files| ==> viewed[files[j]].Truthy()) && (exists j :: 0 <= j < cur && !viewed[files[j]].Truthy()) ==>
            r < cur && !viewed[files[r]].Truthy() && forall j :: 0 <= j < r ==> viewed[files[j]].Truthy())
      && ((forall j :: 0 <= j < |files| && j != cur ==> viewed[files[j]].Truthy()) ==> r == cur)
  {
    var after := FirstUnviewed(files, viewed, cur + 1, |files|);
    if after.Some? {
      IndexOfDistinct(files, after.value);
    } else {
      var before := FirstUnviewed(files, viewed, 0, cur);
      if before.Some? {
        IndexOfDistinct(files, before.value);
      }
    }
  }

  /** The four directions `change_image` accepts. */
  predicate IsDirection(direction: string)
  {
    direction in ["previous", "next", "go_to", "next_unrated"]
  }

  /** The position `change_image` moves to within `files` (all files, or the conflicting ones). */
  function NavTarget(files: seq<string>, viewed: map<string, ViewedFlag>, i: int, direction: string, goTo: int): (r: int)
    requires 0 <= i < |files| && Keyed(files, viewed) && IsDirection(direction)
    requires direction == "go_to" ==> 0 <= goTo < |files|
    ensures 0 <= r < |files|
    ensures direction == "previous" ==> r == (i - 1) % |files|
    ensures direction == "next" ==> r == (i + 1) % |files|
    ensures direction == "go_to" ==> r == goTo
    ensures direction == "next_unrated" ==> r == NextUnrated(files, viewed, i)
  {
    if direction == "previous" then PrevIndex(i, |files|)
    else if direction == "go_to" then goTo
    else if direction == "next" then NextIndex(i, |files|)
    else NextUnrated(files, viewed, i)
  }

  // ---------------------------------------------------------------------------
  // Rotation and notes
  // ---------------------------------------------------------------------------

  /** `rotate_image_right`: a quarter turn clockwise, kept in `[0, 360)`. */
  function RotateRight(r: int): (s: int)
    ensures 0 <= s < 360
    ensures (s - r - 90) % 360 == 0
  {
    (r + 90) % 360
  }

  /** `rotate_image_left`: three quarter turns, kept in `[0, 360)`. */
  function RotateLeft(r: int): (s: int)
    ensures 0 <= s < 360
    ensures (s - r - 270) % 360 == 0
  {
    (r + 270) % 360
  }

  /** A right turn and a left turn cancel, and so do four right turns, up to reduction modulo 360. */
  lemma RotationsCancel(r: int)
    ensures RotateLeft(RotateRight(r)) == r % 360
    ensures RotateRight(RotateLeft(r)) == r % 360
    ensures RotateRight(RotateRight(RotateRight(RotateRight(r)))) == r % 360
    ensures 0 <= r < 360 ==> RotateLeft(RotateRight(r)) == r
  {
    var a := RotateRight(r);
    var b := RotateLeft(r);
    ModUnique(r, (r + 90) / 360 + (a + 270) / 360 - 1, RotateLeft(a));
    ModUnique(r, (r + 270) / 360 + (b + 90) / 360 - 1, RotateRight(b));
    var c := RotateRight(RotateRight(a));
    var q1, q2, q3 := (a + 90) / 360, (RotateRight(a) + 90) / 360, (c + 90) / 360;
    ModUnique(r, (r + 90) / 360 + q1 + q2 + q3 - 1, RotateRight(c));
  }

  /** Euclidean remainder by 360 is the unique residue in `[0, 360)`. */
  lemma ModUnique(z: int, q: int, m: int)
    requires 0 <= m < 360 && z == 360 * q + m
    ensures z % 360 == m
  {
  }

  /** `on_text_changed`: new lines become spaces and commas semicolons. */
  function NormaliseNotes(text: string): (r: string)
    ensures |r| == |text|
    ensures '\n' !in r && ',' !in r
    ensures forall i :: 0 <= i < |text| && text[i] == '\n' ==> r[i] == ' '
    ensures forall i :: 0 <= i < |text| && text[i] == ',' ==> r[i] == ';'
    ensures forall i :: 0 <= i < |text| && text[i] != '\n' && text[i] != ',' ==> r[i] == text[i]
  {
    ReplaceChar(ReplaceChar(text, '\n', ' '), ',', ';')
  }

  lemma NormaliseNotesIdempotent(text: string)
    ensures NormaliseNotes(NormaliseNotes(text)) == NormaliseNotes(text)
  {
    var once := NormaliseNotes(text);
    var twice := NormaliseNotes(once);
    assert forall i :: 0 <= i < |once| ==> once[i] != '\n' && once[i] != ',';
    assert forall i :: 0 <= i < |once| ==> twice[i] == once[i];
  }

  // ---------------------------------------------------------------------------
  // Saving and loading one file's record
  // ---------------------------------------------------------------------------

  /** The `checkboxes` map written for a file: every configured name, `"FAIL"` for a failed image. */
  function CheckboxOut(viewed: ViewedFlag, stored: map<string, Value>, findings: seq<string>): (r: map<string, Value>)
    ensures forall c :: c in r <==> c in findings
    ensures viewed == Failed ==> forall c :: c in r ==> r[c] == Fail
    ensures viewed != Failed ==> forall c :: c in r ==> r[c] == (if c in stored then stored[c] else Bool(false))
  {
    map c | c in findings :: if viewed == Failed then Fail else if c in stored then stored[c] else Bool(false)
  }

  /** The record `create_output_dictionary` emits for file `f`. */
  function OutputEntry(f: string, s: FileState, findings: seq<string>): Entry
  {
    Entry(f, s.viewed, s.rotation, Some(s.notes), Some(CheckboxOut(s.viewed, s.checkboxes, findings)),
          Some(NonEmpty(s.bboxes)), Some(s.radiobuttons))
  }

  /** Every finding that holds a box has a colour, i.e. is a configured checkbox name. */
  predicate BoxesConfigured(b: BoxMap<Rect>, findings: seq<string>)
  {
    forall k :: k in b && |b[k]| > 0 ==> k in findings
  }

  /**
   * What `load_from_json` stores for one entry: the values verbatim, missing
   * optional maps as empty ones; a missing `notes` key or a box whose
   * finding has no colour raises `KeyError`.
   */
  function LoadEntry(e: Entry, findings: seq<string>): (r: Result<FileState>)
    ensures r.Err? ==> r.error == KeyError
    ensures r.Ok? <==> e.notes.Some? && (e.bboxes.Some? ==> BoxesConfigured(e.bboxes.value, findings))
    ensures r.Ok? ==> r.value.viewed == e.viewed && r.value.rotation == e.rotation && r.value.notes == e.notes.value
    ensures r.Ok? ==> r.value.checkboxes == e.checkboxes.GetOr(map[]) && r.value.radiobuttons == e.radiobuttons.GetOr(map[])
    ensures r.Ok? ==> r.value.bboxes == NonEmpty(e.bboxes.GetOr(map[]))
  {
    if e.notes.None? then Err(KeyError)
    else if e.bboxes.Some? && !BoxesConfigured(e.bboxes.value, findings) then Err(KeyError)
    else Ok(FileState(e.viewed, e.rotation, e.notes.value, e.checkboxes.GetOr(map[]),
                      NonEmpty(e.bboxes.GetOr(map[])), e.radiobuttons.GetOr(map[])))
  }

  /**
   * Saving a file's record and loading it back keeps flag, rotation, notes,
   * radio values and the non-empty box lists; the checkbox map comes back
   * as the configured names only. Saving again writes the same record.
   */
  lemma {:induction false} SaveLoadRoundTrip(f: string, s: FileState, findings: seq<string>)
    requires BoxesConfigured(s.bboxes, findings)
    ensures LoadEntry(OutputEntry(f, s, findings), findings).Ok?
    ensures var t := LoadEntry(OutputEntry(f, s, findings), findings).value;
      && t.viewed == s.viewed && t.rotation == s.rotation && t.notes == s.notes
      && t.radiobuttons == s.radiobuttons
      && t.bboxes == NonEmpty(s.bboxes)
      && t.checkboxes == CheckboxOut(s.viewed, s.checkboxes, findings)
      && OutputEntry(f, t, findings) == OutputEntry(f, s, findings)
  {
    var e := OutputEntry(f, s, findings);
    assert BoxesConfigured(e.bboxes.value, findings);
    var t := LoadEntry(e, findings).value;
    assert NonEmpty(t.bboxes) == NonEmpty(s.bboxes);
    var c1 := CheckboxOut(s.viewed, s.checkboxes, findings);
    var c2 := CheckboxOut(t.viewed, t.checkboxes, findings);
    assert forall c :: c in c2 ==> c2[c] == c1[c];
    assert c2 == c1;
  }

  /** A non-failed file whose map holds exactly the configured names is saved and loaded unchanged. */
  lemma CheckboxesSurvive(s: FileState, findings: seq<string>)
    requires s.viewed != Failed
    requires forall c :: c in s.checkboxes <==> c in findings
    ensures CheckboxOut(s.viewed, s.checkboxes, findings) == s.checkboxes
  {
  }

  // ---------------------------------------------------------------------------
  // Saving and loading a whole session
  // ---------------------------------------------------------------------------

  /** The six per-file dictionaries of a session. */
  datatype Tables = Tables(
    viewed: map<string, ViewedFlag>,
    rotation: map<string, int>,
    notes: map<string, string>,
    checkboxes: map<string, map<string, Value>>,
    bboxes: map<string, BoxMap<Rect>>,
    radio: map<string, map<string, Value>>)

  /**
   * The per-file dictionaries of a fresh session over `files`: every file
   * unviewed, unrotated, without notes or boxes, every checkbox 0 and every
   * radio group unset.
   */
  function FreshSession(files: seq<string>, config: AppConfig): (t: Tables)
    ensures forall f :: (f in t.viewed <==> f in files) && (f in t.rotation <==> f in files) && (f in t.notes <==> f in files)
    ensures forall f :: (f in t.checkboxes <==> f in files) && (f in t.bboxes <==> f in files) && (f in t.radio <==> f in files)
    ensures forall f :: f in files ==> t.viewed[f] == NotViewed && t.rotation[f] == 0 && t.notes[f] == "" && t.bboxes[f] == map[]
    ensures forall f, c :: f in files ==> (c in t.checkboxes[f] <==> c in config.checkboxes) && (c in t.checkboxes[f] ==> t.checkboxes[f][c] == Int(0))
    ensures forall f, g :: f in files ==> (g in t.radio[f] <==> g in config.Titles()) && (g in t.radio[f] ==> t.radio[f][g] == Null)
  {
    Tables(map f | f in files :: NotViewed, map f | f in files :: 0, map f | f in files :: "",
           map f | f in files :: map c | c in config.checkboxes :: Int(0), map f | f in files :: map[],
           map f | f in files :: map g | g in config.Titles() :: Null)
  }

  /** File `f` has an entry in every dictionary. */
  predicate HasFile(t: Tables, f: string)
  {
    f in t.viewed && f in t.rotation && f in t.notes && f in t.checkboxes && f in t.bboxes && f in t.radio
  }

  /** The record of file `f` in the dictionaries. */
  function StateIn(t: Tables, f: string): FileState
    requires HasFile(t, f)
  {
    FileState(t.viewed[f], t.rotation[f], t.notes[f], t.checkboxes[f], t.bboxes[f], t.radio[f])
  }

  /** File `f` is held alike, or absent alike, in the two sets of dictionaries. */
  predicate SameAt(t: Tables, u: Tables, f: string)
  {
    && (f in t.viewed <==> f in u.viewed) && (f in t.viewed ==> t.viewed[f] == u.viewed[f])
    && (f in t.rotation <==> f in u.rotation) && (f in t.rotation ==> t.rotation[f] == u.rotation[f])
    && (f in t.notes <==> f in u.notes) && (f in t.notes ==> t.notes[f] == u.notes[f])
    && (f in t.checkboxes <==> f in u.checkboxes) && (f in t.checkboxes ==> t.checkboxes[f] == u.checkboxes[f])
    && (f in t.bboxes <==> f in u.bboxes) && (f in t.bboxes ==> t.bboxes[f] == u.bboxes[f])
    && (f in t.radio <==> f in u.radio) && (f in t.radio ==> t.radio[f] == u.radio[f])
  }

  /** The `files` list of `create_output_dictionary`: one record per listed file, in list order. */
  function Outputs(files: seq<string>, t: Tables, findings: seq<string>): (r: seq<Entry>)
    requires forall k :: 0 <= k < |files| ==> HasFile(t, files[k])
    ensures |r| == |files|
    ensures forall k :: 0 <= k < |r| ==> r[k].filename == files[k]
  {
    seq(|files|, k requires 0 <= k < |files| => OutputEntry(files[k], StateIn(t, files[k]), findings))
  }

  /** One entry stored by `load_from_json`: its record replaces whatever the dictionaries held under that name. */
  function StoreEntry(t: Tables, e: Entry, findings: seq<string>): (r: Result<Tables>)
    ensures r.Ok? <==> LoadEntry(e, findings).Ok?
    ensures r.Err? ==> r.error == KeyError
  {
    match LoadEntry(e, findings)
    case Err(x) => Err(x)
    case Ok(s) =>
      var f := e.filename;
      Ok(Tables(t.viewed[f := s.viewed], t.rotation[f := s.rotation], t.notes[f := s.notes],
                t.checkboxes[f := s.checkboxes], t.bboxes[f := s.bboxes], t.radio[f := s.radiobuttons]))
  }

  /** The dictionaries after the loop of `load_from_json` over the entries, in order; a bad entry raises. */
  function LoadTables(t: Tables, entries: seq<Entry>, findings: seq<string>): (r: Result<Tables>)
    ensures r.Err? ==> r.error == KeyError
    decreases |entries|
  {
    if entries == [] then Ok(t)
    else
      match LoadTables(t, entries[..|entries| - 1], findings)
      case Err(x) => Err(x)
      case Ok(u) => StoreEntry(u, entries[|entries| - 1], findings)
  }

  /** The load succeeds exactly when every entry has notes and only configured findings hold boxes. */
  lemma {:induction false} LoadTablesOk(t: Tables, entries: seq<Entry>, findings: seq<string>)
    ensures LoadTables(t, entries, findings).Ok? <==> forall k :: 0 <= k < |entries| ==> LoadEntry(entries[k], findings).Ok?
    decreases |entries|
  {
    if entries != [] {
      var n := |entries| - 1;
      LoadTablesOk(t, entries[..n], findings);
      assert forall k :: 0 <= k < n ==> entries[..n][k] == entries[k];
    }
  }

  /** Storing one entry fills its own name with its record and leaves every other name alone. */
  lemma StoreEntryAt(t: Tables, e: Entry, findings: seq<string>, f: string)
    requires StoreEntry(t, e, findings).Ok?
    ensures var u := StoreEntry(t, e, findings).value;
      && (f == e.filename ==> HasFile(u, f) && Ok(StateIn(u, f)) == LoadEntry(e, findings))
      && (f != e.filename ==> SameAt(t, u, f))
  {
  }

  /**
   * After a successful load a named file is in every dictionary and holds
   * the record of its last entry; any other file is as before.
   */
  lemma {:induction false} LoadTablesState(t: Tables, entries: seq<Entry>, findings: seq<string>, f: string)
    requires LoadTables(t, entries, findings).Ok?
    ensures var u := LoadTables(t, entries, findings).value;
      && (HasEntry(entries, f) ==> HasFile(u, f) && Ok(StateIn(u, f)) == LoadEntry(entries[LastIndex(entries, f)], findings))
      && (!HasEntry(entries, f) ==> SameAt(t, u, f))
    decreases |entries|
  {
    if entries != [] {
      var n := |entries| - 1;
      var p := entries[..n];
      var e := entries[n];
      var mid := LoadTables(t, p, findings).value;
      assert LoadTables(t, entries, findings) == StoreEntry(mid, e, findings);
      LoadTablesState(t, p, findings, f);
      StoreEntryAt(mid, e, findings, f);
      if e.filename != f {
        if HasEntry(entries, f) {
          LastIndexStep(entries, n, f);
          assert entries[..n + 1] == entries;
        } else {
          assert forall k :: 0 <= k < |p| ==> p[k] == entries[k];
        }
      } else {
        assert HasEntry(entries, f) by {
          assert entries[n].filename == f;
        }
      }
    }
  }

  /** After a successful load every named file is in every dictionary. */
  lemma LoadTablesCovered(t: Tables, entries: seq<Entry>, findings: seq<string>)
    requires LoadTables(t, entries, findings).Ok?
    ensures forall k :: 0 <= k < |entries| ==> HasFile(LoadTables(t, entries, findings).value, entries[k].filename)
  {
    forall k | 0 <= k < |entries|
      ensures HasFile(LoadTables(t, entries, findings).value, entries[k].filename)
    {
      assert HasEntry(entries, entries[k].filename);
      LoadTablesState(t, entries, findings, entries[k].filename);
    }
  }

  /** After a successful load the dictionaries cover the entries' names. */
  lemma LoadedCovered(t: Tables, entries: seq<Entry>, findings: seq<string>)
    requires LoadTables(t, entries, findings).Ok?
    ensures var u := LoadTables(t, entries, findings).value;
      Covered(Names(entries), u.viewed, u.rotation, u.notes, u.checkboxes, u.radio, u.bboxes)
  {
    LoadTablesCovered(t, entries, findings);
  }

  /**
   * A session written by `create_output_dictionary` loads back, over any
   * previous dictionaries: each file gets its flag, rotation, notes and
   * radio values, its non-empty box lists, and its checkbox map as saved.
   */
  lemma SavedSessionLoads(files: seq<string>, t: Tables, findings: seq<string>, start: Tables, f: string)
    requires forall k :: 0 <= k < |files| ==> HasFile(t, files[k]) && BoxesConfigured(t.bboxes[files[k]], findings)
    requires f in files
    ensures HasFile(t, f)
    ensures LoadTables(start, Outputs(files, t, findings), findings).Ok?
    ensures var u := LoadTables(start, Outputs(files, t, findings), findings).value;
      && HasFile(u, f)
      && var s, v := StateIn(t, f), StateIn(u, f);
      && v.viewed == s.viewed && v.rotation == s.rotation && v.notes == s.notes && v.radiobuttons == s.radiobuttons
      && v.bboxes == NonEmpty(s.bboxes) && v.checkboxes == CheckboxOut(s.viewed, s.checkboxes, findings)
  {
    var out := Outputs(files, t, findings);
    forall k | 0 <= k < |out|
      ensures LoadEntry(out[k], findings).Ok?
    {
      SaveLoadRoundTrip(files[k], StateIn(t, files[k]), findings);
    }
    LoadTablesOk(start, out, findings);
    var j :| 0 <= j < |files| && files[j] == f;
    assert HasEntry(out, f) by {
      assert out[j].filename == f;
    }
    LoadTablesState(start, out, findings, f);
    var last := LastIndex(out, f);
    assert out[last] == OutputEntry(f, StateIn(t, f), findings);
    SaveLoadRoundTrip(f, StateIn(t, f), findings);
  }

  /** The loop of `load_from_json`, on the dictionaries as values: entry after entry, stopping at the first that raises. */
  method LoadEntries(t: Tables, entries: seq<Entry>, findings: seq<string>) returns (r: Result<Tables>)
    ensures r == LoadTables(t, entries, findings)
  {
    var u := t;
    for i := 0 to |entries|
      invariant LoadTables(t, entries[..i], findings) == Ok(u)
    {
      assert entries[..i + 1][..i] == entries[..i];
      var e := entries[i];
      var s := LoadEntry(e, findings);
      if s.Err? {
        LoadTablesOk(t, entries, findings);
        return Err(s.error);
      }
      var f := e.filename;
      u := Tables(u.viewed[f := s.value.viewed], u.rotation[f := s.value.rotation], u.notes[f := s.value.notes],
                  u.checkboxes[f := s.value.checkboxes], u.bboxes[f := s.value.bboxes], u.radio[f := s.value.radiobuttons]);
    }
    assert entries[..|entries|] == entries;
    return Ok(u);
  }

  /** The loop of `create_output_dictionary` over the file list, on the dictionaries as values. */
  method WriteEntries(files: seq<string>, t: Tables, findings: seq<string>) returns (out: seq<Entry>)
    requires forall k :: 0 <= k < |files| ==> HasFile(t, files[k])
    ensures out == Outputs(files, t, findings)
  {
    out := [];
    for k := 0 to |files|
      invariant |out| == k
      invariant forall j :: 0 <= j < k ==> out[j] == OutputEntry(files[j], StateIn(t, files[j]), findings)
    {
      out := out + [OutputEntry(files[k], StateIn(t, files[k]), findings)];
    }
  }

  // ---------------------------------------------------------------------------
  // Backup eviction
  // ---------------------------------------------------------------------------

  /** The name `backup_file` gives a new backup for a time stamp. */
  function BackupName(stamp: string): string
  {
    "auto_backup_" + stamp + ".bak"
  }

  /**
   * The existing backups that `backup_file` keeps: sorted by name; when
   * there are already `maxBackups` or more, the first is deleted. With no
   * backups and a limit of zero or less, `backup_files[0]` raises.
   */
  function Evict(existing: seq<string>, maxBackups: int): (r: Result<seq<string>>)
    ensures r.Err? <==> |existing| == 0 && maxBackups <= 0
    ensures r.Err? ==> r.error == IndexError
  {
    var sorted := SortStrings(existing);
    if |sorted| >= maxBackups then
      if |sorted| == 0 then Err(IndexError) else Ok(sorted[1..])
    else Ok(sorted)
  }

  /**
   * Below the limit every backup is kept; at or above it exactly one name
   * goes, a least one, so the folder ends with n+1 names when n < m and n
   * names otherwise.
   */
  lemma {:induction false} EvictionKeepsLimit(existing: seq<string>, maxBackups: int, stamp: string)
    requires |existing| > 0 || maxBackups > 0
    ensures Evict(existing, maxBackups).Ok?
    ensures var kept := Evict(existing, maxBackups).value;
      && (|existing| < maxBackups ==> multiset(kept) == multiset(existing))
      && (|existing| >= maxBackups ==>
            exists m :: m in existing && (forall y :: y in existing ==> Le(m, y))
                     && multiset(kept) == multiset(existing) - multiset{m})
      && |kept + [BackupName(stamp)]| == (if |existing| < maxBackups then |existing| + 1 else |existing|)
  {
    var sorted := SortStrings(existing);
    var kept := Evict(existing, maxBackups).value;
    assert |sorted| == |multiset(sorted)| == |multiset(existing)| == |existing|;
    if |existing| >= maxBackups {
      SortStringsHead(existing);
      var m := sorted[0];
      assert sorted == [m] + kept;
      assert multiset(kept) == multiset(existing) - multiset{m};
    }
  }

  // ---------------------------------------------------------------------------
  // Small decision rules
  // ---------------------------------------------------------------------------

  /** `highlight_next_radiogroup`: the group after `name` in key order, the first after the last. */
  function NextGroup(keys: seq<string>, name: string): (r: Result<string>)
    ensures r.Err? <==> name !in keys
    ensures r.Err? ==> r.error == ValueError
    ensures r.Ok? ==> r.value in keys
  {
    if name !in keys then Err(ValueError)
    else
      var i := IndexOf(keys, name);
      if i + 1 < |keys| then Ok(keys[i + 1]) else Ok(keys[0])
  }

  /** Over distinct group names, highlighting moves one group on, circularly. */
  lemma NextGroupCycles(keys: seq<string>, i: int)
    requires Distinct(keys) && 0 <= i < |keys|
    ensures NextGroup(keys, keys[i]) == Ok(keys[(i + 1) % |keys|])
  {
    IndexOfDistinct(keys, i);
    NextModulo(i, |keys|);
  }

  /** The successor of a position modulo the length wraps only at the end. */
  lemma NextModulo(i: int, n: int)
    requires 0 <= i < n
    ensures (i + 1) % n == if i + 1 < n then i + 1 else 0
  {
  }

  /**
   * `restore_from_saved_state`: with both settings stored, the position of
   * the saved file if it is listed, else the saved index if it is below
   * the length, else 0; without them the cursor stays.
   */
  function RestoreIndex(files: seq<string>, saved: Option<(string, int)>, cur: int): (r: int)
    ensures saved.None? ==> r == cur
    ensures saved.Some? && saved.value.0 in files ==>
      (0 <= r < |files| && files[r] == saved.value.0 && forall k :: 0 <= k < r ==> files[k] != saved.value.0)
    ensures saved.Some? && saved.value.0 !in files ==> r == (if saved.value.1 < |files| then saved.value.1 else 0)
  {
    match saved
    case None => cur
    case Some((lastFile, lastIndex)) =>
      if lastFile in files then IndexOf(files, lastFile)
      else if lastIndex < |files| then lastIndex
      else 0
  }

  /** The buttons of the close dialog. */
  datatype Button = Yes | No | Cancel

  /** `save_to_json`: a loaded session is written in place; a new one only if the save-as dialog is accepted. */
  function SaveToJson(loaded: bool, dialogAccepted: bool): (saved: bool)
    ensures saved <==> loaded || dialogAccepted
  {
    if !loaded then dialogAccepted else true
  }

  /** `closeEvent`: whether the window closes and whether the session was written. */
  function CloseEvent(button: Button, loaded: bool, dialogAccepted: bool): (r: (bool, bool))
    ensures r.0 <==> button == No || (button == Yes && SaveToJson(loaded, dialogAccepted))
    ensures r.1 <==> button == Yes && SaveToJson(loaded, dialogAccepted)
  {
    match button
    case Yes => var saved := SaveToJson(loaded, dialogAccepted); (saved, saved)
    case Cancel => (false, false)
    case No => (true, false)
  }

  /** Choosing Yes either writes the session and closes, or keeps the window open unsaved. */
  lemma CloseOnlyAfterSave(loaded: bool, dialogAccepted: bool)
    ensures CloseEvent(Yes, loaded, dialogAccepted).0 == CloseEvent(Yes, loaded, dialogAccepted).1
    ensures loaded ==> CloseEvent(Yes, loaded, dialogAccepted) == (true, true)
    ensures !CloseEvent(Cancel, loaded, dialogAccepted).0
  {
  }

  const Key1: int := 0x31
  const Key9: int := 0x39
  const KeyReturn: int := 0x0100_0004
  const KeyEnter: int := 0x0100_0005

  /** The number of buttons of each titled group; a title defined twice keeps the later group. */
  function GroupSizes(groups: seq<RadioGroupData>): (r: map<string, nat>)
    ensures forall t :: t in r <==> exists k :: 0 <= k < |groups| && groups[k].title == t
    decreases |groups|
  {
    if groups == [] then map[]
    else
      var last := groups[|groups| - 1];
      var prefix := groups[..|groups| - 1];
      assert forall k :: 0 <= k < |prefix| ==> prefix[k] == groups[k];
      GroupSizes(prefix)[last.title := |last.labels|]
  }

  // ---------------------------------------------------------------------------
  // Conflict merge of two annotators
  // ---------------------------------------------------------------------------

  /** What `load_multiple_annotator_data` extracts from one annotator's session file. */
  datatype AnnotatorData = AnnotatorData(
    checkboxValues: map<string, map<string, Value>>,
    bboxes: map<string, BoxMap<Rect>>,
    notes: map<string, string>)

  /**
   * One entry folded into the annotator's dictionaries: checkbox values are
   * merged into the file's map, created only once a value is stored; the
   * file's boxes are replaced, a finding appearing only once it holds a box;
   * notes are stored when present.
   */
  function AnnotatorStep(acc: AnnotatorData, e: Entry): AnnotatorData
  {
    var f := e.filename;
    AnnotatorData(
      if e.checkboxes.Some? && |e.checkboxes.value| > 0
      then acc.checkboxValues[f := (if f in acc.checkboxValues then acc.checkboxValues[f] else map[]) + e.checkboxes.value]
      else acc.checkboxValues,
      acc.bboxes[f := NonEmpty(e.bboxes.GetOr(map[]))],
      if e.notes.Some? then acc.notes[f := e.notes.value] else acc.notes)
  }

  /** The annotator's dictionaries after every entry of its session file, in order. */
  function LoadAnnotator(entries: seq<Entry>): AnnotatorData
    decreases |entries|
  {
    if entries == [] then AnnotatorData(map[], map[], map[])
    else AnnotatorStep(LoadAnnotator(entries[..|entries| - 1]), entries[|entries| - 1])
  }

  /** `load_multiple_annotator_data`: one pass over the entries of an annotator's file. */
  method LoadMultipleAnnotatorData(entries: seq<Entry>) returns (d: AnnotatorData)
    ensures d == LoadAnnotator(entries)
  {
    d := AnnotatorData(map[], map[], map[]);
    for i := 0 to |entries|
      invariant d == LoadAnnotator(entries[..i])
    {
      assert entries[..i + 1][..i] == entries[..i];
      var e := entries[i];
      var f := e.filename;
      var values := d.checkboxValues;
      if e.checkboxes.Some? && |e.checkboxes.value| > 0 {
        var fileValues := if f in values then values[f] else map[];
        values := values[f := fileValues + e.checkboxes.value];
      }
      var boxes := d.bboxes[f := NonEmpty(e.bboxes.GetOr(map[]))];
      var notes := if e.notes.Some? then d.notes[f := e.notes.value] else d.notes;
      d := AnnotatorData(values, boxes, notes);
    }
    assert entries[..|entries|] == entries;
  }

  /**
   * Every file with an entry has a box map, whose lists are non-empty; a
   * file has notes or checkbox values only if some entry supplies them.
   */
  lemma {:induction false} LoadAnnotatorKeys(entries: seq<Entry>, f: string)
    ensures f in LoadAnnotator(entries).bboxes <==> HasEntry(entries, f)
    ensures f in LoadAnnotator(entries).bboxes ==>
      forall g :: g in LoadAnnotator(entries).bboxes[f] ==> |LoadAnnotator(entries).bboxes[f][g]| > 0
    ensures f in LoadAnnotator(entries).notes ==> exists k :: 0 <= k < |entries| && entries[k].filename == f && entries[k].notes.Some?
    decreases |entries|
  {
    if entries != [] {
      var n := |entries| - 1;
      var p := entries[..n];
      LoadAnnotatorKeys(p, f);
      if HasEntry(p, f) {
        var k :| 0 <= k < |p| && p[k].filename == f;
        assert entries[k] == p[k];
      }
      if HasEntry(entries, f) && entries[n].filename != f {
        var k :| 0 <= k < |entries| && entries[k].filename == f;
        assert p[k] == entries[k];
      }
      if f in LoadAnnotator(p).notes {
        var k :| 0 <= k < |p| && p[k].filename == f && p[k].notes.Some?;
        assert entries[k] == p[k];
      }
    }
  }

  /** For a file named once, the annotator's data is that entry's, with empty maps dropped. */
  lemma {:induction false} LoadAnnotatorDistinct(entries: seq<Entry>, k: int)
    requires 0 <= k < |entries|
    requires forall i, j :: 0 <= i < j < |entries| ==> entries[i].filename != entries[j].filename
    ensures var d := LoadAnnotator(entries); var e := entries[k];
      && e.filename in d.bboxes && d.bboxes[e.filename] == NonEmpty(e.bboxes.GetOr(map[]))
      && (e.filename in d.notes <==> e.notes.Some?)
      && (e.notes.Some? ==> d.notes[e.filename] == e.notes.value)
      && (e.filename in d.checkboxValues <==> e.checkboxes.Some? && |e.checkboxes.value| > 0)
      && (e.filename in d.checkboxValues ==> d.checkboxValues[e.filename] == e.checkboxes.value)
    decreases |entries|
  {
    var n := |entries| - 1;
    var p := entries[..n];
    var f := entries[k].filename;
    if k == n {
      assert forall j :: 0 <= j < |p| ==> p[j].filename != f;
      AbsentFromLoad(p, f);
      StepOnAbsent(LoadAnnotator(p), entries[k]);
    } else {
      LoadAnnotatorDistinct(p, k);
      assert p[k] == entries[k];
      StepKeepsOthers(LoadAnnotator(p), entries[n], f);
    }
  }

  /** Folding in the first entry for a file stores exactly that entry's data. */
  lemma StepOnAbsent(acc: AnnotatorData, e: Entry)
    requires e.filename !in acc.bboxes && e.filename !in acc.notes && e.filename !in acc.checkboxValues
    ensures var d := AnnotatorStep(acc, e);
      && e.filename in d.bboxes && d.bboxes[e.filename] == NonEmpty(e.bboxes.GetOr(map[]))
      && (e.filename in d.notes <==> e.notes.Some?)
      && (e.notes.Some? ==> d.notes[e.filename] == e.notes.value)
      && (e.filename in d.checkboxValues <==> e.checkboxes.Some? && |e.checkboxes.value| > 0)
      && (e.filename in d.checkboxValues ==> d.checkboxValues[e.filename] == e.checkboxes.value)
  {
    if e.checkboxes.Some? && |e.checkboxes.value| > 0 {
      assert map[] + e.checkboxes.value == e.checkboxes.value;
    }
  }

  /** Folding in an entry for another file leaves `f` as it was. */
  lemma StepKeepsOthers(acc: AnnotatorData, e: Entry, f: string)
    requires e.filename != f
    ensures var d := AnnotatorStep(acc, e);
      && (f in d.bboxes <==> f in acc.bboxes) && (f in d.bboxes ==> d.bboxes[f] == acc.bboxes[f])
      && (f in d.notes <==> f in acc.notes) && (f in d.notes ==> d.notes[f] == acc.notes[f])
      && (f in d.checkboxValues <==> f in acc.checkboxValues)
      && (f in d.checkboxValues ==> d.checkboxValues[f] == acc.checkboxValues[f])
  {
  }

  /** A file no entry names is in none of the annotator's dictionaries. */
  lemma {:induction false} AbsentFromLoad(entries: seq<Entry>, f: string)
    requires forall j :: 0 <= j < |entries| ==> entries[j].filename != f
    ensures var d := LoadAnnotator(entries); f !in d.bboxes && f !in d.notes && f !in d.checkboxValues
    decreases |entries|
  {
    if entries != [] {
      AbsentFromLoad(entries[..|entries| - 1], f);
    }
  }

  /** Every configured checkbox of `f` is stored by both annotators (otherwise the lookups raise `KeyError`). */
  ghost predicate Annotated(findings: seq<string>, v1: map<string, map<string, Value>>, v2: map<string, map<string, Value>>, f: string)
  {
    && (findings != [] ==> f in v1 && f in v2)
    && forall c :: c in findings ==> f in v1 && c in v1[f] && f in v2 && c in v2[f]
  }

  /** The configured checkboxes on which both annotators agree, with annotator 1's value. */
  function Agreed(findings: seq<string>, a: map<string, Value>, b: map<string, Value>): (r: map<string, Value>)
    requires forall c :: c in findings ==> c in a && c in b
    ensures forall c :: c in r <==> c in findings && PyEq(a[c], b[c])
    ensures forall c :: c in r ==> r[c] == a[c]
  {
    map c | c in findings && PyEq(a[c], b[c]) :: a[c]
  }

  /** Extending the checkbox list by one adds that checkbox exactly when the annotators agree on it. */
  lemma AgreedSnoc(findings: seq<string>, c: string, a: map<string, Value>, b: map<string, Value>)
    requires forall x :: x in findings + [c] ==> x in a && x in b
    ensures Agreed(findings + [c], a, b) ==
      if PyEq(a[c], b[c]) then Agreed(findings, a, b)[c := a[c]] else Agreed(findings, a, b)
  {
    assert forall x :: x in findings ==> x in findings + [c];
  }

  /** Some configured checkbox differs between the annotators. */
  ghost predicate Conflicts(findings: seq<string>, a: map<string, Value>, b: map<string, Value>)
    requires forall c :: c in findings ==> c in a && c in b
  {
    exists c :: c in findings && !PyEq(a[c], b[c])
  }

  /** Extending the checkbox list by one adds a conflict exactly when the annotators differ on it. */
  lemma ConflictsSnoc(findings: seq<string>, c: string, a: map<string, Value>, b: map<string, Value>)
    requires forall x :: x in findings + [c] ==> x in a && x in b
    ensures forall x :: x in findings ==> x in a && x in b
    ensures Conflicts(findings + [c], a, b) <==> Conflicts(findings, a, b) || !PyEq(a[c], b[c])
  {
    assert forall x :: x in findings ==> x in findings + [c];
    if Conflicts(findings + [c], a, b) && !Conflicts(findings, a, b) {
      var x :| x in findings + [c] && !PyEq(a[x], b[x]);
      assert x == c;
    }
  }

  /** The agreed values for file `f`; none when no checkbox is configured. */
  function AgreedFor(findings: seq<string>, v1: map<string, map<string, Value>>, v2: map<string, map<string, Value>>, f: string): (r: map<string, Value>)
    requires Annotated(findings, v1, v2, f)
    ensures findings == [] ==> r == map[]
    ensures findings != [] ==> r == Agreed(findings, v1[f], v2[f])
  {
    if findings == [] then map[] else Agreed(findings, v1[f], v2[f])
  }

  /** File `f` conflicts: some configured checkbox differs between the annotators. */
  ghost predicate FileConflicts(findings: seq<string>, v1: map<string, map<string, Value>>, v2: map<string, map<string, Value>>, f: string)
    requires Annotated(findings, v1, v2, f)
  {
    findings != [] && Conflicts(findings, v1[f], v2[f])
  }

  /**
   * The checkbox loop of `load_conflict_resolution_data` for one file:
   * agreeing values are copied from annotator 1 into `stored`, and the file
   * conflicts iff some configured checkbox differs.
   */
  method MergeCheckboxes(findings: seq<string>, v1: map<string, map<string, Value>>, v2: map<string, map<string, Value>>,
                         f: string, stored: map<string, Value>)
    returns (r: Result<(map<string, Value>, bool)>)
    ensures r.Ok? <==> Annotated(findings, v1, v2, f)
    ensures r.Err? ==> r.error == KeyError
    ensures r.Ok? ==> r.value.0 == stored + AgreedFor(findings, v1, v2, f)
    ensures r.Ok? ==> (r.value.1 <==> FileConflicts(findings, v1, v2, f))
  {
    if findings == [] {
      return Ok((stored, false));
    }
    if f !in v1 || f !in v2 {
      return Err(KeyError);
    }
    var m := MergeValues(findings, v1[f], v2[f], stored);
    if m.None? {
      return Err(KeyError);
    }
    return Ok(m.value);
  }

  /** The checkbox loop on the two annotators' values for one file; `None` when a configured value is missing. */
  method MergeValues(findings: seq<string>, a: map<string, Value>, b: map<string, Value>, stored: map<string, Value>)
    returns (r: Option<(map<string, Value>, bool)>)
    ensures r.Some? <==> forall c :: c in findings ==> c in a && c in b
    ensures r.Some? ==> r.value.0 == stored + Agreed(findings, a, b)
    ensures r.Some? ==> (r.value.1 <==> Conflicts(findings, a, b))
  {
    var merged := stored;
    var conflict := false;
    for i := 0 to |findings|
      invariant forall c :: c in findings[..i] ==> c in a && c in b
      invariant merged == stored + Agreed(findings[..i], a, b)
      invariant conflict <==> Conflicts(findings[..i], a, b)
    {
      var c := findings[i];
      if c !in a || c !in b {
        return None;
      }
      MergeValuesStep(findings, i, a, b, stored, merged, conflict);
      merged := if PyEq(a[c], b[c]) then merged[c := a[c]] else merged;
      conflict := conflict || !PyEq(a[c], b[c]);
    }
    assert findings[..|findings|] == findings;
    return Some((merged, conflict));
  }

  /** One more checkbox of the loop of `MergeValues`. */
  lemma MergeValuesStep(findings: seq<string>, i: int, a: map<string, Value>, b: map<string, Value>, stored: map<string, Value>,
                        merged: map<string, Value>, conflict: bool)
    requires 0 <= i < |findings| && findings[i] in a && findings[i] in b
    requires forall c :: c in findings[..i] ==> c in a && c in b
    requires merged == stored + Agreed(findings[..i], a, b)
    requires conflict <==> Conflicts(findings[..i], a, b)
    ensures forall c :: c in findings[..i + 1] ==> c in a && c in b
    ensures var c := findings[i];
      (if PyEq(a[c], b[c]) then merged[c := a[c]] else merged) == stored + Agreed(findings[..i + 1], a, b)
    ensures var c := findings[i];
      (conflict || !PyEq(a[c], b[c])) <==> Conflicts(findings[..i + 1], a, b)
  {
    var c := findings[i];
    assert findings[..i + 1] == findings[..i] + [c];
    AgreedSnoc(findings[..i], c, a, b);
    ConflictsSnoc(findings[..i], c, a, b);
  }

  /**
   * The boxes an annotator shows on a conflicting file: the first box of
   * each finding. An empty list raises `IndexError` and a finding without a
   * colour `KeyError`; which comes first depends on the dictionary order.
   */
  function FirstBoxes(m: BoxMap<Rect>, findings: seq<string>): (r: Result<BoxMap<Rect>>)
    ensures r.Ok? <==> forall g :: g in m ==> |m[g]| > 0 && g in findings
    ensures r.Ok? ==> forall g :: g in r.value <==> g in m
    ensures r.Ok? ==> forall g :: g in r.value ==> r.value[g] == [m[g][0]]
    ensures r.Err? ==> r.error == IndexError || r.error == KeyError
  {
    if forall g :: g in m ==> |m[g]| > 0 && g in findings then Ok(map g | g in m :: [m[g][0]])
    else if exists g :: g in m && |m[g]| == 0 then Err(IndexError)
    else Err(KeyError)
  }

  /** `conflict_files`: the conflicting files, in file-list order. */
  ghost function ConflictFilter(files: seq<string>, findings: seq<string>, v1: map<string, map<string, Value>>, v2: map<string, map<string, Value>>): (r: seq<string>)
    requires forall f :: f in files ==> Annotated(findings, v1, v2, f)
    decreases |files|
  {
    if files == [] then []
    else
      var prefix := files[..|files| - 1];
      var f := files[|files| - 1];
      assert f in files;
      assert forall g :: g in prefix ==> g in files;
      ConflictFilter(prefix, findings, v1, v2) + (if FileConflicts(findings, v1, v2, f) then [f] else [])
  }

  /** `file_idx_to_conflict_idx`: for each file its position among the conflicting files, `None` if it does not conflict. */
  ghost function ConflictSlots(files: seq<string>, findings: seq<string>, v1: map<string, map<string, Value>>, v2: map<string, map<string, Value>>): (r: seq<Option<int>>)
    requires forall f :: f in files ==> Annotated(findings, v1, v2, f)
    ensures |r| == |files|
    decreases |files|
  {
    if files == [] then []
    else
      var prefix := files[..|files| - 1];
      var f := files[|files| - 1];
      assert f in files;
      assert forall g :: g in prefix ==> g in files;
      ConflictSlots(prefix, findings, v1, v2)
        + [if FileConflicts(findings, v1, v2, f) then Some(|ConflictFilter(prefix, findings, v1, v2)|) else None]
  }

  /** The filter keeps exactly the conflicting files. */
  lemma {:induction false} ConflictFilterMembers(files: seq<string>, findings: seq<string>, v1: map<string, map<string, Value>>, v2: map<string, map<string, Value>>, f: string)
    requires forall g :: g in files ==> Annotated(findings, v1, v2, g)
    ensures f in ConflictFilter(files, findings, v1, v2) <==> f in files && FileConflicts(findings, v1, v2, f)
    decreases |files|
  {
    if files != [] {
      var prefix := files[..|files| - 1];
      assert files == prefix + [files[|files| - 1]];
      assert forall g :: g in prefix ==> g in files;
      ConflictFilterMembers(prefix, findings, v1, v2, f);
    }
  }

  /** Adding one file to the list extends the filter and the slots at their ends. */
  lemma ConflictSnoc(files: seq<string>, findings: seq<string>, v1: map<string, map<string, Value>>, v2: map<string, map<string, Value>>)
    requires files != []
    requires forall g :: g in files ==> Annotated(findings, v1, v2, g)
    ensures forall g :: g in files[..|files| - 1] ==> Annotated(findings, v1, v2, g)
    ensures var p := files[..|files| - 1]; var f := files[|files| - 1];
      && ConflictFilter(files, findings, v1, v2) == ConflictFilter(p, findings, v1, v2) + (if FileConflicts(findings, v1, v2, f) then [f] else [])
      && ConflictSlots(files, findings, v1, v2) == ConflictSlots(p, findings, v1, v2)
           + [if FileConflicts(findings, v1, v2, f) then Some(|ConflictFilter(p, findings, v1, v2)|) else None]
  {
    assert forall g :: g in files[..|files| - 1] ==> g in files;
  }

  /** A slot is `None` exactly for a file without conflict. */
  lemma {:induction false} ConflictSlotsNone(files: seq<string>, findings: seq<string>, v1: map<string, map<string, Value>>, v2: map<string, map<string, Value>>, j: int)
    requires forall g :: g in files ==> Annotated(findings, v1, v2, g)
    requires 0 <= j < |files|
    ensures files[j] in files
    ensures ConflictSlots(files, findings, v1, v2)[j].None? <==> !FileConflicts(findings, v1, v2, files[j])
    decreases |files|
  {
    var n := |files| - 1;
    ConflictSnoc(files, findings, v1, v2);
    if j < n {
      ConflictSlotsNone(files[..n], findings, v1, v2, j);
      assert files[..n][j] == files[j];
    }
  }

  /** A file's slot names its own position among the conflicting files. */
  lemma {:induction false} ConflictSlotsPoint(files: seq<string>, findings: seq<string>, v1: map<string, map<string, Value>>, v2: map<string, map<string, Value>>, j: int)
    requires forall g :: g in files ==> Annotated(findings, v1, v2, g)
    requires 0 <= j < |files| && ConflictSlots(files, findings, v1, v2)[j].Some?
    ensures var c := ConflictSlots(files, findings, v1, v2)[j].value; var cf := ConflictFilter(files, findings, v1, v2);
      0 <= c < |cf| && cf[c] == files[j]
    decreases |files|
  {
    var n := |files| - 1;
    ConflictSnoc(files, findings, v1, v2);
    if j < n {
      ConflictSlotsPoint(files[..n], findings, v1, v2, j);
      assert files[..n][j] == files[j];
    }
  }

  /** Every position among the conflicting files is named by some slot. */
  lemma {:induction false} ConflictSlotsCover(files: seq<string>, findings: seq<string>, v1: map<string, map<string, Value>>, v2: map<string, map<string, Value>>, c: int)
    requires forall g :: g in files ==> Annotated(findings, v1, v2, g)
    requires 0 <= c < |ConflictFilter(files, findings, v1, v2)|
    ensures exists j :: 0 <= j < |files| && ConflictSlots(files, findings, v1, v2)[j] == Some(c)
    decreases |files|
  {
    var n := |files| - 1;
    ConflictSnoc(files, findings, v1, v2);
    var p := files[..n];
    var slots := ConflictSlots(files, findings, v1, v2);
    if c < |ConflictFilter(p, findings, v1, v2)| {
      ConflictSlotsCover(p, findings, v1, v2, c);
      var j :| 0 <= j < |p| && ConflictSlots(p, findings, v1, v2)[j] == Some(c);
      assert slots[j] == Some(c);
    } else {
      assert slots[n] == Some(c);
    }
  }

  /**
   * On a file list without repeats the two index maps are inverse:
   * `file_list[conflict_idx_to_file_idx[k]] == conflict_files[k]` and the
   * slot of that file is `k`.
   */
  lemma ConflictIndexRoundTrip(files: seq<string>, findings: seq<string>, v1: map<string, map<string, Value>>, v2: map<string, map<string, Value>>, c: int)
    requires forall g :: g in files ==> Annotated(findings, v1, v2, g)
    requires Distinct(files)
    requires 0 <= c < |ConflictFilter(files, findings, v1, v2)|
    ensures var cf := ConflictFilter(files, findings, v1, v2);
      && cf[c] in files
      && ConflictSlots(files, findings, v1, v2)[IndexOf(files, cf[c])] == Some(c)
  {
    ConflictSlotsCover(files, findings, v1, v2, c);
    var slots := ConflictSlots(files, findings, v1, v2);
    var j :| 0 <= j < |files| && slots[j] == Some(c);
    ConflictSlotsPoint(files, findings, v1, v2, j);
    IndexOfDistinct(files, j);
  }

  /** The first position from `lo` on whose file conflicts and is not viewed. */
  function FirstOpenConflict(files: seq<string>, viewed: map<string, ViewedFlag>, hasConflict: map<string, bool>, lo: int): (r: Option<int>)
    requires 0 <= lo <= |files|
    requires forall k :: 0 <= k < |files| ==> files[k] in viewed && files[k] in hasConflict
    ensures r.Some? ==> lo <= r.value < |files| && !viewed[files[r.value]].Truthy() && hasConflict[files[r.value]]
    ensures r.Some? ==> forall j :: lo <= j < r.value ==> viewed[files[j]].Truthy() || !hasConflict[files[j]]
    ensures r.None? ==> forall j :: lo <= j < |files| ==> viewed[files[j]].Truthy() || !hasConflict[files[j]]
    decreases |files| - lo
  {
    if lo == |files| then None
    else if !viewed[files[lo]].Truthy() && hasConflict[files[lo]] then Some(lo)
    else FirstOpenConflict(files, viewed, hasConflict, lo + 1)
  }

  /**
   * `load_conflict_resolution_data`'s cursor rule: on the first file, if it
   * does not conflict, go to the first unviewed conflicting file, if any.
   */
  function ConflictCursor(files: seq<string>, viewed: map<string, ViewedFlag>, hasConflict: map<string, bool>, cur: int): (r: int)
    requires 0 <= cur < |files|
    requires forall k :: 0 <= k < |files| ==> files[k] in viewed && files[k] in hasConflict
    ensures 0 <= r < |files|
    ensures !(cur == 0 && !hasConflict[files[0]]) ==> r == cur
    ensures cur == 0 && !hasConflict[files[0]] ==>
      && (forall j :: 0 <= j < r ==> viewed[files[j]].Truthy() || !hasConflict[files[j]])
      && (r > 0 ==> !viewed[files[r]].Truthy() && hasConflict[files[r]])
      && (r == 0 ==> forall j :: 0 <= j < |files| ==> viewed[files[j]].Truthy() || !hasConflict[files[j]])
  {
    if cur == 0 && !hasConflict[files[0]] then
      match FirstOpenConflict(files, viewed, hasConflict, 0)
      case Some(j) => j
      case None => cur
    else cur
  }

  /** The conflict-mode dictionaries `load_conflict_resolution_data` builds. */
  datatype ConflictData = ConflictData(
    checkboxValues: map<string, map<string, Value>>,
    hasConflict: map<string, bool>,
    conflictFiles: seq<string>,
    fileToConflict: seq<Option<int>>,
    conflictToFile: seq<int>,
    boxes1: map<string, BoxMap<Rect>>,
    boxes2: map<string, BoxMap<Rect>>,
    notes1: map<string, string>,
    notes2: map<string, string>)

  /** Before the loop: no conflicts yet, and empty annotator boxes and notes for every listed file. */
  function ConflictStart(files: seq<string>, cv: map<string, map<string, Value>>): (r: ConflictData)
    ensures r.checkboxValues == cv && r.hasConflict == map[] && r.conflictFiles == [] && r.fileToConflict == [] && r.conflictToFile == []
    ensures forall f :: f in files ==> f in r.boxes1 && r.boxes1[f] == map[] && f in r.boxes2 && r.boxes2[f] == map[]
  {
    var none := map f | f in files :: map[];
    var blank := map f | f in files :: "";
    ConflictData(cv, map[], [], [], [], none, none, blank, blank)
  }

  /**
   * One file of the loop: agreeing checkboxes are stored; a conflicting file
   * is appended to the conflict list and shows the first box of each
   * finding of both annotators and their notes; any other file gets no
   * annotator boxes. A missing checkbox value or box list raises `KeyError`.
   */
  ghost function ConflictStep(acc: ConflictData, files: seq<string>, f: string, findings: seq<string>, d1: AnnotatorData, d2: AnnotatorData): (r: Result<ConflictData>)
    requires f in acc.checkboxValues
    ensures r.Ok? ==> r.value.checkboxValues.Keys == acc.checkboxValues.Keys
  {
    var v1, v2 := d1.checkboxValues, d2.checkboxValues;
    if !Annotated(findings, v1, v2, f) then Err(KeyError)
    else
      var cv := acc.checkboxValues[f := acc.checkboxValues[f] + AgreedFor(findings, v1, v2, f)];
      if !FileConflicts(findings, v1, v2, f) then
        Ok(acc.(checkboxValues := cv, hasConflict := acc.hasConflict[f := false], fileToConflict := acc.fileToConflict + [None],
                boxes1 := acc.boxes1[f := map[]], boxes2 := acc.boxes2[f := map[]]))
      else if f !in files || f !in d1.bboxes then Err(KeyError)
      else
        match FirstBoxes(d1.bboxes[f], findings)
        case Err(x) => Err(x)
        case Ok(b1) =>
          if f !in d2.bboxes then Err(KeyError)
          else
            match FirstBoxes(d2.bboxes[f], findings)
            case Err(x) => Err(x)
            case Ok(b2) =>
              Ok(ConflictData(cv, acc.hasConflict[f := true], acc.conflictFiles + [f], acc.fileToConflict + [Some(|acc.conflictFiles|)],
                              acc.conflictToFile + [IndexOf(files, f)], acc.boxes1[f := b1], acc.boxes2[f := b2], d1.notes, d2.notes))
  }

  /** A step stores the agreed checkbox values of its file. */
  ghost predicate StepCheckboxes(acc: ConflictData, r: ConflictData, f: string, findings: seq<string>, d1: AnnotatorData, d2: AnnotatorData)
  {
    var v1, v2 := d1.checkboxValues, d2.checkboxValues;
    && f in acc.checkboxValues
    && Annotated(findings, v1, v2, f)
    && r.checkboxValues == acc.checkboxValues[f := acc.checkboxValues[f] + AgreedFor(findings, v1, v2, f)]
  }

  /** A step flags its file and, if it conflicts, appends it to the conflict list and the index maps. */
  ghost predicate StepFlags(acc: ConflictData, r: ConflictData, files: seq<string>, f: string, findings: seq<string>, d1: AnnotatorData, d2: AnnotatorData)
  {
    var v1, v2 := d1.checkboxValues, d2.checkboxValues;
    && Annotated(findings, v1, v2, f)
    && var conflict := FileConflicts(findings, v1, v2, f);
    && r.hasConflict == acc.hasConflict[f := conflict]
    && r.conflictFiles == acc.conflictFiles + (if conflict then [f] else [])
    && r.fileToConflict == acc.fileToConflict + [if conflict then Some(|acc.conflictFiles|) else None]
    && (conflict ==> f in files && r.conflictToFile == acc.conflictToFile + [IndexOf(files, f)])
    && (!conflict ==> r.conflictToFile == acc.conflictToFile)
  }

  /** A step shows the annotators' first boxes of a conflicting file and none of any other. */
  ghost predicate StepBoxes(acc: ConflictData, r: ConflictData, f: string, findings: seq<string>, d1: AnnotatorData, d2: AnnotatorData)
  {
    var v1, v2 := d1.checkboxValues, d2.checkboxValues;
    && Annotated(findings, v1, v2, f)
    && var conflict := FileConflicts(findings, v1, v2, f);
    && (conflict ==> HasFirstBoxes(d1.bboxes, f, findings) && HasFirstBoxes(d2.bboxes, f, findings))
    && r.boxes1 == acc.boxes1[f := FirstOrNone(d1.bboxes, f, findings, conflict)]
    && r.boxes2 == acc.boxes2[f := FirstOrNone(d2.bboxes, f, findings, conflict)]
  }

  /** An annotator has boxes for `f` whose first ones per finding can be taken. */
  ghost predicate HasFirstBoxes(bboxes: map<string, BoxMap<Rect>>, f: string, findings: seq<string>)
  {
    f in bboxes && FirstBoxes(bboxes[f], findings).Ok?
  }

  /** The annotator boxes shown for `f`: the first box of each finding when the file conflicts, none otherwise. */
  ghost function FirstOrNone(bboxes: map<string, BoxMap<Rect>>, f: string, findings: seq<string>, conflict: bool): BoxMap<Rect>
  {
    if conflict && HasFirstBoxes(bboxes, f, findings) then FirstBoxes(bboxes[f], findings).value else map[]
  }

  /** `shown` holds for `f` the annotator boxes `FirstOrNone` picks, and a conflicting file has them. */
  ghost predicate ShowsFirst(shown: map<string, BoxMap<Rect>>, bboxes: map<string, BoxMap<Rect>>, f: string, findings: seq<string>, conflict: bool)
  {
    && (conflict ==> HasFirstBoxes(bboxes, f, findings))
    && f in shown && shown[f] == FirstOrNone(bboxes, f, findings, conflict)
  }

  /** A conflicting step shows the annotators' notes. */
  ghost predicate StepNotes(acc: ConflictData, r: ConflictData, f: string, findings: seq<string>, d1: AnnotatorData, d2: AnnotatorData)
  {
    && Annotated(findings, d1.checkboxValues, d2.checkboxValues, f)
    && var conflict := FileConflicts(findings, d1.checkboxValues, d2.checkboxValues, f);
    && r.notes1 == (if conflict then d1.notes else acc.notes1)
    && r.notes2 == (if conflict then d2.notes else acc.notes2)
  }

  /** What a successful step does to each dictionary, one lemma per group of them. */
  lemma StepCheckboxesFacts(acc: ConflictData, files: seq<string>, f: string, findings: seq<string>, d1: AnnotatorData, d2: AnnotatorData)
    requires f in acc.checkboxValues
    requires ConflictStep(acc, files, f, findings, d1, d2).Ok?
    ensures StepCheckboxes(acc, ConflictStep(acc, files, f, findings, d1, d2).value, f, findings, d1, d2)
  {
  }

  lemma StepFlagsFacts(acc: ConflictData, files: seq<string>, f: string, findings: seq<string>, d1: AnnotatorData, d2: AnnotatorData)
    requires f in acc.checkboxValues
    requires ConflictStep(acc, files, f, findings, d1, d2).Ok?
    ensures StepFlags(acc, ConflictStep(acc, files, f, findings, d1, d2).value, files, f, findings, d1, d2)
  {
  }

  lemma StepBoxesFacts(acc: ConflictData, files: seq<string>, f: string, findings: seq<string>, d1: AnnotatorData, d2: AnnotatorData)
    requires f in acc.checkboxValues
    requires ConflictStep(acc, files, f, findings, d1, d2).Ok?
    ensures StepBoxes(acc, ConflictStep(acc, files, f, findings, d1, d2).value, f, findings, d1, d2)
  {
    var r := ConflictStep(acc, files, f, findings, d1, d2).value;
    if FileConflicts(findings, d1.checkboxValues, d2.checkboxValues, f) {
      assert HasFirstBoxes(d1.bboxes, f, findings) && HasFirstBoxes(d2.bboxes, f, findings);
      assert r.boxes1 == acc.boxes1[f := FirstBoxes(d1.bboxes[f], findings).value];
      assert r.boxes2 == acc.boxes2[f := FirstBoxes(d2.bboxes[f], findings).value];
    }
  }

  lemma StepNotesFacts(acc: ConflictData, files: seq<string>, f: string, findings: seq<string>, d1: AnnotatorData, d2: AnnotatorData)
    requires f in acc.checkboxValues
    requires ConflictStep(acc, files, f, findings, d1, d2).Ok?
    ensures StepNotes(acc, ConflictStep(acc, files, f, findings, d1, d2).value, f, findings, d1, d2)
  {
  }

  /** The loop of `load_conflict_resolution_data` over the first `n` listed files. */
  ghost function ConflictFold(files: seq<string>, n: nat, findings: seq<string>, d1: AnnotatorData, d2: AnnotatorData, cv: map<string, map<string, Value>>): (r: Result<ConflictData>)
    requires n <= |files| && Keyed(files, cv)
    ensures r.Ok? ==> r.value.checkboxValues.Keys == cv.Keys
    decreases n
  {
    if n == 0 then Ok(ConflictStart(files, cv))
    else
      match ConflictFold(files, n - 1, findings, d1, d2, cv)
      case Err(x) => Err(x)
      case Ok(acc) => ConflictStep(acc, files, files[n - 1], findings, d1, d2)
  }

  /** A successful loop over `n > 0` files was successful over `n - 1`, and its last step leads from one to the other. */
  lemma FoldLast(files: seq<string>, n: nat, findings: seq<string>, d1: AnnotatorData, d2: AnnotatorData, cv: map<string, map<string, Value>>)
    requires 0 < n <= |files| && Keyed(files, cv)
    requires ConflictFold(files, n, findings, d1, d2, cv).Ok?
    ensures ConflictFold(files, n - 1, findings, d1, d2, cv).Ok?
    ensures files[n - 1] in ConflictFold(files, n - 1, findings, d1, d2, cv).value.checkboxValues
    ensures ConflictFold(files, n, findings, d1, d2, cv) == ConflictStep(ConflictFold(files, n - 1, findings, d1, d2, cv).value, files, files[n - 1], findings, d1, d2)
    ensures files[..n] == files[..n - 1] + [files[n - 1]]
  {
  }

  lemma FoldLastCheckboxes(files: seq<string>, n: nat, findings: seq<string>, d1: AnnotatorData, d2: AnnotatorData, cv: map<string, map<string, Value>>)
    requires 0 < n <= |files| && Keyed(files, cv)
    requires ConflictFold(files, n, findings, d1, d2, cv).Ok?
    ensures ConflictFold(files, n - 1, findings, d1, d2, cv).Ok?
    ensures StepCheckboxes(ConflictFold(files, n - 1, findings, d1, d2, cv).value, ConflictFold(files, n, findings, d1, d2, cv).value,
                           files[n - 1], findings, d1, d2)
    ensures files[..n] == files[..n - 1] + [files[n - 1]]
  {
    FoldLast(files, n, findings, d1, d2, cv);
    StepCheckboxesFacts(ConflictFold(files, n - 1, findings, d1, d2, cv).value, files, files[n - 1], findings, d1, d2);
  }

  lemma FoldLastFlags(files: seq<string>, n: nat, findings: seq<string>, d1: AnnotatorData, d2: AnnotatorData, cv: map<string, map<string, Value>>)
    requires 0 < n <= |files| && Keyed(files, cv)
    requires ConflictFold(files, n, findings, d1, d2, cv).Ok?
    ensures ConflictFold(files, n - 1, findings, d1, d2, cv).Ok?
    ensures StepFlags(ConflictFold(files, n - 1, findings, d1, d2, cv).value, ConflictFold(files, n, findings, d1, d2, cv).value,
                      files, files[n - 1], findings, d1, d2)
    ensures files[..n] == files[..n - 1] + [files[n - 1]]
  {
    FoldLast(files, n, findings, d1, d2, cv);
    StepFlagsFacts(ConflictFold(files, n - 1, findings, d1, d2, cv).value, files, files[n - 1], findings, d1, d2);
  }

  lemma FoldLastBoxes(files: seq<string>, n: nat, findings: seq<string>, d1: AnnotatorData, d2: AnnotatorData, cv: map<string, map<string, Value>>)
    requires 0 < n <= |files| && Keyed(files, cv)
    requires ConflictFold(files, n, findings, d1, d2, cv).Ok?
    ensures ConflictFold(files, n - 1, findings, d1, d2, cv).Ok?
    ensures StepBoxes(ConflictFold(files, n - 1, findings, d1, d2, cv).value, ConflictFold(files, n, findings, d1, d2, cv).value,
                      files[n - 1], findings, d1, d2)
    ensures files[..n] == files[..n - 1] + [files[n - 1]]
  {
    FoldLast(files, n, findings, d1, d2, cv);
    StepBoxesFacts(ConflictFold(files, n - 1, findings, d1, d2, cv).value, files, files[n - 1], findings, d1, d2);
  }

  lemma FoldLastNotes(files: seq<string>, n: nat, findings: seq<string>, d1: AnnotatorData, d2: AnnotatorData, cv: map<string, map<string, Value>>)
    requires 0 < n <= |files| && Keyed(files, cv)
    requires ConflictFold(files, n, findings, d1, d2, cv).Ok?
    ensures ConflictFold(files, n - 1, findings, d1, d2, cv).Ok?
    ensures StepNotes(ConflictFold(files, n - 1, findings, d1, d2, cv).value, ConflictFold(files, n, findings, d1, d2, cv).value,
                      files[n - 1], findings, d1, d2)
  {
    FoldLast(files, n, findings, d1, d2, cv);
    StepNotesFacts(ConflictFold(files, n - 1, findings, d1, d2, cv).value, files, files[n - 1], findings, d1, d2);
  }

  /** One more file of the loop is one more step. */
  lemma FoldNext(files: seq<string>, i: nat, findings: seq<string>, d1: AnnotatorData, d2: AnnotatorData, cv: map<string, map<string, Value>>, acc: ConflictData)
    requires i < |files| && Keyed(files, cv)
    requires ConflictFold(files, i, findings, d1, d2, cv) == Ok(acc)
    ensures files[i] in acc.checkboxValues
    ensures ConflictFold(files, i + 1, findings, d1, d2, cv) == ConflictStep(acc, files, files[i], findings, d1, d2)
  {
  }

  /** Once the loop has raised, later files change nothing. */
  lemma {:induction false} ConflictFoldSticky(files: seq<string>, m: nat, n: nat, findings: seq<string>, d1: AnnotatorData, d2: AnnotatorData, cv: map<string, map<string, Value>>)
    requires m <= n <= |files| && Keyed(files, cv)
    requires ConflictFold(files, m, findings, d1, d2, cv).Err?
    ensures ConflictFold(files, n, findings, d1, d2, cv) == ConflictFold(files, m, findings, d1, d2, cv)
    decreases n
  {
    if m < n {
      ConflictFoldSticky(files, m, n - 1, findings, d1, d2, cv);
    }
  }

  /**
   * What the loop over the files of `prefix` leaves in the index maps: every
   * one of them is annotated by both, the conflict list is the filter of the
   * conflicting files, the slots are their positions in it, and each
   * conflict points back at the first listed position of its file.
   */
  ghost predicate IndexesAfter(c: ConflictData, prefix: seq<string>, files: seq<string>, findings: seq<string>, d1: AnnotatorData, d2: AnnotatorData)
  {
    && (forall g :: g in prefix ==> Annotated(findings, d1.checkboxValues, d2.checkboxValues, g))
    && c.conflictFiles == ConflictFilter(prefix, findings, d1.checkboxValues, d2.checkboxValues)
    && c.fileToConflict == ConflictSlots(prefix, findings, d1.checkboxValues, d2.checkboxValues)
    && |c.conflictToFile| == |c.conflictFiles|
    && forall k :: 0 <= k < |c.conflictFiles| ==> c.conflictFiles[k] in files && c.conflictToFile[k] == IndexOf(files, c.conflictFiles[k])
  }

  /** One more step of the loop keeps `IndexesAfter`, for the prefix extended by the step's file. */
  lemma IndexesStep(acc: ConflictData, c: ConflictData, prefix: seq<string>, g: string, files: seq<string>, findings: seq<string>, d1: AnnotatorData, d2: AnnotatorData)
    requires IndexesAfter(acc, prefix, files, findings, d1, d2)
    requires StepFlags(acc, c, files, g, findings, d1, d2)
    ensures IndexesAfter(c, prefix + [g], files, findings, d1, d2)
  {
    var p := prefix + [g];
    assert p[..|p| - 1] == prefix && p[|p| - 1] == g;
    ConflictSnoc(p, findings, d1.checkboxValues, d2.checkboxValues);
  }

  /** After the loop over `n` files the index maps are as `IndexesAfter` says for the first `n` files. */
  lemma {:induction false} ConflictFoldIndexes(files: seq<string>, n: nat, findings: seq<string>, d1: AnnotatorData, d2: AnnotatorData, cv: map<string, map<string, Value>>)
    requires n <= |files| && Keyed(files, cv)
    requires ConflictFold(files, n, findings, d1, d2, cv).Ok?
    ensures IndexesAfter(ConflictFold(files, n, findings, d1, d2, cv).value, files[..n], files, findings, d1, d2)
    decreases n
  {
    if n > 0 {
      ConflictFoldIndexes(files, n - 1, findings, d1, d2, cv);
      FoldLastFlags(files, n, findings, d1, d2, cv);
      IndexesStep(ConflictFold(files, n - 1, findings, d1, d2, cv).value, ConflictFold(files, n, findings, d1, d2, cv).value,
                  files[..n - 1], files[n - 1], files, findings, d1, d2);
    }
  }

  /** After the loop over `prefix` exactly its files have a conflict flag, and it says whether the file conflicts. */
  ghost predicate FlagsAfter(c: ConflictData, prefix: seq<string>, f: string, findings: seq<string>, d1: AnnotatorData, d2: AnnotatorData)
  {
    && (f in c.hasConflict <==> f in prefix)
    && (f in prefix ==> (Annotated(findings, d1.checkboxValues, d2.checkboxValues, f)
          && (c.hasConflict[f] <==> FileConflicts(findings, d1.checkboxValues, d2.checkboxValues, f))))
  }

  /** One more step of the loop keeps `FlagsAfter`, for the prefix extended by the step's file. */
  lemma FlagsStep(acc: ConflictData, c: ConflictData, prefix: seq<string>, g: string, files: seq<string>, f: string, findings: seq<string>, d1: AnnotatorData, d2: AnnotatorData)
    requires FlagsAfter(acc, prefix, f, findings, d1, d2)
    requires StepFlags(acc, c, files, g, findings, d1, d2)
    ensures FlagsAfter(c, prefix + [g], f, findings, d1, d2)
  {
    if g == f {
      assert (prefix + [g])[|prefix|] == f;
    } else {
      assert f in prefix + [g] <==> f in prefix;
    }
  }

  /** After the loop over `n` files the conflict flags are as `FlagsAfter` says for the first `n` files. */
  lemma {:induction false} ConflictFoldFlags(files: seq<string>, n: nat, findings: seq<string>, d1: AnnotatorData, d2: AnnotatorData, cv: map<string, map<string, Value>>, f: string)
    requires n <= |files| && Keyed(files, cv)
    requires ConflictFold(files, n, findings, d1, d2, cv).Ok?
    ensures FlagsAfter(ConflictFold(files, n, findings, d1, d2, cv).value, files[..n], f, findings, d1, d2)
    decreases n
  {
    if n > 0 {
      ConflictFoldFlags(files, n - 1, findings, d1, d2, cv, f);
      FoldLastFlags(files, n, findings, d1, d2, cv);
      FlagsStep(ConflictFold(files, n - 1, findings, d1, d2, cv).value, ConflictFold(files, n, findings, d1, d2, cv).value,
                files[..n - 1], files[n - 1], files, f, findings, d1, d2);
    }
  }

  /**
   * After the loop over `prefix` each of its files holds its stored checkbox
   * values overwritten by the agreed ones; every other file keeps its values.
   */
  ghost predicate CheckboxesAfter(c: ConflictData, prefix: seq<string>, cv: map<string, map<string, Value>>, f: string, findings: seq<string>, d1: AnnotatorData, d2: AnnotatorData)
  {
    && (f in prefix ==> (Annotated(findings, d1.checkboxValues, d2.checkboxValues, f) && f in cv && f in c.checkboxValues
          && c.checkboxValues[f] == cv[f] + AgreedFor(findings, d1.checkboxValues, d2.checkboxValues, f)))
    && (f !in prefix && f in cv ==> f in c.checkboxValues && c.checkboxValues[f] == cv[f])
  }

  /** One more step of the loop keeps `CheckboxesAfter`, for the prefix extended by the step's file. */
  lemma CheckboxesStep(acc: ConflictData, c: ConflictData, prefix: seq<string>, g: string, cv: map<string, map<string, Value>>, f: string, findings: seq<string>, d1: AnnotatorData, d2: AnnotatorData)
    requires CheckboxesAfter(acc, prefix, cv, f, findings, d1, d2)
    requires StepCheckboxes(acc, c, g, findings, d1, d2)
    requires acc.checkboxValues.Keys == cv.Keys
    ensures CheckboxesAfter(c, prefix + [g], cv, f, findings, d1, d2)
  {
    if g == f {
      assert (prefix + [g])[|prefix|] == f;
      if f in prefix {
        UnionTwice(cv[f], AgreedFor(findings, d1.checkboxValues, d2.checkboxValues, f));
      }
    } else {
      assert f in prefix + [g] <==> f in prefix;
    }
  }

  /** After the loop over `n` files the checkbox values are as `CheckboxesAfter` says for the first `n` files. */
  lemma {:induction false} ConflictFoldCheckboxes(files: seq<string>, n: nat, findings: seq<string>, d1: AnnotatorData, d2: AnnotatorData, cv: map<string, map<string, Value>>, f: string)
    requires n <= |files| && Keyed(files, cv)
    requires ConflictFold(files, n, findings, d1, d2, cv).Ok?
    ensures CheckboxesAfter(ConflictFold(files, n, findings, d1, d2, cv).value, files[..n], cv, f, findings, d1, d2)
    decreases n
  {
    if n > 0 {
      ConflictFoldCheckboxes(files, n - 1, findings, d1, d2, cv, f);
      FoldLastCheckboxes(files, n, findings, d1, d2, cv);
      CheckboxesStep(ConflictFold(files, n - 1, findings, d1, d2, cv).value, ConflictFold(files, n, findings, d1, d2, cv).value,
                     files[..n - 1], files[n - 1], cv, f, findings, d1, d2);
    }
  }

  /** Storing the same values a second time changes nothing. */
  lemma UnionTwice(m: map<string, Value>, a: map<string, Value>)
    ensures (m + a) + a == m + a
  {
  }

  /**
   * What the loop over the files of `prefix` leaves in the annotator boxes
   * of `f`: the first box of each finding of both annotators when it is a
   * conflicting listed file, none otherwise.
   */
  ghost predicate BoxesShown(c: ConflictData, prefix: seq<string>, f: string, findings: seq<string>, d1: AnnotatorData, d2: AnnotatorData)
  {
    && (f in prefix ==> Annotated(findings, d1.checkboxValues, d2.checkboxValues, f))
    && var conflict := f in prefix && FileConflicts(findings, d1.checkboxValues, d2.checkboxValues, f);
    && ShowsFirst(c.boxes1, d1.bboxes, f, findings, conflict)
    && ShowsFirst(c.boxes2, d2.bboxes, f, findings, conflict)
  }

  /** One more step of the loop keeps `BoxesShown`, for the prefix extended by the step's file. */
  lemma BoxesShownStep(acc: ConflictData, c: ConflictData, prefix: seq<string>, g: string, f: string, findings: seq<string>, d1: AnnotatorData, d2: AnnotatorData)
    requires BoxesShown(acc, prefix, f, findings, d1, d2)
    requires StepBoxes(acc, c, g, findings, d1, d2)
    ensures BoxesShown(c, prefix + [g], f, findings, d1, d2)
  {
    if g == f {
      assert (prefix + [g])[|prefix|] == f;
    } else {
      assert f in prefix + [g] <==> f in prefix;
    }
  }

  /** In the list of annotator boxes after the loop over `n` files, each listed file shows what `BoxesShown` says. */
  lemma {:induction false} ConflictFoldBoxes(files: seq<string>, n: nat, findings: seq<string>, d1: AnnotatorData, d2: AnnotatorData, cv: map<string, map<string, Value>>, f: string)
    requires n <= |files| && Keyed(files, cv) && f in files
    requires ConflictFold(files, n, findings, d1, d2, cv).Ok?
    ensures BoxesShown(ConflictFold(files, n, findings, d1, d2, cv).value, files[..n], f, findings, d1, d2)
    decreases n
  {
    if n > 0 {
      ConflictFoldBoxes(files, n - 1, findings, d1, d2, cv, f);
      FoldLastBoxes(files, n, findings, d1, d2, cv);
      BoxesShownStep(ConflictFold(files, n - 1, findings, d1, d2, cv).value, ConflictFold(files, n, findings, d1, d2, cv).value,
                     files[..n - 1], files[n - 1], f, findings, d1, d2);
    }
  }

  /** The annotators' notes are shown once some file conflicts; until then every listed file has empty notes. */
  lemma {:induction false} ConflictFoldNotes(files: seq<string>, n: nat, findings: seq<string>, d1: AnnotatorData, d2: AnnotatorData, cv: map<string, map<string, Value>>)
    requires n <= |files| && Keyed(files, cv)
    requires ConflictFold(files, n, findings, d1, d2, cv).Ok?
    ensures var c := ConflictFold(files, n, findings, d1, d2, cv).value;
      && (c.conflictFiles == [] ==> c.notes1 == (map g | g in files :: "") && c.notes2 == (map g | g in files :: ""))
      && (c.conflictFiles != [] ==> c.notes1 == d1.notes && c.notes2 == d2.notes)
    decreases n
  {
    if n > 0 {
      ConflictFoldNotes(files, n - 1, findings, d1, d2, cv);
      FoldLastNotes(files, n, findings, d1, d2, cv);
    }
  }

  /** A finished loop leaves the two index maps consistent with the file list and the conflict list. */
  lemma ConflictFoldMaps(files: seq<string>, findings: seq<string>, d1: AnnotatorData, d2: AnnotatorData, cv: map<string, map<string, Value>>)
    requires Keyed(files, cv)
    requires ConflictFold(files, |files|, findings, d1, d2, cv).Ok?
    ensures var c := ConflictFold(files, |files|, findings, d1, d2, cv).value;
      ConflictMaps(files, c.conflictFiles, c.fileToConflict, c.conflictToFile)
  {
    var v1, v2 := d1.checkboxValues, d2.checkboxValues;
    ConflictFoldIndexes(files, |files|, findings, d1, d2, cv);
    assert files[..|files|] == files;
    var c := ConflictFold(files, |files|, findings, d1, d2, cv).value;
    assert c.fileToConflict == ConflictSlots(files, findings, v1, v2);
    assert c.conflictFiles == ConflictFilter(files, findings, v1, v2);
    forall k | 0 <= k < |files| && c.fileToConflict[k].Some?
      ensures 0 <= c.fileToConflict[k].value < |c.conflictFiles|
    {
      ConflictSlotsPoint(files, findings, v1, v2, k);
    }
  }

  /** A finished loop flags every listed file and keeps the checkbox dictionary keyed. */
  lemma ConflictFoldFlagged(files: seq<string>, findings: seq<string>, d1: AnnotatorData, d2: AnnotatorData, cv: map<string, map<string, Value>>)
    requires Keyed(files, cv)
    requires ConflictFold(files, |files|, findings, d1, d2, cv).Ok?
    ensures var c := ConflictFold(files, |files|, findings, d1, d2, cv).value;
      Keyed(files, c.hasConflict) && Keyed(files, c.checkboxValues)
  {
    assert files[..|files|] == files;
    forall k | 0 <= k < |files|
      ensures files[k] in ConflictFold(files, |files|, findings, d1, d2, cv).value.hasConflict
    {
      ConflictFoldFlags(files, |files|, findings, d1, d2, cv, files[k]);
    }
  }

  /** The loop of `load_conflict_resolution_data`, on the dictionaries as values. */
  method MergeConflicts(files: seq<string>, findings: seq<string>, d1: AnnotatorData, d2: AnnotatorData, cv: map<string, map<string, Value>>)
    returns (r: Result<ConflictData>)
    requires Keyed(files, cv)
    ensures r == ConflictFold(files, |files|, findings, d1, d2, cv)
  {
    var acc := ConflictStart(files, cv);
    for i := 0 to |files|
      invariant ConflictFold(files, i, findings, d1, d2, cv) == Ok(acc)
    {
      var step := ConflictLoopStep(files, i, findings, d1, d2, cv, acc);
      if step.Err? {
        return step;
      }
      acc := step.value;
    }
    return Ok(acc);
  }

  /** One file of the loop of `load_conflict_resolution_data`. */
  method ConflictLoopStep(files: seq<string>, i: nat, findings: seq<string>, d1: AnnotatorData, d2: AnnotatorData,
                          cv: map<string, map<string, Value>>, acc: ConflictData)
    returns (step: Result<ConflictData>)
    requires i < |files| && Keyed(files, cv)
    requires ConflictFold(files, i, findings, d1, d2, cv) == Ok(acc)
    ensures step.Ok? ==> step == ConflictFold(files, i + 1, findings, d1, d2, cv)
    ensures step.Err? ==> step == ConflictFold(files, |files|, findings, d1, d2, cv)
  {
    var f := files[i];
    FoldNext(files, i, findings, d1, d2, cv, acc);
    var m := MergeCheckboxes(findings, d1.checkboxValues, d2.checkboxValues, f, acc.checkboxValues[f]);
    step := StepConflict(acc, files, f, findings, d1, d2, m);
    if step.Err? {
      ConflictFoldSticky(files, i + 1, |files|, findings, d1, d2, cv);
    }
  }

  /** The loop, with what a finished loop guarantees about its index maps, flags and checkbox keys. */
  method ResolveData(files: seq<string>, findings: seq<string>, d1: AnnotatorData, d2: AnnotatorData, cv: map<string, map<string, Value>>)
    returns (r: Result<ConflictData>)
    requires Keyed(files, cv)
    ensures r == ConflictFold(files, |files|, findings, d1, d2, cv)
    ensures r.Ok? ==> ConflictMaps(files, r.value.conflictFiles, r.value.fileToConflict, r.value.conflictToFile)
    ensures r.Ok? ==> Keyed(files, r.value.hasConflict) && Keyed(files, r.value.checkboxValues)
  {
    r := MergeConflicts(files, findings, d1, d2, cv);
    if r.Ok? {
      ConflictFoldMaps(files, findings, d1, d2, cv);
      ConflictFoldFlagged(files, findings, d1, d2, cv);
    }
  }

  /** The rest of one file of the loop, given the outcome of its checkbox merge. */
  method StepConflict(acc: ConflictData, files: seq<string>, f: string, findings: seq<string>, d1: AnnotatorData, d2: AnnotatorData,
                      m: Result<(map<string, Value>, bool)>)
    returns (r: Result<ConflictData>)
    requires f in acc.checkboxValues && f in files
    requires m.Ok? <==> Annotated(findings, d1.checkboxValues, d2.checkboxValues, f)
    requires m.Err? ==> m.error == KeyError
    requires m.Ok? ==> m.value.0 == acc.checkboxValues[f] + AgreedFor(findings, d1.checkboxValues, d2.checkboxValues, f)
    requires m.Ok? ==> (m.value.1 <==> FileConflicts(findings, d1.checkboxValues, d2.checkboxValues, f))
    ensures r == ConflictStep(acc, files, f, findings, d1, d2)
  {
    if m.Err? {
      return Err(m.error);
    }
    var (merged, conflict) := m.value;
    var cv := acc.checkboxValues[f := merged];
    if !conflict {
      return Ok(acc.(checkboxValues := cv, hasConflict := acc.hasConflict[f := false], fileToConflict := acc.fileToConflict + [None],
                     boxes1 := acc.boxes1[f := map[]], boxes2 := acc.boxes2[f := map[]]));
    }
    if f !in d1.bboxes {
      return Err(KeyError);
    }
    var b1 := FirstBoxes(d1.bboxes[f], findings);
    if b1.Err? {
      return Err(b1.error);
    }
    if f !in d2.bboxes {
      return Err(KeyError);
    }
    var b2 := FirstBoxes(d2.bboxes[f], findings);
    if b2.Err? {
      return Err(b2.error);
    }
    return Ok(ConflictData(cv, acc.hasConflict[f := true], acc.conflictFiles + [f], acc.fileToConflict + [Some(|acc.conflictFiles|)],
                           acc.conflictToFile + [IndexOf(files, f)], acc.boxes1[f := b1.value], acc.boxes2[f := b2.value], d1.notes, d2.notes));
  }

  // ---------------------------------------------------------------------------
  // The window's session state
  // ---------------------------------------------------------------------------

  /**
   * `set_checkbox_value` outside conflict mode: the first configured
   * checkbox whose stored value is missing (`KeyError`) or is no tri-state
   * number (`convert_to_checkstate` raises).
   */
  function CheckboxDisplay(findings: seq<string>, stored: map<string, Value>): (r: Option<Error>)
    ensures r.None? <==> forall c :: c in findings ==> c in stored && ConvertToCheckstate(stored[c]).Ok?
    decreases |findings|
  {
    if findings == [] then None
    else if findings[0] !in stored then Some(KeyError)
    else if ConvertToCheckstate(stored[findings[0]]).Err? then Some(ConvertToCheckstate(stored[findings[0]]).error)
    else CheckboxDisplay(findings[1..], stored)
  }

  /**
   * An annotator's raw value as `set_checkbox_value` reads it in conflict
   * mode, `.get(f, 0).get(c, 0)`: 0 for a checkbox the annotator did not
   * store, and `AttributeError` for a file the annotator left out, since `0`
   * has no `get`.
   */
  function AnnotatorValue(values: map<string, map<string, Value>>, f: string, c: string): (r: Result<Value>)
    ensures r.Err? <==> f !in values
    ensures r.Err? ==> r.error == AttributeError
    ensures r.Ok? && c !in values[f] ==> r.value == Int(0)
  {
    if f !in values then Err(AttributeError)
    else if c in values[f] then Ok(values[f][c])
    else Ok(Int(0))
  }

  /**
   * Checkbox `c` of file `f` refreshes in conflict mode: both annotators'
   * values convert to a state, and where the two states differ the window's
   * own stored value is present and converts as well.
   */
  ghost predicate ConflictShown(v1: map<string, map<string, Value>>, v2: map<string, map<string, Value>>,
                                f: string, stored: map<string, Value>, c: string)
  {
    && AnnotatorValue(v1, f, c).Ok? && AnnotatorValue(v2, f, c).Ok?
    && ConvertToCheckstate(AnnotatorValue(v1, f, c).value).Ok?
    && ConvertToCheckstate(AnnotatorValue(v2, f, c).value).Ok?
    && (ConvertToCheckstate(AnnotatorValue(v1, f, c).value) != ConvertToCheckstate(AnnotatorValue(v2, f, c).value) ==>
          c in stored && ConvertToCheckstate(stored[c]).Ok?)
  }

  /**
   * `set_checkbox_value` in conflict mode, checkbox by checkbox: annotator
   * 1's value and annotator 2's are converted for the two read-only rows,
   * and only where their states differ is the window's own value converted.
   * The first failing checkbox raises.
   */
  function ConflictCheckboxDisplay(findings: seq<string>, v1: map<string, map<string, Value>>, v2: map<string, map<string, Value>>,
                                   f: string, stored: map<string, Value>): (r: Option<Error>)
    ensures r.None? <==> forall c :: c in findings ==> ConflictShown(v1, v2, f, stored, c)
    ensures r.Some? ==> r.value in {AttributeError, ValueError, TypeError, KeyError}
    decreases |findings|
  {
    if findings == [] then None
    else
      var c := findings[0];
      var a, b := AnnotatorValue(v1, f, c), AnnotatorValue(v2, f, c);
      if a.Err? then assert !ConflictShown(v1, v2, f, stored, c); Some(a.error)
      else if b.Err? then Some(b.error)
      else
        var s1, s2 := ConvertToCheckstate(a.value), ConvertToCheckstate(b.value);
        if s1.Err? then Some(s1.error)
        else if s2.Err? then Some(s2.error)
        else if s1 == s2 then ConflictCheckboxDisplay(findings[1..], v1, v2, f, stored)
        else if c !in stored then Some(KeyError)
        else if ConvertToCheckstate(stored[c]).Err? then Some(ConvertToCheckstate(stored[c]).error)
        else ConflictCheckboxDisplay(findings[1..], v1, v2, f, stored)
  }

  /** Where both annotators stored the same convertible state for every checkbox, the window's own values are never read. */
  lemma AgreedNeedsNoStored(findings: seq<string>, v1: map<string, map<string, Value>>, v2: map<string, map<string, Value>>,
                            f: string, stored: map<string, Value>)
    requires f in v1 && f in v2
    requires forall c :: c in findings ==> c in v1[f] && c in v2[f] && v1[f][c] == v2[f][c] && ConvertToCheckstate(v1[f][c]).Ok?
    ensures ConflictCheckboxDisplay(findings, v1, v2, f, stored) == None
    ensures ConflictCheckboxDisplay(findings, v1, v2, f, map[]) == None
  {
  }

  /** A file annotator 1 marked as failed (`"FAIL"`) against annotator 2's 0 raises `ValueError` before any note is read. */
  lemma FailedAnnotationRaises(f: string, c: string)
    ensures ConflictCheckboxDisplay([c], map[f := map[c := Fail]], map[f := map[c := Int(0)]], f, map[c := Int(0)]) == Some(ValueError)
  {
    CheckStateRoundTrip(Unchecked);
  }

  /**
   * The stored value of a radio group can be shown: unset (`None`), or the
   * id of one of the group's buttons (`bool` counts as `int`).
   */
  ghost predicate RadioShown(v: Value, size: nat)
  {
    v.Null? || (AsInt(v).Some? && 0 <= AsInt(v).value < size)
  }

  /**
   * `set_checked_radiobuttons` over the groups in toolbar order: a stored id
   * without a button makes `button(id)` return `None`, whose `setChecked`
   * raises `AttributeError`; a string id is refused with `TypeError`.
   */
  function RadioDisplay(groups: seq<string>, sizes: map<string, nat>, stored: map<string, Value>): (r: Option<Error>)
    requires forall g :: g in groups ==> g in sizes
    ensures r.None? <==> forall g :: g in groups && g in stored ==> RadioShown(stored[g], sizes[g])
    ensures r.Some? ==> r.value == TypeError || r.value == AttributeError
    decreases |groups|
  {
    if groups == [] then None
    else
      var g := groups[0];
      if g !in stored || stored[g].Null? then RadioDisplay(groups[1..], sizes, stored)
      else match AsInt(stored[g])
        case None => Some(TypeError)
        case Some(id) => if 0 <= id < sizes[g] then RadioDisplay(groups[1..], sizes, stored) else Some(AttributeError)
  }

  /** Checking one of a group's buttons (`on_radiobutton_changed`) keeps the groups displayable. */
  lemma CheckedRadioShown(groups: seq<string>, sizes: map<string, nat>, stored: map<string, Value>, g: string, id: int)
    requires forall h :: h in groups ==> h in sizes
    requires RadioDisplay(groups, sizes, stored).None?
    requires g in sizes && 0 <= id < sizes[g]
    ensures RadioDisplay(groups, sizes, stored[g := Int(id)]).None?
  {
    var s := stored[g := Int(id)];
    forall h | h in groups && h in s
      ensures RadioShown(s[h], sizes[h])
    {
      if h != g {
        assert h in stored;
      }
    }
  }

  /** A loaded id 7 in a three-button group raises `AttributeError`. */
  lemma UnknownRadioIdRaises(g: string)
    ensures RadioDisplay([g], map[g := 3], map[g := Int(7)]) == Some(AttributeError)
  {
  }

  /**
   * The target of `change_image` in conflict mode, as a position among the
   * conflicting files: from the current file's slot, or the given index for
   * `go_to`. A file without slot makes `None - 1` or `None + 1` raise.
   */
  function ConflictTarget(cf: seq<string>, viewed: map<string, ViewedFlag>, slot: Option<int>, direction: string, goTo: int): (r: Result<int>)
    requires Keyed(cf, viewed) && IsDirection(direction)
    requires slot.Some? ==> 0 <= slot.value < |cf|
    requires direction == "go_to" ==> 0 <= goTo < |cf|
    ensures r.Ok? ==> 0 <= r.value < |cf|
    ensures r.Err? <==> slot.None? && direction != "go_to"
    ensures r.Err? ==> r.error == TypeError
    ensures direction == "go_to" ==> r == Ok(goTo)
    ensures slot.Some? ==> r == Ok(NavTarget(cf, viewed, slot.value, direction, goTo))
  {
    if direction == "go_to" then Ok(goTo)
    else match slot
      case None => Err(TypeError)
      case Some(c) => Ok(NavTarget(cf, viewed, c, direction, goTo))
  }

  /** `d.get(f, {})` on a per-file box dictionary. */
  function BoxesFor(d: map<string, BoxMap<Rect>>, f: string): BoxMap<Rect>
  {
    if f in d then d[f] else map[]
  }

  /** The boxes put on screen for file `f`: its own, then in conflict mode both annotators'. */
  function ShownBoxes(f: string, own: map<string, BoxMap<Rect>>, conflict: bool,
                      a1: map<string, BoxMap<Rect>>, a2: map<string, BoxMap<Rect>>): BoxMap<Rect>
  {
    var shown := AddBoxes(map[], BoxesFor(own, f));
    if conflict then AddBoxes(AddBoxes(shown, BoxesFor(a1, f)), BoxesFor(a2, f)) else shown
  }

  /**
   * `view` is what the image view shows for file `f`: for every finding its
   * own boxes, then in conflict mode annotator 1's and annotator 2's, and no
   * finding without a box.
   */
  ghost predicate Displays(view: BoxMap<Rect>, f: string, own: map<string, BoxMap<Rect>>, conflict: bool,
                           a1: map<string, BoxMap<Rect>>, a2: map<string, BoxMap<Rect>>)
  {
    && (forall g :: g in view ==> |view[g]| > 0)
    && forall g :: (BoxesOf(view, g)
         == if conflict then BoxesOf(BoxesFor(own, f), g) + BoxesOf(BoxesFor(a1, f), g) + BoxesOf(BoxesFor(a2, f), g)
            else BoxesOf(BoxesFor(own, f), g))
  }

  /** `ShownBoxes` is such a view; outside conflict mode it is the file's non-empty lists. */
  lemma ShownBoxesDisplays(f: string, own: map<string, BoxMap<Rect>>, conflict: bool,
                           a1: map<string, BoxMap<Rect>>, a2: map<string, BoxMap<Rect>>)
    ensures Displays(ShownBoxes(f, own, conflict, a1, a2), f, own, conflict, a1, a2)
    ensures !conflict ==> ShownBoxes(f, own, conflict, a1, a2) == NonEmpty(BoxesFor(own, f))
  {
    var mine := BoxesFor(own, f);
    AddToEmpty(mine);
    if conflict {
      AddBoxesTwice(AddBoxes(map[], mine), BoxesFor(a1, f), BoxesFor(a2, f));
    }
  }

  /** There is only one such view. */
  lemma DisplaysUnique(v1: BoxMap<Rect>, v2: BoxMap<Rect>, f: string, own: map<string, BoxMap<Rect>>, conflict: bool,
                       a1: map<string, BoxMap<Rect>>, a2: map<string, BoxMap<Rect>>)
    requires Displays(v1, f, own, conflict, a1, a2) && Displays(v2, f, own, conflict, a1, a2)
    ensures v1 == v2
  {
    forall g
      ensures g in v1 <==> g in v2
    {
      assert BoxesOf(v1, g) == BoxesOf(v2, g);
    }
    forall g | g in v1
      ensures v1[g] == v2[g]
    {
      assert BoxesOf(v1, g) == BoxesOf(v2, g);
    }
  }

  /**
   * The view after `prep_first_image` adds the boxes of file `f` to `view`:
   * per finding the view's boxes, then in conflict mode annotator 1's and
   * annotator 2's, then the file's own.
   */
  function PreparedBoxes(view: BoxMap<Rect>, f: string, own: map<string, BoxMap<Rect>>, conflict: bool,
                         a1: map<string, BoxMap<Rect>>, a2: map<string, BoxMap<Rect>>): (r: BoxMap<Rect>)
    ensures forall g :: (BoxesOf(r, g) == BoxesOf(view, g) + PreparedAdded(f, own, conflict, a1, a2, g))
  {
    if conflict then
      var both := AddBoxes(AddBoxes(view, BoxesFor(a1, f)), BoxesFor(a2, f));
      AddBoxesAppend(view, BoxesFor(a1, f), BoxesFor(a2, f));
      AddBoxes(both, BoxesFor(own, f))
    else
      AddBoxes(view, BoxesFor(own, f))
  }

  /** The boxes `prep_first_image` adds for finding `g`, in the order it adds them. */
  function PreparedAdded(f: string, own: map<string, BoxMap<Rect>>, conflict: bool,
                         a1: map<string, BoxMap<Rect>>, a2: map<string, BoxMap<Rect>>, g: string): seq<Rect>
  {
    (if conflict then BoxesOf(BoxesFor(a1, f), g) + BoxesOf(BoxesFor(a2, f), g) else []) + BoxesOf(BoxesFor(own, f), g)
  }

  /** `prep_first_image` leaves no empty list in a view that had none. */
  lemma PreparedNonEmpty(view: BoxMap<Rect>, f: string, own: map<string, BoxMap<Rect>>, conflict: bool,
                         a1: map<string, BoxMap<Rect>>, a2: map<string, BoxMap<Rect>>)
    requires forall g :: g in view ==> |view[g]| > 0
    ensures var r := PreparedBoxes(view, f, own, conflict, a1, a2); forall g :: g in r ==> |r[g]| > 0
  {
    if conflict {
      AddBoxesKeepsNonEmpty(view, BoxesFor(a1, f));
      AddBoxesKeepsNonEmpty(AddBoxes(view, BoxesFor(a1, f)), BoxesFor(a2, f));
      AddBoxesKeepsNonEmpty(AddBoxes(AddBoxes(view, BoxesFor(a1, f)), BoxesFor(a2, f)), BoxesFor(own, f));
    } else {
      AddBoxesKeepsNonEmpty(view, BoxesFor(own, f));
    }
  }

  /** For one finding the boxes of the first file's view and of `change_image`'s view are the same, in conflict mode up to order. */
  lemma PreparedShownAt(f: string, own: map<string, BoxMap<Rect>>, conflict: bool,
                        a1: map<string, BoxMap<Rect>>, a2: map<string, BoxMap<Rect>>, g: string)
    ensures var p, s := BoxesOf(PreparedBoxes(map[], f, own, conflict, a1, a2), g), BoxesOf(ShownBoxes(f, own, conflict, a1, a2), g);
      && multiset(p) == multiset(s) && |p| == |s| && (!conflict ==> p == s)
  {
    var p, s := BoxesOf(PreparedBoxes(map[], f, own, conflict, a1, a2), g), BoxesOf(ShownBoxes(f, own, conflict, a1, a2), g);
    var o, x, y := BoxesOf(BoxesFor(own, f), g), BoxesOf(BoxesFor(a1, f), g), BoxesOf(BoxesFor(a2, f), g);
    ShownBoxesDisplays(f, own, conflict, a1, a2);
    assert s == if conflict then o + x + y else o;
    assert p == [] + PreparedAdded(f, own, conflict, a1, a2, g);
    if conflict {
      assert p == (x + y) + o;
    } else {
      assert p == o;
    }
  }

  /**
   * On the empty view of a new window the first file shows what
   * `change_image` would show for it: the same view outside conflict mode,
   * and in it the same boxes for every finding, in another order (the
   * annotators' before the file's own).
   */
  lemma {:induction false} PreparedLikeShown(f: string, own: map<string, BoxMap<Rect>>, conflict: bool,
                                             a1: map<string, BoxMap<Rect>>, a2: map<string, BoxMap<Rect>>)
    ensures !conflict ==> PreparedBoxes(map[], f, own, conflict, a1, a2) == ShownBoxes(f, own, conflict, a1, a2)
    ensures forall g :: g in PreparedBoxes(map[], f, own, conflict, a1, a2) <==> g in ShownBoxes(f, own, conflict, a1, a2)
    ensures forall g :: multiset(BoxesOf(PreparedBoxes(map[], f, own, conflict, a1, a2), g))
                        == multiset(BoxesOf(ShownBoxes(f, own, conflict, a1, a2), g))
  {
    var p := PreparedBoxes(map[], f, own, conflict, a1, a2);
    var s := ShownBoxes(f, own, conflict, a1, a2);
    ShownBoxesDisplays(f, own, conflict, a1, a2);
    PreparedNonEmpty(map[], f, own, conflict, a1, a2);
    forall g
      ensures multiset(BoxesOf(p, g)) == multiset(BoxesOf(s, g))
      ensures g in p <==> g in s
    {
      PreparedShownAt(f, own, conflict, a1, a2, g);
    }
    if !conflict {
      forall g | g in p
        ensures p[g] == s[g]
      {
        PreparedShownAt(f, own, conflict, a1, a2, g);
      }
    }
  }

  /**
   * Outside conflict mode the boxes a session load stored for the first
   * file (only non-empty lists) are on screen afterwards, so storing the
   * view back for that file, as `change_image` and the saves do, keeps them.
   */
  lemma {:induction false} PreparedStoredBack(f: string, own: map<string, BoxMap<Rect>>,
                                              a1: map<string, BoxMap<Rect>>, a2: map<string, BoxMap<Rect>>)
    requires f in own && forall g :: g in own[f] ==> |own[f][g]| > 0
    ensures PreparedBoxes(map[], f, own, false, a1, a2) == own[f]
  {
    var p := PreparedBoxes(map[], f, own, false, a1, a2);
    forall g
      ensures g in p <==> g in own[f]
    {
      assert BoxesOf(p, g) == [] + [] + BoxesOf(own[f], g);
    }
    forall g | g in p
      ensures p[g] == own[f][g]
    {
      assert BoxesOf(p, g) == [] + [] + BoxesOf(own[f], g);
    }
  }

  /** The files of a folder listing that the session opens: the image names, sorted, none lost or added. */
  lemma FolderFiles(listing: seq<string>)
    ensures var files := SortStrings(ImageNames(listing));
      && multiset(files) == multiset(ImageNames(listing))
      && (forall f :: f in files <==> f in listing && IsImageName(f))
      && forall i, j :: 0 <= i < j < |files| ==> Le(files[i], files[j])
  {
    var files := SortStrings(ImageNames(listing));
    assert forall f :: f in files <==> f in multiset(ImageNames(listing));
  }

  /** Every listed file has an entry in each of the six per-file dictionaries. */
  ghost predicate Covered(files: seq<string>, viewed: map<string, ViewedFlag>, rotation: map<string, int>,
                          notes: map<string, string>, checkboxes: map<string, map<string, Value>>,
                          radio: map<string, map<string, Value>>, bboxes: map<string, BoxMap<Rect>>)
  {
    && Keyed(files, viewed) && Keyed(files, rotation) && Keyed(files, notes)
    && Keyed(files, checkboxes) && Keyed(files, radio) && Keyed(files, bboxes)
  }

  /** The radio groups are distinct, sized, and the highlighted one is among them. */
  ghost predicate RadioGroupsSized(groups: seq<string>, sizes: map<string, nat>, highlighted: Option<string>)
  {
    && Distinct(groups)
    && (forall g :: g in groups ==> g in sizes)
    && (highlighted.Some? ==> highlighted.value in groups)
  }

  /** The two index maps of conflict mode agree with the file list and the conflicting files. */
  ghost predicate ConflictMaps(files: seq<string>, cf: seq<string>, f2c: seq<Option<int>>, c2f: seq<int>)
  {
    && |f2c| == |files|
    && (forall k :: 0 <= k < |files| && f2c[k].Some? ==> 0 <= f2c[k].value < |cf|)
    && |c2f| == |cf|
    && (forall k :: 0 <= k < |cf| ==> 0 <= c2f[k] < |files| && files[c2f[k]] == cf[k])
  }

  class MainApp {
    var fileList: seq<string>
    var currentIndex: int
    var viewedValues: map<string, ViewedFlag>
    var rotation: map<string, int>
    var notes: map<string, string>
    var checkboxValues: map<string, map<string, Value>>
    var radiobuttonValues: map<string, map<string, Value>>
    var bboxes: map<string, BoxMap<Rect>>
    /** The boxes on screen: `image_view.rect_items`. */
    var rectItems: BoxMap<Rect>
    var findings: seq<string>
    /** The keys of `radiobuttons_boxes`, in insertion order. */
    var radioGroups: seq<string>
    /** The number of buttons of each group. */
    var radioSizes: map<string, nat>
    var highlightedRadiogroup: Option<string>
    var conflictResolution: bool
    var hasConflict: map<string, bool>
    var conflictFiles: seq<string>
    var fileIdxToConflictIdx: seq<Option<int>>
    var conflictIdxToFileIdx: seq<int>
    var bboxesAnnotator1: map<string, BoxMap<Rect>>
    var bboxesAnnotator2: map<string, BoxMap<Rect>>
    var notesAnnotator1: map<string, string>
    var notesAnnotator2: map<string, string>
    var checkboxesAnnotator1: map<string, map<string, Value>>
    var checkboxesAnnotator2: map<string, map<string, Value>>
    var backupFiles: seq<string>
    var maxBackups: int
    var loaded: bool

    /** Every listed file has an entry in each per-file dictionary; one obligation, like `Valid`. */
    ghost predicate Keyed6()
      reads this`fileList, this`viewedValues, this`rotation, this`notes, this`checkboxValues, this`radiobuttonValues, this`bboxes
    {
      Covered(fileList, viewedValues, rotation, notes, checkboxValues, radiobuttonValues, bboxes) == true
    }

    /** The radio groups are distinct, sized, and the highlighted one is among them; one obligation, like `Valid`. */
    ghost predicate RadioState()
      reads this`radioGroups, this`radioSizes, this`highlightedRadiogroup
    {
      RadioGroupsSized(radioGroups, radioSizes, highlightedRadiogroup) == true
    }

    /** The cursor is on a listed file and the tables cover the list; one obligation, like `Valid`. */
    ghost predicate Coherent()
      reads this`currentIndex, this`fileList, this`viewedValues, this`rotation, this`notes, this`checkboxValues, this`radiobuttonValues, this`bboxes,
            this`radioGroups, this`radioSizes, this`highlightedRadiogroup
    {
      (0 <= currentIndex < |fileList| && Keyed6() && RadioState()) == true
    }

    /** In conflict mode the two index maps agree with the file list and the conflicting files. */
    ghost predicate ConflictIndexed()
      reads this`fileList, this`conflictFiles, this`fileIdxToConflictIdx, this`conflictIdxToFileIdx
    {
      ConflictMaps(fileList, conflictFiles, fileIdxToConflictIdx, conflictIdxToFileIdx)
    }

    /**
     * The class invariant: a coherent session, and the index maps once
     * conflict mode is on. The body is compared with `true` so that every
     * use checks it as one obligation instead of one per conjunct.
     */
    ghost predicate Valid()
      reads this`currentIndex, this`fileList, this`viewedValues, this`rotation, this`notes, this`checkboxValues, this`radiobuttonValues, this`bboxes,
            this`radioGroups, this`radioSizes, this`highlightedRadiogroup,
            this`conflictResolution, this`conflictFiles, this`fileIdxToConflictIdx, this`conflictIdxToFileIdx
    {
      (Coherent() && (conflictResolution ==> ConflictIndexed())) == true
    }

    /** The state `__init__` sets up before reading a folder or a saved session. */
    constructor (loadProgress: bool)
      ensures fileList == [] && currentIndex == 0 && loaded == loadProgress
      ensures viewedValues == map[] && rotation == map[] && notes == map[]
      ensures checkboxValues == map[] && radiobuttonValues == map[] && bboxes == map[] && rectItems == map[]
      ensures findings == [] && radioGroups == [] && radioSizes == map[] && highlightedRadiogroup == None
      ensures !conflictResolution && hasConflict == map[] && conflictFiles == []
      ensures fileIdxToConflictIdx == [] && conflictIdxToFileIdx == []
      ensures bboxesAnnotator1 == map[] && bboxesAnnotator2 == map[] && notesAnnotator1 == map[] && notesAnnotator2 == map[]
      ensures checkboxesAnnotator1 == map[] && checkboxesAnnotator2 == map[]
      ensures backupFiles == [] && maxBackups == 10
    {
      fileList := [];
      currentIndex := 0;
      viewedValues, rotation, notes := map[], map[], map[];
      checkboxValues, radiobuttonValues, bboxes, rectItems := map[], map[], map[], map[];
      findings, radioGroups, radioSizes, highlightedRadiogroup := [], [], map[], None;
      conflictResolution, hasConflict, conflictFiles := false, map[], [];
      fileIdxToConflictIdx, conflictIdxToFileIdx := [], [];
      bboxesAnnotator1, bboxesAnnotator2, notesAnnotator1, notesAnnotator2 := map[], map[], map[], map[];
      checkboxesAnnotator1, checkboxesAnnotator2 := map[], map[];
      backupFiles, maxBackups := [], 10;
      loaded := loadProgress;
    }

    /** The radio groups of the configuration as the toolbar creates them, the first one highlighted. */
    method SetRadioGroups(config: AppConfig)
      modifies this`radioGroups, this`radioSizes, this`highlightedRadiogroup
      ensures radioGroups == Dedup(config.Titles())
      ensures Distinct(radioGroups) && forall t :: t in radioGroups <==> t in config.Titles()
      ensures radioSizes == GroupSizes(config.radiobuttons)
      ensures highlightedRadiogroup == if radioGroups == [] then None else Some(radioGroups[0])
      ensures RadioState()
    {
      radioGroups := Dedup(config.Titles());
      radioSizes := GroupSizes(config.radiobuttons);
      forall t | t in radioGroups
        ensures t in radioSizes
      {
        var k :| 0 <= k < |config.Titles()| && config.Titles()[k] == t;
        assert config.radiobuttons[k].title == t;
      }
      highlightedRadiogroup := if radioGroups == [] then None else Some(radioGroups[0]);
    }

    /**
     * `__init__` without a saved session: the image files of the folder in
     * sorted order, each unviewed, unrotated, without notes or boxes, every
     * checkbox 0 and every radio group unset.
     */
    method InitFromFolder(listing: seq<string>, config: AppConfig)
      modifies this`fileList, this`currentIndex, this`findings, this`conflictResolution, this`maxBackups
      modifies this`viewedValues, this`rotation, this`notes, this`checkboxValues, this`bboxes, this`radiobuttonValues
      modifies this`radioGroups, this`radioSizes, this`highlightedRadiogroup
      ensures fileList == SortStrings(ImageNames(listing)) && currentIndex == 0
      ensures Configured(config)
      ensures |fileList| > 0 ==> Coherent()
    {
      fileList := SortStrings(ImageNames(listing));
      currentIndex := 0;
      Configure(config);
    }

    /** The settings of the configuration and the per-file dictionaries of a fresh session over `fileList`. */
    ghost predicate Configured(config: AppConfig)
      reads this
    {
      FreshTables(config) && Settings(config)
    }

    /** The settings read from the configuration, and the radio groups of its toolbar. */
    ghost predicate Settings(config: AppConfig)
      reads this`findings, this`conflictResolution, this`maxBackups, this`radioGroups, this`radioSizes, this`highlightedRadiogroup
    {
      && findings == config.checkboxes && conflictResolution == config.ConflictMode()
      && maxBackups == config.MaxBackups()
      && radioGroups == Dedup(config.Titles()) && radioSizes == GroupSizes(config.radiobuttons)
      && highlightedRadiogroup == (if radioGroups == [] then None else Some(radioGroups[0]))
    }

    /** Reads the configuration and sets up the default dictionaries. */
    method Configure(config: AppConfig)
      modifies this`findings, this`conflictResolution, this`maxBackups
      modifies this`viewedValues, this`rotation, this`notes, this`checkboxValues, this`bboxes, this`radiobuttonValues
      modifies this`radioGroups, this`radioSizes, this`highlightedRadiogroup
      ensures Configured(config) && Keyed6() && RadioState()
    {
      ReadSettings(config);
      InitTables(config);
    }

    /** The settings of the configuration and its radio groups. */
    method ReadSettings(config: AppConfig)
      modifies this`findings, this`conflictResolution, this`maxBackups, this`radioGroups, this`radioSizes, this`highlightedRadiogroup
      ensures Settings(config) && RadioState()
    {
      findings := config.checkboxes;
      conflictResolution := config.ConflictMode();
      maxBackups := config.MaxBackups();
      SetRadioGroups(config);
    }

    /** The default per-file dictionaries of a fresh session over `fileList`. */
    method InitTables(config: AppConfig)
      modifies this`viewedValues, this`rotation, this`notes, this`checkboxValues, this`bboxes, this`radiobuttonValues
      ensures FreshTables(config)
      ensures Keyed6()
    {
      var t := FreshSession(fileList, config);
      viewedValues, rotation, notes, checkboxValues, bboxes, radiobuttonValues := t.viewed, t.rotation, t.notes, t.checkboxes, t.bboxes, t.radio;
    }

    /** The per-file dictionaries of a fresh session: every file unviewed, unrotated, without notes or boxes, every checkbox 0 and every radio group unset. */
    ghost predicate FreshTables(config: AppConfig)
      reads this`fileList, this`viewedValues, this`rotation, this`notes, this`checkboxValues, this`radiobuttonValues, this`bboxes
    {
      Tables(viewedValues, rotation, notes, checkboxValues, bboxes, radiobuttonValues) == FreshSession(fileList, config)
    }

    /** The record of file `f` as the per-file dictionaries hold it. */
    function StateOf(f: string): FileState
      reads this
      requires f in viewedValues && f in rotation && f in notes && f in checkboxValues && f in bboxes && f in radiobuttonValues
    {
      FileState(viewedValues[f], rotation[f], notes[f], checkboxValues[f], bboxes[f], radiobuttonValues[f])
    }

    /** The file-list position `change_image` moves to, given the flags after the outgoing file is marked. */
    function Target(direction: string, goTo: int, viewed: map<string, ViewedFlag>): (r: Result<int>)
      reads this
      requires Valid() && IsDirection(direction) && Keyed(fileList, viewed)
      requires direction == "go_to" ==> 0 <= goTo < (if conflictResolution then |conflictFiles| else |fileList|)
      ensures r.Ok? ==> 0 <= r.value < |fileList|
      ensures !conflictResolution ==> r == Ok(NavTarget(fileList, viewed, currentIndex, direction, goTo))
      ensures conflictResolution ==> (r.Err? <==> fileIdxToConflictIdx[currentIndex].None? && direction != "go_to")
      ensures conflictResolution && r.Ok? ==> fileList[r.value] in conflictFiles
    {
      if !conflictResolution then Ok(NavTarget(fileList, viewed, currentIndex, direction, goTo))
      else
        assert Keyed(conflictFiles, viewed) by {
          forall k | 0 <= k < |conflictFiles|
            ensures conflictFiles[k] in viewed
          {
            assert fileList[conflictIdxToFileIdx[k]] == conflictFiles[k];
          }
        }
        match ConflictTarget(conflictFiles, viewed, fileIdxToConflictIdx[currentIndex], direction, goTo)
        case Err(e) => Err(e)
        case Ok(c) => Ok(conflictIdxToFileIdx[c])
    }

    /** The file-list position `change_image` moves to once the outgoing file is marked. */
    function Landing(direction: string, goTo: int, prevFailed: bool): (r: Result<int>)
      reads this
      requires Valid() && IsDirection(direction)
      requires direction == "go_to" ==> 0 <= goTo < (if conflictResolution then |conflictFiles| else |fileList|)
      ensures r.Ok? ==> 0 <= r.value < |fileList|
    {
      assert Keyed(fileList, viewedValues);
      Target(direction, goTo, viewedValues[fileList[currentIndex] := LeaveMark(prevFailed)])
    }

    /**
     * The widget refresh of `change_image` on file `f`: `set_checkbox_value`,
     * in conflict mode over both annotators' values, then
     * `set_checked_radiobuttons`; the first error raised.
     */
    function RefreshError(f: string): (r: Option<Error>)
      reads this
      requires Valid() && f in fileList
    {
      assert Keyed(fileList, checkboxValues) && Keyed(fileList, radiobuttonValues);
      var boxes := if conflictResolution then ConflictCheckboxDisplay(findings, checkboxesAnnotator1, checkboxesAnnotator2, f, checkboxValues[f])
                   else CheckboxDisplay(findings, checkboxValues[f]);
      if boxes.Some? then boxes else RadioDisplay(radioGroups, radioSizes, radiobuttonValues[f])
    }

    /**
     * Where `change_image` goes, or the error it stops with: an unknown
     * direction, a failed bound search, a checkbox or radio-button refresh
     * that raises, or, in conflict resolution, a target without notes from
     * both annotators (the notes dictionaries only hold files that had
     * notes, and `change_image` reads both).
     */
    function Decide(direction: string, goTo: int, prevFailed: bool): (r: Result<int>)
      reads this
      requires Valid()
      requires direction == "go_to" ==> 0 <= goTo < (if conflictResolution then |conflictFiles| else |fileList|)
      ensures r.Ok? ==> 0 <= r.value < |fileList| && IsDirection(direction)
      ensures !IsDirection(direction) ==> r == Err(ValueError)
      ensures r.Ok? ==> RadioDisplay(radioGroups, radioSizes, radiobuttonValues[fileList[r.value]]).None?
      ensures !conflictResolution && r.Ok? ==> CheckboxDisplay(findings, checkboxValues[fileList[r.value]]).None?
      ensures conflictResolution && r.Ok? ==>
        && ConflictCheckboxDisplay(findings, checkboxesAnnotator1, checkboxesAnnotator2, fileList[r.value], checkboxValues[fileList[r.value]]).None?
        && fileList[r.value] in conflictFiles && fileList[r.value] in notesAnnotator1 && fileList[r.value] in notesAnnotator2
      ensures !conflictResolution && IsDirection(direction) ==>
        (r.Err? <==> RefreshError(fileList[Landing(direction, goTo, prevFailed).value]).Some?)
      ensures conflictResolution && IsDirection(direction) && (fileIdxToConflictIdx[currentIndex].Some? || direction == "go_to") ==>
        var f := fileList[Landing(direction, goTo, prevFailed).value];
        (r.Err? <==> RefreshError(f).Some? || f !in notesAnnotator1 || f !in notesAnnotator2)
      ensures (conflictResolution && r.Err? && r.error != ValueError && fileIdxToConflictIdx[currentIndex].Some? &&
               RefreshError(fileList[Landing(direction, goTo, prevFailed).value]).None?) ==> r.error == KeyError
    {
      if !IsDirection(direction) then Err(ValueError)
      else
        var t := Landing(direction, goTo, prevFailed);
        if t.Err? then t
        else
          var shown := RefreshError(fileList[t.value]);
          if shown.Some? then Err(shown.value)
          else if conflictResolution && (fileList[t.value] !in notesAnnotator1 || fileList[t.value] !in notesAnnotator2) then Err(KeyError)
          else t
    }

    /**
     * The effect of `change_image`: on success the outgoing file is marked
     * and its boxes stored, the cursor is on the target and the scene shows
     * its boxes; on an error nothing changes.
     */
    twostate predicate ChangeImageEffect(direction: string, goTo: int, prevFailed: bool, new r: Result<int>)
      reads this
      requires old(Valid())
      requires direction == "go_to" ==> 0 <= goTo < old(if conflictResolution then |conflictFiles| else |fileList|)
    {
      var cur := old(fileList[currentIndex]);
      && r == old(Decide(direction, goTo, prevFailed))
      && (r.Ok? ==>
            && viewedValues == old(viewedValues)[cur := LeaveMark(prevFailed)]
            && bboxes == old(bboxes)[cur := old(rectItems)]
            && currentIndex == r.value
            && Displays(rectItems, old(fileList[r.value]), bboxes, conflictResolution, bboxesAnnotator1, bboxesAnnotator2)
            && highlightedRadiogroup == old(if radioGroups == [] then highlightedRadiogroup else Some(radioGroups[0])))
      && (r.Err? ==> viewedValues == old(viewedValues) && bboxes == old(bboxes) && currentIndex == old(currentIndex)
                     && rectItems == old(rectItems) && highlightedRadiogroup == old(highlightedRadiogroup))
    }

    /**
     * `change_image`. On an error the application aborts, so the model
     * returns it without changing anything.
     */
    method ChangeImage(direction: string, goTo: int, prevFailed: bool) returns (r: Result<int>)
      requires Valid()
      requires direction == "go_to" ==> 0 <= goTo < (if conflictResolution then |conflictFiles| else |fileList|)
      modifies this`viewedValues, this`bboxes, this`rectItems, this`currentIndex, this`highlightedRadiogroup
      ensures Valid()
      ensures ChangeImageEffect(direction, goTo, prevFailed, r)
    {
      r := Decide(direction, goTo, prevFailed);
      if r.Ok? {
        var nf := fileList[r.value];
        StoreAndMove(LeaveMark(prevFailed), r.value);
        ShowBoxes(nf);
      }
    }

    /** Marks the outgoing file, stores its boxes, moves the cursor and highlights the first radio group. */
    method StoreAndMove(mark: ViewedFlag, target: int)
      requires Valid() && 0 <= target < |fileList|
      modifies this`viewedValues, this`bboxes, this`currentIndex, this`highlightedRadiogroup
      ensures Valid()
      ensures viewedValues == old(viewedValues)[old(fileList[currentIndex]) := mark]
      ensures bboxes == old(bboxes)[old(fileList[currentIndex]) := rectItems]
      ensures currentIndex == target
      ensures highlightedRadiogroup == if radioGroups == [] then old(highlightedRadiogroup) else Some(radioGroups[0])
    {
      StoreLeaving(mark);
      MoveTo(target);
    }

    /** Marks the outgoing file and stores its boxes. */
    method StoreLeaving(mark: ViewedFlag)
      requires Valid()
      modifies this`viewedValues, this`bboxes
      ensures Valid()
      ensures viewedValues == old(viewedValues)[fileList[currentIndex] := mark]
      ensures bboxes == old(bboxes)[fileList[currentIndex] := rectItems]
    {
      var cur := fileList[currentIndex];
      KeyedStore(fileList, viewedValues, cur, mark);
      KeyedStore(fileList, bboxes, cur, rectItems);
      viewedValues, bboxes := viewedValues[cur := mark], bboxes[cur := rectItems];
    }

    /** Moves the cursor and highlights the first radio group. */
    method MoveTo(target: int)
      requires Valid() && 0 <= target < |fileList|
      modifies this`currentIndex, this`highlightedRadiogroup
      ensures Valid()
      ensures currentIndex == target
      ensures highlightedRadiogroup == if radioGroups == [] then old(highlightedRadiogroup) else Some(radioGroups[0])
    {
      currentIndex := target;
      if radioGroups != [] {
        highlightedRadiogroup := Some(radioGroups[0]);
      }
    }

    /** Puts the boxes of file `f` on screen. */
    method ShowBoxes(f: string)
      modifies this`rectItems
      ensures Displays(rectItems, f, bboxes, conflictResolution, bboxesAnnotator1, bboxesAnnotator2)
    {
      rectItems := ShownBoxes(f, bboxes, conflictResolution, bboxesAnnotator1, bboxesAnnotator2);
      ShownBoxesDisplays(f, bboxes, conflictResolution, bboxesAnnotator1, bboxesAnnotator2);
    }

    /**
     * `prep_first_image`, the last step of `__init__` that touches the
     * boxes: the current file's boxes are added to the view, in conflict
     * mode after annotator 1's and annotator 2's. The cursor is on a listed
     * file, since the window title has already read `file_list[current_index]`.
     */
    method PrepFirstImage()
      requires 0 <= currentIndex < |fileList|
      modifies this`rectItems
      ensures rectItems == PreparedBoxes(old(rectItems), fileList[currentIndex], bboxes, conflictResolution, bboxesAnnotator1, bboxesAnnotator2)
      ensures forall g :: (BoxesOf(rectItems, g) == BoxesOf(old(rectItems), g)
                             + PreparedAdded(fileList[currentIndex], bboxes, conflictResolution, bboxesAnnotator1, bboxesAnnotator2, g))
      ensures old(rectItems) == map[] && !conflictResolution
              ==> Displays(rectItems, fileList[currentIndex], bboxes, conflictResolution, bboxesAnnotator1, bboxesAnnotator2)
    {
      var f := fileList[currentIndex];
      if rectItems == map[] && !conflictResolution {
        PreparedLikeShown(f, bboxes, false, bboxesAnnotator1, bboxesAnnotator2);
        ShownBoxesDisplays(f, bboxes, false, bboxesAnnotator1, bboxesAnnotator2);
      }
      rectItems := PreparedBoxes(rectItems, f, bboxes, conflictResolution, bboxesAnnotator1, bboxesAnnotator2);
    }

    /** `previous_image`. */
    method PreviousImage() returns (r: Result<int>)
      requires Valid()
      modifies this`viewedValues, this`bboxes, this`rectItems, this`currentIndex, this`highlightedRadiogroup
      ensures Valid()
      ensures ChangeImageEffect("previous", 0, false, r)
    {
      r := ChangeImage("previous", 0, false);
    }

    /**
     * `next_image(prev_failed)`: the flag is passed in the position of
     * `go_to_index`, so the outgoing file is always marked `True`.
     */
    method NextImage(prevFailed: bool) returns (r: Result<int>)
      requires Valid()
      modifies this`viewedValues, this`bboxes, this`rectItems, this`currentIndex, this`highlightedRadiogroup
      ensures Valid()
      ensures ChangeImageEffect("next", if prevFailed then 1 else 0, false, r)
    {
      r := ChangeImage("next", if prevFailed then 1 else 0, false);
    }

    /** `next_unrated_image`. */
    method NextUnratedImage() returns (r: Result<int>)
      requires Valid()
      modifies this`viewedValues, this`bboxes, this`rectItems, this`currentIndex, this`highlightedRadiogroup
      ensures Valid()
      ensures ChangeImageEffect("next_unrated", 0, false, r)
    {
      r := ChangeImage("next_unrated", 0, false);
    }

    /** `load_file` after a read error and "Try Next Image": the current file is marked `"FAILED"`. */
    method MarkLoadFailed()
      requires Valid()
      modifies this`viewedValues
      ensures Valid()
      ensures viewedValues == old(viewedValues)[fileList[currentIndex] := Failed]
    {
      viewedValues := viewedValues[fileList[currentIndex] := Failed];
    }

    /** `rotate_image_right`. */
    method RotateImageRight()
      requires Valid()
      modifies this`rotation
      ensures Valid()
      ensures var f := fileList[currentIndex]; rotation == old(rotation)[f := RotateRight(old(rotation)[f])]
    {
      var f := fileList[currentIndex];
      rotation := rotation[f := RotateRight(rotation[f])];
    }

    /** `rotate_image_left`. */
    method RotateImageLeft()
      requires Valid()
      modifies this`rotation
      ensures Valid()
      ensures var f := fileList[currentIndex]; rotation == old(rotation)[f := RotateLeft(old(rotation)[f])]
    {
      var f := fileList[currentIndex];
      rotation := rotation[f := RotateLeft(rotation[f])];
    }

    /** `on_text_changed`: the current file's notes become the normalised text. */
    method OnTextChanged(text: string)
      requires Valid()
      modifies this`notes
      ensures Valid()
      ensures notes == old(notes)[fileList[currentIndex] := NormaliseNotes(text)]
    {
      notes := notes[fileList[currentIndex] := NormaliseNotes(text)];
    }

    /** `on_radiobutton_changed`: a checked button stores its id under the group's name. */
    method OnRadiobuttonChanged(name: string, id: int, checked: bool)
      requires Valid()
      modifies this`radiobuttonValues
      ensures Valid()
      ensures var f := fileList[currentIndex];
        radiobuttonValues == if checked then old(radiobuttonValues)[f := old(radiobuttonValues)[f][name := Int(id)]]
                             else old(radiobuttonValues)
    {
      if checked {
        var f := fileList[currentIndex];
        radiobuttonValues := radiobuttonValues[f := radiobuttonValues[f][name := Int(id)]];
      }
    }

    /** `highlight_next_radiogroup`: `list.index` raises `ValueError` for an unknown group. */
    method HighlightNextRadiogroup(name: string) returns (r: Option<Error>)
      requires Valid()
      modifies this`highlightedRadiogroup
      ensures Valid()
      ensures r.Some? <==> name !in radioGroups
      ensures r.Some? ==> r.value == ValueError && highlightedRadiogroup == old(highlightedRadiogroup)
      ensures r.None? ==> highlightedRadiogroup == Some(NextGroup(radioGroups, name).value)
    {
      var next := NextGroup(radioGroups, name);
      if next.Err? {
        return Some(next.error);
      }
      highlightedRadiogroup := Some(next.value);
      return None;
    }

    /**
     * `keyPressEvent`: a digit key 1–9 checks that button of the highlighted
     * group if it has one and moves the highlight on (with no group
     * highlighted, the lookup raises `KeyError`); Enter and Return go to the
     * next image; any other key does nothing.
     */
    method KeyPress(key: int) returns (r: Option<Error>, ghost nav: Result<int>)
      requires Valid()
      modifies this`radiobuttonValues, this`highlightedRadiogroup, this`viewedValues, this`bboxes, this`rectItems, this`currentIndex
      ensures Valid()
      ensures Key1 <= key <= Key9 && old(highlightedRadiogroup).None? ==> r == Some(KeyError) && unchanged(this)
      ensures Key1 <= key <= Key9 && old(highlightedRadiogroup).Some? ==>
        var g := old(highlightedRadiogroup).value; var v := key - Key1; var f := fileList[currentIndex];
        && r.None?
        && (v < old(radioSizes[g]) ==>
              && radiobuttonValues == old(radiobuttonValues)[f := old(radiobuttonValues)[f][g := Int(v)]]
              && highlightedRadiogroup == Some(NextGroup(radioGroups, g).value))
        && (v >= old(radioSizes[g]) ==> unchanged(this))
        && unchanged(this`viewedValues, this`bboxes, this`rectItems, this`currentIndex)
      ensures (key == KeyEnter || key == KeyReturn) ==>
        && ChangeImageEffect("next", 0, false, nav)
        && r == (if nav.Err? then Some(nav.error) else None)
        && unchanged(this`radiobuttonValues)
      ensures !(Key1 <= key <= Key9) && key != KeyEnter && key != KeyReturn ==> r.None? && unchanged(this)
    {
      nav := Ok(currentIndex);
      if Key1 <= key <= Key9 {
        if highlightedRadiogroup.None? {
          return Some(KeyError), nav;
        }
        var g := highlightedRadiogroup.value;
        var v := key - Key1;
        if v < radioSizes[g] {
          OnRadiobuttonChanged(g, v, true);
          var e := HighlightNextRadiogroup(g);
        }
        return None, nav;
      } else if key == KeyEnter || key == KeyReturn {
        var next := NextImage(false);
        nav := next;
        return if next.Err? then Some(next.error) else None, nav;
      }
      return None, nav;
    }

    /** The six per-file dictionaries as one value. */
    function Snapshot(): Tables
      reads this`viewedValues, this`rotation, this`notes, this`checkboxValues, this`bboxes, this`radiobuttonValues
    {
      Tables(viewedValues, rotation, notes, checkboxValues, bboxes, radiobuttonValues)
    }

    /**
     * `create_output_dictionary`: the boxes on screen are stored for the
     * current file, then one record is written per listed file.
     */
    method CreateOutputDictionary() returns (out: seq<Entry>)
      requires Valid()
      modifies this`bboxes
      ensures Valid()
      ensures bboxes == old(bboxes)[fileList[currentIndex] := rectItems]
      ensures forall k :: 0 <= k < |fileList| ==> HasFile(Snapshot(), fileList[k])
      ensures out == Outputs(fileList, Snapshot(), findings)
    {
      var cur := fileList[currentIndex];
      KeyedStore(fileList, bboxes, cur, rectItems);
      bboxes := bboxes[cur := rectItems];
      out := WriteEntries(fileList, Snapshot(), findings);
    }

    /**
     * `load_from_json` followed by the toolbar set-up of `__init__`: the file
     * list is the entries' names, the settings come from the stored
     * configuration, and the entries are stored one after the other over the
     * flags, rotations and notes already held and fresh checkbox, box and
     * radio dictionaries. An entry that raises aborts the application, so
     * the state after an error is left open.
     */
    method LoadFromJson(entries: seq<Entry>, config: AppConfig) returns (r: Option<Error>)
      modifies this`fileList, this`findings, this`conflictResolution, this`maxBackups
      modifies this`viewedValues, this`rotation, this`notes, this`checkboxValues, this`bboxes, this`radiobuttonValues
      modifies this`radioGroups, this`radioSizes, this`highlightedRadiogroup
      ensures fileList == Names(entries) && findings == config.checkboxes
      ensures conflictResolution == config.ConflictMode() && maxBackups == config.MaxBackups()
      ensures var loaded := LoadTables(Tables(old(viewedValues), old(rotation), old(notes), map[], map[], map[]), entries, config.checkboxes);
        && (r.Some? <==> loaded.Err?)
        && (r.Some? ==> r.value == KeyError)
        && (r.None? ==> Snapshot() == loaded.value && Keyed6())
      ensures r.None? ==> radioGroups == Dedup(config.Titles()) && radioSizes == GroupSizes(config.radiobuttons) && RadioState()
    {
      findings, conflictResolution, maxBackups := config.checkboxes, config.ConflictMode(), config.MaxBackups();
      r := LoadEntriesFrom(entries);
      if r.None? {
        SetRadioGroups(config);
      }
    }

    /** The loop of `load_from_json` over the entries, with the configured findings. */
    method LoadEntriesFrom(entries: seq<Entry>) returns (r: Option<Error>)
      modifies this`fileList, this`viewedValues, this`rotation, this`notes, this`checkboxValues, this`bboxes, this`radiobuttonValues
      ensures fileList == Names(entries)
      ensures var loaded := LoadTables(Tables(old(viewedValues), old(rotation), old(notes), map[], map[], map[]), entries, findings);
        && (r.Some? <==> loaded.Err?)
        && (r.Some? ==> r.value == KeyError)
        && (r.None? ==> Snapshot() == loaded.value && Keyed6())
    {
      var start := Tables(viewedValues, rotation, notes, map[], map[], map[]);
      fileList := Names(entries);
      var loaded := LoadEntries(start, entries, findings);
      if loaded.Err? {
        return Some(loaded.error);
      }
      LoadedCovered(start, entries, findings);
      StoreTables(loaded.value);
      return None;
    }

    /** Replaces the six per-file dictionaries. */
    method StoreTables(u: Tables)
      requires Covered(fileList, u.viewed, u.rotation, u.notes, u.checkboxes, u.radio, u.bboxes)
      modifies this`viewedValues, this`rotation, this`notes, this`checkboxValues, this`bboxes, this`radiobuttonValues
      ensures Snapshot() == u && Keyed6()
    {
      viewedValues, rotation, notes := u.viewed, u.rotation, u.notes;
      checkboxValues, bboxes, radiobuttonValues := u.checkboxes, u.bboxes, u.radio;
    }

    /**
     * `backup_file`: with `existing` the names in the backup folder, the
     * oldest is removed once the limit is reached, the session is written
     * under a new name and that name is remembered. Returns the remaining
     * older names and the records written; with no backups and a limit
     * of 0 or less, `pop(0)` raises.
     */
    method BackupFile(existing: seq<string>, stamp: string) returns (r: Result<seq<string>>, written: seq<Entry>)
      requires Valid()
      modifies this`bboxes, this`backupFiles
      ensures Valid()
      ensures r == Evict(existing, maxBackups)
      ensures r.Err? ==> bboxes == old(bboxes) && backupFiles == old(backupFiles) && written == []
      ensures r.Ok? ==> backupFiles == old(backupFiles) + [BackupName(stamp)]
      ensures r.Ok? ==> bboxes == old(bboxes)[fileList[currentIndex] := rectItems]
      ensures r.Ok? ==> (forall k :: 0 <= k < |fileList| ==> HasFile(Snapshot(), fileList[k])) && written == Outputs(fileList, Snapshot(), findings)
    {
      r := Evict(existing, maxBackups);
      if r.Err? {
        return r, [];
      }
      written := CreateOutputDictionary();
      backupFiles := backupFiles + [BackupName(stamp)];
    }

    /**
     * `restore_from_saved_state`: the cursor goes to the saved file if it is
     * listed, else to the saved index if it is in range, else to the first
     * file. The saved index is the non-negative one `save_settings` wrote.
     */
    method RestoreFromSavedState(saved: Option<(string, int)>)
      requires Valid()
      requires saved.Some? ==> saved.value.1 >= 0
      modifies this`currentIndex
      ensures Valid()
      ensures currentIndex == RestoreIndex(fileList, saved, old(currentIndex))
      ensures saved.Some? && saved.value.0 in fileList ==> fileList[currentIndex] == saved.value.0
    {
      currentIndex := RestoreIndex(fileList, saved, currentIndex);
    }

    /** The conflict-mode dictionaries as one value. */
    function ConflictState(): ConflictData
      reads this`checkboxValues, this`hasConflict, this`conflictFiles, this`fileIdxToConflictIdx, this`conflictIdxToFileIdx
      reads this`bboxesAnnotator1, this`bboxesAnnotator2, this`notesAnnotator1, this`notesAnnotator2
    {
      ConflictData(checkboxValues, hasConflict, conflictFiles, fileIdxToConflictIdx, conflictIdxToFileIdx,
                   bboxesAnnotator1, bboxesAnnotator2, notesAnnotator1, notesAnnotator2)
    }

    /**
     * `load_conflict_resolution_data`: outside conflict mode nothing happens.
     * In conflict mode both annotators' session files are read, the loop
     * over the file list builds the conflict dictionaries, and on a first
     * file without conflict the cursor moves to the first unviewed
     * conflicting file. An error aborts the application, so the state after
     * it is left open.
     */
    method LoadConflictResolutionData(entries1: seq<Entry>, entries2: seq<Entry>) returns (r: Option<Error>)
      requires Coherent()
      modifies this`checkboxesAnnotator1, this`checkboxesAnnotator2
      modifies this`checkboxValues, this`hasConflict, this`conflictFiles, this`fileIdxToConflictIdx, this`conflictIdxToFileIdx
      modifies this`bboxesAnnotator1, this`bboxesAnnotator2, this`notesAnnotator1, this`notesAnnotator2, this`currentIndex
      ensures !conflictResolution ==> r.None? && unchanged(this)
      ensures conflictResolution ==>
        checkboxesAnnotator1 == LoadAnnotator(entries1).checkboxValues && checkboxesAnnotator2 == LoadAnnotator(entries2).checkboxValues
      ensures conflictResolution ==>
        var res := ConflictFold(fileList, |fileList|, findings, LoadAnnotator(entries1), LoadAnnotator(entries2), old(checkboxValues));
        && (r.Some? <==> res.Err?)
        && (r.Some? ==> r.value == res.error)
        && (r.None? ==> ConflictState() == res.value && Keyed(fileList, hasConflict)
                        && currentIndex == ConflictCursor(fileList, viewedValues, hasConflict, old(currentIndex)))
      ensures r.None? ==> Valid()
    {
      if conflictResolution {
        KeepAnnotatorCheckboxes(LoadAnnotator(entries1), LoadAnnotator(entries2));
        r := ResolveConflicts(entries1, entries2);
      } else {
        r := None;
      }
    }

    /** The conflict-mode branch of `load_conflict_resolution_data`. */
    method ResolveConflicts(entries1: seq<Entry>, entries2: seq<Entry>) returns (r: Option<Error>)
      requires Coherent() && conflictResolution
      modifies this`checkboxValues, this`hasConflict, this`conflictFiles, this`fileIdxToConflictIdx, this`conflictIdxToFileIdx
      modifies this`bboxesAnnotator1, this`bboxesAnnotator2, this`notesAnnotator1, this`notesAnnotator2, this`currentIndex
      ensures var res := ConflictFold(fileList, |fileList|, findings, LoadAnnotator(entries1), LoadAnnotator(entries2), old(checkboxValues));
        && (r.Some? <==> res.Err?)
        && (r.Some? ==> r.value == res.error)
        && (r.None? ==> ConflictState() == res.value && Keyed(fileList, hasConflict) && Valid()
                        && currentIndex == ConflictCursor(fileList, viewedValues, hasConflict, old(currentIndex)))
    {
      var d1 := LoadMultipleAnnotatorData(entries1);
      var d2 := LoadMultipleAnnotatorData(entries2);
      assert Keyed(fileList, checkboxValues);
      var res := ResolveData(fileList, findings, d1, d2, checkboxValues);
      if res.Err? {
        return Some(res.error);
      }
      StoreConflicts(res.value);
      return None;
    }

    /** `conflict_resolution_data`: kept for the checkbox refresh of `change_image`. */
    method KeepAnnotatorCheckboxes(d1: AnnotatorData, d2: AnnotatorData)
      modifies this`checkboxesAnnotator1, this`checkboxesAnnotator2
      ensures checkboxesAnnotator1 == d1.checkboxValues && checkboxesAnnotator2 == d2.checkboxValues
    {
      checkboxesAnnotator1, checkboxesAnnotator2 := d1.checkboxValues, d2.checkboxValues;
    }

    /** The cursor rule at the end of `load_conflict_resolution_data`. */
    method MoveToOpenConflict()
      requires Valid() && Keyed(fileList, hasConflict)
      modifies this`currentIndex
      ensures Valid()
      ensures currentIndex == ConflictCursor(fileList, viewedValues, hasConflict, old(currentIndex))
    {
      currentIndex := ConflictCursor(fileList, viewedValues, hasConflict, currentIndex);
    }

    /** Replaces the conflict-mode dictionaries and applies the cursor rule. */
    method StoreConflicts(c: ConflictData)
      requires Coherent() && conflictResolution
      requires ConflictMaps(fileList, c.conflictFiles, c.fileToConflict, c.conflictToFile)
      requires Keyed(fileList, c.checkboxValues) && Keyed(fileList, c.hasConflict)
      modifies this`checkboxValues, this`hasConflict, this`conflictFiles, this`fileIdxToConflictIdx, this`conflictIdxToFileIdx
      modifies this`bboxesAnnotator1, this`bboxesAnnotator2, this`notesAnnotator1, this`notesAnnotator2, this`currentIndex
      ensures ConflictState() == c && Valid() && Keyed(fileList, hasConflict)
      ensures currentIndex == ConflictCursor(fileList, viewedValues, hasConflict, old(currentIndex))
    {
      StoreConflictData(c);
      MoveToOpenConflict();
    }

    /** Replaces the conflict-mode dictionaries. */
    method StoreConflictData(c: ConflictData)
      requires Coherent() && conflictResolution
      requires ConflictMaps(fileList, c.conflictFiles, c.fileToConflict, c.conflictToFile)
      requires Keyed(fileList, c.checkboxValues) && Keyed(fileList, c.hasConflict)
      modifies this`checkboxValues, this`hasConflict, this`conflictFiles, this`fileIdxToConflictIdx, this`conflictIdxToFileIdx
      modifies this`bboxesAnnotator1, this`bboxesAnnotator2, this`notesAnnotator1, this`notesAnnotator2
      ensures ConflictState() == c && Valid() && Keyed(fileList, hasConflict)
    {
      StoreIndexes(c);
      StoreCheckboxes(c.checkboxValues);
    }

    /** Replaces the conflict flags, the index maps and the annotators' boxes and notes. */
    method StoreIndexes(c: ConflictData)
      requires ConflictMaps(fileList, c.conflictFiles, c.fileToConflict, c.conflictToFile)
      modifies this`hasConflict, this`conflictFiles, this`fileIdxToConflictIdx, this`conflictIdxToFileIdx
      modifies this`bboxesAnnotator1, this`bboxesAnnotator2, this`notesAnnotator1, this`notesAnnotator2
      ensures ConflictState() == c.(checkboxValues := checkboxValues) && ConflictIndexed()
    {
      hasConflict, conflictFiles := c.hasConflict, c.conflictFiles;
      fileIdxToConflictIdx, conflictIdxToFileIdx := c.fileToConflict, c.conflictToFile;
      bboxesAnnotator1, bboxesAnnotator2, notesAnnotator1, notesAnnotator2 := c.boxes1, c.boxes2, c.notes1, c.notes2;
    }

    /** Replaces the checkbox dictionary by one that still covers the file list. */
    method StoreCheckboxes(cv: map<string, map<string, Value>>)
      requires Coherent() && Keyed(fileList, cv)
      modifies this`checkboxValues
      ensures checkboxValues == cv && Coherent()
    {
      checkboxValues := cv;
    }
  }
}
