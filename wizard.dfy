/**
 * The configuration wizard: which page follows which, where the radio
 * buttons of a group go in their grid, the list of radio-button groups the
 * radio page keeps, and how `accept` turns the pages into the saved
 * configuration and its file name.
 */
module Wizard {
  import opened Wrappers
  import opened Config
  import Strings

  // ---------------------------------------------------------------------------
  // Page routing
  // ---------------------------------------------------------------------------

  /** The pages in the order they are added: options, checkbox labels, radio groups, backups, save. */
  const OptionsPage: int := 0
  const CheckboxPage: int := 1
  const RadioPage: int := 2
  const BackupPage: int := 3
  const SavePage: int := 4

  /**
   * `nextId`: from the options page to the first chosen input page (back to
   * itself when nothing is chosen), from the checkbox page to the radio page
   * only when radio buttons are chosen, and from the other pages on in page
   * order, `-1` after the last one.
   */
  function NextId(current: int, cboxes: bool, radio: bool): (next: int)
    ensures current == OptionsPage ==> (next == OptionsPage <==> !cboxes && !radio)
    ensures current == OptionsPage ==> (next == CheckboxPage <==> cboxes)
    ensures current == OptionsPage ==> (next == RadioPage <==> !cboxes && radio)
    ensures current == CheckboxPage ==> next == (if radio then RadioPage else BackupPage)
    ensures next == CheckboxPage ==> cboxes
    ensures next == RadioPage ==> radio
    ensures current != OptionsPage ==> next > current || next == -1
  {
    if current == OptionsPage then
      if cboxes && !radio then CheckboxPage
      else if !cboxes && radio then RadioPage
      else if cboxes && radio then CheckboxPage
      else OptionsPage
    else if current == CheckboxPage then
      if radio then RadioPage else BackupPage
    else if RadioPage <= current < SavePage then current + 1
    else -1
  }

  /** Going on from the options page while nothing is chosen never leaves it. */
  lemma {:induction false} NothingChosenStays(steps: nat)
    ensures Route(OptionsPage, false, false, steps) == OptionsPage
  {
    if steps > 0 {
      NothingChosenStays(steps - 1);
    }
  }

  /** The page reached after pressing Next `steps` times. */
  function Route(start: int, cboxes: bool, radio: bool, steps: nat): int
    decreases steps
  {
    if steps == 0 || start == -1 then start
    else Route(NextId(start, cboxes, radio), cboxes, radio, steps - 1)
  }

  /** With both input kinds chosen every page is visited in order and the wizard then ends. */
  lemma BothChosenVisitsAll()
    ensures Route(OptionsPage, true, true, 1) == CheckboxPage
    ensures Route(OptionsPage, true, true, 2) == RadioPage
    ensures Route(OptionsPage, true, true, 3) == BackupPage
    ensures Route(OptionsPage, true, true, 4) == SavePage
    ensures Route(OptionsPage, true, true, 5) == -1
  {
  }

  /** A route that starts on the options page never shows a page for an input kind that was not chosen. */
  lemma {:induction false} RouteSkipsUnchosen(steps: nat, cboxes: bool, radio: bool)
    ensures Route(OptionsPage, cboxes, radio, steps) == CheckboxPage ==> cboxes
    ensures Route(OptionsPage, cboxes, radio, steps) == RadioPage ==> radio
  {
    if steps > 0 {
      RouteFrom(NextId(OptionsPage, cboxes, radio), cboxes, radio, steps - 1);
    }
  }

  lemma {:induction false} RouteFrom(start: int, cboxes: bool, radio: bool, steps: nat)
    requires start == CheckboxPage ==> cboxes
    requires start == RadioPage ==> radio
    ensures Route(start, cboxes, radio, steps) == CheckboxPage ==> cboxes
    ensures Route(start, cboxes, radio, steps) == RadioPage ==> radio
    decreases steps
  {
    if steps > 0 && start != -1 {
      RouteFrom(NextId(start, cboxes, radio), cboxes, radio, steps - 1);
    }
  }

  // ---------------------------------------------------------------------------
  // File name and labels
  // ---------------------------------------------------------------------------

  /** The typed file name, or the selected existing file when nothing is typed. */
  function ChosenName(edit: string, combo: string): (r: string)
    ensures edit != "" ==> r == edit
    ensures edit == "" ==> r == combo
  {
    if edit != "" then edit else combo
  }

  /** The name `accept` writes to: the chosen name with `.yml` added unless it already ends so. */
  function ConfigFilename(edit: string, combo: string): (r: string)
    ensures Strings.EndsWith(r, ".yml")
    ensures Strings.EndsWith(ChosenName(edit, combo), ".yml") ==> r == ChosenName(edit, combo)
    ensures !Strings.EndsWith(ChosenName(edit, combo), ".yml") ==> r == ChosenName(edit, combo) + ".yml"
  {
    Strings.WithSuffix(ChosenName(edit, combo), ".yml")
  }

  /** Adding the suffix a second time changes nothing. */
  lemma ConfigFilenameStable(edit: string, combo: string)
    ensures ConfigFilename(ConfigFilename(edit, combo), "") == ConfigFilename(edit, combo)
  {
    var r := ConfigFilename(edit, combo);
    assert r != "" by {
      assert |r| >= 4;
    }
  }

  /** `labels`: the text of the box split into lines, so one more label than line breaks. */
  function Labels(text: string): (r: seq<string>)
    ensures |r| == multiset(text)[ '\n'] + 1
    ensures forall k :: 0 <= k < |r| ==> '\n' !in r[k]
    ensures Strings.Join(r, '\n') == text
  {
    Strings.JoinSplit(text, '\n');
    Strings.Split(text, '\n')
  }

  /**
   * An item of the checkbox-label layout: a row holding a line edit with its
   * text, a row whose widgets were removed, or something that is not a row.
   */
  datatype LayoutItem = Other | EmptyRow | Row(text: string)

  /** The label texts a loop over the layout keeps: non-empty texts of filled rows, in layout order. */
  function LabelTexts(items: seq<LayoutItem>): (r: seq<string>)
    ensures forall k :: 0 <= k < |r| ==> r[k] != ""
    ensures forall t :: t in r <==> t != "" && Row(t) in items
    ensures |r| <= |items|
  {
    if items == [] then []
    else
      var rest := LabelTexts(items[1..]);
      assert forall t :: Row(t) in items <==> items[0] == Row(t) || Row(t) in items[1..];
      if items[0].Row? && items[0].text != "" then [items[0].text] + rest else rest
  }

  lemma {:induction false} LabelTextsAppend(a: seq<LayoutItem>, b: seq<LayoutItem>)
    ensures LabelTexts(a + b) == LabelTexts(a) + LabelTexts(b)
  {
    if a == [] {
      assert a + b == b;
    } else {
      assert (a + b)[0] == a[0];
      assert (a + b)[1..] == a[1..] + b;
      LabelTextsAppend(a[1..], b);
    }
  }

  /** The loop of `accept` that collects the checkbox labels, skipping rows that lost their widgets. */
  method CollectLabels(items: seq<LayoutItem>) returns (labels: seq<string>)
    ensures labels == LabelTexts(items)
  {
    labels := [];
    for i := 0 to |items|
      invariant labels == LabelTexts(items[..i])
    {
      LabelTextsAppend(items[..i], [items[i]]);
      assert items[..i + 1] == items[..i] + [items[i]];
      if items[i].Row? && items[i].text != "" {
        labels := labels + [items[i].text];
      }
    }
    assert items[..|items|] == items;
  }

  /**
   * The same loop as written: it takes the first widget of every row
   * without checking that the row still has one, so a row whose label was
   * removed raises `AttributeError`.
   */
  method CollectLabelsAsWritten(items: seq<LayoutItem>) returns (r: Result<seq<string>>)
    ensures r.Err? <==> EmptyRow in items
    ensures r.Err? ==> r.error == AttributeError
    ensures r.Ok? ==> r.value == LabelTexts(items)
  {
    var labels := [];
    for i := 0 to |items|
      invariant labels == LabelTexts(items[..i])
      invariant EmptyRow !in items[..i]
    {
      if items[i] == EmptyRow {
        return Err(AttributeError);
      }
      LabelTextsAppend(items[..i], [items[i]]);
      assert items[..i + 1] == items[..i] + [items[i]];
      if items[i].Row? && items[i].text != "" {
        labels := labels + [items[i].text];
      }
    }
    assert items[..|items|] == items;
    return Ok(labels);
  }

  /** Adding one label and removing it again leaves exactly such a row behind; `accept` then fails. */
  method RemovedLabelFails() returns (r: Result<seq<string>>)
    ensures r == Err(AttributeError)
  {
    r := CollectLabelsAsWritten([Row("Pneumothorax"), EmptyRow]);
  }

  // ---------------------------------------------------------------------------
  // The radio-button grid
  // ---------------------------------------------------------------------------

  /** `max(len(label) for label in labels)`, with `0` for no labels. */
  function MaxLen(labels: seq<string>): (m: nat)
    ensures forall i :: 0 <= i < |labels| ==> |labels[i]| <= m
    ensures labels != [] ==> exists i :: 0 <= i < |labels| && |labels[i]| == m
  {
    if labels == [] then 0
    else
      var rest := MaxLen(labels[1..]);
      assert forall i :: 1 <= i < |labels| ==> labels[i] == labels[1..][i - 1];
      if |labels[0]| >= rest then |labels[0]| else rest
  }

  /** `ceil(a / b)`. */
  function CeilDiv(a: nat, b: nat): (q: nat)
    requires b > 0
    ensures q * b >= a
    ensures (q - 1) * b < a || q == 0
  {
    var q := (a + b - 1) / b;
    assert a + b - 1 == q * b + (a + b - 1) % b;
    q
  }

  /** Where `add_group` puts the radio buttons: `columns` per row, and the remove button on `removeRow`. */
  datatype Grid = Grid(columns: nat, cells: seq<(int, int)>, removeRow: int)

  /**
   * The layout arithmetic of `add_group` and `add_group_without_dialog`:
   * `max` of no labels raises `ValueError`, labels that are all empty make
   * `10 / 0` raise `ZeroDivisionError`.
   */
  function GridLayout(labels: seq<string>): (r: Result<Grid>)
    ensures r.Err? <==> labels == [] || MaxLen(labels) == 0
    ensures r.Err? ==> r.error == (if labels == [] then ValueError else ZeroDivisionError)
  {
    if labels == [] then Err(ValueError)
    else
      var m := MaxLen(labels);
      if m == 0 then Err(ZeroDivisionError)
      else
        var nc := CeilDiv(10, m);
        Ok(Grid(nc, seq(|labels|, i requires 0 <= i < |labels| => (i / nc, i % nc)), CeilDiv(|labels|, nc)))
  }

  lemma MulLe(x: int, y: int, k: int)
    requires x <= y && 0 <= k
    ensures x * k <= y * k
  {
  }

  /** `a * n <= b` bounds `a` by the floor of `b / n`. */
  lemma FloorAtLeast(a: int, b: nat, n: int)
    requires n > 0 && a * n <= b
    ensures a <= b / n
  {
    assert b == (b / n) * n + b % n;
    if a > b / n {
      MulLe(b / n + 1, a, n);
    }
  }

  lemma DivModDetermine(i: int, j: int, n: int)
    requires n > 0 && i / n == j / n && i % n == j % n
    ensures i == j
  {
    assert i == (i / n) * n + i % n;
    assert j == (j / n) * n + j % n;
  }

  /** The grid has as few columns as keep `columns * longest >= 10`, and one cell per label. */
  lemma GridColumns(labels: seq<string>)
    requires GridLayout(labels).Ok?
    ensures var g := GridLayout(labels).value;
      && g.columns >= 1
      && g.columns * MaxLen(labels) >= 10 && (g.columns - 1) * MaxLen(labels) < 10
      && |g.cells| == |labels|
  {
  }

  /** Each label gets a column inside the grid and a row above the remove button. */
  lemma GridCellsInside(labels: seq<string>, i: int)
    requires GridLayout(labels).Ok? && 0 <= i < |labels|
    ensures var g := GridLayout(labels).value;
      0 <= g.cells[i].1 < g.columns && 0 <= g.cells[i].0 < g.removeRow
  {
    var g := GridLayout(labels).value;
    assert g.cells[i] == (i / g.columns, i % g.columns);
    RowBelowCeil(i, |labels|, g.columns);
  }

  /** A position before `len` is on a row before `ceil(len / n)`. */
  lemma RowBelowCeil(i: nat, len: nat, n: nat)
    requires i < len && n > 0
    ensures 0 <= i % n < n && i / n < CeilDiv(len, n)
  {
    var c := CeilDiv(len, n);
    assert (i / n) * n <= i by {
      assert i == (i / n) * n + i % n;
    }
    if i / n >= c {
      MulLe(c, i / n, n);
    }
  }

  /** No two labels share a cell. */
  lemma GridCellsDistinct(labels: seq<string>, i: int, j: int)
    requires GridLayout(labels).Ok? && 0 <= i < j < |labels|
    ensures GridLayout(labels).value.cells[i] != GridLayout(labels).value.cells[j]
  {
    var g := GridLayout(labels).value;
    assert g.cells[i] == (i / g.columns, i % g.columns);
    assert g.cells[j] == (j / g.columns, j % g.columns);
    if g.cells[i] == g.cells[j] {
      DivModDetermine(i, j, g.columns);
    }
  }

  /** The remove button sits on the row right below the last label. */
  lemma GridRemoveRow(labels: seq<string>)
    requires GridLayout(labels).Ok?
    ensures var g := GridLayout(labels).value;
      g.cells[|labels| - 1].0 == g.removeRow - 1
  {
    var g := GridLayout(labels).value;
    var len := |labels|;
    FloorAtLeast(g.removeRow - 1, len - 1, g.columns);
    GridCellsInside(labels, len - 1);
  }

  // ---------------------------------------------------------------------------
  // The radio page
  // ---------------------------------------------------------------------------

  /** A `QGroupBox` on the page, told apart from the others by identity only. */
  class GroupBox {
    constructor()
    {
    }
  }

  /** An entry of `radio_groups`: the box and the group's title and labels. */
  datatype RadioGroup = RadioGroup(group: GroupBox, title: string, labels: seq<string>)

  /** What `get_group_data` reports for a list of entries. */
  function GroupData(groups: seq<RadioGroup>): (r: seq<RadioGroupData>)
    ensures |r| == |groups|
    ensures forall i :: 0 <= i < |groups| ==> r[i] == RadioGroupData(groups[i].title, groups[i].labels)
  {
    seq(|groups|, i requires 0 <= i < |groups| => RadioGroupData(groups[i].title, groups[i].labels))
  }

  lemma GroupDataAppend(a: seq<RadioGroup>, b: seq<RadioGroup>)
    ensures GroupData(a + b) == GroupData(a) + GroupData(b)
  {
  }

  /** `remove_group`'s loop: the first entry holding this very box goes, nothing else moves. */
  function RemoveGroupFrom(groups: seq<RadioGroup>, g: GroupBox): (r: seq<RadioGroup>)
    ensures (exists i :: 0 <= i < |groups| && groups[i].group == g) ==> |r| == |groups| - 1
    ensures (forall i :: 0 <= i < |groups| ==> groups[i].group != g) ==> r == groups
  {
    if groups == [] then []
    else if groups[0].group == g then groups[1..]
    else
      var rest := RemoveGroupFrom(groups[1..], g);
      assert forall i :: 1 <= i < |groups| ==> groups[i] == groups[1..][i - 1];
      [groups[0]] + rest
  }

  /** The removed entry is the first one holding the box: everything before it and after it stays in order. */
  lemma {:induction false} RemoveGroupSplits(groups: seq<RadioGroup>, g: GroupBox, i: int)
    requires 0 <= i < |groups| && groups[i].group == g
    requires forall k :: 0 <= k < i ==> groups[k].group != g
    ensures RemoveGroupFrom(groups, g) == groups[..i] + groups[i + 1..]
  {
    if i > 0 {
      RemoveGroupSplits(groups[1..], g, i - 1);
      assert groups[1..][..i - 1] == groups[1..i];
      assert groups[..i] == [groups[0]] + groups[1..i];
      assert groups[1..][i..] == groups[i + 1..];
    }
  }

  /** `RadioButtonPage`: the groups in the order they were added. */
  class RadioButtonPage {
    var radioGroups: seq<RadioGroup>

    constructor()
      ensures radioGroups == []
    {
      radioGroups := [];
    }

    /**
     * `add_group_without_dialog`: lay the labels out, then append the new
     * group; an error in the layout arithmetic leaves the list as it was.
     */
    method AddGroupWithoutDialog(title: string, labels: seq<string>) returns (r: Result<Grid>)
      modifies this
      ensures r == GridLayout(labels)
      ensures r.Err? ==> radioGroups == old(radioGroups)
      ensures r.Ok? ==> |radioGroups| == |old(radioGroups)| + 1
      ensures r.Ok? ==> radioGroups[..|old(radioGroups)|] == old(radioGroups)
      ensures r.Ok? ==> var last := radioGroups[|old(radioGroups)|];
        fresh(last.group) && last.title == title && last.labels == labels
    {
      r := GridLayout(labels);
      if r.Ok? {
        var group := new GroupBox();
        radioGroups := radioGroups + [RadioGroup(group, title, labels)];
      }
    }

    /** `add_group`: when the dialog is accepted, its title and its text split into lines. */
    method AddGroup(accepted: bool, title: string, text: string) returns (r: Option<Result<Grid>>)
      modifies this
      ensures !accepted ==> r == None && radioGroups == old(radioGroups)
      ensures accepted ==> r == Some(GridLayout(Labels(text)))
      ensures accepted && r.value.Ok? ==> GroupData(radioGroups) == GroupData(old(radioGroups)) + [RadioGroupData(title, Labels(text))]
      ensures accepted && r.value.Err? ==> radioGroups == old(radioGroups)
    {
      if !accepted {
        return None;
      }
      var g := AddGroupWithoutDialog(title, Labels(text));
      if g.Ok? {
        GroupDataAppend(old(radioGroups), [radioGroups[|radioGroups| - 1]]);
        assert radioGroups == old(radioGroups) + [radioGroups[|radioGroups| - 1]];
      }
      r := Some(g);
    }

    /**
     * `add_group` as written: `RadioButtonGroupDialog.__init__` builds its
     * buttons from `QDialogButtonBox.Ok | QDialogButtonBox.Cancel`, names
     * PyQt6 only offers scoped (`QDialogButtonBox.StandardButton.Ok`), so
     * `AttributeError` is raised before the dialog shows: whatever the user
     * would enter, no group is added. The test against the unscoped
     * `QDialog.Accepted` that follows is never reached.
     */
    method AddGroupAsWritten(accepted: bool, title: string, text: string) returns (r: Result<Option<Result<Grid>>>)
      ensures r == Err(AttributeError)
    {
      r := Err(AttributeError);
    }

    /** `remove_group`: the loop that stops at the first entry whose box `is` the given one. */
    method RemoveGroup(g: GroupBox)
      modifies this
      ensures radioGroups == RemoveGroupFrom(old(radioGroups), g)
    {
      var i := 0;
      while i < |radioGroups|
        invariant 0 <= i <= |radioGroups| && radioGroups == old(radioGroups)
        invariant forall k :: 0 <= k < i ==> radioGroups[k].group != g
      {
        if radioGroups[i].group == g {
          RemoveGroupSplits(radioGroups, g, i);
          radioGroups := radioGroups[..i] + radioGroups[i + 1..];
          return;
        }
        i := i + 1;
      }
    }

    /** `get_group_data`: title and labels of every group, in the order they were added. */
    method GetGroupData() returns (data: seq<RadioGroupData>)
      ensures data == GroupData(radioGroups)
    {
      data := [];
      for i := 0 to |radioGroups|
        invariant data == GroupData(radioGroups[..i])
      {
        data := data + [RadioGroupData(radioGroups[i].title, radioGroups[i].labels)];
      }
      assert radioGroups[..|radioGroups|] == radioGroups;
    }

    /**
     * `load_group_data`: add the groups one after the other; the first
     * group whose layout fails stops the loading, with the earlier ones added.
     */
    method LoadGroupData(data: seq<RadioGroupData>) returns (r: Result<()>)
      modifies this
      ensures r.Ok? ==> GroupData(radioGroups) == GroupData(old(radioGroups)) + data
      ensures r.Ok? ==> forall k :: 0 <= k < |data| ==> GridLayout(data[k].labels).Ok?
      ensures r.Err? ==> exists k :: (0 <= k < |data| && GridLayout(data[k].labels).Err? &&
                                      GroupData(radioGroups) == GroupData(old(radioGroups)) + data[..k])
      ensures r.Err? ==> r.error == ValueError || r.error == ZeroDivisionError
    {
      for i := 0 to |data|
        invariant GroupData(radioGroups) == GroupData(old(radioGroups)) + data[..i]
        invariant forall k :: 0 <= k < i ==> GridLayout(data[k].labels).Ok?
      {
        ghost var before := radioGroups;
        var g := AddGroupWithoutDialog(data[i].title, data[i].labels);
        if g.Err? {
          return Err(g.error);
        }
        assert radioGroups == before + [radioGroups[|before|]];
        GroupDataAppend(before, [radioGroups[|before|]]);
        assert data[..i + 1] == data[..i] + [data[i]];
      }
      assert data[..|data|] == data;
      return Ok(());
    }
  }

  /** Loading saved groups into a fresh page and reading them back gives the same groups. */
  method LoadThenGet(data: seq<RadioGroupData>) returns (back: Option<seq<RadioGroupData>>)
    ensures back.Some? <==> forall k :: 0 <= k < |data| ==> GridLayout(data[k].labels).Ok?
    ensures back.Some? ==> back.value == data
  {
    var page := new RadioButtonPage();
    var r := page.LoadGroupData(data);
    if r.Err? {
      return None;
    }
    var d := page.GetGroupData();
    return Some(d);
  }

  // ---------------------------------------------------------------------------
  // Finishing the wizard
  // ---------------------------------------------------------------------------

  /** What the pages hold when the wizard is finished. */
  datatype Form = Form(
    filenameEdit: string,
    comboText: string,
    checkboxOption: bool,
    radioOption: bool,
    labelItems: seq<LayoutItem>,
    maxBackups: int,
    backupInterval: int,
    backupDir: string,
    logDir: string)

  /** The keys `accept` writes, over the configuration it was opened with. */
  function AcceptedConfig(data: ConfigData, form: Form, groups: seq<RadioGroupData>, tristate: bool): (r: ConfigData)
    ensures r.Keys == data.Keys + {"checkboxes", "radiobuttons", "tristate_checkboxes", "max_backups", "backup_interval", "backup_dir", "log_dir"}
    ensures r["checkboxes"] == CLabels(if form.checkboxOption then LabelTexts(form.labelItems) else [])
    ensures r["radiobuttons"] == CGroups(if form.radioOption then groups else [])
    ensures r["tristate_checkboxes"] == CBool(tristate)
    ensures forall k :: k in data && k !in {"checkboxes", "radiobuttons", "tristate_checkboxes", "max_backups", "backup_interval", "backup_dir", "log_dir"} ==> r[k] == data[k]
  {
    data["checkboxes" := CLabels(if form.checkboxOption then LabelTexts(form.labelItems) else [])]
        ["radiobuttons" := CGroups(if form.radioOption then groups else [])]
        ["tristate_checkboxes" := CBool(tristate)]
        ["max_backups" := CInt(form.maxBackups)]
        ["backup_interval" := CInt(form.backupInterval)]
        ["backup_dir" := CText(form.backupDir)]
        ["log_dir" := CText(form.logDir)]
  }

  /** `ConfigurationWizard`: the configuration being edited and the file it was last written to. */
  class ConfigurationWizard {
    var configData: ConfigData
    var tristateCheckboxes: bool
    var radioPage: RadioButtonPage
    var saved: Option<(string, ConfigData)>

    /**
     * `__init__` up to its last step: the loaded configuration, its
     * tri-state option and a radio page without groups.
     */
    constructor(data: ConfigData, tristate: bool)
      ensures configData == data && tristateCheckboxes == tristate && saved == None
      ensures fresh(radioPage) && radioPage.radioGroups == []
    {
      configData, tristateCheckboxes, saved := data, tristate, None;
      radioPage := new RadioButtonPage();
    }

    /** `update_tristate_checkboxes_state`: any state but unchecked turns the option on. */
    method UpdateTristateCheckboxesState(state: int)
      modifies this`tristateCheckboxes
      ensures tristateCheckboxes <==> state != 0
    {
      tristateCheckboxes := state != 0;
    }

    /**
     * `accept`: write the pages into the configuration and save it under
     * the chosen name. The label loop is the one written, so with the
     * checkbox option on, a row that lost its line edit raises
     * `AttributeError` before anything is stored.
     */
    method Accept(form: Form) returns (r: Result<()>)
      modifies this`configData, this`saved
      ensures r.Err? <==> form.checkboxOption && EmptyRow in form.labelItems
      ensures r.Err? ==> r.error == AttributeError && configData == old(configData) && saved == old(saved)
      ensures r.Ok? ==> configData == AcceptedConfig(old(configData), form, GroupData(radioPage.radioGroups), tristateCheckboxes)
      ensures r.Ok? ==> saved == Some((ConfigFilename(form.filenameEdit, form.comboText), configData))
    {
      var filename := ConfigFilename(form.filenameEdit, form.comboText);
      var labels := [];
      if form.checkboxOption {
        var collected := CollectLabelsAsWritten(form.labelItems);
        if collected.Err? {
          return Err(collected.error);
        }
        labels := collected.value;
      }
      var groups := radioPage.GetGroupData();
      var data := configData;
      data := data["checkboxes" := CLabels(labels)];
      data := data["radiobuttons" := CGroups(if form.radioOption then groups else [])];
      data := data["tristate_checkboxes" := CBool(tristateCheckboxes)];
      data := data["max_backups" := CInt(form.maxBackups)];
      data := data["backup_interval" := CInt(form.backupInterval)];
      data := data["backup_dir" := CText(form.backupDir)];
      data := data["log_dir" := CText(form.logDir)];
      configData := data;
      saved := Some((filename, data));
      return Ok(());
    }
  }

  /**
   * `ConfigurationWizard(...)`: the wizard is built, then its saved radio
   * groups are loaded onto the radio page; a group whose layout fails
   * raises out of `__init__`, and no wizard results.
   */
  method NewConfigurationWizard(data: ConfigData, tristate: bool, groups: seq<RadioGroupData>)
    returns (r: Result<ConfigurationWizard>)
    ensures r.Err? <==> exists k :: 0 <= k < |groups| && GridLayout(groups[k].labels).Err?
    ensures r.Err? ==> r.error == ValueError || r.error == ZeroDivisionError
    ensures r.Ok? ==> fresh(r.value) && fresh(r.value.radioPage)
    ensures r.Ok? ==> r.value.configData == data && r.value.tristateCheckboxes == tristate && r.value.saved == None
    ensures r.Ok? ==> GroupData(r.value.radioPage.radioGroups) == groups
  {
    var w := new ConfigurationWizard(data, tristate);
    var loaded := w.radioPage.LoadGroupData(groups);
    if loaded.Err? {
      return Err(loaded.error);
    }
    return Ok(w);
  }

  /**
   * `ConfigurationWizard(...)` as written: once the radio groups are loaded
   * and the pages added, `self.button(QWizard.NextButton)` names an enum
   * member PyQt6 only offers scoped (`QWizard.WizardButton.NextButton`), so
   * `__init__` raises `AttributeError` unless a group's layout failed first.
   * No wizard ever results.
   */
  method NewConfigurationWizardAsWritten(data: ConfigData, tristate: bool, groups: seq<RadioGroupData>)
    returns (r: Result<ConfigurationWizard>)
    ensures r.Err?
    ensures r.error == AttributeError <==> forall k :: 0 <= k < |groups| ==> GridLayout(groups[k].labels).Ok?
  {
    var w := NewConfigurationWizard(data, tristate, groups);
    if w.Err? {
      return w;
    }
    return Err(AttributeError);
  }

  /**
   * The accepted dialog for a group "Quality" with the single label "good":
   * the page as written holds no group afterwards, the corrected page one.
   */
  method AcceptedGroupNotAdded() returns (asWritten: nat, corrected: nat)
    ensures asWritten == 0 && corrected == 1
  {
    var p1 := new RadioButtonPage();
    var p2 := new RadioButtonPage();
    var title, text := "Quality", "good";
    var labels := Labels(text);
    assert '\n' !in text;
    assert multiset(text)['\n'] == 0;
    assert |labels| == 1;
    assert Strings.Join(labels, '\n') == labels[0];
    assert MaxLen(labels) == 4;
    var r1 := p1.AddGroupAsWritten(true, title, text);
    var r2 := p2.AddGroup(true, title, text);
    return |p1.radioGroups|, |p2.radioGroups|;
  }
}
