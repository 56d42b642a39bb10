/**
 * The first-generation configuration wizard: a page of checkbox labels,
 * one line edit per label, a page of backup and log settings, and a save
 * page whose `accept` writes the labels and settings into the
 * configuration under the chosen `.yml` name.
 */
module ConfigWizard {
  import opened Wrappers
  import opened Config
  import Wizard

  /** The label page's line edits as layout rows: every item of `labels_layout` is a line edit. */
  function Rows(edits: seq<string>): (r: seq<Wizard.LayoutItem>)
    ensures |r| == |edits|
    ensures forall k :: 0 <= k < |r| ==> r[k] == Wizard.Row(edits[k])
  {
    seq(|edits|, k requires 0 <= k < |edits| => Wizard.Row(edits[k]))
  }

  /** The labels `accept` saves are exactly the non-empty texts of the line edits. */
  lemma SavedLabels(edits: seq<string>)
    ensures forall t :: t in Wizard.LabelTexts(Rows(edits)) <==> t != "" && t in edits
  {
    forall t
      ensures Wizard.Row(t) in Rows(edits) <==> t in edits
    {
      if t in edits {
        var k :| 0 <= k < |edits| && edits[k] == t;
        assert Rows(edits)[k] == Wizard.Row(t);
      }
    }
  }

  /** The rows of two runs of line edits are the rows of each, in order. */
  lemma {:induction false} RowsAppend(a: seq<string>, b: seq<string>)
    ensures Rows(a + b) == Rows(a) + Rows(b)
  {
  }

  /** A value's truth in Python, for `bool(config_data.get('tristate_checkboxes', False))`. */
  function Truthy(v: ConfigValue): (r: bool)
    ensures v.CBool? ==> r == v.b
    ensures v.CInt? ==> (r <==> v.i != 0)
    ensures v.CText? ==> (r <==> v.t != "")
  {
    match v
    case CBool(b) => b
    case CInt(i) => i != 0
    case CText(t) => t != ""
    case CLabels(labels) => labels != []
    case CGroups(groups) => groups != []
    case CPaths(paths) => paths != map[]
  }

  /** `QSpinBox.setValue` on a box with range `lo..hi`: the value is clamped into the range. */
  function Clamp(v: int, lo: int, hi: int): (r: int)
    requires lo <= hi
    ensures lo <= r <= hi
    ensures lo <= v <= hi ==> r == v
    ensures v < lo ==> r == lo
    ensures v > hi ==> r == hi
  {
    if v < lo then lo else if v > hi then hi else v
  }

  /**
   * The keys `accept` writes, over the configuration the wizard holds.
   * `tristate_cboxes` is `bool(self.tristate_checkbox.checkState())`; under
   * PyQt6 `checkState()` returns a `Qt.CheckState` member, a plain
   * `enum.Enum` value, and every such value is truthy, so the key is
   * `True` whatever the box shows.
   */
  function AcceptedConfig(
    data: ConfigData, labels: seq<string>,
    maxBackups: int, interval: int, backupDir: string, logDir: string): ConfigData
  {
    data["checkboxes" := CLabels(labels)]
        ["tristate_cboxes" := CBool(true)]
        ["max_backups" := CInt(maxBackups)]
        ["backup_interval" := CInt(interval)]
        ["backup_dir" := CText(backupDir)]
        ["log_dir" := CText(logDir)]
  }

  const AcceptedKeys: set<string> :=
    {"checkboxes", "tristate_cboxes", "max_backups", "backup_interval", "backup_dir", "log_dir"}

  /**
   * `accept` adds its six keys and keeps every other key as it was, among
   * them `tristate_checkboxes`, which the toggle handler writes.
   */
  lemma AcceptedConfigKeys(
    data: ConfigData, labels: seq<string>,
    maxBackups: int, interval: int, backupDir: string, logDir: string)
    ensures var r := AcceptedConfig(data, labels, maxBackups, interval, backupDir, logDir);
      && r.Keys == data.Keys + AcceptedKeys
      && r["checkboxes"] == CLabels(labels)
      && r["tristate_cboxes"] == CBool(true)
      && r["max_backups"] == CInt(maxBackups) && r["backup_interval"] == CInt(interval)
      && r["backup_dir"] == CText(backupDir) && r["log_dir"] == CText(logDir)
      && (forall k :: k in data && k !in AcceptedKeys ==> r[k] == data[k])
  {
  }

  /**
   * `ConfigurationWizard`: the configuration being edited, the state of the
   * pages' widgets, and the file last written with its contents.
   */
  class ConfigurationWizard {
    var configData: ConfigData
    var labelEdits: seq<string>
    var tristateState: int
    var maxBackups: int
    var backupInterval: int
    var backupDirEdit: string
    var logDirEdit: string
    var filenameEdit: string
    var comboText: string
    var accepted: bool
    var saved: Option<(string, ConfigData)>

    /**
     * `__init__` on the loaded configuration: one line edit per saved label,
     * the tri-state box checked when the saved option is truthy, and the
     * spin boxes clamped to their ranges (1 to 100 backups, 1 to 30
     * minutes). The directories are the texts the edits start with.
     */
    constructor(data: ConfigData, checkboxes: seq<string>, backupsKept: int, interval: int,
                backups: string, logs: string, combo: string)
      ensures configData == data && labelEdits == checkboxes
      ensures tristateState == (if "tristate_checkboxes" in data && Truthy(data["tristate_checkboxes"]) then 2 else 0)
      ensures maxBackups == Clamp(backupsKept, 1, 100) && backupInterval == Clamp(interval, 1, 30)
      ensures backupDirEdit == backups && logDirEdit == logs
      ensures filenameEdit == "" && comboText == combo
      ensures !accepted && saved == None
    {
      configData, labelEdits := data, checkboxes;
      tristateState := if "tristate_checkboxes" in data && Truthy(data["tristate_checkboxes"]) then 2 else 0;
      maxBackups, backupInterval := Clamp(backupsKept, 1, 100), Clamp(interval, 1, 30);
      backupDirEdit, logDirEdit := backups, logs;
      filenameEdit, comboText := "", combo;
      accepted, saved := false, None;
    }

    /** `update_tristate_checkboxes_state`: the raw check state goes into the configuration. */
    method UpdateTristateCheckboxesState(state: int)
      modifies this`configData
      ensures configData == old(configData)["tristate_checkboxes" := CInt(state)]
    {
      configData := configData["tristate_checkboxes" := CInt(state)];
    }

    /** Clicking the tri-state box: its state changes and `stateChanged` runs the handler. */
    method ToggleTristate(state: int)
      modifies this`tristateState, this`configData
      ensures tristateState == state
      ensures configData == old(configData)["tristate_checkboxes" := CInt(state)]
    {
      tristateState := state;
      UpdateTristateCheckboxesState(state);
    }

    /** `add_label`: one more, empty, line edit at the end of the label page. */
    method AddLabel()
      modifies this`labelEdits
      ensures labelEdits == old(labelEdits) + [""]
    {
      labelEdits := labelEdits + [""];
    }

    /** Typing into the `i`-th line edit of the label page. */
    method EditLabel(i: nat, text: string)
      requires i < |labelEdits|
      modifies this`labelEdits
      ensures labelEdits == old(labelEdits)[i := text]
    {
      labelEdits := labelEdits[i := text];
    }

    /** The loop of `accept` over `labels_layout`: the non-empty texts, in layout order. */
    method CollectLabels() returns (labels: seq<string>)
      ensures labels == Wizard.LabelTexts(Rows(labelEdits))
      ensures forall t :: t in labels <==> t != "" && t in labelEdits
    {
      labels := [];
      for i := 0 to |labelEdits|
        invariant labels == Wizard.LabelTexts(Rows(labelEdits[..i]))
      {
        assert labelEdits[..i + 1] == labelEdits[..i] + [labelEdits[i]];
        RowsAppend(labelEdits[..i], [labelEdits[i]]);
        Wizard.LabelTextsAppend(Rows(labelEdits[..i]), Rows([labelEdits[i]]));
        if labelEdits[i] != "" {
          labels := labels + [labelEdits[i]];
        }
      }
      assert labelEdits[..|labelEdits|] == labelEdits;
      SavedLabels(labelEdits);
    }

    /**
     * `accept`: the name is the edit's text, or the selected existing file
     * when the edit is empty, with `.yml` added unless already there; the
     * labels, the truth of the tri-state box's check state (always
     * `True`), the backup settings and the directories go into the
     * configuration, which is written under that name.
     */
    method Accept()
      modifies this`configData, this`saved, this`accepted
      ensures configData == AcceptedConfig(
        old(configData), Wizard.LabelTexts(Rows(labelEdits)),
        maxBackups, backupInterval, backupDirEdit, logDirEdit)
      ensures saved == Some((Wizard.ConfigFilename(filenameEdit, comboText), configData))
      ensures accepted
    {
      var filename := Wizard.ConfigFilename(filenameEdit, comboText);
      var labels := CollectLabels();
      configData := AcceptedConfig(configData, labels, maxBackups, backupInterval, backupDirEdit, logDirEdit);
      saved := Some((filename, configData));
      accepted := true;
    }
  }

  /**
   * The tri-state option ends up under two keys: ticking the box and
   * finishing stores the raw check state (2) under `tristate_checkboxes`,
   * the key the main window reads, and `True` under `tristate_cboxes`.
   */
  method TristateUnderTwoKeys(w: ConfigurationWizard)
    modifies w
    ensures w.saved.Some?
    ensures "tristate_checkboxes" in w.configData && w.configData["tristate_checkboxes"] == CInt(2)
    ensures "tristate_cboxes" in w.configData && w.configData["tristate_cboxes"] == CBool(true)
  {
    w.ToggleTristate(2);
    w.Accept();
    AcceptedConfigKeys(old(w.configData)["tristate_checkboxes" := CInt(2)], Wizard.LabelTexts(Rows(w.labelEdits)),
      w.maxBackups, w.backupInterval, w.backupDirEdit, w.logDirEdit);
  }

  /**
   * `ConfigurationWizard(config_path)` as written: the pages are built,
   * then `self.button(QWizard.NextButton)` names an enum member PyQt6 only
   * offers scoped (`QWizard.WizardButton.NextButton`), so `__init__` raises
   * `AttributeError` whatever the configuration holds, and the wizard
   * button of the load dialog never opens a wizard.
   */
  method NewConfigurationWizardAsWritten(data: ConfigData, checkboxes: seq<string>, backupsKept: int, interval: int,
                                         backups: string, logs: string, combo: string)
    returns (r: Result<ConfigurationWizard>)
    ensures r == Err(AttributeError)
  {
    var built := new ConfigurationWizard(data, checkboxes, backupsKept, interval, backups, logs, combo);
    r := Err(AttributeError);
  }

  /**
   * Unticking the box and finishing stores 0 under `tristate_checkboxes`
   * but still `True` under `tristate_cboxes`: the stored boolean does not
   * follow the box.
   */
  method UntickedStillTrue(w: ConfigurationWizard)
    modifies w
    ensures w.saved.Some?
    ensures "tristate_checkboxes" in w.configData && w.configData["tristate_checkboxes"] == CInt(0)
    ensures "tristate_cboxes" in w.configData && w.configData["tristate_cboxes"] == CBool(true)
  {
    w.ToggleTristate(0);
    w.Accept();
    AcceptedConfigKeys(old(w.configData)["tristate_checkboxes" := CInt(0)], Wizard.LabelTexts(Rows(w.labelEdits)),
      w.maxBackups, w.backupInterval, w.backupDirEdit, w.logDirEdit);
  }

  /** An empty line edit, such as one added and left blank, saves no label. */
  method BlankEditSavesNothing(w: ConfigurationWizard) returns (labels: seq<string>)
    modifies w`labelEdits
    ensures labels == old(Wizard.LabelTexts(Rows(w.labelEdits)))
  {
    w.AddLabel();
    labels := w.CollectLabels();
    RowsAppend(old(w.labelEdits), [""]);
    Wizard.LabelTextsAppend(Rows(old(w.labelEdits)), Rows([""]));
  }
}
