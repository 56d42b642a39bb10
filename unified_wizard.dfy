/**
 * The single-window settings wizard: the advanced-settings dialog that
 * picks the configuration file name, the conflict-resolution page and its
 * two annotation files, the checkbox page, and `save_config`, which writes
 * the pages into the configuration unless an existing configuration was
 * loaded instead.
 */
module UnifiedWizard {
  import opened Wrappers
  import opened Config
  import Wizard
  import Strings

  /** `ResolveConflictsPage`: whether two annotators' files are merged, and which two. */
  class ResolveConflictsPage {
    var conflictResolution: bool
    var json1: string
    var json2: string

    constructor(on: bool, path1: string, path2: string)
      ensures conflictResolution == on && json1 == path1 && json2 == path2
    {
      conflictResolution, json1, json2 := on, path1, path2;
    }

    /** `update_conflict_resolution_state`: any state but unchecked turns conflict mode on. */
    method UpdateConflictResolutionState(state: int)
      modifies this`conflictResolution
      ensures conflictResolution <==> state != 0
    {
      conflictResolution := state != 0;
    }

    /** `get_json_file_paths`: the two paths in conflict mode, two empty paths otherwise. */
    method GetJsonFilePaths() returns (paths: map<string, string>)
      ensures paths.Keys == {"1", "2"}
      ensures conflictResolution ==> paths["1"] == json1 && paths["2"] == json2
      ensures !conflictResolution ==> paths["1"] == "" && paths["2"] == ""
    {
      if conflictResolution {
        return map["1" := json1, "2" := json2];
      }
      return map["1" := "", "2" := ""];
    }
  }

  /** The conflict-resolution paths as the page reports them. */
  function JsonFilePaths(on: bool, path1: string, path2: string): (paths: map<string, string>)
    ensures paths.Keys == {"1", "2"}
    ensures on ==> paths["1"] == path1 && paths["2"] == path2
    ensures !on ==> paths["1"] == "" && paths["2"] == ""
  {
    if on then map["1" := path1, "2" := path2] else map["1" := "", "2" := ""]
  }

  /** `UnifiedCheckboxPage`: the tri-state option and the rows of checkbox labels. */
  class UnifiedCheckboxPage {
    var tristateCheckboxes: bool
    var rows: seq<Wizard.LayoutItem>

    constructor(tristate: bool, labels: seq<Wizard.LayoutItem>)
      ensures tristateCheckboxes == tristate && rows == labels
    {
      tristateCheckboxes, rows := tristate, labels;
    }

    /** `update_tristate_checkboxes_state`: any state but unchecked turns the option on. */
    method UpdateTristateCheckboxesState(state: int)
      modifies this`tristateCheckboxes
      ensures tristateCheckboxes <==> state != 0
    {
      tristateCheckboxes := state != 0;
    }
  }

  /** The keys `save_config` writes into the configuration. */
  function SavedConfig(
    data: ConfigData, logDir: string, backupDir: string, maxBackups: int, interval: int,
    tristate: bool, conflict: bool, paths: map<string, string>,
    labels: seq<string>, groups: seq<RadioGroupData>): ConfigData
  {
    data["log_dir" := CText(logDir)]
        ["backup_dir" := CText(backupDir)]
        ["max_backups" := CInt(maxBackups)]
        ["backup_interval" := CInt(interval)]
        ["tristate_checkboxes" := CBool(tristate)]
        ["conflict_resolution" := CBool(conflict)]
        ["conflict_resolution_json_files" := CPaths(paths)]
        ["checkboxes" := CLabels(labels)]
        ["radiobuttons" := CGroups(groups)]
  }

  /** The values `save_config` writes to `QSettings`. */
  function SavedSettings(
    settings: ConfigData, filename: string, logDir: string, backupDir: string, maxBackups: int, interval: int,
    tristate: bool, conflict: bool, paths: map<string, string>): ConfigData
  {
    settings["last_config_file" := CText(filename)]
            ["log_dir" := CText(logDir)]
            ["backup_dir" := CText(backupDir)]
            ["max_backups" := CInt(maxBackups)]
            ["backup_interval" := CInt(interval)]
            ["tristate_checkboxes" := CBool(tristate)]
            ["conflict_resolution" := CBool(conflict)]
            ["conflict_resolution_json_files" := CPaths(paths)]
  }

  const SavedKeys: set<string> := {
    "log_dir", "backup_dir", "max_backups", "backup_interval", "tristate_checkboxes",
    "conflict_resolution", "conflict_resolution_json_files", "checkboxes", "radiobuttons"}

  /** The saved configuration has every key it had, all pages' keys, and keeps the keys no page owns. */
  lemma SavedConfigKeys(
    data: ConfigData, logDir: string, backupDir: string, maxBackups: int, interval: int,
    tristate: bool, conflict: bool, paths: map<string, string>,
    labels: seq<string>, groups: seq<RadioGroupData>)
    ensures var r := SavedConfig(data, logDir, backupDir, maxBackups, interval, tristate, conflict, paths, labels, groups);
      && r.Keys == data.Keys + SavedKeys
      && r["checkboxes"] == CLabels(labels) && r["radiobuttons"] == CGroups(groups)
      && r["tristate_checkboxes"] == CBool(tristate) && r["conflict_resolution"] == CBool(conflict)
      && r["conflict_resolution_json_files"] == CPaths(paths)
      && (forall k :: k in data && k !in SavedKeys ==> r[k] == data[k])
  {
  }

  /** The settings get the file name, every option `save_config` stores, and keep everything else. */
  lemma SavedSettingsKeys(
    settings: ConfigData, filename: string, logDir: string, backupDir: string, maxBackups: int, interval: int,
    tristate: bool, conflict: bool, paths: map<string, string>)
    ensures var r := SavedSettings(settings, filename, logDir, backupDir, maxBackups, interval, tristate, conflict, paths);
      && r.Keys == settings.Keys + (SavedKeys - {"checkboxes", "radiobuttons"}) + {"last_config_file"}
      && r["last_config_file"] == CText(filename) && r["log_dir"] == CText(logDir)
      && r["tristate_checkboxes"] == CBool(tristate) && r["conflict_resolution"] == CBool(conflict)
      && (forall k :: k in settings && k !in SavedKeys && k != "last_config_file" ==> r[k] == settings[k])
  {
  }

  /**
   * `ConfigurationWizard` of the single-window wizard. `settings` holds the
   * values written to `QSettings`; `saved` the file last written and its
   * contents; `skip` is set once an existing configuration is loaded.
   */
  class ConfigurationWizard {
    var configFilepath: string
    var configFilename: string
    var configData: ConfigData
    var logDir: string
    var backupDir: string
    var maxBackups: int
    var backupInterval: int
    var tristateCheckboxes: bool
    var conflictResolution: bool
    var skip: bool
    var closed: bool
    var settings: ConfigData
    var saved: Option<(string, ConfigData)>
    var cboxPage: UnifiedCheckboxPage
    var conflictPage: ResolveConflictsPage
    var radioPage: Wizard.RadioButtonPage

    /**
     * `__init__` with the values it reads from the loaded configuration
     * already decoded: the wizard keeps its own copy of the tri-state and
     * conflict options next to the copies the pages get.
     */
    constructor(
      filepath: string, filename: string, data: ConfigData, logs: string, backups: string,
      backupsKept: int, interval: int, tristate: bool, conflict: bool,
      cboxes: UnifiedCheckboxPage, conflicts: ResolveConflictsPage, radios: Wizard.RadioButtonPage)
      ensures configFilepath == filepath && configFilename == filename && configData == data
      ensures logDir == logs && backupDir == backups && maxBackups == backupsKept && backupInterval == interval
      ensures tristateCheckboxes == tristate && conflictResolution == conflict
      ensures cboxPage == cboxes && conflictPage == conflicts && radioPage == radios
      ensures !skip && !closed && settings == map[] && saved == None
    {
      configFilepath, configFilename, configData := filepath, filename, data;
      logDir, backupDir, maxBackups, backupInterval := logs, backups, backupsKept, interval;
      tristateCheckboxes, conflictResolution := tristate, conflict;
      cboxPage, conflictPage, radioPage := cboxes, conflicts, radios;
      skip, closed, settings, saved := false, false, map[], None;
    }

    /**
     * `AdvancedSettingsDialog.close`: the typed file name, or the selected
     * existing file when nothing is typed, plus the directories and counts.
     */
    method CloseAdvancedSettings(edit: string, combo: string, logs: string, backups: string, interval: int, backupsKept: int)
      modifies this`configFilename, this`logDir, this`backupDir, this`backupInterval, this`maxBackups
      ensures configFilename == Wizard.ChosenName(edit, combo)
      ensures edit != "" ==> configFilename == edit
      ensures edit == "" ==> configFilename == combo
      ensures logDir == logs && backupDir == backups && backupInterval == interval && maxBackups == backupsKept
    {
      if edit != "" {
        configFilename := edit;
      } else {
        configFilename := combo;
      }
      logDir, backupDir, backupInterval, maxBackups := logs, backups, interval, backupsKept;
    }

    /**
     * `config_load_dialog`: accepting a file records it, sets `skip` and
     * closes the wizard; cancelling changes nothing.
     */
    method ConfigLoadDialog(accepted: bool, selected: string)
      modifies this`configFilepath, this`settings, this`skip, this`closed
      ensures accepted ==> configFilepath == selected && skip && closed
      ensures accepted ==> settings == old(settings)["last_config_file" := CText(selected)]
      ensures !accepted ==> configFilepath == old(configFilepath) && skip == old(skip)
      ensures !accepted ==> closed == old(closed) && settings == old(settings)
    {
      if accepted {
        configFilepath := selected;
        settings := settings["last_config_file" := CText(selected)];
        skip := true;
        closed := true;
      }
    }

    /** The configuration half of `save_config`: the pages' state goes into the configuration and `.yml` onto its name. */
    method WriteConfig()
      modifies this`configData, this`configFilename
      ensures configFilename == Strings.WithSuffix(old(configFilename), ".yml")
      ensures configData == SavedConfig(
        old(configData), logDir, backupDir, maxBackups, backupInterval,
        cboxPage.tristateCheckboxes, conflictPage.conflictResolution,
        JsonFilePaths(conflictPage.conflictResolution, conflictPage.json1, conflictPage.json2),
        Wizard.LabelTexts(cboxPage.rows), Wizard.GroupData(radioPage.radioGroups))
    {
      configData := SavedConfig(
        configData, logDir, backupDir, maxBackups, backupInterval,
        cboxPage.tristateCheckboxes, conflictPage.conflictResolution,
        JsonFilePaths(conflictPage.conflictResolution, conflictPage.json1, conflictPage.json2),
        Wizard.LabelTexts(cboxPage.rows), Wizard.GroupData(radioPage.radioGroups));
      configFilename := Strings.WithSuffix(configFilename, ".yml");
    }

    /** The settings half of `save_config`: the settings and the file are written. */
    method WriteSettings()
      modifies this`settings, this`saved
      ensures settings == SavedSettings(
        old(settings), configFilename, logDir, backupDir, maxBackups, backupInterval,
        tristateCheckboxes, conflictResolution,
        JsonFilePaths(conflictPage.conflictResolution, conflictPage.json1, conflictPage.json2))
      ensures saved == Some((configFilename, configData))
    {
      settings := SavedSettings(
        settings, configFilename, logDir, backupDir, maxBackups, backupInterval,
        tristateCheckboxes, conflictResolution,
        JsonFilePaths(conflictPage.conflictResolution, conflictPage.json1, conflictPage.json2));
      saved := Some((configFilename, configData));
    }

    /**
     * `save_config`, run when the wizard finishes. It first opens the log
     * under the configuration's `log_dir`, which raises `KeyError` when the
     * key is missing and `TypeError` when it is not a path. After a loaded
     * configuration (`skip`) nothing else happens; otherwise the pages are
     * written into the configuration, `.yml` is added to the name when
     * missing, and the settings and the file are written.
     */
    method SaveConfig() returns (r: Result<()>)
      modifies this`configData, this`configFilename, this`settings, this`saved
      ensures "log_dir" !in old(configData) ==> r == Err(KeyError)
      ensures "log_dir" in old(configData) && !old(configData)["log_dir"].CText? ==> r == Err(TypeError)
      ensures r.Err? || skip ==> configData == old(configData) && configFilename == old(configFilename)
      ensures r.Err? || skip ==> settings == old(settings) && saved == old(saved)
      ensures r.Ok? <==> "log_dir" in old(configData) && old(configData)["log_dir"].CText?
      ensures r.Ok? && !skip ==> configFilename == Strings.WithSuffix(old(configFilename), ".yml")
      ensures r.Ok? && !skip ==> configData == SavedConfig(
        old(configData), logDir, backupDir, maxBackups, backupInterval,
        cboxPage.tristateCheckboxes, conflictPage.conflictResolution,
        JsonFilePaths(conflictPage.conflictResolution, conflictPage.json1, conflictPage.json2),
        Wizard.LabelTexts(cboxPage.rows), Wizard.GroupData(radioPage.radioGroups))
      ensures r.Ok? && !skip ==> settings == SavedSettings(
        old(settings), configFilename, logDir, backupDir, maxBackups, backupInterval,
        tristateCheckboxes, conflictResolution,
        JsonFilePaths(conflictPage.conflictResolution, conflictPage.json1, conflictPage.json2))
      ensures r.Ok? && !skip ==> saved == Some((configFilename, configData))
    {
      if "log_dir" !in configData {
        return Err(KeyError);
      }
      if !configData["log_dir"].CText? {
        return Err(TypeError);
      }
      if !skip {
        WriteConfig();
        WriteSettings();
      }
      return Ok(());
    }
  }

  /**
   * Loading an existing configuration and then finishing writes nothing:
   * the configuration, the file name, the settings beyond `last_config_file`
   * and the saved file all stay as they were.
   */
  method LoadThenFinish(w: ConfigurationWizard, selected: string) returns (r: Result<()>)
    modifies w
    ensures w.skip && w.closed && w.configFilepath == selected
    ensures w.configData == old(w.configData) && w.configFilename == old(w.configFilename)
    ensures w.settings == old(w.settings)["last_config_file" := CText(selected)]
    ensures w.saved == old(w.saved)
  {
    w.ConfigLoadDialog(true, selected);
    r := w.SaveConfig();
  }

  /**
   * The settings keep the wizard's own tri-state option from when it was
   * opened, while the configuration gets the checkbox page's: toggling the
   * option on the page changes only the file.
   */
  method TristateCopiesDiverge(w: ConfigurationWizard) returns (r: Result<()>)
    requires !w.skip && !w.tristateCheckboxes
    requires "log_dir" in w.configData && w.configData["log_dir"].CText?
    modifies w, w.cboxPage
    ensures r.Ok?
    ensures "tristate_checkboxes" in w.configData && w.configData["tristate_checkboxes"] == CBool(true)
    ensures "tristate_checkboxes" in w.settings && w.settings["tristate_checkboxes"] == CBool(false)
  {
    w.cboxPage.UpdateTristateCheckboxesState(2);
    r := w.SaveConfig();
  }
}
