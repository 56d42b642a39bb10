/**
 * The parts of a YAML configuration that the session logic reads, and the
 * values the configuration wizards store under `config_data` keys.
 */
module Config {
  import opened Wrappers

  /** One radio-button group as `get_group_data` reports it. */
  datatype RadioGroupData = RadioGroupData(title: string, labels: seq<string>)

  /** A value written under a key of `config_data`. */
  datatype ConfigValue =
    | CBool(b: bool)
    | CInt(i: int)
    | CText(t: string)
    | CLabels(labels: seq<string>)
    | CGroups(groups: seq<RadioGroupData>)
    | CPaths(paths: map<string, string>)

  type ConfigData = map<string, ConfigValue>

  /** The configuration keys the main window reads with `config.get(key, default)`. */
  datatype AppConfig = AppConfig(
    checkboxes: seq<string>,
    radiobuttons: seq<RadioGroupData>,
    conflictResolution: Option<bool>,
    maxBackups: Option<int>)
  {
    /** `config.get('max_backups', 10)`. */
    function MaxBackups(): int
    {
      maxBackups.GetOr(10)
    }

    /** `config.get('conflict_resolution', False)`. */
    function ConflictMode(): bool
    {
      conflictResolution.GetOr(false)
    }

    /** The group titles, which key the radio-group dictionaries. */
    function Titles(): (r: seq<string>)
      ensures |r| == |radiobuttons|
      ensures forall k :: 0 <= k < |r| ==> r[k] == radiobuttons[k].title
    {
      seq(|radiobuttons|, k requires 0 <= k < |radiobuttons| => radiobuttons[k].title)
    }
  }
}
