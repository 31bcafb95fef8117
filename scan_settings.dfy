/**
 * The scan settings (WP_Defender\Model\Setting\Scan): which checks a scan
 * runs, the size limit of the files it reads, and the labels the settings
 * page shows for them. The settings are a plain record here; how the
 * settings base class loads and saves them is not part of this model.
 */
module ScanSettings {
  import opened Wrappers

  /** The table the settings are stored under. */
  const Table: string := "wd_scan_settings"

  datatype Settings = Settings(
    integrityCheck: bool,  // compare WordPress core files with the released ones
    scanMalware: bool,     // run the suspicious-code signatures over wp-content
    checkKnownVuln: bool,  // look plugins and themes up in the vulnerability list
    filesize: int)         // the "Maximum included filesize" limit (its unit is not stated in the settings model)

  /** The values a fresh settings object starts with. */
  function Defaults(): Settings {
    Settings(integrityCheck := true, scanMalware := false, checkKnownVuln := true, filesize := 10)
  }

  /** A setting's value, as the settings array holds it. */
  datatype SettingValue = Flag(b: bool) | Number(n: int)

  /** The settings' keys, in the order the class declares them. */
  const FieldNames: seq<string> := ["integrity_check", "scan_malware", "check_known_vuln", "filesize"]

  /** The value stored under a settings key; `None` for a key that is not a setting. */
  function FieldValue(s: Settings, name: string): (v: Option<SettingValue>)
    ensures v.Some? <==> name in FieldNames
    ensures name == "filesize" ==> v == Some(Number(s.filesize))
    ensures name in FieldNames && name != "filesize" ==> v.Some? && v.value.Flag?
  {
    if name == "integrity_check" then Some(Flag(s.integrityCheck))
    else if name == "scan_malware" then Some(Flag(s.scanMalware))
    else if name == "check_known_vuln" then Some(Flag(s.checkKnownVuln))
    else if name == "filesize" then Some(Number(s.filesize))
    else None
  }

  /** The label table of labels(), in its order (the English texts; translation is left out). */
  const LabelTable: seq<(string, string)> := [
    ("integrity_check", "Scan WordPress Core"),
    ("check_known_vuln", "Scan Plugins & Themes"),
    ("scan_malware", "Scan Suspicious Code"),
    ("filesize", "Maximum included filesize")]

  /** The label stored under `key` in a key-to-label list; `None` when the key has none. */
  function LookupLabel(table: seq<(string, string)>, key: string): (r: Option<string>)
    ensures r.None? <==> forall i :: 0 <= i < |table| ==> table[i].0 != key
    ensures r.Some? ==> exists i :: 0 <= i < |table| && table[i] == (key, r.value)
    decreases |table|
  {
    if table == [] then None
    else if table[0].0 == key then Some(table[0].1)
    else
      var rest := LookupLabel(table[1..], key);
      assert forall i :: 1 <= i < |table| ==> table[i] == table[1..][i - 1];
      rest
  }

  /** What labels() returns: the whole table, one label, or null. */
  datatype LabelsResult = AllLabels(table: seq<(string, string)>) | Label(text: string) | NoLabel

  /** labels($key): the whole table without a key, else the key's label, or null for an unknown key. */
  function Labels(key: Option<string>): (r: LabelsResult)
    ensures key.None? <==> r.AllLabels?
    ensures key.None? ==> r.table == LabelTable
    ensures key.Some? && r.Label? ==> (key.value, r.text) in LabelTable
    ensures key.Some? ==> (r.NoLabel? <==> forall i :: 0 <= i < |LabelTable| ==> LabelTable[i].0 != key.value)
  {
    if key.None? then AllLabels(LabelTable)
    else
      var found := LookupLabel(LabelTable, key.value);
      if found.Some? then Label(found.value) else NoLabel
  }

  /**
   * The labels cover the settings exactly: a key has a label if and only if
   * it names a setting, and asking for one key gives the label the whole
   * table lists for it.
   */
  lemma LabelsCoverSettings(s: Settings, key: string)
    ensures Labels(Some(key)).Label? <==> FieldValue(s, key).Some?
    ensures Labels(Some(key)).Label? ==> LookupLabel(Labels(None).table, key) == Some(Labels(Some(key)).text)
  {
    if key in FieldNames {
      assert LabelTable[0].0 == "integrity_check";
      assert LabelTable[1].0 == "check_known_vuln";
      assert LabelTable[2].0 == "scan_malware";
      assert LabelTable[3].0 == "filesize";
    }
  }

  /** A default scan checks the core and the plugins and themes, not the content, with a file size limit of 10. */
  lemma DefaultsEnabledChecks()
    ensures forall name :: name in FieldNames && FieldValue(Defaults(), name) == Some(Flag(true))
              <==> name == "integrity_check" || name == "check_known_vuln"
    ensures FieldValue(Defaults(), "filesize") == Some(Number(10))
  {
  }
}
