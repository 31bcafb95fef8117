# Defender scan model and upgrader, in Dafny

This project models the core of the Defender security plugin for WordPress.
It covers three parts:

- **The scan model** (`WP_Defender\Model\Scan`). This covers scan runs and their statuses and the
  issues (scan items) a scan finds. It covers how those issues are sorted into active and ignored
  and counted by kind, and the progress percentage. It covers the whitelist of
  configuration and hidden files. It covers the global ignore index: a site option
  holding the file or slug names of ignored issues as a PHP array. The
  ORM becomes a `Store` object with two tables and the option. The operations that
  write rows or the option are methods on the `Scan` class. The queries they rely
  on are functions over the table values.
- **The scan settings** (`WP_Defender\Model\Setting\Scan`). This covers the default checks, the file size
  limit and the labels of the settings page.
- **The upgrader** (`WP_Defender\Upgrader`). This covers `run()`, which records the database version
  on install, or runs migrations on upgrade. These migrations show the new-features
  notice, move the 2.2–2.4 configs to the new structure, and move the legacy security
  headers out of the hardener settings. The WordPress options are a `Site`
  object. Each step is a method proved equal to a function of the old site
  state, and the properties of the upgrade are proved about those functions.

The PHP built-ins the core relies on are modelled in their own modules:
- `PhpArrays`: integer-keyed arrays with `[]=`, `array_search`, `unset`,
  `array_unique` and `array_filter`.
- `PhpStrings`: `strtolower`, `stristr`, `explode`, `implode` and the integer
  string conversions.
- `PhpValues`: decoded JSON values with `isset`, `empty`, `(int)` and the
  PHP 8 `TypeError` raised for an array given where a string is expected.

`Sequences.Filter` is the `WHERE` clause of a query.

## Model

| member | source | states |
|---|---|---|
| ScanModel.GetIssues | wp-content/plugins/defender-security/src/model/scan.php:125-140 | an item is returned iff it belongs to the scan and passes the type and status filters; a filter applies only when it is one of the known constants |
| ScanModel.UnknownFiltersIgnored | wp-content/plugins/defender-security/src/model/scan.php:130-139 | a type or status outside the known constants returns the same list as giving no filter |
| ScanModel.TypeFilterSelects | wp-content/plugins/defender-security/src/model/scan.php:130-136 | filtering by a known type returns exactly the scan's issues of that type, in table order |
| ScanModel.PrepareSplitsByStatus | wp-content/plugins/defender-security/src/model/scan.php:90-108 | ignored = the items with status ignore, issues = the active items, in order; each count = the number of active issues of that kind, any unknown type counting as a vulnerability |
| ScanModel.PreparePartitions | wp-content/plugins/defender-security/src/model/scan.php:90-108 | every item is either ignored, an issue or has another status: the three parts add up to all items |
| ScanModel.PrepareCountsSum | wp-content/plugins/defender-security/src/model/scan.php:95-115 | core + content + vulnerability counts = the number of active issues |
| ScanModel.Prepare | wp-content/plugins/defender-security/src/model/scan.php:90-108 | every ignored entry is an item of the scan with status ignore, and every issue is one with status active |
| ScanModel.Scan.PrepareIssues | wp-content/plugins/defender-security/src/model/scan.php:82-117 | the loop's result equals Prepare of the scan's issues, and its counts add up to the issue count |
| ScanModel.Scan.ToArray | wp-content/plugins/defender-security/src/model/scan.php:269-297 | running scan: status, status text, percent and total 0; finished scan: the prepared lists and counts with total = core + content + vuln; failed scan: nothing |
| ScanModel.StatusText | wp-content/plugins/defender-security/src/model/scan.php:395-410 | a status outside the five task statuses gets the generic running text and a task status never does |
| ScanModel.StatusTextDistinguishesTasks | wp-content/plugins/defender-security/src/model/scan.php:396-407 | different task statuses get different texts |
| ScanModel.Percent | wp-content/plugins/defender-security/src/model/scan.php:420-430 | the percentage is never above 100: it is the value of the formula rounded to two decimals when that is at most 100, and 100 otherwise |
| ScanModel.PercentInRange | wp-content/plugins/defender-security/src/model/scan.php:420-430 | for a task position 1..total and a task percent 0..100 the result lies in 0..100 and equals the rounded formula |
| ScanModel.Round2Close | wp-content/plugins/defender-security/src/model/scan.php:424 | rounding to two decimals moves a value by at most 0.005 |
| ScanModel.Round2Monotone | wp-content/plugins/defender-security/src/model/scan.php:424 | rounding to two decimals keeps the order of any two values, negative ones included, and keeps a non-negative value non-negative |
| ScanModel.Round2FixedPoints | wp-content/plugins/defender-security/src/model/scan.php:424 | rounding leaves 0 and 100 as they are |
| ScanModel.Scan.CalculatePercent | wp-content/plugins/defender-security/src/model/scan.php:420-430 | stores and returns Percent(total_tasks, task percent, pos), never above 100 |
| ScanModel.WhitelistIgnoresCase | wp-content/plugins/defender-security/src/model/scan.php:464-473 | whether a path is whitelisted does not depend on the case of its letters |
| ScanModel.WhitelistedByName | wp-content/plugins/defender-security/src/model/scan.php:437-473 | a path containing any of the twelve whitelisted names is whitelisted |
| ScanModel.IsIssueIgnored | wp-content/plugins/defender-security/src/model/scan.php:194-198 | true iff some entry of the ignore index holds the name |
| ScanModel.IndexAfterIgnore | wp-content/plugins/defender-security/src/model/scan.php:214-223 | the new index has distinct non-falsy names, keys still increasing; its names are the old non-falsy names plus the issue's file (or else slug) name when it has one |
| ScanModel.IndexAfterUnignore | wp-content/plugins/defender-security/src/model/scan.php:173-182 | as written: the new index keeps only old entries, with distinct non-falsy names, keys still increasing |
| ScanModel.IndexAfterUnignoreIntended | wp-content/plugins/defender-security/src/model/scan.php:173-182 | corrected: the new index keeps only old entries, with distinct non-falsy names, keys still increasing |
| ScanModel.Scan.AddToIgnoreList | wp-content/plugins/defender-security/src/model/scan.php:214-223 | pushing the name and cleaning up the list gives IndexAfterIgnore |
| ScanModel.Scan.RemoveFromIgnoreList | wp-content/plugins/defender-security/src/model/scan.php:173-182 | unsetting the searched key and cleaning up the list gives IndexAfterUnignore |
| ScanModel.Scan.IsIssueWhitelisted | wp-content/plugins/defender-security/src/model/scan.php:464-473 | true iff some whitelisted name occurs in the path, ignoring case |
| ScanModel.Scan.ContainsAnyFile | wp-content/plugins/defender-security/src/model/scan.php:466-472 | the loop returns true iff one of the names occurs in the path, ignoring case |
| ScanModel.IgnoreAddsName | wp-content/plugins/defender-security/src/model/scan.php:214-223 | after ignoring, the index holds the issue's file (or else slug) name unless it is falsy, plus the earlier non-falsy names; values are distinct and keys increase |
| ScanModel.NoNameOnlyNormalizes | wp-content/plugins/defender-security/src/model/scan.php:175-182 | an issue with neither file nor slug leaves an already clean index unchanged, whether it is ignored or un-ignored |
| ScanModel.UnignoreRemovesName | wp-content/plugins/defender-security/src/model/scan.php:173-182 | un-ignoring an issue whose name is in a clean index removes exactly that name |
| ScanModel.UnsetDropsOneValue | wp-content/plugins/defender-security/src/model/scan.php:176 | in a clean index, unsetting the key of one entry loses exactly that entry's name |
| ScanModel.IgnoreUnignoreRoundTrip | wp-content/plugins/defender-security/src/model/scan.php:165-225 | ignoring an issue whose name is not yet indexed and then un-ignoring it restores the index |
| ScanModel.UnignoreMissDropsKeyZero | wp-content/plugins/defender-security/src/model/scan.php:175-178 | as written: un-ignoring a name that is not in a clean index unsets key 0, so the name stored under key 0 is lost |
| ScanModel.UnignoreMissExample | wp-content/plugins/defender-security/src/model/scan.php:175-178 | as written: un-ignoring other.php in the index [0 => wp-config.php, 1 => index.php] leaves [1 => index.php] |
| ScanModel.UnignoreIntendedKeepsOthers | wp-content/plugins/defender-security/src/model/scan.php:175-178 | corrected: un-ignoring removes the issue's name and keeps every other name |
| ScanModel.Scan.IgnoreIssue | wp-content/plugins/defender-security/src/model/scan.php:205-225 | false for an unknown id; otherwise the item's status becomes ignore and the index becomes IndexAfterIgnore; nothing else changes |
| ScanModel.Scan.UnignoreIssue | wp-content/plugins/defender-security/src/model/scan.php:165-184 | false for an unknown id; otherwise the item's status becomes active and the index becomes IndexAfterUnignore (as written); nothing else changes |
| ScanModel.FindItem | wp-content/plugins/defender-security/src/model/scan.php:232-251 | none iff no item has the id; otherwise the position of the first item with that id, in any scan |
| ScanModel.Scan.RemoveIssue | wp-content/plugins/defender-security/src/model/scan.php:260-263 | deletes exactly the items with that id |
| ScanModel.GetActive | wp-content/plugins/defender-security/src/model/scan.php:341-348 | a scan of the table whose status is neither finish nor error; none iff no scan is running |
| ScanModel.GetLast | wp-content/plugins/defender-security/src/model/scan.php:355-360 | a finished scan with the greatest id; none iff no scan is finished |
| ScanModel.SortByIdDesc | wp-content/plugins/defender-security/src/model/scan.php:368-369 | order_by id desc: sorted by decreasing id and a permutation of its input |
| ScanModel.GetLastAll | wp-content/plugins/defender-security/src/model/scan.php:365-370 | exactly the finished scans, by decreasing id |
| ScanModel.GetLastHeadsGetLastAll | wp-content/plugins/defender-security/src/model/scan.php:355-370 | get_last is none exactly when get_last_all is empty, and otherwise has the same id as its first element |
| ScanModel.CreateKeepsOneRunning | wp-content/plugins/defender-security/src/model/scan.php:305-320 | adding a new scan when none runs leaves exactly one running scan, the new one |
| ScanModel.GetActiveOfFinished | wp-content/plugins/defender-security/src/model/scan.php:341-348 | a running scan added after scans that have all stopped is the one get_active finds |
| ScanModel.Scan.Create | wp-content/plugins/defender-security/src/model/scan.php:305-320 | refused with "A scan is already in progress" while a scan runs, with nothing changed; otherwise a fresh scan in status init is appended and it is the only running one |
| ScanModel.DeleteCascades | wp-content/plugins/defender-security/src/model/scan.php:325-334 | after deleting a scan, get_issues finds no items of it and the same items of every other scan |
| ScanModel.RemoveIssuesOf | wp-content/plugins/defender-security/src/model/scan.php:328-330 | an item stays iff it does not belong to the scan |
| ScanModel.RemoveScan | wp-content/plugins/defender-security/src/model/scan.php:331-333 | a scan row stays iff its id is not the scan's |
| ScanModel.RemoveScanKeepsOneRunning | wp-content/plugins/defender-security/src/model/scan.php:331-333 | deleting a scan row keeps at most one scan running |
| ScanModel.Scan.Delete | wp-content/plugins/defender-security/src/model/scan.php:325-334 | removes exactly the scan's items and then its row; the ignore index is untouched |
| ScanModel.Scan.AddItem | wp-content/plugins/defender-security/src/model/scan.php:379-388 | appends one item of this scan with the given type, data and status, under the next id |
| PhpArrays.NextKey | wp-content/plugins/defender-security/src/model/scan.php:218 | `$a[] = $v` uses a key above every key in the array |
| PhpArrays.Search | wp-content/plugins/defender-security/src/model/scan.php:176 | array_search is false iff the value is absent, else the key of an entry holding it |
| PhpArrays.SearchFindsFirst | wp-content/plugins/defender-security/src/model/scan.php:176 | array_search returns the key of the first entry holding the value |
| PhpArrays.Unset | wp-content/plugins/defender-security/src/model/scan.php:176 | unset drops exactly the entry under the key and keeps the order of the others |
| PhpArrays.Unique | wp-content/plugins/defender-security/src/model/scan.php:181 | array_unique keeps entries of the input and loses no value |
| PhpArrays.UniqueProperties | wp-content/plugins/defender-security/src/model/scan.php:181 | array_unique leaves distinct values, each under the key of its first occurrence, in key order |
| PhpArrays.FilterFalsy | wp-content/plugins/defender-security/src/model/scan.php:182 | array_filter keeps exactly the entries whose value is not "" or "0" |
| PhpArrays.Normalize | wp-content/plugins/defender-security/src/model/scan.php:181-182 | the clean-up leaves distinct non-falsy values, exactly the non-falsy values of its input |
| PhpArrays.NormalizeIdempotent | wp-content/plugins/defender-security/src/model/scan.php:222-223 | a clean index is left unchanged by the clean-up |
| ScanSettings.FieldValue | wp-content/plugins/defender-security/src/model/setting/scan.php:14-30 | a key has a value iff it is one of the four settings; filesize is a number and the others are flags |
| ScanSettings.DefaultsEnabledChecks | wp-content/plugins/defender-security/src/model/setting/scan.php:14-30 | by default exactly the core and the plugin and theme checks are on, and the file size limit is 10 |
| ScanSettings.LookupLabel | wp-content/plugins/defender-security/src/model/setting/scan.php:48 | `isset($labels[$key])`: none iff no entry has the key, else the label listed under it |
| ScanSettings.Labels | wp-content/plugins/defender-security/src/model/setting/scan.php:39-52 | without a key: the whole table in order; with a key: its label, or null iff the table has no such key |
| ScanSettings.LabelsCoverSettings | wp-content/plugins/defender-security/src/model/setting/scan.php:39-52 | a key has a label iff it names a setting, and that label is the one in the whole table |
| PhpStrings.Lower | wp-content/plugins/defender-security/src/upgrader.php:27 | strtolower maps each character and leaves no upper-case ASCII letter |
| PhpStrings.LowerIdempotent | wp-content/plugins/defender-security/src/upgrader.php:99 | lowering twice is lowering once |
| PhpStrings.ImplodeExplodeReplaces | wp-content/plugins/defender-security/src/upgrader.php:32-33 | imploding with a newline what was exploded on a space turns every space into a newline |
| PhpStrings.IgnoreCaseOfLowered | wp-content/plugins/defender-security/src/model/scan.php:467 | stristr gives the same answer on a lowered path |
| PhpStrings.IntToStringRoundTrip | wp-content/plugins/defender-security/src/upgrader.php:69 | reading an integer back from its decimal text gives the integer |
| PhpValues.Set | wp-content/plugins/defender-security/src/upgrader.php:168-177 | `$a['k'] = $x` makes the key read x and leaves every other key as it was |
| PhpValues.SetSameValue | wp-content/plugins/defender-security/src/upgrader.php:174-176 | writing back the value a key already holds leaves the array unchanged, so copying is_active into the copied config is a no-op |
| PhpValues.ToStr | wp-content/plugins/defender-security/src/upgrader.php:27 | a string parameter fails with a TypeError iff it is given an array; a string is passed through |
| PhpValues.ElemStrings | wp-content/plugins/defender-security/src/upgrader.php:104 | implode joins the string form of each value in order, "Array" for a nested array |
| PhpValues.IntCastReadsBack | wp-content/plugins/defender-security/src/upgrader.php:69 | (int) of an integer or of its decimal text is that integer |
| Upgrading.LoweredMode | wp-content/plugins/defender-security/src/upgrader.php:26-28 | false when the mode is not set or empty; a TypeError iff it is a non-empty array; otherwise the lower-cased mode |
| Upgrading.XFrame | wp-content/plugins/defender-security/src/upgrader.php:23-39 | an empty legacy entry changes nothing; only the X-Frame fields change; the only failure is the TypeError |
| Upgrading.XFrameModes | wp-content/plugins/defender-security/src/upgrader.php:26-38 | allow-from stores the URLs with spaces turned into newlines and fails iff the URLs are an array; sameorigin and deny are copied; another mode keeps the old mode; the header is switched on |
| Upgrading.Xss | wp-content/plugins/defender-security/src/upgrader.php:42-52 | only the XSS fields change, and only for a mode that is exactly sanitize or block, which is copied and switches the header on |
| Upgrading.ContentType | wp-content/plugins/defender-security/src/upgrader.php:55-62 | only the content-type fields change: a non-empty mode is copied and switches the header on |
| Upgrading.StrictTransport | wp-content/plugins/defender-security/src/upgrader.php:65-82 | only the HSTS fields change: preload is cast to int, include_subdomain is 1 iff it is 'true', '1' or 1, the cache duration is copied, the header is on |
| Upgrading.Referrer | wp-content/plugins/defender-security/src/upgrader.php:85-92 | only the referrer fields change: a non-empty mode is copied and switches the header on |
| Upgrading.OriginUrls | wp-content/plugins/defender-security/src/upgrader.php:103-109 | an array is joined by newlines; a string has its spaces turned into newlines; any other value leaves the URLs alone |
| Upgrading.FeaturePolicy | wp-content/plugins/defender-security/src/upgrader.php:95-113 | only the feature-policy fields change; a TypeError iff the mode is a non-empty array; a set mode is stored as strtolower of it and switches the header on; the URLs are set from the values iff the lowered mode is origins and the values are present and an array or a string, and are kept otherwise |
| Upgrading.MigrateHeaderFields | wp-content/plugins/defender-security/src/upgrader.php:22-113 | the migration fails iff the X-Frame or the Feature-Policy block raises a TypeError |
| Upgrading.MigrationIsPerHeader | wp-content/plugins/defender-security/src/upgrader.php:22-113 | each migrated field is what its own header's block gives on the defaults, whatever the other blocks did before it |
| Upgrading.SecurityHeaders.MigrateXFrame | wp-content/plugins/defender-security/src/upgrader.php:23-39 | the block leaves the fields XFrame gives, or returns its TypeError |
| Upgrading.SecurityHeaders.MigrateXss | wp-content/plugins/defender-security/src/upgrader.php:42-52 | the block leaves the fields Xss gives |
| Upgrading.SecurityHeaders.MigrateContentType | wp-content/plugins/defender-security/src/upgrader.php:55-62 | the block leaves the fields ContentType gives |
| Upgrading.SecurityHeaders.MigrateStrictTransport | wp-content/plugins/defender-security/src/upgrader.php:65-82 | the block leaves the fields StrictTransport gives |
| Upgrading.SecurityHeaders.MigrateReferrer | wp-content/plugins/defender-security/src/upgrader.php:85-92 | the block leaves the fields Referrer gives |
| Upgrading.SecurityHeaders.MigrateFeaturePolicy | wp-content/plugins/defender-security/src/upgrader.php:95-113 | the block leaves the fields FeaturePolicy gives, or returns its TypeError |
| Upgrading.HeadersValue | wp-content/plugins/defender-security/src/upgrader.php:115 | the saved settings are a non-empty array |
| Upgrading.MigrateSecurityHeadersSpec | wp-content/plugins/defender-security/src/upgrader.php:10-119 | nothing changes when the new settings exist, the legacy option is already an array, the decoded option is not an array or its data is empty; otherwise it fails iff the header migration fails, and on success saves exactly the migrated fields of the defaults under the settings option |
| Upgrading.MigrateSecurityHeadersOnce | wp-content/plugins/defender-security/src/upgrader.php:13-15 | a second migration after one that wrote the settings changes nothing |
| Upgrading.Upgrader.MigrateSecurityHeaders | wp-content/plugins/defender-security/src/upgrader.php:10-119 | the method's new options and error are those of MigrateSecurityHeadersSpec |
| Upgrading.ShowNewFeaturesSpec | wp-content/plugins/defender-security/src/upgrader.php:127-136 | false changes nothing; otherwise the notice flag is set iff the stored version is below the plugin's or it was already set; nothing else changes |
| Upgrading.Upgrader.MaybeShowNewFeatures | wp-content/plugins/defender-security/src/upgrader.php:127-136 | the method's new options are ShowNewFeaturesSpec of the old ones |
| Upgrading.MigratedConfig | wp-content/plugins/defender-security/src/upgrader.php:168-177 | the config's configs are upgraded, is_active is kept, strings is the module strings of the config with its configs upgraded, and every other key keeps its value |
| Upgrading.ConfigsLoop | wp-content/plugins/defender-security/src/upgrader.php:161-183 | the loop removes no option: every option present before it is present after it |
| Upgrading.ConfigsLoopKeepsOthers | wp-content/plugins/defender-security/src/upgrader.php:161-183 | options whose names are not config names are untouched by the loop |
| Upgrading.ConfigsLoopStores | wp-content/plugins/defender-security/src/upgrader.php:163-181 | a config that needs migration is stored in its migrated form unless a later config has the same name |
| Upgrading.MigrateConfigsSpec | wp-content/plugins/defender-security/src/upgrader.php:145-186 | nothing changes outside versions 2.2 to 2.4 or when the backup is empty; otherwise restore_data is handed the upgraded backup |
| Upgrading.MigrateConfigsTouches | wp-content/plugins/defender-security/src/upgrader.php:155-179 | when it acts, the onboarding flag is set and every option that is not a config keeps the value restore_data left |
| Upgrading.Upgrader.MigrateConfig | wp-content/plugins/defender-security/src/upgrader.php:168-177 | the loop body builds exactly MigratedConfig of the config |
| Upgrading.Upgrader.MigrateConfigs | wp-content/plugins/defender-security/src/upgrader.php:145-186 | the loop leaves the site state MigrateConfigsSpec gives |
| Upgrading.Upgrader.Run | wp-content/plugins/defender-security/src/upgrader.php:191-206 | the method's result and new site state are those of RunSpec |
| Upgrading.RunSpec | wp-content/plugins/defender-security/src/upgrader.php:191-206 | install iff no version is stored; nothing to do, with nothing changed, iff the stored version is the plugin's; a stored array aborts with the TypeError and changes nothing; an abort is always that TypeError |
| Upgrading.RunSettlesVersion | wp-content/plugins/defender-security/src/upgrader.php:191-206 | unless a TypeError stops it, run() leaves the stored version equal to the plugin's |
| Upgrading.RunIdempotent | wp-content/plugins/defender-security/src/upgrader.php:191-206 | a second run() after a completed one finds the version current and changes nothing |
| Upgrading.RunInstallOnlyRecordsVersion | wp-content/plugins/defender-security/src/upgrader.php:192-196 | a site without a version only gets the plugin's version |
| Upgrading.RunFromModernVersion | wp-content/plugins/defender-security/src/upgrader.php:197-205 | from 2.4 or later only the notice flag and the version change |
| Upgrading.RunFromLegacyVersion | wp-content/plugins/defender-security/src/upgrader.php:200-205 | below 2.2 the headers are migrated and the configs are not |
| Upgrading.RunFromConfigsWindow | wp-content/plugins/defender-security/src/upgrader.php:197-205 | from 2.2 up to 2.4: the notice flag, then the config migration, then the security-headers migration exactly when the version is below 2.2.9 (an error in it aborts with the configs already migrated), then the new version |
| Upgrading.RunSkipsHeadersOption | wp-content/plugins/defender-security/src/upgrader.php:200-202 | for every stored version, a run that does not migrate the headers leaves the security-headers option as it was, given that no config, restore_data or other upgrader option writes it |
| Upgrading.RunAbortKeepsVersion | wp-content/plugins/defender-security/src/upgrader.php:200-205 | a TypeError stops run() before the version is written, so the old version stays, given that restore_data does not write the version option |

## Left out

- Loose comparison: `in_array` without `true`, `array_search` without `true` (scan.php:175-177) and `switch` compare with PHP's `==`. The model compares strings exactly. The two differ only when both sides are numeric strings ("1e1" == "10"). Statuses, types and mode names are never numeric. A plugin or theme slug can be numeric, and then the model may miss an entry that PHP 8 would find.
- ScanModel.Scan.CalculatePercent: requires `total_tasks != 0`, where PHP 8 throws `DivisionByZeroError`. Floats are exact reals, so the model has no rounding error, and `round` rounds halves away from zero.
- ScanModel.Scan.ToArray: `last_scan` is the raw `date_start`, because `format_date_time` (the Formats trait) is not part of this model. An item stands for its `to_array()` output, because `Scan_Item::to_array` is not part of this model either.
- `attach_behavior` in `get_issues` and `get_issue` is left out. The behaviour classes only add methods and change no stored data.
- ScanModel.Scan.Create: both dates come from one `now` parameter, where the source calls `gmdate` twice. The `WP_Error` is modelled by its message only. Error_Code is not part of this model.
- ScanModel.Scan.Create: requests are modelled one at a time. `create()` reads `get_active()` and then saves with no lock, so two concurrent requests can both start a scan. `Store.Valid`, and with it `AtMostOneRunning`, holds only under that one-at-a-time assumption.
- Row ids come from an auto-increment counter in the `Store`. `add_item` returns the ORM's save result, which is not modelled.
- The ORM returns rows in table order. `first()` returns the first of them, and the order of equal ids under `order_by` is not modelled.
- `Scan_Item`'s constant values are given as the strings its class declares. Only their distinctness matters to the model.
- `raw_data` is modelled only by the `file` and `slug` keys the ignore index reads.
- Text passes through `__()`. Translation is left out and the English texts are used.
- The site-option cache, multisite and `update_site_option` return values are left out. Options are a map from name to value.
- `version_compare` is the parameter `versionLe`. Lemmas that depend on its order assume a total preorder.
- `json_decode` is the parameter `jsonDecode`. Floating-point JSON numbers are not part of this model.
- Security_Headers is not part of this model. The upgrader receives its option name and its default fields as parameters, and its saved form is the array of its sixteen fields.
- Backup_Settings and Config_Adapter are not part of this model. `backup_data`, `get_configs`, `verify_config_data`, `check_for_new_structure`, `upgrade` and `import_module_strings` are parameters of `ConfigComponent`. `restore_data` is the parameter `restore`, a function from the data and the options to the options it leaves; the data it received is also recorded, in order. The configs `get_configs` returns are a fixed list, so a change `restore_data` might make to them is not modelled.
- `wd_di()` is left out, and `PHP_EOL` is taken to be "\n".
- PhpValues.IntCast: leading-space and decimal-digit strings are read as PHP reads them. Exponent notation, hexadecimal and overflow past `PHP_INT_MAX` are not modelled.
- Upgrading.Upgrader.MaybeShowNewFeatures: takes a string or false (`None`), the only values `run()` passes it. Other argument types are not modelled.
- Upgrading.Upgrader.Run: the value `run()` returns (the update result on install, null otherwise) is modelled as the path it took. Warnings ("Array to string conversion") are left out. A `TypeError` is modelled as `Aborted` with the site state at the point of the error.

## Findings

| source | as written | input that shows it | evidently intended | confidence | as-written member | corrected member |
|---|---|---|---|---|---|---|
| wp-content/plugins/defender-security/src/model/scan.php:175-178 | `unset($ignore_lists[array_search($name, $ignore_lists)])` runs even when `array_search` returns false, and false as a key is key 0 | ignore index `[0 => 'wp-config.php', 1 => 'index.php']`, un-ignoring an issue whose file is `other.php`: `wp-config.php` leaves the index | remove an entry only when its value is the issue's name | high; not executed | ScanModel.UnignoreMissDropsKeyZero | ScanModel.UnignoreIntendedKeepsOthers |

`ScanModel.Scan.UnignoreIssue` models the code as written, with `IndexAfterUnignore`. The corrected update is `ScanModel.IndexAfterUnignoreIntended`. The lemma in the last cell proves that it removes exactly the issue's name.
