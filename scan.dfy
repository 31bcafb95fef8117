/**
 * The Defender scan model (WP_Defender\Model\Scan): scan runs, the issues a
 * scan finds, the global ignore index and the progress percentage.
 *
 * The ORM becomes two in-memory tables held by a `Store`: the scans table and
 * the scan-items table, each a sequence of rows in table order. The site
 * option `defender_scan_ignore_index` is a PHP array with integer keys,
 * kept in the same `Store`. Queries are functions over the table values;
 * operations that write rows or the option are methods that modify the
 * `Store`.
 */
module ScanModel {
  import opened Wrappers
  import opened Sequences
  import opened PhpStrings
  import opened PhpArrays

  // Scan::STATUS_*. A running scan also takes the name of its current task as status.
  const StatusInit: string := "init"
  const StatusError: string := "error"
  const StatusFinish: string := "finish"

  // Scan_Item::STATUS_* and Scan_Item::TYPE_*.
  const ItemActive: string := "active"
  const ItemIgnore: string := "ignore"
  const TypeVulnerability: string := "vulnerability"
  const TypeIntegrity: string := "core_integrity"
  const TypeSuspicious: string := "malware"

  /** The two keys of an issue's raw_data the ignore index reads; `None` when not isset. */
  datatype RawData = RawData(file: Option<string>, slug: Option<string>)

  /** A row of the scan-items table. */
  datatype ScanItem = ScanItem(id: nat, parentId: nat, itemType: string, status: string, rawData: RawData)

  /** A row of the scans table. */
  datatype ScanRow = ScanRow(
    id: nat,
    status: string,
    dateStart: string,
    dateEnd: string,
    percent: real,
    totalTasks: int,
    taskCheckpoint: string,
    isAutomation: bool)

  /** A scan whose status is neither finish nor error is still running. */
  predicate IsRunning(status: string) {
    status != StatusFinish && status != StatusError
  }

  // ---------------------------------------------------------------------------
  // get_issues

  predicate IsKnownType(t: string) {
    t == TypeVulnerability || t == TypeIntegrity || t == TypeSuspicious
  }

  predicate IsKnownItemStatus(s: string) {
    s == ItemIgnore || s == ItemActive
  }

  /** The type filter applies only when one of the three known types is given. */
  predicate TypeMatches(itemType: Option<string>, x: ScanItem) {
    !(itemType.Some? && IsKnownType(itemType.value)) || x.itemType == itemType.value
  }

  /** The status filter applies only when ignore or active is given. */
  predicate StatusMatches(status: Option<string>, x: ScanItem) {
    !(status.Some? && IsKnownItemStatus(status.value)) || x.status == status.value
  }

  /** get_issues($type, $status) of the scan `scanId`: its items, in table order, filtered by the known filters only. */
  function GetIssues(items: seq<ScanItem>, scanId: nat, itemType: Option<string>, status: Option<string>): (r: seq<ScanItem>)
    ensures forall x :: x in r <==> x in items && x.parentId == scanId && TypeMatches(itemType, x) && StatusMatches(status, x)
  {
    Filter(items, (x: ScanItem) => x.parentId == scanId && TypeMatches(itemType, x) && StatusMatches(status, x))
  }

  /** A type or status filter that is not one of the known constants is dropped: the result is as with no filter. */
  lemma UnknownFiltersIgnored(items: seq<ScanItem>, scanId: nat, itemType: Option<string>, status: Option<string>)
    requires itemType.Some? ==> !IsKnownType(itemType.value)
    requires status.Some? ==> !IsKnownItemStatus(status.value)
    ensures GetIssues(items, scanId, itemType, status) == GetIssues(items, scanId, None, None)
  {
    FilterSameOn(items,
      (x: ScanItem) => x.parentId == scanId && TypeMatches(itemType, x) && StatusMatches(status, x),
      (x: ScanItem) => x.parentId == scanId && TypeMatches(None, x) && StatusMatches(None, x));
  }

  /** Filtering by a type keeps exactly the scan's issues of that type. */
  lemma TypeFilterSelects(items: seq<ScanItem>, scanId: nat, t: string)
    requires IsKnownType(t)
    ensures GetIssues(items, scanId, Some(t), None)
         == Filter(GetIssues(items, scanId, None, None), (x: ScanItem) => x.itemType == t)
  {
    var all := (x: ScanItem) => x.parentId == scanId && TypeMatches(None, x) && StatusMatches(None, x);
    var typed := (x: ScanItem) => x.parentId == scanId && TypeMatches(Some(t), x) && StatusMatches(None, x);
    FilterFilter(items, all, typed);
    FilterSameOn(GetIssues(items, scanId, None, None), (x: ScanItem) => x.itemType == t, typed);
  }

  // ---------------------------------------------------------------------------
  // prepare_issues

  datatype IssueKind = Core | Malware | Vuln

  /** The switch on the issue type: an unknown type counts as a vulnerability. */
  function KindOf(itemType: string): IssueKind {
    if itemType == TypeIntegrity then Core
    else if itemType == TypeSuspicious then Malware
    else Vuln
  }

  /** What prepare_issues returns (items stand for their to_array()). */
  datatype Prepared = Prepared(ignored: seq<ScanItem>, issues: seq<ScanItem>, countCore: nat, countMalware: nat, countVuln: nat)

  /** prepare_issues over `models`, read as the loop's effect on its accumulators after each model. */
  function Prepare(models: seq<ScanItem>): (r: Prepared)
    ensures forall x :: x in r.ignored ==> x in models && x.status == ItemIgnore
    ensures forall x :: x in r.issues ==> x in models && x.status == ItemActive
    decreases |models|
  {
    if models == [] then Prepared([], [], 0, 0, 0)
    else
      var p := Prepare(models[..|models| - 1]);
      var m := models[|models| - 1];
      if m.status == ItemIgnore then p.(ignored := p.ignored + [m])
      else if m.status == ItemActive then
        match KindOf(m.itemType)
        case Core => p.(issues := p.issues + [m], countCore := p.countCore + 1)
        case Malware => p.(issues := p.issues + [m], countMalware := p.countMalware + 1)
        case Vuln => p.(issues := p.issues + [m], countVuln := p.countVuln + 1)
      else p
  }

  predicate IsIgnoredItem(x: ScanItem) { x.status == ItemIgnore }
  predicate IsActiveItem(x: ScanItem) { x.status == ItemActive }
  predicate IsOtherItem(x: ScanItem) { !IsIgnoredItem(x) && !IsActiveItem(x) }
  predicate IsCoreItem(x: ScanItem) { KindOf(x.itemType) == Core }
  predicate IsMalwareItem(x: ScanItem) { KindOf(x.itemType) == Malware }
  predicate IsVulnItem(x: ScanItem) { KindOf(x.itemType) == Vuln }

  /**
   * prepare_issues partitions the models: `ignored` holds exactly the ignored
   * ones and `issues` exactly the active ones, both in order; each count is
   * the number of active issues of its kind.
   */
  lemma {:induction false} PrepareSplitsByStatus(models: seq<ScanItem>)
    ensures Prepare(models).ignored == Filter(models, IsIgnoredItem)
    ensures Prepare(models).issues == Filter(models, IsActiveItem)
    ensures Prepare(models).countCore == |Filter(Filter(models, IsActiveItem), IsCoreItem)|
    ensures Prepare(models).countMalware == |Filter(Filter(models, IsActiveItem), IsMalwareItem)|
    ensures Prepare(models).countVuln == |Filter(Filter(models, IsActiveItem), IsVulnItem)|
    decreases |models|
  {
    if models != [] {
      var init := models[..|models| - 1];
      var m := models[|models| - 1];
      PrepareSplitsByStatus(init);
      var act := Filter(init, IsActiveItem);
      if IsActiveItem(m) {
        assert Filter(models, IsActiveItem) == act + [m];
        assert (act + [m])[..|act + [m]| - 1] == act;
      }
    }
  }

  lemma {:induction false} StatusesSplitLength(s: seq<ScanItem>)
    ensures |Filter(s, IsIgnoredItem)| + |Filter(s, IsActiveItem)| + |Filter(s, IsOtherItem)| == |s|
    decreases |s|
  {
    if s != [] {
      StatusesSplitLength(s[..|s| - 1]);
    }
  }

  /** Every model is ignored, active or neither; the three groups number |models|. */
  lemma PreparePartitions(models: seq<ScanItem>)
    ensures |Prepare(models).ignored| + |Prepare(models).issues| + |Filter(models, IsOtherItem)| == |models|
  {
    PrepareSplitsByStatus(models);
    StatusesSplitLength(models);
  }

  lemma {:induction false} KindsSplitLength(s: seq<ScanItem>)
    ensures |Filter(s, IsCoreItem)| + |Filter(s, IsMalwareItem)| + |Filter(s, IsVulnItem)| == |s|
    decreases |s|
  {
    if s != [] {
      KindsSplitLength(s[..|s| - 1]);
    }
  }

  /** The three per-type counts add up to the number of active issues. */
  lemma PrepareCountsSum(models: seq<ScanItem>)
    ensures Prepare(models).countCore + Prepare(models).countMalware + Prepare(models).countVuln
         == |Prepare(models).issues|
  {
    PrepareSplitsByStatus(models);
    KindsSplitLength(Filter(models, IsActiveItem));
  }

  // ---------------------------------------------------------------------------
  // to_array

  /** What to_array returns for a running or a finished scan. */
  datatype ScanSummary =
    | Progress(status: string, statusText: string, percent: real, countTotal: nat)
    | Finished(
        status: string,
        issuesItems: seq<ScanItem>,
        ignoredItems: seq<ScanItem>,
        lastScan: string,
        countTotal: nat,
        countCore: nat,
        countContent: nat,
        countVuln: nat)

  // ---------------------------------------------------------------------------
  // get_status_text

  const GenericRunningText: string := "The scan is running"

  /** The statuses get_status_text has a text of its own for. */
  const TaskStatuses: seq<string> := [StatusInit, "gather_fact", "core_integrity_check", "vuln_check", "suspicious_check"]

  /** get_status_text: the readable text of a status (the English text; translation is left out). */
  function StatusText(status: string): (text: string)
    ensures status !in TaskStatuses ==> text == GenericRunningText
    ensures status in TaskStatuses ==> text != GenericRunningText
  {
    if status == StatusInit then "Initializing..."
    else if status == "gather_fact" then "Gathering information..."
    else if status == "core_integrity_check" then "Analyzing WordPress Core..."
    else if status == "vuln_check" then "Checking for any published vulnerabilities in your plugins & themes..."
    else if status == "suspicious_check" then "Analyzing WordPress Content..."
    else GenericRunningText
  }

  /** Different task statuses read differently. */
  lemma StatusTextDistinguishesTasks(a: string, b: string)
    requires a in TaskStatuses && b in TaskStatuses && a != b
    ensures StatusText(a) != StatusText(b)
  {
  }

  // ---------------------------------------------------------------------------
  // calculate_percent

  /** round($x, 2): to two decimals, halves away from zero. */
  function Round2(x: real): real {
    if x >= 0.0 then ((x * 100.0 + 0.5).Floor as real) / 100.0
    else -((((-x) * 100.0 + 0.5).Floor as real) / 100.0)
  }

  /** Rounding moves a value by at most half a hundredth. */
  lemma Round2Close(x: real)
    ensures x - 0.005 <= Round2(x) <= x + 0.005
  {
  }

  lemma FloorMonotone(a: real, b: real)
    requires a <= b
    ensures a.Floor <= b.Floor
  {
  }

  /** Rounding to two decimals keeps the order of values and the sign of a non-negative one. */
  lemma Round2Monotone(x: real, y: real)
    requires x <= y
    ensures Round2(x) <= Round2(y)
    ensures 0.0 <= x ==> 0.0 <= Round2(x)
  {
    if 0.0 <= x {
      FloorMonotone(x * 100.0 + 0.5, y * 100.0 + 0.5);
    } else if y < 0.0 {
      FloorMonotone((-y) * 100.0 + 0.5, (-x) * 100.0 + 0.5);
    } else {
      FloorMonotone(0.5, (-x) * 100.0 + 0.5);
      FloorMonotone(0.5, y * 100.0 + 0.5);
    }
  }

  /** 0 and 100, the ends of the percentage range, are left as they are by rounding. */
  lemma Round2FixedPoints()
    ensures Round2(0.0) == 0.0 && Round2(100.0) == 100.0
  {
  }

  /** The unrounded overall percentage: the finished tasks' share plus this task's share of its slice. */
  function RawPercent(totalTasks: int, taskPercent: real, pos: int): real
    requires totalTasks != 0
  {
    var taskMax := 100.0 / (totalTasks as real);
    taskMax * ((pos - 1) as real) + taskPercent * taskMax / 100.0
  }

  /** The percentage calculate_percent stores: rounded to two decimals and never above 100. */
  function Percent(totalTasks: int, taskPercent: real, pos: int): (p: real)
    requires totalTasks != 0
    ensures p <= 100.0
    ensures Round2(RawPercent(totalTasks, taskPercent, pos)) <= 100.0 ==> p == Round2(RawPercent(totalTasks, taskPercent, pos))
    ensures Round2(RawPercent(totalTasks, taskPercent, pos)) > 100.0 ==> p == 100.0
  {
    var rounded := Round2(RawPercent(totalTasks, taskPercent, pos));
    if rounded > 100.0 then 100.0 else rounded
  }

  /**
   * For a task position within 1..total_tasks and a task percentage within
   * 0..100, the overall percentage lies in 0..100, the clamp never acts, and
   * the value is (100 * (pos - 1) + task_percent) / total_tasks rounded.
   */
  lemma PercentInRange(totalTasks: int, taskPercent: real, pos: int)
    requires 1 <= pos <= totalTasks
    requires 0.0 <= taskPercent <= 100.0
    ensures 0.0 <= Percent(totalTasks, taskPercent, pos) <= 100.0
    ensures Percent(totalTasks, taskPercent, pos)
         == Round2((100.0 * ((pos - 1) as real) + taskPercent) / (totalTasks as real))
  {
    var t := totalTasks as real;
    var m := 100.0 / t;
    var k := (pos - 1) as real;
    var raw := RawPercent(totalTasks, taskPercent, pos);
    assert m * t == 100.0;
    assert raw == m * k + taskPercent * m / 100.0;
    assert raw == (100.0 * k + taskPercent) / t by {
      assert (100.0 * k + taskPercent) / t == 100.0 * k / t + taskPercent / t;
      assert 100.0 * k / t == m * k;
      assert taskPercent / t == taskPercent * m / 100.0;
    }
    assert 100.0 * k + taskPercent <= 100.0 * t;
    assert 0.0 <= raw <= 100.0;
    Round2Monotone(raw, 100.0);
    Round2FixedPoints();
  }

  // ---------------------------------------------------------------------------
  // Whitelisted files

  /** whitelisted_files() */
  const Whitelist: seq<string> := [
    "user.ini", "php.ini", "robots.txt", ".htaccess", "nginx.conf",
    ".well_known", ".idea", ".DS_Store", ".svn", ".git", ".quarantine", ".tmb"]

  /** Some whitelisted name occurs in `slug`, ignoring case. */
  predicate IsWhitelisted(slug: string) {
    ContainsAnyIgnoreCase(slug, Whitelist)
  }

  /** Some name of `names` occurs in `slug`, ignoring case. */
  predicate ContainsAnyIgnoreCase(slug: string, names: seq<string>) {
    exists i :: 0 <= i < |names| && ContainsIgnoreCase(slug, names[i])
  }

  /** Whitelisting ignores the case of the path. */
  lemma WhitelistIgnoresCase(slug: string)
    ensures IsWhitelisted(Lower(slug)) == IsWhitelisted(slug)
  {
    forall i | 0 <= i < |Whitelist|
      ensures ContainsIgnoreCase(Lower(slug), Whitelist[i]) == ContainsIgnoreCase(slug, Whitelist[i])
    {
      IgnoreCaseOfLowered(slug, Whitelist[i]);
    }
  }

  /** A path that contains a whitelisted name verbatim is whitelisted. */
  lemma WhitelistedByName(slug: string, i: nat)
    requires i < |Whitelist| && Contains(slug, Whitelist[i])
    ensures IsWhitelisted(slug)
  {
    ContainsImpliesIgnoreCase(slug, Whitelist[i]);
  }

  // ---------------------------------------------------------------------------
  // The ignore index

  /** The name ignore_issue and unignore_issue use: raw_data['file'] if set, else raw_data['slug']. */
  function IgnoredName(raw: RawData): Option<string> {
    if raw.file.Some? then raw.file else raw.slug
  }

  /** is_issue_ignored: strict membership of `slug` among the index's values. */
  predicate IsIssueIgnored(index: seq<Entry>, slug: string): (r: bool)
    ensures r <==> exists i :: 0 <= i < |index| && index[i].value == slug
  {
    assert forall i :: 0 <= i < |index| ==> index[i] in index;
    slug in Values(index)
  }

  /** The index after ignore_issue: the name appended, then array_unique and array_filter. */
  function IndexAfterIgnore(index: seq<Entry>, raw: RawData): (r: seq<Entry>)
    ensures DistinctValues(r) && forall e :: e in r ==> !Falsy(e.value)
    ensures KeysIncreasing(index) ==> KeysIncreasing(r)
    ensures IgnoredName(raw).None? ==> Values(r) == set v | v in Values(index) && !Falsy(v)
    ensures IgnoredName(raw).Some? ==> Values(r) == set v | v in Values(index) + {IgnoredName(raw).value} && !Falsy(v)
  {
    var name := IgnoredName(raw);
    if name.Some? then
      ValuesSnoc(index, Entry(NextKey(index), name.value));
      assert KeysIncreasing(index) ==> KeysIncreasing(Push(index, name.value)) by {
        if KeysIncreasing(index) {
          PushKeepsKeysIncreasing(index, name.value);
        }
      }
      Normalize(Push(index, name.value))
    else Normalize(index)
  }

  /**
   * The key unignore_issue unsets: what array_search returns, and when that
   * is false, key 0 (PHP reads false as the integer key 0).
   */
  function UnsetKey(found: Option<nat>): nat {
    if found.Some? then found.value else 0
  }

  /** The index after unignore_issue, as written: unset at array_search's result, then array_unique and array_filter. */
  function IndexAfterUnignore(index: seq<Entry>, raw: RawData): (r: seq<Entry>)
    ensures DistinctValues(r)
    ensures forall e :: e in r ==> e in index && !Falsy(e.value)
    ensures KeysIncreasing(index) ==> KeysIncreasing(r)
  {
    var name := IgnoredName(raw);
    Normalize(if name.Some? then Unset(index, UnsetKey(Search(index, name.value))) else index)
  }

  /** The index unignore_issue evidently means to leave: the name's entry removed when there is one, nothing else. */
  function IndexAfterUnignoreIntended(index: seq<Entry>, raw: RawData): (r: seq<Entry>)
    ensures DistinctValues(r)
    ensures forall e :: e in r ==> e in index && !Falsy(e.value)
    ensures KeysIncreasing(index) ==> KeysIncreasing(r)
  {
    var name := IgnoredName(raw);
    if name.None? then Normalize(index)
    else
      var found := Search(index, name.value);
      Normalize(if found.Some? then Unset(index, found.value) else index)
  }

  /** An index both operations leave behind: keys in order, no duplicate and no falsy value. */
  predicate IsNormalIndex(index: seq<Entry>) {
    KeysIncreasing(index) && DistinctValues(index) && forall e :: e in index ==> !Falsy(e.value)
  }

  /**
   * After ignore_issue the name is ignored (unless falsy) and the index is
   * exactly the old names plus the new one, without duplicates or falsy entries.
   */
  lemma IgnoreAddsName(index: seq<Entry>, raw: RawData)
    requires KeysIncreasing(index)
    requires IgnoredName(raw).Some?
    ensures IsNormalIndex(IndexAfterIgnore(index, raw))
    ensures Values(IndexAfterIgnore(index, raw))
         == set v | v in Values(index) + {IgnoredName(raw).value} && !Falsy(v)
    ensures !Falsy(IgnoredName(raw).value) ==> IsIssueIgnored(IndexAfterIgnore(index, raw), IgnoredName(raw).value)
  {
    ValuesSnoc(index, Entry(NextKey(index), IgnoredName(raw).value));
    PushKeepsKeysIncreasing(index, IgnoredName(raw).value);
  }

  /** With neither file nor slug, both operations only clean the index up. */
  lemma NoNameOnlyNormalizes(index: seq<Entry>, raw: RawData)
    requires IgnoredName(raw).None?
    requires IsNormalIndex(index)
    ensures IndexAfterIgnore(index, raw) == index
    ensures IndexAfterUnignore(index, raw) == index
  {
    NormalizeIdempotent(index);
  }

  /** On a clean index, unignore_issue of an ignored name removes it and keeps every other name. */
  lemma UnignoreRemovesName(index: seq<Entry>, raw: RawData)
    requires IsNormalIndex(index)
    requires IgnoredName(raw).Some? && IgnoredName(raw).value in Values(index)
    ensures IsNormalIndex(IndexAfterUnignore(index, raw))
    ensures Values(IndexAfterUnignore(index, raw)) == Values(index) - {IgnoredName(raw).value}
    ensures !IsIssueIgnored(IndexAfterUnignore(index, raw), IgnoredName(raw).value)
  {
    var name := IgnoredName(raw).value;
    var k := Search(index, name).value;
    var j :| 0 <= j < |index| && index[j] == Entry(k, name);
    UnsetDropsOneValue(index, j);
    FilterKeepsOrder(index, (e: Entry) => e.key != k);
    NormalizeIdempotent(Unset(index, k));
  }

  /** In an index with distinct keys and values, unsetting one entry's key loses exactly its value. */
  lemma UnsetDropsOneValue(index: seq<Entry>, j: nat)
    requires KeysIncreasing(index) && DistinctValues(index) && j < |index|
    ensures Values(Unset(index, index[j].key)) == Values(index) - {index[j].value}
  {
    var u := Unset(index, index[j].key);
    forall v | v in Values(index) && v != index[j].value ensures v in Values(u) {
      var e :| e in index && e.value == v;
      var i :| 0 <= i < |index| && index[i] == e;
      assert i != j;
      assert e.key != index[j].key;
    }
    forall v | v in Values(u) ensures v != index[j].value {
      var e :| e in u && e.value == v;
      var i :| 0 <= i < |index| && index[i] == e;
      assert i != j;
    }
  }

  /** ignore_issue then unignore_issue of a new name gives a clean index back exactly. */
  lemma IgnoreUnignoreRoundTrip(index: seq<Entry>, raw: RawData)
    requires IsNormalIndex(index)
    requires IgnoredName(raw).Some? && !Falsy(IgnoredName(raw).value)
    requires !IsIssueIgnored(index, IgnoredName(raw).value)
    ensures IndexAfterUnignore(IndexAfterIgnore(index, raw), raw) == index
  {
    var name := IgnoredName(raw).value;
    var e := Entry(NextKey(index), name);
    var pushed := Push(index, name);
    ValuesSnoc(index, e);
    SnocDistinctValues(index, e);
    assert forall x :: x in pushed ==> x in index || x == e;
    NormalizeIdempotent(pushed);
    SearchFindsFirst(pushed, name, |index|);
    assert Unset(pushed, e.key) == Filter(index, (x: Entry) => x.key != e.key) by {
      assert pushed[..|pushed| - 1] == index;
    }
    FilterKeepsAll(index, (x: Entry) => x.key != e.key);
    NormalizeIdempotent(index);
  }

  /**
   * As written, unignore_issue of a name that is not in the index unsets key 0:
   * the index loses the entry stored under key 0, if there is one, and so
   * the first ignored file is silently un-ignored.
   */
  lemma UnignoreMissDropsKeyZero(index: seq<Entry>, raw: RawData)
    requires IsNormalIndex(index)
    requires IgnoredName(raw).Some? && !IsIssueIgnored(index, IgnoredName(raw).value)
    ensures IndexAfterUnignore(index, raw) == Unset(index, 0)
    ensures |index| > 0 && index[0].key == 0 ==>
      Values(IndexAfterUnignore(index, raw)) == Values(index) - {index[0].value}
  {
    assert Search(index, IgnoredName(raw).value) == None;
    FilterKeepsOrder(index, (e: Entry) => e.key != 0);
    NormalizeIdempotent(Unset(index, 0));
    if |index| > 0 && index[0].key == 0 {
      UnsetDropsOneValue(index, 0);
    }
  }

  /** The smallest case: un-ignoring other.php drops wp-config.php, stored under key 0. */
  lemma UnignoreMissExample()
    ensures IndexAfterUnignore([Entry(0, "wp-config.php"), Entry(1, "index.php")], RawData(Some("other.php"), None))
         == [Entry(1, "index.php")]
  {
    var index := [Entry(0, "wp-config.php"), Entry(1, "index.php")];
    assert Search(index, "other.php") == None;
    var u := Unset(index, 0);
    assert u == [Entry(1, "index.php")] by {
      assert index[..1] == [Entry(0, "wp-config.php")];
      assert index[..1][..0] == [];
    }
    NormalizeIdempotent(u);
  }

  /** The intended unignore removes exactly the name, and a name not in the index changes nothing. */
  lemma UnignoreIntendedKeepsOthers(index: seq<Entry>, raw: RawData)
    requires IsNormalIndex(index)
    requires IgnoredName(raw).Some?
    ensures Values(IndexAfterUnignoreIntended(index, raw)) == Values(index) - {IgnoredName(raw).value}
    ensures !IsIssueIgnored(index, IgnoredName(raw).value) ==> IndexAfterUnignoreIntended(index, raw) == index
  {
    var name := IgnoredName(raw).value;
    if name in Values(index) {
      assert IndexAfterUnignoreIntended(index, raw) == IndexAfterUnignore(index, raw);
      UnignoreRemovesName(index, raw);
    } else {
      NormalizeIdempotent(index);
    }
  }

  // ---------------------------------------------------------------------------
  // Scans table queries

  /** get_active(): a scan of the table that is still running, or none when no scan is. */
  function GetActive(scans: seq<ScanRow>): (r: Option<ScanRow>)
    ensures r.None? <==> forall s :: s in scans ==> !IsRunning(s.status)
    ensures r.Some? ==> r.value in scans && IsRunning(r.value.status)
    decreases |scans|
  {
    if scans == [] then None
    else if IsRunning(scans[0].status) then Some(scans[0])
    else GetActive(scans[1..])
  }

  /** get_last(): the finished scan with the highest id, or none when no scan has finished. */
  function GetLast(scans: seq<ScanRow>): (r: Option<ScanRow>)
    ensures r.None? <==> forall s :: s in scans ==> s.status != StatusFinish
    ensures r.Some? ==> r.value in scans && r.value.status == StatusFinish
    ensures r.Some? ==> forall s :: s in scans && s.status == StatusFinish ==> s.id <= r.value.id
    decreases |scans|
  {
    if scans == [] then None
    else
      var rest := GetLast(scans[1..]);
      assert forall s :: s in scans <==> s == scans[0] || s in scans[1..];
      if scans[0].status == StatusFinish && (rest.None? || scans[0].id > rest.value.id) then Some(scans[0])
      else rest
  }

  predicate IsFinishedRow(s: ScanRow) { s.status == StatusFinish }

  /** Ids never grow along `s`: the order of ORDER BY id DESC. */
  predicate SortedByIdDesc(s: seq<ScanRow>) {
    forall i, j :: 0 <= i < j < |s| ==> s[i].id >= s[j].id
  }

  /** Puts `x` into a list sorted by descending id, before the first row whose id is not larger. */
  function InsertByIdDesc(x: ScanRow, sorted: seq<ScanRow>): (r: seq<ScanRow>)
    requires SortedByIdDesc(sorted)
    ensures SortedByIdDesc(r)
    ensures forall y :: y in r <==> y in sorted || y == x
    decreases |sorted|
  {
    if sorted == [] then [x]
    else if x.id >= sorted[0].id then [x] + sorted
    else
      var rest := InsertByIdDesc(x, sorted[1..]);
      assert sorted == [sorted[0]] + sorted[1..];
      assert forall y :: y in sorted[1..] ==> y.id <= sorted[0].id;
      [sorted[0]] + rest
  }

  /** Inserting adds exactly one row. */
  lemma {:induction false} InsertByIdDescAddsOne(x: ScanRow, sorted: seq<ScanRow>)
    requires SortedByIdDesc(sorted)
    ensures multiset(InsertByIdDesc(x, sorted)) == multiset(sorted) + multiset{x}
    decreases |sorted|
  {
    if sorted != [] && x.id < sorted[0].id {
      InsertByIdDescAddsOne(x, sorted[1..]);
      assert sorted == [sorted[0]] + sorted[1..];
    }
  }

  /** ORDER BY id DESC: the same rows, in descending order of id. */
  function SortByIdDesc(s: seq<ScanRow>): (r: seq<ScanRow>)
    ensures SortedByIdDesc(r)
    ensures multiset(r) == multiset(s)
    ensures forall y :: y in r <==> y in s
    decreases |s|
  {
    if s == [] then []
    else
      assert s == [s[0]] + s[1..];
      InsertByIdDescAddsOne(s[0], SortByIdDesc(s[1..]));
      InsertByIdDesc(s[0], SortByIdDesc(s[1..]))
  }

  /** get_last_all(): every finished scan, the latest id first. */
  function GetLastAll(scans: seq<ScanRow>): (r: seq<ScanRow>)
    ensures forall s :: s in r <==> s in scans && s.status == StatusFinish
    ensures SortedByIdDesc(r)
  {
    var finished := Filter(scans, IsFinishedRow);
    SortByIdDesc(finished)
  }

  /** get_last() is the head of get_last_all(): both are empty together, and otherwise they agree on the id. */
  lemma GetLastHeadsGetLastAll(scans: seq<ScanRow>)
    ensures GetLast(scans).None? <==> GetLastAll(scans) == []
    ensures GetLast(scans).Some? ==> GetLastAll(scans)[0].id == GetLast(scans).value.id
  {
    var all := GetLastAll(scans);
    var last := GetLast(scans);
    if all != [] {
      assert all[0] in scans;
    }
    if last.Some? {
      assert last.value in all;
      var k :| 0 <= k < |all| && all[k] == last.value;
    }
  }

  /** The "only one active scan" rule. */
  predicate AtMostOneRunning(scans: seq<ScanRow>) {
    forall i, j :: 0 <= i < |scans| && 0 <= j < |scans| && IsRunning(scans[i].status) && IsRunning(scans[j].status) ==> i == j
  }

  /** The row create() saves. */
  function NewScanRow(id: nat, fromReport: bool, now: string): ScanRow {
    ScanRow(id, StatusInit, now, now, 0.0, 0, "", fromReport)
  }

  /**
   * create() adds a row only when no scan is running, and the row it adds is
   * running: afterwards exactly that scan is the active one.
   */
  lemma CreateKeepsOneRunning(scans: seq<ScanRow>, id: nat, fromReport: bool, now: string)
    requires GetActive(scans).None?
    ensures AtMostOneRunning(scans + [NewScanRow(id, fromReport, now)])
    ensures GetActive(scans + [NewScanRow(id, fromReport, now)]) == Some(NewScanRow(id, fromReport, now))
  {
    var row := NewScanRow(id, fromReport, now);
    var s := scans + [row];
    forall i | 0 <= i < |scans| ensures !IsRunning(s[i].status) {
      assert s[i] in scans;
    }
    GetActiveOfFinished(scans, row);
  }

  lemma {:induction false} GetActiveOfFinished(scans: seq<ScanRow>, row: ScanRow)
    requires forall s :: s in scans ==> !IsRunning(s.status)
    requires IsRunning(row.status)
    ensures GetActive(scans + [row]) == Some(row)
    decreases |scans|
  {
    if scans != [] {
      assert (scans + [row])[1..] == scans[1..] + [row];
      GetActiveOfFinished(scans[1..], row);
    }
  }

  /** delete(): the scan's items go (the cascade) and every other item stays, in order. */
  function RemoveIssuesOf(items: seq<ScanItem>, scanId: nat): (r: seq<ScanItem>)
    ensures forall x :: x in r <==> x in items && x.parentId != scanId
  {
    Filter(items, (x: ScanItem) => x.parentId != scanId)
  }

  /** delete(): the scan's own row goes. */
  function RemoveScan(scans: seq<ScanRow>, scanId: nat): (r: seq<ScanRow>)
    ensures forall s :: s in r <==> s in scans && s.id != scanId
  {
    Filter(scans, (s: ScanRow) => s.id != scanId)
  }

  /** Deleting a scan row never adds a running scan: the "only one active scan" rule survives. */
  lemma RemoveScanKeepsOneRunning(scans: seq<ScanRow>, scanId: nat)
    requires AtMostOneRunning(scans)
    ensures AtMostOneRunning(RemoveScan(scans, scanId))
  {
    FilterKeepsOneRunning(scans, (s: ScanRow) => s.id != scanId);
  }

  lemma {:induction false} FilterKeepsOneRunning(scans: seq<ScanRow>, keep: ScanRow -> bool)
    requires AtMostOneRunning(scans)
    ensures AtMostOneRunning(Filter(scans, keep))
    decreases |scans|
  {
    if scans != [] {
      var init := scans[..|scans| - 1];
      var last := scans[|scans| - 1];
      FilterKeepsOneRunning(init, keep);
      var f := Filter(init, keep);
      if keep(last) && IsRunning(last.status) {
        forall x | x in f ensures !IsRunning(x.status) {
          var j :| 0 <= j < |init| && init[j] == x;
          assert scans[j] == x;
        }
        var r := f + [last];
        forall i | 0 <= i < |f| ensures !IsRunning(r[i].status) {
          assert r[i] == f[i] && f[i] in f;
        }
      }
    }
  }

  /** After delete() the scan has no issues left, and every other scan's issues are as before. */
  lemma DeleteCascades(items: seq<ScanItem>, scanId: nat, other: nat, itemType: Option<string>, status: Option<string>)
    requires other != scanId
    ensures GetIssues(RemoveIssuesOf(items, scanId), scanId, itemType, status) == []
    ensures GetIssues(RemoveIssuesOf(items, scanId), other, itemType, status) == GetIssues(items, other, itemType, status)
  {
    var left := RemoveIssuesOf(items, scanId);
    FilterNone(left, (x: ScanItem) => x.parentId == scanId && TypeMatches(itemType, x) && StatusMatches(status, x));
    FilterFilter(items,
      (x: ScanItem) => x.parentId != scanId,
      (x: ScanItem) => x.parentId == other && TypeMatches(itemType, x) && StatusMatches(status, x));
  }

  /** get_issue($id): the position of the first item with that id. */
  function FindItem(items: seq<ScanItem>, id: nat): (r: Option<nat>)
    ensures r.None? <==> forall x :: x in items ==> x.id != id
    ensures r.Some? ==> r.value < |items| && items[r.value].id == id
    ensures r.Some? ==> forall j :: 0 <= j < r.value ==> items[j].id != id
    decreases |items|
  {
    if items == [] then None
    else if items[0].id == id then Some(0)
    else
      var rest := FindItem(items[1..], id);
      assert forall x :: x in items <==> x == items[0] || x in items[1..];
      if rest.None? then None else Some(rest.value + 1)
  }

  // ---------------------------------------------------------------------------
  // The persistent state and the Scan model object

  /** The ORM's two tables and the site option of the ignore index. */
  class Store {
    var scans: seq<ScanRow>
    var items: seq<ScanItem>
    /** The site option defender_scan_ignore_index (get_site_option's default is the empty array). */
    var ignoreIndex: seq<Entry>
    /** The next auto-increment id of each table. */
    var nextScanId: nat
    var nextItemId: nat

    ghost predicate Valid()
      reads this
    {
      && (forall s :: s in scans ==> s.id < nextScanId)
      && (forall x :: x in items ==> x.id < nextItemId)
      && IsNormalIndex(ignoreIndex)
      && AtMostOneRunning(scans)
    }

    constructor ()
      ensures Valid()
      ensures scans == [] && items == [] && ignoreIndex == []
    {
      scans, items, ignoreIndex := [], [], [];
      nextScanId, nextItemId := 1, 1;
    }
  }

  /** A scan loaded from, or about to be saved to, the scans table. */
  class Scan {
    var id: nat
    var status: string
    var dateStart: string
    var dateEnd: string
    var percent: real
    var totalTasks: int
    var taskCheckpoint: string
    var isAutomation: bool

    function Row(): ScanRow
      reads this
    {
      ScanRow(id, status, dateStart, dateEnd, percent, totalTasks, taskCheckpoint, isAutomation)
    }

    /** The model the ORM builds from a row. */
    constructor FromRow(row: ScanRow)
      ensures Row() == row
    {
      id, status, dateStart, dateEnd := row.id, row.status, row.dateStart, row.dateEnd;
      percent, totalTasks, taskCheckpoint, isAutomation := row.percent, row.totalTasks, row.taskCheckpoint, row.isAutomation;
    }

    /** prepare_issues(): one pass over this scan's issues, sorting them and counting the active ones by type. */
    method PrepareIssues(db: Store) returns (r: Prepared)
      ensures r == Prepare(GetIssues(db.items, id, None, None))
      ensures r.countCore + r.countMalware + r.countVuln == |r.issues|
    {
      var models := GetIssues(db.items, id, None, None);
      var arr: seq<ScanItem> := [];
      var ignored: seq<ScanItem> := [];
      var countCore, countMalware, countVuln := 0, 0, 0;
      var i := 0;
      while i < |models|
        invariant 0 <= i <= |models|
        invariant Prepare(models[..i]) == Prepared(ignored, arr, countCore, countMalware, countVuln)
      {
        var model := models[i];
        assert models[..i + 1][..i] == models[..i];
        if model.status == ItemIgnore {
          ignored := ignored + [model];
        } else if model.status == ItemActive {
          arr := arr + [model];
          if model.itemType == TypeIntegrity {
            countCore := countCore + 1;
          } else if model.itemType == TypeSuspicious {
            countMalware := countMalware + 1;
          } else {
            countVuln := countVuln + 1;
          }
        }
        i := i + 1;
      }
      assert models[..|models|] == models;
      r := Prepared(ignored, arr, countCore, countMalware, countVuln);
      PrepareCountsSum(models);
    }

    /**
     * to_array(): progress for a running scan, the issue lists and counts
     * for a finished one, nothing for a failed one.
     */
    method ToArray(db: Store) returns (r: Option<ScanSummary>)
      ensures IsRunning(status) ==> r == Some(Progress(status, StatusText(status), percent, 0))
      ensures status == StatusError ==> r.None?
      ensures status == StatusFinish ==>
        var p := Prepare(GetIssues(db.items, id, None, None));
        r == Some(Finished(status, p.issues, p.ignored, dateStart, |p.issues|, p.countCore, p.countMalware, p.countVuln))
      ensures r.Some? && r.value.Finished? ==>
        r.value.countTotal == r.value.countCore + r.value.countContent + r.value.countVuln
    {
      if status != StatusError && status != StatusFinish {
        r := Some(Progress(status, StatusText(status), percent, 0));
      } else if status == StatusFinish {
        var data := PrepareIssues(db);
        r := Some(Finished(status, data.issues, data.ignored, dateStart, |data.issues|,
                           data.countCore, data.countMalware, data.countVuln));
      } else {
        r := None;
      }
    }

    /** calculate_percent($task_percent, $pos): stores and returns the overall percentage, at most 100. */
    method CalculatePercent(taskPercent: real, pos: int) returns (p: real)
      requires totalTasks != 0
      modifies this`percent
      ensures percent == p
      ensures p == Percent(totalTasks, taskPercent, pos)
      ensures p <= 100.0
    {
      var taskMax := 100.0 / (totalTasks as real);
      var taskBase := taskMax * ((pos - 1) as real);
      var micro := taskPercent * taskMax / 100.0;
      assert taskBase + micro == RawPercent(totalTasks, taskPercent, pos);
      percent := Round2(taskBase + micro);
      if percent > 100.0 {
        percent := 100.0;
      }
      p := percent;
    }

    /** is_issue_whitelisted($slug): stops at the first whitelisted name found in the path. */
    method IsIssueWhitelisted(slug: string) returns (b: bool)
      ensures b <==> IsWhitelisted(slug)
    {
      b := ContainsAnyFile(slug, Whitelist);
    }

    /** The loop of is_issue_whitelisted: stops at the first name found in the path. */
    static method ContainsAnyFile(slug: string, files: seq<string>) returns (b: bool)
      ensures b <==> ContainsAnyIgnoreCase(slug, files)
    {
      var i := 0;
      while i < |files|
        invariant 0 <= i <= |files|
        invariant forall j :: 0 <= j < i ==> !ContainsIgnoreCase(slug, files[j])
      {
        if ContainsIgnoreCase(slug, files[i]) {
          return true;
        }
        i := i + 1;
      }
      return false;
    }

    /**
     * ignore_issue($id): false when there is no such issue; otherwise the
     * issue becomes ignored, its name joins the index, and nothing is returned.
     */
    method IgnoreIssue(db: Store, issueId: nat) returns (r: Option<bool>)
      requires db.Valid()
      modifies db
      ensures db.Valid()
      ensures FindItem(old(db.items), issueId).None? ==> r == Some(false) && unchanged(db)
      ensures FindItem(old(db.items), issueId).Some? ==>
        var i := FindItem(old(db.items), issueId).value;
        && r.None?
        && db.items == old(db.items)[i := old(db.items)[i].(status := ItemIgnore)]
        && db.ignoreIndex == IndexAfterIgnore(old(db.ignoreIndex), old(db.items)[i].rawData)
        && db.scans == old(db.scans)
        && db.nextScanId == old(db.nextScanId) && db.nextItemId == old(db.nextItemId)
    {
      var found := FindItem(db.items, issueId);
      if found.None? {
        return Some(false);
      }
      var i := found.value;
      var issue := db.items[i];
      var items := db.items[i := issue.(status := ItemIgnore)];
      assert forall x :: x in items ==> x in db.items || x == items[i];
      db.items := items;

      var lists := AddToIgnoreList(db.ignoreIndex, issue.rawData);
      db.ignoreIndex := lists;
      r := None;
    }

    /** The ignore-index update of ignore_issue: the name appended, then array_unique and array_filter. */
    static method AddToIgnoreList(index: seq<Entry>, data: RawData) returns (lists: seq<Entry>)
      ensures lists == IndexAfterIgnore(index, data)
    {
      lists := index;
      if data.file.Some? {
        lists := Push(lists, data.file.value);
      } else if data.slug.Some? {
        lists := Push(lists, data.slug.value);
      }
      lists := Unique(lists);
      lists := FilterFalsy(lists);
    }

    /**
     * unignore_issue($id): false when there is no such issue; otherwise the
     * issue becomes active again and the key array_search finds for its name
     * (key 0 when it finds none) is unset.
     */
    method UnignoreIssue(db: Store, issueId: nat) returns (r: Option<bool>)
      requires db.Valid()
      modifies db
      ensures db.Valid()
      ensures FindItem(old(db.items), issueId).None? ==> r == Some(false) && unchanged(db)
      ensures FindItem(old(db.items), issueId).Some? ==>
        var i := FindItem(old(db.items), issueId).value;
        && r.None?
        && db.items == old(db.items)[i := old(db.items)[i].(status := ItemActive)]
        && db.ignoreIndex == IndexAfterUnignore(old(db.ignoreIndex), old(db.items)[i].rawData)
        && db.scans == old(db.scans)
        && db.nextScanId == old(db.nextScanId) && db.nextItemId == old(db.nextItemId)
    {
      var found := FindItem(db.items, issueId);
      if found.None? {
        return Some(false);
      }
      var i := found.value;
      var issue := db.items[i];
      var items := db.items[i := issue.(status := ItemActive)];
      assert forall x :: x in items ==> x in db.items || x == items[i];
      db.items := items;

      var lists := RemoveFromIgnoreList(db.ignoreIndex, issue.rawData);
      db.ignoreIndex := lists;
      r := None;
    }

    /**
     * The ignore-index update of unignore_issue, as written: unset at what
     * array_search returns (key 0 when it finds nothing), then array_unique
     * and array_filter.
     */
    static method RemoveFromIgnoreList(index: seq<Entry>, data: RawData) returns (lists: seq<Entry>)
      ensures lists == IndexAfterUnignore(index, data)
    {
      lists := index;
      if data.file.Some? {
        lists := Unset(lists, UnsetKey(Search(lists, data.file.value)));
      } else if data.slug.Some? {
        lists := Unset(lists, UnsetKey(Search(lists, data.slug.value)));
      }
      lists := Unique(lists);
      lists := FilterFalsy(lists);
    }

    /** create($from_report): refused while a scan runs; otherwise a new scan in status init is saved. */
    static method Create(db: Store, fromReport: bool, now: string) returns (r: Result<Scan, string>)
      requires db.Valid()
      modifies db
      ensures db.Valid()
      ensures GetActive(old(db.scans)).Some? ==> r == Failure("A scan is already in progress") && unchanged(db)
      ensures GetActive(old(db.scans)).None? ==>
        && r.Success? && fresh(r.value)
        && r.value.Row() == NewScanRow(old(db.nextScanId), fromReport, now)
        && db.scans == old(db.scans) + [r.value.Row()]
        && db.items == old(db.items) && db.ignoreIndex == old(db.ignoreIndex)
        && db.nextScanId == old(db.nextScanId) + 1 && db.nextItemId == old(db.nextItemId)
      ensures r.Success? ==> AtMostOneRunning(db.scans) && GetActive(db.scans) == Some(r.value.Row())
    {
      var active := GetActive(db.scans);
      if active.Some? {
        return Failure("A scan is already in progress");
      }
      var model := new Scan.FromRow(NewScanRow(db.nextScanId, fromReport, now));
      CreateKeepsOneRunning(db.scans, db.nextScanId, fromReport, now);
      db.scans := db.scans + [model.Row()];
      db.nextScanId := db.nextScanId + 1;
      r := Success(model);
    }

    /** delete(): removes this scan's items and then its row. */
    method Delete(db: Store)
      requires db.Valid()
      modifies db
      ensures db.Valid()
      ensures db.items == RemoveIssuesOf(old(db.items), id)
      ensures db.scans == RemoveScan(old(db.scans), id)
      ensures db.ignoreIndex == old(db.ignoreIndex)
      ensures db.nextScanId == old(db.nextScanId) && db.nextItemId == old(db.nextItemId)
    {
      db.items := RemoveIssuesOf(db.items, id);
      RemoveScanKeepsOneRunning(db.scans, id);
      db.scans := RemoveScan(db.scans, id);
    }

    /** add_item($type, $data, $status): saves a new item of this scan. */
    method AddItem(db: Store, itemType: string, data: RawData, itemStatus: string)
      requires db.Valid()
      modifies db
      ensures db.Valid()
      ensures db.items == old(db.items) + [ScanItem(old(db.nextItemId), id, itemType, itemStatus, data)]
      ensures db.nextItemId == old(db.nextItemId) + 1
      ensures db.scans == old(db.scans) && db.ignoreIndex == old(db.ignoreIndex) && db.nextScanId == old(db.nextScanId)
    {
      db.items := db.items + [ScanItem(db.nextItemId, id, itemType, itemStatus, data)];
      db.nextItemId := db.nextItemId + 1;
    }

    /** remove_issue($id): deletes the item with that id. */
    method RemoveIssue(db: Store, issueId: nat)
      requires db.Valid()
      modifies db`items
      ensures db.Valid()
      ensures db.items == Filter(old(db.items), (x: ScanItem) => x.id != issueId)
      ensures forall x :: x in db.items ==> x.id != issueId
    {
      db.items := Filter(db.items, (x: ScanItem) => x.id != issueId);
    }
  }
}
