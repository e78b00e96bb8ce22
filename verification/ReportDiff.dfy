/** The comparison of a current report with a baseline, under suppression rules. */
module ReportDiff {
  import opened Options
  import opened Severities
  import opened Text
  import opened Ordered

  datatype Finding = Finding(id: string, url: string, parameter: Option<string>, severity: Severity)

  datatype Rule = Rule(findingId: string, urlContains: Option<string>, expiresAt: Option<int>, reason: string)

  datatype Status = New | Fixed | Unchanged | SeverityChanged

  datatype Entry = Entry(key: string, status: Status, findingId: string, url: string,
                         previous: Option<Severity>, current: Option<Severity>)

  datatype Suppressed = Suppressed(findingId: string, url: string, reason: string, expiresAt: Option<int>)

  datatype Diff = Diff(findings: seq<Entry>, suppressed: seq<Suppressed>,
                       newCount: nat, fixedCount: nat, unchangedCount: nat, severityChangedCount: nat)

  type Report = map<string, Finding>

  // ----- keys and suppressions -----

  function FindingKey(f: Finding): string {
    f.id + ":" + f.url + ":" + if f.parameter.Some? then f.parameter.value else "-"
  }

  /** The findings by key; the last one with a key wins. */
  function FindingMap(findings: seq<Finding>): Report {
    if findings == [] then map[]
    else
      var last := findings[|findings| - 1];
      FindingMap(findings[..|findings| - 1])[FindingKey(last) := last]
  }

  lemma {:induction false} LastFindingWins(findings: seq<Finding>, i: nat)
    requires i < |findings|
    requires forall j :: i < j < |findings| ==> FindingKey(findings[j]) != FindingKey(findings[i])
    ensures FindingKey(findings[i]) in FindingMap(findings)
      && FindingMap(findings)[FindingKey(findings[i])] == findings[i]
  {
    hide FindingKey;
    if i < |findings| - 1 {
      var front := findings[..|findings| - 1];
      assert front[i] == findings[i];
      LastFindingWins(front, i);
    }
  }

  predicate Matches(rule: Rule, f: Finding, now: int) {
    && rule.findingId == f.id
    && (rule.urlContains.None? || Contains(f.url, rule.urlContains.value))
    && (rule.expiresAt.None? || rule.expiresAt.value > now)
  }

  /** The first rule that matches. */
  function FirstMatch(rules: seq<Rule>, f: Finding, now: int): (rule: Option<Rule>)
    ensures rule.Some? ==> rule.value in rules && Matches(rule.value, f, now)
    ensures rule.None? <==> forall r :: r in rules ==> !Matches(r, f, now)
  {
    if rules == [] then None else if Matches(rules[0], f, now) then Some(rules[0]) else FirstMatch(rules[1..], f, now)
  }

  predicate IsDoomed(report: Report, rules: seq<Rule>, now: int, key: string) {
    key in report && FirstMatch(rules, report[key], now).Some?
  }

  /** The keys a rule suppresses: decided by the current findings, applied to both reports. */
  function SuppressedKeys(current: Report, rules: seq<Rule>, now: int): set<string> {
    set k | k in current && IsDoomed(current, rules, now, k)
  }

  // ----- what a diff says -----

  function EntryOf(before: Report, after: Report, key: string): Entry
    requires key in before || key in after
  {
    var shown := if key in after then after[key] else before[key];
    Entry(key,
          if key !in before then New
          else if key !in after then Fixed
          else if before[key].severity != after[key].severity then SeverityChanged
          else Unchanged,
          shown.id, shown.url, SeverityIn(before, key), SeverityIn(after, key))
  }

  function SeverityIn(report: Report, key: string): Option<Severity> {
    if key in report then Some(report[key].severity) else None
  }

  predicate Listed(entries: seq<Entry>, key: string) {
    exists i :: 0 <= i < |entries| && entries[i].key == key
  }

  predicate DistinctKeys(entries: seq<Entry>) {
    forall i, j :: 0 <= i < j < |entries| ==> entries[i].key != entries[j].key
  }

  predicate ExactEntries(before: Report, after: Report, entries: seq<Entry>) {
    forall i :: 0 <= i < |entries| ==> IsExact(before, after, entries[i])
  }

  predicate IsExact(before: Report, after: Report, e: Entry) {
    (e.key in before || e.key in after) && e == EntryOf(before, after, e.key)
  }

  /** One entry for each key of either report, sorted by key. */
  ghost predicate IsDiff(before: Report, after: Report, entries: seq<Entry>) {
    && DistinctKeys(entries) && ExactEntries(before, after, entries)
    && (forall i, j :: 0 <= i < j < |entries| ==> StringLeq(entries[i].key, entries[j].key))
    && (forall k :: k in before || k in after ==> Listed(entries, k))
  }

  function Count(entries: seq<Entry>, status: Status): nat {
    if entries == [] then 0
    else Count(entries[..|entries| - 1], status) + if entries[|entries| - 1].status == status then 1 else 0
  }

  lemma FrontOf(entries: seq<Entry>)
    requires entries != []
    ensures
      var (front, last) := (entries[..|entries| - 1], entries[|entries| - 1]);
      && (DistinctKeys(entries) ==> DistinctKeys(front) && !Listed(front, last.key))
      && forall k :: Listed(entries, k) <==> Listed(front, k) || k == last.key
  {
    var (front, last) := (entries[..|entries| - 1], entries[|entries| - 1]);
    forall k
      ensures Listed(entries, k) <==> Listed(front, k) || k == last.key
    {
      if Listed(front, k) {
        var i :| 0 <= i < |front| && front[i].key == k;
        assert entries[i].key == k;
      }
    }
  }

  // ----- applying a diff -----

  function SeverityTable(report: Report): map<string, Severity> {
    map k | k in report :: report[k].severity
  }

  /** What one entry does to a table of severities. */
  function ApplyEntry(table: map<string, Severity>, e: Entry): map<string, Severity> {
    match e.status
    case New => if e.current.Some? then table[e.key := e.current.value] else table
    case Fixed => table - {e.key}
    case SeverityChanged => if e.current.Some? then table[e.key := e.current.value] else table
    case Unchanged => table
  }

  function Patch(table: map<string, Severity>, entries: seq<Entry>): map<string, Severity> {
    if entries == [] then table
    else ApplyEntry(Patch(table, entries[..|entries| - 1]), entries[|entries| - 1])
  }

  function Lookup(table: map<string, Severity>, key: string): Option<Severity> {
    if key in table then Some(table[key]) else None
  }

  lemma EntryApplied(before: Report, after: Report, table: map<string, Severity>, e: Entry, k: string)
    requires IsExact(before, after, e) && Lookup(table, e.key) == SeverityIn(before, e.key)
    ensures Lookup(ApplyEntry(table, e), k) == if k == e.key then SeverityIn(after, k) else Lookup(table, k)
  {
  }

  /** After some entries: the keys they name have their current severity, the others still their baseline one. */
  lemma {:induction false} PatchedAt(before: Report, after: Report, entries: seq<Entry>, k: string)
    requires DistinctKeys(entries) && ExactEntries(before, after, entries)
    ensures Lookup(Patch(SeverityTable(before), entries), k)
         == if Listed(entries, k) then SeverityIn(after, k) else SeverityIn(before, k)
    decreases |entries|
  {
    if entries != [] {
      FrontOf(entries);
      var (front, last) := (entries[..|entries| - 1], entries[|entries| - 1]);
      hide DistinctKeys, Listed, IsExact, ApplyEntry, Lookup, SeverityIn, SeverityTable;
      PatchedAt(before, after, front, k);
      PatchedAt(before, after, front, last.key);
      EntryApplied(before, after, Patch(SeverityTable(before), front), last, k);
    }
  }

  /** Applying the diff to the baseline severities gives exactly the current ones. */
  lemma PatchReproduces(before: Report, after: Report, entries: seq<Entry>)
    requires IsDiff(before, after, entries)
    ensures Patch(SeverityTable(before), entries) == SeverityTable(after)
  {
    var table := Patch(SeverityTable(before), entries);
    hide Patch, StringLeq;
    forall k
      ensures Lookup(table, k) == SeverityIn(after, k)
    {
      PatchedAt(before, after, entries, k);
    }
    hide *;
    SameTable(table, after);
  }

  lemma SameTable(table: map<string, Severity>, report: Report)
    requires forall k :: Lookup(table, k) == SeverityIn(report, k)
    ensures table == SeverityTable(report)
  {
    forall k
      ensures k in table <==> k in SeverityTable(report)
      ensures k in table ==> table[k] == SeverityTable(report)[k]
    {
      assert Lookup(table, k) == SeverityIn(report, k);
    }
  }

  // ----- the other direction -----

  function Mirrored(status: Status): Status {
    match status case New => Fixed case Fixed => New case other => other
  }

  function Keys(entries: seq<Entry>): (keys: seq<string>)
    ensures |keys| == |entries| && forall i :: 0 <= i < |entries| ==> keys[i] == entries[i].key
  {
    if entries == [] then [] else [entries[0].key] + Keys(entries[1..])
  }

  lemma KeysOfDiff(before: Report, after: Report, entries: seq<Entry>)
    requires IsDiff(before, after, entries)
    ensures Ascending(Keys(entries), StringLeq) && forall k :: k in Keys(entries) <==> k in before || k in after
  {
    hide StringLeq, Keys;
    forall k
      ensures k in Keys(entries) <==> k in before || k in after
    {
      if k in before || k in after {
        var i :| 0 <= i < |entries| && entries[i].key == k;
        assert Keys(entries)[i] == k;
      }
    }
  }

  lemma SameKeys(before: Report, after: Report, entries: seq<Entry>, swapped: seq<Entry>)
    requires IsDiff(before, after, entries) && IsDiff(after, before, swapped)
    ensures Keys(swapped) == Keys(entries)
  {
    KeysOfDiff(before, after, entries);
    KeysOfDiff(after, before, swapped);
    StringOrder();
    hide *;
    AscendingIsUnique(Keys(swapped), Keys(entries), StringLeq);
  }

  /** The entry of the swapped diff that has the same key. */
  predicate IsMirrored(e: Entry, m: Entry) {
    m.key == e.key && m.status == Mirrored(e.status) && m.previous == e.current && m.current == e.previous
  }

  lemma EntryMirrored(before: Report, after: Report, e: Entry, m: Entry)
    requires IsExact(before, after, e) && IsExact(after, before, m) && e.key == m.key
    ensures IsMirrored(e, m)
  {
  }

  /** Swapping the reports keeps the keys, exchanges new with fixed and keeps the other two classes. */
  lemma SwapMirrors(before: Report, after: Report, entries: seq<Entry>, swapped: seq<Entry>)
    requires IsDiff(before, after, entries) && IsDiff(after, before, swapped)
    ensures |swapped| == |entries| && forall i :: 0 <= i < |entries| ==> IsMirrored(entries[i], swapped[i])
    ensures forall s :: Count(swapped, Mirrored(s)) == Count(entries, s)
  {
    SameKeys(before, after, entries, swapped);
    assert ExactEntries(before, after, entries) && ExactEntries(after, before, swapped);
    hide Keys, IsDiff, IsExact, IsMirrored, Count;
    assert |swapped| == |Keys(swapped)| == |entries|;
    forall i | 0 <= i < |entries|
      ensures IsMirrored(entries[i], swapped[i])
    {
      assert swapped[i].key == Keys(swapped)[i] == Keys(entries)[i] == entries[i].key;
      EntryMirrored(before, after, entries[i], swapped[i]);
    }
    forall s
      ensures Count(swapped, Mirrored(s)) == Count(entries, s)
    {
      MirroredCount(entries, swapped, s);
    }
  }

  lemma {:induction false} MirroredCount(entries: seq<Entry>, swapped: seq<Entry>, s: Status)
    requires |entries| == |swapped|
    requires forall i :: 0 <= i < |entries| ==> IsMirrored(entries[i], swapped[i])
    ensures Count(swapped, Mirrored(s)) == Count(entries, s)
  {
    if entries != [] {
      MirroredCount(entries[..|entries| - 1], swapped[..|entries| - 1], s);
    }
  }

  /** So the diff can be undone: applying the swapped diff gives the baseline back. */
  lemma SwapUndoes(before: Report, after: Report, entries: seq<Entry>, swapped: seq<Entry>)
    requires IsDiff(before, after, entries) && IsDiff(after, before, swapped)
    ensures Patch(Patch(SeverityTable(before), entries), swapped) == SeverityTable(before)
  {
    PatchReproduces(before, after, entries);
    PatchReproduces(after, before, swapped);
    hide IsDiff, Patch;
  }

  lemma ListedMeans(before: Report, after: Report, entries: seq<Entry>, k: string)
    requires IsDiff(before, after, entries)
    ensures Listed(entries, k) <==> k in before || k in after
  {
    hide StringLeq;
  }

  /**
   With suppression rules the two directions list the same keys exactly when both reports have the same
   keys suppressed; without rules they always do.
   */
  lemma SwapIsSymmetricIff(a: Report, b: Report, rules: seq<Rule>, now: int, forth: seq<Entry>, back: seq<Entry>)
    requires IsDiff(a - SuppressedKeys(b, rules, now), b - SuppressedKeys(b, rules, now), forth)
    requires IsDiff(b - SuppressedKeys(a, rules, now), a - SuppressedKeys(a, rules, now), back)
    ensures (forall k :: Listed(forth, k) <==> Listed(back, k))
      <==> SuppressedKeys(a, rules, now) == SuppressedKeys(b, rules, now)
    ensures rules == [] ==> SuppressedKeys(a, rules, now) == SuppressedKeys(b, rules, now) == {}
  {
    var (sa, sb) := (SuppressedKeys(a, rules, now), SuppressedKeys(b, rules, now));
    assert sa <= a.Keys && sb <= b.Keys;
    forall k
      ensures Listed(forth, k) <==> (k in a || k in b) && k !in sb
      ensures Listed(back, k) <==> (k in a || k in b) && k !in sa
    {
      ListedMeans(a - sb, b - sb, forth, k);
      ListedMeans(b - sa, a - sa, back, k);
    }
    if forall k :: Listed(forth, k) <==> Listed(back, k) {
      assert forall k :: k in sa <==> k in sb by {
        forall k
          ensures k in sa <==> k in sb
        {
          assert Listed(forth, k) <==> Listed(back, k);
        }
      }
    }
  }

  /**
   For example: a finding of the baseline is gone, and a rule matches it. The diff lists it as fixed, since
   the current report has nothing to suppress; the other way round it is suppressed and not listed.
   */
  lemma SuppressionIsOneSided(f: Finding, rule: Rule, now: int, forth: seq<Entry>, back: seq<Entry>)
    requires Matches(rule, f, now)
    requires
      var (a, b) := (FindingMap([f]), FindingMap([]));
      && IsDiff(a - SuppressedKeys(b, [rule], now), b - SuppressedKeys(b, [rule], now), forth)
      && IsDiff(b - SuppressedKeys(a, [rule], now), a - SuppressedKeys(a, [rule], now), back)
    ensures SuppressedKeys(FindingMap([f]), [rule], now) == {FindingKey(f)}
      && SuppressedKeys(FindingMap([]), [rule], now) == {}
    ensures Listed(forth, FindingKey(f)) && EntryOf(FindingMap([f]), map[], FindingKey(f)).status == Fixed
    ensures back == []
  {
    hide Matches, FindingKey, StringLeq;
    var (a, b) := (FindingMap([f]), FindingMap([]));
    assert [f][..0] == [] && a == map[FindingKey(f) := f] && b == map[];
    assert FirstMatch([rule], f, now) == Some(rule);
    assert SuppressedKeys(a, [rule], now) == {FindingKey(f)};
    assert b - SuppressedKeys(a, [rule], now) == map[] == a - SuppressedKeys(a, [rule], now);
    CountsAddUp(map[], map[], back);
    ListedMeans(a - SuppressedKeys(b, [rule], now), b - SuppressedKeys(b, [rule], now), forth, FindingKey(f));
  }

  // ----- counts -----

  lemma {:induction false} CountsCover(entries: seq<Entry>)
    ensures Count(entries, New) + Count(entries, Fixed) + Count(entries, Unchanged) + Count(entries, SeverityChanged)
      == |entries|
  {
    if entries != [] {
      CountsCover(entries[..|entries| - 1]);
    }
  }

  /** The keys of the entries of the other classes. */
  function KeysExcept(entries: seq<Entry>, skip: Status): set<string> {
    if entries == [] then {}
    else
      var last := entries[|entries| - 1];
      KeysExcept(entries[..|entries| - 1], skip) + if last.status != skip then {last.key} else {}
  }

  lemma {:induction false} KeysExceptCount(entries: seq<Entry>, skip: Status)
    requires DistinctKeys(entries)
    ensures |KeysExcept(entries, skip)| + Count(entries, skip) == |entries|
    ensures forall k :: k in KeysExcept(entries, skip) ==> Listed(entries, k)
  {
    if entries != [] {
      FrontOf(entries);
      hide DistinctKeys, Listed;
      KeysExceptCount(entries[..|entries| - 1], skip);
    }
  }

  lemma {:induction false} KeysExceptMeans(before: Report, after: Report, entries: seq<Entry>, k: string)
    requires ExactEntries(before, after, entries)
    ensures k in KeysExcept(entries, Fixed) <==> Listed(entries, k) && k in after
    ensures k in KeysExcept(entries, New) <==> Listed(entries, k) && k in before
  {
    if entries != [] {
      FrontOf(entries);
      assert IsExact(before, after, entries[|entries| - 1]);
      KeysExceptMeans(before, after, entries[..|entries| - 1], k);
      hide DistinctKeys, Listed, ExactEntries;
    }
  }

  lemma SidesOfDiff(before: Report, after: Report, entries: seq<Entry>)
    requires IsDiff(before, after, entries)
    ensures KeysExcept(entries, Fixed) == after.Keys && KeysExcept(entries, New) == before.Keys
  {
    hide StringLeq, KeysExcept, ExactEntries, DistinctKeys;
    forall k
      ensures k in KeysExcept(entries, Fixed) <==> k in after
      ensures k in KeysExcept(entries, New) <==> k in before
    {
      KeysExceptMeans(before, after, entries, k);
    }
  }

  /**
   The four counts sum to the number of entries; all but the fixed ones make up the current report, and
   all but the new ones the baseline.
   */
  lemma CountsAddUp(before: Report, after: Report, entries: seq<Entry>)
    requires IsDiff(before, after, entries)
    ensures Count(entries, New) + Count(entries, Fixed) + Count(entries, Unchanged) + Count(entries, SeverityChanged)
      == |entries|
    ensures |entries| - Count(entries, Fixed) == |after|
    ensures |entries| - Count(entries, New) == |before|
  {
    CountsCover(entries);
    SidesOfDiff(before, after, entries);
    KeysExceptCount(entries, Fixed);
    KeysExceptCount(entries, New);
    hide Count, KeysExcept, IsDiff;
  }

  // ----- the comparison -----

  /** One record for each suppressed key, in key order, with the reason of the first rule that matches. */
  ghost predicate IsSuppressed(keys: seq<string>, report: Report, rules: seq<Rule>, now: int,
      records: seq<Suppressed>)
  {
    if keys == [] then records == []
    else
      var (k, front) := (keys[|keys| - 1], keys[..|keys| - 1]);
      if k !in report || FirstMatch(rules, report[k], now).None? then IsSuppressed(front, report, rules, now, records)
      else
        var (f, rule) := (report[k], FirstMatch(rules, report[k], now).value);
        && records != [] && records[|records| - 1] == Suppressed(f.id, f.url, rule.reason, rule.expiresAt)
        && IsSuppressed(front, report, rules, now, records[..|records| - 1])
  }

  lemma OneMoreRecord(keys: seq<string>, n: nat, report: Report, rules: seq<Rule>, now: int, records: seq<Suppressed>)
    requires n < |keys| && keys[n] in report && IsSuppressed(keys[..n], report, rules, now, records)
    ensures
      var (f, rule) := (report[keys[n]], FirstMatch(rules, report[keys[n]], now));
      IsSuppressed(keys[..n + 1], report, rules, now,
                   if rule.None? then records
                     else records + [Suppressed(f.id, f.url, rule.value.reason, rule.value.expiresAt)])
  {
    assert keys[..n + 1][..n] == keys[..n];
    hide FirstMatch;
    var (f, rule) := (report[keys[n]], FirstMatch(rules, report[keys[n]], now));
    if rule.Some? {
      var more := records + [Suppressed(f.id, f.url, rule.value.reason, rule.value.expiresAt)];
      assert more[..|more| - 1] == records;
    }
  }

  /** What is left after the keys `done` have been looked at. */
  ghost predicate Remaining(report: Report, rules: seq<Rule>, now: int, done: seq<string>, kept: Report) {
    forall k ::
      (k in kept <==> k in report && !(k in done && IsDoomed(report, rules, now, k)))
      && (k in kept ==> kept[k] == report[k])
  }

  lemma NothingRemoved(report: Report, rules: seq<Rule>, now: int)
    ensures Remaining(report, rules, now, [], report) && IsSuppressed([], report, rules, now, [])
  {
  }

  lemma OneMoreRemoved(report: Report, rules: seq<Rule>, now: int, keys: seq<string>, n: nat, kept: Report)
    requires n < |keys| && keys[n] in report && Remaining(report, rules, now, keys[..n], kept)
    ensures Remaining(report, rules, now, keys[..n + 1],
      if FirstMatch(rules, report[keys[n]], now).Some? then kept - {keys[n]} else kept)
  {
    hide FirstMatch;
    assert keys[..n + 1] == keys[..n] + [keys[n]];
  }

  lemma AllRemoved(report: Report, rules: seq<Rule>, now: int, keys: seq<string>, kept: Report)
    requires Remaining(report, rules, now, keys, kept) && forall k :: k in keys <==> k in report
    ensures kept == report - SuppressedKeys(report, rules, now)
  {
    hide IsDoomed;
  }

  /** Removes the findings that a rule matches, and records them. */
  method Retain(report: Report, rules: seq<Rule>, now: int)
      returns (kept: Report, records: seq<Suppressed>, ghost keys: seq<string>)
    ensures kept == report - SuppressedKeys(report, rules, now)
    ensures Ascending(keys, StringLeq) && (forall k :: k in keys <==> k in report)
    ensures IsSuppressed(keys, report, rules, now, records)
  {
    StringOrder();
    hide *;
    var all := InOrder(report.Keys, StringLeq);
    kept, records, keys := report, [], all;
    NothingRemoved(report, rules, now);
    assert all[..0] == [];
    for n := 0 to |all|
      invariant Remaining(report, rules, now, all[..n], kept)
      invariant IsSuppressed(all[..n], report, rules, now, records)
    {
      var key := all[n];
      assert key in all;
      OneMoreRecord(all, n, report, rules, now, records);
      OneMoreRemoved(report, rules, now, all, n, kept);
      var rule := FirstMatch(rules, report[key], now);
      if rule.Some? {
        var f := report[key];
        records := records + [Suppressed(f.id, f.url, rule.value.reason, rule.value.expiresAt)];
        kept := kept - {key};
      }
    }
    assert all[..|all|] == all;
    AllRemoved(report, rules, now, all, kept);
  }

  lemma IsDiffWhen(before: Report, after: Report, keys: seq<string>, entries: seq<Entry>)
    requires Ascending(keys, StringLeq) && forall k :: k in keys <==> k in before.Keys + after.Keys
    requires |entries| == |keys|
    requires forall i :: 0 <= i < |keys| ==> entries[i].key == keys[i] && IsExact(before, after, entries[i])
    ensures IsDiff(before, after, entries)
  {
    hide StringLeq, IsExact;
    forall k | k in before || k in after
      ensures Listed(entries, k)
    {
      assert k in keys;
      var i :| 0 <= i < |keys| && keys[i] == k;
      assert entries[i].key == k;
    }
  }

  /** The entries of a diff: one pass over the keys of both reports, in order. */
  method DiffEntries(before: Report, after: Report) returns (entries: seq<Entry>)
    ensures IsDiff(before, after, entries)
  {
    StringOrder();
    hide StringLeq, TotalOrder, Ascending;
    var keys := InOrder(before.Keys + after.Keys, StringLeq);
    entries := [];
    for n := 0 to |keys|
      invariant |entries| == n
      invariant forall i :: 0 <= i < n ==> entries[i].key == keys[i] && IsExact(before, after, entries[i])
    {
      var key := keys[n];
      assert key in keys;
      var status :=
        if key !in before && key in after then New
        else if key in before && key !in after then Fixed
        else if before[key].severity != after[key].severity then SeverityChanged
        else Unchanged;
      var finding := if key in after then after[key] else before[key];
      entries := entries
        + [Entry(key, status, finding.id, finding.url, SeverityIn(before, key), SeverityIn(after, key))];
    }
    IsDiffWhen(before, after, keys, entries);
  }

  // ----- the result, in terms of the findings and the rules -----

  /** The rule is about this finding, its text occurs in the URL if it has one, and it has not expired. */
  ghost predicate Stifles(rule: Rule, f: Finding, now: int) {
    && rule.findingId == f.id
    && (rule.urlContains != None ==> exists j, k :: 0 <= j <= k <= |f.url| && f.url[j..k] == rule.urlContains.value)
    && (rule.expiresAt != None ==> now < rule.expiresAt.value)
  }

  /** Rule `i` is the first that stifles the finding. */
  ghost predicate IsFirstRule(rules: seq<Rule>, i: int, f: Finding, now: int) {
    0 <= i < |rules| && Stifles(rules[i], f, now) && forall j :: 0 <= j < i ==> !Stifles(rules[j], f, now)
  }

  ghost predicate HasKey(f: Finding, key: string) {
    && (f.parameter == None ==> key == f.id + ":" + f.url + ":-")
    && (f.parameter != None ==> key == f.id + ":" + f.url + ":" + f.parameter.value)
  }

  /** `f` is the last finding with this key. */
  ghost predicate Holds(findings: seq<Finding>, key: string, f: Finding) {
    exists i :: HoldsAt(findings, key, f, i)
  }

  ghost predicate HoldsAt(findings: seq<Finding>, key: string, f: Finding, i: int) {
    && 0 <= i < |findings| && findings[i] == f && HasKey(f, key)
    && forall j :: i < j < |findings| ==> !HasKey(findings[j], key)
  }

  /** A rule stifles the current finding with this key. */
  ghost predicate IsHidden(current: seq<Finding>, rules: seq<Rule>, now: int, key: string) {
    exists f, i :: Holds(current, key, f) && IsFirstRule(rules, i, f, now)
  }

  /** `e` says what became of its key: which severities it had and has, and which finding stands for it. */
  ghost predicate IsVerdict(baseline: seq<Finding>, current: seq<Finding>, e: Entry) {
    && (e.previous.Some? <==> exists f :: Holds(baseline, e.key, f))
    && (e.current.Some? <==> exists f :: Holds(current, e.key, f))
    && (forall f :: Holds(baseline, e.key, f) ==>
          e.previous == Some(f.severity) && (e.current == None ==> e.findingId == f.id && e.url == f.url))
    && (forall f :: Holds(current, e.key, f) ==> e.current == Some(f.severity) && e.findingId == f.id && e.url == f.url)
    && (e.status == New <==> e.previous == None) && (e.status == Fixed <==> e.current == None)
    && (e.status == Unchanged <==> e.previous == e.current)
    && (e.previous.Some? || e.current.Some?)
  }

  /** One verdict for each key that either report has and that is not hidden, in the order of the keys. */
  ghost predicate AreVerdicts(baseline: seq<Finding>, current: seq<Finding>, rules: seq<Rule>, now: int,
                              entries: seq<Entry>)
  {
    && (forall e :: e in entries ==> IsVerdict(baseline, current, e) && !IsHidden(current, rules, now, e.key))
    && (forall key, f :: (Holds(baseline, key, f) || Holds(current, key, f)) && !IsHidden(current, rules, now, key) ==>
          Listed(entries, key))
    && (forall i, j :: 0 <= i < j < |entries| ==>
          entries[i].key != entries[j].key && StringLeq(entries[i].key, entries[j].key))
  }

  /** The record says which finding was hidden, and by which rule. */
  ghost predicate IsRecord(current: seq<Finding>, rules: seq<Rule>, now: int, key: string, r: Suppressed) {
    exists f, i :: Holds(current, key, f) && IsFirstRule(rules, i, f, now)
                   && r == Suppressed(f.id, f.url, rules[i].reason, rules[i].expiresAt)
  }

  /** One record for each hidden key, in the order of the keys. */
  ghost predicate AreRecords(current: seq<Finding>, rules: seq<Rule>, now: int, keys: seq<string>,
                             records: seq<Suppressed>)
  {
    && |keys| == |records|
    && (forall i :: 0 <= i < |keys| ==> IsRecord(current, rules, now, keys[i], records[i]))
    && (forall key :: IsHidden(current, rules, now, key) ==> key in keys)
    && (forall i, j :: 0 <= i < j < |keys| ==> keys[i] != keys[j] && StringLeq(keys[i], keys[j]))
  }

  lemma StiflesIs(rule: Rule, f: Finding, now: int)
    ensures Stifles(rule, f, now) <==> Matches(rule, f, now)
  {
    if rule.urlContains.Some? {
      ContainsIs(f.url, rule.urlContains.value);
      hide Contains;
    }
  }

  lemma HasKeyIs(f: Finding, key: string)
    ensures HasKey(f, key) <==> FindingKey(f) == key
  {
    assert (f.id + ":" + f.url) + ":-" == f.id + ":" + f.url + ":" + "-";
  }

  lemma {:induction false} HoldsIs(findings: seq<Finding>, key: string, f: Finding)
    ensures Holds(findings, key, f) <==> key in FindingMap(findings) && FindingMap(findings)[key] == f
  {
    if findings == [] {
      assert forall i :: !HoldsAt(findings, key, f, i);
    } else {
      var (front, last) := (findings[..|findings| - 1], findings[|findings| - 1]);
      HoldsIs(front, key, f);
      HasKeyIs(last, key);
      hide HasKey, FindingKey;
      if HasKey(last, key) {
        assert HoldsAt(findings, key, last, |front|);
        assert forall i :: HoldsAt(findings, key, f, i) ==> i == |front|;
      } else {
        forall i
          ensures HoldsAt(findings, key, f, i) <==> HoldsAt(front, key, f, i)
        {
        }
      }
    }
  }

  lemma FirstRuleIs(rules: seq<Rule>, f: Finding, now: int)
    ensures FirstMatch(rules, f, now).Some? <==> exists i :: IsFirstRule(rules, i, f, now)
    ensures forall i :: IsFirstRule(rules, i, f, now) ==> FirstMatch(rules, f, now) == Some(rules[i])
  {
    if rules == [] {
      assert forall i :: !IsFirstRule(rules, i, f, now);
    } else {
      var rest := rules[1..];
      FirstRuleIs(rest, f, now);
      StiflesIs(rules[0], f, now);
      hide Stifles, Matches;
      if Stifles(rules[0], f, now) {
        assert IsFirstRule(rules, 0, f, now);
        assert forall i :: IsFirstRule(rules, i, f, now) ==> i == 0;
      } else {
        forall i
          ensures IsFirstRule(rules, i, f, now) ==> i > 0 && IsFirstRule(rest, i - 1, f, now) && rest[i - 1] == rules[i]
          ensures IsFirstRule(rest, i, f, now) ==> IsFirstRule(rules, i + 1, f, now)
        {
          FirstRuleShifts(rules, i, f, now);
        }
        hide IsFirstRule;
        if i :| IsFirstRule(rest, i, f, now) {
          assert IsFirstRule(rules, i + 1, f, now);
        }
      }
    }
  }

  lemma FirstRuleShifts(rules: seq<Rule>, i: int, f: Finding, now: int)
    requires rules != [] && !Stifles(rules[0], f, now)
    ensures IsFirstRule(rules, i, f, now) ==>
      i > 0 && IsFirstRule(rules[1..], i - 1, f, now) && rules[1..][i - 1] == rules[i]
    ensures IsFirstRule(rules[1..], i, f, now) ==> IsFirstRule(rules, i + 1, f, now)
  {
    hide Stifles;
    var rest := rules[1..];
    assert forall j :: 0 <= j < |rest| ==> rest[j] == rules[j + 1];
    if IsFirstRule(rest, i, f, now) {
      forall j | 0 <= j < i + 1
        ensures !Stifles(rules[j], f, now)
      {
        if j > 0 {
          assert rest[j - 1] == rules[j];
        }
      }
    }
  }

  lemma HiddenIs(current: seq<Finding>, rules: seq<Rule>, now: int, key: string)
    ensures IsHidden(current, rules, now, key) <==> key in SuppressedKeys(FindingMap(current), rules, now)
  {
    var report := FindingMap(current);
    forall f
      ensures Holds(current, key, f) <==> key in report && report[key] == f
    {
      HoldsIs(current, key, f);
    }
    hide FindingMap, Holds, FirstMatch, IsFirstRule;
    if key in report {
      FirstRuleIs(rules, report[key], now);
      assert Holds(current, key, report[key]);
    }
  }

  lemma VerdictIs(baseline: seq<Finding>, current: seq<Finding>, hidden: set<string>, e: Entry)
    requires IsExact(FindingMap(baseline) - hidden, FindingMap(current) - hidden, e) && e.key !in hidden
    ensures IsVerdict(baseline, current, e)
  {
    var (before, after) := (FindingMap(baseline), FindingMap(current));
    forall f
      ensures Holds(baseline, e.key, f) <==> e.key in before && before[e.key] == f
      ensures Holds(current, e.key, f) <==> e.key in after && after[e.key] == f
    {
      HoldsIs(baseline, e.key, f);
      HoldsIs(current, e.key, f);
    }
    hide FindingMap, Holds;
    assert e.key in before ==> Holds(baseline, e.key, before[e.key]);
    assert e.key in after ==> Holds(current, e.key, after[e.key]);
  }

  lemma VerdictsAre(baseline: seq<Finding>, current: seq<Finding>, rules: seq<Rule>, now: int, entries: seq<Entry>)
    requires
      var hidden := SuppressedKeys(FindingMap(current), rules, now);
      IsDiff(FindingMap(baseline) - hidden, FindingMap(current) - hidden, entries)
    ensures AreVerdicts(baseline, current, rules, now, entries)
  {
    var hidden := SuppressedKeys(FindingMap(current), rules, now);
    var (before, after) := (FindingMap(baseline) - hidden, FindingMap(current) - hidden);
    hide FindingMap, SuppressedKeys, IsVerdict, IsHidden, StringLeq, Holds, Listed;
    forall e | e in entries
      ensures IsVerdict(baseline, current, e) && !IsHidden(current, rules, now, e.key)
    {
      var i :| 0 <= i < |entries| && entries[i] == e;
      assert IsExact(before, after, entries[i]);
      VerdictIs(baseline, current, hidden, e);
      HiddenIs(current, rules, now, e.key);
    }
    forall key, f | (Holds(baseline, key, f) || Holds(current, key, f)) && !IsHidden(current, rules, now, key)
      ensures Listed(entries, key)
    {
      HoldsIs(baseline, key, f);
      HoldsIs(current, key, f);
      HiddenIs(current, rules, now, key);
    }
  }

  lemma RecordIs(current: seq<Finding>, rules: seq<Rule>, now: int, key: string)
    requires IsDoomed(FindingMap(current), rules, now, key)
    ensures
      var f := FindingMap(current)[key];
      var rule := FirstMatch(rules, f, now).value;
      IsRecord(current, rules, now, key, Suppressed(f.id, f.url, rule.reason, rule.expiresAt))
  {
    var f := FindingMap(current)[key];
    HoldsIs(current, key, f);
    FirstRuleIs(rules, f, now);
    hide FindingMap, Holds, FirstMatch, IsFirstRule;
    var i :| IsFirstRule(rules, i, f, now);
    assert IsFirstRule(rules, i, f, now) ==> 0 <= i < |rules| by {
      RuleInRange(rules, i, f, now);
    }
  }

  lemma RuleInRange(rules: seq<Rule>, i: int, f: Finding, now: int)
    requires IsFirstRule(rules, i, f, now)
    ensures 0 <= i < |rules|
  {
  }

  /** The hidden ones among some keys, with their records. */
  ghost predicate RecordsOf(current: seq<Finding>, rules: seq<Rule>, now: int, keys: seq<string>,
                            hidden: seq<string>, records: seq<Suppressed>)
  {
    && |hidden| == |records|
    && (forall i :: 0 <= i < |hidden| ==> hidden[i] in keys && IsRecord(current, rules, now, hidden[i], records[i]))
    && (forall key :: key in keys && IsDoomed(FindingMap(current), rules, now, key) ==> key in hidden)
    && (forall i, j :: 0 <= i < j < |hidden| ==> hidden[i] != hidden[j] && StringLeq(hidden[i], hidden[j]))
  }

  lemma {:induction false} FindRecords(current: seq<Finding>, rules: seq<Rule>, now: int, keys: seq<string>,
                                       records: seq<Suppressed>) returns (hidden: seq<string>)
    requires Ascending(keys, StringLeq) && IsSuppressed(keys, FindingMap(current), rules, now, records)
    ensures RecordsOf(current, rules, now, keys, hidden, records)
    decreases |keys|
  {
    hide *;
    if keys == [] {
      hidden := [];
      NoRecords(current, rules, now, records);
    } else {
      var (front, k) := (keys[..|keys| - 1], keys[|keys| - 1]);
      LastRecord(keys, FindingMap(current), rules, now, records);
      if IsDoomed(FindingMap(current), rules, now, k) {
        RecordIs(current, rules, now, k);
        var less := FindRecords(current, rules, now, front, records[..|records| - 1]);
        hidden := less + [k];
        OneRecordMore(current, rules, now, keys, less, records);
      } else {
        hidden := FindRecords(current, rules, now, front, records);
        NoRecordMore(current, rules, now, keys, hidden, records);
      }
    }
  }

  lemma NoRecords(current: seq<Finding>, rules: seq<Rule>, now: int, records: seq<Suppressed>)
    requires IsSuppressed([], FindingMap(current), rules, now, records)
    ensures RecordsOf(current, rules, now, [], [], records)
  {
  }

  /** What a list of records says about its last key. */
  lemma LastRecord(keys: seq<string>, report: Report, rules: seq<Rule>, now: int, records: seq<Suppressed>)
    requires keys != [] && Ascending(keys, StringLeq) && IsSuppressed(keys, report, rules, now, records)
    ensures
      var (front, k) := (keys[..|keys| - 1], keys[|keys| - 1]);
      && Ascending(front, StringLeq)
      && if IsDoomed(report, rules, now, k) then
           var (f, rule) := (report[k], FirstMatch(rules, report[k], now).value);
           && records != [] && records[|records| - 1] == Suppressed(f.id, f.url, rule.reason, rule.expiresAt)
           && IsSuppressed(front, report, rules, now, records[..|records| - 1])
         else IsSuppressed(front, report, rules, now, records)
  {
    hide StringLeq, FirstMatch;
  }

  lemma OneRecordMore(current: seq<Finding>, rules: seq<Rule>, now: int, keys: seq<string>, less: seq<string>,
                      records: seq<Suppressed>)
    requires keys != [] && records != [] && Ascending(keys, StringLeq)
    requires RecordsOf(current, rules, now, keys[..|keys| - 1], less, records[..|records| - 1])
    requires IsRecord(current, rules, now, keys[|keys| - 1], records[|records| - 1])
    ensures RecordsOf(current, rules, now, keys, less + [keys[|keys| - 1]], records)
  {
    hide StringLeq, IsRecord, IsDoomed;
    var (front, k) := (keys[..|keys| - 1], keys[|keys| - 1]);
    assert keys == front + [k];
    forall x | x in front
      ensures StringLeq(x, k) && x != k
    {
      var i :| 0 <= i < |front| && front[i] == x;
      assert keys[i] == x;
    }
  }

  lemma NoRecordMore(current: seq<Finding>, rules: seq<Rule>, now: int, keys: seq<string>, hidden: seq<string>,
                     records: seq<Suppressed>)
    requires keys != [] && RecordsOf(current, rules, now, keys[..|keys| - 1], hidden, records)
    requires !IsDoomed(FindingMap(current), rules, now, keys[|keys| - 1])
    ensures RecordsOf(current, rules, now, keys, hidden, records)
  {
    hide StringLeq, IsRecord, IsDoomed;
    assert keys == keys[..|keys| - 1] + [keys[|keys| - 1]];
  }

  lemma RecordsAre(current: seq<Finding>, rules: seq<Rule>, now: int, keys: seq<string>, hidden: seq<string>,
                   records: seq<Suppressed>)
    requires RecordsOf(current, rules, now, keys, hidden, records)
    requires forall k :: k in keys <==> k in FindingMap(current)
    ensures AreRecords(current, rules, now, hidden, records)
  {
    hide FindingMap, StringLeq, IsRecord, IsHidden;
    forall key | IsHidden(current, rules, now, key)
      ensures key in hidden
    {
      HiddenIs(current, rules, now, key);
    }
  }

  /** The positions of the entries of one class. */
  ghost function Of(entries: seq<Entry>, status: Status): set<int> {
    set i | 0 <= i < |entries| && entries[i].status == status
  }

  lemma {:induction false} CountIsSize(entries: seq<Entry>, status: Status)
    ensures Count(entries, status) == |Of(entries, status)|
  {
    if entries == [] {
      assert Of(entries, status) == {};
    } else {
      var (front, last) := (entries[..|entries| - 1], |entries| - 1);
      CountIsSize(front, status);
      OfGrows(entries, status);
      hide Of;
      var own := if entries[last].status == status then {last} else {};
      assert |Of(front, status) + own| == |Of(front, status)| + |own|;
    }
  }

  lemma OfGrows(entries: seq<Entry>, status: Status)
    requires entries != []
    ensures
      var (front, last) := (entries[..|entries| - 1], |entries| - 1);
      && last !in Of(front, status)
      && Of(entries, status) == Of(front, status) + if entries[last].status == status then {last} else {}
  {
  }

  /**
   The comparison: the diff of the two reports without the suppressed keys. Only current findings decide
   what is suppressed, and a suppressed key is left out on both sides.
   */
  method CompareReports(baseline: seq<Finding>, current: seq<Finding>, rules: seq<Rule>, now: int)
    returns (diff: Diff, ghost before: Report, ghost after: Report, ghost keys: seq<string>, ghost hidden: seq<string>)
    ensures AreVerdicts(baseline, current, rules, now, diff.findings)
    ensures AreRecords(current, rules, now, hidden, diff.suppressed)
    ensures diff.newCount == |Of(diff.findings, New)| && diff.fixedCount == |Of(diff.findings, Fixed)|
    ensures diff.unchangedCount == |Of(diff.findings, Unchanged)|
    ensures diff.severityChangedCount == |Of(diff.findings, SeverityChanged)|
    ensures
      var doomed := SuppressedKeys(FindingMap(current), rules, now);
      before == FindingMap(baseline) - doomed && after == FindingMap(current) - doomed
    ensures IsDiff(before, after, diff.findings)
    ensures Ascending(keys, StringLeq) && (forall k :: k in keys <==> k in FindingMap(current))
    ensures IsSuppressed(keys, FindingMap(current), rules, now, diff.suppressed)
    ensures diff.newCount == Count(diff.findings, New) && diff.fixedCount == Count(diff.findings, Fixed)
    ensures diff.unchangedCount == Count(diff.findings, Unchanged)
    ensures diff.severityChangedCount == Count(diff.findings, SeverityChanged)
  {
    var baselineMap, currentMap := FindingMap(baseline), FindingMap(current);
    hide FindingMap, Count, IsSuppressed, Ascending, IsDiff, AreVerdicts, AreRecords, RecordsOf, Of;
    var active := SuppressedKeys(currentMap, rules, now);
    var kept, records;
    kept, records, keys := Retain(currentMap, rules, now);
    var unsuppressed := map k | k in baselineMap && k !in active :: baselineMap[k];
    assert unsuppressed == baselineMap - active;
    var entries := DiffEntries(unsuppressed, kept);
    before, after := unsuppressed, kept;
    diff := Diff(entries, records, Count(entries, New), Count(entries, Fixed), Count(entries, Unchanged),
      Count(entries, SeverityChanged));
    VerdictsAre(baseline, current, rules, now, entries);
    hidden := FindRecords(current, rules, now, keys, records);
    RecordsAre(current, rules, now, keys, hidden, records);
    CountIsSize(entries, New);
    CountIsSize(entries, Fixed);
    CountIsSize(entries, Unchanged);
    CountIsSize(entries, SeverityChanged);
  }
}
