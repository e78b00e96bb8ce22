/** Grouping findings by root cause: one finding for each cause, represented by its riskiest occurrence. */
module Dedup {
  import opened Options
  import opened Severities
  import opened Collections
  import opened Text
  import opened Ordered

  /** A finding; `risk` is its score. */
  datatype Vulnerability = Vulnerability(id: string, name: string, severity: Severity, url: string,
                                         parameter: Option<string>, remediation: string, risk: real)

  datatype Deduped = Deduped(key: string, ruleId: string, name: string, severity: Severity, url: string,
                             occurrences: nat, risk: real, remediation: string)

  // ----- root causes -----

  /** What follows the first `://`, or everything. */
  function AfterScheme(s: string): string {
    var rest := Scheme(s);
    if rest.Some? then rest.value else s
  }

  function Scheme(s: string): Option<string> {
    if |s| < 3 then None else if s[..3] == "://" then Some(s[3..]) else Scheme(s[1..])
  }

  function UpTo(s: string, stops: set<char>): string {
    if s == [] || s[0] in stops then [] else [s[0]] + UpTo(s[1..], stops)
  }

  function AfterLast(s: string, c: char): string {
    if IndexOf(s, c) == |s| then s else AfterLast(s[IndexOf(s, c) + 1..], c)
  }

  function NonEmpty(s: string): Option<string> {
    if s == [] then None else Some(s)
  }

  function HostFromUrl(url: string): Option<string> {
    var authority := AfterLast(UpTo(AfterScheme(url), {'/', '?', '#'}), '@');
    if authority != [] && authority[0] == '[' then
      var end := IndexOf(authority[1..], ']');
      if end == |authority| - 1 then None else NonEmpty(authority[1..][..end])
    else NonEmpty(UpTo(authority, {':'}))
  }

  function Scope(v: Vulnerability): string {
    var host := if HostFromUrl(v.url).Some? then HostFromUrl(v.url).value else v.url;
    if "SEC-HEADER-" <= v.id then host
    else host + ":" + if v.parameter.Some? then v.parameter.value else "-"
  }

  function RootCauseKey(v: Vulnerability): string {
    v.id + ":" + Scope(v)
  }

  // ----- groups -----

  /** The findings with this root cause, in order. */
  function Members(findings: seq<Vulnerability>, key: string): seq<Vulnerability> {
    if findings == [] then []
    else
      var (front, last) := (Members(findings[..|findings| - 1], key), findings[|findings| - 1]);
      if RootCauseKey(last) == key then front + [last] else front
  }

  ghost predicate IsGrouped(findings: seq<Vulnerability>, groups: map<string, seq<Vulnerability>>) {
    && (forall k :: k in groups ==> groups[k] != [] && groups[k] == Members(findings, k))
    && (forall k :: k !in groups ==> Members(findings, k) == [])
  }

  lemma OneMoreMember(findings: seq<Vulnerability>, i: nat, groups: map<string, seq<Vulnerability>>)
    requires i < |findings| && IsGrouped(findings[..i], groups)
    ensures
      var (v, key) := (findings[i], RootCauseKey(findings[i]));
      IsGrouped(findings[..i + 1], groups[key := if key in groups then groups[key] + [v] else [v]])
  {
    hide RootCauseKey;
    assert findings[..i + 1][..i] == findings[..i];
  }

  /** The last of the riskiest members. */
  function Riskiest(group: seq<Vulnerability>): (v: Vulnerability)
    requires group != []
    ensures v in group
  {
    if |group| == 1 then group[0]
    else
      var (best, last) := (Riskiest(group[..|group| - 1]), group[|group| - 1]);
      if last.risk >= best.risk then last else best
  }

  lemma {:induction false} RiskiestIsMaximal(group: seq<Vulnerability>)
    requires group != []
    ensures forall v :: v in group ==> v.risk <= Riskiest(group).risk
  {
    if |group| > 1 {
      var front := group[..|group| - 1];
      RiskiestIsMaximal(front);
      assert group == front + [group[|group| - 1]];
    }
  }

  lemma {:induction false} UrlsAreFewer(group: seq<Vulnerability>)
    ensures |set v | v in group :: v.url| <= |group|
  {
    var urls := set v | v in group :: v.url;
    if group != [] {
      var (front, last) := (group[..|group| - 1], group[|group| - 1]);
      UrlsAreFewer(front);
      var before := set v | v in front :: v.url;
      assert group == front + [last];
      assert urls == before + {last.url};
    } else {
      assert urls == {};
    }
  }

  lemma {:induction false} MembersAre(findings: seq<Vulnerability>, key: string)
    ensures forall v :: v in Members(findings, key) <==> v in findings && RootCauseKey(v) == key
  {
    hide RootCauseKey;
    if findings != [] {
      MembersAre(findings[..|findings| - 1], key);
      assert findings == findings[..|findings| - 1] + [findings[|findings| - 1]];
    }
  }

  // ----- what deduplication returns -----

  /** A group stands for its riskiest member, and counts them all. */
  function SummaryOf(key: string, group: seq<Vulnerability>): Deduped
    requires group != []
  {
    var v := Riskiest(group);
    Deduped(key, v.id, v.name, v.severity, v.url, |group|, v.risk, v.remediation)
  }

  function Summary(findings: seq<Vulnerability>, key: string): Deduped
    requires Members(findings, key) != []
  {
    SummaryOf(key, Members(findings, key))
  }

  /** The order the sort asks for: riskier first, then by rule. */
  predicate NotBehind(a: Deduped, b: Deduped) {
    a.risk > b.risk || (a.risk == b.risk && StringLeq(a.ruleId, b.ruleId))
  }

  /** The order it gives: groups that tie stay in the order of their keys, since the sort is stable. */
  predicate Before(a: Deduped, b: Deduped) {
    NotBehind(a, b) && (NotBehind(b, a) ==> StringLeq(a.key, b.key))
  }

  function Occurrences(d: Deduped): nat {
    d.occurrences
  }

  predicate HasKey(groups: seq<Deduped>, key: string) {
    exists i :: 0 <= i < |groups| && groups[i].key == key
  }

  /** Exactly one group for each root cause among the findings. */
  ghost predicate Covers(findings: seq<Vulnerability>, groups: seq<Deduped>) {
    && (forall i, j :: 0 <= i < j < |groups| ==> groups[i].key != groups[j].key)
    && (forall i ::
      0 <= i < |groups| ==> Members(findings, groups[i].key) != [] && groups[i] == Summary(findings, groups[i].key))
    && (forall v :: v in findings ==> HasKey(groups, RootCauseKey(v)))
  }

  /** Nothing is lost: the occurrences of all groups add up to the number of findings. */
  lemma OccurrencesAddUp(findings: seq<Vulnerability>, groups: seq<Deduped>)
    requires Covers(findings, groups)
    ensures Sum(groups, Occurrences) == |findings|
  {
    hide RootCauseKey;
    assert forall i :: 0 <= i < |groups| ==> groups[i].occurrences == |Members(findings, groups[i].key)|;
    OccurrencesAre(findings, groups);
    MembersAddUp(findings, groups);
  }

  function MemberTotal(findings: seq<Vulnerability>, groups: seq<Deduped>): nat {
    if groups == [] then 0 else |Members(findings, groups[0].key)| + MemberTotal(findings, groups[1..])
  }

  lemma {:induction false} OccurrencesAre(findings: seq<Vulnerability>, groups: seq<Deduped>)
    requires forall i :: 0 <= i < |groups| ==> groups[i].occurrences == |Members(findings, groups[i].key)|
    ensures Sum(groups, Occurrences) == MemberTotal(findings, groups)
  {
    if groups != [] {
      OccurrencesAre(findings, groups[1..]);
    }
  }

  lemma {:induction false} MembersAddUp(findings: seq<Vulnerability>, groups: seq<Deduped>)
    requires forall i, j :: 0 <= i < j < |groups| ==> groups[i].key != groups[j].key
    requires forall v :: v in findings ==> HasKey(groups, RootCauseKey(v))
    ensures MemberTotal(findings, groups) == |findings|
  {
    hide RootCauseKey, HasKey;
    if findings == [] {
      NoMembers(groups);
    } else {
      var (front, last) := (findings[..|findings| - 1], findings[|findings| - 1]);
      assert last in findings && forall v :: v in front ==> v in findings;
      MembersAddUp(front, groups);
      OneMoreInTotal(findings, groups);
    }
  }

  lemma {:induction false} NoMembers(groups: seq<Deduped>)
    ensures MemberTotal([], groups) == 0
  {
    if groups != [] {
      NoMembers(groups[1..]);
    }
  }

  lemma {:induction false} OneMoreInTotal(findings: seq<Vulnerability>, groups: seq<Deduped>)
    requires findings != [] && forall i, j :: 0 <= i < j < |groups| ==> groups[i].key != groups[j].key
    ensures
      var key := RootCauseKey(findings[|findings| - 1]);
      MemberTotal(findings, groups)
      == MemberTotal(findings[..|findings| - 1], groups) + if HasKey(groups, key) then 1 else 0
    decreases |groups|
  {
    hide RootCauseKey;
    var key := RootCauseKey(findings[|findings| - 1]);
    if groups != [] {
      OneMoreInTotal(findings, groups[1..]);
      assert HasKey(groups, key) <==> groups[0].key == key || HasKey(groups[1..], key) by {
        if HasKey(groups[1..], key) {
          var i :| 0 <= i < |groups| - 1 && groups[1..][i].key == key;
          assert groups[i + 1].key == key;
        }
      }
    }
  }

  /** Each group's representative has the largest risk of all findings with its root cause, and is one of them. */
  lemma RepresentativeIsRiskiest(findings: seq<Vulnerability>, groups: seq<Deduped>, i: nat)
    requires Covers(findings, groups) && i < |groups|
    ensures exists v ::
      v in findings && RootCauseKey(v) == groups[i].key && v.risk == groups[i].risk && v.url == groups[i].url
    ensures forall v :: v in findings && RootCauseKey(v) == groups[i].key ==> v.risk <= groups[i].risk
    ensures |set v | v in findings && RootCauseKey(v) == groups[i].key :: v.url| <= groups[i].occurrences
  {
    hide RootCauseKey;
    var key := groups[i].key;
    var group := Members(findings, key);
    MembersAre(findings, key);
    RiskiestIsMaximal(group);
    UrlsAreFewer(group);
    hide Members, Riskiest;
    assert Riskiest(group) in group;
    assert (set v | v in findings && RootCauseKey(v) == key :: v.url) == (set v | v in group :: v.url);
  }

  // ----- sorting -----

  ghost predicate IsSorted(groups: seq<Deduped>) {
    forall i, j :: 0 <= i < j < |groups| ==> Before(groups[i], groups[j])
  }

  /** The same groups in another order. */
  ghost predicate Rearranges(a: seq<Deduped>, b: seq<Deduped>) {
    |a| == |b| && (forall d :: d in a <==> d in b)
  }

  lemma NotBehindIsAnOrder(a: Deduped, b: Deduped, c: Deduped)
    ensures NotBehind(a, b) || NotBehind(b, a)
    ensures NotBehind(a, b) && NotBehind(b, c) ==> NotBehind(a, c)
  {
    StringTotal(a.ruleId, b.ruleId);
    if StringLeq(a.ruleId, b.ruleId) && StringLeq(b.ruleId, c.ruleId) {
      StringTransitive(a.ruleId, b.ruleId, c.ruleId);
    }
    hide StringLeq;
  }

  /** `d` comes from further down the list of keys than all of `groups`. */
  ghost predicate KeysUpTo(groups: seq<Deduped>, d: Deduped) {
    forall g :: g in groups ==> StringLeq(g.key, d.key)
  }

  /** Places `d` after the groups it is not ahead of, as a stable sort does. */
  method Insert(sorted: seq<Deduped>, d: Deduped) returns (result: seq<Deduped>)
    requires IsSorted(sorted) && KeysUpTo(sorted, d)
    ensures IsSorted(result) && Rearranges(result, sorted + [d])
  {
    hide NotBehind, StringLeq;
    var n := |sorted|;
    while n > 0 && !NotBehind(sorted[n - 1], d)
      invariant 0 <= n <= |sorted|
      invariant forall i :: n <= i < |sorted| ==> !NotBehind(sorted[i], d)
    {
      n := n - 1;
    }
    forall i | 0 <= i < |sorted|
      ensures if i < n then Before(sorted[i], d) else Before(d, sorted[i])
    {
      NotBehindIsAnOrder(d, sorted[i], d);
      if i < n {
        if i < n - 1 {
          NotBehindIsAnOrder(sorted[i], sorted[n - 1], d);
        }
        assert sorted[i] in sorted;
      }
    }
    result := sorted[..n] + [d] + sorted[n..];
    InsertedSorted(sorted, n, d);
  }

  lemma InsertedSorted(sorted: seq<Deduped>, n: nat, d: Deduped)
    requires IsSorted(sorted) && n <= |sorted|
    requires (forall i :: 0 <= i < n ==> Before(sorted[i], d))
      && (forall i :: n <= i < |sorted| ==> Before(d, sorted[i]))
    ensures IsSorted(sorted[..n] + [d] + sorted[n..]) && Rearranges(sorted[..n] + [d] + sorted[n..], sorted + [d])
  {
    hide Before;
    var result := sorted[..n] + [d] + sorted[n..];
    assert sorted == sorted[..n] + sorted[n..];
    forall i | 0 <= i < |result|
      ensures result[i] == if i < n then sorted[i] else if i == n then d else sorted[i - 1]
    {
    }
  }

  ghost predicate InKeyOrder(groups: seq<Deduped>) {
    forall i, j :: 0 <= i < j < |groups| ==> StringLeq(groups[i].key, groups[j].key)
  }

  /** The groups sorted by risk, riskiest first, then by rule, then by key. */
  method SortGroups(groups: seq<Deduped>) returns (sorted: seq<Deduped>)
    requires InKeyOrder(groups)
    ensures IsSorted(sorted) && Rearranges(sorted, groups)
  {
    hide Before, StringLeq;
    sorted := [];
    for i := 0 to |groups|
      invariant IsSorted(sorted) && Rearranges(sorted, groups[..i])
    {
      hide IsSorted;
      assert groups[..i + 1] == groups[..i] + [groups[i]];
      sorted := Insert(sorted, groups[i]);
    }
    assert groups[..|groups|] == groups;
  }

  lemma CoversRearranged(findings: seq<Vulnerability>, a: seq<Deduped>, b: seq<Deduped>)
    requires Covers(findings, a) && Rearranges(b, a)
    ensures Covers(findings, b)
  {
    hide RootCauseKey, Members, SummaryOf, Summary;
    KeysStayDistinct(a, b);
    forall i | 0 <= i < |b|
      ensures Members(findings, b[i].key) != [] && b[i] == Summary(findings, b[i].key)
    {
      assert b[i] in b;
      var j :| 0 <= j < |a| && a[j] == b[i];
    }
    forall v | v in findings
      ensures HasKey(b, RootCauseKey(v))
    {
      var j :| 0 <= j < |a| && a[j].key == RootCauseKey(v);
      assert a[j] in a;
      var i :| 0 <= i < |b| && b[i] == a[j];
    }
  }

  lemma KeysStayDistinct(a: seq<Deduped>, b: seq<Deduped>)
    requires (forall i, j :: 0 <= i < j < |a| ==> a[i].key != a[j].key) && Rearranges(b, a)
    ensures forall i, j :: 0 <= i < j < |b| ==> b[i].key != b[j].key
  {
    DistinctCardinality(a);
    assert Elements(a) == Elements(b);
    FullyDistinct(b);
    forall i, j | 0 <= i < j < |b|
      ensures b[i].key != b[j].key
    {
      assert b[i] in a && b[j] in a;
      var p :| 0 <= p < |a| && a[p] == b[i];
      var q :| 0 <= q < |a| && a[q] == b[j];
    }
  }

  /** The findings by root cause, each group in order. */
  method GroupFindings(findings: seq<Vulnerability>) returns (groups: map<string, seq<Vulnerability>>)
    ensures IsGrouped(findings, groups)
  {
    groups := map[];
    for i := 0 to |findings|
      invariant IsGrouped(findings[..i], groups)
    {
      OneMoreMember(findings, i, groups);
      hide *;
      var key := RootCauseKey(findings[i]);
      groups := groups[key := if key in groups then groups[key] + [findings[i]] else [findings[i]]];
    }
    assert findings[..|findings|] == findings;
  }

  /** The occurrences are the larger of the members and their addresses, which is the members. */
  method SummarizeGroup(key: string, group: seq<Vulnerability>) returns (d: Deduped)
    requires group != []
    ensures d == SummaryOf(key, group)
  {
    var v := Riskiest(group);
    var urls := set w | w in group :: w.url;
    UrlsAreFewer(group);
    var occurrences := if |urls| > |group| then |urls| else |group|;
    d := Deduped(key, v.id, v.name, v.severity, v.url, occurrences, v.risk, v.remediation);
  }

  lemma GroupOf(findings: seq<Vulnerability>, groups: map<string, seq<Vulnerability>>, key: string)
    requires IsGrouped(findings, groups) && key in groups
    ensures groups[key] != [] && groups[key] == Members(findings, key)
    ensures Summary(findings, key) == SummaryOf(key, groups[key])
  {
    hide Members, Riskiest;
  }

  method SummarizeGroups(groups: map<string, seq<Vulnerability>>, ghost findings: seq<Vulnerability>)
    returns (summaries: seq<Deduped>)
    requires IsGrouped(findings, groups)
    ensures Covers(findings, summaries) && InKeyOrder(summaries)
  {
    StringOrder();
    hide *;
    var keys := InOrder(groups.Keys, StringLeq);
    summaries := [];
    for i := 0 to |keys|
      invariant |summaries| == i
      invariant forall j ::
        0 <= j < i ==> Members(findings, keys[j]) != [] && summaries[j] == Summary(findings, keys[j])
    {
      assert keys[i] in keys;
      GroupOf(findings, groups, keys[i]);
      var d := SummarizeGroup(keys[i], groups[keys[i]]);
      summaries := summaries + [d];
    }
    SummariesCover(findings, groups, keys, summaries);
  }

  // ----- the result, in terms of the findings -----

  ghost predicate OccursAt(s: string, needle: string, i: int) {
    0 <= i && i + |needle| <= |s| && s[i..i + |needle|] == needle
  }

  /** What follows the scheme: the text behind the first `://`, or all of it if there is none. */
  ghost predicate IsAfterScheme(url: string, rest: string) {
    || (exists i ::
          && OccursAt(url, "://", i) && rest == url[i + 3..]
          && forall j :: 0 <= j < i ==> !OccursAt(url, "://", j))
    || (rest == url && forall j :: !OccursAt(url, "://", j))
  }

  /** The text before the first of these characters. */
  ghost predicate IsBefore(s: string, stops: set<char>, part: string) {
    && part <= s && (forall k :: 0 <= k < |part| ==> part[k] !in stops)
    && (|part| < |s| ==> s[|part|] in stops)
  }

  /** The text behind the last `@`. */
  ghost predicate IsBehindAt(s: string, part: string) {
    && |part| <= |s| && s[|s| - |part|..] == part && '@' !in part
    && (|part| < |s| ==> s[|s| - |part| - 1] == '@')
  }

  /** The host of an authority: what stands in its brackets, or before its port. */
  ghost predicate IsHostPart(authority: string, host: string) {
    if authority != [] && authority[0] == '[' then
      IsBefore(authority[1..], {']'}, host) && |host| + 1 < |authority|
    else IsBefore(authority, {':'}, host)
  }

  ghost predicate IsHost(url: string, host: string) {
    && host != []
    && exists rest, full, authority ::
         IsAfterScheme(url, rest) && IsBefore(rest, {'/', '?', '#'}, full) && IsBehindAt(full, authority)
         && IsHostPart(authority, host)
  }

  /** The finding's place: its host, or the whole URL if it has none. */
  ghost predicate IsPlace(url: string, place: string) {
    IsHost(url, place) || (place == url && forall h :: !IsHost(url, h))
  }

  /** The root cause: rule and place, and the parameter too unless it is a rule about headers. */
  ghost predicate IsCause(v: Vulnerability, key: string) {
    exists place :: IsPlace(v.url, place) && IsCauseAt(v, place, key)
  }

  ghost predicate IsCauseAt(v: Vulnerability, place: string, key: string) {
    if "SEC-HEADER-" <= v.id then key == v.id + (":" + place)
    else if v.parameter == None then key == v.id + (":" + (place + ":-"))
    else key == v.id + (":" + (place + (":" + v.parameter.value)))
  }

  /** Finding `j` has this cause, and no other with it is riskier, or as risky and later. */
  ghost predicate IsRepresentative(findings: seq<Vulnerability>, key: string, j: int) {
    && 0 <= j < |findings| && IsCause(findings[j], key)
    && forall i :: 0 <= i < |findings| && IsCause(findings[i], key) ==>
         findings[i].risk < findings[j].risk || (findings[i].risk == findings[j].risk && i <= j)
  }

  ghost function WithCause(findings: seq<Vulnerability>, key: string): set<int> {
    set i | 0 <= i < |findings| && IsCause(findings[i], key)
  }

  /** The group says what its representative says, and counts the findings with its cause. */
  ghost predicate IsGroup(findings: seq<Vulnerability>, d: Deduped) {
    exists j :: IsRepresentative(findings, d.key, j) && SpeaksFor(findings[j], d)
                && d.occurrences == |WithCause(findings, d.key)|
  }

  ghost predicate SpeaksFor(v: Vulnerability, d: Deduped) {
    && d.ruleId == v.id && d.name == v.name && d.severity == v.severity && d.url == v.url && d.risk == v.risk
    && d.remediation == v.remediation
  }

  /** Riskier first; among equals by rule; among those by cause. */
  ghost predicate InOrderOfRisk(a: Deduped, b: Deduped) {
    || a.risk > b.risk
    || (a.risk == b.risk && a.ruleId != b.ruleId && StringLeq(a.ruleId, b.ruleId))
    || (a.risk == b.risk && a.ruleId == b.ruleId && StringLeq(a.key, b.key))
  }

  /** One group for each cause, in the order of risk. */
  ghost predicate IsDeduplicated(findings: seq<Vulnerability>, groups: seq<Deduped>) {
    && (forall d :: d in groups ==> IsGroup(findings, d))
    && (forall v, key :: v in findings && IsCause(v, key) ==> HasKey(groups, key))
    && (forall i, j :: 0 <= i < j < |groups| ==> groups[i].key != groups[j].key && InOrderOfRisk(groups[i], groups[j]))
  }

  // ----- that the keys are the causes -----

  lemma {:induction false} SchemeIs(s: string)
    ensures Scheme(s).Some? <==> exists i :: OccursAt(s, "://", i)
    ensures forall i :: OccursAt(s, "://", i) && (forall j :: 0 <= j < i ==> !OccursAt(s, "://", j)) ==>
      Scheme(s) == Some(s[i + 3..])
  {
    if |s| < 3 {
      assert forall i :: !OccursAt(s, "://", i);
    } else if s[..3] == "://" {
      assert s[0..0 + 3] == s[..3] && OccursAt(s, "://", 0);
    } else {
      var rest := s[1..];
      SchemeIs(rest);
      assert s[0..0 + 3] == s[..3] && !OccursAt(s, "://", 0);
      forall i
        ensures OccursAt(rest, "://", i) <==> i + 1 > 0 && OccursAt(s, "://", i + 1)
      {
        OccursBehind(s, "://", i);
      }
      SchemeShifts(s);
    }
  }

  lemma OccursBehind(s: string, needle: string, i: int)
    requires s != []
    ensures OccursAt(s[1..], needle, i) <==> i + 1 > 0 && OccursAt(s, needle, i + 1)
  {
    if 0 <= i && i + |needle| <= |s| - 1 {
      assert s[1..][i..i + |needle|] == s[i + 1..i + 1 + |needle|];
    }
  }

  lemma SchemeShifts(s: string)
    requires |s| >= 3 && s[..3] != "://" && !OccursAt(s, "://", 0)
    requires forall i :: OccursAt(s[1..], "://", i) <==> i + 1 > 0 && OccursAt(s, "://", i + 1)
    requires Scheme(s[1..]).Some? <==> exists i :: OccursAt(s[1..], "://", i)
    requires forall i :: OccursAt(s[1..], "://", i) && (forall j :: 0 <= j < i ==> !OccursAt(s[1..], "://", j)) ==>
      Scheme(s[1..]) == Some(s[1..][i + 3..])
    ensures Scheme(s).Some? <==> exists i :: OccursAt(s, "://", i)
    ensures forall i :: OccursAt(s, "://", i) && (forall j :: 0 <= j < i ==> !OccursAt(s, "://", j)) ==>
      Scheme(s) == Some(s[i + 3..])
  {
    var rest := s[1..];
    if i :| OccursAt(s, "://", i) {
      assert i > 0 && OccursAt(rest, "://", i - 1);
    }
    if i :| OccursAt(rest, "://", i) {
      assert OccursAt(s, "://", i + 1);
    }
    forall i | OccursAt(s, "://", i) && (forall j :: 0 <= j < i ==> !OccursAt(s, "://", j))
      ensures Scheme(s) == Some(s[i + 3..])
    {
      assert i > 0 && OccursAt(rest, "://", i - 1);
      assert forall j :: 0 <= j < i - 1 ==> !OccursAt(rest, "://", j);
      assert rest[i - 1 + 3..] == s[i + 3..];
    }
  }

  lemma {:induction false} FirstOccurrence(s: string, needle: string, i: int) returns (first: int)
    requires OccursAt(s, needle, i)
    ensures OccursAt(s, needle, first) && forall j :: 0 <= j < first ==> !OccursAt(s, needle, j)
    decreases i
  {
    hide OccursAt;
    if j :| 0 <= j < i && OccursAt(s, needle, j) {
      first := FirstOccurrence(s, needle, j);
    } else {
      first := i;
    }
  }

  lemma AfterSchemeIs(url: string, rest: string)
    ensures IsAfterScheme(url, rest) <==> rest == AfterScheme(url)
  {
    SchemeIs(url);
    hide Scheme, OccursAt;
    if i :| OccursAt(url, "://", i) {
      var first := FirstOccurrence(url, "://", i);
    }
  }

  lemma {:induction false} BeforeIs(s: string, stops: set<char>, part: string)
    ensures IsBefore(s, stops, part) <==> part == UpTo(s, stops)
  {
    if s != [] && s[0] !in stops {
      var rest := s[1..];
      BeforeIs(rest, stops, if part == [] then [] else part[1..]);
      assert s == [s[0]] + rest;
      if part != [] {
        assert part == [part[0]] + part[1..];
      }
    }
  }

  lemma {:induction false} BehindAtIs(s: string, part: string)
    ensures IsBehindAt(s, part) <==> part == AfterLast(s, '@')
    decreases |s|
  {
    var i := IndexOf(s, '@');
    hide IndexOf;
    if i < |s| {
      BehindAtIs(s[i + 1..], part);
      var rest := s[i + 1..];
      BehindShifts(s, i, part);
    } else {
      assert s == s[..i];
      assert '@' !in s && forall k :: 0 <= k < |s| ==> s[k] != '@';
      assert s[0..] == s;
    }
  }

  lemma BehindShifts(s: string, i: nat, part: string)
    requires i < |s| && s[i] == '@'
    ensures IsBehindAt(s, part) <==> IsBehindAt(s[i + 1..], part)
  {
    var rest := s[i + 1..];
    if IsBehindAt(s, part) {
      var from := |s| - |part|;
      assert forall k :: from <= k < |s| ==> s[k] in part;
      assert from > i;
      assert rest[|rest| - |part|..] == s[from..];
    }
    if IsBehindAt(rest, part) {
      assert rest[|rest| - |part|..] == s[|s| - |part|..];
    }
  }

  lemma IndexIsUpTo(s: string, c: char)
    ensures UpTo(s, {c}) == s[..IndexOf(s, c)]
  {
    BeforeIs(s, {c}, s[..IndexOf(s, c)]);
    hide IndexOf, UpTo;
  }

  lemma HostPartIs(authority: string, host: string)
    ensures IsHostPart(authority, host) <==>
      if authority != [] && authority[0] == '[' then
        IndexOf(authority[1..], ']') < |authority| - 1 && host == authority[1..][..IndexOf(authority[1..], ']')]
      else host == UpTo(authority, {':'})
  {
    if authority != [] && authority[0] == '[' {
      BeforeIs(authority[1..], {']'}, host);
      IndexIsUpTo(authority[1..], ']');
    } else {
      BeforeIs(authority, {':'}, host);
    }
    hide IndexOf, UpTo, IsBefore;
  }

  lemma HostIs(url: string, host: string)
    ensures IsHost(url, host) <==> HostFromUrl(url) == Some(host)
  {
    var rest := AfterScheme(url);
    var full := UpTo(rest, {'/', '?', '#'});
    var authority := AfterLast(full, '@');
    AfterSchemeIs(url, rest);
    BeforeIs(rest, {'/', '?', '#'}, full);
    BehindAtIs(full, authority);
    HostPartIs(authority, host);
    hide AfterScheme, UpTo, AfterLast, IsAfterScheme, IsBefore, IsBehindAt, IsHostPart, IndexOf;
    if IsHost(url, host) {
      var r, f, a :| IsAfterScheme(url, r) && IsBefore(r, {'/', '?', '#'}, f) && IsBehindAt(f, a)
        && IsHostPart(a, host);
      AfterSchemeIs(url, r);
      BeforeIs(r, {'/', '?', '#'}, f);
      BehindAtIs(f, a);
    }
  }

  lemma PlaceIs(url: string, place: string)
    ensures IsPlace(url, place) <==> place == if HostFromUrl(url).Some? then HostFromUrl(url).value else url
  {
    forall h
      ensures IsHost(url, h) <==> HostFromUrl(url) == Some(h)
    {
      HostIs(url, h);
    }
    hide HostFromUrl, IsHost;
    if HostFromUrl(url).Some? {
      assert IsHost(url, HostFromUrl(url).value);
    }
  }

  lemma CauseIs(v: Vulnerability, key: string)
    ensures IsCause(v, key) <==> RootCauseKey(v) == key
  {
    var place := if HostFromUrl(v.url).Some? then HostFromUrl(v.url).value else v.url;
    forall other
      ensures IsPlace(v.url, other) <==> other == place
    {
      PlaceIs(v.url, other);
    }
    CauseText(v, place);
    hide HostFromUrl, IsPlace, IsCauseAt, RootCauseKey;
    assert IsPlace(v.url, place);
  }

  lemma CauseText(v: Vulnerability, place: string)
    requires place == if HostFromUrl(v.url).Some? then HostFromUrl(v.url).value else v.url
    ensures forall key :: IsCauseAt(v, place, key) <==> RootCauseKey(v) == key
  {
    hide HostFromUrl;
    assert place + ":" + "-" == place + ":-";
    if v.parameter.Some? {
      assert place + ":" + v.parameter.value == place + (":" + v.parameter.value);
    }
    assert RootCauseKey(v) == v.id + (":" + Scope(v));
  }

  // ----- that the summaries are the groups -----

  /** The members are the findings with the key, and the riskiest of them is the representative. */
  lemma {:induction false} MembersStand(findings: seq<Vulnerability>, key: string) returns (j: int)
    requires Members(findings, key) != []
    ensures IsRepresentative(findings, key, j) && findings[j] == Riskiest(Members(findings, key))
  {
    hide RootCauseKey, IsCause;
    var (front, last) := (findings[..|findings| - 1], findings[|findings| - 1]);
    var group := Members(front, key);
    CauseIs(last, key);
    if IsCause(last, key) {
      assert Members(findings, key) == group + [last];
      assert (group + [last])[..|group|] == group;
    }
    if group == [] {
      forall i | 0 <= i < |front|
        ensures !IsCause(findings[i], key)
      {
        NotMember(front, key, i);
      }
      j := |front|;
    } else {
      j := MembersStand(front, key);
      assert forall i :: 0 <= i < |front| ==> front[i] == findings[i];
      if IsCause(last, key) && last.risk >= Riskiest(group).risk {
        j := |front|;
      }
    }
  }

  lemma NotMember(findings: seq<Vulnerability>, key: string, i: nat)
    requires Members(findings, key) == [] && i < |findings|
    ensures !IsCause(findings[i], key)
  {
    MembersAre(findings, key);
    CauseIs(findings[i], key);
    hide Members, RootCauseKey, IsCause;
  }

  lemma {:induction false} MembersCount(findings: seq<Vulnerability>, key: string)
    ensures |Members(findings, key)| == |WithCause(findings, key)|
  {
    hide RootCauseKey, IsCause;
    if findings == [] {
      assert WithCause(findings, key) == {};
    } else {
      var (front, last) := (findings[..|findings| - 1], |findings| - 1);
      MembersCount(front, key);
      CauseIs(findings[last], key);
      WithCauseGrows(findings, key);
      hide WithCause;
      var own := if IsCause(findings[last], key) then {last} else {};
      assert |WithCause(front, key) + own| == |WithCause(front, key)| + |own|;
    }
  }

  lemma WithCauseGrows(findings: seq<Vulnerability>, key: string)
    requires findings != []
    ensures
      var (front, last) := (findings[..|findings| - 1], |findings| - 1);
      && last !in WithCause(front, key)
      && WithCause(findings, key) == WithCause(front, key) + if IsCause(findings[last], key) then {last} else {}
  {
    hide IsCause;
  }

  lemma SummaryIsGroup(findings: seq<Vulnerability>, key: string)
    requires Members(findings, key) != []
    ensures IsGroup(findings, Summary(findings, key))
  {
    var j := MembersStand(findings, key);
    MembersCount(findings, key);
    hide Members, Riskiest, IsRepresentative, WithCause;
    assert SpeaksFor(findings[j], Summary(findings, key));
  }

  lemma BeforeIsOrder(a: Deduped, b: Deduped)
    requires Before(a, b)
    ensures InOrderOfRisk(a, b)
  {
    StringTotal(a.ruleId, b.ruleId);
    StringTotal(a.ruleId, a.ruleId);
    hide StringLeq;
  }

  lemma CoversIsDeduplicated(findings: seq<Vulnerability>, groups: seq<Deduped>)
    requires Covers(findings, groups) && IsSorted(groups)
    ensures IsDeduplicated(findings, groups)
  {
    hide RootCauseKey, Members, Summary, IsGroup, IsCause, Before, InOrderOfRisk, HasKey;
    forall d | d in groups
      ensures IsGroup(findings, d)
    {
      var i :| 0 <= i < |groups| && groups[i] == d;
      SummaryIsGroup(findings, groups[i].key);
    }
    forall v, key | v in findings && IsCause(v, key)
      ensures HasKey(groups, key)
    {
      CauseIs(v, key);
    }
    forall i, j | 0 <= i < j < |groups|
      ensures InOrderOfRisk(groups[i], groups[j])
    {
      BeforeIsOrder(groups[i], groups[j]);
    }
  }

  /** Groups the findings in one pass, summarizes each group, and sorts the result. */
  method DeduplicateFindings(findings: seq<Vulnerability>) returns (result: seq<Deduped>)
    ensures IsDeduplicated(findings, result)
    ensures Covers(findings, result) && IsSorted(result)
  {
    hide *;
    var groups := GroupFindings(findings);
    var summaries := SummarizeGroups(groups, findings);
    result := SortGroups(summaries);
    CoversRearranged(findings, summaries, result);
    CoversIsDeduplicated(findings, result);
  }

  lemma SummariesCover(findings: seq<Vulnerability>, groups: map<string, seq<Vulnerability>>, keys: seq<string>,
      summaries: seq<Deduped>)
    requires IsGrouped(findings, groups) && Ascending(keys, StringLeq) && (forall k :: k in keys <==> k in groups)
    requires |summaries| == |keys|
    requires forall j ::
      0 <= j < |keys| ==> Members(findings, keys[j]) != [] && summaries[j] == Summary(findings, keys[j])
    ensures Covers(findings, summaries) && InKeyOrder(summaries)
  {
    hide StringLeq, RootCauseKey, Riskiest;
    forall v | v in findings
      ensures HasKey(summaries, RootCauseKey(v))
    {
      var key := RootCauseKey(v);
      MembersAre(findings, key);
      assert v in Members(findings, key);
      assert key in keys;
      var i :| 0 <= i < |keys| && keys[i] == key;
      assert summaries[i].key == key;
    }
  }
}
