/** The table of cached vulnerabilities: upserts from one feed, seeds and marks from the catalog of exploited ones. */
module CveCache {
  import opened Options
  import opened Severities
  import opened Text

  datatype Exploitability = KnownExploited | PocAvailable | Theoretical

  datatype Row = Row(description: string, severity: Severity, cpes: seq<string>, exploitability: Exploitability,
      source: string)

  datatype Entry = Entry(id: string, row: Row)

  type Table = map<string, Row>

  // ----- the statements, one row at a time -----

  /** `LIKE '%cisa_kev%'`: case does not matter, and the underscore stands for any character. */
  predicate LikeKev(s: string) {
    |s| >= 8 && (LikeKev(s[1..]) ||
      (LowerAscii(s[0]) == 'c' && LowerAscii(s[1]) == 'i' && LowerAscii(s[2]) == 's' && LowerAscii(s[3]) == 'a'
       && LowerAscii(s[5]) == 'k' && LowerAscii(s[6]) == 'e' && LowerAscii(s[7]) == 'v'))
  }

  predicate IsKnown(table: Table, id: string) {
    id in table && table[id].exploitability == KnownExploited
  }

  /** What a refresh writes over a known-exploited row: still known-exploited, and the source names the catalog. */
  function StaysKnown(row: Row): Row {
    row.(exploitability := KnownExploited,
         source := if LikeKev(row.source) then row.source else row.source + ",cisa_kev")
  }

  /** An upsert replaces the row, but a known-exploited one stays known-exploited and says where from. */
  function Upsert(table: Table, e: Entry): Table {
    table[e.id := if IsKnown(table, e.id) then StaysKnown(e.row) else e.row]
  }

  function InsertOrIgnore(table: Table, e: Entry): Table {
    if e.id in table then table else table[e.id := e.row]
  }

  function Raised(s: Severity): Severity {
    match s
    case Info => Low
    case Low => Medium
    case Medium => High
    case High => Critical
    case Critical => Critical
  }

  function Mark(table: Table, id: string): Table {
    if id !in table then table else
      var r := table[id];
      table[id := r.(exploitability := KnownExploited, severity := Raised(r.severity),
                     source := if r.source == "nvd" then "nvd,cisa_kev" else r.source)]
  }

  // ----- the statements, in terms of the fields -----

  ghost predicate Either(c: char, small: char, capital: char) {
    c == small || c == capital
  }

  /** From position `i` on the text reads cisa, any character, and kev, in letters of either case. */
  ghost predicate ReadsKev(s: string, i: int) {
    && 0 <= i <= |s| - 8
    && Either(s[i], 'c', 'C') && Either(s[i + 1], 'i', 'I') && Either(s[i + 2], 's', 'S') && Either(s[i + 3], 'a', 'A')
    && Either(s[i + 5], 'k', 'K') && Either(s[i + 6], 'e', 'E') && Either(s[i + 7], 'v', 'V')
  }

  lemma {:induction false} LikeKevIs(s: string)
    ensures LikeKev(s) <==> exists i :: ReadsKev(s, i)
  {
    if |s| < 8 {
      assert forall i :: !ReadsKev(s, i);
    } else {
      LikeKevIs(s[1..]);
      forall i
        ensures ReadsKev(s[1..], i) ==> ReadsKev(s, i + 1)
        ensures ReadsKev(s, i) ==> i == 0 || ReadsKev(s[1..], i - 1)
      {
      }
      HeadReads(s);
      hide LowerAscii;
      LikeKevStep(s);
      hide ReadsKev, LikeKev;
      if i :| ReadsKev(s[1..], i) {
        assert ReadsKev(s, i + 1);
      }
      if i :| ReadsKev(s, i) {
        assert i == 0 || ReadsKev(s[1..], i - 1);
      }
    }
  }

  predicate HeadIsKev(s: string)
    requires |s| >= 8
  {
    LowerAscii(s[0]) == 'c' && LowerAscii(s[1]) == 'i' && LowerAscii(s[2]) == 's' && LowerAscii(s[3]) == 'a'
    && LowerAscii(s[5]) == 'k' && LowerAscii(s[6]) == 'e' && LowerAscii(s[7]) == 'v'
  }

  lemma HeadReads(s: string)
    requires |s| >= 8
    ensures HeadIsKev(s) <==> ReadsKev(s, 0)
  {
  }

  lemma LikeKevStep(s: string)
    requires |s| >= 8
    ensures LikeKev(s) <==> LikeKev(s[1..]) || HeadIsKev(s)
  {
    hide LowerAscii;
  }

  /** One severity up; Critical stays. */
  ghost predicate IsRaised(before: Severity, after: Severity) {
    || (before == Info && after == Low) || (before == Low && after == Medium) || (before == Medium && after == High)
    || (before == High && after == Critical) || (before == Critical && after == Critical)
  }

  /** All other rows are as they were. */
  ghost predicate OnlyAt(table: Table, after: Table, id: string) {
    forall k :: k != id ==> (k in after <==> k in table) && (k in table ==> after[k] == table[k])
  }

  /**
   What one statement does to any table. A refresh writes its entry, but over a known-exploited row the status stays
   and the source names the catalog; a seed writes only where there is no row; a mark changes three fields of a row
   that is there.
   */
  ghost predicate IsEffect(table: Table, op: Op, after: Table) {
    match op
    case Refresh(e) =>
      && OnlyAt(table, after, e.id) && e.id in after
      && var (r, row) := (e.row, after[e.id]);
         if e.id in table && table[e.id].exploitability == KnownExploited then
           && row.description == r.description && row.severity == r.severity && row.cpes == r.cpes
           && row.exploitability == KnownExploited
           && row.source == if exists i :: ReadsKev(r.source, i) then r.source else r.source + ",cisa_kev"
         else row == r
    case Seed(e) =>
      if e.id in table then after == table else OnlyAt(table, after, e.id) && e.id in after && after[e.id] == e.row
    case MarkKnown(id) =>
      if id !in table then after == table
      else
        && OnlyAt(table, after, id) && id in after
        && var (r, row) := (table[id], after[id]);
           && row.description == r.description && row.cpes == r.cpes && row.exploitability == KnownExploited
           && IsRaised(r.severity, row.severity)
           && row.source == if r.source == "nvd" then "nvd,cisa_kev" else r.source
  }

  lemma EffectIs(table: Table, op: Op)
    ensures IsEffect(table, op, Apply(table, op))
  {
    if op.Refresh? {
      LikeKevIs(op.entry.row.source);
    }
    hide LikeKev, ReadsKev;
  }

  // ----- the shapes of entry the crate writes -----

  predicate IsNvd(e: Entry) {
    e.row.exploitability == Theoretical && e.row.source == "nvd"
  }

  function KevEntry(id: string): Entry {
    Entry(id, Row("Known exploited vulnerability from CISA KEV catalog", High, [], KnownExploited, "cisa_kev"))
  }

  datatype Op = Refresh(entry: Entry) | Seed(entry: Entry) | MarkKnown(id: string)

  function Apply(table: Table, op: Op): Table {
    match op
    case Refresh(e) => Upsert(table, e)
    case Seed(e) => InsertOrIgnore(table, e)
    case MarkKnown(id) => Mark(table, id)
  }

  /** The operation writes what the crate writes. */
  predicate IsShaped(op: Op) {
    match op
    case Refresh(e) => IsNvd(e)
    case Seed(e) => e == KevEntry(e.id)
    case MarkKnown(_) => true
  }

  predicate Written(ops: seq<Op>) {
    forall i :: 0 <= i < |ops| ==> IsShaped(ops[i])
  }

  function Run(table: Table, ops: seq<Op>): Table {
    if ops == [] then table else Apply(Run(table, ops[..|ops| - 1]), ops[|ops| - 1])
  }

  // ----- known-exploited exactly when the source says so -----

  predicate NamesKev(source: string) {
    Contains(source, "cisa_kev")
  }

  predicate RowOk(r: Row) {
    && r.source in {"nvd", "cisa_kev", "nvd,cisa_kev"} && r.exploitability in {KnownExploited, Theoretical}
    && (r.exploitability == KnownExploited <==> r.source != "nvd")
  }

  ghost predicate TableOk(table: Table) {
    forall id :: id in table ==> RowOk(table[id])
  }

  lemma SourcesNameKev()
    ensures !NamesKev("nvd") && NamesKev("cisa_kev") && NamesKev("nvd,cisa_kev")
    ensures !LikeKev("nvd")
  {
    assert !Contains("", "cisa_kev") && !Contains("d", "cisa_kev") && !Contains("vd", "cisa_kev") by {
      assert "d"[1..] == "" && "vd"[1..] == "d";
    }
    assert "nvd"[1..] == "vd";
    var s := "nvd,cisa_kev";
    assert s[1..][1..][1..][1..] == "cisa_kev";
    assert Contains(s[1..][1..][1..][1..], "cisa_kev");
    assert Contains(s[1..][1..][1..], "cisa_kev");
    assert Contains(s[1..][1..], "cisa_kev");
    assert Contains(s[1..], "cisa_kev");
  }

  lemma ApplyKeepsTable(table: Table, op: Op)
    requires TableOk(table) && IsShaped(op)
    ensures TableOk(Apply(table, op))
  {
    SourcesNameKev();
    hide LikeKev, Contains;
    assert "nvd" + ",cisa_kev" == "nvd,cisa_kev";
    var next := Apply(table, op);
    forall id | id in next
      ensures RowOk(next[id])
    {
      if id in table {
        assert RowOk(table[id]);
      }
    }
  }

  lemma {:induction false} TableAlwaysOk(ops: seq<Op>)
    requires Written(ops)
    ensures TableOk(Run(map[], ops))
  {
    if ops != [] {
      TableAlwaysOk(ops[..|ops| - 1]);
      ApplyKeepsTable(Run(map[], ops[..|ops| - 1]), ops[|ops| - 1]);
    }
  }

  /**
   Over every history of refreshes, seeds and marks: a row is known-exploited exactly when its source names the
   catalog.
   */
  lemma KnownExactlyWhenNamed(ops: seq<Op>, id: string)
    requires Written(ops) && id in Run(map[], ops)
    ensures IsKnown(Run(map[], ops), id) <==> NamesKev(Run(map[], ops)[id].source)
  {
    TableAlwaysOk(ops);
    SourcesNameKev();
    assert RowOk(Run(map[], ops)[id]);
    hide Run, NamesKev;
  }

  // ----- what a row is, from its history -----

  /** A row's history: the row last written, the marks since, and whether it has been seeded or marked. */
  datatype Past = Past(base: Row, marks: nat, known: bool)

  function TraceStep(past: Option<Past>, op: Op, id: string): Option<Past> {
    match op
    case Refresh(e) => if e.id != id then past else Some(Past(e.row, 0, past.Some? && past.value.known))
    case Seed(e) =>
      if e.id != id || past.Some? then past
      else Some(Past(e.row, 0, e.row.exploitability == KnownExploited))
    case MarkKnown(k) => if k != id || past.None? then past else Some(Past(past.value.base, past.value.marks + 1, true))
  }

  function Trace(ops: seq<Op>, id: string): Option<Past> {
    if ops == [] then None else TraceStep(Trace(ops[..|ops| - 1], id), ops[|ops| - 1], id)
  }

  function Rank(s: Severity): nat {
    match s case Info => 0 case Low => 1 case Medium => 2 case High => 3 case Critical => 4
  }

  function Capped(n: nat): nat {
    if n < 4 then n else 4
  }

  lemma RaisedRank(s: Severity)
    ensures Rank(Raised(s)) == Capped(Rank(s) + 1) && Rank(s) <= 4
  {
  }

  /** The row with this history: only severity, exploitability and source differ from the row last written. */
  predicate Stands(r: Row, past: Past) {
    && r.description == past.base.description && r.cpes == past.base.cpes
    && Rank(r.severity) == Capped(Rank(past.base.severity) + past.marks)
    && r.exploitability == (if past.known then KnownExploited else past.base.exploitability)
    && r.source == (if past.known && past.base.source == "nvd" then "nvd,cisa_kev" else past.base.source)
    && past.base.source in {"nvd", "cisa_kev"}
    && (past.known || past.base.exploitability == Theoretical)
  }

  /** The row stands where its history puts it. */
  predicate Reflects(table: Table, id: string, past: Option<Past>) {
    (id in table <==> past.Some?) && (past.Some? ==> Stands(table[id], past.value))
  }

  lemma RefreshStands(r: Option<Row>, past: Option<Past>, e: Entry)
    requires IsNvd(e) && r.Some? == past.Some? && (r.Some? ==> Stands(r.value, past.value))
    ensures
      var known := r.Some? && r.value.exploitability == KnownExploited;
      known == (past.Some? && past.value.known) &&
      Stands(if known then StaysKnown(e.row) else e.row, Past(e.row, 0, known))
  {
    SourcesNameKev();
    RaisedRank(e.row.severity);
    assert "nvd" + ",cisa_kev" == "nvd,cisa_kev";
    hide LikeKev, Contains;
  }

  lemma MarkStands(r: Row, past: Past)
    requires Stands(r, past)
    ensures Stands(r.(exploitability := KnownExploited, severity := Raised(r.severity),
                      source := if r.source == "nvd" then "nvd,cisa_kev" else r.source),
                   Past(past.base, past.marks + 1, true))
  {
    RaisedRank(r.severity);
    hide Raised, Rank;
  }

  lemma StepReflects(table: Table, op: Op, id: string, past: Option<Past>)
    requires Reflects(table, id, past) && IsShaped(op)
    ensures Reflects(Apply(table, op), id, TraceStep(past, op, id))
  {
    var row := if id in table then Some(table[id]) else None;
    match op
    case Refresh(e) =>
      RefreshStands(row, past, e);
      hide LikeKev, Stands;
    case Seed(e) => RaisedRank(High);
    case MarkKnown(k) =>
      if past.Some? {
        MarkStands(table[id], past.value);
      }
      hide Stands, Raised;
  }

  /**
   A row exists once it has been refreshed or seeded; it is known-exploited exactly when it was first
   seeded, or marked since it exists; its severity is the last written one raised one level for each
   mark since, up to Critical; the rest is as last written, and the source adds the catalog if known.
   */
  lemma {:induction false} RowReflectsHistory(ops: seq<Op>, id: string)
    requires Written(ops)
    ensures Reflects(Run(map[], ops), id, Trace(ops, id))
  {
    if ops != [] {
      var front := ops[..|ops| - 1];
      RowReflectsHistory(front, id);
      StepReflects(Run(map[], front), ops[|ops| - 1], id, Trace(front, id));
      hide Apply, TraceStep, Reflects;
    }
  }

  /** Once known-exploited, always known-exploited, whatever is written. */
  lemma {:induction false} KnownIsNeverLost(table: Table, ops: seq<Op>, id: string)
    requires IsKnown(table, id)
    ensures IsKnown(Run(table, ops), id)
  {
    if ops != [] {
      KnownIsNeverLost(table, ops[..|ops| - 1], id);
      hide LikeKev;
    }
  }

  lemma {:induction false} RunAppend(table: Table, a: seq<Op>, b: seq<Op>)
    ensures Run(table, a + b) == Run(Run(table, a), b)
  {
    if b == [] {
      assert a + b == a;
    } else {
      assert (a + b)[..|a + b| - 1] == a + b[..|b| - 1];
      RunAppend(table, a, b[..|b| - 1]);
    }
  }

  // ----- the cache object -----

  function Refreshes(entries: seq<Entry>): (ops: seq<Op>)
    ensures |ops| == |entries| && forall i :: 0 <= i < |ops| ==> ops[i] == Refresh(entries[i])
  {
    seq(|entries|, i requires 0 <= i < |entries| => Refresh(entries[i]))
  }

  function Seeds(entries: seq<Entry>): (ops: seq<Op>)
    ensures |ops| == |entries| && forall i :: 0 <= i < |ops| ==> ops[i] == Seed(entries[i])
  {
    seq(|entries|, i requires 0 <= i < |entries| => Seed(entries[i]))
  }

  function Marks(ids: seq<string>): (ops: seq<Op>)
    ensures |ops| == |ids| && forall i :: 0 <= i < |ops| ==> ops[i] == MarkKnown(ids[i])
  {
    seq(|ids|, i requires 0 <= i < |ids| => MarkKnown(ids[i]))
  }

  function KevEntries(ids: seq<string>): (entries: seq<Entry>)
    ensures |entries| == |ids| && forall i :: 0 <= i < |ids| ==> entries[i] == KevEntry(ids[i])
  {
    seq(|ids|, i requires 0 <= i < |ids| => KevEntry(ids[i]))
  }

  /** How many of `ids` have a row. */
  function Present(table: Table, ids: seq<string>): nat {
    if ids == [] then 0 else Present(table, ids[..|ids| - 1]) + if ids[|ids| - 1] in table then 1 else 0
  }

  /** The places of the listed ids that have a row. */
  ghost function Hits(table: Table, ids: seq<string>): set<int> {
    set i | 0 <= i < |ids| && ids[i] in table
  }

  lemma {:induction false} PresentIs(table: Table, ids: seq<string>)
    ensures Present(table, ids) == |Hits(table, ids)|
  {
    if ids == [] {
      assert Hits(table, ids) == {};
    } else {
      var (front, last) := (ids[..|ids| - 1], |ids| - 1);
      PresentIs(table, front);
      HitsGrow(table, ids);
      hide Hits;
      var own := if ids[last] in table then {last} else {};
      assert |Hits(table, front) + own| == |Hits(table, front)| + |own|;
    }
  }

  lemma HitsGrow(table: Table, ids: seq<string>)
    requires ids != []
    ensures
      var (front, last) := (ids[..|ids| - 1], |ids| - 1);
      && last !in Hits(table, front)
      && Hits(table, ids) == Hits(table, front) + if ids[last] in table then {last} else {}
  {
  }

  lemma {:induction false} MarksKeepKeys(table: Table, ops: seq<Op>)
    requires forall i :: 0 <= i < |ops| ==> ops[i].MarkKnown?
    ensures Run(table, ops).Keys == table.Keys
  {
    if ops != [] {
      MarksKeepKeys(table, ops[..|ops| - 1]);
    }
  }

  /** A full update: seed the catalog, refresh each platform's entries, mark the catalog. */
  function UpdateOps(kevIds: seq<string>, batches: seq<seq<Entry>>): seq<Op> {
    Seeds(KevEntries(kevIds)) + BatchOps(batches) + Marks(kevIds)
  }

  function BatchOps(batches: seq<seq<Entry>>): seq<Op> {
    if batches == [] then [] else BatchOps(batches[..|batches| - 1]) + Refreshes(batches[|batches| - 1])
  }

  class Cache {
    var rows: Table

    constructor ()
      ensures rows == map[]
    {
      rows := map[];
    }

    method CacheCveEntries(entries: seq<Entry>)
      modifies this
      ensures rows == Run(old(rows), Refreshes(entries))
    {
      ghost var ops := Refreshes(entries);
      for i := 0 to |entries|
        invariant rows == Run(old(rows), ops[..i])
      {
        hide LikeKev;
        assert ops[..i + 1][..i] == ops[..i];
        var e := entries[i];
        if e.id in rows && rows[e.id].exploitability == KnownExploited {
          var source := if LikeKev(e.row.source) then e.row.source else e.row.source + ",cisa_kev";
          rows := rows[e.id := e.row.(exploitability := KnownExploited, source := source)];
        } else {
          rows := rows[e.id := e.row];
        }
      }
      assert ops[..|entries|] == ops;
    }

    method CacheKevEntries(entries: seq<Entry>)
      modifies this
      ensures rows == Run(old(rows), Seeds(entries))
    {
      ghost var ops := Seeds(entries);
      for i := 0 to |entries|
        invariant rows == Run(old(rows), ops[..i])
      {
        assert ops[..i + 1][..i] == ops[..i];
        if entries[i].id !in rows {
          rows := rows[entries[i].id := entries[i].row];
        }
      }
      assert ops[..|entries|] == ops;
    }

    /** Returns how many rows were updated, an id that occurs twice counting twice. */
    method MarkKnownExploited(ids: seq<string>) returns (updated: nat)
      modifies this
      ensures rows == Run(old(rows), Marks(ids)) && updated == |Hits(old(rows), ids)|
    {
      PresentIs(rows, ids);
      ghost var ops := Marks(ids);
      updated := 0;
      for i := 0 to |ids|
        invariant rows == Run(old(rows), ops[..i]) && updated == Present(old(rows), ids[..i])
      {
        assert ops[..i + 1][..i] == ops[..i] && ids[..i + 1][..i] == ids[..i];
        MarksKeepKeys(old(rows), ops[..i]);
        var id := ids[i];
        if id in rows {
          hide Raised;
          var r := rows[id];
          var severity := Raised(r.severity);
          var source := if r.source == "nvd" then "nvd,cisa_kev" else r.source;
          rows := rows[id := r.(exploitability := KnownExploited, severity := severity, source := source)];
          updated := updated + 1;
        }
      }
      assert ops[..|ids|] == ops && ids[..|ids|] == ids;
    }

    /** A full update; `batches` are the entries fetched for each platform. */
    method UpdateCveCache(kevIds: seq<string>, batches: seq<seq<Entry>>) returns (cached: nat)
      modifies this
      ensures rows == Run(old(rows), UpdateOps(kevIds, batches))
      ensures cached == |kevIds| + |BatchOps(batches)|
    {
      CacheKevEntries(KevEntries(kevIds));
      cached := |kevIds|;
      ghost var seeded := rows;
      for i := 0 to |batches|
        invariant rows == Run(seeded, BatchOps(batches[..i]))
        invariant cached == |kevIds| + |BatchOps(batches[..i])|
      {
        assert batches[..i + 1][..i] == batches[..i];
        RunAppend(seeded, BatchOps(batches[..i]), Refreshes(batches[i]));
        cached := cached + |batches[i]|;
        CacheCveEntries(batches[i]);
      }
      assert batches[..|batches|] == batches;
      var updated := MarkKnownExploited(kevIds);
      RunAppend(old(rows), Seeds(KevEntries(kevIds)), BatchOps(batches));
      RunAppend(old(rows), Seeds(KevEntries(kevIds)) + BatchOps(batches), Marks(kevIds));
    }
  }

  // ----- what a full update guarantees, and what it costs -----

  lemma {:induction false} RowsStay(table: Table, ops: seq<Op>, id: string)
    requires id in table
    ensures id in Run(table, ops)
  {
    if ops != [] {
      RowsStay(table, ops[..|ops| - 1], id);
    }
  }

  function Occurrences(ids: seq<string>, id: string): nat {
    if ids == [] then 0 else Occurrences(ids[..|ids| - 1], id) + if ids[|ids| - 1] == id then 1 else 0
  }

  lemma LastSeed(table: Table, ids: seq<string>)
    requires ids != []
    ensures Run(table, Seeds(KevEntries(ids)))
      == InsertOrIgnore(Run(table, Seeds(KevEntries(ids[..|ids| - 1]))), KevEntry(ids[|ids| - 1]))
  {
    hide InsertOrIgnore, KevEntry;
    assert Seeds(KevEntries(ids))[..|ids| - 1] == Seeds(KevEntries(ids[..|ids| - 1]));
  }

  lemma LastMark(table: Table, ids: seq<string>)
    requires ids != []
    ensures Run(table, Marks(ids)) == Mark(Run(table, Marks(ids[..|ids| - 1])), ids[|ids| - 1])
  {
    hide Mark;
    assert Marks(ids)[..|ids| - 1] == Marks(ids[..|ids| - 1]);
  }

  lemma NothingDone(table: Table)
    ensures Run(table, Seeds(KevEntries([]))) == table && Run(table, Marks([])) == table
  {
  }

  lemma {:induction false} MarksRaise(table: Table, ids: seq<string>, id: string)
    requires id in table
    ensures
      var marked := Run(table, Marks(ids));
      id in marked && Rank(marked[id].severity) == Capped(Rank(table[id].severity) + Occurrences(ids, id))
  {
    hide Run, Rank, Raised, Marks;
    RaisedRank(table[id].severity);
    if ids == [] {
      NothingDone(table);
    } else {
      var front := ids[..|ids| - 1];
      MarksRaise(table, front, id);
      LastMark(table, ids);
      RaisedRank(Run(table, Marks(front))[id].severity);
    }
  }

  /** Seeding leaves rows alone, and gives each listed id without a row the catalog's row. */
  lemma {:induction false} SeedsAdd(table: Table, ids: seq<string>, id: string)
    ensures
      var seeded := Run(table, Seeds(KevEntries(ids)));
      if id in table then id in seeded && seeded[id] == table[id]
      else if id in ids then id in seeded && seeded[id] == KevEntry(id).row
      else id !in seeded
  {
    hide Run, Seeds, KevEntries;
    if ids == [] {
      NothingDone(table);
    } else {
      var front := ids[..|ids| - 1];
      SeedsAdd(table, front, id);
      LastSeed(table, ids);
      assert ids == front + [ids[|ids| - 1]];
    }
  }

  lemma {:induction false} MarksMakeKnown(table: Table, ids: seq<string>, id: string)
    requires id in table
    ensures id in Run(table, Marks(ids)) && (id in ids ==> IsKnown(Run(table, Marks(ids)), id))
  {
    hide Run, Marks, Raised;
    if ids == [] {
      NothingDone(table);
    } else {
      MarksMakeKnown(table, ids[..|ids| - 1], id);
      LastMark(table, ids);
      assert ids == ids[..|ids| - 1] + [ids[|ids| - 1]];
    }
  }

  /** After a full update every catalog id has a row, and it is known-exploited. */
  lemma FullUpdateCoversCatalog(table: Table, kevIds: seq<string>, batches: seq<seq<Entry>>, id: string)
    requires id in kevIds
    ensures IsKnown(Run(table, UpdateOps(kevIds, batches)), id)
  {
    var (seeds, rest, marks) := (Seeds(KevEntries(kevIds)), BatchOps(batches), Marks(kevIds));
    assert UpdateOps(kevIds, batches) == seeds + rest + marks;
    hide *;
    RunAppend(table, seeds + rest, marks);
    RunAppend(table, seeds, rest);
    SeedsAdd(table, kevIds, id);
    RowsStay(Run(table, seeds), rest, id);
    MarksMakeKnown(Run(table, seeds + rest), kevIds, id);
  }

  /** The table when the marks begin: the catalog seeded, every platform refreshed. */
  function Refreshed(table: Table, kevIds: seq<string>, batches: seq<seq<Entry>>): Table {
    Run(table, Seeds(KevEntries(kevIds)) + BatchOps(batches))
  }

  /**
   Marks accumulate: an update raises each catalog row once for every time its id is listed, from the
   severity it has after the refreshes, up to Critical.
   */
  lemma CatalogUpdateInflates(table: Table, kevIds: seq<string>, batches: seq<seq<Entry>>, id: string)
    requires id in kevIds
    ensures
      var (before, after) := (Refreshed(table, kevIds, batches), Run(table, UpdateOps(kevIds, batches)));
      && id in before && id in after
      && Rank(after[id].severity) == Capped(Rank(before[id].severity) + Occurrences(kevIds, id))
    ensures Occurrences(kevIds, id) >= 1
  {
    OccursOnce(kevIds, id);
    var (seeds, rest, marks) := (Seeds(KevEntries(kevIds)), BatchOps(batches), Marks(kevIds));
    assert UpdateOps(kevIds, batches) == (seeds + rest) + marks;
    assert Refreshed(table, kevIds, batches) == Run(table, seeds + rest);
    hide *;
    RunAppend(table, seeds + rest, marks);
    RunAppend(table, seeds, rest);
    SeedsAdd(table, kevIds, id);
    RowsStay(Run(table, seeds), rest, id);
    MarksRaise(Run(table, seeds + rest), kevIds, id);
  }

  lemma {:induction false} OthersRefreshed(table: Table, ops: seq<Op>, id: string)
    requires id in table && forall i :: 0 <= i < |ops| ==> ops[i].Refresh? && ops[i].entry.id != id
    ensures id in Run(table, ops) && Run(table, ops)[id] == table[id]
  {
    if ops != [] {
      OthersRefreshed(table, ops[..|ops| - 1], id);
      hide LikeKev;
    }
  }

  /** No platform's entries are about this id. */
  ghost predicate NotRefreshed(batches: seq<seq<Entry>>, id: string) {
    forall b, e :: b in batches && e in b ==> e.id != id
  }

  lemma {:induction false} BatchesAvoid(batches: seq<seq<Entry>>, id: string)
    requires NotRefreshed(batches, id)
    ensures forall i ::
      0 <= i < |BatchOps(batches)| ==> BatchOps(batches)[i].Refresh? && BatchOps(batches)[i].entry.id != id
  {
    if batches != [] {
      var (front, last) := (batches[..|batches| - 1], batches[|batches| - 1]);
      assert last in batches && forall b :: b in front ==> b in batches;
      BatchesAvoid(front, id);
    }
  }

  /**
   A row that the update does not refresh keeps its severity until the marks, so it climbs a level at every
   update; and a row the update has seeded is raised at once, from High to Critical.
   */
  lemma UnrefreshedRowClimbs(table: Table, kevIds: seq<string>, batches: seq<seq<Entry>>, id: string)
    requires id in kevIds
    requires NotRefreshed(batches, id)
    ensures
      var (base, after) :=
        (if id in table then Rank(table[id].severity) else 3, Run(table, UpdateOps(kevIds, batches)));
      id in after && Rank(after[id].severity) == Capped(base + Occurrences(kevIds, id))
  {
    CatalogUpdateInflates(table, kevIds, batches, id);
    BatchesAvoid(batches, id);
    var (seeds, rest) := (Seeds(KevEntries(kevIds)), BatchOps(batches));
    assert Refreshed(table, kevIds, batches) == Run(table, seeds + rest);
    assert Rank(KevEntry(id).row.severity) == 3;
    hide *;
    RunAppend(table, seeds, rest);
    SeedsAdd(table, kevIds, id);
    OthersRefreshed(Run(table, seeds), rest, id);
  }

  lemma {:induction false} OccursOnce(ids: seq<string>, id: string)
    requires id in ids
    ensures Occurrences(ids, id) >= 1
  {
    var (front, last) := (ids[..|ids| - 1], ids[|ids| - 1]);
    assert ids == front + [last];
    if last != id {
      OccursOnce(front, id);
    }
  }
}
