/**
 The connection budget of a host scan. Every port is a task that reserves before it connects; tasks
 interleave freely at reservations and connections.
 */
module ConnectionBudget {
  import opened Options
  import opened Collections

  /** The places where a port task connects: the first dial, then the probes in source order. */
  datatype Site = First | Tls | Certificate | Version(n: nat) | Unknown(n: nat) | Enrich

  const VERSION_PROBES: nat := 3
  const UNKNOWN_PROBES: nat := 9

  datatype Counter = At(site: Site) | Dialing(site: Site) | Finished

  datatype PortState = Open | Closed | Filtered

  /** One port task; `spent` counts its reservations and `dialed` its connections. */
  datatype Task = Task(port: nat, passive: bool, risky: bool, pc: Counter, state: PortState,
                       protocol: Option<string>, tls: bool, spent: nat, dialed: nat)

  /** What a connection finds. */
  datatype Answer = Answer(connected: bool, protocol: Option<string>, tls: bool)

  predicate LikelyTls(port: nat) {
    port in {443, 465, 636, 853, 990, 993, 995, 5671, 8443, 8883}
  }

  function ServiceFromPort(port: nat): Option<string> {
    if port == 21 then Some("ftp")
    else if port == 22 then Some("ssh")
    else if port in {25, 465, 587} then Some("smtp")
    else if port in {80, 81, 3000, 8000, 8008, 8080, 8081} then Some("http")
    else if port in {110, 995} then Some("pop3")
    else if port in {143, 993} then Some("imap")
    else if port in {443, 8443} then Some("https")
    else if port == 445 then Some("smb")
    else if port == 1433 then Some("mssql")
    else if port in {1883, 8883} then Some("mqtt")
    else if port == 27017 then Some("mongodb")
    else if port == 3306 then Some("mysql")
    else if port == 3389 then Some("rdp")
    else if port == 5432 then Some("postgresql")
    else if port in {5671, 5672} then Some("amqp")
    else if port == 6379 then Some("redis")
    else if port == 9200 then Some("elasticsearch")
    else if port == 11211 then Some("memcached")
    else None
  }

  function NewTask(port: nat, passive: bool, risky: bool): Task {
    Task(port, passive, risky, At(First), Filtered, None, false, 0, 0)
  }

  // ----- where a task goes next -----

  predicate Enriches(protocol: Option<string>, risky: bool) {
    protocol in {Some("postgresql"), Some("smtp"), Some("mongodb")} || (protocol == Some("ftp") && risky)
  }

  function AfterUnknown(t: Task): Task {
    var known := if t.protocol.None? then t.(protocol := ServiceFromPort(t.port)) else t;
    known.(pc := if Enriches(known.protocol, t.risky) then At(Enrich) else Finished)
  }

  function AfterVersions(t: Task): Task {
    var named := if t.tls && t.protocol in {None, Some("http"), Some("tls")} then t.(protocol := Some("https")) else t;
    if named.protocol.None? then named.(pc := At(Unknown(0))) else AfterUnknown(named)
  }

  function AfterCertificate(t: Task): Task {
    if t.tls then t.(pc := At(Version(0))) else AfterVersions(t)
  }

  function AfterTls(t: Task): Task {
    if t.tls || LikelyTls(t.port) then t.(pc := At(Certificate)) else AfterCertificate(t)
  }

  function AfterVersion(t: Task, n: nat): Task {
    if n + 1 < VERSION_PROBES then t.(pc := At(Version(n + 1))) else AfterVersions(t)
  }

  /** The reservation is refused. */
  function Refused(t: Task): Task
    requires t.pc.At?
  {
    match t.pc.site
    case First => t.(pc := Finished)
    case Tls => AfterTls(t)
    case Certificate => AfterCertificate(t)
    case Version(n) => AfterVersion(t, n)
    case Unknown(_) => AfterUnknown(t)
    case Enrich => t.(pc := Finished)
  }

  function Granted(t: Task): Task
    requires t.pc.At?
  {
    t.(pc := Dialing(t.pc.site), spent := t.spent + 1)
  }

  /** The connection has been made (or has failed). */
  function Dialed(t: Task, a: Answer): Task
    requires t.pc.Dialing?
  {
    var d := t.(dialed := t.dialed + 1);
    match t.pc.site
    case First =>
      if !a.connected then d.(state := Closed, pc := Finished)
      else if !t.passive then d.(state := Open, protocol := a.protocol, pc := At(Tls))
      else
        var protocol := if a.protocol.None? then ServiceFromPort(t.port) else a.protocol;
        d.(state := Open, protocol := protocol, pc := Finished)
    case Tls => AfterTls(d.(tls := a.tls))
    case Certificate => AfterCertificate(d.(tls := d.tls || a.tls))
    case Version(n) => AfterVersion(d, n)
    case Unknown(n) =>
      if a.protocol.Some? then AfterUnknown(d.(protocol := a.protocol))
      else if n + 1 < UNKNOWN_PROBES then d.(pc := At(Unknown(n + 1)))
      else AfterUnknown(d)
    case Enrich => d.(pc := Finished)
  }

  // ----- how much a task can still spend -----

  function LikelyBonus(port: nat): nat {
    if LikelyTls(port) then 1 else 0
  }

  /** The most connections one port can cost. */
  function Bound(t: Task): nat {
    if t.passive then 1 else 12 + LikelyBonus(t.port)
  }

  /** Upper bound on the reservations still to come. */
  function Remaining(t: Task): nat {
    match t.pc
    case Finished => 0
    case At(First) => Bound(t)
    case Dialing(First) => Bound(t) - 1
    case At(Tls) => 11 + LikelyBonus(t.port)
    case Dialing(Tls) => 10 + LikelyBonus(t.port)
    case At(Certificate) => if t.tls then 5 else 11
    case Dialing(Certificate) => if t.tls then 4 else 10
    case At(Version(n)) => if n < VERSION_PROBES then VERSION_PROBES - n + 1 else 0
    case Dialing(Version(n)) => if n < VERSION_PROBES then VERSION_PROBES - n else 0
    case At(Unknown(n)) => if n < UNKNOWN_PROBES then UNKNOWN_PROBES - n + 1 else 0
    case Dialing(Unknown(n)) => if n < UNKNOWN_PROBES then UNKNOWN_PROBES - n else 0
    case At(Enrich) => 1
    case Dialing(Enrich) => 0
  }

  predicate TaskOk(t: Task) {
    && t.spent == t.dialed + (if t.pc.Dialing? then 1 else 0)
    && t.spent + Remaining(t) <= Bound(t)
    && (t.pc.Finished? || (
          && (t.pc.site != First ==> !t.passive)
          && (t.pc.site == Certificate ==> t.tls || LikelyTls(t.port))
          && (t.pc.site.Version? ==> t.tls && t.pc.site.n < VERSION_PROBES)
          && (t.pc.site.Unknown? ==> !t.tls && t.pc.site.n < UNKNOWN_PROBES)
          && (t.pc.site in {First, Tls} ==> !t.tls)))
  }

  lemma AfterUnknownOk(t: Task)
    requires !t.passive && t.spent == t.dialed && t.spent + 1 <= Bound(t)
    ensures TaskOk(AfterUnknown(t))
  {
    hide ServiceFromPort, LikelyTls;
  }

  lemma AfterVersionsOk(t: Task)
    requires !t.passive && t.spent == t.dialed && t.spent + (if t.tls then 1 else 10) <= Bound(t)
    ensures TaskOk(AfterVersions(t))
  {
    hide ServiceFromPort, LikelyTls, AfterUnknown;
    var named := if t.tls && t.protocol in {None, Some("http"), Some("tls")} then t.(protocol := Some("https")) else t;
    if named.protocol.Some? {
      AfterUnknownOk(named);
    }
  }

  lemma AfterCertificateOk(t: Task)
    requires !t.passive && t.spent == t.dialed && t.spent + (if t.tls then 4 else 10) <= Bound(t)
    ensures TaskOk(AfterCertificate(t))
  {
    hide LikelyTls, AfterVersions;
    if !t.tls {
      AfterVersionsOk(t);
    }
  }

  lemma AfterTlsOk(t: Task)
    requires !t.passive && t.spent == t.dialed && t.spent + 10 + LikelyBonus(t.port) <= Bound(t)
    ensures TaskOk(AfterTls(t))
  {
    hide AfterCertificate;
    if !(t.tls || LikelyTls(t.port)) {
      AfterCertificateOk(t);
    }
  }

  lemma AfterVersionOk(t: Task, n: nat)
    requires !t.passive && t.tls && n < VERSION_PROBES && t.spent == t.dialed
      && t.spent + VERSION_PROBES - n <= Bound(t)
    ensures TaskOk(AfterVersion(t, n))
  {
    hide LikelyTls, AfterVersions;
    if n + 1 >= VERSION_PROBES {
      AfterVersionsOk(t);
    }
  }

  lemma GrantedOk(t: Task)
    requires TaskOk(t) && t.pc.At?
    ensures TaskOk(Granted(t)) && Remaining(t) >= 1 && Bound(Granted(t)) == Bound(t)
  {
    hide LikelyTls;
  }

  lemma RefusedOk(t: Task)
    requires TaskOk(t) && t.pc.At?
    ensures TaskOk(Refused(t))
  {
    hide LikelyTls, AfterUnknown, AfterVersions, AfterVersion, AfterCertificate, AfterTls;
    match t.pc.site
    case First =>
    case Tls => AfterTlsOk(t);
    case Certificate => AfterCertificateOk(t);
    case Version(n) => AfterVersionOk(t, n);
    case Unknown(_) => AfterUnknownOk(t);
    case Enrich =>
  }

  lemma DialedOk(t: Task, a: Answer)
    requires TaskOk(t) && t.pc.Dialing?
    ensures TaskOk(Dialed(t, a))
  {
    hide LikelyTls, ServiceFromPort, AfterUnknown, AfterVersions, AfterVersion, AfterCertificate, AfterTls;
    var d := t.(dialed := t.dialed + 1);
    match t.pc.site
    case First =>
    case Tls => AfterTlsOk(d.(tls := a.tls));
    case Certificate => AfterCertificateOk(d.(tls := d.tls || a.tls));
    case Version(n) => AfterVersionOk(d, n);
    case Unknown(n) =>
      if a.protocol.Some? {
        AfterUnknownOk(d.(protocol := a.protocol));
      } else if n + 1 >= UNKNOWN_PROBES {
        AfterUnknownOk(d);
      }
    case Enrich =>
  }

  function Place(s: Site): nat {
    match s
    case First => 0
    case Tls => 1
    case Certificate => 2
    case Version(n) => if n < VERSION_PROBES then 3 + n else 5
    case Unknown(n) => if n < UNKNOWN_PROBES then 6 + n else 14
    case Enrich => 15
  }

  /** Steps left at most. */
  function Left(c: Counter): nat {
    match c
    case At(s) => 2 * (16 - Place(s))
    case Dialing(s) => 2 * (16 - Place(s)) - 1
    case Finished => 0
  }

  /** A later place of the same task, with at most `left` steps to go. */
  predicate Onward(t: Task, t': Task, left: nat) {
    && t'.port == t.port && t'.passive == t.passive && t'.risky == t.risky
    && t'.spent == t.spent && t'.dialed == t.dialed && Left(t'.pc) <= left
  }

  lemma AfterUnknownMoves(t: Task)
    ensures Onward(t, AfterUnknown(t), 2)
  {
    hide ServiceFromPort;
  }

  lemma AfterVersionsMoves(t: Task)
    ensures Onward(t, AfterVersions(t), 20)
  {
    hide AfterUnknown;
    AfterUnknownMoves(t);
    AfterUnknownMoves(t.(protocol := Some("https")));
  }

  lemma AfterCertificateMoves(t: Task)
    ensures Onward(t, AfterCertificate(t), 26)
  {
    hide AfterVersions;
    AfterVersionsMoves(t);
  }

  lemma AfterTlsMoves(t: Task)
    ensures Onward(t, AfterTls(t), 28)
  {
    hide AfterCertificate, LikelyTls;
    AfterCertificateMoves(t);
  }

  lemma AfterVersionMoves(t: Task, n: nat)
    ensures Onward(t, AfterVersion(t, n), if n + 1 < VERSION_PROBES then 26 - 2 * (n + 1) else 20)
  {
    hide AfterVersions;
    AfterVersionsMoves(t);
  }

  /** A refusal costs nothing, and every step is a step forward. */
  lemma RefusedMoves(t: Task)
    requires t.pc.At?
    ensures Onward(t, Refused(t), Left(t.pc) - 1)
  {
    hide AfterUnknown, AfterVersions, AfterVersion, AfterCertificate, AfterTls;
    match t.pc.site
    case First =>
    case Tls => AfterTlsMoves(t);
    case Certificate => AfterCertificateMoves(t);
    case Version(n) => AfterVersionMoves(t, n);
    case Unknown(_) => AfterUnknownMoves(t);
    case Enrich =>
  }

  lemma DialedMoves(t: Task, a: Answer)
    requires t.pc.Dialing?
    ensures Onward(t.(dialed := t.dialed + 1), Dialed(t, a), Left(t.pc) - 1)
  {
    hide ServiceFromPort, AfterUnknown, AfterVersions, AfterVersion, AfterCertificate, AfterTls;
    var d := t.(dialed := t.dialed + 1);
    match t.pc.site
    case First =>
    case Tls => AfterTlsMoves(d.(tls := a.tls));
    case Certificate => AfterCertificateMoves(d.(tls := d.tls || a.tls));
    case Version(n) => AfterVersionMoves(d, n);
    case Unknown(n) =>
      AfterUnknownMoves(d.(protocol := a.protocol));
      AfterUnknownMoves(d);
    case Enrich =>
  }

  lemma StepsMove(t: Task, a: Answer)
    ensures t.pc.At? ==> Onward(t, Refused(t), Left(t.pc) - 1) && Left(Granted(t).pc) < Left(t.pc)
    ensures t.pc.Dialing? ==> Onward(t.(dialed := t.dialed + 1), Dialed(t, a), Left(t.pc) - 1)
  {
    if t.pc.At? {
      RefusedMoves(t);
    } else if t.pc.Dialing? {
      DialedMoves(t, a);
    }
  }

  // ----- all tasks together -----

  datatype Scan = Scan(used: nat, maximum: nat, connections: nat, tasks: seq<Task>)

  /** Task `i` moves: a reservation (`late` if the deadline has passed) or a connection that finds `answer`. */
  datatype Move = Move(i: nat, late: bool, answer: Answer)

  function MaximumOf(configured: nat): nat {
    if configured > 1 then configured else 1
  }

  predicate CanMove(s: Scan, m: Move) {
    m.i < |s.tasks| && !s.tasks[m.i].pc.Finished?
  }

  function Moved(s: Scan, m: Move): Scan
    requires CanMove(s, m)
  {
    var t := s.tasks[m.i];
    if t.pc.Dialing? then s.(connections := s.connections + 1, tasks := s.tasks[m.i := Dialed(t, m.answer)])
    else if !m.late && s.used < s.maximum then s.(used := s.used + 1, tasks := s.tasks[m.i := Granted(t)])
    else s.(tasks := s.tasks[m.i := Refused(t)])
  }

  ghost predicate Moves(s: Scan, moves: seq<Move>, s': Scan)
    decreases |moves|
  {
    if moves == [] then s' == s else CanMove(s, moves[0]) && Moves(Moved(s, moves[0]), moves[1..], s')
  }

  function Spent(t: Task): nat {
    t.spent
  }

  function DialedBy(t: Task): nat {
    t.dialed
  }

  function BoundOf(t: Task): nat {
    Bound(t)
  }

  predicate ScanOk(s: Scan) {
    && s.used == Sum(s.tasks, Spent) && s.connections == Sum(s.tasks, DialedBy)
    && s.used <= s.maximum
    && forall i :: 0 <= i < |s.tasks| ==> TaskOk(s.tasks[i])
  }

  lemma MoveKeeps(s: Scan, m: Move)
    requires ScanOk(s) && CanMove(s, m)
    ensures ScanOk(Moved(s, m))
  {
    var t := s.tasks[m.i];
    var t' := Moved(s, m).tasks[m.i];
    StepsMove(t, m.answer);
    if t.pc.Dialing? {
      DialedOk(t, m.answer);
    } else {
      GrantedOk(t);
      RefusedOk(t);
    }
    SumUpdate(s.tasks, m.i, t', Spent);
    SumUpdate(s.tasks, m.i, t', DialedBy);
    hide TaskOk, Dialed, Refused;
  }

  lemma {:induction false} MovesKeep(s: Scan, moves: seq<Move>, s': Scan)
    requires ScanOk(s) && Moves(s, moves, s')
    ensures ScanOk(s') && s'.maximum == s.maximum && |s'.tasks| == |s.tasks|
    ensures forall i :: 0 <= i < |s.tasks| ==> Bound(s'.tasks[i]) == Bound(s.tasks[i])
    decreases |moves|
  {
    if moves != [] {
      var m, next := moves[0], Moved(s, moves[0]);
      MoveKeeps(s, m);
      StepsMove(s.tasks[m.i], m.answer);
      assert forall i :: 0 <= i < |s.tasks| ==> Bound(next.tasks[i]) == Bound(s.tasks[i]) by {
        hide Dialed, Refused, LikelyTls;
      }
      hide ScanOk, Moved, CanMove, Bound;
      MovesKeep(next, moves[1..], s');
    }
  }

  function NewTasks(ports: seq<nat>, passive: bool, risky: bool): (tasks: seq<Task>)
    ensures |tasks| == |ports| && forall i :: 0 <= i < |ports| ==> tasks[i] == NewTask(ports[i], passive, risky)
  {
    if ports == [] then [] else [NewTask(ports[0], passive, risky)] + NewTasks(ports[1..], passive, risky)
  }

  lemma StartOk(configured: nat, ports: seq<nat>, passive: bool, risky: bool)
    ensures ScanOk(Scan(0, MaximumOf(configured), 0, NewTasks(ports, passive, risky)))
  {
    var tasks := NewTasks(ports, passive, risky);
    SumZero(tasks, Spent);
    SumZero(tasks, DialedBy);
  }

  /**
   Under every interleaving: connections never outnumber reservations, reservations never exceed the
   configured maximum (at least one), and no port costs more than its bound: one connection if passive,
   otherwise 13 on a likely TLS port and 12 on any other. When all tasks are done every reservation has
   been used for exactly one connection.
   */
  lemma BudgetHolds(configured: nat, ports: seq<nat>, passive: bool, risky: bool, moves: seq<Move>, s: Scan)
    requires Moves(Scan(0, MaximumOf(configured), 0, NewTasks(ports, passive, risky)), moves, s)
    ensures s.connections <= s.used <= if configured >= 1 then configured else 1
    ensures |s.tasks| == |ports| && forall i :: 0 <= i < |ports| ==>
      s.tasks[i].dialed <= s.tasks[i].spent <= if passive then 1 else if IsTlsPort(ports[i]) then 13 else 12
    ensures (forall i :: 0 <= i < |s.tasks| ==> s.tasks[i].pc.Finished?) ==> s.connections == s.used
  {
    var start := Scan(0, MaximumOf(configured), 0, NewTasks(ports, passive, risky));
    StartOk(configured, ports, passive, risky);
    MovesKeep(start, moves, s);
    hide LikelyTls, IsTlsPort;
    SpentCoversDialed(s.tasks);
    forall i | 0 <= i < |ports|
      ensures IsTlsPort(ports[i]) <==> LikelyTls(ports[i])
    {
      TlsPortIs(ports[i]);
    }
  }

  lemma {:induction false} SpentCoversDialed(tasks: seq<Task>)
    requires forall i :: 0 <= i < |tasks| ==> TaskOk(tasks[i])
    ensures Sum(tasks, DialedBy) <= Sum(tasks, Spent)
    ensures (forall i :: 0 <= i < |tasks| ==> tasks[i].pc.Finished?) ==> Sum(tasks, DialedBy) == Sum(tasks, Spent)
  {
    if tasks != [] {
      SpentCoversDialed(tasks[1..]);
    }
  }

  // ----- one task on its own -----

  /** What each connection would find, and which reservations would come after the deadline. */
  datatype World = World(answers: map<Site, Answer>, late: set<Site>)

  function AnswerAt(w: World, s: Site): Answer {
    if s in w.answers then w.answers[s] else Answer(false, None, false)
  }

  /** A task that runs by itself: how it ends, and how much of the budget is then used. */
  function Solo(t: Task, used: nat, maximum: nat, w: World): (Task, nat)
    decreases Left(t.pc)
  {
    StepsMove(t, if t.pc.Finished? then Answer(false, None, false) else AnswerAt(w, t.pc.site));
    match t.pc
    case Finished => (t, used)
    case Dialing(site) => Solo(Dialed(t, AnswerAt(w, site)), used, maximum, w)
    case At(site) =>
      if site !in w.late && used < maximum then Solo(Granted(t), used + 1, maximum, w)
      else Solo(Refused(t), used, maximum, w)
  }

  /** A task whose reservations are never refused. */
  function Alone(t: Task, w: World): Task
    decreases Left(t.pc)
  {
    StepsMove(t, if t.pc.Finished? then Answer(false, None, false) else AnswerAt(w, t.pc.site));
    match t.pc
    case Finished => t
    case Dialing(site) => Alone(Dialed(t, AnswerAt(w, site)), w)
    case At(_) => Alone(Granted(t), w)
  }

  /** By itself too, a task finishes within the maximum and within its bound, and uses every reservation. */
  lemma {:induction false} SoloWithinBudget(t: Task, used: nat, maximum: nat, w: World)
    requires TaskOk(t) && used <= maximum
    ensures
      var (end, after) := Solo(t, used, maximum, w);
      && end.pc.Finished? && end.spent == end.dialed <= Bound(t) && after <= maximum
      && after - used == end.spent - t.spent
    decreases Left(t.pc)
  {
    if !t.pc.Finished? {
      var a := AnswerAt(w, t.pc.site);
      StepsMove(t, a);
      if t.pc.Dialing? {
        DialedOk(t, a);
        hide TaskOk, Dialed, LikelyTls;
        SoloWithinBudget(Dialed(t, a), used, maximum, w);
      } else {
        GrantedOk(t);
        RefusedOk(t);
        hide TaskOk, Refused, LikelyTls;
        if t.pc.site !in w.late && used < maximum {
          SoloWithinBudget(Granted(t), used + 1, maximum, w);
        } else {
          SoloWithinBudget(Refused(t), used, maximum, w);
        }
      }
    }
  }

  // ----- with an ample budget, order does not matter -----

  predicate Ample(s: Scan) {
    Sum(s.tasks, BoundOf) <= s.maximum
  }

  lemma RoomLeft(s: Scan, i: nat)
    requires ScanOk(s) && Ample(s) && i < |s.tasks| && s.tasks[i].pc.At?
    ensures s.used < s.maximum
  {
    GrantedOk(s.tasks[i]);
    SpentBelowBound(s.tasks, i);
  }

  lemma {:induction false} SpentBelowBound(tasks: seq<Task>, i: nat)
    requires i < |tasks| && forall j :: 0 <= j < |tasks| ==> TaskOk(tasks[j])
    requires tasks[i].spent < Bound(tasks[i])
    ensures Sum(tasks, Spent) < Sum(tasks, BoundOf)
  {
    if i == 0 {
      SpentWithinBound(tasks[1..]);
    } else {
      SpentBelowBound(tasks[1..], i - 1);
    }
  }

  lemma {:induction false} SpentWithinBound(tasks: seq<Task>)
    requires forall j :: 0 <= j < |tasks| ==> TaskOk(tasks[j])
    ensures Sum(tasks, Spent) <= Sum(tasks, BoundOf)
  {
    if tasks != [] {
      SpentWithinBound(tasks[1..]);
    }
  }

  /** Every move is in time, and finds what that task's world holds. */
  ghost predicate Faithful(s: Scan, moves: seq<Move>, worlds: seq<World>)
    decreases |moves|
  {
    moves != [] ==>
      && CanMove(s, moves[0]) && moves[0].i < |worlds| && !moves[0].late
      && moves[0].answer == AnswerAt(worlds[moves[0].i], s.tasks[moves[0].i].pc.site)
      && Faithful(Moved(s, moves[0]), moves[1..], worlds)
  }

  /**
   If the budget covers every port's bound and the deadline is not reached, the interleaving is
   immaterial: each task ends as it would have alone, and no port is reported filtered for lack of budget.
   */
  lemma {:induction false} AmpleBudgetIsFair(s: Scan, moves: seq<Move>, s': Scan, worlds: seq<World>)
    requires ScanOk(s) && Ample(s) && Moves(s, moves, s') && |worlds| == |s.tasks| && Faithful(s, moves, worlds)
    ensures |s'.tasks| == |s.tasks| && forall i ::
      0 <= i < |s.tasks| ==> Alone(s'.tasks[i], worlds[i]) == Alone(s.tasks[i], worlds[i])
    ensures forall i :: 0 <= i < |s.tasks| && s'.tasks[i].pc.Finished? ==> s'.tasks[i] == Alone(s.tasks[i], worlds[i])
    decreases |moves|
  {
    if moves != [] {
      var m := moves[0];
      var next := Moved(s, m);
      MoveKeeps(s, m);
      FaithfulStep(s, m, worlds);
      assert Ample(next) by {
        StepsMove(s.tasks[m.i], m.answer);
        hide LikelyTls, ServiceFromPort, Dialed, Refused, Sum;
        SumUpdate(s.tasks, m.i, next.tasks[m.i], BoundOf);
      }
      hide ScanOk, Ample, Moved, CanMove, Alone;
      AmpleBudgetIsFair(next, moves[1..], s', worlds);
    }
    assert forall t: Task, w :: t.pc.Finished? ==> Alone(t, w) == t;
  }

  lemma FaithfulStep(s: Scan, m: Move, worlds: seq<World>)
    requires ScanOk(s) && Ample(s) && CanMove(s, m) && |worlds| == |s.tasks| && !m.late
    requires m.answer == AnswerAt(worlds[m.i], s.tasks[m.i].pc.site)
    ensures
      var next := Moved(s, m);
      |next.tasks| == |s.tasks| && forall i ::
        0 <= i < |s.tasks| ==> Alone(next.tasks[i], worlds[i]) == Alone(s.tasks[i], worlds[i])
  {
    var t := s.tasks[m.i];
    if t.pc.At? {
      RoomLeft(s, m.i);
    }
    hide ScanOk, Ample, Dialed, Refused, AnswerAt;
    assert Alone(Moved(s, m).tasks[m.i], worlds[m.i]) == Alone(t, worlds[m.i]);
  }

  // ----- the bounds are attained -----

  /** A port that accepts connections, says nothing it can be recognised by, and speaks no TLS. */
  function SilentWorld(): World {
    World(map[First := Answer(true, None, false)], {})
  }

  /** From the `n`-th generic probe on: all of them are spent, and the profile stays unknown. */
  lemma {:induction false} SilentProbes(t: Task, n: nat)
    requires n < UNKNOWN_PROBES && t.pc == At(Unknown(n))
    ensures Alone(t, SilentWorld()) ==
      Alone(AfterUnknown(t.(spent := t.spent + UNKNOWN_PROBES - n, dialed := t.dialed + UNKNOWN_PROBES - n)),
        SilentWorld())
    decreases UNKNOWN_PROBES - n
  {
    hide AfterUnknown;
    var (w, silent) := (SilentWorld(), Answer(false, None, false));
    assert AnswerAt(w, Unknown(n)) == silent;
    var next := Dialed(Granted(t), silent);
    assert Alone(t, w) == Alone(Granted(t), w) == Alone(next, w);
    if n + 1 < UNKNOWN_PROBES {
      SilentProbes(next, n + 1);
      var (rest, all) := (UNKNOWN_PROBES - (n + 1), UNKNOWN_PROBES - n);
      assert next.(spent := next.spent + rest, dialed := next.dialed + rest).(pc := t.pc)
        == t.(spent := t.spent + all, dialed := t.dialed + all);
      AfterUnknownIgnoresCounter(next.(spent := next.spent + rest, dialed := next.dialed + rest), t.pc);
    } else {
      AfterUnknownIgnoresCounter(next.(spent := t.spent + 1, dialed := t.dialed + 1), t.pc);
      AfterUnknownIgnoresCounter(t.(spent := t.spent + 1, dialed := t.dialed + 1), Dialing(Unknown(n)));
    }
  }

  lemma AfterUnknownIgnoresCounter(t: Task, pc: Counter)
    ensures AfterUnknown(t) == AfterUnknown(t.(pc := pc))
  {
    hide ServiceFromPort;
  }

  /**
   A silent active port costs the first dial, the TLS probe, the certificate probe where TLS is likely, and all
   generic probes.
   */
  lemma SilentPort(port: nat, risky: bool)
    ensures
      var generic := 2 + LikelyBonus(port) + UNKNOWN_PROBES;
      var t := NewTask(port, false, risky).(state := Open, pc := At(Unknown(0)), spent := generic, dialed := generic);
      Alone(NewTask(port, false, risky), SilentWorld()) == Alone(AfterUnknown(t), SilentWorld())
  {
    hide ServiceFromPort, LikelyTls, AfterUnknown;
    var w := SilentWorld();
    var t0 := NewTask(port, false, risky);
    var t1 := t0.(state := Open, pc := At(Tls), spent := 1, dialed := 1);
    assert Dialed(Granted(t0), AnswerAt(w, First)) == t1;
    assert Alone(t0, w) == Alone(Granted(t0), w) == Alone(t1, w);
    var t2 := Dialed(Granted(t1), AnswerAt(w, Tls));
    assert Alone(t1, w) == Alone(Granted(t1), w) == Alone(t2, w);
    var t4 := t1.(pc := At(Unknown(0)), spent := 2 + LikelyBonus(port), dialed := 2 + LikelyBonus(port));
    if LikelyTls(port) {
      assert t2 == t1.(pc := At(Certificate), spent := 2, dialed := 2);
      assert Dialed(Granted(t2), AnswerAt(w, Certificate)) == t4;
      assert Alone(t2, w) == Alone(Granted(t2), w) == Alone(t4, w);
    } else {
      assert t2 == t4;
    }
    SilentProbes(t4, 0);
  }

  lemma MailProbe(port: nat, generic: nat, risky: bool, service: string)
    requires ServiceFromPort(port) == Some(service) && service in {"smtp", "postgresql"}
    ensures
      var t := NewTask(port, false, risky).(state := Open, pc := At(Unknown(0)), spent := generic, dialed := generic);
      Alone(AfterUnknown(t), SilentWorld()).dialed == generic + 1
  {
    hide ServiceFromPort;
    var w := SilentWorld();
    var t := NewTask(port, false, risky).(state := Open, pc := At(Unknown(0)), spent := generic, dialed := generic);
    var u := AfterUnknown(t);
    assert u.pc == At(Enrich);
    var v := Dialed(Granted(u), AnswerAt(w, Enrich));
    assert v.pc == Finished && v.dialed == generic + 1;
    assert Alone(u, w) == Alone(Granted(u), w) == Alone(v, w) == v;
  }

  /** A silent port whose number alone earns a follow-up probe costs its bound. */
  lemma SilentMailPort(port: nat, risky: bool, service: string)
    requires ServiceFromPort(port) == Some(service) && service in {"smtp", "postgresql"}
    ensures Alone(NewTask(port, false, risky), SilentWorld()).dialed == 12 + LikelyBonus(port)
  {
    SilentPort(port, risky);
    MailProbe(port, 2 + LikelyBonus(port) + UNKNOWN_PROBES, risky, service);
    hide *;
  }

  lemma ServiceFacts()
    ensures ServiceFromPort(465) == Some("smtp") && LikelyBonus(465) == 1
    ensures ServiceFromPort(5432) == Some("postgresql") && LikelyBonus(5432) == 0
  {
  }

  /**
   The bounds are tight: a silent port 465 costs 13 connections (its name alone earns the mail probe),
   and a silent port 5432 costs 12.
   */
  lemma BoundsAreAttained(risky: bool)
    ensures Alone(NewTask(465, false, risky), SilentWorld()).dialed == 13
    ensures Alone(NewTask(5432, false, risky), SilentWorld()).dialed == 12
  {
    ServiceFacts();
    hide *;
    SilentMailPort(465, risky, "smtp");
    SilentMailPort(5432, risky, "postgresql");
  }

  // ----- what the scan of a port finds -----

  /** A reservation asked for, and whether it was granted. */
  datatype Ask = Ask(site: Site, granted: bool)

  /** Each is granted exactly before the deadline and below the maximum; `after` is what is then used. */
  ghost predicate IsLog(asked: seq<Ask>, w: World, used: nat, maximum: nat, after: nat)
    decreases |asked|
  {
    if asked == [] then after == used
    else
      && (asked[0].granted <==> asked[0].site !in w.late && used < maximum)
      && IsLog(asked[1..], w, if asked[0].granted then used + 1 else used, maximum, after)
  }

  ghost predicate Got(asked: seq<Ask>, site: Site) {
    Ask(site, true) in asked
  }

  ghost predicate Asked(asked: seq<Ask>, site: Site) {
    Ask(site, true) in asked || Ask(site, false) in asked
  }

  /** The usual service of a port; `None` for a port that has none. */
  ghost predicate IsUsual(port: nat, service: Option<string>) {
    && (service == Some("ftp") <==> port == 21) && (service == Some("ssh") <==> port == 22)
    && (service == Some("smtp") <==> port == 25 || port == 465 || port == 587)
    && (service == Some("http") <==> port == 80 || port == 81 || port == 3000 || port == 8000 || port == 8008
                                     || port == 8080 || port == 8081)
    && (service == Some("pop3") <==> port == 110 || port == 995)
    && (service == Some("imap") <==> port == 143 || port == 993)
    && (service == Some("https") <==> port == 443 || port == 8443)
    && (service == Some("smb") <==> port == 445) && (service == Some("mssql") <==> port == 1433)
    && (service == Some("mqtt") <==> port == 1883 || port == 8883)
    && (service == Some("mongodb") <==> port == 27017) && (service == Some("mysql") <==> port == 3306)
    && (service == Some("rdp") <==> port == 3389) && (service == Some("postgresql") <==> port == 5432)
    && (service == Some("amqp") <==> port == 5671 || port == 5672)
    && (service == Some("redis") <==> port == 6379) && (service == Some("elasticsearch") <==> port == 9200)
    && (service == Some("memcached") <==> port == 11211)
    && (service.Some? ==> service.value in {"ftp", "ssh", "smtp", "http", "pop3", "imap", "https", "smb", "mssql",
                                            "mqtt", "mongodb", "mysql", "rdp", "postgresql", "amqp", "redis",
                                            "elasticsearch", "memcached"})
  }

  /** Ports that mostly speak TLS: their certificate is asked for even if the first probe finds none. */
  ghost predicate IsTlsPort(port: nat) {
    || port == 443 || port == 465 || port == 636 || port == 853 || port == 990 || port == 993 || port == 995
    || port == 5671 || port == 8443 || port == 8883
  }

  /** Services with a probe of their own; the one for FTP only if risky probes are allowed. */
  ghost predicate HasProbe(service: Option<string>, risky: bool) {
    || service == Some("postgresql") || service == Some("smtp") || service == Some("mongodb")
    || (service == Some("ftp") && risky)
  }

  /** The last step: the probe of the service, if it has one. */
  ghost predicate IsLastProbe(asked: seq<Ask>, service: Option<string>, risky: bool) {
    && (Asked(asked, Enrich) <==> HasProbe(service, risky))
    && (forall a :: a in asked && !a.site.Enrich? ==> a.site.Unknown?)
  }

  /**
   From generic probe `n` on: one is asked for after the other, until one is refused or finds something. The service
   is what it finds, and the usual one of the port if none does.
   */
  ghost predicate IsGeneric(asked: seq<Ask>, w: World, n: nat, port: nat, service: Option<string>) {
    && Asked(asked, Unknown(n))
    && (forall k: nat :: Asked(asked, Unknown(k)) ==> n <= k < 9)
    && (forall k: nat :: n <= k < 8 ==>
          (Asked(asked, Unknown(k + 1)) <==> Got(asked, Unknown(k)) && AnswerAt(w, Unknown(k)).protocol == None))
    && (forall k: nat :: Got(asked, Unknown(k)) && AnswerAt(w, Unknown(k)).protocol != None ==>
          service == AnswerAt(w, Unknown(k)).protocol)
    && ((forall k: nat :: Got(asked, Unknown(k)) ==> AnswerAt(w, Unknown(k)).protocol == None)
      ==> IsUsual(port, service))
  }

  /** After TLS: the greeting names the service; TLS makes it https; otherwise the generic probes decide. */
  ghost predicate IsNamed(asked: seq<Ask>, w: World, port: nat, greeting: Option<string>, tls: bool,
                          service: Option<string>) {
    if tls && (greeting == None || greeting == Some("http") || greeting == Some("tls")) then
      service == Some("https") && forall k: nat :: !Asked(asked, Unknown(k))
    else if greeting != None then service == greeting && forall k: nat :: !Asked(asked, Unknown(k))
    else IsGeneric(asked, w, 0, port, service)
  }

  /** TLS is found if and only if one of the two probes for it is granted and finds it. */
  ghost predicate IsTlsFound(asked: seq<Ask>, w: World, port: nat, tls: bool) {
    var first := Got(asked, Tls) && AnswerAt(w, Tls).tls;
    && Asked(asked, Tls) && (Asked(asked, Certificate) <==> first || IsTlsPort(port))
    && (tls <==> first || (Got(asked, Certificate) && AnswerAt(w, Certificate).tls))
    && (forall n: nat :: Asked(asked, Version(n)) <==> tls && n < 3)
  }

  /** What a port is reported as, from the reservations granted and the answers found. */
  ghost predicate IsScanned(asked: seq<Ask>, w: World, port: nat, passive: bool, risky: bool, state: PortState,
                            service: Option<string>, tls: bool) {
    var dial := AnswerAt(w, First);
    && Asked(asked, First)
    && (state == Filtered <==> !Got(asked, First))
    && (state == Closed <==> Got(asked, First) && !dial.connected)
    && (state == Open && !passive ==>
          && IsTlsFound(asked, w, port, tls) && IsNamed(asked, w, port, dial.protocol, tls, service)
          && (Asked(asked, Enrich) <==> HasProbe(service, risky)))
    && (state != Open || passive ==> !tls && forall a :: a in asked ==> a.site == First)
    && (state != Open ==> service == None)
    && (state == Open && passive ==>
          if dial.protocol != None then service == dial.protocol else IsUsual(port, service))
  }

  // ----- that the machine does just this -----

  lemma UsualIs(port: nat)
    ensures IsUsual(port, ServiceFromPort(port))
  {
  }

  lemma TlsPortIs(port: nat)
    ensures IsTlsPort(port) <==> LikelyTls(port)
  {
  }

  lemma HasProbeIs(service: Option<string>, risky: bool)
    ensures HasProbe(service, risky) <==> Enriches(service, risky)
  {
  }

  predicate SameProfile(t: Task, u: Task) {
    u.state == t.state && u.protocol == t.protocol && u.tls == t.tls
  }

  /** One reservation more in front of a log. */
  lemma LogGrows(site: Site, granted: bool, rest: seq<Ask>, w: World, used: nat, maximum: nat, after: nat)
    requires granted <==> site !in w.late && used < maximum
    requires IsLog(rest, w, if granted then used + 1 else used, maximum, after)
    ensures IsLog([Ask(site, granted)] + rest, w, used, maximum, after)
    ensures forall s :: Got([Ask(site, granted)] + rest, s) <==> (s == site && granted) || Got(rest, s)
    ensures forall s :: Asked([Ask(site, granted)] + rest, s) <==> s == site || Asked(rest, s)
    ensures forall a :: a in [Ask(site, granted)] + rest <==> a == Ask(site, granted) || a in rest
  {
    var all := [Ask(site, granted)] + rest;
    assert all[1..] == rest;
    assert forall a :: a in all <==> a == Ask(site, granted) || a in rest;
  }

  lemma NothingAsked(w: World, used: nat, maximum: nat)
    ensures IsLog([], w, used, maximum, used)
    ensures forall s :: !Got([], s) && !Asked([], s)
  {
  }

  lemma AfterUnknownEnds(t: Task, used: nat, maximum: nat, w: World) returns (asked: seq<Ask>)
    ensures
      var (end, after) := Solo(AfterUnknown(t), used, maximum, w);
      && IsLog(asked, w, used, maximum, after) && end.state == t.state && end.tls == t.tls
      && (if t.protocol.Some? then end.protocol == t.protocol else IsUsual(t.port, end.protocol))
      && (Asked(asked, Enrich) <==> HasProbe(end.protocol, t.risky))
      && (forall a :: a in asked ==> a.site == Enrich)
  {
    UsualIs(t.port);
    hide ServiceFromPort, IsUsual;
    var u := AfterUnknown(t);
    HasProbeIs(u.protocol, t.risky);
    hide HasProbe, Enriches;
    NothingAsked(w, used, maximum);
    if u.pc.Finished? {
      SoloDone(u, used, maximum, w);
      asked := [];
    } else {
      SoloAt(u, used, maximum, w);
      var granted := Enrich !in w.late && used < maximum;
      var (end, after) := (if granted then Dialed(Granted(u), AnswerAt(w, Enrich)) else Refused(u),
                           if granted then used + 1 else used);
      SoloDone(end, after, maximum, w);
      NothingAsked(w, after, maximum);
      LogGrows(Enrich, granted, [], w, used, maximum, after);
      asked := [Ask(Enrich, granted)] + [];
    }
    hide Solo, IsLog;
  }

  /** `asked` is `rest` with one reservation more. */
  ghost predicate OneMore(asked: seq<Ask>, site: Site, granted: bool, rest: seq<Ask>) {
    && (forall s :: Got(asked, s) <==> (s == site && granted) || Got(rest, s))
    && (forall s :: Asked(asked, s) <==> s == site || Asked(rest, s))
  }

  lemma GenericGoesOn(asked: seq<Ask>, rest: seq<Ask>, w: World, n: nat, port: nat, service: Option<string>)
    requires OneMore(asked, Unknown(n), true, rest) && n < 8 && AnswerAt(w, Unknown(n)).protocol == None
    requires IsGeneric(rest, w, n + 1, port, service)
    ensures IsGeneric(asked, w, n, port, service)
  {
    hide Got, Asked, AnswerAt, IsUsual;
    assert forall k: nat :: Asked(rest, Unknown(k)) ==> n + 1 <= k < 9;
    forall k: nat | n <= k < 8
      ensures Asked(asked, Unknown(k + 1)) <==> Got(asked, Unknown(k)) && AnswerAt(w, Unknown(k)).protocol == None
    {
      if k > n {
        assert Asked(rest, Unknown(k + 1)) <==> Got(rest, Unknown(k)) && AnswerAt(w, Unknown(k)).protocol == None;
      }
    }
  }

  lemma GenericStops(asked: seq<Ask>, rest: seq<Ask>, w: World, n: nat, granted: bool, port: nat,
      service: Option<string>)
    requires OneMore(asked, Unknown(n), granted, rest) && n < 9 && forall k: nat :: !Asked(rest, Unknown(k))
    requires
      var found := AnswerAt(w, Unknown(n)).protocol;
      if granted && found != None then service == found
      else IsUsual(port, service) && (granted ==> n == 8)
    ensures IsGeneric(asked, w, n, port, service)
  {
    assert forall s :: Got(rest, s) ==> Asked(rest, s);
    hide Got, Asked, AnswerAt, IsUsual;
  }

  /** A generic probe that ends the row: where the task then stands. */
  lemma UnknownStops(t: Task, n: nat, granted: bool, answer: Answer) returns (u: Task)
    requires t.pc == At(Unknown(n)) && t.protocol.None? && (granted ==> answer.protocol.Some? || n + 1 >= 9)
    ensures (if granted then Dialed(Granted(t), answer) else Refused(t)) == AfterUnknown(u)
    ensures u.state == t.state && u.tls == t.tls && u.port == t.port && u.risky == t.risky
    ensures u.protocol == if granted then answer.protocol else None
  {
    hide AfterUnknown;
    u := if granted then Granted(t).(dialed := t.dialed + 1, protocol := answer.protocol) else t;
  }

  lemma UnknownGoesOn(t: Task, n: nat, answer: Answer)
    requires t.pc == At(Unknown(n)) && t.protocol.None? && answer.protocol.None? && n + 1 < 9
    ensures Dialed(Granted(t), answer) == t.(pc := At(Unknown(n + 1)), spent := t.spent + 1, dialed := t.dialed + 1)
  {
    hide AfterUnknown;
  }

  /** The reservation a task asks for next, and what follows. */
  lemma AskNext(t: Task, used: nat, maximum: nat, w: World, rest: seq<Ask>)
    requires t.pc.At?
    requires
      var granted := t.pc.site !in w.late && used < maximum;
      var next := if granted then Dialed(Granted(t), AnswerAt(w, t.pc.site)) else Refused(t);
      var now := if granted then used + 1 else used;
      IsLog(rest, w, now, maximum, Solo(next, now, maximum, w).1)
    ensures
      var granted := t.pc.site !in w.late && used < maximum;
      var next := if granted then Dialed(Granted(t), AnswerAt(w, t.pc.site)) else Refused(t);
      var now := if granted then used + 1 else used;
      var asked := [Ask(t.pc.site, granted)] + rest;
      && Solo(t, used, maximum, w) == Solo(next, now, maximum, w)
      && IsLog(asked, w, used, maximum, Solo(t, used, maximum, w).1) && OneMore(asked, t.pc.site, granted, rest)
      && (forall a :: a in asked <==> a == Ask(t.pc.site, granted) || a in rest)
  {
    SoloAt(t, used, maximum, w);
    var granted := t.pc.site !in w.late && used < maximum;
    LogGrows(t.pc.site, granted, rest, w, used, maximum, Solo(t, used, maximum, w).1);
    hide Solo, IsLog, Got, Asked, Dialed, Refused, AnswerAt;
  }

  lemma {:induction false} UnknownEnds(t: Task, n: nat, used: nat, maximum: nat, w: World) returns (asked: seq<Ask>)
    requires t.pc == At(Unknown(n)) && n < 9 && t.protocol.None?
    ensures
      var (end, after) := Solo(t, used, maximum, w);
      && IsLog(asked, w, used, maximum, after) && end.state == t.state && end.tls == t.tls
      && IsGeneric(asked, w, n, t.port, end.protocol) && (Asked(asked, Enrich) <==> HasProbe(end.protocol, t.risky))
      && (forall a :: a in asked ==> a.site == Enrich || a.site.Unknown?)
    decreases 9 - n
  {
    hide *;
    var granted := Unknown(n) !in w.late && used < maximum;
    var answer := AnswerAt(w, Unknown(n));
    var now := if granted then used + 1 else used;
    var rest: seq<Ask>;
    if granted && answer.protocol.None? && n + 1 < 9 {
      UnknownGoesOn(t, n, answer);
      rest := UnknownEnds(t.(pc := At(Unknown(n + 1)), spent := t.spent + 1, dialed := t.dialed + 1), n + 1, now,
                          maximum, w);
      AskNext(t, used, maximum, w, rest);
      asked := [Ask(Unknown(n), granted)] + rest;
      GenericGoesOn(asked, rest, w, n, t.port, Solo(t, used, maximum, w).0.protocol);
    } else {
      var u := UnknownStops(t, n, granted, answer);
      rest := AfterUnknownEnds(u, now, maximum, w);
      AskNext(t, used, maximum, w, rest);
      asked := [Ask(Unknown(n), granted)] + rest;
      OnlyEnrich(rest);
      GenericStops(asked, rest, w, n, granted, t.port, Solo(t, used, maximum, w).0.protocol);
    }
    OneMoreMeans(asked, Unknown(n), granted, rest);
  }

  lemma OnlyEnrich(rest: seq<Ask>)
    requires forall a :: a in rest ==> a.site == Enrich
    ensures forall k: nat :: !Asked(rest, Unknown(k))
    ensures forall k: nat :: !Asked(rest, Version(k))
    ensures !Asked(rest, Tls) && !Asked(rest, Certificate)
  {
  }

  lemma OneMoreMeans(asked: seq<Ask>, site: Site, granted: bool, rest: seq<Ask>)
    requires OneMore(asked, site, granted, rest)
    ensures forall s :: Got(asked, s) <==> (s == site && granted) || Got(rest, s)
    ensures forall s :: Asked(asked, s) <==> s == site || Asked(rest, s)
  {
  }

  /** After the TLS probes and the versions: the name, the generic probes, the probe of the service. */
  lemma AfterVersionsEnds(t: Task, used: nat, maximum: nat, w: World) returns (asked: seq<Ask>)
    ensures
      var (end, after) := Solo(AfterVersions(t), used, maximum, w);
      && IsLog(asked, w, used, maximum, after) && end.state == t.state && end.tls == t.tls
      && IsNamed(asked, w, t.port, t.protocol, t.tls, end.protocol)
      && (Asked(asked, Enrich) <==> HasProbe(end.protocol, t.risky))
      && (forall a :: a in asked ==> a.site == Enrich || a.site.Unknown?)
  {
    hide Solo, AfterUnknown, IsGeneric, HasProbe, IsUsual, IsLog, Asked;
    var named := if t.tls && t.protocol in {None, Some("http"), Some("tls")} then t.(protocol := Some("https")) else t;
    if named.protocol.None? {
      asked := UnknownEnds(named.(pc := At(Unknown(0))), 0, used, maximum, w);
    } else {
      asked := AfterUnknownEnds(named, used, maximum, w);
      OnlyEnrich(asked);
    }
  }

  /** Nothing but versions, generic probes and the probe of the service. */
  ghost predicate IsLate(asked: seq<Ask>) {
    forall a :: a in asked ==> a.site == Enrich || a.site.Unknown? || a.site.Version?
  }

  /** The versions from `n` on, and what follows. */
  lemma {:induction false} VersionEnds(t: Task, n: nat, used: nat, maximum: nat, w: World) returns (asked: seq<Ask>)
    requires t.pc == At(Version(n)) && n < 3
    ensures
      var (end, after) := Solo(t, used, maximum, w);
      && IsLog(asked, w, used, maximum, after) && end.state == t.state && end.tls == t.tls
      && IsNamed(asked, w, t.port, t.protocol, t.tls, end.protocol)
      && (Asked(asked, Enrich) <==> HasProbe(end.protocol, t.risky))
      && IsLate(asked) && (forall k: nat :: Asked(asked, Version(k)) <==> n <= k < 3)
    decreases 3 - n
  {
    var granted := Version(n) !in w.late && used < maximum;
    var now := if granted then used + 1 else used;
    var u := if granted then Granted(t).(dialed := t.dialed + 1) else t;
    var next := if granted then Dialed(Granted(t), AnswerAt(w, Version(n))) else Refused(t);
    assert next == AfterVersion(u, n) by {
      hide AfterVersion;
    }
    var rest: seq<Ask>;
    if n + 1 < 3 {
      assert next == u.(pc := At(Version(n + 1)));
      hide *;
      rest := VersionEnds(next, n + 1, now, maximum, w);
      AskNext(t, used, maximum, w, rest);
    } else {
      assert next == AfterVersions(u);
      hide *;
      rest := AfterVersionsEnds(u, now, maximum, w);
      AskNext(t, used, maximum, w, rest);
      NoVersions(rest);
    }
    asked := [Ask(Version(n), granted)] + rest;
    OneMoreMeans(asked, Version(n), granted, rest);
    NamedStays(asked, rest, w, t.port, t.protocol, t.tls, Solo(t, used, maximum, w).0.protocol, Version(n), granted);
    LateGrows(asked, rest);
  }

  lemma NoVersions(rest: seq<Ask>)
    requires forall a :: a in rest ==> a.site == Enrich || a.site.Unknown?
    ensures IsLate(rest) && forall k: nat :: !Asked(rest, Version(k))
  {
  }

  lemma LateGrows(asked: seq<Ask>, rest: seq<Ask>)
    requires IsLate(rest) && forall a :: a in asked ==> a in rest || a.site.Version?
    ensures IsLate(asked)
  {
  }

  lemma NamedStays(asked: seq<Ask>, rest: seq<Ask>, w: World, port: nat, greeting: Option<string>, tls: bool,
                   service: Option<string>, site: Site, granted: bool)
    requires IsNamed(rest, w, port, greeting, tls, service) && OneMore(asked, site, granted, rest) && !site.Unknown?
    ensures IsNamed(asked, w, port, greeting, tls, service)
  {
    hide Got, Asked, AnswerAt, IsUsual;
    assert forall k: nat :: (Got(asked, Unknown(k)) <==> Got(rest, Unknown(k)));
    assert forall k: nat :: (Asked(asked, Unknown(k)) <==> Asked(rest, Unknown(k)));
  }

  /** After the certificate: the versions of a port with TLS, and what follows. */
  lemma AfterCertificateEnds(t: Task, used: nat, maximum: nat, w: World) returns (asked: seq<Ask>)
    ensures
      var (end, after) := Solo(AfterCertificate(t), used, maximum, w);
      && IsLog(asked, w, used, maximum, after) && end.state == t.state && end.tls == t.tls
      && IsNamed(asked, w, t.port, t.protocol, t.tls, end.protocol)
      && (Asked(asked, Enrich) <==> HasProbe(end.protocol, t.risky))
      && IsLate(asked) && (forall k: nat :: Asked(asked, Version(k)) <==> t.tls && k < 3)
  {
    hide Solo, AfterVersions, IsNamed, HasProbe, IsLog, Asked, IsLate;
    if t.tls {
      asked := VersionEnds(t.(pc := At(Version(0))), 0, used, maximum, w);
    } else {
      asked := AfterVersionsEnds(t, used, maximum, w);
      NoVersions(asked);
    }
  }

  /** What the rest of the scan asks for, once it is known whether there is TLS. */
  ghost predicate IsRest(asked: seq<Ask>, w: World, t: Task, tls: bool, end: Task) {
    && end.state == t.state && end.tls == tls && IsNamed(asked, w, t.port, t.protocol, tls, end.protocol)
    && (Asked(asked, Enrich) <==> HasProbe(end.protocol, t.risky))
    && (forall k: nat :: Asked(asked, Version(k)) <==> tls && k < 3)
  }

  lemma LateIsEarlyFree(asked: seq<Ask>)
    requires IsLate(asked)
    ensures !Asked(asked, Tls) && !Asked(asked, Certificate) && !Asked(asked, First)
    ensures !Got(asked, Tls) && !Got(asked, Certificate) && !Got(asked, First)
  {
  }

  lemma RestStays(asked: seq<Ask>, rest: seq<Ask>, w: World, t: Task, u: Task, tls: bool, end: Task, site: Site,
      granted: bool)
    requires IsRest(rest, w, u, tls, end) && OneMore(asked, site, granted, rest) && site in {First, Tls, Certificate}
    requires u.state == t.state && u.port == t.port && u.protocol == t.protocol && u.risky == t.risky
    ensures IsRest(asked, w, t, tls, end)
  {
    NamedStays(asked, rest, w, u.port, u.protocol, tls, end.protocol, site, granted);
    hide IsNamed, HasProbe, Got, Asked;
  }

  lemma CertificateEnds(t: Task, used: nat, maximum: nat, w: World) returns (asked: seq<Ask>)
    requires t.pc == At(Certificate)
    ensures
      var (end, after) := Solo(t, used, maximum, w);
      && IsLog(asked, w, used, maximum, after)
      && IsRest(asked, w, t, t.tls || (Got(asked, Certificate) && AnswerAt(w, Certificate).tls), end)
      && Asked(asked, Certificate) && !Asked(asked, Tls) && !Asked(asked, First)
      && !Got(asked, Tls) && !Got(asked, First)
  {
    var granted := Certificate !in w.late && used < maximum;
    var answer := AnswerAt(w, Certificate);
    var now := if granted then used + 1 else used;
    var u := if granted then Granted(t).(dialed := t.dialed + 1, tls := t.tls || answer.tls) else t;
    assert (if granted then Dialed(Granted(t), answer) else Refused(t)) == AfterCertificate(u) by {
      hide AfterCertificate;
    }
    hide Solo, AfterCertificate, Refused, Dialed, IsNamed, HasProbe, IsLog, Asked, Got, IsLate, AnswerAt, OneMore;
    var rest := AfterCertificateEnds(u, now, maximum, w);
    AskNext(t, used, maximum, w, rest);
    asked := [Ask(Certificate, granted)] + rest;
    OneMoreMeans(asked, Certificate, granted, rest);
    LateIsEarlyFree(rest);
    RestStays(asked, rest, w, t, u, u.tls, Solo(t, used, maximum, w).0, Certificate, granted);
  }

  lemma TlsEnds(t: Task, used: nat, maximum: nat, w: World) returns (asked: seq<Ask>)
    requires t.pc == At(Tls) && !t.tls
    ensures
      var (end, after) := Solo(t, used, maximum, w);
      && IsLog(asked, w, used, maximum, after) && end.state == t.state
      && IsTlsFound(asked, w, t.port, end.tls) && IsNamed(asked, w, t.port, t.protocol, end.tls, end.protocol)
      && (Asked(asked, Enrich) <==> HasProbe(end.protocol, t.risky)) && !Asked(asked, First) && !Got(asked, First)
  {
    TlsPortIs(t.port);
    hide LikelyTls, IsTlsPort;
    var granted := Tls !in w.late && used < maximum;
    var answer := AnswerAt(w, Tls);
    var now := if granted then used + 1 else used;
    var u := if granted then Granted(t).(dialed := t.dialed + 1, tls := answer.tls) else t;
    assert (if granted then Dialed(Granted(t), answer) else Refused(t)) == AfterTls(u) by {
      hide AfterTls;
    }
    hide Solo, AfterCertificate, Refused, Dialed, IsNamed, HasProbe, IsLog, Asked, Got, IsLate, AnswerAt, OneMore;
    var rest: seq<Ask>;
    if u.tls || LikelyTls(t.port) {
      rest := CertificateEnds(u.(pc := At(Certificate)), now, maximum, w);
    } else {
      rest := AfterCertificateEnds(u, now, maximum, w);
      LateIsEarlyFree(rest);
    }
    AskNext(t, used, maximum, w, rest);
    asked := [Ask(Tls, granted)] + rest;
    OneMoreMeans(asked, Tls, granted, rest);
    var end := Solo(t, used, maximum, w).0;
    RestStays(asked, rest, w, t, u, end.tls, end, Tls, granted);
  }

  /**
   The scan of a port by itself, for every budget and every world: the reservations it asks for, each granted exactly
   as the budget and the deadline allow, and what it reports.
   */
  lemma SoloIsScan(port: nat, passive: bool, risky: bool, used: nat, maximum: nat, w: World) returns (asked: seq<Ask>)
    ensures
      var (end, after) := Solo(NewTask(port, passive, risky), used, maximum, w);
      && IsLog(asked, w, used, maximum, after)
      && IsScanned(asked, w, port, passive, risky, end.state, end.protocol, end.tls)
  {
    var t := NewTask(port, passive, risky);
    var granted := First !in w.late && used < maximum;
    var answer := AnswerAt(w, First);
    var now := if granted then used + 1 else used;
    var next := if granted then Dialed(Granted(t), answer) else Refused(t);
    UsualIs(port);
    var rest: seq<Ask> := [];
    NothingAsked(w, now, maximum);
    hide Solo, ServiceFromPort, IsUsual, IsTlsFound, IsNamed, HasProbe, IsLog, Asked, Got, AnswerAt, OneMore;
    if next.pc.Finished? {
      SoloDone(next, now, maximum, w);
    } else {
      rest := TlsEnds(next, now, maximum, w);
    }
    AskNext(t, used, maximum, w, rest);
    asked := [Ask(First, granted)] + rest;
    OneMoreMeans(asked, First, granted, rest);
    if !next.pc.Finished? {
      TlsFoundStays(asked, rest, w, port, Solo(t, used, maximum, w).0.tls, First, granted);
      var end := Solo(t, used, maximum, w).0;
      NamedStays(asked, rest, w, port, next.protocol, end.tls, end.protocol, First, granted);
    }
  }

  lemma TlsFoundStays(asked: seq<Ask>, rest: seq<Ask>, w: World, port: nat, tls: bool, site: Site, granted: bool)
    requires IsTlsFound(rest, w, port, tls) && OneMore(asked, site, granted, rest) && site == First
    ensures IsTlsFound(asked, w, port, tls)
  {
    hide Got, Asked, AnswerAt, IsTlsPort;
  }

  lemma {:induction false} AloneIsSolo(t: Task, used: nat, maximum: nat, w: World)
    requires TaskOk(t) && used + Remaining(t) <= maximum
    ensures Solo(t, used, maximum, w.(late := {})).0 == Alone(t, w)
    decreases Left(t.pc)
  {
    var v := w.(late := {});
    var a := if t.pc.Finished? then Answer(false, None, false) else AnswerAt(w, t.pc.site);
    StepsMove(t, a);
    assert t.pc.Finished? || AnswerAt(v, t.pc.site) == a;
    hide TaskOk, Dialed, Refused, AnswerAt, LikelyTls;
    if t.pc.At? {
      GrantedOk(t);
      GrantCosts(t);
      AloneIsSolo(Granted(t), used + 1, maximum, w);
    } else if t.pc.Dialing? {
      DialedOk(t, a);
      DialCosts(t, a);
      AloneIsSolo(Dialed(t, a), used, maximum, w);
    }
  }

  lemma GrantCosts(t: Task)
    requires TaskOk(t) && t.pc.At?
    ensures Remaining(Granted(t)) + 1 <= Remaining(t)
  {
    hide LikelyTls;
  }

  lemma DialCosts(t: Task, a: Answer)
    requires TaskOk(t) && t.pc.Dialing?
    ensures Remaining(Dialed(t, a)) <= Remaining(t)
  {
    hide LikelyTls, ServiceFromPort;
  }

  lemma {:induction false} LogOnlyGrows(asked: seq<Ask>, w: World, used: nat, maximum: nat, after: nat)
    requires IsLog(asked, w, used, maximum, after)
    ensures used <= after
    ensures w.late == {} && after < maximum ==> forall a :: a in asked ==> a.granted
    decreases |asked|
  {
    if asked != [] {
      LogOnlyGrows(asked[1..], w, if asked[0].granted then used + 1 else used, maximum, after);
      assert asked == [asked[0]] + asked[1..];
    }
  }

  lemma NewTaskIsOk(port: nat, passive: bool, risky: bool)
    ensures TaskOk(NewTask(port, passive, risky)) && Bound(NewTask(port, passive, risky)) <= 13
    ensures Remaining(NewTask(port, passive, risky)) == Bound(NewTask(port, passive, risky))
    ensures NewTask(port, passive, risky).spent == 0
  {
    hide LikelyTls;
  }

  /** Alone, a port gets every reservation it asks for, and reports what its answers say. */
  lemma AloneIsScan(port: nat, passive: bool, risky: bool, w: World) returns (asked: seq<Ask>)
    ensures forall a :: a in asked ==> a.granted
    ensures
      var end := Alone(NewTask(port, passive, risky), w);
      IsScanned(asked, w, port, passive, risky, end.state, end.protocol, end.tls)
  {
    var (t, v) := (NewTask(port, passive, risky), w.(late := {}));
    NewTaskIsOk(port, passive, risky);
    asked := SoloIsScan(port, passive, risky, 0, 14, v);
    AloneIsSolo(t, 0, 14, w);
    SoloWithinBudget(t, 0, 14, v);
    LogOnlyGrows(asked, v, 0, 14, Solo(t, 0, 14, v).1);
    hide Solo, Alone, IsScanned, IsLog, NewTask;
    SameAnswers(asked, w, port, passive, risky, Alone(t, w));
  }

  lemma SameAnswers(asked: seq<Ask>, w: World, port: nat, passive: bool, risky: bool, end: Task)
    requires IsScanned(asked, w.(late := {}), port, passive, risky, end.state, end.protocol, end.tls)
    ensures IsScanned(asked, w, port, passive, risky, end.state, end.protocol, end.tls)
  {
    hide Got, Asked, IsUsual, IsTlsPort, HasProbe;
    forall s
      ensures AnswerAt(w.(late := {}), s) == AnswerAt(w, s)
    {
    }
  }

  /**
   With a budget that covers every port, and before the deadline: however the ports interleave, each of them that has
   finished got every reservation it asked for and is reported as its own answers say.
   */
  lemma AmplePortsAreScanned(s: Scan, moves: seq<Move>, s': Scan, worlds: seq<World>, i: nat, port: nat, passive: bool,
                             risky: bool) returns (asked: seq<Ask>)
    requires ScanOk(s) && Ample(s) && Moves(s, moves, s') && |worlds| == |s.tasks| && Faithful(s, moves, worlds)
    requires i < |s.tasks| && s.tasks[i] == NewTask(port, passive, risky)
    requires |s'.tasks| == |s.tasks| && s'.tasks[i].pc.Finished?
    ensures forall a :: a in asked ==> a.granted
    ensures
      var end := s'.tasks[i];
      IsScanned(asked, worlds[i], port, passive, risky, end.state, end.protocol, end.tls)
  {
    AmpleBudgetIsFair(s, moves, s', worlds);
    hide *;
    asked := AloneIsScan(port, passive, risky, worlds[i]);
  }

  // ----- the budget object, and one port scanned by the source's loops -----

  class Budget {
    var used: nat
    const maximum: nat

    predicate Valid()
      reads this
    {
      used <= maximum
    }

    constructor (configured: nat)
      ensures Valid() && used == 0 && maximum == if configured >= 1 then configured else 1
    {
      used, maximum := 0, MaximumOf(configured);
    }

    method Reserve(late: bool) returns (granted: bool)
      requires Valid()
      modifies this
      ensures Valid() && granted == (!late && old(used) < maximum)
      ensures used == old(used) + if granted then 1 else 0
    {
      if late || used >= maximum {
        return false;
      }
      used := used + 1;
      granted := true;
    }
  }

  lemma SoloAt(t: Task, used: nat, maximum: nat, w: World)
    requires t.pc.At?
    ensures
      var g := Granted(t);
      Solo(t, used, maximum, w) ==
        if t.pc.site !in w.late && used < maximum then Solo(Dialed(g, AnswerAt(w, t.pc.site)), used + 1, maximum, w)
        else Solo(Refused(t), used, maximum, w)
  {
    StepsMove(t, AnswerAt(w, t.pc.site));
    hide Dialed, Refused;
  }

  lemma SoloDone(t: Task, used: nat, maximum: nat, w: World)
    requires t.pc.Finished?
    ensures Solo(t, used, maximum, w) == (t, used)
  {
  }

  /** This is the profile of a port that is being actively probed. */
  predicate Carries(t: Task, port: nat, risky: bool, state: PortState, service: Option<string>, tls: bool) {
    !t.passive && t.port == port && t.risky == risky && t.state == state && t.protocol == service && t.tls == tls
  }

  /** The three version probes of a TLS port. `u` is where the port stands before it moves on. */
  method ProbeVersions(budget: Budget, w: World, ghost t: Task) returns (ghost u: Task)
    requires budget.Valid() && t.pc == At(Version(0)) && !t.passive
    modifies budget
    ensures budget.Valid()
    ensures Solo(AfterVersions(u), budget.used, budget.maximum, w) == Solo(t, old(budget.used), budget.maximum, w)
    ensures Carries(u, t.port, t.risky, t.state, t.protocol, t.tls)
  {
    u := t;
    for n := 0 to VERSION_PROBES
      invariant budget.Valid() && Carries(u, t.port, t.risky, t.state, t.protocol, t.tls)
      invariant n < VERSION_PROBES ==> u.pc == At(Version(n))
      invariant Solo(if n < VERSION_PROBES then u else AfterVersions(u), budget.used, budget.maximum, w)
        == Solo(t, old(budget.used), budget.maximum, w)
    {
      hide Solo, AfterVersions;
      SoloAt(u, budget.used, budget.maximum, w);
      var granted := budget.Reserve(Version(n) in w.late);
      if granted {
        u := Granted(u).(dialed := u.dialed + 1);
      }
      if n + 1 < VERSION_PROBES {
        u := u.(pc := At(Version(n + 1)));
      }
    }
  }

  /** The generic probes, until one of them is answered with a known protocol or refused. */
  method ProbeUnknown(budget: Budget, w: World, ghost t: Task) returns (protocol: Option<string>, ghost u: Task)
    requires budget.Valid() && t.pc == At(Unknown(0)) && !t.passive && t.protocol.None?
    modifies budget
    ensures budget.Valid()
    ensures Solo(AfterUnknown(u), budget.used, budget.maximum, w) == Solo(t, old(budget.used), budget.maximum, w)
    ensures Carries(u, t.port, t.risky, t.state, protocol, t.tls)
  {
    u, protocol := t, None;
    for n := 0 to UNKNOWN_PROBES
      invariant budget.Valid() && protocol == None && Carries(u, t.port, t.risky, t.state, None, t.tls)
      invariant n < UNKNOWN_PROBES ==> u.pc == At(Unknown(n))
      invariant Solo(if n < UNKNOWN_PROBES then u else AfterUnknown(u), budget.used, budget.maximum, w)
        == Solo(t, old(budget.used), budget.maximum, w)
    {
      hide Solo, AfterUnknown;
      SoloAt(u, budget.used, budget.maximum, w);
      var granted := budget.Reserve(Unknown(n) in w.late);
      if !granted {
        return;
      }
      var answer := AnswerAt(w, Unknown(n));
      u := u.(pc := Dialing(Unknown(n)), spent := u.spent + 1, dialed := u.dialed + 1);
      if answer.protocol.Some? {
        protocol := answer.protocol;
        u := u.(protocol := protocol);
        return;
      }
      if n + 1 < UNKNOWN_PROBES {
        u := u.(pc := At(Unknown(n + 1)));
      }
    }
  }

  /**
   One port, as the scanner runs it: reserve, dial, then one reservation before every probe. The result
   and the budget used are those of the port machine run by itself.
   */
  method ScanPort(budget: Budget, port: nat, passive: bool, risky: bool, w: World)
    returns (state: PortState, service: Option<string>, tls: bool, ghost end: Task, ghost asked: seq<Ask>)
    requires budget.Valid()
    modifies budget
    ensures budget.Valid()
    ensures IsLog(asked, w, old(budget.used), budget.maximum, budget.used)
    ensures IsScanned(asked, w, port, passive, risky, state, service, tls)
    ensures (end, budget.used) == Solo(NewTask(port, passive, risky), old(budget.used), budget.maximum, w)
    ensures end.state == state && end.protocol == service && end.tls == tls
  {
    asked := SoloIsScan(port, passive, risky, budget.used, budget.maximum, w);
    hide IsScanned, IsLog;
    ghost var t := NewTask(port, passive, risky);
    state, service, tls := Filtered, None, false;
    SoloAt(t, budget.used, budget.maximum, w);
    hide Solo, LikelyTls, ServiceFromPort;
    var granted := budget.Reserve(First in w.late);
    if !granted {
      end := Refused(t);
      SoloDone(end, budget.used, budget.maximum, w);
      return;
    }
    t := Dialed(Granted(t), AnswerAt(w, First));
    if !AnswerAt(w, First).connected {
      end := t;
      state := Closed;
      SoloDone(end, budget.used, budget.maximum, w);
      return;
    }
    state, service := Open, AnswerAt(w, First).protocol;
    if passive {
      if service.None? {
        service := ServiceFromPort(port);
      }
      end := t;
      SoloDone(end, budget.used, budget.maximum, w);
      return;
    }
    service, tls, end := ProbePort(budget, port, risky, service, w, t);
  }

  /** The TLS and certificate probes: whether TLS was found. */
  method ProbeTls(budget: Budget, port: nat, w: World, ghost t: Task) returns (tls: bool, ghost u: Task)
    requires budget.Valid() && t.pc == At(Tls) && !t.tls && t.port == port && !t.passive
    modifies budget
    ensures budget.Valid()
    ensures Solo(AfterCertificate(u), budget.used, budget.maximum, w) == Solo(t, old(budget.used), budget.maximum, w)
    ensures Carries(u, port, t.risky, t.state, t.protocol, tls)
  {
    hide Solo, LikelyTls, AfterCertificate;
    u, tls := t, false;
    SoloAt(u, budget.used, budget.maximum, w);
    var granted := budget.Reserve(Tls in w.late);
    if granted {
      tls := AnswerAt(w, Tls).tls;
      u := Granted(u).(dialed := u.dialed + 1, tls := tls);
    }
    if tls || LikelyTls(port) {
      u := u.(pc := At(Certificate));
      SoloAt(u, budget.used, budget.maximum, w);
      granted := budget.Reserve(Certificate in w.late);
      if granted {
        if AnswerAt(w, Certificate).tls {
          tls := true;
        }
        u := Granted(u).(dialed := u.dialed + 1, tls := tls);
      }
    }
  }

  /** The probes of an active scan. */
  method ProbePort(budget: Budget, port: nat, risky: bool, greeting: Option<string>, w: World, ghost start: Task)
    returns (service: Option<string>, tls: bool, ghost end: Task)
    requires budget.Valid() && start.pc == At(Tls) && !start.tls
    requires start.port == port && !start.passive && start.risky == risky && start.protocol == greeting
    modifies budget
    ensures budget.Valid()
    ensures (end, budget.used) == Solo(start, old(budget.used), budget.maximum, w)
    ensures end.state == start.state && end.protocol == service && end.tls == tls
  {
    hide Solo, LikelyTls, ServiceFromPort;
    ghost var u: Task;
    service := greeting;
    tls, u := ProbeTls(budget, port, w, start);
    if tls {
      u := ProbeVersions(budget, w, u.(pc := At(Version(0))));
    }
    if tls && service in {None, Some("http"), Some("tls")} {
      service := Some("https");
      u := u.(protocol := service);
    }
    if service.None? {
      service, u := ProbeUnknown(budget, w, u.(pc := At(Unknown(0))));
    }
    if service.None? {
      service := ServiceFromPort(port);
      u := u.(protocol := service);
    }
    end := u.(pc := if Enriches(service, risky) then At(Enrich) else Finished);
    assert Solo(end, budget.used, budget.maximum, w) == Solo(start, old(budget.used), budget.maximum, w);
    if service in {Some("postgresql"), Some("smtp"), Some("mongodb")} || (service == Some("ftp") && risky) {
      SoloAt(end, budget.used, budget.maximum, w);
      var granted := budget.Reserve(Enrich in w.late);
      end := if granted then Dialed(Granted(end), AnswerAt(w, Enrich)) else Refused(end);
    }
    SoloDone(end, budget.used, budget.maximum, w);
  }
}
