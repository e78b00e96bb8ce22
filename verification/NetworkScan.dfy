/**
 The resumable network scan: hosts are scanned in chunks, and after every chunk the results so far
 are written to a temporary file that is then renamed over the checkpoint. The process can die
 between any two durable steps and be launched again.
 */
module NetworkScan {
  import opened Options
  import opened Cidr

  const U64_MAX: nat := 0xFFFF_FFFF_FFFF_FFFF

  // ----- one host -----

  datatype Liveness = Tcp | Icmp | Arp | Combined

  datatype ScanOptions = ScanOptions(passive: bool, liveness: Liveness)

  type Service = string

  datatype Target = Host(address: nat) | Web(url: string)

  /** A report built from the open ports alone, or the report of a web scan with the ports added. */
  datatype Report =
    | ServiceOnly(target: Target, services: seq<Service>)
    | WebScan(url: string, body: string, services: seq<Service>)

  /** The network, as functions of what is asked of it. `webScan` yields nothing when the scan fails. */
  datatype World = World(
    answers: (Liveness, nat) -> bool,
    openPorts: (bool, seq<nat>, nat) -> seq<Service>,
    webUrls: (nat, seq<Service>) -> seq<string>,
    webScan: string -> Option<string>)

  predicate AllowsScan(world: World, liveness: Liveness, address: nat) {
    match liveness
    case Tcp => true
    case Combined => true
    case _ => world.answers(liveness, address)
  }

  function WebReport(world: World, passive: bool, url: string, services: seq<Service>): Report {
    if passive then ServiceOnly(Web(url), services)
    else
      match world.webScan(url)
      case Some(body) => WebScan(url, body, services)
      case None => ServiceOnly(Web(url), services)
  }

  function WebReports(world: World, passive: bool, urls: seq<string>, services: seq<Service>): seq<Report> {
    if urls == [] then []
    else
      WebReports(world, passive, urls[..|urls| - 1], services)
      + [WebReport(world, passive, urls[|urls| - 1], services)]
  }

  function HostReports(world: World, options: ScanOptions, ports: seq<nat>, address: nat): seq<Report> {
    if !AllowsScan(world, options.liveness, address) then []
    else
      var services := world.openPorts(options.passive, ports, address);
      var urls := world.webUrls(address, services);
      if services == [] then []
      else if urls == [] then [ServiceOnly(Host(address), services)]
      else WebReports(world, options.passive, urls, services)
  }

  // ----- files -----

  /** A path as its name without the extension, and the extension. */
  datatype Path = Path(stem: string, extension: Option<string>)

  datatype Checkpoint = Checkpoint(cidr: string, ports: seq<nat>, nextOffset: nat, results: seq<Report>)

  /** A file that is being written holds a torn prefix of JSON, which does not parse. */
  datatype File = Torn | Whole(checkpoint: Checkpoint)

  function Temporary(path: Path): Path {
    path.(extension := Some("tmp"))
  }

  function Rename(files: map<Path, File>, from: Path, to: Path): map<Path, File>
    requires from in files
  {
    (files - {from})[to := files[from]]
  }

  // ----- the job and its uninterrupted pass -----

  datatype Job = Job(world: World, options: ScanOptions, cidr: string, ports: seq<nat>, range: Range,
      path: Option<Path>)

  function ReportsAt(job: Job, offset: nat): seq<Report> {
    HostReports(job.world, job.options, job.ports, job.range.network + offset)
  }

  /** The reports of the hosts at offsets `from` to `upTo`, in order. */
  function Pass(job: Job, from: nat, upTo: nat): seq<Report>
    requires from <= upTo
    decreases upTo
  {
    if from == upTo then [] else Pass(job, from, upTo - 1) + ReportsAt(job, upTo - 1)
  }

  lemma PassOfNothing(job: Job, k: nat)
    ensures Pass(job, k, k) == []
  {
  }

  function PassFrom(job: Job, from: nat, upTo: nat): seq<Report> {
    if from <= upTo then Pass(job, from, upTo) else []
  }

  lemma {:induction false} PassSplit(job: Job, from: nat, mid: nat, upTo: nat)
    requires from <= mid <= upTo
    ensures Pass(job, from, upTo) == Pass(job, from, mid) + Pass(job, mid, upTo)
    decreases upTo
  {
    if mid < upTo {
      PassSplit(job, from, mid, upTo - 1);
      assert Pass(job, from, mid) + (Pass(job, mid, upTo - 1) + ReportsAt(job, upTo - 1))
          == (Pass(job, from, mid) + Pass(job, mid, upTo - 1)) + ReportsAt(job, upTo - 1);
    }
  }

  // ----- the pass, host by host -----

  /**
   What asking one address gives: nothing if it must answer first and does not, or has no open port; one report of
   the address if it has no web service; and otherwise one report for each web service, in order.
   */
  ghost predicate IsHostReport(world: World, options: ScanOptions, ports: seq<nat>, address: nat, reports: seq<Report>)
  {
    var services := world.openPorts(options.passive, ports, address);
    var urls := world.webUrls(address, services);
    var silent := options.liveness in {Icmp, Arp} && !world.answers(options.liveness, address);
    if silent || services == [] then reports == []
    else if urls == [] then reports == [ServiceOnly(Host(address), services)]
    else
      && |reports| == |urls|
      && forall i :: 0 <= i < |urls| ==>
           var page := if options.passive then None else world.webScan(urls[i]);
           && (page.Some? ==> reports[i] == WebScan(urls[i], page.value, services))
           && (page.None? ==> reports[i] == ServiceOnly(Web(urls[i]), services))
  }

  ghost function Concatenated(parts: seq<seq<Report>>): seq<Report> {
    if parts == [] then [] else parts[0] + Concatenated(parts[1..])
  }

  /** Each of these addresses is asked once, in this order. */
  ghost predicate Covers(job: Job, addresses: seq<nat>, reports: seq<Report>) {
    exists parts: seq<seq<Report>> :: CoversBy(job, addresses, parts) && reports == Concatenated(parts)
  }

  ghost predicate CoversBy(job: Job, addresses: seq<nat>, parts: seq<seq<Report>>) {
    && |parts| == |addresses|
    && forall i :: 0 <= i < |parts| ==> IsHostReport(job.world, job.options, job.ports, addresses[i], parts[i])
  }

  lemma {:induction false} WebReportsAre(world: World, passive: bool, urls: seq<string>, services: seq<Service>)
    ensures |WebReports(world, passive, urls, services)| == |urls|
    ensures forall i :: 0 <= i < |urls| ==>
      WebReports(world, passive, urls, services)[i] == WebReport(world, passive, urls[i], services)
  {
    if urls != [] {
      WebReportsAre(world, passive, urls[..|urls| - 1], services);
    }
  }

  lemma HostReportsAre(world: World, options: ScanOptions, ports: seq<nat>, address: nat)
    ensures IsHostReport(world, options, ports, address, HostReports(world, options, ports, address))
  {
    var services := world.openPorts(options.passive, ports, address);
    WebReportsAre(world, options.passive, world.webUrls(address, services), services);
    hide WebReports;
  }

  lemma FirstAddress(addresses: seq<nat>, from: nat, upTo: nat)
    requires from < upTo <= |addresses|
    ensures addresses[from..upTo] == [addresses[from]] + addresses[from + 1..upTo]
  {
  }

  lemma NoAddresses(job: Job)
    ensures Covers(job, [], [])
  {
    var parts: seq<seq<Report>> := [];
    hide IsHostReport;
    assert CoversBy(job, [], parts) && Concatenated(parts) == [];
  }

  /** The pass asks the addresses of its part of the range, one after the other. */
  lemma {:induction false} PassCovers(job: Job, from: nat, upTo: nat)
    requires from <= upTo <= job.range.hostCount
    ensures Covers(job, Addresses(job.range)[from..upTo], Pass(job, from, upTo))
    decreases upTo - from
  {
    var addresses := Addresses(job.range)[from..upTo];
    if from == upTo {
      PassOfNothing(job, from);
      NoAddresses(job);
      hide *;
      assert addresses == [];
    } else {
      PassCovers(job, from + 1, upTo);
      var rest := Addresses(job.range)[from + 1..upTo];
      hide Pass, HostReports, IsHostReport, Concatenated;
      var parts :| CoversBy(job, rest, parts) && Pass(job, from + 1, upTo) == Concatenated(parts);
      FirstAddress(Addresses(job.range), from, upTo);
      assert Addresses(job.range)[from] == job.range.network + from;
      FirstHost(job, from, upTo);
      HostReportsAre(job.world, job.options, job.ports, job.range.network + from);
      OnePartMore(job, job.range.network + from, rest, parts);
    }
  }

  lemma FirstHost(job: Job, from: nat, upTo: nat)
    requires from < upTo
    ensures Pass(job, from, upTo)
      == HostReports(job.world, job.options, job.ports, job.range.network + from) + Pass(job, from + 1, upTo)
  {
    PassSplit(job, from, from + 1, upTo);
    PassOfNothing(job, from);
    hide HostReports;
    assert Pass(job, from, from + 1) == ReportsAt(job, from);
  }

  lemma OnePartMore(job: Job, address: nat, addresses: seq<nat>, parts: seq<seq<Report>>)
    requires CoversBy(job, addresses, parts)
    requires
      var own := HostReports(job.world, job.options, job.ports, address);
      IsHostReport(job.world, job.options, job.ports, address, own)
    ensures Covers(job, [address] + addresses,
                   HostReports(job.world, job.options, job.ports, address) + Concatenated(parts))
  {
    hide HostReports, IsHostReport;
    var own := HostReports(job.world, job.options, job.ports, address);
    var all := [own] + parts;
    assert all[1..] == parts;
    assert CoversBy(job, [address] + addresses, all);
  }

  // ----- the process and its durable steps -----

  datatype ScanError = ResumeWithoutCheckpoint | CheckpointUnreadable | CheckpointInvalid | ScopeMismatch

  datatype Phase = Scanning | Truncated | Written | Finished

  datatype Process = Process(chunkSize: nat, offset: nat, current: nat, results: seq<Report>, phase: Phase)

  datatype Machine = Machine(files: map<Path, File>, process: Option<Process>)

  predicate InScope(job: Job, checkpoint: Checkpoint) {
    checkpoint.cidr == job.cidr && checkpoint.ports == job.ports
  }

  function LoadCheckpoint(job: Job, files: map<Path, File>, resume: bool): Result<Option<Checkpoint>, ScanError> {
    if !resume then Ok(None)
    else if job.path.None? then Err(ResumeWithoutCheckpoint)
    else if job.path.value !in files then Err(CheckpointUnreadable)
    else
      match files[job.path.value]
      case Torn => Err(CheckpointInvalid)
      case Whole(checkpoint) => if InScope(job, checkpoint) then Ok(Some(checkpoint)) else Err(ScopeMismatch)
  }

  function NextPhase(job: Job, offset: nat): Phase {
    if offset < job.range.hostCount then Scanning else Finished
  }

  function Start(job: Job, files: map<Path, File>, chunkSize: nat, resume: bool): Result<Process, ScanError> {
    match LoadCheckpoint(job, files, resume)
    case Err(error) => Err(error)
    case Ok(None) => Ok(Process(if chunkSize == 0 then 1 else chunkSize, 0, 0, [], NextPhase(job, 0)))
    case Ok(Some(c)) =>
      var chunk := if chunkSize == 0 then 1 else chunkSize;
      Ok(Process(chunk, c.nextOffset, c.nextOffset, c.results, NextPhase(job, c.nextOffset)))
  }

  function ChunkEnd(job: Job, p: Process): nat {
    if p.offset + p.chunkSize < job.range.hostCount then p.offset + p.chunkSize else job.range.hostCount
  }

  function Snapshot(job: Job, p: Process): Checkpoint {
    Checkpoint(job.cidr, job.ports, p.offset, p.results)
  }

  datatype Event =
    | Launch(chunkSize: nat, resume: bool)
    | ScanHost
    | EndChunk      // without a checkpoint path
    | BeginWrite    // the temporary file is truncated
    | FinishWrite   // the temporary file is complete
    | RenameOver    // the temporary file replaces the checkpoint
    | Crash

  predicate Enabled(job: Job, m: Machine, e: Event) {
    if e.Launch? then m.process.None? && e.chunkSize + MAX_CIDR_HOSTS <= U64_MAX
    else
      m.process.Some? &&
      var p := m.process.value;
      match e
      case ScanHost => p.phase == Scanning && p.current < ChunkEnd(job, p)
      case EndChunk => p.phase == Scanning && p.current == ChunkEnd(job, p) && job.path.None?
      case BeginWrite => p.phase == Scanning && p.current == ChunkEnd(job, p) && job.path.Some?
      case FinishWrite => p.phase == Truncated && job.path.Some?
      case RenameOver => p.phase == Written && job.path.Some? && Temporary(job.path.value) in m.files
      case _ => true
  }

  function Apply(job: Job, m: Machine, e: Event): Machine
    requires Enabled(job, m, e)
  {
    match e
    case Launch(chunkSize, resume) =>
      (match Start(job, m.files, chunkSize, resume)
       case Ok(p) => m.(process := Some(p))
       case Err(_) => m)
    case ScanHost =>
      var p := m.process.value;
      m.(process := Some(p.(results := p.results + ReportsAt(job, p.current), current := p.current + 1)))
    case EndChunk =>
      var p := m.process.value;
      m.(process := Some(p.(offset := p.current, phase := NextPhase(job, p.current))))
    case BeginWrite =>
      var p := m.process.value;
      m.(files := m.files[Temporary(job.path.value) := Torn],
         process := Some(p.(offset := p.current, phase := Truncated)))
    case FinishWrite =>
      var p := m.process.value;
      m.(files := m.files[Temporary(job.path.value) := Whole(Snapshot(job, p))], process := Some(p.(phase := Written)))
    case RenameOver =>
      var p := m.process.value;
      m.(files := Rename(m.files, Temporary(job.path.value), job.path.value),
         process := Some(p.(phase := NextPhase(job, p.offset))))
    case Crash => m.(process := None)
  }

  function Next(job: Job, m: Machine, e: Event): Machine {
    if Enabled(job, m, e) then Apply(job, m, e) else m
  }

  /** Any history of launches, work and crashes. */
  function Exec(job: Job, m: Machine, events: seq<Event>): Machine {
    if events == [] then m else Next(job, Exec(job, m, events[..|events| - 1]), events[|events| - 1])
  }

  lemma ExecAppend(job: Job, m: Machine, events: seq<Event>, e: Event)
    ensures Exec(job, m, events + [e]) == Next(job, Exec(job, m, events), e)
  {
    assert (events + [e])[..|events|] == events;
  }

  lemma ExecFirst(job: Job, m: Machine, e: Event)
    ensures Exec(job, m, [e]) == Next(job, m, e)
  {
    assert [e][..0] == [];
  }

  // ----- what every history keeps -----

  /**
   `kept` is what an earlier run, perhaps with other options, left for the hosts below `k`. Results are
   then the pass over all hosts up to `upTo`, or `kept` followed by the pass from `k` on.
   */
  predicate Accumulated(job: Job, kept: seq<Report>, k: nat, results: seq<Report>, upTo: nat) {
    || results == Pass(job, 0, upTo)
    || (k <= upTo && results == kept + Pass(job, k, upTo))
  }

  predicate FileOk(job: Job, kept: seq<Report>, k: nat, file: File) {
    file.Whole? && InScope(job, file.checkpoint) ==>
      file.checkpoint.nextOffset <= job.range.hostCount
      && Accumulated(job, kept, k, file.checkpoint.results, file.checkpoint.nextOffset)
  }

  predicate DiskOk(job: Job, kept: seq<Report>, k: nat, files: map<Path, File>) {
    job.path.Some? && job.path.value in files ==> FileOk(job, kept, k, files[job.path.value])
  }

  predicate ProcessOk(job: Job, kept: seq<Report>, k: nat, m: Machine, p: Process) {
    && p.offset <= p.current <= job.range.hostCount
    && Accumulated(job, kept, k, p.results, p.current)
    && (p.phase == Scanning ==> p.offset < job.range.hostCount && p.current <= ChunkEnd(job, p) && p.chunkSize > 0)
    && (p.phase != Scanning ==> p.offset == p.current)
    && (p.phase == Finished ==> p.current == job.range.hostCount)
    && (p.phase == Written && job.path.Some? ==>
          Temporary(job.path.value) in m.files && m.files[Temporary(job.path.value)] == Whole(Snapshot(job, p)))
    && (p.phase in {Truncated, Written} ==> p.chunkSize > 0)
  }

  predicate Inv(job: Job, kept: seq<Report>, k: nat, m: Machine) {
    && DiskOk(job, kept, k, m.files)
    && (m.process.Some? ==> ProcessOk(job, kept, k, m, m.process.value))
  }

  lemma AccumulatedStep(job: Job, kept: seq<Report>, k: nat, results: seq<Report>, upTo: nat)
    requires Accumulated(job, kept, k, results, upTo)
    ensures Accumulated(job, kept, k, results + ReportsAt(job, upTo), upTo + 1)
  {
    if results != Pass(job, 0, upTo) {
      assert (kept + Pass(job, k, upTo)) + ReportsAt(job, upTo) == kept + (Pass(job, k, upTo) + ReportsAt(job, upTo));
    }
  }

  lemma StepKeepsInv(job: Job, kept: seq<Report>, k: nat, m: Machine, e: Event)
    requires Inv(job, kept, k, m)
    ensures Inv(job, kept, k, Next(job, m, e))
  {
    if Enabled(job, m, e) && e.ScanHost? {
      AccumulatedStep(job, kept, k, m.process.value.results, m.process.value.current);
    }
  }

  lemma {:induction false} InvAlways(job: Job, kept: seq<Report>, k: nat, m: Machine, events: seq<Event>)
    requires Inv(job, kept, k, m)
    ensures Inv(job, kept, k, Exec(job, m, events))
  {
    if events != [] {
      InvAlways(job, kept, k, m, events[..|events| - 1]);
      StepKeepsInv(job, kept, k, Exec(job, m, events[..|events| - 1]), events[|events| - 1]);
    }
  }

  /** No process is running, and the checkpoint path holds nothing of this scope. */
  predicate CleanStart(job: Job, m: Machine) {
    && m.process.None?
    && (job.path.Some? && job.path.value in m.files && m.files[job.path.value].Whole? ==>
          !InScope(job, m.files[job.path.value].checkpoint))
  }

  /**
   For any history of launches, chunk sizes, resumes and crashes with the same options, a finished scan
   holds exactly the reports of one uninterrupted pass, and every readable checkpoint of this scope
   holds exactly the reports of the hosts below its offset.
   */
  lemma AnyHistoryGivesOnePass(job: Job, m: Machine, events: seq<Event>)
    requires CleanStart(job, m)
    ensures
      var m' := Exec(job, m, events);
      && (m'.process.Some? && m'.process.value.phase == Finished ==>
            m'.process.value.results == Pass(job, 0, job.range.hostCount)
            && Covers(job, Addresses(job.range), m'.process.value.results))
      && (job.path.Some? && job.path.value in m'.files && m'.files[job.path.value].Whole?
          && InScope(job, m'.files[job.path.value].checkpoint) ==>
            var c := m'.files[job.path.value].checkpoint;
            && c.nextOffset <= job.range.hostCount && c.results == Pass(job, 0, c.nextOffset)
            && Covers(job, Addresses(job.range)[..c.nextOffset], c.results))
  {
    InvAlways(job, [], 0, m, events);
    var m' := Exec(job, m, events);
    hide Exec, Covers;
    PassCovers(job, 0, job.range.hostCount);
    assert Addresses(job.range)[0..job.range.hostCount] == Addresses(job.range);
    if job.path.Some? && job.path.value in m'.files && m'.files[job.path.value].Whole? {
      var k := m'.files[job.path.value].checkpoint.nextOffset;
      if k <= job.range.hostCount {
        PassCovers(job, 0, k);
        assert Addresses(job.range)[0..k] == Addresses(job.range)[..k];
      }
    }
  }

  /** A checkpoint does not record the options. Resuming one written under other options mixes the two. */
  lemma OtherOptionsMix(job: Job, m: Machine, kept: Checkpoint, events: seq<Event>)
    requires m.process.None? && job.path.Some? && job.path.value in m.files && m.files[job.path.value] == Whole(kept)
    requires kept.nextOffset <= job.range.hostCount
    ensures
      var m' := Exec(job, m, events);
      m'.process.Some? && m'.process.value.phase == Finished ==>
        || m'.process.value.results == Pass(job, 0, job.range.hostCount)
        || m'.process.value.results == kept.results + Pass(job, kept.nextOffset, job.range.hostCount)
  {
    assert Pass(job, kept.nextOffset, kept.nextOffset) == [];
    InvAlways(job, kept.results, kept.nextOffset, m, events);
  }

  /** The mix is the pass under the new options exactly when the kept reports are what those options give. */
  lemma MixIsOnePassIff(job: Job, kept: Checkpoint)
    requires kept.nextOffset <= job.range.hostCount
    ensures kept.results + Pass(job, kept.nextOffset, job.range.hostCount) == Pass(job, 0, job.range.hostCount)
            <==> kept.results == Pass(job, 0, kept.nextOffset)
  {
    var tail := Pass(job, kept.nextOffset, job.range.hostCount);
    PassSplit(job, 0, kept.nextOffset, job.range.hostCount);
    var whole := Pass(job, 0, job.range.hostCount);
    if kept.results + tail == whole {
      assert |kept.results| == |Pass(job, 0, kept.nextOffset)|;
      assert kept.results == whole[..|kept.results|] == Pass(job, 0, kept.nextOffset);
    }
  }

  // ----- under which options a resumed scan is one pass, whatever the network -----

  /** The options by which `AllowsScan` and `WebReport` decide, and which a checkpoint does not record. */
  predicate SameScan(a: ScanOptions, b: ScanOptions) {
    a.passive == b.passive
      && (a.liveness == b.liveness || (a.liveness in {Tcp, Combined} && b.liveness in {Tcp, Combined}))
  }

  function With(job: Job, world: World, options: ScanOptions): Job {
    job.(world := world, options := options)
  }

  lemma {:induction false} SamePass(job: Job, a: ScanOptions, b: ScanOptions, from: nat, upTo: nat)
    requires SameScan(a, b) && from <= upTo
    ensures Pass(job.(options := a), from, upTo) == Pass(job.(options := b), from, upTo)
    decreases upTo
  {
    if from == upTo {
      PassOfNothing(job.(options := a), from);
      PassOfNothing(job.(options := b), from);
    } else {
      hide *;
      SamePass(job, a, b, from, upTo - 1);
      SameReports(job.world, a, b, job.ports, job.range.network + (upTo - 1));
      LastHost(job.(options := a), from, upTo);
      LastHost(job.(options := b), from, upTo);
    }
  }

  lemma LastHost(job: Job, from: nat, upTo: nat)
    requires from < upTo
    ensures Pass(job, from, upTo)
      == Pass(job, from, upTo - 1) + HostReports(job.world, job.options, job.ports, job.range.network + (upTo - 1))
  {
    hide HostReports;
  }

  lemma SameReports(world: World, a: ScanOptions, b: ScanOptions, ports: seq<nat>, address: nat)
    requires SameScan(a, b)
    ensures HostReports(world, a, ports, address) == HostReports(world, b, ports, address)
  {
    hide WebReports;
  }

  /** Every host answers, except to strategy `deaf`, and has one web service, whose scan succeeds. */
  function TellingWorld(deaf: Liveness): World {
    World((l, a) => l != deaf, (passive, ps, a) => ["http"], (a, services) => ["http://host"], url => Some("page"))
  }

  lemma TellingReports(deaf: Liveness, options: ScanOptions, ports: seq<nat>, address: nat)
    ensures HostReports(TellingWorld(deaf), options, ports, address) ==
      if options.liveness in {Icmp, Arp} && options.liveness == deaf then []
      else [if options.passive then ServiceOnly(Web("http://host"), ["http"])
        else WebScan("http://host", "page", ["http"])]
  {
    var (world, services) := (TellingWorld(deaf), ["http"]);
    assert world.openPorts(options.passive, ports, address) == services;
    assert world.webUrls(address, services) == ["http://host"];
    var one := WebReport(world, options.passive, "http://host", services);
    assert WebReports(world, options.passive, ["http://host"], services) == [one] by {
      assert WebReports(world, options.passive, [], services) == [];
      assert ["http://host"][..0] == [];
    }
    assert options.passive || one == WebScan("http://host", "page", services);
  }

  /** All hosts of a telling world give the same one report, or none. */
  lemma {:induction false} TellingPass(job: Job, deaf: Liveness, options: ScanOptions, from: nat, upTo: nat)
    requires from <= upTo
    ensures
      var pass := Pass(With(job, TellingWorld(deaf), options), from, upTo);
      var one := HostReports(TellingWorld(deaf), options, job.ports, 0);
      if one == [] then pass == [] else |pass| == upTo - from && forall i :: 0 <= i < |pass| ==> pass[i] == one[0]
    decreases upTo
  {
    TellingReports(deaf, options, job.ports, 0);
    if from < upTo {
      TellingPass(job, deaf, options, from, upTo - 1);
      TellingReports(deaf, options, job.ports, job.range.network + (upTo - 1));
      hide HostReports;
    }
  }

  /** If the options do not scan the same, some network shows it at the first host. */
  lemma OptionsTell(job: Job, first: ScanOptions, k: nat) returns (deaf: Liveness)
    requires !SameScan(first, job.options) && k > 0
    ensures Pass(With(job, TellingWorld(deaf), first), 0, k) != Pass(With(job, TellingWorld(deaf), job.options), 0, k)
  {
    deaf := if first.passive != job.options.passive then Tcp
            else if first.liveness in {Icmp, Arp} then first.liveness
            else job.options.liveness;
    TellingPass(job, deaf, first, 0, k);
    TellingPass(job, deaf, job.options, 0, k);
    TellingReports(deaf, first, job.ports, 0);
    TellingReports(deaf, job.options, job.ports, 0);
    hide Pass, HostReports;
    var (a, b) :=
      (Pass(With(job, TellingWorld(deaf), first), 0, k), Pass(With(job, TellingWorld(deaf), job.options), 0, k));
    if a != [] && b != [] {
      assert a[0] != b[0];
    }
  }

  /** The reports of a scan begun under the `first` options and resumed under the job's after `k` hosts. */
  function Mixed(job: Job, first: ScanOptions, k: nat): seq<Report>
    requires k <= job.range.hostCount
  {
    Pass(job.(options := first), 0, k) + Pass(job, k, job.range.hostCount)
  }

  /**
   Begun under other options and resumed, a scan gives one pass on every network exactly when the passive
   flag is the same, and the liveness strategy is the same or neither looks for the host before scanning it.
   */
  lemma ResumedIsOnePassIff(job: Job, first: ScanOptions, k: nat)
    requires 0 < k <= job.range.hostCount
    ensures (forall world {:trigger Mixed(job.(world := world), first, k)} ::
              Mixed(job.(world := world), first, k) == Pass(job.(world := world), 0, job.range.hostCount))
      <==> SameScan(first, job.options)
  {
    var n := job.range.hostCount;
    if SameScan(first, job.options) {
      forall world
        ensures Mixed(job.(world := world), first, k) == Pass(job.(world := world), 0, n)
      {
        var there := job.(world := world);
        SamePass(there, first, job.options, 0, k);
        PassSplit(there, 0, k, n);
        assert there.(options := job.options) == there;
      }
    } else {
      var deaf := OptionsTell(job, first, k);
      var there := With(job, TellingWorld(deaf), job.options);
      assert there == job.(world := TellingWorld(deaf))
        && there.(options := first) == With(job, TellingWorld(deaf), first);
      hide Pass;
      MixIsOnePassIff(there, Checkpoint(job.cidr, job.ports, k, Pass(there.(options := first), 0, k)));
      assert Mixed(there, first, k) != Pass(there, 0, n);
    }
  }

  // ----- the same, as runs: the checkpoint on the disk, a launch that resumes it -----

  /** The disk after `k` hosts under the `first` options, the process gone. */
  function Interrupted(job: Job, first: ScanOptions, k: nat): Machine
    requires job.path.Some?
  {
    Machine(map[job.path.value := Whole(Checkpoint(job.cidr, job.ports, k, Pass(job.(options := first), 0, k)))], None)
  }

  predicate FinishedWith(job: Job, m: Machine, results: seq<Report>) {
    m.process.Some? && m.process.value.phase == Finished ==> m.process.value.results == results
  }

  /** A run that resumes the checkpoint and finishes. */
  lemma ResumeRun(job: Job, first: ScanOptions, k: nat) returns (events: seq<Event>)
    requires job.path.Some? && k <= job.range.hostCount <= MAX_CIDR_HOSTS
    ensures
      var m := Exec(job, Interrupted(job, first, k), events);
      m.process.Some? && m.process.value.phase == Finished && m.process.value.results == Mixed(job, first, k)
  {
    var (m, n) := (Interrupted(job, first, k), job.range.hostCount);
    var kept := Pass(job.(options := first), 0, k);
    var launch := Launch(MAX_CIDR_HOSTS, true);
    var p := Process(MAX_CIDR_HOSTS, k, k, kept, NextPhase(job, k));
    ExecFirst(job, m, launch);
    assert Exec(job, m, [launch]) == Machine(m.files, Some(p));
    PassOfNothing(job, k);
    if k == n {
      events := [launch];
    } else {
      assert ChunkEnd(job, p) == n;
      TraceOfChunk(job, m, [launch], m.files, p, n);
      var scanned := [launch] + Repeated(ScanHost, n - k);
      assert AfterHosts(job, p, n).current == ChunkEnd(job, AfterHosts(job, p, n));
      hide Exec, Pass, Repeated;
      TraceOfWrite(job, m, scanned, m.files, AfterHosts(job, p, n));
      events := scanned + [BeginWrite, FinishWrite, RenameOver];
    }
  }

  /**
   Over every network and every history of launches, resumes and crashes from that disk, a finished scan
   holds one pass, exactly when the options scan the same.
   */
  lemma ResumedRunsAreOnePassIff(job: Job, first: ScanOptions, k: nat)
    requires job.path.Some? && 0 < k <= job.range.hostCount <= MAX_CIDR_HOSTS
    ensures
      (forall world, events
         {:trigger Exec(job.(world := world), Interrupted(job.(world := world), first, k), events)} ::
         var there := job.(world := world);
         FinishedWith(there, Exec(there, Interrupted(there, first, k), events), Pass(there, 0, job.range.hostCount)))
      <==> SameScan(first, job.options)
  {
    var n := job.range.hostCount;
    ResumedIsOnePassIff(job, first, k);
    if SameScan(first, job.options) {
      forall world, events
        ensures
          var there := job.(world := world);
          FinishedWith(there, Exec(there, Interrupted(there, first, k), events), Pass(there, 0, n))
      {
        var there := job.(world := world);
        var kept := Checkpoint(job.cidr, job.ports, k, Pass(there.(options := first), 0, k));
        OtherOptionsMix(there, Interrupted(there, first, k), kept, events);
        assert Mixed(there, first, k) == Pass(there, 0, n);
        hide Exec, Pass;
      }
    } else {
      var world :| Mixed(job.(world := world), first, k) != Pass(job.(world := world), 0, n);
      var there := job.(world := world);
      var events := ResumeRun(there, first, k);
      hide Exec, Pass;
      assert !FinishedWith(there, Exec(there, Interrupted(there, first, k), events), Pass(there, 0, n));
    }
  }

  /**
   For example: a passive scan of two hosts is interrupted after one and resumed actively. The run finishes
   with a report of the open port for the first host and a web scan of the second: neither of the two scans.
   */
  lemma PassiveCheckpointResumedActively(cidr: string, ports: seq<nat>, network: nat, path: Path)
    returns (events: seq<Event>)
    ensures
      var active := Job(TellingWorld(Tcp), ScanOptions(false, Tcp), cidr, ports, Range(network, 2), Some(path));
      var passive := ScanOptions(true, Tcp);
      var m := Exec(active, Interrupted(active, passive, 1), events);
      && m.process.Some? && m.process.value.phase == Finished
      && m.process.value.results
        == [ServiceOnly(Web("http://host"), ["http"]), WebScan("http://host", "page", ["http"])]
      && m.process.value.results != Pass(active, 0, 2)
      && m.process.value.results != Pass(active.(options := passive), 0, 2)
  {
    var active := Job(TellingWorld(Tcp), ScanOptions(false, Tcp), cidr, ports, Range(network, 2), Some(path));
    var passive := ScanOptions(true, Tcp);
    events := ResumeRun(active, passive, 1);
    TellingPass(active, Tcp, passive, 0, 1);
    TellingPass(active, Tcp, active.options, 1, 2);
    TellingPass(active, Tcp, passive, 0, 2);
    TellingPass(active, Tcp, active.options, 0, 2);
    TellingReports(Tcp, passive, ports, 0);
    TellingReports(Tcp, active.options, ports, 0);
    assert With(active, TellingWorld(Tcp), active.options) == active;
    assert With(active, TellingWorld(Tcp), passive) == active.(options := passive);
    hide Exec, Pass, HostReports;
    var mixed := Mixed(active, passive, 1);
    assert |mixed| == 2 && mixed[0].ServiceOnly? && mixed[1].WebScan?;
    assert Pass(active, 0, 2)[0].WebScan? && Pass(active.(options := passive), 0, 2)[1].ServiceOnly?;
  }

  // ----- atomicity of the checkpoint -----

  predicate CheckpointReadable(job: Job, m: Machine) {
    job.path.Some? && job.path.value in m.files ==> m.files[job.path.value].Whole?
  }

  predicate SafeWrites(job: Job, m: Machine) {
    && CheckpointReadable(job, m)
    && (m.process.Some? && m.process.value.phase == Written && job.path.Some? ==>
          Temporary(job.path.value) in m.files && m.files[Temporary(job.path.value)].Whole?)
  }

  lemma {:induction false} ReadableAlways(job: Job, m: Machine, events: seq<Event>)
    requires job.path.Some? && job.path.value.extension != Some("tmp")
    requires m.process.None? && CheckpointReadable(job, m)
    ensures SafeWrites(job, Exec(job, m, events))
  {
    if events != [] {
      ReadableAlways(job, m, events[..|events| - 1]);
    }
  }

  lemma TmpPathTears(job: Job, m: Machine)
    requires job.path.Some? && job.path.value.extension == Some("tmp")
    requires m.process.None? && job.range.hostCount > 0
    ensures !CheckpointReadable(job, Exec(job, m, [Launch(1, false), ScanHost, BeginWrite, Crash]))
  {
    var launched := Next(job, m, Launch(1, false));
    var scanned := Next(job, launched, ScanHost);
    ExecAppend(job, m, [], Launch(1, false));
    ExecAppend(job, m, [Launch(1, false)], ScanHost);
    ExecAppend(job, m, [Launch(1, false), ScanHost], BeginWrite);
    ExecAppend(job, m, [Launch(1, false), ScanHost, BeginWrite], Crash);
    assert [] + [Launch(1, false)] == [Launch(1, false)];
    assert [Launch(1, false)] + [ScanHost] == [Launch(1, false), ScanHost];
    assert [Launch(1, false), ScanHost] + [BeginWrite] == [Launch(1, false), ScanHost, BeginWrite];
    assert [Launch(1, false), ScanHost, BeginWrite] + [Crash] == [Launch(1, false), ScanHost, BeginWrite, Crash];
    assert Temporary(job.path.value) == job.path.value;
  }

  /**
   The checkpoint file is readable after every crash, whatever the history, exactly when the
   checkpoint path does not itself carry the extension of the temporary file.
   */
  lemma CheckpointIsAtomicIff(job: Job, m: Machine)
    requires job.path.Some? && job.range.hostCount > 0
    requires m.process.None? && CheckpointReadable(job, m)
    ensures (forall events :: CheckpointReadable(job, Exec(job, m, events)))
      <==> job.path.value.extension != Some("tmp")
  {
    if job.path.value.extension != Some("tmp") {
      forall events
        ensures CheckpointReadable(job, Exec(job, m, events))
      {
        ReadableAlways(job, m, events);
      }
    } else {
      TmpPathTears(job, m);
    }
  }

  // ----- the scan itself -----

  class Disk {
    var files: map<Path, File>

    constructor (initial: map<Path, File>)
      ensures files == initial
    {
      files := initial;
    }
  }

  /** One host: liveness, ports, then one report per web service or a single one for the host. */
  method ScanOneHost(world: World, options: ScanOptions, ports: seq<nat>, address: nat) returns (reports: seq<Report>)
    ensures reports == HostReports(world, options, ports, address)
    ensures IsHostReport(world, options, ports, address, reports)
  {
    HostReportsAre(world, options, ports, address);
    hide IsHostReport;
    if !AllowsScan(world, options.liveness, address) {
      return [];
    }
    var services := world.openPorts(options.passive, ports, address);
    if services == [] {
      return [];
    }
    var urls := world.webUrls(address, services);
    if urls == [] {
      return [ServiceOnly(Host(address), services)];
    }
    reports := [];
    for i := 0 to |urls|
      invariant reports == WebReports(world, options.passive, urls[..i], services)
    {
      assert urls[..i + 1][..i] == urls[..i];
      if options.passive {
        reports := reports + [ServiceOnly(Web(urls[i]), services)];
        continue;
      }
      match world.webScan(urls[i]) {
        case Some(body) => reports := reports + [WebScan(urls[i], body, services)];
        case None => reports := reports + [ServiceOnly(Web(urls[i]), services)];
      }
    }
    assert urls[..|urls|] == urls;
  }

  /** Writes the temporary file and renames it over the checkpoint. */
  method WriteCheckpoint(disk: Disk, path: Path, checkpoint: Checkpoint)
    modifies disk
    ensures disk.files == (old(disk.files) - {Temporary(path)})[path := Whole(checkpoint)]
  {
    var temporary := Temporary(path);
    disk.files := disk.files[temporary := Torn];
    disk.files := disk.files[temporary := Whole(checkpoint)];
    disk.files := Rename(disk.files, temporary, path);
  }

  /** The hosts of one chunk, in address order. */
  method ScanChunk(job: Job, offset: nat, chunkEnd: nat, results: seq<Report>) returns (extended: seq<Report>)
    requires offset <= chunkEnd
    ensures extended == results + Pass(job, offset, chunkEnd)
    ensures chunkEnd <= job.range.hostCount ==>
              Covers(job, Addresses(job.range)[offset..chunkEnd], extended[|results|..])
  {
    extended := results;
    for current := offset to chunkEnd
      invariant extended == results + Pass(job, offset, current)
    {
      var reports := ScanOneHost(job.world, job.options, job.ports, job.range.network + current);
      extended := extended + reports;
    }
    if chunkEnd <= job.range.hostCount {
      PassCovers(job, offset, chunkEnd);
      hide Covers, Pass;
      assert extended[|results|..] == Pass(job, offset, chunkEnd);
    }
  }

  function Repeated(e: Event, n: nat): seq<Event> {
    if n == 0 then [] else Repeated(e, n - 1) + [e]
  }

  lemma RepeatedEnds(trace: seq<Event>, e: Event, n: nat)
    ensures n == 0 ==> trace + Repeated(e, n) == trace
    ensures n > 0 ==> trace + Repeated(e, n) == (trace + Repeated(e, n - 1)) + [e]
  {
  }

  function AfterHosts(job: Job, p: Process, current: nat): Process
    requires p.current <= current
  {
    p.(results := p.results + Pass(job, p.current, current), current := current)
  }

  lemma NoHostsYet(job: Job, p: Process)
    ensures AfterHosts(job, p, p.current) == p
  {
  }

  lemma ScanHostStep(job: Job, files: map<Path, File>, p: Process, current: nat)
    requires p.phase == Scanning && p.offset == p.current <= current < ChunkEnd(job, p)
    ensures Next(job, Machine(files, Some(AfterHosts(job, p, current))), ScanHost)
            == Machine(files, Some(AfterHosts(job, p, current + 1)))
  {
    assert (p.results + Pass(job, p.current, current)) + ReportsAt(job, current)
        == p.results + Pass(job, p.current, current + 1);
  }

  lemma {:induction false} TraceOfChunk(job: Job, m: Machine, trace: seq<Event>, files: map<Path, File>, p: Process,
      current: nat)
    requires Exec(job, m, trace) == Machine(files, Some(p))
    requires p.phase == Scanning && p.offset == p.current <= current <= ChunkEnd(job, p)
    ensures Exec(job, m, trace + Repeated(ScanHost, current - p.current))
      == Machine(files, Some(AfterHosts(job, p, current)))
  {
    hide *;
    var n := current - p.current;
    RepeatedEnds(trace, ScanHost, n);
    if n == 0 {
      NoHostsYet(job, p);
    } else {
      var shorter := trace + Repeated(ScanHost, n - 1);
      TraceOfChunk(job, m, trace, files, p, current - 1);
      ExecAppend(job, m, shorter, ScanHost);
      ScanHostStep(job, files, p, current - 1);
    }
  }

  /** Why a scan does not start, if it does not. */
  ghost function Refused(job: Job, files: map<Path, File>, resume: bool): Option<ScanError> {
    if !resume then None
    else if job.path == None then Some(ResumeWithoutCheckpoint)
    else if job.path.value !in files then Some(CheckpointUnreadable)
    else if files[job.path.value] == Torn then Some(CheckpointInvalid)
    else
      var c := files[job.path.value].checkpoint;
      if c.cidr == job.cidr && c.ports == job.ports then None else Some(ScopeMismatch)
  }

  /** The reports a scan starts with, and the offset of the first host it asks. */
  ghost function Kept(job: Job, files: map<Path, File>, resume: bool): (seq<Report>, nat)
    requires Refused(job, files, resume) == None
  {
    if resume then (files[job.path.value].checkpoint.results, files[job.path.value].checkpoint.nextOffset) else ([], 0)
  }

  lemma LoadIsRefused(job: Job, files: map<Path, File>, resume: bool)
    ensures
      var (loaded, refused) := (LoadCheckpoint(job, files, resume), Refused(job, files, resume));
      && (loaded.Err? <==> refused.Some?) && (loaded.Err? ==> loaded.error == refused.value)
      && (loaded.Ok? ==>
            Kept(job, files, resume)
            == if loaded.value.Some? then (loaded.value.value.results, loaded.value.value.nextOffset) else ([], 0))
  {
  }

  /** The checkpoint holds the results below `offset`, and the rest of the disk is as it was. */
  ghost predicate Saved(job: Job, before: map<Path, File>, files: map<Path, File>, offset: nat, results: seq<Report>)
    requires job.path.Some?
  {
    files == (before - {job.path.value.(extension := Some("tmp"))})
      [job.path.value := Whole(Checkpoint(job.cidr, job.ports, offset, results))]
  }

  lemma SavedAgain(job: Job, before: map<Path, File>, files: map<Path, File>, files': map<Path, File>,
      offset: nat, results: seq<Report>, offset': nat, results': seq<Report>)
    requires job.path.Some? && (files == before || Saved(job, before, files, offset, results))
    requires files' == (files - {Temporary(job.path.value)})
      [job.path.value := Whole(Checkpoint(job.cidr, job.ports, offset', results'))]
    ensures Saved(job, before, files', offset', results')
  {
  }

  lemma RestIsCovered(job: Job, kept: seq<Report>, from: nat)
    requires from <= job.range.hostCount
    ensures
      var all := kept + Pass(job, from, job.range.hostCount);
      kept <= all && Covers(job, Addresses(job.range)[from..], all[|kept|..])
  {
    var tail := Pass(job, from, job.range.hostCount);
    PassCovers(job, from, job.range.hostCount);
    assert (kept + tail)[|kept|..] == tail;
    assert Addresses(job.range)[from..] == Addresses(job.range)[from..job.range.hostCount];
    hide Covers, Pass;
  }

  lemma NothingIsCovered(job: Job, kept: seq<Report>)
    ensures Covers(job, [], kept[|kept|..])
  {
    NoAddresses(job);
  }

  /** One chunk: its hosts, and then the checkpoint if there is to be one. */
  method RunChunk(job: Job, disk: Disk, chunk: nat, offset: nat, results: seq<Report>, ghost m: Machine,
                  ghost trace: seq<Event>)
    returns (chunkEnd: nat, extended: seq<Report>, ghost trace': seq<Event>)
    requires 0 < chunk && offset < job.range.hostCount
    requires Exec(job, m, trace) == Machine(disk.files, Some(Process(chunk, offset, offset, results, Scanning)))
    modifies disk
    ensures offset < chunkEnd <= job.range.hostCount
    ensures extended == results + Pass(job, offset, chunkEnd)
    ensures job.path.None? ==> disk.files == old(disk.files)
    ensures job.path.Some? ==>
              disk.files == (old(disk.files) - {Temporary(job.path.value)})
                [job.path.value := Whole(Checkpoint(job.cidr, job.ports, chunkEnd, extended))]
    ensures Exec(job, m, trace')
         == Machine(disk.files, Some(Process(chunk, chunkEnd, chunkEnd, extended, NextPhase(job, chunkEnd))))
  {
    hide Exec, Pass, Temporary;
    chunkEnd := if offset + chunk < job.range.hostCount then offset + chunk else job.range.hostCount;
    ghost var p := Process(chunk, offset, offset, results, Scanning);
    extended := ScanChunk(job, offset, chunkEnd, results);
    TraceOfChunk(job, m, trace, disk.files, p, chunkEnd);
    trace' := trace + Repeated(ScanHost, chunkEnd - offset);
    p := AfterHosts(job, p, chunkEnd);
    match job.path {
      case Some(path) =>
        TraceOfWrite(job, m, trace', disk.files, p);
        WriteCheckpoint(disk, path, Checkpoint(job.cidr, job.ports, chunkEnd, extended));
        trace' := trace' + [BeginWrite, FinishWrite, RenameOver];
      case None =>
        ExecAppend(job, m, trace', EndChunk);
        trace' := trace' + [EndChunk];
    }
  }

  /** The loop over the chunks from `from` on. */
  method ScanFrom(job: Job, disk: Disk, chunk: nat, from: nat, first: seq<Report>, ghost m: Machine,
                  ghost trace: seq<Event>)
    returns (results: seq<Report>, ghost trace': seq<Event>)
    requires 0 < chunk
    requires Exec(job, m, trace) == Machine(disk.files, Some(Process(chunk, from, from, first, NextPhase(job, from))))
    modifies disk
    ensures results == first + PassFrom(job, from, job.range.hostCount)
    ensures from >= job.range.hostCount || job.path.None? ==> disk.files == old(disk.files)
    ensures from < job.range.hostCount && job.path.Some? ==>
              Saved(job, old(disk.files), disk.files, job.range.hostCount, results)
    ensures
      var m' := Exec(job, m, trace');
      && m'.files == disk.files && m'.process.Some? && m'.process.value.phase == Finished
      && m'.process.value.results == results
  {
    hide Exec, Pass, Saved, Temporary;
    results, trace' := first, trace;
    var offset := from;
    PassOfNothing(job, from);
    while offset < job.range.hostCount
      invariant from <= offset && (offset == from || offset <= job.range.hostCount)
      invariant results == first + Pass(job, from, offset)
      invariant offset == from || job.path.None? ==> disk.files == old(disk.files)
      invariant offset > from && job.path.Some? ==> Saved(job, old(disk.files), disk.files, offset, results)
      invariant Exec(job, m, trace')
        == Machine(disk.files, Some(Process(chunk, offset, offset, results, NextPhase(job, offset))))
    {
      ghost var (files, at, saved) := (disk.files, offset, results);
      offset, results, trace' := RunChunk(job, disk, chunk, offset, results, m, trace');
      PassSplit(job, from, at, offset);
      if job.path.Some? {
        SavedAgain(job, old(disk.files), files, disk.files, at, saved, offset, results);
      }
    }
  }

  /**
   The whole scan without a crash. `trace` lists its durable steps, so cutting it anywhere and adding
   `Crash` is a history of the machine above.
   */
  method RunNetworkScan(job: Job, disk: Disk, chunkSize: nat, resume: bool)
    returns (outcome: Result<seq<Report>, ScanError>, ghost trace: seq<Event>)
    requires chunkSize + MAX_CIDR_HOSTS <= U64_MAX
    modifies disk
    ensures outcome.Err? <==> Refused(job, old(disk.files), resume) != None
    ensures outcome.Err?
      ==> disk.files == old(disk.files) && Some(outcome.error) == Refused(job, old(disk.files), resume)
    ensures outcome.Ok? ==>
              var (kept, from) := Kept(job, old(disk.files), resume);
              var left := if from <= job.range.hostCount then Addresses(job.range)[from..] else [];
              && kept <= outcome.value && Covers(job, left, outcome.value[|kept|..])
              && (job.path.Some? && left != [] ==>
                    Saved(job, old(disk.files), disk.files, job.range.hostCount, outcome.value))
              && (job.path.None? || left == [] ==> disk.files == old(disk.files))
    ensures outcome.Ok? ==>
              LoadCheckpoint(job, old(disk.files), resume).Ok? &&
              var p := Start(job, old(disk.files), chunkSize, resume).value;
              outcome.value == p.results + PassFrom(job, p.offset, job.range.hostCount)
    ensures outcome.Ok? ==>
              var m := Exec(job, Machine(old(disk.files), None), trace);
              && m.files == disk.files && m.process.Some? && m.process.value.phase == Finished
              && m.process.value.results == outcome.value
  {
    LoadIsRefused(job, disk.files, resume);
    hide Exec, Pass, Refused, Kept, Covers, Saved, Temporary;
    var checkpoint := LoadCheckpoint(job, disk.files, resume);
    ghost var m := Machine(disk.files, None);
    trace := [Launch(chunkSize, resume)];
    ExecFirst(job, m, Launch(chunkSize, resume));
    if checkpoint.Err? {
      return Err(checkpoint.error), trace;
    }
    var chunk := if chunkSize == 0 then 1 else chunkSize;
    var results: seq<Report> := [];
    var offset: nat := 0;
    if checkpoint.value.Some? {
      results, offset := checkpoint.value.value.results, checkpoint.value.value.nextOffset;
    }
    ghost var (first, from) := (results, offset);
    results, trace := ScanFrom(job, disk, chunk, offset, results, m, trace);
    if from <= job.range.hostCount {
      RestIsCovered(job, first, from);
    } else {
      NothingIsCovered(job, first);
    }
    outcome := Ok(results);
  }

  lemma TraceOfWrite(job: Job, m: Machine, trace: seq<Event>, files: map<Path, File>, p: Process)
    requires job.path.Some? && Exec(job, m, trace) == Machine(files, Some(p))
    requires p.phase == Scanning && p.current == ChunkEnd(job, p)
    ensures
      var path := job.path.value;
      Exec(job, m, trace + [BeginWrite, FinishWrite, RenameOver])
      == Machine((files - {Temporary(path)})[path := Whole(Checkpoint(job.cidr, job.ports, p.current, p.results))],
                 Some(p.(offset := p.current, phase := NextPhase(job, p.current))))
  {
    ExecAppend(job, m, trace, BeginWrite);
    ExecAppend(job, m, trace + [BeginWrite], FinishWrite);
    ExecAppend(job, m, trace + [BeginWrite] + [FinishWrite], RenameOver);
    assert trace + [BeginWrite] + [FinishWrite] + [RenameOver] == trace + [BeginWrite, FinishWrite, RenameOver];
  }
}
