/**
 * The `deploy:server` console command: a fixed pipeline of six stages over a local
 * filesystem and a remote disk, both modelled as maps from path to content.
 *
 * Shell commands run locally (`exec`) and the HTTP request that starts the remote
 * script only append an event to the trace; what they do is outside the model. The
 * archive that tar builds is given to the model as its content.
 */
module Orchestrator {
  import opened Text
  import opened Escaping
  import opened Archive
  import opened Bootstrap

  // ---------------------------------------------------------------------------
  // Configuration

  /** One entry of `servers`: the disk to upload to, the script's base URL, the remote PHP and the extra uploads. */
  datatype ServerConfig = ServerConfig(
    disk: string,
    deployUrl: string,
    phpCli: string,
    uploads: seq<(string, string)>)  // (local source, disk destination), in configured order

  /** The keys read from the global configuration. `excludes` is None when it is not a list. */
  datatype GlobalConfig = GlobalConfig(
    before: seq<string>,
    includes: seq<string>,
    excludes: Option<seq<string>>,
    remote: seq<string>,
    purgeExcludes: seq<string>)

  /** What `setup` collects: the server argument and its entry, the global keys, the two options and the storage root. */
  datatype Setup = Setup(
    serverName: string,
    server: ServerConfig,
    global: GlobalConfig,
    refresh: string,
    debug: string,
    storageRoot: string)

  /** The template the remote script is generated from. */
  function ScriptTemplate(cfg: Setup): Template {
    Template(cfg.server.phpCli, Truthy(cfg.refresh), cfg.global.remote, cfg.global.purgeExcludes, QuotesOnly)
  }

  // ---------------------------------------------------------------------------
  // Paths and events

  /**
   * The key a disk path names. The disk normalises paths by dropping a leading `/`,
   * so `/public/deploy.php` and `public/deploy.php` are the same file.
   */
  function DiskKey(path: string): string {
    if |path| > 0 && path[0] == '/' then path[1..] else path
  }

  /** `storage_path('app')`: where the archive is moved. */
  function StagingDir(cfg: Setup): string {
    cfg.storageRoot + "/app"
  }

  /** `storage_path('app/deploy.tar')`: the local archive. */
  function ArchivePath(cfg: Setup): string {
    StagingDir(cfg) + "/" + ArchiveName
  }

  /** Where the script is uploaded, and the path its deletion uses. */
  const ScriptUploadPath := "public/" + ScriptName
  const ScriptDeletePath := "/public/" + ScriptName

  /** The request that runs the uploaded script. */
  function DeployUrl(base: string): string {
    base + "/" + ScriptName + "?archive=" + ArchiveName
  }

  /** What the command does that can be observed, in order. */
  datatype Event =
    | Announce(stage: Stage)      // the console line HeadingText(stage) that opens a stage
    | Info(line: string)          // any other console line
    | Exec(cmd: string)           // a local shell command
    | Get(url: string)            // the HTTP request that runs the script
    | Put(path: string)           // a write to the disk
    | Delete(path: string)        // a deletion on the disk
    | LocalDelete(path: string)   // a deletion on the local filesystem

  /** How the command ends: normally, or when an upload's local source does not exist. */
  datatype Outcome = Completed | MissingLocalFile(path: string)

  /** The observable state: both stores and the trace so far. */
  datatype State = State(local: map<string, string>, disk: map<string, string>, trace: seq<Event>)

  /** A line of n dashes. */
  function Dashes(n: nat): (r: string)
    ensures |r| == n && forall i :: 0 <= i < n ==> r[i] == '-'
  {
    if n == 0 then "" else "-" + Dashes(n - 1)
  }

  /** The separator line of the banner. */
  const Rule: string := Dashes(72)

  /** The six stages of the command, each opened by a console heading. */
  datatype Stage = BeforeStage | BuildStage | UploadStage | RunStage | DefinedStage | CleanStage

  /** The heading a stage prints when it starts (the typo in the first one is the command's own). */
  function HeadingText(stage: Stage): string {
    match stage
    case BeforeStage => "run commands before deloyment."
    case BuildStage => "building release zip."
    case UploadStage => "upload to server."
    case RunStage => "run deployment on server."
    case DefinedStage => "upload defined files."
    case CleanStage => "clean up after uploading."
  }

  /** The banner `handle` prints before the first stage. */
  function HeaderEvents(serverName: string): seq<Event> {
    [Info(Rule), Info("deploy the project"), Info(Rule), Info(""), Info("server:\t" + serverName), Info("")]
  }

  const FooterEvents: seq<Event> := [Info(""), Info(Rule), Info("deployment done!"), Info(Rule)]

  // ---------------------------------------------------------------------------
  // What each stage does, as functions of the state

  /** Announce and run each `before` command. */
  function CommandEvents(cmds: seq<string>): seq<Event> {
    if cmds == [] then []
    else CommandEvents(cmds[..|cmds| - 1]) + [Info("- " + cmds[|cmds| - 1]), Exec(cmds[|cmds| - 1])]
  }

  /** One console line per log entry of the script. */
  function LogEvents(logs: seq<string>): seq<Event> {
    if logs == [] then []
    else LogEvents(logs[..|logs| - 1]) + [Info("\t- " + logs[|logs| - 1])]
  }

  /** One more command announced and run. */
  lemma CommandEventsStep(cmds: seq<string>, i: nat)
    requires i < |cmds|
    ensures CommandEvents(cmds[..i + 1]) == CommandEvents(cmds[..i]) + [Info("- " + cmds[i])] + [Exec(cmds[i])]
  {
    assert cmds[..i + 1][..i] == cmds[..i];
    assert [Info("- " + cmds[i]), Exec(cmds[i])] == [Info("- " + cmds[i])] + [Exec(cmds[i])];
  }

  /** One more log entry relayed. */
  lemma LogEventsStep(logs: seq<string>, i: nat)
    requires i < |logs|
    ensures LogEvents(logs[..i + 1]) == LogEvents(logs[..i]) + [Info("\t- " + logs[i])]
  {
    assert logs[..i + 1][..i] == logs[..i];
  }

  /** Each `before` command is echoed as `- <command>` and then run, in configured order. */
  lemma {:induction false} CommandEventsShape(cmds: seq<string>)
    ensures var r := CommandEvents(cmds);
            |r| == 2 * |cmds|
            && forall i :: 0 <= i < |cmds| ==> r[2 * i] == Info("- " + cmds[i]) && r[2 * i + 1] == Exec(cmds[i])
  {
    if cmds != [] {
      var n := |cmds| - 1;
      CommandEventsShape(cmds[..n]);
      var r := CommandEvents(cmds);
      var p := CommandEvents(cmds[..n]);
      assert r == p + [Info("- " + cmds[n]), Exec(cmds[n])];
      forall i | 0 <= i < n
        ensures r[2 * i] == Info("- " + cmds[i]) && r[2 * i + 1] == Exec(cmds[i])
      {
        assert cmds[..n][i] == cmds[i];
      }
    }
  }

  /** Each log entry becomes the console line `\t- <entry>`, in order. */
  lemma {:induction false} LogEventsShape(logs: seq<string>)
    ensures var r := LogEvents(logs);
            |r| == |logs| && forall i :: 0 <= i < |logs| ==> r[i] == Info("\t- " + logs[i])
  {
    if logs != [] {
      var n := |logs| - 1;
      LogEventsShape(logs[..n]);
      forall i | 0 <= i < n
        ensures LogEvents(logs)[i] == Info("\t- " + logs[i])
      {
        assert logs[..n][i] == logs[i];
      }
    }
  }

  /** The disk after putting each (destination, content) pair in order. */
  function PutAll(disk: map<string, string>, files: seq<(string, string)>): map<string, string> {
    if files == [] then disk
    else PutAll(disk, files[..|files| - 1])[DiskKey(files[|files| - 1].0) := files[|files| - 1].1]
  }

  /** One put per file, in order. */
  function PutEvents(files: seq<(string, string)>): seq<Event> {
    if files == [] then []
    else PutEvents(files[..|files| - 1]) + [Put(files[|files| - 1].0)]
  }

  /** The two files `uploadFiles` puts: the archive, then the generated script. */
  function ReleaseFiles(archive: string, cfg: Setup): seq<(string, string)> {
    [(ArchiveName, archive), (ScriptUploadPath, DeploymentCode(ScriptTemplate(cfg)))]
  }

  datatype UploadResult = UploadResult(disk: map<string, string>, events: seq<Event>, outcome: Outcome)

  /** Each upload in order: read the local source and put it at its destination, stopping at a missing source. */
  function UploadRun(disk: map<string, string>, local: map<string, string>, ups: seq<(string, string)>): UploadResult
    decreases |ups|
  {
    if ups == [] then UploadResult(disk, [], Completed)
    else if ups[0].0 !in local then UploadResult(disk, [], MissingLocalFile(ups[0].0))
    else
      var r := UploadRun(disk[DiskKey(ups[0].1) := local[ups[0].0]], local, ups[1..]);
      UploadResult(r.disk, [Put(ups[0].1)] + r.events, r.outcome)
  }

  /** The events of each stage, in order. */
  function BeforeEvents(cfg: Setup): seq<Event> {
    [Announce(BeforeStage)] + CommandEvents(cfg.global.before)
  }

  /** `had`: whether an old archive was there to delete. */
  function ArchiveEvents(cfg: Setup, had: bool): seq<Event> {
    [Announce(BuildStage)] + (if had then [LocalDelete(ArchivePath(cfg))] else []) + TarEvents(cfg)
  }

  /** `createTarArchive`: the two commands it runs. */
  function TarEvents(cfg: Setup): seq<Event> {
    [Exec(TarCommand(cfg.global.includes, cfg.global.excludes)), Exec(MoveCommand(StagingDir(cfg)))]
  }

  /** `runDeploymentScript`: the heading, the request, the relayed log when `--debug` is truthy, and the deletion of the script. */
  function ScriptEvents(cfg: Setup, logs: seq<string>): seq<Event> {
    [Announce(RunStage), Get(DeployUrl(cfg.server.deployUrl))]
    + (if Truthy(cfg.debug) then LogEvents(logs) else []) + [Delete(ScriptDeletePath)]
  }

  /** `cleanUpAfter`: the heading and the deletion of the local archive. */
  function CleanEvents(cfg: Setup): seq<Event> {
    [Announce(CleanStage), LocalDelete(ArchivePath(cfg))]
  }

  /** `runBefore`: only the trace changes. */
  function RunBeforeState(s: State, cfg: Setup): State {
    s.(trace := s.trace + BeforeEvents(cfg))
  }

  /** `createArchive`: drop an old archive, then build and move the new one (its content `built`). */
  function CreateArchiveState(s: State, cfg: Setup, built: string): State {
    var had := ArchivePath(cfg) in s.local;
    var cleared := if had then s.local - {ArchivePath(cfg)} else s.local;
    State(cleared[ArchivePath(cfg) := built], s.disk, s.trace + ArchiveEvents(cfg, had))
  }

  /** `uploadFiles`: the archive, then the generated script, put on the disk. */
  function UploadFilesState(s: State, cfg: Setup): State
    requires ArchivePath(cfg) in s.local
  {
    var files := ReleaseFiles(s.local[ArchivePath(cfg)], cfg);
    s.(disk := PutAll(s.disk, files), trace := s.trace + [Announce(UploadStage)] + PutEvents(files))
  }

  /** `runDeploymentScript`, with `logs` the entries the script answered with. */
  function RunScriptState(s: State, cfg: Setup, logs: seq<string>): State {
    s.(disk := s.disk - {DiskKey(ScriptDeletePath)}, trace := s.trace + ScriptEvents(cfg, logs))
  }

  /** `uploadSpecificFiles`: the configured uploads, stopping at a missing source. */
  function UploadSpecificState(s: State, cfg: Setup): (State, Outcome) {
    var r := UploadRun(s.disk, s.local, cfg.server.uploads);
    (s.(disk := r.disk, trace := s.trace + [Announce(DefinedStage)] + r.events), r.outcome)
  }

  /** `cleanUpAfter` on the state. */
  function CleanUpState(s: State, cfg: Setup): State {
    s.(local := s.local - {ArchivePath(cfg)}, trace := s.trace + CleanEvents(cfg))
  }

  /** The release files' upload events: the stage heading, then both puts. */
  const ReleaseEvents: seq<Event> := [Announce(UploadStage), Put(ArchiveName), Put(ScriptUploadPath)]

  /** The state when `uploadSpecificFiles` starts: the banner, then the first four stages. */
  function PrefixState(s: State, cfg: Setup, built: string, logs: seq<string>): State {
    RunScriptState(
      UploadFilesState(
        CreateArchiveState(RunBeforeState(s.(trace := s.trace + HeaderEvents(cfg.serverName)), cfg), cfg, built),
        cfg),
      cfg, logs)
  }

  /** `handle`: the six stages in order; a missing upload source ends the command before clean-up. */
  function HandleState(s: State, cfg: Setup, built: string, logs: seq<string>): (State, Outcome) {
    var up := UploadSpecificState(PrefixState(s, cfg, built, logs), cfg);
    if up.1.Completed? then
      var s6 := CleanUpState(up.0, cfg);
      (s6.(trace := s6.trace + FooterEvents), up.1)
    else up
  }

  // ---------------------------------------------------------------------------
  // The command object

  class DeployServerCommand {
    const setup: Setup
    var local: map<string, string>
    var disk: map<string, string>
    var trace: seq<Event>

    /** The command after `setup`, over the given stores, with nothing done yet. */
    constructor (setup: Setup, local: map<string, string>, disk: map<string, string>)
      ensures this.setup == setup && this.local == local && this.disk == disk && trace == []
    {
      this.setup := setup;
      this.local := local;
      this.disk := disk;
      trace := [];
    }

    /** The observable state of the command. */
    function Snapshot(): State
      reads this
    {
      State(local, disk, trace)
    }

    /** `$this->info(line)` for any line but a stage heading. */
    method Info(line: string)
      modifies this
      ensures local == old(local) && disk == old(disk) && trace == old(trace) + [Event.Info(line)]
    {
      trace := trace + [Event.Info(line)];
    }

    /** `$this->info(HeadingText(stage))` at the start of a stage. */
    method Announce(stage: Stage)
      modifies this
      ensures local == old(local) && disk == old(disk) && trace == old(trace) + [Event.Announce(stage)]
    {
      trace := trace + [Event.Announce(stage)];
    }

    /** `handle`: the banner, the six stages in order, and the closing lines once clean-up ran. */
    method Handle(built: string, logs: seq<string>) returns (outcome: Outcome)
      modifies this
      ensures (Snapshot(), outcome) == HandleState(old(Snapshot()), setup, built, logs)
    {
      Banner();
      RunBefore();
      CreateArchive(built);
      UploadFiles();
      RunDeploymentScript(logs);
      outcome := UploadSpecificFiles();
      if outcome.Completed? {
        CleanUpAfter();
        Footer();
      }
    }

    /** The banner `handle` prints before the first stage. */
    method Banner()
      modifies this
      ensures Snapshot() == old(Snapshot()).(trace := old(trace) + HeaderEvents(setup.serverName))
    {
      Info(Rule);
      Info("deploy the project");
      Info(Rule);
      Info("");
      Info("server:\t" + setup.serverName);
      Info("");
    }

    /** The lines `handle` prints after clean-up. */
    method Footer()
      modifies this
      ensures Snapshot() == old(Snapshot()).(trace := old(trace) + FooterEvents)
    {
      Info("");
      Info(Rule);
      Info("deployment done!");
      Info(Rule);
    }

    /** `runBefore`: announce and run each configured command. */
    method RunBefore()
      modifies this
      ensures Snapshot() == RunBeforeState(old(Snapshot()), setup)
    {
      Announce(BeforeStage);
      var cmds := setup.global.before;
      ghost var start := trace;
      for i := 0 to |cmds|
        invariant local == old(local) && disk == old(disk)
        invariant trace == start + CommandEvents(cmds[..i])
      {
        var line := "- " + cmds[i];
        Info(line);
        trace := trace + [Exec(cmds[i])];
        CommandEventsStep(cmds, i);
      }
      assert cmds[..|cmds|] == cmds;
    }

    /** `createArchive`: delete an old archive, then build the new one. */
    method CreateArchive(built: string)
      modifies this
      ensures Snapshot() == CreateArchiveState(old(Snapshot()), setup, built)
    {
      Announce(BuildStage);
      var path := ArchivePath(setup);
      if path in local {
        local := local - {path};
        trace := trace + [LocalDelete(path)];
      }
      CreateTarArchive(built);
    }

    /** Runs tar and mv; `built` is what they leave at the archive path. */
    method CreateTarArchive(built: string)
      modifies this
      ensures Snapshot() == old(Snapshot()).(local := old(local)[ArchivePath(setup) := built],
                                            trace := old(trace) + TarEvents(setup))
    {
      trace := trace + TarEvents(setup);
      local := local[ArchivePath(setup) := built];
    }

    /** `uploadFiles`: put the archive and the generated script on the disk, in that order. */
    method UploadFiles()
      requires ArchivePath(setup) in local
      modifies this
      ensures Snapshot() == UploadFilesState(old(Snapshot()), setup)
    {
      Announce(UploadStage);
      var files := ReleaseFiles(local[ArchivePath(setup)], setup);
      for i := 0 to |files|
        invariant local == old(local)
        invariant disk == PutAll(old(disk), files[..i])
        invariant trace == old(trace) + [Event.Announce(UploadStage)] + PutEvents(files[..i])
      {
        disk := disk[DiskKey(files[i].0) := files[i].1];
        trace := trace + [Put(files[i].0)];
        assert files[..i + 1][..i] == files[..i];
      }
      assert files[..|files|] == files;
    }

    /** `runDeploymentScript`: request the script, relay its log when `--debug` is truthy, delete it. */
    method RunDeploymentScript(logs: seq<string>)
      modifies this
      ensures Snapshot() == RunScriptState(old(Snapshot()), setup, logs)
    {
      Announce(RunStage);
      trace := trace + [Get(DeployUrl(setup.server.deployUrl))];
      ghost var start := trace;
      if Truthy(setup.debug) {
        for i := 0 to |logs|
          invariant local == old(local) && disk == old(disk)
          invariant trace == start + LogEvents(logs[..i])
        {
          Info("\t- " + logs[i]);
          LogEventsStep(logs, i);
        }
        assert logs[..|logs|] == logs;
      }
      disk := disk - {DiskKey(ScriptDeletePath)};
      trace := trace + [Delete(ScriptDeletePath)];
    }

    /** `uploadSpecificFiles`: put each configured upload; a missing local source ends the command. */
    method UploadSpecificFiles() returns (outcome: Outcome)
      modifies this
      ensures (Snapshot(), outcome) == UploadSpecificState(old(Snapshot()), setup)
    {
      Announce(DefinedStage);
      var ups := setup.server.uploads;
      ghost var goal := UploadRun(disk, local, ups);
      ghost var start := trace;
      var i := 0;
      while i < |ups|
        invariant 0 <= i <= |ups|
        invariant local == old(local)
        invariant UploadRun(disk, local, ups[i..]).disk == goal.disk
        invariant UploadRun(disk, local, ups[i..]).outcome == goal.outcome
        invariant trace + UploadRun(disk, local, ups[i..]).events == start + goal.events
      {
        var (src, dst) := ups[i];
        assert ups[i..][0] == ups[i] && ups[i..][1..] == ups[i + 1..];
        if src !in local {
          assert UploadRun(disk, local, ups[i..]) == UploadResult(disk, [], MissingLocalFile(src));
          assert trace + [] == trace;
          outcome := MissingLocalFile(src);
          return;
        }
        disk := disk[DiskKey(dst) := local[src]];
        trace := trace + [Put(dst)];
        i := i + 1;
      }
      assert ups[i..] == [];
      assert trace + [] == trace;
      outcome := Completed;
    }

    /** `cleanUpAfter`: delete the local archive. */
    method CleanUpAfter()
      modifies this
      ensures Snapshot() == CleanUpState(old(Snapshot()), setup)
    {
      Announce(CleanStage);
      local := local - {ArchivePath(setup)};
      trace := trace + [LocalDelete(ArchivePath(setup))];
    }
  }

  // ---------------------------------------------------------------------------
  // Observing the trace

  /** What an event is, for reading the trace one concern at a time. */
  datatype Kind = Heading | LogLine | Command | Remote | LocalFile | Chatter

  /** A console line that relays one entry of the script's log. */
  predicate IsLogText(line: string) {
    |line| >= 3 && line[0] == '\t' && line[1] == '-' && line[2] == ' '
  }

  /** The kind of each event: stage headings, relayed log lines, local commands, disk operations, local deletions, and all other console lines. */
  function KindOf(e: Event): Kind {
    match e
    case Announce(_) => Heading
    case Info(line) => if IsLogText(line) then LogLine else Chatter
    case Exec(_) => Command
    case Get(_) => Remote
    case Put(_) => Remote
    case Delete(_) => Remote
    case LocalDelete(_) => LocalFile
  }

  /** The events of one kind, in trace order. */
  function Only(k: Kind, es: seq<Event>): (r: seq<Event>)
    ensures |r| <= |es|
  {
    if es == [] then [] else (if KindOf(es[0]) == k then [es[0]] else []) + Only(k, es[1..])
  }

  /** Filtering distributes over concatenation. */
  lemma {:induction false} OnlyAppend(k: Kind, a: seq<Event>, b: seq<Event>)
    ensures Only(k, a + b) == Only(k, a) + Only(k, b)
  {
    if a == [] {
      assert a + b == b;
    } else {
      var t := a[1..] + b;
      assert a + b == [a[0]] + t;
      assert a == [a[0]] + a[1..];
      OnlyAppend(k, a[1..], b);
      OnlyCons(k, a[0], t);
      OnlyCons(k, a[0], a[1..]);
      var h := if KindOf(a[0]) == k then [a[0]] else [];
      Assoc(h, Only(k, a[1..]), Only(k, b));
    }
  }

  /** Filtering an event in front of others. */
  lemma OnlyCons(k: Kind, e: Event, t: seq<Event>)
    ensures Only(k, [e] + t) == (if KindOf(e) == k then [e] else []) + Only(k, t)
  {
    assert ([e] + t)[1..] == t;
  }

  /** A single event is kept exactly when it is of the kind. */
  lemma OnlyOne(k: Kind, e: Event)
    ensures Only(k, [e]) == if KindOf(e) == k then [e] else []
  {
    assert [e][1..] == [];
  }

  /** `exec` of each command, in order. */
  function Execs(cmds: seq<string>): seq<Event> {
    if cmds == [] then [] else Execs(cmds[..|cmds| - 1]) + [Exec(cmds[|cmds| - 1])]
  }

  /** Console lines that are empty or do not begin with a tab are not log lines. */
  lemma ChatterLine(line: string)
    requires line == "" || line[0] != '\t'
    ensures KindOf(Info(line)) == Chatter
  {
  }

  /** Of `runBefore`'s per-command events only the `exec`s are not chatter. */
  lemma {:induction false} OnlyCommandEvents(k: Kind, cmds: seq<string>)
    requires k != Chatter
    ensures Only(k, CommandEvents(cmds)) == if k == Command then Execs(cmds) else []
  {
    if cmds != [] {
      var n := |cmds| - 1;
      var c := cmds[n];
      OnlyCommandEvents(k, cmds[..n]);
      OnlyAppend(k, CommandEvents(cmds[..n]), [Info("- " + c), Exec(c)]);
      OnlyEchoRun(k, c);
    }
  }

  /** Of one echoed and run command, only the run is not chatter. */
  lemma OnlyEchoRun(k: Kind, c: string)
    requires k != Chatter
    ensures Only(k, [Info("- " + c), Exec(c)]) == if k == Command then [Exec(c)] else []
  {
    ChatterLine("- " + c);
    OnlyCons(k, Info("- " + c), [Exec(c)]);
    OnlyOne(k, Exec(c));
  }

  /** Log relays are the only log lines, and nothing else. */
  lemma {:induction false} OnlyLogEvents(k: Kind, logs: seq<string>)
    ensures Only(k, LogEvents(logs)) == if k == LogLine then LogEvents(logs) else []
  {
    if logs != [] {
      var l := logs[|logs| - 1];
      OnlyLogEvents(k, logs[..|logs| - 1]);
      OnlyAppend(k, LogEvents(logs[..|logs| - 1]), [Info("\t- " + l)]);
      assert ("\t- " + l)[0] == '\t' && ("\t- " + l)[1] == '-' && ("\t- " + l)[2] == ' ';
      OnlyOne(k, Info("\t- " + l));
    }
  }

  // ---------------------------------------------------------------------------
  // The configured uploads

  /** Every configured upload's local source exists. */
  predicate AllSourcesPresent(local: map<string, string>, ups: seq<(string, string)>) {
    forall i :: 0 <= i < |ups| ==> ups[i].0 in local
  }

  /** No upload after the i-th writes the same disk key. */
  predicate LastWriter(ups: seq<(string, string)>, i: int)
    requires 0 <= i < |ups|
  {
    forall j :: i < j < |ups| ==> DiskKey(ups[j].1) != DiskKey(ups[i].1)
  }

  /**
   * The uploads complete exactly when every source exists; otherwise they stop at the
   * first missing source, and every upload before it was put, in order.
   */
  lemma {:induction false} UploadRunOutcome(disk: map<string, string>, local: map<string, string>, ups: seq<(string, string)>)
    ensures var r := UploadRun(disk, local, ups);
            (r.outcome == Completed <==> AllSourcesPresent(local, ups))
            && (r.outcome.MissingLocalFile? ==>
                  var n := |r.events|;
                  n < |ups| && ups[n].0 == r.outcome.path && ups[n].0 !in local && AllSourcesPresent(local, ups[..n]))
            && (r.outcome == Completed ==> |r.events| == |ups|)
            && |r.events| <= |ups|
            && forall i :: 0 <= i < |r.events| ==> r.events[i] == Put(ups[i].1)
    decreases |ups|
  {
    if ups != [] && ups[0].0 in local {
      var d := disk[DiskKey(ups[0].1) := local[ups[0].0]];
      UploadRunOutcome(d, local, ups[1..]);
      var r := UploadRun(d, local, ups[1..]);
      if AllSourcesPresent(local, ups[1..]) {
        forall i | 0 <= i < |ups|
          ensures ups[i].0 in local
        {
          if i > 0 {
            assert ups[i] == ups[1..][i - 1];
          }
        }
      } else {
        assert !AllSourcesPresent(local, ups);
      }
      if r.outcome.MissingLocalFile? {
        var m := |r.events|;
        assert ups[m + 1] == ups[1..][m];
        var done := ups[..m + 1];
        forall i | 0 <= i < |done|
          ensures done[i].0 in local
        {
          if i > 0 {
            assert done[i] == ups[1..][..m][i - 1];
          }
        }
      }
      forall i | 0 <= i < |r.events| + 1
        ensures ([Put(ups[0].1)] + r.events)[i] == Put(ups[i].1)
      {
        if i > 0 {
          assert ups[i] == ups[1..][i - 1];
        }
      }
    }
  }

  /** A disk key no upload writes is left as it was. */
  lemma {:induction false} UploadRunFrame(disk: map<string, string>, local: map<string, string>, ups: seq<(string, string)>, key: string)
    requires forall i :: 0 <= i < |ups| ==> DiskKey(ups[i].1) != key
    ensures var r := UploadRun(disk, local, ups);
            (key in r.disk <==> key in disk) && (key in disk ==> r.disk[key] == disk[key])
    decreases |ups|
  {
    if ups != [] && ups[0].0 in local {
      UploadRunFrame(disk[DiskKey(ups[0].1) := local[ups[0].0]], local, ups[1..], key);
    }
  }

  /** When all sources exist, the last upload to each disk key decides its content. */
  lemma {:induction false} UploadRunLastWrite(disk: map<string, string>, local: map<string, string>, ups: seq<(string, string)>, i: int)
    requires AllSourcesPresent(local, ups)
    requires 0 <= i < |ups| && LastWriter(ups, i)
    ensures var r := UploadRun(disk, local, ups);
            DiskKey(ups[i].1) in r.disk && r.disk[DiskKey(ups[i].1)] == local[ups[i].0]
    decreases |ups|
  {
    var d := disk[DiskKey(ups[0].1) := local[ups[0].0]];
    if i == 0 {
      UploadRunFrame(d, local, ups[1..], DiskKey(ups[0].1));
    } else {
      UploadRunLastWrite(d, local, ups[1..], i - 1);
    }
  }

  // ---------------------------------------------------------------------------
  // One whole run of `handle`

  /** The local store while the uploads run: the new archive in place of any old one. */
  function BuiltLocal(s: State, cfg: Setup, built: string): map<string, string> {
    s.local[ArchivePath(cfg) := built]
  }

  /** The disk when the uploads start: archive and script put, then the script deleted. */
  function ScriptRunDisk(s: State, cfg: Setup, built: string): map<string, string> {
    PutAll(s.disk, ReleaseFiles(built, cfg)) - {DiskKey(ScriptDeletePath)}
  }

  /** The configured uploads as a run performs them. */
  function HandleUploads(s: State, cfg: Setup, built: string): UploadResult {
    UploadRun(ScriptRunDisk(s, cfg, built), BuiltLocal(s, cfg, built), cfg.server.uploads)
  }

  /** The events of a run, stage by stage. */
  function HandleEvents(s: State, cfg: Setup, built: string, logs: seq<string>): seq<Event> {
    var up := HandleUploads(s, cfg, built);
    HeaderEvents(cfg.serverName) + BeforeEvents(cfg) + ArchiveEvents(cfg, ArchivePath(cfg) in s.local)
    + ReleaseEvents + ScriptEvents(cfg, logs)
    + ([Announce(DefinedStage)] + up.events)
    + (if up.outcome.Completed? then CleanEvents(cfg) + FooterEvents else [])
  }

  /** Putting two files, one after the other. */
  lemma PutPair(disk: map<string, string>, f: (string, string), g: (string, string))
    ensures PutAll(disk, [f, g]) == disk[DiskKey(f.0) := f.1][DiskKey(g.0) := g.1]
    ensures PutEvents([f, g]) == [Put(f.0), Put(g.0)]
  {
    assert [f, g][..1] == [f] && [f][..0] == [];
    assert PutAll(disk, [f]) == disk[DiskKey(f.0) := f.1];
    assert PutEvents([f]) == [Put(f.0)];
  }

  /** The archive and the script go to the keys they are put at. */
  lemma ReleaseKeys()
    ensures DiskKey(ArchiveName) == ArchiveName && DiskKey(ScriptUploadPath) == ScriptUploadPath
    ensures DiskKey(ScriptDeletePath) == ScriptUploadPath && ArchiveName != ScriptUploadPath
  {
  }

  /** What uploading the release files does to the disk and the trace. */
  lemma ReleasePuts(disk: map<string, string>, built: string, cfg: Setup)
    ensures PutAll(disk, ReleaseFiles(built, cfg)) == disk[ArchiveName := built][ScriptUploadPath := DeploymentCode(ScriptTemplate(cfg))]
    ensures PutEvents(ReleaseFiles(built, cfg)) == [Put(ArchiveName), Put(ScriptUploadPath)]
  {
    PutPair(disk, (ArchiveName, built), (ScriptUploadPath, DeploymentCode(ScriptTemplate(cfg))));
    ReleaseKeys();
  }

  /** The first four stages compose: the archive built locally, the release put and the script deleted. */
  lemma PrefixFacts(s: State, cfg: Setup, built: string, logs: seq<string>)
    ensures var p := PrefixState(s, cfg, built, logs);
            p.local == BuiltLocal(s, cfg, built) && p.disk == ScriptRunDisk(s, cfg, built)
            && p.trace == s.trace + HeaderEvents(cfg.serverName) + BeforeEvents(cfg)
                          + ArchiveEvents(cfg, ArchivePath(cfg) in s.local) + ReleaseEvents + ScriptEvents(cfg, logs)
  {
    var s0 := s.(trace := s.trace + HeaderEvents(cfg.serverName));
    var s1 := RunBeforeState(s0, cfg);
    var s2 := CreateArchiveState(s1, cfg, built);
    assert s2.trace == s1.trace + ArchiveEvents(cfg, ArchivePath(cfg) in s.local);
    assert s2.local == BuiltLocal(s, cfg, built) && s2.disk == s.disk;
    var s3 := UploadFilesState(s2, cfg);
    ReleasePuts(s2.disk, built, cfg);
    assert s3.trace == s2.trace + ReleaseEvents;
  }

  /** The stages compose: the stores end as the uploads leave them, and the command ends as they do. */
  lemma HandleStores(s: State, cfg: Setup, built: string, logs: seq<string>)
    ensures var h := HandleState(s, cfg, built, logs);
            var up := HandleUploads(s, cfg, built);
            h.1 == up.outcome
            && h.0.disk == up.disk
            && h.0.local == if up.outcome.Completed? then s.local - {ArchivePath(cfg)} else BuiltLocal(s, cfg, built)
  {
    PrefixFacts(s, cfg, built, logs);
    var up := HandleUploads(s, cfg, built);
    if up.outcome.Completed? {
      assert BuiltLocal(s, cfg, built) - {ArchivePath(cfg)} == s.local - {ArchivePath(cfg)};
    }
  }

  /** The stages compose: the trace grows by HandleEvents. */
  lemma HandleTrace(s: State, cfg: Setup, built: string, logs: seq<string>)
    ensures HandleState(s, cfg, built, logs).0.trace == s.trace + HandleEvents(s, cfg, built, logs)
  {
    PrefixFacts(s, cfg, built, logs);
    var p := PrefixState(s, cfg, built, logs);
    var up := HandleUploads(s, cfg, built);
    var u := UploadSpecificState(p, cfg);
    assert u.1 == up.outcome;
    assert u.0.trace == p.trace + ([Announce(DefinedStage)] + up.events);
    var tail := if up.outcome.Completed? then CleanEvents(cfg) + FooterEvents else [];
    assert HandleState(s, cfg, built, logs).0.trace == u.0.trace + tail;
    Assoc7(s.trace, HeaderEvents(cfg.serverName), BeforeEvents(cfg), ArchiveEvents(cfg, ArchivePath(cfg) in s.local),
           ReleaseEvents, ScriptEvents(cfg, logs), [Announce(DefinedStage)] + up.events, tail);
  }

  /** Regrouping a trace extended piece by piece. */
  lemma Assoc7(t: seq<Event>, a: seq<Event>, b: seq<Event>, c: seq<Event>, d: seq<Event>, e: seq<Event>, f: seq<Event>, g: seq<Event>)
    ensures t + a + b + c + d + e + f + g == t + (a + b + c + d + e + f + g)
  {
  }


  // ---------------------------------------------------------------------------
  // What each stage contributes to each kind of event

  /** No event of the kind, nothing kept. */
  lemma {:induction false} OnlyNone(k: Kind, es: seq<Event>)
    requires forall i :: 0 <= i < |es| ==> KindOf(es[i]) != k
    ensures Only(k, es) == []
  {
    if es != [] {
      OnlyNone(k, es[1..]);
    }
  }

  /** Filtering three consecutive pieces. */
  lemma Only2(k: Kind, a: seq<Event>, b: seq<Event>, c: seq<Event>)
    ensures Only(k, a + b + c) == Only(k, a) + Only(k, b) + Only(k, c)
  {
    OnlyAppend(k, a + b, c);
    OnlyAppend(k, a, b);
  }

  /** Filtering seven consecutive pieces. */
  lemma Only7(k: Kind, a: seq<Event>, b: seq<Event>, c: seq<Event>, d: seq<Event>, e: seq<Event>, f: seq<Event>, g: seq<Event>)
    ensures Only(k, a + b + c + d + e + f + g)
         == Only(k, a) + Only(k, b) + Only(k, c) + Only(k, d) + Only(k, e) + Only(k, f) + Only(k, g)
  {
    OnlyAppend(k, a + b + c + d + e + f, g);
    OnlyAppend(k, a + b + c + d + e, f);
    OnlyAppend(k, a + b + c + d, e);
    OnlyAppend(k, a + b + c, d);
    Only2(k, a, b, c);
  }

  /** The banner lines are chatter. */
  lemma OnlyHeader(k: Kind, serverName: string)
    requires k != Chatter
    ensures Only(k, HeaderEvents(serverName)) == [] && Only(k, FooterEvents) == []
  {
    var h := HeaderEvents(serverName);
    assert Rule[0] == '-';
    assert ("server:\t" + serverName)[0] == 's';
    forall i | 0 <= i < |h|
      ensures KindOf(h[i]) != k
    {
      ChatterLine(h[i].line);
    }
    OnlyNone(k, h);
    forall i | 0 <= i < |FooterEvents|
      ensures KindOf(FooterEvents[i]) != k
    {
      ChatterLine(FooterEvents[i].line);
    }
    OnlyNone(k, FooterEvents);
  }

  /** The `before` stage contributes its heading and its commands. */
  lemma OnlyBefore(k: Kind, cfg: Setup)
    requires k != Chatter
    ensures Only(k, BeforeEvents(cfg))
         == (if k == Heading then [Announce(BeforeStage)] else []) + (if k == Command then Execs(cfg.global.before) else [])
  {
    OnlyAppend(k, [Announce(BeforeStage)], CommandEvents(cfg.global.before));
    OnlyOne(k, Announce(BeforeStage));
    OnlyCommandEvents(k, cfg.global.before);
  }

  /** The build stage contributes its heading, the deletion of an old archive and the two commands. */
  lemma OnlyArchive(k: Kind, cfg: Setup, had: bool)
    ensures Only(k, ArchiveEvents(cfg, had))
         == (if k == Heading then [Announce(BuildStage)] else [])
            + (if k == LocalFile && had then [LocalDelete(ArchivePath(cfg))] else [])
            + (if k == Command then TarEvents(cfg) else [])
  {
    var del: seq<Event> := if had then [LocalDelete(ArchivePath(cfg))] else [];
    OnlyOne(k, Announce(BuildStage));
    OnlyMaybe(k, LocalDelete(ArchivePath(cfg)), had);
    OnlyTar(k, cfg);
    Only3(k, [Announce(BuildStage)], del, TarEvents(cfg),
          if k == Heading then [Announce(BuildStage)] else [],
          if k == LocalFile && had then [LocalDelete(ArchivePath(cfg))] else [],
          if k == Command then TarEvents(cfg) else []);
  }

  /** Three consecutive pieces, each filtered to a known result. */
  lemma Only3(k: Kind, a: seq<Event>, b: seq<Event>, c: seq<Event>, x: seq<Event>, y: seq<Event>, z: seq<Event>)
    requires Only(k, a) == x && Only(k, b) == y && Only(k, c) == z
    ensures Only(k, a + b + c) == x + y + z
  {
    Only2(k, a, b, c);
  }

  /** An event that may or may not happen. */
  lemma OnlyMaybe(k: Kind, e: Event, happens: bool)
    ensures Only(k, if happens then [e] else []) == if happens && KindOf(e) == k then [e] else []
  {
    OnlyOne(k, e);
  }

  /** Both tar commands are commands. */
  lemma OnlyTar(k: Kind, cfg: Setup)
    ensures Only(k, TarEvents(cfg)) == if k == Command then TarEvents(cfg) else []
  {
    var t := TarEvents(cfg);
    assert t == [t[0]] + [t[1]];
    OnlyCons(k, t[0], [t[1]]);
    OnlyOne(k, t[1]);
  }

  /** The release upload contributes its heading and two puts. */
  lemma OnlyRelease(k: Kind)
    ensures Only(k, ReleaseEvents)
         == (if k == Heading then [Announce(UploadStage)] else [])
            + (if k == Remote then [Put(ArchiveName), Put(ScriptUploadPath)] else [])
  {
    assert ReleaseEvents
        == [Announce(UploadStage)] + [Put(ArchiveName)] + [Put(ScriptUploadPath)];
    OnlyOne(k, Announce(UploadStage));
    OnlyOne(k, Put(ArchiveName));
    OnlyOne(k, Put(ScriptUploadPath));
    Only3(k, [Announce(UploadStage)], [Put(ArchiveName)], [Put(ScriptUploadPath)],
          if k == Heading then [Announce(UploadStage)] else [],
          if k == Remote then [Put(ArchiveName)] else [],
          if k == Remote then [Put(ScriptUploadPath)] else []);
  }

  /** The script stage contributes its heading, the request, the log relays and the deletion. */
  lemma OnlyScript(k: Kind, cfg: Setup, logs: seq<string>)
    ensures Only(k, ScriptEvents(cfg, logs))
         == (if k == Heading then [Announce(RunStage)] else [])
            + (if k == Remote then [Get(DeployUrl(cfg.server.deployUrl))] else [])
            + (if k == LogLine && Truthy(cfg.debug) then LogEvents(logs) else [])
            + (if k == Remote then [Delete(ScriptDeletePath)] else [])
  {
    var get := Get(DeployUrl(cfg.server.deployUrl));
    var mid := if Truthy(cfg.debug) then LogEvents(logs) else [];
    assert ScriptEvents(cfg, logs) == [Announce(RunStage)] + [get] + mid + [Delete(ScriptDeletePath)];
    OnlyOne(k, Announce(RunStage));
    OnlyOne(k, get);
    OnlyOne(k, Delete(ScriptDeletePath));
    OnlyLogEvents(k, logs);
    if !Truthy(cfg.debug) {
      assert Only(k, mid) == [];
    }
    Only4(k, [Announce(RunStage)], [get], mid, [Delete(ScriptDeletePath)],
          if k == Heading then [Announce(RunStage)] else [],
          if k == Remote then [get] else [],
          if k == LogLine && Truthy(cfg.debug) then LogEvents(logs) else [],
          if k == Remote then [Delete(ScriptDeletePath)] else []);
  }

  /** Four consecutive pieces, each filtered to a known result. */
  lemma Only4(k: Kind, a: seq<Event>, b: seq<Event>, c: seq<Event>, d: seq<Event>,
              x: seq<Event>, y: seq<Event>, z: seq<Event>, w: seq<Event>)
    requires Only(k, a) == x && Only(k, b) == y && Only(k, c) == z && Only(k, d) == w
    ensures Only(k, a + b + c + d) == x + y + z + w
  {
    OnlyAppend(k, a + b + c, d);
    Only2(k, a, b, c);
  }

  /** Puts are disk operations. */
  lemma {:induction false} OnlyPuts(k: Kind, es: seq<Event>)
    requires forall i :: 0 <= i < |es| ==> es[i].Put?
    ensures Only(k, es) == if k == Remote then es else []
  {
    if es != [] {
      OnlyPuts(k, es[1..]);
      assert es == [es[0]] + es[1..];
    }
  }

  /** Clean-up and the closing lines contribute the heading and the archive deletion. */
  lemma OnlyTail(k: Kind, cfg: Setup)
    requires k != Chatter
    ensures Only(k, CleanEvents(cfg) + FooterEvents)
         == (if k == Heading then [Announce(CleanStage)] else [])
            + (if k == LocalFile then [LocalDelete(ArchivePath(cfg))] else [])
  {
    assert CleanEvents(cfg) + FooterEvents == [Announce(CleanStage)] + [LocalDelete(ArchivePath(cfg))] + FooterEvents;
    OnlyOne(k, Announce(CleanStage));
    OnlyOne(k, LocalDelete(ArchivePath(cfg)));
    OnlyHeader(k, cfg.serverName);
    Only3(k, [Announce(CleanStage)], [LocalDelete(ArchivePath(cfg))], FooterEvents,
          if k == Heading then [Announce(CleanStage)] else [],
          if k == LocalFile then [LocalDelete(ArchivePath(cfg))] else [], []);
  }

  /** Splitting a run's events, whose banner is of no interest, by stage. */
  lemma OnlyStages(k: Kind, h: seq<Event>, b: seq<Event>, a: seq<Event>, r: seq<Event>, x: seq<Event>, d: seq<Event>, t: seq<Event>)
    requires Only(k, h) == []
    ensures Only(k, h + b + a + r + x + d + t)
         == Only(k, b) + Only(k, a) + Only(k, r) + Only(k, x) + Only(k, d) + Only(k, t)
  {
    Only7(k, h, b, a, r, x, d, t);
    var ob := Only(k, b);
    assert Only(k, h) + ob == ob;
  }

  /** The events of a run split by stage, for one kind of event. */
  lemma HandleOnly(k: Kind, s: State, cfg: Setup, built: string, logs: seq<string>)
    requires k != Chatter
    ensures var up := HandleUploads(s, cfg, built);
            var tail := if up.outcome.Completed? then CleanEvents(cfg) + FooterEvents else [];
            (Only(k, HandleEvents(s, cfg, built, logs))
             == Only(k, BeforeEvents(cfg)) + Only(k, ArchiveEvents(cfg, ArchivePath(cfg) in s.local))
                + Only(k, ReleaseEvents) + Only(k, ScriptEvents(cfg, logs))
                + Only(k, [Announce(DefinedStage)] + up.events) + Only(k, tail))
  {
    var up := HandleUploads(s, cfg, built);
    var tail := if up.outcome.Completed? then CleanEvents(cfg) + FooterEvents else [];
    OnlyHeader(k, cfg.serverName);
    OnlyStages(k, HeaderEvents(cfg.serverName), BeforeEvents(cfg), ArchiveEvents(cfg, ArchivePath(cfg) in s.local),
               ReleaseEvents, ScriptEvents(cfg, logs),
               [Announce(DefinedStage)] + up.events, tail);
  }

  /** The uploads' own events: their heading, then only puts. */
  lemma OnlyDefined(k: Kind, s: State, cfg: Setup, built: string)
    ensures var up := HandleUploads(s, cfg, built);
            (Only(k, [Announce(DefinedStage)] + up.events)
             == (if k == Heading then [Announce(DefinedStage)] else []) + (if k == Remote then up.events else []))
  {
    var up := HandleUploads(s, cfg, built);
    UploadRunOutcome(ScriptRunDisk(s, cfg, built), BuiltLocal(s, cfg, built), cfg.server.uploads);
    OnlyAppend(k, [Announce(DefinedStage)], up.events);
    OnlyOne(k, Announce(DefinedStage));
    OnlyPuts(k, up.events);
  }

  // ---------------------------------------------------------------------------
  // Properties of a whole run

  /** The events a run adds to the trace are HandleEvents. */
  lemma HandleAdded(s: State, cfg: Setup, built: string, logs: seq<string>)
    ensures var t := HandleState(s, cfg, built, logs).0.trace;
            |s.trace| <= |t| && t[..|s.trace|] == s.trace && t[|s.trace|..] == HandleEvents(s, cfg, built, logs)
  {
    HandleTrace(s, cfg, built, logs);
  }

  /** Six stage contributions, the last two empty. */
  lemma DropEmpty(p: seq<Event>, r: seq<Event>, x: seq<Event>, d: seq<Event>, t: seq<Event>)
    requires r == [] && x == [] && d == [] && t == []
    ensures p + r + x + d + t == p
  {
  }

  /** Per-stage contributions of one event each, then a tail. */
  lemma Singles(b: seq<Event>, a: seq<Event>, r: seq<Event>, x: seq<Event>, d: seq<Event>, t: seq<Event>,
                e1: Event, e2: Event, e3: Event, e4: Event, e5: Event)
    requires b == [e1] && a == [e2] && r == [e3] && x == [e4] && d == [e5]
    ensures b + a + r + x + d + t == [e1, e2, e3, e4, e5] + t
  {
  }

  /** The remote operations of the stages, put together. */
  lemma RemoteShape(b: seq<Event>, a: seq<Event>, r: seq<Event>, x: seq<Event>, d: seq<Event>, t: seq<Event>,
                    e1: Event, e2: Event, e3: Event, e4: Event)
    requires b == [] && a == [] && t == [] && r == [e1, e2] && x == [e3, e4]
    ensures b + a + r + x + d + t == [e1, e2, e3, e4] + d
  {
  }

  /** The local deletions of the stages, put together. */
  lemma LocalShape(b: seq<Event>, a: seq<Event>, r: seq<Event>, x: seq<Event>, d: seq<Event>, t: seq<Event>)
    requires b == [] && r == [] && x == [] && d == []
    ensures b + a + r + x + d + t == a + t
  {
  }

  /** The log lines of the stages, put together. */
  lemma OnlyScriptLogs(p: seq<Event>, r: seq<Event>, x: seq<Event>, d: seq<Event>, t: seq<Event>)
    requires p == [] && r == [] && d == [] && t == []
    ensures p + r + x + d + t == x
  {
  }

  /** Names for the per-stage contributions of a run to one kind of event. */
  lemma StageParts(k: Kind, s: State, cfg: Setup, built: string, logs: seq<string>)
    returns (b: seq<Event>, a: seq<Event>, r: seq<Event>, x: seq<Event>, d: seq<Event>, t: seq<Event>)
    requires k != Chatter
    ensures var up := HandleUploads(s, cfg, built);
            var tail := if up.outcome.Completed? then CleanEvents(cfg) + FooterEvents else [];
            b == Only(k, BeforeEvents(cfg)) && a == Only(k, ArchiveEvents(cfg, ArchivePath(cfg) in s.local))
            && r == Only(k, ReleaseEvents)
            && x == Only(k, ScriptEvents(cfg, logs)) && d == Only(k, [Announce(DefinedStage)] + up.events)
            && t == Only(k, tail)
            && Only(k, HandleEvents(s, cfg, built, logs)) == b + a + r + x + d + t
  {
    var up := HandleUploads(s, cfg, built);
    var tail := if up.outcome.Completed? then CleanEvents(cfg) + FooterEvents else [];
    HandleOnly(k, s, cfg, built, logs);
    b := Only(k, BeforeEvents(cfg));
    a := Only(k, ArchiveEvents(cfg, ArchivePath(cfg) in s.local));
    r := Only(k, ReleaseEvents);
    x := Only(k, ScriptEvents(cfg, logs));
    d := Only(k, [Announce(DefinedStage)] + up.events);
    t := Only(k, tail);
  }

  /**
   * The stages run in the fixed order runBefore, createArchive, uploadFiles,
   * runDeploymentScript, uploadSpecificFiles, cleanUpAfter; clean-up is the one stage
   * a missing upload source skips.
   */
  lemma HandleStageOrder(s: State, cfg: Setup, built: string, logs: seq<string>)
    ensures var h := HandleState(s, cfg, built, logs);
            (Only(Heading, h.0.trace[|s.trace|..])
             == [Announce(BeforeStage), Announce(BuildStage), Announce(UploadStage), Announce(RunStage), Announce(DefinedStage)]
                + (if h.1 == Completed then [Announce(CleanStage)] else []))
  {
    HandleAdded(s, cfg, built, logs);
    HandleStores(s, cfg, built, logs);
    var b, a, r, x, d, t := StageParts(Heading, s, cfg, built, logs);
    HeadingStages(s, cfg, built, logs);
    Singles(b, a, r, x, d, t, Announce(BeforeStage), Announce(BuildStage), Announce(UploadStage), Announce(RunStage), Announce(DefinedStage));
  }

  /** What each stage contributes to the headings. */
  lemma HeadingStages(s: State, cfg: Setup, built: string, logs: seq<string>)
    ensures Only(Heading, BeforeEvents(cfg)) == [Announce(BeforeStage)]
    ensures Only(Heading, ArchiveEvents(cfg, ArchivePath(cfg) in s.local)) == [Announce(BuildStage)]
    ensures Only(Heading, ReleaseEvents) == [Announce(UploadStage)]
    ensures Only(Heading, ScriptEvents(cfg, logs)) == [Announce(RunStage)]
    ensures Only(Heading, [Announce(DefinedStage)] + HandleUploads(s, cfg, built).events) == [Announce(DefinedStage)]
    ensures Only(Heading, CleanEvents(cfg) + FooterEvents) == [Announce(CleanStage)]
  {
    OnlyBefore(Heading, cfg);
    OnlyArchive(Heading, cfg, ArchivePath(cfg) in s.local);
    OnlyRelease(Heading);
    OnlyScript(Heading, cfg, logs);
    OnlyDefined(Heading, s, cfg, built);
    OnlyTail(Heading, cfg);
  }

  /**
   * On the disk, in order: the archive and the script are put, the script is requested
   * at `<deploy-url>/deploy.php?archive=deploy.tar` and deleted, then the configured
   * uploads are put in their configured order (all of them unless a source is missing).
   */
  lemma HandleRemoteOps(s: State, cfg: Setup, built: string, logs: seq<string>)
    ensures var h := HandleState(s, cfg, built, logs);
            var ops := Only(Remote, h.0.trace[|s.trace|..]);
            var ups := cfg.server.uploads;
            4 <= |ops| <= 4 + |ups|
            && ops[..4] == [Put(ArchiveName), Put(ScriptUploadPath), Get(DeployUrl(cfg.server.deployUrl)), Delete(ScriptDeletePath)]
            && (forall i :: 4 <= i < |ops| ==> ops[i] == Put(ups[i - 4].1))
            && (h.1 == Completed ==> |ops| == 4 + |ups|)
  {
    HandleAdded(s, cfg, built, logs);
    HandleStores(s, cfg, built, logs);
    var up := HandleUploads(s, cfg, built);
    UploadRunOutcome(ScriptRunDisk(s, cfg, built), BuiltLocal(s, cfg, built), cfg.server.uploads);
    EventsRemote(s, cfg, built, logs);
    var front := [Put(ArchiveName), Put(ScriptUploadPath), Get(DeployUrl(cfg.server.deployUrl)), Delete(ScriptDeletePath)];
    FrontThenPuts(front, up.events, cfg.server.uploads);
  }

  /** Four fixed operations followed by puts of a prefix of the uploads. */
  lemma FrontThenPuts(front: seq<Event>, evs: seq<Event>, ups: seq<(string, string)>)
    requires |front| == 4 && |evs| <= |ups|
    requires forall i :: 0 <= i < |evs| ==> evs[i] == Put(ups[i].1)
    ensures var ops := front + evs;
            4 <= |ops| <= 4 + |ups| && ops[..4] == front
            && forall i :: 4 <= i < |ops| ==> ops[i] == Put(ups[i - 4].1)
  {
    var ops := front + evs;
    assert ops[..4] == front;
    forall i | 4 <= i < |ops|
      ensures ops[i] == Put(ups[i - 4].1)
    {
      assert ops[i] == evs[i - 4];
    }
  }

  /** The disk operations of a run: the four fixed ones, then the uploads' puts. */
  lemma EventsRemote(s: State, cfg: Setup, built: string, logs: seq<string>)
    ensures Only(Remote, HandleEvents(s, cfg, built, logs))
         == [Put(ArchiveName), Put(ScriptUploadPath), Get(DeployUrl(cfg.server.deployUrl)), Delete(ScriptDeletePath)]
            + HandleUploads(s, cfg, built).events
  {
    var up := HandleUploads(s, cfg, built);
    var b, a, r, x, d, t := StageParts(Remote, s, cfg, built, logs);
    RemoteStages(s, cfg, built, logs);
    RemoteShape(b, a, r, x, d, t, Put(ArchiveName), Put(ScriptUploadPath), Get(DeployUrl(cfg.server.deployUrl)), Delete(ScriptDeletePath));
  }

  /** What each stage contributes to the disk operations. */
  lemma RemoteStages(s: State, cfg: Setup, built: string, logs: seq<string>)
    ensures Only(Remote, BeforeEvents(cfg)) == []
    ensures Only(Remote, ArchiveEvents(cfg, ArchivePath(cfg) in s.local)) == []
    ensures Only(Remote, ReleaseEvents) == [Put(ArchiveName), Put(ScriptUploadPath)]
    ensures Only(Remote, ScriptEvents(cfg, logs)) == [Get(DeployUrl(cfg.server.deployUrl)), Delete(ScriptDeletePath)]
    ensures Only(Remote, [Announce(DefinedStage)] + HandleUploads(s, cfg, built).events) == HandleUploads(s, cfg, built).events
    ensures Only(Remote, CleanEvents(cfg) + FooterEvents) == []
  {
    assert Only(Remote, BeforeEvents(cfg)) == [] by {
      OnlyBefore(Remote, cfg);
    }
    assert Only(Remote, ArchiveEvents(cfg, ArchivePath(cfg) in s.local)) == [] by {
      OnlyArchive(Remote, cfg, ArchivePath(cfg) in s.local);
    }
    assert Only(Remote, ReleaseEvents) == [Put(ArchiveName), Put(ScriptUploadPath)] by {
      OnlyRelease(Remote);
    }
    assert Only(Remote, ScriptEvents(cfg, logs)) == [Get(DeployUrl(cfg.server.deployUrl)), Delete(ScriptDeletePath)] by {
      OnlyScript(Remote, cfg, logs);
    }
    assert Only(Remote, [Announce(DefinedStage)] + HandleUploads(s, cfg, built).events) == HandleUploads(s, cfg, built).events by {
      OnlyDefined(Remote, s, cfg, built);
    }
    assert Only(Remote, CleanEvents(cfg) + FooterEvents) == [] by {
      OnlyTail(Remote, cfg);
    }
  }

  /** The local shell runs the `before` commands in order, then tar, then mv, and nothing else. */
  lemma HandleCommands(s: State, cfg: Setup, built: string, logs: seq<string>)
    ensures var h := HandleState(s, cfg, built, logs);
            Only(Command, h.0.trace[|s.trace|..])
            == Execs(cfg.global.before)
               + [Exec(TarCommand(cfg.global.includes, cfg.global.excludes)), Exec(MoveCommand(StagingDir(cfg)))]
  {
    HandleAdded(s, cfg, built, logs);
    var b, a, r, x, d, t := StageParts(Command, s, cfg, built, logs);
    CommandStages(s, cfg, built, logs);
    DropEmpty(b + a, r, x, d, t);
  }

  /** What each stage contributes to the local commands. */
  lemma CommandStages(s: State, cfg: Setup, built: string, logs: seq<string>)
    ensures Only(Command, BeforeEvents(cfg)) == Execs(cfg.global.before)
    ensures Only(Command, ArchiveEvents(cfg, ArchivePath(cfg) in s.local)) == TarEvents(cfg)
    ensures Only(Command, ReleaseEvents) == []
    ensures Only(Command, ScriptEvents(cfg, logs)) == []
    ensures Only(Command, [Announce(DefinedStage)] + HandleUploads(s, cfg, built).events) == []
    ensures Only(Command, CleanEvents(cfg) + FooterEvents) == []
  {
    OnlyBefore(Command, cfg);
    OnlyArchive(Command, cfg, ArchivePath(cfg) in s.local);
    OnlyRelease(Command);
    OnlyScript(Command, cfg, logs);
    OnlyDefined(Command, s, cfg, built);
    OnlyTail(Command, cfg);
  }

  /** The script's log entries are relayed, one line each and in order, exactly when `--debug` is truthy. */
  lemma HandleLogLines(s: State, cfg: Setup, built: string, logs: seq<string>)
    ensures var h := HandleState(s, cfg, built, logs);
            Only(LogLine, h.0.trace[|s.trace|..]) == if Truthy(cfg.debug) then LogEvents(logs) else []
  {
    HandleAdded(s, cfg, built, logs);
    var b, a, r, x, d, t := StageParts(LogLine, s, cfg, built, logs);
    LogLineStages(s, cfg, built, logs);
    OnlyScriptLogs(b + a, r, x, d, t);
  }

  /** What each stage contributes to the relayed log lines. */
  lemma LogLineStages(s: State, cfg: Setup, built: string, logs: seq<string>)
    ensures Only(LogLine, BeforeEvents(cfg)) == []
    ensures Only(LogLine, ArchiveEvents(cfg, ArchivePath(cfg) in s.local)) == []
    ensures Only(LogLine, ReleaseEvents) == []
    ensures Only(LogLine, ScriptEvents(cfg, logs)) == if Truthy(cfg.debug) then LogEvents(logs) else []
    ensures Only(LogLine, [Announce(DefinedStage)] + HandleUploads(s, cfg, built).events) == []
    ensures Only(LogLine, CleanEvents(cfg) + FooterEvents) == []
  {
    OnlyBefore(LogLine, cfg);
    OnlyArchive(LogLine, cfg, ArchivePath(cfg) in s.local);
    OnlyRelease(LogLine);
    OnlyScript(LogLine, cfg, logs);
    OnlyDefined(LogLine, s, cfg, built);
    OnlyTail(LogLine, cfg);
  }

  /**
   * The local archive's life: an old one is deleted before the build, the new one is
   * deleted at clean-up, and no other local file changes. After a complete run no
   * archive is left; after a run stopped by a missing source the new one stays.
   */
  lemma HandleLocalArchive(s: State, cfg: Setup, built: string, logs: seq<string>)
    ensures var h := HandleState(s, cfg, built, logs);
            var path := ArchivePath(cfg);
            Only(LocalFile, h.0.trace[|s.trace|..])
            == (if path in s.local then [LocalDelete(path)] else []) + (if h.1 == Completed then [LocalDelete(path)] else [])
            && (h.1 == Completed ==> path !in h.0.local)
            && (h.1 != Completed ==> path in h.0.local && h.0.local[path] == built)
            && forall p :: p != path ==> (p in h.0.local <==> p in s.local) && (p in s.local ==> h.0.local[p] == s.local[p])
  {
    LocalDeletes(s, cfg, built, logs);
    HandleStores(s, cfg, built, logs);
    var up := HandleUploads(s, cfg, built);
    LocalAfter(s.local, ArchivePath(cfg), built, up.outcome.Completed?);
  }

  /** The local deletions of a run. */
  lemma LocalDeletes(s: State, cfg: Setup, built: string, logs: seq<string>)
    ensures var h := HandleState(s, cfg, built, logs);
            var path := ArchivePath(cfg);
            Only(LocalFile, h.0.trace[|s.trace|..])
            == (if path in s.local then [LocalDelete(path)] else []) + (if h.1 == Completed then [LocalDelete(path)] else [])
  {
    HandleAdded(s, cfg, built, logs);
    HandleStores(s, cfg, built, logs);
    var b, a, r, x, d, t := StageParts(LocalFile, s, cfg, built, logs);
    LocalFileStages(s, cfg, built, logs);
    LocalShape(b, a, r, x, d, t);
  }

  /** The local store after a run, from the archive path's point of view. */
  lemma LocalAfter(local: map<string, string>, path: string, built: string, done: bool)
    ensures var after := if done then local - {path} else local[path := built];
            (done ==> path !in after)
            && (!done ==> path in after && after[path] == built)
            && forall p :: p != path ==> (p in after <==> p in local) && (p in local ==> after[p] == local[p])
  {
  }

  /** What each stage contributes to the local deletions. */
  lemma LocalFileStages(s: State, cfg: Setup, built: string, logs: seq<string>)
    ensures Only(LocalFile, BeforeEvents(cfg)) == []
    ensures Only(LocalFile, ArchiveEvents(cfg, ArchivePath(cfg) in s.local))
         == if ArchivePath(cfg) in s.local then [LocalDelete(ArchivePath(cfg))] else []
    ensures Only(LocalFile, ReleaseEvents) == []
    ensures Only(LocalFile, ScriptEvents(cfg, logs)) == []
    ensures Only(LocalFile, [Announce(DefinedStage)] + HandleUploads(s, cfg, built).events) == []
    ensures Only(LocalFile, CleanEvents(cfg) + FooterEvents) == [LocalDelete(ArchivePath(cfg))]
  {
    OnlyBefore(LocalFile, cfg);
    OnlyArchive(LocalFile, cfg, ArchivePath(cfg) in s.local);
    OnlyRelease(LocalFile);
    OnlyScript(LocalFile, cfg, logs);
    OnlyDefined(LocalFile, s, cfg, built);
    OnlyTail(LocalFile, cfg);
  }

  /** No configured upload writes this disk key. */
  predicate Untouched(ups: seq<(string, string)>, key: string) {
    forall i :: 0 <= i < |ups| ==> DiskKey(ups[i].1) != key
  }

  /**
   * The disk after a run, as far as the command's own disk operations go: the script it
   * runs on the server purges old files and removes the archive, which is not tracked here.
   * The command completes exactly when every upload source exists
   * (the archive just built counts). Unless an upload overwrites them, the archive holds
   * the built content and the script is gone; every key no stage writes keeps its old
   * content; and after a complete run each upload destination holds the content of the
   * last upload to it.
   */
  lemma HandleDisk(s: State, cfg: Setup, built: string, logs: seq<string>)
    ensures var h := HandleState(s, cfg, built, logs);
            var local := BuiltLocal(s, cfg, built);
            var ups := cfg.server.uploads;
            (h.1 == Completed <==> AllSourcesPresent(local, ups))
            && (h.1.MissingLocalFile? ==> h.1.path !in local && exists i :: 0 <= i < |ups| && ups[i].0 == h.1.path)
            && (Untouched(ups, ScriptUploadPath) ==> ScriptUploadPath !in h.0.disk)
            && (Untouched(ups, ArchiveName) ==> ArchiveName in h.0.disk && h.0.disk[ArchiveName] == built)
            && (forall key :: key != ArchiveName && key != ScriptUploadPath && Untouched(ups, key) ==>
                  (key in h.0.disk <==> key in s.disk) && (key in s.disk ==> h.0.disk[key] == s.disk[key]))
            && (h.1 == Completed ==> forall i :: 0 <= i < |ups| && LastWriter(ups, i) ==>
                  DiskKey(ups[i].1) in h.0.disk && h.0.disk[DiskKey(ups[i].1)] == local[ups[i].0])
  {
    var code := DeploymentCode(ScriptTemplate(cfg));
    assert ScriptRunDisk(s, cfg, built) == s.disk[ArchiveName := built][ScriptUploadPath := code] - {ScriptUploadPath} by {
      ReleasePuts(s.disk, built, cfg);
      ReleaseKeys();
    }
    HandleStores(s, cfg, built, logs);
    UploadsOver(s.disk, BuiltLocal(s, cfg, built), cfg.server.uploads, built, code);
  }

  /** HandleDisk for any disk the release files were put on and the script deleted from. */
  lemma UploadsOver(disk: map<string, string>, local: map<string, string>, ups: seq<(string, string)>, built: string, code: string)
    ensures var d := disk[ArchiveName := built][ScriptUploadPath := code] - {ScriptUploadPath};
            var r := UploadRun(d, local, ups);
            (r.outcome == Completed <==> AllSourcesPresent(local, ups))
            && (r.outcome.MissingLocalFile? ==> r.outcome.path !in local && exists i :: 0 <= i < |ups| && ups[i].0 == r.outcome.path)
            && (Untouched(ups, ScriptUploadPath) ==> ScriptUploadPath !in r.disk)
            && (Untouched(ups, ArchiveName) ==> ArchiveName in r.disk && r.disk[ArchiveName] == built)
            && (forall key :: key != ArchiveName && key != ScriptUploadPath && Untouched(ups, key) ==>
                  (key in r.disk <==> key in disk) && (key in disk ==> r.disk[key] == disk[key]))
            && (r.outcome == Completed ==> forall i :: 0 <= i < |ups| && LastWriter(ups, i) ==>
                  DiskKey(ups[i].1) in r.disk && r.disk[DiskKey(ups[i].1)] == local[ups[i].0])
  {
    var d := disk[ArchiveName := built][ScriptUploadPath := code] - {ScriptUploadPath};
    ReleaseDisk(disk, built, code);
    UploadOutcome(d, local, ups);
    UploadFrame(d, local, ups);
    UploadLastWrites(d, local, ups);
  }

  /** The disk once the release files are put and the script deleted. */
  lemma ReleaseDisk(disk: map<string, string>, built: string, code: string)
    ensures var d := disk[ArchiveName := built][ScriptUploadPath := code] - {ScriptUploadPath};
            ScriptUploadPath !in d && ArchiveName in d && d[ArchiveName] == built
            && forall key :: key != ArchiveName && key != ScriptUploadPath ==>
                 (key in d <==> key in disk) && (key in disk ==> d[key] == disk[key])
  {
    ReleaseKeys();
  }

  /** How the uploads end, whatever the disk. */
  lemma UploadOutcome(d: map<string, string>, local: map<string, string>, ups: seq<(string, string)>)
    ensures var r := UploadRun(d, local, ups);
            (r.outcome == Completed <==> AllSourcesPresent(local, ups))
            && (r.outcome.MissingLocalFile? ==> r.outcome.path !in local && exists i :: 0 <= i < |ups| && ups[i].0 == r.outcome.path)
  {
    UploadRunOutcome(d, local, ups);
    var r := UploadRun(d, local, ups);
    if r.outcome.MissingLocalFile? {
      assert ups[|r.events|].0 == r.outcome.path;
    }
  }

  /** Keys no upload writes keep their content. */
  lemma UploadFrame(d: map<string, string>, local: map<string, string>, ups: seq<(string, string)>)
    ensures var r := UploadRun(d, local, ups);
            forall key :: Untouched(ups, key) ==> (key in r.disk <==> key in d) && (key in d ==> r.disk[key] == d[key])
  {
    var r := UploadRun(d, local, ups);
    forall key | Untouched(ups, key)
      ensures (key in r.disk <==> key in d) && (key in d ==> r.disk[key] == d[key])
    {
      UploadRunFrame(d, local, ups, key);
    }
  }

  /** After complete uploads the last upload to a key decides its content. */
  lemma UploadLastWrites(d: map<string, string>, local: map<string, string>, ups: seq<(string, string)>)
    ensures var r := UploadRun(d, local, ups);
            r.outcome == Completed ==> AllSourcesPresent(local, ups) && forall i :: 0 <= i < |ups| && LastWriter(ups, i) ==>
              DiskKey(ups[i].1) in r.disk && r.disk[DiskKey(ups[i].1)] == local[ups[i].0]
  {
    UploadRunOutcome(d, local, ups);
    var r := UploadRun(d, local, ups);
    if r.outcome == Completed {
      forall i | 0 <= i < |ups| && LastWriter(ups, i)
        ensures DiskKey(ups[i].1) in r.disk && r.disk[DiskKey(ups[i].1)] == local[ups[i].0]
      {
        UploadRunLastWrite(d, local, ups, i);
      }
    }
  }
}
