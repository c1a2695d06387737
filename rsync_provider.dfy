/**
 * The rsync-based sync job of the tunasync worker: configuration
 * normalisation, the rsync argument list, and the Start/Run state machine.
 *
 * Collaborators outside this file are parameters: the outcome of preparing
 * the log file, of launching and of waiting for the process, the bytes read
 * back from the log file, and the log-size extractor.
 */
module Worker {
  import opened Wrappers

  /** A byte of the log file. */
  newtype byte = b: int | 0 <= b < 256

  /** The job's declarative settings (`rsyncConfig`). */
  datatype RsyncConfig = RsyncConfig(
    name: string,
    rsyncCmd: string,
    upstreamURL: string,
    username: string,
    password: string,
    excludeFile: string,
    extraOptions: seq<string>,
    workingDir: string,
    logDir: string,
    logFile: string,
    useIPv6: bool,
    useIPv4: bool,
    interval: int,
    retry: int)

  /** The errors this job reports. `External` carries, unchanged, an error
      returned by a collaborator (log preparation, launch, wait). */
  datatype Error =
    | InvalidUpstream   // "rsync upstream URL should ends with /"
    | AlreadyRunning    // "provider is currently running"
    | External(cause: string)

  /** The job kinds a worker dispatches over. `ProvRsync` is this job's kind;
      the other two stand for sibling job kinds defined elsewhere in the worker. */
  datatype ProviderEnum = ProvRsync | ProvTwoStageRsync | ProvCommand

  /** Go's `strings.HasSuffix`, as the code calls it; `EndsWithSlash` below is
      the same test stated directly, used in contracts. */
  predicate HasSuffix(s: string, suffix: string)
  {
    |suffix| <= |s| && s[|s| - |suffix|..] == suffix
  }

  /** True when the URL denotes a directory: its last character is `/`. */
  predicate EndsWithSlash(url: string)
  {
    |url| > 0 && url[|url| - 1] == '/'
  }

  /**
   * The validation and defaulting done by `newRsyncProvider` before the
   * provider is built: a missing trailing slash is an error, a zero retry
   * count becomes `defaultMaxRetry`, an empty command becomes "rsync", and
   * every other setting is kept.
   */
  function Normalize(c: RsyncConfig, defaultMaxRetry: int): (r: Result<RsyncConfig, Error>)
    ensures r.Failure? <==> !EndsWithSlash(c.upstreamURL)
    ensures r.Failure? ==> r.error == InvalidUpstream
    ensures r.Success? ==> r.value.retry == (if c.retry == 0 then defaultMaxRetry else c.retry)
    ensures r.Success? ==> r.value.rsyncCmd != "" && (c.rsyncCmd != "" ==> r.value.rsyncCmd == c.rsyncCmd)
    ensures r.Success? && c.rsyncCmd == "" ==> r.value.rsyncCmd == "rsync"
    ensures r.Success? ==> r.value.(retry := c.retry, rsyncCmd := c.rsyncCmd) == c
  {
    if !HasSuffix(c.upstreamURL, "/") then
      Failure(InvalidUpstream)
    else
      var retry := if c.retry == 0 then defaultMaxRetry else c.retry;
      var rsyncCmd := if c.rsyncCmd == "" then "rsync" else c.rsyncCmd;
      Success(c.(retry := retry, rsyncCmd := rsyncCmd))
  }

  /** Normalising an already normalised configuration changes nothing. */
  lemma NormalizeIdempotent(c: RsyncConfig, defaultMaxRetry: int)
    requires Normalize(c, defaultMaxRetry).Success?
    ensures Normalize(Normalize(c, defaultMaxRetry).value, defaultMaxRetry) == Normalize(c, defaultMaxRetry)
  {
  }

  /** The flags every rsync invocation starts with, in this order. */
  const BaselineOptions: seq<string> := [
    "-aHvh", "--no-o", "--no-g", "--stats",
    "--exclude", ".~tmp~/",
    "--delete", "--delete-after", "--delay-updates",
    "--safe-links", "--timeout=120", "--contimeout=120"
  ]

  /** How many address-family flags the options hold (0 or 1). */
  function FamilyLen(c: RsyncConfig): nat
  {
    if c.useIPv6 || c.useIPv4 then 1 else 0
  }

  /** How many slots `--exclude-from <file>` takes (0 or 2). */
  function ExcludeLen(c: RsyncConfig): nat
  {
    if c.excludeFile != "" then 2 else 0
  }

  /** The address-family flag: `-6` when IPv6 is forced, else `-4` when IPv4 is. */
  function FamilyFlag(c: RsyncConfig): seq<string>
  {
    if c.useIPv6 then ["-6"] else if c.useIPv4 then ["-4"] else []
  }

  /** The exclude-file option pair, when an exclude file is set. */
  function ExcludeFrom(c: RsyncConfig): seq<string>
  {
    if c.excludeFile != "" then ["--exclude-from", c.excludeFile] else []
  }

  /**
   * The rsync options derived once from the configuration: the baseline,
   * then at most one address-family flag (`-6` wins over `-4`), then
   * `--exclude-from <file>` when an exclude file is set, then the caller's
   * extra options verbatim. Credentials take no part in it.
   */
  function Options(c: RsyncConfig): (r: seq<string>)
    ensures |r| == |BaselineOptions| + FamilyLen(c) + ExcludeLen(c) + |c.extraOptions|
    ensures r[..12] == BaselineOptions
    ensures "-6" in r[12..12 + FamilyLen(c)] <==> c.useIPv6
    ensures "-4" in r[12..12 + FamilyLen(c)] <==> c.useIPv4 && !c.useIPv6
    ensures !("-6" in r[12..12 + FamilyLen(c)] && "-4" in r[12..12 + FamilyLen(c)])
    ensures c.excludeFile != "" ==>
      r[12 + FamilyLen(c)..12 + FamilyLen(c) + 2] == ["--exclude-from", c.excludeFile]
    ensures r[12 + FamilyLen(c) + ExcludeLen(c)..] == c.extraOptions
  {
    var withFamily := BaselineOptions + FamilyFlag(c);
    var withExclude := withFamily + ExcludeFrom(c);
    var r := withExclude + c.extraOptions;
    assert |BaselineOptions| == 12 && |FamilyFlag(c)| == FamilyLen(c) && |ExcludeFrom(c)| == ExcludeLen(c);
    assert r[..|withExclude|] == withExclude;
    assert withExclude[..|withFamily|] == withFamily;
    assert r[..12] == withFamily[..12] == BaselineOptions;
    assert r[12..12 + FamilyLen(c)] == withFamily[12..] == FamilyFlag(c);
    assert r[12 + FamilyLen(c)..|withExclude|] == withExclude[|withFamily|..] == ExcludeFrom(c);
    r
  }

  /** The environment of the rsync process: credentials go only here. */
  function Env(username: string, password: string): (env: map<string, string>)
    ensures env.Keys <= {"USER", "RSYNC_PASSWORD"}
    ensures "USER" in env <==> username != ""
    ensures "RSYNC_PASSWORD" in env <==> password != ""
    ensures "USER" in env ==> env["USER"] == username
    ensures "RSYNC_PASSWORD" in env ==> env["RSYNC_PASSWORD"] == password
  {
    var withUser: map<string, string> := if username != "" then map["USER" := username] else map[];
    if password != "" then withUser["RSYNC_PASSWORD" := password] else withUser
  }

  /** The command vector: the binary, the options, the source and the target. */
  function Command(rsyncCmd: string, options: seq<string>, upstreamURL: string, workingDir: string): (command: seq<string>)
    ensures |command| == |options| + 3
    ensures command[0] == rsyncCmd
    ensures command[1..|options| + 1] == options
    ensures command[|options| + 1] == upstreamURL && command[|options| + 2] == workingDir
  {
    [rsyncCmd] + options + [upstreamURL, workingDir]
  }

  /** The process a Start hands to the launcher (`newCmdJob`). */
  datatype CmdJob = CmdJob(command: seq<string>, workingDir: string, env: map<string, string>)

  /** The process description Start builds from a configuration and its options
      (`newCmdJob`): rsync copies from the upstream URL, its second-to-last
      argument, into the working directory, which is its last argument and the
      directory it runs in; the credentials are in its environment. */
  function Job(c: RsyncConfig, options: seq<string>): (j: CmdJob)
    ensures j.workingDir == c.workingDir
    ensures |j.command| == |options| + 3 && j.command[0] == c.rsyncCmd
    ensures j.command[|j.command| - 2] == c.upstreamURL
    ensures j.command[|j.command| - 1] == j.workingDir
    ensures j.command[1..|options| + 1] == options
    ensures j.env == Env(c.username, c.password)
  {
    CmdJob(Command(c.rsyncCmd, options, c.upstreamURL, c.workingDir), c.workingDir, Env(c.username, c.password))
  }

  /** Credentials reach the process environment only: the command vector and
      directory of the job do not depend on them. */
  lemma CredentialsOnlyInEnv(c: RsyncConfig, username: string, password: string)
    ensures var c' := c.(username := username, password := password);
      && Options(c') == Options(c)
      && Job(c', Options(c')).command == Job(c, Options(c)).command
      && Job(c', Options(c')).workingDir == Job(c, Options(c)).workingDir
      && Job(c', Options(c')).env == Env(username, password)
  {
  }

  /** The outcomes of Start's two collaborators: preparing the log file and
      launching the process; `Some(cause)` is the error either returned. */
  datatype LaunchOutcome = LaunchOutcome(prepareLog: Option<string>, launch: Option<string>)

  /** The part of the provider's state that Start changes. */
  datatype RunState = RunState(running: bool, cmd: Option<CmdJob>)

  datatype StartOutcome = StartOutcome(state: RunState, err: Option<Error>)

  /**
   * One call of Start from state `s`, with `job` the process it would build.
   * A running job is refused with nothing changed; otherwise the job is
   * recorded, and the job is marked running only when both log preparation
   * and launch succeed.
   */
  function StartStep(s: RunState, job: CmdJob, o: LaunchOutcome): (r: StartOutcome)
    ensures s.running ==> r == StartOutcome(s, Some(AlreadyRunning))
    ensures !s.running ==> r.state.cmd == Some(job)
    ensures !s.running && o.prepareLog.Some? ==> r.err == Some(External(o.prepareLog.value))
    ensures !s.running && o.prepareLog.None? && o.launch.Some? ==> r.err == Some(External(o.launch.value))
    ensures r.err.None? <==> !s.running && o.prepareLog.None? && o.launch.None?
    ensures r.state.running <==> s.running || r.err.None?
  {
    if s.running then
      StartOutcome(s, Some(AlreadyRunning))
    else if o.prepareLog.Some? then
      StartOutcome(RunState(false, Some(job)), Some(External(o.prepareLog.value)))
    else if o.launch.Some? then
      StartOutcome(RunState(false, Some(job)), Some(External(o.launch.value)))
    else
      StartOutcome(RunState(true, Some(job)), None)
  }

  /** Repeated calls of Start with no completion in between: the final state
      and how many of the calls launched a process. */
  ghost function StartMany(s: RunState, job: CmdJob, outcomes: seq<LaunchOutcome>): (RunState, nat)
    decreases |outcomes|
  {
    if outcomes == [] then (s, 0)
    else
      var first := StartStep(s, job, outcomes[0]);
      var rest := StartMany(first.state, job, outcomes[1..]);
      (rest.0, rest.1 + if first.err.None? then 1 else 0)
  }

  /**
   * At most one run is in flight: however many times Start is called
   * without the process completing, at most one call launches it; once
   * running, every further call is refused and leaves the launched job alone.
   */
  lemma {:induction false} AtMostOneLaunch(s: RunState, job: CmdJob, outcomes: seq<LaunchOutcome>)
    ensures s.running ==> StartMany(s, job, outcomes) == (s, 0)
    ensures StartMany(s, job, outcomes).1 <= 1
    ensures StartMany(s, job, outcomes).1 == 1 ==> StartMany(s, job, outcomes).0 == RunState(true, Some(job))
    decreases |outcomes|
  {
    if outcomes != [] {
      var first := StartStep(s, job, outcomes[0]);
      AtMostOneLaunch(first.state, job, outcomes[1..]);
    }
  }

  datatype RunOutcome = RunOutcome(state: RunState, dataSize: string, err: Option<Error>)

  /**
   * One call of Run: the data size is cleared, Start's error or the wait
   * error is returned as is, and only after a run that succeeded is the log
   * read; a log that cannot be read (`log == None`) leaves the size empty
   * without failing the run.
   */
  function RunStep(s: RunState, job: CmdJob, o: LaunchOutcome, waitErr: Option<string>, runningAfterWait: bool,
                   log: Option<seq<byte>>, extract: seq<byte> -> string): (r: RunOutcome)
    ensures StartStep(s, job, o).err.Some? ==> r.state == StartStep(s, job, o).state
    ensures StartStep(s, job, o).err.None? ==> r.state == RunState(runningAfterWait, Some(job))
    ensures StartStep(s, job, o).err.Some? ==> r.err == StartStep(s, job, o).err
    ensures StartStep(s, job, o).err.None? && waitErr.Some? ==> r.err == Some(External(waitErr.value))
    ensures r.err.None? <==> StartStep(s, job, o).err.None? && waitErr.None?
    ensures r.err.Some? || log.None? ==> r.dataSize == ""
    ensures r.err.None? && log.Some? ==> r.dataSize == extract(log.value)
    ensures s.running ==> r == RunOutcome(s, "", Some(AlreadyRunning))
  {
    var started := StartStep(s, job, o);
    if started.err.Some? then
      RunOutcome(started.state, "", started.err)
    else
      var waited := started.state.(running := runningAfterWait);
      if waitErr.Some? then
        RunOutcome(waited, "", Some(External(waitErr.value)))
      else
        RunOutcome(waited, if log.Some? then extract(log.value) else "", None)
  }

  /** Whether a later run can start depends only on what Wait left in
      `running`: when Wait clears it, the next Run is not refused, and when
      Wait leaves it set, the next Run is refused with the size cleared. */
  lemma NextRunAfterWait(s: RunState, job: CmdJob, o: LaunchOutcome, waitErr: Option<string>, runningAfterWait: bool,
                         log: Option<seq<byte>>, extract: seq<byte> -> string,
                         o2: LaunchOutcome, waitErr2: Option<string>, runningAfterWait2: bool, log2: Option<seq<byte>>)
    requires StartStep(s, job, o).err.None?
    ensures var first := RunStep(s, job, o, waitErr, runningAfterWait, log, extract);
            var second := RunStep(first.state, job, o2, waitErr2, runningAfterWait2, log2, extract);
            && (second.err == Some(AlreadyRunning) <==> runningAfterWait)
            && (!runningAfterWait && o2.prepareLog.None? && o2.launch.None? && waitErr2.None? ==> second.err.None?)
  {
  }

  /** Reading the log is best effort: whether it succeeds never changes the
      run's error or state, only the reported size. */
  lemma LogReadIsBestEffort(s: RunState, job: CmdJob, o: LaunchOutcome, waitErr: Option<string>, runningAfterWait: bool,
                            content: seq<byte>, extract: seq<byte> -> string)
    ensures var unread := RunStep(s, job, o, waitErr, runningAfterWait, None, extract);
            var read := RunStep(s, job, o, waitErr, runningAfterWait, Some(content), extract);
            unread.err == read.err && unread.state == read.state && unread.dataSize == ""
  {
  }

  /**
   * The provider of one rsync job. The configuration and the options are
   * fixed at construction; `running`, `cmd` and `dataSize` change per run.
   */
  class RsyncProvider {
    const config: RsyncConfig
    const options: seq<string>
    var running: bool
    var cmd: Option<CmdJob>
    var dataSize: string

    /** The configuration was validated and normalised, and the options derive from it. */
    ghost predicate Valid()
      reads this
    {
      && EndsWithSlash(config.upstreamURL)
      && config.rsyncCmd != ""
      && options == Options(config)
    }

    /** The provider record built by `newRsyncProvider`, not yet started. */
    constructor (config: RsyncConfig, options: seq<string>)
      requires EndsWithSlash(config.upstreamURL) && config.rsyncCmd != "" && options == Options(config)
      ensures Valid()
      ensures this.config == config && this.options == options
      ensures !running && cmd == None && dataSize == ""
    {
      this.config := config;
      this.options := options;
      running := false;
      cmd := None;
      dataSize := "";
    }

    /** The kind tag: this provider is always an rsync job. */
    function Type(): (t: ProviderEnum)
      ensures t == ProvRsync
    {
      ProvRsync
    }

    /** The source URL; it always denotes a directory. */
    function Upstream(): (url: string)
      reads this
      requires Valid()
      ensures url == config.upstreamURL
      ensures EndsWithSlash(url)
    {
      config.upstreamURL
    }

    /** The size measured by the last completed run, read without changing anything. */
    function DataSize(): (size: string)
      reads this
      ensures size == dataSize
    {
      dataSize
    }

    /** The run state Start and Run act on. */
    function State(): RunState
      reads this
    {
      RunState(running, cmd)
    }

    /** Start the rsync process unless this job is already running. */
    method Start(o: LaunchOutcome) returns (err: Option<Error>)
      requires Valid()
      modifies this`running, this`cmd
      ensures Valid()
      ensures StartOutcome(State(), err) == StartStep(old(State()), Job(config, options), o)
    {
      if running {
        return Some(AlreadyRunning);
      }
      var env: map<string, string> := map[];
      if config.username != "" {
        env := env["USER" := config.username];
      }
      if config.password != "" {
        env := env["RSYNC_PASSWORD" := config.password];
      }
      var command := [config.rsyncCmd];
      command := command + options;
      command := command + [config.upstreamURL, config.workingDir];
      cmd := Some(CmdJob(command, config.workingDir, env));
      if o.prepareLog.Some? {
        return Some(External(o.prepareLog.value));
      }
      if o.launch.Some? {
        return Some(External(o.launch.value));
      }
      running := true;
      err := None;
    }

    /**
     * One whole run: start, wait for the process, then read the size from
     * the log. Wait belongs to the shared provider code; its error and the
     * `running` flag it leaves behind are parameters.
     */
    method Run(o: LaunchOutcome, waitErr: Option<string>, runningAfterWait: bool,
               log: Option<seq<byte>>, extract: seq<byte> -> string)
      returns (err: Option<Error>)
      requires Valid()
      modifies this
      ensures Valid()
      ensures RunOutcome(State(), DataSize(), err)
           == RunStep(old(State()), Job(config, options), o, waitErr, runningAfterWait, log, extract)
    {
      dataSize := "";
      err := Start(o);
      if err.Some? {
        return;
      }
      running := runningAfterWait;
      if waitErr.Some? {
        return Some(External(waitErr.value));
      }
      if log.Some? {
        dataSize := extract(log.value);
      }
    }
  }

  /**
   * `newRsyncProvider`: validate and normalise the configuration, then
   * build the options by successive appends.
   */
  method NewRsyncProvider(c: RsyncConfig, defaultMaxRetry: int) returns (r: Result<RsyncProvider, Error>)
    ensures Normalize(c, defaultMaxRetry).Failure? ==> r == Failure(InvalidUpstream)
    ensures Normalize(c, defaultMaxRetry).Success? ==>
      && r.Success? && fresh(r.value) && r.value.Valid()
      && r.value.config == Normalize(c, defaultMaxRetry).value
      && r.value.options == Options(c)
      && r.value.State() == RunState(false, None) && r.value.DataSize() == ""
  {
    if !HasSuffix(c.upstreamURL, "/") {
      return Failure(InvalidUpstream);
    }
    var config := c;
    if config.retry == 0 {
      config := config.(retry := defaultMaxRetry);
    }
    if config.rsyncCmd == "" {
      config := config.(rsyncCmd := "rsync");
    }
    var options := BaselineOptions;
    if c.useIPv6 {
      options := options + ["-6"];
    } else if c.useIPv4 {
      options := options + ["-4"];
    }
    assert options == BaselineOptions + FamilyFlag(c);
    if c.excludeFile != "" {
      options := options + ["--exclude-from", c.excludeFile];
    }
    assert options == BaselineOptions + FamilyFlag(c) + ExcludeFrom(c);
    options := options + c.extraOptions;
    assert Options(config) == options == Options(c);
    var provider := new RsyncProvider(config, options);
    return Success(provider);
  }

  /** A configuration whose URL lacks the trailing slash is rejected. */
  lemma ScenarioNoTrailingSlash(c: RsyncConfig, d: int)
    requires c.upstreamURL == "rsync://host/mod"
    ensures Normalize(c, d) == Failure(InvalidUpstream)
  {
  }

  /** With no address-family flag and no exclude file, the extra options
      follow the baseline directly and precede the source and target. */
  lemma ScenarioExtraOption(c: RsyncConfig, d: int)
    requires c.upstreamURL == "rsync://host/mod/" && c.excludeFile == ""
    requires !c.useIPv6 && !c.useIPv4 && c.extraOptions == ["--bwlimit=1000"]
    ensures Normalize(c, d).Success?
    ensures var cmd := Job(Normalize(c, d).value, Options(c)).command;
      |cmd| == 16 && cmd[10..] == ["--safe-links", "--timeout=120", "--contimeout=120",
                                   "--bwlimit=1000", "rsync://host/mod/", c.workingDir]
  {
  }

  /** A run whose log cannot be read still succeeds, with an empty size. */
  lemma ScenarioUnreadableLog(job: CmdJob, runningAfterWait: bool, extract: seq<byte> -> string)
    ensures var r := RunStep(RunState(false, None), job, LaunchOutcome(None, None), None, runningAfterWait, None, extract);
      r.err == None && r.dataSize == "" && r.state.cmd == Some(job)
  {
  }
}
