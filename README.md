# tunasync rsync provider, modelled in Dafny

This project models the rsync-based sync job of the tunasync worker
(`worker/rsync_provider.go`). The job turns a mirror's configuration into one
rsync invocation. It lets at most one run of the job be in flight, and after a
run it reads the transferred-data size from rsync's log.

- `wrappers.dfy`: module `Wrappers`, with `Option` (also Go's nil-or-error) and `Result`.
- `rsync_provider.dfy`: module `Worker`. It contains:
  - the configuration record `RsyncConfig` and the error kinds `Error`;
  - `Normalize`, the validation and defaulting done by `newRsyncProvider`;
  - `Options`, the rsync argument list built at construction;
  - `Env`, `Command` and `Job`, the process description Start builds;
  - `StartStep` and `RunStep`, pure specifications of one Start and one Run;
  - the class `RsyncProvider`, whose `Start` and `Run` methods change
    `running`, `cmd` and `dataSize` in place and are proved equal to those
    specifications;
  - `NewRsyncProvider`, which validates the configuration and grows the
    options by successive appends.

The process launcher, the log-file preparation, the wait for the process, the
reading of the log file and the log-size parser are collaborators outside this
file. Start and Run take their outcomes as parameters. An outcome is
`Option<string>`: `None` is success, `Some(cause)` an error returned unchanged.
Wait belongs to the shared provider code, so Run also takes the value of
`running` that Wait leaves behind as a parameter, `runningAfterWait`.
The log contents are `Option<seq<byte>>`, with `None` for an unreadable file.
The size parser is a function parameter `extract`. The system-wide retry
default `defaultMaxRetry` is declared outside this file, so it is a parameter
of `Normalize` and `NewRsyncProvider`.

`RsyncProvider.Type`, `RsyncProvider.Upstream` and `RsyncProvider.DataSize` are
plain reads, modelled as functions. `Run`'s contract states what `DataSize()`
holds after a run.

Two details of the code are kept as written:
- Start records the new process description in `cmd` before it prepares the
  log file. So `cmd` is replaced even when log preparation or the launch then
  fails, although `running` stays false.
- Run clears `dataSize` before it calls Start. A Run refused because the job is
  already running therefore still empties the size.

## Model

| member | source | states |
|---|---|---|
| `Worker.Normalize` | worker/rsync_provider.go:33-51 | fails with `InvalidUpstream` exactly when the URL does not end in `/`; on success retry is the default iff it was 0, an empty command becomes `rsync`, a non-empty one is kept, all other settings unchanged |
| `Worker.NormalizeIdempotent` | worker/rsync_provider.go:36-51 | normalising a normalised configuration gives the same result |
| `Worker.Options` | worker/rsync_provider.go:53-72 | length is 12 + family flag + exclude pair + extras; first 12 are the baseline flags in order; slot 12 holds `-6` iff IPv6, `-4` iff IPv4 and not IPv6, never both; `--exclude-from <file>` follows iff a file is set; the extra options are the exact suffix |
| `Worker.Env` | worker/rsync_provider.go:115-121 | keys only `USER` and `RSYNC_PASSWORD`; `USER` present iff a username is set, `RSYNC_PASSWORD` iff a password is set, holding those values |
| `Worker.Command` | worker/rsync_provider.go:122-124 | the command is the binary, then the options unchanged, then the upstream URL and the working directory, length options + 3 |
| `Worker.Job` | worker/rsync_provider.go:122-126 | the command has length options + 3: the configured binary, the options unchanged, the upstream URL second to last, and the configured working directory last; the process runs in that directory; the environment is `Env` of the credentials |
| `Worker.CredentialsOnlyInEnv` | worker/rsync_provider.go:115-124 | changing username or password changes neither the options nor the command nor the directory, only the environment |
| `Worker.StartStep` | worker/rsync_provider.go:111-134 | a running job is refused with `AlreadyRunning` and nothing changed; otherwise the job is recorded; a log-preparation or launch error is returned unchanged and leaves the job not running; success iff both succeed, and only success marks it running |
| `Worker.AtMostOneLaunch` | worker/rsync_provider.go:111-134 | over any sequence of Start calls without completion at most one launches; from a running state none does and the state is untouched; after the one launch the state is running with this job |
| `Worker.RunStep` | worker/rsync_provider.go:93-105 | on a Start error the state is Start's; after a launch the job is recorded and `running` is what Wait left; Start's error, else the wait error, is returned unchanged; the size is empty on any error or unreadable log, else the extractor's result; a running job gives `AlreadyRunning` with the size cleared |
| `Worker.NextRunAfterWait` | worker/rsync_provider.go:93-113 | after a launched run, the next Run is refused with `AlreadyRunning` exactly when Wait left `running` set; if Wait cleared it and every collaborator succeeds, the next Run succeeds |
| `Worker.LogReadIsBestEffort` | worker/rsync_provider.go:101-104 | whether the log can be read changes neither the run's error nor its state; unread means an empty size |
| `Worker.RsyncProvider.constructor` | worker/rsync_provider.go:39-47 | given a validated configuration and its options, a new provider is valid, holds the given configuration and options, is not running, has no process and an empty size |
| `Worker.RsyncProvider.Type` | worker/rsync_provider.go:81-83 | the kind tag is always `ProvRsync` |
| `Worker.RsyncProvider.DataSize` | worker/rsync_provider.go:89-91 | returns the stored size of the last run, changing nothing |
| `Worker.RsyncProvider.Upstream` | worker/rsync_provider.go:85-87 | returns the configured upstream URL, which ends in `/` |
| `Worker.RsyncProvider.Start` | worker/rsync_provider.go:107-136 | the new `running`, `cmd` and the returned error are exactly `StartStep` of the old state and the job built from the configuration and options |
| `Worker.RsyncProvider.Run` | worker/rsync_provider.go:93-105 | the new state, `DataSize()` and the returned error are exactly `RunStep` of the old state |
| `Worker.NewRsyncProvider` | worker/rsync_provider.go:31-79 | fails with `InvalidUpstream` iff `Normalize` fails; otherwise a fresh valid provider with the normalised configuration, options equal to `Options`, not running, no process, empty size |
| `Worker.ScenarioNoTrailingSlash` | worker/rsync_provider.go:33-35 | `rsync://host/mod` is rejected |
| `Worker.ScenarioExtraOption` | worker/rsync_provider.go:53-72 | with no family flag and no exclude file, `--bwlimit=1000` follows `--contimeout=120` and precedes the URL and the working directory |
| `Worker.ScenarioUnreadableLog` | worker/rsync_provider.go:101-104 | a run that launches and exits cleanly but whose log is unreadable succeeds with an empty size and records the job, whatever Wait leaves in `running` |

## Left out

- The lock (`p.Lock`/`p.Unlock`) and the atomic store to `isRunning`: concurrency primitives. `running` is a plain boolean field, and each method runs as one atomic step.
- Resetting `running` after the process exits: this happens in `baseProvider.Wait` and the command job, which are not part of this model. The model does not fix what Wait does to `running`: the value it leaves is the parameter `runningAfterWait`.
- Spawning and waiting for the process (`newCmdJob`, `p.cmd.Start`, `p.Wait`): OS calls. Their outcomes are parameters, and `newCmdJob` is the value `CmdJob(command, workingDir, env)`.
- `prepareLogFile` and `ioutil.ReadFile`: file I/O, whose outcomes are parameters. The log path (`p.LogFile()`) is not modelled.
- `internal.ExtractSizeFromRsyncLog`: the log parser is not part of this model. It is the function parameter `extract`.
- The context store (`NewContext`, `ctx.Set` of the working, log-directory and log-file paths) and `baseProvider`'s copies of name, interval and retry. Their definitions are not part of this model. Start reads the working directory back from the context store (`p.WorkingDir()`); the model takes it to be the configured `workingDir`, which is what construction stores there.
- Error message texts: the two errors the file creates are the constructors `InvalidUpstream` and `AlreadyRunning`, not strings.
- Go's nil versus empty `extraOptions`: both append nothing, so both are the empty sequence.
