# blah_job_registry_lkup, modelled in Dafny

`blah_job_registry_lkup` is the BLAH command that looks up one entry of the job registry and prints it as a classad. Given `-n`, it prints instead the `host:port` where asynchronous job-status notifications are sent. Every outcome is one line on standard output and an exit code:

- results are prefixed `0`;
- failures are prefixed `1ERROR`;
- the endpoint line has no prefix.

This project models the tool's `main`. It covers:

- the scan of the leading flag tokens;
- reading the configuration;
- the endpoint branch;
- the precedence of the registry path: the `BLAH_JOB_REGISTRY_FILE` environment variable, then the `job_registry` config key, then `$HOME/blah_job_registry.bjr`, with `.` for an unset `HOME`;
- opening the registry and fetching the entry;
- clearing the worker-node address unless `-w` is given;
- serialising the entry and printing it;
- the frees and destroys on every exit path.

Files and what they hold:

- `invocation.dfy` (`Invocation`): the command line as C reads it. Only the first two characters of a token are examined. The reference definition of the flag scan is `ParseOptions`, with `FirstNonFlag` and `HasFlagIn`.
- `settings.dfy` (`Settings`): configuration and environment lookups. Also the registry-path precedence (`ChooseRegistryPath`, `RegistryFile`) and the endpoint choice (`ResolveEndpoint`).
- `registry.dfy` (`Registry`): the registry as the tool sees it:
  - entries indexed by BLAH id or batch id;
  - the entry record, whose `wn_addr` is a NUL-terminated buffer;
  - the redaction that writes NUL into its first character.
- `resources.dfy` (`Resources`): the events by which the tool obtains and gives back the config handle, the malloc'd default path, the registry handle, the entry and the classad string. A trace of these events is replayed on a ledger. `Disciplined` means no double free, nothing released that was not obtained, and nothing still held at exit.
- `lkup.dfy` (`RegistryLkup`):
  - the reference decision `Classify`, from an invocation and the answers of the tool's collaborators (`World`) to a `Verdict`;
  - the rendering of a verdict: `Line` gives the line and `ExitCode` the code;
  - `Run`, which is `main` written out imperatively. It keeps the same locals, loop and early returns, with the endpoint branch, path resolution and lookup split out as methods. It carries a ghost trace of what it obtains and releases, and is proved to print `Render(argv[0], Classify(argv, w))`.
- `outcomes.dfy` (`LkupOutcomes`): what each kind of invocation ends with, stated on `Classify` and `Render`.
- `wrappers.dfy` (`Wrappers`): `Option`.

The collaborators the tool calls are inputs, held in the fields of `World`:

| collaborator | field of `World` |
|---|---|
| `getenv` | `env` |
| `config_read` and `config_get` | `config`, an optional key/value map |
| `uname` | `nodename` |
| `malloc` of the default path | `mallocOk` |
| `job_registry_init` | `stores`: it succeeds exactly when the path is a key of the map |
| `job_registry_get` | `Get`: the entry under the key in the index of the mode the registry was opened with (an assumption about the registry, not a proved property) |
| `strerror(errno)` | `initError` and `getError` |
| `job_registry_entry_as_classad` | `serialize` |

Where the tool's own usage line (src/blah_job_registry_lkup.c:53) and the code differ, the model follows the code:

- The usage line shows each flag as its own one-letter token. The code reads only the second character of each token, so `-bw` selects only the batch index and `-x` is ignored (`Invocation.OnlySecondCharacterCounts`).
- The usage line shows `<id>` as required, but main does not check for it. When every argument is a flag it takes `argv[argc]` (NULL) as the key. The model carries the key as an `Option` down to the fetch; the malloc-failure and init-failure exits are modelled with no key, and only a run that reaches `job_registry_get` needs one (`RegistryLkup.Invocable`); see "Left out".

## Model

| member | source | states |
|---|---|---|
| RegistryLkup.Run | src/blah_job_registry_lkup.c:31-178 | main prints exactly the line and exits with exactly the code that `Render` gives for `Classify`. Its trace is `Disciplined`: every resource obtained is released exactly once and nothing is released twice. The config handle is obtained and freed once exactly when argc is at least 2 and `config_read` returned one. The default path is malloc'd and freed once exactly when a lookup (not `-n`) found neither the environment variable nor a configured path and the malloc succeeded. The registry handle is obtained and destroyed once exactly when the registry was opened, the entry exactly when it was found, the classad exactly when it was produced, and otherwise never. The entry is fetched while only the registry handle is held. Nothing is read on a usage error. An endpoint query opens no registry and builds no path. The only path freed is the malloc'd default. |
| RegistryLkup.ScanFlags | src/blah_job_registry_lkup.c:57-75 | The flag loop ends with `idc` at the first token not starting with `-`. `mode`, `opt_worker_node` and `opt_get_port` are those of `ParseOptions`; the loop invariants tie each to `HasFlagIn` over the tokens scanned so far. |
| Invocation.FirstNonFlag | src/blah_job_registry_lkup.c:58-60 | The key position is within bounds. Every token before it starts with `-`, and the token at it does not, unless argv is exhausted. |
| Invocation.FirstNonFlagIs | src/blah_job_registry_lkup.c:58-60 | The stopping position of the scan is unique: any position with only flags before it and a non-flag at it is `FirstNonFlag`. |
| Invocation.HasFlagInMeans | src/blah_job_registry_lkup.c:61-72 | A letter is seen in a range of tokens exactly when some token there has it as its second character. |
| Invocation.FlagScanMeaning | src/blah_job_registry_lkup.c:58-75 | `-b`, `-w` and `-n` are each set if and only if some leading flag token has that letter second: only the second character of a token is read, and other letters are ignored. The key is the first non-flag token, is absent exactly when all tokens are flags, and does not start with `-`. |
| Invocation.DefaultOptions | src/blah_job_registry_lkup.c:39-47 | With no flags, lookup is by BLAH id, without the worker node, and not an endpoint query. |
| Invocation.OnlySecondCharacterCounts | src/blah_job_registry_lkup.c:60-72 | An example of `FlagScanMeaning` on one command line: `-bw -x 123` selects the batch index only and takes `123` as the key. |
| RegistryLkup.ReportEndpoint | src/blah_job_registry_lkup.c:84-111 | The endpoint branch prints the line and code of `EndpointVerdict`. It frees the config handle exactly once when loaded, and not otherwise. |
| Settings.EndpointResolution | src/blah_job_registry_lkup.c:86-107 | With no config or no `async_notification_port`, the port is missing. With a port, the host is the configured `async_notification_host` whatever uname says, else the node name. With neither, there is a uname failure. |
| LkupOutcomes.EndpointOutcome | src/blah_job_registry_lkup.c:84-111 | With `-n`: no port gives a `1ERROR` line and exit 1. A port gives exactly `host:port` and exit 0, the host being the configured one or else the node name. No host and no node name gives a `1ERROR` line and exit 1. |
| LkupOutcomes.EndpointIgnoresRegistry | src/blah_job_registry_lkup.c:84-111 | The endpoint outcome depends only on the configuration and the node name. It does not depend on the environment, the registry files, malloc or the serialiser. |
| RegistryLkup.ResolveRegistryFile | src/blah_job_registry_lkup.c:113-133 | `registry_file` ends as `RegistryFile` of the environment, the configured path and the malloc result. `need_to_free_registry_file` is set exactly when the default path was allocated. |
| Settings.RegistryPathPrecedence | src/blah_job_registry_lkup.c:113-126 | `BLAH_JOB_REGISTRY_FILE` wins whatever the configuration says. A configured `job_registry` wins over the default whatever `HOME` is. Otherwise the path is the default under `HOME`, or under `.` when `HOME` is unset. |
| Settings.DefaultPath | src/blah_job_registry_lkup.c:119-124 | The default path is `home`, `/`, then `blah_job_registry.bjr`, one character shorter than the malloc'd buffer (room for the NUL). |
| Settings.ConfigGet | src/blah_job_registry_lkup.c:77-82 | A config value exists exactly when a configuration was read and it has the key. |
| LkupOutcomes.EnvironmentOverridesConfig | src/blah_job_registry_lkup.c:113-115 | With `BLAH_JOB_REGISTRY_FILE` set, replacing the configuration does not change the outcome of a lookup. |
| RegistryLkup.LookUp | src/blah_job_registry_lkup.c:113-177 | The lookup branch prints the line and code of `LookupVerdict`. Its trace is `Disciplined` and leaves the registry handle, the entry and the classad as that verdict says (`Settled`). It ends with the config handle freed when `config_read` returned one and not obtained otherwise (src:130, 141, 147), and the default path (`PathStatus`) freed when it was malloc'd, not obtained when that malloc failed, and never asked for when the environment or the configuration gave the path (src:121, 142, 148). The fetch happens with only the registry handle held. |
| RegistryLkup.OpenAndFetch | src/blah_job_registry_lkup.c:135-177 | From `job_registry_init` on, prints the line and code of `OpenVerdict`. Its trace is `Disciplined`, leaves the registry handle, the entry and the classad as that verdict says (`Settled`), and the fetch happens with only the registry handle held. It ends with the config handle freed exactly when one was loaded, and the path freed exactly when `need_to_free_registry_file` is set and untouched otherwise (src:141-142, 147-148). |
| RegistryLkup.EndpointExit | src/blah_job_registry_lkup.c:84-111 | The endpoint exits give back the config handle when it was loaded (not obtained otherwise), and open no registry, build no path, fetch no entry and produce no classad. |
| RegistryLkup.PathFailedExit | src/blah_job_registry_lkup.c:127-131 | The exit on a failed malloc of the default path gives back the config handle when it was loaded, records the default path as not obtained, and obtains nothing else. |
| RegistryLkup.InitFailedExit | src/blah_job_registry_lkup.c:137-143 | The exit on a failed `job_registry_init` gives back the config handle when it was loaded and the path exactly when it was allocated; no registry handle, entry or classad is obtained; the path is touched exactly when it was allocated. |
| RegistryLkup.OpenedReady | src/blah_job_registry_lkup.c:135-148 | After a successful open and the frees that follow it, the registry handle is the only thing held, the config handle is freed when it was loaded, the path is freed when it was allocated, and the entry and classad are still to come. |
| RegistryLkup.FetchAndPrint | src/blah_job_registry_lkup.c:150-177 | After the open, the method prints the line and code of `FetchVerdict`, and its events are those of the exit that verdict names: not found gives the failed fetch and the destroy; no classad gives the entry, the failed serialisation, and the entry and registry freed; printed gives the entry and the classad, then the classad, the entry and the registry freed in that order. |
| RegistryLkup.FrontCounts | src/blah_job_registry_lkup.c:76-148 | When a trace leaves the config handle and the path as `FrontSettled` says, the config handle is obtained and freed once exactly when it was loaded, and the path exactly when it was built and freed. |
| RegistryLkup.SettledCounts | src/blah_job_registry_lkup.c:135-177 | When a trace leaves the registry handle, the entry and the classad as a verdict says, each is obtained and released once exactly when the verdict reached it: the handle for an opened registry, the entry for a found one, the classad for a produced one. |
| RegistryLkup.FetchExitSettled | src/blah_job_registry_lkup.c:150-177 | The exit a fetch verdict names leaves nothing held, leaves the config handle and the path where they stood before the fetch, and leaves the registry handle destroyed, the entry freed when it was found, and the classad freed when it was produced. |
| Registry.CString | src/blah_job_registry_lkup.c:161 | The string a NUL-terminated buffer holds is a prefix of it, has no NUL, and stops at the first NUL or at the buffer's end. |
| Registry.ShownEntry | src/blah_job_registry_lkup.c:158-162 | Without `-w`, the worker-node address reads as the empty string, the rest of its buffer is kept and no other field changes. With `-w`, the entry is untouched. |
| LkupOutcomes.FoundIsRedacted | src/blah_job_registry_lkup.c:158-172 | For the entry fetched, the serialiser's result is printed as `0` followed by the classad, exit 0. A NULL result gives `Out of memory.` and exit 1. The serialiser sees an empty worker node unless `-w`, and every other field as stored. |
| LkupOutcomes.LookupFailures | src/blah_job_registry_lkup.c:127-156 | Exit 2 occurs if and only if a path was obtained and cannot be opened (with or without a key), and then the line ends with the system error text. A failed malloc of the default path gives `Out of memory.` and exit 1. A missing entry gives exit 1, with `Entry <id> not found: ` right after the program name. |
| LkupOutcomes.UsageOutcome | src/blah_job_registry_lkup.c:51-55 | With no argument after the program name, the verdict is the usage error: a line starting `1ERROR Usage: ` and exit 1. |
| RegistryLkup.ExitCode | src/blah_job_registry_lkup.c:51-177 | Exit codes are 0, 1 or 2. The code is 2 exactly for a registry that cannot be opened, and 0 exactly for the endpoint line and a printed classad. |
| RegistryLkup.RenderedLine | src/blah_job_registry_lkup.c:53-168 | What the printed line carries for each verdict: `1ERROR ` on every failure, `0` then the classad, `host:port`, the usage text, the key, and the error text at the end of an init failure. |
| RegistryLkup.ErrorLineParts | src/blah_job_registry_lkup.c:93 | A failure line is `1ERROR `, the program name, `: ` and the message, with the message starting right after the name. |
| Resources.LedgerCounts | src/blah_job_registry_lkup.c:77-177 | In a replayable trace, a resource has been obtained once exactly when it is held or released, and released once exactly when it is released. |
| Resources.ReleasedExactlyOnce | src/blah_job_registry_lkup.c:94-177 | In a disciplined trace, each resource is freed as many times as it was obtained, and at most once. |
| Resources.ReleasedBeforeFetchAt | src/blah_job_registry_lkup.c:146-150 | At every fetch in a trace, the events before it leave the registry handle as the only thing held. |

## Left out

- The registry storage engine (`job_registry_init`, `job_registry_get`, `job_registry_destroy`) is not part of this model. An opened registry is a pair of maps, and opening succeeds exactly when the path names one; the mode passed to `job_registry_init` selects the map.
- The configuration parser (`config_read`, `config_get`, `config_free`) is not part of this model. A configuration is an optional key/value map.
- `job_registry_entry_as_classad` is an opaque function from entry to optional text. The redaction property is therefore stated on what the serialiser is given, not on the text it produces.
- `strerror(errno)` is opaque text, one value for the init failure and one for the failed fetch.
- `getenv`, `uname` and the malloc of the default path are inputs.
- `printf` buffering and the trailing newline are not modelled: `line` is the text before the newline.
- `argv[argc]` as key: when every argument after the program name is a flag and `-n` is absent, main takes a NULL key. If the path malloc or `job_registry_init` then fails, the run is modelled like any other. If the registry opens, main passes the NULL key to `job_registry_get`, whose behaviour is not part of this model, so `RegistryLkup.Run` requires that such a run does not open the registry (`Invocable`). An empty `argv` (argc 0) is excluded too.
- Other processes using the registry file at the same time are not modelled.
- RegistryLkup.Run: the ghost trace records events in the order main performs them. `job_registry_destroy`, `free` and `config_free` are modelled only as that event. Their effect on memory, and the aliasing between the entry and the registry's storage, are not modelled.
