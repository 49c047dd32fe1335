/**
 * blah_job_registry_lkup: look up one job-registry entry and print it as a
 * classad, or print the notification endpoint host:port, then exit.
 *
 * Every outcome is one line on standard output and an exit code. Results are
 * prefixed "0", failures "1ERROR", and the endpoint line has no prefix.
 * `Classify` and `Render` are the reference definition of that decision; `Run`
 * is the program's main, step by step, proved to agree with them and to give
 * back every resource it obtains.
 */
module RegistryLkup {
  import opened Wrappers
  import opened Resources
  import opened Registry
  import opened Invocation
  import opened Settings

  /** What the program's collaborators answer. */
  datatype World = World(
    env: EnvMap,                    // getenv
    config: Option<ConfigMap>,      // config_read(NULL); None when no configuration is found
    nodename: Option<string>,       // uname's nodename; None when uname fails
    mallocOk: bool,                 // whether malloc of the default registry path succeeds
    stores: map<string, Store>,     // the files job_registry_init can open, by path
    initError: string,              // strerror(errno) after job_registry_init fails
    getError: string,               // strerror(errno) after job_registry_get finds nothing
    serialize: Entry -> Option<string>)  // job_registry_entry_as_classad; None when out of memory

  /** The one line printed (without its newline) and the exit code. */
  datatype Outcome = Outcome(line: string, code: int)

  /** How an invocation ends. */
  datatype Verdict =
    | UsageError
    | NoNotificationPort
    | NoHostName
    | Endpoint(host: string, port: string)
    | PathOutOfMemory
    | RegistryInitError(detail: string)
    | NotFound(key: string, detail: string)
    | ClassadOutOfMemory
    | Found(classad: string)

  const UsageTail :=
    " [-w (get worker node)] [-n (get parser host:port)] [-b (look up for batch IDs)] <id>"

  /** The lookup gets as far as an open registry: a registry path is obtained
      and job_registry_init accepts it. */
  predicate OpensRegistry(configured: Option<string>, w: World)
  {
    var path := RegistryFile(w.env, configured, w.mallocOk);
    path.Some? && path.value in w.stores
  }

  /** The runs main is defined on: a program name, and a key after the flags
      whenever the lookup gets as far as job_registry_get. When every argument is
      a flag, main takes argv[argc], which is NULL, as the key; that only matters
      once the registry is open. */
  predicate Invocable(argv: seq<string>, w: World)
  {
    && |argv| >= 1
    && (|argv| >= 2 && !ParseOptions(argv).endpoint && ParseOptions(argv).key.None?
        ==> !OpensRegistry(ConfigGet(w.config, RegistryKey), w))
  }

  /** The entry a lookup would fetch, when the lookup gets that far. */
  predicate Fetches(argv: seq<string>, w: World, e: Entry)
    requires |argv| >= 1
  {
    |argv| >= 2 && !ParseOptions(argv).endpoint && ParseOptions(argv).key.Some? &&
    var path := RegistryFile(w.env, ConfigGet(w.config, RegistryKey), w.mallocOk);
    path.Some? && path.value in w.stores &&
    Get(w.stores[path.value], ParseOptions(argv).mode, ParseOptions(argv).key.value) == Some(e)
  }

  /** The endpoint branch: a configured port, and the configured host or else the
      node name. */
  function EndpointVerdict(config: Option<ConfigMap>, nodename: Option<string>): Verdict
  {
    match ResolveEndpoint(config, nodename)
    case MissingPort => NoNotificationPort
    case NoNodeName => NoHostName
    case HostPort(host, port) => Endpoint(host, port)
  }

  /** After the registry is open: fetch, redact unless -w, serialise. */
  function FetchVerdict(s: Store, mode: IndexMode, workerNode: bool, key: string, w: World): Verdict
  {
    match Get(s, mode, key)
    case None => NotFound(key, w.getError)
    case Some(e) =>
      match w.serialize(Shown(e, workerNode))
      case None => ClassadOutOfMemory
      case Some(cad) => Found(cad)
  }

  /** Once the registry path is known: open it, then fetch. */
  function OpenVerdict(path: string, mode: IndexMode, workerNode: bool, key: Option<string>, w: World): Verdict
    requires key.None? ==> path !in w.stores
  {
    if path !in w.stores then RegistryInitError(w.initError)
    else FetchVerdict(w.stores[path], mode, workerNode, key.value, w)
  }

  /** The lookup branch: resolve the registry path, open it, then fetch. */
  function LookupVerdict(mode: IndexMode, workerNode: bool, key: Option<string>, configured: Option<string>,
                         w: World): Verdict
    requires key.None? ==> !OpensRegistry(configured, w)
  {
    match RegistryFile(w.env, configured, w.mallocOk)
    case None => PathOutOfMemory
    case Some(path) => OpenVerdict(path, mode, workerNode, key, w)
  }

  /** The reference decision: usage, then the endpoint branch or the lookup. */
  function Classify(argv: seq<string>, w: World): Verdict
    requires Invocable(argv, w)
  {
    if |argv| < 2 then UsageError
    else
      var opts := ParseOptions(argv);
      if opts.endpoint then EndpointVerdict(w.config, w.nodename)
      else LookupVerdict(opts.mode, opts.workerNode, opts.key, ConfigGet(w.config, RegistryKey), w)
  }

  const PortMissingMessage := "Cannot access value of async_notification_port in BLAH config."
  const UnameFailedMessage :=
    "Cannot access uname information. Please add async_notification_host in BLAH config."
  const OutOfMemoryMessage := "Out of memory."
  const InitErrorMessage := "error initialising job registry: "

  /** The substring sub occurs in s at position i. */
  predicate OccursAt(s: string, sub: string, i: nat)
  {
    i + |sub| <= |s| && s[i..i + |sub|] == sub
  }

  /** A failure line: "1ERROR ", the program name, ": " and the message. */
  function ErrorLine(prog: string, message: string): string
  {
    "1ERROR " + prog + ": " + message
  }

  /** The usage line, printed when there is no argument after the program name. */
  function UsageLine(prog: string): string
  {
    "1ERROR Usage: " + prog + UsageTail
  }

  /** The exit code of a verdict: 2 for a registry that cannot be opened, 0 for
      the two successes, 1 for every other failure. */
  function ExitCode(v: Verdict): (code: int)
    ensures 0 <= code <= 2
    ensures code == 2 <==> v.RegistryInitError?
    ensures code == 0 <==> v.Endpoint? || v.Found?
  {
    match v
    case Endpoint(_, _) => 0
    case Found(_) => 0
    case RegistryInitError(_) => 2
    case _ => 1
  }

  /** The line printed for a verdict of the program called prog. */
  function Line(prog: string, v: Verdict): string
  {
    match v
    case UsageError => UsageLine(prog)
    case NoNotificationPort =>
      ErrorLine(prog, PortMissingMessage)
    case NoHostName =>
      ErrorLine(prog, UnameFailedMessage)
    case Endpoint(host, port) => host + ":" + port
    case PathOutOfMemory => ErrorLine(prog, OutOfMemoryMessage)
    case RegistryInitError(detail) => ErrorLine(prog, InitErrorMessage + detail)
    case NotFound(key, detail) => ErrorLine(prog, "Entry <" + key + "> not found: " + detail)
    case ClassadOutOfMemory => ErrorLine(prog, OutOfMemoryMessage)
    case Found(cad) => "0" + cad
  }

  /** The output convention: one line and one exit code per verdict. */
  function Render(prog: string, v: Verdict): Outcome
  {
    Outcome(Line(prog, v), ExitCode(v))
  }

  /** The message of an error line starts after "1ERROR ", the program name and ": ". */
  lemma ErrorLineParts(prog: string, message: string)
    ensures var line := ErrorLine(prog, message);
      && |line| == 9 + |prog| + |message|
      && line[..7] == "1ERROR "
      && line[9 + |prog|..] == message
  {
  }

  /** What each line carries: "1ERROR " at the head of every failure, the classad
      right after the "0", the endpoint as host:port, the usage text, the key
      being looked up, and the system's error text at the end of a registry-open
      failure. */
  lemma RenderedLine(prog: string, v: Verdict)
    ensures var o := Render(prog, v);
      && (o.code != 0 ==> |o.line| >= 7 && o.line[..7] == "1ERROR ")
      && (v.Found? ==> |o.line| == |v.classad| + 1 && o.line[0] == '0' && o.line[1..] == v.classad)
      && (v.Endpoint? ==> o.line == v.host + ":" + v.port)
      && (v.UsageError? ==> |o.line| >= 14 && o.line[..14] == "1ERROR Usage: ")
      && (v.NotFound? ==> OccursAt(o.line, "Entry <" + v.key + "> not found: ", 9 + |prog|))
      && (v.RegistryInitError? ==> |v.detail| <= |o.line| && o.line[|o.line| - |v.detail|..] == v.detail)
  {
  }

  /** The flag scan of main: the options are those of ParseOptions, and idc is
      the position of the key. */
  method ScanFlags(argv: seq<string>) returns (mode: IndexMode, optWorkerNode: bool, optGetPort: bool, idc: nat)
    requires |argv| >= 1
    ensures idc == FirstNonFlag(argv, 1)
    ensures ParseOptions(argv)
      == Options(mode, optWorkerNode, optGetPort, if idc < |argv| then Some(argv[idc]) else None)
  {
    mode := ByBlahId;
    optWorkerNode, optGetPort := false, false;
    idc := 1;
    while idc < |argv|
      invariant 1 <= idc <= |argv|
      invariant forall j :: 1 <= j < idc ==> IsFlag(argv[j])
      invariant mode == (if HasFlagIn(argv, 1, idc, 'b') then ByBatchId else ByBlahId)
      invariant optWorkerNode == HasFlagIn(argv, 1, idc, 'w')
      invariant optGetPort == HasFlagIn(argv, 1, idc, 'n')
    {
      if CharAt(argv[idc], 0) != '-' {
        break;
      }
      var letter := CharAt(argv[idc], 1);
      if letter == 'b' {
        mode := ByBatchId;
      } else if letter == 'n' {
        optGetPort := true;
      } else if letter == 'w' {
        optWorkerNode := true;
      }
      idc := idc + 1;
    }
    FirstNonFlagIs(argv, 1, idc);
  }

  /** The endpoint branch of main: print host:port, or the error line; the config
      handle is freed when it was loaded, on every path. */
  method ReportEndpoint(prog: string, cha: Option<ConfigMap>, nodename: Option<string>, ghost t0: Trace)
    returns (line: string, code: int, ghost trace: Trace)
    ensures Outcome(line, code) == Render(prog, EndpointVerdict(cha, nodename))
    ensures trace == ConfigRelease(t0, cha.Some?)
  {
    trace := t0;
    var anpe: Option<string> := None;
    var anhe: Option<string> := None;
    if cha.Some? {
      anpe := Lookup(cha.value, PortKey);
      anhe := Lookup(cha.value, HostKey);
    }
    if cha.None? || anpe.None? {
      line, code := ErrorLine(prog, PortMissingMessage), 1;
      if cha.Some? {
        trace := Then(trace, Release(ConfigHandle));
      }
      return;
    }
    var anhname: string;
    if anhe.None? {
      if nodename.None? {
        line := ErrorLine(prog, UnameFailedMessage);
        trace := Then(trace, Release(ConfigHandle));
        code := 1;
        return;
      }
      anhname := nodename.value;
    } else {
      anhname := anhe.value;
    }
    line := anhname + ":" + anpe.value;
    trace := Then(trace, Release(ConfigHandle));
    code := 0;
  }

  /** The registry path of main: the configured path (None if unset) is replaced by
      the environment variable when set; failing both, the default path is built in
      a malloc'd buffer, which the tool then owns. None when that malloc fails. */
  method ResolveRegistryFile(env: EnvMap, configured: Option<string>, mallocOk: bool)
    returns (registryFile: Option<string>, needToFreeRegistryFile: bool)
    ensures registryFile == RegistryFile(env, configured, mallocOk)
    ensures needToFreeRegistryFile == (ChooseRegistryPath(env, configured).Default? && mallocOk)
  {
    registryFile := configured;
    needToFreeRegistryFile := false;
    var registryFileEnv := Lookup(env, RegistryFileVar);
    if registryFileEnv.Some? {
      registryFile := registryFileEnv;
    }
    if registryFile.None? {
      var myHome := Lookup(env, HomeVar);
      var home := if myHome.Some? then myHome.value else ".";
      if mallocOk {
        registryFile := Some(home + "/" + DefaultRegistryFile);
        needToFreeRegistryFile := true;
      }
    }
  }

  /** The event of config_read: a handle, or none found. */
  function ConfigEvent(loaded: bool): Event
  {
    if loaded then Acquire(ConfigHandle) else Failed(ConfigHandle)
  }

  /** config_free, when a handle was loaded. */
  function ConfigRelease(t: Trace, loaded: bool): Trace
  {
    if loaded then Then(t, Release(ConfigHandle)) else t
  }

  /** The malloc of the default path and its free, when the tool owns it. */
  function PathAcquire(t: Trace, owned: bool): Trace
  {
    if owned then Then(t, Acquire(OwnedPath)) else t
  }

  function PathRelease(t: Trace, owned: bool): Trace
  {
    if owned then Then(t, Release(OwnedPath)) else t
  }

  /** The trace of the lookup branch when malloc of the default path fails. */
  function PathFailedTrace(loaded: bool): Trace
  {
    ConfigRelease(Then(Then(Begin, ConfigEvent(loaded)), Failed(OwnedPath)), loaded)
  }

  /** The trace of the lookup branch when job_registry_init fails. */
  function InitFailedTrace(loaded: bool, owned: bool): Trace
  {
    PathRelease(ConfigRelease(Then(PathAcquire(Then(Begin, ConfigEvent(loaded)), owned),
                                   Failed(RegistryHandle)), loaded), owned)
  }

  /** The trace of the lookup branch up to the open registry, config and path freed. */
  function OpenedTrace(loaded: bool, owned: bool): Trace
  {
    PathRelease(ConfigRelease(Then(PathAcquire(Then(Begin, ConfigEvent(loaded)), owned),
                                   Acquire(RegistryHandle)), loaded), owned)
  }

  /** The exit of the endpoint query gives back the config handle, and neither
      opens a registry nor builds a path. */
  lemma {:induction false} EndpointExit(loaded: bool, v: Verdict)
    requires v.NoNotificationPort? || v.NoHostName? || v.Endpoint?
    ensures var t := ConfigRelease(Then(Begin, ConfigEvent(loaded)), loaded);
      && Disciplined(t) && ReleasedBeforeFetch(t) && Settled(t, v)
      && Touches(t, ConfigHandle) && !Touches(t, RegistryHandle) && !Touches(t, OwnedPath)
      && FrontSettled(t, loaded, Unused)
  {
    Extended(Begin, ConfigEvent(loaded));
    Extended(Then(Begin, ConfigEvent(loaded)), Release(ConfigHandle));
  }

  /** The exit on a failed malloc of the default path gives back the config
      handle and obtains nothing else. */
  lemma {:induction false} PathFailedExit(loaded: bool)
    ensures var t := PathFailedTrace(loaded);
      && Disciplined(t) && ReleasedBeforeFetch(t) && Touches(t, ConfigHandle) && Settled(t, PathOutOfMemory)
      && FrontSettled(t, loaded, NotObtained)
  {
    var c := Then(Begin, ConfigEvent(loaded));
    Extended(Begin, ConfigEvent(loaded));
    Extended(c, Failed(OwnedPath));
    Extended(Then(c, Failed(OwnedPath)), Release(ConfigHandle));
  }

  /** The exit on a failed job_registry_init gives back the config handle and the
      owned path; the path is touched exactly when it was allocated. */
  lemma {:induction false} InitFailedExit(loaded: bool, owned: bool)
    ensures var t := InitFailedTrace(loaded, owned);
      && Disciplined(t) && ReleasedBeforeFetch(t) && Touches(t, ConfigHandle) && (Touches(t, OwnedPath) <==> owned)
      && Settled(t, RegistryInitError(""))
      && FrontSettled(t, loaded, if owned then Released else Unused)
  {
    var c := Then(Begin, ConfigEvent(loaded));
    Extended(Begin, ConfigEvent(loaded));
    var p := PathAcquire(c, owned);
    Extended(c, Acquire(OwnedPath));
    Extended(p, Failed(RegistryHandle));
    var f := ConfigRelease(Then(p, Failed(RegistryHandle)), loaded);
    Extended(Then(p, Failed(RegistryHandle)), Release(ConfigHandle));
    Extended(f, Release(OwnedPath));
  }

  /** After a successful open and the frees that follow it, only the registry
      handle is held; the path is touched exactly when it was allocated. */
  lemma {:induction false} OpenedReady(loaded: bool, owned: bool)
    ensures var t := OpenedTrace(loaded, owned);
      && ReadyToFetch(t) && Touches(t, ConfigHandle) && (Touches(t, OwnedPath) <==> owned)
      && FrontSettled(t, loaded, if owned then Released else Unused)
  {
    var c := Then(Begin, ConfigEvent(loaded));
    Extended(Begin, ConfigEvent(loaded));
    var p := PathAcquire(c, owned);
    Extended(c, Acquire(OwnedPath));
    Extended(p, Acquire(RegistryHandle));
    var o := ConfigRelease(Then(p, Acquire(RegistryHandle)), loaded);
    Extended(Then(p, Acquire(RegistryHandle)), Release(ConfigHandle));
    Extended(o, Release(OwnedPath));
  }

  /** The events of the lookup after the registry is open, on each of its three
      paths: entry not found, classad not produced, printed. */
  function NotFoundTail(t: Trace): Trace
  {
    Then(Then(t, Failed(EntryRecord)), Release(RegistryHandle))
  }

  function NoClassadTail(t: Trace): Trace
  {
    Then(Then(Then(Then(t, Acquire(EntryRecord)), Failed(ClassadText)), Release(EntryRecord)),
         Release(RegistryHandle))
  }

  function PrintedTail(t: Trace): Trace
  {
    Then(Then(Then(Then(Then(t, Acquire(EntryRecord)), Acquire(ClassadText)), Release(ClassadText)),
              Release(EntryRecord)), Release(RegistryHandle))
  }

  /** A trace in which the registry handle is the one thing owned, and the entry
      and classad are still to come. */
  predicate ReadyToFetch(t: Trace)
  {
    Replay(t).Some? && Replay(t).value.OnlyRegistryOwned() &&
    Replay(t).value.entry == Unused && Replay(t).value.classad == Unused &&
    ReleasedBeforeFetch(t)
  }

  /** Where the registry handle stands at the end of a run with verdict v:
      destroyed once it was opened, not obtained when job_registry_init failed,
      never asked for otherwise. */
  function RegistryStatus(v: Verdict): Status
  {
    match v
    case NotFound(_, _) => Released
    case ClassadOutOfMemory => Released
    case Found(_) => Released
    case RegistryInitError(_) => NotObtained
    case _ => Unused
  }

  /** Where the entry stands at the end of a run with verdict v. */
  function EntryStatus(v: Verdict): Status
  {
    match v
    case NotFound(_, _) => NotObtained
    case ClassadOutOfMemory => Released
    case Found(_) => Released
    case _ => Unused
  }

  /** Where the classad text stands at the end of a run with verdict v. */
  function ClassadStatus(v: Verdict): Status
  {
    match v
    case ClassadOutOfMemory => NotObtained
    case Found(_) => Released
    case _ => Unused
  }

  /** The trace replays, and leaves the registry handle, the entry and the classad
      as the verdict says. */
  predicate Settled(t: Trace, v: Verdict)
  {
    && Replay(t).Some?
    && Replay(t).value.registry == RegistryStatus(v)
    && Replay(t).value.entry == EntryStatus(v)
    && Replay(t).value.classad == ClassadStatus(v)
  }

  /** The trace replays, and leaves the config handle freed when config_read
      returned one (not obtained otherwise) and the default path as path says. */
  predicate FrontSettled(t: Trace, loaded: bool, path: Status)
  {
    && Replay(t).Some?
    && Replay(t).value.config == (if loaded then Released else NotObtained)
    && Replay(t).value.path == path
  }

  /** Where the default path stands at the end of the lookup branch: freed once it
      was built, not obtained when its malloc failed, never asked for when the
      environment or the configuration gave the path. */
  function PathStatus(env: EnvMap, configured: Option<string>, mallocOk: bool): Status
  {
    if !ChooseRegistryPath(env, configured).Default? then Unused
    else if mallocOk then Released
    else NotObtained
  }

  /** What a front-settled trace says in numbers: the config handle is obtained
      and freed once exactly when it was loaded, the default path exactly when it
      was built and freed. */
  lemma FrontCounts(t: Trace, loaded: bool, path: Status)
    requires FrontSettled(t, loaded, path)
    requires path != Owned
    ensures Count(t, Acquire(ConfigHandle)) == Count(t, Release(ConfigHandle)) == (if loaded then 1 else 0)
    ensures Count(t, Acquire(OwnedPath)) == Count(t, Release(OwnedPath)) == (if path == Released then 1 else 0)
  {
    LedgerCounts(t, ConfigHandle);
    LedgerCounts(t, OwnedPath);
  }

  /** What a settled trace says in numbers: the registry handle is obtained and
      destroyed once exactly when it was opened, the entry once exactly when it was
      found, the classad once exactly when it was produced. */
  lemma SettledCounts(t: Trace, v: Verdict)
    requires Settled(t, v)
    ensures && Count(t, Acquire(RegistryHandle)) == Count(t, Release(RegistryHandle))
               == (if v.NotFound? || v.ClassadOutOfMemory? || v.Found? then 1 else 0)
            && Count(t, Acquire(EntryRecord)) == Count(t, Release(EntryRecord))
               == (if v.ClassadOutOfMemory? || v.Found? then 1 else 0)
            && Count(t, Acquire(ClassadText)) == Count(t, Release(ClassadText))
               == (if v.Found? then 1 else 0)
  {
    LedgerCounts(t, RegistryHandle);
    LedgerCounts(t, EntryRecord);
    LedgerCounts(t, ClassadText);
  }

  /** What the lookup after the open must leave: nothing owned, the fetch done
      with only the registry handle held, and the config handle and the owned path
      not touched again. */
  predicate TailKeeps(t0: Trace, t: Trace)
  {
    && Disciplined(t) && ReleasedBeforeFetch(t)
    && Touches(t, ConfigHandle) == Touches(t0, ConfigHandle)
    && Touches(t, OwnedPath) == Touches(t0, OwnedPath)
  }

  /** The exit a fetch verdict names, taken from a trace ready to fetch, keeps
      TailKeeps and leaves the registry handle, the entry and the classad as the
      verdict says. */
  lemma {:induction false} FetchExitSettled(t0: Trace, t: Trace, v: Verdict)
    requires ReadyToFetch(t0)
    requires v.NotFound? || v.ClassadOutOfMemory? || v.Found?
    requires v.NotFound? ==> t == NotFoundTail(t0)
    requires v.ClassadOutOfMemory? ==> t == NoClassadTail(t0)
    requires v.Found? ==> t == PrintedTail(t0)
    ensures TailKeeps(t0, t) && Settled(t, v)
    ensures Replay(t).value.config == Replay(t0).value.config && Replay(t).value.path == Replay(t0).value.path
  {
    if v.NotFound? {
      Extended(t0, Failed(EntryRecord));
      Extended(Then(t0, Failed(EntryRecord)), Release(RegistryHandle));
    } else {
      var e1 := Then(t0, Acquire(EntryRecord));
      Extended(t0, Acquire(EntryRecord));
      if v.ClassadOutOfMemory? {
        var c2 := Then(e1, Failed(ClassadText));
        Extended(e1, Failed(ClassadText));
        Extended(c2, Release(EntryRecord));
        Extended(Then(c2, Release(EntryRecord)), Release(RegistryHandle));
      } else {
        var p2 := Then(e1, Acquire(ClassadText));
        Extended(e1, Acquire(ClassadText));
        var p3 := Then(p2, Release(ClassadText));
        Extended(p2, Release(ClassadText));
        Extended(p3, Release(EntryRecord));
        Extended(Then(p3, Release(EntryRecord)), Release(RegistryHandle));
      }
    }
  }

  /** The lookup after the registry is open: fetch the entry, clear its worker
      node unless asked for, serialise and print. The entry and the classad are
      freed when they exist and the registry handle is destroyed, on every path. */
  method FetchAndPrint(prog: string, rha: Store, mode: IndexMode, optWorkerNode: bool, id: string,
                       w: World, ghost t0: Trace)
    returns (line: string, code: int, ghost trace: Trace)
    ensures Outcome(line, code) == Render(prog, FetchVerdict(rha, mode, optWorkerNode, id, w))
    ensures var v := FetchVerdict(rha, mode, optWorkerNode, id, w);
      && (v.NotFound? ==> trace == NotFoundTail(t0))
      && (v.ClassadOutOfMemory? ==> trace == NoClassadTail(t0))
      && (v.Found? ==> trace == PrintedTail(t0))
  {
    trace := t0;
    var ren := Get(rha, mode, id);
    if ren.None? {
      trace := Then(trace, Failed(EntryRecord));
      line := ErrorLine(prog, "Entry <" + id + "> not found: " + w.getError);
      trace := Then(trace, Release(RegistryHandle));
      code := 1;
      return;
    }
    trace := Then(trace, Acquire(EntryRecord));
    var entry := ren.value;

    if !optWorkerNode {
      // The worker node is not wanted: truncate its address to the empty string.
      entry := entry.(wnAddr := entry.wnAddr[0 := NUL]);
    }

    var cad := w.serialize(entry);
    if cad.None? {
      trace := Then(trace, Failed(ClassadText));
      line := ErrorLine(prog, OutOfMemoryMessage);
      trace := Then(Then(trace, Release(EntryRecord)), Release(RegistryHandle));
      code := 1;
      return;
    }
    trace := Then(trace, Acquire(ClassadText));
    line := "0" + cad.value;
    trace := Then(Then(Then(trace, Release(ClassadText)), Release(EntryRecord)), Release(RegistryHandle));
    code := 0;
  }

  /** main from job_registry_init to the end: open the registry, free the config
      handle and the owned path, then fetch and print. The line and code are those
      of the open verdict, and every resource is given back on each exit. */
  method OpenAndFetch(prog: string, registryFile: string, needToFreeRegistryFile: bool, mode: IndexMode,
                      optWorkerNode: bool, id: Option<string>, cha: Option<ConfigMap>, w: World, ghost t0: Trace)
    returns (line: string, code: int, ghost trace: Trace)
    requires t0 == PathAcquire(Then(Begin, ConfigEvent(cha.Some?)), needToFreeRegistryFile)
    requires id.None? ==> registryFile !in w.stores
    ensures Outcome(line, code) == Render(prog, OpenVerdict(registryFile, mode, optWorkerNode, id, w))
    ensures Disciplined(trace) && ReleasedBeforeFetch(trace)
    ensures Settled(trace, OpenVerdict(registryFile, mode, optWorkerNode, id, w))
    ensures Touches(trace, ConfigHandle) && (Touches(trace, OwnedPath) <==> needToFreeRegistryFile)
    ensures FrontSettled(trace, cha.Some?, if needToFreeRegistryFile then Released else Unused)
  {
    trace := t0;
    if registryFile !in w.stores {
      InitFailedExit(cha.Some?, needToFreeRegistryFile);
      trace := Then(trace, Failed(RegistryHandle));
      line, code := ErrorLine(prog, InitErrorMessage + w.initError), 2;
      trace := PathRelease(ConfigRelease(trace, cha.Some?), needToFreeRegistryFile);
      assert trace == InitFailedTrace(cha.Some?, needToFreeRegistryFile);
      return;
    }
    var rha := w.stores[registryFile];
    trace := Then(trace, Acquire(RegistryHandle));

    // The file name is kept in the registry handle: config and path are no longer needed.
    trace := PathRelease(ConfigRelease(trace, cha.Some?), needToFreeRegistryFile);
    assert trace == OpenedTrace(cha.Some?, needToFreeRegistryFile);
    OpenedReady(cha.Some?, needToFreeRegistryFile);
    ghost var prelude := trace;

    line, code, trace := FetchAndPrint(prog, rha, mode, optWorkerNode, id.value, w, trace);
    FetchExitSettled(prelude, trace, FetchVerdict(rha, mode, optWorkerNode, id.value, w));
  }

  /** The lookup branch of main, from the environment override to the end: the
      line and code of the lookup verdict, with every resource given back on each
      of its exits. The configured registry path (None if unset) is passed in. */
  method LookUp(prog: string, mode: IndexMode, optWorkerNode: bool, id: Option<string>,
                cha: Option<ConfigMap>, configured: Option<string>, w: World, ghost t0: Trace)
    returns (line: string, code: int, ghost trace: Trace)
    requires t0 == Then(Begin, ConfigEvent(cha.Some?))
    requires configured == ConfigGet(cha, RegistryKey)
    requires id.None? ==> !OpensRegistry(configured, w)
    ensures Outcome(line, code) == Render(prog, LookupVerdict(mode, optWorkerNode, id, configured, w))
    ensures Disciplined(trace) && ReleasedBeforeFetch(trace)
    ensures Settled(trace, LookupVerdict(mode, optWorkerNode, id, configured, w))
    ensures Touches(trace, ConfigHandle)
    ensures Touches(trace, OwnedPath) ==> ChooseRegistryPath(w.env, configured).Default?
    ensures FrontSettled(trace, cha.Some?, PathStatus(w.env, configured, w.mallocOk))
  {
    trace := t0;
    var registryFile, needToFreeRegistryFile := ResolveRegistryFile(w.env, configured, w.mallocOk);
    if registryFile.None? {
      PathFailedExit(cha.Some?);
      trace := Then(trace, Failed(OwnedPath));
      line, code := ErrorLine(prog, OutOfMemoryMessage), 1;
      trace := ConfigRelease(trace, cha.Some?);
      assert trace == PathFailedTrace(cha.Some?);
      return;
    }
    trace := PathAcquire(trace, needToFreeRegistryFile);
    line, code, trace :=
      OpenAndFetch(prog, registryFile.value, needToFreeRegistryFile, mode, optWorkerNode, id, cha, w, trace);
  }

  /** main, step by step: it prints the line Render gives for the reference
      verdict and exits with its code. Its trace of what it obtains and gives back
      shows every resource released exactly once, nothing read on a usage error,
      no registry opened and no path built for an endpoint query, only a default
      path freed, and only the registry handle owned when the entry is fetched. */
  method Run(argv: seq<string>, w: World) returns (line: string, code: int, ghost trace: Trace)
    requires Invocable(argv, w)
    ensures Outcome(line, code) == Render(argv[0], Classify(argv, w))
    ensures Disciplined(trace) && ReleasedBeforeFetch(trace)
    ensures var v := Classify(argv, w);
      && Count(trace, Acquire(RegistryHandle)) == Count(trace, Release(RegistryHandle))
         == (if v.NotFound? || v.ClassadOutOfMemory? || v.Found? then 1 else 0)
      && Count(trace, Acquire(EntryRecord)) == Count(trace, Release(EntryRecord))
         == (if v.ClassadOutOfMemory? || v.Found? then 1 else 0)
      && Count(trace, Acquire(ClassadText)) == Count(trace, Release(ClassadText))
         == (if v.Found? then 1 else 0)
    ensures Count(trace, Acquire(ConfigHandle)) == Count(trace, Release(ConfigHandle))
      == (if |argv| >= 2 && w.config.Some? then 1 else 0)
    ensures Count(trace, Acquire(OwnedPath)) == Count(trace, Release(OwnedPath))
      == (if |argv| >= 2 && !ParseOptions(argv).endpoint && w.mallocOk
             && ChooseRegistryPath(w.env, ConfigGet(w.config, RegistryKey)).Default? then 1 else 0)
    ensures trace == Begin <==> |argv| < 2
    ensures |argv| >= 2 ==> Touches(trace, ConfigHandle)
    ensures |argv| >= 2 && ParseOptions(argv).endpoint
      ==> !Touches(trace, RegistryHandle) && !Touches(trace, OwnedPath)
    ensures Touches(trace, OwnedPath) ==> ChooseRegistryPath(w.env, ConfigGet(w.config, RegistryKey)).Default?
  {
    trace := Begin;
    if |argv| < 2 {
      line, code := UsageLine(argv[0]), 1;
      return;
    }

    var mode, optWorkerNode, optGetPort, idc := ScanFlags(argv);
    var id: Option<string> := if idc < |argv| then Some(argv[idc]) else None;

    var cha := w.config;
    trace := Then(trace, ConfigEvent(cha.Some?));
    var registryFile: Option<string> := None;
    if cha.Some? {
      var rge := Lookup(cha.value, RegistryKey);
      if rge.Some? {
        registryFile := rge;
      }
    }

    if optGetPort {
      line, code, trace := ReportEndpoint(argv[0], cha, w.nodename, trace);
      EndpointExit(cha.Some?, Classify(argv, w));
      SettledCounts(trace, Classify(argv, w));
      FrontCounts(trace, cha.Some?, Unused);
      return;
    }

    line, code, trace := LookUp(argv[0], mode, optWorkerNode, id, cha, registryFile, w, trace);
    SettledCounts(trace, Classify(argv, w));
    FrontCounts(trace, cha.Some?, PathStatus(w.env, registryFile, w.mallocOk));
  }
}
