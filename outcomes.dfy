/**
 * What an invocation of blah_job_registry_lkup ends with, read off the
 * reference decision Classify and its rendering: usage, the endpoint query,
 * the registry path precedence, the lookup's failures and the redacted result.
 */
module LkupOutcomes {
  import opened Wrappers
  import opened Registry
  import opened Invocation
  import opened Settings
  import opened RegistryLkup

  /** With no argument after the program name, the one line is the usage text
      and the exit code is 1. */
  lemma UsageOutcome(argv: seq<string>, w: World)
    requires |argv| == 1
    ensures Invocable(argv, w) && Classify(argv, w) == UsageError
    ensures var o := Render(argv[0], UsageError);
      o.code == 1 && |o.line| >= 14 && o.line[..14] == "1ERROR Usage: "
  {
    RenderedLine(argv[0], UsageError);
  }

  /** The endpoint query depends on the configuration and the node name only:
      not on the registry files, the environment, malloc or the serialiser. */
  lemma EndpointIgnoresRegistry(argv: seq<string>, w: World, w': World)
    requires |argv| >= 2 && ParseOptions(argv).endpoint
    requires w'.config == w.config && w'.nodename == w.nodename
    ensures Invocable(argv, w) && Invocable(argv, w')
    ensures Classify(argv, w') == Classify(argv, w)
  {
  }

  /** The endpoint query: without a configured port, a failure line and exit 1;
      with one, "host:port" and exit 0, the host being the configured one or else
      the node name; with neither a configured host nor a node name, exit 1. */
  lemma EndpointOutcome(argv: seq<string>, w: World)
    requires |argv| >= 2 && ParseOptions(argv).endpoint
    ensures Invocable(argv, w)
    ensures var o := Render(argv[0], Classify(argv, w));
      && ((w.config.None? || PortKey !in w.config.value) ==> o.code == 1 && o.line[..7] == "1ERROR ")
      && (w.config.Some? && PortKey in w.config.value && HostKey in w.config.value
          ==> o.code == 0 && o.line == w.config.value[HostKey] + ":" + w.config.value[PortKey])
      && (w.config.Some? && PortKey in w.config.value && HostKey !in w.config.value && w.nodename.Some?
          ==> o.code == 0 && o.line == w.nodename.value + ":" + w.config.value[PortKey])
      && (w.config.Some? && PortKey in w.config.value && HostKey !in w.config.value && w.nodename.None?
          ==> o.code == 1 && o.line[..7] == "1ERROR ")
  {
    EndpointResolution(w.config, w.nodename, w.nodename);
    RenderedLine(argv[0], Classify(argv, w));
  }

  /** With BLAH_JOB_REGISTRY_FILE set, the configured registry path has no
      bearing on a lookup. */
  lemma EnvironmentOverridesConfig(argv: seq<string>, w: World, cfg: Option<ConfigMap>)
    requires |argv| >= 2 && !ParseOptions(argv).endpoint && Invocable(argv, w)
    requires RegistryFileVar in w.env
    ensures Invocable(argv, w.(config := cfg))
    ensures Classify(argv, w.(config := cfg)) == Classify(argv, w)
  {
    RegistryPathPrecedence(w.env, ConfigGet(w.config, RegistryKey), ConfigGet(cfg, RegistryKey), "");
  }

  /** The lookup's failures: exit 2 exactly when a registry path was obtained and
      cannot be opened, with the system's error text ending the line; a failed
      malloc of the default path is an out-of-memory line and exit 1; a missing
      entry is exit 1 with "Entry <id> not found: " after the program name. */
  lemma LookupFailures(argv: seq<string>, w: World)
    requires |argv| >= 2 && !ParseOptions(argv).endpoint && Invocable(argv, w)
    ensures var o := Render(argv[0], Classify(argv, w));
      var p := RegistryFile(w.env, ConfigGet(w.config, RegistryKey), w.mallocOk);
      && (o.code == 2 <==> p.Some? && p.value !in w.stores)
      && (p.None? ==> o == Outcome(ErrorLine(argv[0], OutOfMemoryMessage), 1))
      && (p.Some? && p.value !in w.stores ==>
            |w.initError| <= |o.line| && o.line[|o.line| - |w.initError|..] == w.initError)
      && (p.Some? && p.value in w.stores &&
          Get(w.stores[p.value], ParseOptions(argv).mode, ParseOptions(argv).key.value).None?
          ==> o.code == 1 &&
              OccursAt(o.line, "Entry <" + ParseOptions(argv).key.value + "> not found: ", 9 + |argv[0]|))
  {
    RenderedLine(argv[0], Classify(argv, w));
  }

  /** The result of a successful lookup is "0" followed by the classad of the
      fetched entry as shown: without -w the classad is made from the entry with
      an empty worker node and every other field as stored; with -w from the
      entry as stored. */
  lemma FoundIsRedacted(argv: seq<string>, w: World, e: Entry)
    requires Invocable(argv, w) && Fetches(argv, w, e)
    ensures var o, shown := Render(argv[0], Classify(argv, w)), Shown(e, ParseOptions(argv).workerNode);
      && (w.serialize(shown).Some? ==> o == Outcome("0" + w.serialize(shown).value, 0))
      && (w.serialize(shown).None? ==> o == Outcome(ErrorLine(argv[0], OutOfMemoryMessage), 1))
    ensures var shown := Shown(e, ParseOptions(argv).workerNode);
      && (!ParseOptions(argv).workerNode ==> CString(shown.wnAddr) == [])
      && (ParseOptions(argv).workerNode ==> shown == e)
      && shown.blahId == e.blahId && shown.batchId == e.batchId && shown.otherFields == e.otherFields
  {
    ShownEntry(e, ParseOptions(argv).workerNode);
  }
}
