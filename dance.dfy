/** The `dance` entry point: the command line read, then the configuration file loaded and driven. */
module Dance {
  import opened Strings
  import opened Values
  import opened Logging
  import opened Operations
  import opened Filer
  import opened Loader

  const ExtrasUsage: string := "Expected extra arguments in the form of X=Y"
  const FilesUsage: string := "the following arguments are required: config_file"

  /** Line 48: `dict(ext.split('=') for ext in extras)`; a piece count other than two raises
      `ValueError`, and a later pair replaces an earlier one with the same name. */
  function ParseExtras(extras: seq<string>): (r: Option<map<string, string>>)
    ensures r.Some? ==> forall k :: k in r.value ==> '=' !in k && '=' !in r.value[k]
  {
    if extras == [] then Some(map[])
    else
      var init := ParseExtras(extras[..|extras| - 1]);
      var parts := Split(extras[|extras| - 1], '=');
      if init.None? || |parts| != 2 then None
      else Some(init.value[parts[0] := parts[1]])
  }

  /** The extras are accepted exactly when every one of them holds a single `=`. */
  lemma {:induction false} ExtrasAccepted(extras: seq<string>)
    ensures ParseExtras(extras).Some? <==> forall i :: 0 <= i < |extras| ==> Count(extras[i], '=') == 1
  {
    if extras != [] {
      var init := extras[..|extras| - 1];
      ExtrasAccepted(init);
      SplitCount(extras[|extras| - 1], '=');
      assert forall i :: 0 <= i < |init| ==> init[i] == extras[i];
    }
  }

  /** `name=value` splits back into its two halves when neither holds a `=`. */
  lemma SplitPair(name: string, value: string)
    requires '=' !in name && '=' !in value
    ensures Split(name + "=" + value, '=') == [name, value]
  {
    var s := name + "=" + value;
    assert s[|name|] == '=';
    assert s[..|name|] == name;
    assert IndexOf(s, '=') == |name|;
    assert s[|name| + 1..] == value;
  }

  /** Adding `name=value` after accepted extras binds `name` to `value`, over any earlier pair. */
  lemma ExtraAppended(extras: seq<string>, name: string, value: string)
    requires '=' !in name && '=' !in value
    ensures ParseExtras(extras + [name + "=" + value]) ==
      if ParseExtras(extras).Some? then Some(ParseExtras(extras).value[name := value]) else None
  {
    SplitPair(name, value);
    assert (extras + [name + "=" + value])[..|extras|] == extras;
  }

  /** How the script ends: an `argparse` usage error (exit status 2), an exception escaping, or
      normally. */
  datatype Exit = UsageError(message: string) | Crashed(fault: Fault) | Finished

  /** Lines 40-52: at least one file is demanded, exactly one is unpacked, the extras are parsed,
      then `load_config` is drained. */
  function Dance(files: seq<string>, dryRun: bool, extras: seq<string>, host: Host, env: Env, st: State): (r: (Exit, State))
    ensures files == [] ==> r == (UsageError(FilesUsage), st)
    ensures |files| > 1 ==> r == (Crashed(TooManyConfigFiles), st)
    ensures |files| == 1 && ParseExtras(extras).None? ==> r == (UsageError(ExtrasUsage), st)
    ensures |files| == 1 && ParseExtras(extras).Some? ==>
      var run := LoadConfig(files[0], dryRun, ParseExtras(extras).value, host, env, st);
      r.1 == run.state && (r.0.Crashed? <==> run.fault.Some?) && (r.0.Crashed? ==> r.0.fault == run.fault.value)
    ensures r.0.Finished? ==>
      (|files| == 1 && ParseExtras(extras).Some? &&
       LoadConfig(files[0], dryRun, ParseExtras(extras).value, host, env, st).fault.None?)
  {
    if files == [] then (UsageError(FilesUsage), st)
    else if |files| > 1 then (Crashed(TooManyConfigFiles), st)
    else match ParseExtras(extras)
      case None => (UsageError(ExtrasUsage), st)
      case Some(parsed) =>
        var run := LoadConfig(files[0], dryRun, parsed, host, env, st);
        (if run.fault.Some? then Crashed(run.fault.value) else Finished, run.state)
  }

  /** A configuration file that cannot be found, or that does not define `DOTFILES`, is only
      reported in the log: the script ends normally and the file system is untouched. */
  lemma ConfigErrorsEndNormally(file: string, dryRun: bool, extras: seq<string>, host: Host, env: Env, st: State)
    requires ParseExtras(extras).Some?
    requires host.exec(file).Missing? ||
      (host.exec(file).Defines? && forall i :: 0 <= i < |host.exec(file).attrs| ==> host.exec(file).attrs[i].0 != DotfilesKey)
    ensures Dance([file], dryRun, extras, host, env, st).0 == Finished
    ensures Dance([file], dryRun, extras, host, env, st).1.fs == st.fs
  {
    if host.exec(file).Defines? {
      DotfilesRequired(file, dryRun, ParseExtras(extras).value, host, host.exec(file).attrs, env, st);
    }
  }

  /** The script, run against a world. */
  method RunScript(files: seq<string>, dryRun: bool, extras: seq<string>, host: Host, env: Env, world: World) returns (exit: Exit)
    modifies world
    ensures (exit, world.Snapshot()) == Dance(files, dryRun, extras, host, env, old(world.Snapshot()))
  {
    if files == [] {
      return UsageError(FilesUsage);
    }
    if |files| > 1 {
      return Crashed(TooManyConfigFiles);
    }
    var parsed := ParseExtras(extras);
    if parsed.None? {
      return UsageError(ExtrasUsage);
    }
    var loader := new ConfigLoad(files[0], dryRun, parsed.value);
    var records, fault := loader.Drain(host, env, world);
    exit := if fault.Some? then Crashed(fault.value) else Finished;
  }
}
