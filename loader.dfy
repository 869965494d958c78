/** `load_config` and `execute_config`: the configuration dictionary built from the executed
    configuration file, and the driver that primes, binds and drains every top-level unit. */
module Loader {
  import opened Strings
  import opened Values
  import opened Paths
  import opened Logging
  import opened FileSystem
  import opened Operations
  import opened Filer

  /** The names a configuration file must define, in sorted order. */
  const RequiredAttributes: seq<string> := [DotfilesKey]

  /** What executing the configuration file as a module gives: `FileNotFoundError`, another
      exception, or the module's attributes in the order `dir` lists them. */
  datatype Module = Missing | Raises | Defines(attrs: seq<(string, Setting)>)

  /** What `load_config` reads from the process besides its arguments: the module loader, the
      `HOME` variable and the working directory. */
  datatype Host = Host(exec: string -> Module, home: Option<string>, cwd: string)

  /** Line 45: a name is copied when it does not start with `_` and is its own upper-case form. */
  predicate Exported(name: string)
  {
    !StartsWith(name, "_") && name == Upper(name)
  }

  /** Lines 36-43: the built-in settings. */
  function Defaults(path: string, dryRun: bool, host: Host): (r: Config)
    ensures r.Keys == {DryRunKey, HomeKey, WorkingKey, TemplatesKey}
  {
    map[DryRunKey := Scalar(VBool(dryRun)),
        HomeKey := Scalar(if host.home.Some? then VStr(host.home.value) else VNone),
        WorkingKey := Scalar(VStr(Dirname(Abspath(path, host.cwd)))),
        TemplatesKey := Templates]
  }

  /** Lines 44-46: the exported attributes inserted over `cfg`, in order. */
  function Collect(cfg: Config, attrs: seq<(string, Setting)>): (r: Config)
    ensures r.Keys == cfg.Keys + (set i | 0 <= i < |attrs| && Exported(attrs[i].0) :: attrs[i].0)
  {
    if attrs == [] then cfg
    else
      var before := Collect(cfg, attrs[..|attrs| - 1]);
      var (name, value) := attrs[|attrs| - 1];
      if Exported(name) then before[name := value] else before
  }

  /** The value of the last attribute called `name`, if any. */
  function LastValue(attrs: seq<(string, Setting)>, name: string): (r: Option<Setting>)
    ensures r.None? <==> forall i :: 0 <= i < |attrs| ==> attrs[i].0 != name
  {
    if attrs == [] then None
    else if attrs[|attrs| - 1].0 == name then Some(attrs[|attrs| - 1].1)
    else LastValue(attrs[..|attrs| - 1], name)
  }

  /** The value found is the one of the last definition of the name. */
  lemma {:induction false} LastValueIsLast(attrs: seq<(string, Setting)>, name: string)
    requires LastValue(attrs, name).Some?
    ensures exists i :: (0 <= i < |attrs| && attrs[i] == (name, LastValue(attrs, name).value) &&
                         forall j :: i < j < |attrs| ==> attrs[j].0 != name)
  {
    var n := |attrs| - 1;
    if attrs[n].0 == name {
      assert attrs[n] == (name, LastValue(attrs, name).value);
    } else {
      var init := attrs[..n];
      LastValueIsLast(init, name);
      var i :| 0 <= i < n && init[i] == (name, LastValue(init, name).value)
        && (forall j :: i < j < n ==> init[j].0 != name);
      assert attrs[i] == init[i];
      assert forall j :: i < j < |attrs| ==> attrs[j].0 != name by {
        forall j | i < j < |attrs| ensures attrs[j].0 != name {
          if j < n { assert attrs[j] == init[j]; }
        }
      }
    }
  }

  /** The insertion loop of lines 44-46. */
  method BuildConfig(defaults: Config, attrs: seq<(string, Setting)>) returns (cfg: Config)
    ensures cfg == Collect(defaults, attrs)
  {
    cfg := defaults;
    var i := 0;
    while i < |attrs|
      invariant 0 <= i <= |attrs|
      invariant cfg == Collect(defaults, attrs[..i])
    {
      assert attrs[..i + 1][..i] == attrs[..i];
      var (name, value) := attrs[i];
      if !StartsWith(name, "_") && name == Upper(name) {
        cfg := cfg[name := value];
      }
      i := i + 1;
    }
    assert attrs[..i] == attrs;
  }

  /** Which attributes make it into the dictionary and with which value: an exported name takes
      the value of its last definition, over any built-in setting of the same name (the dry-run
      flag included); every other entry is the built-in one. */
  lemma {:induction false} CollectLookup(cfg: Config, attrs: seq<(string, Setting)>, name: string)
    ensures Exported(name) && LastValue(attrs, name).Some? ==>
      name in Collect(cfg, attrs) && Collect(cfg, attrs)[name] == LastValue(attrs, name).value
    ensures !(Exported(name) && LastValue(attrs, name).Some?) ==>
      (name in Collect(cfg, attrs) <==> name in cfg) &&
      (name in cfg ==> Collect(cfg, attrs)[name] == cfg[name])
  {
    if attrs != [] {
      var init := attrs[..|attrs| - 1];
      CollectLookup(cfg, init, name);
      if attrs[|attrs| - 1].0 != name {
        assert LastValue(attrs, name) == LastValue(init, name);
      }
    }
  }

  /** Line 48 and the order of line 50: the required names the dictionary lacks, in order. */
  function MissingNames(required: seq<string>, cfg: Config): (r: seq<string>)
    ensures forall n :: n in r <==> n in required && n !in cfg
    ensures |r| <= |required|
  {
    if required == [] then []
    else (if required[0] !in cfg then [required[0]] else []) + MissingNames(required[1..], cfg)
  }

  function MissingMessage(name: string): string
  {
    "Expected config file to define " + name + "."
  }

  /** One error per missing name, in order. */
  function MissingEntries(names: seq<string>): (r: seq<LogEntry>)
    ensures |r| == |names| && forall i :: 0 <= i < |names| ==> r[i] == LogEntry(Error, MissingMessage(names[i]))
  {
    if names == [] then [] else [LogEntry(Error, MissingMessage(names[0]))] + MissingEntries(names[1..])
  }

  /** `{**config, **extras}`: every extra, as a string, over the configuration. */
  function Merge(cfg: Config, extras: map<string, string>): (r: Config)
    ensures r.Keys == cfg.Keys + extras.Keys
    ensures forall k :: k in extras ==> r[k] == Scalar(VStr(extras[k]))
    ensures forall k :: k in cfg && k !in extras ==> r[k] == cfg[k]
  {
    map k | k in cfg.Keys + extras.Keys :: if k in extras then Scalar(VStr(extras[k])) else cfg[k]
  }

  /** Lines 62-66 over the list of units: each is primed, bound, and drained; the record `send`
      returns is dropped. A unit with nothing to yield once bound makes `send` raise
      `StopIteration`, and any exception ends the loop. */
  function DriveUnits(units: seq<Unit>, cfg: Config, env: Env, st: State): (r: Run)
    ensures Grows(st, r.state)
  {
    if units == [] then Run([], st, None)
    else
      var b := Body(units[0], Some(cfg), env, st);
      if b.records == [] then Run([], b.state, Some(if b.fault.Some? then b.fault.value else Stopped))
      else if b.fault.Some? then Run(b.records[1..], b.state, b.fault)
      else Then(Run(b.records[1..], b.state, None), DriveUnits(units[1..], cfg, env, b.state))
  }

  /** `execute_config(config)`: `config['DOTFILES']` iterated. A string is iterated character by
      character, so an empty one runs nothing and any other fails at `send`; any other value that
      is not a list of units is not iterable. */
  function ExecuteConfig(cfg: Config, env: Env, st: State): (r: Run)
    ensures Grows(st, r.state)
    ensures DotfilesKey !in cfg ==> r == Run([], st, Some(MissingKey(DotfilesKey)))
  {
    if DotfilesKey !in cfg then Run([], st, Some(MissingKey(DotfilesKey)))
    else match cfg[DotfilesKey]
      case Units(units) => DriveUnits(units, cfg, env, st)
      case Scalar(VStr(s)) => if s == "" then Run([], st, None) else Run([], st, Some(BadValue(DotfilesKey)))
      case _ => Run([], st, Some(BadValue(DotfilesKey)))
  }

  function NotFoundMessage(path: string): string
  {
    "Couldn't open configuration file: " + path
  }

  /** Everything iterating `load_config(path, dry_run, extras)` does (lines 26-54). */
  function LoadConfig(path: string, dryRun: bool, extras: map<string, string>, host: Host, env: Env, st: State): (r: Run)
    ensures Grows(st, r.state)
    ensures !host.exec(path).Defines? ==> r.records == [] && r.state.fs == st.fs
  {
    match host.exec(path)
    case Missing => Run([], Logged(st, [LogEntry(Error, NotFoundMessage(path))]), None)
    case Raises => Run([], st, Some(ConfigRaised))
    case Defines(attrs) => Configure(Collect(Defaults(path, dryRun, host), attrs), extras, env, st)
  }

  /** Lines 48-54: the required names checked, then the extras merged and the units run. */
  function Configure(cfg: Config, extras: map<string, string>, env: Env, st: State): (r: Run)
    ensures Grows(st, r.state)
    ensures MissingNames(RequiredAttributes, cfg) != [] ==> r.records == [] && r.state.fs == st.fs && r.fault.None?
  {
    var missing := MissingNames(RequiredAttributes, cfg);
    if missing != [] then Run([], Logged(st, MissingEntries(missing)), None)
    else ExecuteConfig(Merge(cfg, extras), env, st)
  }

  /** One turn of the loop of `execute_config`: `iter`, `next`, `send(config)`, `yield from`. */
  method DriveOne(units: seq<Unit>, cfg: Config, env: Env, world: World) returns (records: seq<Record>, fault: Option<Fault>)
    requires units != []
    modifies world
    ensures fault.Some? ==> DriveUnits(units, cfg, env, old(world.Snapshot())) == Run(records, world.Snapshot(), fault)
    ensures fault.None? ==>
      DriveUnits(units, cfg, env, old(world.Snapshot())) ==
      Prefixed(records, DriveUnits(units[1..], cfg, env, world.Snapshot()))
  {
    ghost var st := world.Snapshot();
    ghost var b := Body(units[0], Some(cfg), env, st);
    var files := new Generator(units[0]);
    var primed := files.Next(env, world);
    var discarded := files.Send(Some(cfg), env, world);
    match discarded
    case Exhausted =>
      return [], Some(Stopped);
    case Raised(f) =>
      return [], Some(f);
    case Yielded(_) =>
      records, fault := files.Exhaust(env, world);
      if fault.None? {
        ghost var rest := DriveUnits(units[1..], cfg, env, world.Snapshot());
        assert DriveUnits(units, cfg, env, st) == Prefixed(records, rest);
      }
  }

  /** The loop of `execute_config`, lines 62-66. */
  method DriveAll(units: seq<Unit>, cfg: Config, env: Env, world: World) returns (records: seq<Record>, fault: Option<Fault>)
    modifies world
    ensures Run(records, world.Snapshot(), fault) == DriveUnits(units, cfg, env, old(world.Snapshot()))
  {
    ghost var total := DriveUnits(units, cfg, env, world.Snapshot());
    records, fault := [], None;
    var i := 0;
    assert units[i..] == units;
    PrefixedNothing(total);
    while i < |units| && fault.None?
      invariant 0 <= i <= |units|
      invariant fault.None? ==> total == Prefixed(records, DriveUnits(units[i..], cfg, env, world.Snapshot()))
      invariant fault.Some? ==> total == Run(records, world.Snapshot(), fault)
      decreases |units| - i
    {
      assert units[i..][1..] == units[i + 1..];
      ghost var whole := DriveUnits(units[i..], cfg, env, world.Snapshot());
      var recs;
      recs, fault := DriveOne(units[i..], cfg, env, world);
      ghost var tail := DriveUnits(units[i + 1..], cfg, env, world.Snapshot());
      if fault.None? {
        PrefixedTwice(records, recs, tail);
      } else {
        PrefixedAfter(records, recs, whole, world.Snapshot(), fault);
      }
      records := records + recs;
      i := i + 1;
    }
    if fault.None? {
      assert units[i..] == [];
      PrefixedEnd(records, world.Snapshot());
    }
  }

  lemma PrefixedAfter(records: seq<Record>, recs: seq<Record>, r: Run, st: State, fault: Option<Fault>)
    requires r == Run(recs, st, fault)
    ensures Prefixed(records, r) == Run(records + recs, st, fault)
  {
  }

  /** `execute_config(config)`, drained. */
  method Execute(cfg: Config, env: Env, world: World) returns (records: seq<Record>, fault: Option<Fault>)
    modifies world
    ensures Run(records, world.Snapshot(), fault) == ExecuteConfig(cfg, env, old(world.Snapshot()))
  {
    if DotfilesKey !in cfg {
      return [], Some(MissingKey(DotfilesKey));
    }
    match cfg[DotfilesKey]
    case Units(units) =>
      records, fault := DriveAll(units, cfg, env, world);
    case Scalar(VStr(s)) =>
      return [], if s == "" then None else Some(BadValue(DotfilesKey));
    case _ =>
      return [], Some(BadValue(DotfilesKey));
  }

  /** The generator `load_config(path, dry_run, extras)` returns. */
  class ConfigLoad {
    const path: string
    const dryRun: bool
    const extras: map<string, string>
    var started: bool

    /** Calling `load_config` reads no file and drives nothing. */
    constructor(path: string, dryRun: bool, extras: map<string, string>)
      ensures this.path == path && this.dryRun == dryRun && this.extras == extras && !started
    {
      this.path := path;
      this.dryRun := dryRun;
      this.extras := extras;
      started := false;
    }

    /** Iterating the generator to its end: the file is executed, the dictionary built and checked,
        and the units driven. */
    method Drain(host: Host, env: Env, world: World) returns (records: seq<Record>, fault: Option<Fault>)
      requires !started
      modifies this, world
      ensures started
      ensures Run(records, world.Snapshot(), fault) == LoadConfig(path, dryRun, extras, host, env, old(world.Snapshot()))
    {
      started := true;
      match host.exec(path)
      case Missing =>
        world.log := world.log + [LogEntry(Error, NotFoundMessage(path))];
        return [], None;
      case Raises =>
        return [], Some(ConfigRaised);
      case Defines(attrs) =>
        var config := BuildConfig(Defaults(path, dryRun, host), attrs);
        var missing := MissingNames(RequiredAttributes, config);
        if missing != [] {
          LogMissing(missing, world);
          return [], None;
        }
        records, fault := Execute(Merge(config, extras), env, world);
    }
  }

  /** Line 50: one error logged per missing name. */
  method LogMissing(missing: seq<string>, world: World)
    modifies world
    ensures world.Snapshot() == Logged(old(world.Snapshot()), MissingEntries(missing))
  {
    var i := 0;
    while i < |missing|
      invariant 0 <= i <= |missing|
      invariant world.Snapshot() == Logged(old(world.Snapshot()), MissingEntries(missing[..i]))
    {
      MissingEntriesAppend(missing[..i], missing[i]);
      assert missing[..i + 1] == missing[..i] + [missing[i]];
      world.log := world.log + [LogEntry(Error, MissingMessage(missing[i]))];
      i := i + 1;
    }
    assert missing[..i] == missing;
  }

  lemma MissingEntriesAppend(names: seq<string>, name: string)
    ensures MissingEntries(names + [name]) == MissingEntries(names) + [LogEntry(Error, MissingMessage(name))]
  {
  }

  /** Driving a list of units is driving its first part and, unless that faulted, the rest
      from where the first part left the world. */
  lemma {:induction false} DriveAppend(a: seq<Unit>, b: seq<Unit>, cfg: Config, env: Env, st: State)
    ensures var x := DriveUnits(a, cfg, env, st);
      DriveUnits(a + b, cfg, env, st) == if x.fault.Some? then x else Then(x, DriveUnits(b, cfg, env, x.state))
  {
    if a == [] {
      assert a + b == b;
      var y := DriveUnits(b, cfg, env, st);
      assert [] + y.records == y.records;
    } else {
      assert (a + b)[0] == a[0];
      assert (a + b)[1..] == a[1..] + b;
      var h := Body(a[0], Some(cfg), env, st);
      if h.records != [] && h.fault.None? {
        DriveAppend(a[1..], b, cfg, env, h.state);
        var x := DriveUnits(a[1..], cfg, env, h.state);
        if x.fault.None? {
          var y := DriveUnits(b, cfg, env, x.state);
          assert h.records[1..] + x.records + y.records == h.records[1..] + (x.records + y.records);
        }
      }
    }
  }

  /** The dry run of units that have no dependencies and whose destinations resolve. */
  predicate Describable(units: seq<Unit>, cfg: Config)
  {
    forall i :: 0 <= i < |units| ==> units[i].deps == [] && ResolvePath(units[i].path, Some(cfg)).Ok?
  }

  /** The log line a unit writes in a dry run. */
  function DryRunEntry(u: Unit, cfg: Config): LogEntry
    requires ResolvePath(u.path, Some(cfg)).Ok?
  {
    LogEntry(Info, Describe(Name(u.kind), ResolvePath(u.path, Some(cfg)).value, u.args, u.kwargs))
  }

  /** The log lines the units write in a dry run. */
  function Descriptions(units: seq<Unit>, cfg: Config): (r: seq<LogEntry>)
    requires Describable(units, cfg)
    ensures |r| == |units|
  {
    if units == [] then []
    else
      [DryRunEntry(units[0], cfg)] + Descriptions(units[1..], cfg)
  }

  /** In a dry run every unit logs its description, in order, and the driver yields nothing:
      the one `None` each unit yields is the record `send` returns, which is dropped. */
  lemma {:induction false} DryRunLogsEveryUnit(units: seq<Unit>, cfg: Config, env: Env, st: State)
    requires Describable(units, cfg)
    requires DryRunKey in cfg && SettingTruthy(cfg[DryRunKey])
    ensures DriveUnits(units, cfg, env, st) == Run([], Logged(st, Descriptions(units, cfg)), None)
  {
    if units != [] {
      var e := DryRunEntry(units[0], cfg);
      var st1 := Logged(st, [e]);
      DryRunStep(units, cfg, env, st);
      DryRunLogsEveryUnit(units[1..], cfg, env, st1);
      LoggedAfter(st, [e], Descriptions(units[1..], cfg));
    }
  }

  lemma LoggedAfter(st: State, first: seq<LogEntry>, rest: seq<LogEntry>)
    ensures Then(Run([], Logged(st, first), None), Run([], Logged(Logged(st, first), rest), None)) ==
      Run([], Logged(st, first + rest), None)
  {
    assert st.log + first + rest == st.log + (first + rest);
  }

  lemma DryRunStep(units: seq<Unit>, cfg: Config, env: Env, st: State)
    requires units != [] && Describable(units, cfg)
    requires DryRunKey in cfg && SettingTruthy(cfg[DryRunKey])
    ensures Describable(units[1..], cfg)
    ensures var st1 := Logged(st, [DryRunEntry(units[0], cfg)]);
      DriveUnits(units, cfg, env, st) == Then(Run([], st1, None), DriveUnits(units[1..], cfg, env, st1))
  {
    DryRunDescribes(units[0], cfg, env, st);
    assert [NoneRecord][1..] == [];
    forall i | 0 <= i < |units| - 1 ensures units[1..][i] == units[i + 1] { }
  }

  /** A top-level unit with dependencies halts the whole run: the dependencies fault on the
      `None` they are primed with, and of the `None`s yielded on the way only the first is lost. */
  lemma DependencyHaltsRun(units: seq<Unit>, cfg: Config, env: Env, st: State)
    requires units != [] && units[0].deps != []
    ensures FirstChain(units[0]) >= 1
    ensures DriveUnits(units, cfg, env, st) == Run(Nones(FirstChain(units[0]) - 1), st, Some(NoneSubscript))
  {
    DependencyFaults(units[0], Some(cfg), env, st);
    assert Nones(FirstChain(units[0]))[1..] == Nones(FirstChain(units[0]) - 1);
  }

  /** A unit that yields nothing ends the run with `StopIteration` (or its own exception), and the
      units after it never run. */
  lemma SilentUnitStops(units: seq<Unit>, more: seq<Unit>, cfg: Config, env: Env, st: State)
    requires units != [] && Body(units[0], Some(cfg), env, st).records == []
    ensures var b := Body(units[0], Some(cfg), env, st);
      DriveUnits(units + more, cfg, env, st) ==
        Run([], b.state, Some(if b.fault.Some? then b.fault.value else Stopped))
  {
    assert (units + more)[0] == units[0];
  }

  /** The dictionary the units of a configuration file receive (lines 37-52). */
  function Received(path: string, dryRun: bool, extras: map<string, string>, host: Host,
                    attrs: seq<(string, Setting)>): Config
  {
    Merge(Collect(Defaults(path, dryRun, host), attrs), extras)
  }

  /** The dictionary the units receive: an extra wins over everything and is a string; then the
      last exported module attribute; then the built-in setting. */
  lemma LoadedSetting(path: string, dryRun: bool, extras: map<string, string>, host: Host,
                      attrs: seq<(string, Setting)>, name: string)
    ensures name in extras ==>
      name in Received(path, dryRun, extras, host, attrs) &&
      Received(path, dryRun, extras, host, attrs)[name] == Scalar(VStr(extras[name]))
    ensures name !in extras && Exported(name) && LastValue(attrs, name).Some? ==>
      name in Received(path, dryRun, extras, host, attrs) &&
      Received(path, dryRun, extras, host, attrs)[name] == LastValue(attrs, name).value
    ensures name !in extras && !(Exported(name) && LastValue(attrs, name).Some?) ==>
      (name in Received(path, dryRun, extras, host, attrs) <==> name in Defaults(path, dryRun, host)) &&
      (name in Defaults(path, dryRun, host) ==>
         Received(path, dryRun, extras, host, attrs)[name] == Defaults(path, dryRun, host)[name])
  {
    CollectLookup(Defaults(path, dryRun, host), attrs, name);
  }

  /** Any non-empty `DRY_RUN=...` extra turns the dry run on, and an empty one turns it off,
      whatever the module and the command line say. */
  lemma DryRunExtra(cfg: Config, extras: map<string, string>)
    requires DryRunKey in extras
    ensures DryRunKey in Merge(cfg, extras)
    ensures SettingTruthy(Merge(cfg, extras)[DryRunKey]) <==> |extras[DryRunKey]| > 0
  {
    var flag := extras[DryRunKey];
    assert Merge(cfg, extras)[DryRunKey] == Scalar(VStr(flag));
    if |flag| == 0 {
      assert flag == [];
    }
  }

  /** A configuration file that does not define `DOTFILES` logs one error and runs nothing; an
      extra argument cannot supply it, since the check comes before the extras are merged. */
  lemma DotfilesRequired(path: string, dryRun: bool, extras: map<string, string>, host: Host,
                         attrs: seq<(string, Setting)>, env: Env, st: State)
    requires host.exec(path) == Defines(attrs)
    requires forall i :: 0 <= i < |attrs| ==> attrs[i].0 != DotfilesKey
    ensures LoadConfig(path, dryRun, extras, host, env, st) ==
      Run([], Logged(st, [LogEntry(Error, MissingMessage(DotfilesKey))]), None)
  {
    var cfg := Collect(Defaults(path, dryRun, host), attrs);
    CollectLacksDotfiles(path, dryRun, host, attrs);
    DotfilesReported(cfg, extras, env, st);
    assert LoadConfig(path, dryRun, extras, host, env, st) == Configure(cfg, extras, env, st);
  }

  lemma CollectLacksDotfiles(path: string, dryRun: bool, host: Host, attrs: seq<(string, Setting)>)
    requires forall i :: 0 <= i < |attrs| ==> attrs[i].0 != DotfilesKey
    ensures DotfilesKey !in Collect(Defaults(path, dryRun, host), attrs)
  {
    BuiltinsLackDotfiles(Defaults(path, dryRun, host));
    CollectLookup(Defaults(path, dryRun, host), attrs, DotfilesKey);
  }

  /** The built-in settings never include `DOTFILES`. */
  lemma BuiltinsLackDotfiles(cfg: Config)
    requires cfg.Keys == {DryRunKey, HomeKey, WorkingKey, TemplatesKey}
    ensures DotfilesKey !in cfg
  {
    assert |DotfilesKey| < |DryRunKey| && |DotfilesKey| < |HomeKey|;
    assert |DotfilesKey| < |WorkingKey| && |DotfilesKey| < |TemplatesKey|;
  }

  lemma DotfilesReported(cfg: Config, extras: map<string, string>, env: Env, st: State)
    requires DotfilesKey !in cfg
    ensures Configure(cfg, extras, env, st) == Run([], Logged(st, [LogEntry(Error, MissingMessage(DotfilesKey))]), None)
  {
    assert MissingNames(RequiredAttributes, cfg) == [DotfilesKey];
    assert MissingEntries([DotfilesKey]) == [LogEntry(Error, MissingMessage(DotfilesKey))];
  }

  /** A configuration file that cannot be found is reported in the log and the run ends
      normally, with nothing done. */
  lemma MissingFileEndsQuietly(path: string, dryRun: bool, extras: map<string, string>, host: Host, env: Env, st: State)
    requires host.exec(path).Missing?
    ensures var r := LoadConfig(path, dryRun, extras, host, env, st);
      r.records == [] && r.fault.None? && r.state.fs == st.fs && r.state.log == st.log + [LogEntry(Error, NotFoundMessage(path))]
  {
  }
}
