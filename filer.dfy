/** The decorated operations as the pipeline runs them: a world whose file system and log change
    in place, and a suspended generator per unit, advanced by `next` and `send`. Each method is
    proved to do what the functions of `Operations` specify. */
module Filer {
  import opened Values
  import opened Strings
  import opened Paths
  import opened Globber
  import opened Logging
  import opened FileSystem
  import opened Operations

  /** `r` run after `records` were already yielded. */
  function Prefixed(records: seq<Record>, r: Run): Run
  {
    Run(records + r.records, r.state, r.fault)
  }

  lemma PrefixedTwice(a: seq<Record>, b: seq<Record>, r: Run)
    ensures Prefixed(a, Prefixed(b, r)) == Prefixed(a + b, r)
  {
    assert a + (b + r.records) == (a + b) + r.records;
  }

  lemma PrefixedNothing(r: Run)
    ensures Prefixed([], r) == r
  {
    assert [] + r.records == r.records;
  }

  lemma PrefixedFault(records: seq<Record>, r: Run, st: State, fault: Option<Fault>)
    requires r == Run([], st, fault)
    ensures Prefixed(records, r) == Run(records, st, fault)
  {
    assert records + [] == records;
  }

  lemma PrefixedEnd(records: seq<Record>, st: State)
    ensures Prefixed(records, Run([], st, None)) == Run(records, st, None)
  {
    assert records + [] == records;
  }

  /** The process's file system and log. */
  class World {
    var fs: Fs
    var log: seq<LogEntry>

    function Snapshot(): State
      reads this
    {
      State(fs, log)
    }

    constructor(st: State)
      ensures Snapshot() == st
    {
      fs := st.fs;
      log := st.log;
    }

    /** Lines 17-27 of `inner`, once the config is received: the dependencies, then the unit's own step. */
    method RunBody(u: Unit, cfg: Option<Config>, env: Env) returns (records: seq<Record>, fault: Option<Fault>)
      modifies this
      ensures Run(records, Snapshot(), fault) == Body(u, cfg, env, old(Snapshot()))
      decreases u, 1
    {
      records, fault := Drain(u.deps, env);
      if fault.None? {
        var own, f := RunOwn(u, cfg, env);
        records := records + own;
        fault := f;
      }
    }

    /** Lines 18-19: `yield from dep` for each dependency, in order, until one raises. */
    method Drain(deps: seq<Unit>, env: Env) returns (records: seq<Record>, fault: Option<Fault>)
      modifies this
      ensures Run(records, Snapshot(), fault) == DrainDeps(deps, env, old(Snapshot()))
      decreases deps, 0
    {
      ghost var st0 := Snapshot();
      records, fault := [], None;
      var i := 0;
      while i < |deps| && fault.None?
        invariant 0 <= i <= |deps|
        invariant fault.None? ==> DrainDeps(deps, env, st0) == Prefixed(records, DrainDeps(deps[i..], env, Snapshot()))
        invariant fault.Some? ==> DrainDeps(deps, env, st0) == Run(records, Snapshot(), fault)
        decreases |deps| - i
      {
        ghost var before := Snapshot();
        ghost var tail := DrainDeps(deps[i + 1..], env, Body(deps[i], None, env, before).state);
        assert deps[i..][0] == deps[i] && deps[i..][1..] == deps[i + 1..];
        // the dependency was never primed: its priming `None` is the parent's record
        var recs, f := RunBody(deps[i], None, env);
        assert records + ([NoneRecord] + recs + tail.records) == (records + [NoneRecord] + recs) + tail.records;
        records := records + [NoneRecord] + recs;
        fault := f;
        i := i + 1;
      }
    }

    /** Lines 21-27: resolve the destination, then log a description or run the operation. */
    method RunOwn(u: Unit, cfg: Option<Config>, env: Env) returns (records: seq<Record>, fault: Option<Fault>)
      modifies this
      ensures Run(records, Snapshot(), fault) == Own(u, cfg, env, old(Snapshot()))
    {
      var path := u.path;
      if !IsAbs(path) {
        match Lookup(cfg, HomeKey)
        case Err(f) =>
          return [], Some(f);
        case Ok(Scalar(VStr(home))) =>
          path := Join(home, path);
        case Ok(_) =>
          return [], Some(BadValue(HomeKey));
      }
      assert ResolvePath(u.path, cfg) == Ok(path);
      match Lookup(cfg, DryRunKey)
      case Err(f) =>
        return [], Some(f);
      case Ok(flag) =>
        if SettingTruthy(flag) {
          var (_, entry) := LogOperation(Name(u.kind), path, u.args, u.kwargs);
          log := log + [entry];
          return [NoneRecord], None;
        } else {
          records, fault := Apply(u, path, cfg.value, env);
        }
    }

    /** Line 27: `fn(path, *args, config = config, **kwargs)`. */
    method Apply(u: Unit, dest: string, cfg: Config, env: Env) returns (records: seq<Record>, fault: Option<Fault>)
      modifies this
      ensures Run(records, Snapshot(), fault) == Effect(u, dest, cfg, env, old(Snapshot()))
    {
      match BindArgs(u.kind, u.args, u.kwargs)
      case Err(f) =>
        return [], Some(f);
      case Ok(params) =>
        match u.kind
        case Copy =>
          records, fault := RunCopy(dest, params["source"], params["template"], cfg, env);
        case Touch =>
          records, fault := RunTouch(dest, env);
        case Mkdir =>
          records, fault := RunMkdir(dest, env);
        case Mode =>
          records, fault := RunMode(dest, params["octal"]);
        case GitClone =>
          records, fault := RunGitClone(dest, params["source"], params["branch"], env);
        case Download =>
          records, fault := RunDownload(dest, params["source"], env);
    }

    /** `copy`, lines 33-52. */
    method RunCopy(dest: string, source: Value, template: Value, cfg: Config, env: Env) returns (records: seq<Record>, fault: Option<Fault>)
      modifies this
      ensures Run(records, Snapshot(), fault) == CopyEffect(dest, source, template, cfg, env, old(Snapshot()))
    {
      if WorkingKey !in cfg {
        return [], Some(MissingKey(WorkingKey));
      }
      var wd := cfg[WorkingKey];
      if !(wd.Scalar? && wd.value.VStr?) {
        return [], Some(BadValue(WorkingKey));
      }
      if !source.VStr? {
        return [], Some(BadValue("source"));
      }
      var sources := Glob(source.s, wd.value.s, env.walk(wd.value.s));
      if EndsWith(source.s, "*") && !EndsWith(dest, "*") {
        log := log + [LogEntry(Error, GlobGuardMessage)];
        return [], None;
      }
      var destDir := Dirname(dest);
      // `template` is rebound to a template object on the first iteration, which stays truthy
      var templating := Truthy(template);
      records, fault := CopyAll(sources, destDir, templating, cfg, env);
    }

    /** The loop of `copy`, lines 41-52. */
    method CopyAll(sources: seq<string>, destDir: string, templating: bool, cfg: Config, env: Env) returns (records: seq<Record>, fault: Option<Fault>)
      modifies this
      ensures Run(records, Snapshot(), fault) == CopyEach(sources, destDir, templating, cfg, env, old(Snapshot()))
    {
      ghost var total := CopyEach(sources, destDir, templating, cfg, env, Snapshot());
      records, fault := [], None;
      var rest := sources;
      PrefixedNothing(total);
      while rest != [] && fault.None?
        invariant fault.None? ==> total == Prefixed(records, CopyEach(rest, destDir, templating, cfg, env, Snapshot()))
        invariant fault.Some? ==> total == Run(records, Snapshot(), fault)
        decreases |rest|
      {
        ghost var whole := CopyEach(rest, destDir, templating, cfg, env, Snapshot());
        var rec;
        rec, fault := CopyStep(rest, destDir, templating, cfg, env);
        if fault.None? {
          PrefixedTwice(records, [rec], CopyEach(rest[1..], destDir, templating, cfg, env, Snapshot()));
          records := records + [rec];
        } else {
          PrefixedFault(records, whole, Snapshot(), fault);
        }
        rest := rest[1..];
      }
      if fault.None? {
        PrefixedEnd(records, Snapshot());
      }
    }

    /** One iteration of the loop of `copy`: the first remaining source rendered or copied to
        `destDir/basename(source)`. */
    method CopyStep(sources: seq<string>, destDir: string, templating: bool, cfg: Config, env: Env) returns (rec: Record, fault: Option<Fault>)
      requires sources != []
      modifies this
      ensures fault.Some? ==> CopyEach(sources, destDir, templating, cfg, env, old(Snapshot())) == Run([], Snapshot(), fault)
      ensures fault.None? ==>
        CopyEach(sources, destDir, templating, cfg, env, old(Snapshot())) ==
        Prefixed([rec], CopyEach(sources[1..], destDir, templating, cfg, env, Snapshot()))
    {
      CopyEachUnfold(sources, destDir, templating, cfg, env, Snapshot());
      var (reached, out) := CopyOne(sources[0], Join(destDir, Basename(sources[0])), templating, cfg, env, fs);
      fs := reached;
      if out.Err? {
        return NoneRecord, Some(out.error);
      }
      return out.value, None;
    }

    /** `touch`, lines 55-58. */
    method RunTouch(dest: string, env: Env) returns (records: seq<Record>, fault: Option<Fault>)
      modifies this
      ensures Run(records, Snapshot(), fault) == TouchEffect(dest, env, old(Snapshot()))
    {
      match AppendOpen(fs, dest, env.now)
      case Err(e) =>
        return [], Some(OsFault(e));
      case Ok(appended) =>
        fs := appended;
        records := [NoneRecord];
      match Utime(fs, dest, env.now)
      case Err(e) =>
        fault := Some(OsFault(e));
      case Ok(touched) =>
        fs := touched;
        records := records + [NoneRecord];
        fault := None;
    }

    /** `mkdir`, lines 61-63. */
    method RunMkdir(dest: string, env: Env) returns (records: seq<Record>, fault: Option<Fault>)
      modifies this
      ensures Run(records, Snapshot(), fault) == MkdirEffect(dest, env, old(Snapshot()))
    {
      match MakeDirs(fs, dest, env.now)
      case Err(e) =>
        return [], Some(OsFault(e));
      case Ok(made) =>
        fs := made;
        return [NoneRecord], None;
    }

    /** `mode`, lines 66-68. */
    method RunMode(dest: string, octal: Value) returns (records: seq<Record>, fault: Option<Fault>)
      modifies this
      ensures Run(records, Snapshot(), fault) == ModeEffect(dest, octal, old(Snapshot()))
    {
      match AsInt(octal)
      case None =>
        return [], Some(BadValue("octal"));
      case Some(bits) =>
        match Chmod(fs, dest, bits)
        case Err(e) =>
          return [], Some(OsFault(e));
        case Ok(changed) =>
          fs := changed;
          return [NoneRecord], None;
    }

    /** `gitclone`, lines 71-77. */
    method RunGitClone(dest: string, source: Value, branch: Value, env: Env) returns (records: seq<Record>, fault: Option<Fault>)
      modifies this
      ensures Run(records, Snapshot(), fault) == GitCloneEffect(dest, source, branch, env, old(Snapshot()))
    {
      if !source.VStr? {
        return [], Some(BadValue("source"));
      }
      var checkout := Checkout(branch);
      if checkout.None? {
        return [], Some(BadValue("branch"));
      }
      match env.clone(source.s, dest, checkout.value)
      case Cloned =>
        var made := MakeDirs(fs, dest, env.now);
        if made.Err? {
          return [], Some(CloneFault);
        }
        fs := made.value;
        return [RepoRecord(dest)], None;
      case ExistingRepository =>
        log := log + [LogEntry(Info, SkippedCloneMessage(dest))];
        return [NoneRecord], None;
      case CloneError =>
        return [], Some(CloneFault);
    }

    /** The `except` branch of `download`, lines 88-91. */
    method DownloadFailed()
      modifies this
      ensures Snapshot() == DownloadFailure(old(Snapshot())).state
    {
      log := log + [LogEntry(Error, DownloadFailedMessage), LogEntry(Error, TracebackMessage)];
    }

    /** `download`, lines 81-91. */
    method RunDownload(dest: string, source: Value, env: Env) returns (records: seq<Record>, fault: Option<Fault>)
      modifies this
      ensures Run(records, Snapshot(), fault) == DownloadEffect(dest, source, env, old(Snapshot()))
    {
      fault := None;
      if !source.VStr? || env.fetch(source.s).Unreachable? {
        DownloadFailed();
        return [NoneRecord], None;
      }
      var stream := env.fetch(source.s);
      match WriteFile(fs, dest, "", env.now)
      case Err(_) =>
        DownloadFailed();
        return [NoneRecord], None;
      case Ok(truncated) =>
        fs := truncated;
      records := WriteAll(stream.chunks, dest, env);
      if stream.broken {
        DownloadFailed();
        records := records + [NoneRecord];
      }
    }

    /** The chunk loop of `download`, lines 85-87: each non-empty chunk is written and counted. */
    method WriteAll(chunks: seq<string>, dest: string, env: Env) returns (records: seq<Record>)
      requires dest in fs && fs[dest].File?
      modifies this
      ensures (records, fs) == WriteChunks(chunks, dest, env, old(fs)) && log == old(log)
    {
      ghost var fs0 := fs;
      records := [];
      var i := 0;
      assert chunks[i..] == chunks && records + WriteChunks(chunks, dest, env, fs).0 == WriteChunks(chunks, dest, env, fs).0;
      while i < |chunks|
        invariant 0 <= i <= |chunks| && log == old(log)
        invariant dest in fs && fs[dest].File?
        invariant var rest := WriteChunks(chunks[i..], dest, env, fs);
          WriteChunks(chunks, dest, env, fs0) == (records + rest.0, rest.1)
      {
        assert chunks[i..][0] == chunks[i] && chunks[i..][1..] == chunks[i + 1..];
        var chunk := chunks[i];
        if chunk != "" {
          ghost var tail := WriteChunks(chunks[i + 1..], dest, env, AppendContent(fs, dest, chunk, env.now)).0;
          assert records + ([CountRecord(|chunk|)] + tail) == (records + [CountRecord(|chunk|)]) + tail;
          fs := AppendContent(fs, dest, chunk, env.now);
          records := records + [CountRecord(|chunk|)];
        }
        i := i + 1;
      }
      assert chunks[i..] == [] && records + [] == records;
    }
  }

  /** Where a unit's generator stands. */
  datatype Phase =
    | Created  // returned by calling the operation; no line of the body has run
    | Primed   // stopped at `config = (yield)`
    | Running  // the body ran with its config; the records not yet handed out are pending
    | Closed   // returned or raised: every further resumption raises StopIteration

  /** What one resumption gives the caller. */
  datatype Resumed = Yielded(record: Record) | Exhausted | Raised(fault: Fault)

  /** What resuming a generator whose body produced `b` gives first. */
  function FirstResumption(b: Run): Resumed
  {
    if b.records != [] then Yielded(b.records[0])
    else if b.fault.Some? then Raised(b.fault.value)
    else Exhausted
  }

  /** The generator `inner` returns. Its body runs at the resumption that delivers the config, and
      its records are handed out one per resumption after that. */
  class Generator {
    const unit: Unit
    var phase: Phase
    var pending: seq<Record>
    var outcome: Option<Fault>

    /** Calling a decorated operation builds the generator and does nothing else: no world is
        even within reach. */
    constructor(u: Unit)
      ensures unit == u && phase == Created && pending == [] && outcome == None
    {
      unit := u;
      phase := Created;
      pending := [];
      outcome := None;
    }

    /** Hands out the next pending record, or ends the generator with its outcome. */
    method Pop() returns (r: Resumed)
      requires phase == Running
      modifies this
      ensures old(pending) != [] ==> r == Yielded(old(pending)[0]) && pending == old(pending)[1..] && phase == Running
      ensures old(pending) == [] ==>
        phase == Closed && pending == [] && r == (if old(outcome).Some? then Raised(old(outcome).value) else Exhausted)
      ensures outcome == old(outcome)
    {
      if pending != [] {
        r := Yielded(pending[0]);
        pending := pending[1..];
      } else {
        phase := Closed;
        r := if outcome.Some? then Raised(outcome.value) else Exhausted;
      }
    }

    /** `g.send(cfg)`. A just-created generator refuses a value other than `None` with
        `TypeError` and runs to `config = (yield)` on `None`; a primed one runs its body with `cfg`
        as its config; afterwards the value sent is not used. */
    method Send(cfg: Option<Config>, env: Env, world: World) returns (r: Resumed)
      modifies this, world
      ensures old(phase) == Created && cfg.Some? ==>
        r == Raised(BadArguments) && phase == Created && world.Snapshot() == old(world.Snapshot())
      ensures old(phase) == Created && cfg.None? ==>
        r == Yielded(NoneRecord) && phase == Primed && world.Snapshot() == old(world.Snapshot())
      ensures old(phase) == Created ==> pending == old(pending) && outcome == old(outcome)
      ensures old(phase) == Primed ==>
        var b := Body(unit, cfg, env, old(world.Snapshot()));
        world.Snapshot() == b.state && r == FirstResumption(b) && outcome == b.fault &&
        (b.records != [] ==> phase == Running && pending == b.records[1..]) &&
        (b.records == [] ==> phase == Closed && pending == [])
      ensures old(phase) == Running ==>
        world.Snapshot() == old(world.Snapshot()) && outcome == old(outcome) &&
        (old(pending) != [] ==> r == Yielded(old(pending)[0]) && pending == old(pending)[1..] && phase == Running) &&
        (old(pending) == [] ==> r == (if old(outcome).Some? then Raised(old(outcome).value) else Exhausted) && phase == Closed && pending == [])
      ensures old(phase) == Closed ==>
        r == Exhausted && phase == Closed && pending == old(pending) && outcome == old(outcome) &&
        world.Snapshot() == old(world.Snapshot())
    {
      match phase
      case Created =>
        if cfg.Some? {
          r := Raised(BadArguments);
        } else {
          phase := Primed;
          r := Yielded(NoneRecord);
        }
      case Primed =>
        var records, fault := world.RunBody(unit, cfg, env);
        phase, pending, outcome := Running, records, fault;
        r := Pop();
      case Running =>
        r := Pop();
      case Closed =>
        r := Exhausted;
    }

    /** `next(g)`, which is `g.send(None)`. */
    method Next(env: Env, world: World) returns (r: Resumed)
      modifies this, world
      ensures old(phase) == Created ==>
        r == Yielded(NoneRecord) && phase == Primed && pending == old(pending) && outcome == old(outcome) &&
        world.Snapshot() == old(world.Snapshot())
      ensures old(phase) == Primed ==>
        var b := Body(unit, None, env, old(world.Snapshot()));
        world.Snapshot() == b.state && r == FirstResumption(b) && outcome == b.fault &&
        (b.records != [] ==> phase == Running && pending == b.records[1..]) &&
        (b.records == [] ==> phase == Closed && pending == [])
      ensures old(phase) == Running ==>
        world.Snapshot() == old(world.Snapshot()) && outcome == old(outcome) &&
        (old(pending) != [] ==> r == Yielded(old(pending)[0]) && pending == old(pending)[1..] && phase == Running) &&
        (old(pending) == [] ==> r == (if old(outcome).Some? then Raised(old(outcome).value) else Exhausted) && phase == Closed && pending == [])
      ensures old(phase) == Closed ==>
        r == Exhausted && phase == Closed && pending == old(pending) && outcome == old(outcome) &&
        world.Snapshot() == old(world.Snapshot())
    {
      r := Send(None, env, world);
    }

    /** `yield from g` on a running generator: every pending record, in order, then its outcome. */
    method Exhaust(env: Env, world: World) returns (records: seq<Record>, fault: Option<Fault>)
      requires phase == Running
      modifies this, world
      ensures records == old(pending) && fault == old(outcome)
      ensures phase == Closed && world.Snapshot() == old(world.Snapshot())
    {
      records := [];
      var r := Next(env, world);
      while r.Yielded?
        invariant phase == Running || phase == Closed
        invariant r.Yielded? <==> phase == Running
        invariant r.Yielded? ==> old(pending) == records + [r.record] + pending
        invariant !r.Yielded? ==> old(pending) == records && pending == []
        invariant outcome == old(outcome) && world.Snapshot() == old(world.Snapshot())
        invariant !r.Yielded? ==> r == (if outcome.Some? then Raised(outcome.value) else Exhausted)
        decreases |pending| + (if phase == Running then 1 else 0)
      {
        records := records + [r.record];
        r := Next(env, world);
      }
      fault := if r.Raised? then Some(r.fault) else None;
    }
  }
}
