/** What a decorated operation does once it is driven: the specification of the `filer`
    protocol and of the six operations, as functions from the state before to the records
    yielded, the state after and the exception raised, if any. */
module Operations {
  import opened Strings
  import opened Values
  import opened Paths
  import opened Globber
  import opened Logging
  import opened FileSystem

  /** The six decorated operations. */
  datatype Kind = Copy | Touch | Mkdir | Mode | GitClone | Download

  /** `fn.__name__` */
  function Name(k: Kind): string
  {
    match k
    case Copy => "copy"
    case Touch => "touch"
    case Mkdir => "mkdir"
    case Mode => "mode"
    case GitClone => "gitclone"
    case Download => "download"
  }

  /** A call `kind(path, *args, deps = deps, **kwargs)` in a configuration file. The call only
      builds a suspended generator; as a value it is the call's arguments and nothing else.
      Every unit is a generator of its own: one generator object listed twice is not modelled. */
  datatype Unit = Unit(kind: Kind, path: string, args: seq<Value>, kwargs: seq<(string, Value)>, deps: seq<Unit>)

  /** A value of the configuration dictionary: a scalar (extras are strings), the list of units
      under `DOTFILES`, the template environment, or any other object a configuration defines. */
  datatype Setting = Scalar(value: Value) | Units(units: seq<Unit>) | Templates | Other(truthy: bool)

  type Config = map<string, Setting>

  const DryRunKey: string := "DOTFILES_DRY_RUN"
  const HomeKey: string := "DOTFILES_HOME_DIRECTORY"
  const WorkingKey: string := "DOTFILES_WORKING_DIRECTORY"
  const TemplatesKey: string := "DOTFILES_JINJA_ENV"
  const DotfilesKey: string := "DOTFILES"

  predicate SettingTruthy(s: Setting)
  {
    match s
    case Scalar(v) => Truthy(v)
    case Units(us) => us != []
    case Templates => true
    case Other(t) => t
  }

  /** What `pygit2.clone_repository` does: clones, raises `ValueError` (the destination already
      holds a repository) or raises anything else. */
  datatype CloneOutcome = Cloned | ExistingRepository | CloneError

  /** What `requests.get(url, stream = True)` gives: an exception, or the body's chunks, possibly
      followed by an exception while streaming. */
  datatype Fetch = Unreachable | Stream(chunks: seq<string>, broken: bool)

  /** The collaborators the operations call but the model does not look into: the directory walk,
      template rendering, the repository client, the HTTP client and the clock. */
  datatype Env = Env(
    walk: string -> seq<WalkEntry>,
    render: (string, Config) -> Option<string>,
    clone: (string, string, Option<string>) -> CloneOutcome,
    fetch: string -> Fetch,
    now: int)

  /** A value a unit yields: `None`, the path `shutil.copy2` returns, the repository
      `clone_repository` returns, or the byte count `write` returns. */
  datatype Record = NoneRecord | PathRecord(path: string) | RepoRecord(path: string) | CountRecord(n: nat)

  /** The exceptions that leave a unit. */
  datatype Fault =
    | NoneSubscript          // TypeError: a dependency subscripting its `None` config
    | MissingKey(key: string) // KeyError
    | BadArguments           // TypeError from calling the operation with its arguments
    | BadValue(name: string) // TypeError or AttributeError from a value of the wrong type
    | OsFault(error: FsError)
    | TemplateFault(source: string)
    | CloneFault
    | Stopped                // StopIteration from `send` in the driver (RuntimeError since Python 3.7)
    | ConfigRaised           // executing the configuration file raised
    | TooManyConfigFiles     // ValueError from unpacking more than one configuration file

  /** The world the operations change: the file system and the log. */
  datatype State = State(fs: Fs, log: seq<LogEntry>)

  /** Nothing is taken away: every path stays and the log only gets longer. */
  predicate Grows(st: State, st': State)
  {
    st.fs.Keys <= st'.fs.Keys && st.log <= st'.log
  }

  /** A run of a generator body: the records it yields, the state it leaves, and the exception
      it ends with (`None` when it returns). */
  datatype Run = Run(records: seq<Record>, state: State, fault: Option<Fault>)

  /** `b` run after `a` finished normally. */
  function Then(a: Run, b: Run): Run
  {
    Run(a.records + b.records, b.state, b.fault)
  }

  function Logged(st: State, entries: seq<LogEntry>): State
  {
    State(st.fs, st.log + entries)
  }

  /** `config[key]`, where `config` is `None` for a dependency. */
  function Lookup(cfg: Option<Config>, key: string): (r: Result<Setting, Fault>)
    ensures r.Ok? <==> cfg.Some? && key in cfg.value
    ensures r.Ok? ==> r.value == cfg.value[key]
    ensures cfg.None? ==> r == Err(NoneSubscript)
  {
    if cfg.None? then Err(NoneSubscript)
    else if key !in cfg.value then Err(MissingKey(key))
    else Ok(cfg.value[key])
  }

  /** Lines 21-22: a path not starting with `/` is joined to the home directory. */
  function ResolvePath(path: string, cfg: Option<Config>): (r: Result<string, Fault>)
    ensures IsAbs(path) ==> r == Ok(path)
    ensures !IsAbs(path) && r.Ok? ==> exists home :: Lookup(cfg, HomeKey) == Ok(Scalar(VStr(home))) && r.value == Join(home, path)
    ensures !IsAbs(path) && (exists home :: Lookup(cfg, HomeKey) == Ok(Scalar(VStr(home)))) ==> r.Ok?
    ensures !IsAbs(path) && cfg.None? ==> r == Err(NoneSubscript)
  {
    if IsAbs(path) then Ok(path)
    else match Lookup(cfg, HomeKey)
      case Err(f) => Err(f)
      case Ok(Scalar(VStr(home))) => Ok(Join(home, path))
      case Ok(_) => Err(BadValue(HomeKey))
  }

  /** The parameters each operation takes after its destination, in order; `config` among them. */
  function ParamNames(k: Kind): seq<string>
  {
    match k
    case Copy => ["source", "config", "template"]
    case Touch => ["config"]
    case Mkdir => ["config"]
    case Mode => ["octal", "config"]
    case GitClone => ["source", "branch", "config"]
    case Download => ["source", "config"]
  }

  /** The parameters an operation's body reads, `config` aside. */
  function Accepted(k: Kind): set<string>
  {
    match k
    case Copy => {"source", "template"}
    case Touch => {}
    case Mkdir => {}
    case Mode => {"octal"}
    case GitClone => {"source", "branch"}
    case Download => {"source"}
  }

  lemma AcceptedParams(k: Kind)
    ensures forall n :: n in Accepted(k) <==> n in ParamNames(k) && n != "config"
  {
  }

  /** Default values: `template = True`, `branch = 'master'`. */
  function Default(k: Kind, name: string): Option<Value>
  {
    if k == Copy && name == "template" then Some(VBool(true))
    else if k == GitClone && name == "branch" then Some(VStr("master"))
    else None
  }

  /** The first value bound to `name` among the named arguments. */
  function Bound(named: seq<(string, Value)>, name: string): Option<Value>
  {
    if named == [] then None
    else if named[0].0 == name then Some(named[0].1)
    else Bound(named[1..], name)
  }

  /** Python's binding of `fn(path, *args, config = config, **kwargs)`: positional arguments fill
      the parameters in order, keywords fill them by name, `config` is always given by keyword.
      Too many positional arguments, one landing on `config`, an unknown or repeated name, or a
      parameter left without a value raise `TypeError`. */
  function BindArgs(k: Kind, args: seq<Value>, kwargs: seq<(string, Value)>): (r: Result<map<string, Value>, Fault>)
    ensures r.Ok? ==> r.value.Keys == Accepted(k) && |args| <= |ParamNames(k)|
    ensures r.Err? ==> r.error == BadArguments
  {
    var names := ParamNames(k);
    if |args| > |names| then Err(BadArguments)
    else
      var named := Named(names, args, kwargs);
      if Stray(names, named) || Repeated(named) || Unfilled(k, named) then Err(BadArguments)
      else Ok(map n | n in Accepted(k) :: if Bound(named, n).Some? then Bound(named, n).value else Default(k, n).value)
  }

  /** Some argument lands on `config` or on a name the operation does not take. */
  predicate Stray(names: seq<string>, named: seq<(string, Value)>)
  {
    exists i :: 0 <= i < |named| && (named[i].0 == "config" || named[i].0 !in names)
  }

  /** Some parameter gets two values. */
  predicate Repeated(named: seq<(string, Value)>)
  {
    exists i, j :: 0 <= i < j < |named| && named[i].0 == named[j].0
  }

  /** Some parameter gets no value and has no default. */
  predicate Unfilled(k: Kind, named: seq<(string, Value)>)
  {
    exists n :: n in Accepted(k) && Bound(named, n).None? && Default(k, n).None?
  }

  /** The arguments as (parameter, value) pairs: the positional ones under the parameter names
      they fill, then the keyword ones. */
  function Named(names: seq<string>, args: seq<Value>, kwargs: seq<(string, Value)>): (r: seq<(string, Value)>)
    requires |args| <= |names|
    ensures |r| == |args| + |kwargs|
    ensures forall i :: 0 <= i < |args| ==> r[i] == (names[i], args[i])
    ensures forall j :: 0 <= j < |kwargs| ==> r[|args| + j] == kwargs[j]
  {
    if args == [] then kwargs else [(names[0], args[0])] + Named(names[1..], args[1..], kwargs)
  }

  /** When a call binds, told from its arguments alone: no more positional arguments than
      parameters and none of them on `config`; every keyword names an accepted parameter that no
      positional argument filled, and none is repeated; every accepted parameter left over has a
      default. */
  predicate CallBinds(k: Kind, args: seq<Value>, kwargs: seq<(string, Value)>)
  {
    |args| <= |ParamNames(k)| &&
    "config" !in ParamNames(k)[..|args|] &&
    (forall j :: 0 <= j < |kwargs| ==> kwargs[j].0 in Accepted(k) && kwargs[j].0 !in ParamNames(k)[..|args|]) &&
    (forall j, l :: 0 <= j < l < |kwargs| ==> kwargs[j].0 != kwargs[l].0) &&
    (forall n :: n in Accepted(k) && n !in ParamNames(k)[..|args|] && Unnamed(kwargs, n) ==> Default(k, n).Some?)
  }

  /** No keyword argument is called `n`. */
  predicate Unnamed(kwargs: seq<(string, Value)>, n: string)
  {
    forall j :: 0 <= j < |kwargs| ==> kwargs[j].0 != n
  }

  lemma ParamNamesDistinct(k: Kind)
    ensures forall i, j :: 0 <= i < j < |ParamNames(k)| ==> ParamNames(k)[i] != ParamNames(k)[j]
  {
  }

  lemma {:induction false} BoundNone(named: seq<(string, Value)>, n: string)
    ensures Bound(named, n).None? <==> forall i :: 0 <= i < |named| ==> named[i].0 != n
  {
    if named != [] {
      BoundNone(named[1..], n);
      assert forall i :: 1 <= i < |named| ==> named[i] == named[1..][i - 1];
    }
  }

  /** The positional and keyword arguments put no name on `config` or outside the parameters
      exactly when the positional ones miss `config` and every keyword is accepted. */
  lemma NamedNoStray(k: Kind, args: seq<Value>, kwargs: seq<(string, Value)>)
    requires |args| <= |ParamNames(k)|
    ensures !Stray(ParamNames(k), Named(ParamNames(k), args, kwargs)) <==>
      ("config" !in ParamNames(k)[..|args|] && forall j :: 0 <= j < |kwargs| ==> kwargs[j].0 in Accepted(k))
  {
    AcceptedParams(k);
    var names := ParamNames(k);
    var named := Named(names, args, kwargs);
    if forall i :: 0 <= i < |named| ==> named[i].0 != "config" && named[i].0 in names {
      forall j | 0 <= j < |kwargs| ensures kwargs[j].0 in Accepted(k) {
        assert named[|args| + j] == kwargs[j];
      }
      assert "config" !in names[..|args|] by {
        forall i | 0 <= i < |args| ensures names[..|args|][i] != "config" {
          assert named[i].0 == names[i];
        }
      }
    }
    if "config" !in names[..|args|] && forall j :: 0 <= j < |kwargs| ==> kwargs[j].0 in Accepted(k) {
      forall i | 0 <= i < |named| ensures named[i].0 != "config" && named[i].0 in names {
        if i < |args| {
          assert names[..|args|][i] == names[i];
        } else {
          assert named[i] == kwargs[i - |args|];
        }
      }
    }
  }

  /** No name is bound twice exactly when no keyword repeats a name or fills a positional one. */
  lemma NamedDistinct(k: Kind, args: seq<Value>, kwargs: seq<(string, Value)>)
    requires |args| <= |ParamNames(k)|
    ensures !Repeated(Named(ParamNames(k), args, kwargs)) <==>
      ((forall j :: 0 <= j < |kwargs| ==> kwargs[j].0 !in ParamNames(k)[..|args|]) &&
       (forall j, l :: 0 <= j < l < |kwargs| ==> kwargs[j].0 != kwargs[l].0))
  {
    ParamNamesDistinct(k);
    if Repeated(Named(ParamNames(k), args, kwargs)) {
      RepeatedKeyword(ParamNames(k), args, kwargs);
    } else {
      DistinctKeywords(ParamNames(k), args, kwargs);
    }
  }

  /** A name bound twice is a keyword repeating another or a positional one. */
  lemma RepeatedKeyword(names: seq<string>, args: seq<Value>, kwargs: seq<(string, Value)>)
    requires |args| <= |names| && forall i, j :: 0 <= i < j < |names| ==> names[i] != names[j]
    requires Repeated(Named(names, args, kwargs))
    ensures (exists j :: 0 <= j < |kwargs| && kwargs[j].0 in names[..|args|]) ||
      (exists j, l :: 0 <= j < l < |kwargs| && kwargs[j].0 == kwargs[l].0)
  {
    var named := Named(names, args, kwargs);
    var i, j :| 0 <= i < j < |named| && named[i].0 == named[j].0;
    if j < |args| {
      assert false;
    } else if i < |args| {
      assert named[j] == kwargs[j - |args|];
      assert names[..|args|][i] == named[i].0;
      assert 0 <= j - |args| < |kwargs| && kwargs[j - |args|].0 in names[..|args|];
    } else {
      assert named[i] == kwargs[i - |args|] && named[j] == kwargs[j - |args|];
      assert 0 <= i - |args| < j - |args| < |kwargs| && kwargs[i - |args|].0 == kwargs[j - |args|].0;
    }
  }

  /** When no name is bound twice, no keyword fills a positional parameter or repeats another. */
  lemma DistinctKeywords(names: seq<string>, args: seq<Value>, kwargs: seq<(string, Value)>)
    requires |args| <= |names| && !Repeated(Named(names, args, kwargs))
    ensures forall j :: 0 <= j < |kwargs| ==> kwargs[j].0 !in names[..|args|]
    ensures forall j, l :: 0 <= j < l < |kwargs| ==> kwargs[j].0 != kwargs[l].0
  {
    var named := Named(names, args, kwargs);
    forall j | 0 <= j < |kwargs| ensures kwargs[j].0 !in names[..|args|] {
      forall i | 0 <= i < |args| ensures names[..|args|][i] != kwargs[j].0 {
        assert named[i].0 == names[i] && named[|args| + j] == kwargs[j];
      }
    }
    forall j, l | 0 <= j < l < |kwargs| ensures kwargs[j].0 != kwargs[l].0 {
      assert named[|args| + j] == kwargs[j] && named[|args| + l] == kwargs[l];
    }
  }

  /** A parameter is left unbound exactly when neither a positional argument nor a keyword names it. */
  lemma NamedUnbound(k: Kind, args: seq<Value>, kwargs: seq<(string, Value)>, n: string)
    requires |args| <= |ParamNames(k)|
    ensures Bound(Named(ParamNames(k), args, kwargs), n).None? <==> n !in ParamNames(k)[..|args|] && Unnamed(kwargs, n)
  {
    var names := ParamNames(k);
    var named := Named(names, args, kwargs);
    BoundNone(named, n);
    if n in names[..|args|] {
      var i :| 0 <= i < |args| && names[..|args|][i] == n;
      assert named[i].0 == n;
    }
    if !Unnamed(kwargs, n) {
      var j :| 0 <= j < |kwargs| && kwargs[j].0 == n;
      assert named[|args| + j] == kwargs[j];
    }
    if n !in names[..|args|] && Unnamed(kwargs, n) {
      forall i | 0 <= i < |named| ensures named[i].0 != n {
        if i < |args| {
          assert names[..|args|][i] == names[i];
        } else {
          assert named[i] == kwargs[i - |args|];
        }
      }
    }
  }

  /** Every parameter gets a value or has a default exactly when every accepted parameter no
      argument names has a default. */
  lemma NamedFilled(k: Kind, args: seq<Value>, kwargs: seq<(string, Value)>)
    requires |args| <= |ParamNames(k)|
    ensures !Unfilled(k, Named(ParamNames(k), args, kwargs)) <==>
      forall n :: n in Accepted(k) && n !in ParamNames(k)[..|args|] && Unnamed(kwargs, n) ==> Default(k, n).Some?
  {
    forall n | n in Accepted(k)
      ensures Bound(Named(ParamNames(k), args, kwargs), n).None? <==> n !in ParamNames(k)[..|args|] && Unnamed(kwargs, n)
    {
      NamedUnbound(k, args, kwargs, n);
    }
  }

  /** A call binds exactly when its arguments say it does. */
  lemma BindArgsSucceeds(k: Kind, args: seq<Value>, kwargs: seq<(string, Value)>)
    ensures BindArgs(k, args, kwargs).Ok? <==> CallBinds(k, args, kwargs)
  {
    if |args| <= |ParamNames(k)| {
      NamedNoStray(k, args, kwargs);
      NamedDistinct(k, args, kwargs);
      NamedFilled(k, args, kwargs);
    }
  }

  /** A keyword argument binds its value, and an accepted parameter nobody named takes its default. */
  /** A keyword argument binds its value. */
  lemma BindArgsKeywords(k: Kind, args: seq<Value>, kwargs: seq<(string, Value)>)
    requires BindArgs(k, args, kwargs).Ok?
    ensures var m := BindArgs(k, args, kwargs).value;
      forall j :: 0 <= j < |kwargs| ==> kwargs[j].0 in m && m[kwargs[j].0] == kwargs[j].1
  {
    forall j | 0 <= j < |kwargs|
      ensures kwargs[j].0 in BindArgs(k, args, kwargs).value && BindArgs(k, args, kwargs).value[kwargs[j].0] == kwargs[j].1
    {
      KeywordBound(k, args, kwargs, j);
    }
  }

  lemma KeywordBound(k: Kind, args: seq<Value>, kwargs: seq<(string, Value)>, j: int)
    requires BindArgs(k, args, kwargs).Ok? && 0 <= j < |kwargs|
    ensures kwargs[j].0 in BindArgs(k, args, kwargs).value && BindArgs(k, args, kwargs).value[kwargs[j].0] == kwargs[j].1
  {
    var named := Named(ParamNames(k), args, kwargs);
    assert named[|args| + j] == kwargs[j];
    assert kwargs[j].0 in ParamNames(k) && kwargs[j].0 != "config" by {
      assert !Stray(ParamNames(k), named);
    }
    AcceptedParams(k);
    assert !Repeated(named);
    BoundAt(named, |args| + j);
    BindArgsAt(k, args, kwargs, kwargs[j].0);
  }

  /** An accepted parameter no argument names takes its default. */
  lemma BindArgsDefaults(k: Kind, args: seq<Value>, kwargs: seq<(string, Value)>)
    requires BindArgs(k, args, kwargs).Ok?
    ensures var m := BindArgs(k, args, kwargs).value;
      forall n :: n in Accepted(k) && n !in ParamNames(k)[..|args|] && Unnamed(kwargs, n) ==>
        n in m && Default(k, n).Some? && m[n] == Default(k, n).value
  {
    forall n | n in Accepted(k) && n !in ParamNames(k)[..|args|] && Unnamed(kwargs, n)
      ensures n in BindArgs(k, args, kwargs).value && Default(k, n).Some? &&
        BindArgs(k, args, kwargs).value[n] == Default(k, n).value
    {
      NamedUnbound(k, args, kwargs, n);
      BindArgsAt(k, args, kwargs, n);
    }
  }

  /** The value a successful binding gives an accepted parameter: the argument that names it, or
      its default. */
  lemma BindArgsAt(k: Kind, args: seq<Value>, kwargs: seq<(string, Value)>, n: string)
    requires BindArgs(k, args, kwargs).Ok? && n in Accepted(k)
    ensures var b := Bound(Named(ParamNames(k), args, kwargs), n);
      n in BindArgs(k, args, kwargs).value && (b.None? ==> Default(k, n).Some?) &&
      BindArgs(k, args, kwargs).value[n] == (if b.Some? then b.value else Default(k, n).value)
  {
  }

  /** `copy(dest, source)` templates by default. */
  lemma CopyDefault(source: Value)
    ensures BindArgs(Copy, [source], []) == Ok(map["source" := source, "template" := VBool(true)])
  {
    assert ParamNames(Copy)[..1] == ["source"];
    BindArgsSucceeds(Copy, [source], []);
    BindArgsPositional(Copy, [source], []);
    BindArgsDefaults(Copy, [source], []);
    var m := BindArgs(Copy, [source], []).value;
    assert m.Keys == {"source", "template"} && m["source"] == source && m["template"] == VBool(true);
    assert m == map["source" := source, "template" := VBool(true)];
  }

  /** `gitclone(dest, source)` checks out `master` by default. */
  lemma GitCloneDefault(source: Value)
    ensures BindArgs(GitClone, [source], []) == Ok(map["source" := source, "branch" := VStr("master")])
  {
    assert ParamNames(GitClone)[..1] == ["source"];
    BindArgsSucceeds(GitClone, [source], []);
    BindArgsPositional(GitClone, [source], []);
    BindArgsDefaults(GitClone, [source], []);
    var m := BindArgs(GitClone, [source], []).value;
    assert m.Keys == {"source", "branch"} && m["source"] == source && m["branch"] == VStr("master");
    assert m == map["source" := source, "branch" := VStr("master")];
  }

  lemma BindArgsPositional(k: Kind, args: seq<Value>, kwargs: seq<(string, Value)>)
    requires BindArgs(k, args, kwargs).Ok?
    ensures "config" !in ParamNames(k)[..|args|]
    ensures forall i :: 0 <= i < |args| ==>
      ParamNames(k)[i] in BindArgs(k, args, kwargs).value && BindArgs(k, args, kwargs).value[ParamNames(k)[i]] == args[i]
  {
    var names := ParamNames(k);
    var named := Named(names, args, kwargs);
    var m := BindArgs(k, args, kwargs).value;
    forall i | 0 <= i < |args|
      ensures names[i] != "config" && names[i] in m && m[names[i]] == args[i]
    {
      assert named[i].0 == names[i];
      BoundAt(named, i);
    }
  }

  /** With names all distinct, the value bound to the name at position `i` is the one given there. */
  lemma {:induction false} BoundAt(named: seq<(string, Value)>, i: int)
    requires 0 <= i < |named|
    requires forall a, b :: 0 <= a < b < |named| ==> named[a].0 != named[b].0
    ensures Bound(named, named[i].0) == Some(named[i].1)
  {
    if i > 0 {
      assert named[0].0 != named[i].0;
      BoundAt(named[1..], i - 1);
    }
  }

  /** The path one iteration of `copy` writes: the destination itself when rendering, and the
      place `copy2` chooses otherwise. */
  function Written(src: string, realdest: string, templating: bool, fs: Fs): string
  {
    if templating then realdest else CopyTarget(fs, src, realdest)
  }

  /** Lines 46-49 get as far as writing the rendered text: the template environment is there, the
      template renders, and `realdest` can be opened for writing. */
  predicate WritesRendering(src: string, realdest: string, cfg: Config, env: Env, fs: Fs)
  {
    TemplatesKey in cfg && cfg[TemplatesKey].Templates? && env.render(src, cfg).Some? &&
    WriteFile(fs, realdest, env.render(src, cfg).value, env.now).Ok?
  }

  /** One iteration of `copy`'s loop: render and write, then copy the metadata; or `copy2`. The
      file system it reaches comes back with the record or the exception, so a rendered file
      that `copystat` then fails on stays written. */
  function CopyOne(src: string, realdest: string, templating: bool, cfg: Config, env: Env, fs: Fs): (r: (Fs, Result<Record, Fault>))
    ensures var w := Written(src, realdest, templating, fs);
      fs.Keys <= r.0.Keys <= fs.Keys + {w} && forall q :: q in fs && q != w ==> r.0[q] == fs[q]
    ensures r.1.Ok? ==> var w := Written(src, realdest, templating, fs);
      w in r.0 && r.0[w].File? && (src != w ==> src in fs && r.0[w].mode == fs[src].mode && r.0[w].stamp == fs[src].stamp)
    ensures templating && r.1.Ok? ==>
      r.1.value == NoneRecord && env.render(src, cfg).Some? && r.0[realdest].content == env.render(src, cfg).value
    ensures !templating && r.1.Ok? ==> var target := CopyTarget(fs, src, realdest);
      r.1.value == PathRecord(target) && target != src && src in fs && fs[src].File? && target in r.0 && r.0[target] == fs[src]
    ensures templating && WritesRendering(src, realdest, cfg, env, fs) ==>
      realdest in r.0 && r.0[realdest].File? && r.0[realdest].content == env.render(src, cfg).value
    ensures r.1.Err? && !(templating && WritesRendering(src, realdest, cfg, env, fs)) ==> r.0 == fs
  {
    if templating then
      if TemplatesKey !in cfg then (fs, Err(MissingKey(TemplatesKey)))
      else if !cfg[TemplatesKey].Templates? then (fs, Err(BadValue(TemplatesKey)))
      else match env.render(src, cfg)
        case None => (fs, Err(TemplateFault(src)))
        case Some(text) =>
          match WriteFile(fs, realdest, text, env.now)
          case Err(e) => (fs, Err(OsFault(e)))
          case Ok(written) =>
            match CopyStat(written, src, realdest)
            case Err(e) => (written, Err(OsFault(e)))
            case Ok(stamped) => (stamped, Ok(NoneRecord))
    else
      match Copy2(fs, src, realdest, env.now)
      case Err(e) => (fs, Err(OsFault(e)))
      case Ok((copied, target)) => (copied, Ok(PathRecord(target)))
  }

  /** Lines 41-52: every matched source, in order, written to `destDir/basename(source)`.
      `template` is rebound to a template object, which is truthy, so the mode never changes.
      When the loop completes, each source has yielded one record; nothing that existed
      disappears, and nothing is logged. */
  function CopyEach(sources: seq<string>, destDir: string, templating: bool, cfg: Config, env: Env, st: State): (r: Run)
    ensures |r.records| <= |sources| && r.state.log == st.log && st.fs.Keys <= r.state.fs.Keys
    ensures r.fault.None? ==> |r.records| == |sources|
  {
    if sources == [] then Run([], st, None)
    else
      match CopyOne(sources[0], Join(destDir, Basename(sources[0])), templating, cfg, env, st.fs)
      case (fs1, Err(f)) => Run([], State(fs1, st.log), Some(f))
      case (fs1, Ok(rec)) =>
        var rest := CopyEach(sources[1..], destDir, templating, cfg, env, State(fs1, st.log));
        var r := Run([rec] + rest.records, rest.state, rest.fault);
        r
  }

  const GlobGuardMessage: string := "Globbed sources must be copied to a globbed directory."

  /** `copy(dest, source, template)` with `dest` resolved. */
  function CopyEffect(dest: string, source: Value, template: Value, cfg: Config, env: Env, st: State): (r: Run)
    ensures Grows(st, r.state)
  {
    if WorkingKey !in cfg then Run([], st, Some(MissingKey(WorkingKey)))
    else match cfg[WorkingKey]
      case Scalar(VStr(wd)) =>
        if !source.VStr? then Run([], st, Some(BadValue("source")))
        else
          var sources := Glob(source.s, wd, env.walk(wd));
          if EndsWith(source.s, "*") && !EndsWith(dest, "*") then
            Run([], Logged(st, [LogEntry(Error, GlobGuardMessage)]), None)
          else CopyEach(sources, Dirname(dest), Truthy(template), cfg, env, st)
      case _ => Run([], st, Some(BadValue(WorkingKey)))
  }

  /** `touch(dest)`: open for appending and close, then set the times. */
  function TouchEffect(dest: string, env: Env, st: State): (r: Run)
    ensures Grows(st, r.state)
  {
    match AppendOpen(st.fs, dest, env.now)
    case Err(e) => Run([], st, Some(OsFault(e)))
    case Ok(appended) =>
      match Utime(appended, dest, env.now)
      case Err(e) => Run([NoneRecord], State(appended, st.log), Some(OsFault(e)))
      case Ok(touched) => Run([NoneRecord, NoneRecord], State(touched, st.log), None)
  }

  /** `mkdir(dest)`: `os.makedirs(dest, exist_ok = True)`. */
  function MkdirEffect(dest: string, env: Env, st: State): (r: Run)
    ensures Grows(st, r.state)
  {
    match MakeDirs(st.fs, dest, env.now)
    case Err(e) => Run([], st, Some(OsFault(e)))
    case Ok(made) => Run([NoneRecord], State(made, st.log), None)
  }

  /** `mode(dest, octal)`: `os.chmod(dest, octal)`. */
  function ModeEffect(dest: string, octal: Value, st: State): (r: Run)
    ensures Grows(st, r.state)
  {
    match AsInt(octal)
    case None => Run([], st, Some(BadValue("octal")))
    case Some(bits) =>
      match Chmod(st.fs, dest, bits)
      case Err(e) => Run([], st, Some(OsFault(e)))
      case Ok(changed) => Run([NoneRecord], State(changed, st.log), None)
  }

  function SkippedCloneMessage(dest: string): string
  {
    "skipped git clone for existing repository in " + dest
  }

  /** The `checkout_branch` a branch argument gives `clone_repository`: a name, or `None` for the
      remote's default branch; any other value is refused. */
  function Checkout(branch: Value): (r: Option<Option<string>>)
    ensures r.Some? <==> branch.VStr? || branch.VNone?
    ensures branch.VStr? ==> r == Some(Some(branch.s))
  {
    match branch
    case VStr(s) => Some(Some(s))
    case VNone => Some(None)
    case _ => None
  }

  /** `gitclone(dest, source, branch)`: only `ValueError` is caught, and becomes a `None` record.
      A clone creates `dest` with every missing parent directory (the repository's files are not
      modelled); a parent that is not a directory makes the client raise. */
  function GitCloneEffect(dest: string, source: Value, branch: Value, env: Env, st: State): (r: Run)
    ensures Grows(st, r.state)
    ensures source.VStr? && Checkout(branch).None? ==> r == Run([], st, Some(BadValue("branch")))
  {
    if !source.VStr? then Run([], st, Some(BadValue("source")))
    else match Checkout(branch)
      case None => Run([], st, Some(BadValue("branch")))
      case Some(checkout) =>
        match env.clone(source.s, dest, checkout)
        case Cloned =>
          (match MakeDirs(st.fs, dest, env.now)
           case Ok(made) => Run([RepoRecord(dest)], State(made, st.log), None)
           case Err(_) => Run([], st, Some(CloneFault)))
        case ExistingRepository => Run([NoneRecord], Logged(st, [LogEntry(Info, SkippedCloneMessage(dest))]), None)
        case CloneError => Run([], st, Some(CloneFault))
  }

  const DownloadFailedMessage: string := "failed to download file"
  /** The formatted traceback logged after a failed download; its text is not modelled. */
  const TracebackMessage: string := "Traceback (most recent call last)"

  /** The `except` branch of `download`: two error lines and one `None` record. */
  function DownloadFailure(st: State): Run
  {
    Run([NoneRecord], Logged(st, [LogEntry(Error, DownloadFailedMessage), LogEntry(Error, TracebackMessage)]), None)
  }

  /** The chunks that are not empty. */
  function NonEmpty(chunks: seq<string>): seq<string>
  {
    if chunks == [] then [] else (if chunks[0] != "" then [chunks[0]] else []) + NonEmpty(chunks[1..])
  }

  function Concat(chunks: seq<string>): string
  {
    if chunks == [] then "" else chunks[0] + Concat(chunks[1..])
  }

  /** Lines 85-87: each non-empty chunk is appended to the open file and its length yielded. */
  function WriteChunks(chunks: seq<string>, dest: string, env: Env, fs: Fs): (r: (seq<Record>, Fs))
    requires dest in fs && fs[dest].File?
    ensures dest in r.1 && r.1[dest].File? && r.1.Keys == fs.Keys
    ensures forall q :: q in fs && q != dest ==> r.1[q] == fs[q]
  {
    if chunks == [] then ([], fs)
    else if chunks[0] == "" then WriteChunks(chunks[1..], dest, env, fs)
    else
      var rest := WriteChunks(chunks[1..], dest, env, AppendContent(fs, dest, chunks[0], env.now));
      ([CountRecord(|chunks[0]|)] + rest.0, rest.1)
  }

  /** `download(dest, source)`: every exception is caught and becomes a `None` record. */
  function DownloadEffect(dest: string, source: Value, env: Env, st: State): (r: Run)
    ensures Grows(st, r.state)
  {
    if !source.VStr? then DownloadFailure(st)
    else match env.fetch(source.s)
      case Unreachable => DownloadFailure(st)
      case Stream(chunks, broken) =>
        match WriteFile(st.fs, dest, "", env.now)
        case Err(_) => DownloadFailure(st)
        case Ok(appended) =>
          var (records, written) := WriteChunks(chunks, dest, env, appended);
          var streamed := Run(records, State(written, st.log), None);
          if broken then Then(streamed, DownloadFailure(streamed.state)) else streamed
  }

  /** Line 27: the wrapped operation called with the resolved path and the config. */
  function Effect(u: Unit, dest: string, cfg: Config, env: Env, st: State): (r: Run)
    ensures Grows(st, r.state)
  {
    match BindArgs(u.kind, u.args, u.kwargs)
    case Err(f) => Run([], st, Some(f))
    case Ok(params) =>
      match u.kind
      case Copy => CopyEffect(dest, params["source"], params["template"], cfg, env, st)
      case Touch => TouchEffect(dest, env, st)
      case Mkdir => MkdirEffect(dest, env, st)
      case Mode => ModeEffect(dest, params["octal"], st)
      case GitClone => GitCloneEffect(dest, params["source"], params["branch"], env, st)
      case Download => DownloadEffect(dest, params["source"], env, st)
  }

  /** Lines 21-27, after the dependencies: resolve the path, then describe or act. */
  function Own(u: Unit, cfg: Option<Config>, env: Env, st: State): (r: Run)
    ensures Grows(st, r.state)
  {
    match ResolvePath(u.path, cfg)
    case Err(f) => Run([], st, Some(f))
    case Ok(dest) =>
      match Lookup(cfg, DryRunKey)
      case Err(f) => Run([], st, Some(f))
      case Ok(flag) =>
        if SettingTruthy(flag) then
          var (_, entry) := LogOperation(Name(u.kind), dest, u.args, u.kwargs);
          Run([NoneRecord], Logged(st, [entry]), None)
        else Effect(u, dest, cfg.value, env, st)
  }

  /** Everything a unit's generator yields after it receives `cfg` (lines 17-27). */
  function Body(u: Unit, cfg: Option<Config>, env: Env, st: State): (r: Run)
    ensures Grows(st, r.state)
    decreases u, 1
  {
    var d := DrainDeps(u.deps, env, st);
    if d.fault.Some? then d else Then(d, Own(u, cfg, env, d.state))
  }

  /** Lines 18-19: `yield from dep` for each dependency in order. `yield from` primes the fresh
      generator, so its `None` surfaces as a record, then resumes it with `None` as its config. */
  function DrainDeps(deps: seq<Unit>, env: Env, st: State): (r: Run)
    ensures Grows(st, r.state)
    decreases deps, 0
  {
    if deps == [] then Run([], st, None)
    else
      var b := Body(deps[0], None, env, st);
      var first := Run([NoneRecord] + b.records, b.state, b.fault);
      var later := DrainDeps(deps[1..], env, b.state);
      if b.fault.Some? then first else Then(first, later)
  }

  /** `n` records of `None`. */
  function Nones(n: nat): (r: seq<Record>)
    ensures |r| == n && forall i :: 0 <= i < n ==> r[i] == NoneRecord
  {
    seq(n, _ => NoneRecord)
  }

  /** How many generators `yield from` descends into before the first one whose config is read:
      the chain of first dependencies. */
  function FirstChain(u: Unit): nat
  {
    if u.deps == [] then 0 else 1 + FirstChain(u.deps[0])
  }

  /** A unit that gets `None` as its config, or that has dependencies, faults with `TypeError`
      before it changes anything: its first dependency is resumed with `None`, so the chain of first
      dependencies contributes one priming `None` each and the innermost subscripts `None`.
      No later dependency, no path resolution and no effect is ever reached. */
  lemma {:induction false} DependencyFaults(u: Unit, cfg: Option<Config>, env: Env, st: State)
    requires cfg.None? || u.deps != []
    ensures Body(u, cfg, env, st) == Run(Nones(FirstChain(u)), st, Some(NoneSubscript))
    decreases u
  {
    if u.deps == [] {
      assert DrainDeps(u.deps, env, st) == Run([], st, None);
      assert Own(u, cfg, env, st) == Run([], st, Some(NoneSubscript));
    } else {
      var dep := u.deps[0];
      DependencyFaults(dep, None, env, st);
      assert [NoneRecord] + Nones(FirstChain(dep)) == Nones(FirstChain(u));
    }
  }

  /** Dependencies are drained in declaration order, but the first one already faults: the
      dependencies after it are never resumed. */
  lemma DrainStopsAtFirstDependency(deps: seq<Unit>, env: Env, st: State)
    requires deps != []
    ensures DrainDeps(deps, env, st) == Run(Nones(1 + FirstChain(deps[0])), st, Some(NoneSubscript))
  {
    DependencyFaults(deps[0], None, env, st);
    assert [NoneRecord] + Nones(FirstChain(deps[0])) == Nones(1 + FirstChain(deps[0]));
  }

  /** Dry run: a unit without dependencies whose destination resolves yields exactly one record,
      the `None` that `log_operation` returns, and logs the description of the call with the
      resolved destination; the file system is untouched. */
  lemma DryRunDescribes(u: Unit, cfg: Config, env: Env, st: State)
    requires u.deps == [] && ResolvePath(u.path, Some(cfg)).Ok?
    requires DryRunKey in cfg && SettingTruthy(cfg[DryRunKey])
    ensures var dest := ResolvePath(u.path, Some(cfg)).value;
      Body(u, Some(cfg), env, st) ==
        Run([NoneRecord], State(st.fs, st.log + [LogEntry(Info, Describe(Name(u.kind), dest, u.args, u.kwargs))]), None)
  {
    assert DrainDeps(u.deps, env, st) == Run([], st, None);
  }

  /** Real run: a unit without dependencies whose destination resolves yields exactly what the
      wrapped operation yields, called on the resolved destination. */
  lemma RealRunIsEffect(u: Unit, cfg: Config, env: Env, st: State)
    requires u.deps == [] && ResolvePath(u.path, Some(cfg)).Ok?
    requires DryRunKey in cfg && !SettingTruthy(cfg[DryRunKey])
    ensures Body(u, Some(cfg), env, st) == Effect(u, ResolvePath(u.path, Some(cfg)).value, cfg, env, st)
  {
    assert DrainDeps(u.deps, env, st) == Run([], st, None);
  }

  /** A relative destination whose home directory is unset faults before the dry-run flag is
      even read. */
  lemma ResolveBeforeDryRun(u: Unit, cfg: Config, env: Env, st: State)
    requires u.deps == [] && !IsAbs(u.path) && HomeKey !in cfg
    ensures Body(u, Some(cfg), env, st) == Run([], st, Some(MissingKey(HomeKey)))
  {
    assert DrainDeps(u.deps, env, st) == Run([], st, None);
  }

  /** The guard of `copy`: a wildcard source with a destination that is not one logs an error and
      ends the generator without a record and without touching the file system. */
  lemma CopyGuard(dest: string, source: string, template: Value, cfg: Config, env: Env, st: State)
    requires WorkingKey in cfg && cfg[WorkingKey].Scalar? && cfg[WorkingKey].value.VStr?
    requires EndsWith(source, "*") && !EndsWith(dest, "*")
    ensures CopyEffect(dest, VStr(source), template, cfg, env, st) ==
      Run([], State(st.fs, st.log + [LogEntry(Error, GlobGuardMessage)]), None)
  {
  }

  /** Every record is a `None` and every matched source has a file at its target. */
  predicate AllTemplated(sources: seq<string>, destDir: string, records: seq<Record>, fs: Fs)
  {
    |records| == |sources| &&
    forall i :: 0 <= i < |sources| ==> records[i] == NoneRecord && Join(destDir, Basename(sources[i])) in fs
  }

  /** `p` is where `copy2` puts `src` for the directory `destDir`: `destDir/basename(src)`, or
      inside it when that is itself a directory. */
  predicate CopiedTo(src: string, destDir: string, p: string)
  {
    p == Join(destDir, Basename(src)) || p == Join(Join(destDir, Basename(src)), Basename(src))
  }

  /** Every source yielded the path it was copied to, and that path exists. */
  predicate AllCopied(sources: seq<string>, destDir: string, records: seq<Record>, fs: Fs)
  {
    |records| == |sources| &&
    forall i :: 0 <= i < |sources| ==>
      records[i].PathRecord? && records[i].path in fs && CopiedTo(sources[i], destDir, records[i].path)
  }

  /** One iteration of the `copy` loop: the first source's step, then the rest of the loop. */
  lemma CopyEachUnfold(sources: seq<string>, destDir: string, templating: bool, cfg: Config, env: Env, st: State)
    requires sources != []
    ensures var one := CopyOne(sources[0], Join(destDir, Basename(sources[0])), templating, cfg, env, st.fs);
      one.1.Err? ==> CopyEach(sources, destDir, templating, cfg, env, st) == Run([], State(one.0, st.log), Some(one.1.error))
    ensures var one := CopyOne(sources[0], Join(destDir, Basename(sources[0])), templating, cfg, env, st.fs);
      one.1.Ok? ==>
      var rest := CopyEach(sources[1..], destDir, templating, cfg, env, State(one.0, st.log));
      CopyEach(sources, destDir, templating, cfg, env, st) == Run([one.1.value] + rest.records, rest.state, rest.fault)
  {
  }

  /** Past the guard, with templating, each matched source yields a `None` record, in match order,
      and its rendering is written into the directory part of the destination under the source's
      own base name. */
  lemma {:induction false} CopyEachTemplated(sources: seq<string>, destDir: string, cfg: Config, env: Env, st: State)
    requires CopyEach(sources, destDir, true, cfg, env, st).fault.None?
    ensures var r := CopyEach(sources, destDir, true, cfg, env, st);
      AllTemplated(sources, destDir, r.records, r.state.fs)
  {
    if sources != [] {
      CopyEachUnfold(sources, destDir, true, cfg, env, st);
      var one := CopyOne(sources[0], Join(destDir, Basename(sources[0])), true, cfg, env, st.fs);
      var st1 := State(one.0, st.log);
      var rest := CopyEach(sources[1..], destDir, true, cfg, env, st1);
      CopyEachTemplated(sources[1..], destDir, cfg, env, st1);
      TemplatedCons(sources, destDir, one.1.value, rest.records, one.0, rest.state.fs);
    }
  }

  lemma TemplatedCons(sources: seq<string>, destDir: string, rec: Record, rest: seq<Record>, fs1: Fs, fs: Fs)
    requires sources != [] && rec == NoneRecord && Join(destDir, Basename(sources[0])) in fs1 && fs1.Keys <= fs.Keys
    requires AllTemplated(sources[1..], destDir, rest, fs)
    ensures AllTemplated(sources, destDir, [rec] + rest, fs)
  {
    forall i | 1 <= i < |sources|
      ensures ([rec] + rest)[i] == NoneRecord && Join(destDir, Basename(sources[i])) in fs
    {
      assert sources[i] == sources[1..][i - 1];
    }
  }

  /** A rendered file stays written when `copystat` then fails (the source is not where the
      process looks for it): the loop raises, yields nothing, and leaves the rendering behind. */
  lemma CopyStatFailureKeepsRender(sources: seq<string>, destDir: string, cfg: Config, env: Env, st: State)
    requires sources != []
    requires WritesRendering(sources[0], Join(destDir, Basename(sources[0])), cfg, env, st.fs)
    requires sources[0] !in st.fs && sources[0] != Join(destDir, Basename(sources[0]))
    ensures var r := CopyEach(sources, destDir, true, cfg, env, st);
      var realdest := Join(destDir, Basename(sources[0]));
      r.records == [] && r.fault == Some(OsFault(NotFound(sources[0]))) &&
      realdest in r.state.fs && r.state.fs[realdest].File? &&
      r.state.fs[realdest].content == env.render(sources[0], cfg).value
  {
    CopyEachUnfold(sources, destDir, true, cfg, env, st);
  }

  /** Past the guard, without templating, each matched source yields, in match order, the path
      `copy2` wrote it to under `destDir`, and that path exists afterwards. */
  lemma {:induction false} CopyEachCopied(sources: seq<string>, destDir: string, cfg: Config, env: Env, st: State)
    requires CopyEach(sources, destDir, false, cfg, env, st).fault.None?
    ensures var r := CopyEach(sources, destDir, false, cfg, env, st);
      AllCopied(sources, destDir, r.records, r.state.fs)
  {
    if sources != [] {
      CopyEachUnfold(sources, destDir, false, cfg, env, st);
      var one := CopyOne(sources[0], Join(destDir, Basename(sources[0])), false, cfg, env, st.fs);
      var st1 := State(one.0, st.log);
      var rest := CopyEach(sources[1..], destDir, false, cfg, env, st1);
      CopyEachCopied(sources[1..], destDir, cfg, env, st1);
      CopiedCons(sources, destDir, one.1.value, rest.records, one.0, rest.state.fs);
    }
  }

  lemma CopiedCons(sources: seq<string>, destDir: string, rec: Record, rest: seq<Record>, fs1: Fs, fs: Fs)
    requires sources != [] && rec.PathRecord? && rec.path in fs1 && fs1.Keys <= fs.Keys
    requires CopiedTo(sources[0], destDir, rec.path)
    requires AllCopied(sources[1..], destDir, rest, fs)
    ensures AllCopied(sources, destDir, [rec] + rest, fs)
  {
    forall i | 1 <= i < |sources|
      ensures ([rec] + rest)[i] == rest[i - 1] && sources[i] == sources[1..][i - 1]
    {
    }
  }

  /** Plain copying changes only the paths it yields. */
  lemma {:induction false} CopyEachFrame(sources: seq<string>, destDir: string, cfg: Config, env: Env, st: State)
    requires CopyEach(sources, destDir, false, cfg, env, st).fault.None?
    ensures var r := CopyEach(sources, destDir, false, cfg, env, st);
      forall q :: q in st.fs && PathRecord(q) !in r.records ==> r.state.fs[q] == st.fs[q]
  {
    if sources != [] {
      CopyEachUnfold(sources, destDir, false, cfg, env, st);
      var one := CopyOne(sources[0], Join(destDir, Basename(sources[0])), false, cfg, env, st.fs);
      var st1 := State(one.0, st.log);
      CopyEachFrame(sources[1..], destDir, cfg, env, st1);
      var r := CopyEach(sources, destDir, false, cfg, env, st);
      forall q | q in st.fs && PathRecord(q) !in r.records
        ensures r.state.fs[q] == st.fs[q]
      {
        assert r.records[0] == one.1.value;
      }
    }
  }

  /** Each record is the path holding the node its source had in `before`. */
  predicate HoldsSources(sources: seq<string>, records: seq<Record>, before: Fs, after: Fs)
  {
    |records| == |sources| &&
    forall i :: 0 <= i < |sources| ==>
      sources[i] in before && before[sources[i]].File? && records[i].PathRecord? &&
      records[i].path in after && after[records[i].path] == before[sources[i]]
  }

  /** No two records are the same. */
  predicate Distinct(rs: seq<Record>)
  {
    forall i, j :: 0 <= i < j < |rs| ==> rs[i] != rs[j]
  }

  /** No record is one of the sources' paths. */
  predicate AvoidsSources(rs: seq<Record>, sources: seq<string>)
  {
    forall i, j :: 0 <= i < |rs| && 0 <= j < |sources| ==> rs[i] != PathRecord(sources[j])
  }

  lemma DistinctTail(rec: Record, rest: seq<Record>, sources: seq<string>)
    requires sources != [] && Distinct([rec] + rest) && AvoidsSources([rec] + rest, sources)
    ensures Distinct(rest) && AvoidsSources(rest, sources[1..]) && rec !in rest
    ensures forall j :: 0 <= j < |sources| ==> rec != PathRecord(sources[j])
  {
    var rs := [rec] + rest;
    assert rs[0] == rec;
    forall i, j | 0 <= i < j < |rest| ensures rest[i] != rest[j] {
      assert rest[i] == rs[i + 1] && rest[j] == rs[j + 1];
    }
    forall i, j | 0 <= i < |rest| && 0 <= j < |sources[1..]| ensures rest[i] != PathRecord(sources[1..][j]) {
      assert rest[i] == rs[i + 1] && sources[1..][j] == sources[j + 1];
    }
    forall j | 0 <= j < |rest| ensures rest[j] != rec {
      assert rest[j] == rs[j + 1];
    }
  }

  /** When no two sources are copied to the same path and no source is itself overwritten, every
      yielded path ends up holding its source's content, permission bits and time. */
  lemma {:induction false} CopyEachContent(sources: seq<string>, destDir: string, cfg: Config, env: Env, st: State)
    requires CopyEach(sources, destDir, false, cfg, env, st).fault.None?
    requires Distinct(CopyEach(sources, destDir, false, cfg, env, st).records)
    requires AvoidsSources(CopyEach(sources, destDir, false, cfg, env, st).records, sources)
    ensures var r := CopyEach(sources, destDir, false, cfg, env, st);
      HoldsSources(sources, r.records, st.fs, r.state.fs)
  {
    if sources != [] {
      CopyEachUnfold(sources, destDir, false, cfg, env, st);
      var one := CopyOne(sources[0], Join(destDir, Basename(sources[0])), false, cfg, env, st.fs);
      var st1 := State(one.0, st.log);
      var rest := CopyEach(sources[1..], destDir, false, cfg, env, st1);
      DistinctTail(one.1.value, rest.records, sources);
      CopyEachContent(sources[1..], destDir, cfg, env, st1);
      CopyEachFrame(sources[1..], destDir, cfg, env, st1);
      assert one.1.value == PathRecord(CopyTarget(st.fs, sources[0], Join(destDir, Basename(sources[0]))));
      forall i | 1 <= i < |sources| ensures sources[i] in st.fs && one.0[sources[i]] == st.fs[sources[i]] {
        assert sources[i] == sources[1..][i - 1];
        assert sources[i] in one.0 && one.1.value != PathRecord(sources[i]);
      }
      HoldsCons(sources, one.1.value, rest.records, st.fs, one.0, rest.state.fs);
    }
  }

  lemma HoldsCons(sources: seq<string>, rec: Record, rest: seq<Record>, before: Fs, mid: Fs, after: Fs)
    requires sources != [] && sources[0] in before && before[sources[0]].File?
    requires rec.PathRecord? && rec.path in mid && mid[rec.path] == before[sources[0]]
    requires rec.path in after && after[rec.path] == mid[rec.path]
    requires forall i :: 1 <= i < |sources| ==> sources[i] in before && sources[i] in mid && mid[sources[i]] == before[sources[i]]
    requires HoldsSources(sources[1..], rest, mid, after)
    ensures HoldsSources(sources, [rec] + rest, before, after)
  {
    forall i | 1 <= i < |sources|
      ensures sources[i] in before && before[sources[i]].File? && ([rec] + rest)[i].PathRecord? &&
        ([rec] + rest)[i].path in after && after[([rec] + rest)[i].path] == before[sources[i]]
    {
      assert ([rec] + rest)[i] == rest[i - 1] && sources[i] == sources[1..][i - 1];
    }
  }

  /** The directory part of the destination is all that `copy` keeps: with `dest = d/n`, every
      matched source lands at `d/basename(source)`, whatever `n` is. */
  lemma CopyDropsLastComponent(d: string, n: string, source: string)
    requires d != "" && !EndsWith(d, "/") && n != "" && '/' !in n
    ensures Join(Dirname(Join(d, n)), Basename(source)) == Join(d, Basename(source))
  {
    DirnameBasenameJoin(d, n);
  }

  /** `touch` yields two records; an existing file keeps its content and only gets a new time. */
  lemma TouchKeepsContent(dest: string, env: Env, st: State)
    requires dest in st.fs && st.fs[dest].File? && !IsRoot(dest)
    ensures TouchEffect(dest, env, st) ==
      Run([NoneRecord, NoneRecord], State(st.fs[dest := File(st.fs[dest].content, st.fs[dest].mode, env.now)], st.log), None)
  {
    assert AppendOpen(st.fs, dest, env.now) == Ok(st.fs);
    assert WithStamp(st.fs[dest], env.now) == File(st.fs[dest].content, st.fs[dest].mode, env.now);
  }

  /** `touch` of a missing file in an existing directory creates it empty. */
  lemma TouchCreates(dest: string, env: Env, st: State)
    requires dest !in st.fs && !IsRoot(dest) && ParentError(st.fs, dest).None?
    ensures TouchEffect(dest, env, st) ==
      Run([NoneRecord, NoneRecord], State(st.fs[dest := File("", DefaultFileMode, env.now)], st.log), None)
  {
    var created := st.fs[dest := File("", DefaultFileMode, env.now)];
    assert !IsDir(st.fs, dest);
    assert AppendOpen(st.fs, dest, env.now) == Ok(created);
    var touched := created[dest := WithStamp(created[dest], env.now)];
    assert Utime(created, dest, env.now) == Ok(touched);
    assert touched == created;
  }

  /** `mkdir` yields one record and is idempotent: repeating it on the state it left succeeds and
      changes nothing. */
  lemma MkdirIdempotent(dest: string, env: Env, later: Env, st: State)
    requires Consistent(st.fs) && dest != "" && dest[|dest| - 1] != '/' && Basename(dest) != "."
    requires MkdirEffect(dest, env, st).fault.None?
    ensures var r := MkdirEffect(dest, env, st);
      r.records == [NoneRecord] && IsDir(r.state.fs, dest) && MkdirEffect(dest, later, r.state) == r
  {
    assert Basename(dest) != "";
    MakeDirsCreates(st.fs, dest, env.now);
    MakeDirsTwice(st.fs, dest, env.now, later.now);
  }

  /** `mode` yields one record and sets the permission bits of the destination and nothing else. */
  lemma ModeSetsBits(dest: string, octal: int, st: State)
    requires dest in st.fs
    ensures ModeEffect(dest, VInt(octal), st) ==
      Run([NoneRecord], State(st.fs[dest := WithMode(st.fs[dest], octal)], st.log), None)
  {
  }

  /** `gitclone` with a branch name or `None` faults exactly when the client raises something
      other than `ValueError`; an existing repository gives exactly one `None` record. */
  lemma GitCloneOutcomes(dest: string, source: string, branch: Value, env: Env, st: State)
    requires Checkout(branch).Some?
    ensures var outcome := env.clone(source, dest, Checkout(branch).value);
      GitCloneEffect(dest, VStr(source), branch, env, st).fault.Some? <==>
      outcome == CloneError || (outcome == Cloned && MakeDirs(st.fs, dest, env.now).Err?)
    ensures env.clone(source, dest, Checkout(branch).value) == ExistingRepository ==>
      GitCloneEffect(dest, VStr(source), branch, env, st) ==
        Run([NoneRecord], State(st.fs, st.log + [LogEntry(Info, SkippedCloneMessage(dest))]), None)
  {
  }

  /** A successful clone leaves `dest` a directory, yields the repository, and keeps every entry
      inside an existing directory. */
  lemma GitCloneCreates(dest: string, source: string, branch: Value, env: Env, st: State)
    requires Consistent(st.fs) && dest != "" && dest[|dest| - 1] != '/' && Basename(dest) != "."
    requires Checkout(branch).Some? && env.clone(source, dest, Checkout(branch).value) == Cloned
    requires GitCloneEffect(dest, VStr(source), branch, env, st).fault.None?
    ensures var r := GitCloneEffect(dest, VStr(source), branch, env, st);
      r.records == [RepoRecord(dest)] && IsDir(r.state.fs, dest) && Consistent(r.state.fs) && r.state.log == st.log
  {
    MakeDirsParent(st.fs, dest);
    MakeDirsCreates(st.fs, dest, env.now);
    MakeDirsConsistent(st.fs, dest, env.now);
  }

  lemma {:induction false} ConcatNonEmpty(chunks: seq<string>)
    ensures Concat(NonEmpty(chunks)) == Concat(chunks)
  {
    if chunks != [] {
      ConcatNonEmpty(chunks[1..]);
      var head := if chunks[0] != "" then [chunks[0]] else [];
      ConcatAppend(head, NonEmpty(chunks[1..]));
    }
  }

  lemma {:induction false} ConcatAppend(a: seq<string>, b: seq<string>)
    ensures Concat(a + b) == Concat(a) + Concat(b)
  {
    if a == [] {
      assert a + b == b;
    } else {
      assert (a + b)[0] == a[0] && (a + b)[1..] == a[1..] + b;
      ConcatAppend(a[1..], b);
    }
  }

  /** The download loop yields one byte count per non-empty chunk, in order, and the file ends up
      holding every chunk appended. */
  lemma WriteChunksAppends(chunks: seq<string>, dest: string, env: Env, fs: Fs)
    requires dest in fs && fs[dest].File?
    ensures var (records, fs') := WriteChunks(chunks, dest, env, fs);
      |records| == |NonEmpty(chunks)| &&
      (forall i :: 0 <= i < |records| ==> records[i] == CountRecord(|NonEmpty(chunks)[i]|)) &&
      fs'[dest].content == fs[dest].content + Concat(chunks)
  {
    WriteChunksRecords(chunks, dest, env, fs);
    WriteChunksContent(chunks, dest, env, fs);
  }

  lemma {:induction false} WriteChunksRecords(chunks: seq<string>, dest: string, env: Env, fs: Fs)
    requires dest in fs && fs[dest].File?
    ensures var records := WriteChunks(chunks, dest, env, fs).0;
      |records| == |NonEmpty(chunks)| &&
      forall i :: 0 <= i < |records| ==> records[i] == CountRecord(|NonEmpty(chunks)[i]|)
  {
    if chunks != [] {
      if chunks[0] == "" {
        WriteChunksRecords(chunks[1..], dest, env, fs);
        assert NonEmpty(chunks) == NonEmpty(chunks[1..]);
      } else {
        var fs1 := AppendContent(fs, dest, chunks[0], env.now);
        WriteChunksRecords(chunks[1..], dest, env, fs1);
        var rest := WriteChunks(chunks[1..], dest, env, fs1).0;
        var ne := NonEmpty(chunks[1..]);
        assert NonEmpty(chunks) == [chunks[0]] + ne;
        assert WriteChunks(chunks, dest, env, fs).0 == [CountRecord(|chunks[0]|)] + rest;
        forall i | 1 <= i <= |rest|
          ensures ([CountRecord(|chunks[0]|)] + rest)[i] == CountRecord(|([chunks[0]] + ne)[i]|)
        {
          assert ([CountRecord(|chunks[0]|)] + rest)[i] == rest[i - 1];
          assert ([chunks[0]] + ne)[i] == ne[i - 1];
        }
      }
    }
  }

  lemma {:induction false} WriteChunksContent(chunks: seq<string>, dest: string, env: Env, fs: Fs)
    requires dest in fs && fs[dest].File?
    ensures WriteChunks(chunks, dest, env, fs).1[dest].content == fs[dest].content + Concat(chunks)
  {
    if chunks == [] {
      assert fs[dest].content + Concat(chunks) == fs[dest].content;
    } else if chunks[0] == "" {
      WriteChunksContent(chunks[1..], dest, env, fs);
      assert Concat(chunks) == Concat(chunks[1..]);
    } else {
      var fs1 := AppendContent(fs, dest, chunks[0], env.now);
      WriteChunksContent(chunks[1..], dest, env, fs1);
      assert fs[dest].content + chunks[0] + Concat(chunks[1..]) == fs[dest].content + Concat(chunks);
    }
  }

  /** `download` never faults, and a failure to connect or to open the destination is the
      failure branch alone: two error lines and one `None` record. */
  lemma DownloadNeverFaults(dest: string, source: Value, env: Env, st: State)
    ensures DownloadEffect(dest, source, env, st).fault.None?
    ensures source.VStr? && env.fetch(source.s).Unreachable? ==> DownloadEffect(dest, source, env, st) == DownloadFailure(st)
    ensures source.VStr? && env.fetch(source.s).Stream? && WriteFile(st.fs, dest, "", env.now).Err? ==>
      DownloadEffect(dest, source, env, st) == DownloadFailure(st)
  {
  }

  /** The records and the file a stream into a writable destination leaves: the records of the
      chunk loop, then, if the stream breaks, the failure branch's. */
  lemma DownloadUnfold(dest: string, source: string, env: Env, st: State)
    requires env.fetch(source).Stream? && WriteFile(st.fs, dest, "", env.now).Ok?
    ensures var written := WriteFile(st.fs, dest, "", env.now).value;
      var (records, fs') := WriteChunks(env.fetch(source).chunks, dest, env, written);
      DownloadEffect(dest, VStr(source), env, st) ==
        if env.fetch(source).broken then Run(records + [NoneRecord], State(fs', DownloadFailure(State(fs', st.log)).state.log), None)
        else Run(records, State(fs', st.log), None)
  {
  }

  /** A stream into a writable destination yields one count per non-empty chunk and leaves the
      body in the file; a stream that breaks keeps the counts already yielded and adds exactly one
      `None`. */
  lemma DownloadStreams(dest: string, source: string, env: Env, st: State)
    requires env.fetch(source).Stream? && WriteFile(st.fs, dest, "", env.now).Ok?
    ensures var r := DownloadEffect(dest, VStr(source), env, st);
      var chunks := env.fetch(source).chunks;
      |r.records| == |NonEmpty(chunks)| + (if env.fetch(source).broken then 1 else 0) &&
      (forall i :: 0 <= i < |NonEmpty(chunks)| ==> r.records[i] == CountRecord(|NonEmpty(chunks)[i]|)) &&
      (env.fetch(source).broken ==> r.records[|r.records| - 1] == NoneRecord) &&
      dest in r.state.fs && r.state.fs[dest].File? && r.state.fs[dest].content == Concat(chunks)
  {
    var written := WriteFile(st.fs, dest, "", env.now).value;
    WriteChunksAppends(env.fetch(source).chunks, dest, env, written);
    DownloadUnfold(dest, source, env, st);
  }
}
