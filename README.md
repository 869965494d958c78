# polkadot in Dafny

polkadot applies a list of file-system changes that a Python configuration file declares. The
changes are copying or templating files, touching files, creating directories, changing permission
bits, cloning git repositories and downloading files. Each change is an *operation unit*: a
generator made by calling one of the `@filer`-decorated functions of `operations.py`. It does
nothing until it is driven:

1. it is primed with `next`;
2. it receives the configuration dictionary with `send`;
3. it is drained.

While draining, a unit first drains its dependencies. It then resolves its destination against
`DOTFILES_HOME_DIRECTORY`, and either logs a description of the call (dry run) or performs the
effect, yielding one record per step. `loader.py` builds the configuration dictionary from the
executed configuration file and drives every unit in `DOTFILES`. `dance.py` is the command line.

The model has these modules:

- `Strings`, `Values`, `Paths`: the Python string, `repr` and `posixpath` behaviour the pipeline
  relies on.
- `Globber`: `glob(path, base)`, with `fnmatch` limited to `*`, `?` and literals.
- `Logging`: `log_operation`.
- `FileSystem`: the file system as a map from path strings to nodes, and the `os`/`shutil` calls
  the operations make.
- `Operations`: the units as a datatype. What a unit does when driven is the pure function
  `Body`, with one function per operation.
- `Filer`: the imperative form. `World` (the file system and the log) has one method per
  operation, each proved equal to its function. `Generator` models the generator protocol
  (`next`, `send`, exhaustion) as a class with a phase.
- `Loader`: `load_config` and `execute_config`. The configuration is built by a loop, and the
  driver loop creates a `Generator` per unit. Both are proved equal to their functions.
- `Dance`: argument handling and the script.

Some behaviour of the code is easy to miss:

- **A fresh dependency always fails.** `inner` drains each dependency with `yield from dep`, but it
  never primes one or sends it a configuration. A dependency that is a fresh generator therefore
  gets `None` at its own `config = (yield)`, and its first `config[...]` raises `TypeError`
  (`DependencyFaults`). Dependencies are modelled as fresh units, so a unit with dependencies
  never reaches its own effect. (A dependency that is an already exhausted generator yields
  nothing and is passed over; the model does not represent generator objects shared or reused in
  that way.)
- **The first record is lost.** `execute_config` throws away the record that `files.send(config)`
  returns. It is the first record of every top-level unit.
- **A unit that yields nothing stops the run.** `send` then raises `StopIteration`, which aborts
  the whole run.
- **Configuration errors end the run normally.** A missing configuration file, or one that does
  not define `DOTFILES`, is logged as an error and `load_config` returns, so the script ends with
  status 0.
- **Copy sources are listed before the guard.** `copy` makes a list of every glob match before it
  checks whether the glob/destination combination is allowed.
- **Only one configuration file is accepted.** The command line takes one or more configuration
  files, but `cfg, = ...` raises `ValueError` unless exactly one is given.

## Model

| member | source | states |
|---|---|---|
| Strings.Split | src/polkadot/dance.py:48 | `str.split` on one character: at least one piece, and no piece holds the separator |
| Strings.SplitCount | src/polkadot/dance.py:48 | `split` gives one more piece than there are separators |
| Strings.SplitJoin | src/polkadot/dance.py:48 | joining the pieces with the separator gives the string back |
| Strings.Replace | src/polkadot/globber.py:15 | replacing a string by itself changes nothing |
| Strings.Upper | src/polkadot/loader.py:45 | `upper()` keeps the length and maps every character |
| Values.AsInt | src/polkadot/operations.py:68 | `os.chmod` accepts exactly `int` and `bool` mode values |
| Values.Repr | src/polkadot/logging.py:18-20 | a `repr` is never empty and starts with a quote exactly when the value is a `str` |
| Values.NatToStringRoundTrip | src/polkadot/logging.py:18-20 | reading back the decimal digits of a number gives the number |
| Values.IntReprRoundTrip | src/polkadot/logging.py:18-20 | an `int`'s `repr` has a sign exactly when the number is negative, and parses back to the number |
| Values.ReprStr | src/polkadot/logging.py:18-20 | a `str`'s `repr` starts and ends with the quote `repr` chooses |
| Values.ReprStrRoundTrip | src/polkadot/logging.py:18-20 | unquoting and unescaping a `str`'s `repr` gives the string back |
| Paths.Join | src/polkadot/operations.py:22 | `os.path.join` with an absolute second part returns that part |
| Paths.JoinShape | src/polkadot/operations.py:22 | a joined path ends with the relative part and starts with the base |
| Paths.Basename | src/polkadot/operations.py:42 | a base name holds no separator |
| Paths.BasenameSuffix | src/polkadot/operations.py:42 | the base name is a suffix of the path |
| Paths.Dirname | src/polkadot/operations.py:39 | the directory part ends before the last separator and carries no trailing separator (unless it is all separators) |
| Paths.DirnamePrefix | src/polkadot/operations.py:39 | the directory part is a prefix of the path |
| Paths.DirnameBasenameJoin | src/polkadot/operations.py:39-42 | `dirname` and `basename` recover the two parts a path was joined from |
| Paths.Normpath | src/polkadot/globber.py:15 | `normpath` never returns an empty string and keeps an absolute path absolute |
| Paths.Abspath | src/polkadot/loader.py:39 | `abspath` of an absolute path, or against an absolute working directory, is absolute |
| Paths.NormpathDotName | src/polkadot/globber.py:15 | `normpath("./name")` is `name` |
| Globber.Match | src/polkadot/globber.py:16 | a matched name is at least as long as the pattern without its stars, and exactly as long when the pattern has no star |
| Globber.Relative | src/polkadot/globber.py:15 | the reported relative path is never empty |
| Globber.MatchLiteral | src/polkadot/globber.py:16 | a pattern without wildcards matches exactly itself |
| Globber.MatchStar | src/polkadot/globber.py:16 | `*` matches every name, hidden ones included |
| Globber.MatchPrefixStar | src/polkadot/globber.py:16 | `prefix*` matches exactly the names starting with the prefix |
| Globber.RelativeDirectChild | src/polkadot/globber.py:15 | a file directly under the base is reported by its bare name |
| Globber.RelativeReplacesEveryOccurrence | src/polkadot/globber.py:15 | `replace(base, '.')` rewrites every occurrence of the base, so file `a` in `/a` is reported as `..` |
| Globber.GlobFiles | src/polkadot/globber.py:14-17 | the matches in one directory are matching names, at most one per file |
| Globber.Glob | src/polkadot/globber.py:13-17 | every reported path matches the pattern |
| Globber.GlobMember | src/polkadot/globber.py:13-17 | a path is reported if and only if some walked file's relative path equals it and matches |
| Globber.GlobAppend | src/polkadot/globber.py:13-17 | the walk is consumed in order: globbing two parts of a walk concatenates their results |
| Globber.HiddenFileReported | src/polkadot/globber.py:13-17 | a dot-file directly under the base is reported by `.*` |
| Logging.Describe | src/polkadot/logging.py:17-28 | the description starts with `polkadot.operations.<name>(` and ends with `)` |
| Logging.ArgReprs | src/polkadot/logging.py:19 | one `repr` per positional argument, in order |
| Logging.KwargReprs | src/polkadot/logging.py:20 | one `k = repr(v)` per keyword argument, in order |
| Logging.LogOperation | src/polkadot/logging.py:8-29 | logs the description at info level and returns `None` |
| Logging.DescribeLayout | src/polkadot/logging.py:17-28 | the description is `module.name(` followed by the quoted destination, the argument `repr`s and the keyword pairs, each after `, `, and then `)` |
| Logging.DescribeNoArguments | src/polkadot/logging.py:17-21 | without arguments, the parameter list is the quoted destination alone |
| FileSystem.ParentError | src/polkadot/operations.py:48 | creating an entry fails exactly when its directory is missing |
| FileSystem.WriteFile | src/polkadot/operations.py:48-49 | `open(p, 'w').write(t)` succeeds exactly when `p` is not a directory and is or can be created, leaves `t` in `p` and touches nothing else |
| FileSystem.AppendContent | src/polkadot/operations.py:87 | a write appends the chunk to the file and touches nothing else |
| FileSystem.AppendOpen | src/polkadot/operations.py:57 | `open(p, 'a').close()` leaves an existing file as it is, creates a missing one empty, and fails on a directory |
| FileSystem.Utime | src/polkadot/operations.py:58 | `os.utime` changes only the time, and only of an existing entry |
| FileSystem.Chmod | src/polkadot/operations.py:68 | `os.chmod` changes only the mode, and only of an existing entry |
| FileSystem.CopyStat | src/polkadot/operations.py:50 | `copystat` gives the destination the source's mode and time and keeps its content |
| FileSystem.Copy2 | src/polkadot/operations.py:52 | `copy2` writes the source's content into the destination, or into the directory it names, and returns that path |
| FileSystem.MakeDirs | src/polkadot/operations.py:63 | `makedirs` keeps every existing entry and adds only directories |
| FileSystem.MakeDirsCreates | src/polkadot/operations.py:63 | after `makedirs(p)`, `p` is a directory |
| FileSystem.MakeDirsIdempotent | src/polkadot/operations.py:63 | `exist_ok=True`: `makedirs` of an existing directory changes nothing |
| FileSystem.MakeDirsConsistent | src/polkadot/operations.py:63 | `makedirs` keeps every entry inside an existing directory |
| FileSystem.MakeDirsTwice | src/polkadot/operations.py:63 | a second `makedirs` of the same path succeeds and changes nothing |
| Operations.Lookup | src/polkadot/operations.py:22-24 | `config[key]` succeeds exactly when there is a configuration holding the key; `None` raises `TypeError` |
| Operations.ResolvePath | src/polkadot/operations.py:21-22 | an absolute path is kept; a relative one is joined to the home directory, or fails when `config` is `None` |
| Operations.BindArgs | src/polkadot/operations.py:14-27 | a successful call binds exactly the parameters other than `config`, and any binding error is a `TypeError` |
| Operations.BindArgsPositional | src/polkadot/operations.py:14-27 | positional arguments fill the parameters in order and never reach `config` |
| Operations.BindArgsSucceeds | src/polkadot/operations.py:14-27 | a call binds if and only if no positional argument reaches `config`, every keyword names an accepted parameter that no positional argument filled, no keyword repeats, and every accepted parameter left over has a default |
| Operations.BindArgsKeywords | src/polkadot/operations.py:14-27 | a keyword argument binds its own value |
| Operations.BindArgsDefaults | src/polkadot/operations.py:14-27 | an accepted parameter no argument names takes its default |
| Operations.CopyDefault | src/polkadot/operations.py:32 | `copy(dest, source)` binds `template = True` |
| Operations.GitCloneDefault | src/polkadot/operations.py:71 | `gitclone(dest, source)` binds `branch = 'master'` |
| Operations.CopyOne | src/polkadot/operations.py:42-52 | only the written path changes; templating yields `None` and leaves the rendered text at the destination, and keeps it there when `copystat` then fails; plain copying yields the path `copy2` chose, which holds the source's content, mode and time; any other failure changes nothing |
| Operations.CopyEach | src/polkadot/operations.py:41-52 | the copy loop logs nothing, yields at most one record per source, and yields exactly one per source when it ends normally |
| Operations.WriteChunks | src/polkadot/operations.py:85-87 | writing chunks changes only the destination file |
| Operations.CopyEffect | src/polkadot/operations.py:31-52 | nothing is lost: every path stays and the log only grows |
| Operations.TouchEffect | src/polkadot/operations.py:54-58 | nothing is lost: every path stays and the log only grows |
| Operations.MkdirEffect | src/polkadot/operations.py:60-63 | nothing is lost: every path stays and the log only grows |
| Operations.ModeEffect | src/polkadot/operations.py:65-68 | nothing is lost: every path stays and the log only grows |
| Operations.DownloadEffect | src/polkadot/operations.py:79-91 | nothing is lost: every path stays and the log only grows |
| Operations.Effect | src/polkadot/operations.py:27 | calling any operation loses no path and no log entry |
| Operations.Own | src/polkadot/operations.py:21-27 | resolving the path and then describing or acting loses no path and no log entry |
| Operations.Body | src/polkadot/operations.py:15-27 | draining a bound unit loses no path and no log entry |
| Operations.DrainDeps | src/polkadot/operations.py:17-19 | draining the dependencies loses no path and no log entry |
| Operations.DependencyFaults | src/polkadot/operations.py:15-19 | a unit with dependencies, or a unit given `None`, yields one `None` per level of its first dependency chain and then raises `TypeError` |
| Operations.DrainStopsAtFirstDependency | src/polkadot/operations.py:17-19 | draining dependencies stops at the first one, with `TypeError` |
| Operations.DryRunDescribes | src/polkadot/operations.py:24-25 | a dry run yields one `None`, logs the description of the call with the resolved destination, and leaves the file system as it is |
| Operations.RealRunIsEffect | src/polkadot/operations.py:26-27 | a real run is the operation's effect on the resolved destination |
| Operations.ResolveBeforeDryRun | src/polkadot/operations.py:21-24 | a relative destination with no home setting fails before the dry-run flag is read |
| Operations.CopyGuard | src/polkadot/operations.py:33-37 | a glob source with a non-glob destination logs one error and yields nothing |
| Operations.CopyEachTemplated | src/polkadot/operations.py:41-50 | templating yields one `None` per source and creates every `dest/basename(source)` |
| Operations.CopyEachCopied | src/polkadot/operations.py:41-52 | plain copying yields, per source and in order, an existing path that is `dest/basename(source)` or, when that is a directory, the source's base name inside it |
| Operations.CopyEachFrame | src/polkadot/operations.py:41-52 | plain copying changes only the paths it yields |
| Operations.CopyEachContent | src/polkadot/operations.py:41-52 | when the yielded paths are distinct and none is a source, each holds its source's content, mode and time |
| Operations.CopyStatFailureKeepsRender | src/polkadot/operations.py:45-50 | when `copystat` fails after the rendered text is written, the loop raises, yields nothing, and the rendered file stays |
| Operations.CopyDropsLastComponent | src/polkadot/operations.py:39-42 | the destination's last component is replaced by each source's base name |
| Operations.TouchKeepsContent | src/polkadot/operations.py:54-58 | touching an existing file yields two `None`s and changes only its time |
| Operations.TouchCreates | src/polkadot/operations.py:54-58 | touching a missing file creates it empty |
| Operations.MkdirIdempotent | src/polkadot/operations.py:60-63 | `mkdir` yields one `None`, leaves a directory behind, and running it again changes nothing |
| Operations.ModeSetsBits | src/polkadot/operations.py:65-68 | `mode` yields one `None` and sets exactly the mode of the destination |
| Operations.Checkout | src/polkadot/operations.py:71-74 | a branch name is passed on as it is, and `None` leaves the choice to the remote's default branch |
| Operations.GitCloneEffect | src/polkadot/operations.py:70-77 | nothing is lost; a branch that is neither a string nor `None` is a bad value |
| Operations.GitCloneOutcomes | src/polkadot/operations.py:70-77 | a clone fails exactly when the clone raises something other than `ValueError` or its directory cannot be created; an existing repository is logged and yields one `None` |
| Operations.GitCloneCreates | src/polkadot/operations.py:74 | a successful clone yields the repository and leaves `dest` a directory in a consistent file system, with nothing logged |
| Operations.WriteChunksAppends | src/polkadot/operations.py:85-87 | one record per non-empty chunk, holding its length; the file ends with all the chunks appended |
| Operations.DownloadNeverFaults | src/polkadot/operations.py:79-91 | a download never raises; an unreachable source or an unwritable destination takes the logged failure path |
| Operations.DownloadStreams | src/polkadot/operations.py:79-91 | a stream yields one count per non-empty chunk, plus a final `None` if it breaks; the file holds every chunk received |
| Filer.World.RunBody | src/polkadot/operations.py:12-29 | draining a unit changes the world and yields records exactly as `Body` says |
| Filer.World.Drain | src/polkadot/operations.py:17-19 | the dependency loop is `DrainDeps` |
| Filer.World.RunOwn | src/polkadot/operations.py:21-27 | path resolution, then the dry-run description or the effect, as `Own` says |
| Filer.World.Apply | src/polkadot/operations.py:27 | the call of the wrapped operation is `Effect` |
| Filer.World.RunCopy | src/polkadot/operations.py:31-52 | `copy` is `CopyEffect` |
| Filer.World.CopyAll | src/polkadot/operations.py:41-52 | the copy loop is `CopyEach` |
| Filer.World.CopyStep | src/polkadot/operations.py:42-52 | one iteration of the copy loop is the head of `CopyEach` |
| Filer.World.RunTouch | src/polkadot/operations.py:54-58 | `touch` is `TouchEffect` |
| Filer.World.RunMkdir | src/polkadot/operations.py:60-63 | `mkdir` is `MkdirEffect` |
| Filer.World.RunMode | src/polkadot/operations.py:65-68 | `mode` is `ModeEffect` |
| Filer.World.RunGitClone | src/polkadot/operations.py:70-77 | `gitclone` is `GitCloneEffect` |
| Filer.World.DownloadFailed | src/polkadot/operations.py:88-91 | the failure branch logs its two error messages and changes nothing else |
| Filer.World.RunDownload | src/polkadot/operations.py:79-91 | `download` is `DownloadEffect` |
| Filer.World.WriteAll | src/polkadot/operations.py:85-87 | the chunk loop is `WriteChunks` and logs nothing |
| Filer.Generator.constructor | src/polkadot/operations.py:14 | calling a decorated operation runs nothing |
| Filer.Generator.Send | src/polkadot/operations.py:15-27 | `send` to a fresh generator is a `TypeError`; priming yields `None`; binding runs the body and returns its first record; later sends return the remaining records, then stop |
| Filer.Generator.Next | src/polkadot/loader.py:64 | `next` is `send(None)` |
| Filer.Generator.Exhaust | src/polkadot/loader.py:66 | `yield from` a bound generator gives every remaining record and then its exception, if any, and changes nothing else |
| Loader.LastValue | src/polkadot/loader.py:44-46 | a name has a value among the attributes exactly when some attribute has that name |
| Loader.LastValueIsLast | src/polkadot/loader.py:44-46 | the value found is the one from the last attribute of that name |
| Loader.Defaults | src/polkadot/loader.py:36-43 | the built-in settings are exactly the dry-run flag, the home directory, the working directory and the templates environment |
| Loader.Collect | src/polkadot/loader.py:44-46 | the dictionary gains exactly the exported attribute names |
| Loader.BuildConfig | src/polkadot/loader.py:36-46 | the insertion loop is `Collect` |
| Loader.CollectLookup | src/polkadot/loader.py:36-46 | an exported name takes the value of its last definition, over any built-in setting; every other entry is the built-in one |
| Loader.MissingNames | src/polkadot/loader.py:48-50 | the missing names are exactly the required names the dictionary lacks |
| Loader.MissingEntries | src/polkadot/loader.py:50-51 | one error message per missing name, in order |
| Loader.LogMissing | src/polkadot/loader.py:49-52 | the error loop logs `MissingEntries` |
| Loader.Merge | src/polkadot/loader.py:54 | `{**config, **extras}`: every extra wins, as a string, and every other key is kept |
| Loader.DriveUnits | src/polkadot/loader.py:62-66 | driving the units loses no path and no log entry |
| Loader.ExecuteConfig | src/polkadot/loader.py:56-66 | a configuration without `DOTFILES` raises `KeyError` and changes nothing; nothing is ever lost |
| Loader.Configure | src/polkadot/loader.py:48-54 | missing required names are only logged, with no record and no file change; nothing is ever lost |
| Loader.LoadConfig | src/polkadot/loader.py:26-54 | a file that is missing or raises yields nothing and changes no file; nothing is ever lost |
| Loader.DriveOne | src/polkadot/loader.py:63-66 | `iter`, `next`, `send(config)` with its result dropped, and then `yield from`, is the head of `DriveUnits` |
| Loader.DriveAll | src/polkadot/loader.py:62-66 | the driver loop is `DriveUnits` |
| Loader.Execute | src/polkadot/loader.py:56-66 | `execute_config` is `ExecuteConfig` |
| Loader.ConfigLoad.constructor | src/polkadot/loader.py:16 | calling `load_config` reads nothing and runs nothing |
| Loader.ConfigLoad.Drain | src/polkadot/loader.py:26-54 | iterating `load_config` to its end is `LoadConfig` |
| Loader.DriveAppend | src/polkadot/loader.py:62-66 | units run in list order: driving `a + b` drives `a`, then, unless that failed, `b` from the world `a` left |
| Loader.DryRunLogsEveryUnit | src/polkadot/loader.py:62-66 | in a dry run, units without dependencies log their descriptions in order and the driver yields nothing |
| Loader.DependencyHaltsRun | src/polkadot/loader.py:62-65 | a top-level unit with dependencies ends the run with `TypeError` |
| Loader.SilentUnitStops | src/polkadot/loader.py:65 | a unit that yields nothing ends the run, and later units never run |
| Loader.LoadedSetting | src/polkadot/loader.py:36-54 | the units see an extra over a module attribute over a built-in setting |
| Loader.DryRunExtra | src/polkadot/loader.py:52-54 | after the extras are merged, an extra `DOTFILES_DRY_RUN` is a string, so it turns the dry run on exactly when it is non-empty |
| Loader.DotfilesRequired | src/polkadot/loader.py:48-52 | without `DOTFILES` the loader logs one error and runs nothing, whatever the extras |
| Loader.MissingFileEndsQuietly | src/polkadot/loader.py:30-34 | a missing configuration file is logged and nothing else happens |
| Dance.ParseExtras | src/polkadot/dance.py:48 | parsed names and values never hold `=` |
| Dance.ExtrasAccepted | src/polkadot/dance.py:47-50 | the extras are accepted if and only if every one holds exactly one `=` |
| Dance.SplitPair | src/polkadot/dance.py:48 | `name=value` splits into its halves |
| Dance.ExtraAppended | src/polkadot/dance.py:48 | a later `name=value` replaces any earlier value for `name` |
| Dance.Dance | src/polkadot/dance.py:40-52 | no file or a bad extra is a usage error, several files raise, and nothing runs in any of those cases; otherwise the world is the one the loader leaves, and the script crashes exactly when the loader raises, with the loader's exception |
| Dance.ConfigErrorsEndNormally | src/polkadot/dance.py:45-52 | a missing configuration file or a missing `DOTFILES` ends the script normally, with the file system untouched |
| Dance.RunScript | src/polkadot/dance.py:40-52 | the script is `Dance` |

## Left out

- Debug-level log lines (each operation's trace, the `oct()` of the mode) and logger set-up, including `--verbose`. Only info and error messages are modelled.
- The text of the traceback that a failed download logs. It is modelled as one fixed message.
- Python's `TypeError` messages, and which exception a fault is, beyond the fault kinds of `Fault`.
- Processes and the environment are parameters rather than state: module execution (`Host.exec`), `HOME`, the working directory, the directory walk, jinja rendering, `pygit2.clone_repository`, `requests.get` and the clock.
- Jinja itself. The templates loader is a `Templates` setting, and rendering is `Env.render`.
- The umask, file ownership and encodings. Files hold text; permission bits are integers.
- Relative paths are not resolved against the process's working directory. The file system is keyed by path strings, so `a/./b` and `a/b` name different entries.
- `fnmatch` character classes (`[...]`). Only `*`, `?` and literal characters are modelled.
- The 1024-byte chunk size. Chunks are given by the fetch parameter.
- Filer.World.RunBody: a unit's body runs in full when it is bound, and its records are buffered in the `Generator`. Nothing observes the world between two resumptions in this pipeline, so the records and the final world are the same. Interleaving with other code is not captured.
- Generator aliasing: dependencies are values, so one generator object shared between two units, or reused, is not modelled.
- Filer.Generator.Send: a value sent into an already bound generator is ignored. In Python, a value sent while `inner` is inside `yield from dep` goes to the dependency; this pipeline only ever sends `None` after binding (`yield from files` and the list comprehension in `dance.py` resume with `next`), so nothing is lost here.
- Loader.ExecuteConfig: a `DOTFILES` value that is neither a list of units nor a string is treated as not iterable. A non-empty string fails at `send`.
- Values.Repr: characters outside ASCII are kept as they are. Python's `repr` escapes the non-printable ones.
- Strings.Upper: only ASCII letters are case-mapped.
- The `StopIteration` raised inside `execute_config` is the fault `Stopped`. Python 3.7 and later turn it into `RuntimeError` at the generator boundary; either way the run ends.
- Process exit codes: `Dance.Exit` tells a usage error, an uncaught exception and a normal end apart.
- Operations.GitCloneEffect: a clone is modelled as creating `dest` and its missing parents as directories; the repository's files and the checked-out branch are not modelled.
