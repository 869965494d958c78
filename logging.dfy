/** The log the pipeline writes, and the description a dry run logs instead of an effect. */
module Logging {
  import opened Strings
  import opened Values

  /** Levels of the messages the model records; debug-level traces are not part of it. */
  datatype Level = Info | Error

  datatype LogEntry = LogEntry(level: Level, message: string)

  /** `fn.__module__` of every decorated operation. */
  const OperationsModule: string := "polkadot.operations"

  /** One `repr` per positional argument, in order. */
  function ArgReprs(args: seq<Value>): (r: seq<string>)
    ensures |r| == |args|
    ensures forall i :: 0 <= i < |args| ==> r[i] == Repr(args[i])
  {
    if args == [] then [] else [Repr(args[0])] + ArgReprs(args[1..])
  }

  /** One `k = repr(v)` per keyword argument, in insertion order. */
  function KwargReprs(kwargs: seq<(string, Value)>): (r: seq<string>)
    ensures |r| == |kwargs|
    ensures forall j :: 0 <= j < |kwargs| ==> r[j] == kwargs[j].0 + " = " + Repr(kwargs[j].1)
  {
    if kwargs == [] then [] else [kwargs[0].0 + " = " + Repr(kwargs[0].1)] + KwargReprs(kwargs[1..])
  }

  /** The parameter list of a description: the destination first, then the positional
      arguments, then the keyword arguments. */
  function Params(path: string, args: seq<Value>, kwargs: seq<(string, Value)>): seq<string>
  {
    [ReprStr(path)] + ArgReprs(args) + KwargReprs(kwargs)
  }

  /** The message `log_operation` logs: `module.name(params)` with the parameters joined by `", "`. */
  function Describe(name: string, path: string, args: seq<Value>, kwargs: seq<(string, Value)>): (r: string)
    ensures StartsWith(r, OperationsModule + "." + name + "(") && EndsWith(r, ")")
  {
    OperationsModule + "." + name + "(" + JoinWith(Params(path, args, kwargs), ", ") + ")"
  }

  /** `log_operation(fn, path, args, kwargs)`: logs the description at info level and returns `None`. */
  function LogOperation(name: string, path: string, args: seq<Value>, kwargs: seq<(string, Value)>): (r: (Value, LogEntry))
    ensures r.0 == VNone
    ensures r.1.level == Info && r.1.message == Describe(name, path, args, kwargs)
  {
    (VNone, LogEntry(Info, Describe(name, path, args, kwargs)))
  }

  /** Items each preceded by `", "`. */
  function Listed(items: seq<string>): string
  {
    if items == [] then "" else ", " + items[0] + Listed(items[1..])
  }

  lemma {:induction false} JoinLeading(first: string, rest: seq<string>)
    ensures JoinWith([first] + rest, ", ") == first + Listed(rest)
    decreases |rest|
  {
    if rest != [] {
      assert ([first] + rest)[1..] == rest == [rest[0]] + rest[1..];
      JoinLeading(rest[0], rest[1..]);
    }
  }

  lemma {:induction false} ListedAppend(a: seq<string>, b: seq<string>)
    ensures Listed(a + b) == Listed(a) + Listed(b)
  {
    if a == [] {
      assert a + b == b;
    } else {
      assert (a + b)[0] == a[0] && (a + b)[1..] == a[1..] + b;
      ListedAppend(a[1..], b);
    }
  }

  /** Layout of a description: the quoted destination comes first, each positional argument's
      repr follows after `", "` in order, then each `k = repr(v)` in insertion order. */
  lemma DescribeLayout(name: string, path: string, args: seq<Value>, kwargs: seq<(string, Value)>)
    ensures Describe(name, path, args, kwargs) ==
      OperationsModule + "." + name + "(" + ReprStr(path) + Listed(ArgReprs(args)) + Listed(KwargReprs(kwargs)) + ")"
  {
    var rest := ArgReprs(args) + KwargReprs(kwargs);
    assert Params(path, args, kwargs) == [ReprStr(path)] + rest;
    JoinLeading(ReprStr(path), rest);
    ListedAppend(ArgReprs(args), KwargReprs(kwargs));
  }

  /** Without arguments the parameter list is the quoted destination alone. */
  lemma DescribeNoArguments(name: string, path: string)
    ensures Describe(name, path, [], []) == OperationsModule + "." + name + "(" + ReprStr(path) + ")"
  {
    DescribeLayout(name, path, [], []);
  }
}
