/** Letting flags follow paths on a command line, in front of a parser that stops at the first
    argument that is not a flag. */
module FlagHoist {
  import opened Wrappers

  datatype Kind = Boolean | Valued

  /** A set of defined flags, and which values each accepts. */
  datatype FlagSet = FlagSet(lookup: string -> Option<Kind>, accepts: (string, string) -> bool)

  const TERMINATOR := "--"

  /** Anything not starting with a dash, and a dash alone. */
  predicate IsPath(a: string) {
    a == "" || a[0] != '-' || a == "-"
  }

  // ----- Hoisting

  function TrimDashes(name: string): string {
    if name != "" && name[0] == '-' then TrimDashes(name[1..]) else name
  }

  predicate TakesValue(fs: FlagSet, name: string) {
    fs.lookup(TrimDashes(name)) == Some(Valued)
  }

  predicate WantsNext(fs: FlagSet, a: string) {
    '=' !in a && TakesValue(fs, a)
  }

  /** How many arguments a flag at the head of a command line takes up. */
  function Span(fs: FlagSet, args: seq<string>): (n: nat)
    requires args != []
    ensures 1 <= n <= |args|
  {
    if WantsNext(fs, args[0]) && |args| > 1 then 2 else 1
  }

  datatype Halves = Halves(flags: seq<string>, paths: seq<string>) {
    function Joined(): seq<string> { flags + paths }
  }

  /** The flags of a command line with their values, and its paths. */
  function Split(fs: FlagSet, args: seq<string>): Halves
    decreases |args|
  {
    if args == [] then Halves([], [])
    else if args[0] == TERMINATOR then Halves([], args)
    else if IsPath(args[0]) then
      var rest := Split(fs, args[1..]);
      Halves(rest.flags, [args[0]] + rest.paths)
    else
      var n := Span(fs, args);
      var rest := Split(fs, args[n..]);
      Halves(args[..n] + rest.flags, rest.paths)
  }

  /** What was taken so far, and the split of the rest, are the split of the whole. */
  ghost predicate Progress(fs: FlagSet, args: seq<string>, i: nat, flags: seq<string>, paths: seq<string>) {
    && i <= |args|
    && flags + Split(fs, args[i..]).flags == Split(fs, args).flags
    && paths + Split(fs, args[i..]).paths == Split(fs, args).paths
  }

  lemma NoProgress(fs: FlagSet, args: seq<string>)
    ensures Progress(fs, args, 0, [], [])
  {
    assert args[0..] == args;
  }

  lemma PathTaken(fs: FlagSet, args: seq<string>, i: nat, flags: seq<string>, paths: seq<string>)
    requires Progress(fs, args, i, flags, paths) && i < |args| && args[i] != TERMINATOR && IsPath(args[i])
    ensures Progress(fs, args, i + 1, flags, paths + [args[i]])
  {
    hide IsPath;
    assert args[i..][1..] == args[i + 1..];
  }

  lemma FlagTaken(fs: FlagSet, args: seq<string>, i: nat, flags: seq<string>, paths: seq<string>)
    requires Progress(fs, args, i, flags, paths) && i < |args| && args[i] != TERMINATOR && !IsPath(args[i])
    ensures var n := if WantsNext(fs, args[i]) && i + 1 < |args| then 2 else 1;
            Progress(fs, args, i + n, flags + args[i..i + n], paths)
  {
    hide IsPath, WantsNext;
    var n := Span(fs, args[i..]);
    assert args[i..][n..] == args[i + n..] && args[i..][..n] == args[i..i + n];
  }

  lemma AllTaken(fs: FlagSet, args: seq<string>, i: nat, flags: seq<string>, paths: seq<string>)
    requires Progress(fs, args, i, flags, paths)
    ensures i == |args| ==> flags + paths == Split(fs, args).Joined()
    ensures i < |args| && args[i] == TERMINATOR ==> flags + (paths + args[i..]) == Split(fs, args).Joined()
  {
  }

  method HoistFlagsFor(fs: FlagSet, args: seq<string>) returns (hoisted: seq<string>)
    ensures hoisted == Split(fs, args).Joined()
  {
    hide Split, Progress, TakesValue;
    var flags: seq<string>, paths: seq<string> := [], [];
    var i := 0;
    NoProgress(fs, args);
    while i < |args|
      invariant 0 <= i <= |args| && Progress(fs, args, i, flags, paths)
    {
      var a := args[i];
      if a == TERMINATOR {
        AllTaken(fs, args, i, flags, paths);
        paths := paths + args[i..];
        return flags + paths;
      }
      if a == "" || a[0] != '-' || a == "-" {
        PathTaken(fs, args, i, flags, paths);
        paths := paths + [a];
        i := i + 1;
        continue;
      }
      FlagTaken(fs, args, i, flags, paths);
      ghost var before, start := flags, i;
      flags := flags + [a];
      if '=' !in a && TakesValue(fs, a) && i + 1 < |args| {
        i := i + 1;
        flags := flags + [args[i]];
      }
      i := i + 1;
      assert flags == before + args[start..i];
    }
    AllTaken(fs, args, i, flags, paths);
    return flags + paths;
  }

  // ----- The parser

  datatype Assignment = Assignment(name: string, value: string)

  datatype Problem =
    | BadSyntax(arg: string)
    | Undefined(name: string)
    | HelpRequested
    | InvalidValue(name: string, value: string)
    | NeedsArgument(name: string)

  datatype Parsed = Parsed(settings: seq<Assignment>, positional: seq<string>)

  /** Where the value of `--name=value` starts, if it has one; a name cannot start with '='. */
  function EqualsFrom(name: string, i: nat): (k: Option<nat>)
    requires i <= |name|
    ensures k.Some? ==> i <= k.value < |name| && name[k.value] == '='
    ensures k.None? <==> '=' !in name[i..]
    decreases |name| - i
  {
    if i == |name| then None else if name[i] == '=' then Some(i) else EqualsFrom(name, i + 1)
  }

  function NameOf(a: string): string
    requires !IsPath(a)
  {
    if a[1] == '-' then a[2..] else a[1..]
  }

  /** One flag, given the argument after it: the assignment it makes, and whether it took that
      argument as its value. */
  function ParseFlag(fs: FlagSet, a: string, next: Option<string>): (r: Result<(Assignment, bool), Problem>)
    requires !IsPath(a) && a != TERMINATOR
    ensures r.Ok? && r.value.1 ==> next.Some?
  {
    var name := NameOf(a);
    if name == "" || name[0] == '-' || name[0] == '=' then Err(BadSyntax(a))
    else
      var eq := EqualsFrom(name, 1);
      var flag := if eq.Some? then name[..eq.value] else name;
      match fs.lookup(flag)
      case None => Err(if flag == "help" || flag == "h" then HelpRequested else Undefined(flag))
      case Some(Boolean) =>
        var value := if eq.Some? then name[eq.value + 1..] else "true";
        if fs.accepts(flag, value) then Ok((Assignment(flag, value), false)) else Err(InvalidValue(flag, value))
      case Some(Valued) =>
        if eq.None? && next.None? then Err(NeedsArgument(flag))
        else
          var value := if eq.Some? then name[eq.value + 1..] else next.value;
          if fs.accepts(flag, value) then Ok((Assignment(flag, value), eq.None?))
          else Err(InvalidValue(flag, value))
  }

  function Next(args: seq<string>): Option<string> {
    if |args| > 1 then Some(args[1]) else None
  }

  function Assigning(first: Assignment, rest: Result<Parsed, Problem>): Result<Parsed, Problem> {
    match rest
    case Err(e) => Err(e)
    case Ok(p) => Ok(Parsed([first] + p.settings, p.positional))
  }

  function WithPath(path: string, rest: Result<Parsed, Problem>): Result<Parsed, Problem> {
    match rest
    case Err(e) => Err(e)
    case Ok(p) => Ok(Parsed(p.settings, [path] + p.positional))
  }

  /** The parser: it stops at the first path, or behind the terminator. With `interspersed` it is
      the parser hoisting is meant to stand in for, which keeps paths aside and goes on. */
  function Parse(fs: FlagSet, args: seq<string>, interspersed: bool): Result<Parsed, Problem>
    decreases |args|
  {
    if args == [] then Ok(Parsed([], []))
    else if args[0] == TERMINATOR then Ok(Parsed([], args[1..]))
    else if IsPath(args[0]) then
      if interspersed then WithPath(args[0], Parse(fs, args[1..], true)) else Ok(Parsed([], args))
    else
      match ParseFlag(fs, args[0], Next(args))
      case Err(e) => Err(e)
      case Ok((first, took)) =>
        Assigning(first, Parse(fs, args[(if took then 2 else 1)..], interspersed))
  }

  // ----- What hoisting moves

  /** The positions of the flags and their values. */
  function Marks(fs: FlagSet, args: seq<string>): (marks: seq<bool>)
    ensures |marks| == |args|
    decreases |args|
  {
    if args == [] then []
    else if args[0] == TERMINATOR then seq(|args|, _ => false)
    else if IsPath(args[0]) then [false] + Marks(fs, args[1..])
    else
      var n := Span(fs, args);
      (if n == 2 then [true, true] else [true]) + Marks(fs, args[n..])
  }

  function Picked<T>(args: seq<T>, marks: seq<bool>, want: bool): seq<T>
    requires |marks| == |args|
  {
    if args == [] then []
    else (if marks[0] == want then [args[0]] else []) + Picked(args[1..], marks[1..], want)
  }

  lemma {:induction false} PickedNone<T>(args: seq<T>, marks: seq<bool>)
    requires |marks| == |args| && forall i :: 0 <= i < |marks| ==> !marks[i]
    ensures Picked(args, marks, true) == [] && Picked(args, marks, false) == args
  {
    if args != [] {
      PickedNone(args[1..], marks[1..]);
      assert args == [args[0]] + args[1..];
    }
  }

  lemma PickedHead<T>(args: seq<T>, marks: seq<bool>, want: bool)
    requires |marks| == |args| && args != []
    ensures Picked(args, marks, want)
         == (if marks[0] == want then [args[0]] else []) + Picked(args[1..], marks[1..], want)
  {
  }

  /** Hoisting is a stable partition: the marked arguments in their order, then the others in
      theirs. */
  lemma {:induction false} SplitPicks(fs: FlagSet, args: seq<string>)
    ensures Split(fs, args).flags == Picked(args, Marks(fs, args), true)
    ensures Split(fs, args).paths == Picked(args, Marks(fs, args), false)
    decreases |args|
  {
    hide WantsNext, IsPath, Picked;
    var marks := Marks(fs, args);
    if args == [] || args[0] == TERMINATOR {
      PickedNone(args, marks);
    } else {
      PickedHead(args, marks, true);
      PickedHead(args, marks, false);
      if IsPath(args[0]) {
        SplitPicks(fs, args[1..]);
        assert marks[1..] == Marks(fs, args[1..]);
      } else {
        var n := Span(fs, args);
        SplitPicks(fs, args[n..]);
        assert marks[n..] == Marks(fs, args[n..]);
        if n == 2 {
          PickedHead(args[1..], marks[1..], true);
          PickedHead(args[1..], marks[1..], false);
          assert marks[1..][1..] == marks[2..] && args[1..][1..] == args[2..];
          assert args[..2] == [args[0]] + [args[1]];
        }
      }
    }
  }

  lemma {:induction false} PickedTogether<T>(args: seq<T>, marks: seq<bool>)
    requires |marks| == |args|
    ensures multiset(Picked(args, marks, true)) + multiset(Picked(args, marks, false)) == multiset(args)
  {
    hide Picked;
    if args == [] {
      PickedNone(args, marks);
    } else {
      PickedTogether(args[1..], marks[1..]);
      PickedHead(args, marks, true);
      PickedHead(args, marks, false);
      assert args == [args[0]] + args[1..];
    }
  }

  /** Nothing is lost or made up. */
  lemma HoistingPermutes(fs: FlagSet, args: seq<string>)
    ensures multiset(Split(fs, args).Joined()) == multiset(args)
  {
    SplitPicks(fs, args);
    PickedTogether(args, Marks(fs, args));
  }

  // ----- The shape of the two halves

  /** A run of flags, each directly followed by the value it wants; `open` if the last one wants a
      value that is not there. */
  predicate FlagRun(fs: FlagSet, flags: seq<string>, open: bool)
    decreases |flags|
  {
    if flags == [] then !open
    else
      && flags[0] != TERMINATOR && !IsPath(flags[0])
      && if WantsNext(fs, flags[0]) && |flags| == 1 then open
         else FlagRun(fs, flags[Span(fs, flags)..], open)
  }

  /** Paths, up to a terminator behind which anything goes. */
  predicate PathRun(paths: seq<string>)
    decreases |paths|
  {
    paths == [] || paths[0] == TERMINATOR || (IsPath(paths[0]) && PathRun(paths[1..]))
  }

  /** Is the last argument a flag missing its value? */
  predicate Dangling(fs: FlagSet, args: seq<string>)
    decreases |args|
  {
    if args == [] || args[0] == TERMINATOR then false
    else if IsPath(args[0]) then Dangling(fs, args[1..])
    else if WantsNext(fs, args[0]) && |args| == 1 then true
    else Dangling(fs, args[Span(fs, args)..])
  }

  lemma {:induction false} SplitShape(fs: FlagSet, args: seq<string>)
    ensures FlagRun(fs, Split(fs, args).flags, Dangling(fs, args))
    ensures PathRun(Split(fs, args).paths)
    ensures Dangling(fs, args) ==> TERMINATOR !in Split(fs, args).paths
    decreases |args|
  {
    if args != [] && args[0] != TERMINATOR {
      if IsPath(args[0]) {
        SplitShape(fs, args[1..]);
        var rest := Split(fs, args[1..]);
        assert ([args[0]] + rest.paths)[1..] == rest.paths;
      } else {
        var n := Span(fs, args);
        SplitShape(fs, args[n..]);
        var rest := Split(fs, args[n..]);
        var flags := args[..n] + rest.flags;
        if n == 1 && WantsNext(fs, args[0]) {
          assert args[1..] == [];
        } else {
          assert Span(fs, flags) == n && flags[n..] == rest.flags;
        }
      }
    }
  }

  lemma {:induction false} SplitOfPaths(fs: FlagSet, paths: seq<string>)
    requires PathRun(paths)
    ensures Split(fs, paths) == Halves([], paths)
    decreases |paths|
  {
    if paths != [] && paths[0] != TERMINATOR {
      SplitOfPaths(fs, paths[1..]);
      assert paths == [paths[0]] + paths[1..];
    }
  }

  lemma SplitFlag(fs: FlagSet, args: seq<string>)
    requires args != [] && args[0] != TERMINATOR && !IsPath(args[0])
    ensures var n := Span(fs, args);
            Split(fs, args).Joined() == args[..n] + Split(fs, args[n..]).Joined()
  {
  }

  /** A run of flags in front of a run of paths is left as it is. */
  lemma {:induction false} SplitOfRuns(fs: FlagSet, flags: seq<string>, paths: seq<string>, open: bool)
    requires FlagRun(fs, flags, open) && PathRun(paths) && (open ==> TERMINATOR !in paths)
    ensures Split(fs, flags + paths).Joined() == flags + paths
    decreases |flags|
  {
    hide Split, TakesValue, PathRun;
    var args := flags + paths;
    if flags == [] {
      assert args == paths;
      SplitOfPaths(fs, paths);
    } else {
      SplitFlag(fs, args);
      var n := Span(fs, args);
      if WantsNext(fs, flags[0]) && |flags| == 1 {
        RestOfPaths(paths);
        assert args[n..] == if paths == [] then [] else paths[1..];
        SplitOfPaths(fs, args[n..]);
        assert args[..n] + args[n..] == args;
      } else {
        assert Span(fs, flags) == n && args[n..] == flags[n..] + paths && args[..n] == flags[..n];
        SplitOfRuns(fs, flags[n..], paths, open);
        assert flags[..n] + (flags[n..] + paths) == args;
      }
    }
  }

  lemma RestOfPaths(paths: seq<string>)
    requires PathRun(paths) && TERMINATOR !in paths
    ensures paths == [] || PathRun(paths[1..])
    ensures PathRun([])
  {
  }

  /** Hoisting twice is hoisting once, on every command line. */
  lemma HoistingIsIdempotent(fs: FlagSet, args: seq<string>)
    ensures var once := Split(fs, args).Joined(); Split(fs, once).Joined() == once
  {
    SplitShape(fs, args);
    SplitOfRuns(fs, Split(fs, args).flags, Split(fs, args).paths, Dangling(fs, args));
  }

  // ----- What the parser makes of it

  lemma {:induction false} TrimmedName(a: string)
    requires !IsPath(a) && a != TERMINATOR && NameOf(a) != "" && NameOf(a)[0] != '-'
    ensures TrimDashes(a) == NameOf(a)
    ensures '=' in a <==> '=' in NameOf(a)
  {
    assert a == (if a[1] == '-' then "--" else "-") + NameOf(a);
    assert TrimDashes(a) == TrimDashes(a[1..]);
    if a[1] == '-' {
      assert a[1..][1..] == NameOf(a);
    }
  }

  /** The parser reads the next argument as a value exactly when hoisting carries it along, and what
      it makes of a flag that wants no next argument does not depend on one. */
  lemma FlagsAgree(fs: FlagSet, a: string, next: Option<string>)
    requires !IsPath(a) && a != TERMINATOR
    ensures var r := ParseFlag(fs, a, next);
            && (r.Ok? ==> r.value.1 == WantsNext(fs, a))
            && (!WantsNext(fs, a) ==> r == ParseFlag(fs, a, None))
            && (r.Err? && r.error.NeedsArgument? ==> WantsNext(fs, a) && next.None?)
            && (r.Err? && !r.error.NeedsArgument? && !r.error.InvalidValue? ==> r == ParseFlag(fs, a, None))
  {
    var name := NameOf(a);
    if name != "" && name[0] != '-' && name[0] != '=' {
      TrimmedName(a);
      assert '=' in name <==> '=' in name[1..];
    }
  }

  /** The positional arguments of an interspersed parse: the paths without the terminator. */
  function WithoutTerminator(paths: seq<string>): seq<string> {
    if paths == [] then []
    else if paths[0] == TERMINATOR then paths[1..]
    else [paths[0]] + WithoutTerminator(paths[1..])
  }

  /** The positional arguments of a parse that stops: a terminator is dropped only at the front. */
  function WithoutLeadingTerminator(paths: seq<string>): seq<string> {
    if paths != [] && paths[0] == TERMINATOR then paths[1..] else paths
  }

  /** An interspersed parse makes the assignments the flags alone make, and fails as they fail. */
  lemma {:induction false} InterspersedIsFlagsThenPaths(fs: FlagSet, args: seq<string>)
    ensures var halves := Split(fs, args);
            var alone := Parse(fs, halves.flags, false);
            && (alone.Ok? ==> alone.value.positional == [])
            && Parse(fs, args, true) == match alone
                                        case Err(e) => Err(e)
                                        case Ok(p) => Ok(Parsed(p.settings, WithoutTerminator(halves.paths)))
    decreases |args|
  {
    hide ParseFlag, TakesValue;
    if args != [] && args[0] != TERMINATOR {
      if IsPath(args[0]) {
        InterspersedIsFlagsThenPaths(fs, args[1..]);
        var rest := Split(fs, args[1..]);
        assert ([args[0]] + rest.paths)[1..] == rest.paths;
      } else {
        var n := Span(fs, args);
        var flags := Split(fs, args).flags;
        InterspersedIsFlagsThenPaths(fs, args[n..]);
        assert flags[n..] == Split(fs, args[n..]).flags && flags[0] == args[0];
        FlagsAgree(fs, args[0], Next(args));
        FlagsAgree(fs, args[0], Next(flags));
        if WantsNext(fs, args[0]) {
          assert Next(args) == Next(flags);
        }
      }
    }
  }

  lemma ParseOfPaths(fs: FlagSet, paths: seq<string>)
    requires PathRun(paths)
    ensures Parse(fs, paths, false) == Ok(Parsed([], WithoutLeadingTerminator(paths)))
  {
  }

  /** A stopping parse of flags in front of paths: a flag missing its value takes the first path. */
  lemma {:induction false} ParseOfRuns(fs: FlagSet, flags: seq<string>, paths: seq<string>, open: bool)
    requires FlagRun(fs, flags, open) && PathRun(paths) && (open ==> TERMINATOR !in paths)
    ensures var alone, all := Parse(fs, flags, false), Parse(fs, flags + paths, false);
            match alone
            case Ok(p) => all == Ok(Parsed(p.settings, WithoutLeadingTerminator(paths)))
            case Err(NeedsArgument(name)) => if paths == [] then all == alone else all != alone
            case Err(_) => all == alone
    decreases |flags|
  {
    hide ParseFlag, TakesValue, PathRun;
    var args := flags + paths;
    if flags == [] {
      assert args == paths;
      ParseOfPaths(fs, paths);
    } else {
      FlagsAgree(fs, flags[0], Next(args));
      FlagsAgree(fs, flags[0], Next(flags));
      if WantsNext(fs, flags[0]) && |flags| == 1 {
        if paths == [] {
          assert args == flags;
        } else {
          RestOfPaths(paths);
          assert args[2..] == paths[1..];
          ParseOfPaths(fs, paths[1..]);
          MissingValue(fs, flags[0], paths[0]);
        }
      } else {
        var n := Span(fs, flags);
        assert args[n..] == flags[n..] + paths;
        ParseOfRuns(fs, flags[n..], paths, open);
        if WantsNext(fs, flags[0]) {
          assert Next(args) == Next(flags);
        }
      }
    }
  }

  /** A flag that wants a value fails differently, if at all, once there is one. */
  lemma MissingValue(fs: FlagSet, a: string, value: string)
    requires !IsPath(a) && a != TERMINATOR && WantsNext(fs, a)
    ensures var without, having := ParseFlag(fs, a, None), ParseFlag(fs, a, Some(value));
            && without.Err?
            && (without.error.NeedsArgument? ==> having != without && !(having.Err? && having.error.NeedsArgument?))
            && (!without.error.NeedsArgument? ==> having == without)
  {
    FlagsAgree(fs, a, None);
    FlagsAgree(fs, a, Some(value));
    var name := NameOf(a);
    if name != "" && name[0] != '-' && name[0] != '=' {
      TrimmedName(a);
    }
  }

  lemma {:induction false} TerminatorLengths(paths: seq<string>)
    ensures |WithoutTerminator(paths)| == |paths| - if TERMINATOR in paths then 1 else 0
    ensures TERMINATOR !in paths ==> WithoutTerminator(paths) == paths
  {
    if paths != [] && paths[0] != TERMINATOR {
      TerminatorLengths(paths[1..]);
      assert paths == [paths[0]] + paths[1..];
    }
  }

  /** Does a terminator come behind a path, where the parser that stops no longer drops it? */
  predicate TerminatorBehindPath(paths: seq<string>) {
    TERMINATOR in paths && paths[0] != TERMINATOR
  }

  /** When hoisting stands in for an interspersed parse: always if a flag fails for another reason
      than a missing value; if the last flag misses its value, when there is no path it could take
      for it; otherwise, when no terminator follows a path. */
  lemma HoistedParseExactly(fs: FlagSet, args: seq<string>)
    ensures var halves := Split(fs, args);
            Parse(fs, halves.Joined(), false) == Parse(fs, args, true)
            <==>
            match Parse(fs, halves.flags, false)
            case Ok(_) => !TerminatorBehindPath(halves.paths)
            case Err(NeedsArgument(_)) => halves.paths == []
            case Err(_) => true
  {
    var halves := Split(fs, args);
    InterspersedIsFlagsThenPaths(fs, args);
    SplitShape(fs, args);
    ParseOfRuns(fs, halves.flags, halves.paths, Dangling(fs, args));
    TerminatorLengths(halves.paths);
    hide Parse, Split;
  }

  lemma {:induction false} OpenRunsOnly(fs: FlagSet, flags: seq<string>)
    requires FlagRun(fs, flags, false)
    ensures var r := Parse(fs, flags, false); !(r.Err? && r.error.NeedsArgument?)
    decreases |flags|
  {
    hide ParseFlag, TakesValue;
    if flags != [] {
      FlagsAgree(fs, flags[0], Next(flags));
      OpenRunsOnly(fs, flags[Span(fs, flags)..]);
    }
  }

  /** In particular it does on every command line that does not end in a flag missing its value and
      has no terminator behind a path. */
  lemma HoistedParse(fs: FlagSet, args: seq<string>)
    requires !Dangling(fs, args) && !TerminatorBehindPath(Split(fs, args).paths)
    ensures Parse(fs, Split(fs, args).Joined(), false) == Parse(fs, args, true)
  {
    SplitShape(fs, args);
    OpenRunsOnly(fs, Split(fs, args).flags);
    HoistedParseExactly(fs, args);
  }

  // ----- The two command lines that go wrong

  /** A path, and then a flag whose value is missing: the path becomes the value. */
  lemma MissingValueTakesPath(fs: FlagSet, path: string, flag: string)
    requires IsPath(path) && !IsPath(flag) && flag != TERMINATOR && WantsNext(fs, flag)
    requires ParseFlag(fs, flag, None) == Err(NeedsArgument(NameOf(flag)))
    ensures Split(fs, [path, flag]).Joined() == [flag, path]
    ensures Parse(fs, [path, flag], true) == Err(NeedsArgument(NameOf(flag)))
    ensures Parse(fs, [flag, path], false)
         == if fs.accepts(NameOf(flag), path) then Ok(Parsed([Assignment(NameOf(flag), path)], []))
            else Err(InvalidValue(NameOf(flag), path))
  {
    assert [path, flag][1..] == [flag] && [flag][1..] == [] && [flag, path][2..] == [];
    assert Split(fs, [flag]) == Halves([flag], []);
    TrimmedOrBad(fs, flag);
    FlagsAgree(fs, flag, Some(path));
    var value := Assignment(NameOf(flag), path);
    assert Parse(fs, [], false) == Ok(Parsed([], [])) && [value] + [] == [value];
    assert Next([flag]) == None && Next([flag, path]) == Some(path);
    assert Parse(fs, [flag], true) == Err(NeedsArgument(NameOf(flag)));
    ParseOfOne(fs, flag, path, value);
  }

  lemma ParseOfOne(fs: FlagSet, flag: string, path: string, value: Assignment)
    requires !IsPath(flag) && flag != TERMINATOR
    requires ParseFlag(fs, flag, Some(path)).Ok? ==> ParseFlag(fs, flag, Some(path)).value == (value, true)
    ensures Parse(fs, [flag, path], false)
         == match ParseFlag(fs, flag, Some(path))
            case Ok(_) => Ok(Parsed([value], []))
            case Err(e) => Err(e)
  {
    hide ParseFlag;
    assert [flag, path][2..] == [] && [value] + [] == [value];
  }

  /** A flag that only misses its value is well formed. */
  lemma TrimmedOrBad(fs: FlagSet, flag: string)
    requires !IsPath(flag) && flag != TERMINATOR && '=' !in flag
    requires ParseFlag(fs, flag, None) == Err(NeedsArgument(NameOf(flag)))
    ensures EqualsFrom(NameOf(flag), 1).None? && fs.lookup(NameOf(flag)) == Some(Valued)
  {
    TrimmedName(flag);
  }

  /** A path, and then the terminator: it stays among the positional arguments. */
  lemma TerminatorStays(fs: FlagSet, path: string)
    requires IsPath(path)
    ensures Split(fs, [path, TERMINATOR]).Joined() == [path, TERMINATOR]
    ensures Parse(fs, [path, TERMINATOR], true) == Ok(Parsed([], [path]))
    ensures Parse(fs, [path, TERMINATOR], false) == Ok(Parsed([], [path, TERMINATOR]))
  {
    assert [path, TERMINATOR][1..] == [TERMINATOR] && [TERMINATOR][1..] == [];
    assert Split(fs, [TERMINATOR]) == Halves([], [TERMINATOR]);
    assert Parse(fs, [TERMINATOR], true) == Ok(Parsed([], []));
    assert [path] + [] == [path];
  }
}
