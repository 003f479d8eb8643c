/** `analyze_folder`: every function definition of every C file becomes an
    entry of `functions`, every call expression inside a definition an entry
    of `calls` and `call_sites`, a file that cannot be read or parsed an entry
    of `errors`; `call_sites` is then inverted into `called_by_sites` and the
    stats are counted. The per-file fold is specified by the functions below;
    the method `AnalyzeFolder` is the loop nest that the source runs. */
module Indexer {
  import opened Wrappers
  import opened PyStr
  import opened Sorting
  import opened Dicts
  import opened SyntaxTree
  import opened SourceFiles

  datatype Definition = Definition(file: string, startLine: int, endLine: int)
  datatype CallSite = CallSite(callee: string, file: string, line: int, col: int)
  datatype CallerSite = CallerSite(caller: string, file: string, line: int, col: int)
  datatype FileError = FileError(file: string, error: string)

  datatype Stats = Stats(
    numFunctions: nat,
    numUniqueFunctionNames: nat,
    numCallers: nat,
    numCallSites: nat,
    numFilesWithErrors: nat)

  /** The four accumulators of the file loop. */
  datatype Acc = Acc(
    functions: ODict<seq<Definition>>,
    calls: ODict<seq<string>>,
    callSites: ODict<seq<CallSite>>,
    errors: seq<FileError>)

  /** The result dictionary. */
  datatype CallGraph = CallGraph(
    root: string,
    functions: ODict<seq<Definition>>,
    calls: ODict<seq<string>>,
    callSites: ODict<seq<CallSite>>,
    calledBySites: ODict<seq<CallerSite>>,
    stats: Stats,
    errors: seq<FileError>)

  /** The C parser: a tree for the bytes, or the message of the exception it raised. */
  type Parser = seq<byte> -> Result<Node, string>
  type Decoder = seq<byte> -> string

  const FunctionDefinition := "function_definition"
  const CallExpression := "call_expression"

  function EmptyAcc(): Acc {
    Acc(Empty(), Empty(), Empty(), [])
  }

  // ---------------------------------------------------------------------------
  // The fold, one level per loop of the source
  // ---------------------------------------------------------------------------

  /** One node of the walk of definition `name`: a call expression with a
      `function` field records its callee text and the 1-based position of
      that field; any other node changes nothing. */
  function VisitCall(a: Acc, name: string, path: string, sub: Node, code: seq<byte>, decode: Decoder): Acc {
    if sub.kind != CallExpression || sub.function_.None? then a
    else
      var fn := sub.function_.value;
      var callee := Text(fn, code, decode);
      a.(calls := Append(a.calls, name, callee),
         callSites := Append(a.callSites, name, CallSite(callee, path, fn.startRow + 1, fn.startCol + 1)))
  }

  function ScanCalls(a: Acc, name: string, path: string, subs: seq<Node>, code: seq<byte>, decode: Decoder): Acc {
    if subs == [] then a
    else VisitCall(ScanCalls(a, name, path, subs[..|subs| - 1], code, decode), name, path, subs[|subs| - 1], code, decode)
  }

  /** One node of the walk of a file: a function definition with a known
      name records the definition and then the calls of its own walk. */
  function VisitDefinition(a: Acc, path: string, n: Node, code: seq<byte>, decode: Decoder): Acc {
    if n.kind != FunctionDefinition then a
    else
      var name := FunctionName(n, code, decode);
      if name == Unknown then a
      else
        var a' := a.(functions := Append(a.functions, name, Definition(path, n.startRow + 1, n.endRow + 1)));
        ScanCalls(a', name, path, Walk(n), code, decode)
  }

  function ScanDefinitions(a: Acc, path: string, nodes: seq<Node>, code: seq<byte>, decode: Decoder): Acc {
    if nodes == [] then a
    else VisitDefinition(ScanDefinitions(a, path, nodes[..|nodes| - 1], code, decode), path, nodes[|nodes| - 1], code, decode)
  }

  /** The error a file produces, if its read or its parse fails. */
  function FileFailure(path: string, content: Result<seq<byte>, string>, parse: Parser): Option<FileError> {
    match content
    case Failure(e) => Some(FileError(path, "read failed: " + e))
    case Success(code) =>
      match parse(code)
      case Failure(e) => Some(FileError(path, "parse failed: " + e))
      case Success(_) => None
  }

  function ProcessFile(a: Acc, path: string, content: Result<seq<byte>, string>, parse: Parser, decode: Decoder): Acc {
    match FileFailure(path, content, parse)
    case Some(err) => a.(errors := a.errors + [err])
    case None => ScanDefinitions(a, path, Walk(parse(content.value).value), content.value, decode)
  }

  function ProcessFiles(a: Acc, root: string, files: seq<SourceFile>, parse: Parser, decode: Decoder): Acc {
    if files == [] then a
    else
      var f := files[|files| - 1];
      ProcessFile(ProcessFiles(a, root, files[..|files| - 1], parse, decode), PathString(root, f), f.content, parse, decode)
  }

  // ---------------------------------------------------------------------------
  // Inversion and stats
  // ---------------------------------------------------------------------------

  function InvertPair(p: (string, CallSite)): (string, CallerSite) {
    (p.1.callee, CallerSite(p.0, p.1.file, p.1.line, p.1.col))
  }

  function InvertPairs(ps: seq<(string, CallSite)>): (r: seq<(string, CallerSite)>)
    ensures |r| == |ps|
  {
    if ps == [] then [] else InvertPairs(ps[..|ps| - 1]) + [InvertPair(ps[|ps| - 1])]
  }

  lemma InvertPairsSnoc(ps: seq<(string, CallSite)>, p: (string, CallSite))
    ensures InvertPairs(ps + [p]) == InvertPairs(ps) + [InvertPair(p)]
  {
    assert (ps + [p])[..|ps|] == ps;
  }

  /** `called_by_sites`: for each site of each caller, in `call_sites` order,
      append a caller record under the site's callee. */
  function Invert(sites: ODict<seq<CallSite>>): ODict<seq<CallerSite>> {
    AppendAll(Empty(), InvertPairs(Items(sites)))
  }

  function StatsOf(a: Acc): Stats {
    Stats(Total(a.functions), |a.functions.keys|, |a.calls.keys|, Total(a.callSites), |a.errors|)
  }

  function Analyze(root: string, tree: Dir, parse: Parser, decode: Decoder): CallGraph {
    var a := ProcessFiles(EmptyAcc(), root, IterSourceFiles(tree), parse, decode);
    CallGraph(root, a.functions, a.calls, a.callSites, Invert(a.callSites), StatsOf(a), a.errors)
  }

  // ---------------------------------------------------------------------------
  // The loop nest
  // ---------------------------------------------------------------------------

  /** The calls of one definition: the inner `for sub in walk(n)` loop. */
  method ScanCallsOf(a: Acc, name: string, path: string, n: Node, code: seq<byte>, decode: Decoder) returns (r: Acc)
    ensures r == ScanCalls(a, name, path, Walk(n), code, decode)
  {
    var subs := Walk(n);
    var calls, callSites := a.calls, a.callSites;
    for k := 0 to |subs|
      invariant a.(calls := calls, callSites := callSites) == ScanCalls(a, name, path, subs[..k], code, decode)
    {
      assert subs[..k + 1][..k] == subs[..k];
      var sub := subs[k];
      if sub.kind == CallExpression {
        var fn := sub.function_;
        if fn.None? {
          continue;
        }
        var callee := Text(fn.value, code, decode);
        calls := Append(calls, name, callee);
        var line := fn.value.startRow + 1;
        var col := fn.value.startCol + 1;
        callSites := Append(callSites, name, CallSite(callee, path, line, col));
      }
    }
    assert subs[..|subs|] == subs;
    r := a.(calls := calls, callSites := callSites);
  }

  /** The definitions of one parsed file: the `for n in walk(root)` loop. */
  method ScanFile(a: Acc, path: string, tree: Node, code: seq<byte>, decode: Decoder) returns (r: Acc)
    ensures r == ScanDefinitions(a, path, Walk(tree), code, decode)
  {
    var nodes := Walk(tree);
    r := a;
    for j := 0 to |nodes|
      invariant r == ScanDefinitions(a, path, nodes[..j], code, decode)
    {
      assert nodes[..j + 1][..j] == nodes[..j];
      var n := nodes[j];
      if n.kind != FunctionDefinition {
        continue;
      }
      var fnName := GetFunctionName(n, code, decode);
      if fnName == Unknown {
        continue;
      }
      r := r.(functions := Append(r.functions, fnName, Definition(path, n.startRow + 1, n.endRow + 1)));
      r := ScanCallsOf(r, fnName, path, n, code, decode);
    }
    assert nodes[..|nodes|] == nodes;
  }

  lemma InvertStep(done: seq<(string, CallSite)>, caller: string, sites: seq<CallSite>, j: nat)
    requires j < |sites|
    ensures AppendAll(Empty(), InvertPairs(done + Pairs(caller, sites[..j + 1])))
         == Append(AppendAll(Empty(), InvertPairs(done + Pairs(caller, sites[..j]))),
                   sites[j].callee, CallerSite(caller, sites[j].file, sites[j].line, sites[j].col))
  {
    var s := sites[j];
    var before := done + Pairs(caller, sites[..j]);
    PairsSnoc(caller, sites, j);
    assert done + Pairs(caller, sites[..j + 1]) == before + [(caller, s)];
    InvertPairsSnoc(before, (caller, s));
    AppendAllSnoc(Empty(), InvertPairs(before), s.callee, CallerSite(caller, s.file, s.line, s.col));
  }

  /** The inversion loop nest over `call_sites.items()`. */
  method InvertCallSites(callSites: ODict<seq<CallSite>>) returns (calledBy: ODict<seq<CallerSite>>)
    ensures calledBy == Invert(callSites)
  {
    calledBy := Empty();
    var keys := callSites.keys;
    for i := 0 to |keys|
      invariant calledBy == AppendAll(Empty(), InvertPairs(ItemsOf(keys[..i], callSites)))
    {
      var caller := keys[i];
      var sites := Get(callSites, caller);
      ghost var done := ItemsOf(keys[..i], callSites);
      assert done + Pairs(caller, sites[..0]) == done;
      for j := 0 to |sites|
        invariant calledBy == AppendAll(Empty(), InvertPairs(done + Pairs(caller, sites[..j])))
      {
        var s := sites[j];
        InvertStep(done, caller, sites, j);
        calledBy := Append(calledBy, s.callee, CallerSite(caller, s.file, s.line, s.col));
      }
      assert sites[..|sites|] == sites;
      ItemsOfSnoc(keys, callSites, i);
    }
    assert keys[..|keys|] == keys;
  }

  lemma ProcessFilesSnoc(a: Acc, root: string, files: seq<SourceFile>, i: nat, parse: Parser, decode: Decoder)
    requires i < |files|
    ensures ProcessFiles(a, root, files[..i + 1], parse, decode)
         == ProcessFile(ProcessFiles(a, root, files[..i], parse, decode), PathString(root, files[i]), files[i].content, parse, decode)
  {
    assert files[..i + 1][..i] == files[..i];
  }

  /** `analyze_folder(folder)` over the directory tree `tree` found at `root`. */
  method AnalyzeFolder(root: string, tree: Dir, parse: Parser, decode: Decoder) returns (g: CallGraph)
    ensures g == Analyze(root, tree, parse, decode)
  {
    var files := IterSourceFiles(tree);
    var a := EmptyAcc();
    for i := 0 to |files|
      invariant a == ProcessFiles(EmptyAcc(), root, files[..i], parse, decode)
    {
      ProcessFilesSnoc(EmptyAcc(), root, files, i, parse, decode);
      ghost var before := a;
      var path := PathString(root, files[i]);
      match files[i].content
      case Failure(e) =>
        a := a.(errors := a.errors + [FileError(path, "read failed: " + e)]);
      case Success(code) =>
        match parse(code)
        case Failure(e) =>
          a := a.(errors := a.errors + [FileError(path, "parse failed: " + e)]);
        case Success(t) =>
          a := ScanFile(a, path, t, code, decode);
      assert a == ProcessFile(before, path, files[i].content, parse, decode);
    }
    assert files[..|files|] == files;
    var calledBy := InvertCallSites(a.callSites);
    g := CallGraph(root, a.functions, a.calls, a.callSites, calledBy, StatsOf(a), a.errors);
  }

  // ---------------------------------------------------------------------------
  // Invariants of the fold
  // ---------------------------------------------------------------------------

  ghost predicate NonEmptyLists<V>(d: ODict<seq<V>>) {
    forall k :: k in d.vals ==> |d.vals[k]| >= 1
  }

  /** `calls` and `call_sites` have the same keys in the same order, and
      lists of equal length whose callees agree position by position. */
  ghost predicate Lockstep(calls: ODict<seq<string>>, sites: ODict<seq<CallSite>>) {
    && calls.keys == sites.keys
    && forall c :: |Get(calls, c)| == |Get(sites, c)|
                   && forall i :: 0 <= i < |Get(calls, c)| ==> Get(calls, c)[i] == Get(sites, c)[i].callee
  }

  ghost predicate SitesOneBased(sites: ODict<seq<CallSite>>) {
    forall c, s :: s in Get(sites, c) ==> s.line >= 1 && s.col >= 1
  }

  ghost predicate DefinitionsOneBased(functions: ODict<seq<Definition>>) {
    forall k, d :: d in Get(functions, k) ==> d.startLine >= 1 && d.endLine >= 1
  }

  ghost predicate CallersDefined(calls: ODict<seq<string>>, functions: ODict<seq<Definition>>) {
    forall c :: c in calls.vals ==> c in functions.vals
  }

  /** What the accumulators keep true after every step: valid dicts, no
      empty list, `calls` in lockstep with `call_sites`, every caller a
      defined function, every line and column 1-based. */
  ghost predicate Consistent(a: Acc) {
    && Valid(a.functions) && Valid(a.calls) && Valid(a.callSites)
    && NonEmptyLists(a.functions) && NonEmptyLists(a.calls)
    && Lockstep(a.calls, a.callSites)
    && CallersDefined(a.calls, a.functions)
    && SitesOneBased(a.callSites)
    && DefinitionsOneBased(a.functions)
  }

  lemma AppendNonEmpty<V>(d: ODict<seq<V>>, k: string, v: V)
    requires NonEmptyLists(d)
    ensures NonEmptyLists(Append(d, k, v))
  {
  }

  lemma LockstepAppend(calls: ODict<seq<string>>, sites: ODict<seq<CallSite>>, name: string, s: CallSite)
    requires Valid(calls) && Valid(sites) && Lockstep(calls, sites)
    ensures Lockstep(Append(calls, name, s.callee), Append(sites, name, s))
  {
    var calls', sites' := Append(calls, name, s.callee), Append(sites, name, s);
    assert name in calls.vals <==> name in sites.vals;
    forall c ensures |Get(calls', c)| == |Get(sites', c)|
                     && forall i :: 0 <= i < |Get(calls', c)| ==> Get(calls', c)[i] == Get(sites', c)[i].callee
    {
      if c == name {
        assert Get(calls', c) == Get(calls, c) + [s.callee];
        assert Get(sites', c) == Get(sites, c) + [s];
      }
    }
  }

  /** `b` extends `a`: every list of every map and the error list only grew
      at the end, so no entry is ever overwritten or reordered. */
  ghost predicate Grows(a: Acc, b: Acc) {
    && (forall k :: Get(a.functions, k) <= Get(b.functions, k))
    && (forall k :: Get(a.calls, k) <= Get(b.calls, k))
    && (forall k :: Get(a.callSites, k) <= Get(b.callSites, k))
    && a.errors <= b.errors
  }

  lemma GrowsTransitive(a: Acc, b: Acc, c: Acc)
    requires Grows(a, b) && Grows(b, c)
    ensures Grows(a, c)
  {
    forall k ensures Get(a.functions, k) <= Get(c.functions, k) {
      PrefixTransitive(Get(a.functions, k), Get(b.functions, k), Get(c.functions, k));
    }
    forall k ensures Get(a.calls, k) <= Get(c.calls, k) {
      PrefixTransitive(Get(a.calls, k), Get(b.calls, k), Get(c.calls, k));
    }
    forall k ensures Get(a.callSites, k) <= Get(c.callSites, k) {
      PrefixTransitive(Get(a.callSites, k), Get(b.callSites, k), Get(c.callSites, k));
    }
    PrefixTransitive(a.errors, b.errors, c.errors);
  }

  lemma PrefixTransitive<T>(x: seq<T>, y: seq<T>, z: seq<T>)
    requires x <= y && y <= z
    ensures x <= z
  {
    assert z[..|y|] == y;
    assert z[..|x|] == y[..|x|];
  }

  lemma VisitCallPreserves(a: Acc, name: string, path: string, sub: Node, code: seq<byte>, decode: Decoder)
    requires Consistent(a) && name in a.functions.vals
    ensures Consistent(VisitCall(a, name, path, sub, code, decode))
    ensures Grows(a, VisitCall(a, name, path, sub, code, decode))
    ensures VisitCall(a, name, path, sub, code, decode).functions == a.functions
  {
    if sub.kind == CallExpression && sub.function_.Some? {
      var fn := sub.function_.value;
      var callee := Text(fn, code, decode);
      var site := CallSite(callee, path, fn.startRow + 1, fn.startCol + 1);
      LockstepAppend(a.calls, a.callSites, name, site);
      AppendNonEmpty(a.calls, name, callee);
      AppendGrows(a.calls, name, callee);
      AppendGrows(a.callSites, name, site);
      var r := VisitCall(a, name, path, sub, code, decode);
      assert r.callSites == Append(a.callSites, name, site);
      assert SitesOneBased(r.callSites) by {
        forall c, s | s in Get(r.callSites, c) ensures s.line >= 1 && s.col >= 1 {
          if c == name {
            assert Get(r.callSites, c) == Get(a.callSites, c) + [site];
          }
        }
      }
    }
  }

  lemma {:induction false} ScanCallsPreserves(a: Acc, name: string, path: string, subs: seq<Node>, code: seq<byte>, decode: Decoder)
    requires Consistent(a) && name in a.functions.vals
    ensures Consistent(ScanCalls(a, name, path, subs, code, decode))
    ensures Grows(a, ScanCalls(a, name, path, subs, code, decode))
    ensures ScanCalls(a, name, path, subs, code, decode).functions == a.functions
  {
    if subs != [] {
      var p := subs[..|subs| - 1];
      ScanCallsPreserves(a, name, path, p, code, decode);
      var b := ScanCalls(a, name, path, p, code, decode);
      VisitCallPreserves(b, name, path, subs[|subs| - 1], code, decode);
      GrowsTransitive(a, b, VisitCall(b, name, path, subs[|subs| - 1], code, decode));
    }
  }

  lemma RecordDefinitionPreserves(a: Acc, name: string, def: Definition)
    requires Consistent(a) && def.startLine >= 1 && def.endLine >= 1
    ensures Consistent(a.(functions := Append(a.functions, name, def)))
    ensures Grows(a, a.(functions := Append(a.functions, name, def)))
    ensures name in Append(a.functions, name, def).vals
  {
    var a' := a.(functions := Append(a.functions, name, def));
    AppendNonEmpty(a.functions, name, def);
    AppendGrows(a.functions, name, def);
    assert DefinitionsOneBased(a'.functions) by {
      forall k, d | d in Get(a'.functions, k) ensures d.startLine >= 1 && d.endLine >= 1 {
        if k == name {
          assert Get(a'.functions, k) == Get(a.functions, k) + [def];
        }
      }
    }
  }

  lemma VisitDefinitionPreserves(a: Acc, path: string, n: Node, code: seq<byte>, decode: Decoder)
    requires Consistent(a)
    ensures Consistent(VisitDefinition(a, path, n, code, decode))
    ensures Grows(a, VisitDefinition(a, path, n, code, decode))
  {
    if n.kind == FunctionDefinition && FunctionName(n, code, decode) != Unknown {
      var name := FunctionName(n, code, decode);
      var def := Definition(path, n.startRow + 1, n.endRow + 1);
      var a' := a.(functions := Append(a.functions, name, def));
      RecordDefinitionPreserves(a, name, def);
      ScanCallsPreserves(a', name, path, Walk(n), code, decode);
      var r := ScanCalls(a', name, path, Walk(n), code, decode);
      GrowsTransitive(a, a', r);
      assert VisitDefinition(a, path, n, code, decode) == r;
    } else {
      assert VisitDefinition(a, path, n, code, decode) == a;
    }
  }

  lemma {:induction false} ScanDefinitionsPreserves(a: Acc, path: string, nodes: seq<Node>, code: seq<byte>, decode: Decoder)
    requires Consistent(a)
    ensures Consistent(ScanDefinitions(a, path, nodes, code, decode))
    ensures Grows(a, ScanDefinitions(a, path, nodes, code, decode))
  {
    if nodes != [] {
      var p := nodes[..|nodes| - 1];
      ScanDefinitionsPreserves(a, path, p, code, decode);
      var b := ScanDefinitions(a, path, p, code, decode);
      VisitDefinitionPreserves(b, path, nodes[|nodes| - 1], code, decode);
      GrowsTransitive(a, b, VisitDefinition(b, path, nodes[|nodes| - 1], code, decode));
    }
  }

  /** The whole file loop keeps the accumulators consistent and only ever
      appends to them. */
  lemma {:induction false} ProcessFilesPreserves(a: Acc, root: string, files: seq<SourceFile>, parse: Parser, decode: Decoder)
    requires Consistent(a)
    ensures Consistent(ProcessFiles(a, root, files, parse, decode))
    ensures Grows(a, ProcessFiles(a, root, files, parse, decode))
  {
    if files != [] {
      var p, f := files[..|files| - 1], files[|files| - 1];
      ProcessFilesPreserves(a, root, p, parse, decode);
      var b := ProcessFiles(a, root, p, parse, decode);
      if FileFailure(PathString(root, f), f.content, parse).None? {
        ScanDefinitionsPreserves(b, PathString(root, f), Walk(parse(f.content.value).value), f.content.value, decode);
      }
      GrowsTransitive(a, b, ProcessFiles(a, root, files, parse, decode));
    }
  }

  /** A definition without a declarator, or whose declarator holds no
      identifier, adds nothing to any map and no error. */
  lemma NamelessDefinitionIgnored(a: Acc, path: string, n: Node, code: seq<byte>, decode: Decoder)
    requires n.declarator.None? || forall m :: m in Walk(n.declarator.value) ==> m.kind != Identifier
    ensures VisitDefinition(a, path, n, code, decode) == a
  {
    FunctionNameCases(n, code, decode);
  }

  // ---------------------------------------------------------------------------
  // A failed file contributes only its error
  // ---------------------------------------------------------------------------

  /** The files whose read and parse both succeed, in order. */
  function OkFiles(root: string, files: seq<SourceFile>, parse: Parser): seq<SourceFile> {
    if files == [] then []
    else
      var f := files[|files| - 1];
      OkFiles(root, files[..|files| - 1], parse)
        + (if FileFailure(PathString(root, f), f.content, parse).None? then [f] else [])
  }

  /** One error per failed file, in order. */
  function FailedErrors(root: string, files: seq<SourceFile>, parse: Parser): seq<FileError> {
    if files == [] then []
    else
      var f := files[|files| - 1];
      FailedErrors(root, files[..|files| - 1], parse)
        + match FileFailure(PathString(root, f), f.content, parse) case Some(e) => [e] case None => []
  }

  lemma {:induction false} FailedErrorsCount(root: string, files: seq<SourceFile>, parse: Parser)
    ensures |FailedErrors(root, files, parse)| + |OkFiles(root, files, parse)| == |files|
  {
    if files != [] {
      FailedErrorsCount(root, files[..|files| - 1], parse);
    }
  }

  lemma {:induction false} ScanCallsIgnoresErrors(a: Acc, errs: seq<FileError>, name: string, path: string, subs: seq<Node>, code: seq<byte>, decode: Decoder)
    ensures ScanCalls(a.(errors := errs), name, path, subs, code, decode) == ScanCalls(a, name, path, subs, code, decode).(errors := errs)
  {
    if subs != [] {
      ScanCallsIgnoresErrors(a, errs, name, path, subs[..|subs| - 1], code, decode);
    }
  }

  lemma {:induction false} ScanDefinitionsIgnoresErrors(a: Acc, errs: seq<FileError>, path: string, nodes: seq<Node>, code: seq<byte>, decode: Decoder)
    ensures ScanDefinitions(a.(errors := errs), path, nodes, code, decode) == ScanDefinitions(a, path, nodes, code, decode).(errors := errs)
  {
    if nodes != [] {
      var p, n := nodes[..|nodes| - 1], nodes[|nodes| - 1];
      ScanDefinitionsIgnoresErrors(a, errs, path, p, code, decode);
      var b := ScanDefinitions(a, path, p, code, decode);
      if n.kind == FunctionDefinition && FunctionName(n, code, decode) != Unknown {
        var name := FunctionName(n, code, decode);
        var b' := b.(functions := Append(b.functions, name, Definition(path, n.startRow + 1, n.endRow + 1)));
        ScanCallsIgnoresErrors(b', errs, name, path, Walk(n), code, decode);
      }
    }
  }

  /** Processing all files gives the maps that processing only the files
      that read and parse gives; the error list is the old one followed by
      exactly one entry per failed file. */
  lemma {:induction false} FailureIsolation(a: Acc, root: string, files: seq<SourceFile>, parse: Parser, decode: Decoder)
    ensures ProcessFiles(a, root, files, parse, decode)
         == ProcessFiles(a, root, OkFiles(root, files, parse), parse, decode).(errors := a.errors + FailedErrors(root, files, parse))
  {
    if files == [] {
      assert a.errors + [] == a.errors;
    } else {
      var p, f := files[..|files| - 1], files[|files| - 1];
      FailureIsolation(a, root, p, parse, decode);
      var ok := OkFiles(root, p, parse);
      var x := ProcessFiles(a, root, ok, parse, decode);
      var path := PathString(root, f);
      match FileFailure(path, f.content, parse)
      case Some(e) =>
        assert OkFiles(root, files, parse) == ok + [];
        assert ok + [] == ok;
        assert a.errors + FailedErrors(root, files, parse) == a.errors + FailedErrors(root, p, parse) + [e];
      case None =>
        assert FailedErrors(root, files, parse) == FailedErrors(root, p, parse) + [];
        assert FailedErrors(root, p, parse) + [] == FailedErrors(root, p, parse);
        var code := f.content.value;
        ScanDefinitionsIgnoresErrors(x, a.errors + FailedErrors(root, p, parse), path, Walk(parse(code).value), code, decode);
        assert OkFiles(root, files, parse)[..|OkFiles(root, files, parse)| - 1] == ok;
    }
  }

  /** A run in which nothing fails records no error. */
  lemma {:induction false} OkFilesNoErrors(a: Acc, root: string, files: seq<SourceFile>, parse: Parser, decode: Decoder)
    ensures ProcessFiles(a, root, OkFiles(root, files, parse), parse, decode).errors == a.errors
  {
    FailureIsolation(a, root, OkFiles(root, files, parse), parse, decode);
    OkFilesIdempotent(root, files, parse);
    assert FailedErrors(root, OkFiles(root, files, parse), parse) == [] by {
      FailedErrorsCount(root, OkFiles(root, files, parse), parse);
    }
    assert a.errors + [] == a.errors;
  }

  lemma {:induction false} OkFilesIdempotent(root: string, files: seq<SourceFile>, parse: Parser)
    ensures OkFiles(root, OkFiles(root, files, parse), parse) == OkFiles(root, files, parse)
  {
    if files != [] {
      var p, f := files[..|files| - 1], files[|files| - 1];
      OkFilesIdempotent(root, p, parse);
      var ok := OkFiles(root, p, parse);
      if FileFailure(PathString(root, f), f.content, parse).None? {
        assert (ok + [f])[..|ok|] == ok;
      } else {
        assert ok + [] == ok;
      }
    }
  }

  // ---------------------------------------------------------------------------
  // The inversion
  // ---------------------------------------------------------------------------

  lemma {:induction false} InvertPairsMembers(ps: seq<(string, CallSite)>, x: string, cs: CallerSite)
    ensures (x, cs) in InvertPairs(ps) <==> (cs.caller, CallSite(x, cs.file, cs.line, cs.col)) in ps
  {
    if ps != [] {
      var p := ps[..|ps| - 1];
      InvertPairsMembers(p, x, cs);
      assert ps == p + [ps[|ps| - 1]];
    }
  }

  /** `called_by_sites[x]` lists, in `call_sites` order, one record per site
      of any caller whose callee is `x`; a caller record is there exactly when
      the matching site is recorded under that caller. */
  lemma InvertExactly(sites: ODict<seq<CallSite>>, x: string, cs: CallerSite)
    ensures Get(Invert(sites), x) == Select(InvertPairs(Items(sites)), x)
    ensures cs in Get(Invert(sites), x) <==>
              cs.caller in sites.keys && CallSite(x, cs.file, cs.line, cs.col) in Get(sites, cs.caller)
  {
    var ps := InvertPairs(Items(sites));
    AppendAllGet(Empty(), ps, x);
    assert Get(Empty<seq<CallerSite>>(), x) == [];
    SelectMembers(ps, x, cs);
    InvertPairsMembers(Items(sites), x, cs);
    ItemsOfMembers(sites.keys, sites, cs.caller, CallSite(x, cs.file, cs.line, cs.col));
  }

  /** The inversion has exactly as many entries as `call_sites`. */
  lemma InvertTotal(sites: ODict<seq<CallSite>>)
    ensures Valid(Invert(sites))
    ensures Total(Invert(sites)) == Total(sites)
  {
    TotalAppendAll(Empty<seq<CallerSite>>(), InvertPairs(Items(sites)));
    ItemsOfLength(sites.keys, sites);
  }

  // ---------------------------------------------------------------------------
  // The result
  // ---------------------------------------------------------------------------

  /** The result's maps are consistent, its stats count what the maps hold,
      every caller has at least one call, and `called_by_sites` holds as many
      entries as `call_sites`. */
  lemma AnalyzeFacts(root: string, tree: Dir, parse: Parser, decode: Decoder)
    ensures var g := Analyze(root, tree, parse, decode);
      && Consistent(Acc(g.functions, g.calls, g.callSites, g.errors))
      && Valid(g.calledBySites)
      && g.stats.numFunctions == Total(g.functions)
      && g.stats.numUniqueFunctionNames == |g.functions.keys| <= g.stats.numFunctions
      && g.stats.numCallers == |g.calls.keys| <= g.stats.numCallSites
      && g.stats.numCallSites == Total(g.callSites) == Total(g.calledBySites)
      && g.stats.numFilesWithErrors == |g.errors|
  {
    var a := ProcessFiles(EmptyAcc(), root, IterSourceFiles(tree), parse, decode);
    ProcessFilesPreserves(EmptyAcc(), root, IterSourceFiles(tree), parse, decode);
    InvertTotal(a.callSites);
    SumLengthsAtLeastKeys(a.functions.keys, a.functions.vals);
    assert forall k :: k in a.callSites.keys ==> Len(a.callSites.vals, k) >= 1 by {
      forall k | k in a.callSites.keys ensures Len(a.callSites.vals, k) >= 1 {
        assert k in a.calls.vals;
        assert |Get(a.calls, k)| == |Get(a.callSites, k)|;
      }
    }
    SumLengthsAtLeastKeys(a.callSites.keys, a.callSites.vals);
  }
}
