/** The GUI's workspace backend: it turns a call-site index, as read from
    JSON, into the file list, per-file outlines, caller and callee maps and
    normalised call-site lists the GUI shows, and answers one-hop queries,
    caching the call-site lines it builds per symbol.

    JSON decoding, the file system and `str.lower` stay outside: the decoded
    index is a value, `relpath(root, p)` (the path of `p` relative to the
    resolved root, or `p` itself when it is not below it) and `lower` are
    opaque functions handed in. */
module Workspace {
  import opened Wrappers
  import opened PyStr
  import opened Sorting
  import opened Dicts
  import opened Base

  // ---------------------------------------------------------------------------
  // The index as decoded from JSON
  // ---------------------------------------------------------------------------

  /** A definition record; only its `file` entry is read. */
  datatype RawDefinition = RawDefinition(file: Option<string>)

  /** An outgoing call-site record; each entry may be missing. */
  datatype RawCallSite = RawCallSite(callee: Option<string>, file: Option<string>, line: Option<int>, col: Option<int>)

  /** An incoming call-site record; each entry may be missing. */
  datatype RawCallerSite = RawCallerSite(caller: Option<string>, file: Option<string>, line: Option<int>, col: Option<int>)

  /** A JSON value where a list is expected: a list, or any other value. */
  datatype JsonList<T> = List(items: seq<T>) | NotList

  /** The decoded index. A missing top-level map is an empty one; under
      `functions`, `call_sites` and `called_by_sites` a value that is not a
      list is skipped by every loop and so stands here as an empty list. */
  datatype RawIndex = RawIndex(
    root: Option<string>,
    functions: ODict<seq<RawDefinition>>,
    calls: ODict<JsonList<string>>,
    callSites: ODict<seq<RawCallSite>>,
    calledBySites: ODict<seq<RawCallerSite>>)

  /** JSON objects have distinct keys. */
  ghost predicate RawValid(raw: RawIndex) {
    Valid(raw.functions) && Valid(raw.calls) && Valid(raw.callSites) && Valid(raw.calledBySites)
  }

  type RelPath = (string, string) -> string

  type Lower = string -> string

  /** The root paths are made relative to: the index's own `root` when it is
      a string that is not blank, else the folder the user selected. */
  function RootForRel(jsonRoot: Option<string>, selectedRoot: string): string {
    if jsonRoot.Some? && Strip(jsonRoot.value) != "" then jsonRoot.value else selectedRoot
  }

  /** A normalised call-site record: every entry present. */
  datatype OutSite = OutSite(callee: string, file: string, line: int, col: int)

  datatype InSite = InSite(caller: string, file: string, line: int, col: int)

  /** The file entry of a normalised record: relative when given, else `""`. */
  function NormalFile(file: Option<string>, relpath: RelPath, root: string): string {
    if Truthy(file) then relpath(root, file.value) else ""
  }

  /** Missing `callee` becomes `""`, missing `line` and `col` become 0. */
  function NormalizeOut(s: RawCallSite, relpath: RelPath, root: string): OutSite {
    OutSite(s.callee.GetOr(""), NormalFile(s.file, relpath, root), s.line.GetOr(0), s.col.GetOr(0))
  }

  /** `str(caller or "")`: a missing or empty caller becomes `""`. */
  function NormalizeIn(s: RawCallerSite, relpath: RelPath, root: string): InSite {
    InSite(s.caller.GetOr(""), NormalFile(s.file, relpath, root), s.line.GetOr(0), s.col.GetOr(0))
  }

  function NormalizeOutAll(ss: seq<RawCallSite>, relpath: RelPath, root: string): (r: seq<OutSite>)
    ensures |r| == |ss| && forall i :: 0 <= i < |ss| ==> r[i] == NormalizeOut(ss[i], relpath, root)
  {
    seq(|ss|, i requires 0 <= i < |ss| => NormalizeOut(ss[i], relpath, root))
  }

  function NormalizeInAll(ss: seq<RawCallerSite>, relpath: RelPath, root: string): (r: seq<InSite>)
    ensures |r| == |ss| && forall i :: 0 <= i < |ss| ==> r[i] == NormalizeIn(ss[i], relpath, root)
  {
    seq(|ss|, i requires 0 <= i < |ss| => NormalizeIn(ss[i], relpath, root))
  }

  // ---------------------------------------------------------------------------
  // Sorting by `key=str.lower` and sets kept in insertion order
  // ---------------------------------------------------------------------------

  function LowerLe(lower: Lower): (string, string) -> bool {
    (a: string, b: string) => Le(lower(a), lower(b))
  }

  lemma LowerLeTotal(lower: Lower)
    ensures TotalPreorder(LowerLe(lower))
  {
    LeIsTotalOrder();
  }

  /** `sorted(names, key=str.lower)` */
  function SortNames(names: seq<string>, lower: Lower): seq<string> {
    LowerLeTotal(lower);
    Sort(names, LowerLe(lower))
  }

  /** The sorted names are sorted and hold the same names. */
  lemma SortNamesFacts(names: seq<string>, lower: Lower)
    ensures var r := SortNames(names, lower);
      && SortedBy(r, LowerLe(lower))
      && (forall x :: x in r <==> x in names)
      && (Distinct(names) ==> Distinct(r))
  {
    LowerLeTotal(lower);
    var r := SortNames(names, lower);
    PermutationKeepsDistinctIf(names, r);
    assert forall x :: x in r <==> x in multiset(names);
  }

  /** `s.add(x)` on a set kept in insertion order. */
  function AddToSet(s: seq<string>, x: string): (r: seq<string>)
    ensures forall y :: y in r <==> y in s || y == x
    ensures Distinct(s) ==> Distinct(r)
  {
    if x in s then s else s + [x]
  }

  /** Every value of the dict is duplicate-free. */
  ghost predicate SetValued(d: ODict<seq<string>>) {
    forall k :: Distinct(Get(d, k))
  }

  /** `d[k].add(x)` on a `defaultdict(set)`. */
  function AddToSetAt(d: ODict<seq<string>>, k: string, x: string): (r: ODict<seq<string>>)
    ensures Valid(d) ==> Valid(r)
    ensures forall k', y :: y in Get(r, k') <==> y in Get(d, k') || (k' == k && y == x)
    ensures forall k' :: k' in r.vals <==> k' in d.vals || k' == k
    ensures SetValued(d) ==> SetValued(r)
  {
    if x in Get(d, k) then d else Append(d, k, x)
  }

  // ---------------------------------------------------------------------------
  // The loops of `_load_index_from_json`, each as a fold over the (key,
  // record) pairs its nested loops visit
  // ---------------------------------------------------------------------------

  /** The definition record `e` names file `f` once made relative. */
  predicate DefinedIn(e: (string, RawDefinition), relpath: RelPath, root: string, f: string) {
    Truthy(e.1.file) && relpath(root, e.1.file.value) == f
  }

  /** The outgoing record `e` names file `f` once made relative. */
  predicate SiteIn(e: (string, RawCallSite), relpath: RelPath, root: string, f: string) {
    Truthy(e.1.file) && relpath(root, e.1.file.value) == f
  }

  /** `files_set` and `outline_names_by_file` so far. */
  datatype Collected = Collected(files: seq<string>, names: ODict<seq<string>>)

  /** One definition record: a record with a file adds the file to the set
      and the function's name to the file's name set. */
  function DefinitionStep(c: Collected, e: (string, RawDefinition), relpath: RelPath, root: string): Collected {
    if Truthy(e.1.file) then
      var rf := relpath(root, e.1.file.value);
      Collected(AddToSet(c.files, rf), AddToSetAt(c.names, rf, e.0))
    else c
  }

  function DefinitionStepFn(relpath: RelPath, root: string): (Collected, (string, RawDefinition)) -> Collected {
    (c: Collected, e: (string, RawDefinition)) => DefinitionStep(c, e, relpath, root)
  }

  function CollectDefinitions(es: seq<(string, RawDefinition)>, relpath: RelPath, root: string): Collected {
    FoldLeft(Collected([], Empty()), es, DefinitionStepFn(relpath, root))
  }

  /** After the definition loop the file set holds each file named by a
      definition once, and each file's name set holds exactly the functions
      with a definition in it, each once. */
  lemma {:induction false} CollectDefinitionsFacts(es: seq<(string, RawDefinition)>, relpath: RelPath, root: string)
    ensures Distinct(CollectDefinitions(es, relpath, root).files)
    ensures Valid(CollectDefinitions(es, relpath, root).names) && SetValued(CollectDefinitions(es, relpath, root).names)
    ensures forall f :: f in CollectDefinitions(es, relpath, root).files <==> exists e :: e in es && DefinedIn(e, relpath, root, f)
    ensures forall f :: f in CollectDefinitions(es, relpath, root).names.vals <==> exists e :: e in es && DefinedIn(e, relpath, root, f)
    ensures forall f, n :: n in Get(CollectDefinitions(es, relpath, root).names, f) <==>
                           exists e :: e in es && e.0 == n && DefinedIn(e, relpath, root, f)
  {
    if es != [] {
      var p, x := es[..|es| - 1], es[|es| - 1];
      CollectDefinitionsFacts(p, relpath, root);
      assert CollectDefinitions(es, relpath, root) == DefinitionStep(CollectDefinitions(p, relpath, root), x, relpath, root);
      assert forall e :: e in es <==> e in p || e == x by {
        assert es == p + [x];
      }
    }
  }

  /** One outgoing record of the second loop: its file joins the set. */
  function SiteFileStep(files: seq<string>, e: (string, RawCallSite), relpath: RelPath, root: string): seq<string> {
    if Truthy(e.1.file) then AddToSet(files, relpath(root, e.1.file.value)) else files
  }

  function SiteFileStepFn(relpath: RelPath, root: string): (seq<string>, (string, RawCallSite)) -> seq<string> {
    (fs: seq<string>, e: (string, RawCallSite)) => SiteFileStep(fs, e, relpath, root)
  }

  function CollectSiteFiles(files: seq<string>, es: seq<(string, RawCallSite)>, relpath: RelPath, root: string): seq<string> {
    FoldLeft(files, es, SiteFileStepFn(relpath, root))
  }

  lemma {:induction false} CollectSiteFilesFacts(files: seq<string>, es: seq<(string, RawCallSite)>, relpath: RelPath, root: string)
    ensures Distinct(files) ==> Distinct(CollectSiteFiles(files, es, relpath, root))
    ensures forall f :: f in CollectSiteFiles(files, es, relpath, root) <==>
                        f in files || exists e :: e in es && SiteIn(e, relpath, root, f)
  {
    if es != [] {
      var p, x := es[..|es| - 1], es[|es| - 1];
      CollectSiteFilesFacts(files, p, relpath, root);
      var r, r' := CollectSiteFiles(files, p, relpath, root), CollectSiteFiles(files, es, relpath, root);
      assert r' == SiteFileStep(r, x, relpath, root);
      assert forall e :: e in es <==> e in p || e == x by {
        assert es == p + [x];
      }
      forall f ensures f in r' <==> f in files || exists e :: e in es && SiteIn(e, relpath, root, f) {
        if exists e :: e in p && SiteIn(e, relpath, root, f) {
          var e :| e in p && SiteIn(e, relpath, root, f);
          assert e in es;
        }
        if SiteIn(x, relpath, root, f) {
          assert x in es;
        }
      }
    }
  }

  /** `callers_set_map` and `call_sites_in` so far. */
  datatype Incoming = Incoming(callers: ODict<seq<string>>, sitesIn: ODict<seq<InSite>>)

  /** One incoming record: a non-empty caller joins the callee's caller set,
      and the normalised record is appended to the callee's list. */
  function IncomingStep(acc: Incoming, e: (string, RawCallerSite), relpath: RelPath, root: string): Incoming {
    Incoming(
      if Truthy(e.1.caller) then AddToSetAt(acc.callers, e.0, e.1.caller.value) else acc.callers,
      Append(acc.sitesIn, e.0, NormalizeIn(e.1, relpath, root)))
  }

  function IncomingStepFn(relpath: RelPath, root: string): (Incoming, (string, RawCallerSite)) -> Incoming {
    (acc: Incoming, e: (string, RawCallerSite)) => IncomingStep(acc, e, relpath, root)
  }

  function CollectIncoming(es: seq<(string, RawCallerSite)>, relpath: RelPath, root: string): Incoming {
    FoldLeft(Incoming(Empty(), Empty()), es, IncomingStepFn(relpath, root))
  }

  /** A record of `es` names `x` as a caller of `k`. */
  predicate CalledBy(e: (string, RawCallerSite), k: string, x: string) {
    e.0 == k && e.1.caller == Some(x) && x != ""
  }

  /** The caller sets form a well-formed dict of duplicate-free lists. */
  lemma {:induction false} CollectIncomingCallersValid(es: seq<(string, RawCallerSite)>, relpath: RelPath, root: string)
    ensures Valid(CollectIncoming(es, relpath, root).callers) && SetValued(CollectIncoming(es, relpath, root).callers)
  {
    if es != [] {
      var p, x := es[..|es| - 1], es[|es| - 1];
      CollectIncomingCallersValid(p, relpath, root);
      assert CollectIncoming(es, relpath, root) == IncomingStep(CollectIncoming(p, relpath, root), x, relpath, root);
    }
  }

  /** A callee's caller set holds exactly the non-empty callers named for it. */
  lemma {:induction false} CollectIncomingCallerSets(es: seq<(string, RawCallerSite)>, relpath: RelPath, root: string)
    ensures forall k, x :: x in Get(CollectIncoming(es, relpath, root).callers, k) <==> exists e :: e in es && CalledBy(e, k, x)
  {
    if es != [] {
      var p, last := es[..|es| - 1], es[|es| - 1];
      CollectIncomingCallerSets(p, relpath, root);
      var before := CollectIncoming(p, relpath, root).callers;
      var after := CollectIncoming(es, relpath, root).callers;
      assert after == IncomingStep(CollectIncoming(p, relpath, root), last, relpath, root).callers;
      assert es == p + [last];
      forall k, x ensures x in Get(after, k) <==> exists e :: e in es && CalledBy(e, k, x) {
        assert x in Get(after, k) <==> x in Get(before, k) || CalledBy(last, k, x);
        if exists e :: e in p && CalledBy(e, k, x) {
          var e :| e in p && CalledBy(e, k, x);
          assert e in es;
        }
      }
    }
  }

  /** A callee gets a caller set only when a record names a non-empty caller for it. */
  lemma {:induction false} CollectIncomingCallerKeys(es: seq<(string, RawCallerSite)>, relpath: RelPath, root: string)
    ensures forall k :: k in CollectIncoming(es, relpath, root).callers.vals <==> exists e :: e in es && e.0 == k && Truthy(e.1.caller)
  {
    if es != [] {
      var p, x := es[..|es| - 1], es[|es| - 1];
      CollectIncomingCallerKeys(p, relpath, root);
      assert CollectIncoming(es, relpath, root) == IncomingStep(CollectIncoming(p, relpath, root), x, relpath, root);
      assert forall e :: e in es <==> e in p || e == x by {
        assert es == p + [x];
      }
    }
  }

  /** The caller sets hold exactly the non-empty callers named for each
      callee, each once; a callee gets a key only with such a caller. */
  lemma CollectIncomingCallers(es: seq<(string, RawCallerSite)>, relpath: RelPath, root: string)
    ensures Valid(CollectIncoming(es, relpath, root).callers) && SetValued(CollectIncoming(es, relpath, root).callers)
    ensures forall k, x :: x in Get(CollectIncoming(es, relpath, root).callers, k) <==> exists e :: e in es && CalledBy(e, k, x)
    ensures forall k :: k in CollectIncoming(es, relpath, root).callers.vals <==> exists e :: e in es && e.0 == k && Truthy(e.1.caller)
  {
    CollectIncomingCallersValid(es, relpath, root);
    CollectIncomingCallerSets(es, relpath, root);
    CollectIncomingCallerKeys(es, relpath, root);
  }

  /** Each callee's list holds one normalised record per incoming record,
      in order, and a callee has a key exactly when it has a record. */
  lemma {:induction false} CollectIncomingSites(es: seq<(string, RawCallerSite)>, relpath: RelPath, root: string, k: string)
    ensures Get(CollectIncoming(es, relpath, root).sitesIn, k) == NormalizeInAll(Select(es, k), relpath, root)
    ensures k in CollectIncoming(es, relpath, root).sitesIn.vals <==> Select(es, k) != []
  {
    if es != [] {
      var p, x := es[..|es| - 1], es[|es| - 1];
      CollectIncomingSites(p, relpath, root, k);
      assert CollectIncoming(es, relpath, root) == IncomingStep(CollectIncoming(p, relpath, root), x, relpath, root);
      if x.0 == k {
        assert NormalizeInAll(Select(p, k) + [x.1], relpath, root)
            == NormalizeInAll(Select(p, k), relpath, root) + [NormalizeIn(x.1, relpath, root)];
      }
    }
  }

  function OutgoingStep(d: ODict<seq<OutSite>>, e: (string, RawCallSite), relpath: RelPath, root: string): ODict<seq<OutSite>> {
    Append(d, e.0, NormalizeOut(e.1, relpath, root))
  }

  function OutgoingStepFn(relpath: RelPath, root: string): (ODict<seq<OutSite>>, (string, RawCallSite)) -> ODict<seq<OutSite>> {
    (d: ODict<seq<OutSite>>, e: (string, RawCallSite)) => OutgoingStep(d, e, relpath, root)
  }

  /** `call_sites_out` */
  function CollectOutgoing(es: seq<(string, RawCallSite)>, relpath: RelPath, root: string): ODict<seq<OutSite>> {
    FoldLeft(Empty(), es, OutgoingStepFn(relpath, root))
  }

  lemma {:induction false} CollectOutgoingSites(es: seq<(string, RawCallSite)>, relpath: RelPath, root: string, k: string)
    ensures Valid(CollectOutgoing(es, relpath, root))
    ensures Get(CollectOutgoing(es, relpath, root), k) == NormalizeOutAll(Select(es, k), relpath, root)
    ensures k in CollectOutgoing(es, relpath, root).vals <==> Select(es, k) != []
  {
    if es != [] {
      var p, x := es[..|es| - 1], es[|es| - 1];
      CollectOutgoingSites(p, relpath, root, k);
      assert CollectOutgoing(es, relpath, root) == OutgoingStep(CollectOutgoing(p, relpath, root), x, relpath, root);
      if x.0 == k {
        assert NormalizeOutAll(Select(p, k) + [x.1], relpath, root)
            == NormalizeOutAll(Select(p, k), relpath, root) + [NormalizeOut(x.1, relpath, root)];
      }
    }
  }

  /** `[SymbolSummary(name=n, kind=SymbolKind.FUNCTION) for n in names]` */
  function Summaries(names: seq<string>): (r: seq<SymbolSummary>)
    ensures |r| == |names| && forall i :: 0 <= i < |names| ==> r[i] == SymbolSummary(names[i], Function)
  {
    seq(|names|, i requires 0 <= i < |names| => SymbolSummary(names[i], Function))
  }

  /** An outline: the names sorted, each a function. */
  function OutlineEntries(names: seq<string>, lower: Lower): seq<SymbolSummary> {
    Summaries(SortNames(names, lower))
  }

  function OutlineEntriesFn(lower: Lower): seq<string> -> seq<SymbolSummary> {
    (names: seq<string>) => OutlineEntries(names, lower)
  }

  function SortNamesFn(lower: Lower): seq<string> -> seq<string> {
    (names: seq<string>) => SortNames(names, lower)
  }

  /** `callees[caller]`: the distinct callees sorted, or `[]` when the
      value is not a list. */
  function CalleeList(v: JsonList<string>, lower: Lower): (r: seq<string>) {
    match v
    case NotList => []
    case List(xs) => LowerLeTotal(lower); SortedSet(xs, LowerLe(lower))
  }

  function CalleeListFn(lower: Lower): JsonList<string> -> seq<string> {
    (v: JsonList<string>) => CalleeList(v, lower)
  }

  function Names(entries: seq<SymbolSummary>): (r: seq<string>)
    ensures |r| == |entries| && forall i :: 0 <= i < |entries| ==> r[i] == entries[i].name
  {
    seq(|entries|, i requires 0 <= i < |entries| => entries[i].name)
  }

  // ---------------------------------------------------------------------------
  // What a load stores
  // ---------------------------------------------------------------------------

  datatype Index = Index(
    files: seq<string>,
    outline: ODict<seq<SymbolSummary>>,
    callers: ODict<seq<string>>,
    callees: ODict<seq<string>>,
    sitesOut: ODict<seq<OutSite>>,
    sitesIn: ODict<seq<InSite>>)

  function EmptyIndex(): Index {
    Index([], Empty(), Empty(), Empty(), Empty(), Empty())
  }

  /** The definitions pass of `_load_index_from_json`: defining files and
      each file's defined names. */
  function DefinitionsOf(raw: RawIndex, selectedRoot: string, relpath: RelPath): Collected {
    CollectDefinitions(Items(raw.functions), relpath, RootForRel(raw.root, selectedRoot))
  }

  /** The incoming pass of `_load_index_from_json`: callers and incoming sites. */
  function IncomingOf(raw: RawIndex, selectedRoot: string, relpath: RelPath): Incoming {
    CollectIncoming(Items(raw.calledBySites), relpath, RootForRel(raw.root, selectedRoot))
  }

  function IndexFiles(raw: RawIndex, selectedRoot: string, relpath: RelPath, lower: Lower): seq<string> {
    var root := RootForRel(raw.root, selectedRoot);
    SortNames(CollectSiteFiles(DefinitionsOf(raw, selectedRoot, relpath).files, Items(raw.callSites), relpath, root), lower)
  }

  function IndexOutline(raw: RawIndex, selectedRoot: string, relpath: RelPath, lower: Lower): ODict<seq<SymbolSummary>> {
    MapValues(DefinitionsOf(raw, selectedRoot, relpath).names, OutlineEntriesFn(lower))
  }

  function IndexCallers(raw: RawIndex, selectedRoot: string, relpath: RelPath, lower: Lower): ODict<seq<string>> {
    MapValues(IncomingOf(raw, selectedRoot, relpath).callers, SortNamesFn(lower))
  }

  function IndexSitesOut(raw: RawIndex, selectedRoot: string, relpath: RelPath): ODict<seq<OutSite>> {
    CollectOutgoing(Items(raw.callSites), relpath, RootForRel(raw.root, selectedRoot))
  }

  /** `_load_index_from_json` over the decoded index. */
  function LoadIndex(raw: RawIndex, selectedRoot: string, relpath: RelPath, lower: Lower): Index {
    Index(
      IndexFiles(raw, selectedRoot, relpath, lower),
      IndexOutline(raw, selectedRoot, relpath, lower),
      IndexCallers(raw, selectedRoot, relpath, lower),
      MapValues(raw.calls, CalleeListFn(lower)),
      IndexSitesOut(raw, selectedRoot, relpath),
      IncomingOf(raw, selectedRoot, relpath).sitesIn)
  }

  /** A file is listed when a definition or an outgoing call site names it. */
  ghost predicate IndexedFile(raw: RawIndex, root: string, relpath: RelPath, f: string) {
    || (exists e :: e in Items(raw.functions) && DefinedIn(e, relpath, root, f))
    || (exists e :: e in Items(raw.callSites) && SiteIn(e, relpath, root, f))
  }

  ghost predicate LoadedFilesFacts(raw: RawIndex, selectedRoot: string, relpath: RelPath, lower: Lower) {
    var ix := LoadIndex(raw, selectedRoot, relpath, lower);
    && SortedBy(ix.files, LowerLe(lower)) && Distinct(ix.files)
    && forall f :: f in ix.files <==> IndexedFile(raw, RootForRel(raw.root, selectedRoot), relpath, f)
  }

  /** The file list is sorted by lower-cased name, holds no duplicates, and
      holds exactly the files named by definitions and outgoing call sites. */
  lemma LoadedFiles(raw: RawIndex, selectedRoot: string, relpath: RelPath, lower: Lower)
    ensures LoadedFilesFacts(raw, selectedRoot, relpath, lower)
  {
    var root := RootForRel(raw.root, selectedRoot);
    var defs := CollectDefinitions(Items(raw.functions), relpath, root);
    CollectDefinitionsFacts(Items(raw.functions), relpath, root);
    CollectSiteFilesFacts(defs.files, Items(raw.callSites), relpath, root);
    SortNamesFacts(CollectSiteFiles(defs.files, Items(raw.callSites), relpath, root), lower);
  }

  /** Building the outlines keeps the files and turns each file's name set
      into its sorted list of function summaries. */
  lemma OutlinesOf(names: ODict<seq<string>>, lower: Lower, f: string)
    requires Valid(names) && SetValued(names)
    ensures var o: ODict<seq<SymbolSummary>> := MapValues(names, OutlineEntriesFn(lower));
      && Valid(o)
      && (f in o.vals <==> f in names.vals)
      && (f in o.vals ==>
            && SortedBy(Names(o.vals[f]), LowerLe(lower))
            && Distinct(Names(o.vals[f]))
            && (forall s :: s in o.vals[f] ==> s.kind == Function)
            && forall n :: n in Names(o.vals[f]) <==> n in Get(names, f))
  {
    MapValuesFacts(names, OutlineEntriesFn(lower));
    if f in names.vals {
      assert Distinct(Get(names, f));
      OutlineOfFile(names.vals[f], lower, MapValues(names, OutlineEntriesFn(lower)).vals[f]);
    }
  }

  lemma OutlineOfFile(names: seq<string>, lower: Lower, entries: seq<SymbolSummary>)
    requires entries == OutlineEntries(names, lower)
    ensures SortedBy(Names(entries), LowerLe(lower))
    ensures Distinct(names) ==> Distinct(Names(entries))
    ensures forall s :: s in entries ==> s.kind == Function
    ensures forall n :: n in Names(entries) <==> n in names
  {
    assert Names(entries) == SortNames(names, lower);
    SortNamesFacts(names, lower);
  }

  /** A file has an outline exactly when a definition names it, and every
      outlined file is listed. */
  lemma LoadedOutlineFiles(raw: RawIndex, selectedRoot: string, relpath: RelPath, lower: Lower, f: string)
    ensures var ix, root := LoadIndex(raw, selectedRoot, relpath, lower), RootForRel(raw.root, selectedRoot);
      && Valid(ix.outline)
      && (f in ix.outline.vals <==> exists e :: e in Items(raw.functions) && DefinedIn(e, relpath, root, f))
      && (f in ix.outline.vals ==> f in ix.files)
  {
    var root := RootForRel(raw.root, selectedRoot);
    var defs := CollectDefinitions(Items(raw.functions), relpath, root);
    CollectDefinitionsFacts(Items(raw.functions), relpath, root);
    OutlinesOf(defs.names, lower, f);
    LoadedFiles(raw, selectedRoot, relpath, lower);
  }

  /** A file's outline: exactly the functions defined in the file, once
      each, sorted by lower-cased name, all of kind function. */
  ghost predicate OutlineFacts(entries: seq<SymbolSummary>, raw: RawIndex, root: string, relpath: RelPath, lower: Lower, f: string) {
    && SortedBy(Names(entries), LowerLe(lower))
    && Distinct(Names(entries))
    && (forall s :: s in entries ==> s.kind == Function)
    && forall n :: n in Names(entries) <==> exists e :: e in Items(raw.functions) && e.0 == n && DefinedIn(e, relpath, root, f)
  }

  lemma OutlineFactsOf(names: seq<string>, raw: RawIndex, root: string, relpath: RelPath, lower: Lower, f: string)
    requires Distinct(names)
    requires forall n :: n in names <==> exists e :: e in Items(raw.functions) && e.0 == n && DefinedIn(e, relpath, root, f)
    ensures OutlineFacts(OutlineEntries(names, lower), raw, root, relpath, lower, f)
  {
    OutlineOfFile(names, lower, OutlineEntries(names, lower));
  }

  lemma OutlineFactsUnder(raw: RawIndex, root: string, relpath: RelPath, lower: Lower, f: string)
    requires f in MapValues(CollectDefinitions(Items(raw.functions), relpath, root).names, OutlineEntriesFn(lower)).vals
    ensures OutlineFacts(MapValues(CollectDefinitions(Items(raw.functions), relpath, root).names, OutlineEntriesFn(lower)).vals[f],
                         raw, root, relpath, lower, f)
  {
    var names := CollectDefinitions(Items(raw.functions), relpath, root).names;
    MapValuesFacts(names, OutlineEntriesFn(lower));
    DefinedNamesOf(raw, root, relpath, f);
    OutlineFactsOf(Get(names, f), raw, root, relpath, lower, f);
  }

  /** The name set of a file holds the functions defined in it, each once. */
  lemma DefinedNamesOf(raw: RawIndex, root: string, relpath: RelPath, f: string)
    ensures var names := Get(CollectDefinitions(Items(raw.functions), relpath, root).names, f);
      && Distinct(names)
      && forall n :: n in names <==> exists e :: e in Items(raw.functions) && e.0 == n && DefinedIn(e, relpath, root, f)
  {
    CollectDefinitionsFacts(Items(raw.functions), relpath, root);
  }

  /** A file's outline holds exactly the functions defined in it, once each,
      sorted by lower-cased name, all of kind function. */
  lemma LoadedOutline(raw: RawIndex, selectedRoot: string, relpath: RelPath, lower: Lower, f: string)
    requires f in LoadIndex(raw, selectedRoot, relpath, lower).outline.vals
    ensures OutlineFacts(LoadIndex(raw, selectedRoot, relpath, lower).outline.vals[f], raw, RootForRel(raw.root, selectedRoot), relpath, lower, f)
  {
    var root := RootForRel(raw.root, selectedRoot);
    var names := CollectDefinitions(Items(raw.functions), relpath, root).names;
    assert LoadIndex(raw, selectedRoot, relpath, lower).outline == MapValues(names, OutlineEntriesFn(lower));
    OutlineFactsUnder(raw, root, relpath, lower, f);
  }

  /** Each caller's callee list holds its distinct callees, sorted; a value
      that is not a list gives an empty one. */
  lemma LoadedCallees(raw: RawIndex, selectedRoot: string, relpath: RelPath, lower: Lower, c: string)
    ensures var ix := LoadIndex(raw, selectedRoot, relpath, lower);
      && ix.callees.keys == raw.calls.keys
      && (c in ix.callees.vals <==> c in raw.calls.vals)
      && (c in raw.calls.vals && raw.calls.vals[c].NotList? ==> ix.callees.vals[c] == [])
      && (c in raw.calls.vals && raw.calls.vals[c].List? ==>
            && SortedBy(ix.callees.vals[c], LowerLe(lower)) && Distinct(ix.callees.vals[c])
            && forall x :: x in ix.callees.vals[c] <==> x in raw.calls.vals[c].items)
  {
    MapValuesFacts(raw.calls, CalleeListFn(lower));
    LowerLeTotal(lower);
  }

  /** Each callee's caller list holds its distinct non-empty callers,
      sorted; a callee with no such caller has no entry. */
  lemma LoadedCallers(raw: RawIndex, selectedRoot: string, relpath: RelPath, lower: Lower, k: string)
    ensures var ix := LoadIndex(raw, selectedRoot, relpath, lower);
      && (k in ix.callers.vals <==> exists e :: e in Items(raw.calledBySites) && e.0 == k && Truthy(e.1.caller))
      && SortedBy(Get(ix.callers, k), LowerLe(lower)) && Distinct(Get(ix.callers, k))
      && forall x :: x in Get(ix.callers, k) <==> exists e :: e in Items(raw.calledBySites) && CalledBy(e, k, x)
  {
    var root := RootForRel(raw.root, selectedRoot);
    var incoming := CollectIncoming(Items(raw.calledBySites), relpath, root);
    CollectIncomingCallers(Items(raw.calledBySites), relpath, root);
    MapValuesFacts(incoming.callers, SortNamesFn(lower));
    if k in incoming.callers.vals {
      assert Get(incoming.callers, k) == incoming.callers.vals[k];
      SortNamesFacts(incoming.callers.vals[k], lower);
    }
  }

  /** The normalised lists keep one record per source record, in source
      order, and only keys with records. */
  lemma LoadedSites(raw: RawIndex, selectedRoot: string, relpath: RelPath, lower: Lower, k: string)
    requires RawValid(raw)
    ensures var ix := LoadIndex(raw, selectedRoot, relpath, lower);
            var root := RootForRel(raw.root, selectedRoot);
      && Get(ix.sitesOut, k) == NormalizeOutAll(Get(raw.callSites, k), relpath, root)
      && (k in ix.sitesOut.vals <==> Get(raw.callSites, k) != [])
      && Get(ix.sitesIn, k) == NormalizeInAll(Get(raw.calledBySites, k), relpath, root)
      && (k in ix.sitesIn.vals <==> Get(raw.calledBySites, k) != [])
  {
    var root := RootForRel(raw.root, selectedRoot);
    CollectOutgoingSites(Items(raw.callSites), relpath, root, k);
    SelectItems(raw.callSites, k);
    CollectIncomingSites(Items(raw.calledBySites), relpath, root, k);
    SelectItems(raw.calledBySites, k);
  }

  // ---------------------------------------------------------------------------
  // Call-site lines
  // ---------------------------------------------------------------------------

  function OutLine(s: OutSite): string {
    "OUT  " + s.file + ":" + IntToString(s.line) + ":" + IntToString(s.col) + " -> " + s.callee
  }

  function InLine(s: InSite): string {
    "IN   " + s.file + ":" + IntToString(s.line) + ":" + IntToString(s.col) + " <- " + s.caller
  }

  /** The two loops of `one_hop`: the lines of one list, then of another. */
  method FormatBoth<A, B>(xs: seq<A>, f: A -> string, ys: seq<B>, g: B -> string) returns (lines: seq<string>)
    ensures lines == Formatted(xs, f) + Formatted(ys, g)
  {
    lines := AppendFormatted([], xs, f);
    assert lines == Formatted(xs, f);
    lines := AppendFormatted(lines, ys, g);
  }

  function OutLineFn(): OutSite -> string {
    (s: OutSite) => OutLine(s)
  }

  function InLineFn(): InSite -> string {
    (s: InSite) => InLine(s)
  }

  /** One formatted line per item, in order. */
  function Formatted<T>(xs: seq<T>, format: T -> string): (r: seq<string>)
    ensures |r| == |xs|
  {
    if xs == [] then [] else Formatted(xs[..|xs| - 1], format) + [format(xs[|xs| - 1])]
  }

  /** Line `i` is the format of item `i`. */
  lemma {:induction false} FormattedAt<T>(xs: seq<T>, format: T -> string, i: nat)
    requires i < |xs|
    ensures Formatted(xs, format)[i] == format(xs[i])
  {
    if i < |xs| - 1 {
      FormattedAt(xs[..|xs| - 1], format, i);
    }
  }

  /** A loop `for x in xs: lines.append(format(x))`. */
  method AppendFormatted<T>(lines: seq<string>, xs: seq<T>, format: T -> string) returns (r: seq<string>)
    ensures r == lines + Formatted(xs, format)
  {
    r := lines;
    for i := 0 to |xs|
      invariant r == lines + Formatted(xs[..i], format)
    {
      assert xs[..i + 1][..i] == xs[..i];
      r := r + [format(xs[i])];
    }
    assert xs[..|xs|] == xs;
  }

  /** The `OUT` lines of a list of call sites, in order. */
  function OutLines(sites: seq<OutSite>): (r: seq<string>)
    ensures |r| == |sites|
  {
    if sites == [] then [] else OutLines(sites[..|sites| - 1]) + [OutLine(sites[|sites| - 1])]
  }

  /** The `IN` lines of a list of call sites, in order. */
  function InLines(sites: seq<InSite>): (r: seq<string>)
    ensures |r| == |sites|
  {
    if sites == [] then [] else InLines(sites[..|sites| - 1]) + [InLine(sites[|sites| - 1])]
  }

  lemma {:induction false} OutLinesFormatted(sites: seq<OutSite>)
    ensures OutLines(sites) == Formatted(sites, OutLineFn())
  {
    if sites != [] {
      OutLinesFormatted(sites[..|sites| - 1]);
    }
  }

  lemma {:induction false} InLinesFormatted(sites: seq<InSite>)
    ensures InLines(sites) == Formatted(sites, InLineFn())
  {
    if sites != [] {
      InLinesFormatted(sites[..|sites| - 1]);
    }
  }

  /** Line `i` of the `OUT` lines is the line of site `i`, and starts with `OUT`. */
  lemma OutLinesAt(sites: seq<OutSite>, i: nat)
    requires i < |sites|
    ensures OutLines(sites)[i] == OutLine(sites[i]) && StartsWith(OutLines(sites)[i], "OUT  ")
  {
    OutLinesFormatted(sites);
    FormattedAt(sites, OutLineFn(), i);
    OutLineStarts(sites[i]);
  }

  /** Line `i` of the `IN` lines is the line of site `i`, and starts with `IN`. */
  lemma InLinesAt(sites: seq<InSite>, i: nat)
    requires i < |sites|
    ensures InLines(sites)[i] == InLine(sites[i]) && StartsWith(InLines(sites)[i], "IN   ")
  {
    InLinesFormatted(sites);
    FormattedAt(sites, InLineFn(), i);
    InLineStarts(sites[i]);
  }

  /** The two loops of `one_hop` that format a symbol's call sites. */
  method BuildCallsiteLines(outs: seq<OutSite>, ins: seq<InSite>) returns (lines: seq<string>)
    ensures lines == OutLines(outs) + InLines(ins)
  {
    lines := FormatBoth(outs, OutLineFn(), ins, InLineFn());
    OutLinesFormatted(outs);
    InLinesFormatted(ins);
  }

  /** The lines `one_hop` shows for a symbol: its `OUT` lines, then its
      `IN` lines. */
  function CallsiteLines(sitesOut: ODict<seq<OutSite>>, sitesIn: ODict<seq<InSite>>, symbol: string): (r: seq<string>)
    ensures |r| == |Get(sitesOut, symbol)| + |Get(sitesIn, symbol)|
  {
    OutLines(Get(sitesOut, symbol)) + InLines(Get(sitesIn, symbol))
  }

  /** One `OUT` line per call the symbol makes, in order, then one `IN`
      line per call made to it, in order. */
  lemma CallsiteLinesLayout(sitesOut: ODict<seq<OutSite>>, sitesIn: ODict<seq<InSite>>, symbol: string, i: nat)
    requires i < |CallsiteLines(sitesOut, sitesIn, symbol)|
    ensures var r, outs, ins := CallsiteLines(sitesOut, sitesIn, symbol), Get(sitesOut, symbol), Get(sitesIn, symbol);
      if i < |outs| then r[i] == OutLine(outs[i]) && StartsWith(r[i], "OUT  ")
      else r[i] == InLine(ins[i - |outs|]) && StartsWith(r[i], "IN   ")
  {
    var outs, ins := Get(sitesOut, symbol), Get(sitesIn, symbol);
    if i < |outs| {
      OutLinesAt(outs, i);
    } else {
      InLinesAt(ins, i - |outs|);
    }
  }

  lemma OutLineStarts(s: OutSite)
    ensures StartsWith(OutLine(s), "OUT  ")
  {
    assert OutLine(s) == "OUT  " + (s.file + ":" + IntToString(s.line) + ":" + IntToString(s.col) + " -> " + s.callee);
  }

  lemma InLineStarts(s: InSite)
    ensures StartsWith(InLine(s), "IN   ")
  {
    assert InLine(s) == "IN   " + (s.file + ":" + IntToString(s.line) + ":" + IntToString(s.col) + " <- " + s.caller);
  }

  /** The cached lines agree with the stored call-site lists. */
  ghost predicate CacheValid(cache: ODict<seq<string>>, sitesOut: ODict<seq<OutSite>>, sitesIn: ODict<seq<InSite>>) {
    forall k :: k in cache.vals ==> cache.vals[k] == CallsiteLines(sitesOut, sitesIn, k)
  }

  /** Caching a symbol's lines keeps the cache in step with the lists. */
  lemma CachePut(cache: ODict<seq<string>>, sitesOut: ODict<seq<OutSite>>, sitesIn: ODict<seq<InSite>>, symbol: string)
    requires CacheValid(cache, sitesOut, sitesIn)
    ensures CacheValid(Put(cache, symbol, CallsiteLines(sitesOut, sitesIn, symbol)), sitesOut, sitesIn)
  {
  }

  /** What the backend was last loaded from. */
  datatype Source = Source(raw: RawIndex, selectedRoot: string, relpath: RelPath)

  lemma LoadedFilesOf(src: Option<Source>, lower: Lower)
    ensures src.Some? ==> LoadedFilesFacts(src.value.raw, src.value.selectedRoot, src.value.relpath, lower)
  {
    if src.Some? {
      LoadedFiles(src.value.raw, src.value.selectedRoot, src.value.relpath, lower);
    }
  }

  lemma LoadedOutlineOf(src: Option<Source>, lower: Lower, f: string)
    ensures src.Some? && f in LoadIndex(src.value.raw, src.value.selectedRoot, src.value.relpath, lower).outline.vals ==>
      var entries := LoadIndex(src.value.raw, src.value.selectedRoot, src.value.relpath, lower).outline.vals[f];
      && SortedBy(Names(entries), LowerLe(lower))
      && Distinct(Names(entries))
      && (forall s :: s in entries ==> s.kind == Function)
      && forall n :: n in Names(entries) <==>
           exists e :: e in Items(src.value.raw.functions) && e.0 == n
                       && DefinedIn(e, src.value.relpath, RootForRel(src.value.raw.root, src.value.selectedRoot), f)
    ensures src.Some? && f !in LoadIndex(src.value.raw, src.value.selectedRoot, src.value.relpath, lower).outline.vals ==>
      forall e :: e in Items(src.value.raw.functions) ==>
        !DefinedIn(e, src.value.relpath, RootForRel(src.value.raw.root, src.value.selectedRoot), f)
  {
    if src.Some? {
      var raw, selectedRoot, relpath := src.value.raw, src.value.selectedRoot, src.value.relpath;
      LoadedOutlineFiles(raw, selectedRoot, relpath, lower, f);
      if f in LoadIndex(raw, selectedRoot, relpath, lower).outline.vals {
        LoadedOutline(raw, selectedRoot, relpath, lower, f);
      }
    }
  }

  /** The local maps `_load_index_from_json` builds before storing them. */
  method BuildIndex(raw: RawIndex, selectedRoot: string, relpath: RelPath, lower: Lower)
    returns (files: seq<string>, outline: ODict<seq<SymbolSummary>>, callers: ODict<seq<string>>,
             callees: ODict<seq<string>>, sitesOut: ODict<seq<OutSite>>, sitesIn: ODict<seq<InSite>>)
    requires RawValid(raw)
    ensures files == IndexFiles(raw, selectedRoot, relpath, lower)
    ensures outline == IndexOutline(raw, selectedRoot, relpath, lower)
    ensures callers == IndexCallers(raw, selectedRoot, relpath, lower)
    ensures callees == MapValues(raw.calls, CalleeListFn(lower))
    ensures sitesOut == IndexSitesOut(raw, selectedRoot, relpath)
    ensures sitesIn == IncomingOf(raw, selectedRoot, relpath).sitesIn
  {
    var root := RootForRel(raw.root, selectedRoot);
    var defs := FoldItems(Collected([], Empty()), raw.functions, DefinitionStepFn(relpath, root));
    var fileSet := FoldItems(defs.files, raw.callSites, SiteFileStepFn(relpath, root));
    assert Valid(defs.names) by {
      CollectDefinitionsFacts(Items(raw.functions), relpath, root);
    }
    outline := MapValuesLoop(defs.names, OutlineEntriesFn(lower));
    callees := MapValuesLoop(raw.calls, CalleeListFn(lower));
    var incoming := FoldItems(Incoming(Empty(), Empty()), raw.calledBySites, IncomingStepFn(relpath, root));
    assert Valid(incoming.callers) by {
      CollectIncomingCallersValid(Items(raw.calledBySites), relpath, root);
    }
    callers := MapValuesLoop(incoming.callers, SortNamesFn(lower));
    sitesOut := FoldItems(Empty(), raw.callSites, OutgoingStepFn(relpath, root));
    files := SortNames(fileSet, lower);
    sitesIn := incoming.sitesIn;
  }

  /** The stored maps are empty before the first load and otherwise
      what the last load computed. */
  ghost predicate LoadedFrom(src: Option<Source>, lower: Lower, ix: Index) {
    && (src.None? ==> ix == EmptyIndex())
    && (src.Some? ==> ix == LoadIndex(src.value.raw, src.value.selectedRoot, src.value.relpath, lower))
  }

  class WorkspaceBackend {
    const lower: Lower

    var project: Option<ProjectInfo>
    var files: seq<string>
    var outline: ODict<seq<SymbolSummary>>
    var callers: ODict<seq<string>>
    var callees: ODict<seq<string>>
    var callsites: ODict<seq<string>>
    var callSitesOut: ODict<seq<OutSite>>
    var callSitesIn: ODict<seq<InSite>>

    ghost var source: Option<Source>

    function Stored(): Index
      reads this`files, this`outline, this`callers, this`callees, this`callSitesOut, this`callSitesIn
    {
      Index(files, outline, callers, callees, callSitesOut, callSitesIn)
    }

    /** The stored maps are empty before the first load and otherwise
      derived from the last index loaded. */
    ghost predicate Loaded()
      reads this`source, this`files, this`outline, this`callers, this`callees, this`callSitesOut, this`callSitesIn
    {
      LoadedFrom(source, lower, Stored())
    }

    /** The cached call-site lines agree with the stored call-site lists. */
    ghost predicate Cached()
      reads this`callsites, this`callSitesOut, this`callSitesIn
    {
      CacheValid(callsites, callSitesOut, callSitesIn)
    }

    ghost predicate Valid()
      reads this
    {
      Cached() && Loaded()
    }

    constructor(lower: Lower)
      ensures Valid() && source.None? && this.lower == lower
      ensures project == None && callsites == Empty()
    {
      this.lower := lower;
      project := None;
      files := [];
      outline := Empty();
      callers := Empty();
      callees := Empty();
      callsites := Empty();
      callSitesOut := Empty();
      callSitesIn := Empty();
      source := None;
    }

    /** `_load_index_from_json`: every stored map is rebuilt from the index
      and the call-site line cache is cleared. */
    method LoadIndexFromJson(raw: RawIndex, selectedRoot: string, relpath: RelPath)
      modifies this
      requires RawValid(raw)
      ensures Valid() && source == Some(Source(raw, selectedRoot, relpath))
      ensures Stored() == LoadIndex(raw, selectedRoot, relpath, lower)
      ensures callsites == Empty() && project == old(project)
    {
      var fs, ol, cr, ce, so, si := BuildIndex(raw, selectedRoot, relpath, lower);
      Store(fs, ol, cr, ce, so, si, Source(raw, selectedRoot, relpath));
    }

    /** The assignments that end `_load_index_from_json`: the new maps
      replace the old ones and the call-site line cache is cleared. */
    method Store(fs: seq<string>, ol: ODict<seq<SymbolSummary>>, cr: ODict<seq<string>>, ce: ODict<seq<string>>,
                 so: ODict<seq<OutSite>>, si: ODict<seq<InSite>>, ghost src: Source)
      modifies this
      ensures Stored() == Index(fs, ol, cr, ce, so, si)
      ensures callsites == Empty() && source == Some(src) && project == old(project)
    {
      files, outline, callers, callees, callSitesOut, callSitesIn := fs, ol, cr, ce, so, si;
      callsites := Empty();
      source := Some(src);
    }

    /** `list_files`: the sorted, duplicate-free list of every file a
      definition or outgoing call site names. */
    function ListFiles(): (r: seq<string>)
      reads this
      requires Valid()
      ensures SortedBy(r, LowerLe(lower)) && Distinct(r)
      ensures source.None? ==> r == []
      ensures source.Some? ==>
                forall f :: f in r <==> IndexedFile(source.value.raw, RootForRel(source.value.raw.root, source.value.selectedRoot),
                                                    source.value.relpath, f)
    {
      LoadedFilesOf(source, lower);
      files
    }

    /** `list_outline(filename)`: the functions defined in the file, sorted,
      or nothing for a file without an outline. */
    function ListOutline(filename: string): (r: seq<SymbolSummary>)
      reads this
      requires Valid()
      ensures filename !in outline.vals ==> r == []
      ensures SortedBy(Names(r), LowerLe(lower)) && Distinct(Names(r))
      ensures forall s :: s in r ==> s.kind == Function
      ensures source.Some? ==>
                forall n :: n in Names(r) <==>
                  exists e :: e in Items(source.value.raw.functions) && e.0 == n
                              && DefinedIn(e, source.value.relpath, RootForRel(source.value.raw.root, source.value.selectedRoot), filename)
    {
      LoadedOutlineOf(source, lower, filename);
      if filename in outline.vals then outline.vals[filename] else []
    }

    /** The answer `one_hop(symbol)` gives, whatever the cache holds. */
    function HopOf(symbol: string): (r: Base.OneHop)
      reads this
      ensures r.center == symbol
      ensures symbol !in callers.vals ==> r.callers == []
      ensures symbol !in callees.vals ==> r.callees == []
    {
      Base.OneHop(symbol, Get(callers, symbol), Get(callees, symbol), CallsiteLines(callSitesOut, callSitesIn, symbol))
    }

    /** `one_hop(symbol)`: builds the symbol's call-site lines unless they
      are cached, caches them, and answers. Only the cache changes, so
      `Loaded()` still holds and a repeated query gets the same answer. */
    method OneHop(symbol: string) returns (hop: Base.OneHop)
      modifies this`callsites
      requires Cached()
      ensures Cached() && hop == HopOf(symbol)
      ensures callsites == if symbol in old(callsites).vals then old(callsites)
                           else Put(old(callsites), symbol, CallsiteLines(callSitesOut, callSitesIn, symbol))
    {
      var symCallers := Get(callers, symbol);
      var symCallees := Get(callees, symbol);
      if symbol !in callsites.vals {
        var outs, ins := Get(callSitesOut, symbol), Get(callSitesIn, symbol);
        var lines := BuildCallsiteLines(outs, ins);
        CachePut(callsites, callSitesOut, callSitesIn, symbol);
        callsites := Put(callsites, symbol, lines);
      }
      hop := Base.OneHop(symbol, symCallers, symCallees, Get(callsites, symbol));
    }
  }
}
