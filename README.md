# codemap, modelled in Dafny

codemap is a small toolkit for finding your way around a C code base through
its call graph. It has four parts:

- **The indexer** (`analyze_folder`). It walks a folder, parses every `.c` and
  `.h` file and records three things:
  - each function definition, under its name;
  - each call expression inside a definition, as a callee list (`calls`) and
    as call sites with file, line and column (`call_sites`);
  - each file that could not be read or parsed, as an error record.

  It then inverts the call sites into `called_by_sites` (callee to caller
  sites) and counts statistics.
- **The console navigator** (`Navigator`). It reads that index and keeps a
  back/forward history of views with bookmarks. Its commands search function
  names, list callees, jump to a definition or a call site picked from a
  numbered menu, and print a numbered source window.
- **The GUI's workspace backend** (`WorkspaceBackend`). It loads the index
  into:
  - a sorted file list;
  - per-file outlines;
  - caller and callee maps;
  - normalised call-site lists.

  It answers one-hop queries, and caches the call-site lines it formats per
  symbol.
- **The GUI presenter** (`CodeMapPresenter`). It keeps a second back/forward
  stack of symbol names, plus the outline of the selected file and the
  case-insensitive filter behind the search box.

How each part is modelled:

- **Value computations** are datatypes and functions, proved against their
  meaning. Examples: a pre-order walk, a dictionary inversion, a sorted
  de-duplicated list, a menu line parsed back.
- **Loops** that the source runs are methods whose `ensures` tie the result
  to those functions.
- **Objects whose fields the source updates** are classes:
  - `Navigator`, `WorkspaceBackend`, `NavigationState` and
    `CodeMapPresenter`;
  - their methods state the new state as a function of the old one;
  - the history lemmas state the invariants those functions keep.

Python builtins the code relies on are written out in small support modules:

| Module | Python builtins |
|---|---|
| `PyStr` | string ordering, `in`, `startswith`/`endswith`, `strip`, `split`/`rsplit`, `str(int)`/`int(str)`, `"{:5d}"` padding, `join` |
| `Sorting` | `sorted`, `set`, reversal |
| `Dicts` | insertion-ordered `dict` and `defaultdict(list)` |

Everything outside the process is a parameter, as described under
"## Left out": the parser, the file system, JSON, the terminal and the Qt
window.

Files (Dafny module in brackets):

- `wrappers.dfy` [`Wrappers`]
- `py_str.dfy` [`PyStr`]
- `sorting.dfy` [`Sorting`]
- `dicts.dfy` [`Dicts`]
- `syntax_tree.dfy` [`SyntaxTree`]: `walk`, `find_identifier_in_subtree`,
  `get_function_name`
- `source_files.dfy` [`SourceFiles`]: `iter_source_files`
- `indexer.dfy` [`Indexer`]: `analyze_folder`
- `nav_console.dfy` [`NavConsole`]: the console navigator
- `backend_base.dfy` [`Base`]: the backend datatypes
- `workspace_backend.dfy` [`Workspace`]: the workspace backend
- `presenter.dfy` [`Presenter`]: the presenter

## Model

| member | source | states |
|---|---|---|
| SyntaxTree.Walk | codemap-indexer/analyze_folder_callsites.py:13-16 | The walk starts with the node itself (pre-order); children follow left to right through `WalkAll`. |
| SyntaxTree.FirstInSeq | codemap-indexer/analyze_folder_callsites.py:20-23 | Gives `None` exactly when no node of the sequence has the kind. Otherwise it gives a node of that kind with none of that kind before it. |
| SyntaxTree.FirstOfKindIsFirstInWalk | codemap-indexer/analyze_folder_callsites.py:13-23 | The recursive search for the first node of a kind finds the same node as a scan of the whole pre-order walk. |
| SyntaxTree.FirstOfKindMeaning | codemap-indexer/analyze_folder_callsites.py:19-23 | The search gives `None` iff no node in the walk has the kind. Otherwise it gives the earliest such node in walk order. |
| SyntaxTree.FindIdentifierInSubtree | codemap-indexer/analyze_folder_callsites.py:19-23 | The loop over the walk returns the decoded text of the first `identifier` in pre-order, or `None` when there is none. |
| SyntaxTree.Slice | codemap-indexer/analyze_folder_callsites.py:22 | `code[start:end]` with Python's clamping: every byte of the slice is the byte at the same offset of the code, below `end`. |
| SyntaxTree.GetFunctionName | codemap-indexer/analyze_folder_callsites.py:26-31 | Returns the name a definition is recorded under: the declarator's first identifier, or `"<unknown>"`. |
| SyntaxTree.FunctionNameCases | codemap-indexer/analyze_folder_callsites.py:26-31 | The name is never empty. It is `"<unknown>"` with no declarator, or with a declarator holding no identifier. Otherwise it is the first identifier's non-empty text. |
| SourceFiles.SourceFilesIn | codemap-indexer/analyze_folder_callsites.py:45-47 | A directory yields exactly its files whose names end in `.c` or `.h`. |
| SourceFiles.FilesSound | codemap-indexer/analyze_folder_callsites.py:34-47 | Every file the walk yields has a `.c`/`.h` name, exists at its path, and sits below directories that are neither ignored nor hidden. |
| SourceFiles.FilesComplete | codemap-indexer/analyze_folder_callsites.py:43-47 | Every `.c`/`.h` file below only kept directories is yielded. |
| SourceFiles.IterSourceFilesExactly | codemap-indexer/analyze_folder_callsites.py:34-47 | A file is yielded iff its name ends in `.c`/`.h` and no directory on its path is in the ignore set or starts with `.`. |
| Indexer.ScanCallsOf | codemap-indexer/analyze_folder_callsites.py:97-113 | The inner loop over a definition's walk appends exactly what the call-expression fold specifies. |
| Indexer.ScanFile | codemap-indexer/analyze_folder_callsites.py:80-113 | The loop over a file's walk adds exactly what the definition fold specifies. |
| Indexer.InvertCallSites | codemap-indexer/analyze_folder_callsites.py:115-124 | The nested inversion loop builds exactly `Invert(call_sites)`. |
| Indexer.AnalyzeFolder | codemap-indexer/analyze_folder_callsites.py:50-141 | The whole loop nest returns `Analyze`: the per-file fold over the walked files, the inversion and the stats. |
| Indexer.VisitCallPreserves | codemap-indexer/analyze_folder_callsites.py:97-113 | Recording one call keeps the accumulators consistent. `calls` and `call_sites` stay in lockstep, with equal lengths and `calls[c][i] == call_sites[c][i].callee`. Lines and columns are ≥ 1, lists only grow and `functions` is untouched. |
| Indexer.ScanCallsPreserves | codemap-indexer/analyze_folder_callsites.py:97-113 | The call loop keeps the accumulators consistent, only appends, and leaves `functions` alone. |
| Indexer.RecordDefinitionPreserves | codemap-indexer/analyze_folder_callsites.py:88-94 | Appending a definition with 1-based lines keeps consistency and only grows the lists, so definitions sharing a name are never overwritten. |
| Indexer.VisitDefinitionPreserves | codemap-indexer/analyze_folder_callsites.py:80-113 | One definition keeps every map consistent and only appends. Recorded lines are `row + 1 >= 1`. |
| Indexer.ScanDefinitionsPreserves | codemap-indexer/analyze_folder_callsites.py:80-113 | The walk over one file keeps the accumulators consistent and growing. |
| Indexer.ProcessFilesPreserves | codemap-indexer/analyze_folder_callsites.py:65-113 | The file loop keeps the accumulators consistent and growing. |
| Indexer.NamelessDefinitionIgnored | codemap-indexer/analyze_folder_callsites.py:84-86 | A definition with no declarator, or one with no identifier, adds nothing to any map and no error. |
| Indexer.FailedErrorsCount | codemap-indexer/analyze_folder_callsites.py:65-76 | Every file either fails with exactly one error record or is processed; the two counts add up to the file count. |
| Indexer.FailureIsolation | codemap-indexer/analyze_folder_callsites.py:65-76 | Processing all files equals processing only the readable, parsable ones, with one error per failed file appended in order. A failed file adds nothing to `functions`, `calls` or `call_sites`. |
| Indexer.OkFilesNoErrors | codemap-indexer/analyze_folder_callsites.py:66-76 | Files that read and parse add no error records. |
| Indexer.OkFilesIdempotent | codemap-indexer/analyze_folder_callsites.py:66-76 | Filtering out the failing files a second time changes nothing. |
| Indexer.InvertPairsMembers | codemap-indexer/analyze_folder_callsites.py:117-124 | `(callee, {caller, file, line, col})` is an inverted entry iff `{callee, file, line, col}` is a site of `caller`. |
| Indexer.InvertExactly | codemap-indexer/analyze_folder_callsites.py:115-124 | `called_by_sites[x]` lists, in source order, one caller site per call site whose callee is `x`, and nothing else. |
| Indexer.InvertTotal | codemap-indexer/analyze_folder_callsites.py:115-124 | The inversion has distinct keys and exactly as many entries as `call_sites`. |
| Indexer.AnalyzeFacts | codemap-indexer/analyze_folder_callsites.py:126-139 | The result's maps are consistent: lockstep `calls`/`call_sites`, 1-based lines, every caller defined, no empty list. The stats are exact projections: definition total, key counts, equal site totals for `call_sites` and `called_by_sites`, and `num_files_with_errors == len(errors)`. |
| NavConsole.Pushed | codemap-cli/nav_console.py:101-105 | `_push` keeps the history invariant: there is a current view whenever history or future is non-empty. |
| NavConsole.StepBack | codemap-cli/nav_console.py:107-112 | `back` keeps the history invariant. |
| NavConsole.StepForward | codemap-cli/nav_console.py:114-119 | `forward` keeps the history invariant. |
| NavConsole.BackThenForward | codemap-cli/nav_console.py:107-119 | With non-empty history, `back` then `forward` restores current, history and future exactly. |
| NavConsole.ForwardThenBack | codemap-cli/nav_console.py:107-119 | With non-empty future, `forward` then `back` restores the state exactly. |
| NavConsole.BackKeepsTimeline | codemap-cli/nav_console.py:107-112 | `back` only moves the cursor along history + current + reversed future, one step back when there is history. |
| NavConsole.ForwardKeepsTimeline | codemap-cli/nav_console.py:114-119 | `forward` only moves the cursor along the same timeline, one step ahead when there is future. |
| NavConsole.PushTruncatesTimeline | codemap-cli/nav_console.py:101-105 | After `_push` the timeline is the old history, the old current view (if any) and the new view. The future is empty. |
| NavConsole.Take | codemap-cli/nav_console.py:165 | `items[:n]` is the prefix of length `min(len, n)`. |
| NavConsole.Pick | codemap-cli/nav_console.py:70-83 | A pick yields an item iff the chosen index lies inside the menu; it is the item at that index. |
| NavConsole.DefinitionLabelRoundTrip | codemap-cli/nav_console.py:165-171 | `rsplit(":", 1)`, `split("-", 1)[0]` and `int` recover a definition menu line's file and start line. |
| NavConsole.LocationRoundTrip | codemap-cli/nav_console.py:204-209 | `rsplit(":", 2)` of `file:line:col` gives back the file and the two number texts, even when the file itself contains `:`. |
| NavConsole.SiteLabelRoundTrip | codemap-cli/nav_console.py:204-211 | Parsing a site menu line gives back the site's file, line and column. |
| NavConsole.CallerLabelRoundTrip | codemap-cli/nav_console.py:228 | Parsing a who-calls menu line with `split(" @ ", 1)` then `rsplit(":", 2)` gives back caller, file, line and column. The interactive loop parses it this way at nav_console.py:349-352. |
| NavConsole.Callees | codemap-cli/nav_console.py:194-195 | The callee of each site, in site order. |
| NavConsole.CountCallees | codemap-cli/nav_console.py:193-195 | The counting loop builds exactly the tally of the sites' callees. |
| NavConsole.TallyValid | codemap-cli/nav_console.py:193-195 | The counts dictionary has distinct keys. |
| NavConsole.TallyPrefixKeys | codemap-cli/nav_console.py:193-195 | The tally's keys are the callees in first-seen order, without duplicates. |
| NavConsole.TallyPrefixCounts | codemap-cli/nav_console.py:193-195 | Each callee's count is its number of occurrences among the sites seen so far. |
| NavConsole.TallyCounts | codemap-cli/nav_console.py:193-195 | Over all sites: the keys are the distinct callees and each count is the callee's multiplicity. |
| NavConsole.TallyPrefixSum | codemap-cli/nav_console.py:193-195 | The counts of a prefix of `n` sites sum to `n`. |
| NavConsole.CountItemsSum | codemap-cli/nav_console.py:197 | `counts.items()` lists every key with its count, so it sums to the tally's total. |
| NavConsole.CountOrderTotal | codemap-cli/nav_console.py:197 | The key `(-count, name)` is a total preorder. |
| NavConsole.CalleeEntries | codemap-cli/nav_console.py:197 | The callee menu entries are sorted by descending count, then ascending name. |
| NavConsole.CalleeEntriesSum | codemap-cli/nav_console.py:193-197 | The menu's counts sum to the number of sites. |
| NavConsole.CalleeEntriesAreItems | codemap-cli/nav_console.py:197 | The menu entries are exactly the `(callee, count)` items of the tally. |
| NavConsole.CalleeEntriesCounts | codemap-cli/nav_console.py:193-197 | Each entry's count is its callee's number of sites, at least 1. |
| NavConsole.CalleeEntriesNames | codemap-cli/nav_console.py:193-197 | A name appears in the menu iff it is the callee of some site. |
| NavConsole.CalleeLabelRoundTrip | codemap-cli/nav_console.py:197-201 | The corrected parse, which cuts at the last `"  ("`, recovers the callee from any callee menu line. |
| NavConsole.CalleeLabelAsWrittenTruncates | codemap-cli/nav_console.py:201 | The parse as written, `split("  (")[0]`, cuts a callee text containing `"  ("` short. |
| NavConsole.CalleeMenuMisparse | codemap-cli/nav_console.py:197-203 | A concrete callee, `get_handler  (id)`, that the as-written parse turns into `get_handler` and the corrected parse keeps whole. |
| NavConsole.CalleeMenuMisparseSites | codemap-cli/nav_console.py:197-204 | For the outer and inner sites of `get_handler  (id)(msg)`, the as-written parse filters down to the inner call only, while the corrected parse keeps the outer one. |
| NavConsole.CalleeLabels | codemap-cli/nav_console.py:197 | One `"name  (n sites)"` line per entry, in order. |
| NavConsole.SitesCalling | codemap-cli/nav_console.py:203 | A subsequence of the sites that keeps each site whose callee is the chosen one as often as it occurs, and drops every other site. |
| NavConsole.PickedSite | codemap-cli/nav_console.py:197-211 | The site picked through the two menus is one of the function's sites, and its callee is the picked callee. A site is picked iff a callee is picked and the site index lies within both the filtered sites and the 300 shown. |
| NavConsole.PickedDefinition | codemap-cli/nav_console.py:165-171 | A definition is picked iff the index lies within both the definitions and the 80 shown. It is then the definition at that index. |
| NavConsole.SiteLabels | codemap-cli/nav_console.py:204 | One `file:line:col` line per site, in order. |
| NavConsole.Matching | codemap-cli/nav_console.py:152 | Keeps exactly the names containing the query and keeps them distinct. |
| NavConsole.MatchingSorted | codemap-cli/nav_console.py:151-152 | Filtering a sorted list keeps it sorted. |
| NavConsole.Describe | codemap-cli/nav_console.py:237-240 | `"(no selection)"` iff nothing is current. Otherwise the text starts with `[kind] `. |
| NavConsole.SnippetRowMarker | codemap-cli/nav_console.py:65-66 | A row starts with `>>` iff it is the target line. |
| NavConsole.WindowMarks | codemap-cli/nav_console.py:58-67 | In the window, exactly the target line's row carries `>>`. A marked row exists iff the target line lies in the file and the context is non-negative. |
| NavConsole.Snippet | codemap-cli/nav_console.py:58-67 | The loop yields the rows from `max(1, line-context)` to `min(n, line+context)`, each reading `lines[ln-1]` within bounds. The text is those rows joined by newlines. |
| NavConsole.WindowOfRows | codemap-cli/nav_console.py:61-66 | Rows built one per line number across the window meet the window specification. |
| NavConsole.Navigator.constructor | codemap-cli/nav_console.py:87-99 | A navigator over the four index maps, with no current view, empty history, future and bookmarks. |
| NavConsole.Navigator.Push | codemap-cli/nav_console.py:101-105 | `_push` leaves the state `Pushed(old, v)` and keeps the bookmarks. |
| NavConsole.Navigator.Back | codemap-cli/nav_console.py:107-112 | `back` leaves the state `StepBack(old)`; it changes nothing with empty history. |
| NavConsole.Navigator.Forward | codemap-cli/nav_console.py:114-119 | `forward` leaves the state `StepForward(old)`; it changes nothing with empty future. |
| NavConsole.Navigator.Mark | codemap-cli/nav_console.py:133-138 | Appends the current view to the bookmarks iff there is one. History is untouched. |
| NavConsole.Navigator.SearchFunction | codemap-cli/nav_console.py:150-152 | Exactly the function names containing the query, sorted, without duplicates. |
| NavConsole.Navigator.ListCallees | codemap-cli/nav_console.py:182-184 | Exactly the elements of `calls[fn]`, sorted and distinct; `[]` when `fn` has no entry. |
| NavConsole.Navigator.WhoCallsSymbolMenu | codemap-cli/nav_console.py:226-229 | At most 400 lines, the i-th being the caller label of the i-th caller site of the symbol. |
| NavConsole.Navigator.DescribeCurrent | codemap-cli/nav_console.py:237-240 | `"(no selection)"` iff nothing is current. |
| NavConsole.Navigator.SetCurrentFunction | codemap-cli/nav_console.py:154-157 | Pushes a function view whose location reads `"<n> defs"` or `"no def"`. |
| NavConsole.Navigator.OpenDefinition | codemap-cli/nav_console.py:159-179 | With no pick (no definitions, cancel or an index past the menu) the state is unchanged. Otherwise the view of the picked definition, with its file and start line, is pushed. |
| NavConsole.Navigator.JumpToDefinitionOfSymbol | codemap-cli/nav_console.py:231-235 | An unknown symbol changes nothing. Otherwise it behaves as `open_definition`: no pick leaves the state unchanged, and a pick pushes that definition's view. |
| NavConsole.Navigator.JumpCallsite | codemap-cli/nav_console.py:186-222 | With no sites, or no site picked through the count-ordered callee menu and the site menu, nothing changes. Otherwise the call-site view of exactly the picked site is pushed. |
| Workspace.NormalizeOutAll | codemap-gui/codemap_gui/backend/workspace_backend.py:192-204 | One normalised outgoing entry per record, in order. A missing callee becomes `""`, a missing file `""`, a missing line/col 0. |
| Workspace.NormalizeInAll | codemap-gui/codemap_gui/backend/workspace_backend.py:173-186 | One normalised incoming entry per record, in order, with the same defaults. |
| Workspace.LowerLeTotal | codemap-gui/codemap_gui/backend/workspace_backend.py:155 | Comparing by `lower(x)` is a total preorder, so `sorted(key=str.lower)` is well defined. |
| Workspace.SortNamesFacts | codemap-gui/codemap_gui/backend/workspace_backend.py:155 | `sorted(names, key=str.lower)` is sorted by the lowered key, has the same members, and is distinct when the input is. |
| Workspace.AddToSet | codemap-gui/codemap_gui/backend/workspace_backend.py:138 | `set.add` on a duplicate-free sequence: members are the old ones plus `x`, still distinct. |
| Workspace.AddToSetAt | codemap-gui/codemap_gui/backend/workspace_backend.py:139 | `defaultdict(set)[k].add(x)` adds `x` under `k` only, creates `k` if missing, and keeps every set distinct. |
| Workspace.CollectDefinitionsFacts | codemap-gui/codemap_gui/backend/workspace_backend.py:130-139 | The file set is exactly the relpaths of definitions with a truthy file. Each file's name set is exactly the functions defined there. No duplicates. |
| Workspace.CollectSiteFilesFacts | codemap-gui/codemap_gui/backend/workspace_backend.py:142-148 | The outgoing-site loop adds exactly the relpaths of sites with a truthy file and keeps the set distinct. |
| Workspace.CollectIncomingCallers | codemap-gui/codemap_gui/backend/workspace_backend.py:170-176 | `x` is a caller of `k` iff some record under `k` has the non-empty caller `x`. `k` gets a key iff it has such a record. Sets stay distinct. |
| Workspace.CollectIncomingSites | codemap-gui/codemap_gui/backend/workspace_backend.py:170-186 | The incoming sites of `k` are its records normalised in order. `k` gets a key iff it has a record. |
| Workspace.CollectOutgoingSites | codemap-gui/codemap_gui/backend/workspace_backend.py:191-204 | The outgoing sites of `k` are its records normalised in order. `k` gets a key iff it has a record. |
| Workspace.Summaries | codemap-gui/codemap_gui/backend/workspace_backend.py:153-156 | One `FUNCTION` summary per name, in order. |
| Workspace.Names | codemap-gui/codemap_gui/backend/workspace_backend.py:153-156 | The names of a list of summaries, in order. |
| Workspace.OutlineOfFile | codemap-gui/codemap_gui/backend/workspace_backend.py:151-156 | A file's outline is sorted by lowered name, distinct, all `FUNCTION`, and holds exactly the given names. |
| Workspace.OutlinesOf | codemap-gui/codemap_gui/backend/workspace_backend.py:151-156 | The outline map has a key iff the name map does, and each outline has the facts above. |
| Workspace.LoadedFiles | codemap-gui/codemap_gui/backend/workspace_backend.py:126-148 | `_files` is sorted by lowered key and distinct. A file is in it iff it is the relpath of a definition's or an outgoing site's truthy file. |
| Workspace.LoadedOutlineFiles | codemap-gui/codemap_gui/backend/workspace_backend.py:133-156 | A file has an outline iff some definition lies in it, and every outlined file is in `_files`. |
| Workspace.LoadedOutline | codemap-gui/codemap_gui/backend/workspace_backend.py:133-156 | A file's outline holds exactly the distinct names defined in that file, sorted by lowered key, all of kind `FUNCTION`. |
| Workspace.LoadedCallees | codemap-gui/codemap_gui/backend/workspace_backend.py:159-164 | `_callees` has the keys of `calls`. A non-list value gives `[]`. A list gives its distinct elements sorted by lowered key. |
| Workspace.LoadedCallers | codemap-gui/codemap_gui/backend/workspace_backend.py:167-176 | `_callers[x]` is exactly the distinct non-empty callers in `called_by_sites[x]`, sorted. `x` gets a key iff one exists. |
| Workspace.LoadedSites | codemap-gui/codemap_gui/backend/workspace_backend.py:178-214 | The in and out site maps hold one normalised entry per source record, in order. A key exists iff it has records. |
| Workspace.FormatBoth | codemap-gui/codemap_gui/backend/workspace_backend.py:233-245 | The two formatting loops produce the formatted out-list followed by the formatted in-list. |
| Workspace.FormattedAt | codemap-gui/codemap_gui/backend/workspace_backend.py:236-245 | The i-th formatted line is the format of the i-th site. |
| Workspace.AppendFormatted | codemap-gui/codemap_gui/backend/workspace_backend.py:236-239 | One loop appends the formatted sites, in order, after the lines already built. |
| Workspace.OutLinesFormatted | codemap-gui/codemap_gui/backend/workspace_backend.py:236-239 | The out-lines are the `OUT` format applied to each out-site. |
| Workspace.InLinesFormatted | codemap-gui/codemap_gui/backend/workspace_backend.py:242-245 | The in-lines are the `IN` format applied to each in-site. |
| Workspace.OutLinesAt | codemap-gui/codemap_gui/backend/workspace_backend.py:236-239 | The i-th out-line formats the i-th out-site and starts with `OUT  `. |
| Workspace.InLinesAt | codemap-gui/codemap_gui/backend/workspace_backend.py:242-245 | The i-th in-line formats the i-th in-site and starts with `IN   `. |
| Workspace.BuildCallsiteLines | codemap-gui/codemap_gui/backend/workspace_backend.py:233-245 | The loops build the out-lines followed by the in-lines. |
| Workspace.CallsiteLines | codemap-gui/codemap_gui/backend/workspace_backend.py:233-245 | One line per out-site plus one per in-site. |
| Workspace.CallsiteLinesLayout | codemap-gui/codemap_gui/backend/workspace_backend.py:233-245 | All `OUT` lines come first, in out-site order, then all `IN` lines, in in-site order. |
| Workspace.OutLineStarts | codemap-gui/codemap_gui/backend/workspace_backend.py:238 | Every out-line starts with `OUT  `. |
| Workspace.InLineStarts | codemap-gui/codemap_gui/backend/workspace_backend.py:244 | Every in-line starts with `IN   `. |
| Workspace.CachePut | codemap-gui/codemap_gui/backend/workspace_backend.py:232-247 | Storing a symbol's freshly built lines keeps every cached entry equal to the lines its sites give. |
| Workspace.LoadedOutlineOf | codemap-gui/codemap_gui/backend/workspace_backend.py:133-156 | For a loaded index, each outline's facts hold, and a file without an outline has no definition in it. |
| Workspace.BuildIndex | codemap-gui/codemap_gui/backend/workspace_backend.py:121-204 | The loops of `_load_index_from_json` compute exactly the file list, outline, callers, callees and site maps that the specification functions define. |
| Workspace.WorkspaceBackend.constructor | codemap-gui/codemap_gui/backend/workspace_backend.py:21-33 | A backend with no project, no index and an empty call-site cache. |
| Workspace.WorkspaceBackend.LoadIndexFromJson | codemap-gui/codemap_gui/backend/workspace_backend.py:101-217 | The stored maps become `LoadIndex(raw)`, the call-site cache is cleared, the project is unchanged, and the invariant holds. |
| Workspace.WorkspaceBackend.Store | codemap-gui/codemap_gui/backend/workspace_backend.py:207-217 | The field assignments store the six maps and empty the cache. |
| Workspace.WorkspaceBackend.ListFiles | codemap-gui/codemap_gui/backend/workspace_backend.py:221-222 | The file list is sorted by lowered key and distinct. It is empty before a load; after one, a file is listed iff the index names it. |
| Workspace.WorkspaceBackend.ListOutline | codemap-gui/codemap_gui/backend/workspace_backend.py:224-225 | An unknown file gives `[]`. Otherwise: sorted, distinct `FUNCTION` summaries of exactly the functions defined in the file. |
| Workspace.WorkspaceBackend.HopOf | codemap-gui/codemap_gui/backend/workspace_backend.py:227-229 | The hop is centred on the symbol, with empty callers and callees for an unknown symbol. |
| Workspace.WorkspaceBackend.OneHop | codemap-gui/codemap_gui/backend/workspace_backend.py:227-254 | Returns the symbol's hop. A cached symbol leaves the cache unchanged (idempotent); otherwise its built lines are added. The cache stays exact. |
| Presenter.Navigate | codemap-gui/codemap_gui/presenter.py:104-110 | `navigate_to` never puts an empty name on a stack. |
| Presenter.NavigateRules | codemap-gui/codemap_gui/presenter.py:104-110 | The target always becomes current. The back stack changes iff a push is asked for and a different non-empty symbol is current; it then gains that symbol and the forward stack is cleared. Otherwise neither stack changes. |
| Presenter.NavigateAgain | codemap-gui/codemap_gui/presenter.py:104-110 | Navigating again to the symbol just navigated to changes nothing. |
| Presenter.Back | codemap-gui/codemap_gui/presenter.py:67-72 | `on_back` never puts an empty name on a stack. |
| Presenter.Forward | codemap-gui/codemap_gui/presenter.py:74-79 | `on_forward` never puts an empty name on a stack. |
| Presenter.BackMovesIff | codemap-gui/codemap_gui/presenter.py:67-72 | `on_back` changes the state iff the back stack is non-empty and a non-empty symbol is current. |
| Presenter.ForwardMovesIff | codemap-gui/codemap_gui/presenter.py:74-79 | `on_forward` changes the state iff the forward stack is non-empty and a non-empty symbol is current. |
| Presenter.BackThenForward | codemap-gui/codemap_gui/presenter.py:67-79 | When `on_back` moves, `on_forward` afterwards restores the navigation state exactly. |
| Presenter.ForwardThenBack | codemap-gui/codemap_gui/presenter.py:67-79 | When `on_forward` moves, `on_back` afterwards restores the navigation state exactly. |
| Presenter.BackKeepsTimeline | codemap-gui/codemap_gui/presenter.py:67-72 | `on_back` only moves along back stack + current + reversed forward stack. |
| Presenter.ForwardKeepsTimeline | codemap-gui/codemap_gui/presenter.py:74-79 | `on_forward` only moves along the same timeline. |
| Presenter.MatchingEntries | codemap-gui/codemap_gui/presenter.py:64 | The filter keeps the entries whose lowered name contains the query, in original order: a subsequence, each kept entry with its full multiplicity, each dropped entry absent. |
| Presenter.MatchingAppend | codemap-gui/codemap_gui/presenter.py:64 | Filtering distributes over concatenation. |
| Presenter.MatchingEmptyQuery | codemap-gui/codemap_gui/presenter.py:64 | The empty query keeps the whole outline. |
| Presenter.NavigationState.constructor | codemap-gui/codemap_gui/presenter.py:9-13 | No current symbol and two empty stacks. |
| Presenter.CodeMapPresenter.constructor | codemap-gui/codemap_gui/presenter.py:17-24 | A fresh navigation state, no current file and an empty outline. |
| Presenter.CodeMapPresenter.NavigateTo | codemap-gui/codemap_gui/presenter.py:104-120 | The stacks become `Navigate(old, symbol, push)`. The status is the selected file, a bar separator and the symbol, or just the symbol when no file is selected. |
| Presenter.CodeMapPresenter.OnBack | codemap-gui/codemap_gui/presenter.py:67-72 | The navigation state becomes `Back(old)`. |
| Presenter.CodeMapPresenter.OnForward | codemap-gui/codemap_gui/presenter.py:74-79 | The navigation state becomes `Forward(old)`. |
| Presenter.CodeMapPresenter.OnOutlineSelected | codemap-gui/codemap_gui/presenter.py:48-52 | Text that is blank after stripping leaves the state untouched. Otherwise it navigates, with a push, to the stripped text. |
| Presenter.CodeMapPresenter.OnFileSelected | codemap-gui/codemap_gui/presenter.py:41-46 | Records the file as current and stores its outline; the status reads `"Selected file: <file>"`; navigation is untouched. |
| Presenter.CodeMapPresenter.OnSearchChanged | codemap-gui/codemap_gui/presenter.py:58-65 | A blank query shows the full outline. Otherwise it shows exactly the entries whose lowered name contains the lowered, stripped query, in original order and with their multiplicities. |

## Left out

- **The C parser.** The tree-sitter parser, its language binding and UTF-8
  decoding with replacement are outside the model.
  - Each file's parse outcome comes from a `Result`-valued function
    parameter.
  - Node text is a decoding function applied to the node's byte span.
- **The file system.** The file tree and each file's read outcome are a value
  handed in.
  - `str(path)` is modelled as the directory names joined with `/`.
  - The text of a read or parse exception is a string in that value.
- **The indexer's `main`** (argument handling, JSON output) is I/O and is not
  part of this model.
- **Console I/O:**
  - the interactive command loop, `print`/`input` and `pick`'s prompt
    loop;
  - `list_marks`, `save_session` (timestamps, file writes) and
    `resolve_index_path` (mtime-ordered globbing);
  - the `cb` command's push of a caller-site view, which sits inside the
    loop. Its menu line and parse are modelled by
    `WhoCallsSymbolMenu` and `CallerLabelRoundTrip`.

  A pick is modelled as the menu index the user would choose.
- **Source files for `snippet`.** The file's lines are a parameter; reading
  the file is not modelled.
- **`WorkspaceBackend.open_project`:**
  - It runs the indexer in a subprocess and creates and moves files. None of
    this is modelled.
  - JSON decoding is not modelled: the decoded index is a value.
  - A map entry that is not a list is skipped by every loop, and stands as an
    empty list. `calls` keeps its list-or-not distinction.
  - `relpath`, with its `Path.resolve` and fallback, and `str.lower` are
    opaque function parameters.
- **`mock_backend.py`, the Qt views, `app.py` and the test scripts.** None of
  these are part of this model.
- **Presenter: view and backend calls:**
  - `start`, `on_open_folder` and `on_constellation_node_clicked` are not
    modelled. The last is `navigate_to(symbol, True)`.
  - In `navigate_to`, the `one_hop` call and the view updates are not
    modelled; the status text is returned.
  - `on_file_selected` receives the backend's outline as a parameter.
  - `on_search_changed` returns the list it would show.
- **Python's `int()` on JSON values.** The model takes `line` and `col` as
  optional integers that default to 0. It models neither the conversions
  `int()` makes (numeric strings, floats truncated, booleans) nor the errors
  it raises (null, non-numeric text, containers).
- Workspace.SortNamesFacts: states sortedness and membership of
  `sorted(..., key=str.lower)` but not the order of names whose lowered
  forms tie. The source sorts set iteration order, which Python does not
  fix.
- Workspace.LoadedFiles: the same tie caveat applies to the file list.
- Workspace.LoadedCallees: the same tie caveat applies to each callee
  list.
- Workspace.LoadedCallers: the same tie caveat applies to each caller
  list.
- Workspace.LoadedOutline: the same tie caveat applies to each outline.
- NavConsole.Navigator.OpenDefinition: requires non-negative start lines.
  - For a negative start line, the source's `int("")` on the text before the
    first `-` raises.
  - The indexer only writes lines ≥ 1 (`Indexer.AnalyzeFacts`).
- NavConsole.Navigator.JumpToDefinitionOfSymbol: the same requirement of
  non-negative start lines as `OpenDefinition`.
- NavConsole.DefinitionLabelRoundTrip: requires a non-negative start line,
  for the same reason.
- NavConsole.CallerLabelRoundTrip: requires a caller name without spaces (a C
  identifier). A caller containing `" @ "` would be split at that point.
- NavConsole.Navigator.JumpCallsite: parses the callee with the corrected
  parse described under "## Findings".
- NavConsole.Navigator.Mark: takes "current is truthy" as "a view is
  current". A view dictionary always has keys, so it is never falsy.

## Findings

| source | as written | input that shows it | evidently intended | confidence | as-written member | corrected member |
|---|---|---|---|---|---|---|
| codemap-cli/nav_console.py:201 | The callee is read back from its menu line `"<callee>  (<n> sites)"` with `split("  (")[0]`, which cuts at the first `"  ("` | A call whose `function` text itself contains two spaces and a parenthesis, such as `get_handler  (id)(x)`: its callee is `get_handler  (id)` and the parse yields `get_handler`. The inner call `get_handler  (id)` is itself recorded as a site with callee `get_handler`, so the site menu offers that inner call and the jump pushes a view titled `<fn> -> get_handler`: the wrong callee | Recover the whole callee text, that is, cut at the last `"  ("` (the count suffix contains none) | not executed | NavConsole.CalleeLabelAsWrittenTruncates, NavConsole.CalleeMenuMisparse, NavConsole.CalleeMenuMisparseSites | NavConsole.CalleeLabelRoundTrip |
