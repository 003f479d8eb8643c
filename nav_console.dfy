/** The console navigator over a call-graph index: a back/forward history of
    views with bookmarks, the queries behind its commands, the menus it shows
    and the parsing of the menu line the user picks, and the numbered source
    window it prints. Terminal input is replaced by the index of the menu line
    the user would pick (`None`, or an index past the menu, for a cancel);
    printing is not modelled. */
module NavConsole {
  import opened Wrappers
  import opened PyStr
  import opened Sorting
  import opened Dicts
  import opened Indexer

  /** A view dictionary: every view has a kind, a title and a location text;
      the other keys are present only for some kinds. */
  datatype View = View(
    kind: string,
    title: string,
    loc: string,
    fn: Option<string>,
    file: Option<string>,
    line: Option<int>,
    col: Option<int>,
    caller: Option<string>,
    callee: Option<string>)

  function FunctionView(fnName: string, locHint: string): View {
    View("function", fnName, locHint, Some(fnName), None, None, None, None, None)
  }

  function DefinitionView(fnName: string, file: string, line: int): View {
    View("definition", fnName, file + ":" + IntToString(line), None, Some(file), Some(line), None, None, None)
  }

  function CallsiteView(fnName: string, s: CallSite): View {
    View("callsite", fnName + " -> " + s.callee, SiteLabel(s),
         None, Some(s.file), Some(s.line), Some(s.col), Some(fnName), Some(s.callee))
  }

  // ---------------------------------------------------------------------------
  // The history machine
  // ---------------------------------------------------------------------------

  datatype History = History(current: Option<View>, history: seq<View>, future: seq<View>)

  /** There is a current view whenever there is anything to go back or
      forward to. */
  predicate HistoryValid(h: History) {
    (h.history != [] || h.future != []) ==> h.current.Some?
  }

  /** `_push`: the old current view, if any, goes on the history and the
      forward list is cleared; the new view becomes current. */
  function Pushed(h: History, v: View): (r: History)
    ensures HistoryValid(r)
  {
    if h.current.Some? then History(Some(v), h.history + [h.current.value], [])
    else h.(current := Some(v))
  }

  /** `back`: nothing without history; otherwise the current view goes on the
      forward list and the last history entry becomes current. */
  function StepBack(h: History): (r: History)
    requires HistoryValid(h)
    ensures HistoryValid(r)
  {
    if h.history == [] then h
    else History(Some(h.history[|h.history| - 1]), h.history[..|h.history| - 1], h.future + [h.current.value])
  }

  /** `forward`: the mirror image of `back` on the forward list. */
  function StepForward(h: History): (r: History)
    requires HistoryValid(h)
    ensures HistoryValid(r)
  {
    if h.future == [] then h
    else History(Some(h.future[|h.future| - 1]), h.history + [h.current.value], h.future[..|h.future| - 1])
  }

  /** Every view the machine can reach by `back` and `forward`, oldest first:
      the history, the current view, then the forward list newest first. */
  function Timeline(h: History): seq<View> {
    h.history + (if h.current.Some? then [h.current.value] else []) + Reversed(h.future)
  }

  /** `back` followed by `forward` restores the machine exactly. */
  lemma BackThenForward(h: History)
    requires HistoryValid(h) && h.history != []
    ensures StepForward(StepBack(h)) == h
  {
    var b := StepBack(h);
    assert b.future[..|b.future| - 1] == h.future;
    assert b.history + [b.current.value] == h.history;
  }

  /** `forward` followed by `back` restores the machine exactly. */
  lemma ForwardThenBack(h: History)
    requires HistoryValid(h) && h.future != []
    ensures StepBack(StepForward(h)) == h
  {
    var f := StepForward(h);
    assert f.history[..|f.history| - 1] == h.history;
    assert f.future + [f.current.value] == h.future;
  }

  /** `back` only moves the current position one step back along the timeline. */
  lemma BackKeepsTimeline(h: History)
    requires HistoryValid(h)
    ensures Timeline(StepBack(h)) == Timeline(h)
    ensures h.history != [] ==> |StepBack(h).history| == |h.history| - 1
  {
    if h.history != [] {
      var n := |h.history|;
      var p, last, cur := h.history[..n - 1], h.history[n - 1], h.current.value;
      ReversedSnoc(h.future, cur);
      assert h.history == p + [last];
      calc {
        Timeline(StepBack(h));
        p + [last] + Reversed(h.future + [cur]);
        p + [last] + ([cur] + Reversed(h.future));
        Timeline(h);
      }
    }
  }

  /** `forward` only moves the current position one step forward along the timeline. */
  lemma ForwardKeepsTimeline(h: History)
    requires HistoryValid(h)
    ensures Timeline(StepForward(h)) == Timeline(h)
    ensures h.future != [] ==> |StepForward(h).history| == |h.history| + 1
  {
    if h.future != [] {
      var m := |h.future|;
      var p, next, cur := h.future[..m - 1], h.future[m - 1], h.current.value;
      ReversedSnoc(p, next);
      assert h.future == p + [next];
      calc {
        Timeline(StepForward(h));
        h.history + [cur] + [next] + Reversed(p);
        h.history + [cur] + ([next] + Reversed(p));
        Timeline(h);
      }
    }
  }

  /** A push drops everything ahead of the current view and ends the
      timeline with the new view. */
  lemma PushTruncatesTimeline(h: History, v: View)
    requires HistoryValid(h)
    ensures Timeline(Pushed(h, v)) == h.history + (if h.current.Some? then [h.current.value] else []) + [v]
    ensures Pushed(h, v).future == []
  {
  }

  // ---------------------------------------------------------------------------
  // Menus and their parsing
  // ---------------------------------------------------------------------------

  /** `items[:n]` */
  function Take<T>(s: seq<T>, n: nat): (r: seq<T>)
    ensures |r| == (if |s| <= n then |s| else n) && r == s[..|r|]
  {
    if |s| <= n then s else s[..n]
  }

  /** `pick(items, ...)`: the item at the index the user chose, or `None`
      when the menu is empty or the user cancels. */
  function Pick<T>(items: seq<T>, choice: Option<nat>): (r: Option<T>)
    ensures r.Some? <==> choice.Some? && choice.value < |items|
    ensures r.Some? ==> r.value == items[choice.value]
  {
    if choice.Some? && choice.value < |items| then Some(items[choice.value]) else None
  }

  /** A definition menu line: `file:start-end`. */
  function DefinitionLabel(d: Definition): string {
    d.file + ":" + IntToString(d.startLine) + "-" + IntToString(d.endLine)
  }

  /** `rsplit(":", 1)`, then `int` of the text before the first `-`. */
  function ParseDefinitionLabel(entry: string): Option<(string, int)> {
    match RSplitOnce(entry, ":")
    case None => None
    case Some((filePart, rangePart)) =>
      match ParseInt(BeforeFirst(rangePart, "-"))
      case None => None
      case Some(start) => Some((filePart, start))
  }

  /** A definition line parses back to its file and start line, whatever the
      file name holds, as long as the start line is not negative. */
  lemma DefinitionLabelRoundTrip(d: Definition)
    requires d.startLine >= 0
    ensures ParseDefinitionLabel(DefinitionLabel(d)) == Some((d.file, d.startLine))
  {
    var startText, endText := IntToString(d.startLine), IntToString(d.endLine);
    var rangePart := startText + "-" + endText;
    assert ':' !in rangePart by {
      IntToStringChars(d.startLine);
      IntToStringChars(d.endLine);
    }
    SingleSeparatorOnce(':', rangePart);
    RSplitOnceAtJoint(d.file, ":", rangePart);
    assert DefinitionLabel(d) == d.file + ":" + rangePart;
    forall i | 0 <= i < |startText| ensures !OccursAt(startText + "-", "-", i) {
      assert (startText + "-")[i..i + 1] == [startText[i]];
    }
    FindAtJoint(startText, "-", endText);
    assert rangePart[..|startText|] == startText;
    ParseIntToString(d.startLine);
  }

  /** A call-site menu line: `file:line:col`. */
  function SiteLabel(s: CallSite): string {
    s.file + ":" + IntToString(s.line) + ":" + IntToString(s.col)
  }

  /** `rsplit(":", 2)`, then `int` of the last two parts. */
  function ParseSiteLabel(entry: string): Option<(string, int, int)> {
    match RSplitTwice(entry, ":")
    case None => None
    case Some((filePart, linePart, colPart)) =>
      match (ParseInt(linePart), ParseInt(colPart))
      case (Some(line), Some(col)) => Some((filePart, line, col))
      case _ => None
  }

  lemma LocationRoundTrip(file: string, line: int, col: int)
    ensures RSplitTwice(file + ":" + IntToString(line) + ":" + IntToString(col), ":")
         == Some((file, IntToString(line), IntToString(col)))
  {
    var l, c := IntToString(line), IntToString(col);
    IntToStringChars(line);
    IntToStringChars(col);
    assert ':' !in l && ':' !in c;
    SingleSeparatorOnce(':', c);
    SingleSeparatorOnce(':', l);
    RSplitOnceAtJoint(file + ":" + l, ":", c);
    RSplitOnceAtJoint(file, ":", l);
  }

  /** A call-site line parses back to exactly the site's file, line and
      column, for every file name and every line and column. */
  lemma SiteLabelRoundTrip(s: CallSite)
    ensures ParseSiteLabel(SiteLabel(s)) == Some((s.file, s.line, s.col))
  {
    LocationRoundTrip(s.file, s.line, s.col);
    ParseIntToString(s.line);
    ParseIntToString(s.col);
  }

  /** A who-calls menu line: `caller @ file:line:col`. */
  function CallerLabel(cs: CallerSite): string {
    cs.caller + " @ " + cs.file + ":" + IntToString(cs.line) + ":" + IntToString(cs.col)
  }

  /** `split(" @ ", 1)`, then the call-site parse of the location part. */
  function ParseCallerLabel(entry: string): Option<(string, string, int, int)> {
    match SplitOnce(entry, " @ ")
    case None => None
    case Some((callerPart, locPart)) =>
      match RSplitTwice(locPart, ":")
      case None => None
      case Some((filePart, linePart, colPart)) =>
        match (ParseInt(linePart), ParseInt(colPart))
        case (Some(line), Some(col)) => Some((callerPart, filePart, line, col))
        case _ => None
  }

  /** A who-calls line parses back to its record when the caller's name has
      no space in it, as no C identifier has. */
  lemma CallerLabelRoundTrip(cs: CallerSite)
    requires ' ' !in cs.caller
    ensures ParseCallerLabel(CallerLabel(cs)) == Some((cs.caller, cs.file, cs.line, cs.col))
  {
    var loc := cs.file + ":" + IntToString(cs.line) + ":" + IntToString(cs.col);
    SpacedSeparatorNotInside(cs.caller, " @ ");
    SplitOnceAtJoint(cs.caller, " @ ", loc);
    assert CallerLabel(cs) == cs.caller + " @ " + loc;
    LocationRoundTrip(cs.file, cs.line, cs.col);
    ParseIntToString(cs.line);
    ParseIntToString(cs.col);
  }

  // ---------------------------------------------------------------------------
  // Callee counts and the callee menu
  // ---------------------------------------------------------------------------

  function Callees(sites: seq<CallSite>): (r: seq<string>)
    ensures |r| == |sites| && forall i :: 0 <= i < |sites| ==> r[i] == sites[i].callee
  {
    seq(|sites|, i requires 0 <= i < |sites| => sites[i].callee)
  }

  /** The `counts` dict after counting the first `n` names of `xs`, in order. */
  function TallyPrefix(xs: seq<string>, n: nat): ODict<nat>
    requires n <= |xs|
  {
    if n == 0 then Empty()
    else
      var t := TallyPrefix(xs, n - 1);
      Put(t, xs[n - 1], GetOr(t, xs[n - 1], 0) + 1)
  }

  /** The `counts` dict after counting all of `xs`. */
  function Tally(xs: seq<string>): ODict<nat> {
    TallyPrefix(xs, |xs|)
  }

  /** The counting loop of `jump_callsite`. */
  method CountCallees(sites: seq<CallSite>) returns (counts: ODict<nat>)
    ensures counts == Tally(Callees(sites))
  {
    var xs := Callees(sites);
    counts := Empty();
    for i := 0 to |sites|
      invariant counts == TallyPrefix(xs, i)
    {
      var s := sites[i];
      counts := Put(counts, s.callee, GetOr(counts, s.callee, 0) + 1);
    }
  }

  /** Counting keeps the dict well formed. */
  lemma {:induction false} TallyValid(xs: seq<string>, n: nat)
    requires n <= |xs|
    ensures Valid(TallyPrefix(xs, n))
  {
    if n > 0 {
      TallyValid(xs, n - 1);
    }
  }

  /** The dict has one key per distinct callee, in order of first occurrence. */
  lemma {:induction false} TallyPrefixKeys(xs: seq<string>, n: nat)
    requires n <= |xs|
    ensures TallyPrefix(xs, n).keys == Dedup(xs[..n])
  {
    if n > 0 {
      var p, x := xs[..n - 1], xs[n - 1];
      TallyValid(xs, n - 1);
      TallyPrefixKeys(xs, n - 1);
      assert xs[..n] == p + [x];
      assert (p + [x])[..n - 1] == p;
    }
  }

  /** Each key counts the occurrences of its callee. */
  lemma {:induction false} TallyPrefixCounts(xs: seq<string>, n: nat)
    requires n <= |xs|
    ensures forall k :: GetOr(TallyPrefix(xs, n), k, 0) == multiset(xs[..n])[k]
  {
    if n > 0 {
      var p, x := xs[..n - 1], xs[n - 1];
      TallyPrefixCounts(xs, n - 1);
      assert xs[..n] == p + [x];
      assert multiset(xs[..n]) == multiset(p) + multiset{x};
    }
  }

  lemma TallyCounts(xs: seq<string>)
    ensures Tally(xs).keys == Dedup(xs)
    ensures forall k :: GetOr(Tally(xs), k, 0) == multiset(xs)[k]
  {
    TallyPrefixKeys(xs, |xs|);
    TallyPrefixCounts(xs, |xs|);
    assert xs[..|xs|] == xs;
  }

  function Count(p: (string, nat)): int {
    p.1
  }

  /** `counts.items()` */
  function CountItems(t: ODict<nat>): (r: seq<(string, nat)>)
    ensures |r| == |t.keys|
    ensures forall i :: 0 <= i < |t.keys| ==> r[i] == (t.keys[i], GetOr(t, t.keys[i], 0))
  {
    seq(|t.keys|, i requires 0 <= i < |t.keys| => (t.keys[i], GetOr(t, t.keys[i], 0)))
  }

  /** The sum of the counts of the keys `ks` in a counts dict. */
  function SumCounts(ks: seq<string>, t: ODict<nat>): int {
    if ks == [] then 0 else SumCounts(ks[..|ks| - 1], t) + GetOr(t, ks[|ks| - 1], 0)
  }

  /** The sum of the counts in a counts dict. */
  function CountSum(t: ODict<nat>): int {
    SumCounts(t.keys, t)
  }

  /** The sum over `ks` only reads the counts of `ks`. */
  lemma {:induction false} SumCountsFrame(ks: seq<string>, t: ODict<nat>, t': ODict<nat>)
    requires forall k :: k in ks ==> GetOr(t, k, 0) == GetOr(t', k, 0)
    ensures SumCounts(ks, t) == SumCounts(ks, t')
  {
    if ks != [] {
      var p := ks[..|ks| - 1];
      assert forall k :: k in p ==> k in ks;
      SumCountsFrame(p, t, t');
    }
  }

  /** Adding one to the count of a key listed once adds one to the sum. */
  lemma {:induction false} SumCountsBump(ks: seq<string>, t: ODict<nat>, t': ODict<nat>, x: string)
    requires Distinct(ks) && x in ks
    requires GetOr(t', x, 0) == GetOr(t, x, 0) + 1
    requires forall k :: k != x ==> GetOr(t', k, 0) == GetOr(t, k, 0)
    ensures SumCounts(ks, t') == SumCounts(ks, t) + 1
  {
    var p, last := ks[..|ks| - 1], ks[|ks| - 1];
    assert Distinct(p);
    if last == x {
      assert x !in p;
      SumCountsFrame(p, t, t');
    } else {
      assert x in p;
      SumCountsBump(p, t, t', x);
    }
  }

  /** Counting one more name adds one to the sum of the counts. */
  lemma TallyStepSum(t: ODict<nat>, x: string)
    requires Valid(t)
    ensures CountSum(Put(t, x, GetOr(t, x, 0) + 1)) == CountSum(t) + 1
  {
    var t' := Put(t, x, GetOr(t, x, 0) + 1);
    if x in t.vals {
      assert t'.keys == t.keys;
      SumCountsBump(t.keys, t, t', x);
    } else {
      assert t'.keys[..|t.keys|] == t.keys;
      assert x !in t.keys;
      SumCountsFrame(t.keys, t, t');
    }
  }

  lemma TallyPrefixStepSum(xs: seq<string>, n: nat)
    requires 0 < n <= |xs|
    requires CountSum(TallyPrefix(xs, n - 1)) == n - 1
    ensures CountSum(TallyPrefix(xs, n)) == n
  {
    var t, t' := TallyPrefix(xs, n - 1), TallyPrefix(xs, n);
    assert t' == Put(t, xs[n - 1], GetOr(t, xs[n - 1], 0) + 1);
    assert Valid(t) by { TallyValid(xs, n - 1); }
    TallyStepSum(t, xs[n - 1]);
  }

  /** The counts add up to the number of names counted. */
  lemma {:induction false} TallyPrefixSum(xs: seq<string>, n: nat)
    requires n <= |xs|
    ensures CountSum(TallyPrefix(xs, n)) == n
  {
    if n > 0 {
      TallyPrefixSum(xs, n - 1);
      TallyPrefixStepSum(xs, n);
    }
  }

  /** `counts.items()` sums to the same total. */
  lemma {:induction false} SumCountsItems(ks: seq<string>, t: ODict<nat>, items: seq<(string, nat)>)
    requires |items| == |ks|
    requires forall i :: 0 <= i < |ks| ==> items[i] == (ks[i], GetOr(t, ks[i], 0))
    ensures SumBy(items, Count) == SumCounts(ks, t)
  {
    if ks != [] {
      var n := |ks| - 1;
      SumCountsItems(ks[..n], t, items[..n]);
      assert items == items[..n] + [items[n]];
      SumByAppend(items[..n], [items[n]], Count);
    }
  }

  lemma CountItemsSum(t: ODict<nat>)
    ensures SumBy(CountItems(t), Count) == CountSum(t)
  {
    SumCountsItems(t.keys, t, CountItems(t));
  }

  /** The order of `sorted(..., key=lambda kv: (-kv[1], kv[0]))`: higher
      counts first, then names in ascending order. */
  predicate CountOrder(a: (string, nat), b: (string, nat)) {
    a.1 > b.1 || (a.1 == b.1 && Le(a.0, b.0))
  }

  lemma CountOrderTotal()
    ensures TotalPreorder(CountOrder)
  {
    LeIsTotalOrder();
  }

  /** The callee counts of a function's sites, in menu order. */
  function CalleeEntries(sites: seq<CallSite>): (r: seq<(string, nat)>)
    ensures SortedBy(r, CountOrder)
  {
    CountOrderTotal();
    Sort(CountItems(Tally(Callees(sites))), CountOrder)
  }

  /** The callee counts add up to the number of sites. */
  lemma CalleeEntriesSum(sites: seq<CallSite>)
    ensures SumBy(CalleeEntries(sites), Count) == |sites|
  {
    var xs := Callees(sites);
    CountOrderTotal();
    TallyPrefixSum(xs, |xs|);
    CountItemsSum(Tally(xs));
    SumBySort(CountItems(Tally(xs)), CountOrder, Count);
  }

  lemma CalleeEntriesAreItems(sites: seq<CallSite>)
    ensures forall p :: p in CalleeEntries(sites) <==> p in CountItems(Tally(Callees(sites)))
  {
    var entries, items := CalleeEntries(sites), CountItems(Tally(Callees(sites)));
    CountOrderTotal();
    assert multiset(entries) == multiset(items);
    forall p ensures p in entries <==> p in items {
      assert p in entries <==> p in multiset(entries);
      assert p in items <==> p in multiset(items);
    }
  }

  /** Every menu entry carries its callee's number of sites, at least one. */
  lemma CalleeEntriesCounts(sites: seq<CallSite>)
    ensures forall p :: p in CalleeEntries(sites) ==> p.1 == multiset(Callees(sites))[p.0] >= 1
  {
    var xs := Callees(sites);
    var t := Tally(xs);
    var items := CountItems(t);
    CalleeEntriesAreItems(sites);
    TallyCounts(xs);
    forall p | p in CalleeEntries(sites) ensures p.1 == multiset(xs)[p.0] >= 1 {
      var j :| 0 <= j < |items| && items[j] == p;
      assert p.0 == t.keys[j] && p.0 in Dedup(xs);
    }
  }

  /** The menu names exactly the callees of the sites. */
  lemma CalleeEntriesNames(sites: seq<CallSite>)
    ensures forall k :: k in Callees(sites) <==> exists n :: (k, n) in CalleeEntries(sites)
  {
    var xs := Callees(sites);
    var t := Tally(xs);
    var items := CountItems(t);
    CalleeEntriesAreItems(sites);
    TallyCounts(xs);
    forall k | k in xs ensures exists n :: (k, n) in CalleeEntries(sites) {
      var j :| 0 <= j < |t.keys| && t.keys[j] == k;
      assert items[j] == (k, GetOr(t, k, 0));
    }
  }

  /** A callee menu line: `name  (n sites)`. */
  function CalleeLabel(p: (string, nat)): string {
    p.0 + "  (" + NatToString(p.1) + " sites)"
  }

  /** `chosen.split("  (")[0]`, as the source parses a callee line. */
  function CalleeOfLabelAsWritten(entry: string): string {
    BeforeFirst(entry, "  (")
  }

  /** The callee parse that recovers every name: the text before the last `"  ("`. */
  function CalleeOfLabel(entry: string): string {
    BeforeLast(entry, "  (")
  }

  lemma CountSuffixOnce(n: nat)
    ensures forall i :: 0 < i ==> !OccursAt("  (" + NatToString(n) + " sites)", "  (", i)
  {
    var s := "  (" + NatToString(n) + " sites)";
    var d := NatToString(n);
    forall i | 0 < i ensures !OccursAt(s, "  (", i) {
      if i + 3 <= |s| {
        var j := i + 2;
        if j < 3 + |d| {
          assert s[j] == d[j - 3];
        } else {
          assert s[j] == " sites)"[j - 3 - |d|];
        }
        assert s[i..i + 3][2] == s[j];
      }
    }
  }

  /** The corrected parse gives back every callee name, whatever it holds. */
  lemma CalleeLabelRoundTrip(p: (string, nat))
    ensures CalleeOfLabel(CalleeLabel(p)) == p.0
  {
    var rest := NatToString(p.1) + " sites)";
    CountSuffixOnce(p.1);
    assert "  (" + NatToString(p.1) + " sites)" == "  (" + rest;
    RFindAtJoint(p.0, "  (", rest);
    assert CalleeLabel(p) == p.0 + "  (" + rest;
    assert CalleeLabel(p)[..|p.0|] == p.0;
  }

  /** A separator that starts with a space cannot start inside a text
      without spaces. */
  lemma SpacedSeparatorNotInside(a: string, sep: string)
    requires |sep| > 0 && sep[0] == ' ' && ' ' !in a
    ensures forall i :: 0 <= i < |a| ==> !OccursAt(a + sep, sep, i)
  {
    forall i | 0 <= i < |a| ensures !OccursAt(a + sep, sep, i) {
      assert (a + sep)[i] == a[i];
    }
  }

  /** The source's parse truncates a callee text that itself holds `"  ("`,
      which a call through a call expression written with two spaces before
      its parenthesis has. */
  lemma CalleeLabelAsWrittenTruncates(a: string, b: string, n: nat)
    requires ' ' !in a
    ensures CalleeOfLabelAsWritten(CalleeLabel((a + "  (" + b, n))) == a
    ensures a != a + "  (" + b
  {
    var rest := b + "  (" + NatToString(n) + " sites)";
    var s := a + "  (" + rest;
    assert CalleeLabel((a + "  (" + b, n)) == s;
    assert Find(s, "  (") == Some(|a|) by {
      SpacedSeparatorNotInside(a, "  (");
      FindAtJoint(a, "  (", rest);
    }
    assert s[..|a|] == a;
  }

  /** `get_handler  (id)(msg);` calls the callee text `get_handler  (id)`:
      the source reads its menu line back as `get_handler`. */
  lemma CalleeMenuMisparse()
    ensures CalleeOfLabelAsWritten(CalleeLabel(("get_handler  (id)", 1))) == "get_handler"
    ensures CalleeOfLabel(CalleeLabel(("get_handler  (id)", 1))) == "get_handler  (id)"
  {
    assert "get_handler  (id)" == "get_handler" + "  (" + "id)";
    CalleeLabelAsWrittenTruncates("get_handler", "id)", 1);
    CalleeLabelRoundTrip(("get_handler  (id)", 1));
  }

  /** In `get_handler  (id)(msg);` the indexer records the outer call (callee
      `get_handler  (id)`) and then, walking into its `function` field, the
      inner call (callee `get_handler`), both at the field's start. Picking
      the outer callee from the menu, the source filters the sites by the
      truncated name and so offers only the inner call. */
  lemma CalleeMenuMisparseSites(file: string, line: int, col: int)
    ensures var outer := CallSite("get_handler  (id)", file, line, col);
            var inner := CallSite("get_handler", file, line, col);
            SitesCalling([outer, inner], CalleeOfLabelAsWritten(CalleeLabel((outer.callee, 1)))) == [inner]
            && SitesCalling([outer, inner], CalleeOfLabel(CalleeLabel((outer.callee, 1)))) == [outer]
  {
    CalleeMenuMisparse();
    var outer := CallSite("get_handler  (id)", file, line, col);
    var inner := CallSite("get_handler", file, line, col);
    assert outer.callee != inner.callee by {
      assert |outer.callee| != |inner.callee|;
    }
    assert [outer, inner][1..] == [inner];
  }

  function CalleeLabels(entries: seq<(string, nat)>): (r: seq<string>)
    ensures |r| == |entries| && forall i :: 0 <= i < |entries| ==> r[i] == CalleeLabel(entries[i])
  {
    seq(|entries|, i requires 0 <= i < |entries| => CalleeLabel(entries[i]))
  }

  /** `[s for s in sites if s["callee"] == callee]`: the sites of that callee,
      in their order and with their repetitions. */
  function SitesCalling(sites: seq<CallSite>, callee: string): (r: seq<CallSite>)
    ensures Subsequence(r, sites)
    ensures forall s :: multiset(r)[s] == if s.callee == callee then multiset(sites)[s] else 0
    ensures forall s :: s in r <==> s in sites && s.callee == callee
  {
    if sites == [] then []
    else
      var rest := SitesCalling(sites[1..], callee);
      assert sites == [sites[0]] + sites[1..];
      if sites[0].callee == callee then
        assert ([sites[0]] + rest)[1..] == rest;
        [sites[0]] + rest
      else
        rest
  }

  function SiteLabels(sites: seq<CallSite>): (r: seq<string>)
    ensures |r| == |sites| && forall i :: 0 <= i < |sites| ==> r[i] == SiteLabel(sites[i])
  {
    seq(|sites|, i requires 0 <= i < |sites| => SiteLabel(sites[i]))
  }

  /** The callee the user picks from the callee menu, if any. */
  function PickedCallee(sites: seq<CallSite>, calleePick: Option<nat>): Option<string> {
    match Pick(Take(CalleeEntries(sites), 120), calleePick)
    case None => None
    case Some(p) => Some(p.0)
  }

  /** The site the user picks from the site menu of the picked callee: the
      `sitePick`-th of the first 300 sites calling it, if any. */
  function PickedSite(sites: seq<CallSite>, calleePick: Option<nat>, sitePick: Option<nat>): (r: Option<CallSite>)
    ensures r.Some? ==> r.value in sites && PickedCallee(sites, calleePick) == Some(r.value.callee)
    ensures r.Some? <==> PickedCallee(sites, calleePick).Some? && sitePick.Some?
                         && sitePick.value < |SitesCalling(sites, PickedCallee(sites, calleePick).value)|
                         && sitePick.value < 300
  {
    match PickedCallee(sites, calleePick)
    case None => None
    case Some(c) => Pick(Take(SitesCalling(sites, c), 300), sitePick)
  }

  /** The definition the user picks from the menu of the first 80. */
  function PickedDefinition(defs: seq<Definition>, choice: Option<nat>): (r: Option<Definition>)
    ensures r.Some? <==> choice.Some? && choice.value < |defs| && choice.value < 80
    ensures r.Some? ==> r.value == defs[choice.value]
  {
    Pick(Take(defs, 80), choice)
  }

  // ---------------------------------------------------------------------------
  // Queries
  // ---------------------------------------------------------------------------

  /** The names containing `query`, in their given order. */
  function Matching(names: seq<string>, query: string): (r: seq<string>)
    ensures forall x :: x in r <==> x in names && Contains(x, query)
    ensures Distinct(names) ==> Distinct(r)
  {
    if names == [] then []
    else
      var rest := Matching(names[1..], query);
      assert forall x :: x in names <==> x == names[0] || x in names[1..];
      if Contains(names[0], query) then [names[0]] + rest else rest
  }

  lemma SortedCons(x: string, rest: seq<string>)
    requires SortedBy(rest, Le)
    requires forall y :: y in rest ==> Le(x, y)
    ensures SortedBy([x] + rest, Le)
  {
    var r := [x] + rest;
    forall i, j | 0 <= i < j < |r| ensures Le(r[i], r[j]) {
      assert r[j] == rest[j - 1];
      if i > 0 {
        assert r[i] == rest[i - 1];
      }
    }
  }

  lemma SortedHeadFirst(names: seq<string>)
    requires SortedBy(names, Le) && names != []
    ensures forall y :: y in names[1..] ==> Le(names[0], y)
  {
    forall y | y in names[1..] ensures Le(names[0], y) {
      var k :| 0 <= k < |names[1..]| && names[1..][k] == y;
      assert names[k + 1] == y;
    }
  }

  /** Filtering keeps a sorted list sorted. */
  lemma {:induction false} MatchingSorted(names: seq<string>, query: string)
    requires SortedBy(names, Le)
    ensures SortedBy(Matching(names, query), Le)
  {
    if names != [] {
      var rest := Matching(names[1..], query);
      assert SortedBy(names[1..], Le);
      MatchingSorted(names[1..], query);
      if Contains(names[0], query) {
        SortedHeadFirst(names);
        SortedCons(names[0], rest);
      }
    }
  }

  /** `"[kind] title loc"`, or `"(no selection)"` without a current view. */
  function Describe(current: Option<View>): (r: string)
    ensures current.None? <==> r == "(no selection)"
    ensures current.Some? ==> StartsWith(r, "[" + current.value.kind + "] ")
  {
    match current
    case None => "(no selection)"
    case Some(v) =>
      var r := "[" + v.kind + "] " + v.title + " " + v.loc;
      assert r[0] == '[';
      assert r[..|v.kind| + 3] == "[" + v.kind + "] ";
      r
  }

  /** `"{n} defs"`, or `"no def"` for a function without definitions. */
  function LocHint(n: nat): string {
    if n > 0 then NatToString(n) + " defs" else "no def"
  }

  // ---------------------------------------------------------------------------
  // The source window
  // ---------------------------------------------------------------------------

  function Max(a: int, b: int): int { if a >= b then a else b }
  function Min(a: int, b: int): int { if a <= b then a else b }

  /** One line of the window: a `>>` marker on the target line, the line
      number right-aligned in five columns, then the text. */
  function SnippetRow(ln: int, line: int, text: string): string {
    (if ln == line then ">>" else "  ") + " " + PadLeft(IntToString(ln), 5) + ": " + text
  }

  lemma SnippetRowMarker(ln: int, line: int, text: string)
    ensures StartsWith(SnippetRow(ln, line, text), ">>") <==> ln == line
  {
    assert SnippetRow(ln, line, text)[..2] == if ln == line then ">>" else "  ";
  }

  /** The rows of the window of `context` lines around `line`: the lines
      from `max(1, line - context)` to `min(n, line + context)`, each shown
      once, in order, every index inside the file. */
  ghost predicate IsWindow(out: seq<string>, lines: seq<string>, line: int, context: int) {
    var start, end := Max(1, line - context), Min(|lines|, line + context);
    && |out| == (if start <= end then end - start + 1 else 0)
    && forall i :: 0 <= i < |out| ==>
         1 <= start + i <= |lines| && out[i] == SnippetRow(start + i, line, lines[start + i - 1])
  }

  /** In a window only the target line is marked, and it is shown exactly
      when it is a line of the file and the context is not negative. */
  lemma WindowMarks(out: seq<string>, lines: seq<string>, line: int, context: int)
    requires IsWindow(out, lines, line, context)
    ensures forall i :: 0 <= i < |out| ==> (StartsWith(out[i], ">>") <==> Max(1, line - context) + i == line)
    ensures (exists i :: 0 <= i < |out| && StartsWith(out[i], ">>")) <==> 1 <= line <= |lines| && context >= 0
  {
    var start := Max(1, line - context);
    forall i | 0 <= i < |out| ensures StartsWith(out[i], ">>") <==> start + i == line {
      SnippetRowMarker(start + i, line, lines[start + i - 1]);
    }
    if 1 <= line <= |lines| && context >= 0 {
      assert StartsWith(out[line - start], ">>");
    }
  }

  /** `snippet(file, line, context)` over the lines of the file. */
  method Snippet(lines: seq<string>, line: int, context: int) returns (out: seq<string>, text: string)
    ensures IsWindow(out, lines, line, context)
    ensures text == Join(out, "\n")
  {
    var start := Max(1, line - context);
    var end := Min(|lines|, line + context);
    ghost var row := (k: int) => RowAt(lines, line, k);
    out := [];
    var ln := start;
    while ln <= end
      invariant 1 <= start <= ln <= Max(start, end + 1) && end <= |lines|
      invariant |out| == ln - start
      invariant RowsFrom(out, start, row)
    {
      var r := SnippetRow(ln, line, lines[ln - 1]);
      assert r == row(ln);
      RowsFromSnoc(out, start, row, r);
      out := out + [r];
      ln := ln + 1;
    }
    WindowOfRows(out, lines, line, context);
    text := Join(out, "\n");
  }

  /** The row for line `ln`, or nothing outside the file. */
  function RowAt(lines: seq<string>, line: int, ln: int): string {
    if 1 <= ln <= |lines| then SnippetRow(ln, line, lines[ln - 1]) else ""
  }

  ghost predicate RowsFrom<T>(out: seq<T>, start: int, row: int -> T) {
    forall i :: 0 <= i < |out| ==> out[i] == row(start + i)
  }

  lemma RowsFromSnoc<T>(out: seq<T>, start: int, row: int -> T, r: T)
    requires RowsFrom(out, start, row) && r == row(start + |out|)
    ensures RowsFrom(out + [r], start, row)
  {
  }

  lemma WindowOfRows(out: seq<string>, lines: seq<string>, line: int, context: int)
    requires var start, end := Max(1, line - context), Min(|lines|, line + context);
      && |out| == (if start <= end then end - start + 1 else 0)
      && RowsFrom(out, start, (k: int) => RowAt(lines, line, k))
    ensures IsWindow(out, lines, line, context)
  {
    var start := Max(1, line - context);
    forall i | 0 <= i < |out|
      ensures 1 <= start + i <= |lines| && out[i] == SnippetRow(start + i, line, lines[start + i - 1])
    {
      assert out[i] == RowAt(lines, line, start + i);
    }
  }

  // ---------------------------------------------------------------------------
  // The navigator
  // ---------------------------------------------------------------------------

  class Navigator {
    const functions: ODict<seq<Definition>>
    const calls: ODict<seq<string>>
    const callSites: ODict<seq<CallSite>>
    const calledBySites: ODict<seq<CallerSite>>

    var current: Option<View>
    var history: seq<View>
    var future: seq<View>
    var bookmarks: seq<View>

    function State(): History
      reads this
    {
      History(current, history, future)
    }

    ghost predicate Valid()
      reads this
    {
      HistoryValid(State())
    }

    /** A navigator over the index maps, with nothing selected. */
    constructor(functions: ODict<seq<Definition>>, calls: ODict<seq<string>>,
                callSites: ODict<seq<CallSite>>, calledBySites: ODict<seq<CallerSite>>)
      ensures Valid()
      ensures this.functions == functions && this.calls == calls
      ensures this.callSites == callSites && this.calledBySites == calledBySites
      ensures current == None && history == [] && future == [] && bookmarks == []
    {
      this.functions := functions;
      this.calls := calls;
      this.callSites := callSites;
      this.calledBySites := calledBySites;
      current := None;
      history := [];
      future := [];
      bookmarks := [];
    }

    method Push(v: View)
      modifies this
      requires Valid()
      ensures Valid() && State() == Pushed(old(State()), v) && bookmarks == old(bookmarks)
    {
      if current.Some? {
        history := history + [current.value];
        future := [];
      }
      current := Some(v);
    }

    method Back()
      modifies this
      requires Valid()
      ensures Valid() && State() == StepBack(old(State())) && bookmarks == old(bookmarks)
    {
      if history == [] {
        return;
      }
      future := future + [current.value];
      current := Some(history[|history| - 1]);
      history := history[..|history| - 1];
    }

    method Forward()
      modifies this
      requires Valid()
      ensures Valid() && State() == StepForward(old(State())) && bookmarks == old(bookmarks)
    {
      if future == [] {
        return;
      }
      history := history + [current.value];
      current := Some(future[|future| - 1]);
      future := future[..|future| - 1];
    }

    /** `mark`: the current view is bookmarked when there is one. */
    method Mark()
      modifies this
      requires Valid()
      ensures Valid() && State() == old(State())
      ensures bookmarks == if old(current).Some? then old(bookmarks) + [old(current).value] else old(bookmarks)
    {
      if current.None? {
        return;
      }
      bookmarks := bookmarks + [current.value];
    }

    /** `search_function`: the function names containing `query`, sorted. */
    function SearchFunction(query: string): (r: seq<string>)
      ensures forall x :: x in r <==> x in functions.keys && Contains(x, query)
      ensures SortedBy(r, Le)
      ensures Distinct(functions.keys) ==> Distinct(r)
    {
      LeTotalPreorder();
      var names := Sort(functions.keys, Le);
      assert forall x :: x in names <==> x in functions.keys by {
        forall x ensures x in names <==> x in functions.keys {
          assert x in names <==> x in multiset(names);
          assert x in functions.keys <==> x in multiset(functions.keys);
        }
      }
      PermutationKeepsDistinctIf(functions.keys, names);
      MatchingSorted(names, query);
      Matching(names, query)
    }

    /** `list_callees`: the distinct callees of `fnName`, sorted, or nothing
      when it has no entry. */
    function ListCallees(fnName: string): (r: seq<string>)
      ensures forall x :: x in r <==> x in Get(calls, fnName)
      ensures SortedBy(r, Le) && Distinct(r)
      ensures fnName !in calls.vals ==> r == []
    {
      LeTotalPreorder();
      SortedSet(Get(calls, fnName), Le)
    }

    /** `who_calls_symbol_menu`: one line per caller record of `symbol`, the
      first 400. */
    function WhoCallsSymbolMenu(symbol: string): (r: seq<string>)
      ensures |r| == Min(|Get(calledBySites, symbol)|, 400)
      ensures forall i :: 0 <= i < |r| ==> r[i] == CallerLabel(Get(calledBySites, symbol)[i])
    {
      var items := Take(Get(calledBySites, symbol), 400);
      seq(|items|, i requires 0 <= i < |items| => CallerLabel(items[i]))
    }

    function DescribeCurrent(): (r: string)
      reads this
      ensures current.None? <==> r == "(no selection)"
    {
      Describe(current)
    }

    method SetCurrentFunction(fnName: string)
      modifies this
      requires Valid()
      ensures Valid() && bookmarks == old(bookmarks)
      ensures State() == Pushed(old(State()), FunctionView(fnName, LocHint(|Get(functions, fnName)|)))
    {
      var locs := Get(functions, fnName);
      var locHint := if |locs| > 0 then NatToString(|locs|) + " defs" else "no def";
      Push(FunctionView(fnName, locHint));
    }

    /** `open_definition`: the picked definition, parsed back from its menu
      line, becomes the current view. */
    method OpenDefinition(fnName: string, choice: Option<nat>)
      modifies this
      requires Valid()
      requires forall d :: d in Get(functions, fnName) ==> d.startLine >= 0
      ensures Valid() && bookmarks == old(bookmarks)
      ensures Get(functions, fnName) == [] ==> State() == old(State())
      ensures PickedDefinition(Get(functions, fnName), choice).None? ==> State() == old(State())
      ensures PickedDefinition(Get(functions, fnName), choice).Some? ==>
                var d := PickedDefinition(Get(functions, fnName), choice).value;
                State() == Pushed(old(State()), DefinitionView(fnName, d.file, d.startLine))
    {
      var locs := Get(functions, fnName);
      if locs == [] {
        return;
      }
      var shown := Take(locs, 80);
      var menu := seq(|shown|, i requires 0 <= i < |shown| => DefinitionLabel(shown[i]));
      var picked := Pick(menu, choice);
      if picked.None? {
        return;
      }
      var d := shown[choice.value];
      DefinitionLabelRoundTrip(d);
      var parsed := ParseDefinitionLabel(picked.value);
      var filePart, startLine := parsed.value.0, parsed.value.1;
      Push(DefinitionView(fnName, filePart, startLine));
    }

    /** `jump_to_definition_of_symbol` */
    method JumpToDefinitionOfSymbol(symbol: string, choice: Option<nat>)
      modifies this
      requires Valid()
      requires forall d :: d in Get(functions, symbol) ==> d.startLine >= 0
      ensures Valid() && bookmarks == old(bookmarks)
      ensures symbol !in functions.vals ==> State() == old(State())
      ensures PickedDefinition(Get(functions, symbol), choice).None? ==> State() == old(State())
      ensures PickedDefinition(Get(functions, symbol), choice).Some? ==>
                var d := PickedDefinition(Get(functions, symbol), choice).value;
                State() == Pushed(old(State()), DefinitionView(symbol, d.file, d.startLine))
    {
      if symbol !in functions.vals {
        return;
      }
      OpenDefinition(symbol, choice);
    }

    /** `jump_callsite`: count the callees of `fnName`'s sites, let the user
      pick a callee and then one of its sites, and make that site current.
      The callee is read back from its menu line with `CalleeOfLabel`. */
    method JumpCallsite(fnName: string, calleePick: Option<nat>, sitePick: Option<nat>)
      modifies this
      requires Valid()
      ensures Valid() && bookmarks == old(bookmarks)
      ensures Get(callSites, fnName) == [] ==> State() == old(State())
      ensures PickedSite(Get(callSites, fnName), calleePick, sitePick).None? ==> State() == old(State())
      ensures PickedSite(Get(callSites, fnName), calleePick, sitePick).Some? ==>
                State() == Pushed(old(State()), CallsiteView(fnName, PickedSite(Get(callSites, fnName), calleePick, sitePick).value))
    {
      var sites := Get(callSites, fnName);
      if sites == [] {
        return;
      }
      var counts := CountCallees(sites);
      CountOrderTotal();
      var entries := Sort(CountItems(counts), CountOrder);
      var shownEntries := Take(entries, 120);
      var calleeMenu := CalleeLabels(shownEntries);
      var chosen := Pick(calleeMenu, calleePick);
      if chosen.None? {
        return;
      }
      var callee := CalleeOfLabel(chosen.value);
      CalleeLabelRoundTrip(shownEntries[calleePick.value]);
      assert PickedCallee(sites, calleePick) == Some(callee);

      var chosenSites := SitesCalling(sites, callee);
      var shownSites := Take(chosenSites, 300);
      var siteMenu := SiteLabels(shownSites);
      var pickedSite := Pick(siteMenu, sitePick);
      if pickedSite.None? {
        return;
      }
      var s := shownSites[sitePick.value];
      assert s in chosenSites;
      SiteLabelRoundTrip(s);
      var parsed := ParseSiteLabel(pickedSite.value);
      var filePart, line, col := parsed.value.0, parsed.value.1, parsed.value.2;
      Push(View("callsite", fnName + " -> " + callee, filePart + ":" + IntToString(line) + ":" + IntToString(col),
                None, Some(filePart), Some(line), Some(col), Some(fnName), Some(callee)));
      assert CallsiteView(fnName, s) == View("callsite", fnName + " -> " + callee, filePart + ":" + IntToString(line) + ":" + IntToString(col),
                None, Some(filePart), Some(line), Some(col), Some(fnName), Some(callee));
    }
  }
}
