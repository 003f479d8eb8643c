/** The GUI presenter: the back/forward stacks of symbol names it keeps in a
    `NavigationState`, the outline it holds for the selected file, and the
    case-insensitive filter behind the search box. The backend and the window
    are outside the model: the outline the backend lists for a file is a
    parameter, `str.lower` is a parameter, and what the presenter hands the
    window is returned. */
module Presenter {
  import opened Wrappers
  import opened PyStr
  import opened Sorting
  import opened Base

  /** The value of a `NavigationState`. */
  datatype Nav = Nav(current: Option<string>, back: seq<string>, forward: seq<string>)

  /** Only a truthy current symbol is ever pushed, so neither stack holds an
      empty name. */
  predicate NavValid(n: Nav) {
    && (forall i :: 0 <= i < |n.back| ==> n.back[i] != "")
    && (forall i :: 0 <= i < |n.forward| ==> n.forward[i] != "")
  }

  // ---------------------------------------------------------------------------
  // The history rules
  // ---------------------------------------------------------------------------

  /** `navigate_to(symbol, push_history)` on the stacks: the old symbol is
      pushed, and the forward stack cleared, only when a push is asked for
      and a different, non-empty symbol is current; the target always
      becomes current. */
  function Navigate(n: Nav, symbol: string, pushHistory: bool): (r: Nav)
    ensures NavValid(n) ==> NavValid(r)
  {
    if pushHistory && Truthy(n.current) && n.current.value != symbol then
      Nav(Some(symbol), n.back + [n.current.value], [])
    else
      n.(current := Some(symbol))
  }

  /** `on_back`: nothing without a back entry or a current symbol; otherwise
      the current symbol goes on the forward stack and the top of the back
      stack becomes current. */
  function Back(n: Nav): (r: Nav)
    ensures NavValid(n) ==> NavValid(r)
  {
    if n.back == [] || !Truthy(n.current) then n
    else Nav(Some(n.back[|n.back| - 1]), n.back[..|n.back| - 1], n.forward + [n.current.value])
  }

  /** `on_forward`: the mirror image of `on_back`. */
  function Forward(n: Nav): (r: Nav)
    ensures NavValid(n) ==> NavValid(r)
  {
    if n.forward == [] || !Truthy(n.current) then n
    else Nav(Some(n.forward[|n.forward| - 1]), n.back + [n.current.value], n.forward[..|n.forward| - 1])
  }

  /** The target always becomes current; the back stack changes exactly when
      a push is asked for and a different, non-empty symbol is current, and
      then it gains that symbol on top and the forward stack is emptied;
      otherwise neither stack changes. */
  lemma NavigateRules(n: Nav, symbol: string, pushHistory: bool)
    ensures Navigate(n, symbol, pushHistory).current == Some(symbol)
    ensures Navigate(n, symbol, pushHistory).back != n.back
            <==> pushHistory && Truthy(n.current) && n.current.value != symbol
    ensures pushHistory && Truthy(n.current) && n.current.value != symbol ==>
              && Navigate(n, symbol, pushHistory).back == n.back + [n.current.value]
              && Navigate(n, symbol, pushHistory).forward == []
    ensures !(pushHistory && Truthy(n.current) && n.current.value != symbol) ==>
              Navigate(n, symbol, pushHistory).forward == n.forward
  {
    if pushHistory && Truthy(n.current) && n.current.value != symbol {
      assert |Navigate(n, symbol, pushHistory).back| == |n.back| + 1;
    }
  }

  /** Navigating again to the symbol just navigated to changes nothing,
      whether or not a push is asked for. */
  lemma NavigateAgain(n: Nav, symbol: string, first: bool, again: bool)
    ensures Navigate(Navigate(n, symbol, first), symbol, again) == Navigate(n, symbol, first)
  {
  }

  /** `on_back` moves exactly when there is a back entry and a current symbol. */
  lemma BackMovesIff(n: Nav)
    ensures Back(n) != n <==> n.back != [] && Truthy(n.current)
  {
    if n.back != [] && Truthy(n.current) {
      assert |Back(n).forward| == |n.forward| + 1;
    }
  }

  /** `on_forward` moves exactly when there is a forward entry and a current symbol. */
  lemma ForwardMovesIff(n: Nav)
    ensures Forward(n) != n <==> n.forward != [] && Truthy(n.current)
  {
    if n.forward != [] && Truthy(n.current) {
      assert |Forward(n).back| == |n.back| + 1;
    }
  }

  /** `on_back` followed by `on_forward` restores the state exactly. */
  lemma BackThenForward(n: Nav)
    requires NavValid(n) && n.back != [] && Truthy(n.current)
    ensures Forward(Back(n)) == n
  {
    var b := Back(n);
    assert b.current.value == n.back[|n.back| - 1] != "";
    assert b.back + [b.current.value] == n.back;
    assert b.forward[..|b.forward| - 1] == n.forward;
  }

  /** `on_forward` followed by `on_back` restores the state exactly. */
  lemma ForwardThenBack(n: Nav)
    requires NavValid(n) && n.forward != [] && Truthy(n.current)
    ensures Back(Forward(n)) == n
  {
    var f := Forward(n);
    assert f.current.value == n.forward[|n.forward| - 1] != "";
    assert f.forward + [f.current.value] == n.forward;
    assert f.back[..|f.back| - 1] == n.back;
  }

  /** The symbols `on_back` and `on_forward` can reach, oldest first: the
      back stack, the current symbol, then the forward stack from its top. */
  function Timeline(n: Nav): seq<string> {
    n.back + (if n.current.Some? then [n.current.value] else []) + Reversed(n.forward)
  }

  /** `on_back` only moves the current position one step back along the timeline. */
  lemma BackKeepsTimeline(n: Nav)
    ensures Timeline(Back(n)) == Timeline(n)
  {
    if n.back != [] && Truthy(n.current) {
      var k := |n.back|;
      var p, prev, cur := n.back[..k - 1], n.back[k - 1], n.current.value;
      ReversedSnoc(n.forward, cur);
      assert n.back == p + [prev];
      calc {
        Timeline(Back(n));
        p + [prev] + Reversed(n.forward + [cur]);
        p + [prev] + ([cur] + Reversed(n.forward));
        Timeline(n);
      }
    }
  }

  /** `on_forward` only moves the current position one step forward along the timeline. */
  lemma ForwardKeepsTimeline(n: Nav)
    ensures Timeline(Forward(n)) == Timeline(n)
  {
    if n.forward != [] && Truthy(n.current) {
      var k := |n.forward|;
      var p, next, cur := n.forward[..k - 1], n.forward[k - 1], n.current.value;
      ReversedSnoc(p, next);
      assert n.forward == p + [next];
      calc {
        Timeline(Forward(n));
        n.back + [cur] + [next] + Reversed(p);
        n.back + [cur] + ([next] + Reversed(p));
        Timeline(n);
      }
    }
  }

  // ---------------------------------------------------------------------------
  // The outline filter
  // ---------------------------------------------------------------------------


  /** `[s for s in outline if q in s.name.lower()]`: the matching entries, each
      as often as in `outline`, in their order there, and nothing else. */
  function MatchingEntries(outline: seq<SymbolSummary>, q: string, lower: string -> string): (r: seq<SymbolSummary>)
    ensures Subsequence(r, outline)
    ensures forall s :: multiset(r)[s] == if Contains(lower(s.name), q) then multiset(outline)[s] else 0
    ensures forall s :: s in r <==> s in outline && Contains(lower(s.name), q)
  {
    if outline == [] then []
    else
      var rest := MatchingEntries(outline[1..], q, lower);
      assert outline == [outline[0]] + outline[1..];
      if Contains(lower(outline[0].name), q) then
        assert ([outline[0]] + rest)[1..] == rest;
        [outline[0]] + rest
      else
        rest
  }

  /** Filtering a concatenation filters each part. */
  lemma {:induction false} MatchingAppend(a: seq<SymbolSummary>, b: seq<SymbolSummary>, q: string, lower: string -> string)
    ensures MatchingEntries(a + b, q, lower) == MatchingEntries(a, q, lower) + MatchingEntries(b, q, lower)
  {
    if a == [] {
      assert a + b == b;
    } else {
      assert (a + b)[1..] == a[1..] + b;
      MatchingAppend(a[1..], b, q, lower);
    }
  }

  /** Every text contains the empty query. */
  lemma {:induction false} ContainsEmpty(s: string)
    ensures Contains(s, "")
  {
    assert StartsWith(s, "");
  }

  /** An empty query matches every entry: the early return for a blank query
      shows what the filter would. */
  lemma {:induction false} MatchingEmptyQuery(outline: seq<SymbolSummary>, lower: string -> string)
    ensures MatchingEntries(outline, "", lower) == outline
  {
    if outline != [] {
      ContainsEmpty(lower(outline[0].name));
      MatchingEmptyQuery(outline[1..], lower);
      assert outline == [outline[0]] + outline[1..];
    }
  }

  // ---------------------------------------------------------------------------
  // The presenter
  // ---------------------------------------------------------------------------

  /** The `NavigationState` dataclass, whose stacks the presenter changes in place. */
  class NavigationState {
    var currentSymbol: Option<string>
    var backStack: seq<string>
    var forwardStack: seq<string>

    constructor()
      ensures currentSymbol == None && backStack == [] && forwardStack == []
    {
      currentSymbol := None;
      backStack := [];
      forwardStack := [];
    }

    function Value(): Nav
      reads this
    {
      Nav(currentSymbol, backStack, forwardStack)
    }
  }

  class CodeMapPresenter {
    const nav: NavigationState
    /** `str.lower` */
    const lower: string -> string

    var currentFile: Option<string>
    var fullOutline: seq<SymbolSummary>

    ghost predicate Valid()
      reads this, nav
    {
      NavValid(nav.Value())
    }

    /** A presenter with no file selected and an empty navigation state. */
    constructor(lower: string -> string)
      ensures Valid() && fresh(nav) && nav.Value() == Nav(None, [], [])
      ensures this.lower == lower && currentFile == None && fullOutline == []
    {
      this.lower := lower;
      nav := new NavigationState();
      currentFile := None;
      fullOutline := [];
    }

    /** `navigate_to`: the history rules; `status` is the status-bar text. The
      backend's `one_hop` answer goes only to the window. */
    method NavigateTo(symbol: string, pushHistory: bool) returns (status: string)
      modifies nav
      requires Valid()
      ensures Valid() && nav.Value() == Navigate(old(nav.Value()), symbol, pushHistory)
      ensures status == (if Truthy(currentFile) then currentFile.value + "  |  " else "") + symbol
    {
      if pushHistory && nav.currentSymbol.Some? && nav.currentSymbol.value != "" && nav.currentSymbol.value != symbol {
        nav.backStack := nav.backStack + [nav.currentSymbol.value];
        nav.forwardStack := [];
      }
      nav.currentSymbol := Some(symbol);
      var filePart := if currentFile.Some? && currentFile.value != "" then currentFile.value + "  |  " else "";
      status := filePart + symbol;
    }

    /** `on_back` */
    method OnBack()
      modifies nav
      requires Valid()
      ensures Valid() && nav.Value() == Back(old(nav.Value()))
    {
      if nav.backStack == [] || nav.currentSymbol.None? || nav.currentSymbol.value == "" {
        return;
      }
      var prev := nav.backStack[|nav.backStack| - 1];
      nav.backStack := nav.backStack[..|nav.backStack| - 1];
      nav.forwardStack := nav.forwardStack + [nav.currentSymbol.value];
      var status := NavigateTo(prev, false);
    }

    /** `on_forward` */
    method OnForward()
      modifies nav
      requires Valid()
      ensures Valid() && nav.Value() == Forward(old(nav.Value()))
    {
      if nav.forwardStack == [] || nav.currentSymbol.None? || nav.currentSymbol.value == "" {
        return;
      }
      var next := nav.forwardStack[|nav.forwardStack| - 1];
      nav.forwardStack := nav.forwardStack[..|nav.forwardStack| - 1];
      nav.backStack := nav.backStack + [nav.currentSymbol.value];
      var status := NavigateTo(next, false);
    }

    /** `on_outline_selected`: a blank line is ignored; otherwise the stripped
      text is navigated to with a push. */
    method OnOutlineSelected(text: string)
      modifies nav
      requires Valid()
      ensures Valid()
      ensures Strip(text) == "" ==> nav.Value() == old(nav.Value())
      ensures Strip(text) != "" ==> nav.Value() == Navigate(old(nav.Value()), Strip(text), true)
    {
      var symbol := Strip(text);
      if symbol == "" {
        return;
      }
      var status := NavigateTo(symbol, true);
    }

    /** `on_file_selected`: `outline` is what the backend's `list_outline`
      returns for the file; `status` is the status-bar text. */
    method OnFileSelected(filename: string, outline: seq<SymbolSummary>) returns (status: string)
      modifies this
      requires Valid()
      ensures Valid() && nav.Value() == old(nav.Value())
      ensures currentFile == Some(filename) && fullOutline == outline
      ensures status == "Selected file: " + filename
    {
      currentFile := Some(filename);
      status := "Selected file: " + filename;
      fullOutline := outline;
    }

    /** `on_search_changed(query)`: the outline entries the window is given.
      A query that is blank once stripped and lower-cased shows the whole
      outline; any other shows exactly the entries whose lower-cased name
      contains it, in outline order. */
    function OnSearchChanged(query: string): (shown: seq<SymbolSummary>)
      reads this
      ensures var q := lower(Strip(query));
        && (q == "" ==> shown == fullOutline)
        && (q != "" ==> Subsequence(shown, fullOutline))
        && (q != "" ==> forall s :: multiset(shown)[s] == if Contains(lower(s.name), q) then multiset(fullOutline)[s] else 0)
    {
      var q := lower(Strip(query));
      if q == "" then fullOutline else MatchingEntries(fullOutline, q, lower)
    }
  }
}
