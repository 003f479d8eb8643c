/** The part of a tree-sitter C syntax tree that the indexer reads, its
    pre-order walk, and the two name lookups built on it. The parser itself is
    not modelled: a tree is a value handed in. The text of a node is its byte
    span of the source file, decoded by an opaque `decode` function standing
    for UTF-8 decoding with replacement characters. */
module SyntaxTree {
  import opened Wrappers

  newtype byte = b: int | 0 <= b < 256

  /** A syntax node: its grammar type, the children reached through the
      named fields `declarator` and `function` (absent when the field is not
      there), its ordered children, its byte span and its start and end
      positions as 0-based rows and columns. */
  datatype Node = Node(
    kind: string,
    declarator: Option<Node>,
    function_: Option<Node>,
    children: seq<Node>,
    startByte: nat,
    endByte: nat,
    startRow: nat,
    startCol: nat,
    endRow: nat)

  const Identifier := "identifier"
  const Unknown := "<unknown>"

  /** The nodes of the tree rooted at `n` in pre-order: a node before its
      children, children left to right. */
  function Walk(n: Node): (r: seq<Node>)
    ensures |r| >= 1 && r[0] == n
    decreases n, 1
  {
    [n] + WalkAll(n.children)
  }

  function WalkAll(ns: seq<Node>): seq<Node>
    decreases ns, 0
  {
    if ns == [] then [] else Walk(ns[0]) + WalkAll(ns[1..])
  }

  /** The first node of a sequence that has the given type. */
  function FirstInSeq(ns: seq<Node>, kind: string): (r: Option<Node>)
    ensures r.None? <==> forall j :: 0 <= j < |ns| ==> ns[j].kind != kind
    ensures r.Some? ==> exists i :: 0 <= i < |ns| && ns[i] == r.value && r.value.kind == kind
                                   && forall j :: 0 <= j < i ==> ns[j].kind != kind
  {
    if ns == [] then None
    else if ns[0].kind == kind then Some(ns[0])
    else
      var r := FirstInSeq(ns[1..], kind);
      assert r.Some? ==> exists i :: 0 <= i < |ns| - 1 && ns[1..][i] == r.value
                                   && forall j :: 0 <= j < i ==> ns[1..][j].kind != kind;
      r
  }

  /** The first node of the given type, found by recursion on the tree: the
      node itself, or else the first match in its first child that has one. */
  function FirstOfKind(n: Node, kind: string): Option<Node>
    decreases n, 1
  {
    if n.kind == kind then Some(n) else FirstOfKindAll(n.children, kind)
  }

  function FirstOfKindAll(ns: seq<Node>, kind: string): Option<Node>
    decreases ns, 0
  {
    if ns == [] then None
    else
      match FirstOfKind(ns[0], kind)
      case Some(m) => Some(m)
      case None => FirstOfKindAll(ns[1..], kind)
  }

  lemma {:induction false} FirstInSeqAppend(a: seq<Node>, b: seq<Node>, kind: string)
    ensures FirstInSeq(a + b, kind) == if FirstInSeq(a, kind).Some? then FirstInSeq(a, kind) else FirstInSeq(b, kind)
  {
    if a != [] {
      assert (a + b)[1..] == a[1..] + b;
      FirstInSeqAppend(a[1..], b, kind);
    } else {
      assert a + b == b;
    }
  }

  /** The tree recursion finds the same node as a scan of the pre-order walk. */
  lemma {:induction false} FirstOfKindIsFirstInWalk(n: Node, kind: string)
    ensures FirstOfKind(n, kind) == FirstInSeq(Walk(n), kind)
    decreases n, 1
  {
    FirstInSeqAppend([n], WalkAll(n.children), kind);
    FirstOfKindAllIsFirstInWalk(n.children, kind);
  }

  lemma {:induction false} FirstOfKindAllIsFirstInWalk(ns: seq<Node>, kind: string)
    ensures FirstOfKindAll(ns, kind) == FirstInSeq(WalkAll(ns), kind)
    decreases ns, 0
  {
    if ns != [] {
      FirstOfKindIsFirstInWalk(ns[0], kind);
      FirstOfKindAllIsFirstInWalk(ns[1..], kind);
      FirstInSeqAppend(Walk(ns[0]), WalkAll(ns[1..]), kind);
    }
  }

  /** `code[start:end]` with Python's clamping of out-of-range bounds. */
  function Slice(code: seq<byte>, start: nat, end: nat): (r: seq<byte>)
    ensures |r| <= |code|
    ensures forall i :: 0 <= i < |r| ==> start + i < end && start + i < |code| && r[i] == code[start + i]
  {
    var e := if end < |code| then end else |code|;
    if start < e then code[start..e] else []
  }

  /** The decoded source text of a node. */
  function Text(n: Node, code: seq<byte>, decode: seq<byte> -> string): string {
    decode(Slice(code, n.startByte, n.endByte))
  }

  /** The tree recursion finds the first node of the pre-order walk that has
      the type, and finds none exactly when no node of the walk has it. */
  lemma FirstOfKindMeaning(n: Node, kind: string)
    ensures FirstOfKind(n, kind).None? <==> forall m :: m in Walk(n) ==> m.kind != kind
    ensures FirstOfKind(n, kind).Some? ==>
              exists i :: 0 <= i < |Walk(n)| && Walk(n)[i] == FirstOfKind(n, kind).value && Walk(n)[i].kind == kind
                          && forall j :: 0 <= j < i ==> Walk(n)[j].kind != kind
  {
    FirstOfKindIsFirstInWalk(n, kind);
    var w := Walk(n);
    assert (forall m :: m in w ==> m.kind != kind) <==> (forall j :: 0 <= j < |w| ==> w[j].kind != kind);
  }

  /** `find_identifier_in_subtree`: the text of the first `identifier` node of
      the pre-order walk, or `None` when the subtree has none. */
  method FindIdentifierInSubtree(node: Node, code: seq<byte>, decode: seq<byte> -> string) returns (r: Option<string>)
    ensures r == match FirstOfKind(node, Identifier)
                 case None => None
                 case Some(id) => Some(Text(id, code, decode))
  {
    var nodes := Walk(node);
    FirstOfKindIsFirstInWalk(node, Identifier);
    for i := 0 to |nodes|
      invariant FirstInSeq(nodes[i..], Identifier) == FirstInSeq(nodes, Identifier)
    {
      if nodes[i].kind == Identifier {
        return Some(Text(nodes[i], code, decode));
      }
      assert nodes[i..][1..] == nodes[i + 1..];
    }
    assert nodes[|nodes|..] == [];
    return None;
  }

  /** `get_function_name`: the first identifier of the definition's
      declarator, or `"<unknown>"` when there is no declarator, no identifier
      in it, or the identifier's text is empty. */
  function FunctionName(fnNode: Node, code: seq<byte>, decode: seq<byte> -> string): string {
    match fnNode.declarator
    case None => Unknown
    case Some(decl) =>
      match FirstOfKind(decl, Identifier)
      case None => Unknown
      case Some(id) => if Text(id, code, decode) == "" then Unknown else Text(id, code, decode)
  }

  method GetFunctionName(fnNode: Node, code: seq<byte>, decode: seq<byte> -> string) returns (name: string)
    ensures name == FunctionName(fnNode, code, decode)
  {
    if fnNode.declarator.None? {
      return Unknown;
    }
    var found := FindIdentifierInSubtree(fnNode.declarator.value, code, decode);
    if found.Some? && found.value != "" {
      name := found.value;
    } else {
      name := Unknown;
    }
  }

  /** A function's name is never empty. It is `"<unknown>"` when the
      definition has no declarator or the declarator's subtree holds no
      identifier; otherwise it is the text of the declarator's first
      identifier in pre-order, unless that text is empty. */
  lemma FunctionNameCases(fnNode: Node, code: seq<byte>, decode: seq<byte> -> string)
    ensures FunctionName(fnNode, code, decode) != ""
    ensures fnNode.declarator.None? ==> FunctionName(fnNode, code, decode) == Unknown
    ensures fnNode.declarator.Some? && (forall m :: m in Walk(fnNode.declarator.value) ==> m.kind != Identifier)
            ==> FunctionName(fnNode, code, decode) == Unknown
    ensures fnNode.declarator.Some? ==>
              forall i :: 0 <= i < |Walk(fnNode.declarator.value)|
                          && Walk(fnNode.declarator.value)[i].kind == Identifier
                          && (forall j :: 0 <= j < i ==> Walk(fnNode.declarator.value)[j].kind != Identifier)
                          && Text(Walk(fnNode.declarator.value)[i], code, decode) != ""
                          ==> FunctionName(fnNode, code, decode) == Text(Walk(fnNode.declarator.value)[i], code, decode)
  {
    if fnNode.declarator.Some? {
      FirstOfKindIsFirstInWalk(fnNode.declarator.value, Identifier);
    }
  }
}
