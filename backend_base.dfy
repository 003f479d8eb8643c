/** The value types the GUI exchanges with its backend. */
module Base {

  /** The kind of a symbol. */
  datatype SymbolKind = Function | Struct | Macro | Typedef | Variable | UnknownKind

  /** A symbol of an outline; its kind defaults to unknown. */
  datatype SymbolSummary = SymbolSummary(name: string, kind: SymbolKind)

  /** A symbol with its direct callers and callees and the call-site lines
      that mention it. */
  datatype OneHop = OneHop(center: string, callers: seq<string>, callees: seq<string>, callsites: seq<string>)

  datatype ProjectInfo = ProjectInfo(rootDir: string, workspaceDir: string, indexJsonPath: string)
}
