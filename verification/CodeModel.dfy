/** The code-intelligence domain values (codeintel/domain/models.py). */
module CodeModel {
  datatype SymbolKind =
    | ClassKind | FunctionKind | MethodKind | InterfaceKind | StructKind | EnumKind | TraitKind
    | ImportKind | ModuleKind

  datatype EdgeKind = Defines | Imports | Calls | Inherits

  datatype Symbol = Symbol(kind: SymbolKind, name: string, qualifiedName: string,
                           startLine: nat, endLine: nat, startByte: nat, endByte: nat)

  /** A reference captured while parsing; `fromQualifiedName` is the enclosing definition. */
  datatype Reference = Reference(kind: EdgeKind, fromQualifiedName: string, targetName: string, line: nat)

  /** A syntax-aligned slice of a source. */
  datatype Chunk = Chunk(headerPath: string, kind: SymbolKind, startLine: nat, endLine: nat,
                         startByte: nat, endByte: nat, suspect: bool)

  const MODULE_SCOPE := "<module>"
}
