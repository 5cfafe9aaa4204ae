// The symbol table: scopes that are entered and left, each with the symbols defined in it.
module SymbolTables {
  import opened Common
  import opened ScopeStack

  datatype SymbolKind = Variable | Constant | Function | Parameter | Type | Module

  // What resolution looks at. `arity` is the number of parameters of a function; the built-in
  // functions take anything.
  datatype Symbol = Symbol(kind: SymbolKind, isMut: bool, arity: nat, builtin: bool)

  type Scopes = seq<map<string, Symbol>>

  // A name keeps the first symbol it gets in a scope.
  function WithSymbol(scopes: Scopes, x: string, s: Symbol): (r: Scopes)
    requires scopes != []
    ensures |r| == |scopes| && r[..|r| - 1] == scopes[..|scopes| - 1]
  {
    if x in scopes[|scopes| - 1] then scopes else Declare(scopes, x, s)
  }

  predicate DefinedHere(scopes: Scopes, x: string)
    requires scopes != []
  {
    x in scopes[|scopes| - 1]
  }

  class SymbolTable {
    var scopes: Scopes

    ghost predicate Valid()
      reads this
    {
      scopes != []
    }

    constructor ()
      ensures Valid() && scopes == [map[]]
    {
      scopes := [map[]];
    }

    method EnterScope()
      modifies this
      ensures Valid() && scopes == old(scopes) + [map[]]
    {
      scopes := scopes + [map[]];
    }

    // The global scope is never left.
    method LeaveScope()
      requires |scopes| > 1
      modifies this
      ensures Valid() && scopes == old(scopes)[..|old(scopes)| - 1]
    {
      scopes := scopes[..|scopes| - 1];
    }

    method Define(x: string, s: Symbol) returns (inserted: bool)
      requires Valid()
      modifies this
      ensures Valid() && scopes == WithSymbol(old(scopes), x, s) && inserted == !DefinedHere(old(scopes), x)
    {
      var top := |scopes| - 1;
      inserted := x !in scopes[top];
      if inserted {
        scopes := scopes[top := scopes[top][x := s]];
      }
    }

    method Find(x: string) returns (found: Option<Symbol>)
      requires Valid()
      ensures found == ScopeStack.Lookup(scopes, x)
    {
      var n := |scopes|;
      while n > 0
        invariant 0 <= n <= |scopes|
        invariant DepthBelow(scopes, x, n) == Depth(scopes, x)
      {
        if x in scopes[n - 1] {
          return Some(scopes[n - 1][x]);
        }
        n := n - 1;
      }
      found := None;
    }
  }
}
