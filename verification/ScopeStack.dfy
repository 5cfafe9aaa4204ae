// A stack of scopes, searched from the innermost outward.
module ScopeStack {
  import opened Common

  // The innermost of the first n scopes that binds x, or -1.
  function DepthBelow<T>(scopes: seq<map<string, T>>, x: string, n: nat): (d: int)
    requires n <= |scopes|
    ensures -1 <= d < n
    ensures d >= 0 ==> x in scopes[d]
    ensures forall i :: d < i < n ==> x !in scopes[i]
  {
    if n == 0 then -1
    else if x in scopes[n - 1] then n - 1
    else DepthBelow(scopes, x, n - 1)
  }

  function Depth<T>(scopes: seq<map<string, T>>, x: string): (d: int)
    ensures -1 <= d < |scopes|
    ensures d >= 0 ==> x in scopes[d]
    ensures forall i :: d < i < |scopes| ==> x !in scopes[i]
  {
    DepthBelow(scopes, x, |scopes|)
  }

  function Lookup<T>(scopes: seq<map<string, T>>, x: string): Option<T> {
    var d := Depth(scopes, x);
    if d < 0 then None else Some(scopes[d][x])
  }

  function Declare<T>(scopes: seq<map<string, T>>, x: string, v: T): seq<map<string, T>>
    requires scopes != []
  {
    var d := |scopes| - 1;
    scopes[d := scopes[d][x := v]]
  }

  lemma LookupDeclared<T>(scopes: seq<map<string, T>>, x: string, v: T, y: string)
    requires scopes != []
    ensures Lookup(Declare(scopes, x, v), y) == if y == x then Some(v) else Lookup(scopes, y)
  {
    var after := Declare(scopes, x, v);
    var n := |scopes| - 1;
    if y == x {
      assert DepthBelow(after, y, n + 1) == n;
    } else if y !in scopes[n] {
      DepthSame(scopes, after, y, n);
    }
  }

  lemma {:induction false} DepthSame<T>(a: seq<map<string, T>>, b: seq<map<string, T>>, y: string, n: nat)
    requires n <= |a| && n <= |b| && a[..n] == b[..n]
    ensures DepthBelow(a, y, n) == DepthBelow(b, y, n)
    decreases n
  {
    if n > 0 {
      assert a[n - 1] == a[..n][n - 1] == b[..n][n - 1] == b[n - 1];
      assert a[..n - 1] == a[..n][..n - 1] == b[..n][..n - 1] == b[..n - 1];
      DepthSame(a, b, y, n - 1);
    }
  }

  lemma LookupInner<T>(scopes: seq<map<string, T>>, top: map<string, T>, y: string)
    ensures Lookup(scopes + [top], y) == if y in top then Some(top[y]) else Lookup(scopes, y)
  {
    var inner := scopes + [top];
    if y !in top {
      assert inner[..|scopes|] == scopes == scopes[..|scopes|];
      DepthSame(scopes, inner, y, |scopes|);
    }
  }
}
