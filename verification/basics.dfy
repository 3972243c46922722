/** Values shared by every part of the model: optional and error-carrying
    results, and the JSON-like values that travel between the HTTP layer, the
    prompt builders and the generative backend. */
module Basics {

  datatype Option<+T> = None | Some(value: T)

  datatype Result<+T, +E> = Ok(value: T) | Err(error: E)

  /** A decoded JSON value, as the Python code receives it from `request.json`
      or builds it as a dict/list literal. Numbers are integers only. */
  datatype Value =
    | Null
    | Bool(b: bool)
    | Num(n: int)
    | Str(s: string)
    | List(items: seq<Value>)
    | Dict(fields: map<string, Value>)

  /** Python truthiness: `None`, `False`, `0`, `""`, `[]` and `{}` are falsy. */
  predicate Truthy(v: Value)
  {
    match v
    case Null => false
    case Bool(b) => b
    case Num(n) => n != 0
    case Str(s) => s != ""
    case List(xs) => xs != []
    case Dict(m) => m != map[]
  }

  /** `d.get(key, default)` on a dict. */
  function Get(m: map<string, Value>, key: string, default: Value): Value
  {
    if key in m then m[key] else default
  }

  /** A transcript turn `{'role': role, 'parts': parts}`. */
  function Turn(role: string, parts: seq<Value>): Value
  {
    Dict(map["role" := Str(role), "parts" := List(parts)])
  }

  /** Python's `not x` test on an optional configuration string (None or ""). */
  predicate Present(o: Option<string>)
  {
    o.Some? && o.value != ""
  }

  /** Two sequence facts the proofs use at many element types. */
  lemma DropConcat<T>(a: seq<T>, b: seq<T>)
    requires a != []
    ensures (a + b)[1..] == a[1..] + b
  {
  }

  lemma ConsTail<T>(xs: seq<T>)
    requires xs != []
    ensures [xs[0]] + xs[1..] == xs
  {
  }

  lemma ConsEqual<T>(x: seq<T>, h: T, t: seq<T>, ys: seq<T>)
    requires x == [h] + t && ys != [] && h == ys[0] && t == ys[1..]
    ensures x == ys
  {
  }

  /** Regroupings of a concatenation, stated once for every element type. */
  lemma RegroupMiddle<T>(pre: seq<T>, a: seq<T>, b: seq<T>, c: seq<T>, d: seq<T>, post: seq<T>)
    ensures pre + (a + b + c + d) + post == pre + a + (b + c) + d + post
  {
  }

  lemma RegroupTail<T>(a: seq<T>, b: seq<T>, c: seq<T>, d: seq<T>, e: seq<T>)
    ensures a + b + c + d + e == [] + a + b + c + (d + e)
  {
  }

  /** A slice of a slice. */
  lemma SubSlice<T>(s: seq<T>, p: nat, w: seq<T>, a: nat, b: nat)
    requires p + |w| <= |s| && s[p..p + |w|] == w && a <= b <= |w|
    ensures s[p + a..p + b] == w[a..b]
  {
    forall i | 0 <= i < b - a ensures s[p + a..p + b][i] == w[a..b][i] {
      assert s[p..p + |w|][a + i] == w[a + i];
    }
  }

  /** Where the four parts of `o + x + c + t` sit when the whole is
      written at `p`. */
  lemma FourPieces<T>(s: seq<T>, p: nat, o: seq<T>, x: seq<T>, c: seq<T>, t: seq<T>)
    requires p + |o + x + c + t| <= |s| && s[p..p + |o + x + c + t|] == o + x + c + t
    ensures var i, j := p + |o|, p + |o| + |x|;
      && s[p..i] == o && s[i..j] == x && s[j..j + |c|] == c && s[j + |c|..j + |c| + |t|] == t
  {
    TwoPieces(s, p, o + x + c, t);
    TwoPieces(s, p, o + x, c);
    TwoPieces(s, p, o, x);
  }

  lemma TwoPieces<T>(s: seq<T>, p: nat, u: seq<T>, v: seq<T>)
    requires p + |u + v| <= |s| && s[p..p + |u + v|] == u + v
    ensures s[p..p + |u|] == u && s[p + |u|..p + |u| + |v|] == v
  {
    SubSlice(s, p, u + v, 0, |u|);
    SubSlice(s, p, u + v, |u|, |u| + |v|);
    assert (u + v)[0..|u|] == u && (u + v)[|u|..|u| + |v|] == v;
  }

  /** Where a suffix written as `u + v` puts its two parts. */
  lemma SuffixSplit<T>(s: seq<T>, p: nat, u: seq<T>, v: seq<T>)
    requires p <= |s| && s[p..] == u + v
    ensures p + |u| <= |s| && s[p..p + |u|] == u && s[p + |u|..] == v
  {
    assert forall i :: 0 <= i < |u| ==> s[p..p + |u|][i] == s[p..][i] == u[i];
    assert forall i :: 0 <= i < |v| ==> s[p + |u|..][i] == s[p..][|u| + i] == v[i];
  }
}
