/** Decoded JSON documents and the few Python operations the extraction
    scripts apply to them: `k in x`, `x[k]`, `x.get(k, d)`, iteration and
    truthiness. Each operation yields the value Python computes or the
    exception Python raises when the value has the wrong shape. */
module Json {

  datatype Option<+T> = None | Some(value: T)
  {
    function GetOr(default: T): T
    {
      if Some? then value else default
    }
  }

  /** A value as `json.load` returns it. An object keeps its keys in
      document order, which is the order a Python dict iterates them in. */
  datatype Json =
    | JNull
    | JBool(b: bool)
    | JInt(i: int)
    | JStr(s: string)
    | JArr(items: seq<Json>)
    | JObj(fields: seq<(string, Json)>)

  /** The exceptions the modelled code can raise on irregular data.
      DecodeError stands for a file that exists but is not a JSON document
      (`json.JSONDecodeError` or `UnicodeDecodeError`, both ValueErrors). */
  datatype Exc = KeyError | TypeError | AttributeError | DecodeError

  /** The outcome of evaluating a Python expression. */
  datatype Py<+T> = Ok(value: T) | Raise(exc: Exc)
  {
    predicate IsFailure()
    {
      Raise?
    }

    function PropagateFailure<U>(): Py<U>
      requires Raise?
    {
      Raise(exc)
    }

    function Extract(): T
      requires Ok?
    {
      value
    }
  }

  /** `bool(j)`: what `if j` and `if not j` test. The falsy values are
      exactly None, False, 0, "", [] and {}. */
  predicate Truthy(j: Json)
    ensures !Truthy(j) <==> j == JNull || j == JBool(false) || j == JInt(0) || j == JStr([]) || j == JArr([]) || j == JObj([])
  {
    match j
    case JNull => false
    case JBool(b) => b
    case JInt(i) => i != 0
    case JStr(s) => s != []
    case JArr(xs) => xs != []
    case JObj(kvs) => kvs != []
  }

  /** The value bound to `k` (the first binding; a decoded object has one). */
  function Lookup(kvs: seq<(string, Json)>, k: string): (r: Option<Json>)
    ensures r.Some? <==> exists i :: 0 <= i < |kvs| && kvs[i].0 == k
    ensures r.Some? ==> exists i :: 0 <= i < |kvs| && kvs[i] == (k, r.value)
  {
    if |kvs| == 0 then None
    else if kvs[0].0 == k then Some(kvs[0].1)
    else Lookup(kvs[1..], k)
  }

  predicate HasKey(kvs: seq<(string, Json)>, k: string)
  {
    Lookup(kvs, k).Some?
  }

  /** `d.get(k, default)` on a value already known to be a dict. */
  function Field(kvs: seq<(string, Json)>, k: string, default: Json): Json
  {
    Lookup(kvs, k).GetOr(default)
  }

  /** `d.values()`, in insertion order. */
  function Values(kvs: seq<(string, Json)>): seq<Json>
  {
    seq(|kvs|, i requires 0 <= i < |kvs| => kvs[i].1)
  }

  /** The object `kvs` with `k` bound to `v`: the first binding of `k` is
      replaced, or the binding is appended when `k` is absent. */
  function Put(kvs: seq<(string, Json)>, k: string, v: Json): (r: seq<(string, Json)>)
    ensures Lookup(r, k) == Some(v)
    ensures forall k' :: k' != k ==> Lookup(r, k') == Lookup(kvs, k')
    ensures r != []
  {
    if |kvs| == 0 then [(k, v)]
    else if kvs[0].0 == k then [(k, v)] + kvs[1..]
    else [kvs[0]] + Put(kvs[1..], k, v)
  }

  /** `k` occurs in `s` as a contiguous substring. */
  predicate IsInfix(k: string, s: string)
  {
    k <= s || (|s| > 0 && IsInfix(k, s[1..]))
  }

  /** `k` occurs in `s` at offset `i`. */
  predicate OccursAt(k: string, s: string, i: int)
  {
    0 <= i && i + |k| <= |s| && s[i..i + |k|] == k
  }

  /** An occurrence past offset 0 is an occurrence in the tail. */
  lemma OccursShift(k: string, s: string, i: int)
    requires |s| > 0 && i > 0
    ensures OccursAt(k, s, i) <==> OccursAt(k, s[1..], i - 1)
  {
    if i + |k| <= |s| {
      var u := s[1..][i - 1..i - 1 + |k|];
      var w := s[i..i + |k|];
      assert forall j :: 0 <= j < |u| ==> u[j] == w[j];
      assert u == w;
    }
  }

  /** `IsInfix` is Python's substring test: `k` occurs at some offset. */
  lemma {:induction false} IsInfixIff(k: string, s: string)
    ensures IsInfix(k, s) <==> exists i :: OccursAt(k, s, i)
    decreases |s|
  {
    if k <= s {
      assert OccursAt(k, s, 0);
    }
    if |s| > 0 {
      var t := s[1..];
      IsInfixIff(k, t);
      if exists i :: OccursAt(k, s, i) {
        var i :| OccursAt(k, s, i);
        if i > 0 {
          OccursShift(k, s, i);
        } else {
          assert k <= s;
        }
      }
      if exists i :: OccursAt(k, t, i) {
        var i :| OccursAt(k, t, i);
        OccursShift(k, s, i + 1);
      }
    } else if exists i :: OccursAt(k, s, i) {
      var i :| OccursAt(k, s, i);
      assert k == [];
    }
  }

  /** `k in x` for a string `k`: a key of a dict, an element of a list, a
      substring of a string; anything else raises TypeError. */
  function Contains(x: Json, k: string): (r: Py<bool>)
    ensures r.Raise? <==> !(x.JObj? || x.JArr? || x.JStr?)
    ensures r.Raise? ==> r.exc == TypeError
    ensures x.JObj? ==> r == Ok(HasKey(x.fields, k))
    ensures x.JArr? ==> (r == Ok(true) <==> exists i :: 0 <= i < |x.items| && x.items[i] == JStr(k))
    ensures x.JStr? ==> (r == Ok(true) <==> exists i :: OccursAt(k, x.s, i))
  {
    match x
    case JObj(kvs) => Ok(HasKey(kvs, k))
    case JArr(xs) => Ok(JStr(k) in xs)
    case JStr(s) => IsInfixIff(k, s); Ok(IsInfix(k, s))
    case _ => Raise(TypeError)
  }

  /** `x[k]` for a string `k`. */
  function Subscript(x: Json, k: string): (r: Py<Json>)
    ensures r.Ok? <==> x.JObj? && HasKey(x.fields, k)
    ensures r.Ok? ==> r.value == Lookup(x.fields, k).value
    ensures r.Raise? ==> (r.exc == KeyError <==> x.JObj?)
    ensures !x.JObj? ==> r == Raise(TypeError)
  {
    match x
    case JObj(kvs) => if HasKey(kvs, k) then Ok(Lookup(kvs, k).value) else Raise(KeyError)
    case _ => Raise(TypeError)
  }

  /** `x.get(k, default)`. */
  function Get(x: Json, k: string, default: Json): (r: Py<Json>)
    ensures r.Ok? <==> x.JObj?
    ensures r.Ok? ==> r.value == Field(x.fields, k, default)
  {
    match x
    case JObj(kvs) => Ok(Field(kvs, k, default))
    case _ => Raise(AttributeError)
  }

  /** The one-character strings that iterating over `s` yields. */
  function Chars(s: string): (r: seq<Json>)
    ensures |r| == |s|
    ensures forall i :: 0 <= i < |r| ==> r[i] == JStr([s[i]])
  {
    seq(|s|, i requires 0 <= i < |s| => JStr([s[i]]))
  }

  /** The elements `for e in x` visits: a list's items, a dict's keys, a
      string's characters; other values are not iterable. */
  function Iterate(x: Json): (r: Py<seq<Json>>)
    ensures r.Ok? <==> x.JArr? || x.JObj? || x.JStr?
    ensures x.JArr? ==> r == Ok(x.items)
    ensures x.JObj? ==> r.Ok? && |r.value| == |x.fields|
    ensures x.JObj? ==> forall i :: 0 <= i < |x.fields| ==> r.value[i] == JStr(x.fields[i].0)
    ensures x.JStr? ==> r.Ok? && |r.value| == |x.s|
    ensures x.JStr? ==> forall i :: 0 <= i < |x.s| ==> r.value[i] == JStr([x.s[i]])
    ensures r.Ok? && !x.JArr? ==> forall i :: 0 <= i < |r.value| ==> r.value[i].JStr?
    ensures r.Raise? ==> r.exc == TypeError
  {
    match x
    case JArr(xs) => Ok(xs)
    case JObj(kvs) => Ok(seq(|kvs|, i requires 0 <= i < |kvs| => JStr(kvs[i].0)))
    case JStr(s) => Ok(Chars(s))
    case _ => Raise(TypeError)
  }
}

/** Sequence helpers shared by the models. */
module Seqs {

  /** The concatenation of `f(x)` for the elements `x` of `s`, in order. */
  function FlatMap<A, B>(f: A -> seq<B>, s: seq<A>): (r: seq<B>)
    decreases |s|
  {
    if |s| == 0 then [] else FlatMap(f, s[..|s| - 1]) + f(s[|s| - 1])
  }

  lemma FlatMapSnoc<A, B>(f: A -> seq<B>, s: seq<A>, i: nat)
    requires i < |s|
    ensures FlatMap(f, s[..i + 1]) == FlatMap(f, s[..i]) + f(s[i])
  {
    assert s[..i + 1][..i] == s[..i];
  }

  lemma {:induction false} FlatMapConcat<A, B>(f: A -> seq<B>, a: seq<A>, b: seq<A>)
    ensures FlatMap(f, a + b) == FlatMap(f, a) + FlatMap(f, b)
    decreases |b|
  {
    if |b| == 0 {
      assert a + b == a;
    } else {
      var n := |b| - 1;
      assert (a + b)[..|a + b| - 1] == a + b[..n];
      assert (a + b)[|a + b| - 1] == b[n];
      FlatMapConcat(f, a, b[..n]);
    }
  }

  lemma FlatMapSingleton<A, B>(f: A -> seq<B>, x: A)
    ensures FlatMap(f, [x]) == f(x)
  {
    assert [x][..0] == [];
  }

  /** Splitting `s` after position `i` splits the flattened result. */
  lemma FlatMapSplit<A, B>(f: A -> seq<B>, s: seq<A>, i: nat)
    requires i <= |s|
    ensures FlatMap(f, s) == FlatMap(f, s[..i]) + FlatMap(f, s[i..])
  {
    assert s == s[..i] + s[i..];
    FlatMapConcat(f, s[..i], s[i..]);
  }
  /** A property of every element of every `f(x)` holds of the whole result. */
  lemma {:induction false} FlatMapAll<A, B>(f: A -> seq<B>, s: seq<A>, p: B -> bool)
    requires forall i, j :: 0 <= i < |s| && 0 <= j < |f(s[i])| ==> p(f(s[i])[j])
    ensures forall j :: 0 <= j < |FlatMap(f, s)| ==> p(FlatMap(f, s)[j])
    decreases |s|
  {
    if |s| > 0 {
      var n := |s| - 1;
      forall i, j | 0 <= i < n && 0 <= j < |f(s[..n][i])|
        ensures p(f(s[..n][i])[j])
      {
        assert s[..n][i] == s[i];
      }
      FlatMapAll(f, s[..n], p);
      var a := FlatMap(f, s[..n]);
      var b := f(s[n]);
      forall j | 0 <= j < |a + b| ensures p((a + b)[j]) {
        if j >= |a| {
          assert (a + b)[j] == b[j - |a|];
        }
      }
    }
  }
}
