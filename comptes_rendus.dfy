/** extract_cr.py: the set of session-report references (`compteRenduRef`
    starting with "CRSAN") named by the reunion documents, and the download
    pass that requests each of them once, in sorted order.

    Reading a reunion file and decoding it are outside the model: a file is
    given as its decoded document, or None when reading or decoding fails.
    The network is outside the model too: the download is an oracle that
    knows which ids the server delivers as valid JSON. */
module ComptesRendus {
  import opened Json

  // ---------------------------------------------------------------------
  // Collecting the references

  /** Lines 25-29 for one decoded document: the reference it contributes,
      None when it contributes nothing, or the exception the body raises
      (which the loop catches). `startswith` exists only on strings, so a
      truthy non-string reference raises. */
  function ReunionRef(data: Json): (r: Py<Option<string>>)
    ensures r.Ok? && r.value.Some? ==> "CRSAN" <= r.value.value
  {
    var reunion :- Get(data, "reunion", JObj([]));
    var ref :- Get(reunion, "compteRenduRef", JNull);
    if !Truthy(ref) then Ok(None)
    else if !ref.JStr? then Raise(AttributeError)
    else if "CRSAN" <= ref.s then Ok(Some(ref.s))
    else Ok(None)
  }

  /** One turn of the loop of lines 22-33: a file that does not decode, or
      whose body raises, is skipped. */
  function FileRef(file: Option<Json>): (r: Option<string>)
    ensures file.None? ==> r.None?
    ensures r.Some? ==> "CRSAN" <= r.value
    ensures file.Some? && ReunionRef(file.value).Raise? ==> r.None?
    ensures file.Some? && ReunionRef(file.value).Ok? ==> r == ReunionRef(file.value).value
  {
    if file.None? then None
    else
      match ReunionRef(file.value)
      case Ok(ref) => ref
      case Raise(_) => None
  }

  /** The set `compte_rendu_refs` holds after the given files, in order. */
  function RefSet(files: seq<Option<Json>>): (refs: set<string>)
    ensures forall x :: x in refs ==> "CRSAN" <= x && Truthy(JStr(x))
    decreases |files|
  {
    if |files| == 0 then {}
    else
      var n := |files| - 1;
      RefSet(files[..n]) + (if FileRef(files[n]).Some? then {FileRef(files[n]).value} else {})
  }

  /** `collect_compte_rendu_refs`, over the decoded files in glob order. */
  method CollectRefs(files: seq<Option<Json>>) returns (refs: set<string>)
    ensures refs == RefSet(files)
  {
    refs := {};
    var i := 0;
    while i < |files|
      invariant 0 <= i <= |files|
      invariant refs == RefSet(files[..i])
    {
      assert files[..i + 1][..i] == files[..i];
      if files[i].Some? {
        var ref := ReunionRef(files[i].value);
        if ref.Ok? && ref.value.Some? {
          refs := refs + {ref.value.value};
        }
      }
      i := i + 1;
    }
    assert files[..i] == files;
  }

  // ---------------------------------------------------------------------
  // Python's order on strings

  /** `a < b` on Python strings: code point by code point, a proper prefix
      before any of its extensions. */
  predicate Less(a: string, b: string)
    decreases |a|
  {
    if |a| == 0 then |b| > 0
    else if |b| == 0 then false
    else if a[0] != b[0] then a[0] < b[0]
    else Less(a[1..], b[1..])
  }

  /** `a` and `b` agree before offset `i` and `a` is smaller there. */
  predicate DiffersAt(a: string, b: string, i: int)
  {
    0 <= i < |a| && i < |b| && a[..i] == b[..i] && a[i] < b[i]
  }

  /** `Less` is the lexicographic order: `a` is a proper prefix of `b`, or
      the first code point where they differ is smaller in `a`. */
  lemma {:induction false} LessIff(a: string, b: string)
    ensures Less(a, b) <==> (|a| < |b| && a == b[..|a|]) || exists i :: DiffersAt(a, b, i)
    decreases |a|
  {
    if |a| == 0 {
      assert !DiffersAt(a, b, 0);
    } else if |b| == 0 {
      assert forall i :: !DiffersAt(a, b, i);
    } else if a[0] != b[0] {
      if a[0] < b[0] {
        assert DiffersAt(a, b, 0);
      }
      assert forall i :: DiffersAt(a, b, i) ==> i == 0;
    } else {
      var a', b' := a[1..], b[1..];
      LessIff(a', b');
      assert a == [a[0]] + a' && b == [b[0]] + b';
      if exists j :: DiffersAt(a', b', j) {
        var j :| DiffersAt(a', b', j);
        assert a[..j + 1] == [a[0]] + a'[..j];
        assert b[..j + 1] == [b[0]] + b'[..j];
        assert DiffersAt(a, b, j + 1);
      }
      if exists i :: DiffersAt(a, b, i) {
        var i :| DiffersAt(a, b, i);
        assert i > 0;
        assert a'[..i - 1] == a[..i][1..] && b'[..i - 1] == b[..i][1..];
        assert DiffersAt(a', b', i - 1);
      }
      if |a| < |b| && a == b[..|a|] {
        assert a' == b'[..|a'|];
      }
      if |a'| < |b'| && a' == b'[..|a'|] {
        assert a == b[..|a|];
      }
    }
  }

  lemma {:induction false} LessIrreflexive(a: string)
    ensures !Less(a, a)
    decreases |a|
  {
    if |a| > 0 {
      LessIrreflexive(a[1..]);
    }
  }

  lemma {:induction false} LessTransitive(a: string, b: string, c: string)
    requires Less(a, b) && Less(b, c)
    ensures Less(a, c)
    decreases |a|
  {
    if |a| > 0 && a[0] == b[0] && b[0] == c[0] {
      LessTransitive(a[1..], b[1..], c[1..]);
    }
  }

  lemma {:induction false} LessTotal(a: string, b: string)
    requires a != b
    ensures Less(a, b) || Less(b, a)
    decreases |a|
  {
    if |a| > 0 && |b| > 0 && a[0] == b[0] {
      assert a == [a[0]] + a[1..] && b == [b[0]] + b[1..];
      LessTotal(a[1..], b[1..]);
    }
  }

  lemma LessAsymmetric(a: string, b: string)
    requires Less(a, b)
    ensures !Less(b, a)
  {
    if Less(b, a) {
      LessTransitive(a, b, a);
      LessIrreflexive(a);
    }
  }

  /** Strictly increasing, hence without repetitions. */
  ghost predicate Sorted(s: seq<string>)
  {
    forall i, j :: 0 <= i < j < |s| ==> Less(s[i], s[j])
  }

  /** The least element of a non-empty set of strings. */
  method Least(xs: set<string>) returns (m: string)
    requires xs != {}
    ensures m in xs
    ensures forall y :: y in xs && y != m ==> Less(m, y)
  {
    m :| m in xs;
    var pending := xs - {m};
    while pending != {}
      invariant pending <= xs && m in xs && m !in pending
      invariant forall y :: y in xs && y !in pending && y != m ==> Less(m, y)
      decreases |pending|
    {
      var y :| y in pending;
      if Less(y, m) {
        forall z | z in xs && z !in pending - {y} && z != y
          ensures Less(y, z)
        {
          if z != m {
            LessTransitive(y, m, z);
          }
        }
        m := y;
      } else {
        LessTotal(m, y);
      }
      pending := pending - {y};
    }
  }

  /** `sorted(cr_refs)`: the references in increasing order, each once. */
  method SortRefs(refs: set<string>) returns (s: seq<string>)
    ensures Sorted(s)
    ensures |s| == |refs|
    ensures forall x :: x in s <==> x in refs
  {
    s := [];
    var rest := refs;
    while rest != {}
      invariant rest <= refs
      invariant Sorted(s)
      invariant forall x :: x in s <==> x in refs && x !in rest
      invariant forall i, y :: 0 <= i < |s| && y in rest ==> Less(s[i], y)
      invariant |s| + |rest| == |refs|
      decreases |rest|
    {
      var m := Least(rest);
      s := s + [m];
      rest := rest - {m};
    }
  }

  /** There is only one sorted order of a set of strings. */
  lemma {:induction false} SortedUnique(a: seq<string>, b: seq<string>)
    requires Sorted(a) && Sorted(b)
    requires forall x :: x in a <==> x in b
    ensures a == b
    decreases |a|
  {
    assert |a| > 0 ==> a[0] in b;
    assert |b| > 0 ==> b[0] in a;
    if |a| > 0 && |b| > 0 {
      if a[0] != b[0] {
        assert a[0] in a && b[0] in b;
        var i :| 0 <= i < |b| && b[i] == a[0];
        var j :| 0 <= j < |a| && a[j] == b[0];
        assert i > 0 && j > 0;
        LessAsymmetric(b[0], a[0]);
        assert false;
      }
      forall x ensures x in a[1..] <==> x in b[1..] {
        if x in a[1..] {
          var j :| 1 <= j < |a| && a[j] == x;
          LessIrreflexive(a[0]);
          assert x != a[0];
          assert x in b;
          var i :| 0 <= i < |b| && b[i] == x;
          assert i > 0;
        }
        if x in b[1..] {
          var i :| 1 <= i < |b| && b[i] == x;
          LessIrreflexive(b[0]);
          assert x != b[0];
          assert x in a;
          var j :| 0 <= j < |a| && a[j] == x;
          assert j > 0;
        }
      }
      SortedUnique(a[1..], b[1..]);
      assert a == [a[0]] + a[1..] && b == [b[0]] + b[1..];
    }
  }

  // ---------------------------------------------------------------------
  // The download pass

  /** The elements of `s`, as a set built left to right. */
  ghost function Elems(s: seq<string>): set<string>
    decreases |s|
  {
    if |s| == 0 then {} else Elems(s[..|s| - 1]) + {s[|s| - 1]}
  }

  lemma {:induction false} ElemsMembers(s: seq<string>)
    ensures forall x :: x in Elems(s) <==> x in s
    decreases |s|
  {
    if |s| > 0 {
      var n := |s| - 1;
      ElemsMembers(s[..n]);
      assert s == s[..n] + [s[n]];
    }
  }

  /** One more element of a sorted listing is new. */
  lemma ElemsPrefix(s: seq<string>, i: nat)
    requires i < |s| && Sorted(s)
    ensures Elems(s[..i + 1]) == Elems(s[..i]) + {s[i]}
    ensures s[i] !in Elems(s[..i])
  {
    assert s[..i + 1][..i] == s[..i];
    ElemsMembers(s[..i]);
    if s[i] in Elems(s[..i]) {
      var j :| 0 <= j < i && s[..i][j] == s[i];
      LessIrreflexive(s[i]);
    }
  }

  /** The folder after one more request of the loop. */
  lemma CacheStep(before: set<string>, served: set<string>, done: set<string>, id: string, mid: set<string>, ok: bool, after: set<string>)
    requires id !in done && mid == before + done * served
    requires ok <==> id in mid || id in served
    requires after == if ok then mid + {id} else mid
    ensures after == before + (done + {id}) * served
  {
  }

  /** Counting lemma for the success counter. */
  lemma CountStep(done: set<string>, good: set<string>, x: string)
    requires x !in done
    ensures |(done + {x}) * good| == |done * good| + (if x in good then 1 else 0)
  {
    if x in good {
      assert (done + {x}) * good == done * good + {x};
    } else {
      assert (done + {x}) * good == done * good;
    }
  }

  /** The ids of `s`, in order, that are not in `c`. */
  function Uncached(s: seq<string>, c: set<string>): (r: seq<string>)
    ensures |r| <= |s|
    decreases |s|
  {
    if |s| == 0 then []
    else
      var n := |s| - 1;
      Uncached(s[..n], c) + (if s[n] in c then [] else [s[n]])
  }

  /** `Uncached` keeps exactly the ids of `s` outside `c`. */
  lemma {:induction false} UncachedMembers(s: seq<string>, c: set<string>)
    ensures forall x :: x in Uncached(s, c) <==> x in s && x !in c
    decreases |s|
  {
    if |s| > 0 {
      var n := |s| - 1;
      UncachedMembers(s[..n], c);
      assert s == s[..n] + [s[n]];
    }
  }

  /** The output folder and the server behind it. */
  class Archive {
    /** The ids whose `<id>.json` is already in the output folder. */
    var cached: set<string>
    /** The ids the server delivers as a valid JSON document. */
    const served: set<string>
    /** Every id `download_compte_rendu` was called with, in order. */
    ghost var calls: seq<string>
    /** Every id an HTTP request was sent for, in order. */
    ghost var fetched: seq<string>

    constructor(cached0: set<string>, served0: set<string>)
      ensures cached == cached0 && served == served0
      ensures calls == [] && fetched == []
    {
      cached := cached0;
      served := served0;
      calls := [];
      fetched := [];
    }

    /** `download_compte_rendu`: True without a request when the file is
        already there; otherwise one request, True exactly when the server
        delivers the document, which is then saved. */
    method Download(crId: string) returns (ok: bool)
      modifies this
      ensures ok <==> crId in old(cached) || crId in served
      ensures cached == if ok then old(cached) + {crId} else old(cached)
      ensures calls == old(calls) + [crId]
      ensures fetched == old(fetched) + (if crId in old(cached) then [] else [crId])
    {
      calls := calls + [crId];
      if crId in cached {
        return true;
      }
      fetched := fetched + [crId];
      if crId in served {
        cached := cached + {crId};
        return true;
      }
      return false;
    }

    /** One turn of the loop of lines 117-130, after the ids `prefix`: the
        `i`-th id is new, it is called and requested unless it was in the
        folder at the start, and it counts as a success exactly when it was
        there or the server delivers it. */
    method RequestNext(order: seq<string>, i: nat, ghost prefix: seq<string>, ghost before: set<string>, ghost calls0: seq<string>, ghost fetched0: seq<string>) returns (ok: bool)
      requires Sorted(order) && i < |order| && prefix == order[..i]
      requires cached == before + Elems(prefix) * served
      requires calls == calls0 + prefix
      requires fetched == fetched0 + Uncached(prefix, before)
      modifies this
      ensures order[i] !in Elems(prefix) && Elems(prefix + [order[i]]) == Elems(prefix) + {order[i]}
      ensures prefix + [order[i]] == order[..i + 1]
      ensures ok <==> order[i] in before + served
      ensures cached == before + Elems(prefix + [order[i]]) * served
      ensures calls == calls0 + (prefix + [order[i]])
      ensures fetched == fetched0 + Uncached(prefix + [order[i]], before)
    {
      var id := order[i];
      ElemsPrefix(order, i);
      assert order[..i + 1] == prefix + [id];
      ghost var mid := cached;
      ok := Download(id);
      assert id in mid <==> id in before;
      assert (prefix + [id])[..|prefix|] == prefix;
      CacheStep(before, served, Elems(prefix), id, mid, ok, cached);
    }

    /** The loop of lines 117-130 over the ids in sorted order: one call
        per id, a request for each id not already in the folder, counted
        as a success or a failure, and a pause after every call but the
        last. */
    method RequestAll(order: seq<string>) returns (successful: nat, failed: nat, delays: nat)
      requires Sorted(order) && |order| > 0
      modifies this
      ensures successful + failed == |order|
      ensures successful == |Elems(order) * (old(cached) + served)|
      ensures delays == |order| - 1
      ensures cached == old(cached) + Elems(order) * served
      ensures calls == old(calls) + order
      ensures fetched == old(fetched) + Uncached(order, old(cached))
    {
      successful, failed, delays := 0, 0, 0;
      ghost var before := cached;
      ghost var calls0 := calls;
      ghost var fetched0 := fetched;
      ghost var prefix: seq<string> := [];
      var i := 0;
      while i < |order|
        invariant 0 <= i <= |order| && prefix == order[..i]
        invariant successful == |Elems(prefix) * (before + served)|
        invariant successful + failed == i
        invariant delays == if i < |order| then i else |order| - 1
        invariant cached == before + Elems(prefix) * served
        invariant calls == calls0 + prefix
        invariant fetched == fetched0 + Uncached(prefix, before)
      {
        var id := order[i];
        var ok := RequestNext(order, i, prefix, before, calls0, fetched0);
        CountStep(Elems(prefix), before + served, id);
        successful := successful + if ok then 1 else 0;
        failed := failed + if ok then 0 else 1;
        delays := delays + if i + 1 < |order| then 1 else 0;
        prefix := prefix + [id];
        i := i + 1;
      }
      assert order[..i] == order;
    }

    /** `download_all_compte_rendus`: `order` is the sequence of ids
        `download_compte_rendu` is called with and `delays` the number of
        pauses taken. */
    method DownloadAll(files: seq<Option<Json>>) returns (successful: nat, failed: nat, delays: nat, order: seq<string>)
      modifies this
      ensures RefSet(files) == {} ==> order == [] && successful == 0 && failed == 0 && delays == 0
      ensures RefSet(files) == {} ==> cached == old(cached) && calls == old(calls) && fetched == old(fetched)
      ensures Sorted(order) && |order| == |RefSet(files)|
      ensures forall x :: x in order <==> x in RefSet(files)
      ensures successful + failed == |RefSet(files)|
      ensures successful == |RefSet(files) * (old(cached) + served)|
      ensures RefSet(files) != {} ==> delays == |RefSet(files)| - 1
      ensures cached == old(cached) + RefSet(files) * served
      ensures calls == old(calls) + order
      ensures fetched == old(fetched) + Uncached(order, old(cached))
    {
      var refs := CollectRefs(files);
      successful, failed, delays, order := 0, 0, 0, [];
      if refs == {} {
        return;
      }
      order := SortRefs(refs);
      ElemsMembers(order);
      assert Elems(order) == refs;
      successful, failed, delays := RequestAll(order);
    }
  }
}
