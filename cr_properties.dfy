/** Properties of the reference collection (module ComptesRendus). */
module RefProperties {
  import opened Json
  import opened ComptesRendus

  /** A file contributes `x` exactly when its `reunion` is a dict (or
      absent) whose `compteRenduRef` is the string `x` and `x` starts with
      "CRSAN". */
  lemma FileRefIff(data: Json, x: string)
    ensures FileRef(Some(data)) == Some(x) <==>
      && Get(data, "reunion", JObj([])).Ok?
      && Get(Get(data, "reunion", JObj([])).value, "compteRenduRef", JNull) == Ok(JStr(x))
      && "CRSAN" <= x
  {
  }

  /** A missing or null `compteRenduRef`, including a missing `reunion`,
      contributes nothing. */
  lemma MissingRefIgnored(data: Json)
    requires data.JObj?
    requires var reunion := Field(data.fields, "reunion", JObj([]));
      reunion.JObj? && Field(reunion.fields, "compteRenduRef", JNull) == JNull
    ensures ReunionRef(data) == Ok(None)
  {
  }

  /** A reference with another prefix contributes nothing. */
  lemma OtherPrefixIgnored(data: Json, ref: string)
    requires data.JObj?
    requires var reunion := Field(data.fields, "reunion", JObj([]));
      reunion.JObj? && Field(reunion.fields, "compteRenduRef", JNull) == JStr(ref)
    requires !("CRSAN" <= ref)
    ensures ReunionRef(data) == Ok(None)
  {
  }

  /** A `reunion` that is not a dict makes the body raise. */
  lemma NonDictReunionRaises(data: Json)
    requires data.JObj? && !Field(data.fields, "reunion", JObj([])).JObj?
    ensures ReunionRef(data) == Raise(AttributeError)
  {
  }

  /** What a file contributes is in the set. */
  lemma {:induction false} RefFromFile(files: seq<Option<Json>>, i: nat)
    requires i < |files| && FileRef(files[i]).Some?
    ensures FileRef(files[i]).value in RefSet(files)
    decreases |files|
  {
    var n := |files| - 1;
    if i < n {
      assert files[..n][i] == files[i];
      RefFromFile(files[..n], i);
    }
  }

  /** Everything in the set comes from some file. */
  lemma {:induction false} RefHasFile(files: seq<Option<Json>>, x: string) returns (i: nat)
    requires x in RefSet(files)
    ensures i < |files| && FileRef(files[i]) == Some(x)
    decreases |files|
  {
    var n := |files| - 1;
    if FileRef(files[n]) == Some(x) {
      i := n;
    } else {
      i := RefHasFile(files[..n], x);
      assert files[..n][i] == files[i];
    }
  }

  /** The set is the collection of what each file contributes. */
  lemma RefSetMembers(files: seq<Option<Json>>, x: string)
    ensures x in RefSet(files) <==> exists i :: 0 <= i < |files| && FileRef(files[i]) == Some(x)
  {
    if x in RefSet(files) {
      var i := RefHasFile(files, x);
    } else if exists i :: 0 <= i < |files| && FileRef(files[i]) == Some(x) {
      var i :| 0 <= i < |files| && FileRef(files[i]) == Some(x);
      RefFromFile(files, i);
    }
  }

  /** Collecting two runs of files gives the union of their sets. */
  lemma {:induction false} RefSetConcat(a: seq<Option<Json>>, b: seq<Option<Json>>)
    ensures RefSet(a + b) == RefSet(a) + RefSet(b)
    decreases |b|
  {
    if |b| == 0 {
      assert a + b == a;
    } else {
      var n := |b| - 1;
      assert (a + b)[..|a + b| - 1] == a + b[..n];
      RefSetConcat(a, b[..n]);
    }
  }

  /** The order in which the files are globbed does not matter. */
  lemma RefSetOrderIndependent(a: seq<Option<Json>>, b: seq<Option<Json>>)
    requires multiset(a) == multiset(b)
    ensures RefSet(a) == RefSet(b)
  {
    forall x ensures x in RefSet(a) <==> x in RefSet(b) {
      RefSetMembers(a, x);
      RefSetMembers(b, x);
      if x in RefSet(a) {
        var i :| 0 <= i < |a| && FileRef(a[i]) == Some(x);
        assert a[i] in multiset(b);
        var j :| 0 <= j < |b| && b[j] == a[i];
      }
      if x in RefSet(b) {
        var j :| 0 <= j < |b| && FileRef(b[j]) == Some(x);
        assert b[j] in multiset(a);
        var i :| 0 <= i < |a| && a[i] == b[j];
      }
    }
  }

  /** A file that does not decode, or whose body raises, is skipped and
      the other files are still collected. */
  lemma SkippedFile(a: seq<Option<Json>>, file: Option<Json>, b: seq<Option<Json>>)
    requires file.None? || ReunionRef(file.value).Raise?
    ensures RefSet(a + [file] + b) == RefSet(a + b)
  {
    RefSetConcat(a + [file], b);
    RefSetConcat(a, [file]);
    RefSetConcat(a, b);
    assert [file][..0] == [];
  }

  /** All files skipped or contributing nothing: nothing to download. */
  lemma NoRefsNoRequests(files: seq<Option<Json>>)
    requires forall i :: 0 <= i < |files| ==> FileRef(files[i]).None?
    ensures RefSet(files) == {}
  {
    forall x ensures x !in RefSet(files) {
      RefSetMembers(files, x);
    }
  }
}
