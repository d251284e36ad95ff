/** What extract_vote.py promises about voter lists and vote records,
    stated on the model of module Votes. */
module VoteProperties {
  import opened Json
  import opened Seqs
  import opened Votes

  // ---------------------------------------------------------------------
  // get_voters_list

  /** Lines 22-27: no data, no `votant`, or a null `votant` give no voter. */
  lemma VotersListEmpty(fields: seq<(string, Json)>)
    ensures VotersList(JNull) == Ok([])
    ensures !HasKey(fields, "votant") ==> VotersList(JObj(fields)) == Ok([])
    ensures VotersList(JObj(Put(fields, "votant", JNull))) == Ok([])
  {
  }

  /** Line 25: anything else that is not a dict has no `.get`. */
  lemma VotersListNotDict(votersData: Json)
    requires !votersData.JNull? && !votersData.JObj?
    ensures VotersList(votersData) == Raise(AttributeError)
  {
  }

  /** Lines 29-33: one voter dict, or a list holding just it, gives its reference. */
  lemma VotersListSingle(fields: seq<(string, Json)>, voter: Json)
    requires voter.JObj? && HasKey(voter.fields, "acteurRef")
    ensures VotersList(JObj(Put(fields, "votant", voter))) == Ok([Lookup(voter.fields, "acteurRef").value])
    ensures VotersList(JObj(Put(fields, "votant", JArr([voter])))) == Ok([Lookup(voter.fields, "acteurRef").value])
  {
    var r := ActorRefs([voter]);
    assert r.Ok? && |r.value| == 1;
    assert r.value == [Lookup(voter.fields, "acteurRef").value];
  }

  /** Lines 29-31: a list of voter dicts gives their references, same length, same order. */
  lemma VotersListOrder(fields: seq<(string, Json)>, voters: seq<Json>)
    requires forall i :: 0 <= i < |voters| ==> voters[i].JObj? && HasKey(voters[i].fields, "acteurRef")
    ensures var r := VotersList(JObj(Put(fields, "votant", JArr(voters))));
            && r.Ok? && |r.value| == |voters|
            && forall i :: 0 <= i < |voters| ==> r.value[i] == Lookup(voters[i].fields, "acteurRef").value
  {
  }

  /** Line 31: a voter dict without `acteurRef` raises; it is not skipped. */
  lemma VoterWithoutRefRaises(fields: seq<(string, Json)>, voters: seq<Json>, i: nat)
    requires i < |voters| && voters[i].JObj? && !HasKey(voters[i].fields, "acteurRef")
    ensures VotersList(JObj(Put(fields, "votant", JArr(voters)))).Raise?
    ensures VotersList(JObj(Put(fields, "votant", voters[i]))) == Raise(KeyError)
  {
  }

  // ---------------------------------------------------------------------
  // The lists of one vote

  /** The four lists of a group, or none when reading it raises. */
  function BallotsOf(organ: Json): Ballots
  {
    match GroupBallots(organ)
    case Ok(b) => b
    case Raise(_) => NoBallots
  }

  /** The loop over groups fails exactly when some group fails. */
  lemma GroupsBallotsOk(organs: seq<Json>)
    ensures GroupsBallots(organs).Ok? <==> forall i :: 0 <= i < |organs| ==> GroupBallots(organs[i]).Ok?
  {
    if GroupsBallots(organs).Ok? {
      GroupsBallotsEachOk(organs);
    } else {
      var i := GroupsBallotsRaises(organs);
    }
  }

  /** A loop over groups that raises, raises the exception of one group. */
  lemma {:induction false} GroupsBallotsRaises(organs: seq<Json>) returns (i: nat)
    requires GroupsBallots(organs).Raise?
    ensures i < |organs| && GroupBallots(organs[i]) == Raise(GroupsBallots(organs).exc)
    decreases |organs|
  {
    var n := |organs| - 1;
    var before := organs[..n];
    if GroupsBallots(before).Raise? {
      i := GroupsBallotsRaises(before);
      assert before[i] == organs[i];
    } else {
      i := n;
    }
  }

  /** Every prefix of a loop over groups that ends well ends well. */
  lemma {:induction false} GroupsBallotsPrefixOk(organs: seq<Json>, j: nat)
    requires GroupsBallots(organs).Ok? && j <= |organs|
    ensures GroupsBallots(organs[..j]).Ok?
    decreases |organs| - j
  {
    if j == |organs| {
      assert organs[..j] == organs;
    } else {
      GroupsBallotsPrefixOk(organs, j + 1);
      assert organs[..j + 1][..j] == organs[..j];
    }
  }

  /** A loop over groups that ends well read group `i` well. */
  lemma GroupsBallotsOkAt(organs: seq<Json>, i: nat)
    requires GroupsBallots(organs).Ok? && i < |organs|
    ensures GroupBallots(organs[i]).Ok?
  {
    GroupsBallotsPrefixOk(organs, i + 1);
    var p := organs[..i + 1];
    assert p[..i] == organs[..i] && p[i] == organs[i];
  }

  /** A loop over groups that ends well read every group well. */
  lemma GroupsBallotsEachOk(organs: seq<Json>)
    requires GroupsBallots(organs).Ok?
    ensures forall i :: 0 <= i < |organs| ==> GroupBallots(organs[i]).Ok?
  {
    forall i | 0 <= i < |organs|
      ensures GroupBallots(organs[i]).Ok?
    {
      GroupsBallotsOkAt(organs, i);
    }
  }

  /** A first group that raises raises for the whole loop. */
  lemma GroupsBallotsFirstFails(organs: seq<Json>)
    requires |organs| > 0 && GroupBallots(organs[0]).Raise?
    ensures GroupsBallots(organs) == Raise(GroupBallots(organs[0]).exc)
  {
    assert organs[..1][..0] == [];
    GroupsBallotsStops(organs, 1);
  }

  /** Lines 88-95: each list is the in-order concatenation of the groups'
      own lists, with nothing removed or merged. */
  lemma {:induction false} GroupsBallotsConcatenate(organs: seq<Json>)
    requires GroupsBallots(organs).Ok?
    ensures GroupsBallots(organs).value == Ballots(
      FlatMap(o => BallotsOf(o).votesFor, organs),
      FlatMap(o => BallotsOf(o).votesAgainst, organs),
      FlatMap(o => BallotsOf(o).votesNovote, organs),
      FlatMap(o => BallotsOf(o).votesAbs, organs))
    decreases |organs|
  {
    if |organs| > 0 {
      var n := |organs| - 1;
      var before := GroupsBallots(organs[..n]);
      var last := GroupBallots(organs[n]);
      assert before.Ok? && last.Ok?;
      assert GroupsBallots(organs).value == before.value.Plus(last.value);
      assert BallotsOf(organs[n]) == last.value;
      GroupsBallotsConcatenate(organs[..n]);
    }
  }

  /** Lines 82-85: an empty `groupe` dict is one group without voters, and a
      missing or falsy `groupe` is no group at all. */
  lemma EmptyGroupe(fields: seq<(string, Json)>)
    ensures OrganList(JObj(Put(fields, "groupe", JObj([])))) == Ok([JObj([])])
    ensures GroupsBallots([JObj([])]) == Ok(NoBallots)
    ensures !HasKey(fields, "groupe") ==> OrganList(JObj(fields)) == Ok([])
  {
    var g := JObj(Put(fields, "groupe", JObj([])));
    assert Get(g, "groupe", JNull) == Ok(JObj([]));
    assert OrganList(g) == Ok([JObj([])]);
    assert VotersList(JNull) == Ok([]);
    assert GroupBallots(JObj([])) == Ok(NoBallots);
    assert [JObj([])][..0] == [];
    assert GroupsBallots([]) == Ok(NoBallots);
    assert NoBallots.Plus(NoBallots) == NoBallots;
    assert GroupsBallots([JObj([])]) == Ok(NoBallots.Plus(NoBallots));
  }

  /** Lines 82-88: a single non-empty `groupe` dict is not wrapped: the loop
      walks its keys, and `.get` on a key string raises. */
  lemma SingleGroupeDictFails(fields: seq<(string, Json)>, organ: seq<(string, Json)>)
    requires organ != []
    ensures OrganList(JObj(Put(fields, "groupe", JObj(organ)))).Ok?
    ensures GroupsBallots(OrganList(JObj(Put(fields, "groupe", JObj(organ)))).value) == Raise(AttributeError)
  {
    var organs := OrganList(JObj(Put(fields, "groupe", JObj(organ)))).value;
    assert organs[0].JStr?;
    GroupsBallotsFirstFails(organs);
  }

  /** So a vote file whose groups come as one non-empty dict stops the run. */
  lemma VoteFileSingleGroupeDictFails(json: Json)
    requires ReadHeader(json).Ok? && Truthy(ReadHeader(json).value.voteId)
    requires ReadGroupes(ReadHeader(json).value.scrutin).Ok?
    requires var g := ReadGroupes(ReadHeader(json).value.scrutin).value;
             g.JObj? && HasKey(g.fields, "groupe") && Lookup(g.fields, "groupe").value.JObj?
             && Lookup(g.fields, "groupe").value.fields != []
    ensures VoteFile(json) == Raise(AttributeError)
  {
    var g := ReadGroupes(ReadHeader(json).value.scrutin).value;
    var organs := OrganList(g).value;
    assert organs[0].JStr?;
    GroupsBallotsFirstFails(organs);
  }

  /** Lines 65 and 78-85: with no `typeVote` the type is None, and when the
      chain to `groupe` stops at a missing key every list is empty; the
      record is still stored. */
  lemma BareVoteStored(json: Json)
    requires json.JObj?
    requires var s := Field(json.fields, "scrutin", JObj([]));
             GroupsAbsent(s) && !HasKey(s.fields, "typeVote")
             && Truthy(Field(s.fields, "uid", JNull)) && Hashable(Field(s.fields, "uid", JNull))
    ensures var s := Field(json.fields, "scrutin", JObj([]));
            VoteFile(json) == Ok(Some((Field(s.fields, "uid", JNull),
                                       VoteRecord(Field(s.fields, "dateScrutin", JNull), JNull, [], [], []))))
  {
  }

  /** Line 98: a truthy `uid` that is a list or a dict can never be stored.
      The file raises, and once its groups are read the error is TypeError. */
  lemma UnhashableUidRaises(json: Json)
    requires ReadHeader(json).Ok?
    requires var id := ReadHeader(json).value.voteId; Truthy(id) && !Hashable(id)
    ensures VoteFile(json).Raise?
    ensures var organs := ReadOrgans(ReadHeader(json).value.scrutin);
            organs.Ok? && GroupsBallots(organs.value).Ok? ==> VoteFile(json) == Raise(TypeError)
  {
  }

  /** Lines 63-69: a file whose `uid` is missing or falsy adds nothing. */
  lemma NoUidNoRecord(json: Json)
    requires ReadHeader(json).Ok? && !Truthy(ReadHeader(json).value.voteId)
    ensures VoteFile(json) == Ok(None)
    ensures forall acc :: FileStep(acc, Some(json)) == acc
  {
  }

  /** Lines 98-106: the record drops the non-voters and keeps exactly the
      other three lists of the groups, in order. */
  lemma RecordKeepsThreeLists(json: Json)
    requires VoteFile(json).Ok? && VoteFile(json).value.Some?
    ensures var h := ReadHeader(json).value;
            var organs := ReadOrgans(h.scrutin);
            && organs.Ok? && GroupsBallots(organs.value).Ok?
            && var b := GroupsBallots(organs.value).value;
               var rec := VoteFile(json).value.value.1;
               rec == VoteRecord(h.date, h.voteType, b.votesFor, b.votesAgainst, b.votesAbs)
               && RecordJson(rec).fields[2].1 == JArr(b.votesFor)
  {
  }

  // ---------------------------------------------------------------------
  // The accumulated map

  lemma {:induction false} AccumulateConcat(acc: Py<map<Json, VoteRecord>>, a: seq<Option<Json>>, b: seq<Option<Json>>)
    ensures Accumulate(acc, a + b) == Accumulate(Accumulate(acc, a), b)
    decreases |b|
  {
    if |b| == 0 {
      assert a + b == a;
    } else {
      var n := |b| - 1;
      assert (a + b)[..|a + b| - 1] == a + b[..n];
      assert (a + b)[|a + b| - 1] == b[n];
      AccumulateConcat(acc, a, b[..n]);
      assert Accumulate(acc, a + b) == FileStep(Accumulate(acc, a + b[..n]), b[n]);
    }
  }

  /** Lines 53-59: a file that does not decode is skipped. */
  lemma UndecodableSkipped(acc: Py<map<Json, VoteRecord>>, a: seq<Option<Json>>, b: seq<Option<Json>>)
    ensures Accumulate(acc, a + [None] + b) == Accumulate(acc, a + b)
  {
    AccumulateConcat(acc, a + [None], b);
    AccumulateConcat(acc, a, [None]);
    AccumulateConcat(acc, a, b);
    var skipped: seq<Option<Json>> := [None];
    assert skipped[..0] == [];
  }

  /** Lines 67-69: so is a file without a truthy `uid`. */
  lemma NoUidSkipped(acc: Py<map<Json, VoteRecord>>, a: seq<Option<Json>>, json: Json, b: seq<Option<Json>>)
    requires ReadHeader(json).Ok? && !Truthy(ReadHeader(json).value.voteId)
    ensures Accumulate(acc, a + [Some(json)] + b) == Accumulate(acc, a + b)
  {
    AccumulateConcat(acc, a + [Some(json)], b);
    AccumulateConcat(acc, a, [Some(json)]);
    AccumulateConcat(acc, a, b);
    assert [Some(json)][..0] == [];
  }

  /** File `file` yields a record under key `id`. */
  predicate Yields(file: Option<Json>, id: Json)
  {
    file.Some? && VoteFile(file.value).Ok? && VoteFile(file.value).value.Some? && VoteFile(file.value).value.value.0 == id
  }

  /** One decoded file on a map: the keys gain the `uid` it yields, whose
      record it sets; every other key keeps its record. */
  lemma FileStepOk(m: map<Json, VoteRecord>, file: Option<Json>)
    requires FileStep(Ok(m), file).Ok?
    ensures forall id :: id in FileStep(Ok(m), file).value <==> id in m || Yields(file, id)
    ensures forall id :: Yields(file, id) ==> FileStep(Ok(m), file).value[id] == VoteFile(file.value).value.value.1
    ensures forall id :: !Yields(file, id) && id in m ==> FileStep(Ok(m), file).value[id] == m[id]
  {
  }

  /** A run that ends well went well up to every point. */
  lemma AccumulatePrefixOk(files: seq<Option<Json>>)
    requires |files| > 0 && Accumulate(Ok(map[]), files).Ok?
    ensures Accumulate(Ok(map[]), files[..|files| - 1]).Ok?
  {
  }

  /** The map that a run which ends well held before its last file. */
  lemma AccumulateStep(files: seq<Option<Json>>) returns (m: map<Json, VoteRecord>)
    requires |files| > 0 && Accumulate(Ok(map[]), files).Ok?
    ensures Accumulate(Ok(map[]), files[..|files| - 1]) == Ok(m)
    ensures Accumulate(Ok(map[]), files) == FileStep(Ok(m), files[|files| - 1])
  {
    m := Accumulate(Ok(map[]), files[..|files| - 1]).value;
  }

  /** Every `uid` a file yields is a key of the result. */
  lemma {:induction false} UidStored(files: seq<Option<Json>>, i: nat, id: Json)
    requires Accumulate(Ok(map[]), files).Ok?
    requires i < |files| && Yields(files[i], id)
    ensures id in Accumulate(Ok(map[]), files).value
    decreases |files|
  {
    var n := |files| - 1;
    AccumulatePrefixOk(files);
    var m := Accumulate(Ok(map[]), files[..n]).value;
    var last := files[n];
    assert Accumulate(Ok(map[]), files) == FileStep(Ok(m), last);
    if i < n {
      assert files[..n][i] == files[i];
      UidStored(files[..n], i, id);
      FileStepKeeps(m, last, id);
    } else {
      assert i == n && last == files[i];
      FileStepAdds(m, last, id);
    }
  }

  lemma FileStepKeeps(m: map<Json, VoteRecord>, file: Option<Json>, id: Json)
    requires FileStep(Ok(m), file).Ok? && id in m
    ensures id in FileStep(Ok(m), file).value
  {
  }

  lemma FileStepAdds(m: map<Json, VoteRecord>, file: Option<Json>, id: Json)
    requires FileStep(Ok(m), file).Ok? && Yields(file, id)
    ensures id in FileStep(Ok(m), file).value
  {
  }

  /** Every key of the result is the `uid` of some file. */
  lemma {:induction false} StoredUidHasFile(files: seq<Option<Json>>, id: Json) returns (i: nat)
    requires Accumulate(Ok(map[]), files).Ok?
    requires id in Accumulate(Ok(map[]), files).value
    ensures i < |files| && Yields(files[i], id)
    decreases |files|
  {
    var n := |files| - 1;
    AccumulatePrefixOk(files);
    FileStepOk(Accumulate(Ok(map[]), files[..n]).value, files[n]);
    if Yields(files[n], id) {
      i := n;
    } else {
      i := StoredUidHasFile(files[..n], id);
      assert files[..n][i] == files[i];
    }
  }

  /** The keys of the result are the `uid`s of the files that yield a record. */
  lemma KeysAreUids(files: seq<Option<Json>>, id: Json)
    requires Accumulate(Ok(map[]), files).Ok?
    ensures id in Accumulate(Ok(map[]), files).value <==> exists i :: 0 <= i < |files| && Yields(files[i], id)
  {
    if id in Accumulate(Ok(map[]), files).value {
      var i := StoredUidHasFile(files, id);
    } else if exists i :: 0 <= i < |files| && Yields(files[i], id) {
      var i :| 0 <= i < |files| && Yields(files[i], id);
      UidStored(files, i, id);
    }
  }

  /** Line 98: a later file with the same `uid` replaces the earlier record:
      the stored record is that of the last file yielding the key. */
  lemma {:induction false} LastRecordWins(files: seq<Option<Json>>, i: nat, id: Json, rec: VoteRecord)
    requires Accumulate(Ok(map[]), files).Ok?
    requires i < |files| && files[i].Some? && VoteFile(files[i].value) == Ok(Some((id, rec)))
    requires forall k :: i < k < |files| ==> !Yields(files[k], id)
    ensures id in Accumulate(Ok(map[]), files).value && Accumulate(Ok(map[]), files).value[id] == rec
    decreases |files|
  {
    var n := |files| - 1;
    var m := AccumulateStep(files);
    if i < n {
      var prefix := files[..n];
      assert prefix[i] == files[i];
      assert forall k :: i < k < n ==> prefix[k] == files[k];
      LastRecordWins(prefix, i, id, rec);
      FileStepLeaves(m, files[n], id);
    } else {
      FileStepSets(m, files[n], id, rec);
    }
  }

  /** A file that yields `id` with `rec` stores `rec` under `id`. */
  lemma FileStepSets(m: map<Json, VoteRecord>, file: Option<Json>, id: Json, rec: VoteRecord)
    requires file.Some? && VoteFile(file.value) == Ok(Some((id, rec)))
    ensures FileStep(Ok(m), file) == Ok(m[id := rec])
  {
  }

  /** A file that does not yield `id` leaves the record under `id` alone. */
  lemma FileStepLeaves(m: map<Json, VoteRecord>, file: Option<Json>, id: Json)
    requires FileStep(Ok(m), file).Ok? && !Yields(file, id) && id in m
    ensures id in FileStep(Ok(m), file).value && FileStep(Ok(m), file).value[id] == m[id]
  {
  }

  /** Lines 108-114: output is written exactly when some record was stored. */
  lemma WrittenIffStored(files: seq<Option<Json>>)
    ensures FilesOutcome(files).Written? <==> Accumulate(Ok(map[]), files).Ok? && Accumulate(Ok(map[]), files).value != map[]
    ensures FilesOutcome(files).Crashed? <==> Accumulate(Ok(map[]), files).Raise?
  {
  }
}
