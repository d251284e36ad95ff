/** extract_vote.py: one canonical record per vote `uid`, with the actor
    references of the voters for, against and abstaining, gathered over all
    political groups of the vote.

    `process_json_files` has no handler around the reading of a decoded
    file, so any exception there (a `.get` on a non-dict, a voter without
    `acteurRef`, an unhashable `uid`) ends the whole run and nothing is
    written. */
module Votes {
  import opened Json
  import opened Seqs

  /** `[voter["acteurRef"] for voter in votants]`: the first voter without a
      reference raises (KeyError for a dict, TypeError otherwise). */
  function ActorRefs(votants: seq<Json>): (r: Py<seq<Json>>)
    ensures r.Ok? <==> forall i :: 0 <= i < |votants| ==> Subscript(votants[i], "acteurRef").Ok?
    ensures r.Ok? ==> |r.value| == |votants|
    ensures r.Ok? ==> forall i :: 0 <= i < |votants| ==> r.value[i] == Subscript(votants[i], "acteurRef").value
    ensures r.Raise? ==> exists i :: 0 <= i < |votants| && Subscript(votants[i], "acteurRef") == Raise(r.exc)
    decreases |votants|
  {
    if |votants| == 0 then Ok([])
    else
      var first :- Subscript(votants[0], "acteurRef");
      var rest :- ActorRefs(votants[1..]);
      Ok([first] + rest)
  }

  /** `get_voters_list(voters_data)`: no voter for None or a missing or
      null `votant`; the references of a list of voters, in order; the one
      reference of any other `votant`; and a non-dict has no `.get`. */
  function VotersList(votersData: Json): (r: Py<seq<Json>>)
    ensures votersData.JNull? ==> r == Ok([])
    ensures !votersData.JNull? && !votersData.JObj? ==> r == Raise(AttributeError)
    ensures votersData.JObj? ==>
      var votants := Field(votersData.fields, "votant", JNull);
      && (votants.JNull? ==> r == Ok([]))
      && (votants.JArr? && r.Ok? ==> |r.value| == |votants.items|)
      && (votants.JArr? && r.Ok? ==> forall i :: 0 <= i < |votants.items| ==> Subscript(votants.items[i], "acteurRef") == Ok(r.value[i]))
      && (!votants.JNull? && !votants.JArr? ==> r.Ok? == Subscript(votants, "acteurRef").Ok?)
      && (!votants.JNull? && !votants.JArr? && r.Ok? ==> r.value == [Subscript(votants, "acteurRef").value])
  {
    if votersData.JNull? then Ok([])
    else
      var votants :- Get(votersData, "votant", JNull);
      if votants.JNull? then Ok([])
      else if votants.JArr? then ActorRefs(votants.items)
      else
        var ref :- Subscript(votants, "acteurRef");
        Ok([ref])
  }

  /** The four lists of one vote: for, against, not voting, abstaining. */
  datatype Ballots = Ballots(votesFor: seq<Json>, votesAgainst: seq<Json>, votesNovote: seq<Json>, votesAbs: seq<Json>)
  {
    /** `extend` of each list by the other's. */
    function Plus(other: Ballots): Ballots
    {
      Ballots(votesFor + other.votesFor, votesAgainst + other.votesAgainst,
              votesNovote + other.votesNovote, votesAbs + other.votesAbs)
    }
  }

  const NoBallots := Ballots([], [], [], [])

  /** Lines 90-95: the four lists of one group, read from its
      `decompteNominatif` under the plural keys only. */
  function GroupBallots(organ: Json): (r: Py<Ballots>)
    ensures !organ.JObj? ==> r == Raise(AttributeError)
    ensures organ.JObj? && !HasKey(organ.fields, "vote") ==> r == Ok(NoBallots)
  {
    var vote :- Get(organ, "vote", JObj([]));
    var voters :- Get(vote, "decompteNominatif", JObj([]));
    // `voters.get` raises on a non-dict; on a dict every `.get` succeeds
    if !voters.JObj? then Raise(AttributeError)
    else
      var votesFor :- VotersList(Field(voters.fields, "pours", JNull));
      var votesAgainst :- VotersList(Field(voters.fields, "contres", JNull));
      var votesNovote :- VotersList(Field(voters.fields, "nonVotants", JNull));
      var votesAbs :- VotersList(Field(voters.fields, "abstentions", JNull));
      Ok(Ballots(votesFor, votesAgainst, votesNovote, votesAbs))
  }

  /** Lines 90-95: the four lists of a group that reads well are the voter
      lists of the four plural keys of its `decompteNominatif` dict. */
  lemma GroupBallotsLists(organ: Json)
    requires GroupBallots(organ).Ok?
    ensures organ.JObj? && Field(organ.fields, "vote", JObj([])).JObj?
    ensures var voters := Field(Field(organ.fields, "vote", JObj([])).fields, "decompteNominatif", JObj([]));
      && voters.JObj?
      && VotersList(Field(voters.fields, "pours", JNull)) == Ok(GroupBallots(organ).value.votesFor)
      && VotersList(Field(voters.fields, "contres", JNull)) == Ok(GroupBallots(organ).value.votesAgainst)
      && VotersList(Field(voters.fields, "nonVotants", JNull)) == Ok(GroupBallots(organ).value.votesNovote)
      && VotersList(Field(voters.fields, "abstentions", JNull)) == Ok(GroupBallots(organ).value.votesAbs)
  {
  }

  /** Lines 88-95: the groups in order, each group's lists appended. */
  function GroupsBallots(organs: seq<Json>): Py<Ballots>
    decreases |organs|
  {
    if |organs| == 0 then Ok(NoBallots)
    else
      var before :- GroupsBallots(organs[..|organs| - 1]);
      var last :- GroupBallots(organs[|organs| - 1]);
      Ok(before.Plus(last))
  }

  /** Lines 79-85: `groupe` as the loop sees it. Only an EMPTY dict is
      wrapped in a list; a non-empty dict is iterated over its keys. */
  function OrganList(groupes: Json): (r: Py<seq<Json>>)
    ensures !groupes.JObj? ==> r == Raise(AttributeError)
    ensures groupes.JObj? ==>
      var groupe := Field(groupes.fields, "groupe", JNull);
      && (groupe == JObj([]) ==> r == Ok([groupe]))
      && (!Truthy(groupe) && !groupe.JObj? ==> r == Ok([]))
      && (groupe.JArr? ==> r == Ok(groupe.items))
      && (groupe.JObj? && r.Ok? && groupe.fields != [] ==> forall i :: 0 <= i < |r.value| ==> r.value[i].JStr?)
      && (groupe.JObj? && groupe.fields != [] ==> r.Ok? && |r.value| == |groupe.fields|)
      && (r.Raise? ==> r.exc == TypeError && !(groupe.JArr? || groupe.JObj? || groupe.JStr?))
  {
    var groupe :- Get(groupes, "groupe", JNull);
    if !Truthy(groupe) then (if groupe.JObj? then Ok([groupe]) else Ok([]))
    else Iterate(groupe)
  }

  /** What is stored for one vote. */
  datatype VoteRecord = VoteRecord(date: Json, voteType: Json, votesFor: seq<Json>, votesAgainst: seq<Json>, votesAbs: seq<Json>)

  /** The stored dict, with its five keys in order. */
  function RecordJson(r: VoteRecord): (j: Json)
    ensures j.JObj? && |j.fields| == 5
    ensures forall i :: 0 <= i < 5 ==> j.fields[i].0 == ["date", "type", "votes_for", "votes_against", "votes_abs"][i]
    ensures Values(j.fields) == [r.date, r.voteType, JArr(r.votesFor), JArr(r.votesAgainst), JArr(r.votesAbs)]
  {
    JObj([("date", r.date), ("type", r.voteType), ("votes_for", JArr(r.votesFor)),
          ("votes_against", JArr(r.votesAgainst)), ("votes_abs", JArr(r.votesAbs))])
  }

  /** A value Python can use as a dict key. */
  predicate Hashable(j: Json)
  {
    !j.JArr? && !j.JObj?
  }

  /** The `.get` chain of lines 62-65, which runs before the `uid` test. */
  datatype Header = Header(scrutin: Json, voteId: Json, date: Json, voteType: Json)

  function ReadHeader(json: Json): (r: Py<Header>)
    ensures r.Ok? <==>
      && json.JObj? && Field(json.fields, "scrutin", JObj([])).JObj?
      && Field(Field(json.fields, "scrutin", JObj([])).fields, "typeVote", JObj([])).JObj?
    ensures r.Raise? ==> r.exc == AttributeError
    ensures r.Ok? ==>
      && r.value.scrutin == Field(json.fields, "scrutin", JObj([]))
      && r.value.voteId == Field(r.value.scrutin.fields, "uid", JNull)
      && r.value.date == Field(r.value.scrutin.fields, "dateScrutin", JNull)
  {
    var scrutin :- Get(json, "scrutin", JObj([]));
    // `scrutin.get` raises on a non-dict; on a dict every `.get` succeeds
    if !scrutin.JObj? then Raise(AttributeError)
    else
      var code :- Get(Field(scrutin.fields, "typeVote", JObj([])), "codeTypeVote", JNull);
      Ok(Header(scrutin, Field(scrutin.fields, "uid", JNull), Field(scrutin.fields, "dateScrutin", JNull), code))
  }

  /** The `ventilationVotes` / `organe` / `groupes` / `groupe` chain stops at
      a missing key, every container above the gap being a dict. */
  predicate GroupsAbsent(scrutin: Json)
  {
    && scrutin.JObj?
    && (|| !HasKey(scrutin.fields, "ventilationVotes")
        || var v := Field(scrutin.fields, "ventilationVotes", JObj([]));
           && v.JObj?
           && (|| !HasKey(v.fields, "organe")
               || var o := Field(v.fields, "organe", JObj([]));
                  && o.JObj?
                  && (|| !HasKey(o.fields, "groupes")
                      || var g := Field(o.fields, "groupes", JObj([]));
                         g.JObj? && !HasKey(g.fields, "groupe"))))
  }

  /** Line 78: `groupes_data`. Each `.get` needs a dict and defaults to `{}`. */
  function ReadGroupes(scrutin: Json): (r: Py<Json>)
    ensures r.Ok? <==>
      && scrutin.JObj?
      && var v := Field(scrutin.fields, "ventilationVotes", JObj([]));
         v.JObj? && Field(v.fields, "organe", JObj([])).JObj?
    ensures r.Raise? ==> r.exc == AttributeError
    ensures r.Ok? ==>
      var v := Field(scrutin.fields, "ventilationVotes", JObj([]));
      r.value == Field(Field(v.fields, "organe", JObj([])).fields, "groupes", JObj([]))
  {
    var ventilation :- Get(scrutin, "ventilationVotes", JObj([]));
    var organe :- Get(ventilation, "organe", JObj([]));
    Get(organe, "groupes", JObj([]))
  }

  /** Lines 78-85: the groups the loop visits. A missing container means no
      group at all; a container that is not a dict raises AttributeError. */
  function ReadOrgans(scrutin: Json): (r: Py<seq<Json>>)
    ensures GroupsAbsent(scrutin) ==> r == Ok([])
    ensures ReadGroupes(scrutin).Raise? ==> r == Raise(AttributeError)
    ensures r.Ok? ==> ReadGroupes(scrutin).Ok? && ReadGroupes(scrutin).value.JObj?
    ensures r.Raise? ==> r.exc == AttributeError || r.exc == TypeError
  {
    var groupes :- ReadGroupes(scrutin);
    OrganList(groupes)
  }

  /** The body of the file loop (lines 61-106) for one decoded file: None
      when the vote has no truthy `uid`, otherwise the key and record. */
  function VoteFile(json: Json): (r: Py<Option<(Json, VoteRecord)>>)
    ensures r == Ok(None) <==> ReadHeader(json).Ok? && !Truthy(ReadHeader(json).value.voteId)
    ensures r.Ok? && r.value.Some? ==>
      && ReadHeader(json).Ok?
      && r.value.value.0 == ReadHeader(json).value.voteId
      && Truthy(r.value.value.0) && Hashable(r.value.value.0)
      && r.value.value.1.date == ReadHeader(json).value.date
      && r.value.value.1.voteType == ReadHeader(json).value.voteType
  {
    var header :- ReadHeader(json);
    if !Truthy(header.voteId) then Ok(None)
    else
      var organs :- ReadOrgans(header.scrutin);
      var ballots :- GroupsBallots(organs);
      if !Hashable(header.voteId) then Raise(TypeError)
      else Ok(Some((header.voteId, VoteRecord(header.date, header.voteType, ballots.votesFor, ballots.votesAgainst, ballots.votesAbs))))
  }

  /** One file of the loop: None for a file that does not decode (skipped). */
  function FileStep(acc: Py<map<Json, VoteRecord>>, file: Option<Json>): (r: Py<map<Json, VoteRecord>>)
    ensures acc.Raise? || file.None? ==> r == acc
    ensures acc.Ok? && file.Some? ==> (r.Raise? <==> VoteFile(file.value).Raise?)
    ensures r.Ok? ==> acc.Ok? && acc.value.Keys <= r.value.Keys && |r.value.Keys - acc.value.Keys| <= 1
  {
    var votes :- acc;
    if file.None? then Ok(votes)
    else
      var entry :- VoteFile(file.value);
      if entry.None? then Ok(votes) else Ok(votes[entry.value.0 := entry.value.1])
  }

  /** The files in order, from `acc`. */
  function Accumulate(acc: Py<map<Json, VoteRecord>>, files: seq<Option<Json>>): (r: Py<map<Json, VoteRecord>>)
    ensures acc.Raise? ==> r == acc
    ensures r.Ok? ==> acc.Ok? && acc.value.Keys <= r.value.Keys
    decreases |files|
  {
    if |files| == 0 then acc else FileStep(Accumulate(acc, files[..|files| - 1]), files[|files| - 1])
  }

  /** What `process_json_files` leaves behind. */
  datatype Outcome = Crashed(exc: Exc) | NothingWritten | Written(votes: map<Json, VoteRecord>)

  function FilesOutcome(files: seq<Option<Json>>): (r: Outcome)
    ensures r.Written? ==> r.votes != map[]
  {
    match Accumulate(Ok(map[]), files)
    case Raise(e) => Crashed(e)
    case Ok(votes) => if votes == map[] then NothingWritten else Written(votes)
  }

  /** Lines 72-106 for one decoded file, with the four lists extended group
      by group. */
  method NormaliseVoteFile(json: Json) returns (r: Py<Option<(Json, VoteRecord)>>)
    ensures r == VoteFile(json)
  {
    var header := ReadHeader(json);
    if header.Raise? {
      return Raise(header.exc);
    }
    var voteId := header.value.voteId;
    if !Truthy(voteId) {
      return Ok(None);
    }
    var organs := ReadOrgans(header.value.scrutin);
    if organs.Raise? {
      return Raise(organs.exc);
    }
    var ballots := ExtendBallots(organs.value);
    if ballots.Raise? {
      return Raise(ballots.exc);
    }
    if !Hashable(voteId) {
      return Raise(TypeError);
    }
    var b := ballots.value;
    r := Ok(Some((voteId, VoteRecord(header.value.date, header.value.voteType, b.votesFor, b.votesAgainst, b.votesAbs))));
  }

  /** Lines 88-95: the four lists extended group by group; the first group
      that raises ends the loop. */
  method ExtendBallots(list: seq<Json>) returns (r: Py<Ballots>)
    ensures r == GroupsBallots(list)
  {
    var votesFor: seq<Json> := [];
    var votesAgainst: seq<Json> := [];
    var votesNovote: seq<Json> := [];
    var votesAbs: seq<Json> := [];
    var i := 0;
    while i < |list|
      invariant 0 <= i <= |list|
      invariant GroupsBallots(list[..i]) == Ok(Ballots(votesFor, votesAgainst, votesNovote, votesAbs))
    {
      assert list[..i + 1][..i] == list[..i];
      var group := GroupBallots(list[i]);
      if group.Raise? {
        GroupsBallotsStops(list, i + 1);
        return Raise(group.exc);
      }
      votesFor := votesFor + group.value.votesFor;
      votesAgainst := votesAgainst + group.value.votesAgainst;
      votesNovote := votesNovote + group.value.votesNovote;
      votesAbs := votesAbs + group.value.votesAbs;
      i := i + 1;
    }
    assert list[..i] == list;
    r := Ok(Ballots(votesFor, votesAgainst, votesNovote, votesAbs));
  }

  /** `process_json_files` over the decoded files (None: does not decode). */
  method ProcessJsonFiles(files: seq<Option<Json>>) returns (out: Outcome)
    ensures out == FilesOutcome(files)
  {
    var legislatureVote: map<Json, VoteRecord> := map[];
    var i := 0;
    while i < |files|
      invariant 0 <= i <= |files|
      invariant Accumulate(Ok(map[]), files[..i]) == Ok(legislatureVote)
    {
      assert files[..i + 1][..i] == files[..i];
      var next := ProcessFile(legislatureVote, files[i]);
      if next.Raise? {
        AccumulateStops(Ok(map[]), files, i + 1);
        return Crashed(next.exc);
      }
      legislatureVote := next.value;
      i := i + 1;
    }
    assert files[..i] == files;
    if legislatureVote == map[] {
      return NothingWritten;
    }
    out := Written(legislatureVote);
  }

  /** Lines 58-106 for one file: a file that does not decode is skipped, a
      vote without `uid` changes nothing, otherwise its record is stored
      under its `uid`, replacing an earlier record with the same `uid`. */
  method ProcessFile(votes: map<Json, VoteRecord>, file: Option<Json>) returns (r: Py<map<Json, VoteRecord>>)
    ensures r == FileStep(Ok(votes), file)
  {
    if file.None? {
      return Ok(votes);
    }
    var entry := NormaliseVoteFile(file.value);
    if entry.Raise? {
      return Raise(entry.exc);
    }
    if entry.value.None? {
      return Ok(votes);
    }
    r := Ok(votes[entry.value.value.0 := entry.value.value.1]);
  }

  /** A group that raises ends the loop over groups. */
  lemma {:induction false} GroupsBallotsStops(organs: seq<Json>, j: nat)
    requires j <= |organs| && GroupsBallots(organs[..j]).Raise?
    ensures GroupsBallots(organs) == GroupsBallots(organs[..j])
    decreases |organs| - j
  {
    if j < |organs| {
      assert organs[..j + 1][..j] == organs[..j];
      GroupsBallotsStops(organs, j + 1);
    } else {
      assert organs[..j] == organs;
    }
  }

  /** A file that raises ends the run. */
  lemma {:induction false} AccumulateStops(acc: Py<map<Json, VoteRecord>>, files: seq<Option<Json>>, j: nat)
    requires j <= |files| && Accumulate(acc, files[..j]).Raise?
    ensures Accumulate(acc, files) == Accumulate(acc, files[..j])
    decreases |files| - j
  {
    if j < |files| {
      assert files[..j + 1][..j] == files[..j];
      AccumulateStops(acc, files, j + 1);
    } else {
      assert files[..j] == files;
    }
  }
}
