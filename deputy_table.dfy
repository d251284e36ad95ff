/** The `deputees` dict of extract_deputees.py and the functions that
    update it in place, each proved to leave the table that the functions
    of module Deputies describe. */
module DeputyAggregation {
  import opened Json
  import opened Seqs
  import opened Dates
  import opened Deputies
  import opened DeputyLemmas

  class DeputyTable {
    var deputies: Table
    /** The actor files read by `create_deputee_base`. */
    const bios: Store
    /** The group files read by `get_organ_name`. */
    const groups: GroupStore

    ghost predicate Valid()
      reads this
    {
      WellFormed(deputies)
    }

    constructor (bios: Store, groups: GroupStore)
      ensures Valid()
      ensures deputies == map[] && this.bios == bios && this.groups == groups
    {
      deputies := map[];
      this.bios := bios;
      this.groups := groups;
    }

    /** Lines 230-245: one voter whose `acteurRef` is the string `actor`. */
    method RecordVote(actor: string, seat: Json, organ: Organ, date: Json) returns (raised: Option<Exc>)
      modifies this
      ensures Run(deputies, raised) == VoterStep(bios, old(deputies), actor, seat, organ, date)
    {
      ghost var t := deputies;
      var existing := actor in deputies;
      var deputy: Deputy;
      if existing {
        deputy := deputies[actor];
      } else {
        var created := CreateDeputy(bios, actor);
        if created.None? {
          return None;
        }
        deputy := created.value;
      }
      ghost var seated := deputy.(chairNumbers := RecordSeat(deputy.chairNumbers, seat));
      if Truthy(seat) && seat !in deputy.chairNumbers {
        deputy := deputy.(chairNumbers := deputy.chairNumbers + [seat]);
        if existing {
          // the stored dict itself is appended to
          deputies := deputies[actor := deputy];
        }
      }
      assert deputy == seated;
      assert deputies == if existing then t[actor := seated] else t;
      if !(deputy.organ.Some? && deputy.organ.value.id == organ.id) {
        if !date.JStr? {
          assert Regroup(seated, organ, date) == Raise(TypeError);
          return Some(TypeError);
        }
        if CompareDate(date.s, StoredDate(deputy)).Holds() {
          deputy := deputy.(organ := Some(organ.(date := Some(date.s))));
        }
      }
      assert Regroup(seated, organ, date) == Ok(deputy);
      deputies := deputies[actor := deputy];
      raised := None;
    }

    /** Lines 221-245: one entry of a position's `votant` list. */
    method ProcessVotant(votant: Json, organ: Organ, date: Json) returns (raised: Option<Exc>)
      modifies this
      ensures Run(deputies, raised) == Apply(bios, Run(old(deputies), None), VotantEvents(votant, organ, date))
    {
      ghost var before := deputies;
      raised := None;
      if votant.JObj? {
        var ref := Field(votant.fields, "acteurRef", JNull);
        var seat := Field(votant.fields, "numPlace", JNull);
        if Truthy(ref) {
          if ref.JStr? {
            raised := RecordVote(ref.s, seat, organ, date);
            ApplySingle(bios, Run(before, None), Voter(ref.s, seat, organ, date));
          } else if ref.JArr? || ref.JObj? {
            raised := Some(TypeError);
            ApplySingle(bios, Run(before, None), Raised(TypeError));
          }
        }
      }
    }

    /** Lines 210-245: one vote position and its voters. */
    method ProcessPosition(position: Json, organ: Organ, date: Json) returns (raised: Option<Exc>)
      modifies this
      ensures Run(deputies, raised) == Apply(bios, Run(old(deputies), None), PositionEvents(position, organ, date))
    {
      if !position.JObj? || !Truthy(position) || !HasKey(position.fields, "votant") {
        return None;
      }
      var votants := OneOrMany(Field(position.fields, "votant", JNull));
      if votants.Raise? {
        assert PositionEvents(position, organ, date) == [Raised(votants.exc)];
        ApplySingle(bios, Run(deputies, None), Raised(votants.exc));
        return Some(votants.exc);
      }
      var list := votants.value;
      assert PositionEvents(position, organ, date) == VotantsEvents(list, organ, date);
      ghost var t0 := deputies;
      var i := 0;
      while i < |list|
        invariant 0 <= i <= |list|
        invariant Run(deputies, None) == Apply(bios, Run(t0, None), VotantsEvents(list[..i], organ, date))
      {
        ghost var before := deputies;
        var r := ProcessVotant(list[i], organ, date);
        AdvanceVotants(bios, list, organ, date, i, Run(t0, None), Run(before, None), Run(deputies, r));
        if r.Some? {
          return r;
        }
        i := i + 1;
      }
      assert list[..i] == list;
      raised := None;
    }

    /** Lines 189-245: one group of a vote. */
    method ProcessGroup(organ: Json, date: Json) returns (raised: Option<Exc>)
      modifies this
      ensures Run(deputies, raised) == Apply(bios, Run(old(deputies), None), GroupEvents(groups, organ, date))
    {
      if !organ.JObj? {
        return None;
      }
      var organId := Field(organ.fields, "organeRef", JNull);
      if !Truthy(organId) {
        return None;
      }
      var organData := OrganLookup(groups, organId);
      if organData.Raise? {
        ApplySingle(bios, Run(deputies, None), Raised(organData.exc));
        return Some(organData.exc);
      }
      if organData.value.None? {
        return None;
      }
      var vote := Field(organ.fields, "vote", JObj([]));
      if !vote.JObj? {
        return None;
      }
      var byPosition := Field(vote.fields, "decompteNominatif", JObj([]));
      if !byPosition.JObj? {
        return None;
      }
      var positions := Values(byPosition.fields);
      var group := organData.value.value;
      ghost var t0 := deputies;
      var i := 0;
      while i < |positions|
        invariant 0 <= i <= |positions|
        invariant Run(deputies, None) == Apply(bios, Run(t0, None), PositionsEvents(positions[..i], group, date))
      {
        ghost var before := deputies;
        var r := ProcessPosition(positions[i], group, date);
        AdvanceLoop(bios, p => PositionEvents(p, group, date), positions, i, Run(t0, None), Run(before, None), Run(deputies, r));
        if r.Some? {
          return r;
        }
        i := i + 1;
      }
      assert positions[..i] == positions;
      raised := None;
    }

    /** `process_single_vote_file(voteData, deputees)`. */
    method ProcessVote(voteData: Json)
      requires Valid()
      modifies this
      ensures Valid()
      ensures deputies == VoteOutcome(bios, groups, old(deputies), voteData)
    {
      ghost var t0 := deputies;
      ApplyWellFormed(bios, Run(t0, None), VoteEvents(groups, voteData));
      var s := Get(voteData, "scrutin", voteData);
      if s.Raise? {
        ApplySingle(bios, Run(t0, None), Raised(s.exc));
        return;
      }
      var scrutin := s.value;
      var present := Contains(scrutin, "ventilationVotes");
      if present.Raise? {
        ApplySingle(bios, Run(t0, None), Raised(present.exc));
        return;
      }
      if !present.value {
        return;
      }
      var v := Subscript(scrutin, "ventilationVotes");
      if v.Raise? {
        ApplySingle(bios, Run(t0, None), Raised(v.exc));
        return;
      }
      var ventilation := v.value;
      if !ventilation.JObj? {
        return;
      }
      var organe := Field(ventilation.fields, "organe", JObj([]));
      if !organe.JObj? {
        return;
      }
      var groupes := Field(organe.fields, "groupes", JObj([]));
      if !groupes.JObj? {
        return;
      }
      var organs := OneOrMany(Field(groupes.fields, "groupe", JArr([])));
      var date := Field(scrutin.fields, "dateScrutin", JStr(DefaultDate));
      if organs.Raise? {
        ApplySingle(bios, Run(t0, None), Raised(organs.exc));
        return;
      }
      assert VoteEvents(groups, voteData) == OrgansEvents(groups, organs.value, date);
      var r := ProcessGroups(organs.value, date);
    }

    /** Lines 188-245: the groups of a vote in order; the first exception
        ends the loop. */
    method ProcessGroups(list: seq<Json>, date: Json) returns (raised: Option<Exc>)
      modifies this
      ensures Run(deputies, raised) == Apply(bios, Run(old(deputies), None), OrgansEvents(groups, list, date))
    {
      ghost var t0 := deputies;
      var i := 0;
      while i < |list|
        invariant 0 <= i <= |list|
        invariant Run(deputies, None) == Apply(bios, Run(t0, None), OrgansEvents(groups, list[..i], date))
      {
        ghost var before := deputies;
        var r := ProcessGroup(list[i], date);
        AdvanceLoop(bios, o => GroupEvents(groups, o, date), list, i, Run(t0, None), Run(before, None), Run(deputies, r));
        if r.Some? {
          return r;
        }
        i := i + 1;
      }
      assert list[..i] == list;
      raised := None;
    }

    /** Lines 143-154: one speaker `actor` of a paragraph whose text is `text`. */
    method RecordSpeech(actor: string, text: Json)
      modifies this
      ensures deputies == SpeechStep(bios, old(deputies), actor, text)
    {
      if actor !in deputies {
        var created := CreateDeputy(bios, actor);
        if created.None? {
          return;
        }
        deputies := deputies[actor := created.value];
      }
      var d := deputies[actor];
      deputies := deputies[actor := d.(speeches := d.speeches + [text])];
    }

    /** Lines 139-154: one entry of a paragraph's speaker list. */
    method ProcessSpeaker(orateur: Json, text: Json) returns (raised: Option<Exc>)
      modifies this
      ensures Run(deputies, raised) == Apply(bios, Run(old(deputies), None), SpeakerEvents(orateur, text))
    {
      ghost var t0 := deputies;
      var present := Contains(orateur, "id");
      if present.Raise? {
        ApplySingle(bios, Run(t0, None), Raised(present.exc));
        return Some(present.exc);
      }
      if !present.value {
        return None;
      }
      var id := Subscript(orateur, "id");
      if id.Raise? {
        ApplySingle(bios, Run(t0, None), Raised(id.exc));
        return Some(id.exc);
      }
      if !id.value.JStr? {
        ApplySingle(bios, Run(t0, None), Raised(TypeError));
        return Some(TypeError);
      }
      RecordSpeech("PA" + id.value.s, text);
      ApplySingle(bios, Run(t0, None), Speech("PA" + id.value.s, text));
      raised := None;
    }

    /** Lines 120-154: one paragraph and its speakers. */
    method ProcessParagraph(para: Json) returns (raised: Option<Exc>)
      modifies this
      ensures Run(deputies, raised) == Apply(bios, Run(old(deputies), None), ParagraphEvents(para))
    {
      if !para.JObj? {
        return None;
      }
      var orateurs := Field(para.fields, "orateurs", JNull);
      if !HasKey(para.fields, "orateurs") || !Truthy(orateurs) {
        return None;
      }
      var speakers := SpeakerList(orateurs);
      if speakers.Raise? {
        ApplySingle(bios, Run(deputies, None), Raised(speakers.exc));
        return Some(speakers.exc);
      }
      var list := speakers.value;
      var text := Field(para.fields, "texte", JStr(""));
      ghost var t0 := deputies;
      var i := 0;
      while i < |list|
        invariant 0 <= i <= |list|
        invariant Run(deputies, None) == Apply(bios, Run(t0, None), SpeakersEvents(list[..i], text))
      {
        ghost var before := deputies;
        var r := ProcessSpeaker(list[i], text);
        AdvanceLoop(bios, o => SpeakerEvents(o, text), list, i, Run(t0, None), Run(before, None), Run(deputies, r));
        if r.Some? {
          return r;
        }
        i := i + 1;
      }
      assert list[..i] == list;
      raised := None;
    }

    /** Lines 111-154: one point and its paragraphs. */
    method ProcessPoint(point: Json) returns (raised: Option<Exc>)
      modifies this
      ensures Run(deputies, raised) == Apply(bios, Run(old(deputies), None), PointEvents(point))
    {
      var present := Contains(point, "paragraphe");
      if present.Raise? {
        ApplySingle(bios, Run(deputies, None), Raised(present.exc));
        return Some(present.exc);
      }
      if !present.value {
        return None;
      }
      var p := Subscript(point, "paragraphe");
      if p.Raise? {
        ApplySingle(bios, Run(deputies, None), Raised(p.exc));
        return Some(p.exc);
      }
      var paragraphs := OneOrMany(p.value);
      if paragraphs.Raise? {
        ApplySingle(bios, Run(deputies, None), Raised(paragraphs.exc));
        return Some(paragraphs.exc);
      }
      var list := paragraphs.value;
      ghost var t0 := deputies;
      var i := 0;
      while i < |list|
        invariant 0 <= i <= |list|
        invariant Run(deputies, None) == Apply(bios, Run(t0, None), ParagraphsEvents(list[..i]))
      {
        ghost var before := deputies;
        var r := ProcessParagraph(list[i]);
        AdvanceLoop(bios, ParagraphEvents, list, i, Run(t0, None), Run(before, None), Run(deputies, r));
        if r.Some? {
          return r;
        }
        i := i + 1;
      }
      assert list[..i] == list;
      raised := None;
    }

    /** Lines 110-154: the loop over the points of a transcript. */
    method ProcessPoints(list: seq<Json>) returns (raised: Option<Exc>)
      modifies this
      ensures Run(deputies, raised) == Apply(bios, Run(old(deputies), None), PointsEvents(list))
    {
      ghost var t0 := deputies;
      var i := 0;
      while i < |list|
        invariant 0 <= i <= |list|
        invariant Run(deputies, None) == Apply(bios, Run(t0, None), PointsEvents(list[..i]))
      {
        ghost var before := deputies;
        var r := ProcessPoint(list[i]);
        AdvanceLoop(bios, PointEvents, list, i, Run(t0, None), Run(before, None), Run(deputies, r));
        if r.Some? {
          return r;
        }
        i := i + 1;
      }
      assert list[..i] == list;
      raised := None;
    }

    /** Lines 95-154: the body of the `try` for one decoded transcript file. */
    method ProcessTranscript(data: Json) returns (raised: Option<Exc>)
      requires Valid()
      modifies this
      ensures Valid()
      ensures Run(deputies, raised) == TranscriptOutcome(bios, old(deputies), data)
    {
      ghost var t0 := deputies;
      ApplyWellFormed(bios, Run(t0, None), TranscriptEvents(data));
      var present := Contains(data, "contenu");
      if present.Raise? {
        ApplySingle(bios, Run(t0, None), Raised(present.exc));
        return Some(present.exc);
      }
      if !present.value {
        return None;
      }
      var contenu := Subscript(data, "contenu");
      if contenu.Raise? {
        ApplySingle(bios, Run(t0, None), Raised(contenu.exc));
        return Some(contenu.exc);
      }
      var points := PointList(contenu.value);
      if points.Raise? {
        ApplySingle(bios, Run(t0, None), Raised(points.exc));
        return Some(points.exc);
      }
      raised := ProcessPoints(points.value);
    }

    /** `process_compte_rendu_files` over the decoded files (None: the file
        does not decode). Returns the exception that escapes its handler. */
    method ProcessTranscripts(files: seq<Option<Json>>) returns (raised: Option<Exc>)
      requires Valid()
      modifies this
      ensures Valid()
      ensures Run(deputies, raised) == TranscriptsOutcome(bios, old(deputies), files)
    {
      ghost var t0 := deputies;
      var i := 0;
      while i < |files|
        invariant 0 <= i <= |files|
        invariant Valid()
        invariant Run(deputies, None) == TranscriptsOutcome(bios, t0, files[..i])
      {
        assert files[..i + 1][..i] == files[..i];
        if files[i].Some? {
          var r := ProcessTranscript(files[i].value);
          if r.Some? && r.value != KeyError {
            TranscriptsOutcomeStops(bios, t0, files, i + 1);
            return r;
          }
        }
        i := i + 1;
      }
      assert files[..i] == files;
      raised := None;
    }

    /** `process_folder_format` over the decoded files (None: skipped). */
    method ProcessFolderFormat(files: seq<Option<Json>>)
      requires Valid()
      modifies this
      ensures Valid()
      ensures deputies == FolderOutcome(bios, groups, old(deputies), files)
    {
      ghost var t0 := deputies;
      var i := 0;
      while i < |files|
        invariant 0 <= i <= |files|
        invariant Valid()
        invariant deputies == FolderOutcome(bios, groups, t0, files[..i])
      {
        assert files[..i + 1][..i] == files[..i];
        if files[i].Some? {
          ProcessVote(files[i].value);
        }
        i := i + 1;
      }
      assert files[..i] == files;
    }

    /** `process_single_file_format` on the decoded file (None: missing or
        undecodable). Returns the exception that escapes its handler. */
    method ProcessSingleFileFormat(file: Option<Json>) returns (raised: Option<Exc>)
      requires Valid()
      modifies this
      ensures Valid()
      ensures Run(deputies, raised) == SingleFileOutcome(bios, groups, old(deputies), file)
    {
      if file.None? {
        return None;
      }
      var scrutins := Get(file.value, "scrutins", JObj([]));
      if scrutins.Raise? {
        return Uncaught(Some(scrutins.exc));
      }
      var records := Get(scrutins.value, "scrutin", JArr([]));
      if records.Raise? {
        return Uncaught(Some(records.exc));
      }
      if !records.value.JArr? {
        return None;
      }
      var list := records.value.items;
      ghost var t0 := deputies;
      var i := 0;
      while i < |list|
        invariant 0 <= i <= |list|
        invariant Valid()
        invariant deputies == RecordsOutcome(bios, groups, t0, list[..i])
      {
        assert list[..i + 1][..i] == list[..i];
        ProcessVote(list[i]);
        i := i + 1;
      }
      assert list[..i] == list;
      raised := None;
    }

    /** Lines 329-331: every group loses its `date` key. */
    method StripDates()
      requires Valid()
      modifies this
      ensures Valid()
      ensures deputies == CleanDates(old(deputies))
    {
      ghost var t0 := deputies;
      var pending := deputies.Keys;
      while pending != {}
        invariant pending <= t0.Keys && deputies.Keys == t0.Keys
        invariant forall k :: k in t0 ==> deputies[k] == if k in pending then t0[k] else WithoutDate(t0[k])
        decreases pending
      {
        var k :| k in pending;
        var d := deputies[k];
        if d.organ.Some? && d.organ.value.date.Some? {
          deputies := deputies[k := d.(organ := Some(d.organ.value.(date := None)))];
        }
        pending := pending - {k};
      }
      assert deputies == CleanDates(t0);
      CleanDatesWellFormed(t0);
    }
  }

  /** `process_legislature`: both passes from an empty table, then the
      clean-up; the table that is written, or None when nothing is. */
  method ProcessLegislature(bios: Store, groups: GroupStore, votes: VoteSource, transcripts: Option<seq<Option<Json>>>)
    returns (output: Option<Table>)
    ensures output == LegislatureOutput(bios, groups, votes, transcripts)
    ensures output.Some? ==> WellFormed(output.value)
  {
    var table := new DeputyTable(bios, groups);
    var raised: Option<Exc> := None;
    if votes.SingleFile? {
      raised := table.ProcessSingleFileFormat(votes.file);
    } else {
      table.ProcessFolderFormat(votes.files);
    }
    if raised.Some? {
      return None;
    }
    if transcripts.Some? {
      raised := table.ProcessTranscripts(transcripts.value);
      if raised.Some? {
        return None;
      }
    }
    table.StripDates();
    if table.deputies == map[] {
      return None;
    }
    output := Some(table.deputies);
  }
}
