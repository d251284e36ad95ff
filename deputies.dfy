/** The deputy table of extract_deputees.py as pure functions.

    Reading a vote or transcript document is split in two: the navigation
    functions below walk the irregular document exactly as the script does
    and list what it does to the table, as a sequence of events; `Apply`
    then folds those events into the table. An exception raised part-way
    through a document is the event `Raised`: the fold keeps the table as it
    stands and ignores what follows, as the script's `try` does. */
module Deputies {
  import opened Json
  import opened Seqs
  import opened Dates

  /** A political group as `get_organ_name` builds it, with the `date` key
      that the vote pass adds (None once `process_legislature` strips it). */
  datatype Organ = Organ(id: string, name: Json, nameFrom: Json, nameShort: Json, color: Json, date: Option<string>)

  /** One entry of the `deputees` dict; `organ == None` is the empty dict. */
  datatype Deputy = Deputy(name: string, chairNumbers: seq<Json>, organ: Option<Organ>, speeches: seq<Json>)

  /** `deputees`, keyed by actor reference. */
  type Table = map<string, Deputy>

  /** The decoded actor files under data/all_actors/acteur/, keyed by
      identifier; an absent id is a file that is missing or does not
      decode, which the callers of `create_deputee_base` both swallow. */
  type Store = map<string, Json>

  /** The group files under data/all_actors/organe/: an absent id is a
      missing file, None a file that exists but does not decode. */
  type GroupStore = map<string, Option<Json>>

  const DefaultDate := "1900-01-01"

  /** `j[k1][k2]...`. */
  function Path(j: Json, keys: seq<string>): Py<Json>
    decreases |keys|
  {
    if |keys| == 0 then Ok(j)
    else
      var x :- Subscript(j, keys[0]);
      Path(x, keys[1..])
  }

  const NomKeys := ["acteur", "etatCivil", "ident", "nom"]
  const PrenomKeys := ["acteur", "etatCivil", "ident", "prenom"]

  /** The `nom` and `prenom` strings of an actor file: present exactly when
      the file exists and both subscript chains reach a string. */
  function Ident(bios: Store, id: string): (r: Option<(string, string)>)
    ensures r.Some? ==> id in bios
    ensures r.Some? ==> Path(bios[id], NomKeys) == Ok(JStr(r.value.0)) && Path(bios[id], PrenomKeys) == Ok(JStr(r.value.1))
    ensures (id in bios && Path(bios[id], NomKeys).Ok? && Path(bios[id], NomKeys).value.JStr?
             && Path(bios[id], PrenomKeys).Ok? && Path(bios[id], PrenomKeys).value.JStr?) ==> r.Some?
  {
    if id !in bios then None
    else
      match (Path(bios[id], NomKeys), Path(bios[id], PrenomKeys))
      case (Ok(JStr(nom)), Ok(JStr(prenom))) => Some((nom, prenom))
      case _ => None
  }

  /** `create_deputee_base`; None where it raises (missing file, missing
      key, a name part that is not a string), which both callers swallow. */
  function CreateDeputy(bios: Store, id: string): (r: Option<Deputy>)
    ensures r.Some? <==> Ident(bios, id).Some?
    ensures r.Some? ==> r.value.name == Ident(bios, id).value.0 + " " + Ident(bios, id).value.1
    ensures r.Some? ==> r.value.chairNumbers == [] && r.value.organ == None && r.value.speeches == []
  {
    match Ident(bios, id)
    case None => None
    case Some((nom, prenom)) => Some(Deputy(nom + " " + prenom, [], None, []))
  }

  /** `get_organ_name(organId)`: Ok(None) is the `{}` returned for a missing
      file; a non-string id raises when the path is built, and a file that
      does not decode raises in `json.load`. */
  function OrganLookup(groups: GroupStore, organId: Json): (r: Py<Option<Organ>>)
    ensures !organId.JStr? ==> r == Raise(TypeError)
    ensures organId.JStr? && organId.s !in groups ==> r == Ok(None)
    ensures organId.JStr? && organId.s in groups && groups[organId.s].None? ==> r == Raise(DecodeError)
    ensures r.Ok? && r.value.Some? ==> organId.JStr? && r.value.value.id == organId.s && r.value.value.date == None
  {
    if !organId.JStr? then Raise(TypeError)
    else if organId.s !in groups then Ok(None)
    else if groups[organId.s].None? then Raise(DecodeError)
    else
      var data := groups[organId.s].value;
      var name :- Path(data, ["organe", "libelle"]);
      var nameFrom :- Path(data, ["organe", "libelleEdition"]);
      var nameShort :- Path(data, ["organe", "libelleAbrege"]);
      var color :- Path(data, ["organe", "couleurAssociee"]);
      Ok(Some(Organ(organId.s, name, nameFrom, nameShort, color, None)))
  }

  /** What reading a document does to the table, one step at a time. */
  datatype Event =
    | Voter(actor: string, seat: Json, organ: Organ, date: Json)
    | Speech(actor: string, text: Json)
    | Raised(exc: Exc)

  /** The table, and the exception that stopped the run, if any. */
  datatype Run = Run(table: Table, raised: Option<Exc>)

  /** The stored date of a deputy's group, as `.get('date', '1900-01-01')` reads it. */
  function StoredDate(d: Deputy): (r: string)
    ensures r == DefaultDate || (d.organ.Some? && d.organ.value.date == Some(r))
    ensures d.organ.Some? && d.organ.value.date.Some? ==> r == d.organ.value.date.value
  {
    if d.organ.Some? then d.organ.value.date.GetOr(DefaultDate) else DefaultDate
  }

  /** `chair_number` is recorded when it is truthy and not yet listed. */
  function RecordSeat(seats: seq<Json>, seat: Json): (r: seq<Json>)
    ensures seats <= r && |r| <= |seats| + 1
    ensures Truthy(seat) ==> seat in r
    ensures !Truthy(seat) || seat in seats ==> r == seats
  {
    if Truthy(seat) && seat !in seats then seats + [seat] else seats
  }

  /** The group test of the vote pass: `organ` replaces the stored group when
      its id differs and `compare_date(date, stored date)` holds. A date that
      is not a string makes `strptime` raise TypeError, which `compare_date`
      does not catch. */
  function Regroup(d: Deputy, organ: Organ, date: Json): (r: Py<Deputy>)
    ensures r.Ok? ==> r.value.name == d.name && r.value.chairNumbers == d.chairNumbers && r.value.speeches == d.speeches
    ensures r.Raise? <==> !date.JStr? && !(d.organ.Some? && d.organ.value.id == organ.id)
    ensures r.Raise? ==> r.exc == TypeError
  {
    if d.organ.Some? && d.organ.value.id == organ.id then Ok(d)
    else if !date.JStr? then Raise(TypeError)
    else if CompareDate(date.s, StoredDate(d)).Holds() then Ok(d.(organ := Some(organ.(date := Some(date.s)))))
    else Ok(d)
  }

  /** The body of the voter loop once `acteurRef` is the string `actor`:
      look the deputy up or create it, record the seat, regroup. When
      regrouping raises, the seat appended in place to an existing deputy
      stays, and a deputy just created is never stored. */
  function VoterStep(bios: Store, t: Table, actor: string, seat: Json, organ: Organ, date: Json): (r: Run)
    ensures actor in r.table <==> actor in t || (r.raised.None? && CreateDeputy(bios, actor).Some?)
    ensures actor in r.table && Truthy(seat) ==> seat in r.table[actor].chairNumbers
    ensures r.raised.Some? ==> r.raised == Some(TypeError) && !date.JStr?
  {
    var found := if actor in t then Some(t[actor]) else CreateDeputy(bios, actor);
    if found.None? then Run(t, None)
    else
      var seated := found.value.(chairNumbers := RecordSeat(found.value.chairNumbers, seat));
      match Regroup(seated, organ, date)
      case Raise(e) => Run(if actor in t then t[actor := seated] else t, Some(e))
      case Ok(d) => Run(t[actor := d], None)
  }

  /** A voter touches only its own entry of the table. */
  lemma VoterStepFrame(bios: Store, t: Table, actor: string, seat: Json, organ: Organ, date: Json)
    ensures forall k :: k != actor ==> (k in VoterStep(bios, t, actor, seat, organ, date).table <==> k in t)
    ensures forall k :: k != actor && k in t ==> VoterStep(bios, t, actor, seat, organ, date).table[k] == t[k]
  {
  }

  /** The speaker loop body of `process_compte_rendu_files`: create the
      deputy if needed (skip the speaker if that fails), append the text. */
  function SpeechStep(bios: Store, t: Table, actor: string, text: Json): (r: Table)
    ensures forall k :: k != actor ==> (k in r <==> k in t)
    ensures forall k :: k != actor && k in t ==> r[k] == t[k]
    ensures actor in r <==> actor in t || CreateDeputy(bios, actor).Some?
    ensures actor in r ==> r[actor].speeches == (if actor in t then t[actor].speeches else []) + [text]
  {
    if actor in t then t[actor := t[actor].(speeches := t[actor].speeches + [text])]
    else
      match CreateDeputy(bios, actor)
      case None => t
      case Some(d) => t[actor := d.(speeches := d.speeches + [text])]
  }

  /** One event, inside the outer `try`: a run that has raised is over; an
      exception is recorded without touching the table; a speech never
      raises, and a voter raises only TypeError. */
  function Step(bios: Store, r: Run, e: Event): (next: Run)
    ensures r.raised.Some? ==> next == r
    ensures r.raised.None? && e.Raised? ==> next == Run(r.table, Some(e.exc))
    ensures r.raised.None? && e.Speech? ==> next.raised.None?
    ensures r.raised.None? && e.Voter? && next.raised.Some? ==> next.raised == Some(TypeError)
  {
    if r.raised.Some? then r
    else
      match e
      case Voter(actor, seat, organ, date) => VoterStep(bios, r.table, actor, seat, organ, date)
      case Speech(actor, text) => Run(SpeechStep(bios, r.table, actor, text), None)
      case Raised(exc) => Run(r.table, Some(exc))
  }

  /** Seat lists as `process_single_vote_file` keeps them: every seat
      truthy, none twice. */
  ghost predicate SeatsWellFormed(seats: seq<Json>)
  {
    && (forall i :: 0 <= i < |seats| ==> Truthy(seats[i]))
    && (forall i, j :: 0 <= i < j < |seats| ==> seats[i] != seats[j])
  }

  ghost predicate WellFormed(t: Table)
  {
    forall k :: k in t ==> SeatsWellFormed(t[k].chairNumbers)
  }

  /** The events applied in order, from `r`. */
  function Apply(bios: Store, r: Run, es: seq<Event>): (next: Run)
    ensures next.raised.None? ==> r.raised.None?
    ensures r.raised.Some? ==> next == r
    decreases |es|
  {
    if |es| == 0 then r else Step(bios, Apply(bios, r, es[..|es| - 1]), es[|es| - 1])
  }

  /** `u` keeps every deputy of `t` and adds only actors whose biography
      can be read. */
  ghost predicate Grows(bios: Store, t: Table, u: Table)
  {
    && (forall k :: k in t ==> k in u)
    && (forall k :: k in u && k !in t ==> Ident(bios, k).Some?)
  }

  /** No run of events loses a deputy or inserts an actor without a
      biography. */
  lemma {:induction false} ApplyGrows(bios: Store, r: Run, es: seq<Event>)
    ensures Grows(bios, r.table, Apply(bios, r, es).table)
    decreases |es|
  {
    if |es| > 0 {
      ApplyGrows(bios, r, es[..|es| - 1]);
    }
  }

  // ---------------------------------------------------------------------
  // Vote documents: process_single_vote_file

  /** Every event of `es` is a voter dated `date`, or an exception. */
  ghost predicate VotersDated(es: seq<Event>, date: Json)
  {
    forall i :: 0 <= i < |es| ==> (es[i].Voter? && es[i].date == date) || es[i].Raised?
  }

  /** Every event of `es` is a voter of group `organ` dated `date`, or an
      exception. */
  ghost predicate VotersOf(es: seq<Event>, organ: Organ, date: Json)
  {
    forall i :: 0 <= i < |es| ==> (es[i].Voter? && es[i].organ == organ && es[i].date == date) || es[i].Raised?
  }

  /** The `dateScrutin` of a scrutin, as line 186 reads it. */
  function ScrutinDateOf(scrutin: Json): Json
  {
    if scrutin.JObj? then Field(scrutin.fields, "dateScrutin", JStr(DefaultDate)) else JStr(DefaultDate)
  }

  /** The `dateScrutin` of a vote document. A document without a dict
      `scrutin` produces no voter, whatever this says. */
  function ScrutinDate(voteData: Json): Json
  {
    match Get(voteData, "scrutin", voteData)
    case Ok(s) => ScrutinDateOf(s)
    case Raise(_) => JStr(DefaultDate)
  }

  /** `vote_data.get('scrutin', vote_data)` and on. */
  function VoteEvents(groups: GroupStore, voteData: Json): (r: seq<Event>)
    ensures VotersDated(r, ScrutinDate(voteData))
  {
    match Get(voteData, "scrutin", voteData)
    case Raise(e) => [Raised(e)]
    case Ok(scrutin) => ScrutinEvents(groups, scrutin)
  }

  /** The checks on `ventilationVotes`, `organe` and `groupes`, which end the
      document without effect when a container is missing or not a dict. */
  function ScrutinEvents(groups: GroupStore, scrutin: Json): (r: seq<Event>)
    ensures VotersDated(r, ScrutinDateOf(scrutin))
  {
    match Contains(scrutin, "ventilationVotes")
    case Raise(e) => [Raised(e)]
    case Ok(present) =>
      if !present then []
      else
        match Subscript(scrutin, "ventilationVotes")
        case Raise(e) => [Raised(e)]
        case Ok(ventilation) =>
          if !ventilation.JObj? then []
          else
            var organe := Field(ventilation.fields, "organe", JObj([]));
            if !organe.JObj? then []
            else
              var groupes := Field(organe.fields, "groupes", JObj([]));
              if !groupes.JObj? then []
              else GroupesEvents(groups, groupes.fields, Field(scrutin.fields, "dateScrutin", JStr(DefaultDate)))
  }

  /** A container that is one object or a list of them, as the vote pass
      treats `groupe` and `votant`: an object is wrapped, anything else is
      iterated (a string yields characters; null, a number or a bool raises). */
  function OneOrMany(x: Json): (r: Py<seq<Json>>)
    ensures x.JObj? ==> r == Ok([x])
    ensures x.JArr? ==> r == Ok(x.items)
  {
    if x.JObj? then Ok([x]) else Iterate(x)
  }

  /** The loop over groups, with `date` the document's `dateScrutin`. */
  function GroupesEvents(groups: GroupStore, groupes: seq<(string, Json)>, date: Json): (r: seq<Event>)
    ensures VotersDated(r, date)
  {
    match OneOrMany(Field(groupes, "groupe", JArr([])))
    case Raise(e) => [Raised(e)]
    case Ok(organs) => OrgansEvents(groups, organs, date)
  }

  function OrgansEvents(groups: GroupStore, organs: seq<Json>, date: Json): (r: seq<Event>)
    ensures VotersDated(r, date)
  {
    FlatMapAll(o => GroupEvents(groups, o, date), organs, (e: Event) => (e.Voter? && e.date == date) || e.Raised?);
    FlatMap(o => GroupEvents(groups, o, date), organs)
  }

  /** One group: skipped unless it is a dict with a truthy `organeRef` that
      names an existing group file and a dict `decompteNominatif`; every
      value under `decompteNominatif` is a position, whatever its key. */
  function GroupEvents(groups: GroupStore, organ: Json, date: Json): (r: seq<Event>)
    ensures VotersDated(r, date)
    ensures organ.JObj? ==> forall i :: 0 <= i < |r| && r[i].Voter? ==> JStr(r[i].organ.id) == Field(organ.fields, "organeRef", JNull)
  {
    if !organ.JObj? then []
    else
      var organId := Field(organ.fields, "organeRef", JNull);
      if !Truthy(organId) then []
      else
        match OrganLookup(groups, organId)
        case Raise(e) => [Raised(e)]
        case Ok(found) =>
          if found.None? then []
          else
            var vote := Field(organ.fields, "vote", JObj([]));
            if !vote.JObj? then []
            else
              var positions := Field(vote.fields, "decompteNominatif", JObj([]));
              if !positions.JObj? then []
              else PositionsEvents(Values(positions.fields), found.value, date)
  }

  function PositionsEvents(positions: seq<Json>, organ: Organ, date: Json): (r: seq<Event>)
    ensures VotersOf(r, organ, date)
  {
    FlatMapAll(p => PositionEvents(p, organ, date), positions,
      (e: Event) => (e.Voter? && e.organ == organ && e.date == date) || e.Raised?);
    FlatMap(p => PositionEvents(p, organ, date), positions)
  }

  /** One position (`pours`, `contres`, ...): a non-empty dict with `votant`. */
  function PositionEvents(position: Json, organ: Organ, date: Json): (r: seq<Event>)
    ensures VotersOf(r, organ, date)
  {
    if !position.JObj? || !Truthy(position) || !HasKey(position.fields, "votant") then []
    else
      match OneOrMany(Field(position.fields, "votant", JNull))
      case Raise(e) => [Raised(e)]
      case Ok(votants) => VotantsEvents(votants, organ, date)
  }

  function VotantsEvents(votants: seq<Json>, organ: Organ, date: Json): (r: seq<Event>)
    ensures VotersOf(r, organ, date)
  {
    FlatMapAll(v => VotantEvents(v, organ, date), votants,
      (e: Event) => (e.Voter? && e.organ == organ && e.date == date) || e.Raised?);
    FlatMap(v => VotantEvents(v, organ, date), votants)
  }

  /** One voter: a dict with a truthy `acteurRef`. A list or dict reference
      cannot be a dict key (TypeError); a number or bool is not in the table
      and `create_deputee_base` fails on it, so that voter is skipped. */
  function VotantEvents(votant: Json, organ: Organ, date: Json): (r: seq<Event>)
    ensures |r| <= 1 && VotersOf(r, organ, date)
    ensures forall i :: 0 <= i < |r| && r[i].Raised? ==> r[i].exc == TypeError
    ensures |r| == 1 && r[0].Voter? ==>
      && votant.JObj?
      && Field(votant.fields, "acteurRef", JNull) == JStr(r[0].actor)
      && r[0].seat == Field(votant.fields, "numPlace", JNull)
  {
    if !votant.JObj? then []
    else
      var ref := Field(votant.fields, "acteurRef", JNull);
      var seat := Field(votant.fields, "numPlace", JNull);
      if !Truthy(ref) then []
      else
        match ref
        case JStr(actor) => [Voter(actor, seat, organ, date)]
        case JArr(_) => [Raised(TypeError)]
        case JObj(_) => [Raised(TypeError)]
        case _ => []
  }

  /** The table after `process_single_vote_file(voteData, t)`; it catches
      every exception, so it never fails. */
  function VoteOutcome(bios: Store, groups: GroupStore, t: Table, voteData: Json): (r: Table)
    ensures Grows(bios, t, r)
  {
    ApplyGrows(bios, Run(t, None), VoteEvents(groups, voteData));
    Apply(bios, Run(t, None), VoteEvents(groups, voteData)).table
  }

  // ---------------------------------------------------------------------
  // Transcript documents: the per-file body of process_compte_rendu_files

  function TranscriptEvents(data: Json): (r: seq<Event>)
    ensures forall i :: 0 <= i < |r| ==> !r[i].Voter?
  {
    match Contains(data, "contenu")
    case Raise(e) => [Raised(e)]
    case Ok(present) =>
      if !present then []
      else
        match Subscript(data, "contenu")
        case Raise(e) => [Raised(e)]
        case Ok(contenu) =>
          match PointList(contenu)
          case Raise(e) => [Raised(e)]
          case Ok(points) => PointsEvents(points)
  }

  /** A list is taken as it is, an object as a one-element list, anything else as empty. */
  function ListOrObject(x: Json): (r: seq<Json>)
    ensures x.JObj? ==> r == [x]
    ensures x.JArr? ==> r == x.items
    ensures !x.JObj? && !x.JArr? ==> r == []
  {
    if x.JArr? then x.items else if x.JObj? then [x] else []
  }

  /** The points of `contenu`. */
  function PointList(contenu: Json): (r: Py<seq<Json>>)
    ensures contenu.JObj? ==> r.Ok?
    ensures r.Raise? ==> r.exc == TypeError
  {
    var present :- Contains(contenu, "point");
    if !present then Ok([])
    else
      var p :- Subscript(contenu, "point");
      Ok(ListOrObject(p))
  }

  function PointsEvents(points: seq<Json>): (r: seq<Event>)
    ensures forall i :: 0 <= i < |r| ==> !r[i].Voter?
  {
    FlatMapAll(PointEvents, points, (e: Event) => !e.Voter?);
    FlatMap(PointEvents, points)
  }

  /** One point: its `paragraphe`, one object or several. */
  function PointEvents(point: Json): (r: seq<Event>)
    ensures forall i :: 0 <= i < |r| ==> !r[i].Voter?
  {
    match Contains(point, "paragraphe")
    case Raise(e) => [Raised(e)]
    case Ok(present) =>
      if !present then []
      else
        match Subscript(point, "paragraphe")
        case Raise(e) => [Raised(e)]
        case Ok(p) =>
          match OneOrMany(p)
          case Raise(e) => [Raised(e)]
          case Ok(paragraphs) => ParagraphsEvents(paragraphs)
  }

  function ParagraphsEvents(paragraphs: seq<Json>): (r: seq<Event>)
    ensures forall i :: 0 <= i < |r| ==> !r[i].Voter?
  {
    FlatMapAll(ParagraphEvents, paragraphs, (e: Event) => !e.Voter?);
    FlatMap(ParagraphEvents, paragraphs)
  }

  /** The speakers listed under `orateurs`. */
  function SpeakerList(orateurs: Json): (r: Py<seq<Json>>)
    ensures orateurs.JObj? ==> r.Ok?
    ensures r.Raise? ==> r.exc == TypeError
  {
    var present :- Contains(orateurs, "orateur");
    if !present then Ok([])
    else
      var o :- Subscript(orateurs, "orateur");
      Ok(ListOrObject(o))
  }

  /** One paragraph: a dict with truthy `orateurs`; its `texte` (or "") goes
      to each listed speaker. */
  function ParagraphEvents(para: Json): (r: seq<Event>)
    ensures forall i :: 0 <= i < |r| ==> !r[i].Voter?
    ensures para.JObj? ==> forall i :: 0 <= i < |r| && r[i].Speech? ==> r[i].text == Field(para.fields, "texte", JStr(""))
  {
    if !para.JObj? then []
    else
      var orateurs := Field(para.fields, "orateurs", JNull);
      if !HasKey(para.fields, "orateurs") || !Truthy(orateurs) then []
      else
        match SpeakerList(orateurs)
        case Raise(e) => [Raised(e)]
        case Ok(speakers) => SpeakersEvents(speakers, Field(para.fields, "texte", JStr("")))
  }

  function SpeakersEvents(speakers: seq<Json>, text: Json): (r: seq<Event>)
    ensures forall i :: 0 <= i < |r| ==> (r[i].Speech? && r[i].text == text) || r[i] == Raised(TypeError)
  {
    FlatMapAll(o => SpeakerEvents(o, text), speakers, (e: Event) => (e.Speech? && e.text == text) || e == Raised(TypeError));
    FlatMap(o => SpeakerEvents(o, text), speakers)
  }

  /** One speaker with an `id`; `'PA' + id` raises unless the id is a string. */
  function SpeakerEvents(orateur: Json, text: Json): (r: seq<Event>)
    ensures |r| <= 1
    ensures forall i :: 0 <= i < |r| ==> (r[i].Speech? && r[i].text == text) || r[i] == Raised(TypeError)
    ensures |r| == 1 && r[0].Speech? ==> orateur.JObj? && "PA" <= r[0].actor
  {
    match Contains(orateur, "id")
    case Raise(e) => [Raised(e)]
    case Ok(present) =>
      if !present then []
      else
        match Subscript(orateur, "id")
        case Raise(e) => [Raised(e)]
        case Ok(id) => if id.JStr? then [Speech("PA" + id.s, text)] else [Raised(TypeError)]
  }

  /** The table after one transcript file, and the exception it raised. */
  function TranscriptOutcome(bios: Store, t: Table, data: Json): (r: Run)
    ensures Grows(bios, t, r.table)
  {
    ApplyGrows(bios, Run(t, None), TranscriptEvents(data));
    Apply(bios, Run(t, None), TranscriptEvents(data))
  }

  // ---------------------------------------------------------------------
  // Batches and the whole legislature

  /** An exception that escapes `except (JSONDecodeError, KeyError, FileNotFoundError)`. */
  function Uncaught(e: Option<Exc>): Option<Exc>
  {
    if e == Some(KeyError) then None else e
  }

  /** The loop of `process_single_file_format` over the records of the file. */
  function RecordsOutcome(bios: Store, groups: GroupStore, t: Table, records: seq<Json>): (r: Table)
    ensures Grows(bios, t, r)
    decreases |records|
  {
    if |records| == 0 then t
    else VoteOutcome(bios, groups, RecordsOutcome(bios, groups, t, records[..|records| - 1]), records[|records| - 1])
  }

  /** `process_folder_format`: one decoded file each, None for a file that
      does not decode (skipped). */
  function FolderOutcome(bios: Store, groups: GroupStore, t: Table, files: seq<Option<Json>>): (r: Table)
    ensures Grows(bios, t, r)
    decreases |files|
  {
    if |files| == 0 then t
    else
      var before := FolderOutcome(bios, groups, t, files[..|files| - 1]);
      match files[|files| - 1]
      case None => before
      case Some(data) => VoteOutcome(bios, groups, before, data)
  }

  /** `process_single_file_format`: None for a missing or undecodable file.
      A non-dict where `.get` is called raises AttributeError, which escapes. */
  function SingleFileOutcome(bios: Store, groups: GroupStore, t: Table, file: Option<Json>): (r: Run)
    ensures Grows(bios, t, r.table)
    ensures r.raised.Some? ==> r == Run(t, Some(AttributeError))
  {
    match file
    case None => Run(t, None)
    case Some(data) =>
      match Get(data, "scrutins", JObj([]))
      case Raise(e) => Run(t, Uncaught(Some(e)))
      case Ok(scrutins) =>
        match Get(scrutins, "scrutin", JArr([]))
        case Raise(e) => Run(t, Uncaught(Some(e)))
        case Ok(records) =>
          if !records.JArr? then Run(t, None)
          else Run(RecordsOutcome(bios, groups, t, records.items), None)
  }

  /** `process_compte_rendu_files` over the decoded transcript files: a file
      that does not decode is skipped, and so is the rest of a file that
      raises KeyError; any other exception ends the whole pass. */
  function TranscriptsOutcome(bios: Store, t: Table, files: seq<Option<Json>>): (r: Run)
    ensures Grows(bios, t, r.table)
    ensures r.raised != Some(KeyError)
    decreases |files|
  {
    if |files| == 0 then Run(t, None)
    else
      var before := TranscriptsOutcome(bios, t, files[..|files| - 1]);
      if before.raised.Some? then before
      else
        match files[|files| - 1]
        case None => before
        case Some(data) =>
          var r := TranscriptOutcome(bios, before.table, data);
          Run(r.table, Uncaught(r.raised))
  }

  /** Where the votes of a legislature come from. */
  datatype VoteSource = SingleFile(file: Option<Json>) | Folder(files: seq<Option<Json>>)

  function VotesOutcome(bios: Store, groups: GroupStore, t: Table, source: VoteSource): (r: Run)
    ensures Grows(bios, t, r.table)
    ensures source.Folder? ==> r.raised.None?
  {
    match source
    case SingleFile(file) => SingleFileOutcome(bios, groups, t, file)
    case Folder(files) => Run(FolderOutcome(bios, groups, t, files), None)
  }

  /** A deputy with the bookkeeping `date` key removed from its group. */
  function WithoutDate(d: Deputy): Deputy
  {
    if d.organ.Some? then d.(organ := Some(d.organ.value.(date := None))) else d
  }

  /** The clean-up loop of `process_legislature`. */
  function CleanDates(t: Table): (r: Table)
    ensures r.Keys == t.Keys
    ensures forall k :: k in r ==> r[k] == WithoutDate(t[k])
  {
    map k | k in t :: WithoutDate(t[k])
  }

  /** `process_legislature`: what is written, None when nothing is (the
      table is empty, or an exception escaped, which `main` reports). */
  function LegislatureOutput(bios: Store, groups: GroupStore, votes: VoteSource, transcripts: Option<seq<Option<Json>>>): (r: Option<Table>)
    ensures r.Some? ==> r.value != map[]
    ensures r.Some? ==> forall k :: k in r.value ==> Ident(bios, k).Some?
    ensures r.Some? ==> forall k :: k in r.value && r.value[k].organ.Some? ==> r.value[k].organ.value.date.None?
  {
    var v := VotesOutcome(bios, groups, map[], votes);
    if v.raised.Some? then None
    else
      var c := if transcripts.Some? then TranscriptsOutcome(bios, v.table, transcripts.value) else v;
      if c.raised.Some? then None
      else
        var out := CleanDates(c.table);
        if out == map[] then None else Some(out)
  }
}
