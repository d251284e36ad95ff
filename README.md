# Parliament open-data extraction, modelled in Dafny

This project models the normalisation core of a set of Python scripts. The
scripts read the French National Assembly's open data and turn it into
per-term JSON files.

- **extract_deputees.py** builds the `deputees` table for one legislative
  term. The table is keyed by actor reference. Each deputy has:
  - a name, from the actor file;
  - the list of seat numbers (`chair_numbers`) seen in the votes;
  - the political group (`organ`) from the latest vote that changed it;
  - the speeches they made in the session transcripts.

  Vote documents come either as one file per vote or as one big file.
  Fields may be a single object or a list. A temporary `date` key on the
  group is dropped before the table is written.
- **extract_vote.py** reduces every vote file to one record keyed by the
  vote `uid`. The record holds the date, the vote type and the actor
  references voting for, against and abstaining.
- **extract_cr.py** collects the session-report references (`CRSAN…`) named
  by the reunion files. It then requests each report once, in sorted order,
  skipping those already downloaded, and counts successes and failures.

## How the model is organised

- **`Json`** (json.dfy) models a decoded document. It also models the Python
  operations the scripts apply to one: `x.get(k, d)`, `x[k]`, `k in x`,
  iteration and truthiness. Each yields either the value Python computes or
  the exception it raises on a value of the wrong shape (`Py<T>`).
  `Seqs` holds a flat-map over sequences and its laws.
- **`Dates`** (dates.dfy) models `compare_date`. It follows the patterns
  `strptime` uses for `%Y-%m-%d`:
  - four digits for the year;
  - one or two digits for the month and the day;
  - a space-padded day is accepted.

  The date must name a real day, with leap years counted. On a malformed
  date, `compare_date` returns an error string, and `if` treats that string
  as true.
- **`Deputies`** (deputies.dfy) treats one vote or transcript document as a
  sequence of events, listed by functions that walk the document exactly as
  the script does. An event is a voter seen, a speech seen, or an exception
  raised. `Apply` folds the events into the table. After a `Raised` event
  the rest of the document changes nothing, but the changes already made
  stay, as the script's outer `try` behaves.
- **`DeputyAggregation.DeputyTable`** (deputy_table.dfy) is the imperative
  form. The class has a `deputies` map field, and its methods mirror the
  script's nested loops. Each method is proved to leave the table that the
  fold describes.
- **`DeputyLemmas`** and **`DeputyProperties`** prove properties of the fold:
  - seats stay duplicate-free and truthy;
  - the table only grows;
  - stored group dates never move backwards;
  - the two-groups-in-either-order outcome;
  - speeches are appended once per speaker and paragraph;
  - the clean-up removes exactly `date`.
- **`Votes`** (votes.dfy) models extract_vote.py: `get_voters_list`, the
  per-file body and the file loop. **`VoteProperties`** proves its
  properties.
- **`ComptesRendus`** (comptes_rendus.dfy) models extract_cr.py:
  - the reference set and the loop that builds it;
  - Python's string order and `sorted` on the set;
  - the class `Archive`, holding the download folder (`cached`) and the ids
    the server delivers (`served`), with the two download operations. Two
    ghost logs record every id `download_compte_rendu` is called with
    (`calls`) and every id an HTTP request is sent for (`fetched`), so the
    contracts can state the order and the number of requests.

  **`RefProperties`** proves the set's properties.

File contents, the actor and group directories and the server are
parameters: decoded documents (`Option<Json>`, where None is a file that
does not decode), maps from identifier to decoded file, and a set of
deliverable ids.

### Behaviour worth knowing (the model follows the code)

- extract_vote.py reads the four vote categories only under the plural keys
  `pours`, `contres`, `nonVotants` and `abstentions`. A category stored
  under any other key yields no voters.
- extract_vote.py wraps `groupe` in a list only when it is an EMPTY dict. A
  single non-empty group dict is iterated over its keys, and the `.get`
  on the first key string raises AttributeError. No handler catches it, so
  the run stops and nothing is written
  (`VoteProperties.SingleGroupeDictFails`,
  `VoteProperties.VoteFileSingleGroupeDictFails`).
- In extract_vote.py a voter without `acteurRef` raises `KeyError`. The
  voter is not skipped, and the run ends.
- extract_deputees.py reads every value under `decompteNominatif` as a
  position, whatever its key, and reads any dict position with a `votant`.
- An exception inside `process_single_vote_file` ends that document but
  keeps what was already recorded. Such exceptions include a non-string
  `organeRef`, an unhashable `acteurRef`, a non-iterable `votant`, and a
  non-string `dateScrutin` at the group comparison. A deputy created for
  the failing voter is lost, because it is inserted only at
  extract_deputees.py:245. An existing deputy keeps the seat just appended.
- A transcript exception other than `KeyError`, such as a `TypeError` from
  `'PA' + id` on a non-string id, escapes the handler at
  extract_deputees.py:156. `main` then reports the term as failed, and
  `LegislatureOutput` is None.
- The vote pass records a voter's group date only when the group
  changes. Seeing the same group again does not refresh the date, so the
  final group can depend on the order of the votes
  (`DeputyProperties.SameGroupKeepsFirstDate`). The same holds for the
  group a deputy already has: a deputy stored in group B with date
  2000-01-01 skips a B vote of 2022-01-01 and then takes group A from an
  A vote of 2021-01-01 (`DeputyProperties.StoredGroupSkipsLaterVote`).
  The later vote does not win here, which is why the two-group lemmas
  below require that the stored group is not the later group and that its
  date is before the later vote's.

## Model

| member | source | states |
|---|---|---|
| Json.Get | extract_vote.py:62-65 | `x.get(k, d)` succeeds exactly on a dict, where it yields the bound value or the default |
| Json.Truthy | extract_deputees.py:193 | a value is falsy exactly when it is None, False, 0, "", [] or {} |
| Json.Contains | extract_deputees.py:96 | `k in x` raises TypeError exactly when `x` is not a dict, list or string; on a dict it tests the keys, on a list it looks for the string `k`, on a string it looks for `k` at some offset |
| Json.IsInfixIff | extract_deputees.py:96 | the recursive substring test holds exactly when `k` occurs in `s` at some offset |
| Json.OccursShift | extract_deputees.py:96 | an occurrence at offset `i > 0` is an occurrence at `i - 1` in the tail |
| Json.Subscript | extract_vote.py:31 | `x[k]` succeeds exactly on a dict holding `k`, with the bound value; a dict without `k` raises KeyError, and anything that is not a dict raises TypeError |
| Json.Iterate | extract_deputees.py:188 | a list yields its items; a dict yields `JStr` of each key, one per field, in order; a string yields its one-character strings, in order; anything else raises TypeError |
| Dates.ParseDate | extract_deputees.py:63-66 | a parsed date is a real calendar day |
| Dates.CompareDate | extract_deputees.py:62-71 | returns a boolean exactly when both strings parse; otherwise it returns the error string, which is truthy |
| Dates.CompareDateOnDates | extract_deputees.py:65-69 | on well-formed dates, `compare_date(a, b)` is true exactly when day `b` is before day `a` |
| Dates.CompareDateIrreflexive | extract_deputees.py:67-69 | a date is never later than itself |
| Dates.CompareDateAsymmetric | extract_deputees.py:67-69 | if `a` is later than `b`, then `b` is not later than `a` |
| Dates.CompareDateTransitive | extract_deputees.py:67-69 | "later than" is transitive |
| Dates.CompareDateTotal | extract_deputees.py:67-69 | of two different days, one is later |
| Dates.MalformedDateHolds | extract_deputees.py:70-71 | a malformed date makes the comparison return the error message, which counts as true |
| Dates.DefaultDateParses | extract_deputees.py:241 | the default stored date `1900-01-01` is day 1900-01-01 |
| Dates.ParseDateAccepts | extract_deputees.py:63-66 | a leap day and an unpadded month and day are accepted |
| Dates.ParseDateRejects | extract_deputees.py:63-66 | 2023-02-29, month 13 and trailing digits are rejected |
| Deputies.CreateDeputy | extract_deputees.py:32-42 | succeeds exactly when the actor file has string `nom` and `prenom`; the new deputy is named "nom prenom" and has no seats, no group and no speeches |
| Deputies.Ident | extract_deputees.py:36 | the name parts are present exactly when the actor file exists and both `['acteur']['etatCivil']['ident']` chains end in a string, and are those two strings |
| Deputies.OrganLookup | extract_deputees.py:44-57 | a non-string id raises TypeError; a missing file gives the empty dict; a file that does not decode raises the decoding error; a found group has the requested id and no date |
| Deputies.Regroup | extract_deputees.py:241-243 | only the group changes; it raises, with TypeError, exactly when the group differs and the vote date is not a string |
| Deputies.StoredDate | extract_deputees.py:241 | the date compared against is the stored group's `date` when it has one, and `1900-01-01` otherwise |
| Deputies.RecordSeat | extract_deputees.py:238-239 | the old seat list is a prefix of the new one, which is at most one longer; a truthy seat is in the new list; a falsy or already listed seat leaves the list as it was |
| Deputies.VoterStep | extract_deputees.py:230-245 | after one voter, the actor is present exactly when it was before or was created without exception; a present actor has every truthy seat it voted from; an exception is TypeError, raised only on a non-string date |
| Deputies.VoterStepFrame | extract_deputees.py:230-245 | a voter leaves every other actor's entry, or its absence, as it was |
| Deputies.SpeechStep | extract_deputees.py:143-154 | a speech touches only its actor; the actor is present exactly when it was before or its file can be read; its speeches are the old ones, or none for a new deputy, followed by the text |
| Deputies.ApplyGrows | extract_deputees.py:143-245 | no run of events removes a deputy, and every actor it adds has a readable biography |
| Deputies.Step | extract_deputees.py:163-247 | inside the document's `try`, a run that has raised stays as it is; an exception is recorded without touching the table; a speech never raises, and a voter raises only TypeError |
| Deputies.Apply | extract_deputees.py:163-247 | a run that has raised is left as it is by every later event, and a run that ends without exception started without one |
| Deputies.VoteEvents | extract_deputees.py:165 | every voter of a vote document is dated with its `dateScrutin`, default `1900-01-01`, wrapped in `scrutin` or not |
| Deputies.ScrutinEvents | extract_deputees.py:167-186 | every voter of a scrutin is dated with its `dateScrutin` |
| Deputies.OneOrMany | extract_deputees.py:182-184 | a dict is wrapped in a one-element list and a list is taken as it is |
| Deputies.GroupesEvents | extract_deputees.py:182-188 | every voter under `groupes` carries the vote's date |
| Deputies.OrgansEvents | extract_deputees.py:188-245 | every voter of every group carries the vote's date |
| Deputies.GroupEvents | extract_deputees.py:189-209 | every voter of a group carries the vote's date and the group named by its `organeRef` |
| Deputies.PositionsEvents | extract_deputees.py:209-245 | every voter of every position carries the group and the date |
| Deputies.PositionEvents | extract_deputees.py:210-219 | every voter of one position carries the group and the date |
| Deputies.VotantsEvents | extract_deputees.py:220-245 | every voter of a `votant` list carries the group and the date |
| Deputies.VotantEvents | extract_deputees.py:221-228 | one entry gives at most one event, of the group and date; an exception is TypeError; a voter event comes from a dict, with its string `acteurRef` as the actor and its `numPlace` as the seat |
| Deputies.VoteOutcome | extract_deputees.py:161-247 | a vote document keeps every deputy and adds only actors whose biography can be read |
| Deputies.TranscriptEvents | extract_deputees.py:95-154 | a transcript yields no voter, so it never records a seat or a group |
| Deputies.ListOrObject | extract_deputees.py:101-108 | a list is taken as it is, a dict as a one-element list, and anything else as no element |
| Deputies.PointList | extract_deputees.py:101-108 | on a dict `contenu` reading the points succeeds; any exception is TypeError |
| Deputies.PointsEvents | extract_deputees.py:111-154 | the points yield no voter |
| Deputies.PointEvents | extract_deputees.py:112-117 | one point yields no voter |
| Deputies.ParagraphsEvents | extract_deputees.py:120-154 | the paragraphs yield no voter |
| Deputies.SpeakerList | extract_deputees.py:129-135 | on a dict `orateurs` reading the speakers succeeds; any exception is TypeError |
| Deputies.ParagraphEvents | extract_deputees.py:121-154 | a paragraph yields no voter, and each speech it gives carries its `texte`, or "" without one |
| Deputies.SpeakersEvents | extract_deputees.py:138-154 | every event of a speaker list is a speech with the paragraph's text, or a TypeError |
| Deputies.SpeakerEvents | extract_deputees.py:139-140 | a speaker gives at most one event: a speech with the text, for an actor starting with `PA`, or a TypeError |
| Deputies.TranscriptOutcome | extract_deputees.py:91-157 | a transcript file keeps every deputy and adds only actors whose biography can be read |
| Deputies.RecordsOutcome | extract_deputees.py:294-297 | the records of a single vote file keep every deputy and add only actors with a readable biography |
| Deputies.FolderOutcome | extract_deputees.py:249-272 | a folder of vote files keeps every deputy and adds only actors with a readable biography |
| Deputies.SingleFileOutcome | extract_deputees.py:274-301 | the same holds for a single vote file; the only exception that escapes is AttributeError, from `.get` on a non-dict, and then the table is unchanged |
| Deputies.TranscriptsOutcome | extract_deputees.py:75-159 | the transcript pass keeps every deputy and adds only actors with a readable biography; a KeyError never escapes it |
| Deputies.VotesOutcome | extract_deputees.py:317-321 | the vote pass keeps every deputy and adds only actors with a readable biography; in folder form no exception escapes |
| Deputies.CleanDates | extract_deputees.py:329-331 | same keys, each deputy with its group's `date` removed |
| Deputies.LegislatureOutput | extract_deputees.py:303-344 | output is written only when the table is not empty; every written key is an actor whose biography gives a string `nom` and `prenom`; no written group keeps a `date` |
| DeputyLemmas.ApplyRaised | extract_deputees.py:163-247 | once an exception is raised, the rest of the document leaves the table as it stands |
| DeputyLemmas.ApplyConcat | extract_deputees.py:163-247 | the events of a document are processed in order: running two stretches of events one after the other is the same as running them joined |
| DeputyLemmas.TranscriptsOutcomeStops | extract_deputees.py:83-157 | after an exception escapes the transcript handler, later files change nothing |
| DeputyLemmas.RecordSeatWellFormed | extract_deputees.py:238-239 | recording a seat keeps the list free of duplicates and of falsy entries; the old list is a prefix of the new one, so no seat is removed; a truthy seat is in the new list |
| DeputyLemmas.VoterStepWellFormed | extract_deputees.py:224-245 | one voter keeps every deputy's seat list well formed |
| DeputyLemmas.StepWellFormed | extract_deputees.py:188-245 | any event keeps the seat lists well formed |
| DeputyLemmas.ApplyWellFormed | extract_deputees.py:188-245 | a whole document keeps the seat lists well formed |
| DeputyLemmas.CleanDatesWellFormed | extract_deputees.py:329-331 | the clean-up keeps the seat lists well formed |
| DeputyLemmas.AdvanceVotants | extract_deputees.py:220-245 | one more voter of the loop extends the fold over the voters seen so far, and the first exception is the fold over the whole list |
| DeputyProperties.WrappedVote | extract_deputees.py:165 | a vote wrapped as `{'scrutin': s}` updates the table as `s` itself does |
| DeputyProperties.MissingContainersChangeNothing | extract_deputees.py:167-180 | a vote whose `ventilationVotes`, `organe` or `groupes` is missing or not a dict leaves the table unchanged, wrapped or not |
| DeputyProperties.SingleGroupAsList | extract_deputees.py:182-184 | a single `groupe` dict acts as a one-element list |
| DeputyProperties.SingleVoterAsList | extract_deputees.py:213-218 | a single `votant` dict acts as a one-element list |
| DeputyProperties.SingleParagraphAsList | extract_deputees.py:115-117 | a single `paragraphe` dict acts as a one-element list |
| DeputyProperties.VoterStepExtends | extract_deputees.py:230-245 | a voter never removes a deputy or renames one; each deputy's seats and speeches are only extended at the end |
| DeputyProperties.StepExtends | extract_deputees.py:188-245 | the same holds for any event |
| DeputyProperties.ApplyExtends | extract_deputees.py:188-245 | the same holds for a whole sequence of events |
| DeputyProperties.VoteOutcomeExtends | extract_deputees.py:161-247 | a vote document never removes a deputy, a seat or a speech |
| DeputyProperties.TranscriptOutcomeExtends | extract_deputees.py:91-157 | neither does a transcript file |
| DeputyProperties.RegroupAdvances | extract_deputees.py:241-243 | on a well-formed date the group update succeeds and never moves the stored date backwards; a replaced group is a different group dated with the vote's date |
| DeputyProperties.RegroupWins | extract_deputees.py:241-243 | a later vote for a different group replaces the group and dates it |
| DeputyProperties.RegroupLoses | extract_deputees.py:241-243 | the same group, or an earlier or equal date, leaves the deputy unchanged |
| DeputyProperties.VoterStepRegroups | extract_deputees.py:230-245 | the deputy stored is the found or created deputy, with its seat recorded and the group update applied |
| DeputyProperties.UpdateForward | extract_deputees.py:245 | storing a deputy whose date is not earlier keeps every date well formed and not earlier |
| DeputyProperties.VoterStepForward | extract_deputees.py:230-245 | one voter with a well-formed date never moves any stored date backwards |
| DeputyProperties.SpeechStepForward | extract_deputees.py:143-154 | a speech never moves any stored date |
| DeputyProperties.AppendSpeechForward | extract_deputees.py:154 | appending a paragraph to a stored deputy keeps every stored date parseable and in place |
| DeputyProperties.StepForward | extract_deputees.py:143-245 | any event with a well-formed date never moves a stored date backwards |
| DeputyProperties.ApplyForward | extract_deputees.py:188-245 | a run of such events never moves a stored date backwards |
| DeputyProperties.VoteOutcomeForward | extract_deputees.py:161-247 | a vote with a well-formed `dateScrutin` never moves a stored group date backwards |
| DeputyProperties.EarlierGroupKeepsChance | extract_deputees.py:241-243 | observing an earlier vote for another group does not stop a later group from winning |
| DeputyProperties.EarlierFirst | extract_deputees.py:241-243 | for a deputy, found or newly created, whose stored group is not the later group and whose stored date parses and is before the later date: earlier group then later group stores the later group, with the later date |
| DeputyProperties.LaterFirst | extract_deputees.py:241-243 | for a deputy whose stored group is not the later group and whose stored date parses and is before the later date: later group then earlier group keeps the later group, with the later date |
| DeputyProperties.TwoGroupsEitherOrder | extract_deputees.py:241-243 | for a deputy whose stored group is not the later group and whose stored date parses and is before the later date: two groups seen in either order leave the same group, the one with the later vote |
| DeputyProperties.SameGroupKeepsFirstDate | extract_deputees.py:241-243 | for a deputy whose stored group is not group 1 and whose stored date parses and is before D1: group 1 at D1, group 1 again at D3 and group 2 at D2 with D1 < D2 leaves group 2, even when D3 > D2 |
| DeputyProperties.ExampleDates | extract_deputees.py:63-66 | the three example dates parse to the expected days |
| DeputyProperties.SameGroupExample | extract_deputees.py:241-243 | A in 2020, A in 2022, then B in 2021 ends with group B |
| DeputyProperties.StoredGroupSkipsLaterVote | extract_deputees.py:241-243 | a deputy already in group 2 ignores a group-2 vote of any date and then takes group 1 from a vote dated after its stored date, so the later vote does not decide the group |
| DeputyProperties.VotersKeepSpeeches | extract_deputees.py:230-245 | events without speeches leave every speech list as it was |
| DeputyProperties.NonSpeechKeepsSpeeches | extract_deputees.py:230-245 | a voter or exception event leaves the speeches of every deputy it knew and gives a new deputy none |
| DeputyProperties.VoteKeepsSpeeches | extract_deputees.py:161-247 | a vote document never changes anyone's speeches |
| DeputyProperties.VoteKeepsSeatsWellFormed | extract_deputees.py:238-239 | a vote document keeps every seat list free of duplicates and falsy entries |
| DeputyProperties.StepLocal | extract_deputees.py:143-154 | an event changes only its own actor's entry, and never inserts an actor with no usable actor file |
| DeputyProperties.UnknownActorSkipped | extract_deputees.py:144-147 | an actor neither stored nor creatable is skipped without effect |
| DeputyProperties.ApplyElsewhere | extract_deputees.py:230-245 | events for other actors leave an actor's entry, or its absence, intact |
| DeputyProperties.SpeechesAppend | extract_deputees.py:143-154 | after speeches only, an actor is present exactly when it was before or was creatable and spoke; its speeches are the old ones followed by its texts in order |
| DeputyProperties.CleanRunRaisesNothing | extract_deputees.py:91-157 | a run that ends without exception contained no raising step |
| DeputyProperties.TranscriptSpeeches | extract_deputees.py:95-154 | after a transcript without exception, each present actor's speeches are its old ones followed by the texts it spoke, in order, each once |
| DeputyProperties.SpeakersSpeak | extract_deputees.py:138-154 | speakers with string ids each produce exactly one speech for `'PA' + id`, in order, with the paragraph's text |
| DeputyProperties.CleanDatesRemovesOnlyDate | extract_deputees.py:329-331 | the clean-up keeps every key, name, seat list and speech list and every group field except `date` |
| DeputyProperties.CleanDatesIdempotent | extract_deputees.py:329-331 | cleaning twice is cleaning once |
| DeputyProperties.VoteStepExtends | extract_deputees.py:161-247 | one more vote document keeps the table extending the start and the seat lists well formed |
| DeputyProperties.TranscriptStepExtends | extract_deputees.py:91-157 | one more transcript file keeps the table extending the start and the seat lists well formed |
| DeputyProperties.RecordsOutcomeExtends | extract_deputees.py:294-297 | the records of a single vote file never remove or rename a deputy or take back a seat or a speech, and keep every seat list well formed |
| DeputyProperties.FolderOutcomeExtends | extract_deputees.py:249-272 | so does a folder of vote files |
| DeputyProperties.TranscriptsOutcomeExtends | extract_deputees.py:75-159 | and so does the whole transcript pass |
| DeputyProperties.VoteStepForward | extract_deputees.py:161-247 | one more vote document with a well-formed date moves no stored date back from the start |
| DeputyProperties.RecordsOutcomeForward | extract_deputees.py:294-297 | over the records of a single vote file with well-formed dates, no stored group date ever moves back |
| DeputyProperties.FolderOutcomeForward | extract_deputees.py:249-272 | over a folder of vote files with well-formed dates, no stored group date ever moves back |
| DeputyProperties.TranscriptStepForward | extract_deputees.py:91-157 | one more transcript file moves no stored date back from the start |
| DeputyProperties.TranscriptsOutcomeForward | extract_deputees.py:75-159 | the whole transcript pass moves no stored group date back |
| DeputyProperties.VotesWellFormed | extract_deputees.py:315-321 | the vote pass of a term, from the empty table, leaves every seat list well formed |
| DeputyProperties.LegislatureWellFormed | extract_deputees.py:303-340 | every seat list `process_legislature` writes is free of duplicates and falsy entries |
| DeputyAggregation.DeputyTable.constructor | extract_deputees.py:315 | the table starts empty |
| DeputyAggregation.DeputyTable.RecordVote | extract_deputees.py:230-245 | one voter updates the table as the voter step describes |
| DeputyAggregation.DeputyTable.ProcessVotant | extract_deputees.py:220-245 | one entry of a `votant` list leaves the table and exception of the fold over its events: a string reference is recorded, a list or dict reference raises TypeError, anything else is skipped |
| DeputyAggregation.DeputyTable.ProcessPosition | extract_deputees.py:210-245 | the loop over a position's voters leaves the table of the fold over its events |
| DeputyAggregation.DeputyTable.ProcessGroup | extract_deputees.py:189-245 | the loops over a group's positions leave the table of the fold over its events |
| DeputyAggregation.DeputyTable.ProcessVote | extract_deputees.py:161-247 | `process_single_vote_file` leaves the table the vote outcome describes, with seats still well formed |
| DeputyAggregation.DeputyTable.ProcessGroups | extract_deputees.py:188-245 | the loop over a vote's groups leaves the table of the fold over their events and stops at the first exception |
| DeputyAggregation.DeputyTable.RecordSpeech | extract_deputees.py:143-154 | one speaker's text is appended as the speech step describes |
| DeputyAggregation.DeputyTable.ProcessSpeaker | extract_deputees.py:139-154 | one speaker entry leaves the table of the fold over its events |
| DeputyAggregation.DeputyTable.ProcessParagraph | extract_deputees.py:120-154 | the loop over a paragraph's speakers leaves the table of the fold over its events |
| DeputyAggregation.DeputyTable.ProcessPoint | extract_deputees.py:111-154 | the loop over a point's paragraphs leaves the table of the fold over its events |
| DeputyAggregation.DeputyTable.ProcessTranscript | extract_deputees.py:95-154 | one transcript file leaves the table and the exception the transcript outcome describes |
| DeputyAggregation.DeputyTable.ProcessPoints | extract_deputees.py:110-154 | the loop over a transcript's points leaves the table and exception of the fold over their events |
| DeputyAggregation.DeputyTable.ProcessTranscripts | extract_deputees.py:75-159 | `process_compte_rendu_files` over the decoded files matches the transcript pass |
| DeputyAggregation.DeputyTable.ProcessFolderFormat | extract_deputees.py:249-272 | `process_folder_format` is the fold of the vote step over the decodable files |
| DeputyAggregation.DeputyTable.ProcessSingleFileFormat | extract_deputees.py:274-301 | `process_single_file_format` is the fold over the records of `scrutins.scrutin` when it is a list |
| DeputyAggregation.DeputyTable.StripDates | extract_deputees.py:329-331 | the clean-up loop leaves the cleaned table |
| DeputyAggregation.ProcessLegislature | extract_deputees.py:303-344 | `process_legislature` writes exactly the table that the legislature output describes, and every seat list written is free of duplicates and falsy entries |
| Votes.ActorRefs | extract_vote.py:31 | succeeds exactly when every voter has an `acteurRef`; the result has the same length and order; a failure is some voter's exception |
| Votes.VotersList | extract_vote.py:9-33 | None gives `[]`; a value that is neither None nor a dict raises AttributeError; on a dict, a missing or null `votant` gives `[]`, a list gives the `acteurRef` of each voter in order, and any other `votant` gives its one `acteurRef` or that subscript's exception |
| Votes.GroupBallots | extract_vote.py:90-95 | a group that is not a dict raises AttributeError; a dict without `vote` has four empty lists |
| Votes.GroupBallotsLists | extract_vote.py:90-95 | a group that reads well is a dict whose `vote` and `decompteNominatif` are dicts, and its four lists are the voter lists under `pours`, `contres`, `nonVotants` and `abstentions` |
| Votes.ReadGroupes | extract_vote.py:78 | `groupes_data` reads exactly when `scrutin`, its `ventilationVotes` and that value's `organe` are dicts (each missing key giving `{}`), and is then `organe`'s `groupes`, default `{}`; otherwise AttributeError |
| Votes.ReadOrgans | extract_vote.py:78-85 | when the chain to `groupe` stops at a missing key no group is visited; a container that is not a dict raises AttributeError; a success comes from a dict `groupes`; the only exceptions are AttributeError and TypeError |
| Votes.OrganList | extract_vote.py:79-85 | a non-dict `groupes` raises AttributeError; an empty `groupe` dict is one group; another falsy value gives none; a list is taken as it is; a non-empty dict gives one key string per field; any exception is TypeError on a value that is not iterable |
| Votes.ReadHeader | extract_vote.py:62-65 | the header reads exactly when the file, its `scrutin` and its `typeVote` are dicts, and fails with AttributeError otherwise; it yields that `scrutin` and its `uid` and `dateScrutin`, or None for either |
| Votes.RecordJson | extract_vote.py:98-106 | the record has exactly the keys date, type, votes_for, votes_against, votes_abs, in that order, with the record's values |
| Votes.VoteFile | extract_vote.py:61-106 | no record exactly when the header reads and the `uid` is falsy; a record is keyed by the truthy, hashable `uid` and carries the header's date and type |
| Votes.FilesOutcome | extract_vote.py:108-114 | output is written only when some vote was stored |
| Votes.FileStep | extract_vote.py:53-106 | an earlier exception or an undecodable file leaves the dict as it was; a decoded file raises exactly when its body does; otherwise the dict gains at most one key and loses none |
| Votes.Accumulate | extract_vote.py:46-106 | after an exception nothing changes; a run that ends well started well and lost no key |
| Votes.NormaliseVoteFile | extract_vote.py:61-106 | the per-file body, with the four lists extended group by group, yields the vote-file outcome |
| Votes.ExtendBallots | extract_vote.py:88-95 | extending the four lists group by group gives the lists of the groups in order, or the first group's exception |
| Votes.ProcessFile | extract_vote.py:53-106 | one file leaves the dict the file step describes: skipped, unchanged, stored under its `uid`, or an exception |
| Votes.ProcessJsonFiles | extract_vote.py:36-114 | `process_json_files` yields the files outcome |
| Votes.GroupsBallotsStops | extract_vote.py:88-95 | a group that raises ends the group loop with its exception |
| Votes.AccumulateStops | extract_vote.py:46-106 | a file that raises ends the run with its exception |
| VoteProperties.VotersListEmpty | extract_vote.py:22-27 | None, a dict without `votant` and a null `votant` all give `[]` |
| VoteProperties.VotersListNotDict | extract_vote.py:25 | any other non-dict raises AttributeError |
| VoteProperties.VotersListSingle | extract_vote.py:29-33 | a single voter dict and a one-element list both give `[acteurRef]` |
| VoteProperties.VotersListOrder | extract_vote.py:29-31 | a list of voters gives their references, with the same length and order |
| VoteProperties.VoterWithoutRefRaises | extract_vote.py:31-33 | a voter dict without `acteurRef` raises; a single one raises KeyError |
| VoteProperties.GroupsBallotsOk | extract_vote.py:88-95 | the group loop succeeds exactly when every group succeeds |
| VoteProperties.GroupsBallotsPrefixOk | extract_vote.py:88-95 | when the group loop ends well, it ended well after every earlier group |
| VoteProperties.GroupsBallotsOkAt | extract_vote.py:88-95 | when the group loop ends well, group `i` was read well |
| VoteProperties.GroupsBallotsEachOk | extract_vote.py:88-95 | when the group loop succeeds, every group read succeeds |
| VoteProperties.GroupsBallotsRaises | extract_vote.py:88-95 | when the loop raises, some group raises that same exception |
| VoteProperties.GroupsBallotsFirstFails | extract_vote.py:88-95 | a first group that raises makes the whole loop raise its exception |
| VoteProperties.GroupsBallotsConcatenate | extract_vote.py:88-95 | each of the four lists is the in-order concatenation of the groups' lists |
| VoteProperties.EmptyGroupe | extract_vote.py:79-85 | an empty `groupe` dict is one group without voters; a missing `groupe` gives no groups |
| VoteProperties.SingleGroupeDictFails | extract_vote.py:82-90 | a single non-empty `groupe` dict is iterated over its keys, and the loop raises AttributeError |
| VoteProperties.VoteFileSingleGroupeDictFails | extract_vote.py:78-90 | so such a vote file raises AttributeError |
| VoteProperties.BareVoteStored | extract_vote.py:62-106 | a vote with a truthy, hashable `uid`, no `typeVote`, and a missing `ventilationVotes`, `organe`, `groupes` or `groupe` is stored with its date, type None and three empty lists |
| VoteProperties.UnhashableUidRaises | extract_vote.py:98 | a truthy `uid` that is a list or a dict always makes the file raise, with TypeError once its groups have been read |
| VoteProperties.NoUidNoRecord | extract_vote.py:63-69 | a missing or falsy `uid` gives no record and leaves any accumulator unchanged |
| VoteProperties.RecordKeepsThreeLists | extract_vote.py:98-106 | the record holds the lists for, against and abstaining of the groups and drops the non-voters |
| VoteProperties.AccumulateConcat | extract_vote.py:46-106 | processing two runs of files is processing one after the other |
| VoteProperties.UndecodableSkipped | extract_vote.py:53-59 | a file that does not decode is skipped |
| VoteProperties.NoUidSkipped | extract_vote.py:67-69 | a file without a truthy `uid` is skipped |
| VoteProperties.FileStepOk | extract_vote.py:98 | one file adds its `uid` with its record and leaves every other key's record alone |
| VoteProperties.FileStepSets | extract_vote.py:98-106 | a file that yields a `uid` and record stores exactly that record under it |
| VoteProperties.FileStepLeaves | extract_vote.py:98-106 | a file that does not yield a given `uid` leaves that key's record as it was |
| VoteProperties.AccumulateStep | extract_vote.py:46-106 | a run that ends well is the earlier files' dict followed by one more file step |
| VoteProperties.AccumulatePrefixOk | extract_vote.py:46-106 | a run that ends without exception had none at any earlier point |
| VoteProperties.UidStored | extract_vote.py:98 | every `uid` a file yields becomes a key |
| VoteProperties.StoredUidHasFile | extract_vote.py:98 | every key is the `uid` of some file |
| VoteProperties.KeysAreUids | extract_vote.py:98 | the keys are exactly the `uid`s the files yield |
| VoteProperties.LastRecordWins | extract_vote.py:98 | the stored record of a `uid` is the one of the last file yielding it |
| VoteProperties.WrittenIffStored | extract_vote.py:108-114 | output is written exactly when the run ends well and stored a vote; the run crashes exactly when a file raises |
| ComptesRendus.ReunionRef | extract_cr.py:25-29 | a contributed reference starts with `CRSAN` |
| ComptesRendus.FileRef | extract_cr.py:22-33 | a file that does not decode, or whose body raises, contributes nothing; otherwise it contributes what its body yields, which starts with `CRSAN` |
| ComptesRendus.RefSet | extract_cr.py:20-29 | every collected reference is non-empty and starts with `CRSAN` |
| ComptesRendus.CollectRefs | extract_cr.py:8-36 | `collect_compte_rendu_refs` returns the set the files contribute |
| ComptesRendus.LessIrreflexive | extract_cr.py:120 | no string sorts before itself |
| ComptesRendus.LessTransitive | extract_cr.py:120 | string order is transitive |
| ComptesRendus.LessTotal | extract_cr.py:120 | of two different strings, one sorts first |
| ComptesRendus.LessAsymmetric | extract_cr.py:120 | two strings never sort before each other |
| ComptesRendus.LessIff | extract_cr.py:120 | string order is lexicographic: `a` sorts first exactly when it is a proper prefix of `b` or the first code point where they differ is smaller in `a` |
| ComptesRendus.Least | extract_cr.py:120 | the result is in the set and sorts before every other element |
| ComptesRendus.SortRefs | extract_cr.py:120 | `sorted(cr_refs)` is strictly increasing and lists each reference exactly once |
| ComptesRendus.SortedUnique | extract_cr.py:120 | a set has only one strictly increasing listing |
| ComptesRendus.Uncached | extract_cr.py:55-57 | the ids of a listing that are not in a set, never more than the listing |
| ComptesRendus.UncachedMembers | extract_cr.py:55-57 | an id is kept exactly when it is in the listing and not in the set |
| ComptesRendus.Archive.constructor | extract_cr.py:103-104 | the archive starts with the given cached and deliverable ids, and with no call and no request made |
| ComptesRendus.Archive.Download | extract_cr.py:51-90 | the call is logged; an id already cached returns true and sends no request; otherwise one request is logged, and the result is true exactly when the server delivers, and then the file is cached |
| ComptesRendus.Archive.RequestNext | extract_cr.py:120-126 | one turn of the loop calls the next id, which is new; it is requested unless cached at the start, and it counts as a success exactly when cached or delivered |
| ComptesRendus.Archive.RequestAll | extract_cr.py:117-130 | the ids are called in the given order, each once; a request is sent exactly for those not cached at the start, in order; successes plus failures equal the number of ids; successes are the ids cached or deliverable; one pause after each call but the last; the folder gains the deliverable ids |
| ComptesRendus.Archive.DownloadAll | extract_cr.py:93-135 | an empty set returns with no call, no request, no pause and the folder unchanged; otherwise the ids are called in sorted order, each reference once, and requested exactly when not already cached; successes plus failures equal the number of references, with that many minus one pauses |
| RefProperties.FileRefIff | extract_cr.py:25-29 | a file contributes `x` exactly when its `compteRenduRef` is the string `x` starting with `CRSAN` |
| RefProperties.MissingRefIgnored | extract_cr.py:25-28 | a missing `reunion`, or a missing or null `compteRenduRef`, contributes nothing |
| RefProperties.OtherPrefixIgnored | extract_cr.py:28 | a reference with another prefix contributes nothing |
| RefProperties.NonDictReunionRaises | extract_cr.py:26 | a `reunion` that is not a dict raises AttributeError |
| RefProperties.RefFromFile | extract_cr.py:28-29 | what a file contributes is in the set |
| RefProperties.RefHasFile | extract_cr.py:28-29 | everything in the set comes from some file |
| RefProperties.RefSetMembers | extract_cr.py:20-29 | the set is exactly what the files contribute |
| RefProperties.RefSetConcat | extract_cr.py:20-29 | two runs of files give the union of their sets |
| RefProperties.RefSetOrderIndependent | extract_cr.py:22-29 | the result does not depend on the order of the files |
| RefProperties.SkippedFile | extract_cr.py:31-33 | a file that does not decode, or whose body raises, is skipped and the others are still collected |
| RefProperties.NoRefsNoRequests | extract_cr.py:20-29 | when no file contributes a reference, the set is empty; `Archive.DownloadAll` then makes no call and no request |

## Left out

- File and directory access: `os.listdir`, `os.scandir`, `glob`, `open`,
  `os.path.exists` and `os.makedirs`. Inputs are given as decoded documents,
  in the enumeration order, with None for a file that does not decode. The
  `.json` name filter is assumed already applied.
- `json.load` and `json.dump`: the layout of the written files, indentation,
  `ensure_ascii` and the way non-string keys are written.
- HTTP in `download_compte_rendu`: the request, the timeout, the status-code
  branches and the messages. What matters for the counts is whether the
  server delivers a valid document (`served`). The branches only differ in
  what they print.
- `time.sleep`: only the number of pauses is modelled, not their length.
- All `print` output, including the progress counters.
- `main` of extract_deputees.py: its per-term `try` is the None outcome of
  `LegislatureOutput`, and the loop over the fixed table of terms is not
  modelled.
- Python's `True == 1`: seat membership and dict keys compare JSON values
  structurally, so `true` and `1` count as different.
- Dict equality ignores field order in Python, but `JObj` equality does not.
  This matters only for the seat test at extract_deputees.py:238, where two
  dict seats with the same fields in a different order count as two seats
  in the model and as one in the script.
- Floats in JSON, and digits other than ASCII in `strptime`.
- Bytes that are not valid UTF-8. `UnicodeDecodeError` is caught by the
  broad handlers at extract_cr.py:31, extract_deputees.py:146 and
  extract_deputees.py:235 (a bad actor file) and extract_deputees.py:246 (a
  bad group file, `Json.DecodeError` from `OrganLookup`). It escapes only
  the handlers at extract_deputees.py:156, 269 and 300 and at
  extract_vote.py:57. The model does not tell such a file apart from one
  that fails `json.load`: both are None, which those passes skip. So a run
  that the script would end on a bad vote or transcript file goes on in
  the model.
- The alias between a stored group and the dict returned by
  `get_organ_name`. Every lookup builds a fresh dict, so the alias cannot be
  observed.
- ComptesRendus.Archive.Download: does not model a download that succeeds
  at the HTTP level but fails to save. `served` covers only ids that are
  both delivered and saved.
