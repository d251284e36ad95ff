/** What extract_deputees.py promises about the deputy table, stated on the
    model of module Deputies. */
module DeputyProperties {
  import opened Json
  import opened Seqs
  import opened Dates
  import opened Deputies
  import opened DeputyLemmas

  // ---------------------------------------------------------------------
  // Shapes of a vote document

  /** `{'scrutin': s}` is read as `s` itself, provided `s` (when it is a
      dict) has no `scrutin` key of its own; a non-dict `s` leaves the table
      as it is either way. */
  lemma WrappedVote(bios: Store, groups: GroupStore, t: Table, s: Json)
    requires s.JObj? ==> !HasKey(s.fields, "scrutin")
    ensures VoteOutcome(bios, groups, t, JObj([("scrutin", s)])) == VoteOutcome(bios, groups, t, s)
  {
    var wrapped := JObj([("scrutin", s)]);
    assert Get(wrapped, "scrutin", wrapped) == Ok(s);
    if !s.JObj? {
      ApplySingle(bios, Run(t, None), Raised(AttributeError));
      var es := ScrutinEvents(groups, s);
      assert es == [] || es == [Raised(TypeError)];
      if es != [] {
        ApplySingle(bios, Run(t, None), Raised(TypeError));
      }
    }
  }

  /** The chain `ventilationVotes` / `organe` / `groupes` is broken: a key
      is missing, or a value on the way is not a dict. */
  predicate ContainersMissing(scrutin: Json)
    requires scrutin.JObj?
  {
    match Lookup(scrutin.fields, "ventilationVotes")
    case None => true
    case Some(v) =>
      !v.JObj?
      || var organe := Field(v.fields, "organe", JObj([]));
         !organe.JObj? || !Field(organe.fields, "groupes", JObj([])).JObj?
  }

  /** Lines 167-180: such a document, wrapped or not, changes nothing. */
  lemma MissingContainersChangeNothing(bios: Store, groups: GroupStore, t: Table, s: Json)
    requires s.JObj? && !HasKey(s.fields, "scrutin")
    requires ContainersMissing(s)
    ensures VoteOutcome(bios, groups, t, s) == t
    ensures VoteOutcome(bios, groups, t, JObj([("scrutin", s)])) == t
  {
    WrappedVote(bios, groups, t, s);
  }

  /** A single `groupe` dict is read as the one-element list holding it. */
  lemma SingleGroupAsList(groups: GroupStore, groupes: seq<(string, Json)>, organ: Json, date: Json)
    requires organ.JObj?
    ensures GroupesEvents(groups, Put(groupes, "groupe", organ), date) == GroupesEvents(groups, Put(groupes, "groupe", JArr([organ])), date)
    ensures GroupesEvents(groups, Put(groupes, "groupe", organ), date) == GroupEvents(groups, organ, date)
  {
    FlatMapSingleton(o => GroupEvents(groups, o, date), organ);
  }

  /** A single `votant` dict is read as the one-element list holding it. */
  lemma SingleVoterAsList(position: seq<(string, Json)>, votant: Json, organ: Organ, date: Json)
    requires votant.JObj?
    ensures PositionEvents(JObj(Put(position, "votant", votant)), organ, date) == PositionEvents(JObj(Put(position, "votant", JArr([votant]))), organ, date)
    ensures PositionEvents(JObj(Put(position, "votant", votant)), organ, date) == VotantEvents(votant, organ, date)
  {
    var single := JObj(Put(position, "votant", votant));
    var listed := JObj(Put(position, "votant", JArr([votant])));
    assert single.JObj? && Truthy(single) && HasKey(single.fields, "votant");
    assert listed.JObj? && Truthy(listed) && HasKey(listed.fields, "votant");
    assert Field(single.fields, "votant", JNull) == votant;
    assert Field(listed.fields, "votant", JNull) == JArr([votant]);
    assert OneOrMany(votant) == Ok([votant]);
    assert OneOrMany(JArr([votant])) == Ok([votant]);
    FlatMapSingleton(v => VotantEvents(v, organ, date), votant);
    assert VotantsEvents([votant], organ, date) == VotantEvents(votant, organ, date);
  }

  /** Lines 116-117: a single `paragraphe` dict is read as a one-element list. */
  lemma SingleParagraphAsList(point: seq<(string, Json)>, para: Json)
    requires para.JObj?
    ensures PointEvents(JObj(Put(point, "paragraphe", para))) == PointEvents(JObj(Put(point, "paragraphe", JArr([para]))))
    ensures PointEvents(JObj(Put(point, "paragraphe", para))) == ParagraphEvents(para)
  {
    FlatMapSingleton(ParagraphEvents, para);
  }

  // ---------------------------------------------------------------------
  // The table only grows

  /** Every deputy of `t` is still in `u`, with the same name, and its seats
      and speeches extended at the end. */
  ghost predicate Extends(t: Table, u: Table)
  {
    forall k :: k in t ==>
      && k in u
      && u[k].name == t[k].name
      && t[k].chairNumbers <= u[k].chairNumbers
      && t[k].speeches <= u[k].speeches
  }

  lemma VoterStepExtends(bios: Store, t: Table, actor: string, seat: Json, organ: Organ, date: Json)
    ensures Extends(t, VoterStep(bios, t, actor, seat, organ, date).table)
  {
    if actor in t {
      var seated := t[actor].(chairNumbers := RecordSeat(t[actor].chairNumbers, seat));
      assert t[actor].chairNumbers <= seated.chairNumbers;
    }
  }

  lemma StepExtends(bios: Store, r: Run, e: Event)
    ensures Extends(r.table, Step(bios, r, e).table)
  {
    if r.raised.None? && e.Voter? {
      VoterStepExtends(bios, r.table, e.actor, e.seat, e.organ, e.date);
    }
  }

  lemma {:induction false} ApplyExtends(bios: Store, r: Run, es: seq<Event>)
    ensures Extends(r.table, Apply(bios, r, es).table)
    decreases |es|
  {
    if |es| > 0 {
      var mid := Apply(bios, r, es[..|es| - 1]);
      ApplyExtends(bios, r, es[..|es| - 1]);
      StepExtends(bios, mid, es[|es| - 1]);
      var u := Apply(bios, r, es).table;
      forall k | k in r.table
        ensures r.table[k].chairNumbers <= u[k].chairNumbers && r.table[k].speeches <= u[k].speeches
      {
        PrefixTransitive(r.table[k].chairNumbers, mid.table[k].chairNumbers, u[k].chairNumbers);
        PrefixTransitive(r.table[k].speeches, mid.table[k].speeches, u[k].speeches);
      }
    }
  }

  lemma PrefixTransitive<T>(a: seq<T>, b: seq<T>, c: seq<T>)
    requires a <= b && b <= c
    ensures a <= c
  {
    assert c[..|a|] == b[..|a|];
  }

  /** Lines 161-247: a vote document never removes a deputy, renames one,
      or takes back a seat or a speech. */
  lemma VoteOutcomeExtends(bios: Store, groups: GroupStore, t: Table, voteData: Json)
    ensures Extends(t, VoteOutcome(bios, groups, t, voteData))
  {
    ApplyExtends(bios, Run(t, None), VoteEvents(groups, voteData));
  }

  /** Lines 91-157: nor does a transcript file. */
  lemma TranscriptOutcomeExtends(bios: Store, t: Table, data: Json)
    ensures Extends(t, TranscriptOutcome(bios, t, data).table)
  {
    ApplyExtends(bios, Run(t, None), TranscriptEvents(data));
  }
  // ---------------------------------------------------------------------
  // Dates of the group

  /** A deputy whose stored group date (or the default) is a day. */
  predicate StoredDateParses(d: Deputy)
  {
    ParseDate(StoredDate(d)).Some?
  }

  function StoredDay(d: Deputy): Date
    requires StoredDateParses(d)
  {
    ParseDate(StoredDate(d)).value
  }

  /** Lines 241-243 on a well-formed date: the regroup never moves the stored
      date back; when it replaces the group, the old group had another id and
      the new one is `organ` dated strictly later. */
  lemma RegroupAdvances(d: Deputy, organ: Organ, date: Json)
    requires date.JStr? && ParseDate(date.s).Some? && StoredDateParses(d)
    ensures Regroup(d, organ, date).Ok?
    ensures StoredDateParses(Regroup(d, organ, date).value)
    ensures !Before(StoredDay(Regroup(d, organ, date).value), StoredDay(d))
    ensures Regroup(d, organ, date).value.organ != d.organ ==>
      && Regroup(d, organ, date).value.organ == Some(organ.(date := Some(date.s)))
      && (d.organ.Some? ==> d.organ.value.id != organ.id)
      && Before(StoredDay(d), StoredDay(Regroup(d, organ, date).value))
  {
  }

  ghost predicate DatesParse(t: Table)
  {
    forall k :: k in t ==> StoredDateParses(t[k])
  }

  /** Every stored group date of `u` is at least the one in `t`. */
  ghost predicate DatesForward(t: Table, u: Table)
    requires DatesParse(t) && DatesParse(u)
  {
    forall k :: k in t && k in u ==> !Before(StoredDay(u[k]), StoredDay(t[k]))
  }

  ghost predicate ValidlyDated(es: seq<Event>)
  {
    forall i :: 0 <= i < |es| && es[i].Voter? ==> es[i].date.JStr? && ParseDate(es[i].date.s).Some?
  }

  /** The deputy `actor` as the vote pass finds it: stored, or created. */
  function Baseline(bios: Store, t: Table, actor: string): Option<Deputy>
  {
    if actor in t then Some(t[actor]) else CreateDeputy(bios, actor)
  }

  /** Lines 241-243 when the vote is later and the group differs: the group is replaced. */
  lemma RegroupWins(d: Deputy, organ: Organ, date: Json)
    requires date.JStr? && ParseDate(date.s).Some? && StoredDateParses(d)
    requires Before(StoredDay(d), ParseDate(date.s).value)
    requires d.organ.None? || d.organ.value.id != organ.id
    ensures Regroup(d, organ, date) == Ok(d.(organ := Some(organ.(date := Some(date.s)))))
  {
  }

  /** Otherwise the deputy is left as it is. */
  lemma RegroupLoses(d: Deputy, organ: Organ, date: Json)
    requires date.JStr? && ParseDate(date.s).Some? && StoredDateParses(d)
    requires (d.organ.Some? && d.organ.value.id == organ.id) || !Before(StoredDay(d), ParseDate(date.s).value)
    ensures Regroup(d, organ, date) == Ok(d)
  {
  }

  /** A voter step on a string date: the found deputy, seat recorded, regrouped. */
  lemma VoterStepRegroups(bios: Store, t: Table, actor: string, seat: Json, organ: Organ, date: Json)
    requires Baseline(bios, t, actor).Some? && date.JStr?
    ensures var base := Baseline(bios, t, actor).value;
            var seated := base.(chairNumbers := RecordSeat(base.chairNumbers, seat));
            Regroup(seated, organ, date).Ok?
            && VoterStep(bios, t, actor, seat, organ, date) == Run(t[actor := Regroup(seated, organ, date).value], None)
  {
  }

  lemma UpdateForward(t: Table, actor: string, d: Deputy)
    requires DatesParse(t) && StoredDateParses(d)
    requires actor in t ==> !Before(StoredDay(d), StoredDay(t[actor]))
    ensures DatesParse(t[actor := d]) && DatesForward(t, t[actor := d])
  {
  }

  lemma VoterStepForward(bios: Store, t: Table, actor: string, seat: Json, organ: Organ, date: Json)
    requires DatesParse(t) && date.JStr? && ParseDate(date.s).Some?
    ensures DatesParse(VoterStep(bios, t, actor, seat, organ, date).table)
    ensures DatesForward(t, VoterStep(bios, t, actor, seat, organ, date).table)
  {
    var found := Baseline(bios, t, actor);
    if found.Some? {
      var seated := found.value.(chairNumbers := RecordSeat(found.value.chairNumbers, seat));
      if actor !in t {
        DefaultDateParses();
      }
      assert StoredDateParses(seated);
      RegroupAdvances(seated, organ, date);
      VoterStepRegroups(bios, t, actor, seat, organ, date);
      UpdateForward(t, actor, Regroup(seated, organ, date).value);
    }
  }

  /** Appending a speech keeps the group and so its date. */
  lemma AppendSpeechForward(t: Table, actor: string, d: Deputy, text: Json)
    requires DatesParse(t) && StoredDateParses(d)
    requires actor in t ==> d == t[actor]
    ensures DatesParse(t[actor := d.(speeches := d.speeches + [text])])
    ensures DatesForward(t, t[actor := d.(speeches := d.speeches + [text])])
  {
    var e := d.(speeches := d.speeches + [text]);
    assert StoredDate(e) == StoredDate(d);
    if actor in t {
      assert !Before(StoredDay(d), StoredDay(d));
    }
    UpdateForward(t, actor, e);
  }

  lemma SpeechStepForward(bios: Store, t: Table, actor: string, text: Json)
    requires DatesParse(t)
    ensures DatesParse(SpeechStep(bios, t, actor, text))
    ensures DatesForward(t, SpeechStep(bios, t, actor, text))
  {
    if actor in t {
      AppendSpeechForward(t, actor, t[actor], text);
    } else {
      var created := CreateDeputy(bios, actor);
      if created.Some? {
        DefaultDateParses();
        assert StoredDate(created.value) == DefaultDate;
        AppendSpeechForward(t, actor, created.value, text);
      }
    }
  }

  lemma StepForward(bios: Store, r: Run, e: Event)
    requires DatesParse(r.table)
    requires e.Voter? ==> e.date.JStr? && ParseDate(e.date.s).Some?
    ensures DatesParse(Step(bios, r, e).table)
    ensures DatesForward(r.table, Step(bios, r, e).table)
  {
    if r.raised.None? {
      match e
      case Voter(actor, seat, organ, date) => VoterStepForward(bios, r.table, actor, seat, organ, date);
      case Speech(actor, text) => SpeechStepForward(bios, r.table, actor, text);
      case Raised(_) =>
    }
  }

  /** Over any run whose voters carry well-formed dates, stored dates only move forward. */
  lemma {:induction false} ApplyForward(bios: Store, r: Run, es: seq<Event>)
    requires DatesParse(r.table) && ValidlyDated(es)
    ensures DatesParse(Apply(bios, r, es).table)
    ensures DatesForward(r.table, Apply(bios, r, es).table)
    decreases |es|
  {
    if |es| > 0 {
      var n := |es| - 1;
      var mid := Apply(bios, r, es[..n]);
      assert ValidlyDated(es[..n]) by {
        forall i | 0 <= i < n ensures es[..n][i] == es[i] {}
      }
      ApplyForward(bios, r, es[..n]);
      StepForward(bios, mid, es[n]);
      ApplyExtends(bios, r, es[..n]);
    }
  }

  /** Lines 161-247: a vote document with a well-formed `dateScrutin` moves
      no stored group date back. */
  lemma VoteOutcomeForward(bios: Store, groups: GroupStore, t: Table, voteData: Json)
    requires DatesParse(t)
    requires ScrutinDate(voteData).JStr? && ParseDate(ScrutinDate(voteData).s).Some?
    ensures DatesParse(VoteOutcome(bios, groups, t, voteData))
    ensures DatesForward(t, VoteOutcome(bios, groups, t, voteData))
  {
    ApplyForward(bios, Run(t, None), VoteEvents(groups, voteData));
  }

  /** Conditions under which a later group `group2` dated `date2` wins: it is
      not the stored group and the stored date is earlier. */
  ghost predicate CanWin(d: Deputy, group2: Organ, date2: string)
  {
    && ParseDate(date2).Some?
    && StoredDateParses(d)
    && Before(StoredDay(d), ParseDate(date2).value)
    && (d.organ.None? || d.organ.value.id != group2.id)
  }

  /** An earlier group of another id, seen first, leaves the later group
      able to win. */
  lemma EarlierGroupKeepsChance(d: Deputy, group1: Organ, group2: Organ, date1: string, date2: string)
    requires group1.id != group2.id && ParseDate(date1).Some? && ParseDate(date2).Some?
    requires Before(ParseDate(date1).value, ParseDate(date2).value)
    requires CanWin(d, group2, date2)
    ensures Regroup(d, group1, JStr(date1)).Ok? && CanWin(Regroup(d, group1, JStr(date1)).value, group2, date2)
  {
    RegroupAdvances(d, group1, JStr(date1));
  }

  lemma EarlierFirst(bios: Store, t: Table, actor: string, seat1: Json, seat2: Json,
                     group1: Organ, group2: Organ, date1: string, date2: string)
    requires group1.id != group2.id && ParseDate(date1).Some? && ParseDate(date2).Some?
    requires Before(ParseDate(date1).value, ParseDate(date2).value)
    requires Baseline(bios, t, actor).Some? && CanWin(Baseline(bios, t, actor).value, group2, date2)
    ensures var run := Apply(bios, Run(t, None), [Voter(actor, seat1, group1, JStr(date1)), Voter(actor, seat2, group2, JStr(date2))]);
      actor in run.table && run.table[actor].organ == Some(group2.(date := Some(date2)))
  {
    var base := Baseline(bios, t, actor).value;
    var s1 := base.(chairNumbers := RecordSeat(base.chairNumbers, seat1));
    assert StoredDate(s1) == StoredDate(base);
    VoterStepRegroups(bios, t, actor, seat1, group1, JStr(date1));
    EarlierGroupKeepsChance(s1, group1, group2, date1, date2);
    var d1 := Regroup(s1, group1, JStr(date1)).value;
    var t1 := t[actor := d1];
    assert Step(bios, Run(t, None), Voter(actor, seat1, group1, JStr(date1))) == Run(t1, None);
    var s12 := d1.(chairNumbers := RecordSeat(d1.chairNumbers, seat2));
    assert StoredDate(s12) == StoredDate(d1);
    VoterStepRegroups(bios, t1, actor, seat2, group2, JStr(date2));
    RegroupWins(s12, group2, JStr(date2));
    assert Step(bios, Run(t1, None), Voter(actor, seat2, group2, JStr(date2))).table[actor] == s12.(organ := Some(group2.(date := Some(date2))));
    ApplyTwo(bios, Run(t, None), Voter(actor, seat1, group1, JStr(date1)), Voter(actor, seat2, group2, JStr(date2)));
  }

  lemma LaterFirst(bios: Store, t: Table, actor: string, seat1: Json, seat2: Json,
                   group1: Organ, group2: Organ, date1: string, date2: string)
    requires group1.id != group2.id && ParseDate(date1).Some? && ParseDate(date2).Some?
    requires Before(ParseDate(date1).value, ParseDate(date2).value)
    requires Baseline(bios, t, actor).Some? && CanWin(Baseline(bios, t, actor).value, group2, date2)
    ensures var run := Apply(bios, Run(t, None), [Voter(actor, seat2, group2, JStr(date2)), Voter(actor, seat1, group1, JStr(date1))]);
      actor in run.table && run.table[actor].organ == Some(group2.(date := Some(date2)))
  {
    var base := Baseline(bios, t, actor).value;
    var s2 := base.(chairNumbers := RecordSeat(base.chairNumbers, seat2));
    assert StoredDate(s2) == StoredDate(base);
    VoterStepRegroups(bios, t, actor, seat2, group2, JStr(date2));
    RegroupWins(s2, group2, JStr(date2));
    var d2 := s2.(organ := Some(group2.(date := Some(date2))));
    var t2 := t[actor := d2];
    var s21 := d2.(chairNumbers := RecordSeat(d2.chairNumbers, seat1));
    assert StoredDate(s21) == date2;
    VoterStepRegroups(bios, t2, actor, seat1, group1, JStr(date1));
    RegroupLoses(s21, group1, JStr(date1));
    ApplyTwo(bios, Run(t, None), Voter(actor, seat2, group2, JStr(date2)), Voter(actor, seat1, group1, JStr(date1)));
  }

  /** Two groups with distinct ids, dated D1 < D2, seen in either order: the
      deputy ends in the D2 group, stamped D2, provided its stored group is
      not already the D2 one and is dated before D2. */
  lemma TwoGroupsEitherOrder(bios: Store, t: Table, actor: string, seat1: Json, seat2: Json,
                             group1: Organ, group2: Organ, date1: string, date2: string)
    requires group1.id != group2.id
    requires ParseDate(date1).Some? && ParseDate(date2).Some?
    requires Before(ParseDate(date1).value, ParseDate(date2).value)
    requires Baseline(bios, t, actor).Some?
    requires StoredDateParses(Baseline(bios, t, actor).value)
    requires Before(StoredDay(Baseline(bios, t, actor).value), ParseDate(date2).value)
    requires Baseline(bios, t, actor).value.organ.None? || Baseline(bios, t, actor).value.organ.value.id != group2.id
    ensures var run := Apply(bios, Run(t, None), [Voter(actor, seat1, group1, JStr(date1)), Voter(actor, seat2, group2, JStr(date2))]);
      actor in run.table && run.table[actor].organ == Some(group2.(date := Some(date2)))
    ensures var run := Apply(bios, Run(t, None), [Voter(actor, seat2, group2, JStr(date2)), Voter(actor, seat1, group1, JStr(date1))]);
      actor in run.table && run.table[actor].organ == Some(group2.(date := Some(date2)))
  {
    EarlierFirst(bios, t, actor, seat1, seat2, group1, group2, date1, date2);
    LaterFirst(bios, t, actor, seat1, seat2, group1, group2, date1, date2);
  }

  /** A second vote in the same group does not refresh the stored date, so
      the group of the latest vote need not win: group 1 on D1, group 1
      again on D3, then group 2 on D2 with D1 < D2 leaves group 2, even when
      D3 is later than D2. */
  lemma SameGroupKeepsFirstDate(bios: Store, t: Table, actor: string, group1: Organ, group2: Organ,
                                date1: string, date2: string, date3: string)
    requires group1.id != group2.id
    requires ParseDate(date1).Some? && ParseDate(date2).Some? && ParseDate(date3).Some?
    requires Before(ParseDate(date1).value, ParseDate(date2).value)
    requires Baseline(bios, t, actor).Some? && CanWin(Baseline(bios, t, actor).value, group1, date1)
    ensures var run := Apply(bios, Run(t, None), [Voter(actor, JNull, group1, JStr(date1)),
                                                  Voter(actor, JNull, group1, JStr(date3)),
                                                  Voter(actor, JNull, group2, JStr(date2))]);
            actor in run.table && run.table[actor].organ == Some(group2.(date := Some(date2)))
  {
    var d := Baseline(bios, t, actor).value;
    assert RecordSeat(d.chairNumbers, JNull) == d.chairNumbers;
    var d1 := d.(organ := Some(group1.(date := Some(date1))));
    var d2 := d1.(organ := Some(group2.(date := Some(date2))));
    RegroupWins(d, group1, JStr(date1));
    RegroupLoses(d1, group1, JStr(date3));
    RegroupWins(d1, group2, JStr(date2));
    var t1 := t[actor := d1];
    VoterStepRegroups(bios, t, actor, JNull, group1, JStr(date1));
    VoterStepRegroups(bios, t1, actor, JNull, group1, JStr(date3));
    VoterStepRegroups(bios, t1, actor, JNull, group2, JStr(date2));
    ApplyThree(bios, Run(t, None), Voter(actor, JNull, group1, JStr(date1)),
               Voter(actor, JNull, group1, JStr(date3)), Voter(actor, JNull, group2, JStr(date2)));
  }

  lemma ExampleDates()
    ensures ParseDate("2020-01-01") == Some(Date(2020, 1, 1))
    ensures ParseDate("2021-01-01") == Some(Date(2021, 1, 1))
    ensures ParseDate("2022-01-01") == Some(Date(2022, 1, 1))
  {
  }

  /** For instance: A on 2020-01-01, A on 2022-01-01, B on 2021-01-01 ends in B. */
  lemma SameGroupExample()
    ensures var a := Organ("A", JNull, JNull, JNull, JNull, None);
            var b := Organ("B", JNull, JNull, JNull, JNull, None);
            var t := map["PA1" := Deputy("N P", [], None, [])];
            var run := Apply(map[], Run(t, None), [Voter("PA1", JNull, a, JStr("2020-01-01")),
                                                    Voter("PA1", JNull, a, JStr("2022-01-01")),
                                                    Voter("PA1", JNull, b, JStr("2021-01-01"))]);
            "PA1" in run.table && run.table["PA1"].organ == Some(b.(date := Some("2021-01-01")))
  {
    DefaultDateParses();
    ExampleDates();
    var d := Deputy("N P", [], None, []);
    assert StoredDay(d) == Date(1900, 1, 1);
    SameGroupKeepsFirstDate(map[], map["PA1" := d], "PA1",
                            Organ("A", JNull, JNull, JNull, JNull, None), Organ("B", JNull, JNull, JNull, JNull, None),
                            "2020-01-01", "2021-01-01", "2022-01-01");
  }

  /** A deputy already in group 2 skips a group-2 vote, whatever its date,
      and then takes group 1 from any vote dated after the stored date:
      lines 241-243 never refresh the date of the group already held. */
  lemma StoredGroupSkipsLaterVote(bios: Store, t: Table, actor: string, seat1: Json, seat2: Json,
                                  group1: Organ, group2: Organ, date1: string, date2: string)
    requires group1.id != group2.id && ParseDate(date1).Some? && ParseDate(date2).Some?
    requires actor in t && t[actor].organ.Some? && t[actor].organ.value.id == group2.id
    requires StoredDateParses(t[actor]) && Before(StoredDay(t[actor]), ParseDate(date1).value)
    ensures var run := Apply(bios, Run(t, None), [Voter(actor, seat2, group2, JStr(date2)), Voter(actor, seat1, group1, JStr(date1))]);
      actor in run.table && run.table[actor].organ == Some(group1.(date := Some(date1)))
  {
    var d := t[actor];
    var s2 := d.(chairNumbers := RecordSeat(d.chairNumbers, seat2));
    assert StoredDate(s2) == StoredDate(d);
    VoterStepRegroups(bios, t, actor, seat2, group2, JStr(date2));
    RegroupLoses(s2, group2, JStr(date2));
    var t2 := t[actor := s2];
    assert Step(bios, Run(t, None), Voter(actor, seat2, group2, JStr(date2))) == Run(t2, None);
    var s21 := s2.(chairNumbers := RecordSeat(s2.chairNumbers, seat1));
    assert StoredDate(s21) == StoredDate(d);
    VoterStepRegroups(bios, t2, actor, seat1, group1, JStr(date1));
    RegroupWins(s21, group1, JStr(date1));
    ApplyTwo(bios, Run(t, None), Voter(actor, seat2, group2, JStr(date2)), Voter(actor, seat1, group1, JStr(date1)));
  }

  /** A step that is not a speech leaves every speech list as it was, and
      a deputy it creates has none. */
  lemma NonSpeechKeepsSpeeches(bios: Store, r: Run, e: Event)
    requires !e.Speech?
    ensures forall k :: k in Step(bios, r, e).table ==>
      Step(bios, r, e).table[k].speeches == if k in r.table then r.table[k].speeches else []
  {
    if r.raised.None? && e.Voter? {
      var t := r.table;
      var found := if e.actor in t then Some(t[e.actor]) else CreateDeputy(bios, e.actor);
      if found.Some? {
        var seated := found.value.(chairNumbers := RecordSeat(found.value.chairNumbers, e.seat));
        assert seated.speeches == if e.actor in t then t[e.actor].speeches else [];
      }
    }
  }

  /** Over voters only, no speech list changes, and a deputy created on the
      way has none. */
  lemma {:induction false} VotersKeepSpeeches(bios: Store, r: Run, es: seq<Event>)
    requires forall i :: 0 <= i < |es| ==> !es[i].Speech?
    ensures forall k :: k in Apply(bios, r, es).table ==>
      Apply(bios, r, es).table[k].speeches == if k in r.table then r.table[k].speeches else []
    decreases |es|
  {
    if |es| > 0 {
      var n := |es| - 1;
      assert forall i :: 0 <= i < n ==> es[..n][i] == es[i];
      var mid := Apply(bios, r, es[..n]);
      VotersKeepSpeeches(bios, r, es[..n]);
      ApplyExtends(bios, r, es[..n]);
      NonSpeechKeepsSpeeches(bios, mid, es[n]);
      assert Apply(bios, r, es) == Step(bios, mid, es[n]);
      forall k | k in Apply(bios, r, es).table
        ensures Apply(bios, r, es).table[k].speeches == if k in r.table then r.table[k].speeches else []
      {
        if k !in mid.table {
          assert k !in r.table;
        }
      }
    }
  }

  /** Lines 161-247: a vote document leaves every speech list as it was. */
  lemma VoteKeepsSpeeches(bios: Store, groups: GroupStore, t: Table, voteData: Json)
    ensures forall k :: k in VoteOutcome(bios, groups, t, voteData) ==>
      VoteOutcome(bios, groups, t, voteData)[k].speeches == if k in t then t[k].speeches else []
  {
    VotersKeepSpeeches(bios, Run(t, None), VoteEvents(groups, voteData));
  }

  /** Lines 238-239: the seats of every deputy stay truthy and distinct. */
  lemma VoteKeepsSeatsWellFormed(bios: Store, groups: GroupStore, t: Table, voteData: Json)
    requires WellFormed(t)
    ensures WellFormed(VoteOutcome(bios, groups, t, voteData))
  {
    ApplyWellFormed(bios, Run(t, None), VoteEvents(groups, voteData));
  }

  // ---------------------------------------------------------------------
  // Who is touched

  /** The actor an event is about. */
  function Actor(e: Event): Option<string>
  {
    match e
    case Voter(actor, _, _, _) => Some(actor)
    case Speech(actor, _) => Some(actor)
    case Raised(_) => None
  }

  /** Lines 143-147 and 231-236: a step touches only its own actor's entry,
      and an actor without a biography is never inserted. */
  lemma StepLocal(bios: Store, r: Run, e: Event)
    ensures forall k :: Actor(e) != Some(k) ==>
      (k in Step(bios, r, e).table <==> k in r.table) && (k in r.table ==> Step(bios, r, e).table[k] == r.table[k])
    ensures forall k :: k !in r.table && Ident(bios, k).None? ==> k !in Step(bios, r, e).table
  {
  }

  /** A voter or speaker with no biography, not yet in the table, leaves
      the run exactly as it was. */
  lemma UnknownActorSkipped(bios: Store, t: Table, e: Event)
    requires e.Voter? || e.Speech?
    requires Actor(e).value !in t && Ident(bios, Actor(e).value).None?
    ensures Step(bios, Run(t, None), e) == Run(t, None)
  {
  }

  /** An actor none of whose events occur keeps its entry (or its absence). */
  lemma {:induction false} ApplyElsewhere(bios: Store, r: Run, es: seq<Event>, k: string)
    requires forall i :: 0 <= i < |es| ==> Actor(es[i]) != Some(k)
    ensures k in Apply(bios, r, es).table <==> k in r.table
    ensures k in r.table ==> Apply(bios, r, es).table[k] == r.table[k]
    decreases |es|
  {
    if |es| > 0 {
      ApplyElsewhere(bios, r, es[..|es| - 1], k);
      StepLocal(bios, Apply(bios, r, es[..|es| - 1]), es[|es| - 1]);
    }
  }

  // ---------------------------------------------------------------------
  // Speeches

  /** The texts of the speeches of `k` in `es`, in order. */
  function TextsFor(es: seq<Event>, k: string): seq<Json>
    decreases |es|
  {
    if |es| == 0 then []
    else
      var last := es[|es| - 1];
      TextsFor(es[..|es| - 1], k) + (if last.Speech? && last.actor == k then [last.text] else [])
  }

  /** Over speeches only: each text for `k` is appended once, in order, to
      the deputy found or created for `k`, and nothing else of it changes;
      `k` enters the table only when it has a biography and a speech. */
  lemma {:induction false} SpeechesAppend(bios: Store, r: Run, es: seq<Event>, k: string)
    requires r.raised.None?
    requires forall i :: 0 <= i < |es| ==> es[i].Speech?
    ensures Apply(bios, r, es).raised.None?
    ensures k in Apply(bios, r, es).table <==> k in r.table || (Baseline(bios, r.table, k).Some? && TextsFor(es, k) != [])
    ensures k in Apply(bios, r, es).table ==>
      Apply(bios, r, es).table[k] == Baseline(bios, r.table, k).value.(speeches := Baseline(bios, r.table, k).value.speeches + TextsFor(es, k))
    decreases |es|
  {
    if |es| > 0 {
      var n := |es| - 1;
      assert forall i :: 0 <= i < n ==> es[..n][i] == es[i];
      SpeechesAppend(bios, r, es[..n], k);
      var mid := Apply(bios, r, es[..n]);
      if es[n].actor != k {
        StepLocal(bios, mid, es[n]);
      } else if k !in mid.table {
        assert Baseline(bios, mid.table, k) == Baseline(bios, r.table, k);
      }
    }
  }

  /** A run that ends without an exception met no `Raised` event. */
  lemma {:induction false} CleanRunRaisesNothing(bios: Store, r: Run, es: seq<Event>)
    requires r.raised.None? && Apply(bios, r, es).raised.None?
    ensures forall i :: 0 <= i < |es| ==> !es[i].Raised?
    decreases |es|
  {
    if |es| > 0 {
      var n := |es| - 1;
      CleanRunRaisesNothing(bios, r, es[..n]);
      assert forall i :: 0 <= i < n ==> es[..n][i] == es[i];
    }
  }

  /** Lines 91-154: a transcript file that raises nothing appends to the
      deputy found or created for `k` exactly its texts, in document
      order, and changes nothing else about it. */
  lemma TranscriptSpeeches(bios: Store, t: Table, data: Json, k: string)
    requires TranscriptOutcome(bios, t, data).raised.None?
    ensures var u := TranscriptOutcome(bios, t, data).table;
            var texts := TextsFor(TranscriptEvents(data), k);
            && (k in u <==> k in t || (Baseline(bios, t, k).Some? && texts != []))
            && (k in u ==> u[k] == Baseline(bios, t, k).value.(speeches := Baseline(bios, t, k).value.speeches + texts))
  {
    var es := TranscriptEvents(data);
    CleanRunRaisesNothing(bios, Run(t, None), es);
    SpeechesAppend(bios, Run(t, None), es, k);
  }

  /** The `id` of a speaker entry, when it is a dict whose `id` is a string. */
  function SpeakerId(orateur: Json): Option<string>
  {
    if orateur.JObj? && HasKey(orateur.fields, "id") && Lookup(orateur.fields, "id").value.JStr?
    then Some(Lookup(orateur.fields, "id").value.s)
    else None
  }

  /** Lines 138-154: a speaker list of dicts with string ids yields one
      speech per listed speaker, in order, each carrying the paragraph text. */
  lemma {:induction false} SpeakersSpeak(speakers: seq<Json>, text: Json)
    requires forall i :: 0 <= i < |speakers| ==> SpeakerId(speakers[i]).Some?
    ensures |SpeakersEvents(speakers, text)| == |speakers|
    ensures forall i :: 0 <= i < |speakers| ==> SpeakersEvents(speakers, text)[i] == Speech("PA" + SpeakerId(speakers[i]).value, text)
    decreases |speakers|
  {
    if |speakers| > 0 {
      var n := |speakers| - 1;
      assert forall i :: 0 <= i < n ==> speakers[..n][i] == speakers[i];
      SpeakersSpeak(speakers[..n], text);
    }
  }
  // ---------------------------------------------------------------------
  // The clean-up

  /** Lines 329-331: only the `date` of each group goes; every other field
      of every deputy, and the set of deputies, stay. */
  lemma CleanDatesRemovesOnlyDate(t: Table)
    ensures CleanDates(t).Keys == t.Keys
    ensures forall k :: k in t ==>
      var u := CleanDates(t)[k];
      && u.(organ := t[k].organ) == t[k]
      && (u.organ.Some? <==> t[k].organ.Some?)
      && (u.organ.Some? ==> u.organ.value.date.None? && u.organ.value.(date := t[k].organ.value.date) == t[k].organ.value)
  {
  }

  /** Cleaning twice is cleaning once. */
  lemma CleanDatesIdempotent(t: Table)
    ensures CleanDates(CleanDates(t)) == CleanDates(t)
  {
  }

  // ---------------------------------------------------------------------
  // Whole passes and the legislature

  lemma ExtendsTransitive(t: Table, u: Table, v: Table)
    requires Extends(t, u) && Extends(u, v)
    ensures Extends(t, v)
  {
    forall k | k in t
      ensures t[k].chairNumbers <= v[k].chairNumbers && t[k].speeches <= v[k].speeches
    {
      PrefixTransitive(t[k].chairNumbers, u[k].chairNumbers, v[k].chairNumbers);
      PrefixTransitive(t[k].speeches, u[k].speeches, v[k].speeches);
    }
  }

  lemma DatesForwardTransitive(t: Table, u: Table, v: Table)
    requires DatesParse(t) && DatesParse(u) && DatesParse(v)
    requires Extends(t, u) && DatesForward(t, u) && DatesForward(u, v)
    ensures DatesForward(t, v)
  {
  }

  /** The table after the last record of a single vote file. */
  lemma RecordsStep(bios: Store, groups: GroupStore, t: Table, records: seq<Json>) returns (u: Table)
    requires |records| > 0
    ensures u == RecordsOutcome(bios, groups, t, records)
    ensures u == VoteOutcome(bios, groups, RecordsOutcome(bios, groups, t, records[..|records| - 1]), records[|records| - 1])
  {
    u := RecordsOutcome(bios, groups, t, records);
  }

  /** The table after the last file of a folder of vote files. */
  lemma FolderStep(bios: Store, groups: GroupStore, t: Table, files: seq<Option<Json>>) returns (u: Table)
    requires |files| > 0
    ensures u == FolderOutcome(bios, groups, t, files)
    ensures var mid := FolderOutcome(bios, groups, t, files[..|files| - 1]);
      u == if files[|files| - 1].Some? then VoteOutcome(bios, groups, mid, files[|files| - 1].value) else mid
  {
    u := FolderOutcome(bios, groups, t, files);
  }

  /** The table after the last file of the transcript pass. */
  lemma TranscriptsStep(bios: Store, t: Table, files: seq<Option<Json>>) returns (u: Table)
    requires |files| > 0
    ensures u == TranscriptsOutcome(bios, t, files).table
    ensures var mid := TranscriptsOutcome(bios, t, files[..|files| - 1]);
      u == if mid.raised.None? && files[|files| - 1].Some?
           then TranscriptOutcome(bios, mid.table, files[|files| - 1].value).table
           else mid.table
  {
    u := TranscriptsOutcome(bios, t, files).table;
  }

  /** One vote document more, after `mid` extended `t`, still extends `t`
      and keeps the seat lists well formed. */
  lemma VoteStepExtends(bios: Store, groups: GroupStore, t: Table, mid: Table, data: Json)
    requires Extends(t, mid) && (WellFormed(t) ==> WellFormed(mid))
    ensures Extends(t, VoteOutcome(bios, groups, mid, data))
    ensures WellFormed(t) ==> WellFormed(VoteOutcome(bios, groups, mid, data))
  {
    VoteOutcomeExtends(bios, groups, mid, data);
    ExtendsTransitive(t, mid, VoteOutcome(bios, groups, mid, data));
    if WellFormed(t) {
      VoteKeepsSeatsWellFormed(bios, groups, mid, data);
    }
  }

  /** One transcript file more, after `mid` extended `t`, still extends `t`
      and keeps the seat lists well formed. */
  lemma TranscriptStepExtends(bios: Store, t: Table, mid: Table, data: Json)
    requires Extends(t, mid) && (WellFormed(t) ==> WellFormed(mid))
    ensures Extends(t, TranscriptOutcome(bios, mid, data).table)
    ensures WellFormed(t) ==> WellFormed(TranscriptOutcome(bios, mid, data).table)
  {
    TranscriptOutcomeExtends(bios, mid, data);
    ExtendsTransitive(t, mid, TranscriptOutcome(bios, mid, data).table);
    if WellFormed(t) {
      ApplyWellFormed(bios, Run(mid, None), TranscriptEvents(data));
    }
  }

  /** Lines 274-301: the records of a single vote file never remove a
      deputy, rename one, or take back a seat or a speech, and keep every
      seat list well formed. */
  lemma {:induction false} RecordsOutcomeExtends(bios: Store, groups: GroupStore, t: Table, records: seq<Json>)
    ensures Extends(t, RecordsOutcome(bios, groups, t, records))
    ensures WellFormed(t) ==> WellFormed(RecordsOutcome(bios, groups, t, records))
    decreases |records|
  {
    if |records| > 0 {
      var n := |records| - 1;
      var u := RecordsStep(bios, groups, t, records);
      RecordsOutcomeExtends(bios, groups, t, records[..n]);
      VoteStepExtends(bios, groups, t, RecordsOutcome(bios, groups, t, records[..n]), records[n]);
    }
  }

  /** Lines 249-272: so does a folder of vote files. */
  lemma {:induction false} FolderOutcomeExtends(bios: Store, groups: GroupStore, t: Table, files: seq<Option<Json>>)
    ensures Extends(t, FolderOutcome(bios, groups, t, files))
    ensures WellFormed(t) ==> WellFormed(FolderOutcome(bios, groups, t, files))
    decreases |files|
  {
    if |files| > 0 {
      var n := |files| - 1;
      var u := FolderStep(bios, groups, t, files);
      FolderOutcomeExtends(bios, groups, t, files[..n]);
      if files[n].Some? {
        VoteStepExtends(bios, groups, t, FolderOutcome(bios, groups, t, files[..n]), files[n].value);
      }
    }
  }

  /** The last file of the transcript pass, after the earlier files
      extended `t`, still extends `t`. */
  lemma TranscriptsLastExtends(bios: Store, t: Table, files: seq<Option<Json>>)
    requires |files| > 0
    requires var mid := TranscriptsOutcome(bios, t, files[..|files| - 1]).table;
      Extends(t, mid) && (WellFormed(t) ==> WellFormed(mid))
    ensures Extends(t, TranscriptsOutcome(bios, t, files).table)
    ensures WellFormed(t) ==> WellFormed(TranscriptsOutcome(bios, t, files).table)
  {
    var n := |files| - 1;
    var mid := TranscriptsOutcome(bios, t, files[..n]);
    var u := TranscriptsStep(bios, t, files);
    if mid.raised.None? && files[n].Some? {
      TranscriptStepExtends(bios, t, mid.table, files[n].value);
    }
  }

  /** Lines 75-159: and so does the transcript pass. */
  lemma {:induction false} TranscriptsOutcomeExtends(bios: Store, t: Table, files: seq<Option<Json>>)
    ensures Extends(t, TranscriptsOutcome(bios, t, files).table)
    ensures WellFormed(t) ==> WellFormed(TranscriptsOutcome(bios, t, files).table)
    decreases |files|
  {
    if |files| > 0 {
      TranscriptsOutcomeExtends(bios, t, files[..|files| - 1]);
      TranscriptsLastExtends(bios, t, files);
    }
  }

  /** A vote file whose `dateScrutin` is a well-formed day. */
  ghost predicate WellDated(voteData: Json)
  {
    ScrutinDate(voteData).JStr? && ParseDate(ScrutinDate(voteData).s).Some?
  }

  /** One well-dated vote document more, after `mid` extended `t` and moved
      no date back, still moves no date back from `t`. */
  lemma VoteStepForward(bios: Store, groups: GroupStore, t: Table, mid: Table, data: Json)
    requires DatesParse(t) && DatesParse(mid) && Extends(t, mid) && DatesForward(t, mid)
    requires WellDated(data)
    ensures DatesParse(VoteOutcome(bios, groups, mid, data))
    ensures DatesForward(t, VoteOutcome(bios, groups, mid, data))
  {
    VoteOutcomeForward(bios, groups, mid, data);
    DatesForwardTransitive(t, mid, VoteOutcome(bios, groups, mid, data));
  }

  /** Lines 294-297: over the well-dated records of a single vote file, no
      stored group date ever moves back. */
  lemma {:induction false} RecordsOutcomeForward(bios: Store, groups: GroupStore, t: Table, records: seq<Json>)
    requires DatesParse(t)
    requires forall i :: 0 <= i < |records| ==> WellDated(records[i])
    ensures DatesParse(RecordsOutcome(bios, groups, t, records))
    ensures DatesForward(t, RecordsOutcome(bios, groups, t, records))
    decreases |records|
  {
    if |records| > 0 {
      var n := |records| - 1;
      var prefix := records[..n];
      assert forall i :: 0 <= i < n ==> prefix[i] == records[i];
      var u := RecordsStep(bios, groups, t, records);
      RecordsOutcomeForward(bios, groups, t, prefix);
      RecordsOutcomeExtends(bios, groups, t, prefix);
      var mid := RecordsOutcome(bios, groups, t, prefix);
      assert WellDated(records[n]);
      VoteStepForward(bios, groups, t, mid, records[n]);
      assert u == VoteOutcome(bios, groups, mid, records[n]);
    }
  }

  /** Lines 249-272: over a folder of well-dated vote files, no stored group
      date ever moves back. */
  lemma {:induction false} FolderOutcomeForward(bios: Store, groups: GroupStore, t: Table, files: seq<Option<Json>>)
    requires DatesParse(t)
    requires forall i :: 0 <= i < |files| && files[i].Some? ==> WellDated(files[i].value)
    ensures DatesParse(FolderOutcome(bios, groups, t, files))
    ensures DatesForward(t, FolderOutcome(bios, groups, t, files))
    decreases |files|
  {
    if |files| > 0 {
      var n := |files| - 1;
      var prefix := files[..n];
      assert forall i :: 0 <= i < n ==> prefix[i] == files[i];
      var u := FolderStep(bios, groups, t, files);
      FolderOutcomeForward(bios, groups, t, prefix);
      if files[n].Some? {
        FolderOutcomeExtends(bios, groups, t, prefix);
        VoteStepForward(bios, groups, t, FolderOutcome(bios, groups, t, prefix), files[n].value);
      }
    }
  }

  /** One transcript file more, after `mid` extended `t` and moved no date
      back, still moves no date back from `t`. */
  lemma TranscriptStepForward(bios: Store, t: Table, mid: Table, data: Json)
    requires DatesParse(t) && DatesParse(mid) && Extends(t, mid) && DatesForward(t, mid)
    ensures DatesParse(TranscriptOutcome(bios, mid, data).table)
    ensures DatesForward(t, TranscriptOutcome(bios, mid, data).table)
  {
    var es := TranscriptEvents(data);
    assert ValidlyDated(es);
    ApplyForward(bios, Run(mid, None), es);
    DatesForwardTransitive(t, mid, TranscriptOutcome(bios, mid, data).table);
  }

  /** Lines 75-159: the transcript pass moves no stored group date. */
  lemma {:induction false} TranscriptsOutcomeForward(bios: Store, t: Table, files: seq<Option<Json>>)
    requires DatesParse(t)
    ensures DatesParse(TranscriptsOutcome(bios, t, files).table)
    ensures DatesForward(t, TranscriptsOutcome(bios, t, files).table)
    decreases |files|
  {
    if |files| > 0 {
      var n := |files| - 1;
      var mid := TranscriptsOutcome(bios, t, files[..n]);
      var u := TranscriptsStep(bios, t, files);
      TranscriptsOutcomeForward(bios, t, files[..n]);
      if mid.raised.None? && files[n].Some? {
        TranscriptsOutcomeExtends(bios, t, files[..n]);
        TranscriptStepForward(bios, t, mid.table, files[n].value);
      }
    }
  }

  /** Lines 249-301: the vote pass of a legislature, from the empty table,
      leaves every seat list well formed. */
  lemma VotesWellFormed(bios: Store, groups: GroupStore, votes: VoteSource)
    ensures WellFormed(VotesOutcome(bios, groups, map[], votes).table)
  {
    var empty: Table := map[];
    match votes
    case SingleFile(file) =>
      if file.Some? && Get(file.value, "scrutins", JObj([])).Ok? {
        var scrutins := Get(file.value, "scrutins", JObj([])).value;
        var records := Get(scrutins, "scrutin", JArr([]));
        if records.Ok? && records.value.JArr? {
          RecordsOutcomeExtends(bios, groups, empty, records.value.items);
        }
      }
    case Folder(files) =>
      FolderOutcomeExtends(bios, groups, empty, files);
  }

  /** Lines 303-340: every seat list that `process_legislature` writes is
      well formed. */
  lemma LegislatureWellFormed(bios: Store, groups: GroupStore, votes: VoteSource, transcripts: Option<seq<Option<Json>>>)
    ensures LegislatureOutput(bios, groups, votes, transcripts).Some? ==> WellFormed(LegislatureOutput(bios, groups, votes, transcripts).value)
  {
    var v := VotesOutcome(bios, groups, map[], votes);
    VotesWellFormed(bios, groups, votes);
    var c := if transcripts.Some? then TranscriptsOutcome(bios, v.table, transcripts.value) else v;
    if transcripts.Some? {
      TranscriptsOutcomeExtends(bios, v.table, transcripts.value);
    }
    assert WellFormed(c.table);
    CleanDatesWellFormed(c.table);
  }
}
