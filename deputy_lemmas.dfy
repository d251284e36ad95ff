/** Properties of the deputy table model (module Deputies). */
module DeputyLemmas {
  import opened Json
  import opened Seqs
  import opened Dates
  import opened Deputies

  // ---------------------------------------------------------------------
  // The fold

  lemma ApplySingle(bios: Store, r: Run, e: Event)
    ensures Apply(bios, r, [e]) == Step(bios, r, e)
  {
    assert [e][..0] == [];
  }

  lemma ApplyTwo(bios: Store, r: Run, e1: Event, e2: Event)
    ensures Apply(bios, r, [e1, e2]) == Step(bios, Step(bios, r, e1), e2)
  {
    assert [e1, e2][..1] == [e1];
    ApplySingle(bios, r, e1);
  }

  lemma ApplyThree(bios: Store, r: Run, e1: Event, e2: Event, e3: Event)
    ensures Apply(bios, r, [e1, e2, e3]) == Step(bios, Step(bios, Step(bios, r, e1), e2), e3)
  {
    assert [e1, e2, e3][..2] == [e1, e2];
    ApplyTwo(bios, r, e1, e2);
  }

  /** Once an exception is raised, the rest of the document does nothing. */
  lemma {:induction false} ApplyRaised(bios: Store, r: Run, es: seq<Event>)
    requires r.raised.Some?
    ensures Apply(bios, r, es) == r
    decreases |es|
  {
    if |es| > 0 {
      ApplyRaised(bios, r, es[..|es| - 1]);
    }
  }

  lemma {:induction false} ApplyConcat(bios: Store, r: Run, a: seq<Event>, b: seq<Event>)
    ensures Apply(bios, r, a + b) == Apply(bios, Apply(bios, r, a), b)
    decreases |b|
  {
    if |b| == 0 {
      assert a + b == a;
    } else {
      assert (a + b)[..|a + b| - 1] == a + b[..|b| - 1];
      ApplyConcat(bios, r, a, b[..|b| - 1]);
    }
  }

  /** One more turn of a loop whose iterations produce `f(s[i])`; when that
      turn raises, the run is over and the remaining turns change nothing. */
  lemma AdvanceLoop<A>(bios: Store, f: A -> seq<Event>, s: seq<A>, i: nat, r0: Run, mid: Run, next: Run)
    requires i < |s|
    requires Apply(bios, r0, FlatMap(f, s[..i])) == mid
    requires Apply(bios, mid, f(s[i])) == next
    ensures Apply(bios, r0, FlatMap(f, s[..i + 1])) == next
    ensures next.raised.Some? ==> Apply(bios, r0, FlatMap(f, s)) == next
  {
    FlatMapSnoc(f, s, i);
    ApplyConcat(bios, r0, FlatMap(f, s[..i]), f(s[i]));
    if next.raised.Some? {
      FlatMapSplit(f, s, i + 1);
      ApplyConcat(bios, r0, FlatMap(f, s[..i + 1]), FlatMap(f, s[i + 1..]));
      ApplyRaised(bios, next, FlatMap(f, s[i + 1..]));
    }
  }

  /** `AdvanceLoop` for the voter loop of one position. */
  lemma AdvanceVotants(bios: Store, list: seq<Json>, organ: Organ, date: Json, i: nat, r0: Run, mid: Run, next: Run)
    requires i < |list|
    requires Apply(bios, r0, VotantsEvents(list[..i], organ, date)) == mid
    requires Apply(bios, mid, VotantEvents(list[i], organ, date)) == next
    ensures Apply(bios, r0, VotantsEvents(list[..i + 1], organ, date)) == next
    ensures next.raised.Some? ==> Apply(bios, r0, VotantsEvents(list, organ, date)) == next
  {
    AdvanceLoop(bios, v => VotantEvents(v, organ, date), list, i, r0, mid, next);
  }

  /** A transcript pass that has failed stays failed. */
  lemma {:induction false} TranscriptsOutcomeStops(bios: Store, t: Table, files: seq<Option<Json>>, j: nat)
    requires j <= |files|
    requires TranscriptsOutcome(bios, t, files[..j]).raised.Some?
    ensures TranscriptsOutcome(bios, t, files) == TranscriptsOutcome(bios, t, files[..j])
    decreases |files| - j
  {
    if j < |files| {
      var n := |files|;
      assert files[..n][..n - 1] == files[..n - 1];
      assert files[..j + 1][..j] == files[..j];
      TranscriptsOutcomeStops(bios, t, files, j + 1);
    } else {
      assert files[..j] == files;
    }
  }

  // ---------------------------------------------------------------------
  // Seats: never falsy, never twice

  /** Recording a seat keeps the list well formed, never removes a seat,
      and leaves every truthy seat listed. */
  lemma {:induction false} RecordSeatWellFormed(seats: seq<Json>, seat: Json)
    requires SeatsWellFormed(seats)
    ensures SeatsWellFormed(RecordSeat(seats, seat))
    ensures seats <= RecordSeat(seats, seat)
    ensures Truthy(seat) ==> seat in RecordSeat(seats, seat)
  {
    if Truthy(seat) && seat !in seats {
      var s := seats + [seat];
      forall i, j | 0 <= i < j < |s| ensures s[i] != s[j] {
        if j == |s| - 1 {
          assert s[i] in seats;
        }
      }
    }
  }

  lemma VoterStepWellFormed(bios: Store, t: Table, actor: string, seat: Json, organ: Organ, date: Json)
    requires WellFormed(t)
    ensures WellFormed(VoterStep(bios, t, actor, seat, organ, date).table)
  {
    var found := if actor in t then Some(t[actor]) else CreateDeputy(bios, actor);
    if found.Some? {
      RecordSeatWellFormed(found.value.chairNumbers, seat);
    }
  }

  lemma StepWellFormed(bios: Store, r: Run, e: Event)
    requires WellFormed(r.table)
    ensures WellFormed(Step(bios, r, e).table)
  {
    if r.raised.None? && e.Voter? {
      VoterStepWellFormed(bios, r.table, e.actor, e.seat, e.organ, e.date);
    }
  }

  lemma {:induction false} ApplyWellFormed(bios: Store, r: Run, es: seq<Event>)
    requires WellFormed(r.table)
    ensures WellFormed(Apply(bios, r, es).table)
    decreases |es|
  {
    if |es| > 0 {
      ApplyWellFormed(bios, r, es[..|es| - 1]);
      StepWellFormed(bios, Apply(bios, r, es[..|es| - 1]), es[|es| - 1]);
    }
  }

  lemma CleanDatesWellFormed(t: Table)
    requires WellFormed(t)
    ensures WellFormed(CleanDates(t))
  {
  }
}
