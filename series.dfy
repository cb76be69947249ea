/**
 A chain of encounters: one organism meets a sequence of opponents in order,
 and only its own state is carried from one meeting to the next.
 */
module Series {
  import opened Organisms
  import opened Encounters

  /** Every meeting of the chain is allowed: the traveller or the opponent can move. */
  predicate CanMeetAll<S>(o: Organism<S>, opponents: seq<Organism<S>>) {
    forall i :: 0 <= i < |opponents| ==> CanMeet(o, opponents[i])
  }

  /**
   The traveller meets `next` and then each of `rest`; after each meeting the
   opponent's new state and any offspring are dropped.
   */
  function SeriesHelper<S(==)>(o: Organism<S>, next: Organism<S>, rest: seq<Organism<S>>): (r: Organism<S>)
    requires CanMeet(o, next) && CanMeetAll(o, rest)
    ensures SameKind(r, o)
    decreases |rest|
  {
    var survivor := Encounter(o, next).0;
    if |rest| > 0 then SeriesHelper(survivor, rest[0], rest[1..]) else survivor
  }

  /** The traveller after meeting every opponent in order; with no opponents it is unchanged. */
  function EncounterSeries<S(==)>(o: Organism<S>, opponents: seq<Organism<S>>): (r: Organism<S>)
    requires CanMeetAll(o, opponents)
    ensures SameKind(r, o)
    ensures opponents == [] ==> r == o
  {
    if |opponents| == 0 then o else SeriesHelper(o, opponents[0], opponents[1..])
  }

  /**
   The reference meaning of a series: a left fold that replaces the traveller
   by the first component of its encounter with the last opponent.
   */
  function Survivor<S(==)>(o: Organism<S>, opponents: seq<Organism<S>>): (r: Organism<S>)
    requires CanMeetAll(o, opponents)
    ensures SameKind(r, o)
    decreases |opponents|
  {
    if |opponents| == 0 then o
    else
      var before := Survivor(o, opponents[..|opponents| - 1]);
      Encounter(before, opponents[|opponents| - 1]).0
  }

  /** A non-empty series is its first encounter followed by the rest of the series. */
  lemma SeriesUnfold<S>(o: Organism<S>, opponents: seq<Organism<S>>)
    requires CanMeetAll(o, opponents) && |opponents| > 0
    ensures CanMeetAll(Encounter(o, opponents[0]).0, opponents[1..])
    ensures EncounterSeries(o, opponents) == EncounterSeries(Encounter(o, opponents[0]).0, opponents[1..])
  {
  }

  /** The helper that the series delegates to is the left fold over `next` followed by `rest`. */
  lemma SeriesHelperIsFold<S>(o: Organism<S>, next: Organism<S>, rest: seq<Organism<S>>)
    requires CanMeet(o, next) && CanMeetAll(o, rest)
    ensures CanMeetAll(o, [next] + rest)
    ensures SeriesHelper(o, next, rest) == Survivor(o, [next] + rest)
  {
    var opponents := [next] + rest;
    assert opponents[0] == next && opponents[1..] == rest;
    SeriesIsLeftFold(o, opponents);
  }

  /** Meeting `a` and then `b` is the same as meeting `a + b`. */
  lemma {:induction false} SeriesAppend<S>(o: Organism<S>, a: seq<Organism<S>>, b: seq<Organism<S>>)
    requires CanMeetAll(o, a + b)
    ensures CanMeetAll(o, a) && CanMeetAll(EncounterSeries(o, a), b)
    ensures EncounterSeries(o, a + b) == EncounterSeries(EncounterSeries(o, a), b)
    decreases |a|
  {
    assert forall i :: 0 <= i < |a| ==> (a + b)[i] == a[i];
    assert forall i :: 0 <= i < |b| ==> (a + b)[|a| + i] == b[i];
    if |a| > 0 {
      var survivor := Encounter(o, a[0]).0;
      SeriesUnfold(o, a + b);
      SeriesUnfold(o, a);
      assert (a + b)[1..] == a[1..] + b;
      SeriesAppend(survivor, a[1..], b);
    } else {
      assert a + b == b;
    }
  }

  /** The series is the left fold of encounters over the opponents, in argument order. */
  lemma {:induction false} SeriesIsLeftFold<S>(o: Organism<S>, opponents: seq<Organism<S>>)
    requires CanMeetAll(o, opponents)
    ensures EncounterSeries(o, opponents) == Survivor(o, opponents)
    decreases |opponents|
  {
    if |opponents| > 0 {
      var n := |opponents| - 1;
      var init, last := opponents[..n], opponents[n];
      assert opponents == init + [last];
      SeriesAppend(o, init, [last]);
      SeriesIsLeftFold(o, init);
    }
  }

  /** A dead traveller stays exactly as it is, whoever it meets. */
  lemma {:induction false} SeriesDeadTraveller<S>(o: Organism<S>, opponents: seq<Organism<S>>)
    requires CanMeetAll(o, opponents) && IsDead(o)
    ensures EncounterSeries(o, opponents) == o
    decreases |opponents|
  {
    if |opponents| > 0 {
      SeriesUnfold(o, opponents);
      EncounterWithDead(o, opponents[0]);
      SeriesDeadTraveller(o, opponents[1..]);
    }
  }

  /** Over a whole series the traveller is never wounded: it ends dead or at least as strong. */
  lemma {:induction false} SeriesKillsOrKeeps<S>(o: Organism<S>, opponents: seq<Organism<S>>)
    requires CanMeetAll(o, opponents)
    ensures var r := EncounterSeries(o, opponents); r.vitality == 0 || r.vitality >= o.vitality
    decreases |opponents|
  {
    if |opponents| > 0 {
      SeriesUnfold(o, opponents);
      EncounterKillsOrKeeps(o, opponents[0]);
      var survivor := Encounter(o, opponents[0]).0;
      if IsDead(survivor) {
        SeriesDeadTraveller(survivor, opponents[1..]);
      } else {
        SeriesKillsOrKeeps(survivor, opponents[1..]);
      }
    }
  }

  /** A plant travelling through a series is either untouched or eaten. */
  lemma {:induction false} SeriesPlant<S>(o: Organism<S>, opponents: seq<Organism<S>>)
    requires CanMeetAll(o, opponents) && IsPlant(o)
    ensures EncounterSeries(o, opponents) == o || EncounterSeries(o, opponents) == Dead(o)
    decreases |opponents|
  {
    if |opponents| > 0 {
      SeriesUnfold(o, opponents);
      PlantOnlyDies(o, opponents[0]);
      var survivor := Encounter(o, opponents[0]).0;
      if survivor == o {
        SeriesPlant(o, opponents[1..]);
      } else {
        SeriesDeadTraveller(survivor, opponents[1..]);
      }
    }
  }
}
