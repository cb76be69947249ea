/**
 An organism of the encounter engine: a species identity, a 64-bit unsigned
 vitality and two diet flags fixed at construction. Every operation returns a
 new organism; none is ever updated in place.
 */
module Organisms {

  datatype Option<+T> = None | Some(value: T)

  /** The largest value of a 64-bit unsigned integer: vitality saturates here. */
  const MaxVitality: int := 0xFFFF_FFFF_FFFF_FFFF

  /** A 64-bit unsigned integer, the width the engine stores vitality in. */
  type U64 = x: int | 0 <= x <= MaxVitality

  function Min(a: int, b: int): int {
    if a <= b then a else b
  }

  function Max(a: int, b: int): int {
    if a <= b then b else a
  }

  /**
   The species is an opaque identity compared only for equality; the diet is
   given by the two flags, which never change after construction.
   */
  datatype Organism<S> = Organism(species: S, vitality: U64, eatsMeat: bool, eatsPlants: bool)

  /** The four diet classes the engine names (carnivore, omnivore, herbivore, plant). */
  datatype Diet = Carnivore | Omnivore | Herbivore | Plant

  function EatsMeat(d: Diet): bool {
    d == Carnivore || d == Omnivore
  }

  function EatsPlants(d: Diet): bool {
    d == Omnivore || d == Herbivore
  }

  /** The diet class that a combination of the two flags names. */
  function Classify(eatsMeat: bool, eatsPlants: bool): (d: Diet)
    ensures EatsMeat(d) == eatsMeat && EatsPlants(d) == eatsPlants
  {
    if eatsMeat && eatsPlants then Omnivore
    else if eatsMeat then Carnivore
    else if eatsPlants then Herbivore
    else Plant
  }

  function DietOf<S>(o: Organism<S>): Diet {
    Classify(o.eatsMeat, o.eatsPlants)
  }

  /** A new organism of the given diet class. */
  function New<S>(species: S, vitality: U64, d: Diet): (o: Organism<S>)
    ensures o.species == species && o.vitality == vitality && DietOf(o) == d
  {
    Organism(species, vitality, EatsMeat(d), EatsPlants(d))
  }

  /** The flags and the diet classes are in one-to-one correspondence. */
  lemma ClassifyRoundTrip(d: Diet)
    ensures Classify(EatsMeat(d), EatsPlants(d)) == d
  {
  }

  /** An organism can move unless it eats neither meat nor plants. */
  function IsMovable(eatsMeat: bool, eatsPlants: bool): (r: bool)
    ensures r <==> Classify(eatsMeat, eatsPlants) != Plant
  {
    eatsMeat || eatsPlants
  }

  /** Two organisms have the same food preferences exactly when they are of one diet class. */
  function SameFoodPreferences(eatsMeat1: bool, eatsPlants1: bool, eatsMeat2: bool, eatsPlants2: bool): (r: bool)
    ensures r <==> Classify(eatsMeat1, eatsPlants1) == Classify(eatsMeat2, eatsPlants2)
  {
    eatsMeat1 == eatsMeat2 && eatsPlants1 == eatsPlants2
  }

  /** A plant is the one diet class that cannot move. */
  function IsPlant<S>(o: Organism<S>): (r: bool)
    ensures r <==> DietOf(o) == Plant
    ensures r <==> !IsMovable(o.eatsMeat, o.eatsPlants)
  {
    !o.eatsMeat && !o.eatsPlants
  }

  /** Two organisms that agree on everything except, possibly, vitality. */
  ghost predicate SameKind<S>(a: Organism<S>, b: Organism<S>) {
    a.species == b.species && a.eatsMeat == b.eatsMeat && a.eatsPlants == b.eatsPlants
  }

  /**
   Feeding adds `food` to the vitality, saturating at the 64-bit maximum
   instead of wrapping round. The guard compares against `MaxVitality - food`
   so that the comparison itself cannot overflow.
   */
  function FedWith<S>(o: Organism<S>, food: U64): (r: Organism<S>)
    ensures SameKind(r, o)
    ensures o.vitality <= r.vitality <= o.vitality + food
    ensures r.vitality == o.vitality + food || r.vitality == MaxVitality
  {
    var newVitality := if o.vitality <= MaxVitality - food then o.vitality + food else MaxVitality;
    Organism(o.species, newVitality, o.eatsMeat, o.eatsPlants)
  }

  /** Feeding gives the sum of the two, capped at the maximum. */
  lemma FedWithSaturates<S>(o: Organism<S>, food: U64)
    ensures FedWith(o, food).vitality == Min(o.vitality + food, MaxVitality)
    ensures food > 0 && o.vitality < MaxVitality ==> FedWith(o, food).vitality > o.vitality
  {
  }

  /** The same organism with its vitality set to zero. */
  function Dead<S>(o: Organism<S>): (r: Organism<S>)
    ensures SameKind(r, o) && r.vitality == 0
  {
    Organism(o.species, 0, o.eatsMeat, o.eatsPlants)
  }

  /** An organism is dead exactly when killing it changes nothing. */
  function IsDead<S>(o: Organism<S>): (r: bool)
    ensures r <==> Dead(o) == o
  {
    o.vitality == 0
  }
}
