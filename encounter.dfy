/**
 The rule table that resolves the meeting of two organisms: an ordered chain
 of rules where the first one that applies decides the outcome.
 */
module Encounters {
  import opened Organisms

  /** Divisor of the victim's vitality when a plant is eaten: all of it is gained. */
  const PlantEnergyLoss: U64 := 1
  /** Divisor of the victim's vitality when an animal is eaten: half is gained. */
  const AnimalEnergyLoss: U64 := 2

  /** The two organisms after the meeting, and the offspring if they mated. */
  type Outcome<S> = (Organism<S>, Organism<S>, Option<Organism<S>>)

  /** An encounter may take place only if at least one side can move. */
  predicate CanMeet<S>(o1: Organism<S>, o2: Organism<S>) {
    IsMovable(o1.eatsMeat, o1.eatsPlants) || IsMovable(o2.eatsMeat, o2.eatsPlants)
  }

  /** Both alive, of one species and with identical diets: the mating rule applies. */
  ghost predicate Mates<S>(o1: Organism<S>, o2: Organism<S>) {
    && !IsDead(o1) && !IsDead(o2)
    && o1.species == o2.species
    && SameFoodPreferences(o1.eatsMeat, o1.eatsPlants, o2.eatsMeat, o2.eatsPlants)
  }

  /** Neither organism changes and there is no offspring. */
  function NoEffect<S>(o1: Organism<S>, o2: Organism<S>): (r: Outcome<S>)
    ensures r.0 == o1 && r.1 == o2 && r.2.None?
  {
    (o1, o2, None)
  }

  /**
   Both parents are returned unchanged and the child takes the first parent's
   species and diet and the mean vitality, rounded down. The clamp to the
   maximum is kept as written although the mean of two 64-bit values always
   fits in 64 bits.
   */
  function MakeChild<S>(o1: Organism<S>, o2: Organism<S>): (r: Outcome<S>)
    ensures r.0 == o1 && r.1 == o2 && r.2.Some?
    ensures SameKind(r.2.value, o1)
    ensures r.2.value.vitality * 2 <= o1.vitality + o2.vitality < r.2.value.vitality * 2 + 2
    ensures Min(o1.vitality, o2.vitality) <= r.2.value.vitality <= Max(o1.vitality, o2.vitality)
  {
    var mean := (o1.vitality + o2.vitality) / 2;
    var vitality := Min(mean, MaxVitality);
    (o1, o2, Some(Organism(o1.species, vitality, o1.eatsMeat, o1.eatsPlants)))
  }

  /** The first organism eats the second and gains its vitality divided by `energyLoss`. */
  function FirstEatSecond<S>(o1: Organism<S>, o2: Organism<S>, energyLoss: U64): (r: Outcome<S>)
    requires energyLoss > 0
    ensures SameKind(r.0, o1) && r.0.vitality == Min(o1.vitality + o2.vitality / energyLoss, MaxVitality)
    ensures SameKind(r.1, o2) && IsDead(r.1) && r.2.None?
  {
    (FedWith(o1, o2.vitality / energyLoss), Dead(o2), None)
  }

  /** The second organism eats the first and gains its vitality divided by `energyLoss`. */
  function SecondEatFirst<S>(o1: Organism<S>, o2: Organism<S>, energyLoss: U64): (r: Outcome<S>)
    requires energyLoss > 0
    ensures SameKind(r.0, o1) && IsDead(r.0) && r.2.None?
    ensures SameKind(r.1, o2) && r.1.vitality == Min(o2.vitality + o1.vitality / energyLoss, MaxVitality)
  {
    (Dead(o1), FedWith(o2, o1.vitality / energyLoss), None)
  }

  /** Both organisms die, keeping their kinds, and there is no offspring. */
  function BothDie<S>(o1: Organism<S>, o2: Organism<S>): (r: Outcome<S>)
    ensures SameKind(r.0, o1) && IsDead(r.0) && SameKind(r.1, o2) && IsDead(r.1) && r.2.None?
  {
    (Dead(o1), Dead(o2), None)
  }

  /**
   Resolves one meeting. The rules are tried in order: a dead participant,
   mating, exactly one plant, two meat eaters, one meat eater, and otherwise
   nothing happens. Only vitality ever changes, and only mating has offspring.
   */
  function Encounter<S(==)>(o1: Organism<S>, o2: Organism<S>): (r: Outcome<S>)
    requires CanMeet(o1, o2)
    ensures SameKind(r.0, o1) && SameKind(r.1, o2)
    ensures r.2.Some? <==> Mates(o1, o2)
    ensures r.2.Some? ==> r.0 == o1 && r.1 == o2 && SameKind(r.2.value, o1)
  {
    if IsDead(o1) || IsDead(o2) then
      NoEffect(o1, o2)
    else if o1.species == o2.species && SameFoodPreferences(o1.eatsMeat, o1.eatsPlants, o2.eatsMeat, o2.eatsPlants) then
      MakeChild(o1, o2)
    else if IsPlant(o1) || IsPlant(o2) then
      if o1.eatsPlants then FirstEatSecond(o1, o2, PlantEnergyLoss)
      else if o2.eatsPlants then SecondEatFirst(o1, o2, PlantEnergyLoss)
      else NoEffect(o1, o2)
    else if o1.eatsMeat && o2.eatsMeat then
      if o1.vitality > o2.vitality then FirstEatSecond(o1, o2, AnimalEnergyLoss)
      else if o1.vitality < o2.vitality then SecondEatFirst(o1, o2, AnimalEnergyLoss)
      else BothDie(o1, o2)
    else if o1.eatsMeat then
      if o1.vitality <= o2.vitality then NoEffect(o1, o2)
      else FirstEatSecond(o1, o2, AnimalEnergyLoss)
    else if o2.eatsMeat then
      if o1.vitality >= o2.vitality then NoEffect(o1, o2)
      else SecondEatFirst(o1, o2, AnimalEnergyLoss)
    else
      NoEffect(o1, o2)
  }

  // The rules one by one. Each lemma states its case without relying on the
  // order of the rules: its requires exclude every earlier rule explicitly.

  /** Rule 1: a dead participant means nothing happens. */
  lemma EncounterWithDead<S>(o1: Organism<S>, o2: Organism<S>)
    requires CanMeet(o1, o2)
    requires IsDead(o1) || IsDead(o2)
    ensures Encounter(o1, o2) == (o1, o2, None)
  {
  }

  /** Rule 2: mating leaves both parents as they were and adds their mean-vitality child. */
  lemma EncounterMating<S>(o1: Organism<S>, o2: Organism<S>)
    requires CanMeet(o1, o2)
    requires !IsDead(o1) && !IsDead(o2)
    requires o1.species == o2.species && o1.eatsMeat == o2.eatsMeat && o1.eatsPlants == o2.eatsPlants
    ensures Encounter(o1, o2) ==
            (o1, o2, Some(Organism(o1.species, (o1.vitality + o2.vitality) / 2, o1.eatsMeat, o1.eatsPlants)))
  {
  }

  /** Rule 3: a live plant met by a live plant eater is eaten whole. */
  lemma EncounterPlantEaten<S>(eater: Organism<S>, plant: Organism<S>)
    requires IsPlant(plant) && eater.eatsPlants
    requires !IsDead(eater) && !IsDead(plant)
    ensures CanMeet(eater, plant) && CanMeet(plant, eater)
    ensures var r := Encounter(eater, plant);
            && r.0.vitality == Min(eater.vitality + plant.vitality, MaxVitality)
            && r.1.vitality == 0 && r.2 == None
    ensures var r := Encounter(plant, eater);
            && r.1.vitality == Min(eater.vitality + plant.vitality, MaxVitality)
            && r.0.vitality == 0 && r.2 == None
  {
  }

  /** Rule 3: a plant met by an animal that does not eat plants is left alone, and so is the animal. */
  lemma EncounterPlantRefused<S>(animal: Organism<S>, plant: Organism<S>)
    requires IsPlant(plant) && animal.eatsMeat && !animal.eatsPlants
    ensures CanMeet(animal, plant) && CanMeet(plant, animal)
    ensures Encounter(animal, plant) == (animal, plant, None)
    ensures Encounter(plant, animal) == (plant, animal, None)
  {
  }

  /**
   Rule 4: two live meat eaters that do not mate fight; the stronger gains
   half the weaker's vitality and the weaker dies, and equals kill each other.
   */
  lemma EncounterFight<S>(o1: Organism<S>, o2: Organism<S>)
    requires !IsDead(o1) && !IsDead(o2) && !Mates(o1, o2)
    requires o1.eatsMeat && o2.eatsMeat
    ensures CanMeet(o1, o2)
    ensures var r := Encounter(o1, o2);
            && r.2 == None
            && (o1.vitality > o2.vitality ==>
                  r.0.vitality == Min(o1.vitality + o2.vitality / 2, MaxVitality) && r.1.vitality == 0)
            && (o1.vitality < o2.vitality ==>
                  r.0.vitality == 0 && r.1.vitality == Min(o2.vitality + o1.vitality / 2, MaxVitality))
            && (o1.vitality == o2.vitality ==> r.0.vitality == 0 && r.1.vitality == 0)
  {
  }

  /**
   Rule 5: a live meat eater meeting a live animal that eats no meat eats it
   exactly when its vitality is strictly greater; otherwise nothing happens.
   */
  lemma EncounterPredation<S>(hunter: Organism<S>, prey: Organism<S>)
    requires !IsDead(hunter) && !IsDead(prey)
    requires hunter.eatsMeat && !prey.eatsMeat && prey.eatsPlants
    ensures CanMeet(hunter, prey) && CanMeet(prey, hunter)
    ensures hunter.vitality > prey.vitality ==>
              && Encounter(hunter, prey).0.vitality == Min(hunter.vitality + prey.vitality / 2, MaxVitality)
              && Encounter(hunter, prey).1.vitality == 0
              && Encounter(prey, hunter).1.vitality == Min(hunter.vitality + prey.vitality / 2, MaxVitality)
              && Encounter(prey, hunter).0.vitality == 0
    ensures hunter.vitality <= prey.vitality ==>
              && Encounter(hunter, prey) == (hunter, prey, None)
              && Encounter(prey, hunter) == (prey, hunter, None)
  {
  }

  /** Rule 6: two animals that eat no meat and do not mate leave each other alone. */
  lemma EncounterGrazers<S>(o1: Organism<S>, o2: Organism<S>)
    requires !Mates(o1, o2)
    requires !o1.eatsMeat && o1.eatsPlants && !o2.eatsMeat && o2.eatsPlants
    ensures CanMeet(o1, o2)
    ensures Encounter(o1, o2) == (o1, o2, None)
  {
  }

  // Properties of the whole table.

  /** The table does not depend on which organism is named first. */
  lemma EncounterSymmetric<S>(o1: Organism<S>, o2: Organism<S>)
    requires CanMeet(o1, o2)
    ensures CanMeet(o2, o1)
    ensures var r, q := Encounter(o1, o2), Encounter(o2, o1);
            r.0 == q.1 && r.1 == q.0 && r.2 == q.2
  {
  }

  /**
   An encounter never wounds: each side dies, stays as it was, or gains; and a
   side gains only by eating the other, which was alive and is now dead.
   */
  lemma EncounterKillsOrKeeps<S>(o1: Organism<S>, o2: Organism<S>)
    requires CanMeet(o1, o2)
    ensures var r := Encounter(o1, o2);
            && (r.0.vitality < o1.vitality ==> r.0.vitality == 0)
            && (r.1.vitality < o2.vitality ==> r.1.vitality == 0)
            && (r.0.vitality > o1.vitality ==> o2.vitality > 0 && r.1.vitality == 0)
            && (r.1.vitality > o2.vitality ==> o1.vitality > 0 && r.0.vitality == 0)
  {
  }

  /**
   Eating creates no energy: without offspring the combined vitality after
   the meeting is at most the combined vitality before it.
   */
  lemma EncounterCreatesNoEnergy<S>(o1: Organism<S>, o2: Organism<S>)
    requires CanMeet(o1, o2)
    ensures var r := Encounter(o1, o2);
            r.2 == None ==> r.0.vitality + r.1.vitality <= o1.vitality + o2.vitality
  {
  }

  /** Only a meat eater can kill an animal: an animal meeting one that eats no meat never loses vitality. */
  lemma OnlyMeatEatersKillAnimals<S>(o1: Organism<S>, o2: Organism<S>)
    requires !o1.eatsMeat && IsMovable(o2.eatsMeat, o2.eatsPlants)
    ensures CanMeet(o1, o2)
    ensures Encounter(o1, o2).1.vitality >= o2.vitality
  {
  }

  /** A plant is never fed: it either keeps its vitality or is eaten. */
  lemma PlantOnlyDies<S>(o1: Organism<S>, o2: Organism<S>)
    requires CanMeet(o1, o2) && IsPlant(o1)
    ensures Encounter(o1, o2).0 == o1 || Encounter(o1, o2).0 == Dead(o1)
  {
  }
}
