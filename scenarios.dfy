/**
 Concrete meetings worked through the rule table, with species named by strings.
 */
module Scenarios {
  import opened Organisms
  import opened Encounters
  import opened Series

  /** Two foxes of equal vitality mate; the cub has the mean vitality and the parents are unchanged. */
  lemma FoxesMate()
    ensures var fox := New("fox", 10, Carnivore);
            Encounter(fox, fox) == (fox, fox, Some(New("fox", 10, Carnivore)))
  {
  }

  /** A carnivore does not eat plants, so meeting one changes nothing. */
  lemma CarnivoreIgnoresPlant()
    ensures var wolf, grass := New("wolf", 10, Carnivore), New("grass", 5, Plant);
            Encounter(wolf, grass) == (wolf, grass, None)
  {
  }

  /** A stronger carnivore eats a herbivore and gains half of its vitality. */
  lemma CarnivoreEatsHerbivore()
    ensures var wolf, hare := New("wolf", 10, Carnivore), New("hare", 4, Herbivore);
            Encounter(wolf, hare) == (New("wolf", 12, Carnivore), New("hare", 0, Herbivore), None)
  {
  }

  /** Two carnivores of different species and equal vitality kill each other. */
  lemma EqualCarnivoresKillEachOther()
    ensures var wolf, lynx := New("wolf", 5, Carnivore), New("lynx", 5, Carnivore);
            Encounter(wolf, lynx) == (New("wolf", 0, Carnivore), New("lynx", 0, Carnivore), None)
  {
  }

  /** A full herbivore fed by a plant stops at the 64-bit maximum. */
  lemma HerbivoreSaturates()
    ensures var deer, grass := New("deer", MaxVitality - 1, Herbivore), New("grass", 5, Plant);
            Encounter(deer, grass) == (New("deer", MaxVitality, Herbivore), New("grass", 0, Plant), None)
  {
  }

  /**
   A carnivore meets a weak herbivore and eats it, then meets a stronger
   herbivore and leaves it alone.
   */
  lemma WolfMeetsTwoHares()
    ensures var wolf := New("wolf", 10, Carnivore);
            var opponents := [New("hare", 4, Herbivore), New("hare", 20, Herbivore)];
            CanMeetAll(wolf, opponents) && EncounterSeries(wolf, opponents) == New("wolf", 12, Carnivore)
  {
  }
}
