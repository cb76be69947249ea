# Organism encounters

A model of a small, pure encounter engine for organisms. An organism has a
species identity, a 64-bit unsigned vitality and two diet flags (eats meat,
eats plants) fixed when it is built; the four flag combinations are the
carnivore, omnivore, herbivore and plant classes. Feeding saturates at
2^64 - 1, and death sets vitality to zero. The engine resolves the meeting of
two organisms through an ordered rule table where the first rule that applies
wins: a dead participant means nothing happens; two live organisms of one
species and diet mate; a plant is eaten whole by a plant eater; two meat
eaters fight; a meat eater eats a non-meat-eating animal only if it is
strictly stronger; otherwise nothing happens. Eating a plant transfers all
its vitality; eating an animal transfers half, rounded down. A series of
encounters carries one organism through a sequence of opponents, keeping
only that organism's state.

Files:

- `organism.dfy` (module `Organisms`): the organism value, the diet classes,
  the classifier predicates `IsMovable`, `SameFoodPreferences`, `IsPlant`,
  `IsDead`, and the operations `FedWith` and `Dead`. The accessors of the
  source are the datatype's fields.
- `encounter.dfy` (module `Encounters`): the outcome helpers (`NoEffect`,
  `MakeChild`, `FirstEatSecond`, `SecondEatFirst`, `BothDie`), `Encounter`,
  one lemma per rule and lemmas about the whole table.
- `series.dfy` (module `Series`): `SeriesHelper` and `EncounterSeries` as the
  source recurses over its opponents, a reference left fold `Survivor`, and
  lemmas relating them.
- `scenarios.dfy` (module `Scenarios`): concrete meetings worked through.

Vitality is the subset type `U64` of `int` (0 to 2^64 - 1), so every organism
the model can build has a vitality the source can store. Species is any type;
the functions that compare species require it to support equality.

## Model

| member | source | states |
|---|---|---|
| Organisms.Classify | organism.h:23-33 | the four diet classes correspond to the four combinations of the eats-meat and eats-plants flags |
| Organisms.ClassifyRoundTrip | organism.h:23-33 | classifying the flags of a diet class gives back that class, so the correspondence is one-to-one |
| Organisms.New | organism.h:53-54 | building an organism of a diet class keeps the given species and vitality and has exactly that class |
| Organisms.IsMovable | organism.h:10-12 | a pair of diet flags is movable exactly when its diet class is not plant |
| Organisms.SameFoodPreferences | organism.h:14-17 | two flag pairs have the same food preferences exactly when they name the same diet class |
| Organisms.IsPlant | organism.h:75-77 | an organism is a plant exactly when its diet class is plant, which is exactly when it cannot move |
| Organisms.IsDead | organism.h:79-81 | an organism is dead exactly when killing it leaves it unchanged |
| Organisms.FedWith | organism.h:60-65 | feeding keeps species and diet, never lowers vitality, adds at most the food, and either adds all of it or stops at the 64-bit maximum |
| Organisms.FedWithSaturates | organism.h:60-65 | the fed vitality is the minimum of vitality plus food and 2^64 - 1; positive food raises an organism below the maximum |
| Organisms.Dead | organism.h:56-58 | the dead organism keeps species and diet and has vitality zero |
| Encounters.MakeChild | organism.h:95-104 | both parents are returned unchanged; the child has the first parent's species and diet and the floor of the parents' mean vitality, which lies between the parents' vitalities (so the clamp never applies) |
| Encounters.NoEffect | organism.h:91-93 | both organisms come back as they were and there is no offspring |
| Encounters.FirstEatSecond | organism.h:106-109 | the first keeps its kind and reaches min(v1 + v2 / energyLoss, 2^64 - 1); the second keeps its kind and dies; no offspring |
| Encounters.SecondEatFirst | organism.h:111-114 | the second keeps its kind and reaches min(v2 + v1 / energyLoss, 2^64 - 1); the first keeps its kind and dies; no offspring |
| Encounters.BothDie | organism.h:116-118 | both keep their kinds and die; no offspring |
| Encounters.Encounter | organism.h:131-199 | each output keeps the species and diet of the corresponding input; offspring appears exactly when both are alive with equal species and diet, and then both parents are unchanged and the child is of the first parent's kind |
| Encounters.EncounterWithDead | organism.h:141-143 | with a dead participant both organisms come back unchanged and there is no offspring |
| Encounters.EncounterMating | organism.h:145-149 | two live organisms of one species and diet stay unchanged and have a child of vitality floor((v1 + v2) / 2) |
| Encounters.EncounterPlantEaten | organism.h:151-158 | a live plant meeting a live plant eater, in either position, dies and the eater gains all of its vitality, saturating; no offspring |
| Encounters.EncounterPlantRefused | organism.h:159-161 | a plant meeting an animal that does not eat plants, in either position, leaves both unchanged |
| Encounters.EncounterFight | organism.h:164-176 | two live meat eaters that do not mate fight: the strictly stronger gains half the weaker's vitality, saturating, and the weaker dies; with equal vitality both die |
| Encounters.EncounterPredation | organism.h:178-195 | a live meat eater meeting a live animal that eats no meat, in either position, eats it (gaining half, victim to zero) exactly when its vitality is strictly greater, and otherwise nothing changes |
| Encounters.EncounterGrazers | organism.h:197-198 | two animals that eat no meat and do not mate leave each other unchanged |
| Encounters.EncounterSymmetric | organism.h:131-199 | swapping the two organisms swaps the two outputs and keeps the offspring, so the rule table does not depend on argument order |
| Encounters.EncounterKillsOrKeeps | organism.h:106-118 | in every meeting each side dies, stays the same or gains, and a side gains only when the other was alive and dies |
| Encounters.EncounterCreatesNoEnergy | organism.h:88-89 | without offspring the combined vitality after a meeting is at most the combined vitality before it |
| Encounters.OnlyMeatEatersKillAnimals | organism.h:178-198 | an animal meeting an organism that eats no meat never loses vitality |
| Encounters.PlantOnlyDies | organism.h:151-162 | a plant in first position comes out either unchanged or dead, never fed |
| Series.SeriesHelper | organism.h:120-129 | meeting the next opponent and then the rest keeps the traveller's species and diet; its value is tied to the left fold by `SeriesHelperIsFold` |
| Series.EncounterSeries | organism.h:201-209 | the traveller keeps its species and diet, and with no opponents it is returned unchanged |
| Series.Survivor | organism.h:201-209 | the left fold that keeps the first output of each encounter keeps the traveller's species and diet |
| Series.SeriesHelperIsFold | organism.h:120-129 | the helper over `next` and `rest` equals the left fold over `[next] + rest` |
| Series.SeriesUnfold | organism.h:124-128 | a non-empty series is its first encounter followed by the series over the remaining opponents, with the opponent's result and the offspring dropped |
| Series.SeriesAppend | organism.h:120-129 | a series over `a + b` equals the series over `a` followed by the series over `b` |
| Series.SeriesIsLeftFold | organism.h:201-209 | the series equals the left fold of encounters over the opponents in argument order |
| Series.SeriesDeadTraveller | organism.h:141-143 | a dead traveller is returned unchanged by any series |
| Series.SeriesKillsOrKeeps | organism.h:120-129 | after a whole series the traveller is dead or at least as strong as before |
| Series.SeriesPlant | organism.h:151-162 | a plant traveller ends a series either unchanged or dead |
| Scenarios.FoxesMate | organism.h:95-104 | two foxes of vitality 10 mate and have a cub of vitality 10 |
| Scenarios.CarnivoreIgnoresPlant | organism.h:159-161 | a carnivore of vitality 10 and a plant of vitality 5 are both unchanged |
| Scenarios.CarnivoreEatsHerbivore | organism.h:179-185 | a carnivore of vitality 10 eats a herbivore of vitality 4 and reaches 12 |
| Scenarios.EqualCarnivoresKillEachOther | organism.h:173-175 | two carnivores of different species and vitality 5 both die |
| Scenarios.HerbivoreSaturates | organism.h:151-158 | a herbivore one below the maximum that eats a plant of vitality 5 (the plant rule, feeding through `fed_with` at organism.h:60-65) stops at the maximum, and the plant dies |
| Scenarios.WolfMeetsTwoHares | organism.h:201-209 | a carnivore of vitality 10 meeting herbivores of vitality 4 and 20 ends at 12 |

## Left out

- The species is held by reference in the source; the model holds it as a value, so lifetime and dangling-reference questions do not arise.
- The diet flags are template parameters in the source and the rule that two immovable organisms never meet is checked at compile time; the model stores the flags as fields and states that rule as the precondition `CanMeet` of `Encounter` and `CanMeetAll` of the series.
- The variadic opponent pack is a sequence; its compile-time recursion is the recursion of `SeriesHelper`.
- The 128-bit intermediate in the child's vitality only avoids overflow; the model uses unbounded integers and proves that the mean fits in 64 bits.
- `FirstEatSecond` and `SecondEatFirst` require a non-zero energy loss; the source only passes 1 and 2.
- EncounterSeries: with no opponents the model returns the traveller unchanged, as organism.h:204-205 intends. As written, the call at organism.h:208 is not in an `else`, so it stays instantiated when the opponent pack is empty; `encounter_series_helper` (organism.h:120-123) needs at least one opponent, so under C++ rules `encounter_series` with no opponents would be rejected at compile time (read from the C++ rules; not compiled). The model follows the evident intent rather than modelling that rejection as `requires |opponents| > 0`.
- The source's tuples and optionals are a Dafny tuple and an `Option` datatype.
