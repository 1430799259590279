/**
 * The ecological rules of the plants/rabbits/foxes game as values and functions:
 * the population vector, the player's action, the structured round events, the
 * fixed rates, and `Stages`, the reference definition of one ecological update
 * (the five stages before the clamp). The action and update methods of the
 * class in module Game run the same rules step by step and are proved against
 * these functions.
 */
module Ecology {

  // ---------------------------------------------------------------------------
  // Constants
  // ---------------------------------------------------------------------------

  const MAX_PLANTS: int := 30
  const MAX_RABBITS: int := 20
  const MAX_FOXES: int := 15

  /** Plants each rabbit wants to eat in one round. */
  const PLANTS_PER_RABBIT: int := 2

  /** What the three "add" actions contribute. */
  const PLANTS_ADDED: int := 5
  const RABBITS_ADDED: int := 3
  const FOXES_ADDED: int := 2

  // The rates are fractions applied with Math.floor. Dafny's `/` with a positive
  // divisor rounds towards negative infinity, so each is the exact floor of the
  // rational product.

  /** floor(n * 0.3) */
  function PlantGrowth(n: int): int { (3 * n) / 10 }

  /** floor(n * 0.2) */
  function RabbitBirths(n: int): int { n / 5 }

  /** floor(n * 0.3) */
  function RabbitStarvation(n: int): int { (3 * n) / 10 }

  /** floor(n * 0.15) */
  function FoxBirths(n: int): int { (15 * n) / 100 }

  /** floor(n * 0.4) */
  function FoxStarvation(n: int): int { (2 * n) / 5 }

  function Min(a: int, b: int): int { if a <= b then a else b }

  function Max(a: int, b: int): int { if a >= b then a else b }

  // ---------------------------------------------------------------------------
  // Data model
  // ---------------------------------------------------------------------------

  datatype Populations = Populations(plants: int, rabbits: int, foxes: int)

  /** The fixed vector a game starts from. */
  const INITIAL: Populations := Populations(15, 8, 3)

  datatype Action = AddPlants | AddRabbits | AddFoxes | DoNothing

  /** One line of a round's log, carrying the numbers the message shows. */
  datatype Event =
    | PlantGrew(growth: int)
    | RabbitsFed(eaten: int, born: int)
    | RabbitsStarved(starved: int)
    | FoxesFed(hunted: int, born: int)
    | FoxesStarved(starved: int)

  /** Net change per species and the ordered events of one ecological update. */
  datatype Changes = Changes(plants: int, rabbits: int, foxes: int, events: seq<Event>)

  /** The populations after the five stages, before the clamp, with the changes. */
  datatype StageResult = StageResult(raw: Populations, changes: Changes)

  predicate NonNegative(p: Populations) {
    p.plants >= 0 && p.rabbits >= 0 && p.foxes >= 0
  }

  predicate InBounds(p: Populations) {
    0 <= p.plants <= MAX_PLANTS && 0 <= p.rabbits <= MAX_RABBITS && 0 <= p.foxes <= MAX_FOXES
  }

  function Sum(p: Populations): int { p.plants + p.rabbits + p.foxes }

  /** Which stage of the update an event belongs to: plants, rabbits, foxes. */
  function StageOf(e: Event): nat {
    match e
    case PlantGrew(_) => 0
    case RabbitsFed(_, _) => 1
    case RabbitsStarved(_) => 1
    case FoxesFed(_, _) => 2
    case FoxesStarved(_) => 2
  }

  /** The rabbit count change a rabbit event reports: births, or minus the starved. */
  function RabbitStageDelta(e: Event): int {
    match e
    case RabbitsFed(_, born) => born
    case RabbitsStarved(starved) => -starved
    case _ => 0
  }

  /** The amount an action adds to the species it names. */
  function Bonus(a: Action): int {
    match a
    case AddPlants => PLANTS_ADDED
    case AddRabbits => RABBITS_ADDED
    case AddFoxes => FOXES_ADDED
    case DoNothing => 0
  }

  // ---------------------------------------------------------------------------
  // The player's action
  // ---------------------------------------------------------------------------

  /** The populations after the player's action; nothing is clamped here. */
  function Applied(p: Populations, a: Action): (r: Populations)
    ensures a == DoNothing <==> r == p
    ensures r.plants != p.plants <==> a == AddPlants
    ensures r.rabbits != p.rabbits <==> a == AddRabbits
    ensures r.foxes != p.foxes <==> a == AddFoxes
    ensures Sum(r) == Sum(p) + Bonus(a)
  {
    match a
    case AddPlants => p.(plants := p.plants + PLANTS_ADDED)
    case AddRabbits => p.(rabbits := p.rabbits + RABBITS_ADDED)
    case AddFoxes => p.(foxes := p.foxes + FOXES_ADDED)
    case DoNothing => p
  }

  // ---------------------------------------------------------------------------
  // The ecological update
  // ---------------------------------------------------------------------------

  /**
   * Stages 1-5 of the ecological update, in order: plant growth, rabbits eat,
   * rabbits breed or starve (tested on the plants left after eating), foxes hunt,
   * foxes breed or starve (tested on the rabbits there were before the hunt).
   * `changes` accumulates the deltas of every stage; nothing is clamped yet.
   */
  function Stages(p: Populations): (r: StageResult)
    ensures 2 <= |r.changes.events| <= 3
  {
    // 1. plant growth
    var growth := PlantGrowth(p.plants);
    var plantsGrown := p.plants + growth;
    var growthEvents := if growth > 0 then [PlantGrew(growth)] else [];
    // 2. rabbits eat
    var rabbitsNeedFood := p.rabbits;
    var eaten := Min(plantsGrown, rabbitsNeedFood * PLANTS_PER_RABBIT);
    var plantsLeft := plantsGrown - eaten;
    // 3. rabbits breed or starve
    var rabbitEvent :=
      if plantsLeft >= rabbitsNeedFood then RabbitsFed(eaten, RabbitBirths(p.rabbits))
      else RabbitsStarved(RabbitStarvation(p.rabbits));
    var rabbitChange :=
      if plantsLeft >= rabbitsNeedFood then RabbitBirths(p.rabbits) else -RabbitStarvation(p.rabbits);
    var rabbitsBeforeHunt := p.rabbits + rabbitChange;
    // 4. foxes hunt
    var foxesNeedFood := p.foxes;
    var hunted := Min(rabbitsBeforeHunt, foxesNeedFood);
    // 5. foxes breed or starve
    var foxEvent :=
      if rabbitsBeforeHunt >= foxesNeedFood then FoxesFed(hunted, FoxBirths(p.foxes))
      else FoxesStarved(FoxStarvation(p.foxes));
    var foxChange :=
      if rabbitsBeforeHunt >= foxesNeedFood then FoxBirths(p.foxes) else -FoxStarvation(p.foxes);
    StageResult(
      Populations(plantsLeft, rabbitsBeforeHunt - hunted, p.foxes + foxChange),
      Changes(growth - eaten, rabbitChange - hunted, foxChange,
              growthEvents + [rabbitEvent, foxEvent]))
  }

  /** Stage 6: floor every count at zero, then cap it at its species' maximum. */
  function Clamp(p: Populations): (c: Populations)
    ensures InBounds(c)
    ensures InBounds(p) ==> c == p
    ensures c.plants == p.plants || (p.plants < 0 && c.plants == 0) || (p.plants > MAX_PLANTS && c.plants == MAX_PLANTS)
    ensures c.rabbits == p.rabbits || (p.rabbits < 0 && c.rabbits == 0) || (p.rabbits > MAX_RABBITS && c.rabbits == MAX_RABBITS)
    ensures c.foxes == p.foxes || (p.foxes < 0 && c.foxes == 0) || (p.foxes > MAX_FOXES && c.foxes == MAX_FOXES)
  {
    Populations(
      Min(MAX_PLANTS, Max(0, p.plants)),
      Min(MAX_RABBITS, Max(0, p.rabbits)),
      Min(MAX_FOXES, Max(0, p.foxes)))
  }

  /** The populations a whole ecological update leaves. */
  function Simulated(p: Populations): Populations {
    Clamp(Stages(p).raw)
  }

  // ---------------------------------------------------------------------------
  // Properties of the update
  // ---------------------------------------------------------------------------

  /** Whatever the counts going in, the update leaves every count within its bounds. */
  lemma SimulatedInBounds(p: Populations)
    ensures InBounds(Simulated(p))
  {
  }

  /**
   * From non-negative counts no stage takes away more than there is: rabbits eat
   * at most the grown plants, starve at most their number, foxes hunt at most the
   * rabbits there are and starve at most their number. So no count is negative
   * before the clamp, and its "floor at zero" step changes nothing.
   */
  lemma NoNegativeBeforeClamp(p: Populations)
    requires NonNegative(p)
    ensures NonNegative(Stages(p).raw)
    ensures var e := Stages(p).changes.events; var re := e[|e| - 2]; var fe := e[|e| - 1];
      (re.RabbitsFed? ==> 0 <= re.eaten <= p.plants + PlantGrowth(p.plants)) &&
      (re.RabbitsStarved? ==> 0 <= re.starved <= p.rabbits) &&
      (fe.FoxesFed? ==> 0 <= fe.hunted <= p.rabbits + RabbitStageDelta(re)) &&
      (fe.FoxesStarved? ==> 0 <= fe.starved <= p.foxes)
    ensures Simulated(p) == Populations(
      Min(MAX_PLANTS, Stages(p).raw.plants),
      Min(MAX_RABBITS, Stages(p).raw.rabbits),
      Min(MAX_FOXES, Stages(p).raw.foxes))
  {
  }

  /**
   * The log of one update: a plant-growth event exactly when the plants grew,
   * then one rabbit event, then one fox event, each stage at most once and in
   * stage order.
   */
  lemma EventOrder(p: Populations)
    ensures var e := Stages(p).changes.events;
      |e| == (if PlantGrowth(p.plants) > 0 then 3 else 2) &&
      (PlantGrowth(p.plants) > 0 ==> e[0] == PlantGrew(PlantGrowth(p.plants))) &&
      StageOf(e[|e| - 2]) == 1 && StageOf(e[|e| - 1]) == 2 &&
      (forall i, j :: 0 <= i < j < |e| ==> StageOf(e[i]) < StageOf(e[j]))
  {
  }

  /**
   * Rabbits breed exactly when the plants left after they have eaten are at least
   * their number before eating, which for non-negative counts means the grown
   * plants are at least three per rabbit; otherwise they starve. Exactly one of
   * the two happens.
   */
  lemma RabbitBranch(p: Populations)
    requires NonNegative(p)
    ensures var e := Stages(p).changes.events; var re := e[|e| - 2];
      (re.RabbitsFed? || re.RabbitsStarved?) &&
      (re.RabbitsFed? <==> p.plants + PlantGrowth(p.plants) >= 3 * p.rabbits) &&
      (re.RabbitsFed? ==> re == RabbitsFed(Min(p.plants + PlantGrowth(p.plants), 2 * p.rabbits), RabbitBirths(p.rabbits))) &&
      (re.RabbitsStarved? ==> re == RabbitsStarved(RabbitStarvation(p.rabbits)))
  {
  }

  /**
   * Foxes breed exactly when the rabbits there were before the hunt (after the
   * rabbits' own stage) number at least the foxes; then every fox caught one
   * rabbit. Otherwise they starve, and the hunt took every rabbit there was.
   */
  lemma FoxBranch(p: Populations)
    requires NonNegative(p)
    ensures var s := Stages(p); var e := s.changes.events; var re := e[|e| - 2]; var fe := e[|e| - 1];
      (fe.FoxesFed? || fe.FoxesStarved?) &&
      (fe.FoxesFed? <==> p.rabbits + RabbitStageDelta(re) >= p.foxes) &&
      (fe.FoxesFed? ==> fe == FoxesFed(p.foxes, FoxBirths(p.foxes))) &&
      (fe.FoxesStarved? ==> fe == FoxesStarved(FoxStarvation(p.foxes)) && s.raw.rabbits == 0)
  {
  }

  /**
   * The reported changes are the net changes of the five stages, measured before
   * the clamp: the plants' growth minus what was eaten, the rabbits' births or
   * starvation minus the hunted, the foxes' births or starvation.
   */
  lemma ChangesArePreClampDeltas(p: Populations)
    ensures var s := Stages(p);
      s.changes.plants == s.raw.plants - p.plants &&
      s.changes.rabbits == s.raw.rabbits - p.rabbits &&
      s.changes.foxes == s.raw.foxes - p.foxes
  {
  }

  /** Capping at the maximum is not reflected in the reported changes. */
  lemma ChangesIgnoreCap()
    ensures var p := Populations(MAX_PLANTS, 0, 1); var s := Stages(p);
      s.changes.plants == 9 && Simulated(p).plants - p.plants == 0
  {
  }

  /**
   * The fox test looks at the rabbits before the hunt: here the foxes breed
   * although fewer rabbits than foxes are left after it.
   */
  lemma FoxTestPrecedesHunt()
    ensures var p := Populations(MAX_PLANTS, 4, 3); var s := Stages(p); var e := s.changes.events;
      s.raw.rabbits < p.foxes && e[|e| - 1].FoxesFed?
  {
  }

  /** A worked round: from the initial vector, adding plants leaves {10, 6, 3}. */
  lemma AddPlantsFromInitial()
    ensures Applied(INITIAL, AddPlants) == Populations(20, 8, 3)
    ensures Stages(Applied(INITIAL, AddPlants)) ==
      StageResult(Populations(10, 6, 3),
                  Changes(-10, -2, 0, [PlantGrew(6), RabbitsFed(16, 1), FoxesFed(3, 0)]))
    ensures Simulated(Applied(INITIAL, AddPlants)) == Populations(10, 6, 3)
  {
  }
}
