/**
 * The game engine: an EcoGame object owns the round counter, the live
 * populations, the round history and the log of actions, and advances them one
 * round at a time with the rules of module Ecology.
 */
module Game {
  import opened Ecology

  const MAX_ROUNDS: int := 10

  /** What the player did in a round, with the populations around the action. */
  datatype ActionRecord = ActionRecord(round: int, action: Action, before: Populations, after: Populations)

  /** One completed round: its number, action, resulting populations and changes. */
  datatype RoundRecord = RoundRecord(round: int, action: Action, populations: Populations, changes: Changes)

  /** How many times each action was chosen. */
  datatype ActionSummary = ActionSummary(addPlants: nat, addRabbits: nat, addFoxes: nat, doNothing: nat)
  {
    function Get(a: Action): nat {
      match a
      case AddPlants => addPlants
      case AddRabbits => addRabbits
      case AddFoxes => addFoxes
      case DoNothing => doNothing
    }

    function Total(): nat { addPlants + addRabbits + addFoxes + doNothing }
  }

  datatype GameResult = GameResult(survived: bool, rounds: int, finalPopulations: Populations, actionsSummary: ActionSummary)

  /** The summary with one more choice of `a`. */
  function Increment(s: ActionSummary, a: Action): ActionSummary {
    match a
    case AddPlants => s.(addPlants := s.addPlants + 1)
    case AddRabbits => s.(addRabbits := s.addRabbits + 1)
    case AddFoxes => s.(addFoxes := s.addFoxes + 1)
    case DoNothing => s.(doNothing := s.doNothing + 1)
  }

  /** The tally of a log of actions, counting them in order. */
  function Tally(log: seq<ActionRecord>): ActionSummary {
    if log == [] then ActionSummary(0, 0, 0, 0)
    else Increment(Tally(log[..|log| - 1]), log[|log| - 1].action)
  }

  /** The actions of a log, in order. */
  function ActionsOf(log: seq<ActionRecord>): (acts: seq<Action>)
    ensures |acts| == |log|
    ensures forall i :: 0 <= i < |log| ==> acts[i] == log[i].action
  {
    if log == [] then [] else ActionsOf(log[..|log| - 1]) + [log[|log| - 1].action]
  }

  /** The four buckets of a tally add up to the number of actions taken. */
  lemma {:induction false} TallyTotal(log: seq<ActionRecord>)
    ensures Tally(log).Total() == |log|
  {
    if log != [] {
      TallyTotal(log[..|log| - 1]);
    }
  }

  /** Each bucket of a tally counts exactly the occurrences of its action in the log. */
  lemma {:induction false} TallyCounts(log: seq<ActionRecord>, a: Action)
    ensures Tally(log).Get(a) == multiset(ActionsOf(log))[a]
  {
    if log != [] {
      TallyCounts(log[..|log| - 1], a);
      assert ActionsOf(log) == ActionsOf(log[..|log| - 1]) + [log[|log| - 1].action];
    }
  }

  class EcoGame {
    var round: int
    var populations: Populations
    var history: seq<RoundRecord>
    var gameActive: bool
    var actionsTaken: seq<ActionRecord>

    /**
     * The bookkeeping a game keeps from its start: rounds counted from 1, the
     * populations within bounds, one history entry per logged action, each for
     * the same round and action, each with populations within bounds.
     */
    ghost predicate Valid()
      reads this
    {
      round >= 1 && InBounds(populations) &&
      |history| == |actionsTaken| &&
      forall i :: 0 <= i < |history| ==>
        history[i].round == actionsTaken[i].round &&
        history[i].action == actionsTaken[i].action &&
        InBounds(history[i].populations)
    }

    constructor ()
      ensures round == 1 && populations == INITIAL && history == [] && actionsTaken == []
      ensures !gameActive
      ensures Valid()
    {
      round := 1;
      populations := INITIAL;
      history := [];
      gameActive := false;
      actionsTaken := [];
    }

    /** Starts a new game, forgetting everything a previous one did. */
    method Start()
      modifies this
      ensures round == 1 && populations == INITIAL && history == [] && actionsTaken == []
      ensures gameActive
      ensures Valid()
    {
      round := 1;
      populations := INITIAL;
      history := [];
      gameActive := true;
      actionsTaken := [];
    }

    /**
     * Plays one round: the player's action, then the ecological update; logs the
     * action and the round. The round counter is left to NextRound.
     */
    method ProcessRound(action: Action) returns (changes: Changes)
      modifies this
      ensures var acted := Applied(old(populations), action);
        populations == Simulated(acted) && changes == Stages(acted).changes
      ensures actionsTaken == old(actionsTaken) +
        [ActionRecord(old(round), action, old(populations), Applied(old(populations), action))]
      ensures history == old(history) + [RoundRecord(old(round), action, populations, changes)]
      ensures round == old(round) && gameActive == old(gameActive)
      ensures InBounds(populations)
      ensures old(Valid()) ==> Valid()
    {
      var previousPops := populations;
      ApplyAction(action);
      actionsTaken := actionsTaken + [ActionRecord(round, action, previousPops, populations)];
      changes := SimulateEcosystem();
      history := history + [RoundRecord(round, action, populations, changes)];
    }

    /** Adds the action's fixed amount to its species; no clamping here. */
    method ApplyAction(action: Action)
      modifies this`populations
      ensures populations == Applied(old(populations), action)
    {
      match action {
        case AddPlants =>
          populations := populations.(plants := populations.plants + PLANTS_ADDED);
        case AddRabbits =>
          populations := populations.(rabbits := populations.rabbits + RABBITS_ADDED);
        case AddFoxes =>
          populations := populations.(foxes := populations.foxes + FOXES_ADDED);
        case DoNothing =>
      }
    }

    /** Runs the five ecological stages on the live populations, then clamps them. */
    method SimulateEcosystem() returns (changes: Changes)
      modifies this`populations
      ensures populations == Simulated(old(populations))
      ensures changes == Stages(old(populations)).changes
      ensures InBounds(populations)
    {
      ghost var start := populations;
      changes := Changes(0, 0, 0, []);

      // plants grow
      var plantGrowth := PlantGrowth(populations.plants);
      populations := populations.(plants := populations.plants + plantGrowth);
      changes := changes.(plants := changes.plants + plantGrowth);
      if plantGrowth > 0 {
        changes := changes.(events := changes.events + [PlantGrew(plantGrowth)]);
      }

      // rabbits eat plants
      var rabbitsNeedFood := populations.rabbits;
      var plantsEaten := Min(populations.plants, rabbitsNeedFood * PLANTS_PER_RABBIT);
      populations := populations.(plants := populations.plants - plantsEaten);
      changes := changes.(plants := changes.plants - plantsEaten);

      // rabbits breed or starve
      if populations.plants >= rabbitsNeedFood {
        var rabbitBirth := RabbitBirths(populations.rabbits);
        populations := populations.(rabbits := populations.rabbits + rabbitBirth);
        changes := changes.(rabbits := changes.rabbits + rabbitBirth);
        changes := changes.(events := changes.events + [RabbitsFed(plantsEaten, rabbitBirth)]);
      } else {
        var rabbitStarve := RabbitStarvation(populations.rabbits);
        populations := populations.(rabbits := populations.rabbits - rabbitStarve);
        changes := changes.(rabbits := changes.rabbits - rabbitStarve);
        changes := changes.(events := changes.events + [RabbitsStarved(rabbitStarve)]);
      }

      // foxes hunt rabbits
      var foxesNeedFood := populations.foxes;
      var rabbitsBeforeHunt := populations.rabbits;
      var rabbitsHunted := Min(populations.rabbits, foxesNeedFood);
      populations := populations.(rabbits := populations.rabbits - rabbitsHunted);
      changes := changes.(rabbits := changes.rabbits - rabbitsHunted);

      // foxes breed or starve, judged on the rabbits there were before the hunt
      if rabbitsBeforeHunt >= foxesNeedFood {
        var foxBirth := FoxBirths(populations.foxes);
        populations := populations.(foxes := populations.foxes + foxBirth);
        changes := changes.(foxes := changes.foxes + foxBirth);
        changes := changes.(events := changes.events + [FoxesFed(rabbitsHunted, foxBirth)]);
      } else {
        var foxStarve := FoxStarvation(populations.foxes);
        populations := populations.(foxes := populations.foxes - foxStarve);
        changes := changes.(foxes := changes.foxes - foxStarve);
        changes := changes.(events := changes.events + [FoxesStarved(foxStarve)]);
      }

      assert populations == Stages(start).raw;
      assert changes == Stages(start).changes;

      // no count below zero
      populations := populations.(plants := Max(0, populations.plants));
      populations := populations.(rabbits := Max(0, populations.rabbits));
      populations := populations.(foxes := Max(0, populations.foxes));

      // no count above its maximum
      populations := populations.(plants := Min(MAX_PLANTS, populations.plants));
      populations := populations.(rabbits := Min(MAX_RABBITS, populations.rabbits));
      populations := populations.(foxes := Min(MAX_FOXES, populations.foxes));
    }

    /** Some species has died out. */
    function IsExtinct(): (extinct: bool)
      reads this
      ensures NonNegative(populations) ==>
        (extinct <==> Min(populations.plants, Min(populations.rabbits, populations.foxes)) == 0)
    {
      populations.plants == 0 || populations.rabbits == 0 || populations.foxes == 0
    }

    /** The last round has been reached. */
    function IsComplete(): (complete: bool)
      reads this
      ensures complete <==> round >= MAX_ROUNDS
    {
      round >= MAX_ROUNDS
    }

    method NextRound()
      modifies this`round
      ensures round == old(round) + 1
      ensures old(Valid()) ==> Valid()
    {
      round := round + 1;
    }

    /** Whether the ecosystem survived all rounds, with the final state and the tally. */
    method GetResult() returns (result: GameResult)
      ensures result.survived <==> !IsExtinct() && IsComplete()
      ensures result.survived && NonNegative(populations) ==>
        populations.plants > 0 && populations.rabbits > 0 && populations.foxes > 0 && round >= MAX_ROUNDS
      ensures Valid() && result.survived ==>
        1 <= populations.plants <= MAX_PLANTS && 1 <= populations.rabbits <= MAX_RABBITS &&
        1 <= populations.foxes <= MAX_FOXES && |history| == |actionsTaken| == result.actionsSummary.Total()
      ensures result.rounds == round && result.finalPopulations == populations
      ensures result.actionsSummary == Tally(actionsTaken)
      ensures result.actionsSummary.Total() == |actionsTaken|
    {
      var survived := !IsExtinct() && IsComplete();
      var summary := GetActionSummary();
      result := GameResult(survived, round, populations, summary);
    }

    /** Counts how often each action was chosen, one logged action at a time. */
    method GetActionSummary() returns (summary: ActionSummary)
      ensures summary == Tally(actionsTaken)
      ensures summary.Total() == |actionsTaken|
      ensures forall a :: summary.Get(a) == multiset(ActionsOf(actionsTaken))[a]
    {
      summary := ActionSummary(0, 0, 0, 0);
      for i := 0 to |actionsTaken|
        invariant summary == Tally(actionsTaken[..i])
      {
        assert actionsTaken[..i + 1][..i] == actionsTaken[..i];
        match actionsTaken[i].action {
          case AddPlants => summary := summary.(addPlants := summary.addPlants + 1);
          case AddRabbits => summary := summary.(addRabbits := summary.addRabbits + 1);
          case AddFoxes => summary := summary.(addFoxes := summary.addFoxes + 1);
          case DoNothing => summary := summary.(doNothing := summary.doNothing + 1);
        }
      }
      assert actionsTaken[..|actionsTaken|] == actionsTaken;
      TallyTotal(actionsTaken);
      forall a: Action
        ensures summary.Get(a) == multiset(ActionsOf(actionsTaken))[a]
      {
        TallyCounts(actionsTaken, a);
      }
    }
  }

  /** A first round played through the class: after Start, adding plants leaves {10, 6, 3}. */
  method FirstRoundAddingPlants() returns (pops: Populations, changes: Changes)
    ensures pops == Populations(10, 6, 3)
    ensures changes == Changes(-10, -2, 0, [PlantGrew(6), RabbitsFed(16, 1), FoxesFed(3, 0)])
  {
    var game := new EcoGame();
    game.Start();
    changes := game.ProcessRound(AddPlants);
    pops := game.populations;
  }

  /** From round 1, eight calls of NextRound leave the game incomplete and a ninth completes it. */
  method NineRoundsComplete() returns (afterEight: bool, afterNine: bool)
    ensures !afterEight && afterNine
  {
    var game := new EcoGame();
    game.Start();
    for i := 0 to 8
      invariant game.round == 1 + i
    {
      game.NextRound();
    }
    afterEight := game.IsComplete();
    game.NextRound();
    afterNine := game.IsComplete();
  }
}
