# EcoChain engine in Dafny

A model of the simulation engine of EcoChain, a turn-based food-chain game with
three species: plants, rabbits and foxes. An `EcoGame` holds a round counter,
the live population vector, a history of completed rounds and a log of the
player's actions. Each round applies one player action, which adds a fixed
amount to one species. It then runs a fixed ecological update and clamps every
count into its species' range. The queries report extinction, completion and a
summary of the game.

Two modules:

- `Ecology` (ecology.dfy) holds the values: populations, actions, round events
  and changes, the rates and maxima. It also holds the reference definitions of
  the action (`Applied`), the five ecological stages (`Stages`) and the clamp
  (`Clamp`), and the lemmas about them.
- `Game` (game.dfy) holds the class `EcoGame`, whose methods update its fields
  step by step as game.js does, and the action tally `Tally` with its lemmas.
  - `ApplyAction`, `SimulateEcosystem` and `ProcessRound` are proved against
    the `Ecology` functions `Applied`, `Stages` and `Clamp`.
  - `GetActionSummary` and `GetResult` are proved against `Tally`.
  - The constructor, `Start` and `NextRound` state the new value of each field
    outright, and keep the bookkeeping invariant `Valid`.

Modelling decisions:

- Every `Math.floor(n * rate)` is an exact integer division:
  - growth `(3*n)/10`;
  - rabbit births `n/5`;
  - rabbit starvation `(3*n)/10`;
  - fox births `(15*n)/100`;
  - fox starvation `(2*n)/5`.
  Dafny's `/` with a positive divisor rounds down, so this matches `Math.floor`
  for negative `n` as well. The model assumes that the double-precision product
  never lands on the wrong side of an integer. For the small counts of this game
  (at most a few dozen) that is so.
- Event messages are structured values carrying the numbers the message shows
  (`PlantGrew`, `RabbitsFed`, `RabbitsStarved`, `FoxesFed`, `FoxesStarved`).
- `maxRounds` and `maxPopulations` are fields that nothing ever updates. They are
  module constants here (`MAX_ROUNDS`, `MAX_PLANTS`, `MAX_RABBITS`, `MAX_FOXES`).
- The returned `changes` are the net changes of the five stages before the clamp,
  so a count that is capped at its maximum is not reflected in them
  (`ChangesIgnoreCap`).
- `nextRound` increments the counter unconditionally, also at or past round 10.

## Model

| member | source | states |
|---|---|---|
| `Ecology.Applied` | game.js:123-138 | the action changes exactly the species it names, by +5 plants, +3 rabbits or +2 foxes, with nothing clamped; do-nothing leaves the populations unchanged |
| `Ecology.Stages` | game.js:140-193 | one ecological update logs two or three events |
| `Ecology.Clamp` | game.js:195-203 | the clamped counts lie in [0, 30], [0, 20] and [0, 15]; counts already in range are kept; any other count becomes 0 (if negative) or its maximum |
| `Ecology.SimulatedInBounds` | game.js:53-57 | whatever the counts going in, the update leaves plants in [0, 30], rabbits in [0, 20] and foxes in [0, 15] |
| `Ecology.NoNegativeBeforeClamp` | game.js:156-198 | from non-negative counts: plants eaten <= plants after growth, starved rabbits <= rabbits, hunted <= rabbits before the hunt, starved foxes <= foxes; so no pre-clamp count is negative and only the cap can change anything |
| `Ecology.EventOrder` | game.js:148-193 | a plant event iff growth > 0, then exactly one rabbit event, then exactly one fox event, in stage order |
| `Ecology.RabbitBranch` | game.js:156-173 | rabbits either breed or starve, never both; they breed iff the plants left after eating are at least their pre-feeding number, equivalently iff grown plants >= 3 per rabbit; the event carries the eaten, born or starved numbers |
| `Ecology.FoxBranch` | game.js:175-193 | foxes either breed or starve; they breed iff the rabbits before the hunt are at least the foxes, and then every fox caught one rabbit; when they starve, the hunt took every rabbit |
| `Ecology.ChangesArePreClampDeltas` | game.js:141-193 | each reported change equals the pre-clamp count minus the count before the update: growth minus eaten, births or minus starved minus hunted, births or minus starved |
| `Ecology.ChangesIgnoreCap` | game.js:200-205 | with 30 plants and no rabbits the reported plant change is +9, while the clamped count does not change |
| `Ecology.FoxTestPrecedesHunt` | game.js:176-187 | the foxes breed even though fewer rabbits than foxes remain after the hunt, because the test uses the count before the hunt |
| `Ecology.AddPlantsFromInitial` | game.js:123-206 | from {15, 8, 3}, add-plants gives {20, 8, 3}, then the update gives {10, 6, 3} with changes -10, -2, 0 and events growth 6; 16 eaten, 1 born; 3 hunted, 0 born |
| `Game.TallyTotal` | game.js:232-243 | the four buckets of the action summary add up to the number of actions taken |
| `Game.TallyCounts` | game.js:239-241 | each bucket counts exactly the occurrences of its action in the log |
| `Game.EcoGame.constructor` | game.js:45-61 | a new game is at round 1 with populations {15, 8, 3}, empty history and action log, and is not active |
| `Game.EcoGame.Start` | game.js:63-72 | resets round to 1, populations to {15, 8, 3}, clears history and action log, marks the game active; whatever came before |
| `Game.EcoGame.ProcessRound` | game.js:79-121 | populations become the clamped update of the acted-on populations; returns that update's changes; appends exactly one action record and one history record; leaves the round counter alone; keeps the bookkeeping invariant |
| `Game.EcoGame.ApplyAction` | game.js:123-138 | the populations become `Applied` of the old populations; only the populations change |
| `Game.EcoGame.SimulateEcosystem` | game.js:140-206 | the step-by-step update leaves the `Stages` result clamped, returns the `Stages` changes, and leaves every count in bounds; only the populations change |
| `Game.EcoGame.IsExtinct` | game.js:208-212 | for non-negative counts, extinct iff the smallest of the three counts is 0 |
| `Game.EcoGame.IsComplete` | game.js:214-216 | complete iff round >= 10; `Game.NineRoundsComplete` checks it after a run of `nextRound` calls |
| `Game.EcoGame.NextRound` | game.js:218-220 | the round counter goes up by one, unconditionally; keeps the bookkeeping invariant |
| `Game.EcoGame.GetResult` | game.js:222-230 | survived iff not extinct and complete, so a survivor has all three species alive at round >= 10; reports round, final populations and the tally, whose buckets add up to the actions taken; in a game that keeps the bookkeeping invariant a survivor's counts are all between 1 and their maxima and there is one history entry per action |
| `Game.EcoGame.GetActionSummary` | game.js:232-243 | the loop's tally equals `Tally` of the log, its buckets add up to the number of actions, and each bucket is that action's number of occurrences |
| `Game.FirstRoundAddingPlants` | game.js:63-121 | a fresh game that starts and plays add-plants ends the round at {10, 6, 3} with changes -10, -2, 0 and the three events |
| `Game.NineRoundsComplete` | game.js:214-220 | from round 1, the game is not complete after eight calls of nextRound and is complete after the ninth |

## Left out

- `generateUUID` and the session id: random, used only to tag telemetry.
- `emitLxEvent` and every call to it: one-way telemetry into `console` and
  `window.lxEvents`, with no effect on the engine's state.
- `GameUI`: DOM rendering, event listeners, the delay between rounds and the
  floating-point percentage bars.
- The exact text and emoji of the event messages. Events are structured values.
- Floating-point multiplication by the rates. It is replaced by exact integer
  division, as described above.
- Action strings other than the four known ones. `Action` is a closed datatype,
  so `applyAction` and `getActionSummary` never see an unknown string.
- `gameActive` is kept as a field and set by the constructor and `Start`. Nothing
  in the engine reads it.
