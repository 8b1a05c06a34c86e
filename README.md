# The daily city-management game, modelled in Dafny

This project models the rules engine of the daily browser game in
`public/u/tests/assets/js/today-game.js`. The player is a mayor with five stats:
efficiency, order, productivity, leadership and responsibility. The mayor also
has a resource bag (budget, materials, labor, administration), a list of
citizens with trust values, five facilities with durability, and a daily
allowance of action points. Most actions spend an action point, and most
then draw from the day's seeded generator and change the state. Each new
day, the game re-seeds the generator, resets the allowance, applies the stat
rules, pays upkeep, wears the facilities down and picks a weighted daily
event.

The model is organised as follows.

- `Random` (random.dfy) holds the mulberry32 generator on 32-bit vectors.
  - `getRandomValue` is modelled exactly.
  - Every float threshold of the form `rand < p/q` is stated exactly in
    integers.
  - The stream of draws is described by `Consumed(before, after, ds)`: the
    draws `ds` are the next values of the generator, and the generator's state
    moves from `before` to `after`.
  - `DayStream(dailySeed, day, after, ds)` is the day's stream: the
    generator seeded with the daily seed plus the day number.
- `Selection` (selection.dfy) is the weighted walk that four tables share:
  inspect, report, audit and the daily event.
  - It keeps the applicable entries.
  - It scales one draw by their total weight.
  - It stops at the first entry whose running sum exceeds that scaled draw.
- `Particles` (particles.dfy) picks the Korean object particle (을/를) and the
  conjunctive particle (과/와) for a name. The choice depends on whether the
  last Hangul syllable has a final consonant.
- `StateMerge` (merge.dfy) is `updateState`'s one-level-deep merge on a
  JSON-like value. An object change is spread over the old value; an old
  array or string spreads as its index keys ("0", "1", …). Every change a
  handler merges is a number, string, boolean, null or array, or an object
  (`resources`, `dailyActions`, `dailyBonus`) that names every field of the
  object it replaces. So elsewhere a merge is a plain record update.
- `State` (state.dfy) holds the game record and its parts as values.
- `Outcomes` (outcomes.dfy) holds the outcome tables of inspect, report and
  audit, and the daily event table.
- `Minigame` (minigame.dfy) holds the minigame reward table, the keyword
  memory game's sequence and submit test, and the placeholder games' scores.
- `Handlers` (handlers.dfy) holds the effect of every other handler, of a
  finished minigame, and of the stat rules of the rollover.
- `Engine` (engine.dfy) holds the class `Game`.
  - Its fields are the global `gameState` record and the state of the
    generator closure `currentRandFn`.
  - It has one method per handler of `gameActions`, plus `processDailyEvents`,
    the rollover steps, the minigame steps and the three ways a day begins.
  - Each method states its new state in terms of the old one, through the
    effect functions above.
  - The ranges of those effects and the invariants they keep are proved as
    lemmas and ensures.

The model follows the code as written, including these behaviours:

- The game-over scenario that the rollover chooses is always overwritten by
  the daily event's scenario. So a day never ends on a game-over screen
  (`Engine.Game.ProcessDailyEvents`).
- `handle_citizen_dispute` merges its reward object as absolute values.
  - Efficiency and leadership become n times the rolled gain, where n is the
    number of citizens with the first id.
  - Order becomes 0.
- `accept_investment` adds a fixed 5 administration and ignores the gain it
  rolls; the roll still takes one draw. `decline_investment` returns to the
  intro scenario, and otherwise changes only a stray top-level key, besides
  taking its draw.
- Building does not check whether the facility is already built.
- Maintenance restores durability to 100, but it does not rebuild a facility
  that has decayed.
- Collecting resources does not set the `collected` flag.
- The memory game shows keywords from the short list used by `showSequence`.
- `cityLevel` is never changed by any handler.
- A daily event's loss is applied as `Math.max(0, stat - loss)`. Upkeep runs
  before the event and can leave the budget negative, and the stats can be at
  or below 0 then. So the budget audit, the complaint, the shortage and the
  policy failure lift a negative budget, order, materials, leadership or
  responsibility to 0 (`Outcomes.DailyEventEffect`).
- The fallback after each weighted walk is never reached: every table has an
  entry that always applies and has a positive weight.
- The memory game does not disable submission during the pause before the
  next sequence is shown, so the previous sequence can be submitted again
  then. `Engine.Game.SubmitSequence` accepts exactly the input that equals
  the current sequence.

## Model

| member | source | states |
|---|---|---|
| Random.Mulberry32 | public/u/tests/assets/js/today-game.js:9-17 | a definition with no contract beyond its body: one call of the closure, operation for operation on 32-bit vectors; the generator's promises are carried by the `Draw` range, `ConsumedInTurn` and `ConsumedDeterministic` |
| Random.SeedOfWraps | public/u/tests/assets/js/today-game.js:11 | the seed is the integer modulo 2^32, as `seed |= 0` truncates it |
| Random.DayStreamInTurn | public/u/tests/assets/js/today-game.js:1369-1381 | the rollover's successive steps extend one stream seeded from the daily seed plus the day |
| Random.ConsumedInTurn | public/u/tests/assets/js/today-game.js:9-17 | taking draws xs and then ys from the state the first reached is the same as taking xs + ys, so the calls of one handler form one stream |
| Random.ConsumedDeterministic | public/u/tests/assets/js/today-game.js:9-17 | from the same closure state, the same number of calls yields the same draws and the same final state, so a day replays from its seed |
| Random.RandomValueOf | public/u/tests/assets/js/today-game.js:19-23 | `getRandomValue(base, variance)` lies in [base - variance, base + variance] |
| Random.RandomValueReachable | public/u/tests/assets/js/today-game.js:19-23 | every value in [base - variance, base + variance] is produced by some draw |
| Random.RandomValueIsFloor | public/u/tests/assets/js/today-game.js:19-23 | the integer formula equals `Math.floor(rand * (max - min + 1)) + min` with rand = u / 2^32 |
| Random.BelowIsRealComparison | public/u/tests/assets/js/today-game.js:1040 | `Below(u, p, q)` holds exactly when u / 2^32 < p / q, the source's `rand < p/q` |
| Random.IndexIsFloor | public/u/tests/assets/js/today-game.js:643 | a draw picks an index in [0, n), equal to `Math.floor(rand * n)` |
| Selection.SelectWeighted | public/u/tests/assets/js/today-game.js:809-821 | the walk returns an entry exactly when the draw chooses it, and returns none only when no applicable entry's running sum exceeds the scaled draw |
| Selection.CumulativeMonotone | public/u/tests/assets/js/today-game.js:1428-1432 | the running sum never decreases along the table |
| Selection.CumulativeSkipsInapplicable | public/u/tests/assets/js/today-game.js:1424 | entries that are filtered out add nothing to the running sum |
| Selection.ChoiceIsBracket | public/u/tests/assets/js/today-game.js:1431-1437 | entry i is chosen exactly when it applies and the scaled draw lies in [sum before i, sum after i) |
| Selection.ChoiceExists | public/u/tests/assets/js/today-game.js:1439-1444 | with a positive total weight some entry is always chosen, so the fallback is unreachable |
| Selection.PositiveEntryMakesChoice | public/u/tests/assets/js/today-game.js:809-821 | one applicable entry with positive weight guarantees a choice for every draw |
| Selection.ChoiceUnique | public/u/tests/assets/js/today-game.js:1431-1437 | a draw chooses at most one entry |
| Selection.LoneCandidateChosen | public/u/tests/assets/js/today-game.js:851-863 | when only one entry applies, it is chosen for every draw |
| Particles.Compose | public/u/tests/assets/js/today-game.js:25-32 | composing an initial, a vowel and a final gives a Hangul syllable |
| Particles.FinalIndexOfCompose | public/u/tests/assets/js/today-game.js:25-32 | `(code - 0xAC00) % 28` recovers the final consonant of a composed syllable |
| Particles.SyllableDecomposes | public/u/tests/assets/js/today-game.js:25-32 | every Hangul syllable is such a composition |
| Particles.EulReFollowsFinalConsonant | public/u/tests/assets/js/today-game.js:25-32 | a name ending in a syllable takes 을 after a final consonant and 를 otherwise |
| Particles.WaGwaFollowsFinalConsonant | public/u/tests/assets/js/today-game.js:33-39 | a name ending in a syllable takes 과 after a final consonant and 와 otherwise |
| Particles.ParticleCases | public/u/tests/assets/js/today-game.js:25-39 | an empty name gets no particle; a name ending in a non-syllable gets the no-final forms |
| Particles.ParticleFor | public/u/tests/assets/js/today-game.js:25-39 | an empty word gets no particle; otherwise one of the two forms, the final-consonant form only after a syllable |
| Particles.EulReParticle | public/u/tests/assets/js/today-game.js:25-32 | the particle is empty exactly for an empty word, and otherwise 을 or 를 |
| Particles.WaGwaParticle | public/u/tests/assets/js/today-game.js:33-39 | the particle is empty exactly for an empty word, and otherwise 과 or 와 |
| Particles.ParticlesAgree | public/u/tests/assets/js/today-game.js:25-39 | a name takes 을 exactly when it takes 과 |
| StateMerge.Merge | public/u/tests/assets/js/today-game.js:132-139 | the merged state has exactly the keys of the state and of the changes |
| StateMerge.MergeKeepsOtherKeys | public/u/tests/assets/js/today-game.js:132-139 | a key the changes do not name keeps its value |
| StateMerge.MergeReplacesNonObjects | public/u/tests/assets/js/today-game.js:132-139 | a change that is not an object (number, string, array, null) replaces the old value |
| StateMerge.MergeOneLevel | public/u/tests/assets/js/today-game.js:132-139 | an object change merged into an object overrides the fields it names and keeps the others, one level deep |
| StateMerge.MergeFullObjectReplaces | public/u/tests/assets/js/today-game.js:132-139 | an object change that names every field of the old object replaces it outright |
| StateMerge.DecimalString | public/u/tests/assets/js/today-game.js:132-139 | the decimal key of an index is non-empty, and one character exactly for indices below 10 |
| StateMerge.DecimalStringInjective | public/u/tests/assets/js/today-game.js:132-139 | distinct indices have distinct keys |
| StateMerge.IndexedItem | public/u/tests/assets/js/today-game.js:132-139 | spreading a sequence maps the key of index i to item i |
| StateMerge.IndexedKeys | public/u/tests/assets/js/today-game.js:132-139 | every key of a spread sequence is the key of some index |
| StateMerge.SpreadArrayKeepsItems | public/u/tests/assets/js/today-game.js:132-139 | spreading an array gives exactly its index keys and their items |
| StateMerge.MergeOverArray | public/u/tests/assets/js/today-game.js:132-139 | an object merged over an array keeps the array's items under their index keys |
| StateMerge.MergeIdempotent | public/u/tests/assets/js/today-game.js:132-139 | merging the same changes twice is merging them once |
| State.InitialState | public/u/tests/assets/js/today-game.js:53-86 | the fresh record: day 1, no manual advances, two citizens with distinct ids, every facility unbuilt at 100, 10 of 10 points, no minigame |
| State.Deduct | public/u/tests/assets/js/today-game.js:1087 | every counter drops by exactly its charge in the cost |
| State.DeductAffordable | public/u/tests/assets/js/today-game.js:1082-1087 | when the resource guard passes, no charged counter goes negative and uncharged ones are untouched |
| State.Infrastructure.With | public/u/tests/assets/js/today-game.js:1083 | updating one facility sets that facility and leaves the other four alone |
| Outcomes.RaiseTrustIsRaised | public/u/tests/assets/js/today-game.js:477-486 | raising a citizen's trust by a gain in [lo, hi] moves it into [min(100, t + lo), min(100, t + hi)] and leaves other citizens alone |
| Outcomes.LowerTrustIsLowered | public/u/tests/assets/js/today-game.js:526-536 | lowering by a loss in [lo, hi] moves trust into [max(0, t - hi), max(0, t - lo)] and leaves other citizens alone |
| Outcomes.InspectEffect | public/u/tests/assets/js/today-game.js:411-471 | each of the five inspect outcomes changes only its own fields, by amounts in the table's ranges |
| Outcomes.InspectCandidates | public/u/tests/assets/js/today-game.js:411-471 | five positive-weight entries; the budget finding applies exactly below 20 budget, the materials finding exactly below 20 materials, the rest always |
| Outcomes.InspectAlwaysChooses | public/u/tests/assets/js/today-game.js:806-821 | the inspect table chooses an outcome for every draw |
| Outcomes.InspectChoiceHolds | public/u/tests/assets/js/today-game.js:413-426 | the budget and materials findings are chosen only when that resource is below 20 |
| Outcomes.ReportEffect | public/u/tests/assets/js/today-game.js:473-549 | each of the six report outcomes changes only its own fields and the chosen citizen's trust, by the table's ranges |
| Outcomes.ReportCandidates | public/u/tests/assets/js/today-game.js:473-549 | six positive-weight entries, the default one always applying |
| Outcomes.ReportAlwaysChooses | public/u/tests/assets/js/today-game.js:826-843 | the report table chooses an outcome for every draw |
| Outcomes.ReportChoiceHolds | public/u/tests/assets/js/today-game.js:475-540 | each conditional report outcome is chosen only when its condition holds: high trust for entry 0, a diligent citizen for entry 1, an administrator for entry 2, and so on |
| Outcomes.FindLowTrust | public/u/tests/assets/js/today-game.js:370-375 | finds the first citizen with trust below 50, or says that none has it |
| Outcomes.AuditEffect | public/u/tests/assets/js/today-game.js:330-409 | each of the six audit outcomes changes only its own fields, by the table's ranges; the trust outcome raises the first low-trust citizen |
| Outcomes.AuditCandidates | public/u/tests/assets/js/today-game.js:330-409 | six positive-weight entries; the trust entry applies exactly when some citizen's trust is below 50; the default always applies |
| Outcomes.AuditAlwaysChooses | public/u/tests/assets/js/today-game.js:848-863 | the audit table chooses an outcome for every draw |
| Outcomes.AuditChoiceHolds | public/u/tests/assets/js/today-game.js:332-399 | each conditional audit outcome is chosen only when its condition holds |
| Outcomes.InitialAuditIsDefault | public/u/tests/assets/js/today-game.js:53-84 | from a fresh game every draw chooses the default positive audit outcome |
| Outcomes.DailyEventEffect | public/u/tests/assets/js/today-game.js:1334-1365 | each daily event's trigger sets its stat to max(0, stat − loss) for a loss in the event's range, which lifts a negative stat to 0; or queues a newcomer; or changes nothing |
| Outcomes.DailyEventCandidates | public/u/tests/assets/js/today-game.js:1334-1365 | one positive-weight entry per daily event; the unconditional events always apply |
| Outcomes.DailyEventAlwaysChooses | public/u/tests/assets/js/today-game.js:1424-1444 | the daily table chooses an event for every draw |
| Outcomes.DailyEventChoiceHolds | public/u/tests/assets/js/today-game.js:1334-1365 | the dispute needs two citizens; newcomer and investment need a built city hall; the crisis needs leadership below 50 |
| Outcomes.EventIdsAreNotFinal | public/u/tests/assets/js/today-game.js:285-290 | no daily event id is a game-over scenario or the intro |
| Outcomes.RandomCitizen | public/u/tests/assets/js/today-game.js:1318-1331 | a newcomer has the given id, trust 50, and a name, personality and skill from the fixed lists |
| Handlers.DisputeTrust | public/u/tests/assets/js/today-game.js:889-900 | the first citizen gains trust; the second loses it only when it is a different id |
| Handlers.DisputeResolved | public/u/tests/assets/js/today-game.js:878-903 | order becomes 0; efficiency and leadership become n times a gain in [3, 7]; the first citizen's trust rises and the second's falls, capped at 100 and floored at 0 |
| Handlers.DisputeMediated | public/u/tests/assets/js/today-game.js:904-911 | order +7..13, productivity +3..7, leadership +3..7, nothing else |
| Handlers.DisputeIgnored | public/u/tests/assets/js/today-game.js:912-922 | order -7..13, productivity -3..7, every citizen's trust becomes exactly max(0, t - 5), and nothing else changes |
| Handlers.ProjectManaged | public/u/tests/assets/js/today-game.js:923-939 | with a point left it spends it and adds efficiency +7..13 and productivity +3..7; otherwise only the scenario changes |
| Handlers.ProjectDelegated | public/u/tests/assets/js/today-game.js:940-945 | efficiency -7..13 and order -3..7 |
| Handlers.LeadershipAsserted | public/u/tests/assets/js/today-game.js:946-962 | with a point left it spends it and adds leadership +7..13 and responsibility +3..7; otherwise only the scenario changes |
| Handlers.CitizenInputSought | public/u/tests/assets/js/today-game.js:963-968 | leadership -7..13 and order -3..7 |
| Handlers.NewcomerWelcomed | public/u/tests/assets/js/today-game.js:969-987 | with room and a pending newcomer it appends them, clears the pending slot, stays within maxCitizens and raises three stats; otherwise only the scenario changes |
| Handlers.NewcomerObserved | public/u/tests/assets/js/today-game.js:988-1004 | with probability 0.7 productivity +3..7, else efficiency -3..7; the pending newcomer is cleared either way |
| Handlers.NewcomerRejected | public/u/tests/assets/js/today-game.js:1005-1012 | efficiency, order and productivity drop by their ranges and the pending newcomer is cleared |
| Handlers.InvestmentAccepted | public/u/tests/assets/js/today-game.js:1013-1026 | with budget at least 50 it pays 50 for 5 administration and never leaves the budget negative; otherwise only the scenario changes |
| Handlers.AddTo | public/u/tests/assets/js/today-game.js:1043 | adds to one counter and leaves the others alone |
| Handlers.CollectChance | public/u/tests/assets/js/today-game.js:1037 | the success chance never exceeds 95% and is 60% plus the daily bonus at city level 0 |
| Handlers.Collected | public/u/tests/assets/js/today-game.js:1035-1076 | a successful collection adds 3..7 to the chosen counter and nothing else |
| Handlers.FacilityBuilt | public/u/tests/assets/js/today-game.js:1077-1158 | building pays the facility's cost, marks it built with its durability kept, and raises exactly the stats of that facility by its ranges |
| Handlers.BuildLeavesNoDebt | public/u/tests/assets/js/today-game.js:1082-1087 | when the cost guard passes, building leaves no charged counter negative |
| Handlers.FacilityMaintained | public/u/tests/assets/js/today-game.js:1159-1173 | maintenance costs 10 materials and 10 labor, resets that facility's durability to 100 without changing `built`, and leaves the others alone |
| Handlers.BudgetAllocated | public/u/tests/assets/js/today-game.js:1174-1198 | the four bands (below 0.1, 0.4, 0.7, rest) give the big win, order +5..15, order -3..7, or no change |
| Handlers.AllocateBandsNested | public/u/tests/assets/js/today-game.js:1180-1190 | the bands are nested, and the integer tests equal the source's 0.1 and 0.7 comparisons |
| Handlers.ProcessOptimized | public/u/tests/assets/js/today-game.js:1199-1217 | below 0.2 administration +2..4; below 0.6 materials +5..15; otherwise no change |
| Handlers.MinigameEnded | public/u/tests/assets/js/today-game.js:684-695 | a finished game adds exactly `MinigameReward`'s amounts (non-negative and bounded) to the five stats, returns to the intro and clears the minigame |
| Handlers.PlaceholderEndTouchesTwoStats | public/u/tests/assets/js/today-game.js:711-791 | adding all five rewards equals each placeholder's `end`, which writes only its two stats |
| Handlers.StatEffects | public/u/tests/assets/js/today-game.js:1238-1316 | the five rules in turn change only efficiency, order, leadership, responsibility, the points and their maximum, the bonus, the citizens and administration; everything else is kept |
| Handlers.EfficiencyRule | public/u/tests/assets/js/today-game.js:1240-1249 | efficiency 70+ adds one management bonus; below 30, order falls by 3..7, floored at 0; otherwise no change |
| Handlers.OrderRule | public/u/tests/assets/js/today-game.js:1251-1262 | order 70+ raises the maximum and refills action points; below 30, the maximum drops, but not below 5, and the points are capped; otherwise no change |
| Handlers.ProductivityRule | public/u/tests/assets/js/today-game.js:1264-1279 | productivity 70+ raises leadership and responsibility (capped at 100); below 30 lowers them (floored at 0) |
| Handlers.LeadershipRule | public/u/tests/assets/js/today-game.js:1281-1302 | leadership 70+ raises efficiency and may add administration; below 30 lowers efficiency and may cost an action point |
| Handlers.ResponsibilityRule | public/u/tests/assets/js/today-game.js:1304-1313 | responsibility 70+ raises every citizen's trust by 1..3; below 30 lowers it by 3..7; citizens otherwise unchanged |
| Handlers.StatEffectsBounds | public/u/tests/assets/js/today-game.js:1238-1316 | the five rules keep the citizens, most resources and other fields, add at most one bonus, and, from a full day's points (points equal to a maximum of at least 6), move the maximum by at most one and keep points within one of it |
| Handlers.Decayed | public/u/tests/assets/js/today-game.js:1393-1402 | a built facility loses one durability and stays built exactly while durability is positive; an unbuilt one is untouched |
| Handlers.DecayedAll | public/u/tests/assets/js/today-game.js:1393-1402 | every facility becomes its decayed self |
| Handlers.Upkeep | public/u/tests/assets/js/today-game.js:1386-1420 | skill bonuses, 2 budget per citizen, -10 efficiency on a negative budget, decay of every facility, and the game-over id exactly when one applies, otherwise the scenario kept |
| Handlers.RolloverBounds | public/u/tests/assets/js/today-game.js:1367-1450 | after the whole rollover: day, date, advances, level, minigame and citizen count kept (a newcomer only waits); event flagged, daily actions cleared, maximum in [9, 11], points within one, bonus 0 or 1, facilities decayed, and a scenario that is the event's and never a game-over id |
| Handlers.GameOverScenario | public/u/tests/assets/js/today-game.js:1415-1420 | a game-over id is chosen exactly when some stat is at most 0 or the budget is below -5 per citizen |
| Engine.Game.Reset | public/u/tests/assets/js/today-game.js:53-86 | the fresh record, with the generator seeded from the daily seed plus day 1 |
| Engine.Game.NextDraw | public/u/tests/assets/js/today-game.js:9-17 | one call of the closure: the next draw, nothing else changes |
| Engine.Game.DrawMany | public/u/tests/assets/js/today-game.js:9-17 | n calls in turn: the next n draws |
| Engine.Game.Decide | public/u/tests/assets/js/today-game.js:809-821 | the walk's choice for the next draw, then exactly the draws that outcome's effect takes |
| Engine.Game.SpendActionPoint | public/u/tests/assets/js/today-game.js:796-803 | succeeds exactly when points are positive, and then spends one |
| Engine.Game.InspectOutcome | public/u/tests/assets/js/today-game.js:809-823 | the walk's choice for one draw over the inspect table, then exactly that outcome's effect and the inspected flag |
| Engine.Game.InspectCity | public/u/tests/assets/js/today-game.js:806-825 | with no point, nothing; otherwise the chosen outcome's effect after spending a point, and the inspected flag set |
| Engine.Game.ReportOutcome | public/u/tests/assets/js/today-game.js:830-844 | the walk's choice over the report table for the citizen, then exactly that outcome's effect and the reported flag |
| Engine.Game.ReportToCitizens | public/u/tests/assets/js/today-game.js:826-847 | with no point, nothing; a random citizen is picked; when already reported, only the point and the pick draw; otherwise the chosen outcome's effect on that citizen and the flag set |
| Engine.Game.AuditOutcome | public/u/tests/assets/js/today-game.js:850-865 | the walk's choice over the audit table, the trust outcome only with a low-trust citizen, then exactly that outcome's effect |
| Engine.Game.AuditBudget | public/u/tests/assets/js/today-game.js:848-867 | with no point, nothing; otherwise the chosen audit outcome's effect after spending a point |
| Engine.Game.HandleCitizenDispute | public/u/tests/assets/js/today-game.js:878-903 | with no point, nothing; otherwise four draws and the dispute resolution |
| Engine.Game.MediateCitizenDispute | public/u/tests/assets/js/today-game.js:904-911 | with no point, nothing; otherwise three draws and the mediation effect |
| Engine.Game.IgnoreEvent | public/u/tests/assets/js/today-game.js:912-922 | with no point, nothing; otherwise two draws and the ignore effect |
| Engine.Game.ManageProjectEfficiently | public/u/tests/assets/js/today-game.js:923-939 | with no point, nothing; otherwise the project effect, taking draws only when a second point is left |
| Engine.Game.DelegateProject | public/u/tests/assets/js/today-game.js:940-945 | with no point, nothing; otherwise two draws and the delegation effect |
| Engine.Game.AssertLeadership | public/u/tests/assets/js/today-game.js:946-962 | with no point, nothing; otherwise the leadership effect, taking draws only when a second point is left |
| Engine.Game.SeekCitizenInput | public/u/tests/assets/js/today-game.js:963-968 | with no point, nothing; otherwise two draws and the input effect |
| Engine.Game.WelcomeNewCitizen | public/u/tests/assets/js/today-game.js:969-987 | with no point, nothing; otherwise the welcome effect, taking draws only when a newcomer can join |
| Engine.Game.ObserveCitizen | public/u/tests/assets/js/today-game.js:988-1004 | with no point, nothing; otherwise two draws and the observation effect |
| Engine.Game.RejectCitizen | public/u/tests/assets/js/today-game.js:1005-1012 | with no point, nothing; otherwise three draws and the rejection effect |
| Engine.Game.AcceptInvestment | public/u/tests/assets/js/today-game.js:1013-1026 | with no point, nothing; otherwise the investment effect, with one unused draw when the budget suffices |
| Engine.Game.DeclineInvestment | public/u/tests/assets/js/today-game.js:1027-1031 | with no point, nothing; otherwise one draw, the point spent and the intro scenario |
| Engine.Game.ShowScenario | public/u/tests/assets/js/today-game.js:1032-1034 | only the scenario id changes |
| Engine.Game.Collect | public/u/tests/assets/js/today-game.js:1035-1076 | with no point, nothing; otherwise a success draw, and on success one more draw and the collection |
| Engine.Game.Build | public/u/tests/assets/js/today-game.js:1077-1158 | with no point, nothing; an unaffordable facility only costs the point; otherwise the facility's draws and the build effect |
| Engine.Game.Maintain | public/u/tests/assets/js/today-game.js:1159-1173 | with no point, nothing; otherwise the maintenance effect when affordable, else only the point spent |
| Engine.Game.AllocateBudget | public/u/tests/assets/js/today-game.js:1174-1198 | with no point, nothing; otherwise a band draw, that band's draws and the allocation effect |
| Engine.Game.OptimizeProcess | public/u/tests/assets/js/today-game.js:1199-1217 | with no point, nothing; otherwise a band draw, that band's draws and the optimisation effect |
| Engine.Game.PlayMinigame | public/u/tests/assets/js/today-game.js:1219-1232 | plays once a day when a point is left: the memory game on day 1, 6, 11, … with a first sequence of 3 keywords, otherwise that day's placeholder with its fixed score |
| Engine.Game.ShowSequence | public/u/tests/assets/js/today-game.js:637-644 | stage + 2 draws become the shown keyword sequence, and input is blocked |
| Engine.Game.FinishShowingSequence | public/u/tests/assets/js/today-game.js:652-656 | the timer's end unblocks input and changes nothing else |
| Engine.Game.AddInput | public/u/tests/assets/js/today-game.js:660-664 | while the sequence is showing, nothing; otherwise the keyword is appended to the input |
| Engine.Game.ResetInput | public/u/tests/assets/js/today-game.js:665-667 | while the sequence is showing, nothing; otherwise the input is emptied |
| Engine.Game.SubmitSequence | public/u/tests/assets/js/today-game.js:668-681 | accepted exactly when the input equals the sequence, then +10 per keyword and the next stage; a wrong answer ends the game with its reward |
| Engine.Game.EndPlaceholderGame | public/u/tests/assets/js/today-game.js:706-719 | the placeholder's reward is added, and only its two stats can change |
| Engine.Game.AdjustTrust | public/u/tests/assets/js/today-game.js:1304-1313 | the per-citizen loop gives exactly the responsibility rule, one draw per citizen when it applies |
| Engine.Game.ApplyFirstRules | public/u/tests/assets/js/today-game.js:1240-1279 | efficiency, order and productivity rules in turn, with their draws in order |
| Engine.Game.ApplyLeadershipRule | public/u/tests/assets/js/today-game.js:1281-1302 | the leadership rule, with no draws in the middle band |
| Engine.Game.ApplyStatEffects | public/u/tests/assets/js/today-game.js:1238-1316 | the five rules in order, as one stream of draws |
| Engine.Game.ApplySkillBonuses | public/u/tests/assets/js/today-game.js:1387-1391 | administration, materials and labor grow by the number of citizens with the matching skill |
| Engine.Game.DecayInfrastructure | public/u/tests/assets/js/today-game.js:1393-1402 | the infrastructure becomes `DecayedAll` of the old one, and nothing else changes |
| Engine.Game.DailyUpkeep | public/u/tests/assets/js/today-game.js:1386-1420 | the new state is `Upkeep` of the old one: skill bonuses, decay, 2 budget per citizen, -10 efficiency on a negative budget, and the game-over id exactly when one applies; no draws |
| Engine.Game.TriggerDailyEvent | public/u/tests/assets/js/today-game.js:1422-1446 | the chosen event's trigger and its id as the scenario |
| Engine.Game.BeginDay | public/u/tests/assets/js/today-game.js:1369-1381 | reseeds from the daily seed plus the day, and the new state is exactly `StatEffects(DayStarted(old))` on that day's stream: flags, points and bonus reset, then the five rules; maximum in [9, 11], points within one of it, bonus 0 or 1 |
| Engine.Game.ProcessDailyEvents | public/u/tests/assets/js/today-game.js:1367-1450 | runs exactly once per day; when it runs, the new state is exactly `Rollover(old, draws)` for draws that fit the rules and form the day's whole stream; it ends on a daily event's scenario that is never a game-over id |
| Engine.Game.ManualNextDay | public/u/tests/assets/js/today-game.js:868-877 | at most 5 manual advances; each gives exactly the `Rollover` of `Advanced(old)` (next day, count + 1) on that day's stream |
| Engine.Game.OpenSavedGame | public/u/tests/assets/js/today-game.js:113-124 | reseeds for the saved day; on a new date it gives exactly the `Rollover` of `Reopened(old)` (next day, manual count cleared) on that day's stream |
| Engine.Game.StartNewGame | public/u/tests/assets/js/today-game.js:125-128 | exactly the `Rollover` of `InitialState(today)` on day 1's stream: a fresh game with two citizens |
| Minigame.MinigameReward | public/u/tests/assets/js/today-game.js:551-599 | every game but the memory game pays 3 in total, spread over its stats; an unknown name pays nothing |
| Minigame.PlaceholderScore | public/u/tests/assets/js/today-game.js:696-776 | each of the four placeholder games starts with a fixed score between 10 and 25 |
| Minigame.RewardBounded | public/u/tests/assets/js/today-game.js:551-599 | no reward is negative; efficiency at most 15, order 10, productivity 5, leadership 5, responsibility 2 |
| Minigame.MemoryRewardMonotone | public/u/tests/assets/js/today-game.js:555-572 | a higher memory score never earns less of any stat |
| Minigame.MemoryRewardPositiveIffScored | public/u/tests/assets/js/today-game.js:555-572 | the memory game pays efficiency exactly when the score is not negative, and never pays responsibility |
| Minigame.PlaceholderRewardsOnlyTheirStats | public/u/tests/assets/js/today-game.js:574-593 | placeholder rewards do not depend on the score and are zero outside their two stats |
| Minigame.UnknownGameEarnsNothing | public/u/tests/assets/js/today-game.js:594-596 | an unknown name earns nothing; the message names it with the fitting particle |
| Minigame.KeywordFor | public/u/tests/assets/js/today-game.js:643 | a draw picks one of the ten keywords |
| Minigame.KeywordSequence | public/u/tests/assets/js/today-game.js:640-644 | one keyword per draw, each from the list |
| Minigame.KeywordSequencePointwise | public/u/tests/assets/js/today-game.js:640-644 | the i-th shown keyword is the one the i-th draw picks |
| Minigame.SubmitCorrectIffEqual | public/u/tests/assets/js/today-game.js:669-671 | the submit test passes exactly when the input equals the sequence |
| Minigame.ScoreAfterStagesClosedForm | public/u/tests/assets/js/today-game.js:672-673 | clearing n stages from stage 1 scores 5n(n + 5) |
| Minigame.MemoryRewardByStages | public/u/tests/assets/js/today-game.js:555-572 | failing at once earns the lowest tier, one stage the middle tier, two or more the top tier |

## Left out

- Rendering: the DOM, the message strings shown to the player and the CSS
  feedback (`showFeedback`, `renderStats`, `renderChoices`, `renderAll`) are
  not modelled.
- Persistence: `saveGameState` and the `localStorage` read are left out.
  `Engine.Game.OpenSavedGame` starts from a game that is already loaded.
  The repair of old save files is not modelled. That repair fills missing
  stats and refills an empty citizen list with the two default citizens,
  which is why the class invariant asks for at least one citizen.
- The clock: `getDailySeed` and `new Date()` become the parameters
  `dailySeed` and `today`.
- Timers: the 800 ms `setInterval` of `showSequence` and the 1.5 s
  `setTimeout` before the next sequence are not modelled. The interval's end
  is the separate step `Engine.Game.FinishShowingSequence`.
- Newcomer ids: `Math.random` in the newcomer's id becomes the parameter
  `newcomerId`.
- The stray top-level `administration` key that `accept_investment` and
  `decline_investment` write (a NaN) is not part of the state.
- `decline_investment` still takes its draw in the model.
- Random.Mulberry32: the step is a definition with no contract beyond its
  body. It follows today-game.js:9-17 operation for operation on 32-bit
  vectors. The generator's promises are carried by the `Draw` range of its
  output, `Random.ConsumedInTurn` and `Random.ConsumedDeterministic`; no
  closed form of the state after n calls is stated.
- The page hooks are not modelled: `resetGame`'s confirm dialog and reload,
  `window.onload`, and the button wiring.
- The placeholder games' `render: () {}` is not valid JavaScript; the model
  treats each placeholder as started and then ended.
- `Engine.Game.Maintain`: the facility is one of the five, not an arbitrary
  key. An unknown key would make the source throw.
- Handlers.CollectChance: the success chance is modelled in whole percent,
  with the daily bonus counted in tenths. The decimal sum
  `0.6 + 0.1 * cityLevel + bonus` is taken exactly, and the floating-point
  rounding of that sum is not modelled.
