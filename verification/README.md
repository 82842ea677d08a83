# The Terminal Wrestling League match pipeline, verified

The league promises that the same seed, the same initial state and the same inputs always give the same match. This
project models the code that has to keep that promise and the small stateful services around it, and proves what the
code guarantees over whole matches and whole runs, not just in one call.

The combat turn is a pure function (`Turn`) of a state, a canonical pair of inputs and a tape of rolls. `Resolver` does the
same work in place, as the source does, with a generator and a running hash, and is proved to compute that function; a
simulator, the record/replay pair and the match loop are built on it. `EventLog` shows that the log of a match determines
its state; that is what turns properties of logs (`Ledger`, `Shape`, `Combo`, `Finish`) into closed forms for the state of
any match (`Matches`). `Rulebook` states the rules a second time, in numbers and without the code's own steps, and every turn of
every match is shown to go by it. The lobby, the reservations, the limiter, the computer opponent, slot takeover and the line splitter
are separate state machines with their own run-level theorems.

| file | what it covers |
|---|---|
| `Words`, `CombatTypes`, `Rules`, `Order`, `Odds` | words of 64 bits, the value types, the integer formulas, canonical inputs, success chances |
| `Turn`, `Invariant`, `Shape`, `Combo`, `LastMoves`, `EventLog`, `Ledger`, `Finish` | one turn, what it keeps, and what its log says |
| `Rulebook`, `ByTheBook`, `Blows` | the rules in plain numbers, apart from the code's own steps, and that turns go by them |
| `Runs`, `Matches`, `Symmetry`, `Streams` | whole matches |
| `Earliest`, `Oddities` | matches in which the bounds are met and the odd cases occur |
| `Rng`, `Checksum`, `Layout`, `Resolver`, `Simulator`, `Replay` | generator, hashes and what is hashed, the resolver in place, simulator and replay |
| `Npc`, `Habits`, `Seeds` | the computer opponent, what it decides in numbers, and its random streams |
| `Slots`, `Match`, `Commands` | takeover, the match loop, and what it plays, records and stores |
| `Lobby`, `Reservations`, `Waiters`, `Calls` | the queue, who may play, and what becomes of those who wait, under any interleaving; single calls undisturbed |
| `RateLimit`, `RateExact`, `LineSplit` | token buckets with eviction and when they refuse, and line reading under any chunking |

## Where the code is not what one would expect

The model follows the code; these are the places where the obvious claim fails, with what holds instead.

- The combo rule in section 5 of docs/combat-determinism.md asks for a successful offensive action in the turn before. On
  turn 1 the code asks for nothing, because `Turn` and `LastOffensiveHitTurn` both start at 0; `Matches.ComboNeedsFollowUp`
  states exactly when a combo is announced, and the match of `Earliest.KnockOutOnTurnFour` opens with one.
- The leg penalty handed to `defenseAttribute` as the defender's is the actor's own. The chance is the one that the
  parameter's name asks for exactly when the opponent does not dodge or the two fighters' legs are in the same state
  (`Odds.ChanceIsIntendedExactly`, and `Matches.AttemptsFollowTheLegs` for every attempt of every match);
  `Oddities.DodgeOnHurtLegs` is a match in which it is not.
- A grapple can win by submission and knock out in the same action. Two `match_finished` entries are logged and the outcome
  is the knock-out. `Finish.MatchEndsTwiceExactly` says when, and `Oddities.SubmittedAndKnockedOut` is such a match.
- `Enqueue` checks and joins in two critical sections, so a player can be queued and in a match at once, and the busy branch
  of `processQueue` drops both popped players (`Reservations.OverlapAppearsExactly`, `Reservations.PairIsDroppedExactly`, with
  runs that get there; `Waiters.FatesHaveCauses` says which waiting players are lost like this in any run).
- Handles are unique in the accounts table, but active matches are found by lower-cased handle; two handles that differ only
  in case can hide a running match (`Reservations.LookupStaysRight`, `Reservations.LowerCaseClash`).
- Evicting idle buckets is only unobservable if a bucket fills up within the time to live (`RateLimit.EvictionIsUnnoticedExactly`).

## Model

| member | source | states |
|---|---|---|
| Order.CanonicalizeInputs | internal/combat/order.go:9-48 | every arrival list is either turned into its canonical pair or refused with the first fault in the source's order of checks |
| Order.IndexInputs | internal/combat/order.go:10-19 | the scan fails on the first empty or repeated player id and otherwise finds each input by its player |
| Order.FaultMeaning | internal/combat/order.go:11-33 | there is no fault exactly when ids are proper, inputs distinct and all from the two fighters |
| Order.BeforeMeaning | internal/combat/order.go:34 | one id comes before another exactly when it is cut off the other or has the lower byte where they first differ |
| Order.BeforeIsTotal | internal/combat/order.go:34 | byte order puts any two different ids one way and not the other |
| Order.CanonicalIsIdempotent | internal/combat/order.go:34-47 | a canonical pair is sorted by id and is its own canonical form |
| Order.CanonicalIgnoresArrivalOrder | internal/combat/order.go:9-48 | permuted inputs are refused together or have the same canonical form |
| Rules.DamageBounds | internal/combat/rules.go:121-144 | archetype damage lies between 12 and 34, and under a cap that moves with momentum |
| Rules.CostBounds | internal/combat/rules.go:68-85 | prices are positive, Block, Dodge and Feint cost at most 7, and even a cut regeneration restores at least 7 |
| Odds.ChanceIsNeverCapped | internal/combat/resolver.go:265-301 | between archetype fighters the chance is the plain formula: its limits of 10% and 90% never take effect |
| Odds.InjuredLegsHelpTheAttacker | internal/combat/resolver.go:267-285 | against a dodging opponent hurt legs strictly raise the chance of an attacker who does not dodge and lower that of one who does, and the defender's own effects do not matter |
| Odds.ChanceIsIntendedExactly | internal/combat/resolver.go:267-285 | the chance is the one computed from the defender's own legs exactly when the opponent does not dodge or both have the same flag; otherwise it is too high for a hurt attacker and too low for a sound one |
| Odds.ReachIsNoObstacle | internal/combat/resolver.go:110-116 | at distance 1 every move is in reach |
| Odds.ReachInSteps | internal/combat/resolver.go:110-116 | strikes and counters reach two steps, a grapple one, and nothing else needs to |
| Odds.ChancesAreLimited | internal/combat/rules.go:91-164 | for any fighters whatever: the three chances in plain numbers between their limits |
| Turn.ActDraws | internal/combat/resolver.go:105-204 | one fighter's action consumes none, one, two or three rolls, from the front |
| Turn.PlayDraws | internal/combat/resolver.go:24-245 | a turn draws at most six rolls and records exactly the ones it drew, in order |
| Invariant.FreshInv | internal/combat/types.go:238-263 | a new match satisfies the invariant |
| ByTheBook.NewMatchesAgree | internal/combat/types.go:238-263 | a match is new exactly when both fighters have their archetype's attributes, 100 hit points and stamina, no momentum and no effects, on their feet at distance 1 before turn 1 |
| Invariant.TurnKeepsInvariant | internal/combat/resolver.go:24-245 | every turn keeps the invariant (HP, stamina, momentum, effect and posture ranges, distance 1, combat state never stunned, outcome agrees with hit points and combat state) and logs only entries the start state explains |
| EventLog.TurnIsSourced | internal/combat/resolver.go:54-233 | applying a turn's log to the state before it gives the state after it, for any state and rolls |
| Runs.RunIsSourced | internal/combat/resolver.go:24-245 | the log of a match, from any state with proper ids and after any number of turns, reproduces the state reached |
| Runs.MatchesGrow | internal/engine/simulator.go:28-36 | a match can be continued by any turn that resolves, so that every sequence of resolving inputs is the history of a match |
| Runs.ReachableStates | internal/combat/resolver.go:24-245 | every state of every match satisfies the invariant, with the turn counter, ids and log dates that go with it |
| Shape.PlayShape | internal/combat/resolver.go:50-227 | a turn's log starts with the turn entry and ends with the two stamina entries, which occur nowhere else |
| Shape.PlayHits | internal/combat/resolver.go:150-169 | at most one blow lands on each fighter in a turn |
| Shape.PlayRung | internal/combat/resolver.go:190-222 | a turn moves the grapple ladder exactly as its successful grapples and breaks say |
| Shape.PlayRestores | internal/combat/resolver.go:379-398 | what a fighter gets back, and that it is cut exactly when the turn began with a torso penalty |
| Shape.StunnedTurn | internal/combat/resolver.go:69-81 | a stunned fighter's own action draws no roll, so that the turn's rolls are the opponent's, and its stamina changes by the regeneration alone |
| Shape.PlayChance | internal/combat/resolver.go:104-129 | every attempt is logged with the chance of the action and fighters it started from |
| ByTheBook.TurnGoesByTheBook | internal/combat/resolver.go:24-245 | a turn from any state that satisfies the invariant logs and draws what the rulebook works out |
| LastMoves.TurnIsRemembered | internal/combat/resolver.go:64-131 | from any state: the last action and its success after a turn |
| Blows.TurnPenalizes | internal/combat/resolver.go:303-326 | in a turn a fighter is penalized on the torso or the legs exactly when it is hit there |
| Combo.PlayCombo | internal/combat/resolver.go:135-148 | a combo is announced in a turn exactly for a successful offensive action with more than 30 stamina left by a fighter whose last hit was the turn before |
| Ledger.SinceBreakMeaning | internal/combat/resolver.go:190-222 | the running count is the number of successful grapples after the last successful break |
| Ledger.LastTurnMeaning | internal/combat/resolver.go:303-326 | the last turn of an effect is the date of the last such entry |
| Ledger.LastBlowMeaning | internal/combat/resolver.go:150-169 | the last turn in which a fighter was hit in a zone is the date of the last such damage entry |
| Ledger.LastOffenseMeaning | internal/combat/resolver.go:150-206 | the last offence is the date of the last damage or feint of the fighter |
| Ledger.LedgerOfFold | internal/combat/resolver.go:83-169 | hit points and stamina after a log are what its entries add up to |
| Ledger.WindowsOfFold | internal/combat/resolver.go:247-263 | effect counters after a log count down from the last matching entry |
| Matches.TurnsDrawAtMostSix | internal/combat/resolver.go:105-204 | in every match every turn uses at most six rolls, from the front of the random source |
| Matches.EarliestFinish | internal/combat/resolver.go:135-204 | no match ends before turn 2 and none by knock-out before turn 4 |
| Earliest.SubmissionOnTurnTwo | internal/combat/resolver.go:328-377 | a match that ends by submission on turn 2 |
| Earliest.KnockOutOnTurnFour | internal/combat/resolver.go:150-204 | a match that ends by knock-out on turn 4 and has a combo on turn 1 |
| Matches.LadderClosedForm | internal/combat/resolver.go:328-358 | the combat state's rank is min(4, grapples since the last break), so a submission needs four |
| Matches.DamageLedger | internal/combat/resolver.go:150-169 | HP is max(0, 100 - damage logged), at most 9 hits on a fighter and 17 in a match |
| Matches.StaminaLedger | internal/combat/resolver.go:83-98 | stamina is 100 - costs paid + amounts restored, and at least 7 at every turn start |
| Matches.DefenceNeverStarves | internal/combat/resolver.go:83-97 | only Strike, Grapple, Counter and Break are ever refused for stamina |
| Matches.OddsAreOpen | internal/combat/resolver.go:104-132 | in no match is an action missed for want of reach, and every attempt has a chance between 21.6% and 82.5% |
| Matches.EffectWindows | internal/combat/resolver.go:247-326 | the counters after turn T are max(0, 1 - (T - last turn the fighter was stunned)) and max(0, 2 - (T - last turn a blow hit the torso, or the legs)) |
| Matches.MatchesGoByTheBook | internal/combat/resolver.go:24-245 | every turn of every match logs, entry by entry, what a rulebook in plain numbers works out from its start, its canonical inputs and its rolls, and draws exactly the rolls that the book asks for |
| Matches.BlowsAreTheInputs | internal/combat/resolver.go:150-169 | every blow has the action and the zone of its dealer's own input and hits the opponent; a turn holds a torso (legs) penalty for a fighter exactly when it holds a blow against that fighter's torso (legs) |
| Matches.PenaltiesFollowBlows | internal/combat/resolver.go:303-326 | over any match, penalties are dated as the blows that bring them |
| Matches.BlowsStunByChance | internal/combat/resolver.go:170-187 | a fighter is stunned in a turn exactly when it is hit in it and the roll after the one that hit is below 1000, plus 1000 for a blow at the head, plus 500 with less than 20 stamina left, plus 50 for each point of the momentum lead |
| Matches.LastMovesAreKnown | internal/combat/resolver.go:64-131 | what each fighter last did and whether it succeeded, as the next state has it: the action of its own input, none when stunned, and a success exactly when the log says so; a fighter whose opponent ended the match first keeps both |
| Matches.StunSkipsOneTurn | internal/combat/resolver.go:69-81 | a fighter stunned at T resolves nothing at T+1, and only a fighter stunned at T skips then |
| Matches.StunCostsNothing | internal/combat/resolver.go:69-81 | a fighter stunned at T draws no roll of its own at T+1 and pays nothing: its stamina changes by the regeneration alone |
| Matches.StunIsLogged | internal/combat/resolver.go:69-81 | a fighter stunned at T has a skip entry at T+1, unless the opponent acted first and ended the match |
| Matches.AttemptsFollowTheLegs | internal/combat/resolver.go:265-301 | the chance logged by an attempt at T carries the attacker's leg cut exactly when a blow hit the attacker's legs at T-1 or T-2, and is the one with the defender's cut exactly when the opponent does not dodge or both or neither were hit there |
| Oddities.DodgeOnHurtLegs | internal/combat/resolver.go:267-285 | a match in which a strike at a dodging opponent with hurt legs is logged with the chance against sound ones |
| Matches.RegenCutWindow | internal/combat/resolver.go:379-398 | regeneration at T is cut exactly when a blow hit the fighter's torso at T-1 or T-2 |
| Matches.ComboNeedsFollowUp | internal/combat/resolver.go:135-148 | exactly when a combo is announced at T: the offence of T-1 is needed from turn 2 on, and not on turn 1 |
| Finish.LogTellsTheOutcome | internal/combat/resolver.go:190-204 | an open match has no final entry; a finished one has one by the winner, or a submission and then a knock-out, which is the outcome |
| Finish.BlowEndsTwiceExactly | internal/combat/resolver.go:150-204 | told on the state before the blow: two final entries are written exactly by a grapple from one of the two highest rungs whose damage covers the opponent's hit points and whose submission roll is below the chance against the opponent as the blow leaves it |
| Finish.ActEndsTwiceExactly | internal/combat/resolver.go:55-223 | told on the state before the action: exactly when it is an affordable grapple of a fighter not stunned, its roll is below the chance, and damage, rung and submission roll suffice with the combo and the momentum that the success brings |
| Finish.MatchEndsTwiceExactly | internal/combat/resolver.go:55-223 | a match has two final entries exactly when one fighter's action in its last turn wrote both |
| Oddities.SubmittedAndKnockedOut | internal/combat/resolver.go:190-204 | a match of five turns with both final entries |
| Symmetry.SlotsAreSymmetric | internal/combat/resolver.go:24-245 | exchanging the fighters' slots gives the exchanged state, the same rolls and the same log up to the two closing entries |
| Symmetry.ArrivalOrderIsImmaterial | internal/combat/resolver.go:29-40 | permuted inputs resolve to the same turn |
| Symmetry.MatchesAreSymmetric | internal/combat/resolver.go:24-245 | a whole match played with the fighters in each other's slots has exchanged states and the same rolls in every turn |
| Symmetry.MatchesIgnoreArrivalOrder | internal/combat/order.go:9-48 | matches whose inputs arrive in a different order within each turn are the same match |
| Rng.AdvanceIsAPermutation | internal/engine/rng.go:21-28 | the state transition is a bijection on 64-bit words, with an explicit inverse |
| Rng.NeverZero | internal/engine/rng.go:14-28 | from no seed is the zero state ever reached |
| Rng.IterateAdd | internal/engine/rng.go:21-28 | drawing j times and then k times is drawing j + k times |
| Rng.DeterministicRNG.constructor | internal/engine/rng.go:14-19 | a zero seed is replaced by the default one |
| Rng.DeterministicRNG.NextUint64 | internal/engine/rng.go:21-28 | one draw xors the state with itself shifted by 12, 25 and 27 places and reports its product with 2685821657736338717 modulo 2^64 |
| Rng.DeterministicRNG.NextInt | internal/engine/rng.go:30-35 | a positive bound draws once and takes the remainder; any other draws nothing and gives 0 |
| Checksum.FnvStepInjective | internal/combat/resolver.go:435-487 | one FNV-1a step is injective in the hash and in the byte |
| Checksum.OneByteNeverCollides | internal/combat/resolver.go:435-487 | streams that differ in one byte never have the same hash |
| Checksum.EncodeInjective | internal/combat/resolver.go:435-487 | the encoding of fields of the same shape is injective for NUL-free ids |
| Checksum.StreamIsInjective | internal/combat/resolver.go:435-468 | states with the same byte stream agree in everything but the upper half of the generator state |
| Checksum.SmallChangeNeverCollides | internal/combat/resolver.go:470-474 | changing one field between two values below 256 always changes the hash |
| Checksum.HitPointsChangeTheHash | internal/combat/resolver.go:451-468 | states that differ only in one fighter's HP never share a state hash |
| Checksum.HashMatchState | internal/combat/resolver.go:435-449 | the writers, in order, produce the hash of the field stream |
| Checksum.Hash64.WriteFighter | internal/combat/resolver.go:451-468 | writing a fighter advances the hash by the encoding of its fields |
| Layout.StateIsWritten | internal/combat/resolver.go:435-449 | the 41 fields of a state by their places: ids, turn, combat state, distance, lower half of the generator, both fighters, outcome |
| Layout.FighterIsWritten | internal/combat/resolver.go:451-468 | the sixteen fields of a fighter by their places |
| Layout.CodesAreRanks | internal/combat/types.go:6-104 | every enumeration is written as the place of its value among the declared ones |
| Layout.FieldsAreWritten | internal/combat/resolver.go:470-487 | a number is written as eight bytes that stand for it modulo 2^64, least significant first; a string as its bytes and a zero |
| Layout.FnvOfA | internal/combat/resolver.go:435-436 | the hash of "a" is the published value of 64-bit FNV-1a |
| Layout.RollsAreWritten | internal/combat/resolver.go:429-433 | the roll hash is that of eight bytes for each roll, in order |
| Layout.RollsAreOutputs | internal/engine/rng.go:21-35 | the rolls that a turn may draw are the generator's next outputs modulo 10000 |
| Streams.ReachableStreamsDiffer | internal/combat/resolver.go:435-468 | any two reachable states with NUL-free ids write the same bytes exactly when they agree up to the upper half of the generator state |
| Resolver.ResolveTurn | internal/combat/resolver.go:24-245 | resolving in place computes the turn function; the generator ends at the snapshot, and a refusal leaves it untouched |
| Resolver.PlayTurn | internal/combat/resolver.go:34-227 | both actions and the end of the turn, with the generator advanced once per recorded roll |
| Resolver.Arena.Prepare | internal/combat/resolver.go:247-263 | effects are read off before they are counted down |
| Resolver.Arena.TakeAction | internal/combat/resolver.go:55-223 | the loop body does to state, log, rolls and hash what the turn function says |
| Resolver.Arena.ApplyZoneEffects | internal/combat/resolver.go:303-326 | a torso or legs hit raises the matching counter of the defender and is logged |
| Resolver.Arena.ApplyGrappleTransition | internal/combat/resolver.go:328-377 | one rung up, then a submission roll on the last rung |
| Resolver.Arena.ApplyRegen | internal/combat/resolver.go:379-398 | the stamina given back and logged is what the turn function says |
| Simulator.CombatSimulator.constructor | internal/engine/simulator.go:18-26 | a new simulator carries its own generator's snapshot |
| Simulator.CombatSimulator.Step | internal/engine/simulator.go:28-36 | a step replaces the state by the result's; a failed one changes neither state nor generator |
| Simulator.StepAccountsForItsRolls | internal/engine/simulator.go:28-36 | a step draws k <= 6 times: the next state's snapshot is the k-th iterate and the roll hash is that of exactly those rolls |
| Simulator.StepCanonical | internal/engine/simulator.go:28-36 | stepping with inputs or with their canonical form is the same |
| Replay.Replay | internal/replay/replay.go:39-62 | a record is replayed exactly when each recorded input in turn resolves, under its recorded turn number or none, in the state that the results before it have left, and the results are those; an error names the first event with a wrong turn or a refused step |
| Replay.PlaybackReproduces | internal/replay/replay.go:39-62 | a playback that goes through has one result for each event, each from the state that the one before has left |
| Replay.PlaybackIsAMatch | internal/replay/replay.go:39-62 | whatever is played back is the history of a match, with the recorded inputs, the seed's own rolls in every turn and the same states, events and checksums, so what is proved of matches holds of every replay |
| Match.EveryMatchReplays | internal/matchmaking/service.go:454-544 | for every seed and everything that can happen, the record plays back to the states, events and checksums that were shown, rows are numbered 1..n, and slot control follows the arrivals |
| Match.StoredMatchReplays | internal/matchmaking/service.go:555-590 | a stored match replays without error with matching checksums, and its verdict is the replayed outcome |
| Match.StoredMatchIsAMatch | internal/matchmaking/service.go:412-590 | a stored match is the history of a match between new fighters, with the stored inputs, the seed's own rolls and the stored checksums |
| Match.TakeoversAreDeserved | internal/matchmaking/service.go:758-811 | in every recorded match a slot is the computer's exactly when its waits held a disconnect or two timeouts in a row |
| Match.OnlyCancellationStops | internal/matchmaking/service.go:505-544 | without a cancellation a match is always completed: inputs are never refused and no step fails |
| Commands.StopsExactly | internal/matchmaking/service.go:505-544 | a match is cut short exactly when, before its end, it is cancelled, a wait of a human is, or an animation breaks off |
| Commands.RoundPlaysTheCommands | internal/matchmaking/service.go:940-999 | what a round plays: a command as it was given (undeclared actions as none, undeclared zones as the torso), nothing after a first timeout, and the computer's decision for a slot in its hands, by then or because of this wait; only such a decision moves the slot's random stream |
| Commands.StoredRowsAreTheCommands | internal/matchmaking/service.go:505-541 | row i of a stored match is numbered i + 1, dated by the clock, and holds for each slot the command of moment i, or nothing after a first timeout, or what the computer decides in the match so far once a disconnect or two timeouts in a row have handed the slot over |
| Commands.StoredMatchesBegin | internal/matchmaking/service.go:454-503 | a match is refused exactly for an undeclared archetype; a stored one is between the two players called, each with the archetype they came with, both rested, under the match's own seed |
| Commands.StoredVerdictIsRight | internal/matchmaking/service.go:1070-1088 | a stored match is a knock-out exactly when a fighter is down, won by the other; a draw exactly when it is still open; and a submission otherwise, won by the one whom the log says to have submitted the other |
| Seeds.SlotSeedsDiffer | internal/matchmaking/service.go:1140-1146 | the two slots' own generators start from the match's seed with different bits turned over, bit by bit; never from the same state and never from zero |
| Match.PlayRound | internal/matchmaking/service.go:505-530 | one iteration collects, canonicalises and steps, and never fails on its inputs |
| Match.PlayTurns | internal/matchmaking/service.go:505-544 | whichever reply comes in first in each turn, the rows, the final state, the control of both slots and their random streams are those of the course of the match, which does not know that order |
| Match.RunMatch | internal/matchmaking/service.go:412-590 | what a match is stored as |
| Npc.PickOwner | internal/npc/engine.go:182-201 | every roll below the total belongs to an option, so the fallback is never reached |
| Npc.PickExactly | internal/npc/engine.go:182-201 | an option is returned exactly for the rolls in its own interval |
| Npc.PickCounts | internal/npc/engine.go:182-201 | an option is returned for exactly `weight` of the `total` rolls |
| Npc.AdjustActionWeights | internal/npc/engine.go:141-180 | every action weight is adjusted in place, to at least 1 |
| Npc.AdjustZoneWeights | internal/npc/engine.go:226-253 | every zone weight is adjusted in place, to at least 1 |
| Npc.Choose | internal/npc/engine.go:182-201 | one draw when the total is positive and none otherwise; the walk returns the roll's owner |
| Npc.DecideMeaning | internal/npc/engine.go:26-63 | a fighter that is not stunned gets a real action and zone for exactly two draws, a stunned one gets nothing for none |
| Habits.DecisionsInNumbers | internal/npc/engine.go:26-63 | for either fighter and every combat state, each action and each zone is decided on for exactly its own share of the rolls, the shares given in numbers by the fighter's own tiredness and posture, the opponent's tiredness, legs and agility, and the momentum between them; a stunned fighter decides on nothing, without a roll |
| Habits.TiredFightersStrikeLess | internal/npc/engine.go:141-180 | on its feet with equal momentum, a tired fighter strikes for 26 rolls in 110 and a rested one for 34 in 100 |
| Habits.SharesArePositive | internal/npc/engine.go:175-178 | no action's share is ever cut below 1, so the floor on the weights never takes effect |
| Npc.Decide | internal/npc/engine.go:26-63 | the decision and the generator it leaves, and which error it gives |
| Slots.TakeoverMeaning | internal/matchmaking/service.go:969-999 | control has passed exactly after a disconnect or two timeouts in a row, and the streak is 1 only after a lone timeout |
| Slots.TakeoverIsFinal | internal/matchmaking/service.go:969-999 | control never returns to the human |
| Slots.FlagsStep | internal/matchmaking/service.go:969-999 | a slot's fields follow the takeover automaton |
| Slots.MatchSlot.ResolveInput | internal/matchmaking/service.go:969-999 | what each status does to the slot, its generator and the input |
| Slots.OrderReplies | internal/matchmaking/service.go:893-918 | replies are put in slot order exactly when each slot has one and none is foreign or repeated |
| Slots.CollectTurnInputs | internal/matchmaking/service.go:758-811 | each slot's contribution and both slots afterwards, which do not depend on the arrival order; only a cancelled human wait gives none |
| Lobby.Service.Register | internal/lobby/service.go:44-60 | which registrations are refused, and that a refused one changes nothing |
| Lobby.Service.Unregister | internal/lobby/service.go:62-68 | the player leaves the lobby and the queue |
| Lobby.Service.JoinQueue | internal/lobby/service.go:70-83 | a registered player is queued once, at the end, with the clock's time; joining again changes nothing |
| Lobby.Service.LeaveQueue | internal/lobby/service.go:85-94 | a registered player is removed and the others keep their order |
| Lobby.Service.PopNextPair | internal/lobby/service.go:114-148 | the timed-out players are exactly those who have waited for the timeout or longer, if there is one; they, the pair and the queue that is left share the old queue out in order, and those still waiting keep their times |
| Lobby.Service.QueueStatus | internal/lobby/service.go:158-180 | whether the player waits, one more than the players in front, and a waiting time that is never negative |
| Lobby.PopSharesOut | internal/lobby/service.go:114-148 | in whatever order players joined, a pop makes everyone in the queue timed out, paired or still waiting, nobody twice; timed out are exactly those who have waited for the timeout or longer, and both they and the others keep their order |
| Lobby.PopCutsTheQueue | internal/lobby/service.go:114-148 | with players waiting in joining order, a pop cuts the queue into timed-out players, pair and rest, in this order, with nobody lost |
| Lobby.ExpiredIsAPrefix | internal/lobby/service.go:121-138 | with players in joining order the timed-out ones are a prefix |
| Lobby.RunKeeps | internal/lobby/service.go:44-196 | over any run the queue has no duplicates, its members are exactly those with a queueing time, and all are registered |
| Lobby.RunStaysInOrder | internal/lobby/service.go:70-148 | with a clock that does not run backwards players always wait in joining order |
| Lobby.NobodyOvertakes | internal/lobby/service.go:62-148 | while a player waits only players who were in front are paired, and each pair brings the player two places forward |
| Reservations.MatchesAreExclusive | internal/matchmaking/service.go:228-409 | under every interleaving no player is held by two threads, the reserved players are exactly those held, and each reservation is released once |
| Reservations.EveryoneIsReleased | internal/matchmaking/service.go:283-285 | from any state the live threads can finish, and then nobody is reserved |
| Reservations.ThreadFinishes | internal/matchmaking/service.go:382-409 | a thread left to itself finishes and leaves the others alone |
| Reservations.StepBalances | internal/matchmaking/service.go:1101-1107 | a release only deletes reservations that are there, a reservation only adds free players |
| Reservations.PairIsDroppedExactly | internal/matchmaking/service.go:373-384 | a popped pair is reserved exactly when both are free, and is otherwise dropped without rejoining the queue |
| Calls.EnqueueAlone | internal/matchmaking/service.go:174-188 | undisturbed, an enqueue call is refused to exactly the players who are reserved and otherwise puts a registered player at the end of the queue, once |
| Calls.PractiseAlone | internal/matchmaking/service.go:228-285 | undisturbed, a practice call is refused to players without id or session and to reserved ones; otherwise the player is reserved and out of the queue while the practice lasts, and free afterwards |
| Calls.PairPlays | internal/matchmaking/service.go:383-409 | undisturbed, two free players with sessions are reserved and listed under both handles, and are unlisted and free again afterwards |
| Calls.PairIsSentBack | internal/matchmaking/service.go:390-399 | undisturbed, when a session is missing nobody plays: both are released and the one who is there rejoins the queue |
| Waiters.FatesHaveCauses | internal/matchmaking/service.go:318-409 | over every run a waiting player has left, timed out, been dropped or been placed exactly when a section of the run was the cause; dropped exactly when popped together with a player who is reserved when the pair is about to be, or being reserved themselves |
| Waiters.WaitingStep | internal/lobby/service.go:62-148 | a section takes a waiting player out of the queue exactly by leaving, timing out or pairing |
| Waiters.TakenStep | internal/matchmaking/service.go:373-384 | only the pair's own thread decides about a popped pair, and it drops it exactly when one of the two is reserved |
| Reservations.OverlapAppearsExactly | internal/matchmaking/service.go:174-188 | the sections, and states, in which a player becomes both queued and reserved |
| Reservations.ReservedPlayersCanBeQueued | internal/matchmaking/service.go:174-253 | a run after which a player practises and waits in the queue |
| Reservations.OpponentsCanBeDropped | internal/matchmaking/service.go:373-381 | a run after which a registered, waiting player has neither a place nor a match |
| Reservations.LookupStaysRight | internal/matchmaking/service.go:1182-1205 | a section keeps every handle lookup right exactly when it lists no match under a handle in use |
| Reservations.LookupsAreRight | internal/matchmaking/service.go:1182-1220 | with handles that differ in lower case every lookup of every run is right |
| Reservations.LowerCaseClash | internal/matchmaking/service.go:1182-1205 | a run in which a handle leads to another player's match, and then to none, while the match still runs |
| Reservations.FindIsExact | internal/matchmaking/service.go:1212-1219 | a player's handle, trimmed and lower-cased, leads to a match exactly when the player is in it |
| Reservations.Desk.ReserveForPractice | internal/matchmaking/service.go:236-247 | the section takes the protocol's step and says whether the player was free |
| Reservations.Desk.ReservePair | internal/matchmaking/service.go:373-385 | both players are reserved or neither |
| Reservations.Desk.ReleasePlayers | internal/matchmaking/service.go:1101-1107 | exactly the thread's players are released |
| Reservations.Desk.RegisterActiveMatch | internal/matchmaking/service.go:1182-1192 | the match is listed under its id and both handles |
| Reservations.Desk.UnregisterActiveMatch | internal/matchmaking/service.go:1194-1205 | the match and both handles are removed |
| Reservations.Desk.LookupActiveMatchByHandle | internal/matchmaking/service.go:1209-1219 | the listed match that a trimmed and lower-cased handle leads to, if any |
| RateLimit.TokenBucketLimiter.constructor | cmd/server/rate_limit.go:22-36 | the rate and the burst in numbers, with defaults for non-positive settings, fifteen minutes to live, and no buckets |
| RateLimit.TokenBucketLimiter.Allow | cmd/server/rate_limit.go:38-72 | buckets idle for longer than the time to live are dropped and the others kept; the key's own is filled up by what has flowed in since its last call, at most to the burst, and charged one token exactly when it holds one; a refused call costs nothing |
| RateLimit.SoloBound | cmd/server/rate_limit.go:50-71 | a bucket's grants inside any window are covered by what it can hold and what flows in |
| RateLimit.RunIsSolo | cmd/server/rate_limit.go:45-53 | when a burst fills up within the time to live, each key gets the answers of a bucket of its own that is never evicted |
| RateExact.SoloIsExact | cmd/server/rate_limit.go:50-71 | a bucket grants a call exactly when every window ending there stays within a burst and its flow: each refusal is forced by some window |
| RateExact.RefusalsAreForced | cmd/server/rate_limit.go:64-67 | for a refused call, a window that has no room for one more grant |
| RateLimit.EvictionIsUnnoticedExactly | cmd/server/rate_limit.go:38-72 | eviction is unobservable, and grants in every window are at most burst + rate * length, exactly when rate * ttl >= burst |
| RateExact.ExactlyWhenUnnoticed | cmd/server/rate_limit.go:38-72 | every call of every run is decided like this, by its own key's calls alone, exactly when rate * ttl >= burst |
| RateExact.ServerLimitersAreExact | cmd/server/ssh_server.go:94-96 | the server's three limiters refuse only what they must |
| RateLimit.BuiltLimiters | cmd/server/rate_limit.go:22-36 | for constructed limiters: exactly when burst <= 15 * limit per minute |
| RateLimit.ServerLimiters | cmd/server/ssh_server.go:94-96 | all three limiters of the server satisfy both |
| RateLimit.NoKeyNoGrant | cmd/server/rate_limit.go:39-41 | a call without a key is never granted |
| LineSplit.SplitCRLF | cmd/server/ssh_server.go:963-981 | the text before the first CR or LF, and how much to skip, two bytes for CR LF and one otherwise; at end of input the rest |
| LineSplit.Lines | cmd/server/ssh_server.go:301-302 | for every input and every way of cutting it into reads: tokens and line endings make up the input, and the non-empty tokens are its runs |
| LineSplit.SpansAreMaximal | cmd/server/ssh_server.go:963-981 | the listed stretches are exactly the maximal ones without CR or LF, in order |
| LineSplit.RunsAreSpans | cmd/server/ssh_server.go:963-981 | the runs are the bytes of those stretches |

## Left out

- Storage, SSH transport, menus, tutorial prompts, input sanitising and configuration: input/output around the modelled core. A turn's input is an arbitrary arrival (a command, a timeout, a disconnect, a cancellation).
- Rendering and cinematic delays: modelled only as going through or being cancelled.
- Ranking (Glicko-2), anti-bot metrics and utility scores: floating-point formulas.
- The spectator hub: delivery order is not settled by the code; only the lookup of the active match is modelled.
- `queueJoinedAt` and all telemetry: they do not influence matches.
- `runNPCMatch` and `RunTutorial`: the practice loop is the match loop with one slot in the computer's hands from the start and nothing recorded; its reservation is in `Reservations`, its turns are not repeated.
- `seedForPair`, `pickArchetype` and match ids: seeds and archetypes are arbitrary parameters, a match is identified with the thread that plays it.
- Real time and goroutine scheduling: times are parameters, and concurrency is an arbitrary interleaving of critical sections.
- Go's 64-bit `int` outside the hashed fields: turn counters are unbounded; in reachable states every other number is shown to be small.
- Values of Go's `State` type outside its constants: the program never writes them.
- Resolver.ResolveTurn: takes the deterministic generator, not an arbitrary random source; a nil resolver and an input for a player that is in neither slot (which canonical inputs exclude) are not modelled.
- Reservations.After: a registration step stands for one whose handle has been checked, a new call gets a thread number that is not in use, and the handle map is fixed; the maps are updated in place in `Reservations.Desk`, and the interleaving is stated on values.
- Reservations.FindIsExact: takes the handle as already trimmed and lower-cased, because string cleaning is not modelled; the handles that matches are listed under are only lower-cased by the source, and the configured user names they come from carry no surrounding blanks.
- Reservations.Desk.LookupActiveMatchByHandle: takes the handle as already trimmed and lower-cased, where the source does both first.
- RateLimit.TokenBucketLimiter.Allow: tokens and seconds are real numbers, so float64 rounding and the saturation of time differences are not captured; calls are taken one at a time, in lock order.
- LineSplit.Lines: the scanner's buffer limit and its limits on empty reads and empty tokens are not modelled, so no input is ever too long.
- Lobby.Service.PopNextPair: the loop that filters the queue builds a new sequence, so the reuse of the old slice's memory is not captured.
- Slots.CollectTurnInputs: the two waits are given by how they end and which ends first, not by channels and timers.
