# A verified model of the war simulation's combat engine

This project models a turn-based war between four combatants and three deities.

- **Combatants.** Each combatant has health, mana, stamina and karma. It also has potions and a weighted menu of actions and attacks. Three archetypes change how a turn is played:
  - the Mechanist, with heat and two cooldowns;
  - the Intern, with caffeine and panic;
  - the Priest, who prays to the deities.
- **Deities.** Brahma heals, Vishnu blesses and Shiva inflicts decay. Each is gated by a cooldown and an energy reserve.
- **Cosmic events.** At the start of each turn, one of five events resets and then modifies the two primary combatants.
- **Turn loops.** The war engine's `step` and the command-line driver's loop play turns until at most one combatant stands or the turn limit is reached.

Three smaller pieces sit beside the engine:
- the narration-line classifier of the notes logger;
- the early integer duel of `warsim/entitywar.py`;
- the event summariser and memory of the awareness module.

Every random draw is a parameter. Its range is a precondition: the uniform draw of a weighted choice, the noise of a heal, a cooldown in 1..3, an index into a list of candidates.

Stateful entities are classes whose methods update fields in place: combatants, deities, the war engine, the duel fighters and the memory. Each method of a combatant, a deity, a duel fighter or the memory states its whole new state. It does so either directly or through a function or predicate on values (`Resolve`, `Effect`, `Blessed`, `Pray`, `PlainTurn`, `BrahmaActed`, `Turn`, `RunDuel`, `Recent`). The passes of a round state the same on the vitals of the whole cast (`PassPlayed`, `DeitiesActed`, `SharedActed`, `TradeDone`). The properties the source promises are proved about those functions and predicates as lemmas. The members that play a whole round or the whole war state less, and "## Left out" lists them.

## Modules

| file | module | what it holds |
|---|---|---|
| `wrappers.dfy` | `Wrappers` | `Option` |
| `combatants.dfy` | `Combatants` | `Entity`, its stats, role, inventory, menus, potions and trades; `WeightedChoice` |
| `attack_types.dfy` | `AttackTypes` | the four attacks, on values (`Resolve`) and on entities |
| `entity_turns.dfy` | `EntityTurns` | `Entity.take_turn` |
| `mechanists.dfy` | `Mechanists` | the Mechanist's turn, EMP pulse, overdrive and cooldowns |
| `interns.dfy` | `Interns` | the Intern's turn and panic |
| `priests.dfy` | `Priests` | the Priest's prayer |
| `gods.dfy` | `Gods` | the priority score; `Brahma`, `Vishnu` and `Shiva` |
| `cosmic_events.dfy` | `CosmicEvents` | the five events and `apply_event` |
| `battle.dfy` | `Battle` | the phases both turn loops share, and the closing verdict |
| `war_engine.dfy` | `Wars` | `WarEngine` |
| `orchestrator.dfy` | `Orchestration` | the `run_simulation` loop |
| `notes_logger.dfy` | `NotesLogger`, `NotesLoggerFinding` | `_parse_message` and the finding below |
| `entitywar.dfy` | `EntityWar` | the integer duel |
| `awareness.dfy` | `Awareness` | the recency filter of `reflect`, `_summarize_events`, and `remember`/`recall` |

## Model

| member | source | states |
|---|---|---|
| Combatants.WeightedChoice | entity.py:4-12 | The choice is the label of some entry k. Every running total before k is below the draw r. Either r is within the total up to k, or k is the last entry and r exceeds the whole total. |
| Combatants.Entity.constructor | entity.py:15-62 | A new combatant starts at full health, mana and stamina, with its base modifiers and the inventory 2/2/1/1. |
| Combatants.Entity.IsAlive | entity.py:160-161 | An entity is alive exactly when the health in its vitals is above 0, so one floored at 0 by take_damage has fallen. |
| Combatants.Entity.RecoverStamina | entity.py:70-71 | Stamina becomes min(stamina + amount, max_stamina) and nothing else changes. A non-negative amount never lowers stamina that is within the cap. |
| Combatants.Entity.ResetModifiers | entity.py:73-76 | Attack, accuracy and evasion return to their bases. Defense keeps its defend bonus. For an Intern in panic, panic ends and caffeine is set to 100 (intern.py:42-47). A Mechanist's heat is kept. |
| Combatants.Entity.EndPanic | intern.py:42-47 | Panic is cleared and caffeine set to 100, and nothing else changes. |
| Combatants.Entity.Rest | entity.py:78-83 | Stamina and mana rise by their draws, each capped at its maximum, and nothing else changes. |
| Combatants.Entity.TakeDamage | entity.py:85-90 | The returned damage is max(damage − defense, 0). Health drops by exactly that amount, floored at 0. |
| Combatants.Entity.Heal | entity.py:92-98 | Health rises by min(healing_ability, max_health − health) and never exceeds the maximum. Karma rises by 5, the heal counter by 1, and stamina by a capped 15. For a Mechanist, only stamina changes (mechanist.py:64-67). |
| Combatants.Entity.MechanistHeal | mechanist.py:64-67 | Health is untouched, and stamina rises by a capped 20. |
| Combatants.Entity.Defend | entity.py:100-103 | Defense rises by 5 and stamina falls by 5. |
| Combatants.Entity.AttackMenu | entity.py:106-114 | The menu holds exactly the attacks the entity's stamina and mana allow, with their weights. |
| Combatants.Entity.ChooseAttack | entity.py:105-117 | The result is an allowed attack, or rest exactly when no attack is allowed. |
| Combatants.Entity.ActionMenu | entity.py:120-135 | The menu is never empty and never offers defend. It holds exactly the allowed actions, with their weights. |
| Combatants.Entity.ChooseAction | entity.py:119-136 | The action is allowed and never defend. Heal is chosen only below 40% health, and rest only below 10 stamina. |
| Combatants.Entity.UseHealthPotion | entity.py:182-189 | With no potion, nothing changes. Otherwise one potion is spent and health rises by min(30, max − health). |
| Combatants.Entity.UseManaPotion | entity.py:191-198 | With no potion, nothing changes. Otherwise one potion is spent and mana rises by min(25, max − mana). |
| Combatants.Entity.UseStaminaBoost | entity.py:200-207 | With no boost, nothing changes. Otherwise one boost is spent and stamina rises by min(20, max − stamina). |
| Combatants.Entity.ProposeTrade | entity.py:164-170 | True exactly when the proposer holds every offered quantity and the other holds every requested one. It changes nothing. |
| Combatants.Entity.AcceptTrade | entity.py:172-179 | Each item moves between the two inventories by the offered and requested quantities. Each item's combined count is preserved, and no other stat changes. |
| Combatants.Entity.Receive | entity.py:173-178 | The receiver gains, and the giver loses, exactly the listed quantities of each item. |
| AttackTypes.VariableDamage | warsim/attack_types.py:4-6 | The damage is max(0, base + noise). It is never negative. |
| AttackTypes.FatigueMultiplier | warsim/attack_types.py:8-10 | The multiplier lies in [0.5, 1] whenever stamina is within [0, max]. It is 1 at full stamina and 0.5 at none. |
| AttackTypes.StaminaCost | warsim/attack_types.py:35-95 | Each attack costs between 0 and 20 stamina; only the magic attack costs none. |
| AttackTypes.ManaCost | warsim/attack_types.py:95-100 | Only the magic attack costs mana, and every attack costs stamina or mana. |
| AttackTypes.HitKarma | warsim/attack_types.py:48-108 | A hit always costs more karma than a miss of the same attack. |
| AttackTypes.MissKarma | warsim/attack_types.py:43-103 | A miss costs between 1 and 4 karma. |
| AttackTypes.CheckResources | warsim/attack_types.py:20-27 | The gate passes exactly when the attacker has the attack's stamina and mana, so paying never drives either below 0; an attacker whose mana has gone negative cannot attack at all. |
| AttackTypes.HitChance | warsim/attack_types.py:41-101 | Normal and magic compare accuracy with evasion; quick never lowers a non-negative chance; heavy never raises it, and equals the plain chance at full fatigue multiplier. |
| AttackTypes.AttackDamage | warsim/attack_types.py:46-106 | Magic deals the special damage; no other attack deals negative damage; fatigue only reduces heavy damage; quick deals at most the attack stat. |
| AttackTypes.Resolve | warsim/attack_types.py:37-110 | A hit passed the gate; the attacker changes only in stamina, mana and karma, and the defender only in health. |
| AttackTypes.RefusedChangesNothing | warsim/attack_types.py:20-27 | check_resources fails exactly when the attack returns False and changes neither party. |
| AttackTypes.CostPaidUpFront | warsim/attack_types.py:40-41 | An accepted attack pays its stamina or mana cost and never refunds it. Both resources stay at least 0. Only stamina, mana and karma of the attacker change. |
| AttackTypes.KarmaAccounting | warsim/attack_types.py:42-50 | It hits exactly when affordable and the roll is within the hit chance. A miss costs 2/3/1/4 karma and leaves the defender untouched. A hit costs 5/7/3/5 karma and changes only the defender's health, through take_damage. |
| AttackTypes.DamageOnHit | warsim/attack_types.py:60-66 | Quick deals exactly 0.75 × attack and magic exactly special_attack_damage. Normal is never negative. Heavy deals between half and all of its varied damage. |
| AttackTypes.MenuMatchesGate | entity.py:106-114 | The attack menu offers a stamina attack exactly when check_resources accepts it, while mana is not negative. Magic is offered only when the gate accepts it, if the entity's mana cost is at least 25. |
| AttackTypes.NormalApply | warsim/attack_types.py:37-50 | The outcome and both parties' new states are `Resolve` for the normal attack. |
| AttackTypes.HeavyApply | warsim/attack_types.py:57-70 | The outcome and both new states are `Resolve` for the heavy attack. Fatigue is taken after paying 20 stamina. |
| AttackTypes.QuickApply | warsim/attack_types.py:77-90 | The outcome and both new states are `Resolve` for the quick attack. |
| AttackTypes.MagicApply | warsim/attack_types.py:97-110 | The outcome and both new states are `Resolve` for magic, at a fixed 25 mana. |
| AttackTypes.Apply | entity.py:57-62 | The attack the action names is applied, as `Resolve` says. |
| EntityTurns.Recovered | entity.py:70-71 | Stamina is capped at max_stamina and never lowered by a non-negative amount. Nothing else changes. |
| EntityTurns.ItemNeeded | entity.py:139-147 | A health potion is used exactly when health < 40 and one is held. Otherwise a mana potion is used when mana < 30, or a stamina boost when stamina < 20. A karma scroll is never used, and nothing is used when no rule applies. |
| EntityTurns.TakeTurn | entity.py:138-158 | At most one item is used, as `ItemNeeded` says; otherwise an allowed non-defend action is played. Each branch's new state is stated in full. The opponent changes only under an attack, and stamina ends within its cap. |
| Mechanists.TickCooldowns | mechanist.py:47-50 | The keys are kept, and each positive cooldown drops by 1. |
| Mechanists.Tick | mechanist.py:49-50 | A cooldown never rises, a running one drops by exactly 1, and a non-negative one stays non-negative. |
| Mechanists.TickKeepsCooldownsInRange | mechanist.py:35-50 | A cooldown in [0, 4] is in [0, 3] after a tick, so every cooldown is in [0, 3] after any turn. |
| Mechanists.EmpPulseOn | mechanist.py:54-55 | The opponent's mana becomes max(0, mana − 20), and nothing else changes. |
| Mechanists.OverdriveOn | mechanist.py:58-61 | The opponent takes 40 + 0.2 × heat through take_damage, and heat is reset to 0. |
| Mechanists.MechanistTakeTurn | mechanist.py:30-52 | Overdrive fires exactly when health < 40 and its cooldown is 0, dealing 40 + 0.2 × (heat + 5). Otherwise EMP fires exactly when the opponent has mana and its cooldown is 0. Otherwise an attack or a rest is played. Cooldowns end at 3/2 or ticked. Health and inventory are untouched, and stamina ends within its cap. |
| Mechanists.MechanistAct | mechanist.py:33-50 | The choice and state change of the Mechanist's turn, before heat is added and stamina recovered. |
| Mechanists.AttackOrRest | mechanist.py:40-45 | A chosen attack is applied as `Resolve` says. A non-attack choice becomes a rest. |
| Mechanists.TickRole | mechanist.py:47-50 | Each cooldown is ticked, heat is kept, and nothing else changes. |
| Interns.AfterPanic | intern.py:20-25 | Panic engages exactly when caffeine < 30 and panic is off, and the boost applies only then. Its +20 stamina is added without a cap. |
| Interns.PanicBoostOnce | intern.py:20-24 | Entering panic twice is the same as entering it once. |
| Interns.PanicStaminaUncapped | intern.py:25 | A full-stamina Intern entering panic ends above max_stamina. |
| Interns.Drained | intern.py:40 | Caffeine becomes max(0, c − d). It stays in [0, 100] and never rises. Nothing else changes. |
| Interns.EnterPanic | intern.py:20-25 | The new state is `AfterPanic` of the old one. |
| Interns.InternTakeTurn | intern.py:12-40 | It forgets exactly when the draw is below 0.1, and then only a capped +5 stamina happens. Otherwise panic may engage, and it heals below 0.2, rests below 0.4, or else attacks or hesitates. Caffeine ends at max(0, c − d). Every branch's state is stated in full. |
| Interns.InternAct | intern.py:28-38 | Heal below 0.2, rest below 0.4, otherwise an allowed attack. When choose_attack yields rest, nothing changes. |
| Priests.Answering | priest.py:22-44 | Brahma answers if able. Otherwise Vishnu answers if able. Otherwise Shiva answers, if able and the target's karma is below 40. |
| Priests.Pray | priest.py:9-49 | The prayer changes only mana, karma and cooldown: it costs at most 20 mana, never costs karma, and the priest stays a priest. |
| Priests.PrayerGates | priest.py:10-17 | With a cooldown, only the cooldown drops by 1. Off cooldown with mana < 20, nothing changes. |
| Priests.PrayerAccounting | priest.py:19-49 | Otherwise 20 mana is paid whatever happens. The answering deity gives +10/+8/+5 karma, and success sets the cooldown to 3. |
| Priests.ShownDeitiesNeverAnswer | priest.py:24-44 | None of the deity classes has the probed capability, so an able prayer costs 20 mana and does nothing else. |
| Priests.Ability | priest.py:9-49 | The Priest's new state is `Pray` of the old one. |
| Gods.PriorityScore | gods/brahma.py:4-9 | For health within [0, max] the score lies between karma / 200 and 1.3 + karma / 200, and an unhurt entity scores exactly karma / 200. |
| Gods.Score | gods/brahma.py:4-9 | The same bounds for an entity in its current state. |
| Gods.WoundedScoreHigher | gods/brahma.py:4-9 | At equal karma, the more wounded candidate scores strictly higher. |
| Gods.KarmaScoreHigher | gods/brahma.py:4-9 | At equal health, higher karma scores strictly higher. |
| Gods.WoundedAreWorthy | gods/brahma.py:4-9 | With karma ≥ 0, a candidate at ≤ 60% health scores at least the 0.4 threshold, and one below 20% scores above 1.1. |
| Gods.FallenCanRise | gods/brahma.py:29-36 | A candidate at 0 health with karma ≥ −180 passes the threshold and is healed to positive health. |
| Gods.FirstWins | gods/brahma.py:25-27 | The first candidate is chosen unless the second scores strictly higher. |
| Gods.CooledDown | gods/brahma.py:21-23 | The cooldown becomes max(cooldown − 1, 0). |
| Gods.HealedHealth | gods/brahma.py:33-36 | The healed health never exceeds the maximum, and the gain never exceeds the amount. |
| Gods.BlessingSign | gods/vishnu.py:25-34 | The blessing factor is ≥ 0 for karma ≥ −40 and negative below −60. |
| Gods.BlessingFactor | gods/vishnu.py:25-34 | For a draw within ±0.1 the factor lies within 0.1 of 0.5 + karma / 100; at karma 50 or more and a non-negative draw it is at least 1. |
| Gods.Blessed | gods/vishnu.py:24-41 | Below half health only health changes; otherwise only mana changes. Each is capped at its maximum. |
| Gods.BlessingDirection | gods/vishnu.py:25-40 | For karma ≥ −40 a blessing never lowers health or mana. Below −60 karma, a wounded target loses health and Vishnu's energy rises. |
| Gods.Decay | gods/shiva.py:22-23 | The decay is at least 5, and at least 10 + 0.2 × (50 − karma) + u. |
| Gods.DecayCostsEnergy | gods/shiva.py:27-28 | Each decay strictly lowers Shiva's energy when the multiplier is positive. |
| Gods.BrahmaAccountsForHealing | gods/brahma.py:20-44 | Over one intervention, the health-restored counter grows by exactly the health the two candidates gained. Nobody loses health, at most one candidate changes and only in health, and no one passes their maximum. Energy never rises, and a counted intervention sets the drawn cooldown. |
| Gods.VishnuAccountsForBlessing | gods/vishnu.py:15-44 | Over one intervention, the healed and granted counters grow by exactly the health and mana the two candidates gained. At most one candidate changes, and only in health and mana. For karma at least −40, nobody loses either. |
| Gods.ShivaOnlyHarms | gods/shiva.py:14-32 | Nobody gains health, at most one candidate changes and only in health, and the health lost is at most the decay recorded. When Shiva is ready, exactly the candidate with strictly lower karma (else the second) is struck. At least 5 decay is recorded, and energy falls when the multiplier is positive. |
| Gods.Brahma.constructor | gods/brahma.py:12-18 | Brahma starts with 100 energy, no cooldown and zero counters. |
| Gods.Brahma.InfluenceBattle | gods/brahma.py:20-44 | On cooldown or without energy, only the cooldown ticks. Otherwise the higher scorer is chosen, with ties to c1. A best score below 0.4 changes nothing. Otherwise the target is healed by at most 20 + u, capped. Energy drops by heal × 0.2 × multiplier, the counters grow, and the cooldown is the drawn 1..3. |
| Gods.Brahma.HealTarget | gods/brahma.py:33-44 | The target's health rises by 20 + u, capped at its maximum. The energy pays 0.2 per point actually healed, times the multiplier. The counters grow and the cooldown is the drawn one, as `BrahmaHealed` says. |
| Gods.Vishnu.constructor | gods/vishnu.py:6-13 | Vishnu starts with 120 energy, no cooldown and zero counters. |
| Gods.Vishnu.InfluenceBattle | gods/vishnu.py:15-44 | The same gate, then the higher scorer (ties to c1) is `Blessed`. The healed and granted totals grow by what was given, energy drops by its cost, and the cooldown is the drawn 1..3. |
| Gods.Vishnu.Bless | gods/vishnu.py:24-41 | The target becomes `Blessed`, and the totals and energy account for exactly what was given. |
| Gods.Shiva.constructor | gods/shiva.py:6-12 | Shiva starts with 90 energy, no cooldown and zero counters. |
| Gods.Shiva.InfluenceBattle | gods/shiva.py:14-32 | The same gate, then c1 is the target iff its karma is strictly lower (ties to c2). Decay goes through take_damage, but the total records it before defense. Energy drops by decay × 0.05 × multiplier. |
| CosmicEvents.CatalogueIsComplete | cosmic_event.py:61-68 | The catalogue lists each of the five events exactly once. |
| CosmicEvents.Effect | cosmic_event.py:17-58 | Each event changes only its own stats. Only Alignment and Drought touch attack and mana, only Winds touches accuracy and evasion, and only Flux touches stamina. Mana never rises above its cap. |
| CosmicEvents.Reset | entity.py:73-76 | The reset restores attack, accuracy and evasion, ends an Intern's panic (intern.py:42-47), and keeps every other stat. |
| CosmicEvents.Multiplier | cosmic_event.py:47-50 | An Astral Surge sets the cost multiplier to 0.5; every other event keeps it. |
| CosmicEvents.MultiplierAfter | cosmic_event.py:47-50 | After any sequence of events the multiplier is either the starting one or 0.5, and once 0.5 it stays 0.5. |
| CosmicEvents.SurgeIsPermanent | cosmic_event.py:47-50 | After any sequence of events, the cost multiplier is 0.5 iff an Astral Surge occurred; otherwise it is unchanged. |
| CosmicEvents.ModifiersLastOneTurn | cosmic_event.py:70-72 | The next reset undoes an event's attack, accuracy and evasion changes. Mystic Winds leaves no trace at all. |
| CosmicEvents.DroughtDrivesManaNegative | cosmic_event.py:28-31 | Drought subtracts 5 mana with no floor, so mana below 5 becomes negative. |
| CosmicEvents.ApplyAlignment | cosmic_event.py:17-21 | Both primaries become `Effect` of Celestial Alignment. |
| CosmicEvents.ApplyDrought | cosmic_event.py:27-31 | Both primaries become `Effect` of Cosmic Drought. |
| CosmicEvents.ApplyWinds | cosmic_event.py:37-41 | Both primaries become `Effect` of Mystic Winds. |
| CosmicEvents.ApplySurge | cosmic_event.py:47-50 | All three cost multipliers become 0.5. |
| CosmicEvents.ApplyFlux | cosmic_event.py:56-58 | Both primaries become `Effect` of Temporal Flux. |
| CosmicEvents.ApplyEvent | cosmic_event.py:70-84 | The event is the drawn catalogue entry. Both primaries are reset and then take its `Effect`, and the multipliers change only under Astral Surge. |
| Battle.Living | war_engine.py:65 | The result holds exactly the living members of the cast. |
| Battle.Others | war_engine.py:89 | The result holds exactly the living members other than the given one. |
| Battle.Choose | war_engine.py:91 | The drawn candidate is one of the candidates. |
| Battle.ActorTurn | war_engine.py:92 | The turn is the one the actor's archetype plays, as `TurnTaken` says: the Mechanist's turn, the Intern's turn, or the plain turn of `Entity.take_turn` for the others. Both new states are stated in full. The move is one that archetype can make, and no archetype changes. |
| Battle.EntityPhase | war_engine.py:86-92 | Slot by slot in list order, as `PassPlayed` records, each slot starting from the state the previous one left. A combatant acts exactly when it is alive at its slot and another combatant is. Its opponent is the one the draw picks among the living others, in list order. The two change as the turn says, or, on a prayer turn, as the Priest's prayer says (orchestrator.py:197-200), and everyone else keeps their vitals. A combatant fallen when the pass begins never acts and is unchanged. |
| Battle.ActInSlot | war_engine.py:87-92 | As `SlotPlayed` says: the actor acts exactly when it is alive and some other combatant is. The opponent is `Choose` of the living others with the slot's draw. The two change as the turn or the prayer says, and every other combatant keeps its vitals. Nothing changes when the actor does not act. |
| Battle.CastPass | war_engine.py:86-92 | The pass over a cast with a round's draws is played as `PassPlayed` says, and the cast stays a cast. |
| Battle.PlaySlots | war_engine.py:86-92 | The loop plays every slot in list order, each from the state the previous one left, and records the pass as `PassPlayed` says. |
| Battle.PlaySlot | war_engine.py:87-92 | One iteration extends the record of the pass by the slot it plays. |
| Battle.ActAgainst | orchestrator.py:197-200 | On a prayer turn the Priest prays for its opponent, as `Pray` says, and the opponent is unchanged. Otherwise the actor takes its turn, as `TurnTaken` says. Only the two change. |
| Battle.TurnAgainst | war_engine.py:92 | The actor takes its own turn against the opponent, as `TurnTaken` says, and only the two change. |
| Battle.PassSparesTheFallen | war_engine.py:87-92 | Over a whole pass, a combatant fallen when the pass begins never acts and ends with its vitals unchanged. A combatant acts exactly when it found an opponent, and that opponent is another member of the cast. |
| Battle.FallenKeepVitals | war_engine.py:87-89 | A combatant fallen when the pass begins keeps its vitals through every slot. |
| Battle.OthersAtSnapshots | war_engine.py:89 | The living others are determined by the combatants' current vitals alone. |
| Battle.TradePhase | war_engine.py:101-110 | A trade happens exactly on a multiple of 5 when entity1 is below 50 health with no health potion, entity2 has one, and entity1 has a mana potion. It swaps one mana potion for one health potion, preserving each item's total. Otherwise nothing changes. |
| Battle.TradeQuantities | war_engine.py:107-108 | The offer is one mana potion and the request one health potion. |
| Battle.EventPhase | war_engine.py:76-84 | The event is the drawn catalogue entry, and the cast stays valid. |
| Battle.TradeRound | war_engine.py:101-110 | As `TradeDone` says: the trade happens exactly on a multiple of 5 when entity1 is below 50 health with no health potion, entity2 has one, and entity1 has a mana potion. It swaps one mana potion for one health potion, and otherwise nothing changes. No archetype changes. |
| Battle.VerdictNamesSoleSurvivor | war_engine.py:114-119 | A win names the one combatant alive. The stalemate text is given only when the number alive is not 1. |
| Battle.Verdict | war_engine.py:114-119 | A win is announced exactly when one combatant is alive, naming it and the turn; when all have fallen it is the stalemate. |
| Wars.DivineInterventions | war_engine.py:94-99 | The candidates are the living combatants other than entity1, listed once. When there are none, no deity acts and nothing changes. Otherwise Brahma, Shiva and Vishnu, in that order, each act on entity1 and the candidate their own draw picks, as `DeitiesActed` chains their effects through the intermediate vitals. No role changes. |
| Wars.PickCandidates | war_engine.py:97-98 | Each deity's candidate is `Choose` of the list with that deity's draw, and none of them is entity1. |
| Wars.ThreeInterventions | war_engine.py:96-99 | Brahma, then Shiva, then Vishnu act, each on entity1 and its own candidate, as `DeitiesActed` says. |
| Wars.BrahmaIntervenes | war_engine.py:98-99 | Brahma acts on entity1 and its candidate as `BrahmaActed` says, and every other combatant keeps its vitals. No role changes. |
| Wars.ShivaIntervenes | war_engine.py:98-99 | Shiva acts on entity1 and its candidate as `ShivaActed` says, and every other combatant keeps its vitals. No role changes. |
| Wars.VishnuIntervenes | war_engine.py:98-99 | Vishnu acts on entity1 and its candidate as `VishnuActed` says, and every other combatant keeps its vitals. No role changes. |
| Wars.PlayTurn | war_engine.py:76-110 | One turn plays the event, the combatants, the deities and the trade, and reports the drawn event. |
| Wars.WarEngine.constructor | war_engine.py:20-43 | A new engine is at turn 0 with no event and holds the four combatants in order. |
| Wars.WarEngine.IsOver | war_engine.py:64-66 | The war goes on exactly while the turn is below max_turns and at least two combatants are alive; so the turn limit ends it, everyone falling ends it, and while it goes on someone is alive. |
| Wars.WarEngine.Step | war_engine.py:68-121 | A finished engine plays nothing and changes nothing. Otherwise the turn grows by exactly 1 and stays within max_turns. The closing verdict is given exactly when the war is then over. |
| Orchestration.Favoured | orchestrator.py:202 | The favoured one is entity1 or entity2, and entity1 exactly when the draw is below 0.6. |
| Orchestration.DivineRound | orchestrator.py:202-208 | The favoured one is drawn, and the target is drawn among the living others. If there is none, nothing changes. Otherwise Brahma, Vishnu and Shiva act in that order on the same pair, as `SharedActed` chains their effects from the pair's old vitals to the new ones. No one else changes. |
| Orchestration.SharedIntervention | orchestrator.py:206-208 | Brahma, then Vishnu, then Shiva act on the same pair, as `SharedActed` says, through the pair's vitals after each deity. No role changes. |
| Orchestration.PlayRound | orchestrator.py:189-219 | One turn of the loop keeps the cast and deities valid. |
| Orchestration.RunSimulation | orchestrator.py:182-232 | The loop stops after at most max_turns turns, when at most one combatant stands or the limit is reached. The closing message is the verdict. |
| NotesLogger.Strip | orchestrator.py:71 | The stripped line is the middle slice with no whitespace at either end, and everything cut off is whitespace. |
| NotesLogger.StripIsIdempotent | orchestrator.py:71 | Stripping twice is stripping once. |
| NotesLogger.FindFrom | orchestrator.py:77 | The first occurrence of the pattern at or after j, or None when there is none. |
| NotesLogger.SplitSource | orchestrator.py:77-78 | With ": " present, the source and rest rejoin with ": " to the line. Otherwise there is no source and the line is kept. |
| NotesLogger.SourceHasNoSeparator | orchestrator.py:78 | The source never contains ": ", so the split is at the first one. |
| NotesLogger.Classify | orchestrator.py:80-85 | "cosmic_event" exactly for the banner prefix. Otherwise "divine" exactly for a deity source. Otherwise "damage" exactly when the text contains "takes" and "damage", and "log" in every other case. |
| NotesLogger.FirstWord | orchestrator.py:88 | The first word is a prefix with no space, followed by a space or by the end. |
| NotesLogger.SearchTagged | orchestrator.py:92-94 | A match at the leftmost start, with the shortest target. None when the pattern matches nowhere. |
| NotesLogger.SearchDamage | orchestrator.py:95 | The leftmost "takes <number> damage", or None. |
| NotesLogger.TaggedHit | orchestrator.py:92-94 | Some exactly when the pattern matches, with a non-empty target and a numeral value. |
| NotesLogger.DamageHit | orchestrator.py:95 | Some exactly when the damage pattern matches, with no target. |
| NotesLogger.FirstHit | orchestrator.py:92-100 | A match always carries a numeral; a target, when present, is not empty; a heal match always yields a target. |
| NotesLogger.FirstHitOrder | orchestrator.py:97-100 | The heal pattern wins. A target is set exactly when one of the first three patterns matches. The damage pattern decides only when none of them matches, and no value is found only when nothing matches. |
| NotesLogger.FloatAccepts | orchestrator.py:101 | float() accepts a matched numeral only when it is non-empty with at most one dot; any run of digits is accepted, and a run of dots alone is rejected. |
| NotesLogger.ParseMessage | orchestrator.py:70-103 | A target always comes with a value, "divine" always has a deity source, and every value is text that float accepts. |
| NotesLogger.ParseRest | orchestrator.py:87-103 | The kind is kept. A known source is kept; with none, a deity's first word becomes the source. Target and value are those of the first pattern that matches, and both are absent when none matches. Parsing fails exactly when the first match's value is not a float. |
| NotesLogger.GodPrefixIsDivine | orchestrator.py:82 | A line "<deity>: ..." not starting with the banner is classified "divine" with that source. |
| NotesLogger.OneSeparatorHidesManaAndDecay | orchestrator.py:93-94 | When a line holds exactly one ": ", the mana and decay patterns can never match, because the split consumed it. |
| NotesLoggerFinding.BannerLineIsNeverCosmic | orchestrator.py:80 | As written, the banner line printed by cosmic_event.py:75 is never classified "cosmic_event". |
| NotesLoggerFinding.ParseMessageBannerFirst | orchestrator.py:70-103 | The banner test on the whole stripped line: a banner line is cosmic, and every other line parses as before. |
| NotesLoggerFinding.BannerLineIsCosmic | orchestrator.py:80 | With the banner checked first, the banner line is classified "cosmic_event". |
| EntityWar.Damaged | warsim/entitywar.py:15-16 | Health never rises, is unchanged when defense absorbs the blow, and has no floor. |
| EntityWar.TurnBounds | warsim/entitywar.py:38-47 | A turn never raises the opponent's health or changes its mana. It never drives non-negative mana below 0, and only a heal raises the actor's health. |
| EntityWar.Turn | warsim/entitywar.py:38-47 | The opponent keeps its mana and never gains health; the actor's mana changes only by paying for an affordable special; an actor below 30 health leaves the opponent untouched. |
| EntityWar.Round | warsim/entitywar.py:56-61 | The counter advances. The fighter that does not act on this turn's parity gains no health and keeps its mana. |
| EntityWar.RunDuel | warsim/entitywar.py:54-61 | The duel stops early only when a fighter is down. |
| EntityWar.ScriptedDuel | warsim/entitywar.py:50-73 | The scripted duel ends after 7 turns, at 30/10 and −10/70. |
| EntityWar.Fighter.constructor | warsim/entitywar.py:5-13 | The fighter holds the given stats. |
| EntityWar.Fighter.IsAlive | warsim/entitywar.py:35-36 | A fighter is alive exactly when its health is above 0; one at or below 0 has fallen. |
| EntityWar.Fighter.TakeDamage | warsim/entitywar.py:15-16 | Health drops by max(damage − defense, 0), with no floor. |
| EntityWar.Fighter.Heal | warsim/entitywar.py:18-19 | Health rises by healing_ability, with no cap. |
| EntityWar.Fighter.AttackOpponent | warsim/entitywar.py:21-24 | Only the opponent changes, losing max(attack − defense, 0). |
| EntityWar.Fighter.SpecialAttack | warsim/entitywar.py:26-33 | When affordable (mana ≥ cost and health ≥ 10), it pays both and damages the opponent. Otherwise nothing changes, so mana never goes negative. |
| EntityWar.Fighter.TakeTurn | warsim/entitywar.py:38-47 | Both fighters end as `Turn` says: heal below 30, else special if affordable, else a plain attack. |
| EntityWar.Duel | warsim/entitywar.py:54-73 | The fighters end as `RunDuel` says. Entity1 acts on odd turns and entity2 on even ones. The winner is entity1 exactly when it is alive. |
| EntityWar.Script | warsim/entitywar.py:50-73 | The script's winner is Entity1, after 7 turns. |
| Awareness.Newest | warsim/Awareness.py:106 | The last min(500, n) lines. |
| Awareness.Recent | warsim/Awareness.py:107-113 | A record is kept exactly when it is readable and its timestamp is at or after the cutoff; a missing timestamp reads as now. |
| Awareness.Cutoff | warsim/Awareness.py:104 | The current time is at or after the cutoff exactly when the look-back is not negative, so a record stamped now is recent only then. |
| Awareness.Keeps | warsim/Awareness.py:107-113 | Only a readable record with a usable timestamp is kept, and exactly when its time (the current time when it has none) is at or after the cutoff. |
| Awareness.RecentRecords | warsim/Awareness.py:104-113 | The loop keeps exactly `Recent` of the newest 500 lines, at most 500 of them, and each kept record is within the window. |
| Awareness.FirstAppearances | warsim/Awareness.py:126-128 | The event types, each once, in first-appearance order. A missing type counts as "unknown". |
| Awareness.CountTypes | warsim/Awareness.py:126-128 | The dictionary's keys, in insertion order, are the first appearances, and each count is the type's number of occurrences. |
| Awareness.Total | warsim/Awareness.py:126-129 | The sum of the counts of the given names; over no events it is 0. |
| Awareness.CountsSumToTotal | warsim/Awareness.py:126-129 | The per-type counts sum to the number of events. |
| Awareness.TotalOverCover | warsim/Awareness.py:126-129 | Counts over any distinct list of names covering every event sum to the number of events. |
| Awareness.Insert | warsim/Awareness.py:130 | Insertion adds exactly the one tally. |
| Awareness.InsertKeepsRanked | warsim/Awareness.py:130 | Inserting into a ranked list keeps it ranked. |
| Awareness.Rank | warsim/Awareness.py:130 | The result is a permutation, ordered by count descending with ties in first-appearance order, as the stable sort gives. |
| Awareness.TopFive | warsim/Awareness.py:131 | The first min(5, n) tallies. |
| Awareness.TopFiveLeadsTheRest | warsim/Awareness.py:130-131 | The top five are ranked, and none of them comes after a tally left out. |
| Awareness.SummaryListsTheMostFrequent | warsim/Awareness.py:124-132 | The summary's total is the number of events. It lists min(5, number of types) distinct event types, each with its count, most frequent first, ties in first-appearance order. Every type left out is no more frequent than any listed one, and appears later when it is as frequent. |
| Awareness.SummarizeEvents | warsim/Awareness.py:124-132 | The loop's result is `Summarize` of the events, so it lists the most frequent types as `SummaryListsTheMostFrequent` proves. The total is the number of events, and each listed type carries its true count. |
| Awareness.Summarize | warsim/Awareness.py:124-132 | The total is the number of events and at most five types are listed. |
| Awareness.Reflect | warsim/Awareness.py:99-114 | "No events" exactly when there is no events file, and "quiet" exactly when no recent record is kept. Otherwise the summary is `Summarize` of the recent records among the newest 500, and covers 1..500 of them. |
| Awareness.Memory.constructor | warsim/Awareness.py:35 | The memory holds the loaded entries. |
| Awareness.Memory.Recall | warsim/Awareness.py:204-205 | The value stored under the key, or None when it is absent. |
| Awareness.Memory.Remember | warsim/Awareness.py:200-202 | The key is bound to the value, recall returns it, and every other key is unchanged. |

## Left out

- Narration, printing, `time.sleep`, the SQLite note store, the GUI files and `battlefield.py` (a printing copy of the same turn loop) are not part of this model.
- Random draws are parameters bounded by their ranges. Their distributions are not modelled: `random.gauss`, the 10% and 60/40 odds, and the uniform choice among candidates (modelled as an index reduced modulo their number).
- Numbers are Dafny `real`. Python floats round; nothing in the rules depends on rounding.
- Construction wiring is not modelled. Combatants and deities are given to the engine and the driver ready-made, with their stats as constructor parameters. The Mechanist's constructor drops its stat overrides, so a Mechanist has the entity defaults; the model takes whatever stats it is given.
- The Mechanist's own `use_health_potion` (mechanist.py:69-77) differs from the entity's only in its narration, so `UseHealthPotion` stands for both.
- `inspect.signature` in `apply_event` is replaced by the `Event` datatype: only Astral Surge receives the deities.
- The deities' `heal_entity`, `bless_entity` and `cleanse_decay`, probed by `hasattr` in the Priest's ability, are booleans in `Pantheon`. No deity class defines them, so their effect on the target is not modelled.
- The inventory holds all four item keys. `inventory.get(k, 0)` therefore reads the stored count, and `accept_trade`'s missing-key error cannot arise. Trade offers are sequences of (item, quantity) pairs.
- Methods that act on two different parties require that they are different objects (attacker and defender, giver and receiver, the two primaries, the two duel fighters). The source never passes the same object twice.
- `EntityWar.Duel` and `EntityWar.RunDuel` run for at most `fuel` turns. The source loop has no bound and need not terminate, for instance when neither fighter can damage the other.
- `NotesLogger.ParseMessage` keeps the matched numeral as text. Python's `float` conversion is modelled only by whether it is accepted (at most one '.' and at least one digit); its ValueError is the result `None`. The regular expressions' `\d` is modelled as the ASCII digits, not all Unicode digits.
- The notes logger's `__call__` and `log_event`, and the duplicate parser in warsim/orchestrator.py, are not part of this model.
- `Awareness.Reflect` does not model reading the events file, JSON decoding or clock reads. Each line is given already decoded (or unreadable), with its timestamp in seconds. The clock is a parameter read once, so a record without a timestamp counts as recent whenever the look-back is not negative.
- `Awareness.Reflect` returns the summary as data (total and ranked top five). The formatted sentence, the reflection file, `last_reflection` and the JSON files are not modelled.
- `Awareness.Memory` holds string values only. `summarize_conversation` (a call into a language model), `compose_context`, `update_self` and `_load_or_init_self` are not part of this model.
- `Battle.EventPhase` states only the drawn event and that the cast stays a cast. The effect on the two primaries and on the deities' cost multipliers is the contract of `CosmicEvents.ApplyEvent`, which it calls; it is not restated, so that the round members stay within the verifier's budget.
- `Wars.PlayTurn` states only the drawn event and that the cast and the deities stay valid. Each phase it plays states its own effect (`CosmicEvents.ApplyEvent`, `Battle.CastPass`, `Wars.DivineInterventions`, `Battle.TradeRound`), but the turn's contract does not chain them into one relation between the old and the new state.
- `Orchestration.PlayRound` states only that the cast and the deities stay valid. As for `Wars.PlayTurn`, its phases (`CosmicEvents.ApplyEvent`, `Battle.CastPass`, `Orchestration.DivineRound`, `Battle.TradeRound`) state their own effects, and the round's contract does not chain them.
- `Orchestration.RunSimulation` states the stopping rule and the verdict. It does not state the combatants' new stats, because the round it plays does not state them as one relation.
- `Wars.WarEngine.Step` states the turn counter, the stopping rule, the drawn event and the verdict. It does not state the combatants' new stats, because the turn it plays does not state them as one relation.
- `Awareness.Record`'s "event" field is a string or absent. A log line whose "event" is JSON `null` would be counted under `None`, and one whose "event" is a list or an object would make `_summarize_events` raise (an unhashable key); the program's own log writes strings only, so neither case is modelled.

## Findings

| source | as written | input that shows it | evidently intended | confidence | as-written member | corrected member |
|---|---|---|---|---|---|---|
| orchestrator.py:80 | The banner test runs on the text after the first ": ". The banner that cosmic_event.py:75 prints, "*** Cosmic Event: <name> - <description> ***", loses its own "*** Cosmic Event" to that split. | "\n*** Cosmic Event: Astral Surge - ... ***" is classified "log" with source "*** Cosmic Event" | banner lines are classified "cosmic_event" | medium, not executed | NotesLoggerFinding.BannerLineIsNeverCosmic | NotesLoggerFinding.BannerLineIsCosmic |
