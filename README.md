# Bystander battle events and the periodic-wait AI plan (PMDC)

This project models two parts of PMDC's dungeon code in Dafny.

1. **The bystander battle events** (`BystanderBattleEvent.cs`). Each one is an effect handler owned by some character. It reacts to another character's action by editing that action's `BattleContext`:
   - `SupportAbilityEvent` and `DampEvent` add factors to the damage multiplier.
   - `SnatchEvent` steals a self-targeted status move.
   - `AllyDifferentExplosionEvent` replaces the hit effects when an explosion lands on an ally.
   - `DampEvent`, `DampItemEvent`, `CatchItemSplashEvent` and `IsolateElementEvent` cancel explosions.
   - `DrawAttackEvent`, `PassAttackEvent` and `CoverAttackEvent` redirect the explosion.
   - `FollowUpEvent.CreateContext` builds a fresh nested context for a follow-up move.
2. **`WaitPeriodPlan`** (`WaitPeriodPlan.cs`). This AI plan lets its character act normally on one turn in every `Turns`. On every other turn it forces a wait in place.

Layout:
- `wrappers.dfy` (`Option`).
- `geometry.dfy`: locations, `Dir8`, `Dist8`.
- `battle.dfy`: the move data, the events as one datatype with `Clone`, the map view `World`, and the `BattleContext` class.
- `bystander_battle_event.dfy`: one pure effect per handler, the `Apply` method proved to perform it, the dispatcher, the lemmas over lists of handlers, and the follow-up.
- `wait_period_plan.dfy`: the plan.

Representation:
- The context is a class with one mutable field per context field the events touch. `State()` packs the fields into a `ContextState` value.
- Each `ApplyX` method ensures `ctx.State() == X(old(ctx.State()), ...)`. The pure function `X` states in its own contract when the handler acts and what it then writes.
- The map and the data tables are explicit parameters bundled in `World`:
  - `charAt` stands for `GetCharAtLoc`.
  - `characters` is the `IterateCharacters` order.
  - `info` gives the character fields that are read.
  - `matchup` stands for `GetMatchup`.
  - `itemInfo` and `skill` stand for `DataManager.GetItem` and `GetSkill`.
- The `Alignment` bit set is a set of flags, and `Alignment.None` is the empty set.
- The tag collection is a `set<Tag>`. The amount carried by the `DamageDealt` tag is a separate field.
- The damage multiplier is the list of `(num, den)` factors it was given.

Three behaviours of the code that are easy to misread; the model follows the code:
- When `Div <= 0`, `DampEvent` records the factor `(Div, 1)`, so it multiplies by `Div` itself, not by its absolute value (`BystanderBattleEvent.cs:166-167`).
- `WaitPeriodPlan.Think` only needs `Turns` to be non-zero. With C#'s truncating `%`, a negative period behaves like its absolute value. So the precondition is `turns != 0`, not `turns > 0`.
- `DrawAttackEvent` sets `Range` to 0 but leaves the explosion visuals alone. `IsolateElementEvent` does the same. `CoverAttackEvent` does not touch `Range` at all.

## Model

| member | source | states |
|---|---|---|
| Geometry.Dist8 | PMDC/Dungeon/GameEffects/BystanderBattleEvent.cs:352 | the distance is the larger of the absolute coordinate differences (Chebyshev distance) |
| Geometry.Dist8AtMostOne | PMDC/Dungeon/GameEffects/BystanderBattleEvent.cs:352 | `Dist8 <= 1` holds exactly for the eight neighbouring tiles and the tile itself |
| Geometry.DirLoc | PMDC/Dungeon/GameEffects/BystanderBattleEvent.cs:447 | a direction's step is a unit king move, and it is zero only for `Dir8.None` |
| Geometry.DirLocInjective | PMDC/Dungeon/GameEffects/BystanderBattleEvent.cs:447 | different directions give different steps |
| Battle.Clone | PMDC/Dungeon/GameEffects/BystanderBattleEvent.cs:102-108 | the copy constructors copy field by field, deep for `BaseEvents`, and the clone equals the original |
| Battle.DamageDealtOf | PMDC/Dungeon/GameEffects/BystanderBattleEvent.cs:441 | the damage read is the tag's carried amount when the `DamageDealt` tag is present, and the default 0 when it is absent |
| Battle.BattleContext.FromState | PMDC/Dungeon/GameEffects/BystanderBattleEvent.cs:453-471 | a new context holds exactly the given field values |
| Battle.BattleContext.AddDmgMult | PMDC/Dungeon/GameEffects/BystanderBattleEvent.cs:31 | appends one factor to the multiplier and changes nothing else |
| Battle.BattleContext.SetTag | PMDC/Dungeon/GameEffects/BystanderBattleEvent.cs:88 | adds one tag and changes nothing else |
| Battle.BattleContext.CancelExplosion | PMDC/Dungeon/GameEffects/BystanderBattleEvent.cs:160-163 | sets range 0, empties the visuals, and changes nothing else |
| BystanderBattleEvent.HalfTruncated | PMDC/Dungeon/GameEffects/BystanderBattleEvent.cs:390 | C# integer division by 2, truncating toward zero, bounded on both sides |
| BystanderBattleEvent.DampFactor | PMDC/Dungeon/GameEffects/BystanderBattleEvent.cs:164-167 | the factor is (1, Div) when Div > 0, otherwise (Div, 1) |
| BystanderBattleEvent.SupportAbility | PMDC/Dungeon/GameEffects/BystanderBattleEvent.cs:27-33 | 4/3 is added only for a magical move whose user has the intrinsic; otherwise nothing changes |
| BystanderBattleEvent.ApplySupportAbility | PMDC/Dungeon/GameEffects/BystanderBattleEvent.cs:27-33 | the context ends in the state `SupportAbility` gives |
| BystanderBattleEvent.Snatch | PMDC/Dungeon/GameEffects/BystanderBattleEvent.cs:58-89 | no-op once redirected; changes the context iff not redirected, not a trap or item, a status move, and user is target; it then only sets target to the owner and adds `Redirected` |
| BystanderBattleEvent.ApplySnatch | PMDC/Dungeon/GameEffects/BystanderBattleEvent.cs:58-89 | the early exits and writes of `SnatchEvent.Apply` yield exactly `Snatch` |
| BystanderBattleEvent.AllyDifferentExplosion | PMDC/Dungeon/GameEffects/BystanderBattleEvent.cs:110-129 | with a friend of the user at the tile: hits become the base events in order at priority 0, tile hits are emptied, `BasePowerState` is removed, nothing else changes; otherwise nothing changes |
| BystanderBattleEvent.ApplyAllyDifferentExplosion | PMDC/Dungeon/GameEffects/BystanderBattleEvent.cs:110-129 | the clear-then-append loop builds exactly the list `AllyDifferentExplosion` describes |
| BystanderBattleEvent.Damp | PMDC/Dungeon/GameEffects/BystanderBattleEvent.cs:151-168 | no-op when range is 0; otherwise cancels the explosion and records the Damp factor; range is 0 afterwards |
| BystanderBattleEvent.ApplyDamp | PMDC/Dungeon/GameEffects/BystanderBattleEvent.cs:151-168 | the context ends in the state `Damp` gives |
| BystanderBattleEvent.DampItem | PMDC/Dungeon/GameEffects/BystanderBattleEvent.cs:176-190 | cancels the explosion exactly for a throw of an item without the recruit state; nothing else changes |
| BystanderBattleEvent.ApplyDampItem | PMDC/Dungeon/GameEffects/BystanderBattleEvent.cs:176-190 | the context ends in the state `DampItem` gives |
| BystanderBattleEvent.CatchItemSplash | PMDC/Dungeon/GameEffects/BystanderBattleEvent.cs:199-235 | cancels the explosion exactly for a non-piercing throw at an empty-handed character, of a non-recruit item that is not edible or ammo when the catcher is on a monster team; otherwise nothing changes |
| BystanderBattleEvent.ApplyCatchItemSplash | PMDC/Dungeon/GameEffects/BystanderBattleEvent.cs:199-235 | the nested early exits yield exactly `CatchItemSplash` |
| BystanderBattleEvent.IsolateElement | PMDC/Dungeon/GameEffects/BystanderBattleEvent.cs:255-264 | with a matching element (0 matches all) and the owner at the tile, only the range becomes 0; otherwise nothing changes |
| BystanderBattleEvent.ApplyIsolateElement | PMDC/Dungeon/GameEffects/BystanderBattleEvent.cs:255-264 | the context ends in the state `IsolateElement` gives |
| BystanderBattleEvent.DrawAttack | PMDC/Dungeon/GameEffects/BystanderBattleEvent.cs:290-325 | no-op once redirected; acts iff all six guards pass; it then moves the tile to the owner, sets range 0 and adds `Redirected`, and nothing else |
| BystanderBattleEvent.ApplyDrawAttack | PMDC/Dungeon/GameEffects/BystanderBattleEvent.cs:290-325 | the context ends in the state `DrawAttack` gives |
| BystanderBattleEvent.PassCandidateIsNeighbour | PMDC/Dungeon/GameEffects/BystanderBattleEvent.cs:351-352 | a pass candidate is exactly a live character, neither owner nor user, standing on the owner's tile or one of its eight neighbours |
| BystanderBattleEvent.FirstPassIndex | PMDC/Dungeon/GameEffects/BystanderBattleEvent.cs:349-352 | the position of the first character in iteration order that is alive, neither owner nor user, and within distance 1 of the owner |
| BystanderBattleEvent.FirstPassTarget | PMDC/Dungeon/GameEffects/BystanderBattleEvent.cs:349-367 | none iff no character qualifies; otherwise a qualifying character with no qualifying one before it |
| BystanderBattleEvent.PassAttack | PMDC/Dungeon/GameEffects/BystanderBattleEvent.cs:334-369 | no-op once redirected; acts iff the guards pass and a candidate exists; it then moves the tile to the first candidate and adds `Redirected`, range untouched |
| BystanderBattleEvent.ApplyPassAttack | PMDC/Dungeon/GameEffects/BystanderBattleEvent.cs:334-369 | the search loop stops at the first candidate and yields exactly `PassAttack` |
| BystanderBattleEvent.CoverAttack | PMDC/Dungeon/GameEffects/BystanderBattleEvent.cs:378-408 | no-op once redirected; acts iff not trap/item, a character is at the tile, its HP <= MaxHP/2 (truncating), and the matchup is exactly Friend; it then moves the tile to the owner and adds `Redirected`, range untouched |
| BystanderBattleEvent.ApplyCoverAttack | PMDC/Dungeon/GameEffects/BystanderBattleEvent.cs:378-408 | the context ends in the state `CoverAttack` gives |
| BystanderBattleEvent.Effect | PMDC/Dungeon/GameEffects/BystanderBattleEvent.cs:27-408 | over all ten handlers: tags only grow and only by `Redirected`; redirectors are no-ops once redirected and set `Redirected` whenever they act; other handlers never retarget; range 0 stays 0; the multiplier changes only by 4/3 from SupportAbility or the Damp factor from Damp |
| BystanderBattleEvent.Apply | PMDC/Dungeon/GameEffects/BystanderBattleEvent.cs:27-408 | dispatching `Apply` on the event performs `Effect` |
| BystanderBattleEvent.NoRedirectOnceRedirected | PMDC/Dungeon/GameEffects/BystanderBattleEvent.cs:60-61 | from a redirected context, no handler list redirects again, and the context stays redirected |
| BystanderBattleEvent.AtMostOneRedirect | PMDC/Dungeon/GameEffects/BystanderBattleEvent.cs:292-293 | in any handler list run in order, at most one redirect takes effect |
| BystanderBattleEvent.CancellationIsFinal | PMDC/Dungeon/GameEffects/BystanderBattleEvent.cs:154-163 | once range is 0, running any handler list leaves it 0 |
| BystanderBattleEvent.MultipliersOnlyAppend | PMDC/Dungeon/GameEffects/BystanderBattleEvent.cs:164-167 | running handlers keeps the recorded factors as a prefix |
| BystanderBattleEvent.FollowUpInvocation | PMDC/Dungeon/GameEffects/BystanderBattleEvent.cs:438-478 | a context exists iff DamageDealt > 0 and owner is not the user; it is a Skill with the owner as user, forced slot, start direction = facing, copies of the invoked move's data (with its ID), range, hitbox and strikes, a blank item, only the `FollowUp` tag, and hit offset = target - (owner + dir * FrontOffset) |
| BystanderBattleEvent.FollowUpAutoTargets | PMDC/Dungeon/GameEffects/BystanderBattleEvent.cs:445-465 | the tile in front of the owner plus the hit offset is exactly the chosen target's location |
| BystanderBattleEvent.FollowUpStartsUnredirected | PMDC/Dungeon/GameEffects/BystanderBattleEvent.cs:453-471 | the nested context carries `FollowUp` and not `Redirected` |
| BystanderBattleEvent.CreateContext | PMDC/Dungeon/GameEffects/BystanderBattleEvent.cs:438-478 | null and no turning iff the guard fails; otherwise a fresh, unaliased context equal to `FollowUpInvocation`'s, with the owner turned to face the target |
| AIPlans.CsRem | PMDC/Dungeon/AI/WaitPeriodPlan.cs:23 | C#'s `%`: the remainder has the dividend's sign, is smaller than the divisor in size, and differs from the dividend by a multiple of the divisor (which makes it unique) |
| AIPlans.CsRemZero | PMDC/Dungeon/AI/WaitPeriodPlan.cs:23 | the C# remainder is zero exactly when the divisor divides the dividend |
| AIPlans.WaitPeriodPlan.CreateNew | PMDC/Dungeon/AI/WaitPeriodPlan.cs:18-19 | the copy has the same `Turns` and the same base configuration |
| AIPlans.WaitPeriodPlan.Think | PMDC/Dungeon/AI/WaitPeriodPlan.cs:21-26 | needs Turns != 0; none iff `MapTurns % Turns == 0`, otherwise a Wait action with `Dir8.None` |
| AIPlans.ThinkDefersExactlyOnMultiples | PMDC/Dungeon/AI/WaitPeriodPlan.cs:23-24 | the plan defers exactly on the turns that `Turns` divides |
| AIPlans.ThinkIgnoresCharacterAndRandomness | PMDC/Dungeon/AI/WaitPeriodPlan.cs:21-26 | the result does not depend on the character, `preThink` or the random source |
| AIPlans.ThinkIsPeriodic | PMDC/Dungeon/AI/WaitPeriodPlan.cs:23 | turn t and turn t + k * Turns give the same result |
| AIPlans.PeriodThreeSchedule | PMDC/Dungeon/AI/WaitPeriodPlan.cs:23-25 | for Turns = 3, turns 0..6 give none, wait, wait, none, wait, wait, none |
| AIPlans.CopyThinksAlike | PMDC/Dungeon/AI/WaitPeriodPlan.cs:18-26 | the copy made by `CreateNew` decides every turn as the original does |

## Left out

- Coroutines and presentation. The animations (`StartAnim`, `CharAnimSpin`/`CharAnimAction`, `WaitWhile`), the `yield` points, log messages, sounds and emitter setup only synchronise or decorate. Each `Apply` is a method that runs to completion. The reset of `ExplodeFX`, `Emitter` and `TileEmitter` is the single flag `visualsCleared`.
- The `GameEventOwner` parameter. The handlers use it only for message text.
- The outer resolver. Resolving the nested context, and sorting handler lists by priority, happen outside the modelled file. `Run` takes a list that is already ordered.
- `AddContextStateMult`. Its arithmetic is external, so the factors are recorded, not multiplied.
- `DirExt.GetDir`. This is library geometry and is a parameter (`getDir`). `DirLoc` is the usual table of unit steps, with y growing downwards.
- The internals of the `BattleData`, `ExplosionData` and `HitboxAction` copy constructors. These are not part of this model. Copies are plain values, and the explosion is reduced to its range and the visuals flag.
- CreateContext: the write to `ownerChar.CharDir` is returned as the output `facing`, not made in place. The new context's unset `Target` and `ExplosionTile` take C#'s default values (null, the zero location). `FORCED_SLOT` is the constructor `ForcedSlot`, because its numeric value is not part of this model.
- BystanderBattleEvent.CreateContext: the precondition excludes a null `Target` combined with `AffectTarget` once the follow-up fires. On that input the C# code throws a null-reference exception at `target.CharLoc`. `BystanderBattleEvent.FollowUpInvocation` carries the same precondition. The 32-bit width of the location arithmetic is not modelled either, so overflow of `dir * FrontOffset`, of the hit offset and of `Dist8` is left out.
- Battle.Clone: events are immutable values, so a clone equals its original. Sharing of mutable emitter objects between clones is not modelled.
- `World` lookups are independent functions. The model does not state that `charAt` agrees with the characters' locations.
- AIPlans.WaitPeriodPlan.Think: the 32-bit range of `MapTurns` and `Turns` is not modelled. That leaves out the counter's wrap-around and the overflow of `int.MinValue % -1`. A zero period, which would throw in C#, is excluded by the precondition.
- The `AIPlan` base class, `AIFlags` and `AttackChoice` are configuration this plan only passes on, so they are kept opaque in `PlanBase`.
