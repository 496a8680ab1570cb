# BattleArena combat core, in Dafny

This project models the game logic of the BattleArena Unity project. The arena
is a training ground for ML-Agents melee fighters, with two scripted opponents
beside them. The model covers five scripts:

- **GladiatorWeapon**: the swing state machine of a melee weapon. An active
  window and a cooldown are two timers. A per-swing flag lets one swing deliver
  at most one `TakeHit`, however many overlaps or trigger contacts report the
  same victim.
- **GladiatorHealth**: an integer hit-point pool. Each hit removes one point
  and sends callbacks in a fixed order: got-hit, hit-enemy, then lose and win
  when the pool is empty.
- **GladiatorAgent**: the ML-Agents fighter, covering:
  - the registry of live agents and the nearest-enemy search over it;
  - damage, with rewards coupled between victim and attacker;
  - the attack gate (cooldown, range, facing);
  - the seven-value observation;
  - the action clamps, the step and distance-shaping rewards, and the
    out-of-bounds test.
- **GuardFSM**: a patrol guard, with Patrol, Chase and Search states and a
  cyclic patrol route.
- **StrategistAI**: a utility-based decision maker, covering:
  - a survival override when health is low;
  - commitment locks;
  - a noisy argmax over heal, ammo and hide scores, with a switch margin;
  - destination de-duplication;
  - clamped health and ammo pickups.

Each stateful script is a Dafny `class` with the script's fields. Its methods
follow the script's code statement by statement, except
`StrategistAI.AddAmmo`, which applies the corrected clamp of the Findings
below. Each method's `ensures` ties
the new state to a pure function of the old state and the inputs, such as
`AttackOutcome`, `HitNotices`, `Damage`, `Step` or `Decision`. The properties
the scripts promise are then proved about those functions as lemmas:

- one hit per swing;
- lose and win exactly at or below zero hit points;
- the first nearest enemy wins ties;
- reward shaping telescopes;
- the guard's invariant is kept;
- the lock, margin and override rules of the strategist.

Engine services are parameters or logs:

- **Time**: `deltaTime` and `Time.time` are arguments.
- **Distances**: `Vector3.Distance` to another agent or object is a given value
  (a function `dist`, or a `distance` field), so no square root is modelled.
- **Physics queries**: the colliders returned by `Physics.OverlapSphere` and
  the trigger callbacks become a list of contacts. Each contact is reduced to
  the `GladiatorHealth` in its parents, if any.
- **Line of sight**: the `Physics.Raycast` result becomes a `blocked` flag.
- **Facing**: the facing dot product is a given value.
- **Randomness**: `Random.Range` spawn offsets and score noise are arguments.
- **ML-Agents**: `AddReward` adds to a `reward` accumulator, and `EndEpisode`
  increments an `episodeEnds` counter.
- **Callbacks and navigation**:
  - `TakeHit` calls from the weapon are logged in `delivered`;
  - the health callbacks are logged in `notices`;
  - `NavMeshAgent.SetDestination` requests are kept as `destination` (the
    guard) or logged in `requested` (the strategist).

`float` is `real`, with no rounding. C#'s `int` is unbounded except in the
pure model of `AddAmmo` as written, `AmmoAfterAddAsWritten`, where 32-bit
wrap-around changes the result (see Findings); the class's `AddAmmo` applies
the corrected, overflow-free clamp `AmmoAfterAdd`.

The model follows the code on these points, which the scripts' names and
comments can make easy to misread:

- The weapon's `Update` floors the active timer at 0 but not the cooldown
  timer, so `cooldownLeft` may go negative.
- `TakeHit` removes exactly one point per hit. It has no floor, and it does
  not refuse hits after death: every hit at or below zero reports lose and win
  again. Likewise, `TakeDamage` on an agent already at 0 health repeats the
  lose penalty, the `EndEpisode` call and the win reward. In a running
  arena, `EndEpisode` resets the victim's health through `OnEpisodeBegin`, so
  a hit at 0 health happens only when that reset has not run; the model does
  not chain the reset in (see Left out).
- `TakeDamage` credits the attacker with the victim's own `dealDamageReward`
  and `winReward` fields.
- Leaving the arena costs −0.01 per step but does not end the episode. There
  is no step limit in the script.

## Model

| member | source | states |
|---|---|---|
| Weapon.Tick | BattleArena/Assets/GladiatorWeapon.cs:48-57 | a positive cooldown drops by exactly `deltaTime`, with no floor, and a non-positive one is kept; a positive active time becomes `max(0, activeLeft - deltaTime)` and a non-positive one is kept, so `activeLeft` stays non-negative and never rises; the hit flag is untouched |
| Weapon.CooldownOvershoots | BattleArena/Assets/GladiatorWeapon.cs:48-57 | a 0.1 s cooldown ticked by a 0.25 s frame ends at -0.15 while the active time stops at 0, and the weapon can attack again |
| Weapon.FrameEndsCooldown | BattleArena/Assets/GladiatorWeapon.cs:48-72 | a frame at least as long as a positive cooldown makes the next `TryAttack(true)` start a swing |
| Weapon.HitOutcome | BattleArena/Assets/GladiatorWeapon.cs:86-97 | a contact without health, or with the owner's own health, changes nothing and delivers nothing; otherwise it sets the flag and delivers exactly one `TakeHit` to that victim; the timers are untouched |
| Weapon.ScanOutcome | BattleArena/Assets/GladiatorWeapon.cs:99-104 | the overlap scan delivers at most one hit, does nothing once the swing has hit, and leaves the flag set exactly when it has hit before or now |
| Weapon.ScanStrikesFirstHittable | BattleArena/Assets/GladiatorWeapon.cs:99-104 | on a swing that has not hit, the scan strikes exactly the first overlapping collider that has health and is not the owner's, and nothing if there is none |
| Weapon.AttackOutcome | BattleArena/Assets/GladiatorWeapon.cs:59-72 | `TryAttack(false)`, or an attack while the cooldown is positive, changes nothing and delivers nothing; a successful attack sets `activeLeft = activeTime` and `cooldownLeft = cooldown` and then strikes exactly the first hittable overlap, if there is one (at most one hit), with the flag set exactly when it hit |
| Weapon.ContactOutcome | BattleArena/Assets/GladiatorWeapon.cs:74-84 | trigger contacts are ignored while the swing is inactive or has already hit; otherwise the contact is handled as a hit attempt, which strikes it when it is hittable; at most one hit, with the timers untouched |
| Weapon.StepSpendsArmedSwing | BattleArena/Assets/GladiatorWeapon.cs:59-104 | a single engine event (frame, attack, trigger) delivers a hit only by spending the swing that was armed, or by starting a new one |
| Weapon.HitsBoundedBySwings | BattleArena/Assets/GladiatorWeapon.cs:59-104 | over any run of frames, attacks and contacts, the hits delivered never outnumber the swings started, plus one for a swing armed at the start |
| Weapon.ResetWeaponHitsOnlyBySwinging | BattleArena/Assets/GladiatorWeapon.cs:41-46 | from the reset state no run of events delivers more hits than it starts swings |
| Weapon.OneHitPerSwing | BattleArena/Assets/GladiatorWeapon.cs:64-84 | between a successful `TryAttack` and the next one, at most one `TakeHit` is issued, counting the attack's own overlap scan |
| Weapon.NeverHitsOwner | BattleArena/Assets/GladiatorWeapon.cs:86-90 | no run of events ever delivers a hit to the wielder's own health |
| Weapon.GladiatorWeapon.constructor | BattleArena/Assets/GladiatorWeapon.cs:24-39 | `Awake` leaves the weapon reset, with nothing delivered |
| Weapon.GladiatorWeapon.ResetWeapon | BattleArena/Assets/GladiatorWeapon.cs:41-46 | both timers become 0 and the flag false, whatever the prior state, so a second reset changes nothing; no hit is delivered |
| Weapon.GladiatorWeapon.Update | BattleArena/Assets/GladiatorWeapon.cs:48-57 | the new timers are `Tick` of the old ones |
| Weapon.GladiatorWeapon.TryAttack | BattleArena/Assets/GladiatorWeapon.cs:59-72 | the new state and the hits appended to the log are `AttackOutcome` of the old state |
| Weapon.GladiatorWeapon.OnTriggerEnter | BattleArena/Assets/GladiatorWeapon.cs:74-78 | the new state and the appended hits are `ContactOutcome` of the old state |
| Weapon.GladiatorWeapon.OnTriggerStay | BattleArena/Assets/GladiatorWeapon.cs:80-84 | the new state and the appended hits are `ContactOutcome` of the old state |
| Weapon.GladiatorWeapon.TryHit | BattleArena/Assets/GladiatorWeapon.cs:86-97 | the new state and the appended hit are `HitOutcome` of the old state |
| Weapon.GladiatorWeapon.TryHitFromOverlaps | BattleArena/Assets/GladiatorWeapon.cs:99-104 | the loop that stops once the flag is set leaves the state and the appended hits of `ScanOutcome` |
| Health.HitNoticesOrdered | BattleArena/Assets/GladiatorHealth.cs:24-36 | one hit notifies got-hit to the victim's agent and hit-enemy to the attacker, each only if present; it notifies lose and win if and only if `hp <= 0` after the decrement; the notices come in the order got-hit, hit-enemy, lose, win |
| Health.HPNormalized | BattleArena/Assets/GladiatorHealth.cs:10 | the result times `maxHP` is `hp` when `maxHP > 0`; it is 0 otherwise; it lies in [0, 1] when `0 <= hp <= maxHP`, and is 1 at full health |
| Health.TakeHitsLeaves | BattleArena/Assets/GladiatorHealth.cs:24-26 | n hits leave exactly `hp - n` points: one per hit, with no floor |
| Health.LoseReportedPerHitAtOrBelowZero | BattleArena/Assets/GladiatorHealth.cs:24-35 | over n hits on a pool of `hp`, the number of lose notices is 0 if `n < hp`, `n` if `hp <= 1`, and `n - hp + 1` otherwise, so defeat repeats on every hit after death |
| Health.NoOutcomeBeforeLastPoint | BattleArena/Assets/GladiatorHealth.cs:24-35 | fewer than `hp` hits never report lose or win |
| Health.FifthHitDecides | BattleArena/Assets/GladiatorHealth.cs:5-35 | from a full default pool of 5, four hits report no outcome and leave 1 point; the fifth reports got-hit, hit-enemy, lose, win, in that order |
| Health.GladiatorHealth.constructor | BattleArena/Assets/GladiatorHealth.cs:12-16 | `Awake` fills the pool, with no notices |
| Health.GladiatorHealth.ResetHP | BattleArena/Assets/GladiatorHealth.cs:18-21 | `hp = maxHP`, with no notices |
| Health.GladiatorHealth.TakeHit | BattleArena/Assets/GladiatorHealth.cs:24-36 | `hp` drops by exactly 1, and the log grows by `HitNotices` for the new `hp` |
| Health.GladiatorHealth.Normalized | BattleArena/Assets/GladiatorHealth.cs:10 | the normalised health lies in [0, 1] while `0 <= hp <= maxHP` |
| Agent.Enabled | BattleArena/Assets/GladiatorAgent.cs:40 | after `OnEnable` the agent is registered; the old list is kept as a prefix, so a newcomer is appended at the end and an agent already present adds nothing; no other agent is added; a registry without duplicates stays without duplicates |
| Agent.RemoveFirst | BattleArena/Assets/GladiatorAgent.cs:41 | `List.Remove` leaves an unregistered agent's list unchanged and otherwise drops exactly the first occurrence, keeping the order of the rest |
| Agent.DisableRemoves | BattleArena/Assets/GladiatorAgent.cs:40-41 | in a registry without duplicates, `OnDisable` removes the agent entirely and keeps every other agent and the absence of duplicates |
| Agent.EnableThenDisable | BattleArena/Assets/GladiatorAgent.cs:40-41 | enabling twice equals enabling once; disabling a freshly enabled agent restores the registry |
| Agent.AgentRegistry.constructor | BattleArena/Assets/GladiatorAgent.cs:11 | the static list starts empty |
| Agent.NearestIsFirstMinimum | BattleArena/Assets/GladiatorAgent.cs:192-210 | the search returns an entry that is neither null nor the caller; its distance is strictly smaller than every earlier candidate's and no larger than any later one's, so the first entry wins ties; it returns nothing exactly when every candidate is at least `float.MaxValue` away |
| Agent.NearestEnemyIsOther | BattleArena/Assets/GladiatorAgent.cs:192-210 | the nearest enemy is never the caller and is a registered agent; with finite distances it is null exactly when no other agent is registered |
| Agent.DamageKeepsHealthInRange | BattleArena/Assets/GladiatorAgent.cs:169-174 | non-negative damage keeps health in [0, `maxHealth`], never raises it, and yields a lost fraction in [0, 1] |
| Agent.DeathIffDamageReachesHealth | BattleArena/Assets/GladiatorAgent.cs:169-190 | the victim's episode ends exactly when the damage reaches its health; the victim gets `takeDamagePenalty * frac` and the attacker `dealDamageReward * frac`, plus `losePenalty` and `winReward` on death, added rather than replaced |
| Agent.HitAtZeroRepeatsOutcome | BattleArena/Assets/GladiatorAgent.cs:169-190 | a hit on a victim at 0 health adds no shaping (`frac = 0`) but repeats the lose penalty, the episode end and the win reward |
| Agent.ShapingTelescopes | BattleArena/Assets/GladiatorAgent.cs:169-178 | over any series of hits, the lost fractions credited sum to the total health lost over `maxHealth` |
| Agent.StruckIsNearestInReach | BattleArena/Assets/GladiatorAgent.cs:149-166 | an attack lands if and only if the cooldown has passed, a nearest enemy exists, it is within `attackRange`, and its facing is at least 0.2; the victim is that nearest enemy and never the attacker |
| Agent.Observation | BattleArena/Assets/GladiatorAgent.cs:71-103 | always 7 values: own health fraction, local velocity x and z, then the enemy's local direction x and z, its distance over 20 clamped to [0, 1], and its health fraction; with no enemy the last four are exactly (0, 0, 1, 1) |
| Agent.AbsentEnemyReadsFarAndHealthy | BattleArena/Assets/GladiatorAgent.cs:95-102 | the absent-enemy default reads exactly like an unhurt enemy at 20 or more units with a zero direction |
| Agent.IsOutOfBounds | BattleArena/Assets/GladiatorAgent.cs:212-217 | out of bounds if and only if x or z lies beyond the half extent on either side of the centre, with the origin when there is no centre |
| Agent.SpawnIsInBounds | BattleArena/Assets/GladiatorAgent.cs:58-62 | a spawn with offsets drawn within the half extents is never out of bounds |
| Agent.ClampAction | BattleArena/Assets/GladiatorAgent.cs:111-113 | every continuous action lies in [-1, 1]; in-range values pass unchanged; values beyond a bound become that bound |
| Agent.DistanceShaping | BattleArena/Assets/GladiatorAgent.cs:129-136 | the shaping reward is positive exactly when the agent got closer, and negative exactly when it moved away |
| Agent.ShapingPaysNetApproach | BattleArena/Assets/GladiatorAgent.cs:129-136 | over consecutive steps, distance shaping pays `0.001` times the net approach from the first remembered distance to the last one, whatever the path |
| Agent.GladiatorAgent.constructor | BattleArena/Assets/GladiatorAgent.cs:43-47 | `Initialize` sets full health |
| Agent.GladiatorAgent.OnEnable | BattleArena/Assets/GladiatorAgent.cs:40 | the registry becomes `Enabled` of the old one and stays without duplicates |
| Agent.GladiatorAgent.OnDisable | BattleArena/Assets/GladiatorAgent.cs:41 | the registry becomes `RemoveFirst` of the old one, no longer holds the agent, and stays without duplicates |
| Agent.GladiatorAgent.FindNearestEnemy | BattleArena/Assets/GladiatorAgent.cs:192-210 | the best-so-far loop returns exactly the first nearest candidate |
| Agent.GladiatorAgent.TakeDamage | BattleArena/Assets/GladiatorAgent.cs:169-190 | health, both agents' rewards and the episode-end count change as `Damage` says, also when the attacker is the victim itself; nothing else changes (the reset `EndEpisode` triggers is not chained in, see Left out) |
| Agent.GladiatorAgent.TryAttack | BattleArena/Assets/GladiatorAgent.cs:149-167 | inside the cooldown nothing changes; otherwise `nextAttackTime = now + attackCooldown` even when the attack then misses; the struck agent takes `attackDamage` through `Damage`, and the attacker gets the coupled reward; no other agent changes |
| Agent.GladiatorAgent.OnEpisodeBegin | BattleArena/Assets/GladiatorAgent.cs:49-69 | full health, attack ready, respawn at the centre plus the offsets (inside the bounds when the offsets are within the half extents), and the distance to the nearest enemy remembered (0 without one) |
| Agent.GladiatorAgent.CollectObservations | BattleArena/Assets/GladiatorAgent.cs:71-103 | refreshes the nearest enemy and returns its 7-value `Observation` |
| Agent.GladiatorAgent.OnActionReceived | BattleArena/Assets/GladiatorAgent.cs:105-147 | clamped movement and turn; an attack only on discrete action 1; the reward grows by the step penalty, shaping against the enemy remembered by the last observation, the out-of-bounds penalty and the reward of any attack; the struck victim's health, reward and episode count change as `Damage` says and nothing else of it changes; the agent's own health, episode count and position are kept, and every other agent is unchanged |
| Guard.CanSeeTarget | BattleArena/Assets/GuardFSM.cs:101-115 | the guard sees the target if and only if there is a target, it is within `viewDistance`, and no obstacle blocks the ray |
| Guard.Enter | BattleArena/Assets/GuardFSM.cs:79-99 | speed is `chaseSpeed` in Chase and `patrolSpeed` in Patrol and Search; Patrol clamps the index into the route, keeps a valid one, and heads for that point; Search starts the full timer and heads for the last known position; Chase keeps the destination, and only Search touches the timer |
| Guard.Started | BattleArena/Assets/GuardFSM.cs:36-39 | the guard starts patrolling toward the first point, in a consistent state |
| Guard.StepKeepsConsistent | BattleArena/Assets/GuardFSM.cs:41-99 | every frame keeps the index on the route, the speed matching the state, and the destination matching Patrol or Search |
| Guard.Run | BattleArena/Assets/GuardFSM.cs:41-77 | any sequence of frames from a consistent guard leaves it consistent |
| Guard.PatrolSpotsTarget | BattleArena/Assets/GuardFSM.cs:45-47 | seeing the target while patrolling switches to Chase at once, at chase speed |
| Guard.PatrolAdvancesCyclically | BattleArena/Assets/GuardFSM.cs:49-53 | arriving unseen advances to the next patrol point, wrapping from the last to the first, and heads there |
| Guard.ChaseTracksOrSearches | BattleArena/Assets/GuardFSM.cs:55-66 | while chasing, sight records the target position as last known and heads there; losing sight enters Search with the full timer, patrol speed and the last known position as destination |
| Guard.SearchCountsDown | BattleArena/Assets/GuardFSM.cs:67-76 | while searching, sight returns to Chase; otherwise the timer drops by `deltaTime` and Patrol resumes exactly when it reaches 0 or below |
| Guard.SearchPersistsUnseen | BattleArena/Assets/GuardFSM.cs:67-76 | frames that do not see the target, taking less total time than the timer left, keep the guard searching the same spot, with the timer reduced by the elapsed time |
| Guard.GuardFSM.constructor | BattleArena/Assets/GuardFSM.cs:30-39 | `Awake` and `Start` leave the guard in `Started` |
| Guard.GuardFSM.Update | BattleArena/Assets/GuardFSM.cs:41-77 | the new state is `Step` of the old state and the frame's senses, and stays consistent |
| Guard.GuardFSM.SetState | BattleArena/Assets/GuardFSM.cs:79-99 | the new state is `Enter` of the old one |
| Strategist.NearestIsFirstMinimum | BattleArena/Assets/Script/StrategistAI.cs:206-224 | the nearest object of a tag is the first of minimal distance; there is none exactly when every object is at least `float.MaxValue` away, in particular when there are none |
| Strategist.Danger01 | BattleArena/Assets/Script/StrategistAI.cs:146-151 | danger lies in [0, 1]; it is 0 without a threat or at `maxDist` and beyond, and 1 at the threat |
| Strategist.ScoreHide | BattleArena/Assets/Script/StrategistAI.cs:140-144 | the hide score lies in [0.25, 1], is 0.25 without a threat, and is at least the danger within 15 units |
| Strategist.ScoresNeedTheirObject | BattleArena/Assets/Script/StrategistAI.cs:97-138 | with no health pack (or no ammo crate) the heal (or ammo) score is 0; Flee scores 0; Hide scores at least 0.25 |
| Strategist.ScoresInUnit | BattleArena/Assets/Script/StrategistAI.cs:109-138 | with health and ammo within their maxima, the heal and ammo scores lie in [0, 1], whatever the distances and the threat |
| Strategist.BestAction | BattleArena/Assets/Script/StrategistAI.cs:73-78 | the argmax never picks Flee and returns the largest score; Hide wins ties with both; Heal must beat Hide strictly; Ammo must beat both strictly |
| Strategist.SafeDestination | BattleArena/Assets/Script/StrategistAI.cs:196-204 | a destination is requested and remembered exactly when none is set or it is more than 0.5 from the last one; otherwise the state is unchanged |
| Strategist.NewAction | BattleArena/Assets/Script/StrategistAI.cs:158-162 | the action becomes the new one; a locking call sets `actionLockUntil = now + actionCommitTime`, and a non-locking one keeps the lock |
| Strategist.LowHealthOverrides | BattleArena/Assets/Script/StrategistAI.cs:55-63 | at or below the threshold, whatever the lock, the action becomes Heal if a health pack is found, else Hide if cover is found, else Flee, and the lock is renewed |
| Strategist.LockHolds | BattleArena/Assets/Script/StrategistAI.cs:66 | above the threshold and before `actionLockUntil`, a decision changes nothing |
| Strategist.SwitchNeedsMargin | BattleArena/Assets/Script/StrategistAI.cs:80-94 | outside the lock, the action changes if and only if a different best action beats the current score by more than `switchMargin`; it then becomes that action, never Flee, with a renewed lock; otherwise nothing changes |
| Strategist.FleeOnlyWhenLow | BattleArena/Assets/Script/StrategistAI.cs:53-95 | a decision that ends in Flee was made at low health or was already fleeing |
| Strategist.OneDestinationPerDecision | BattleArena/Assets/Script/StrategistAI.cs:53-95 | a decision requests at most one destination and keeps the earlier requests |
| Strategist.DecidesOncePerInterval | BattleArena/Assets/Script/StrategistAI.cs:45-51 | a decision at `now` schedules the next one at `now + decisionInterval`, and every update before then changes nothing |
| Strategist.HealthAfterAdd | BattleArena/Assets/Script/StrategistAI.cs:226 | `AddHealth` keeps health in [0, `maxHealth`]: the exact sum when it lies in range, never lower after a gain, never higher after a loss |
| Strategist.AmmoAfterAdd | BattleArena/Assets/Script/StrategistAI.cs:227 | `AddAmmo`, as intended, keeps ammo in [0, `maxAmmo`]: the exact sum when it lies in range, never lower after a gain, never higher after a loss |
| Strategist.AddAmmoOverflowEmpties | BattleArena/Assets/Script/StrategistAI.cs:227 | with the written 32-bit sum, adding `int.MaxValue` to 10 rounds empties the magazine (0); the intended clamp gives 30 |
| Strategist.AddAmmoAgreesWithoutOverflow | BattleArena/Assets/Script/StrategistAI.cs:227 | the written and the intended `AddAmmo` agree whenever the sum fits in 32 bits |
| Strategist.StrategistAI.constructor | BattleArena/Assets/Script/StrategistAI.cs:30-38 | starts on Hide, unlocked, with no destination and nothing scheduled |
| Strategist.StrategistAI.Update | BattleArena/Assets/Script/StrategistAI.cs:45-51 | the schedule and the decision state become `Throttled` of the old ones; health and ammo are untouched |
| Strategist.StrategistAI.Decide | BattleArena/Assets/Script/StrategistAI.cs:53-95 | the decision state becomes `Decision` of the old one, for the scene, the noise and the time |
| Strategist.StrategistAI.SetNewAction | BattleArena/Assets/Script/StrategistAI.cs:158-162 | the decision state becomes `NewAction` of the old one |
| Strategist.StrategistAI.TryHeal | BattleArena/Assets/Script/StrategistAI.cs:164-170 | heads for the nearest health pack, reporting whether there was one |
| Strategist.StrategistAI.TryGetAmmo | BattleArena/Assets/Script/StrategistAI.cs:172-178 | heads for the nearest ammo crate, reporting whether there was one |
| Strategist.StrategistAI.TryHide | BattleArena/Assets/Script/StrategistAI.cs:180-186 | heads for the nearest cover, reporting whether there was one |
| Strategist.StrategistAI.FleeFromThreat | BattleArena/Assets/Script/StrategistAI.cs:188-194 | without a threat nothing changes; otherwise the flee point goes through `SafeDestination` |
| Strategist.StrategistAI.SetDestinationSafe | BattleArena/Assets/Script/StrategistAI.cs:196-204 | the decision state becomes `SafeDestination` of the old one |
| Strategist.StrategistAI.FindNearestWithTag | BattleArena/Assets/Script/StrategistAI.cs:206-224 | the best-so-far loop returns exactly the first nearest object |
| Strategist.StrategistAI.AddHealth | BattleArena/Assets/Script/StrategistAI.cs:226 | health becomes `HealthAfterAdd` of the old health |
| Strategist.StrategistAI.AddAmmo | BattleArena/Assets/Script/StrategistAI.cs:227 | ammo becomes the overflow-free `AmmoAfterAdd` of the old ammo (the corrected half of the Findings row; see Left out) |

## Left out

- Physics and transforms are not modelled: forces, velocities, rotation, `InverseTransformDirection` and `TransformDirection`. The agent's local velocity, an enemy's local direction, the facing dot product and overlap and raycast results are inputs. `OnActionReceived` returns the clamped movement and turn instead of applying them.
- `Vector3.Distance`, `magnitude` and `normalized` are not computed. Distances are given values, and the strategist's flee point is given with the threat. `SetDestinationSafe` compares squared distance with 0.25, which is equivalent to distance over 0.5.
- IEEE float rounding, NaN and infinities are not modelled: `float` is `real`.
- Agent.GladiatorAgent.TakeDamage: ML-Agents' `EndEpisode` also calls `OnEpisodeBegin` on the same agent. The model only counts the call in `episodeEnds`, so on a lethal hit its "nothing else changes" clause does not hold in a running arena: the victim's health, `nextAttackTime`, position and cumulative reward are reset there, and the model does not promise that reset.
- Agent.GladiatorAgent.OnActionReceived: a lethal attack made during the step reaches `EndEpisode` through `TakeDamage`, and the victim's reset is not chained in there either. The `VectorSensor` and `ActionBuffers` plumbing is reduced to sequences.
- Agent.GladiatorAgent.OnActionReceived requires three continuous actions, which is the size the behaviour is configured with. A shorter action buffer would throw in the script.
- Agent.AgentConfig: `maxHealth > 0` is taken as a configuration invariant, because the health fraction divides by it. The strategist's `maxHealth` and `maxAmmo` are treated the same way.
- Guard.GuardConfig: the patrol route is taken non-empty. With no patrol points, `SetState(Patrol)` indexes -1 and the patrol advance divides by zero; both throw in the script.
- `GetComponent`/`GetComponentInParent` lookups, the static `All` list, `FindGameObjectsWithTag`, and `Random.Range` for spawns, rotation and score noise are not modelled. Lookups become identities, lists or explicit registry objects, and random values are arguments. The spawn rotation is not modelled.
- NavMesh pathfinding is not modelled: `pathPending`, `remainingDistance` and `stoppingDistance` become an `arrived` flag.
- GuardFSM: the raycast and eye position are not modelled. The line-of-sight check becomes the `blocked` input, and the distance comes from the eyes.
- `Debug.Log`, gizmos, `ContinueCurrentAction` (its body is empty) and the keyboard `Heuristic` are not modelled.
- GladiatorAgentV2.cs and MoveObstacle.cs are not part of this model. The callbacks `GladiatorHealth` makes on `GladiatorAgentV2` (`OnGotHit`, `OnHitEnemy`, `Lose`, `Win`) are recorded as notices, not executed.
- Health.GladiatorHealth.TakeHit: `hp` is an unbounded integer. The 32-bit wrap of `hp--` would need more than two billion hits below zero.
- Strategist.StrategistAI.AddAmmo: the class method applies the corrected clamp `AmmoAfterAdd` of the exact sum, not the script's wrapping one. The code at StrategistAI.cs:227 as written is modelled by the pure `AmmoAfterAddAsWritten`, and `AddAmmoOverflowEmpties` exhibits where the two differ.

## Findings

| source | as written | input that shows it | evidently intended | confidence | as-written member | corrected member |
|---|---|---|---|---|---|---|
| BattleArena/Assets/Script/StrategistAI.cs:227 | `Mathf.Clamp(ammo + amount, 0, maxAmmo)` adds two C# `int`s, which wrap around on overflow before the clamp | `ammo = 10`, `maxAmmo = 30`, `AddAmmo(int.MaxValue)`: the sum wraps to −2147483639 and the magazine ends at 0 | the exact sum clamped to [0, `maxAmmo`], which gives 30 | not executed; follows from C#'s unchecked `int` addition | Strategist.AddAmmoOverflowEmpties | Strategist.AmmoAfterAdd |
