# Enemy spawner and tank AI, modelled in Dafny

This project models the two components that drive computer-controlled tanks
in a Unity tank game:

- **`RandomEnemySpawner`** (module `Spawning`, `enemy_spawner.dfy`). On a
  timer it purges destroyed tanks from its roster. While the roster is below
  `maxEnemies`, it samples up to `maxSpawnAttempts` positions in the arena.
  It keeps the first position that has ground below it, no obstacle nearby,
  no player within `minDistanceFromPlayers` and no live enemy within 8 units.
  It spawns a tank there and jitters the tank's AI parameters around
  configured base values.
- **`TankAI`** (module `EnemyAI`, `tank_ai.dfy`). Each frame it finds the
  nearest live player and derives its state from that distance: Attacking
  within `attackRange`, Chasing within `detectionRange`, else Patrolling. It
  then patrols, chases, or fires on a cooldown, advancing beyond
  0.7 × `attackRange`. It also runs a periodic stuck check.

Module `Common` (`common.dfy`) holds the shared vocabulary: points, optional
values, distance comparisons and the model of `Random.Range`.

How the engine is abstracted:

- **Distances.** `Vector3.Distance(a, b) < d` is decided on the squared
  distance: `d > 0 && |a-b|² < d²`. `Common.DistanceEncoding` proves this
  agrees with the comparison of the true distance.
- **Physics.** Raycasts and the overlap sphere are oracle functions passed
  in. The spawner gets them in `World.physics`; the tank AI gets a `DownRay`.
- **Scene state.** `FindGameObjectsWithTag("Player")` becomes a sequence of
  positions. Unity's "destroyed objects compare equal to null" becomes a map
  `live` from handles to positions: a roster handle not in `live` is null.
- **Randomness.** Every `Random.Range(lo, hi)` value is a draw `t` in [0, 1]
  mapped to `lo + t·(hi − lo)`. `Random.insideUnitCircle` is a `DiscDraw`
  with `a² + b² ≤ 1`.
- **Time and position.** `Time.time` and the tank's position are inputs of
  `TankAI.Tick`.
- **Instantiation.** What `Instantiate` returns is the input `created`.

Behaviours of the code worth knowing, modelled as written:

- **The player-distance test is full 3-D distance from the candidate.** The
  candidate sits at the probe height `mapCenter.y + groundCheckDistance`,
  not on the ground, and the test measures from there. So the height gap
  counts toward the minimum distance: with the default settings (gap 10,
  minimum 15) a candidate is accepted at a horizontal distance of about 11.2
  from a player standing at `mapCenter.y`.
  `Spawning.ProbeHeightCountsTowardPlayerDistance` proves the extreme case,
  for settings where the gap reaches the minimum (not the defaults): a
  player directly below the candidate passes the test.
- **`Vector3.zero` means "not found".** Unity's `Vector3 !=` is approximate.
  So a valid candidate within 1e-5 of the origin (squared distance below
  1e-10) is discarded, not only the exact origin
  (`Spawning.ValidOriginIsDiscarded`).
- **A fire rate of 0 never fires.** `1f/0` is infinite. A negative fire rate
  is not clamped: the guard `now >= lastFireTime + 1/fireRate` then holds
  every frame once time has passed `lastFireTime`.
- **`SpawnEnemyNow` does not purge first.** Destroyed entries still count
  against the cap there.

## Model

| member | source | states |
|---|---|---|
| `Common.DistanceEncoding` | Assets/Scripts/Managers/RandomEnemySpawner.cs:165-166 | for a true distance r ≥ 0 with r² = s, the squared-distance tests decide exactly r < d and r ≤ d |
| `Common.SquaresOrderDistances` | Assets/Scripts/Managers/TankAI.cs:104-105 | comparing two distances from one point by their squares gives the same order as comparing the distances |
| `Common.Range` | Assets/Scripts/Managers/RandomEnemySpawner.cs:105-106 | a `Random.Range` value lies between its two bounds, whichever is larger, and hits each bound at the ends of the draw |
| `Spawning.GenerateRandomPosition` | Assets/Scripts/Managers/RandomEnemySpawner.cs:103-112 | a candidate has x in cx ± sx/2 and z in cz ± sz/2, and y = mapCenter.y + groundCheckDistance |
| `Spawning.FirstValidFrom` | Assets/Scripts/Managers/RandomEnemySpawner.cs:86-101 | the sampling loop returns either the zero vector or a candidate that passes all four checks and lies in the spawn area |
| `Spawning.FirstValidIsFirst` | Assets/Scripts/Managers/RandomEnemySpawner.cs:88-97 | when attempt i is the first whose candidate is valid, the loop returns that candidate (first valid wins) |
| `Spawning.NoValidCandidateGivesZero` | Assets/Scripts/Managers/RandomEnemySpawner.cs:88-100 | when no attempt within the budget is valid, including a budget ≤ 0, the loop returns `Vector3.zero` |
| `Spawning.GroundSnap` | Assets/Scripts/Managers/RandomEnemySpawner.cs:196-201 | snapping keeps x and z; the height becomes that of the ground hit when the ray hits, and the point is unchanged when it misses |
| `Spawning.Jitter` | Assets/Scripts/Managers/RandomEnemySpawner.cs:240-244 | for a non-negative base, detection range, attack range and move speed are in [0.8b, 1.2b], and fire rate and patrol radius in [0.7b, 1.3b]; for any base, each value is between its two band bounds |
| `Spawning.AcceptedSpawnIsValid` | Assets/Scripts/Managers/RandomEnemySpawner.cs:67-79 | a spawned tank uses the factory's handle and stands over an in-area candidate with ground below, no obstacle, no player closer than the minimum and no live enemy closer than 8, at the height of the ground hit below that candidate; its heading is in [0, 360], and its detection range and fire rate are in their jitter bands |
| `Spawning.ValidOriginIsDiscarded` | Assets/Scripts/Managers/RandomEnemySpawner.cs:71 | a first candidate that is valid but compares equal to the zero vector under Unity's approximate `==` (squared distance below 1e-10) produces no spawn |
| `Spawning.ProbeHeightCountsTowardPlayerDistance` | Assets/Scripts/Managers/RandomEnemySpawner.cs:109-166 | a player at zero horizontal distance passes the player test once the candidate's height above it reaches the minimum distance |
| `Spawning.Purge` | Assets/Scripts/Managers/RandomEnemySpawner.cs:272-276 | the purged roster is no longer than before and holds exactly the handles that were in it and are live |
| `Spawning.PurgeConcat` | Assets/Scripts/Managers/RandomEnemySpawner.cs:275 | purging keeps order: it distributes over concatenation |
| `Spawning.PurgeCounts` | Assets/Scripts/Managers/RandomEnemySpawner.cs:275 | each live handle keeps all its occurrences and each destroyed handle loses all of them |
| `Spawning.PurgeKeepsLiveRoster` | Assets/Scripts/Managers/RandomEnemySpawner.cs:275 | a purge leaves the roster unchanged exactly when no entry is destroyed |
| `Spawning.PurgeKeepsEnemyDistanceTest` | Assets/Scripts/Managers/RandomEnemySpawner.cs:179-188 | the enemy-distance test skips destroyed entries, so its answer is the same on the purged roster |
| `Spawning.CycleRespectsCap` | Assets/Scripts/Managers/RandomEnemySpawner.cs:56-63 | a cycle adds at most one enemy to the purged roster, never goes above `maxEnemies`, and adds nothing to a full roster |
| `Spawning.RandomEnemySpawner.constructor` | Assets/Scripts/Managers/RandomEnemySpawner.cs:12-54 | the default configuration, an empty roster, and a first wait of `spawnInterval` from start-up |
| `Spawning.RandomEnemySpawner.IsAwayFromPlayers` | Assets/Scripts/Managers/RandomEnemySpawner.cs:159-173 | true iff no player is at distance < `minDistanceFromPlayers` (equality is accepted) |
| `Spawning.RandomEnemySpawner.IsAwayFromOtherEnemies` | Assets/Scripts/Managers/RandomEnemySpawner.cs:175-192 | true iff no live roster entry is at distance < 8; destroyed entries are skipped |
| `Spawning.RandomEnemySpawner.IsValidSpawnPosition` | Assets/Scripts/Managers/RandomEnemySpawner.cs:114-133 | exactly ground ∧ ¬obstacles ∧ away from players ∧ away from enemies, tested in that order with early exit |
| `Spawning.RandomEnemySpawner.FindValidSpawnPosition` | Assets/Scripts/Managers/RandomEnemySpawner.cs:86-101 | the attempt loop returns what `FirstValidFrom` specifies |
| `Spawning.RandomEnemySpawner.SpawnRandomEnemy` | Assets/Scripts/Managers/RandomEnemySpawner.cs:67-84 | the roster grows by the new handle exactly when the position found does not compare equal to the zero vector (approximate `==`) and the factory produced a tank; otherwise it is unchanged |
| `Spawning.RandomEnemySpawner.CleanupDestroyedEnemies` | Assets/Scripts/Managers/RandomEnemySpawner.cs:272-276 | the roster becomes its purge |
| `Spawning.RandomEnemySpawner.SpawnCycle` | Assets/Scripts/Managers/RandomEnemySpawner.cs:56-63 | the roster becomes its purge plus at most the one handle the capped spawn adds |
| `Spawning.RandomEnemySpawner.Tick` | Assets/Scripts/Managers/RandomEnemySpawner.cs:50-65 | before the wait ends nothing changes; once it ends, one cycle runs and the next wait is `spawnInterval` from now |
| `Spawning.RandomEnemySpawner.SetMaxEnemies` | Assets/Scripts/Managers/RandomEnemySpawner.cs:279-282 | only `maxEnemies` changes |
| `Spawning.RandomEnemySpawner.SetSpawnInterval` | Assets/Scripts/Managers/RandomEnemySpawner.cs:284-287 | only `spawnInterval` changes; the pending wait keeps its deadline |
| `Spawning.RandomEnemySpawner.SpawnEnemyNow` | Assets/Scripts/Managers/RandomEnemySpawner.cs:289-295 | a spawn is attempted only when the unpurged roster is below the cap; the roster grows by at most that spawn |
| `Spawning.RandomEnemySpawner.ClearAllEnemies` | Assets/Scripts/Managers/RandomEnemySpawner.cs:297-307 | destroys exactly the live entries, in roster order, and leaves the roster empty |
| `Spawning.ClearTwice` | Assets/Scripts/Managers/RandomEnemySpawner.cs:297-307 | clearing is idempotent: a second call destroys nothing and the roster stays empty |
| `Spawning.RandomEnemySpawner.GetEnemyCount` | Assets/Scripts/Managers/RandomEnemySpawner.cs:309-313 | purges, then returns the size of the purged roster, i.e. the number of live entries |
| `Spawning.RandomEnemySpawner.SetAIParameters` | Assets/Scripts/Managers/RandomEnemySpawner.cs:316-323 | only the five base values change; no spawned tank is touched |
| `EnemyAI.NearestIn` | Assets/Scripts/Managers/TankAI.cs:94-111 | no result iff every player is destroyed; otherwise the result is a live player nearest of all and strictly nearer than every live player before it (the first wins ties) |
| `EnemyAI.NearestIsUnique` | Assets/Scripts/Managers/TankAI.cs:100-111 | at most one index satisfies that characterisation |
| `EnemyAI.StateByDistance` | Assets/Scripts/Managers/TankAI.cs:114-131 | with nearest distance r: Attacking iff r ≤ attackRange (checked first, so it wins even above detectionRange); Chasing iff attackRange < r ≤ detectionRange; Patrolling otherwise |
| `EnemyAI.StateMonotoneInDistance` | Assets/Scripts/Managers/TankAI.cs:114-136 | a nearer player never gives a less aggressive state, and having no player gives the least aggressive state |
| `EnemyAI.ShotTimes` | Assets/Scripts/Managers/TankAI.cs:169-173 | a run of attacking frames fires at most once per frame |
| `EnemyAI.ShotsAreSpaced` | Assets/Scripts/Managers/TankAI.cs:169-173 | with fireRate > 0 the first shot is at least 1/fireRate after `lastFireTime`, and consecutive shots are at least 1/fireRate apart |
| `EnemyAI.ZeroRateNeverFires` | Assets/Scripts/Managers/TankAI.cs:169 | with fireRate = 0 no frame fires |
| `EnemyAI.AdvanceOnlyInOuterBand` | Assets/Scripts/Managers/TankAI.cs:176-180 | an attacking tank keeps advancing iff its target's distance is in (0.7·attackRange, attackRange] |
| `EnemyAI.PatrolPoint` | Assets/Scripts/Managers/TankAI.cs:241-253 | a new waypoint's horizontal offset from the patrol centre is at most `patrolRadius` |
| `EnemyAI.StuckTurn` | Assets/Scripts/Managers/TankAI.cs:277 | the unstick yaw lies in [−90, 90] degrees |
| `EnemyAI.TankAI.constructor` | Assets/Scripts/Managers/TankAI.cs:41-69 | the spawner's parameters, the default tuning, Patrolling with no target, patrol centre and stuck bookkeeping at the start position and time, and a first waypoint |
| `EnemyAI.TankAI.NearestPlayer` | Assets/Scripts/Managers/TankAI.cs:96-111 | the search loop returns the index characterised by `NearestIn` |
| `EnemyAI.TankAI.FindNearestPlayer` | Assets/Scripts/Managers/TankAI.cs:94-137 | the state is selected from the nearest distance and the two ranges; the target is cleared exactly when Patrolling |
| `EnemyAI.TankAI.Patrol` | Assets/Scripts/Managers/TankAI.cs:139-149 | heads for the current waypoint and reports arrival iff it is closer than 2 |
| `EnemyAI.TankAI.ChaseTarget` | Assets/Scripts/Managers/TankAI.cs:151-157 | heads for the target's position exactly when there is a target |
| `EnemyAI.TankAI.AttackTarget` | Assets/Scripts/Managers/TankAI.cs:159-182 | fires iff the cooldown has elapsed, and then sets `lastFireTime` to now; advances iff the target is beyond 0.7·attackRange |
| `EnemyAI.TankAI.AttackOverFrames` | Assets/Scripts/Managers/TankAI.cs:159-173 | running `AttackTarget` over a run of attacking frames fires at exactly the instants `ShotTimes` gives, and leaves `lastFireTime` at the last shot |
| `EnemyAI.TankAI.SetNewPatrolTarget` | Assets/Scripts/Managers/TankAI.cs:241-253 | the waypoint becomes the ground-snapped point drawn around the patrol centre |
| `EnemyAI.TankAI.CheckIfStuck` | Assets/Scripts/Managers/TankAI.cs:261-283 | nothing happens before the check is due; once due, `lastPosition` and `lastStuckCheckTime` are always reset; a tank that moved less than `minMoveDistance` and is not attacking turns by a yaw in [−90, 90], and gets a new waypoint only if Patrolling |
| `EnemyAI.TankAI.Tick` | Assets/Scripts/Managers/TankAI.cs:71-92 | one frame: state transition, then the state's behaviour (move goal, fire and cooldown, arrival), then the stuck check, each as specified above |
| `EnemyAI.TankAI.SetDetectionRange` | Assets/Scripts/Managers/TankAI.cs:286-289 | only `detectionRange` changes |
| `EnemyAI.TankAI.SetAttackRange` | Assets/Scripts/Managers/TankAI.cs:291-294 | only `attackRange` changes |
| `EnemyAI.TankAI.SetFireRate` | Assets/Scripts/Managers/TankAI.cs:296-299 | only `fireRate` changes |
| `EnemyAI.TankAI.SetPatrolRadius` | Assets/Scripts/Managers/TankAI.cs:301-304 | only `patrolRadius` changes |
| `EnemyAI.TankAI.SetMoveSpeed` | Assets/Scripts/Managers/TankAI.cs:306-309 | only `moveSpeed` changes |

## Left out

- Floating point: all arithmetic is over the reals. The constants `0.7f`, `0.8f`, `1.2f`, … are exact, and the rounding of `Vector3.Distance`'s square root is not modelled.
- Physics queries (`Physics.Raycast`, `Physics.OverlapSphere`) and layer masks are oracle functions supplied by the caller. Their geometry is not modelled.
- Steering kinematics: `MoveTowards`, the `Quaternion.Slerp`/`LookRotation` aiming and `transform.Rotate` are reduced to the move goal and the yaw that `Tick` reports.
- `EnemyAI.TankAI.Tick`: the tank's position is one input for the whole frame. This holds with the tank's Rigidbody, whose `MovePosition` takes effect at the next physics step. The `transform.Translate` fallback for a tank without a Rigidbody, which moves the tank before the stuck check, is not modelled.
- `EnemyAI.TankAI.Tick`: the target is the index of a player in this frame's snapshot, not a `Transform` reference. It is overwritten at the start of every frame before use.
- `Fire()` internals (shell instantiation, `linearVelocity`, audio): firing is only the event that updates `lastFireTime`.
- Coroutine scheduling: `WaitAndSetNewPatrolTarget` is started on every patrolling frame within 2 units, which `Tick` reports. The driver calls `SetNewPatrolTarget` when a wait of `patrolWaitTime` ends. The spawn coroutine's `WaitForSeconds` is the deadline `nextCycleTime`.
- `Spawning.SpawnOutcome`: `created == None` models the null check on the new tank at RandomEnemySpawner.cs:74, which skips the spawn. A missing `tankPrefab` makes `Instantiate` (line 207) throw instead. That exception ends `SpawnEnemiesCoroutine` and stops the spawn timer for good, and it is not modelled: `Tick` keeps scheduling cycles.
- Floating point of the sentinel test: Unity's `Vector3 ==` threshold is the float `9.99999944E-11`, modelled as the exact real 1e-10.
- Engine object lifecycle: `Instantiate` is the `created` handle input and `Destroy` is the list `ClearAllEnemies` returns. Also left out: `AddComponent`/`GetComponent`, disabling `TankMovement`/`TankShooting`, `m_PlayerNumber`, renderer colouring, the canvas, `Debug.Log` and the unused `GameManager` lookup.
- `Random` itself: draws are inputs constrained to their ranges. Their distribution and the order in which they are consumed are not modelled.
- `OnDrawGizmos`/`OnDrawGizmosSelected`: editor-only drawing.
