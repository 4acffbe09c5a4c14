/**
 * The enemy spawner (`RandomEnemySpawner`): on a timer it purges destroyed
 * enemies from its roster and, while the roster is below the cap, samples
 * positions in the arena until one is on the ground, free of obstacles and
 * far enough from players and from the other enemies, then spawns a tank
 * there whose AI parameters are jittered around configured base values.
 *
 * The engine is abstracted away: a `World` snapshot carries the physics
 * queries as oracles, the player positions and the live entities (an
 * entity that is not in `live` is a destroyed one, which Unity reports as
 * null); random draws and the handle of the instantiated tank are inputs.
 */
module Spawning {
  import opened Common
  import opened EnemyAI

  /** A reference to a spawned tank. */
  type Handle = nat

  /** The fixed minimum distance between a new enemy and an existing one. */
  const MinDistanceBetweenEnemies: real := 8.0
  /** The obstacle probe sits this far above the ground hit. */
  const ObstacleProbeLift: real := 1.0
  /** A new tank's heading is drawn from [0, FullTurn] degrees. */
  const FullTurn: real := 360.0

  /** The spawner's configuration (its public fields). */
  datatype Settings = Settings(
    maxEnemies: int,
    spawnInterval: real,
    minDistanceFromPlayers: real,
    maxSpawnAttempts: int,
    mapCenter: Vec3,
    mapSize: Vec3,
    groundCheckDistance: real,
    obstacleCheckRadius: real,
    ai: AIParams)   // the base values aiDetectionRange ... aiMoveSpeed

  const DefaultSettings: Settings := Settings(
    5, 10.0, 15.0, 50, Zero, Vec3(50.0, 0.0, 50.0), 10.0, 3.0, DefaultParams)

  /**
   * The physics queries, with the spawner's layer masks built in: a downward
   * raycast on the ground layer, and whether an overlap sphere on the
   * obstacle layer finds any collider.
   */
  datatype Physics = Physics(groundRay: DownRay, obstacleOverlap: (Vec3, real) -> bool)

  /** What the spawner sees of the scene at the moment it runs. */
  datatype World = World(
    physics: Physics,
    players: seq<Vec3>,             // FindGameObjectsWithTag("Player")
    live: map<Handle, Vec3>)        // entities not yet destroyed, with their positions

  /** The two `Random.Range` draws of GenerateRandomPosition. */
  datatype PositionDraw = PositionDraw(x: real, z: real)
  {
    predicate Valid()
    {
      Unit(x) && Unit(z)
    }
  }

  /** The five `Random.Range` draws of SetupEnemyTank. */
  datatype JitterDraw = JitterDraw(
    detectionRange: real, attackRange: real, fireRate: real, patrolRadius: real, moveSpeed: real)
  {
    predicate Valid()
    {
      Unit(detectionRange) && Unit(attackRange) && Unit(fireRate) && Unit(patrolRadius) && Unit(moveSpeed)
    }
  }

  /** The random values one spawn attempt may consume. */
  datatype SpawnDraws = SpawnDraws(positions: seq<PositionDraw>, yaw: real, jitter: JitterDraw)

  /** What a successful spawn produced. */
  datatype Spawned = Spawned(handle: Handle, position: Vec3, yaw: real, ai: AIParams)

  function Handles(spawned: Option<Spawned>): seq<Handle>
  {
    if spawned.Some? then [spawned.value.handle] else []
  }

  /** The number of iterations of the sampling loop. */
  function Attempts(s: Settings): nat
  {
    if s.maxSpawnAttempts > 0 then s.maxSpawnAttempts else 0
  }

  predicate PositionDrawsFor(s: Settings, draws: seq<PositionDraw>)
  {
    Attempts(s) <= |draws| && forall i :: 0 <= i < |draws| ==> draws[i].Valid()
  }

  predicate DrawsFor(s: Settings, d: SpawnDraws)
  {
    PositionDrawsFor(s, d.positions) && Unit(d.yaw) && d.jitter.Valid()
  }

  // ---------------------------------------------------------------------
  // Candidate generation and the validity predicate
  // ---------------------------------------------------------------------

  predicate Between(v: real, a: real, b: real)
  {
    a <= v <= b || b <= v <= a
  }

  /** Inside the arena's horizontal extent, at the height the ground probe starts from. */
  predicate InSpawnArea(s: Settings, p: Vec3)
  {
    && Between(p.x, s.mapCenter.x - s.mapSize.x / 2.0, s.mapCenter.x + s.mapSize.x / 2.0)
    && Between(p.z, s.mapCenter.z - s.mapSize.z / 2.0, s.mapCenter.z + s.mapSize.z / 2.0)
    && p.y == s.mapCenter.y + s.groundCheckDistance
  }

  function GenerateRandomPosition(s: Settings, d: PositionDraw): (p: Vec3)
    requires d.Valid()
    ensures InSpawnArea(s, p)
  {
    Vec3(
      Range(s.mapCenter.x - s.mapSize.x / 2.0, s.mapCenter.x + s.mapSize.x / 2.0, d.x),
      s.mapCenter.y + s.groundCheckDistance,
      Range(s.mapCenter.z - s.mapSize.z / 2.0, s.mapCenter.z + s.mapSize.z / 2.0, d.z))
  }

  predicate HasGroundBelow(s: Settings, ph: Physics, p: Vec3)
  {
    ph.groundRay(p, s.groundCheckDistance).Some?
  }

  /** Where the obstacle sphere is centred: one unit above the ground hit, if any. */
  function ObstacleProbe(s: Settings, ph: Physics, p: Vec3): Vec3
  {
    match ph.groundRay(p, s.groundCheckDistance)
    case Some(h) => p.(y := h + ObstacleProbeLift)
    case None => p
  }

  predicate HasObstaclesNearby(s: Settings, ph: Physics, p: Vec3)
  {
    ph.obstacleOverlap(ObstacleProbe(s, ph, p), s.obstacleCheckRadius)
  }

  /** No player is strictly closer than `minDistance` (full 3-D distance). */
  predicate AwayFromPlayers(minDistance: real, players: seq<Vec3>, p: Vec3)
  {
    forall i :: 0 <= i < |players| ==> !DistanceBelow(p, players[i], minDistance)
  }

  /** No live roster entry is strictly closer than 8; destroyed entries are ignored. */
  predicate AwayFromOtherEnemies(roster: seq<Handle>, live: map<Handle, Vec3>, p: Vec3)
  {
    forall h :: h in roster && h in live ==> !DistanceBelow(p, live[h], MinDistanceBetweenEnemies)
  }

  /** IsValidSpawnPosition: ground, no obstacles, away from players, away from enemies. */
  predicate ValidSpawnPosition(s: Settings, w: World, roster: seq<Handle>, p: Vec3)
  {
    && HasGroundBelow(s, w.physics, p)
    && !HasObstaclesNearby(s, w.physics, p)
    && AwayFromPlayers(s.minDistanceFromPlayers, w.players, p)
    && AwayFromOtherEnemies(roster, w.live, p)
  }

  /** The candidate of attempt `i` passes the validity predicate. */
  predicate CandidateValid(s: Settings, w: World, roster: seq<Handle>, draws: seq<PositionDraw>, i: int)
    requires 0 <= i < |draws| && draws[i].Valid()
  {
    ValidSpawnPosition(s, w, roster, GenerateRandomPosition(s, draws[i]))
  }

  // ---------------------------------------------------------------------
  // The sampling loop (FindValidSpawnPosition)
  // ---------------------------------------------------------------------

  /** What the sampling loop returns when it starts at attempt `k`. */
  function FirstValidFrom(s: Settings, w: World, roster: seq<Handle>, draws: seq<PositionDraw>, k: nat): (p: Vec3)
    requires PositionDrawsFor(s, draws) && k <= Attempts(s)
    ensures p == Zero || (ValidSpawnPosition(s, w, roster, p) && InSpawnArea(s, p))
    decreases Attempts(s) - k
  {
    if k == Attempts(s) then Zero
    else
      var candidate := GenerateRandomPosition(s, draws[k]);
      if ValidSpawnPosition(s, w, roster, candidate) then candidate
      else FirstValidFrom(s, w, roster, draws, k + 1)
  }

  /**
   * First valid wins: when attempt `i` is the first (from `k` on) whose
   * candidate passes, the loop returns that candidate.
   */
  lemma {:induction false} FirstValidIsFirst(s: Settings, w: World, roster: seq<Handle>, draws: seq<PositionDraw>, k: nat, i: nat)
    requires PositionDrawsFor(s, draws) && k <= i < Attempts(s)
    requires CandidateValid(s, w, roster, draws, i)
    requires forall j :: k <= j < i ==> !CandidateValid(s, w, roster, draws, j)
    ensures FirstValidFrom(s, w, roster, draws, k) == GenerateRandomPosition(s, draws[i])
    decreases i - k
  {
    if k < i {
      assert !CandidateValid(s, w, roster, draws, k);
      FirstValidIsFirst(s, w, roster, draws, k + 1, i);
    }
  }

  /**
   * When no attempt within the budget passes (in particular when the budget
   * is zero or negative), the loop returns the zero vector.
   */
  lemma {:induction false} NoValidCandidateGivesZero(s: Settings, w: World, roster: seq<Handle>, draws: seq<PositionDraw>, k: nat)
    requires PositionDrawsFor(s, draws) && k <= Attempts(s)
    requires forall j :: k <= j < Attempts(s) ==> !CandidateValid(s, w, roster, draws, j)
    ensures FirstValidFrom(s, w, roster, draws, k) == Zero
    decreases Attempts(s) - k
  {
    if k < Attempts(s) {
      assert !CandidateValid(s, w, roster, draws, k);
      NoValidCandidateGivesZero(s, w, roster, draws, k + 1);
    }
  }

  // ---------------------------------------------------------------------
  // Materialising a tank (CreateEnemyTank, SetupEnemyTank)
  // ---------------------------------------------------------------------

  /** CreateEnemyTank puts the tank on the ground hit under the candidate, if any. */
  function GroundSnap(s: Settings, ph: Physics, p: Vec3): (q: Vec3)
    ensures q.x == p.x && q.z == p.z
    ensures ph.groundRay(p, s.groundCheckDistance).Some? ==> q.y == ph.groundRay(p, s.groundCheckDistance).value
    ensures ph.groundRay(p, s.groundCheckDistance).None? ==> q == p
  {
    match ph.groundRay(p, s.groundCheckDistance)
    case Some(h) => p.(y := h)
    case None => p
  }

  /**
   * The AI parameters of a new tank: ranges and speed within +/-20% of their
   * base, fire rate and patrol radius within +/-30%.
   */
  function Jitter(base: AIParams, d: JitterDraw): (r: AIParams)
    requires d.Valid()
    ensures base.detectionRange >= 0.0 ==>
      0.8 * base.detectionRange <= r.detectionRange <= 1.2 * base.detectionRange
    ensures base.attackRange >= 0.0 ==>
      0.8 * base.attackRange <= r.attackRange <= 1.2 * base.attackRange
    ensures base.moveSpeed >= 0.0 ==>
      0.8 * base.moveSpeed <= r.moveSpeed <= 1.2 * base.moveSpeed
    ensures base.fireRate >= 0.0 ==>
      0.7 * base.fireRate <= r.fireRate <= 1.3 * base.fireRate
    ensures base.patrolRadius >= 0.0 ==>
      0.7 * base.patrolRadius <= r.patrolRadius <= 1.3 * base.patrolRadius
    ensures Between(r.detectionRange, 0.8 * base.detectionRange, 1.2 * base.detectionRange)
    ensures Between(r.attackRange, 0.8 * base.attackRange, 1.2 * base.attackRange)
    ensures Between(r.moveSpeed, 0.8 * base.moveSpeed, 1.2 * base.moveSpeed)
    ensures Between(r.fireRate, 0.7 * base.fireRate, 1.3 * base.fireRate)
    ensures Between(r.patrolRadius, 0.7 * base.patrolRadius, 1.3 * base.patrolRadius)
  {
    AIParams(
      Range(base.detectionRange * 0.8, base.detectionRange * 1.2, d.detectionRange),
      Range(base.attackRange * 0.8, base.attackRange * 1.2, d.attackRange),
      Range(base.fireRate * 0.7, base.fireRate * 1.3, d.fireRate),
      Range(base.patrolRadius * 0.7, base.patrolRadius * 1.3, d.patrolRadius),
      Range(base.moveSpeed * 0.8, base.moveSpeed * 1.2, d.moveSpeed))
  }

  /**
   * SpawnRandomEnemy: search for a position; anything that compares equal to
   * the zero vector (Unity's approximate `==`) means failure;
   * otherwise a tank instantiated by the factory (`created`, None when the
   * factory yields nothing) is placed, turned and configured.
   */
  function SpawnOutcome(s: Settings, w: World, roster: seq<Handle>, d: SpawnDraws, created: Option<Handle>): Option<Spawned>
    requires DrawsFor(s, d)
  {
    var p := FirstValidFrom(s, w, roster, d.positions, 0);
    if !ApproxEqual(p, Zero) && created.Some? then
      Some(Spawned(created.value, GroundSnap(s, w.physics, p), Range(0.0, FullTurn, d.yaw), Jitter(s.ai, d.jitter)))
    else
      None
  }

  /**
   * Every spawned tank stands on the ground hit under a candidate drawn
   * inside the arena that passed all four checks, and carries a heading in
   * [0, 360] and parameters inside their jitter bands.
   */
  lemma AcceptedSpawnIsValid(s: Settings, w: World, roster: seq<Handle>, d: SpawnDraws, created: Option<Handle>)
    requires DrawsFor(s, d)
    requires SpawnOutcome(s, w, roster, d, created).Some?
    ensures var sp := SpawnOutcome(s, w, roster, d, created).value;
            var p := FirstValidFrom(s, w, roster, d.positions, 0);
      && Some(sp.handle) == created
      && HasGroundBelow(s, w.physics, p)
      && !HasObstaclesNearby(s, w.physics, p)
      && AwayFromPlayers(s.minDistanceFromPlayers, w.players, p)
      && AwayFromOtherEnemies(roster, w.live, p)
      && InSpawnArea(s, p)
      && sp.position.x == p.x && sp.position.z == p.z
      && sp.position.y == w.physics.groundRay(p, s.groundCheckDistance).value
      && 0.0 <= sp.yaw <= FullTurn
      && Between(sp.ai.detectionRange, 0.8 * s.ai.detectionRange, 1.2 * s.ai.detectionRange)
      && Between(sp.ai.fireRate, 0.7 * s.ai.fireRate, 1.3 * s.ai.fireRate)
  {
  }

  /**
   * The zero vector doubles as "not found", and the test uses Unity's
   * approximate `==`: a valid first candidate within 1e-5 of the origin is
   * thrown away and nothing is spawned.
   */
  lemma ValidOriginIsDiscarded(s: Settings, w: World, roster: seq<Handle>, d: SpawnDraws, created: Option<Handle>)
    requires DrawsFor(s, d) && Attempts(s) > 0
    requires CandidateValid(s, w, roster, d.positions, 0)
    requires ApproxEqual(GenerateRandomPosition(s, d.positions[0]), Zero)
    ensures SpawnOutcome(s, w, roster, d, created) == None
  {
  }

  /**
   * The player test measures full 3-D distance from the candidate, which
   * sits at the probe height: a player directly below the candidate passes
   * as soon as the height difference reaches the minimum distance.
   */
  lemma ProbeHeightCountsTowardPlayerDistance(minDistance: real, player: Vec3, p: Vec3)
    requires p.x == player.x && p.z == player.z
    requires 0.0 <= minDistance <= p.y - player.y
    ensures AwayFromPlayers(minDistance, [player], p)
    ensures SqHorizontalDist(p, player) == 0.0
  {
    SquareMonotone(minDistance, p.y - player.y);
    assert SqDist(p, [player][0]) == (p.y - player.y) * (p.y - player.y);
  }

  // ---------------------------------------------------------------------
  // The roster
  // ---------------------------------------------------------------------

  /** `RemoveAll(enemy => enemy == null)`: keep the live entries. */
  function Purge(roster: seq<Handle>, live: map<Handle, Vec3>): (kept: seq<Handle>)
    ensures |kept| <= |roster|
    ensures forall h :: h in kept <==> h in roster && h in live
    decreases |roster|
  {
    if roster == [] then []
    else (if roster[0] in live then [roster[0]] else []) + Purge(roster[1..], live)
  }

  /** Purging keeps order: it distributes over concatenation. */
  lemma {:induction false} PurgeConcat(a: seq<Handle>, b: seq<Handle>, live: map<Handle, Vec3>)
    ensures Purge(a + b, live) == Purge(a, live) + Purge(b, live)
    decreases |a|
  {
    if a == [] {
      assert a + b == b;
    } else {
      assert (a + b)[0] == a[0];
      assert (a + b)[1..] == a[1..] + b;
      PurgeConcat(a[1..], b, live);
    }
  }

  /**
   * Purging removes exactly the destroyed entries: each live handle keeps
   * all its occurrences, each destroyed one loses all of them.
   */
  lemma {:induction false} PurgeCounts(roster: seq<Handle>, live: map<Handle, Vec3>, h: Handle)
    ensures multiset(Purge(roster, live))[h] == if h in live then multiset(roster)[h] else 0
    decreases |roster|
  {
    if roster != [] {
      PurgeCounts(roster[1..], live, h);
      assert roster == [roster[0]] + roster[1..];
    }
  }

  /** A roster is left as it is by a purge exactly when none of its entries is destroyed. */
  lemma {:induction false} PurgeKeepsLiveRoster(roster: seq<Handle>, live: map<Handle, Vec3>)
    ensures Purge(roster, live) == roster <==> forall i :: 0 <= i < |roster| ==> roster[i] in live
    decreases |roster|
  {
    if roster != [] {
      PurgeKeepsLiveRoster(roster[1..], live);
      if roster[0] !in live {
        assert |Purge(roster, live)| < |roster| by {
          assert Purge(roster, live) == Purge(roster[1..], live);
        }
      }
      assert forall i :: 0 < i < |roster| ==> roster[i] == roster[1..][i - 1];
    }
  }

  /** The enemy-distance test sees through destroyed entries, so purging first does not change it. */
  lemma PurgeKeepsEnemyDistanceTest(roster: seq<Handle>, live: map<Handle, Vec3>, p: Vec3)
    ensures AwayFromOtherEnemies(Purge(roster, live), live, p) == AwayFromOtherEnemies(roster, live, p)
  {
  }

  /**
   * One timer cycle: purge, then attempt one spawn only while the purged
   * roster is below the cap (the enemy-distance test runs on the purged
   * roster).
   */
  function CycleSpawn(s: Settings, w: World, roster: seq<Handle>, d: SpawnDraws, created: Option<Handle>): Option<Spawned>
    requires DrawsFor(s, d)
  {
    var purged := Purge(roster, w.live);
    if |purged| < s.maxEnemies then SpawnOutcome(s, w, purged, d, created) else None
  }

  /**
   * A cycle adds at most one enemy, and only below the cap: it never takes
   * the roster above `maxEnemies`, and a full roster gets no new enemy.
   */
  lemma CycleRespectsCap(s: Settings, w: World, roster: seq<Handle>, d: SpawnDraws, created: Option<Handle>)
    requires DrawsFor(s, d)
    ensures var purged := Purge(roster, w.live);
            var after := purged + Handles(CycleSpawn(s, w, roster, d, created));
      && |purged| <= |after| <= |purged| + 1
      && (|after| > |purged| ==> |after| <= s.maxEnemies)
      && (|purged| >= s.maxEnemies ==> after == purged)
  {
  }

  class RandomEnemySpawner {
    var settings: Settings
    var spawnedEnemies: seq<Handle>
    /** When the pending `WaitForSeconds(spawnInterval)` of the spawn coroutine ends. */
    var nextCycleTime: real

    /** The default configuration; Start() at `startTime` begins the first wait. */
    constructor (startTime: real)
      ensures settings == DefaultSettings && spawnedEnemies == []
      ensures nextCycleTime == startTime + DefaultSettings.spawnInterval
    {
      settings := DefaultSettings;
      spawnedEnemies := [];
      nextCycleTime := startTime + DefaultSettings.spawnInterval;
    }

    method IsAwayFromPlayers(players: seq<Vec3>, position: Vec3) returns (away: bool)
      ensures away == AwayFromPlayers(settings.minDistanceFromPlayers, players, position)
    {
      var i := 0;
      while i < |players|
        invariant 0 <= i <= |players|
        invariant forall j :: 0 <= j < i ==> !DistanceBelow(position, players[j], settings.minDistanceFromPlayers)
      {
        var distance := SqDist(position, players[i]);
        if SqrtBelow(distance, settings.minDistanceFromPlayers) {
          return false;
        }
        i := i + 1;
      }
      return true;
    }

    method IsAwayFromOtherEnemies(live: map<Handle, Vec3>, position: Vec3) returns (away: bool)
      ensures away == AwayFromOtherEnemies(spawnedEnemies, live, position)
    {
      var i := 0;
      while i < |spawnedEnemies|
        invariant 0 <= i <= |spawnedEnemies|
        invariant forall j :: 0 <= j < i && spawnedEnemies[j] in live ==>
          !DistanceBelow(position, live[spawnedEnemies[j]], MinDistanceBetweenEnemies)
      {
        var enemy := spawnedEnemies[i];
        if enemy in live {
          var distance := SqDist(position, live[enemy]);
          if SqrtBelow(distance, MinDistanceBetweenEnemies) {
            return false;
          }
        }
        i := i + 1;
      }
      return true;
    }

    method IsValidSpawnPosition(w: World, position: Vec3) returns (valid: bool)
      ensures valid == ValidSpawnPosition(settings, w, spawnedEnemies, position)
    {
      if !HasGroundBelow(settings, w.physics, position) {
        return false;
      }
      if HasObstaclesNearby(settings, w.physics, position) {
        return false;
      }
      var away := IsAwayFromPlayers(w.players, position);
      if !away {
        return false;
      }
      away := IsAwayFromOtherEnemies(w.live, position);
      if !away {
        return false;
      }
      return true;
    }

    method FindValidSpawnPosition(w: World, draws: seq<PositionDraw>) returns (position: Vec3)
      requires PositionDrawsFor(settings, draws)
      ensures position == FirstValidFrom(settings, w, spawnedEnemies, draws, 0)
    {
      var attempt := 0;
      while attempt < settings.maxSpawnAttempts
        invariant 0 <= attempt <= Attempts(settings)
        invariant FirstValidFrom(settings, w, spawnedEnemies, draws, 0)
               == FirstValidFrom(settings, w, spawnedEnemies, draws, attempt)
      {
        var randomPosition := GenerateRandomPosition(settings, draws[attempt]);
        var valid := IsValidSpawnPosition(w, randomPosition);
        if valid {
          return randomPosition;
        }
        attempt := attempt + 1;
      }
      return Zero;
    }

    method SpawnRandomEnemy(w: World, d: SpawnDraws, created: Option<Handle>) returns (spawned: Option<Spawned>)
      requires DrawsFor(settings, d)
      modifies this`spawnedEnemies
      ensures spawned == SpawnOutcome(settings, w, old(spawnedEnemies), d, created)
      ensures spawnedEnemies == old(spawnedEnemies) + Handles(spawned)
    {
      var spawnPosition := FindValidSpawnPosition(w, d.positions);
      spawned := None;
      if !ApproxEqual(spawnPosition, Zero) {
        if created.Some? {
          var position := GroundSnap(settings, w.physics, spawnPosition);
          var yaw := Range(0.0, FullTurn, d.yaw);
          spawned := Some(Spawned(created.value, position, yaw, Jitter(settings.ai, d.jitter)));
          spawnedEnemies := spawnedEnemies + [created.value];
        }
      }
    }

    method CleanupDestroyedEnemies(live: map<Handle, Vec3>)
      modifies this`spawnedEnemies
      ensures spawnedEnemies == Purge(old(spawnedEnemies), live)
    {
      spawnedEnemies := Purge(spawnedEnemies, live);
    }

    /** The body of one iteration of the spawn coroutine. */
    method SpawnCycle(w: World, d: SpawnDraws, created: Option<Handle>) returns (spawned: Option<Spawned>)
      requires DrawsFor(settings, d)
      modifies this`spawnedEnemies
      ensures spawned == CycleSpawn(settings, w, old(spawnedEnemies), d, created)
      ensures spawnedEnemies == Purge(old(spawnedEnemies), w.live) + Handles(spawned)
    {
      CleanupDestroyedEnemies(w.live);
      spawned := None;
      if |spawnedEnemies| < settings.maxEnemies {
        spawned := SpawnRandomEnemy(w, d, created);
      }
    }

    /**
     * The spawn coroutine observed at time `now`: when its wait is over it
     * runs one cycle and starts the next wait with the interval in force.
     */
    method Tick(now: real, w: World, d: SpawnDraws, created: Option<Handle>) returns (spawned: Option<Spawned>)
      requires DrawsFor(settings, d)
      modifies this`spawnedEnemies, this`nextCycleTime
      ensures now >= old(nextCycleTime) ==>
        && spawned == CycleSpawn(settings, w, old(spawnedEnemies), d, created)
        && spawnedEnemies == Purge(old(spawnedEnemies), w.live) + Handles(spawned)
        && nextCycleTime == now + settings.spawnInterval
      ensures now < old(nextCycleTime) ==>
        spawned == None && spawnedEnemies == old(spawnedEnemies) && nextCycleTime == old(nextCycleTime)
    {
      spawned := None;
      if now >= nextCycleTime {
        spawned := SpawnCycle(w, d, created);
        nextCycleTime := now + settings.spawnInterval;
      }
    }

    method SetMaxEnemies(max: int)
      modifies this`settings
      ensures settings == old(settings).(maxEnemies := max)
    {
      settings := settings.(maxEnemies := max);
    }

    /** Takes effect from the next wait on; the pending one keeps its deadline. */
    method SetSpawnInterval(interval: real)
      modifies this`settings
      ensures settings == old(settings).(spawnInterval := interval)
    {
      settings := settings.(spawnInterval := interval);
    }

    /** Spawns under the cap, without purging first: destroyed entries still count. */
    method SpawnEnemyNow(w: World, d: SpawnDraws, created: Option<Handle>) returns (spawned: Option<Spawned>)
      requires DrawsFor(settings, d)
      modifies this`spawnedEnemies
      ensures spawned == if |old(spawnedEnemies)| < settings.maxEnemies
                         then SpawnOutcome(settings, w, old(spawnedEnemies), d, created) else None
      ensures spawnedEnemies == old(spawnedEnemies) + Handles(spawned)
    {
      spawned := None;
      if |spawnedEnemies| < settings.maxEnemies {
        spawned := SpawnRandomEnemy(w, d, created);
      }
    }

    /** Destroys every live roster entry, in roster order, and empties the roster. */
    method ClearAllEnemies(live: map<Handle, Vec3>) returns (destroyed: seq<Handle>)
      modifies this`spawnedEnemies
      ensures destroyed == Purge(old(spawnedEnemies), live)
      ensures spawnedEnemies == []
    {
      destroyed := [];
      var i := 0;
      while i < |spawnedEnemies|
        invariant spawnedEnemies == old(spawnedEnemies)
        invariant 0 <= i <= |spawnedEnemies|
        invariant destroyed == Purge(spawnedEnemies[..i], live)
      {
        var enemy := spawnedEnemies[i];
        assert spawnedEnemies[..i + 1] == spawnedEnemies[..i] + [enemy];
        PurgeConcat(spawnedEnemies[..i], [enemy], live);
        if enemy in live {
          destroyed := destroyed + [enemy];
        }
        i := i + 1;
      }
      assert spawnedEnemies[..i] == spawnedEnemies;
      spawnedEnemies := [];
    }

    /** Purges, then reports the roster size: the number of live entries. */
    method GetEnemyCount(live: map<Handle, Vec3>) returns (count: nat)
      modifies this`spawnedEnemies
      ensures spawnedEnemies == Purge(old(spawnedEnemies), live)
      ensures count == |spawnedEnemies|
    {
      CleanupDestroyedEnemies(live);
      count := |spawnedEnemies|;
    }

    /** Changes the base values for later spawns; tanks already spawned keep theirs. */
    method SetAIParameters(detectionRange: real, attackRange: real, fireRate: real, patrolRadius: real, moveSpeed: real)
      modifies this`settings
      ensures settings == old(settings).(ai := AIParams(detectionRange, attackRange, fireRate, patrolRadius, moveSpeed))
    {
      settings := settings.(ai := AIParams(detectionRange, attackRange, fireRate, patrolRadius, moveSpeed));
    }
  }

  /**
   * Clearing twice in a row: the second call finds an empty roster, destroys
   * nothing and leaves it empty.
   */
  method ClearTwice(spawner: RandomEnemySpawner, live: map<Handle, Vec3>)
    returns (first: seq<Handle>, second: seq<Handle>)
    modifies spawner
    ensures first == Purge(old(spawner.spawnedEnemies), live)
    ensures second == [] && spawner.spawnedEnemies == []
  {
    first := spawner.ClearAllEnemies(live);
    second := spawner.ClearAllEnemies(live);
  }
}
