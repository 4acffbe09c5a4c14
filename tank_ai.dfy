/**
 * The per-tank enemy controller (`TankAI`): each frame it picks the nearest
 * player, derives its state (Patrolling, Chasing or Attacking) from that
 * player's distance, acts on the state (moving, aiming, firing) and runs a
 * periodic "am I stuck" check.
 *
 * The engine is abstracted away: the frame time and the tank's own position
 * are inputs of `Tick`, the players are a snapshot of positions (None for a
 * destroyed player), random draws are inputs constrained to their range,
 * and the steering kinematics are reduced to the point the tank is told to
 * move towards.
 */
module EnemyAI {
  import opened Common

  datatype AIState = Patrolling | Chasing | Attacking

  /** The five tunable parameters that the spawner seeds with jitter. */
  datatype AIParams = AIParams(
    detectionRange: real,
    attackRange: real,
    fireRate: real,
    patrolRadius: real,
    moveSpeed: real)

  const DefaultParams: AIParams := AIParams(15.0, 10.0, 1.0, 10.0, 5.0)

  /** A patrol waypoint closer than this counts as reached. */
  const ArrivalDistance: real := 2.0
  /** While attacking, the tank keeps closing in beyond this share of its attack range. */
  const AdvanceFraction: real := 0.7
  /** A stuck tank turns by a yaw drawn from [-StuckTurnBound, StuckTurnBound] degrees. */
  const StuckTurnBound: real := 90.0
  /** A new waypoint is snapped to the ground by a ray cast from this far above it ... */
  const PatrolProbeLift: real := 10.0
  /** ... and this long. */
  const PatrolProbeLength: real := 20.0

  /** A draw of `Random.insideUnitCircle`. */
  datatype DiscDraw = DiscDraw(a: real, b: real)
  {
    predicate Valid()
    {
      a * a + b * b <= 1.0
    }
  }

  // ---------------------------------------------------------------------
  // Nearest player (FindNearestPlayer, first half)
  // ---------------------------------------------------------------------

  /**
   * Player `i` is the one the search settles on: no live player is closer,
   * and every live player before it in the list is strictly farther (the
   * search replaces its candidate only on a strictly smaller distance).
   */
  predicate IsNearest(position: Vec3, players: seq<Option<Vec3>>, i: int)
  {
    && 0 <= i < |players|
    && players[i].Some?
    && forall j :: 0 <= j < |players| && players[j].Some? ==>
         && SqDist(position, players[i].value) <= SqDist(position, players[j].value)
         && (j < i ==> SqDist(position, players[i].value) < SqDist(position, players[j].value))
  }

  /** Every entry of the snapshot is a destroyed player. */
  predicate NoPlayer(players: seq<Option<Vec3>>)
  {
    forall j :: 0 <= j < |players| ==> players[j].None?
  }

  /** The index the nearest-player search ends with, read on prefixes of the list. */
  function NearestIn(position: Vec3, players: seq<Option<Vec3>>): (n: Option<nat>)
    ensures n.None? <==> NoPlayer(players)
    ensures n.Some? ==> IsNearest(position, players, n.value)
    decreases |players|
  {
    if players == [] then None
    else
      var k := |players| - 1;
      var best := NearestIn(position, players[..k]);
      if players[k].None? then
        assert forall j :: 0 <= j < k ==> players[..k][j] == players[j];
        best
      else if best.None? || SqDist(position, players[k].value) < SqDist(position, players[best.value].value) then
        assert forall j :: 0 <= j < k ==> players[..k][j] == players[j];
        Some(k)
      else
        assert forall j :: 0 <= j < k ==> players[..k][j] == players[j];
        best
  }

  /** Two players cannot both satisfy `IsNearest`: the search result is determined. */
  lemma NearestIsUnique(position: Vec3, players: seq<Option<Vec3>>, i: int, k: int)
    requires IsNearest(position, players, i) && IsNearest(position, players, k)
    ensures i == k
  {
  }

  /** The squared distance to the nearest live player, if there is one. */
  function NearestSqDist(position: Vec3, players: seq<Option<Vec3>>): Option<real>
  {
    match NearestIn(position, players)
    case None => None
    case Some(i) => Some(SqDist(position, players[i].value))
  }

  // ---------------------------------------------------------------------
  // State selection (FindNearestPlayer, second half)
  // ---------------------------------------------------------------------

  /**
   * The state for a frame, from the squared distance to the nearest player
   * (None when no player is alive) and the two ranges. The attack test comes
   * first.
   */
  function SelectState(nearest: Option<real>, attackRange: real, detectionRange: real): AIState
  {
    match nearest
    case None => Patrolling
    case Some(s) =>
      if SqrtAtMost(s, attackRange) then Attacking
      else if SqrtAtMost(s, detectionRange) then Chasing
      else Patrolling
  }

  /**
   * In terms of the true distance `r` to the nearest player: attack within
   * the attack range (even when it exceeds the detection range), chase
   * within the detection range, otherwise patrol.
   */
  lemma StateByDistance(s: real, r: real, attackRange: real, detectionRange: real)
    requires r >= 0.0 && r * r == s
    ensures SelectState(Some(s), attackRange, detectionRange) == Attacking <==> r <= attackRange
    ensures SelectState(Some(s), attackRange, detectionRange) == Chasing <==> attackRange < r <= detectionRange
    ensures SelectState(Some(s), attackRange, detectionRange) == Patrolling <==> attackRange < r && detectionRange < r
  {
    DistanceEncoding(s, r, attackRange);
    DistanceEncoding(s, r, detectionRange);
  }

  function Aggression(st: AIState): nat
  {
    match st
    case Patrolling => 0
    case Chasing => 1
    case Attacking => 2
  }

  /**
   * The thresholds are ordered: a nearer player never leads to a less
   * aggressive state than a farther one, whatever the two ranges are.
   */
  lemma StateMonotoneInDistance(s1: real, s2: real, attackRange: real, detectionRange: real)
    requires 0.0 <= s1 <= s2
    ensures Aggression(SelectState(Some(s1), attackRange, detectionRange))
         >= Aggression(SelectState(Some(s2), attackRange, detectionRange))
    ensures Aggression(SelectState(Some(s2), attackRange, detectionRange))
         >= Aggression(SelectState(None, attackRange, detectionRange))
  {
  }

  // ---------------------------------------------------------------------
  // Attacking: fire guard and the advance rule (AttackTarget)
  // ---------------------------------------------------------------------

  /**
   * `Time.time >= lastFireTime + 1f / fireRate`. With a zero fire rate the
   * float division gives infinity and the guard never holds.
   */
  predicate FireDue(now: real, lastFireTime: real, fireRate: real)
  {
    fireRate != 0.0 && now >= lastFireTime + 1.0 / fireRate
  }

  /**
   * The instants at which a tank that stays in Attacking with a live target
   * fires, over frames at `times`, starting from `lastFireTime`: each shot
   * sets the timestamp the next guard is measured from.
   */
  function ShotTimes(times: seq<real>, lastFireTime: real, fireRate: real): (shots: seq<real>)
    ensures |shots| <= |times|
    decreases |times|
  {
    if times == [] then []
    else if FireDue(times[0], lastFireTime, fireRate) then
      [times[0]] + ShotTimes(times[1..], times[0], fireRate)
    else
      ShotTimes(times[1..], lastFireTime, fireRate)
  }

  /** With a positive fire rate, consecutive shots are at least 1/fireRate apart. */
  lemma {:induction false} ShotsAreSpaced(times: seq<real>, lastFireTime: real, fireRate: real)
    requires fireRate > 0.0
    ensures var shots := ShotTimes(times, lastFireTime, fireRate);
      && (|shots| > 0 ==> shots[0] >= lastFireTime + 1.0 / fireRate)
      && forall i :: 0 < i < |shots| ==> shots[i] >= shots[i - 1] + 1.0 / fireRate
    decreases |times|
  {
    if times != [] {
      if FireDue(times[0], lastFireTime, fireRate) {
        var rest := ShotTimes(times[1..], times[0], fireRate);
        ShotsAreSpaced(times[1..], times[0], fireRate);
        var shots := [times[0]] + rest;
        assert shots == ShotTimes(times, lastFireTime, fireRate);
        forall i | 0 < i < |shots|
          ensures shots[i] >= shots[i - 1] + 1.0 / fireRate
        {
          assert shots[i] == rest[i - 1];
          if i > 1 {
            assert shots[i - 1] == rest[i - 2];
          }
        }
      } else {
        ShotsAreSpaced(times[1..], lastFireTime, fireRate);
      }
    }
  }

  /** A tank whose fire rate is zero never fires. */
  lemma {:induction false} ZeroRateNeverFires(times: seq<real>, lastFireTime: real)
    ensures ShotTimes(times, lastFireTime, 0.0) == []
    decreases |times|
  {
    if times != [] {
      ZeroRateNeverFires(times[1..], lastFireTime);
    }
  }

  /** `distanceToTarget > attackRange * 0.7f`, on the squared distance. */
  predicate KeepsAdvancing(s: real, attackRange: real)
  {
    !SqrtAtMost(s, AdvanceFraction * attackRange)
  }

  /**
   * An attacking tank advances only when its target lies in the outer band
   * (0.7 * attackRange, attackRange] of its attack range.
   */
  lemma AdvanceOnlyInOuterBand(s: real, r: real, attackRange: real, detectionRange: real)
    requires r >= 0.0 && r * r == s
    requires SelectState(Some(s), attackRange, detectionRange) == Attacking
    ensures KeepsAdvancing(s, attackRange) <==> AdvanceFraction * attackRange < r <= attackRange
  {
    DistanceEncoding(s, r, attackRange);
    DistanceEncoding(s, r, AdvanceFraction * attackRange);
  }

  // ---------------------------------------------------------------------
  // Patrol waypoints, arrival and the stuck check
  // ---------------------------------------------------------------------

  /**
   * SetNewPatrolTarget: the anchor plus the disc draw scaled by the patrol
   * radius on the horizontal plane, with its height snapped to whatever a
   * downward ray from 10 units above hits within 20 units.
   */
  function PatrolPoint(center: Vec3, radius: real, d: DiscDraw, ray: DownRay): (p: Vec3)
    requires d.Valid()
    ensures SqHorizontalDist(p, center) <= radius * radius
  {
    var flat := Plus(center, Vec3(d.a * radius, 0.0, d.b * radius));
    var p := match ray(Plus(flat, Vec3(0.0, PatrolProbeLift, 0.0)), PatrolProbeLength)
      case Some(h) => flat.(y := h)
      case None => flat;
    HorizontalOffsetBound(center, p, d.a, d.b, radius);
    p
  }

  /** A point offset horizontally by a disc draw scaled by `radius` is within `radius`. */
  lemma HorizontalOffsetBound(center: Vec3, p: Vec3, a: real, b: real, radius: real)
    requires a * a + b * b <= 1.0
    requires p.x == center.x + a * radius && p.z == center.z + b * radius
    ensures SqHorizontalDist(p, center) <= radius * radius
  {
    var dx, dz := a * radius, b * radius;
    assert p.x - center.x == dx && p.z - center.z == dz;
    assert SqHorizontalDist(p, center) == dx * dx + dz * dz;
    assert dx * dx + dz * dz == (a * a + b * b) * (radius * radius);
    MultiplyBoth(radius * radius, a * a + b * b, 1.0);
  }

  lemma MultiplyBoth(c: real, a: real, b: real)
    requires c >= 0.0 && a <= b
    ensures a * c <= b * c
  {
    assert b * c - a * c == (b - a) * c;
  }

  /** `Vector3.Distance(position, waypoint) < 2f` */
  predicate Arrived(position: Vec3, waypoint: Vec3)
  {
    DistanceBelow(position, waypoint, ArrivalDistance)
  }

  /** `Time.time >= lastStuckCheckTime + stuckCheckTime` */
  predicate StuckCheckDue(now: real, lastStuckCheckTime: real, stuckCheckTime: real)
  {
    now >= lastStuckCheckTime + stuckCheckTime
  }

  /** Moved less than the minimum since the last check, and not attacking. */
  predicate Stuck(position: Vec3, lastPosition: Vec3, minMoveDistance: real, state: AIState)
  {
    DistanceBelow(position, lastPosition, minMoveDistance) && state != Attacking
  }

  /** The yaw (degrees) a stuck tank turns by: `Random.Range(-90f, 90f)`. */
  function StuckTurn(t: real): (yaw: real)
    requires Unit(t)
    ensures -StuckTurnBound <= yaw <= StuckTurnBound
  {
    Range(-StuckTurnBound, StuckTurnBound, t)
  }

  /** What one frame asks of the engine. */
  datatype TickOutput = TickOutput(
    moveTo: Option<Vec3>,          // the point MoveTowards is called with, if any
    fired: bool,                   // Fire() was called
    waitForNewPatrolTarget: bool,  // WaitAndSetNewPatrolTarget was started
    turn: Option<real>)            // the yaw of the unstick rotation, if any

  class TankAI {
    var detectionRange: real
    var attackRange: real
    var fireRate: real
    var patrolRadius: real
    var moveSpeed: real
    var rotationSpeed: real
    var patrolWaitTime: real
    var stuckCheckTime: real
    var minMoveDistance: real

    /** The index, in this frame's player snapshot, of the player being chased or attacked. */
    var target: Option<nat>
    var patrolCenter: Vec3
    var currentPatrolTarget: Vec3
    var lastFireTime: real
    var lastStuckCheckTime: real
    var lastPosition: Vec3
    var currentState: AIState

    function Params(): AIParams
      reads this
    {
      AIParams(detectionRange, attackRange, fireRate, patrolRadius, moveSpeed)
    }

    /** The target index names a live player of `players`. */
    predicate TargetIn(players: seq<Option<Vec3>>)
      reads this
    {
      target.Some? ==> target.value < |players| && players[target.value].Some?
    }

    /**
     * The component as the spawner leaves it (parameters `p`) once Start()
     * has run at time `now` with the tank at `position`.
     */
    constructor (p: AIParams, position: Vec3, now: real, draw: DiscDraw, ray: DownRay)
      requires draw.Valid()
      ensures Params() == p
      ensures rotationSpeed == 50.0 && patrolWaitTime == 2.0
      ensures stuckCheckTime == 3.0 && minMoveDistance == 1.0
      ensures currentState == Patrolling && target == None && lastFireTime == 0.0
      ensures patrolCenter == position && lastPosition == position && lastStuckCheckTime == now
      ensures currentPatrolTarget == PatrolPoint(position, p.patrolRadius, draw, ray)
    {
      detectionRange, attackRange, fireRate := p.detectionRange, p.attackRange, p.fireRate;
      patrolRadius, moveSpeed := p.patrolRadius, p.moveSpeed;
      rotationSpeed, patrolWaitTime, stuckCheckTime, minMoveDistance := 50.0, 2.0, 3.0, 1.0;
      target, currentState, lastFireTime := None, Patrolling, 0.0;
      patrolCenter, lastPosition, lastStuckCheckTime := position, position, now;
      currentPatrolTarget := PatrolPoint(position, p.patrolRadius, draw, ray);
    }

    /** The search loop of FindNearestPlayer; `None` plays the part of `Mathf.Infinity`. */
    static method NearestPlayer(position: Vec3, players: seq<Option<Vec3>>) returns (nearest: Option<nat>)
      ensures nearest.None? <==> NoPlayer(players)
      ensures nearest.Some? ==> IsNearest(position, players, nearest.value)
      ensures nearest == NearestIn(position, players)
    {
      var nearestDistance: Option<real> := None;
      nearest := None;
      var i := 0;
      while i < |players|
        invariant 0 <= i <= |players|
        invariant nearest == NearestIn(position, players[..i])
        invariant nearest.Some? ==> nearest.value < i && players[nearest.value].Some?
        invariant nearestDistance.None? <==> nearest.None?
        invariant nearest.Some? ==> nearestDistance.value == SqDist(position, players[nearest.value].value)
      {
        assert players[..i + 1][..i] == players[..i];
        if players[i].Some? {
          var distance := SqDist(position, players[i].value);
          if nearestDistance.None? || distance < nearestDistance.value {
            nearestDistance := Some(distance);
            nearest := Some(i);
          }
        }
        i := i + 1;
      }
      assert players[..i] == players;
    }

    /** FindNearestPlayer: the search followed by the state transition. */
    method FindNearestPlayer(position: Vec3, players: seq<Option<Vec3>>)
      modifies this`currentState, this`target
      ensures currentState == SelectState(NearestSqDist(position, players), attackRange, detectionRange)
      ensures target == if currentState == Patrolling then None else NearestIn(position, players)
      ensures TargetIn(players)
    {
      var nearest := NearestPlayer(position, players);
      if nearest.Some? {
        target := nearest;
        var nearestDistance := SqDist(position, players[nearest.value].value);
        if SqrtAtMost(nearestDistance, attackRange) {
          currentState := Attacking;
        } else if SqrtAtMost(nearestDistance, detectionRange) {
          currentState := Chasing;
        } else {
          currentState := Patrolling;
          target := None;
        }
      } else {
        currentState := Patrolling;
        target := None;
      }
    }

    /** Patrol: head for the waypoint; report whether it has been reached. */
    method Patrol(position: Vec3) returns (moveTo: Vec3, arrived: bool)
      ensures moveTo == currentPatrolTarget
      ensures arrived <==> Arrived(position, currentPatrolTarget)
    {
      moveTo := currentPatrolTarget;
      arrived := Arrived(position, currentPatrolTarget);
    }

    /** ChaseTarget: head for the target, if there is one. */
    method ChaseTarget(players: seq<Option<Vec3>>) returns (moveTo: Option<Vec3>)
      requires TargetIn(players)
      ensures moveTo.Some? <==> target.Some?
      ensures target.Some? ==> moveTo.value == players[target.value].value
    {
      moveTo := None;
      if target.Some? {
        moveTo := Some(players[target.value].value);
      }
    }

    /**
     * AttackTarget: fire when the cooldown has elapsed (and restart it),
     * then keep advancing if the target is beyond 0.7 of the attack range.
     */
    method AttackTarget(now: real, position: Vec3, players: seq<Option<Vec3>>)
      returns (fired: bool, moveTo: Option<Vec3>)
      requires TargetIn(players)
      modifies this`lastFireTime
      ensures fired <==> target.Some? && FireDue(now, old(lastFireTime), fireRate)
      ensures lastFireTime == if fired then now else old(lastFireTime)
      ensures moveTo.Some? <==>
        target.Some? && KeepsAdvancing(SqDist(position, players[target.value].value), attackRange)
      ensures moveTo.Some? ==> moveTo.value == players[target.value].value
    {
      fired, moveTo := false, None;
      if target.Some? {
        var targetPosition := players[target.value].value;
        if FireDue(now, lastFireTime, fireRate) {
          fired := true;
          lastFireTime := now;
        }
        var distanceToTarget := SqDist(position, targetPosition);
        if KeepsAdvancing(distanceToTarget, attackRange) {
          moveTo := Some(targetPosition);
        }
      }
    }

    /**
     * AttackTarget over a run of frames at `times`, the target staying in
     * attack: the frames that fire are exactly `ShotTimes`, so with a
     * positive rate the shots are spaced as `ShotsAreSpaced` states.
     */
    method AttackOverFrames(times: seq<real>, position: Vec3, players: seq<Option<Vec3>>)
      returns (shots: seq<real>)
      requires TargetIn(players) && target.Some?
      modifies this`lastFireTime
      ensures shots == ShotTimes(times, old(lastFireTime), fireRate)
      ensures lastFireTime == if shots == [] then old(lastFireTime) else shots[|shots| - 1]
    {
      shots := [];
      var i := 0;
      while i < |times|
        invariant 0 <= i <= |times|
        invariant shots + ShotTimes(times[i..], lastFireTime, fireRate) == ShotTimes(times, old(lastFireTime), fireRate)
        invariant lastFireTime == if shots == [] then old(lastFireTime) else shots[|shots| - 1]
      {
        assert times[i..][1..] == times[i + 1..];
        var fired, moveTo := AttackTarget(times[i], position, players);
        if fired {
          shots := shots + [times[i]];
        }
        i := i + 1;
      }
    }

    /** SetNewPatrolTarget, also what WaitAndSetNewPatrolTarget runs once its wait is over. */
    method SetNewPatrolTarget(draw: DiscDraw, ray: DownRay)
      requires draw.Valid()
      modifies this`currentPatrolTarget
      ensures currentPatrolTarget == PatrolPoint(patrolCenter, patrolRadius, draw, ray)
    {
      currentPatrolTarget := PatrolPoint(patrolCenter, patrolRadius, draw, ray);
    }

    /**
     * CheckIfStuck: nothing happens before the check is due; once due, a
     * tank that has barely moved and is not attacking gets a new waypoint
     * (if patrolling) and a random yaw, and the bookkeeping is always reset.
     */
    method CheckIfStuck(now: real, position: Vec3, draw: DiscDraw, turnDraw: real, ray: DownRay)
      returns (turn: Option<real>)
      requires draw.Valid() && Unit(turnDraw)
      modifies this`lastPosition, this`lastStuckCheckTime, this`currentPatrolTarget
      ensures var due := StuckCheckDue(now, old(lastStuckCheckTime), stuckCheckTime);
        && (due ==> lastPosition == position && lastStuckCheckTime == now)
        && (!due ==> lastPosition == old(lastPosition) && lastStuckCheckTime == old(lastStuckCheckTime))
      ensures var stuck := StuckCheckDue(now, old(lastStuckCheckTime), stuckCheckTime)
                        && Stuck(position, old(lastPosition), minMoveDistance, currentState);
        && turn == (if stuck then Some(StuckTurn(turnDraw)) else None)
        && currentPatrolTarget == if stuck && currentState == Patrolling
                                  then PatrolPoint(patrolCenter, patrolRadius, draw, ray)
                                  else old(currentPatrolTarget)
    {
      turn := None;
      if now >= lastStuckCheckTime + stuckCheckTime {
        var distanceMoved := SqDist(position, lastPosition);
        if SqrtBelow(distanceMoved, minMoveDistance) && currentState != Attacking {
          if currentState == Patrolling {
            SetNewPatrolTarget(draw, ray);
          }
          turn := Some(StuckTurn(turnDraw));
        }
        lastPosition := position;
        lastStuckCheckTime := now;
      }
    }

    /**
     * Update(): one frame at time `now` with the tank at `position` and the
     * players at `players`; `draw` and `turnDraw` are the random values a
     * stuck check would consume.
     */
    method Tick(now: real, position: Vec3, players: seq<Option<Vec3>>,
                draw: DiscDraw, turnDraw: real, ray: DownRay)
      returns (out: TickOutput)
      requires draw.Valid() && Unit(turnDraw)
      modifies this`currentState, this`target, this`lastFireTime
      modifies this`lastPosition, this`lastStuckCheckTime, this`currentPatrolTarget
      // state transition
      ensures currentState == SelectState(NearestSqDist(position, players), attackRange, detectionRange)
      ensures target == if currentState == Patrolling then None else NearestIn(position, players)
      // behaviour of the state
      ensures out.moveTo == match currentState
        case Patrolling => Some(old(currentPatrolTarget))
        case Chasing => Some(players[target.value].value)
        case Attacking =>
          if KeepsAdvancing(SqDist(position, players[target.value].value), attackRange)
          then Some(players[target.value].value) else None
      ensures out.waitForNewPatrolTarget <==>
        currentState == Patrolling && Arrived(position, old(currentPatrolTarget))
      ensures out.fired <==> currentState == Attacking && FireDue(now, old(lastFireTime), fireRate)
      ensures lastFireTime == if out.fired then now else old(lastFireTime)
      // stuck check
      ensures var due := StuckCheckDue(now, old(lastStuckCheckTime), stuckCheckTime);
        && (due ==> lastPosition == position && lastStuckCheckTime == now)
        && (!due ==> lastPosition == old(lastPosition) && lastStuckCheckTime == old(lastStuckCheckTime))
      ensures var stuck := StuckCheckDue(now, old(lastStuckCheckTime), stuckCheckTime)
                        && Stuck(position, old(lastPosition), minMoveDistance, currentState);
        && out.turn == (if stuck then Some(StuckTurn(turnDraw)) else None)
        && currentPatrolTarget == if stuck && currentState == Patrolling
                                  then PatrolPoint(patrolCenter, patrolRadius, draw, ray)
                                  else old(currentPatrolTarget)
    {
      FindNearestPlayer(position, players);
      var moveTo: Option<Vec3> := None;
      var fired, waitForNewPatrolTarget := false, false;
      match currentState {
        case Patrolling =>
          var goal, arrived := Patrol(position);
          moveTo, waitForNewPatrolTarget := Some(goal), arrived;
        case Chasing =>
          moveTo := ChaseTarget(players);
        case Attacking =>
          fired, moveTo := AttackTarget(now, position, players);
      }
      var turn := CheckIfStuck(now, position, draw, turnDraw, ray);
      out := TickOutput(moveTo, fired, waitForNewPatrolTarget, turn);
    }

    method SetDetectionRange(range: real)
      modifies this`detectionRange
      ensures detectionRange == range
    {
      detectionRange := range;
    }

    method SetAttackRange(range: real)
      modifies this`attackRange
      ensures attackRange == range
    {
      attackRange := range;
    }

    method SetFireRate(rate: real)
      modifies this`fireRate
      ensures fireRate == rate
    {
      fireRate := rate;
    }

    method SetPatrolRadius(radius: real)
      modifies this`patrolRadius
      ensures patrolRadius == radius
    {
      patrolRadius := radius;
    }

    method SetMoveSpeed(speed: real)
      modifies this`moveSpeed
      ensures moveSpeed == speed
    {
      moveSpeed := speed;
    }
  }
}
