/**
 * The three kinds of entity that scroll towards the player (obstacles,
 * shards and drones): how each is spawned, how a frame moves it, when it
 * touches the player, and how a frame's cleanup drops it.
 */
module Entities {
  import opened Numeric
  import opened Rules

  /** A block in a lane; `wobble` is the phase of its cosmetic rotation. */
  datatype Obstacle = Obstacle(lane: int, x: real, size: real, speed: real, wobble: real)

  /** A pickup; `y` bobs around the canvas middle plus `yOffset` with phase `drift`. */
  datatype Shard = Shard(lane: int, x: real, y: real, yOffset: real, collected: bool, drift: real)

  /** A hazard that bobs vertically with its own frequency and amplitude. */
  datatype Drone = Drone(lane: int, x: real, y: real, timer: real, frequency: real, amplitude: real)

  /** A draw of Math.random(). */
  predicate Unit(u: real) {
    0.0 <= u < 1.0
  }

  /**
   * The random draws a frame's spawners may use, one per Math.random() call.
   * The wobble and drift phases (a draw times 2 pi) are given as phases.
   */
  datatype Rolls = Rolls(
    obstacleLane: real, obstacleSize: real, obstacleWobble: real,
    shardLane: real, shardOffset: real, shardDrift: real,
    droneLane: real, droneHeight: real, droneFrequency: real, droneAmplitude: real)
  {
    predicate Valid() {
      && Unit(obstacleLane) && Unit(obstacleSize)
      && Unit(shardLane) && Unit(shardOffset)
      && Unit(droneLane) && Unit(droneHeight) && Unit(droneFrequency) && Unit(droneAmplitude)
    }
  }

  /** Math.floor(Math.random() * LANES). */
  function PickLane(u: real): (lane: int)
    requires Unit(u)
    ensures 0 <= lane < Lanes
  {
    (u * Lanes as real).Floor
  }

  // ------------------------------------------------------------- spawning

  /** The obstacle spawnObstacle pushes: it enters just past the right edge. */
  function NewObstacle(width: real, difficulty: real, thrust: int, uLane: real, uSize: real, wobble: real): (ob: Obstacle)
    requires Unit(uLane) && Unit(uSize)
    ensures 0 <= ob.lane < Lanes
    ensures 32.0 + difficulty * 2.0 <= ob.size < 64.0 + difficulty * 2.0
    ensures ob.x == width + ob.size
    ensures difficulty >= 0.0 && thrust >= 0 ==> ob.speed >= BaseSpeed
  {
    var size := 32.0 + uSize * 32.0 + difficulty * 2.0;
    Obstacle(PickLane(uLane), width + size, size, BaseSpeed + difficulty * 15.0 + thrust as real * 12.0, wobble)
  }

  /**
   * The shard spawnShard pushes. Its `y` is set by the same frame's movement
   * before anything reads it; 0 stands in for the unset value.
   */
  function NewShard(width: real, uLane: real, uOffset: real, drift: real): (sh: Shard)
    requires Unit(uLane) && Unit(uOffset)
    ensures 0 <= sh.lane < Lanes && !sh.collected
    ensures -10.0 <= sh.yOffset < 10.0
    ensures sh.x == width + 10.0
  {
    Shard(PickLane(uLane), width + 10.0, 0.0, (uOffset - 0.5) * 20.0, false, drift)
  }

  /** The drone spawnDrone pushes: it starts in the middle band of the canvas height. */
  function NewDrone(width: real, height: real, uLane: real, uHeight: real, uFrequency: real, uAmplitude: real): (dr: Drone)
    requires Unit(uLane) && Unit(uHeight) && Unit(uFrequency) && Unit(uAmplitude)
    ensures 0 <= dr.lane < Lanes && dr.timer == 0.0
    ensures 0.0015 <= dr.frequency < 0.0025
    ensures 45.0 <= dr.amplitude < 100.0
    ensures height >= 0.0 ==> height * 0.3 <= dr.y <= height * 0.7
    ensures dr.x == width + 80.0
  {
    ScaledDraw(uHeight, height);
    Drone(PickLane(uLane), width + 80.0, uHeight * height * 0.4 + height * 0.3, 0.0,
          0.0015 + uFrequency * 0.001, 45.0 + uAmplitude * 55.0)
  }

  /** A draw scales a non-negative length to somewhere between zero and that length. */
  lemma ScaledDraw(u: real, h: real)
    requires Unit(u)
    ensures h >= 0.0 ==> 0.0 <= u * h <= h
  {
    if h >= 0.0 {
      assert h - u * h == (1.0 - u) * h;
    }
  }

  // ------------------------------------------------------------- movement

  /** An obstacle after a frame: it moves left at its own speed plus 3 per difficulty point. */
  function MoveObstacle(ob: Obstacle, delta: real, difficulty: real): (r: Obstacle)
    ensures r.lane == ob.lane && r.size == ob.size && r.speed == ob.speed
    ensures delta >= 0.0 && ob.speed + difficulty * 3.0 >= 0.0 ==> r.x <= ob.x
  {
    ob.(x := ob.x - (ob.speed + difficulty * 3.0) * (delta / 1000.0),
        wobble := ob.wobble + delta * 0.003)
  }

  /**
   * What the shard pass of a frame uses: elapsed time, travel speed, the
   * canvas middle, Math.sin, the player's position and the pickup reach
   * (player radius plus magnet radius).
   */
  datatype Sweep = Sweep(delta: real, speed: real, midline: real, sine: real -> real,
                         px: real, py: real, reach: real)

  /** A shard after a frame's movement: it drifts left at 80% of travel speed and bobs. */
  function MoveShard(sh: Shard, w: Sweep): (r: Shard)
    ensures r.lane == sh.lane && r.collected == sh.collected && r.yOffset == sh.yOffset
    ensures w.delta >= 0.0 && w.speed >= 0.0 ==> r.x <= sh.x
  {
    var drift := sh.drift + w.delta * 0.004;
    sh.(drift := drift,
        y := w.midline + sh.yOffset + w.sine(drift) * 14.0,
        x := sh.x - w.speed * 0.8 * (w.delta / 1000.0))
  }

  /** A moved shard the player picks up: not yet collected and within reach. */
  predicate Grabbable(sh: Shard, w: Sweep) {
    !sh.collected && Within(w.px - sh.x, w.py - sh.y, w.reach)
  }

  /** A shard after the shard pass: moved, and marked collected if it was picked up. */
  function SweepShard(sh: Shard, w: Sweep): (r: Shard)
    ensures r.lane == sh.lane
    ensures r.collected <==> sh.collected || Grabbable(MoveShard(sh, w), w)
  {
    var m := MoveShard(sh, w);
    if Grabbable(m, w) then m.(collected := true) else m
  }

  /** How many shards of `s` the shard pass picks up. */
  function CountGrabs(s: seq<Shard>, w: Sweep): (k: nat)
    ensures k <= |s|
  {
    if s == [] then 0
    else CountGrabs(s[..|s| - 1], w) + (if Grabbable(MoveShard(s[|s| - 1], w), w) then 1 else 0)
  }

  /** Extending the swept prefix by one shard adds one grab exactly when that shard is grabbed. */
  lemma CountGrabsStep(s: seq<Shard>, i: nat, w: Sweep)
    requires i < |s|
    ensures CountGrabs(s[..i + 1], w)
         == CountGrabs(s[..i], w) + (if Grabbable(MoveShard(s[i], w), w) then 1 else 0)
  {
    assert s[..i + 1][..i] == s[..i];
  }

  /** A drone after a frame: it drifts left at 70% of travel speed and bobs by its own sine. */
  function MoveDrone(dr: Drone, delta: real, speed: real, sine: real -> real): (r: Drone)
    ensures r.lane == dr.lane && r.frequency == dr.frequency && r.amplitude == dr.amplitude
    ensures r.timer == dr.timer + delta
    ensures delta >= 0.0 && speed >= 0.0 ==> r.x <= dr.x
  {
    var timer := dr.timer + delta;
    dr.(x := dr.x - speed * 0.7 * (delta / 1000.0),
        timer := timer,
        y := dr.y + sine(timer * dr.frequency) * (dr.amplitude * delta / 1000.0))
  }

  /** The obstacle loop of a frame, as a value: every obstacle moved, in its place. */
  function MoveObstacles(s: seq<Obstacle>, delta: real, difficulty: real): seq<Obstacle> {
    seq(|s|, i requires 0 <= i < |s| => MoveObstacle(s[i], delta, difficulty))
  }

  /** The shard pass of a frame, as a value: every shard swept, in its place. */
  function SweepShards(s: seq<Shard>, w: Sweep): seq<Shard> {
    seq(|s|, i requires 0 <= i < |s| => SweepShard(s[i], w))
  }

  /** The drone loop of a frame, as a value: every drone moved, in its place. */
  function MoveDrones(s: seq<Drone>, delta: real, speed: real, sine: real -> real): seq<Drone> {
    seq(|s|, i requires 0 <= i < |s| => MoveDrone(s[i], delta, speed, sine))
  }

  // ------------------------------------------------------------ collisions

  /** The obstacle is in the player's lane and horizontally overlaps the player. */
  predicate ObstacleHit(ob: Obstacle, lane: int, px: real) {
    ob.lane == lane && Abs(ob.x - px) < ob.size * 0.5 + PlayerRadius
  }

  /** The drone is closer than 40 pixels to the player. */
  predicate DroneHit(dr: Drone, px: real, py: real) {
    Within(dr.x - px, dr.y - py, DroneReach)
  }

  /** Index of the first obstacle that hits the player, or |s| if none does. */
  function FirstObstacleHit(s: seq<Obstacle>, lane: int, px: real): (k: nat)
    ensures k <= |s|
    ensures forall j :: 0 <= j < k ==> !ObstacleHit(s[j], lane, px)
    ensures k < |s| ==> ObstacleHit(s[k], lane, px)
  {
    if s == [] then 0
    else if ObstacleHit(s[0], lane, px) then 0
    else 1 + FirstObstacleHit(s[1..], lane, px)
  }

  /** Index of the first drone that hits the player, or |s| if none does. */
  function FirstDroneHit(s: seq<Drone>, px: real, py: real): (k: nat)
    ensures k <= |s|
    ensures forall j :: 0 <= j < k ==> !DroneHit(s[j], px, py)
    ensures k < |s| ==> DroneHit(s[k], px, py)
  {
    if s == [] then 0
    else if DroneHit(s[0], px, py) then 0
    else 1 + FirstDroneHit(s[1..], px, py)
  }

  /** The obstacle loop of detectCollisions: scan in order, stop at the first hit. */
  method FindObstacleHit(obstacles: seq<Obstacle>, lane: int, px: real) returns (i: nat)
    ensures i == FirstObstacleHit(obstacles, lane, px)
  {
    i := 0;
    while i < |obstacles| && !ObstacleHit(obstacles[i], lane, px)
      invariant i <= |obstacles|
      invariant forall j :: 0 <= j < i ==> !ObstacleHit(obstacles[j], lane, px)
    {
      i := i + 1;
    }
  }

  /** The drone loop of detectCollisions: scan in order, stop at the first hit. */
  method FindDroneHit(drones: seq<Drone>, px: real, py: real) returns (i: nat)
    ensures i == FirstDroneHit(drones, px, py)
  {
    i := 0;
    while i < |drones| && !DroneHit(drones[i], px, py)
      invariant i <= |drones|
      invariant forall j :: 0 <= j < i ==> !DroneHit(drones[j], px, py)
    {
      i := i + 1;
    }
  }

  // -------------------------------------------------------------- cleanup

  /** Array.prototype.filter: the elements `keep` accepts, in their order. */
  function Filter<T>(s: seq<T>, keep: T -> bool): (r: seq<T>)
    ensures |r| <= |s|
    ensures forall i :: 0 <= i < |r| ==> r[i] in s && keep(r[i])
    ensures forall i :: 0 <= i < |s| && keep(s[i]) ==> s[i] in r
  {
    if s == [] then []
    else (if keep(s[0]) then [s[0]] else []) + Filter(s[1..], keep)
  }

  /** Filtering a concatenation filters each part, so the kept elements keep their order. */
  lemma {:induction false} FilterAppend<T>(s: seq<T>, t: seq<T>, keep: T -> bool)
    ensures Filter(s + t, keep) == Filter(s, keep) + Filter(t, keep)
  {
    if s == [] {
      assert s + t == t;
    } else {
      assert (s + t)[1..] == s[1..] + t;
      FilterAppend(s[1..], t, keep);
    }
  }

  /** Filtering keeps everything exactly when every element is accepted. */
  lemma {:induction false} FilterKeepsAll<T>(s: seq<T>, keep: T -> bool)
    ensures Filter(s, keep) == s <==> forall i :: 0 <= i < |s| ==> keep(s[i])
  {
    if s != [] {
      FilterKeepsAll(s[1..], keep);
      if !keep(s[0]) {
        assert |Filter(s, keep)| < |s|;
      }
    }
  }

  /** Every obstacle is in a lane. */
  predicate ObstaclesInLanes(s: seq<Obstacle>) {
    forall i :: 0 <= i < |s| ==> 0 <= s[i].lane < Lanes
  }

  /** Every shard is in a lane. */
  predicate ShardsInLanes(s: seq<Shard>) {
    forall i :: 0 <= i < |s| ==> 0 <= s[i].lane < Lanes
  }

  /** Every shard is in a lane and still to be collected. */
  predicate ShardsPending(s: seq<Shard>) {
    forall i :: 0 <= i < |s| ==> 0 <= s[i].lane < Lanes && !s[i].collected
  }

  /** Every drone is in a lane. */
  predicate DronesInLanes(s: seq<Drone>) {
    forall i :: 0 <= i < |s| ==> 0 <= s[i].lane < Lanes
  }

  /** The cleanup filters keep entities in their lanes and leave no collected shard. */
  lemma CleanupKeepsLanes(obstacles: seq<Obstacle>, shards: seq<Shard>, drones: seq<Drone>)
    requires ObstaclesInLanes(obstacles) && ShardsInLanes(shards) && DronesInLanes(drones)
    ensures ObstaclesInLanes(Filter(obstacles, KeepObstacle))
    ensures ShardsPending(Filter(shards, KeepShard))
    ensures DronesInLanes(Filter(drones, KeepDrone))
  {
    var o, s, d := Filter(obstacles, KeepObstacle), Filter(shards, KeepShard), Filter(drones, KeepDrone);
    forall i | 0 <= i < |o| ensures 0 <= o[i].lane < Lanes {
      var j :| 0 <= j < |obstacles| && obstacles[j] == o[i];
    }
    forall i | 0 <= i < |s| ensures 0 <= s[i].lane < Lanes && !s[i].collected {
      var j :| 0 <= j < |shards| && shards[j] == s[i];
    }
    forall i | 0 <= i < |d| ensures 0 <= d[i].lane < Lanes {
      var j :| 0 <= j < |drones| && drones[j] == d[i];
    }
  }

  /** An obstacle stays until it is twice its size past the left edge. */
  predicate KeepObstacle(ob: Obstacle) {
    ob.x > -ob.size * 2.0
  }

  /** A shard stays until it is collected or 20 pixels past the left edge. */
  predicate KeepShard(sh: Shard) {
    !sh.collected && sh.x > -20.0
  }

  /** A drone stays until it is 120 pixels past the left edge. */
  predicate KeepDrone(dr: Drone) {
    dr.x > -120.0
  }
}
