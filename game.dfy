/**
 * The runner's shared simulation state (the global `state` object) and the
 * three entry points the frame driver and the input handlers call: Update
 * once per frame, ChangeLane and Dash on input.
 */
module Simulation {
  import opened Numeric
  import opened Rules
  import opened Entities
  import opened Economy
  import opened Achievements

  /** state.player without its eased x (which feeds nothing) and its fixed radius. */
  datatype Player = Player(lane: int, targetLane: int, y: real, dash: real, shieldTimer: real)

  /** Every field of the run state, as one value. */
  datatype RunState = RunState(
    running: bool,
    spawnTimer: real, shardTimer: real, droneTimer: real,
    player: Player,
    score: int, energy: real, combo: real, comboDecay: real, level: int,
    obstacles: seq<Obstacle>, shards: seq<Shard>, drones: seq<Drone>,
    difficulty: real, runShards: real, runDistance: real, burstMode: bool)

  /** The run state resetRun leaves: `y` is the player's height, which a reset keeps. */
  function StartState(y: real, shieldRank: int): RunState {
    RunState(true, 0.0, 0.0, 0.0, Player(1, 1, y, 0.0, shieldRank as real * 1000.0),
             0, 100.0, 1.0, 0.0, 1, [], [], [], 0.0, 0.0, 0.0, false)
  }

  // ------------------------------------------------ one frame, as a value

  /**
   * The obstacle accumulator grows by delta; once past its interval it
   * appends exactly one obstacle and restarts at 0 (the excess is dropped).
   */
  function ObstacleSpawned(s: RunState, delta: real, rolls: Rolls, width: real, thrust: int): RunState
    requires rolls.Valid()
  {
    if s.spawnTimer + delta > ObstacleInterval(s.difficulty) then
      s.(spawnTimer := 0.0,
         obstacles := s.obstacles + [NewObstacle(width, s.difficulty, thrust, rolls.obstacleLane,
                                                 rolls.obstacleSize, rolls.obstacleWobble)])
    else s.(spawnTimer := s.spawnTimer + delta)
  }

  /** The shard accumulator, likewise. */
  function ShardSpawned(s: RunState, delta: real, rolls: Rolls, width: real): RunState
    requires rolls.Valid()
  {
    if s.shardTimer + delta > ShardInterval(s.difficulty) then
      s.(shardTimer := 0.0,
         shards := s.shards + [NewShard(width, rolls.shardLane, rolls.shardOffset, rolls.shardDrift)])
    else s.(shardTimer := s.shardTimer + delta)
  }

  /** The drone accumulator, likewise. */
  function DroneSpawned(s: RunState, delta: real, rolls: Rolls, width: real, height: real): RunState
    requires rolls.Valid()
  {
    if s.droneTimer + delta > DroneInterval(s.difficulty) then
      s.(droneTimer := 0.0,
         drones := s.drones + [NewDrone(width, height, rolls.droneLane, rolls.droneHeight,
                                        rolls.droneFrequency, rolls.droneAmplitude)])
    else s.(droneTimer := s.droneTimer + delta)
  }

  /** The three spawn accumulators of a frame; they touch disjoint fields. */
  function Spawned(s: RunState, delta: real, rolls: Rolls, width: real, height: real, thrust: int): RunState
    requires rolls.Valid()
  {
    DroneSpawned(ShardSpawned(ObstacleSpawned(s, delta, rolls, width, thrust), delta, rolls, width),
                 delta, rolls, width, height)
  }

  /** The player's height is pinned and the dash and shield timers count down. */
  function Timed(s: RunState, delta: real, height: real): RunState {
    s.(player := s.player.(y := height * 0.75, dash := Tick(s.player.dash, delta),
                           shieldTimer := Tick(s.player.shieldTimer, delta)))
  }

  /** Distance grows with the travel speed and the score is recomputed. */
  function Travelled(s: RunState, delta: real, thrust: int): RunState {
    var distance := DistanceAfter(s.runDistance, TravelSpeed(s.difficulty, thrust, s.burstMode), delta);
    s.(runDistance := distance, score := Score(distance, s.runShards, s.combo))
  }

  /** Energy drains and burst mode follows it. */
  function Drained(s: RunState, delta: real): RunState {
    var energy := DrainEnergy(s.energy, s.combo, delta);
    s.(energy := energy, burstMode := BurstAfter(energy, s.burstMode))
  }

  /** The quiet timer grows and the combo decays past the delay. */
  function Decayed(s: RunState, delta: real, focus: int): RunState {
    var quiet := s.comboDecay + delta;
    s.(comboDecay := quiet, combo := DecayCombo(s.combo, quiet, delta, focus))
  }

  /** The first part of a running frame, up to the entity loops, in the source's order. */
  function Prepared(s: RunState, delta: real, rolls: Rolls, width: real, height: real, thrust: int, focus: int): RunState
    requires rolls.Valid()
  {
    Decayed(Drained(Travelled(Timed(Spawned(s, delta, rolls, width, height, thrust), delta, height),
                              delta, thrust), delta), delta, focus)
  }

  /** The shard pass of a frame for a player in `s`, with the magnet's reach. */
  function FrameSweep(s: RunState, delta: real, sine: real -> real, width: real, height: real,
                      travelSpeed: real, magnet: int): Sweep
  {
    Sweep(delta, travelSpeed, height * 0.5, sine, LaneX(width, s.player.lane), s.player.y,
          PlayerRadius + MagnetRadius(magnet))
  }

  /** The shard pass: every shard swept, the grabbed ones collected one after another. */
  function ShardsSwept(s: RunState, w: Sweep): RunState {
    var t := CollectN(Tally(s.runShards, s.combo, s.energy, s.comboDecay), CountGrabs(s.shards, w));
    s.(shards := SweepShards(s.shards, w),
       runShards := t.runShards, combo := t.combo, energy := t.energy, comboDecay := t.comboDecay)
  }

  /** The cleanup filters: what scrolled past, and every collected shard, is dropped. */
  function Cleaned(s: RunState): RunState {
    s.(obstacles := Filter(s.obstacles, KeepObstacle), shards := Filter(s.shards, KeepShard),
       drones := Filter(s.drones, KeepDrone))
  }

  /** The entity loops of a frame (obstacles, shards, drones) and the cleanup filters. */
  function Swept(s: RunState, delta: real, sine: real -> real, width: real, height: real,
                 travelSpeed: real, magnet: int): RunState
  {
    var w := FrameSweep(s, delta, sine, width, height, travelSpeed, magnet);
    var moved := s.(obstacles := MoveObstacles(s.obstacles, delta, s.difficulty));
    var swept := ShardsSwept(moved, w);
    Cleaned(swept.(drones := MoveDrones(s.drones, delta, travelSpeed, sine)))
  }

  /** A running frame up to the collision check. */
  function Advanced(s: RunState, delta: real, rolls: Rolls, sine: real -> real, width: real, height: real,
                    thrust: int, focus: int, magnet: int): RunState
    requires rolls.Valid()
  {
    Swept(Prepared(s, delta, rolls, width, height, thrust, focus), delta, sine, width, height,
          TravelSpeed(s.difficulty, thrust, s.burstMode), magnet)
  }

  /**
   * The collision check ends the run: the first obstacle hit meets a player
   * who is neither dashing nor shielded, or, with no obstacle hit, the first
   * drone hit does and leaves no energy.
   */
  predicate CollisionEnds(s: RunState, width: real) {
    var px := LaneX(width, s.player.lane);
    var i := FirstObstacleHit(s.obstacles, s.player.lane, px);
    var j := FirstDroneHit(s.drones, px, s.player.y);
    var immune := Immune(s.player.dash, s.player.shieldTimer);
    if i < |s.obstacles| then !immune
    else j < |s.drones| && !immune && s.energy - 25.0 <= 0.0
  }

  /**
   * The run state after the collision check: only the first obstacle hit is
   * resolved, and then no drone is looked at; otherwise only the first drone
   * hit is. An immune player smashes the entity off scene and heals; a drone
   * costs anyone else 25 energy; an obstacle, or a drone that leaves no
   * energy, ends the run.
   */
  function Collided(s: RunState, width: real): RunState {
    var px := LaneX(width, s.player.lane);
    var i := FirstObstacleHit(s.obstacles, s.player.lane, px);
    var j := FirstDroneHit(s.drones, px, s.player.y);
    var immune := Immune(s.player.dash, s.player.shieldTimer);
    var obstacleHit := i < |s.obstacles|;
    var droneHit := !obstacleHit && j < |s.drones|;
    s.(running := s.running && !CollisionEnds(s, width),
       energy := if obstacleHit && immune then MinR(100.0, s.energy + 12.0)
                 else if droneHit && immune then MinR(100.0, s.energy + 8.0)
                 else if droneHit then s.energy - 25.0
                 else s.energy,
       combo := if obstacleHit && immune then s.combo + 0.5 else s.combo,
       obstacles := if obstacleHit && immune then s.obstacles[i := s.obstacles[i].(x := OffScene)] else s.obstacles,
       drones := if droneHit && immune then s.drones[j := s.drones[j].(x := OffScene)] else s.drones)
  }

  /** The run state after escalateDifficulty. */
  function Escalated(s: RunState, delta: real): RunState {
    var difficulty := s.difficulty + delta * 0.0045;
    s.(difficulty := difficulty, level := Level(difficulty))
  }

  /** A whole running frame of update, up to the feat check. */
  function Frame(s: RunState, delta: real, rolls: Rolls, sine: real -> real, width: real, height: real,
                 thrust: int, focus: int, magnet: int): RunState
    requires rolls.Valid()
  {
    Escalated(Collided(Advanced(s, delta, rolls, sine, width, height, thrust, focus, magnet), width), delta)
  }

  /**
   * A frame pins the player's height and counts the dash and shield timers
   * down, and leaves the lanes alone: lane changes are input, not frames.
   */
  lemma FramePlayer(s: RunState, delta: real, rolls: Rolls, sine: real -> real, width: real, height: real,
                    thrust: int, focus: int, magnet: int)
    requires rolls.Valid()
    ensures Frame(s, delta, rolls, sine, width, height, thrust, focus, magnet).player
         == s.player.(y := height * 0.75, dash := Tick(s.player.dash, delta),
                      shieldTimer := Tick(s.player.shieldTimer, delta))
  {
    var p := Prepared(s, delta, rolls, width, height, thrust, focus);
    var a := Swept(p, delta, sine, width, height, TravelSpeed(s.difficulty, thrust, s.burstMode), magnet);
    assert a.player == p.player;
    assert Collided(a, width).player == a.player;
  }

  /** A frame raises the difficulty by 0.0045 per millisecond and the level follows it. */
  lemma FrameDifficulty(s: RunState, delta: real, rolls: Rolls, sine: real -> real, width: real, height: real,
                        thrust: int, focus: int, magnet: int)
    requires rolls.Valid()
    requires delta >= 0.0 && s.level == Level(s.difficulty)
    ensures var f := Frame(s, delta, rolls, sine, width, height, thrust, focus, magnet);
      && f.difficulty == s.difficulty + delta * 0.0045
      && f.level == Level(f.difficulty)
      && f.difficulty >= s.difficulty && f.level >= s.level
  {
    var p := Prepared(s, delta, rolls, width, height, thrust, focus);
    var a := Swept(p, delta, sine, width, height, TravelSpeed(s.difficulty, thrust, s.burstMode), magnet);
    assert a.difficulty == p.difficulty == s.difficulty;
    assert Collided(a, width).difficulty == a.difficulty;
    LevelMonotone(s.difficulty, s.difficulty + delta * 0.0045);
  }

  /**
   * Distance and score of a frame: the distance grows by the travel speed of
   * the state before the frame, and the score is computed from it before the
   * frame's pickups and collisions, so it lags the shards by one frame. At
   * difficulty 0 without thrust or burst, one second covers 260 pixels.
   */
  lemma FrameTravel(s: RunState, delta: real, rolls: Rolls, sine: real -> real, width: real, height: real,
                    thrust: int, focus: int, magnet: int)
    requires rolls.Valid()
    ensures var f := Frame(s, delta, rolls, sine, width, height, thrust, focus, magnet);
      && f.runDistance == DistanceAfter(s.runDistance, TravelSpeed(s.difficulty, thrust, s.burstMode), delta)
      && f.score == Score(f.runDistance, s.runShards, s.combo)
      && (s.difficulty == 0.0 && thrust == 0 && !s.burstMode && delta == 1000.0 ==>
            f.runDistance == s.runDistance + 260.0)
  {
    var p := Prepared(s, delta, rolls, width, height, thrust, focus);
    var a := Swept(p, delta, sine, width, height, TravelSpeed(s.difficulty, thrust, s.burstMode), magnet);
    assert a.runDistance == p.runDistance && a.score == p.score;
  }

  /** A running frame ends the run exactly when its collision check does. */
  lemma FrameEnds(s: RunState, delta: real, rolls: Rolls, sine: real -> real, width: real, height: real,
                  thrust: int, focus: int, magnet: int)
    requires rolls.Valid() && s.running
    ensures Frame(s, delta, rolls, sine, width, height, thrust, focus, magnet).running
        <==> !CollisionEnds(Advanced(s, delta, rolls, sine, width, height, thrust, focus, magnet), width)
  {
    var p := Prepared(s, delta, rolls, width, height, thrust, focus);
    var a := Swept(p, delta, sine, width, height, TravelSpeed(s.difficulty, thrust, s.burstMode), magnet);
    assert a.running == p.running == s.running;
  }

  /** The state with the player's target lane replaced. */
  function Retargeted(s: RunState, target: int): RunState {
    s.(player := s.player.(targetLane := target))
  }

  /** The phases before the entity loops never read the target lane. */
  lemma PreparedIgnoresTarget(s: RunState, target: int, delta: real, rolls: Rolls, width: real, height: real,
                              thrust: int, focus: int)
    requires rolls.Valid()
    ensures Prepared(Retargeted(s, target), delta, rolls, width, height, thrust, focus)
         == Retargeted(Prepared(s, delta, rolls, width, height, thrust, focus), target)
  {
    var n := Spawned(s, delta, rolls, width, height, thrust);
    assert Spawned(Retargeted(s, target), delta, rolls, width, height, thrust) == Retargeted(n, target);
    var m := Timed(n, delta, height);
    assert Timed(Retargeted(n, target), delta, height) == Retargeted(m, target);
    var v := Travelled(m, delta, thrust);
    assert Travelled(Retargeted(m, target), delta, thrust) == Retargeted(v, target);
    var d := Drained(v, delta);
    assert Drained(Retargeted(v, target), delta) == Retargeted(d, target);
  }

  /** The entity loops and the cleanup never read the target lane. */
  lemma SweptIgnoresTarget(s: RunState, target: int, delta: real, sine: real -> real, width: real, height: real,
                           travelSpeed: real, magnet: int)
    ensures Swept(Retargeted(s, target), delta, sine, width, height, travelSpeed, magnet)
         == Retargeted(Swept(s, delta, sine, width, height, travelSpeed, magnet), target)
  {
    assert FrameSweep(Retargeted(s, target), delta, sine, width, height, travelSpeed, magnet)
        == FrameSweep(s, delta, sine, width, height, travelSpeed, magnet);
  }

  /** The collision check never reads the target lane. */
  lemma CollidedIgnoresTarget(s: RunState, target: int, width: real)
    ensures Collided(Retargeted(s, target), width) == Retargeted(Collided(s, width), target)
  {
    assert CollisionEnds(Retargeted(s, target), width) == CollisionEnds(s, width);
  }

  /**
   * A frame never reads the target lane that lane changes set: states that
   * differ only in it give frames that differ only in it. With the lane
   * itself held at 1, a lane change has no effect on the simulation.
   */
  lemma FrameIgnoresTarget(s: RunState, target: int, delta: real, rolls: Rolls, sine: real -> real,
                           width: real, height: real, thrust: int, focus: int, magnet: int)
    requires rolls.Valid()
    ensures Frame(Retargeted(s, target), delta, rolls, sine, width, height, thrust, focus, magnet)
         == Retargeted(Frame(s, delta, rolls, sine, width, height, thrust, focus, magnet), target)
  {
    var speed := TravelSpeed(s.difficulty, thrust, s.burstMode);
    var p := Prepared(s, delta, rolls, width, height, thrust, focus);
    PreparedIgnoresTarget(s, target, delta, rolls, width, height, thrust, focus);
    var a := Swept(p, delta, sine, width, height, speed, magnet);
    SweptIgnoresTarget(p, target, delta, sine, width, height, speed, magnet);
    CollidedIgnoresTarget(a, target, width);
  }

  class Game {
    const width: real
    const height: real
    const profile: Profile

    var running: bool
    var spawnTimer: real
    var shardTimer: real
    var droneTimer: real
    var player: Player
    var score: int
    var energy: real
    var combo: real
    var comboDecay: real
    var level: int
    var obstacles: seq<Obstacle>
    var shards: seq<Shard>
    var drones: seq<Drone>
    var difficulty: real
    var runShards: real
    var runDistance: real
    var burstMode: bool

    ghost function State(): RunState
      reads this
    {
      RunState(running, spawnTimer, shardTimer, droneTimer, player, score, energy, combo, comboDecay,
               level, obstacles, shards, drones, difficulty, runShards, runDistance, burstMode)
    }

    /**
     * What holds between calls: lanes in range, combo at least 1, energy at
     * most 110 (shards heal past the clamp) and not negative while running,
     * the level derived from the difficulty, and no collected shard left over.
     */
    ghost predicate Valid()
      reads this, profile
    {
      profile.Valid() && RunSound()
    }

    /** The part of Valid about the run fields alone. */
    ghost predicate RunSound()
      reads this`player, this`combo, this`energy, this`running, this`runShards, this`level, this`difficulty,
            this`obstacles, this`shards, this`drones
    {
      PlayerInLanes() && TallySound() && LevelFollows() && EntitiesSound()
    }

    /**
     * The player's current and target lanes are lanes, and the current lane
     * is the middle one: only a reset writes it, and always to 1.
     */
    ghost predicate PlayerInLanes()
      reads this`player
    {
      player.lane == 1 && 0 <= player.targetLane < Lanes
    }

    /** Combo at least 1, energy at most 110 and not negative while running, run shards not negative. */
    ghost predicate TallySound()
      reads this`combo, this`energy, this`running, this`runShards
    {
      combo >= 1.0 && energy <= 110.0 && (running ==> energy >= 0.0) && runShards >= 0.0
    }

    /** The level is the one the difficulty calls for. */
    ghost predicate LevelFollows()
      reads this`level, this`difficulty
    {
      level == Level(difficulty)
    }

    /** Every entity is in a lane and no collected shard is left over. */
    ghost predicate EntitiesSound()
      reads this`obstacles, this`shards, this`drones
    {
      ObstaclesInLanes(obstacles) && ShardsPending(shards) && DronesInLanes(drones)
    }

    /** The fields collectShard writes. */
    function CurrentTally(): Tally
      reads this`runShards, this`combo, this`energy, this`comboDecay
    {
      Tally(runShards, combo, energy, comboDecay)
    }

    /** The fields the feat conditions read. */
    function Stats(): RunStats
      reads this
    {
      RunStats(runDistance, runShards, combo, score, burstMode, energy)
    }

    /** The run ended and paid out: endRun's effect on the profile. */
    twostate predicate Ended()
      reads this`running, this`runShards, this`combo, this`score, profile`shards, profile`bestScore
    {
      && !running
      && profile.shards == old(profile.shards) + Payout(runShards, combo)
      && profile.bestScore == MaxI(old(profile.bestScore), score)
    }

    /** The state object as the page creates it, before any run. */
    constructor (width: real, height: real, profile: Profile)
      requires profile.Valid()
      ensures this.width == width && this.height == height && this.profile == profile
      ensures Valid()
      ensures State() == RunState(false, 0.0, 0.0, 0.0, Player(1, 1, 0.0, 0.0, 0.0),
                                  0, 100.0, 1.0, 0.0, 1, [], [], [], 0.0, 0.0, 0.0, false)
    {
      this.width, this.height, this.profile := width, height, profile;
      running := false;
      spawnTimer, shardTimer, droneTimer := 0.0, 0.0, 0.0;
      player := Player(1, 1, 0.0, 0.0, 0.0);
      score, energy, combo, comboDecay, level := 0, 100.0, 1.0, 0.0, 1;
      obstacles, shards, drones := [], [], [];
      difficulty, runShards, runDistance, burstMode := 0.0, 0.0, 0.0, false;
    }

    // ------------------------------------------------------- run lifecycle

    /** resetRun: a fresh run, with one second of shield per shield rank. */
    method ResetRun()
      requires Valid()
      modifies this
      ensures State() == StartState(old(player.y), profile.Rank("shield"))
      ensures Valid()
    {
      Overwrite(StartState(player.y, profile.Rank("shield")));
    }

    /** Overwrites every run field with those of `s`. */
    method Overwrite(s: RunState)
      modifies this
      ensures State() == s
    {
      OverwriteTimers(s);
      OverwriteScore(s);
      OverwriteWorld(s);
    }

    method OverwriteTimers(s: RunState)
      modifies this`running, this`spawnTimer, this`shardTimer, this`droneTimer, this`player, this`level
      ensures running == s.running && spawnTimer == s.spawnTimer && shardTimer == s.shardTimer
      ensures droneTimer == s.droneTimer && player == s.player && level == s.level
    {
      running, spawnTimer, shardTimer, droneTimer := s.running, s.spawnTimer, s.shardTimer, s.droneTimer;
      player, level := s.player, s.level;
    }

    method OverwriteScore(s: RunState)
      modifies this`score, this`energy, this`combo, this`comboDecay, this`runShards, this`runDistance
      ensures score == s.score && energy == s.energy && combo == s.combo && comboDecay == s.comboDecay
      ensures runShards == s.runShards && runDistance == s.runDistance
    {
      score, energy, combo, comboDecay := s.score, s.energy, s.combo, s.comboDecay;
      runShards, runDistance := s.runShards, s.runDistance;
    }

    method OverwriteWorld(s: RunState)
      modifies this`obstacles, this`shards, this`drones, this`difficulty, this`burstMode
      ensures obstacles == s.obstacles && shards == s.shards && drones == s.drones
      ensures difficulty == s.difficulty && burstMode == s.burstMode
    {
      obstacles, shards, drones, difficulty, burstMode := s.obstacles, s.shards, s.drones, s.difficulty, s.burstMode;
    }

    /** endRun: stop, pay the run's shards out and keep the best score. */
    method EndRun()
      modifies this`running, profile`shards, profile`bestScore
      ensures Ended()
    {
      running := false;
      profile.shards := profile.shards + Payout(runShards, combo);
      if score > profile.bestScore {
        profile.bestScore := score;
      }
    }

    // ------------------------------------------------------ player commands

    /** changeLane: restart if needed, then move only the target lane, clamped. */
    method ChangeLane(direction: int)
      requires Valid()
      modifies this
      ensures Valid()
      ensures old(running) ==>
        State() == old(State()).(player := old(player).(targetLane := ShiftLane(old(player.targetLane), direction)))
      ensures !old(running) ==>
        var start := StartState(old(player.y), profile.Rank("shield"));
        State() == start.(player := start.player.(targetLane := ShiftLane(1, direction)))
    {
      if !running {
        ResetRun();
      }
      player := player.(targetLane := ShiftLane(player.targetLane, direction));
    }

    /**
     * dash: restart if not running; otherwise, when the cooldown is over,
     * start a new one and trade a little energy for combo.
     */
    method Dash()
      requires Valid()
      modifies this
      ensures Valid()
      ensures !old(running) ==> State() == StartState(old(player.y), profile.Rank("shield"))
      ensures old(running) && old(player.dash) <= 0.0 ==>
        State() == old(State()).(player := old(player).(dash := DashCooldown(profile.Rank("flux"))),
                                 combo := old(combo) + 0.2,
                                 energy := MaxR(0.0, old(energy) - 6.0))
      ensures old(running) && old(player.dash) > 0.0 ==> State() == old(State())
    {
      if !running {
        ResetRun();
        return;
      }
      var cooldown := DashCooldown(profile.Rank("flux"));
      if player.dash <= 0.0 {
        player := player.(dash := cooldown);
        combo := combo + 0.2;
        energy := MaxR(0.0, energy - 6.0);
      }
    }

    // ------------------------------------------------------------- spawning

    /** spawnObstacle. */
    method SpawnObstacle(uLane: real, uSize: real, wobble: real)
      requires Unit(uLane) && Unit(uSize)
      modifies this`obstacles
      ensures obstacles == old(obstacles) + [NewObstacle(width, difficulty, profile.Rank("thrust"), uLane, uSize, wobble)]
      ensures ObstaclesInLanes(old(obstacles)) ==> ObstaclesInLanes(obstacles)
    {
      obstacles := obstacles + [NewObstacle(width, difficulty, profile.Rank("thrust"), uLane, uSize, wobble)];
    }

    /** spawnShard. */
    method SpawnShard(uLane: real, uOffset: real, drift: real)
      requires Unit(uLane) && Unit(uOffset)
      modifies this`shards
      ensures shards == old(shards) + [NewShard(width, uLane, uOffset, drift)]
      ensures ShardsPending(old(shards)) ==> ShardsPending(shards)
    {
      shards := shards + [NewShard(width, uLane, uOffset, drift)];
    }

    /** spawnDrone. */
    method SpawnDrone(uLane: real, uHeight: real, uFrequency: real, uAmplitude: real)
      requires Unit(uLane) && Unit(uHeight) && Unit(uFrequency) && Unit(uAmplitude)
      modifies this`drones
      ensures drones == old(drones) + [NewDrone(width, height, uLane, uHeight, uFrequency, uAmplitude)]
      ensures DronesInLanes(old(drones)) ==> DronesInLanes(drones)
    {
      drones := drones + [NewDrone(width, height, uLane, uHeight, uFrequency, uAmplitude)];
    }

    /**
     * The three spawn accumulators. The source first grows all three timers
     * and then checks each; as each check reads only its own timer, running
     * the accumulators one after another is the same.
     */
    method RunSpawners(delta: real, rolls: Rolls)
      requires rolls.Valid()
      modifies this`spawnTimer, this`shardTimer, this`droneTimer, this`obstacles, this`shards, this`drones
      ensures old(EntitiesSound()) ==> EntitiesSound()
      ensures State() == Spawned(old(State()), delta, rolls, width, height, profile.Rank("thrust"))
    {
      ObstacleSpawner(delta, rolls);
      ShardSpawner(delta, rolls);
      DroneSpawner(delta, rolls);
    }

    /** The obstacle accumulator: one past its interval spawns an obstacle and restarts at 0. */
    method ObstacleSpawner(delta: real, rolls: Rolls)
      requires rolls.Valid()
      modifies this`spawnTimer, this`obstacles
      ensures ObstaclesInLanes(old(obstacles)) ==> ObstaclesInLanes(obstacles)
      ensures State() == ObstacleSpawned(old(State()), delta, rolls, width, profile.Rank("thrust"))
    {
      spawnTimer := spawnTimer + delta;
      if spawnTimer > ObstacleInterval(difficulty) {
        SpawnObstacle(rolls.obstacleLane, rolls.obstacleSize, rolls.obstacleWobble);
        spawnTimer := 0.0;
      }
    }

    /** The shard accumulator. */
    method ShardSpawner(delta: real, rolls: Rolls)
      requires rolls.Valid()
      modifies this`shardTimer, this`shards
      ensures ShardsPending(old(shards)) ==> ShardsPending(shards)
      ensures State() == ShardSpawned(old(State()), delta, rolls, width)
    {
      shardTimer := shardTimer + delta;
      if shardTimer > ShardInterval(difficulty) {
        SpawnShard(rolls.shardLane, rolls.shardOffset, rolls.shardDrift);
        shardTimer := 0.0;
      }
    }

    /** The drone accumulator. */
    method DroneSpawner(delta: real, rolls: Rolls)
      requires rolls.Valid()
      modifies this`droneTimer, this`drones
      ensures DronesInLanes(old(drones)) ==> DronesInLanes(drones)
      ensures State() == DroneSpawned(old(State()), delta, rolls, width, height)
    {
      droneTimer := droneTimer + delta;
      if droneTimer > DroneInterval(difficulty) {
        SpawnDrone(rolls.droneLane, rolls.droneHeight, rolls.droneFrequency, rolls.droneAmplitude);
        droneTimer := 0.0;
      }
    }

    // ------------------------------------------------------- per-frame steps

    /** The player's height is pinned; running dash and shield timers count down. */
    method AdvanceTimers(delta: real)
      modifies this`player
      ensures State() == Timed(old(State()), delta, height)
    {
      player := player.(y := height * 0.75);
      if player.dash > 0.0 {
        player := player.(dash := player.dash - delta);
      }
      if player.shieldTimer > 0.0 {
        player := player.(shieldTimer := player.shieldTimer - delta);
      }
    }

    /** Distance grows with travel speed; the score is recomputed from scratch. */
    method Travel(delta: real) returns (travelSpeed: real)
      modifies this`runDistance, this`score
      ensures travelSpeed == TravelSpeed(difficulty, profile.Rank("thrust"), burstMode)
      ensures State() == Travelled(old(State()), delta, profile.Rank("thrust"))
    {
      travelSpeed := TravelSpeed(difficulty, profile.Rank("thrust"), burstMode);
      var distance := DistanceAfter(runDistance, travelSpeed, delta);
      runDistance, score := distance, Score(distance, runShards, combo);
    }

    /** Energy drains, is clamped to [0, 100], and burst mode follows its hysteresis. */
    method DriftEnergy(delta: real)
      modifies this`energy, this`burstMode
      ensures State() == Drained(old(State()), delta)
      ensures 0.0 <= energy <= 100.0
    {
      energy := DrainEnergy(energy, combo, delta);
      if energy >= 90.0 && !burstMode {
        burstMode := true;
      }
      if energy < 30.0 && burstMode {
        burstMode := false;
      }
    }

    /** The quiet timer grows; past the focus-dependent delay the combo decays towards 1. */
    method DecayComboStep(delta: real)
      modifies this`comboDecay, this`combo
      ensures State() == Decayed(old(State()), delta, profile.Rank("focus"))
    {
      comboDecay := comboDecay + delta;
      var decayDelay := DecayDelay(profile.Rank("focus"));
      if comboDecay > decayDelay && combo > 1.0 {
        combo := combo - 0.01 * delta / 16.0;
        combo := MaxR(1.0, combo);
      }
    }

    /** The obstacle loop: each obstacle moves by its own speed. */
    method AdvanceObstacles(delta: real)
      modifies this`obstacles
      ensures State() == old(State()).(obstacles := MoveObstacles(old(obstacles), delta, difficulty))
    {
      var i := 0;
      while i < |obstacles|
        invariant 0 <= i <= |obstacles| == |old(obstacles)|
        invariant forall j :: 0 <= j < i ==> obstacles[j] == MoveObstacle(old(obstacles)[j], delta, difficulty)
        invariant forall j :: i <= j < |obstacles| ==> obstacles[j] == old(obstacles)[j]
      {
        obstacles := obstacles[i := MoveObstacle(obstacles[i], delta, difficulty)];
        i := i + 1;
      }
      assert obstacles == MoveObstacles(old(obstacles), delta, difficulty);
    }

    /** collectShard: mark the shard and bank its reward. */
    method CollectShard(i: nat)
      requires i < |shards|
      modifies this`shards, this`runShards, this`combo, this`energy, this`comboDecay
      ensures shards == old(shards)[i := old(shards)[i].(collected := true)]
      ensures CurrentTally() == Collect(old(CurrentTally()))
    {
      shards := shards[i := shards[i].(collected := true)];
      var reward := 1.0 + combo * 0.2;
      runShards := runShards + reward;
      combo := combo + 0.15;
      combo := MinR(combo, 9.0);
      energy := MinR(110.0, energy + 4.0);
      comboDecay := 0.0;
    }

    /**
     * The shard loop: each shard moves, and one within reach that is not yet
     * collected is collected on the spot. A collection's effect does not
     * depend on the shard, so the run fields end up as if the grabbed shards
     * had been collected one after another.
     */
    method AdvanceShards(w: Sweep)
      modifies this`shards, this`runShards, this`combo, this`energy, this`comboDecay
      ensures shards == SweepShards(old(shards), w)
      ensures CurrentTally() == CollectN(old(CurrentTally()), CountGrabs(old(shards), w))
    {
      ghost var start := CurrentTally();
      ghost var swept := shards;
      var i := 0;
      while i < |shards|
        invariant 0 <= i <= |shards| == |swept|
        invariant forall j :: 0 <= j < i ==> shards[j] == SweepShard(swept[j], w)
        invariant forall j :: i <= j < |shards| ==> shards[j] == swept[j]
        invariant CurrentTally() == CollectN(start, CountGrabs(swept[..i], w))
      {
        CountGrabsStep(swept, i, w);
        SweepOne(i, w);
        i := i + 1;
      }
      assert swept[..|swept|] == swept;
      assert shards == SweepShards(swept, w);
    }

    /** The shard loop, as a step of the frame. */
    method ShardPass(w: Sweep)
      modifies this`shards, this`runShards, this`combo, this`energy, this`comboDecay
      ensures State() == ShardsSwept(old(State()), w)
    {
      AdvanceShards(w);
    }

    /** One step of the shard loop: shard `i` moves and, if within reach, is collected. */
    method SweepOne(i: nat, w: Sweep)
      requires i < |shards|
      modifies this`shards, this`runShards, this`combo, this`energy, this`comboDecay
      ensures shards == old(shards)[i := SweepShard(old(shards)[i], w)]
      ensures CurrentTally() == if Grabbable(MoveShard(old(shards)[i], w), w)
                                then Collect(old(CurrentTally())) else old(CurrentTally())
    {
      var moved := MoveShard(shards[i], w);
      shards := shards[i := moved];
      if !moved.collected && Within(w.px - moved.x, w.py - moved.y, w.reach) {
        CollectShard(i);
      }
    }

    /** The drone loop: each drone drifts and bobs. */
    method AdvanceDrones(delta: real, travelSpeed: real, sine: real -> real)
      modifies this`drones
      ensures State() == old(State()).(drones := MoveDrones(old(drones), delta, travelSpeed, sine))
    {
      var i := 0;
      while i < |drones|
        invariant 0 <= i <= |drones| == |old(drones)|
        invariant forall j :: 0 <= j < i ==> drones[j] == MoveDrone(old(drones)[j], delta, travelSpeed, sine)
        invariant forall j :: i <= j < |drones| ==> drones[j] == old(drones)[j]
      {
        drones := drones[i := MoveDrone(drones[i], delta, travelSpeed, sine)];
        i := i + 1;
      }
      assert drones == MoveDrones(old(drones), delta, travelSpeed, sine);
    }

    /** The three filters: drop what scrolled past (and collected shards), keeping the order. */
    method Cleanup()
      modifies this`obstacles, this`shards, this`drones
      ensures State() == Cleaned(old(State()))
    {
      obstacles := Filter(obstacles, KeepObstacle);
      shards := Filter(shards, KeepShard);
      drones := Filter(drones, KeepDrone);
    }

    /**
     * detectCollisions: only the first obstacle hit is resolved, and then the
     * drones are not looked at; otherwise only the first drone hit is. With a
     * dash or shield active the hit entity is moved off scene and energy
     * heals; without, an obstacle ends the run and a drone costs 25 energy,
     * ending the run when that leaves none.
     */
    method DetectCollisions()
      requires TallySound() && EntitiesSound()
      modifies this`energy, this`combo, this`obstacles, this`drones, this`running, profile`shards, profile`bestScore
      ensures State() == Collided(old(State()), width)
      ensures if CollisionEnds(old(State()), width) then Ended() else unchanged(profile)
      ensures TallySound() && EntitiesSound()
      ensures profile.bestScore >= old(profile.bestScore)
      ensures profile.shards >= old(profile.shards)
    {
      var px := LaneX(width, player.lane);
      var i := FindObstacleHit(obstacles, player.lane, px);
      if i < |obstacles| {
        HitObstacle(i);
        return;
      }
      var j := FindDroneHit(drones, px, player.y);
      if j < |drones| {
        HitDrone(j);
      }
    }

    /** The obstacle branch: an immune player smashes obstacle `i`, anyone else ends the run. */
    method HitObstacle(i: nat)
      requires i < |obstacles|
      modifies this`energy, this`combo, this`obstacles, this`running, profile`shards, profile`bestScore
      ensures if Immune(player.dash, player.shieldTimer) then
          && State() == old(State()).(energy := MinR(100.0, old(energy) + 12.0), combo := old(combo) + 0.5,
                                      obstacles := old(obstacles)[i := old(obstacles)[i].(x := OffScene)])
          && unchanged(profile)
        else State() == old(State()).(running := false) && Ended()
      ensures combo >= old(combo) && (old(energy) <= 110.0 ==> energy <= 110.0)
      ensures running ==> old(running) && (old(energy) >= 0.0 ==> energy >= 0.0)
      ensures ObstaclesInLanes(old(obstacles)) ==> ObstaclesInLanes(obstacles)
      ensures profile.bestScore >= old(profile.bestScore)
      ensures runShards >= 0.0 && combo >= 1.0 ==> profile.shards >= old(profile.shards)
    {
      if player.dash > 0.0 || player.shieldTimer > 0.0 {
        energy := MinR(100.0, energy + 12.0);
        combo := combo + 0.5;
        obstacles := obstacles[i := obstacles[i].(x := OffScene)];
      } else {
        EndRun();
      }
    }

    /**
     * The drone branch: an immune player destroys drone `j`; anyone else
     * loses 25 energy, and the run ends once energy is gone.
     */
    method HitDrone(j: nat)
      requires j < |drones|
      modifies this`energy, this`drones, this`running, profile`shards, profile`bestScore
      ensures if Immune(player.dash, player.shieldTimer) then
          && State() == old(State()).(energy := MinR(100.0, old(energy) + 8.0),
                                      drones := old(drones)[j := old(drones)[j].(x := OffScene)])
          && unchanged(profile)
        else
          && State() == old(State()).(energy := old(energy) - 25.0, running := old(running) && energy > 0.0)
          && if energy <= 0.0 then Ended() else unchanged(profile)
      ensures old(energy) <= 110.0 ==> energy <= 110.0
      ensures running ==> old(running) && (old(energy) >= 0.0 ==> energy >= 0.0)
      ensures DronesInLanes(old(drones)) ==> DronesInLanes(drones)
      ensures profile.bestScore >= old(profile.bestScore)
      ensures runShards >= 0.0 && combo >= 1.0 ==> profile.shards >= old(profile.shards)
    {
      if player.dash > 0.0 || player.shieldTimer > 0.0 {
        energy := MinR(100.0, energy + 8.0);
        drones := drones[j := drones[j].(x := OffScene)];
      } else {
        energy := energy - 25.0;
        if energy <= 0.0 {
          EndRun();
        }
      }
    }

    /** escalateDifficulty: difficulty grows with time, the level follows it. */
    method EscalateDifficulty(delta: real)
      modifies this`difficulty, this`level
      ensures difficulty == old(difficulty) + delta * 0.0045
      ensures level == Level(difficulty)
      ensures State() == Escalated(old(State()), delta)
    {
      difficulty := difficulty + delta * 0.0045;
      level := MinI(10, 1 + (difficulty / 4.0).Floor);
    }

    // ------------------------------------------------------------ the frame

    /**
     * The first part of update, up to the entity loops: spawning, timers,
     * travel, energy drain and burst mode, combo decay.
     */
    method AdvanceRun(delta: real, rolls: Rolls) returns (travelSpeed: real)
      requires RunSound() && running && rolls.Valid()
      modifies this`spawnTimer, this`shardTimer, this`droneTimer, this`obstacles, this`shards, this`drones,
               this`player, this`runDistance, this`score, this`energy, this`burstMode, this`comboDecay, this`combo
      ensures State() == Prepared(old(State()), delta, rolls, width, height, profile.Rank("thrust"), profile.Rank("focus"))
      ensures PlayerInLanes() && TallySound() && EntitiesSound() && energy <= 100.0
      ensures travelSpeed == TravelSpeed(difficulty, profile.Rank("thrust"), old(burstMode))
    {
      RunSpawners(delta, rolls);
      AdvanceTimers(delta);
      travelSpeed := Travel(delta);
      DriftEnergy(delta);
      DecayComboStep(delta);
    }

    /**
     * The entity loops of update (obstacles, shards with pickup, drones)
     * and the cleanup filters.
     */
    method AdvanceEntities(delta: real, travelSpeed: real, sine: real -> real)
      requires running && TallySound() && EntitiesSound()
      modifies this`obstacles, this`shards, this`drones, this`runShards, this`combo, this`energy, this`comboDecay
      ensures State() == Swept(old(State()), delta, sine, width, height, travelSpeed, profile.Rank("magnet"))
      ensures TallySound() && EntitiesSound() && runShards >= old(runShards)
    {
      ghost var s0 := State();
      var reach := PlayerRadius + MagnetRadius(profile.Rank("magnet"));
      AdvanceObstacles(delta);
      var sweep := Sweep(delta, travelSpeed, height * 0.5, sine, LaneX(width, player.lane), player.y, reach);
      assert sweep == FrameSweep(s0, delta, sine, width, height, travelSpeed, profile.Rank("magnet"));
      ghost var before := CurrentTally();
      ghost var swept := shards;
      ShardPass(sweep);
      CollectNBounds(before, CountGrabs(swept, sweep));
      AdvanceDrones(delta, travelSpeed, sine);
      CleanupKeepsLanes(obstacles, shards, drones);
      Cleanup();
    }

    /** Everything update does to a running game before the feat check. */
    method Step(delta: real, rolls: Rolls, sine: real -> real)
      requires RunSound() && running && rolls.Valid()
      modifies this, profile`shards, profile`bestScore
      ensures RunSound()
      ensures State() == Frame(old(State()), delta, rolls, sine, width, height,
                               old(profile.Rank("thrust")), old(profile.Rank("focus")), old(profile.Rank("magnet")))
      ensures if running then unchanged(profile) else Ended()
      ensures profile.bestScore >= old(profile.bestScore)
      ensures profile.shards >= old(profile.shards)
    {
      AdvanceFrame(delta, rolls, sine);
      DetectCollisions();
      EscalateDifficulty(delta);
    }

    /** The part of a running frame before the collision check. */
    method AdvanceFrame(delta: real, rolls: Rolls, sine: real -> real)
      requires RunSound() && running && rolls.Valid()
      modifies this`spawnTimer, this`shardTimer, this`droneTimer, this`obstacles, this`shards, this`drones,
               this`player, this`runDistance, this`score, this`energy, this`burstMode, this`comboDecay,
               this`combo, this`runShards
      ensures State() == Advanced(old(State()), delta, rolls, sine, width, height,
                                  profile.Rank("thrust"), profile.Rank("focus"), profile.Rank("magnet"))
      ensures PlayerInLanes() && TallySound() && EntitiesSound()
      ensures runShards >= old(runShards)
    {
      var travelSpeed := AdvanceRun(delta, rolls);
      AdvanceEntities(delta, travelSpeed, sine);
    }

    /**
     * update(delta): one frame, in the source's order. It does nothing when
     * no run is active. A run that ends mid-frame still escalates the
     * difficulty and evaluates the feats.
     */
    method Update(delta: real, rolls: Rolls, sine: real -> real)
      requires Valid() && rolls.Valid()
      modifies this, profile
      ensures Valid()
      ensures !old(running) ==> State() == old(State()) && unchanged(profile)
      ensures old(running) ==>
        State() == Frame(old(State()), delta, rolls, sine, width, height,
                         old(profile.Rank("thrust")), old(profile.Rank("focus")), old(profile.Rank("magnet")))
      ensures profile.upgrades == old(profile.upgrades)
      ensures old(running) ==>
        && (if running then profile.shards == old(profile.shards) && profile.bestScore == old(profile.bestScore)
            else profile.shards == old(profile.shards) + Payout(runShards, combo)
                 && profile.bestScore == MaxI(old(profile.bestScore), score))
        && profile.achievements == Unlock(old(profile.achievements), Goals, Stats())
      ensures profile.bestScore >= old(profile.bestScore) && profile.shards >= old(profile.shards)
    {
      if running {
        RunFrame(delta, rolls, sine);
      }
    }

    /** The running branch of update: the frame, then the feat check. */
    method RunFrame(delta: real, rolls: Rolls, sine: real -> real)
      requires Valid() && running && rolls.Valid()
      modifies this, profile`shards, profile`bestScore, profile`achievements
      ensures Valid()
      ensures State() == Frame(old(State()), delta, rolls, sine, width, height,
                               old(profile.Rank("thrust")), old(profile.Rank("focus")), old(profile.Rank("magnet")))
      ensures if running then profile.shards == old(profile.shards) && profile.bestScore == old(profile.bestScore)
              else profile.shards == old(profile.shards) + Payout(runShards, combo)
                   && profile.bestScore == MaxI(old(profile.bestScore), score)
      ensures profile.achievements == Unlock(old(profile.achievements), Goals, Stats())
      ensures profile.bestScore >= old(profile.bestScore) && profile.shards >= old(profile.shards)
    {
      Step(delta, rolls, sine);
      profile.CheckAchievements(Stats());
    }
  }
}
