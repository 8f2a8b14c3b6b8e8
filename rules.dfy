/**
 * The formulas one frame of the runner applies: spawn intervals, travel speed,
 * the energy drain and its burst hysteresis, combo decay, timers, shard
 * collection, difficulty level and the payout at the end of a run.
 * Time is in milliseconds, positions in pixels.
 */
module Rules {
  import opened Numeric

  /** Number of lanes (LANES). */
  const Lanes: int := 3
  /** state.baseSpeed, never changed. */
  const BaseSpeed: real := 260.0
  /** state.player.radius, never changed. */
  const PlayerRadius: real := 22.0
  /** Distance under which a drone touches the player. */
  const DroneReach: real := 40.0
  /** The x an entity is moved to when a dash or shield neutralizes it. */
  const OffScene: real := -999.0

  // ---------------------------------------------------------------- lanes

  /** Horizontal centre of a lane on a canvas `width` pixels wide. */
  function LaneX(width: real, lane: int): (x: real)
    ensures width > 0.0 && 0 <= lane < Lanes ==> 0.0 < x < width
  {
    width / (Lanes + 1) as real * (lane + 1) as real
  }

  lemma LanesLeftToRight(width: real, a: int, b: int)
    requires width > 0.0 && a < b
    ensures LaneX(width, a) < LaneX(width, b)
  {
    var spacing := width / (Lanes + 1) as real;
    assert spacing > 0.0;
    assert spacing * (b + 1) as real - spacing * (a + 1) as real == spacing * (b - a) as real;
    assert (b - a) as real >= 1.0;
    assert spacing * (b - a) as real >= spacing * 1.0;
  }

  /** The target lane after a lane-change request, clamped to the lanes. */
  function ShiftLane(target: int, direction: int): (r: int)
    ensures 0 <= r < Lanes
    ensures 0 <= target + direction < Lanes ==> r == target + direction
    ensures target + direction < 0 ==> r == 0
    ensures target + direction >= Lanes ==> r == Lanes - 1
  {
    MaxI(0, MinI(Lanes - 1, target + direction))
  }

  // ------------------------------------------------------------- spawning

  /** Time between obstacles: shrinks with difficulty, never below 180. */
  function ObstacleInterval(difficulty: real): (r: real)
    ensures r >= 180.0
    ensures difficulty >= 0.0 ==> r <= 450.0
  {
    MaxR(450.0 - difficulty * 12.0, 180.0)
  }

  /** Time between shards: shrinks with difficulty, never below 200. */
  function ShardInterval(difficulty: real): (r: real)
    ensures r >= 200.0
    ensures difficulty >= 0.0 ==> r <= 600.0
  {
    MaxR(600.0 - difficulty * 10.0, 200.0)
  }

  /** Time between drones: shrinks with difficulty, never below 1500. */
  function DroneInterval(difficulty: real): (r: real)
    ensures r >= 1500.0
    ensures difficulty >= 0.0 ==> r <= 4000.0
  {
    4000.0 - MinR(difficulty * 40.0, 2500.0)
  }

  lemma IntervalsShrink(d1: real, d2: real)
    requires d1 <= d2
    ensures ObstacleInterval(d2) <= ObstacleInterval(d1)
    ensures ShardInterval(d2) <= ShardInterval(d1)
    ensures DroneInterval(d2) <= DroneInterval(d1)
  {
  }

  // ------------------------------------------------------- speed and score

  /** Global travel speed: thrust ranks and difficulty add to it, burst mode scales it by 1.25. */
  function TravelSpeed(difficulty: real, thrust: int, burst: bool): (r: real)
    ensures difficulty >= 0.0 && thrust >= 0 ==> r >= BaseSpeed
    ensures burst ==> r == 1.25 * TravelSpeed(difficulty, thrust, false)
  {
    (BaseSpeed + difficulty * 6.0 + thrust as real * 18.0) * (if burst then 1.25 else 1.0)
  }

  /** The distance after a frame at the given travel speed (pixels per second). */
  function DistanceAfter(distance: real, speed: real, delta: real): (r: real)
    ensures delta >= 0.0 && speed >= 0.0 ==> r >= distance
    ensures delta == 1000.0 ==> r == distance + speed
  {
    distance + speed * (delta / 1000.0)
  }

  /** The score, recomputed every frame from distance, shards and combo. */
  function Score(distance: real, runShards: real, combo: real): (r: int)
    ensures runShards == 0.0 ==> r == Round(distance)
    ensures distance >= 0.0 && runShards >= 0.0 && combo >= 0.0 ==> r >= 0
  {
    Round(distance + runShards * 25.0 * combo)
  }

  // --------------------------------------------------- energy and burst mode

  /** Energy after the per-frame drain (offset by the combo) and the clamp to [0, 100]. */
  function DrainEnergy(energy: real, combo: real, delta: real): (r: real)
    ensures 0.0 <= r <= 100.0
    ensures var raw := energy - 0.01 * delta + combo * 0.003 * delta;
            0.0 <= raw <= 100.0 ==> r == raw
    ensures delta >= 0.0 && combo * 0.003 <= 0.01 && energy <= 100.0 ==> r <= MaxR(energy, 0.0)
  {
    MaxR(0.0, MinR(100.0, energy - 0.01 * delta + combo * 0.003 * delta))
  }

  /**
   * Burst mode after the two checks of a frame, in their order: switch on at
   * energy 90 or more, then switch off below 30. The result differs from
   * `burst` only on a crossing, so the flag changes at most once per frame.
   */
  function BurstAfter(energy: real, burst: bool): (r: bool)
    ensures r != burst ==> if burst then energy < 30.0 else energy >= 90.0
    ensures !burst && energy >= 90.0 ==> r
    ensures burst && energy < 30.0 ==> !r
  {
    var on := if energy >= 90.0 && !burst then true else burst;
    if energy < 30.0 && on then false else on
  }

  /** Burst mode after a sequence of frames whose clamped energies are `energies`. */
  function BurstTrace(burst: bool, energies: seq<real>): bool
    decreases energies
  {
    if energies == [] then burst else BurstTrace(BurstAfter(energies[0], burst), energies[1..])
  }

  /** Once on, burst mode stays on while energy never falls below 30. */
  lemma {:induction false} BurstHoldsOn(energies: seq<real>)
    requires forall i :: 0 <= i < |energies| ==> energies[i] >= 30.0
    ensures BurstTrace(true, energies)
  {
    if energies != [] {
      BurstHoldsOn(energies[1..]);
    }
  }

  /** Once off, burst mode stays off while energy never reaches 90. */
  lemma {:induction false} BurstHoldsOff(energies: seq<real>)
    requires forall i :: 0 <= i < |energies| ==> energies[i] < 90.0
    ensures !BurstTrace(false, energies)
  {
    if energies != [] {
      BurstHoldsOff(energies[1..]);
    }
  }

  /** Energies that stay within [30, 90) never toggle burst mode. */
  lemma BandKeepsBurst(burst: bool, energies: seq<real>)
    requires forall i :: 0 <= i < |energies| ==> 30.0 <= energies[i] < 90.0
    ensures BurstTrace(burst, energies) == burst
  {
    if burst {
      BurstHoldsOn(energies);
    } else {
      BurstHoldsOff(energies);
    }
  }

  // ----------------------------------------------------------------- combo

  /** Quiet time after the last shard before the combo starts to decay. */
  function DecayDelay(focus: int): (r: real)
    ensures focus >= 0 ==> r >= 2200.0
    ensures 0 <= focus <= 5 ==> r <= 4300.0
  {
    2200.0 + focus as real * 420.0
  }

  /**
   * The combo after a frame's decay step; `quiet` is the time since the last
   * shard, already advanced by this frame's delta.
   */
  function DecayCombo(combo: real, quiet: real, delta: real, focus: int): (r: real)
    ensures combo >= 1.0 ==> r >= 1.0
    ensures delta >= 0.0 ==> r <= combo
    ensures quiet <= DecayDelay(focus) || combo <= 1.0 ==> r == combo
  {
    if quiet > DecayDelay(focus) && combo > 1.0 then MaxR(1.0, combo - 0.01 * delta / 16.0)
    else combo
  }

  // ---------------------------------------------------------------- timers

  /** A dash or shield timer after a frame: only a running timer counts down. */
  function Tick(timer: real, delta: real): (r: real)
    ensures timer <= 0.0 ==> r == timer
    ensures delta >= 0.0 ==> r <= timer
  {
    if timer > 0.0 then timer - delta else timer
  }

  /** An active dash or shield makes the player immune to impacts. */
  predicate Immune(dash: real, shieldTimer: real) {
    dash > 0.0 || shieldTimer > 0.0
  }

  /** Dash cooldown for a flux rank. */
  function DashCooldown(flux: int): (r: real)
    ensures 0 <= flux <= 6 ==> 480.0 <= r <= 1200.0
  {
    1200.0 - flux as real * 120.0
  }

  /** Extra pickup radius granted by magnet ranks. */
  function MagnetRadius(magnet: int): (r: real)
    ensures magnet >= 0 ==> r >= 40.0
    ensures 0 <= magnet <= 6 ==> r <= 88.0
  {
    40.0 + magnet as real * 8.0
  }

  // -------------------------------------------------------------- pickups

  /** The run fields that collecting one shard writes. */
  datatype Tally = Tally(runShards: real, combo: real, energy: real, comboDecay: real)

  /**
   * One shard collected: the reward 1 + 0.2 * combo is banked, the combo
   * grows by 0.15 but is capped at 9, energy heals by 4 up to 110 (above the
   * usual clamp) and the quiet timer restarts.
   */
  function Collect(t: Tally): (r: Tally)
    ensures t.combo >= 1.0 ==> r.runShards >= t.runShards + 1.2
    ensures r.combo <= 9.0
    ensures t.combo >= 1.0 ==> r.combo >= 1.0
    ensures t.combo <= 8.85 ==> r.combo == t.combo + 0.15
    ensures r.energy <= 110.0 && (t.energy <= 106.0 ==> r.energy == t.energy + 4.0)
    ensures r.comboDecay == 0.0
  {
    Tally(t.runShards + (1.0 + t.combo * 0.2),
          MinR(t.combo + 0.15, 9.0),
          MinR(110.0, t.energy + 4.0),
          0.0)
  }

  /** `k` shards collected one after another. */
  function CollectN(t: Tally, k: nat): Tally {
    if k == 0 then t else Collect(CollectN(t, k - 1))
  }

  lemma {:induction false} CollectNBounds(t: Tally, k: nat)
    requires t.combo >= 1.0
    ensures var r := CollectN(t, k);
      && r.combo >= 1.0
      && r.runShards >= t.runShards + 1.2 * k as real
      && (t.energy <= 110.0 ==> r.energy <= 110.0)
      && (t.energy >= 0.0 ==> r.energy >= 0.0)
      && (k > 0 ==> r.combo <= 9.0 && r.comboDecay == 0.0)
      && (k == 0 ==> r == t)
  {
    if k > 0 {
      CollectNBounds(t, k - 1);
    }
  }

  /** At combo 2 a shard is worth exactly 1.4. */
  lemma CollectAtComboTwo(t: Tally)
    requires t.combo == 2.0
    ensures Collect(t).runShards == t.runShards + 1.4
  {
  }

  // ------------------------------------------------------ difficulty, payout

  /** The displayed level: one more every 4 points of difficulty, at most 10. */
  function Level(difficulty: real): (r: int)
    ensures r <= 10
    ensures difficulty >= 0.0 ==> r >= 1
    ensures difficulty >= 36.0 ==> r == 10
  {
    MinI(10, 1 + (difficulty / 4.0).Floor)
  }

  lemma LevelMonotone(d1: real, d2: real)
    requires d1 <= d2
    ensures Level(d1) <= Level(d2)
  {
  }

  /** Currency paid out when a run ends: the shards, boosted 10% per combo point. */
  function Payout(runShards: real, combo: real): (r: int)
    ensures runShards >= 0.0 && combo >= 0.0 ==> r >= 0
    ensures runShards >= 0.0 && combo >= 1.0 ==> r as real >= 1.1 * runShards - 0.5
  {
    Round(runShards * (1.0 + combo * 0.1))
  }
}
