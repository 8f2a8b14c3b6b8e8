/**
 * The feat table and what one evaluation of it does to the unlocked flags.
 * Every condition reads only the current run, never the profile.
 */
module Achievements {

  /** The six feats, in the order of the table. */
  datatype Goal = FirstRun | Shard10 | Combo4 | DroneDodger | Burst | Perfect

  /** The fixed, ordered table. */
  const Goals: seq<Goal> := [FirstRun, Shard10, Combo4, DroneDodger, Burst, Perfect]

  /** The key under which the profile records a feat. */
  function Key(g: Goal): string {
    match g
    case FirstRun => "firstRun"
    case Shard10 => "shard10"
    case Combo4 => "combo4"
    case DroneDodger => "droneDodger"
    case Burst => "burst"
    case Perfect => "perfect"
  }

  /** The run fields the conditions read. */
  datatype RunStats = RunStats(distance: real, runShards: real, combo: real, score: int, burst: bool, energy: real)

  /** The condition of each feat. */
  predicate Met(g: Goal, s: RunStats) {
    match g
    case FirstRun => s.distance > 200.0
    case Shard10 => s.runShards >= 10.0
    case Combo4 => s.combo >= 4.0
    case DroneDodger => s.score >= 2400
    case Burst => s.burst
    case Perfect => s.score >= 5000 && s.energy == 100.0
  }

  /** A stored flag is truthy: present and true. */
  predicate Unlocked(achievements: map<string, bool>, key: string) {
    key in achievements && achievements[key]
  }

  /** Some feat of `gs` with this key has its condition met by `s`. */
  ghost predicate GoalMet(gs: seq<Goal>, s: RunStats, key: string) {
    exists i :: 0 <= i < |gs| && Key(gs[i]) == key && Met(gs[i], s)
  }

  /**
   * The flags after checkAchievements walks `gs` in order: a feat not yet
   * unlocked whose condition holds is set to true; nothing else is written.
   */
  function Unlock(achievements: map<string, bool>, gs: seq<Goal>, s: RunStats): map<string, bool> {
    if gs == [] then achievements
    else
      var before := Unlock(achievements, gs[..|gs| - 1], s);
      var g := gs[|gs| - 1];
      if !Unlocked(before, Key(g)) && Met(g, s) then before[Key(g) := true] else before
  }

  /** After the walk a key is unlocked exactly when it was already, or one of its feats is met. */
  lemma {:induction false} UnlockedAfter(achievements: map<string, bool>, gs: seq<Goal>, s: RunStats, key: string)
    ensures Unlocked(Unlock(achievements, gs, s), key) <==> Unlocked(achievements, key) || GoalMet(gs, s, key)
  {
    if gs != [] {
      var init, g := gs[..|gs| - 1], gs[|gs| - 1];
      UnlockedAfter(achievements, init, s, key);
      assert forall i :: 0 <= i < |init| ==> init[i] == gs[i];
      if GoalMet(gs, s, key) && !GoalMet(init, s, key) {
        var i :| 0 <= i < |gs| && Key(gs[i]) == key && Met(gs[i], s);
        assert i == |gs| - 1;
      }
      if GoalMet(init, s, key) {
        var i :| 0 <= i < |init| && Key(init[i]) == key && Met(init[i], s);
        assert Key(gs[i]) == key && Met(gs[i], s);
      }
      if Key(g) == key && Met(g, s) {
        assert Key(gs[|gs| - 1]) == key && Met(gs[|gs| - 1], s);
      }
    }
  }

  /** Keys that no feat of `gs` uses are left exactly as they were. */
  lemma {:induction false} UnlockLeavesOthers(achievements: map<string, bool>, gs: seq<Goal>, s: RunStats, key: string)
    requires forall i :: 0 <= i < |gs| ==> Key(gs[i]) != key
    ensures key in Unlock(achievements, gs, s) <==> key in achievements
    ensures key in achievements ==> Unlock(achievements, gs, s)[key] == achievements[key]
  {
    if gs != [] {
      UnlockLeavesOthers(achievements, gs[..|gs| - 1], s, key);
    }
  }

  /** When every met feat is already unlocked the walk writes nothing. */
  lemma {:induction false} UnlockSettled(achievements: map<string, bool>, gs: seq<Goal>, s: RunStats)
    requires forall i :: 0 <= i < |gs| && Met(gs[i], s) ==> Unlocked(achievements, Key(gs[i]))
    ensures Unlock(achievements, gs, s) == achievements
  {
    if gs != [] {
      UnlockSettled(achievements, gs[..|gs| - 1], s);
    }
  }

  /** Evaluating the table twice on the same run unlocks nothing more than once. */
  lemma UnlockIdempotent(achievements: map<string, bool>, gs: seq<Goal>, s: RunStats)
    ensures Unlock(Unlock(achievements, gs, s), gs, s) == Unlock(achievements, gs, s)
  {
    var once := Unlock(achievements, gs, s);
    forall i | 0 <= i < |gs| && Met(gs[i], s)
      ensures Unlocked(once, Key(gs[i]))
    {
      UnlockedAfter(achievements, gs, s, Key(gs[i]));
    }
    UnlockSettled(once, gs, s);
  }
}
