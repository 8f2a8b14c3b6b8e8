/**
 * The persistent economy: the upgrade catalog, the profile (currency, best
 * score, upgrade ranks, unlocked feats), loading a stored profile over the
 * defaults, buying an upgrade and recording feats.
 */
module Economy {
  import opened Numeric
  import opened Wrappers
  import opened Achievements

  /** A catalog entry without its display title and description. */
  datatype UpgradeInfo = UpgradeInfo(baseCost: int, scale: real, max: int)

  const Catalog: map<string, UpgradeInfo> := map[
    "thrust" := UpgradeInfo(50, 1.7, 7),
    "focus" := UpgradeInfo(80, 1.8, 5),
    "magnet" := UpgradeInfo(65, 1.65, 6),
    "shield" := UpgradeInfo(120, 2.05, 4),
    "flux" := UpgradeInfo(90, 1.75, 6)
  ]

  /** The ranks of a new profile. */
  const DefaultUpgrades: map<string, int> := map["thrust" := 0, "focus" := 0, "magnet" := 0, "shield" := 0, "flux" := 0]

  /** Price of the next rank of an upgrade: round(baseCost * scale^rank). */
  function UpgradeCost(key: string, rank: nat): (cost: int)
    requires key in Catalog
    ensures cost >= Catalog[key].baseCost
  {
    var info := Catalog[key];
    PowAtLeastOne(info.scale, rank);
    assert info.baseCost as real * Pow(info.scale, rank) >= info.baseCost as real * 1.0 by {
      assert info.baseCost >= 0;
      assert info.baseCost as real * (Pow(info.scale, rank) - 1.0) >= 0.0;
    }
    Round(info.baseCost as real * Pow(info.scale, rank))
  }

  /** Every rank costs strictly more than the one before. */
  lemma CostRises(key: string, rank: nat)
    requires key in Catalog
    ensures UpgradeCost(key, rank) < UpgradeCost(key, rank + 1)
  {
    var info := Catalog[key];
    var b, s, p := info.baseCost as real, info.scale, Pow(info.scale, rank);
    assert b >= 50.0 && s >= 1.65;
    PowAtLeastOne(s, rank);
    assert Pow(s, rank + 1) == s * p;
    assert b * (s * p) - b * p == b * (s - 1.0) * p;
    assert b * (s - 1.0) >= 32.5 by {
      assert (b - 50.0) * (s - 1.0) >= 0.0;
    }
    assert b * (s - 1.0) * p >= b * (s - 1.0) by {
      assert b * (s - 1.0) * (p - 1.0) >= 0.0;
    }
  }

  /** A stored profile after JSON parsing; a field the record lacks is None. */
  datatype StoredProfile = StoredProfile(
    shards: Option<int>,
    bestScore: Option<int>,
    upgrades: Option<map<string, int>>,
    achievements: Option<map<string, bool>>)

  /**
   * The stored ranks spread over the defaults: every default key survives,
   * a stored key overrides it, and unknown stored keys are kept. Ranks are
   * not checked against the catalog.
   */
  function MergeUpgrades(stored: Option<map<string, int>>): (m: map<string, int>)
    ensures m.Keys == DefaultUpgrades.Keys + (if stored.Some? then stored.value.Keys else {})
    ensures forall k :: k in m ==>
      m[k] == if stored.Some? && k in stored.value then stored.value[k] else DefaultUpgrades[k]
  {
    DefaultUpgrades + stored.GetOr(map[])
  }

  class Profile {
    /** Currency. */
    var shards: int
    var bestScore: int
    var upgrades: map<string, int>
    var achievements: map<string, bool>

    /** Every catalog upgrade has a rank. */
    ghost predicate Valid()
      reads this`upgrades
    {
      Catalog.Keys <= upgrades.Keys
    }

    /** The economy's intended invariant: currency never negative, ranks within the catalog. */
    ghost predicate Sound()
      reads this
    {
      Valid() && shards >= 0 &&
      forall k :: k in Catalog ==> 0 <= upgrades[k] <= Catalog[k].max
    }

    function Rank(key: string): int
      reads this`upgrades
    {
      if key in upgrades then upgrades[key] else 0
    }

    /**
     * loadProfile on an already parsed record; None stands for a missing,
     * empty or unparsable entry, which yields the defaults.
     */
    constructor Load(stored: Option<StoredProfile>)
      ensures Valid()
      ensures stored.None? ==>
        shards == 0 && bestScore == 0 && upgrades == DefaultUpgrades && achievements == map[] && Sound()
      ensures stored.Some? ==>
        && shards == stored.value.shards.GetOr(0)
        && bestScore == stored.value.bestScore.GetOr(0)
        && upgrades == MergeUpgrades(stored.value.upgrades)
        && achievements == stored.value.achievements.GetOr(map[])
    {
      match stored
      case None =>
        shards, bestScore, upgrades, achievements := 0, 0, DefaultUpgrades, map[];
      case Some(p) =>
        shards := p.shards.GetOr(0);
        bestScore := p.bestScore.GetOr(0);
        upgrades := MergeUpgrades(p.upgrades);
        achievements := p.achievements.GetOr(map[]);
    }

    /**
     * buyUpgrade: refused without any change at the maximum rank or when the
     * currency does not cover `cost`; otherwise pays and raises that rank by one.
     */
    method BuyUpgrade(key: string, cost: int)
      requires Valid() && key in Catalog
      modifies this`shards, this`upgrades
      ensures Valid()
      ensures old(upgrades[key]) >= Catalog[key].max || old(shards) < cost ==>
        shards == old(shards) && upgrades == old(upgrades)
      ensures old(upgrades[key]) < Catalog[key].max && old(shards) >= cost ==>
        shards == old(shards) - cost && upgrades == old(upgrades)[key := old(upgrades[key]) + 1]
      ensures old(Sound()) ==> Sound()
    {
      var level := upgrades[key];
      if level >= Catalog[key].max || shards < cost {
        return;
      }
      shards := shards - cost;
      upgrades := upgrades[key := level + 1];
    }

    /** checkAchievements: walk the feat table once against the current run. */
    method CheckAchievements(stats: RunStats)
      modifies this`achievements
      ensures achievements == Unlock(old(achievements), Goals, stats)
    {
      var i := 0;
      while i < |Goals|
        invariant 0 <= i <= |Goals|
        invariant achievements == Unlock(old(achievements), Goals[..i], stats)
      {
        var g := Goals[i];
        if !Unlocked(achievements, Key(g)) && Met(g, stats) {
          achievements := achievements[Key(g) := true];
        }
        assert Goals[..i + 1][..i] == Goals[..i];
        i := i + 1;
      }
      assert Goals[..|Goals|] == Goals;
    }
  }
}
