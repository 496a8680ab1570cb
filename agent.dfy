/**
 * GladiatorAgent: the learning agent of the arena. The model keeps its combat
 * logic: the registry of live agents and the nearest-enemy search over it,
 * damage with reward coupling between victim and attacker, the attack gate
 * (cooldown, range, facing), the 7-value observation layout, the action clamps,
 * the per-step rewards and the out-of-bounds test.
 *
 * Engine values enter as parameters: the distance from this agent to another
 * (Vector3.Distance), how squarely another agent stands in front of it (the dot
 * product of its forward vector with the unit direction to the other), the
 * other's unit direction in local space, the current time. ML-Agents' reward is
 * an accumulator `reward`, EndEpisode a counter `episodeEnds`.
 */
module Agent {
  import opened Wrappers
  import opened UnityMath

  /** float.MaxValue: the initial best distance of the nearest-enemy search. */
  const FloatMax: real := 340282346638528859811704183484516925440.0

  /** Distance-shaping weight and out-of-bounds penalty, literals in OnActionReceived. */
  const ShapingWeight: real := 0.001
  const OutOfBoundsPenalty: real := -0.01

  /** Observation distances are normalised by 20 units. */
  const ObservedRange: real := 20.0

  /** Attacks need the enemy at least this far in front (cosine of the angle). */
  const MinFacing: real := 0.2

  /** The agent's public tuning fields. */
  datatype Config = Config(
    arenaHalfExtents: Vec3,
    maxHealth: real,
    attackRange: real,
    attackCooldown: real,
    attackDamage: real,
    stepPenalty: real,
    dealDamageReward: real,
    takeDamagePenalty: real,
    winReward: real,
    losePenalty: real)

  /** Health fractions divide by `maxHealth`, so it is positive. */
  type AgentConfig = c: Config | c.maxHealth > 0.0
    witness Config(Vec3(8.0, 1.0, 8.0), 100.0, 1.6, 0.6, 20.0, -0.0005, 0.05, -0.05, 1.0, -1.0)

  /** The inspector defaults. */
  const DefaultConfig: AgentConfig :=
    Config(Vec3(8.0, 1.0, 8.0), 100.0, 1.6, 0.6, 20.0, -0.0005, 0.05, -0.05, 1.0, -1.0)

  // ---------------------------------------------------------------- registry

  ghost predicate Distinct<T>(s: seq<T>)
  {
    forall i, j | 0 <= i < j < |s| :: s[i] != s[j]
  }

  /** OnEnable: append unless already present (`All.Contains`). */
  function Enabled<T(==)>(all: seq<T>, a: T): (r: seq<T>)
    ensures a in r
    ensures Distinct(all) ==> Distinct(r)
    ensures forall x | x in r :: x in all || x == a
    ensures forall x | x in all :: x in r
    ensures |all| <= |r| && r[..|all|] == all
    ensures |r| == if a in all then |all| else |all| + 1
  {
    if a in all then all else all + [a]
  }

  /** Position of the first occurrence of `a`, the one List.Remove drops. */
  function FirstIndex<T(==)>(all: seq<T>, a: T): (i: nat)
    requires a in all
    ensures i < |all| && all[i] == a && a !in all[..i]
  {
    if all[0] == a then 0
    else
      var j := FirstIndex(all[1..], a);
      assert all[..j + 1] == [all[0]] + all[1..][..j];
      j + 1
  }

  /** OnDisable: List.Remove, which drops the first occurrence only. */
  function RemoveFirst<T(==)>(all: seq<T>, a: T): (r: seq<T>)
    ensures a !in all ==> r == all
    ensures a in all ==> |r| == |all| - 1
    ensures a in all ==> r == all[..FirstIndex(all, a)] + all[FirstIndex(all, a) + 1..]
  {
    if all == [] then []
    else if all[0] == a then all[1..]
    else
      assert a in all ==> a in all[1..];
      assert a in all ==> all[..FirstIndex(all, a)] == [all[0]] + all[1..][..FirstIndex(all[1..], a)];
      assert a in all ==> all[FirstIndex(all, a) + 1..] == all[1..][FirstIndex(all[1..], a) + 1..];
      [all[0]] + RemoveFirst(all[1..], a)
  }

  lemma DistinctCons<T>(x: T, t: seq<T>)
    ensures Distinct([x] + t) <==> x !in t && Distinct(t)
  {
    var s := [x] + t;
    if x !in t && Distinct(t) {
      forall i, j | 0 <= i < j < |s| ensures s[i] != s[j] {
        if i > 0 { assert s[i] == t[i - 1]; }
        assert s[j] == t[j - 1];
      }
    }
    if Distinct(s) {
      forall i, j | 0 <= i < j < |t| ensures t[i] != t[j] {
        assert t[i] == s[i + 1] && t[j] == s[j + 1];
      }
      forall k | 0 <= k < |t| ensures t[k] != x {
        assert t[k] == s[k + 1] && s[0] == x;
      }
    }
  }

  /** In a registry without duplicates, OnDisable removes the agent entirely and keeps the rest distinct. */
  lemma {:induction false} DisableRemoves<T>(all: seq<T>, a: T)
    requires Distinct(all)
    ensures a !in RemoveFirst(all, a) && Distinct(RemoveFirst(all, a))
    ensures forall x | x in RemoveFirst(all, a) :: x in all && x != a
    ensures forall x | x in all && x != a :: x in RemoveFirst(all, a)
    decreases |all|
  {
    if all != [] {
      assert all == [all[0]] + all[1..];
      DistinctCons(all[0], all[1..]);
      if all[0] != a {
        DisableRemoves(all[1..], a);
        DistinctCons(all[0], RemoveFirst(all[1..], a));
      }
    }
  }

  /** Enabling twice is enabling once; disabling a freshly enabled agent restores the registry. */
  lemma {:induction false} EnableThenDisable<T>(all: seq<T>, a: T)
    ensures Enabled(Enabled(all, a), a) == Enabled(all, a)
    ensures a !in all ==> RemoveFirst(Enabled(all, a), a) == all
    decreases |all|
  {
    if a !in all && all != [] {
      assert (all + [a])[1..] == all[1..] + [a];
      EnableThenDisable(all[1..], a);
    }
  }

  /** The static `All` list, held as an explicit object. */
  class AgentRegistry {
    var all: seq<GladiatorAgent?>

    ghost predicate Valid()
      reads this
    {
      Distinct(all)
    }

    constructor ()
      ensures Valid() && all == []
    {
      all := [];
    }
  }

  // ---------------------------------------------------------- nearest enemy

  /** Entry i may be an enemy: not null and not the caller. */
  predicate IsCandidate(all: seq<GladiatorAgent?>, self: GladiatorAgent, i: int)
    requires 0 <= i < |all|
  {
    all[i] != null && all[i] != self
  }

  /** Reference definition of the search: the best of the prefix, replaced on a strictly smaller distance. */
  function NearestIndex(all: seq<GladiatorAgent?>, self: GladiatorAgent, dist: GladiatorAgent -> real): Option<nat>
    decreases |all|
  {
    if all == [] then None
    else
      var best := NearestIndex(all[..|all| - 1], self, dist);
      var bestD := if best.Some? && best.value < |all| - 1 && all[best.value] != null
        then dist(all[best.value]) else FloatMax;
      var i := |all| - 1;
      if IsCandidate(all, self, i) && dist(all[i]) < bestD then Some(i) else best
  }

  function NearestEnemy(all: seq<GladiatorAgent?>, self: GladiatorAgent, dist: GladiatorAgent -> real): GladiatorAgent?
  {
    var k := NearestIndex(all, self, dist);
    if k.Some? && k.value < |all| then all[k.value] else null
  }

  /**
   * The search result is the first entry of minimal distance among the entries
   * that are neither null nor the caller, and nothing is found exactly when every
   * such entry is at least float.MaxValue away (in particular when there is none).
   */
  lemma {:induction false} NearestIsFirstMinimum(all: seq<GladiatorAgent?>, self: GladiatorAgent, dist: GladiatorAgent -> real)
    ensures var k := NearestIndex(all, self, dist);
      && (k.None? <==> forall j | 0 <= j < |all| && IsCandidate(all, self, j) :: dist(all[j]) >= FloatMax)
      && (k.Some? ==>
        && k.value < |all|
        && IsCandidate(all, self, k.value)
        && dist(all[k.value]) < FloatMax
        && (forall j | 0 <= j < k.value && IsCandidate(all, self, j) :: dist(all[j]) > dist(all[k.value]))
        && (forall j | k.value < j < |all| && IsCandidate(all, self, j) :: dist(all[j]) >= dist(all[k.value])))
    decreases |all|
  {
    if all != [] {
      var pre := all[..|all| - 1];
      NearestIsFirstMinimum(pre, self, dist);
      forall j | 0 <= j < |pre| ensures pre[j] == all[j] {}
    }
  }

  /** The search never yields the caller, and yields null only when no other agent is within float range. */
  lemma NearestEnemyIsOther(all: seq<GladiatorAgent?>, self: GladiatorAgent, dist: GladiatorAgent -> real)
    ensures var e := NearestEnemy(all, self, dist);
      && (e != null ==> e != self && e in all && dist(e) < FloatMax)
      && ((forall a: GladiatorAgent | a in all && a != self :: dist(a) < FloatMax) ==>
          (e == null <==> forall a: GladiatorAgent | a in all :: a == self))
  {
    NearestIsFirstMinimum(all, self, dist);
    var e := NearestEnemy(all, self, dist);
    if e == null && (forall a: GladiatorAgent | a in all && a != self :: dist(a) < FloatMax) {
      forall a: GladiatorAgent | a in all ensures a == self {
        var j :| 0 <= j < |all| && all[j] == a;
      }
    }
  }

  // ------------------------------------------------------------------ damage

  /** What one TakeDamage does: the victim's new health and both reward deltas. */
  datatype Strike = Strike(health: real, victimReward: real, attackerReward: real, victimEnds: bool)

  /** The share of full health a hit removed, `(before - after) / maxHealth`. */
  function LostFraction(before: real, after: real, maxHealth: real): real
    requires maxHealth > 0.0
  {
    (before - after) / maxHealth
  }

  /**
   * TakeDamage on a victim with configuration `cfg`: health drops by `dmg`,
   * floored at 0; victim and attacker are credited the victim's penalty and
   * reward scaled by the lost fraction; at 0 health the victim also gets the
   * lose penalty and ends its episode, and the attacker gets the win reward.
   */
  function Damage(cfg: AgentConfig, health: real, dmg: real): Strike
  {
    var after := Max(0.0, health - dmg);
    var frac := LostFraction(health, after, cfg.maxHealth);
    var dead := after <= 0.0;
    Strike(
      after,
      cfg.takeDamagePenalty * frac + (if dead then cfg.losePenalty else 0.0),
      cfg.dealDamageReward * frac + (if dead then cfg.winReward else 0.0),
      dead)
  }

  /** Non-negative damage keeps health in [0, maxHealth] and the lost fraction in [0, 1]. */
  lemma DamageKeepsHealthInRange(cfg: AgentConfig, health: real, dmg: real)
    requires 0.0 <= health <= cfg.maxHealth && dmg >= 0.0
    ensures var s := Damage(cfg, health, dmg);
      && 0.0 <= s.health <= health <= cfg.maxHealth
      && 0.0 <= LostFraction(health, s.health, cfg.maxHealth) <= 1.0
  {
    var s := Damage(cfg, health, dmg);
    var lost := health - s.health;
    assert 0.0 <= lost <= cfg.maxHealth;
    assert lost / cfg.maxHealth <= 1.0 by {
      assert lost <= cfg.maxHealth * 1.0;
    }
  }

  /**
   * The episode of the victim ends exactly when the damage reaches its health;
   * the shaping terms are then added to the terminal terms, never replaced.
   */
  lemma DeathIffDamageReachesHealth(cfg: AgentConfig, health: real, dmg: real)
    ensures var s := Damage(cfg, health, dmg);
      && (s.victimEnds <==> dmg >= health)
      && s.victimReward == cfg.takeDamagePenalty * LostFraction(health, s.health, cfg.maxHealth)
                           + (if s.victimEnds then cfg.losePenalty else 0.0)
      && s.attackerReward == cfg.dealDamageReward * LostFraction(health, s.health, cfg.maxHealth)
                             + (if s.victimEnds then cfg.winReward else 0.0)
  {
  }

  /** A further hit on a victim already at 0 health adds no shaping but repeats lose and win. */
  lemma HitAtZeroRepeatsOutcome(cfg: AgentConfig, dmg: real)
    requires dmg >= 0.0
    ensures Damage(cfg, 0.0, dmg) == Strike(0.0, cfg.losePenalty, cfg.winReward, true)
  {
    assert LostFraction(0.0, 0.0, cfg.maxHealth) == 0.0;
  }

  /** Health after a series of hits, and the sum of the lost fractions credited along the way. */
  function HealthAfterAll(cfg: AgentConfig, health: real, dmgs: seq<real>): real
    decreases |dmgs|
  {
    if dmgs == [] then health else HealthAfterAll(cfg, Damage(cfg, health, dmgs[0]).health, dmgs[1..])
  }

  function FractionsCredited(cfg: AgentConfig, health: real, dmgs: seq<real>): real
    decreases |dmgs|
  {
    if dmgs == [] then 0.0
    else
      var after := Damage(cfg, health, dmgs[0]).health;
      LostFraction(health, after, cfg.maxHealth) + FractionsCredited(cfg, after, dmgs[1..])
  }

  /**
   * The per-hit shaping telescopes: over any series of hits, the lost fractions
   * credited add up to the health actually lost over maxHealth, so from full
   * health the attacker's shaping never exceeds `dealDamageReward` in total.
   */
  lemma {:induction false} ShapingTelescopes(cfg: AgentConfig, health: real, dmgs: seq<real>)
    ensures FractionsCredited(cfg, health, dmgs) ==
      LostFraction(health, HealthAfterAll(cfg, health, dmgs), cfg.maxHealth)
    decreases |dmgs|
  {
    if dmgs != [] {
      var after := Damage(cfg, health, dmgs[0]).health;
      ShapingTelescopes(cfg, after, dmgs[1..]);
      var last := HealthAfterAll(cfg, after, dmgs[1..]);
      assert (health - after) / cfg.maxHealth + (after - last) / cfg.maxHealth
          == (health - last) / cfg.maxHealth;
    }
  }

  // ------------------------------------------------------------- attacking

  /** The agent TryAttack strikes, if any: the gate is time, then enemy, then range, then facing. */
  function Struck(self: GladiatorAgent, now: real, readyAt: real, all: seq<GladiatorAgent?>,
                  dist: GladiatorAgent -> real, facing: GladiatorAgent -> real): GladiatorAgent?
  {
    var e := NearestEnemy(all, self, dist);
    if now < readyAt || e == null || dist(e) > self.cfg.attackRange || facing(e) < MinFacing then null
    else e
  }

  /** A strike lands only on the nearest other agent, in range and in front. */
  lemma StruckIsNearestInReach(self: GladiatorAgent, now: real, readyAt: real, all: seq<GladiatorAgent?>,
                               dist: GladiatorAgent -> real, facing: GladiatorAgent -> real)
    ensures var v := Struck(self, now, readyAt, all, dist, facing);
      && (v != null <==>
          now >= readyAt && NearestEnemy(all, self, dist) != null
          && dist(NearestEnemy(all, self, dist)) <= self.cfg.attackRange
          && facing(NearestEnemy(all, self, dist)) >= MinFacing)
      && (v != null ==> v == NearestEnemy(all, self, dist) && v != self && v in all)
  {
    NearestEnemyIsOther(all, self, dist);
  }

  // ------------------------------------------------------ observation layout

  /** What the agent sees of its nearest enemy. */
  datatype EnemyView = EnemyView(localDir: Vec3, distance: real, health: real, maxHealth: real)

  /**
   * CollectObservations: own health fraction, local velocity x and z, then the
   * enemy's unit local direction x and z, the clamped normalised distance and
   * its health fraction, or (0, 0, 1, 1) when there is no enemy.
   */
  function Observation(health: real, maxHealth: real, vLocal: Vec3, enemy: Option<EnemyView>): (obs: seq<real>)
    requires maxHealth > 0.0
    requires enemy.Some? ==> enemy.value.maxHealth > 0.0
    ensures |obs| == 7
    ensures obs[0] * maxHealth == health && obs[1] == vLocal.x && obs[2] == vLocal.z
    ensures enemy.None? ==> obs[3..] == [0.0, 0.0, 1.0, 1.0]
    ensures enemy.Some? ==>
      && obs[3] == enemy.value.localDir.x && obs[4] == enemy.value.localDir.z
      && 0.0 <= obs[5] <= 1.0
      && obs[6] * enemy.value.maxHealth == enemy.value.health
    ensures enemy.Some? && 0.0 <= enemy.value.distance <= ObservedRange ==>
      obs[5] * ObservedRange == enemy.value.distance
    ensures enemy.Some? && enemy.value.distance >= ObservedRange ==> obs[5] == 1.0
  {
    var own := [health / maxHealth, vLocal.x, vLocal.z];
    match enemy
    case None => own + [0.0, 0.0, 1.0, 1.0]
    case Some(e) =>
      own + [e.localDir.x, e.localDir.z, Clamp01(e.distance / ObservedRange), e.health / e.maxHealth]
  }

  /** An absent enemy reads as far away (distance 1) and unhurt (health 1), facing nowhere. */
  lemma AbsentEnemyReadsFarAndHealthy(health: real, maxHealth: real, vLocal: Vec3, e: EnemyView)
    requires maxHealth > 0.0 && e.maxHealth > 0.0
    requires e.localDir.x == 0.0 && e.localDir.z == 0.0 && e.distance >= ObservedRange && e.health == e.maxHealth
    ensures Observation(health, maxHealth, vLocal, None) == Observation(health, maxHealth, vLocal, Some(e))
  {
    var o := Observation(health, maxHealth, vLocal, Some(e));
    assert o[6] == 1.0;
    assert o[..3] == Observation(health, maxHealth, vLocal, None)[..3];
  }

  // ---------------------------------------------------------- bounds, steps

  /** IsOutOfBounds: outside the box's x or z half extent around the centre (the origin without one). */
  function IsOutOfBounds(center: Option<Vec3>, halfExtents: Vec3, p: Vec3): (r: bool)
    ensures var c := if center.Some? then center.value else Zero;
      r <==> (p.x > c.x + halfExtents.x || p.x < c.x - halfExtents.x
              || p.z > c.z + halfExtents.z || p.z < c.z - halfExtents.z)
  {
    var c := if center.Some? then center.value else Zero;
    var d := p.Minus(c);
    Abs(d.x) > halfExtents.x || Abs(d.z) > halfExtents.z
  }

  /** OnEpisodeBegin's spawn point: the centre plus a random (x, 0.5, z) offset. */
  function SpawnPosition(center: Option<Vec3>, x: real, z: real): Vec3
  {
    (if center.Some? then center.value else Zero).Plus(Vec3(x, 0.5, z))
  }

  /** Random.Range(-h, h) offsets put a fresh spawn inside the bounds. */
  lemma SpawnIsInBounds(center: Option<Vec3>, halfExtents: Vec3, x: real, z: real)
    requires -halfExtents.x <= x <= halfExtents.x && -halfExtents.z <= z <= halfExtents.z
    ensures !IsOutOfBounds(center, halfExtents, SpawnPosition(center, x, z))
  {
  }

  /** Each continuous action is clamped to [-1, 1] before it reaches the physics. */
  function ClampAction(v: real): (r: real)
    ensures -1.0 <= r <= 1.0
    ensures -1.0 <= v <= 1.0 ==> r == v
    ensures v > 1.0 ==> r == 1.0
    ensures v < -1.0 ==> r == -1.0
  {
    Clamp(v, -1.0, 1.0)
  }

  /** Distance shaping: positive when the agent got closer to its enemy since the last step. */
  function DistanceShaping(lastEnemyDist: real, d: real): (r: real)
    ensures r > 0.0 <==> d < lastEnemyDist
    ensures r < 0.0 <==> d > lastEnemyDist
  {
    (lastEnemyDist - d) * ShapingWeight
  }

  /** The rewards OnActionReceived adds besides an attack's: step penalty, shaping, bounds. */
  function StepReward(stepPenalty: real, lastEnemyDist: real, enemyDist: Option<real>, outOfBounds: bool): real
  {
    stepPenalty
    + (if enemyDist.Some? then DistanceShaping(lastEnemyDist, enemyDist.value) else 0.0)
    + (if outOfBounds then OutOfBoundsPenalty else 0.0)
  }

  function ShapingOver(lastEnemyDist: real, ds: seq<real>): real
    decreases |ds|
  {
    if ds == [] then 0.0 else DistanceShaping(lastEnemyDist, ds[0]) + ShapingOver(ds[0], ds[1..])
  }

  /**
   * Distance shaping telescopes over consecutive steps: it pays the net
   * approach from the first remembered distance to the last one, whatever the
   * path in between.
   */
  lemma {:induction false} ShapingPaysNetApproach(lastEnemyDist: real, ds: seq<real>)
    requires ds != []
    ensures ShapingOver(lastEnemyDist, ds) == (lastEnemyDist - ds[|ds| - 1]) * ShapingWeight
    decreases |ds|
  {
    if |ds| > 1 {
      ShapingPaysNetApproach(ds[0], ds[1..]);
    }
  }

  // ------------------------------------------------------------- the agent

  class GladiatorAgent {
    const cfg: AgentConfig
    const arenaCenter: Option<Vec3>
    var health: real
    var nextAttackTime: real
    var lastEnemyDist: real
    var nearestEnemy: GladiatorAgent?
    /** transform.position; owned by the physics, written here only at spawn. */
    var position: Vec3
    /** The cumulative reward AddReward accumulates. */
    var reward: real
    /** How many times EndEpisode was called. */
    var episodeEnds: nat

    /** Initialize: full health. */
    constructor (cfg: AgentConfig, arenaCenter: Option<Vec3>, position: Vec3)
      ensures this.cfg == cfg && this.arenaCenter == arenaCenter && this.position == position
      ensures health == cfg.maxHealth && nextAttackTime == 0.0 && nearestEnemy == null
      ensures reward == 0.0 && episodeEnds == 0
    {
      this.cfg := cfg;
      this.arenaCenter := arenaCenter;
      this.position := position;
      health := cfg.maxHealth;
      nextAttackTime := 0.0;
      lastEnemyDist := 0.0;
      nearestEnemy := null;
      reward := 0.0;
      episodeEnds := 0;
    }

    method OnEnable(registry: AgentRegistry)
      requires registry.Valid()
      modifies registry
      ensures registry.Valid() && registry.all == Enabled(old(registry.all), this)
    {
      if this !in registry.all {
        registry.all := registry.all + [this];
      }
    }

    method OnDisable(registry: AgentRegistry)
      requires registry.Valid()
      modifies registry
      ensures registry.Valid() && registry.all == RemoveFirst(old(registry.all), this)
      ensures this !in registry.all
    {
      DisableRemoves(registry.all, this);
      registry.all := RemoveFirst(registry.all, this);
    }

    /** The best-so-far loop over the registry. */
    method FindNearestEnemy(all: seq<GladiatorAgent?>, dist: GladiatorAgent -> real) returns (best: GladiatorAgent?)
      ensures best == NearestEnemy(all, this, dist)
    {
      best := null;
      ghost var bestIndex: Option<nat> := None;
      var bestD := FloatMax;
      var i := 0;
      while i < |all|
        invariant 0 <= i <= |all|
        invariant bestIndex == NearestIndex(all[..i], this, dist)
        invariant bestIndex.Some? ==> bestIndex.value < i && all[bestIndex.value] != null
        invariant best == (if bestIndex.Some? then all[bestIndex.value] else null)
        invariant bestD == (if best != null then dist(best) else FloatMax)
      {
        assert all[..i + 1][..i] == all[..i];
        var a := all[i];
        if a != null && a != this {
          var d := dist(a);
          if d < bestD {
            bestD := d;
            best := a;
            bestIndex := Some(i);
          }
        }
        i := i + 1;
      }
      assert all[..|all|] == all;
    }

    method TakeDamage(dmg: real, attacker: GladiatorAgent?)
      modifies this, attacker
      ensures var s := Damage(cfg, old(health), dmg);
        && health == s.health
        && reward == old(reward) + s.victimReward + (if attacker == this then s.attackerReward else 0.0)
        && episodeEnds == old(episodeEnds) + (if s.victimEnds then 1 else 0)
        && (attacker != null && attacker != this ==>
              attacker.reward == old(attacker.reward) + s.attackerReward)
      ensures nextAttackTime == old(nextAttackTime) && lastEnemyDist == old(lastEnemyDist)
      ensures nearestEnemy == old(nearestEnemy) && position == old(position)
      ensures attacker != null && attacker != this ==>
        unchanged(attacker`health, attacker`nextAttackTime, attacker`lastEnemyDist,
                  attacker`nearestEnemy, attacker`position, attacker`episodeEnds)
    {
      var before := health;
      health := Max(0.0, health - dmg);
      var frac := LostFraction(before, health, cfg.maxHealth);
      if attacker != null {
        attacker.reward := attacker.reward + cfg.dealDamageReward * frac;
      }
      reward := reward + cfg.takeDamagePenalty * frac;
      if health <= 0.0 {
        reward := reward + cfg.losePenalty;
        episodeEnds := episodeEnds + 1;
        if attacker != null {
          attacker.reward := attacker.reward + cfg.winReward;
        }
      }
    }

    method TryAttack(now: real, all: seq<GladiatorAgent?>, dist: GladiatorAgent -> real,
                     facing: GladiatorAgent -> real) returns (victim: GladiatorAgent?)
      modifies this, set a: GladiatorAgent | a in all
      ensures victim == Struck(this, now, old(nextAttackTime), all, dist, facing)
      ensures nextAttackTime == if now < old(nextAttackTime) then old(nextAttackTime) else now + cfg.attackCooldown
      ensures victim == null ==> reward == old(reward)
      ensures victim != null ==> victim != this
      ensures victim != null ==>
        var s := Damage(victim.cfg, old(victim.health), cfg.attackDamage);
        && victim.health == s.health
        && victim.reward == old(victim.reward) + s.victimReward
        && victim.episodeEnds == old(victim.episodeEnds) + (if s.victimEnds then 1 else 0)
        && reward == old(reward) + s.attackerReward
      ensures victim != null ==> unchanged(victim`nextAttackTime, victim`lastEnemyDist, victim`nearestEnemy, victim`position)
      ensures health == old(health) && episodeEnds == old(episodeEnds)
      ensures lastEnemyDist == old(lastEnemyDist) && nearestEnemy == old(nearestEnemy) && position == old(position)
      ensures forall a: GladiatorAgent | a in all && a != this && a != victim :: unchanged(a)
    {
      StruckIsNearestInReach(this, now, nextAttackTime, all, dist, facing);
      victim := null;
      if now < nextAttackTime { return; }
      nextAttackTime := now + cfg.attackCooldown;

      var enemy := FindNearestEnemy(all, dist);
      if enemy == null { return; }
      if dist(enemy) > cfg.attackRange { return; }
      if facing(enemy) < MinFacing { return; }

      enemy.TakeDamage(cfg.attackDamage, this);
      victim := enemy;
    }

    /** OnEpisodeBegin: full health, attack ready, respawn, and remember the distance to the nearest enemy. */
    method OnEpisodeBegin(spawnX: real, spawnZ: real, all: seq<GladiatorAgent?>, dist: GladiatorAgent -> real)
      modifies this
      ensures health == cfg.maxHealth && nextAttackTime == 0.0
      ensures position == SpawnPosition(arenaCenter, spawnX, spawnZ)
      ensures nearestEnemy == NearestEnemy(all, this, dist)
      ensures lastEnemyDist == if nearestEnemy != null then dist(nearestEnemy) else 0.0
      ensures reward == old(reward) && episodeEnds == old(episodeEnds)
      ensures (-cfg.arenaHalfExtents.x <= spawnX <= cfg.arenaHalfExtents.x
               && -cfg.arenaHalfExtents.z <= spawnZ <= cfg.arenaHalfExtents.z) ==>
        !IsOutOfBounds(arenaCenter, cfg.arenaHalfExtents, position)
    {
      health := cfg.maxHealth;
      nextAttackTime := 0.0;
      position := SpawnPosition(arenaCenter, spawnX, spawnZ);
      nearestEnemy := FindNearestEnemy(all, dist);
      lastEnemyDist := if nearestEnemy != null then dist(nearestEnemy) else 0.0;
      if -cfg.arenaHalfExtents.x <= spawnX <= cfg.arenaHalfExtents.x
         && -cfg.arenaHalfExtents.z <= spawnZ <= cfg.arenaHalfExtents.z {
        SpawnIsInBounds(arenaCenter, cfg.arenaHalfExtents, spawnX, spawnZ);
      }
    }

    /** CollectObservations: refreshes `nearestEnemy` and lays out the seven values. */
    method CollectObservations(vLocal: Vec3, all: seq<GladiatorAgent?>, dist: GladiatorAgent -> real,
                               localDir: GladiatorAgent -> Vec3) returns (obs: seq<real>)
      modifies this`nearestEnemy
      ensures nearestEnemy == NearestEnemy(all, this, dist)
      ensures obs == Observation(health, cfg.maxHealth, vLocal,
        if nearestEnemy == null then None
        else Some(EnemyView(localDir(nearestEnemy), dist(nearestEnemy), nearestEnemy.health, nearestEnemy.cfg.maxHealth)))
      ensures |obs| == 7
    {
      nearestEnemy := FindNearestEnemy(all, dist);
      var own := [health / cfg.maxHealth, vLocal.x, vLocal.z];
      if nearestEnemy != null {
        var e := nearestEnemy;
        obs := own + [localDir(e).x, localDir(e).z, Clamp01(dist(e) / ObservedRange), e.health / e.cfg.maxHealth];
      } else {
        obs := own + [0.0, 0.0, 1.0, 1.0];
      }
    }

    /**
     * OnActionReceived: step penalty, clamped movement handed to the physics,
     * an attack on discrete action 1, distance shaping against the enemy
     * remembered by the last observation, and the out-of-bounds penalty.
     */
    method OnActionReceived(continuous: seq<real>, attack: int, now: real, all: seq<GladiatorAgent?>,
                            dist: GladiatorAgent -> real, facing: GladiatorAgent -> real)
      returns (moveX: real, moveZ: real, turn: real, victim: GladiatorAgent?)
      requires |continuous| >= 3
      modifies this, set a: GladiatorAgent | a in all
      ensures moveX == ClampAction(continuous[0]) && moveZ == ClampAction(continuous[1])
      ensures turn == ClampAction(continuous[2])
      ensures victim == if attack == 1 then Struck(this, now, old(nextAttackTime), all, dist, facing) else null
      ensures nextAttackTime ==
        if attack != 1 || now < old(nextAttackTime) then old(nextAttackTime) else now + cfg.attackCooldown
      ensures nearestEnemy == old(nearestEnemy)
      ensures lastEnemyDist == if nearestEnemy != null then dist(nearestEnemy) else old(lastEnemyDist)
      ensures reward == old(reward)
        + StepReward(cfg.stepPenalty, old(lastEnemyDist),
                     if nearestEnemy != null then Some(dist(nearestEnemy)) else None,
                     IsOutOfBounds(arenaCenter, cfg.arenaHalfExtents, position))
        + (if victim != null then Damage(victim.cfg, old(victim.health), cfg.attackDamage).attackerReward else 0.0)
      ensures victim != null ==> victim != this
      ensures victim != null ==>
        var v := Damage(victim.cfg, old(victim.health), cfg.attackDamage);
        && victim.health == v.health
        && victim.reward == old(victim.reward) + v.victimReward
        && victim.episodeEnds == old(victim.episodeEnds) + (if v.victimEnds then 1 else 0)
      ensures victim != null ==> unchanged(victim`nextAttackTime, victim`lastEnemyDist, victim`nearestEnemy, victim`position)
      ensures health == old(health) && episodeEnds == old(episodeEnds) && position == old(position)
      ensures forall a: GladiatorAgent | a in all && a != this && a != victim :: unchanged(a)
    {
      reward := reward + cfg.stepPenalty;
      moveX := ClampAction(continuous[0]);
      moveZ := ClampAction(continuous[1]);
      turn := ClampAction(continuous[2]);

      victim := null;
      ghost var gain := 0.0;
      if attack == 1 {
        victim := TryAttack(now, all, dist, facing);
        gain := if victim != null then Damage(victim.cfg, old(victim.health), cfg.attackDamage).attackerReward else 0.0;
      }

      if nearestEnemy != null {
        var d := dist(nearestEnemy);
        reward := reward + DistanceShaping(lastEnemyDist, d);
        lastEnemyDist := d;
      }

      if IsOutOfBounds(arenaCenter, cfg.arenaHalfExtents, position) {
        reward := reward + OutOfBoundsPenalty;
      }
    }
  }
}
