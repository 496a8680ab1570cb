/**
 * StrategistAI: a utility-based decision maker. Every `decisionInterval`
 * seconds it decides what to do: below a health threshold it heals, hides or
 * flees whatever it was doing; otherwise it keeps a committed action until its
 * lock expires, scores Heal, Ammo and Hide, and switches only to a different
 * action that beats the current one by a margin.
 *
 * Tagged scene objects (health packs, ammo crates, cover) arrive as lists of
 * positions with their distance to the strategist; the threat, when present,
 * as its distance and the point 8 units directly away from it. The random
 * score noise and the time are inputs. NavMeshAgent.SetDestination is
 * recorded as a log of requested destinations.
 */
module Strategist {
  import opened Wrappers
  import opened UnityMath

  datatype ActionType = Heal | Ammo | Hide | Flee

  datatype Config = Config(
    maxHealth: real,
    maxAmmo: int,
    decisionInterval: real,
    lowHealthThreshold: real,
    actionCommitTime: real,
    switchMargin: real,
    scoreNoise: real)

  /** Health and ammo needs divide by the maxima, so they are positive. */
  type StrategistConfig = c: Config | c.maxHealth > 0.0 && c.maxAmmo > 0
    witness Config(100.0, 30, 0.5, 0.25, 2.0, 0.15, 0.03)

  /** A tagged scene object: where it is and how far it is from the strategist. */
  datatype Placed = Placed(position: Vec3, distance: real)

  /** The threat: its distance, and the flee point 8 units directly away from it. */
  datatype Threat = Threat(distance: real, fleeTarget: Vec3)

  datatype Scene = Scene(healthPacks: seq<Placed>, ammoCrates: seq<Placed>, covers: seq<Placed>, threat: Option<Threat>)

  /** The three Random.Range(0, scoreNoise) draws of one decision. */
  datatype Noise = Noise(forHeal: real, forAmmo: real, forHide: real)

  /** float.MaxValue, the initial best distance of FindNearestWithTag. */
  const FloatMax: real := 340282346638528859811704183484516925440.0

  /** Distances in the scores are normalised by 20 units. */
  const ScoreRange: real := 20.0

  // ------------------------------------------------------- nearest with tag

  /** Reference definition: the best of the prefix, replaced on a strictly smaller distance. */
  function NearestIndex(objs: seq<Placed>): Option<nat>
    decreases |objs|
  {
    if objs == [] then None
    else
      var best := NearestIndex(objs[..|objs| - 1]);
      var bestD := if best.Some? && best.value < |objs| - 1 then objs[best.value].distance else FloatMax;
      if objs[|objs| - 1].distance < bestD then Some(|objs| - 1) else best
  }

  function NearestWithTag(objs: seq<Placed>): Option<Placed>
  {
    var k := NearestIndex(objs);
    if k.Some? && k.value < |objs| then Some(objs[k.value]) else None
  }

  /**
   * FindNearestWithTag returns the first object of minimal distance, and
   * nothing exactly when every object is at least float.MaxValue away (in
   * particular when there is none).
   */
  lemma {:induction false} NearestIsFirstMinimum(objs: seq<Placed>)
    ensures var k := NearestIndex(objs);
      && (k.None? <==> forall j | 0 <= j < |objs| :: objs[j].distance >= FloatMax)
      && (k.Some? ==>
        && k.value < |objs|
        && objs[k.value].distance < FloatMax
        && (forall j | 0 <= j < k.value :: objs[j].distance > objs[k.value].distance)
        && (forall j | k.value < j < |objs| :: objs[j].distance >= objs[k.value].distance))
    decreases |objs|
  {
    if objs != [] {
      var pre := objs[..|objs| - 1];
      NearestIsFirstMinimum(pre);
      forall j | 0 <= j < |pre| ensures pre[j] == objs[j] {}
    }
  }

  // ---------------------------------------------------------------- scores

  /** Danger01: 1 at the threat, falling linearly to 0 at `maxDist`; 0 without a threat. */
  function Danger01(threat: Option<Threat>, maxDist: real): (r: real)
    requires maxDist > 0.0
    ensures 0.0 <= r <= 1.0
    ensures threat.None? ==> r == 0.0
    ensures threat.Some? && threat.value.distance >= maxDist ==> r == 0.0
    ensures threat.Some? && threat.value.distance <= 0.0 ==> r == 1.0
  {
    if threat.None? then 0.0 else Clamp01(1.0 - threat.value.distance / maxDist)
  }

  function DistanceFactor(distance: real): real
  {
    Clamp01(1.0 - distance / ScoreRange)
  }

  function ScoreHeal(cfg: StrategistConfig, health: real, scene: Scene): real
  {
    match NearestWithTag(scene.healthPacks)
    case None => 0.0
    case Some(pack) =>
      var hpNeed := 1.0 - health / cfg.maxHealth;
      var dangerPenalty := Lerp(1.0, 0.6, Danger01(scene.threat, 10.0));
      WeightedNeed(hpNeed, 0.8, DistanceFactor(pack.distance), dangerPenalty)
  }

  function ScoreAmmo(cfg: StrategistConfig, ammo: int, scene: Scene): real
  {
    match NearestWithTag(scene.ammoCrates)
    case None => 0.0
    case Some(crate) =>
      var ammoNeed := 1.0 - (ammo as real) / (cfg.maxAmmo as real);
      var dangerPenalty := Lerp(1.0, 0.2, Danger01(scene.threat, 10.0));
      WeightedNeed(ammoNeed, 0.7, DistanceFactor(crate.distance), dangerPenalty)
  }

  /** A stock within its maximum leaves a need `1 - stock / max` in [0, 1]. */
  lemma NeedInUnit(stock: real, max: real)
    requires max > 0.0
    ensures 0.0 <= stock <= max ==> 0.0 <= 1.0 - stock / max <= 1.0
  {
    if 0.0 <= stock <= max {
      assert stock / max * max == stock;
    }
  }

  /** The shape both scores share: `(need * w + distFactor * (1 - w)) * penalty`. */
  function WeightedNeed(need: real, w: real, distFactor: real, penalty: real): real
  {
    (w * need + (1.0 - w) * distFactor) * penalty
  }

  /** A need in [0, 1], mixed with a distance factor and scaled by a penalty, stays in [0, 1]. */
  lemma WeightedNeedInUnit(need: real, w: real, distFactor: real, penalty: real)
    requires 0.0 <= w <= 1.0 && 0.0 <= distFactor <= 1.0 && 0.0 <= penalty <= 1.0
    requires 0.0 <= need <= 1.0
    ensures 0.0 <= WeightedNeed(need, w, distFactor, penalty) <= 1.0
  {
    ScaleWithinUnit(w, need);
    ScaleWithinUnit(1.0 - w, distFactor);
    SumWithin(w * need, (1.0 - w) * distFactor, w, 1.0 - w);
    ScaleWithinUnit(w * need + (1.0 - w) * distFactor, penalty);
  }

  /** Two bounded non-negative terms add up within the sum of their bounds. */
  lemma SumWithin(a: real, b: real, x: real, y: real)
    requires 0.0 <= a <= x && 0.0 <= b <= y
    ensures 0.0 <= a + b <= x + y
  {
  }

  /** ScoreHide: never below 0.25, and the danger within 15 units above that. */
  function ScoreHide(scene: Scene): (r: real)
    ensures 0.25 <= r <= 1.0
    ensures scene.threat.None? ==> r == 0.25
    ensures r >= Danger01(scene.threat, 15.0)
  {
    Max(0.25, Danger01(scene.threat, 15.0))
  }

  /** ScoreFor: the noiseless score of an action; Flee scores 0. */
  function ScoreFor(cfg: StrategistConfig, health: real, ammo: int, scene: Scene, a: ActionType): real
  {
    match a
    case Heal => ScoreHeal(cfg, health, scene)
    case Ammo => ScoreAmmo(cfg, ammo, scene)
    case Hide => ScoreHide(scene)
    case Flee => 0.0
  }

  /** Without a health pack (or an ammo crate) the matching score is 0. */
  lemma ScoresNeedTheirObject(cfg: StrategistConfig, health: real, ammo: int, scene: Scene)
    ensures NearestWithTag(scene.healthPacks).None? ==> ScoreHeal(cfg, health, scene) == 0.0
    ensures NearestWithTag(scene.ammoCrates).None? ==> ScoreAmmo(cfg, ammo, scene) == 0.0
    ensures ScoreFor(cfg, health, ammo, scene, Flee) == 0.0
    ensures ScoreFor(cfg, health, ammo, scene, Hide) >= 0.25
  {
  }

  /**
   * The heal and ammo scores lie in [0, 1] while health and ammo lie within
   * their maxima, whatever the distances and the threat.
   */
  lemma ScoresInUnit(cfg: StrategistConfig, health: real, ammo: int, scene: Scene)
    requires 0.0 <= health <= cfg.maxHealth && 0 <= ammo <= cfg.maxAmmo
    ensures 0.0 <= ScoreHeal(cfg, health, scene) <= 1.0
    ensures 0.0 <= ScoreAmmo(cfg, ammo, scene) <= 1.0
  {
    var danger := Danger01(scene.threat, 10.0);
    match NearestWithTag(scene.healthPacks) {
      case None =>
      case Some(pack) =>
        NeedInUnit(health, cfg.maxHealth);
        WeightedNeedInUnit(1.0 - health / cfg.maxHealth, 0.8, DistanceFactor(pack.distance), Lerp(1.0, 0.6, danger));
    }
    match NearestWithTag(scene.ammoCrates) {
      case None =>
      case Some(crate) =>
        NeedInUnit(ammo as real, cfg.maxAmmo as real);
        WeightedNeedInUnit(1.0 - (ammo as real) / (cfg.maxAmmo as real), 0.7, DistanceFactor(crate.distance),
                           Lerp(1.0, 0.2, danger));
    }
  }

  // ----------------------------------------------------------------- argmax

  datatype Choice = Choice(best: ActionType, score: real)

  /**
   * Step 4 of Decide: start from Hide, let Heal replace it only when strictly
   * better, then Ammo only when strictly better than the best so far.
   */
  function BestAction(healScore: real, ammoScore: real, hideScore: real): (c: Choice)
    ensures c.best != Flee
    ensures c.score >= healScore && c.score >= ammoScore && c.score >= hideScore
    ensures c.best == Hide <==> healScore <= hideScore && ammoScore <= hideScore
    ensures c.best == Heal <==> hideScore < healScore && ammoScore <= healScore
    ensures c.best == Ammo <==> ammoScore > hideScore && ammoScore > healScore
    ensures c.score == (if c.best == Heal then healScore else if c.best == Ammo then ammoScore else hideScore)
  {
    var first := if healScore > hideScore then Choice(Heal, healScore) else Choice(Hide, hideScore);
    if ammoScore > first.score then Choice(Ammo, ammoScore) else first
  }

  // ------------------------------------------------------------ the decision

  /** The state Decide changes: the action, its lock and the destination bookkeeping. */
  datatype Mind = Mind(
    currentAction: ActionType,
    actionLockUntil: real,
    lastDest: Vec3,
    hasDest: bool,
    requested: seq<Vec3>)

  /**
   * SetDestinationSafe: a destination is requested only when none was set or it
   * lies more than 0.5 from the last one. Vector3.Distance(p, q) > 0.5 is
   * DistSq(p, q) > 0.25 since distances are non-negative.
   */
  function SafeDestination(m: Mind, dest: Vec3): (r: Mind)
    ensures r.currentAction == m.currentAction && r.actionLockUntil == m.actionLockUntil
    ensures !m.hasDest || DistSq(m.lastDest, dest) > 0.25 ==>
      r.requested == m.requested + [dest] && r.lastDest == dest && r.hasDest
    ensures m.hasDest && DistSq(m.lastDest, dest) <= 0.25 ==> r == m
  {
    if !m.hasDest || DistSq(m.lastDest, dest) > 0.25 then
      m.(lastDest := dest, hasDest := true, requested := m.requested + [dest])
    else m
  }

  /** SetNewAction: the action, and with `lockAction` a lock until `now + actionCommitTime`. */
  function NewAction(cfg: StrategistConfig, m: Mind, a: ActionType, lockAction: bool, now: real): (r: Mind)
    ensures r.currentAction == a
    ensures r.actionLockUntil == (if lockAction then now + cfg.actionCommitTime else m.actionLockUntil)
    ensures r.requested == m.requested && r.hasDest == m.hasDest && r.lastDest == m.lastDest
  {
    m.(currentAction := a, actionLockUntil := if lockAction then now + cfg.actionCommitTime else m.actionLockUntil)
  }

  /** TryHeal, TryGetAmmo and TryHide: head for the nearest object of the tag, if there is one. */
  function GoToNearest(m: Mind, objs: seq<Placed>): (bool, Mind)
  {
    match NearestWithTag(objs)
    case None => (false, m)
    case Some(o) => (true, SafeDestination(m, o.position))
  }

  /** FleeFromThreat */
  function FleeFrom(m: Mind, threat: Option<Threat>): Mind
  {
    if threat.None? then m else SafeDestination(m, threat.value.fleeTarget)
  }

  predicate LowHealth(cfg: StrategistConfig, health: real)
  {
    health / cfg.maxHealth <= cfg.lowHealthThreshold
  }

  /** The survival override: heal, else hide, else flee, always locking. */
  function Survive(cfg: StrategistConfig, scene: Scene, now: real, m: Mind): Mind
  {
    var (healed, m1) := GoToNearest(m, scene.healthPacks);
    if healed then NewAction(cfg, m1, Heal, true, now)
    else
      var (hidden, m2) := GoToNearest(m1, scene.covers);
      if hidden then NewAction(cfg, m2, Hide, true, now)
      else NewAction(cfg, FleeFrom(m2, scene.threat), Flee, true, now)
  }

  /** The noisy utility choice of one decision. */
  function UtilityChoice(cfg: StrategistConfig, health: real, ammo: int, scene: Scene, noise: Noise): Choice
  {
    BestAction(
      ScoreHeal(cfg, health, scene) + noise.forHeal,
      ScoreAmmo(cfg, ammo, scene) + noise.forAmmo,
      ScoreHide(scene) + noise.forHide)
  }

  /** Whether the utility path switches action: a different best that beats the current score by the margin. */
  predicate Switches(cfg: StrategistConfig, health: real, ammo: int, scene: Scene, noise: Noise, current: ActionType)
  {
    var c := UtilityChoice(cfg, health, ammo, scene, noise);
    c.best != current && c.score > ScoreFor(cfg, health, ammo, scene, current) + cfg.switchMargin
  }

  /** Decide */
  function Decision(cfg: StrategistConfig, health: real, ammo: int, scene: Scene, noise: Noise, now: real, m: Mind): Mind
  {
    if LowHealth(cfg, health) then Survive(cfg, scene, now, m)
    else if now < m.actionLockUntil then m
    else if !Switches(cfg, health, ammo, scene, noise, m.currentAction) then m
    else
      var best := UtilityChoice(cfg, health, ammo, scene, noise).best;
      var objs := if best == Heal then scene.healthPacks else if best == Ammo then scene.ammoCrates else scene.covers;
      NewAction(cfg, GoToNearest(m, objs).1, best, true, now)
  }

  /**
   * The survival override ignores the lock: below the threshold the action is
   * Heal when a health pack is found, else Hide when cover is found, else Flee,
   * and the lock is renewed in every case.
   */
  lemma LowHealthOverrides(cfg: StrategistConfig, health: real, ammo: int, scene: Scene, noise: Noise, now: real, m: Mind)
    requires LowHealth(cfg, health)
    ensures var r := Decision(cfg, health, ammo, scene, noise, now, m);
      && r.currentAction == (if NearestWithTag(scene.healthPacks).Some? then Heal
                             else if NearestWithTag(scene.covers).Some? then Hide else Flee)
      && r.actionLockUntil == now + cfg.actionCommitTime
  {
  }

  /** Above the threshold, a decision inside the lock changes nothing. */
  lemma LockHolds(cfg: StrategistConfig, health: real, ammo: int, scene: Scene, noise: Noise, now: real, m: Mind)
    requires !LowHealth(cfg, health) && now < m.actionLockUntil
    ensures Decision(cfg, health, ammo, scene, noise, now, m) == m
  {
  }

  /**
   * Above the threshold and outside the lock, the action changes exactly when a
   * different action beats the current one by more than the margin; it is then
   * never Flee and the lock is renewed, and otherwise nothing changes at all.
   */
  lemma SwitchNeedsMargin(cfg: StrategistConfig, health: real, ammo: int, scene: Scene, noise: Noise, now: real, m: Mind)
    requires !LowHealth(cfg, health) && now >= m.actionLockUntil
    ensures var r := Decision(cfg, health, ammo, scene, noise, now, m);
      var c := UtilityChoice(cfg, health, ammo, scene, noise);
      && (r.currentAction != m.currentAction <==> Switches(cfg, health, ammo, scene, noise, m.currentAction))
      && (Switches(cfg, health, ammo, scene, noise, m.currentAction) ==>
            r.currentAction == c.best && r.currentAction != Flee
            && r.actionLockUntil == now + cfg.actionCommitTime
            && c.score > ScoreFor(cfg, health, ammo, scene, m.currentAction) + cfg.switchMargin)
      && (!Switches(cfg, health, ammo, scene, noise, m.currentAction) ==> r == m)
  {
  }

  /** Flee is only ever chosen by the survival override. */
  lemma FleeOnlyWhenLow(cfg: StrategistConfig, health: real, ammo: int, scene: Scene, noise: Noise, now: real, m: Mind)
    requires Decision(cfg, health, ammo, scene, noise, now, m).currentAction == Flee
    ensures LowHealth(cfg, health) || m.currentAction == Flee
  {
  }

  /** A decision requests at most one destination. */
  lemma OneDestinationPerDecision(cfg: StrategistConfig, health: real, ammo: int, scene: Scene, noise: Noise, now: real, m: Mind)
    ensures var r := Decision(cfg, health, ammo, scene, noise, now, m);
      |m.requested| <= |r.requested| <= |m.requested| + 1 && r.requested[..|m.requested|] == m.requested
  {
  }

  /** Update: decide when `now` has reached `nextDecisionTime`, and schedule the next decision. */
  datatype Schedule = Schedule(nextDecisionTime: real, mind: Mind)

  function Throttled(cfg: StrategistConfig, health: real, ammo: int, scene: Scene, noise: Noise, now: real, s: Schedule): Schedule
  {
    if now < s.nextDecisionTime then s
    else Schedule(now + cfg.decisionInterval, Decision(cfg, health, ammo, scene, noise, now, s.mind))
  }

  /** After a decision at `now`, every update before `now + decisionInterval` is a no-op. */
  lemma DecidesOncePerInterval(cfg: StrategistConfig, health: real, ammo: int, scene: Scene, noise: Noise, now: real, s: Schedule,
                               health2: real, ammo2: int, scene2: Scene, noise2: Noise, later: real)
    requires now >= s.nextDecisionTime
    requires later < now + cfg.decisionInterval
    ensures var r := Throttled(cfg, health, ammo, scene, noise, now, s);
      && r.nextDecisionTime == now + cfg.decisionInterval
      && Throttled(cfg, health2, ammo2, scene2, noise2, later, r) == r
  {
  }

  // -------------------------------------------------------------- resources

  /** AddHealth: clamped to [0, maxHealth]. */
  function HealthAfterAdd(cfg: StrategistConfig, health: real, amount: real): (r: real)
    ensures 0.0 <= r <= cfg.maxHealth
    ensures 0.0 <= health + amount <= cfg.maxHealth ==> r == health + amount
    ensures amount >= 0.0 && health <= cfg.maxHealth ==> r >= health
    ensures amount <= 0.0 && health >= 0.0 ==> r <= health
  {
    Clamp(health + amount, 0.0, cfg.maxHealth)
  }

  /** AddAmmo as written: C#'s `ammo + amount` wraps around before Mathf.Clamp sees it. */
  function AmmoAfterAddAsWritten(cfg: StrategistConfig, ammo: int, amount: int): int
  {
    ClampInt(Wrap32(ammo + amount), 0, cfg.maxAmmo)
  }

  /** AddAmmo as intended: the exact sum, clamped to [0, maxAmmo]. */
  function AmmoAfterAdd(cfg: StrategistConfig, ammo: int, amount: int): (r: int)
    ensures 0 <= r <= cfg.maxAmmo
    ensures 0 <= ammo + amount <= cfg.maxAmmo ==> r == ammo + amount
    ensures amount >= 0 && ammo <= cfg.maxAmmo ==> r >= ammo
    ensures amount <= 0 && ammo >= 0 ==> r <= ammo
  {
    ClampInt(ammo + amount, 0, cfg.maxAmmo)
  }

  /** The default inspector values of the component. */
  const DefaultConfig: StrategistConfig := Config(100.0, 30, 0.5, 0.25, 2.0, 0.15, 0.03)

  /**
   * With the default maximum of 30, picking up int.MaxValue rounds with 10 in
   * the magazine wraps to a negative sum and empties it instead of filling it.
   */
  lemma AddAmmoOverflowEmpties()
    ensures AmmoAfterAddAsWritten(DefaultConfig, 10, Int32Max) == 0
    ensures AmmoAfterAdd(DefaultConfig, 10, Int32Max) == 30
  {
  }

  /** The two agree whenever the C# sum does not overflow. */
  lemma AddAmmoAgreesWithoutOverflow(cfg: StrategistConfig, ammo: int, amount: int)
    requires IsInt32(ammo + amount)
    ensures AmmoAfterAddAsWritten(cfg, ammo, amount) == AmmoAfterAdd(cfg, ammo, amount)
  {
  }

  // ---------------------------------------------------------- the component

  class StrategistAI {
    const cfg: StrategistConfig
    var health: real
    var ammo: int
    var currentAction: ActionType
    var nextDecisionTime: real
    var actionLockUntil: real
    var lastDest: Vec3
    var hasDest: bool
    /** Every NavMeshAgent.SetDestination request, oldest first. */
    var requested: seq<Vec3>

    function MindView(): Mind
      reads this
    {
      Mind(currentAction, actionLockUntil, lastDest, hasDest, requested)
    }

    constructor (cfg: StrategistConfig, health: real, ammo: int)
      ensures this.cfg == cfg && this.health == health && this.ammo == ammo
      ensures MindView() == Mind(Hide, 0.0, Zero, false, []) && nextDecisionTime == 0.0
    {
      this.cfg := cfg;
      this.health := health;
      this.ammo := ammo;
      currentAction := Hide;
      nextDecisionTime := 0.0;
      actionLockUntil := 0.0;
      lastDest := Zero;
      hasDest := false;
      requested := [];
    }

    method Update(now: real, scene: Scene, noise: Noise)
      modifies this
      ensures Schedule(nextDecisionTime, MindView()) ==
        Throttled(cfg, health, ammo, scene, noise, now, Schedule(old(nextDecisionTime), old(MindView())))
      ensures health == old(health) && ammo == old(ammo)
    {
      if now < nextDecisionTime { return; }
      nextDecisionTime := now + cfg.decisionInterval;
      Decide(now, scene, noise);
    }

    method Decide(now: real, scene: Scene, noise: Noise)
      modifies this
      ensures MindView() == Decision(cfg, health, ammo, scene, noise, now, old(MindView()))
      ensures health == old(health) && ammo == old(ammo) && nextDecisionTime == old(nextDecisionTime)
    {
      if health / cfg.maxHealth <= cfg.lowHealthThreshold {
        var healed := TryHeal(scene);
        if healed {
          SetNewAction(Heal, true, now);
        } else {
          var hidden := TryHide(scene);
          if hidden {
            SetNewAction(Hide, true, now);
          } else {
            FleeFromThreat(scene);
            SetNewAction(Flee, true, now);
          }
        }
        return;
      }

      if now < actionLockUntil { return; }

      var healScore := ScoreHeal(cfg, health, scene) + noise.forHeal;
      var ammoScore := ScoreAmmo(cfg, ammo, scene) + noise.forAmmo;
      var hideScore := ScoreHide(scene) + noise.forHide;

      var best := Hide;
      var bestScore := hideScore;
      if healScore > bestScore { best := Heal; bestScore := healScore; }
      if ammoScore > bestScore { best := Ammo; bestScore := ammoScore; }

      var currentScore := ScoreFor(cfg, health, ammo, scene, currentAction);
      if best == currentAction || bestScore <= currentScore + cfg.switchMargin {
        return;
      }

      var headed: bool;
      if best == Heal {
        headed := TryHeal(scene);
      } else if best == Ammo {
        headed := TryGetAmmo(scene);
      } else {
        headed := TryHide(scene);
      }
      SetNewAction(best, true, now);
    }

    method SetNewAction(a: ActionType, lockAction: bool, now: real)
      modifies this
      ensures MindView() == NewAction(cfg, old(MindView()), a, lockAction, now)
      ensures health == old(health) && ammo == old(ammo) && nextDecisionTime == old(nextDecisionTime)
    {
      currentAction := a;
      if lockAction {
        actionLockUntil := now + cfg.actionCommitTime;
      }
    }

    method TryHeal(scene: Scene) returns (found: bool)
      modifies this
      ensures (found, MindView()) == GoToNearest(old(MindView()), scene.healthPacks)
      ensures health == old(health) && ammo == old(ammo) && nextDecisionTime == old(nextDecisionTime)
    {
      found := GoTo(scene.healthPacks);
    }

    method TryGetAmmo(scene: Scene) returns (found: bool)
      modifies this
      ensures (found, MindView()) == GoToNearest(old(MindView()), scene.ammoCrates)
      ensures health == old(health) && ammo == old(ammo) && nextDecisionTime == old(nextDecisionTime)
    {
      found := GoTo(scene.ammoCrates);
    }

    method TryHide(scene: Scene) returns (found: bool)
      modifies this
      ensures (found, MindView()) == GoToNearest(old(MindView()), scene.covers)
      ensures health == old(health) && ammo == old(ammo) && nextDecisionTime == old(nextDecisionTime)
    {
      found := GoTo(scene.covers);
    }

    /** The common body of TryHeal, TryGetAmmo and TryHide. */
    method GoTo(objs: seq<Placed>) returns (found: bool)
      modifies this
      ensures (found, MindView()) == GoToNearest(old(MindView()), objs)
      ensures health == old(health) && ammo == old(ammo) && nextDecisionTime == old(nextDecisionTime)
    {
      var o := FindNearestWithTag(objs);
      if o.None? { return false; }
      SetDestinationSafe(o.value.position);
      found := true;
    }

    method FleeFromThreat(scene: Scene)
      modifies this
      ensures MindView() == FleeFrom(old(MindView()), scene.threat)
      ensures health == old(health) && ammo == old(ammo) && nextDecisionTime == old(nextDecisionTime)
    {
      if scene.threat.None? { return; }
      SetDestinationSafe(scene.threat.value.fleeTarget);
    }

    method SetDestinationSafe(dest: Vec3)
      modifies this
      ensures MindView() == SafeDestination(old(MindView()), dest)
      ensures health == old(health) && ammo == old(ammo) && nextDecisionTime == old(nextDecisionTime)
    {
      if !hasDest || DistSq(lastDest, dest) > 0.25 {
        requested := requested + [dest];
        lastDest := dest;
        hasDest := true;
      }
    }

    /** The best-so-far loop over the tagged objects. */
    method FindNearestWithTag(objs: seq<Placed>) returns (best: Option<Placed>)
      ensures best == NearestWithTag(objs)
    {
      if |objs| == 0 { return None; }
      best := None;
      ghost var bestIndex: Option<nat> := None;
      var bestDist := FloatMax;
      for i := 0 to |objs|
        invariant bestIndex == NearestIndex(objs[..i])
        invariant bestIndex.Some? ==> bestIndex.value < i
        invariant best == (if bestIndex.Some? then Some(objs[bestIndex.value]) else None)
        invariant bestDist == (if best.Some? then best.value.distance else FloatMax)
      {
        assert objs[..i + 1][..i] == objs[..i];
        var d := objs[i].distance;
        if d < bestDist {
          bestDist := d;
          best := Some(objs[i]);
          bestIndex := Some(i);
        }
      }
      assert objs[..|objs|] == objs;
    }

    method AddHealth(amount: real)
      modifies this`health
      ensures health == HealthAfterAdd(cfg, old(health), amount)
    {
      health := Clamp(health + amount, 0.0, cfg.maxHealth);
    }

    method AddAmmo(amount: int)
      modifies this`ammo
      ensures ammo == AmmoAfterAdd(cfg, old(ammo), amount)
    {
      ammo := ClampInt(ammo + amount, 0, cfg.maxAmmo);
    }
  }
}
