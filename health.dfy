/**
 * GladiatorHealth: an integer hit-point pool. Each TakeHit removes exactly one
 * point, with no floor and no refusal once the pool is empty, and notifies the
 * two parties in a fixed order: the victim's agent that it got hit, the
 * attacker that it hit an enemy, and, when the pool is at or below zero, the
 * victim's agent that it lost and the attacker that it won. A party that is
 * null is skipped. The notifications are recorded as a log.
 */
module Health {
  import opened Wrappers

  /** Identity of an agent (GladiatorAgentV2) that receives notifications. */
  type AgentId = nat

  /** The callbacks TakeHit makes, each naming the agent that receives it. */
  datatype Notice =
    | GotHit(agent: AgentId)
    | HitEnemy(agent: AgentId)
    | Lose(agent: AgentId)
    | Win(agent: AgentId)

  /** The inspector default of `maxHP`. */
  const DefaultMaxHP: int := 5

  /** The position of a notice kind in the order TakeHit issues them. */
  function Rank(n: Notice): nat
  {
    match n
    case GotHit(_) => 0
    case HitEnemy(_) => 1
    case Lose(_) => 2
    case Win(_) => 3
  }

  predicate IsTerminal(n: Notice) { n.Lose? || n.Win? }

  /** The notices one TakeHit issues, given the hit points left after the decrement. */
  function HitNotices(myAgent: Option<AgentId>, attacker: Option<AgentId>, hpAfter: int): seq<Notice>
  {
    (if myAgent.Some? then [GotHit(myAgent.value)] else [])
    + (if attacker.Some? then [HitEnemy(attacker.value)] else [])
    + (if hpAfter <= 0 && myAgent.Some? then [Lose(myAgent.value)] else [])
    + (if hpAfter <= 0 && attacker.Some? then [Win(attacker.value)] else [])
  }

  /**
   * One hit notifies each non-null party once per kind, in the order got-hit,
   * hit-enemy, lose, win; lose and win are sent exactly when the pool is at or
   * below zero after the decrement.
   */
  lemma HitNoticesOrdered(myAgent: Option<AgentId>, attacker: Option<AgentId>, hpAfter: int)
    ensures var r := HitNotices(myAgent, attacker, hpAfter);
      && (forall i, j | 0 <= i < j < |r| :: Rank(r[i]) < Rank(r[j]))
      && (forall a: AgentId :: GotHit(a) in r <==> myAgent == Some(a))
      && (forall a: AgentId :: HitEnemy(a) in r <==> attacker == Some(a))
      && (forall a: AgentId :: Lose(a) in r <==> hpAfter <= 0 && myAgent == Some(a))
      && (forall a: AgentId :: Win(a) in r <==> hpAfter <= 0 && attacker == Some(a))
  {
  }

  /** HPNormalized: `hp / maxHP` as a float, or 0 when `maxHP` is not positive. */
  function HPNormalized(hp: int, maxHP: int): (r: real)
    ensures maxHP > 0 ==> r * (maxHP as real) == hp as real
    ensures maxHP <= 0 ==> r == 0.0
    ensures maxHP > 0 && 0 <= hp <= maxHP ==> 0.0 <= r <= 1.0
    ensures maxHP > 0 && hp == maxHP ==> r == 1.0
  {
    if maxHP > 0 then (hp as real) / (maxHP as real) else 0.0
  }

  /** The hit points and the notices of a series of hits, one attacker per hit. */
  datatype Tally = Tally(hp: int, notices: seq<Notice>)

  function TakeHits(myAgent: Option<AgentId>, hp: int, attackers: seq<Option<AgentId>>): Tally
    decreases |attackers|
  {
    if attackers == [] then Tally(hp, [])
    else
      var first := HitNotices(myAgent, attackers[0], hp - 1);
      var rest := TakeHits(myAgent, hp - 1, attackers[1..]);
      Tally(rest.hp, first + rest.notices)
  }

  function CountLose(ns: seq<Notice>): nat
  {
    if ns == [] then 0 else (if ns[0].Lose? then 1 else 0) + CountLose(ns[1..])
  }

  lemma CountLoseAppend(a: seq<Notice>, b: seq<Notice>)
    ensures CountLose(a + b) == CountLose(a) + CountLose(b)
  {
    if a != [] {
      assert (a + b)[0] == a[0];
      assert (a + b)[1..] == a[1..] + b;
      CountLoseAppend(a[1..], b);
    } else {
      assert a + b == b;
    }
  }

  lemma CountLoseOfHit(myAgent: Option<AgentId>, attacker: Option<AgentId>, hpAfter: int)
    ensures CountLose(HitNotices(myAgent, attacker, hpAfter)) ==
      if hpAfter <= 0 && myAgent.Some? then 1 else 0
  {
    var got := if myAgent.Some? then [GotHit(myAgent.value)] else [];
    var hit := if attacker.Some? then [HitEnemy(attacker.value)] else [];
    var lose := if hpAfter <= 0 && myAgent.Some? then [Lose(myAgent.value)] else [];
    var win := if hpAfter <= 0 && attacker.Some? then [Win(attacker.value)] else [];
    CountLoseAppend(got + hit + lose, win);
    CountLoseAppend(got + hit, lose);
    CountLoseAppend(got, hit);
  }

  /** Every hit removes exactly one point: n hits leave `hp - n`, with no floor. */
  lemma {:induction false} TakeHitsLeaves(myAgent: Option<AgentId>, hp: int, attackers: seq<Option<AgentId>>)
    ensures TakeHits(myAgent, hp, attackers).hp == hp - |attackers|
    decreases |attackers|
  {
    if attackers != [] {
      TakeHitsLeaves(myAgent, hp - 1, attackers[1..]);
    }
  }

  /**
   * Defeat is reported again on every hit at or below zero: of n hits on a pool
   * holding `hp` points, each hit numbered k >= hp reports Lose.
   */
  lemma {:induction false} LoseReportedPerHitAtOrBelowZero(myAgent: Option<AgentId>, hp: int, attackers: seq<Option<AgentId>>)
    requires myAgent.Some?
    ensures CountLose(TakeHits(myAgent, hp, attackers).notices) ==
      if |attackers| < hp then 0 else if hp <= 1 then |attackers| else |attackers| - hp + 1
    decreases |attackers|
  {
    if attackers != [] {
      var first := HitNotices(myAgent, attackers[0], hp - 1);
      LoseReportedPerHitAtOrBelowZero(myAgent, hp - 1, attackers[1..]);
      CountLoseOfHit(myAgent, attackers[0], hp - 1);
      CountLoseAppend(first, TakeHits(myAgent, hp - 1, attackers[1..]).notices);
    }
  }

  /** A full pool of `hp >= 1` points reports no defeat and no victory before hit number `hp`. */
  lemma {:induction false} NoOutcomeBeforeLastPoint(myAgent: Option<AgentId>, hp: int, attackers: seq<Option<AgentId>>)
    requires |attackers| < hp
    ensures forall n | n in TakeHits(myAgent, hp, attackers).notices :: !IsTerminal(n)
    decreases |attackers|
  {
    if attackers != [] {
      NoOutcomeBeforeLastPoint(myAgent, hp - 1, attackers[1..]);
    }
  }

  /**
   * From ResetHP with the default `maxHP = 5`: four hits report neither Lose nor
   * Win, and the fifth hit reports both, after its two hit notices.
   */
  lemma FifthHitDecides(me: AgentId, attackers: seq<Option<AgentId>>)
    requires |attackers| == 5 && attackers[4].Some?
    ensures var four := TakeHits(Some(me), DefaultMaxHP, attackers[..4]);
      && (forall n | n in four.notices :: !IsTerminal(n))
      && four.hp == 1
      && HitNotices(Some(me), attackers[4], four.hp - 1) ==
         [GotHit(me), HitEnemy(attackers[4].value), Lose(me), Win(attackers[4].value)]
  {
    NoOutcomeBeforeLastPoint(Some(me), DefaultMaxHP, attackers[..4]);
    TakeHitsLeaves(Some(me), DefaultMaxHP, attackers[..4]);
  }

  /** The health component. */
  class GladiatorHealth {
    const maxHP: int
    /** The GladiatorAgentV2 on the same object, if any. */
    const myAgent: Option<AgentId>
    var hp: int
    /** Every callback TakeHit has made, oldest first. */
    var notices: seq<Notice>

    /** Awake: the pool starts full. */
    constructor (maxHP: int, myAgent: Option<AgentId>)
      ensures this.maxHP == maxHP && this.myAgent == myAgent
      ensures hp == maxHP && notices == []
    {
      this.maxHP := maxHP;
      this.myAgent := myAgent;
      hp := maxHP;
      notices := [];
    }

    method ResetHP()
      modifies this
      ensures hp == maxHP && notices == old(notices)
    {
      hp := maxHP;
    }

    method TakeHit(attacker: Option<AgentId>)
      modifies this
      ensures hp == old(hp) - 1
      ensures notices == old(notices) + HitNotices(myAgent, attacker, hp)
    {
      hp := hp - 1;
      if myAgent.Some? { notices := notices + [GotHit(myAgent.value)]; }
      if attacker.Some? { notices := notices + [HitEnemy(attacker.value)]; }
      if hp <= 0 {
        if myAgent.Some? { notices := notices + [Lose(myAgent.value)]; }
        if attacker.Some? { notices := notices + [Win(attacker.value)]; }
      }
    }

    function Normalized(): (r: real)
      reads this
      ensures 0 <= hp <= maxHP ==> 0.0 <= r <= 1.0
    {
      HPNormalized(hp, maxHP)
    }
  }
}
