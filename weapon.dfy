/**
 * GladiatorWeapon: the swing state machine of a melee weapon.
 *
 * Two timers and a flag: `activeLeft` (how long the current swing may still
 * deal damage), `cooldownLeft` (how long until the next swing may start) and
 * `hitThisSwing` (whether the current swing has already dealt its hit). The
 * engine's physics reports the colliders the weapon touches; each is reduced
 * here to the GladiatorHealth found in its parents, if any. Every call the
 * weapon makes to `TakeHit` on a victim is recorded, in order, as the victim's
 * id; the Health module gives the effect of those calls.
 */
module Weapon {
  import opened Wrappers
  import UnityMath

  /** Identity of a GladiatorHealth component. */
  type HealthId = nat

  /** A collider touched by the weapon: the GladiatorHealth in its parents, or None. */
  type Contact = Option<HealthId>

  /** The two serialized timing fields (seconds). */
  datatype Timing = Timing(activeTime: real, cooldown: real)

  /** The inspector defaults of GladiatorWeapon. */
  const DefaultTiming: Timing := Timing(0.25, 0.35)

  /** The weapon's mutable state. */
  datatype Swing = Swing(activeLeft: real, cooldownLeft: real, hitThisSwing: bool)

  /** The state an operation leaves and the TakeHit calls it issued, victim by victim. */
  datatype Outcome = Outcome(swing: Swing, hits: seq<HealthId>)

  /** SwingActive: contacts may only deal damage while the active window is open. */
  predicate SwingActive(s: Swing) { s.activeLeft > 0.0 }

  /** The state ResetWeapon (and Awake) establishes. */
  const Idle: Swing := Swing(0.0, 0.0, false)

  /** Update: the cooldown runs down without a floor, the active window is floored at 0. */
  function Tick(s: Swing, dt: real): (r: Swing)
    ensures s.activeLeft >= 0.0 ==> r.activeLeft >= 0.0
    ensures dt >= 0.0 ==> r.activeLeft <= s.activeLeft
    ensures r.cooldownLeft != s.cooldownLeft ==> s.cooldownLeft > 0.0 && r.cooldownLeft == s.cooldownLeft - dt
    ensures s.cooldownLeft > 0.0 ==> r.cooldownLeft == s.cooldownLeft - dt
    ensures s.activeLeft > 0.0 ==> r.activeLeft == UnityMath.Max(0.0, s.activeLeft - dt)
    ensures s.activeLeft <= 0.0 ==> r.activeLeft == s.activeLeft
    ensures r.hitThisSwing == s.hitThisSwing
  {
    var cooldownLeft := if s.cooldownLeft > 0.0 then s.cooldownLeft - dt else s.cooldownLeft;
    var activeLeft :=
      if s.activeLeft > 0.0 then (if s.activeLeft - dt < 0.0 then 0.0 else s.activeLeft - dt)
      else s.activeLeft;
    Swing(activeLeft, cooldownLeft, s.hitThisSwing)
  }

  /**
   * The cooldown is not floored: 0.1 s of cooldown ticked by a 0.25 s frame
   * ends at -0.15, while the active window of the same swing stops at 0; the
   * weapon is then ready for the next attack.
   */
  lemma CooldownOvershoots()
    ensures var r := Tick(Swing(0.1, 0.1, true), 0.25);
      && r.cooldownLeft == -0.15
      && r.activeLeft == 0.0
      && StartsSwing(r, AttackRequest(true, []))
  {
  }

  /** A frame at least as long as a positive cooldown makes the weapon ready again. */
  lemma FrameEndsCooldown(s: Swing, dt: real)
    requires s.cooldownLeft > 0.0 && dt >= s.cooldownLeft
    ensures Tick(s, dt).cooldownLeft <= 0.0
    ensures StartsSwing(Tick(s, dt), AttackRequest(true, []))
  {
  }

  /** A contact can be hit when it has a health component that is not the wielder's own. */
  predicate Hittable(ownerHealth: Option<HealthId>, c: Contact)
  {
    c.Some? && Some(c.value) != ownerHealth
  }

  /** TryHit: a hittable contact sets the flag and receives one TakeHit; anything else changes nothing. */
  function HitOutcome(ownerHealth: Option<HealthId>, s: Swing, c: Contact): (r: Outcome)
    ensures r.swing.activeLeft == s.activeLeft && r.swing.cooldownLeft == s.cooldownLeft
    ensures !Hittable(ownerHealth, c) ==> r == Outcome(s, [])
    ensures Hittable(ownerHealth, c) ==> r.swing.hitThisSwing && r.hits == [c.value]
  {
    if Hittable(ownerHealth, c) then Outcome(s.(hitThisSwing := true), [c.value])
    else Outcome(s, [])
  }

  /** TryHitFromOverlaps: try the overlapping colliders in order while the swing has not hit. */
  function ScanOutcome(ownerHealth: Option<HealthId>, s: Swing, cs: seq<Contact>): (r: Outcome)
    ensures |r.hits| <= 1
    ensures r.hits != [] ==> r.swing.hitThisSwing
    ensures s.hitThisSwing ==> r == Outcome(s, [])
    ensures r.swing.activeLeft == s.activeLeft && r.swing.cooldownLeft == s.cooldownLeft
    ensures r.swing.hitThisSwing == (s.hitThisSwing || r.hits != [])
    decreases |cs|
  {
    if |cs| == 0 || s.hitThisSwing then Outcome(s, [])
    else
      var first := HitOutcome(ownerHealth, s, cs[0]);
      var rest := ScanOutcome(ownerHealth, first.swing, cs[1..]);
      Outcome(rest.swing, first.hits + rest.hits)
  }

  /** Reference definition: the first overlapping collider that can be hit. */
  function FirstHittable(ownerHealth: Option<HealthId>, cs: seq<Contact>): Option<HealthId>
  {
    if cs == [] then None
    else if Hittable(ownerHealth, cs[0]) then Some(cs[0].value)
    else FirstHittable(ownerHealth, cs[1..])
  }

  /** The TakeHit calls that striking an optional victim issues. */
  function AsHits(victim: Option<HealthId>): seq<HealthId>
  {
    if victim.Some? then [victim.value] else []
  }

  /** The overlap scan of a swing that has not hit yet strikes exactly the first hittable collider, if any. */
  lemma {:induction false} ScanStrikesFirstHittable(ownerHealth: Option<HealthId>, s: Swing, cs: seq<Contact>)
    requires !s.hitThisSwing
    ensures ScanOutcome(ownerHealth, s, cs).hits == AsHits(FirstHittable(ownerHealth, cs))
    ensures FirstHittable(ownerHealth, cs).Some? ==>
      Hittable(ownerHealth, Some(FirstHittable(ownerHealth, cs).value))
    decreases |cs|
  {
    if cs != [] && !Hittable(ownerHealth, cs[0]) {
      ScanStrikesFirstHittable(ownerHealth, s, cs[1..]);
    }
  }

  /** TryAttack: gated on the request and on the cooldown; a new swing then scans the overlaps once. */
  function AttackOutcome(t: Timing, ownerHealth: Option<HealthId>, s: Swing, want: bool, overlaps: seq<Contact>): (r: Outcome)
    ensures !want || s.cooldownLeft > 0.0 ==> r == Outcome(s, [])
    ensures want && s.cooldownLeft <= 0.0 ==>
      && r.swing.activeLeft == t.activeTime
      && r.swing.cooldownLeft == t.cooldown
      && (r.swing.hitThisSwing <==> r.hits != [])
      && r.hits == AsHits(FirstHittable(ownerHealth, overlaps))
    ensures |r.hits| <= 1
  {
    if !want || s.cooldownLeft > 0.0 then Outcome(s, [])
    else
      ScanStrikesFirstHittable(ownerHealth, Swing(t.activeTime, t.cooldown, false), overlaps);
      ScanOutcome(ownerHealth, Swing(t.activeTime, t.cooldown, false), overlaps)
  }

  /** OnTriggerEnter and OnTriggerStay: ignored unless the swing is active and has not hit. */
  function ContactOutcome(ownerHealth: Option<HealthId>, s: Swing, c: Contact): (r: Outcome)
    ensures !SwingActive(s) || s.hitThisSwing ==> r == Outcome(s, [])
    ensures SwingActive(s) && !s.hitThisSwing ==> r == HitOutcome(ownerHealth, s, c)
    ensures SwingActive(s) && !s.hitThisSwing && Hittable(ownerHealth, c) ==> r.hits == [c.value]
    ensures |r.hits| <= 1
    ensures r.swing.activeLeft == s.activeLeft && r.swing.cooldownLeft == s.cooldownLeft
  {
    if !SwingActive(s) || s.hitThisSwing then Outcome(s, [])
    else HitOutcome(ownerHealth, s, c)
  }

  /** What the engine can do to a weapon: a frame, an attack request, a trigger callback. */
  datatype Event =
    | Frame(dt: real)
    | AttackRequest(want: bool, overlaps: seq<Contact>)
    | TriggerEnter(enter: Contact)
    | TriggerStay(stay: Contact)

  /** Whether an event starts a new swing. */
  predicate StartsSwing(s: Swing, e: Event)
  {
    e.AttackRequest? && e.want && s.cooldownLeft <= 0.0
  }

  function StepOutcome(t: Timing, ownerHealth: Option<HealthId>, s: Swing, e: Event): Outcome
  {
    match e
    case Frame(dt) => Outcome(Tick(s, dt), [])
    case AttackRequest(want, overlaps) => AttackOutcome(t, ownerHealth, s, want, overlaps)
    case TriggerEnter(c) => ContactOutcome(ownerHealth, s, c)
    case TriggerStay(c) => ContactOutcome(ownerHealth, s, c)
  }

  /** The result of a run of events: final state, every TakeHit issued, and how many swings started. */
  datatype Run = Run(swing: Swing, hits: seq<HealthId>, swings: nat)

  function RunEvents(t: Timing, ownerHealth: Option<HealthId>, s: Swing, es: seq<Event>): Run
    decreases |es|
  {
    if es == [] then Run(s, [], 0)
    else
      var o := StepOutcome(t, ownerHealth, s, es[0]);
      var rest := RunEvents(t, ownerHealth, o.swing, es[1..]);
      Run(rest.swing, o.hits + rest.hits, rest.swings + (if StartsSwing(s, es[0]) then 1 else 0))
  }

  /** 1 when the current swing may still deal its hit, 0 otherwise. */
  function Armed(s: Swing): nat
  {
    if SwingActive(s) && !s.hitThisSwing then 1 else 0
  }

  /** One event issues a hit only by spending the armed swing, or by starting a new one. */
  lemma StepSpendsArmedSwing(t: Timing, ownerHealth: Option<HealthId>, s: Swing, e: Event)
    ensures var o := StepOutcome(t, ownerHealth, s, e);
      |o.hits| + Armed(o.swing) <= Armed(s) + (if StartsSwing(s, e) then 1 else 0)
  {
  }

  /**
   * Hit deduplication over any run of events: the TakeHit calls issued never
   * outnumber the swings started, plus one for a swing already armed at the start.
   */
  lemma {:induction false} HitsBoundedBySwings(t: Timing, ownerHealth: Option<HealthId>, s: Swing, es: seq<Event>)
    ensures var r := RunEvents(t, ownerHealth, s, es);
      |r.hits| + Armed(r.swing) <= Armed(s) + r.swings
    decreases |es|
  {
    if es != [] {
      var o := StepOutcome(t, ownerHealth, s, es[0]);
      StepSpendsArmedSwing(t, ownerHealth, s, es[0]);
      HitsBoundedBySwings(t, ownerHealth, o.swing, es[1..]);
    }
  }

  /** After ResetWeapon no contact deals damage until an attack starts a swing. */
  lemma ResetWeaponHitsOnlyBySwinging(t: Timing, ownerHealth: Option<HealthId>, es: seq<Event>)
    ensures |RunEvents(t, ownerHealth, Idle, es).hits| <= RunEvents(t, ownerHealth, Idle, es).swings
  {
    HitsBoundedBySwings(t, ownerHealth, Idle, es);
  }

  /**
   * Between two successful TryAttack calls at most one TakeHit is issued: a swing
   * started by an attack, followed by any frames, contacts and refused attacks.
   */
  lemma OneHitPerSwing(t: Timing, ownerHealth: Option<HealthId>, s: Swing, overlaps: seq<Contact>, es: seq<Event>)
    requires s.cooldownLeft <= 0.0
    ensures var a := AttackOutcome(t, ownerHealth, s, true, overlaps);
      var r := RunEvents(t, ownerHealth, a.swing, es);
      r.swings == 0 ==> |a.hits| + |r.hits| <= 1
  {
    var a := AttackOutcome(t, ownerHealth, s, true, overlaps);
    HitsBoundedBySwings(t, ownerHealth, a.swing, es);
  }

  /** Contacts never hit the wielder's own health component. */
  lemma {:induction false} NeverHitsOwner(t: Timing, ownerHealth: Option<HealthId>, s: Swing, es: seq<Event>)
    ensures forall h | h in RunEvents(t, ownerHealth, s, es).hits :: Some(h) != ownerHealth
    decreases |es|
  {
    if es != [] {
      var o := StepOutcome(t, ownerHealth, s, es[0]);
      NeverHitsOwner(t, ownerHealth, o.swing, es[1..]);
      if es[0].AttackRequest? && es[0].want && s.cooldownLeft <= 0.0 {
        ScanStrikesFirstHittable(ownerHealth, Swing(t.activeTime, t.cooldown, false), es[0].overlaps);
      }
    }
  }

  /** The weapon component; each method's new state is the pure outcome above. */
  class GladiatorWeapon {
    const timing: Timing
    const ownerHealth: Option<HealthId>
    var activeLeft: real
    var cooldownLeft: real
    var hitThisSwing: bool
    /** Victims of the TakeHit calls issued so far, oldest first. */
    var delivered: seq<HealthId>

    function State(): Swing
      reads this
    {
      Swing(activeLeft, cooldownLeft, hitThisSwing)
    }

    /** Awake: the weapon starts reset. */
    constructor (timing: Timing, ownerHealth: Option<HealthId>)
      ensures this.timing == timing && this.ownerHealth == ownerHealth
      ensures State() == Idle && delivered == []
    {
      this.timing := timing;
      this.ownerHealth := ownerHealth;
      activeLeft, cooldownLeft, hitThisSwing := 0.0, 0.0, false;
      delivered := [];
    }

    method ResetWeapon()
      modifies this
      ensures State() == Idle && delivered == old(delivered)
    {
      activeLeft := 0.0;
      cooldownLeft := 0.0;
      hitThisSwing := false;
    }

    method Update(deltaTime: real)
      modifies this
      ensures State() == Tick(old(State()), deltaTime) && delivered == old(delivered)
    {
      if cooldownLeft > 0.0 {
        cooldownLeft := cooldownLeft - deltaTime;
      }
      if activeLeft > 0.0 {
        activeLeft := activeLeft - deltaTime;
        if activeLeft < 0.0 {
          activeLeft := 0.0;
        }
      }
    }

    method TryAttack(wantAttack: bool, overlaps: seq<Contact>)
      modifies this
      ensures var o := AttackOutcome(timing, ownerHealth, old(State()), wantAttack, overlaps);
        State() == o.swing && delivered == old(delivered) + o.hits
    {
      if !wantAttack { return; }
      if cooldownLeft > 0.0 { return; }
      hitThisSwing := false;
      activeLeft := timing.activeTime;
      cooldownLeft := timing.cooldown;
      TryHitFromOverlaps(overlaps);
    }

    method OnTriggerEnter(other: Contact)
      modifies this
      ensures var o := ContactOutcome(ownerHealth, old(State()), other);
        State() == o.swing && delivered == old(delivered) + o.hits
    {
      if !(activeLeft > 0.0) || hitThisSwing { return; }
      TryHit(other);
    }

    method OnTriggerStay(other: Contact)
      modifies this
      ensures var o := ContactOutcome(ownerHealth, old(State()), other);
        State() == o.swing && delivered == old(delivered) + o.hits
    {
      if !(activeLeft > 0.0) || hitThisSwing { return; }
      TryHit(other);
    }

    method TryHit(other: Contact)
      modifies this
      ensures var o := HitOutcome(ownerHealth, old(State()), other);
        State() == o.swing && delivered == old(delivered) + o.hits
    {
      if other.None? { return; }
      if Some(other.value) == ownerHealth { return; }
      hitThisSwing := true;
      delivered := delivered + [other.value];
    }

    method TryHitFromOverlaps(hits: seq<Contact>)
      modifies this
      ensures var o := ScanOutcome(ownerHealth, old(State()), hits);
        State() == o.swing && delivered == old(delivered) + o.hits
    {
      var i := 0;
      while i < |hits| && !hitThisSwing
        invariant 0 <= i <= |hits|
        invariant |old(delivered)| <= |delivered| && delivered[..|old(delivered)|] == old(delivered)
        invariant var rest := ScanOutcome(ownerHealth, State(), hits[i..]);
          ScanOutcome(ownerHealth, old(State()), hits) ==
          Outcome(rest.swing, delivered[|old(delivered)|..] + rest.hits)
      {
        ghost var before := State();
        ghost var sent := delivered[|old(delivered)|..];
        assert hits[i..][0] == hits[i] && hits[i..][1..] == hits[i + 1..];
        TryHit(hits[i]);
        assert delivered[|old(delivered)|..] == sent + HitOutcome(ownerHealth, before, hits[i]).hits;
        i := i + 1;
      }
      assert delivered == old(delivered) + delivered[|old(delivered)|..];
    }
  }
}
