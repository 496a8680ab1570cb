/**
 * GuardFSM: a patrol guard with three states. It walks a cyclic list of patrol
 * points, chases its target while it sees it, and searches the last known
 * position for a while after losing sight before resuming its patrol.
 *
 * NavMeshAgent is reduced to the two things the machine sets: `speed` and the
 * last destination requested. What the engine answers becomes input each
 * frame: the target's position (None when there is no target), the distance
 * from the eyes to it, whether a wall blocks the line of sight, whether the
 * agent has arrived at its destination, and the frame's duration.
 */
module Guard {
  import opened Wrappers
  import opened UnityMath

  datatype Mode = Patrol | Chase | Search

  datatype Config = Config(
    patrolPoints: seq<Vec3>,
    viewDistance: real,
    patrolSpeed: real,
    chaseSpeed: real,
    searchTime: real)

  /** Entering Patrol indexes the patrol list, so the model takes it non-empty. */
  type GuardConfig = c: Config | |c.patrolPoints| > 0
    witness Config([Zero], 10.0, 3.5, 6.0, 3.0)

  /** The guard's fields, plus the NavMeshAgent's speed and requested destination. */
  datatype Guard = Guard(
    state: Mode,
    patrolIndex: int,
    lastKnownTargetPos: Vec3,
    searchTimer: real,
    speed: real,
    destination: Option<Vec3>)

  /** One frame's input from the engine. */
  datatype Senses = Senses(target: Option<Vec3>, distance: real, blocked: bool, arrived: bool, deltaTime: real)

  /** CanSeeTarget: a target, within view distance, with a clear line of sight. */
  function CanSeeTarget(target: Option<Vec3>, distance: real, viewDistance: real, blocked: bool): (r: bool)
    ensures r <==> target.Some? && distance <= viewDistance && !blocked
  {
    if target.None? then false
    else if distance > viewDistance then false
    else !blocked
  }

  function Sees(cfg: GuardConfig, s: Senses): bool
  {
    CanSeeTarget(s.target, s.distance, cfg.viewDistance, s.blocked)
  }

  /** SetState: entering a state fixes the speed and, for Patrol and Search, the destination. */
  function Enter(cfg: GuardConfig, g: Guard, m: Mode): (r: Guard)
    ensures r.state == m
    ensures r.speed == if m == Chase then cfg.chaseSpeed else cfg.patrolSpeed
    ensures m == Patrol ==>
      && 0 <= r.patrolIndex < |cfg.patrolPoints|
      && r.destination == Some(cfg.patrolPoints[r.patrolIndex])
      && (0 <= g.patrolIndex < |cfg.patrolPoints| ==> r.patrolIndex == g.patrolIndex)
    ensures m == Search ==> r.searchTimer == cfg.searchTime && r.destination == Some(g.lastKnownTargetPos)
    ensures m != Patrol ==> r.patrolIndex == g.patrolIndex
    ensures m == Chase ==> r.destination == g.destination
    ensures m != Search ==> r.searchTimer == g.searchTimer
    ensures r.lastKnownTargetPos == g.lastKnownTargetPos
  {
    match m
    case Patrol =>
      var i := ClampInt(g.patrolIndex, 0, |cfg.patrolPoints| - 1);
      g.(state := Patrol, speed := cfg.patrolSpeed, patrolIndex := i, destination := Some(cfg.patrolPoints[i]))
    case Chase =>
      g.(state := Chase, speed := cfg.chaseSpeed)
    case Search =>
      g.(state := Search, speed := cfg.patrolSpeed, searchTimer := cfg.searchTime,
         destination := Some(g.lastKnownTargetPos))
  }

  /**
   * Update. The index advance `(patrolIndex + 1) % n` is C#'s remainder, which
   * agrees with Dafny's for the non-negative index the guard keeps.
   */
  function Step(cfg: GuardConfig, g: Guard, s: Senses): Guard
    requires g.patrolIndex >= 0
  {
    var sees := Sees(cfg, s);
    match g.state
    case Patrol =>
      if sees then Enter(cfg, g, Chase)
      else if s.arrived then
        var i := (g.patrolIndex + 1) % |cfg.patrolPoints|;
        g.(patrolIndex := i, destination := Some(cfg.patrolPoints[i]))
      else g
    case Chase =>
      if sees then g.(lastKnownTargetPos := s.target.value, destination := Some(s.target.value))
      else Enter(cfg, g, Search)
    case Search =>
      if sees then Enter(cfg, g, Chase)
      else
        var waited := g.(searchTimer := g.searchTimer - s.deltaTime);
        if waited.searchTimer <= 0.0 then Enter(cfg, waited, Patrol) else waited
  }

  /**
   * What the guard keeps true: the patrol index is a valid index, the speed
   * matches the state, a patrolling guard heads for its current patrol point
   * and a searching guard for the last known target position.
   */
  predicate Consistent(cfg: GuardConfig, g: Guard)
  {
    && 0 <= g.patrolIndex < |cfg.patrolPoints|
    && g.speed == (if g.state == Chase then cfg.chaseSpeed else cfg.patrolSpeed)
    && (g.state == Patrol ==> g.destination == Some(cfg.patrolPoints[g.patrolIndex]))
    && (g.state == Search ==> g.destination == Some(g.lastKnownTargetPos))
  }

  /** Start: the fields' initial values, then SetState(Patrol). */
  function Started(cfg: GuardConfig, initialSpeed: real): (g: Guard)
    ensures Consistent(cfg, g)
    ensures g.state == Patrol && g.patrolIndex == 0 && g.destination == Some(cfg.patrolPoints[0])
  {
    Enter(cfg, Guard(Patrol, 0, Zero, 0.0, initialSpeed, None), Patrol)
  }

  lemma StepKeepsConsistent(cfg: GuardConfig, g: Guard, s: Senses)
    requires Consistent(cfg, g)
    ensures Consistent(cfg, Step(cfg, g, s))
  {
  }

  function Run(cfg: GuardConfig, g: Guard, frames: seq<Senses>): (r: Guard)
    requires Consistent(cfg, g)
    ensures Consistent(cfg, r)
    decreases |frames|
  {
    if frames == [] then g
    else
      StepKeepsConsistent(cfg, g, frames[0]);
      Run(cfg, Step(cfg, g, frames[0]), frames[1..])
  }

  /** In Patrol, seeing the target switches to Chase at once, at chase speed, keeping the patrol index. */
  lemma PatrolSpotsTarget(cfg: GuardConfig, g: Guard, s: Senses)
    requires Consistent(cfg, g) && g.state == Patrol && Sees(cfg, s)
    ensures var r := Step(cfg, g, s);
      r.state == Chase && r.speed == cfg.chaseSpeed && r.patrolIndex == g.patrolIndex
  {
  }

  /** In Patrol, arriving without seeing the target heads for the next point, cyclically. */
  lemma PatrolAdvancesCyclically(cfg: GuardConfig, g: Guard, s: Senses)
    requires Consistent(cfg, g) && g.state == Patrol && !Sees(cfg, s) && s.arrived
    ensures var r := Step(cfg, g, s);
      && r.state == Patrol
      && r.patrolIndex == (if g.patrolIndex == |cfg.patrolPoints| - 1 then 0 else g.patrolIndex + 1)
      && r.destination == Some(cfg.patrolPoints[r.patrolIndex])
  {
  }

  /** In Chase, sight keeps the chase and records the target position; losing it starts a full search. */
  lemma ChaseTracksOrSearches(cfg: GuardConfig, g: Guard, s: Senses)
    requires Consistent(cfg, g) && g.state == Chase
    ensures var r := Step(cfg, g, s);
      && (Sees(cfg, s) ==> r.state == Chase && s.target.Some? && r.lastKnownTargetPos == s.target.value
                           && r.destination == Some(s.target.value))
      && (!Sees(cfg, s) ==> r.state == Search && r.searchTimer == cfg.searchTime
                            && r.speed == cfg.patrolSpeed && r.destination == Some(g.lastKnownTargetPos))
  {
  }

  /** In Search, sight returns to Chase; otherwise the timer runs down and Patrol resumes once it is <= 0. */
  lemma SearchCountsDown(cfg: GuardConfig, g: Guard, s: Senses)
    requires Consistent(cfg, g) && g.state == Search
    ensures var r := Step(cfg, g, s);
      && (Sees(cfg, s) ==> r.state == Chase)
      && (!Sees(cfg, s) ==>
          && (r.state == Patrol <==> g.searchTimer - s.deltaTime <= 0.0)
          && (r.state == Search ==> r.searchTimer == g.searchTimer - s.deltaTime))
  {
  }

  function Elapsed(frames: seq<Senses>): real
  {
    if frames == [] then 0.0 else frames[0].deltaTime + Elapsed(frames[1..])
  }

  /**
   * A search lasts: frames that do not see the target keep the guard searching,
   * heading for the last known position, as long as less than the remaining
   * search time has elapsed in total (for non-negative frame times).
   */
  lemma {:induction false} SearchPersistsUnseen(cfg: GuardConfig, g: Guard, frames: seq<Senses>)
    requires Consistent(cfg, g) && g.state == Search
    requires forall k | 0 <= k < |frames| :: !Sees(cfg, frames[k]) && frames[k].deltaTime >= 0.0
    requires Elapsed(frames) < g.searchTimer
    ensures var r := Run(cfg, g, frames);
      && r.state == Search
      && r.searchTimer == g.searchTimer - Elapsed(frames)
      && r.lastKnownTargetPos == g.lastKnownTargetPos
      && r.destination == g.destination
    decreases |frames|
  {
    if frames != [] {
      var next := Step(cfg, g, frames[0]);
      assert Elapsed(frames) == frames[0].deltaTime + Elapsed(frames[1..]);
      ElapsedNonNegative(frames[1..]);
      assert next.state == Search;
      SearchPersistsUnseen(cfg, next, frames[1..]);
    }
  }

  lemma {:induction false} ElapsedNonNegative(frames: seq<Senses>)
    requires forall k | 0 <= k < |frames| :: frames[k].deltaTime >= 0.0
    ensures Elapsed(frames) >= 0.0
    decreases |frames|
  {
    if frames != [] {
      ElapsedNonNegative(frames[1..]);
    }
  }

  class GuardFSM {
    const cfg: GuardConfig
    var state: Mode
    var patrolIndex: int
    var lastKnownTargetPos: Vec3
    var searchTimer: real
    /** NavMeshAgent.speed */
    var speed: real
    /** The last NavMeshAgent.SetDestination request, if any. */
    var destination: Option<Vec3>

    function View(): Guard
      reads this
    {
      Guard(state, patrolIndex, lastKnownTargetPos, searchTimer, speed, destination)
    }

    ghost predicate Valid()
      reads this
    {
      Consistent(cfg, View())
    }

    /** Awake and Start. */
    constructor (cfg: GuardConfig, initialSpeed: real)
      ensures this.cfg == cfg && Valid() && View() == Started(cfg, initialSpeed)
    {
      this.cfg := cfg;
      state := Patrol;
      patrolIndex := 0;
      lastKnownTargetPos := Zero;
      searchTimer := 0.0;
      speed := initialSpeed;
      destination := None;
      new;
      SetState(Patrol);
    }

    method Update(target: Option<Vec3>, distance: real, blocked: bool, arrived: bool, deltaTime: real)
      requires Valid()
      modifies this
      ensures Valid()
      ensures View() == Step(cfg, old(View()), Senses(target, distance, blocked, arrived, deltaTime))
    {
      var sees := CanSeeTarget(target, distance, cfg.viewDistance, blocked);
      if state == Patrol {
        if sees { SetState(Chase); return; }
        if arrived {
          patrolIndex := (patrolIndex + 1) % |cfg.patrolPoints|;
          destination := Some(cfg.patrolPoints[patrolIndex]);
        }
      } else if state == Chase {
        if sees {
          lastKnownTargetPos := target.value;
          destination := Some(lastKnownTargetPos);
        } else {
          SetState(Search);
        }
      } else {
        if sees { SetState(Chase); return; }
        searchTimer := searchTimer - deltaTime;
        if searchTimer <= 0.0 {
          SetState(Patrol);
        }
      }
    }

    method SetState(newState: Mode)
      modifies this
      ensures View() == Enter(cfg, old(View()), newState)
    {
      state := newState;
      if state == Patrol {
        speed := cfg.patrolSpeed;
        patrolIndex := ClampInt(patrolIndex, 0, |cfg.patrolPoints| - 1);
        destination := Some(cfg.patrolPoints[patrolIndex]);
      } else if state == Chase {
        speed := cfg.chaseSpeed;
      } else {
        speed := cfg.patrolSpeed;
        searchTimer := cfg.searchTime;
        destination := Some(lastKnownTargetPos);
      }
    }
  }
}
