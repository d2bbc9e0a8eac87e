/**
 * The character state machine of CharacterController.cs, as a function of
 * the character's state and what it observes in one frame.
 *
 * The StateManager holds a state name and a current handler; each frame it
 * runs the current handler only. The five handlers (Idle, Roaming, Waving,
 * Playing, Fleeing) change state through `ChangeState`. `SoccerBallSpawned`
 * and `Start` also write the state name directly, so the name and the
 * handler can disagree. A frame's result is the character's new state and
 * the effects it had on other objects: a movement request, a kick, a write
 * of the animation pose and a signal to the game manager.
 */
module Behaviour {
  import opened Wrappers
  import opened Geometry
  import Anim = Animation
  import Match

  datatype StateId = Idle | Roaming | Waving | Playing | Fleeing

  /** The key under which `StateManager.Start` registers each handler. */
  function NameOf(s: StateId): string
  {
    match s
    case Idle => "Idle"
    case Roaming => "Roaming"
    case Waving => "Waving"
    case Playing => "Playing"
    case Fleeing => "Fleeing"
  }

  /** The dictionary `StateManager.Start` fills. */
  function Registry(): map<string, StateId>
  {
    map["Idle" := Idle, "Roaming" := Roaming, "Waving" := Waving, "Playing" := Playing, "Fleeing" := Fleeing]
  }

  /** The registry maps every name to its own handler and holds nothing else. */
  lemma RegistryIsByName(s: StateId)
    ensures NameOf(s) in Registry() && Registry()[NameOf(s)] == s
    ensures forall name | name in Registry() :: NameOf(Registry()[name]) == name
  {
  }

  /** A call of a handler's (empty) `ExitState` or `EnterState`. */
  datatype Hook = Exit(from: StateId) | Enter(into: StateId)

  /** The hooks `ChangeState` calls when switching from `previous` to `next`. */
  function HookCalls(previous: Option<StateId>, next: StateId): seq<Hook>
  {
    if previous == Some(next) then []
    else (if previous.Some? then [Exit(previous.value)] else []) + [Enter(next)]
  }

  /** Inspector settings of a character; no code writes them. */
  datatype Tuning = Tuning(
    moveSpeed: real,
    minDistanceToTarget: real,
    idleTime: real,
    waveTime: real,
    distanceToStartWavingFrom: real,
    timeBetweenWaves: real,
    distanceThresholdOfPlayer: real,
    soccerBallInteractDistance: real,
    passingAnimationDelay: real)

  /** The character's own state: the StateManager's fields, the targets, the four timers and whether it tracks a ball. */
  datatype Brain = Brain(
    stateName: string,
    current: Option<StateId>,
    hooks: seq<Hook>,
    target: Vec3,
    previousTarget: Vec3,
    idleWaitUntil: real,
    waveUntil: real,
    nextWaveAt: real,
    passAt: real,
    hasBall: bool)

  /** A character before `Start`: Unity's default values. */
  const Unstarted := Brain("", None, [], Zero, Zero, 0.0, 0.0, 0.0, 0.0, false)

  /**
   * What a character reads in one frame: `Time.time`, its
   * own position, the AR camera's position, the field point the game manager
   * draws if asked, the ball's position, the position of the character the
   * wave search finds (if any), and its current animation pose.
   */
  datatype Frame = Frame(
    now: real,
    position: Vec3,
    camera: Vec3,
    fieldPoint: Vec3,
    ballPos: Vec3,
    waveAt: Option<Vec3>,
    pose: Anim.AnimationState)

  /**
   * A `MovePosition` request: move toward `toward` at `speed`, that is by at
   * most `speed` times the frame's `Time.deltaTime`.
   */
  datatype Move = Move(toward: Vec3, speed: real)

  /** What one frame did outside the character's own state. `flee` is a call of `RunningAwayFromPlayer`. */
  datatype Effects = Effects(move: Option<Move>, kicked: bool, pose: Anim.PoseWrite, flee: Option<bool>)

  const Quiet := Effects(None, false, Anim.NoPose, None)

  datatype Outcome = Outcome(brain: Brain, fx: Effects)

  // ---------------------------------------------------------------- primitives

  /** `StateManager.ChangeState(NameOf(s))`. */
  function ChangeState(b: Brain, s: StateId): Brain
  {
    b.(stateName := NameOf(s), current := Some(s), hooks := b.hooks + HookCalls(b.current, s))
  }

  /**
   * The name always becomes the requested one and the handler the one
   * registered under it; the Exit and Enter hooks run exactly when the
   * handler changes.
   */
  lemma ChangeStateNamesAndHooks(b: Brain, s: StateId)
    ensures var r := ChangeState(b, s);
      && r.stateName == NameOf(s) && r.current == Some(s)
      && (r.hooks == b.hooks <==> b.current == Some(s))
      && (b.current != Some(s) ==> r.hooks[|r.hooks| - 1] == Enter(s))
      && (b.current.Some? && b.current != Some(s) ==> r.hooks == b.hooks + [Exit(b.current.value), Enter(s)])
  {
  }

  /** The `CurrentTargetPosition` setter: the old target moves into `previousTargetPosition`. */
  function Retarget(b: Brain, v: Vec3): Brain
  {
    b.(previousTarget := b.target, target := v)
  }

  /** The character sets its pose through the property, unless it already holds that pose. */
  function PoseIfNot(current: Anim.AnimationState, wanted: Anim.AnimationState): Anim.PoseWrite
  {
    if current != wanted then Anim.ThroughProperty(wanted) else Anim.NoPose
  }

  // ---------------------------------------------------------------- the five handlers

  function IdleUpdate(t: Tuning, b: Brain, f: Frame): Outcome
  {
    var b1 := if f.now > b.idleWaitUntil then ChangeState(b.(target := f.fieldPoint), Roaming) else b;
    Outcome(b1, Quiet.(pose := PoseIfNot(f.pose, Anim.Idle)))
  }

  /** How close a roaming character must come to its target: the ball reach when it tracks a ball, else the minimum distance. */
  function Reach(t: Tuning, b: Brain): real
  {
    if b.hasBall then t.soccerBallInteractDistance else t.minDistanceToTarget
  }

  function RoamingUpdate(t: Tuning, b: Brain, f: Frame): Outcome
  {
    if b.stateName == "Roaming" && Farther(f.position, b.target, Reach(t, b)) then
      if b.hasBall then
        var b1 := Retarget(b, f.ballPos).(idleWaitUntil := f.now + t.idleTime);
        var step := Move(Flatten(f.ballPos, f.position.y), t.moveSpeed * 1.5);
        Outcome(b1, Quiet.(move := Some(step), pose := PoseIfNot(f.pose, Anim.Running)))
      else
        var step := Move(Flatten(b.target, f.position.y), t.moveSpeed);
        Outcome(b.(idleWaitUntil := f.now + t.idleTime), Quiet.(move := Some(step), pose := PoseIfNot(f.pose, Anim.Walking)))
    else if b.stateName == "Roaming" then
      if b.hasBall then
        Outcome(ChangeState(b, Playing).(passAt := f.now + t.passingAnimationDelay), Quiet)
      else
        Outcome(ChangeState(b, Idle), Quiet)
    else
      Outcome(b, Quiet)
  }

  /** The condition under which the Waving handler starts a wave. */
  predicate StartsWave(b: Brain, f: Frame)
  {
    f.waveAt.Some? && b.stateName != "Waving" && f.now > b.nextWaveAt && b.stateName != "Fleeing" && !b.hasBall
  }

  /** The Waving handler's first block: start waving at the character the search found. */
  function WaveStart(t: Tuning, b: Brain, f: Frame): Outcome
  {
    if StartsWave(b, f) then
      var b1 := Retarget(ChangeState(b, Waving).(waveUntil := f.now + t.waveTime), f.waveAt.value);
      Outcome(b1, Quiet.(pose := if f.pose != Anim.Waving then Anim.FieldOnly(Anim.Waving) else Anim.NoPose))
    else
      Outcome(b, Quiet)
  }

  /** The Waving handler's second block: once the wave time has passed, aim back at the previous target and roam. */
  function WaveEnd(t: Tuning, b: Brain, now: real): Brain
  {
    if b.stateName == "Waving" && now > b.waveUntil then
      ChangeState(Retarget(b, b.previousTarget).(nextWaveAt := now + t.timeBetweenWaves), Roaming)
    else b
  }

  function WavingUpdate(t: Tuning, b: Brain, f: Frame): Outcome
  {
    var o := WaveStart(t, b, f);
    o.(brain := WaveEnd(t, o.brain, f.now))
  }

  function PlayingUpdate(t: Tuning, b: Brain, f: Frame): Outcome
  {
    if b.stateName == "Playing" then
      var pose := PoseIfNot(f.pose, Anim.Passing);
      if f.now > b.passAt then
        Outcome(ChangeState(Retarget(b, f.ballPos), Roaming), Quiet.(kicked := true, pose := pose))
      else
        Outcome(b, Quiet.(pose := pose))
    else
      Outcome(b, Quiet)
  }

  function FleeingUpdate(t: Tuning, b: Brain, f: Frame): Outcome
  {
    var tooClose := Match.IsPlayerToCloseToCharacter(f.camera, f.position, t.distanceThresholdOfPlayer);
    if b.stateName != "Fleeing" && tooClose then
      Outcome(ChangeState(b, Fleeing), Quiet.(flee := Some(true), pose := PoseIfNot(f.pose, Anim.Running)))
    else if b.stateName == "Fleeing" && tooClose then
      if Farther(f.position, b.target, t.minDistanceToTarget) then
        Outcome(b, Quiet.(move := Some(Move(Flatten(b.target, f.position.y), t.moveSpeed * 1.5))))
      else
        Outcome(Retarget(b, f.fieldPoint), Quiet)
    else if b.stateName == "Fleeing" && !tooClose then
      Outcome(ChangeState(b, Roaming).(target := f.fieldPoint), Quiet.(flee := Some(false)))
    else
      Outcome(b, Quiet)
  }

  function Handler(s: StateId, t: Tuning, b: Brain, f: Frame): Outcome
  {
    match s
    case Idle => IdleUpdate(t, b, f)
    case Roaming => RoamingUpdate(t, b, f)
    case Waving => WavingUpdate(t, b, f)
    case Playing => PlayingUpdate(t, b, f)
    case Fleeing => FleeingUpdate(t, b, f)
  }

  /** `StateManager.Update`: run the current handler, if there is one, and nothing else. */
  function Tick(t: Tuning, b: Brain, f: Frame): Outcome
  {
    match b.current
    case None => Outcome(b, Quiet)
    case Some(s) => Handler(s, t, b, f)
  }

  /** `CharacterController.Start`, after the handlers are registered: a random target, the name "Roaming", then `ChangeState("Idle")`. */
  function Started(b: Brain, fieldPoint: Vec3): Brain
  {
    ChangeState(Retarget(b, fieldPoint).(stateName := "Roaming"), Idle)
  }

  /** `SoccerBallSpawned`: track the ball, aim at it, and rename the state "Roaming" without changing the handler. */
  function BallSpawned(b: Brain, ballPos: Vec3): Brain
  {
    Retarget(b, ballPos).(hasBall := true, stateName := "Roaming")
  }

  // ---------------------------------------------------------------- one frame, handler by handler

  /**
   * Idle switches to Roaming exactly when the time is past the idle wait,
   * and then heads for the drawn field point (written straight into the
   * field, so the previous target is kept); otherwise its state is unchanged.
   * Either way it asks for the Idle pose unless it already holds it.
   */
  lemma IdleWaitsThenRoams(t: Tuning, b: Brain, f: Frame)
    requires b.current == Some(Idle)
    ensures var o := Tick(t, b, f);
      && (o.brain.current == Some(Roaming) <==> f.now > b.idleWaitUntil)
      && (f.now > b.idleWaitUntil ==>
            && o.brain.stateName == "Roaming" && o.brain.target == f.fieldPoint
            && o.brain.previousTarget == b.previousTarget
            && o.brain.idleWaitUntil == b.idleWaitUntil && o.brain.hasBall == b.hasBall)
      && (f.now <= b.idleWaitUntil ==> o.brain == b)
      && o.fx == Quiet.(pose := PoseIfNot(f.pose, Anim.Idle))
  {
  }

  /**
   * A roaming character farther than its reach from its target takes one
   * step and restarts its idle wait. Chasing a ball, it first aims at the
   * ball (the old target becomes the previous one) and steps at 1.5 times the
   * walking speed with the Running pose; otherwise it steps at the walking
   * speed toward its unchanged target with the Walking pose.
   */
  lemma RoamingStepsTowardTarget(t: Tuning, b: Brain, f: Frame)
    requires b.current == Some(Roaming) && b.stateName == "Roaming"
    requires Farther(f.position, b.target, Reach(t, b))
    ensures var o := Tick(t, b, f);
      && o.brain.current == Some(Roaming) && o.brain.stateName == "Roaming"
      && o.brain.idleWaitUntil == f.now + t.idleTime
      && !o.fx.kicked && o.fx.flee == None
      && (b.hasBall ==>
            && o.brain.target == f.ballPos && o.brain.previousTarget == b.target
            && o.fx.move == Some(Move(Flatten(f.ballPos, f.position.y), 1.5 * t.moveSpeed))
            && o.fx.pose == PoseIfNot(f.pose, Anim.Running))
      && (!b.hasBall ==>
            && o.brain.target == b.target && o.brain.previousTarget == b.previousTarget
            && o.fx.move == Some(Move(Flatten(b.target, f.position.y), t.moveSpeed))
            && o.fx.pose == PoseIfNot(f.pose, Anim.Walking))
  {
  }

  /**
   * A roaming character within its reach stops moving: with a ball it starts
   * Playing and will pass after the animation delay, without one it goes Idle.
   */
  lemma RoamingArrives(t: Tuning, b: Brain, f: Frame)
    requires b.current == Some(Roaming) && b.stateName == "Roaming"
    requires !Farther(f.position, b.target, Reach(t, b))
    ensures var o := Tick(t, b, f);
      && o.fx == Quiet
      && o.brain.target == b.target
      && (b.hasBall ==> o.brain.current == Some(Playing) && o.brain.stateName == "Playing"
                        && o.brain.passAt == f.now + t.passingAnimationDelay)
      && (!b.hasBall ==> o.brain.current == Some(Idle) && o.brain.stateName == "Idle"
                         && o.brain.passAt == b.passAt)
  {
  }

  /**
   * A playing character kicks exactly when the time is past its pass
   * deadline, and then aims at the ball and roams again; before the deadline
   * it does not kick and its state is unchanged. Either way it asks for the
   * Passing pose unless it already holds it.
   */
  lemma PlayingPassesAfterDelay(t: Tuning, b: Brain, f: Frame)
    requires b.current == Some(Playing) && b.stateName == "Playing"
    ensures var o := Tick(t, b, f);
      && (o.fx.kicked <==> f.now > b.passAt)
      && o.fx.move == None && o.fx.flee == None
      && o.fx.pose == PoseIfNot(f.pose, Anim.Passing)
      && (f.now > b.passAt ==>
            && o.brain.current == Some(Roaming) && o.brain.stateName == "Roaming"
            && o.brain.target == f.ballPos && o.brain.previousTarget == b.target)
      && (f.now <= b.passAt ==> o.brain == b)
  {
  }

  /** The Waving handler never starts a wave for a character that tracks a ball or is fleeing. */
  lemma NoWaveWithBallOrWhileFleeing(t: Tuning, b: Brain, f: Frame)
    requires b.hasBall || b.stateName == "Fleeing"
    requires b.stateName != "Waving"
    ensures WavingUpdate(t, b, f) == Outcome(b, Quiet)
  {
  }

  /**
   * A wave starts when `StartsWave` holds: the character is named and run as
   * Waving, aims at the character the search found (the old target becomes
   * the previous one), waves until `waveTime` from now, and writes the Waving
   * pose straight into the handler's field exactly when it does not hold it
   * yet. Otherwise the first block changes nothing. With a wave time that is
   * not negative, the second block leaves a freshly started wave alone.
   */
  lemma WaveStartsAtFoundCharacter(t: Tuning, b: Brain, f: Frame)
    ensures var o := WaveStart(t, b, f);
      && (StartsWave(b, f) ==>
            && o.brain.current == Some(Waving) && o.brain.stateName == "Waving"
            && o.brain.target == f.waveAt.value && o.brain.previousTarget == b.target
            && o.brain.waveUntil == f.now + t.waveTime
            && o.brain.hasBall == b.hasBall && o.brain.nextWaveAt == b.nextWaveAt
            && o.fx.move == None && !o.fx.kicked && o.fx.flee == None
            && (o.fx.pose == Anim.FieldOnly(Anim.Waving) <==> f.pose != Anim.Waving)
            && (o.fx.pose == Anim.NoPose <==> f.pose == Anim.Waving))
      && (!StartsWave(b, f) ==> o == Outcome(b, Quiet))
      && (StartsWave(b, f) && 0.0 <= t.waveTime ==> WavingUpdate(t, b, f) == o)
  {
  }

  /**
   * A wave ends once its time has passed: the character aims back at its
   * previous target through the setter, so the two targets swap, may wave
   * again only after `timeBetweenWaves`, and roams. Before that, or under
   * another name, nothing changes. A character already named Waving only
   * runs this second block.
   */
  lemma WaveEndsAndRoams(t: Tuning, b: Brain, f: Frame)
    ensures var r := WaveEnd(t, b, f.now);
      && (b.stateName == "Waving" && f.now > b.waveUntil ==>
            && r.current == Some(Roaming) && r.stateName == "Roaming"
            && r.target == b.previousTarget && r.previousTarget == b.target
            && r.nextWaveAt == f.now + t.timeBetweenWaves
            && r.waveUntil == b.waveUntil && r.hasBall == b.hasBall)
      && (!(b.stateName == "Waving" && f.now > b.waveUntil) ==> r == b)
    ensures b.stateName == "Waving" ==> WavingUpdate(t, b, f) == Outcome(WaveEnd(t, b, f.now), Quiet)
  {
  }

  /**
   * A fleeing character the player is still close to keeps its state and
   * sends no signal: while it is farther than the minimum distance from its
   * target it takes one step toward the target at 1.5 times the walking
   * speed; once there, it aims at a freshly drawn field point through the
   * setter and does not move.
   */
  lemma FleeingKeepsRunning(t: Tuning, b: Brain, f: Frame)
    requires b.stateName == "Fleeing"
    requires Match.IsPlayerToCloseToCharacter(f.camera, f.position, t.distanceThresholdOfPlayer)
    ensures var o := FleeingUpdate(t, b, f);
      && o.fx.flee == None && !o.fx.kicked && o.fx.pose == Anim.NoPose
      && o.brain.current == b.current && o.brain.stateName == "Fleeing"
      && (Farther(f.position, b.target, t.minDistanceToTarget) ==>
            o.brain == b && o.fx.move == Some(Move(Flatten(b.target, f.position.y), 1.5 * t.moveSpeed)))
      && (!Farther(f.position, b.target, t.minDistanceToTarget) ==>
            && o.brain.target == f.fieldPoint && o.brain.previousTarget == b.target
            && o.fx.move == None)
  {
  }

  // ---------------------------------------------------------------- what a started character can become

  /**
   * The shapes a started character can be in: it runs the Idle, Roaming or
   * Playing handler, plays only while tracking a ball, and its state name is
   * its handler's, except that a ball alert may have renamed an idle
   * character "Roaming".
   */
  ghost predicate Settled(b: Brain)
  {
    && b.current.Some?
    && b.current.value != Waving && b.current.value != Fleeing
    && (b.current == Some(Playing) ==> b.hasBall)
    && (b.stateName == NameOf(b.current.value) || (b.stateName == "Roaming" && b.current == Some(Idle)))
  }

  /** `Start` leaves the character Idle under its own name, aiming at the drawn point. */
  lemma StartSettles(b: Brain, fieldPoint: Vec3)
    requires b.current == None
    ensures var r := Started(b, fieldPoint);
      && Settled(r) && r.current == Some(Idle) && r.stateName == "Idle"
      && r.target == fieldPoint && r.previousTarget == b.target
      && r.hooks == b.hooks + [Enter(Idle)]
  {
  }

  /**
   * From a settled character, a frame leads to a settled character, never
   * signals the game manager and never writes the pose field directly: the
   * Waving and Fleeing handlers, the only places that switch to those
   * states, never run.
   */
  lemma TickKeepsSettled(t: Tuning, b: Brain, f: Frame)
    requires Settled(b)
    ensures Settled(Tick(t, b, f).brain)
    ensures Tick(t, b, f).brain.hasBall == b.hasBall
    ensures Tick(t, b, f).fx.flee == None
    ensures !Tick(t, b, f).fx.pose.FieldOnly?
  {
  }

  /** The first ball alert keeps a settled character settled (a second one could rename a playing character). */
  lemma BallSpawnedKeepsSettled(b: Brain, ballPos: Vec3)
    requires Settled(b) && !b.hasBall
    ensures Settled(BallSpawned(b, ballPos))
    ensures BallSpawned(b, ballPos).current == b.current
  {
  }

  /** What can happen to a character between two frames: a frame, or the game manager's ball alert. */
  datatype Event = Tock(frame: Frame) | Alert(ballPos: Vec3)

  function Step(t: Tuning, b: Brain, e: Event): Brain
  {
    match e
    case Tock(f) => Tick(t, b, f).brain
    case Alert(p) => BallSpawned(b, p)
  }

  function Run(t: Tuning, b: Brain, events: seq<Event>): Brain
    decreases |events|
  {
    if events == [] then b else Run(t, Step(t, b, events[0]), events[1..])
  }

  function Alerts(events: seq<Event>): nat
  {
    if events == [] then 0 else (if events[0].Alert? then 1 else 0) + Alerts(events[1..])
  }

  /**
   * A settled character stays settled through any frames and ball alerts,
   * provided it receives at most one alert, and none once it tracks a ball
   * (the game manager alerts only when it creates the ball).
   */
  lemma {:induction false} RunStaysSettled(t: Tuning, b: Brain, events: seq<Event>)
    requires Settled(b)
    requires Alerts(events) <= if b.hasBall then 0 else 1
    ensures Settled(Run(t, b, events))
    decreases |events|
  {
    if events != [] {
      match events[0]
      case Tock(f) =>
        TickKeepsSettled(t, b, f);
      case Alert(p) =>
        BallSpawnedKeepsSettled(b, p);
    }
    if events != [] {
      RunStaysSettled(t, Step(t, b, events[0]), events[1..]);
    }
  }

  /** The character runs the Idle, Roaming or Playing handler, whatever its state name. */
  predicate Calm(b: Brain)
  {
    b.current == Some(Idle) || b.current == Some(Roaming) || b.current == Some(Playing)
  }

  /**
   * A frame of a calm character leaves it calm and never calls
   * `RunningAwayFromPlayer`; a ball alert does not change its handler.
   */
  lemma TickKeepsCalm(t: Tuning, b: Brain, f: Frame)
    requires Calm(b)
    ensures Calm(Tick(t, b, f).brain)
    ensures Tick(t, b, f).fx.flee == None
    ensures BallSpawned(b, f.ballPos).current == b.current
  {
  }

  /** A calm character stays calm through any frames and any number of ball alerts. */
  lemma {:induction false} RunStaysCalm(t: Tuning, b: Brain, events: seq<Event>)
    requires Calm(b)
    ensures Calm(Run(t, b, events))
    decreases |events|
  {
    if events != [] {
      match events[0]
      case Tock(f) =>
        TickKeepsCalm(t, b, f);
      case Alert(p) =>
        assert Step(t, b, events[0]).current == b.current;
    }
    if events != [] {
      RunStaysCalm(t, Step(t, b, events[0]), events[1..]);
    }
  }

  /**
   * Started from its defaults, a character is only ever Idle, Roaming or
   * Playing, whatever frames and ball alerts follow, and no frame of it ever
   * calls `RunningAwayFromPlayer`: with the dispatch as written, Waving and
   * Fleeing are unreachable.
   */
  lemma {:induction false} WavingAndFleeingUnreachable(t: Tuning, fieldPoint: Vec3, events: seq<Event>, f: Frame)
    ensures var b := Run(t, Started(Unstarted, fieldPoint), events);
      && (b.current == Some(Idle) || b.current == Some(Roaming) || b.current == Some(Playing))
      && Tick(t, b, f).fx.flee == None
  {
    var b := Run(t, Started(Unstarted, fieldPoint), events);
    RunStaysCalm(t, Started(Unstarted, fieldPoint), events);
    TickKeepsCalm(t, b, f);
  }

  // ---------------------------------------------------------------- the dispatch the handlers are written for

  /**
   * The Fleeing and Waving handlers open with entry tests
   * (`stateName != "Fleeing"`, `stateName != "Waving"`) that can only pass
   * when they run for a character in another state, yet the dispatch runs the
   * current handler alone. This is the dispatch they are written for: the
   * flee check first, then the wave check, then the current handler.
   */
  function TickIntended(t: Tuning, b: Brain, f: Frame): Outcome
  {
    match b.current
    case None => Outcome(b, Quiet)
    case Some(s) =>
      if s == Fleeing || Match.IsPlayerToCloseToCharacter(f.camera, f.position, t.distanceThresholdOfPlayer) then
        FleeingUpdate(t, b, f)
      else if s == Waving || StartsWave(b, f) then
        WavingUpdate(t, b, f)
      else if s == Roaming then
        RoamingIntended(t, b, f)
      else
        Handler(s, t, b, f)
  }

  /**
   * The Roaming handler as evidently intended: a character that tracks the
   * ball measures its distance to the ball itself, not to the target it
   * recorded when it last aimed at the ball.
   */
  function RoamingIntended(t: Tuning, b: Brain, f: Frame): Outcome
  {
    if b.stateName == "Roaming" && b.hasBall then
      if Farther(f.position, f.ballPos, t.soccerBallInteractDistance) then
        var step := Move(Flatten(f.ballPos, f.position.y), t.moveSpeed * 1.5);
        Outcome(Retarget(b, f.ballPos).(idleWaitUntil := f.now + t.idleTime),
                Quiet.(move := Some(step), pose := PoseIfNot(f.pose, Anim.Running)))
      else
        Outcome(ChangeState(b, Playing).(passAt := f.now + t.passingAnimationDelay), Quiet)
    else
      RoamingUpdate(t, b, f)
  }

  /** The inspector defaults of CharacterController.cs. */
  const DefaultTuning := Tuning(3.0, 1.0, 2.0, 2.0, 4.0, 5.0, 5.0, 0.75, 0.5)

  /**
   * A roaming character with the default settings and the player one unit
   * away: as written it keeps walking and tells nobody, while the intended
   * dispatch makes it flee in the same frame.
   */
  lemma AsWrittenIgnoresNearbyPlayer()
    ensures var b := Brain("Roaming", Some(Roaming), [], Vec3(10.0, 0.0, 0.0), Zero, 0.0, 0.0, 0.0, 0.0, false);
      var f := Frame(1.0, Zero, Vec3(1.0, 0.0, 0.0), Zero, Zero, None, Anim.Walking);
      && Match.IsPlayerToCloseToCharacter(f.camera, f.position, DefaultTuning.distanceThresholdOfPlayer)
      && Tick(DefaultTuning, b, f).brain.current == Some(Roaming)
      && Tick(DefaultTuning, b, f).fx.flee == None
      && TickIntended(DefaultTuning, b, f).brain.current == Some(Fleeing)
      && TickIntended(DefaultTuning, b, f).fx.flee == Some(true)
  {
  }

  /**
   * With the intended dispatch, a started character that is not fleeing
   * flees in the very frame the player comes within the threshold, tells the
   * game manager, and asks for the Running pose.
   */
  lemma IntendedFleesAtOnce(t: Tuning, b: Brain, f: Frame)
    requires b.current.Some? && b.stateName != "Fleeing"
    requires Match.IsPlayerToCloseToCharacter(f.camera, f.position, t.distanceThresholdOfPlayer)
    ensures var o := TickIntended(t, b, f);
      && o.brain.current == Some(Fleeing) && o.brain.stateName == "Fleeing"
      && o.fx.flee == Some(true) && o.fx.pose == PoseIfNot(f.pose, Anim.Running)
  {
  }

  /**
   * With the intended dispatch, a fleeing character the player has left roams
   * again toward a new field point (written straight into the field, so the
   * previous target is kept) and tells the game manager.
   */
  lemma IntendedCalmsDown(t: Tuning, b: Brain, f: Frame)
    requires b.current == Some(Fleeing) && b.stateName == "Fleeing"
    requires !Match.IsPlayerToCloseToCharacter(f.camera, f.position, t.distanceThresholdOfPlayer)
    ensures var o := TickIntended(t, b, f);
      && o.brain.current == Some(Roaming) && o.brain.stateName == "Roaming"
      && o.brain.target == f.fieldPoint && o.brain.previousTarget == b.previousTarget
      && o.fx.flee == Some(false)
  {
  }

  /**
   * With the intended dispatch, a wave starts only for a character that sees
   * someone to wave at, is past its wave cooldown, tracks no ball, is not
   * fleeing, and does not have the player too close.
   */
  lemma IntendedWavesOnlyWhenFree(t: Tuning, b: Brain, f: Frame)
    requires b.current.Some? && b.current != Some(Waving) && b.stateName != "Waving"
    requires TickIntended(t, b, f).brain.current == Some(Waving)
    ensures f.waveAt.Some? && f.now > b.nextWaveAt && !b.hasBall
    ensures b.stateName != "Fleeing" && b.current != Some(Fleeing)
    ensures !Match.IsPlayerToCloseToCharacter(f.camera, f.position, t.distanceThresholdOfPlayer)
  {
  }

  /**
   * A character tracking a ball that stands on the spot where it last aimed
   * at the ball, with the ball now ten units away: as written it starts
   * Playing and, once the pass delay is over, kicks the distant ball; the
   * intended Roaming handler runs after the ball instead.
   */
  lemma AsWrittenKicksFromAfar()
    ensures var b := Brain("Roaming", Some(Roaming), [], Zero, Zero, 0.0, 0.0, 0.0, 0.0, true);
      var f := Frame(1.0, Zero, Vec3(0.0, 0.0, 100.0), Zero, Vec3(10.0, 0.0, 0.0), None, Anim.Running);
      var later := f.(now := 2.0);
      var o1 := Tick(DefaultTuning, b, f);
      var o2 := Tick(DefaultTuning, o1.brain, later);
      && Farther(f.position, f.ballPos, DefaultTuning.soccerBallInteractDistance)
      && o1.brain.current == Some(Playing) && o1.fx.move == None
      && o2.fx.kicked && Farther(later.position, later.ballPos, DefaultTuning.soccerBallInteractDistance)
      && RoamingIntended(DefaultTuning, b, f).brain.current == Some(Roaming)
      && RoamingIntended(DefaultTuning, b, f).fx.move.Some?
  {
  }

  /**
   * With the intended Roaming handler, a character that tracks the ball
   * starts Playing exactly when the ball is within its reach, and otherwise
   * runs toward where the ball is now.
   */
  lemma IntendedPlaysOnlyNearBall(t: Tuning, b: Brain, f: Frame)
    requires b.current == Some(Roaming) && b.stateName == "Roaming" && b.hasBall
    ensures var o := TickIntended(t, b, f);
      !Match.IsPlayerToCloseToCharacter(f.camera, f.position, t.distanceThresholdOfPlayer) ==>
        && (o.brain.current == Some(Playing) <==> !Farther(f.position, f.ballPos, t.soccerBallInteractDistance))
        && (o.brain.current == Some(Roaming) <==> o.fx.move == Some(Move(Flatten(f.ballPos, f.position.y), t.moveSpeed * 1.5)))
        && !o.fx.kicked
  {
  }
}
