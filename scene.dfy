/**
 * The scene's objects as the source keeps them: the soccer ball, the game
 * manager (GameManager.cs), and each character's state manager and
 * controller (CharacterController.cs). The game manager and the characters
 * call each other (the ball alert one way, the fleeing signal the other), so
 * they share this module. Every state-changing method is proved against the
 * pure rules of modules Match and Behaviour.
 */
module Scene {
  import opened Wrappers
  import opened Geometry
  import Anim = Animation
  import Audio
  import Match
  import opened Behaviour

  /** The soccer ball's transform and rigid body. */
  class Ball {
    var position: Vec3
    var velocity: Vec3
    var angularVelocity: Vec3

    /** `Instantiate` of the ball prefab at `position`. */
    constructor (position: Vec3)
      ensures this.position == position && velocity == Zero && angularVelocity == Zero
    {
      this.position := position;
      velocity := Zero;
      angularVelocity := Zero;
    }
  }

  /** The fleeing flag and the music after `signal`, a call of `RunningAwayFromPlayer` or none. */
  function AfterSignal(m: Match.Mood, signal: Option<bool>, fleeingMusic: Audio.AudioClip?): Match.Mood
  {
    match signal
    case None => m
    case Some(v) => Match.AfterRunningAwayFromPlayer(m, v, fleeingMusic)
  }

  /** The characters `FindObjectsOfType` returns: each once, each with its own state manager. */
  ghost predicate Cast(characters: array<CharacterController>)
    reads characters
  {
    forall i, j :: 0 <= i < j < characters.Length ==>
      characters[i] != characters[j] && characters[i].stateManager != characters[j].stateManager
  }

  class GameManager {
    const moveArea: Vec3
    const fieldY: real
    const hasSoccerBallPrefab: bool
    const audioManager: Audio.AudioManager?
    var cameraPosition: Vec3
    var currentSoccerBallInstance: Ball?
    var playerOneScore: int
    var playerTwoScore: int
    var areCharactersRunningAway: bool
    var uiCalls: seq<Match.UiCall>
    var ballsCreated: nat
    var alertsSent: nat
    var errorsLogged: nat

    constructor (moveArea: Vec3, fieldY: real, hasSoccerBallPrefab: bool, audioManager: Audio.AudioManager?, cameraPosition: Vec3)
      ensures this.moveArea == moveArea && this.fieldY == fieldY
      ensures this.hasSoccerBallPrefab == hasSoccerBallPrefab && this.audioManager == audioManager
      ensures this.cameraPosition == cameraPosition
      ensures currentSoccerBallInstance == null && Ball() == Match.NoBall
      ensures playerOneScore == 0 && playerTwoScore == 0 && !areCharactersRunningAway
      ensures uiCalls == [] && errorsLogged == 0
    {
      this.moveArea := moveArea;
      this.fieldY := fieldY;
      this.hasSoccerBallPrefab := hasSoccerBallPrefab;
      this.audioManager := audioManager;
      this.cameraPosition := cameraPosition;
      currentSoccerBallInstance := null;
      playerOneScore, playerTwoScore := 0, 0;
      areCharactersRunningAway := false;
      uiCalls := [];
      ballsCreated, alertsSent, errorsLogged := 0, 0, 0;
    }

    /** What the game manager knows of the ball. */
    ghost function Ball(): Match.BallBook
      reads this, currentSoccerBallInstance
    {
      if currentSoccerBallInstance == null then Match.BallBook(false, Zero, Zero, Zero, ballsCreated, alertsSent)
      else Match.BallBook(true, currentSoccerBallInstance.position, currentSoccerBallInstance.velocity,
                          currentSoccerBallInstance.angularVelocity, ballsCreated, alertsSent)
    }

    ghost function Scores(): Match.Scores
      reads this
    {
      Match.Scores(playerOneScore, playerTwoScore)
    }

    /** The fleeing flag and the music it drives. */
    ghost function Mood(): Match.Mood
      requires audioManager != null
      reads this, audioManager
    {
      Match.Mood(areCharactersRunningAway, audioManager.View())
    }

    /** `rx` and `rz` are values `Random.Range` can draw for a field point. */
    predicate Drawable(rx: real, rz: real)
    {
      Between(rx, -moveArea.x / 2.0, moveArea.x / 2.0) && Between(rz, -moveArea.z / 2.0, moveArea.z / 2.0)
    }

    function ReturnRandomPositionOnField(rx: real, rz: real): Vec3
      requires Drawable(rx, rz)
    {
      Match.ReturnRandomPositionOnField(moveArea, fieldY, rx, rz)
    }

    predicate IsPlayerToCloseToCharacter(character: Vec3, distanceThreshold: real)
      reads this
    {
      Match.IsPlayerToCloseToCharacter(cameraPosition, character, distanceThreshold)
    }

    /** `Start`: reset the scores, hide the score display and show the zero scores. */
    method Start()
      modifies this`playerOneScore, this`playerTwoScore, this`uiCalls
      ensures Scores() == Match.Scores(0, 0)
      ensures uiCalls == old(uiCalls) + [Match.DisplayScores(false), Match.UpdateScores(0, 0)]
    {
      playerOneScore := 0;
      playerTwoScore := 0;
      uiCalls := uiCalls + [Match.DisplayScores(false)];
      uiCalls := uiCalls + [Match.UpdateScores(playerOneScore, playerTwoScore)];
    }

    /** A goal for `playerNumber`; the ball must exist (the source dereferences it). */
    method IncreasePlayerScore(playerNumber: int, rx: real, rz: real)
      requires currentSoccerBallInstance != null
      requires Drawable(rx, rz)
      modifies this`playerOneScore, this`playerTwoScore, this`uiCalls, currentSoccerBallInstance
      ensures Scores() == Match.AfterGoal(old(Scores()), playerNumber)
      ensures currentSoccerBallInstance.position == ReturnRandomPositionOnField(rx, rz)
      ensures currentSoccerBallInstance.velocity == Zero && currentSoccerBallInstance.angularVelocity == Zero
      ensures uiCalls == old(uiCalls) + [Match.UpdateScores(playerOneScore, playerTwoScore)]
    {
      if playerNumber == 1 {
        playerOneScore := playerOneScore + 1;
      } else if playerNumber == 2 {
        playerTwoScore := playerTwoScore + 1;
      }
      ResetSoccerBall(rx, rz);
      uiCalls := uiCalls + [Match.UpdateScores(playerOneScore, playerTwoScore)];
    }

    method ResetSoccerBall(rx: real, rz: real)
      requires currentSoccerBallInstance != null
      requires Drawable(rx, rz)
      modifies currentSoccerBallInstance
      ensures currentSoccerBallInstance.position == ReturnRandomPositionOnField(rx, rz)
      ensures currentSoccerBallInstance.velocity == Zero && currentSoccerBallInstance.angularVelocity == Zero
    {
      var ball := currentSoccerBallInstance;
      ball.velocity := Zero;
      ball.angularVelocity := Zero;
      ball.position := ReturnRandomPositionOnField(rx, rz);
    }

    /**
     * `SpawnOrMoveSoccerBall(positionToSpawn)`; `characters` are the ones
     * `FindObjectsOfType` would return to the alert.
     */
    method SpawnOrMoveSoccerBall(positionToSpawn: Vec3, characters: array<CharacterController>)
      requires Cast(characters)
      modifies this`currentSoccerBallInstance, this`ballsCreated, this`alertsSent, this`uiCalls, this`errorsLogged
      modifies currentSoccerBallInstance, audioManager
      modifies set i | 0 <= i < characters.Length :: characters[i]
      modifies set i | 0 <= i < characters.Length :: characters[i].stateManager
      ensures Ball() == Match.AfterSpawnOrMove(old(Ball()), hasSoccerBallPrefab, positionToSpawn)
      ensures errorsLogged == old(errorsLogged) + (if hasSoccerBallPrefab then 0 else 1)
      ensures old(currentSoccerBallInstance) == null && hasSoccerBallPrefab ==>
        && fresh(currentSoccerBallInstance)
        && (forall i :: 0 <= i < characters.Length ==> characters[i].SpottedBall(currentSoccerBallInstance))
        && uiCalls == old(uiCalls) + [Match.DisplayScores(true)]
        && (audioManager != null ==> audioManager.View() == Audio.AfterPlay(old(audioManager.View()), audioManager.playingMusic))
      ensures !(old(currentSoccerBallInstance) == null && hasSoccerBallPrefab) ==>
        && currentSoccerBallInstance == old(currentSoccerBallInstance)
        && uiCalls == old(uiCalls)
        && (audioManager != null ==> audioManager.View() == old(audioManager.View()))
        && forall i :: 0 <= i < characters.Length ==> unchanged(characters[i], characters[i].stateManager)
    {
      if !hasSoccerBallPrefab {
        errorsLogged := errorsLogged + 1;
        return;
      }
      if currentSoccerBallInstance == null {
        currentSoccerBallInstance := new Ball(positionToSpawn);
        ballsCreated := ballsCreated + 1;
        var ball := currentSoccerBallInstance;
        ball.velocity := Zero;
        ball.angularVelocity := Zero;
        AlertCharactersToSoccerBallSpawningIn(characters);
      } else {
        var ball := currentSoccerBallInstance;
        ball.position := positionToSpawn;
        ball.velocity := Zero;
        ball.angularVelocity := Zero;
      }
    }

    method AlertCharactersToSoccerBallSpawningIn(characters: array<CharacterController>)
      requires currentSoccerBallInstance != null
      requires Cast(characters)
      modifies this`alertsSent, this`uiCalls, audioManager
      modifies set i | 0 <= i < characters.Length :: characters[i]
      modifies set i | 0 <= i < characters.Length :: characters[i].stateManager
      ensures alertsSent == old(alertsSent) + 1
      ensures forall i :: 0 <= i < characters.Length ==> characters[i].SpottedBall(currentSoccerBallInstance)
      ensures uiCalls == old(uiCalls) + [Match.DisplayScores(true)]
      ensures audioManager != null ==> audioManager.View() == Audio.AfterPlay(old(audioManager.View()), audioManager.playingMusic)
    {
      var ball := currentSoccerBallInstance;
      for i := 0 to characters.Length
        invariant forall j :: 0 <= j < i ==> characters[j].SpottedBall(ball)
        invariant forall j :: i <= j < characters.Length ==> unchanged(characters[j], characters[j].stateManager)
        invariant uiCalls == old(uiCalls) && alertsSent == old(alertsSent)
        invariant audioManager != null ==> audioManager.View() == old(audioManager.View())
      {
        characters[i].SoccerBallSpawned(ball);
      }
      alertsSent := alertsSent + 1;
      uiCalls := uiCalls + [Match.DisplayScores(true)];
      if audioManager != null {
        audioManager.PlayPlayingMusic();
      }
    }

    /** `RunningAwayFromPlayer`; the source calls the audio manager without a null check. */
    method RunningAwayFromPlayer(isRunningAway: bool)
      requires isRunningAway != areCharactersRunningAway ==> audioManager != null
      modifies this`areCharactersRunningAway, audioManager
      ensures areCharactersRunningAway == isRunningAway
      ensures audioManager != null ==>
        Mood() == Match.AfterRunningAwayFromPlayer(old(Mood()), isRunningAway, audioManager.fleeingMusic)
    {
      if isRunningAway == areCharactersRunningAway {
        return;
      }
      areCharactersRunningAway := isRunningAway;
      if areCharactersRunningAway {
        audioManager.PlayFleeingMusic();
      } else {
        audioManager.PlayPreviousTrack();
      }
    }
  }

  class StateManager {
    var states: map<string, StateId>
    var currentState: Option<StateId>
    var stateName: string
    var hooks: seq<Hook>

    constructor ()
      ensures states == map[] && currentState == None && stateName == "" && hooks == []
    {
      states := map[];
      currentState := None;
      stateName := "";
      hooks := [];
    }

    /** Register the five handlers; `Dictionary.Add` throws on a second registration. */
    method Start()
      requires states == map[]
      modifies this`states
      ensures states == Registry()
    {
      states := states["Idle" := Idle];
      states := states["Roaming" := Roaming];
      states := states["Waving" := Waving];
      states := states["Playing" := Playing];
      states := states["Fleeing" := Fleeing];
    }

    /** `ChangeState(state)`; the dictionary lookup throws for an unregistered name. */
    method ChangeState(state: string)
      requires state in states
      modifies this`stateName, this`currentState, this`hooks
      ensures stateName == state && currentState == Some(states[state])
      ensures hooks == old(hooks) + HookCalls(old(currentState), states[state])
    {
      stateName := state;
      var previousState := currentState;
      currentState := Some(states[state]);
      if previousState != currentState {
        if previousState.Some? {
          hooks := hooks + [Exit(previousState.value)];
        }
        hooks := hooks + [Enter(currentState.value)];
      }
    }
  }

  class CharacterController {
    const stateManager: StateManager
    const gameManager: GameManager
    const animationHandler: Anim.AnimationHandler
    const tuning: Tuning
    var position: Vec3
    var currentTargetPosition: Vec3
    var previousTargetPosition: Vec3
    var currentIdleWaitTime: real
    var currentWaveTime: real
    var currentTimeBetweenWaves: real
    var currentTimeTillPassingAnimationPlays: real
    var currentSoccerBall: Ball?
    var allCharactersInScene: array<CharacterController>
    var selfIdentifierActive: bool
    var moves: seq<Move>
    var kicks: nat

    constructor (gameManager: GameManager, animationHandler: Anim.AnimationHandler, tuning: Tuning, position: Vec3)
      ensures this.gameManager == gameManager && this.animationHandler == animationHandler
      ensures this.tuning == tuning && this.position == position
      ensures fresh(stateManager) && stateManager.states == map[]
      ensures Brain() == Unstarted
      ensures currentSoccerBall == null && !selfIdentifierActive && moves == [] && kicks == 0
    {
      this.gameManager := gameManager;
      this.animationHandler := animationHandler;
      this.tuning := tuning;
      this.position := position;
      stateManager := new StateManager();
      currentTargetPosition, previousTargetPosition := Zero, Zero;
      currentIdleWaitTime, currentWaveTime := 0.0, 0.0;
      currentTimeBetweenWaves, currentTimeTillPassingAnimationPlays := 0.0, 0.0;
      currentSoccerBall := null;
      allCharactersInScene := new CharacterController[0];
      selfIdentifierActive := false;
      moves, kicks := [], 0;
    }

    /** The character's state, as module Behaviour sees it. */
    ghost function Brain(): Brain
      reads this, stateManager
    {
      Behaviour.Brain(stateManager.stateName, stateManager.currentState, stateManager.hooks,
                      currentTargetPosition, previousTargetPosition,
                      currentIdleWaitTime, currentWaveTime, currentTimeBetweenWaves,
                      currentTimeTillPassingAnimationPlays, currentSoccerBall != null)
    }

    /** The handlers are registered once a state is current. */
    ghost predicate Ready()
      reads this, stateManager
    {
      stateManager.currentState.Some? ==> stateManager.states == Registry()
    }

    /** `c` is another character strictly closer than the waving distance. */
    predicate WavesAt(c: CharacterController)
      reads this, c
    {
      c != this && Closer(position, c.position, tuning.distanceToStartWavingFrom)
    }

    /** The first character from index `from` on that this one would wave at. */
    ghost function FirstToWaveAt(from: nat): (r: CharacterController?)
      requires from <= allCharactersInScene.Length
      reads this, allCharactersInScene, set i | 0 <= i < allCharactersInScene.Length :: allCharactersInScene[i]
      ensures r != null ==> r in allCharactersInScene[from..] && WavesAt(r)
      decreases allCharactersInScene.Length - from
    {
      if from == allCharactersInScene.Length then null
      else if WavesAt(allCharactersInScene[from]) then allCharactersInScene[from]
      else FirstToWaveAt(from + 1)
    }

    /** What the character reads in a frame at time `now` whose random draws are `rx` and `rz`. */
    ghost function Look(now: real, rx: real, rz: real): Frame
      requires gameManager.Drawable(rx, rz)
      reads this, gameManager, currentSoccerBall, animationHandler, allCharactersInScene
      reads set i | 0 <= i < allCharactersInScene.Length :: allCharactersInScene[i]
    {
      var other := FirstToWaveAt(0);
      Frame(now, position, gameManager.cameraPosition, gameManager.ReturnRandomPositionOnField(rx, rz),
            if currentSoccerBall == null then Zero else currentSoccerBall.position,
            if other == null then None else Some(other.position),
            animationHandler.currentAnimationState)
    }

    /**
     * The frame's outcome `o` is what happened between the two states: the
     * character's state is `o.brain`, its moves and kicks grew by o's, its
     * animation handler took o's pose write, and the game manager took o's
     * fleeing signal.
     */
    twostate predicate Did(o: Outcome)
      reads this, stateManager, animationHandler, animationHandler.animator, gameManager, gameManager.audioManager
    {
      && Brain() == o.brain
      && moves == old(moves) + (if o.fx.move.Some? then [o.fx.move.value] else [])
      && kicks == old(kicks) + (if o.fx.kicked then 1 else 0)
      && animationHandler.View() == Anim.ApplyWrite(old(animationHandler.View()), o.fx.pose)
      && (gameManager.audioManager != null ==>
            gameManager.Mood() == AfterSignal(old(gameManager.Mood()), o.fx.flee, gameManager.audioManager.fleeingMusic))
      && (gameManager.audioManager == null ==> gameManager.areCharactersRunningAway == old(gameManager.areCharactersRunningAway))
    }

    /** What `SoccerBallSpawned(ball)` leaves behind; the character's position, moves, kicks and scene list stay as they were. */
    twostate predicate SpottedBall(new ball: Ball)
      reads this, stateManager, ball
    {
      && Brain() == BallSpawned(old(Brain()), ball.position)
      && currentSoccerBall == ball && selfIdentifierActive
      && stateManager.states == old(stateManager.states)
      && position == old(position) && moves == old(moves) && kicks == old(kicks)
      && allCharactersInScene == old(allCharactersInScene)
    }

    /** The `CurrentTargetPosition` setter. */
    method SetCurrentTargetPosition(value: Vec3)
      modifies this`currentTargetPosition, this`previousTargetPosition
      ensures previousTargetPosition == old(currentTargetPosition) && currentTargetPosition == value
    {
      previousTargetPosition := currentTargetPosition;
      currentTargetPosition := value;
    }

    /** `Start`: `everyone` is what `FindObjectsOfType` returns; `rx`, `rz` are the random draws. */
    method Start(everyone: array<CharacterController>, rx: real, rz: real)
      requires stateManager.states == map[]
      requires gameManager.Drawable(rx, rz)
      modifies this`currentTargetPosition, this`previousTargetPosition, this`allCharactersInScene, this`selfIdentifierActive
      modifies stateManager, animationHandler, animationHandler.animator
      ensures Brain() == Started(old(Brain()), gameManager.ReturnRandomPositionOnField(rx, rz))
      ensures Ready() && stateManager.states == Registry()
      ensures allCharactersInScene == everyone && !selfIdentifierActive
      ensures animationHandler.View() == Anim.PropertySet(old(animationHandler.View()), Anim.Idle)
    {
      stateManager.Start();
      SetCurrentTargetPosition(gameManager.ReturnRandomPositionOnField(rx, rz));
      allCharactersInScene := everyone;
      stateManager.stateName := "Roaming";
      selfIdentifierActive := false;
      animationHandler.SetCurrentState(Anim.Idle);
      stateManager.ChangeState("Idle");
    }

    /** `SoccerBallSpawned`. */
    method SoccerBallSpawned(ball: Ball)
      modifies this`currentSoccerBall, this`currentTargetPosition, this`previousTargetPosition, this`selfIdentifierActive
      modifies stateManager`stateName
      ensures SpottedBall(ball)
    {
      currentSoccerBall := ball;
      SetCurrentTargetPosition(currentSoccerBall.position);
      stateManager.stateName := "Roaming";
      selfIdentifierActive := true;
    }

    /** `KickSoccerBall`, counted; the source dereferences the ball. */
    method KickSoccerBall()
      requires currentSoccerBall != null
      modifies this`kicks
      ensures kicks == old(kicks) + 1
    {
      kicks := kicks + 1;
    }

    /**
     * The search finds the first character in scene order that is not this
     * one and is strictly closer than the waving distance, and finds none
     * exactly when no such character exists.
     */
    lemma {:induction false} FirstToWaveAtIsFirst(from: nat)
      requires from <= allCharactersInScene.Length
      ensures var r := FirstToWaveAt(from);
        && (r == null <==> forall j :: from <= j < allCharactersInScene.Length ==> !WavesAt(allCharactersInScene[j]))
        && (r != null ==>
              exists k :: from <= k < allCharactersInScene.Length && allCharactersInScene[k] == r && WavesAt(r) &&
                forall j :: from <= j < k ==> !WavesAt(allCharactersInScene[j]))
      decreases allCharactersInScene.Length - from
    {
      if from < allCharactersInScene.Length && !WavesAt(allCharactersInScene[from]) {
        FirstToWaveAtIsFirst(from + 1);
      }
    }

    /** `ReturnCharacterTransformToWaveAt`: the character `FirstToWaveAt` describes, or null. */
    method ReturnCharacterTransformToWaveAt() returns (r: CharacterController?)
      ensures r == FirstToWaveAt(0)
    {
      for i := 0 to allCharactersInScene.Length
        invariant FirstToWaveAt(0) == FirstToWaveAt(i)
      {
        if allCharactersInScene[i] != this {
          if Closer(position, allCharactersInScene[i].position, tuning.distanceToStartWavingFrom) {
            return allCharactersInScene[i];
          }
        }
      }
      return null;
    }

    /**
     * The frame's outcome `o` does not dereference a missing object: a kick
     * needs a ball, and a call of `RunningAwayFromPlayer` that flips the flag
     * needs the audio manager.
     */
    ghost predicate Permits(o: Outcome)
      reads this, gameManager
    {
      && (o.fx.kicked ==> currentSoccerBall != null)
      && (o.fx.flee.Some? && o.fx.flee.value != gameManager.areCharactersRunningAway ==> gameManager.audioManager != null)
    }

    /** `StateIdle.Update`. */
    method StateIdleUpdate(now: real, rx: real, rz: real)
      requires stateManager.states == Registry() && gameManager.Drawable(rx, rz)
      requires Permits(Behaviour.IdleUpdate(tuning, Brain(), Look(now, rx, rz)))
      modifies this`currentTargetPosition, this`previousTargetPosition, this`currentIdleWaitTime, this`currentWaveTime
      modifies this`currentTimeBetweenWaves, this`currentTimeTillPassingAnimationPlays, this`moves, this`kicks
      modifies stateManager`stateName, stateManager`currentState, stateManager`hooks
      modifies animationHandler, animationHandler.animator, gameManager`areCharactersRunningAway, gameManager.audioManager
      ensures Did(Behaviour.IdleUpdate(tuning, old(Brain()), old(Look(now, rx, rz))))
    {
      if now > currentIdleWaitTime {
        currentTargetPosition := gameManager.ReturnRandomPositionOnField(rx, rz);
        stateManager.ChangeState("Roaming");
      }
      if animationHandler.CurrentState() != Anim.Idle {
        animationHandler.SetCurrentState(Anim.Idle);
      }
    }

    /** `StateRoaming.Update`; a `MovePosition` request is appended to `moves`. */
    method StateRoamingUpdate(now: real, rx: real, rz: real)
      requires stateManager.states == Registry() && gameManager.Drawable(rx, rz)
      requires Permits(Behaviour.RoamingUpdate(tuning, Brain(), Look(now, rx, rz)))
      modifies this`currentTargetPosition, this`previousTargetPosition, this`currentIdleWaitTime, this`currentWaveTime
      modifies this`currentTimeBetweenWaves, this`currentTimeTillPassingAnimationPlays, this`moves, this`kicks
      modifies stateManager`stateName, stateManager`currentState, stateManager`hooks
      modifies animationHandler, animationHandler.animator, gameManager`areCharactersRunningAway, gameManager.audioManager
      ensures Did(Behaviour.RoamingUpdate(tuning, old(Brain()), old(Look(now, rx, rz))))
    {
      var distanceToTarget := if currentSoccerBall != null then tuning.soccerBallInteractDistance else tuning.minDistanceToTarget;
      if stateManager.stateName == "Roaming" && Farther(position, currentTargetPosition, distanceToTarget) {
        if currentSoccerBall != null {
          ChaseSoccerBall(now);
        } else {
          WalkToTarget(now);
        }
      } else if stateManager.stateName == "Roaming" {
        if currentSoccerBall != null {
          stateManager.ChangeState("Playing");
          currentTimeTillPassingAnimationPlays := now + tuning.passingAnimationDelay;
        } else {
          stateManager.ChangeState("Idle");
        }
      }
    }

    /** The Roaming handler's step toward the ball: run, aim at the ball, move at 1.5 times the walking speed. */
    method ChaseSoccerBall(now: real)
      requires currentSoccerBall != null
      modifies this`currentTargetPosition, this`previousTargetPosition, this`currentIdleWaitTime, this`moves
      modifies animationHandler, animationHandler.animator
      ensures Brain() == Retarget(old(Brain()), currentSoccerBall.position).(idleWaitUntil := now + tuning.idleTime)
      ensures moves == old(moves) + [Move(Flatten(currentSoccerBall.position, position.y), tuning.moveSpeed * 1.5)]
      ensures animationHandler.View() == Anim.ApplyWrite(old(animationHandler.View()), PoseIfNot(old(animationHandler.currentAnimationState), Anim.Running))
    {
      if animationHandler.CurrentState() != Anim.Running {
        animationHandler.SetCurrentState(Anim.Running);
      }
      SetCurrentTargetPosition(currentSoccerBall.position);
      var targetPosition := Flatten(currentTargetPosition, position.y);
      moves := moves + [Move(targetPosition, tuning.moveSpeed * 1.5)];
      currentIdleWaitTime := now + tuning.idleTime;
    }

    /** The Roaming handler's step toward its target: walk at the walking speed. */
    method WalkToTarget(now: real)
      modifies this`currentIdleWaitTime, this`moves, animationHandler, animationHandler.animator
      ensures Brain() == old(Brain()).(idleWaitUntil := now + tuning.idleTime)
      ensures moves == old(moves) + [Move(Flatten(currentTargetPosition, position.y), tuning.moveSpeed)]
      ensures animationHandler.View() == Anim.ApplyWrite(old(animationHandler.View()), PoseIfNot(old(animationHandler.currentAnimationState), Anim.Walking))
    {
      if animationHandler.CurrentState() != Anim.Walking {
        animationHandler.SetCurrentState(Anim.Walking);
      }
      var targetPosition := Flatten(currentTargetPosition, position.y);
      moves := moves + [Move(targetPosition, tuning.moveSpeed)];
      currentIdleWaitTime := now + tuning.idleTime;
    }

    /** `StateWaving.Update`: its two blocks in turn. */
    method StateWavingUpdate(now: real, rx: real, rz: real)
      requires stateManager.states == Registry() && gameManager.Drawable(rx, rz)
      requires Permits(Behaviour.WavingUpdate(tuning, Brain(), Look(now, rx, rz)))
      modifies this`currentTargetPosition, this`previousTargetPosition, this`currentIdleWaitTime, this`currentWaveTime
      modifies this`currentTimeBetweenWaves, this`currentTimeTillPassingAnimationPlays, this`moves, this`kicks
      modifies stateManager`stateName, stateManager`currentState, stateManager`hooks
      modifies animationHandler, animationHandler.animator, gameManager`areCharactersRunningAway, gameManager.audioManager
      ensures Did(Behaviour.WavingUpdate(tuning, old(Brain()), old(Look(now, rx, rz))))
    {
      StartWaving(now, rx, rz);
      StopWaving(now);
    }

    /** The first block of `StateWaving.Update`. */
    method StartWaving(now: real, rx: real, rz: real)
      requires stateManager.states == Registry() && gameManager.Drawable(rx, rz)
      modifies this`currentTargetPosition, this`previousTargetPosition, this`currentWaveTime
      modifies stateManager`stateName, stateManager`currentState, stateManager`hooks, animationHandler`currentAnimationState
      ensures var o := WaveStart(tuning, old(Brain()), old(Look(now, rx, rz)));
        && Brain() == o.brain
        && animationHandler.View() == Anim.ApplyWrite(old(animationHandler.View()), o.fx.pose)
    {
      // The source searches a second time for the target; nothing the search reads has changed by then.
      var other := ReturnCharacterTransformToWaveAt();
      if other != null && stateManager.stateName != "Waving" && now > currentTimeBetweenWaves
         && stateManager.stateName != "Fleeing" && currentSoccerBall == null
      {
        stateManager.ChangeState("Waving");
        currentWaveTime := now + tuning.waveTime;
        SetCurrentTargetPosition(other.position);
        if animationHandler.CurrentState() != Anim.Waving {
          animationHandler.currentAnimationState := Anim.Waving;
        }
      }
    }

    /** The second block of `StateWaving.Update`. */
    method StopWaving(now: real)
      requires stateManager.states == Registry()
      modifies this`currentTargetPosition, this`previousTargetPosition, this`currentTimeBetweenWaves
      modifies stateManager`stateName, stateManager`currentState, stateManager`hooks
      ensures Brain() == WaveEnd(tuning, old(Brain()), now)
    {
      if stateManager.stateName == "Waving" && now > currentWaveTime {
        SetCurrentTargetPosition(previousTargetPosition);
        currentTimeBetweenWaves := now + tuning.timeBetweenWaves;
        stateManager.ChangeState("Roaming");
      }
    }

    /** `StatePlaying.Update`. */
    method StatePlayingUpdate(now: real, rx: real, rz: real)
      requires stateManager.states == Registry() && gameManager.Drawable(rx, rz)
      requires Permits(Behaviour.PlayingUpdate(tuning, Brain(), Look(now, rx, rz)))
      modifies this`currentTargetPosition, this`previousTargetPosition, this`currentIdleWaitTime, this`currentWaveTime
      modifies this`currentTimeBetweenWaves, this`currentTimeTillPassingAnimationPlays, this`moves, this`kicks
      modifies stateManager`stateName, stateManager`currentState, stateManager`hooks
      modifies animationHandler, animationHandler.animator, gameManager`areCharactersRunningAway, gameManager.audioManager
      ensures Did(Behaviour.PlayingUpdate(tuning, old(Brain()), old(Look(now, rx, rz))))
    {
      if stateManager.stateName == "Playing" {
        if animationHandler.CurrentState() != Anim.Passing {
          animationHandler.SetCurrentState(Anim.Passing);
        }
        if now > currentTimeTillPassingAnimationPlays {
          Pass();
        }
      }
    }

    /** The Playing handler's pass: kick, aim at the ball, and roam. */
    method Pass()
      requires stateManager.states == Registry() && currentSoccerBall != null
      modifies this`currentTargetPosition, this`previousTargetPosition, this`kicks
      modifies stateManager`stateName, stateManager`currentState, stateManager`hooks
      ensures Brain() == Behaviour.ChangeState(Retarget(old(Brain()), currentSoccerBall.position), Roaming)
      ensures kicks == old(kicks) + 1
    {
      KickSoccerBall();
      SetCurrentTargetPosition(currentSoccerBall.position);
      stateManager.ChangeState("Roaming");
    }

    /** `StateFleeing.Update`. */
    method StateFleeingUpdate(now: real, rx: real, rz: real)
      requires stateManager.states == Registry() && gameManager.Drawable(rx, rz)
      requires Permits(Behaviour.FleeingUpdate(tuning, Brain(), Look(now, rx, rz)))
      modifies this`currentTargetPosition, this`previousTargetPosition, this`currentIdleWaitTime, this`currentWaveTime
      modifies this`currentTimeBetweenWaves, this`currentTimeTillPassingAnimationPlays, this`moves, this`kicks
      modifies stateManager`stateName, stateManager`currentState, stateManager`hooks
      modifies animationHandler, animationHandler.animator, gameManager`areCharactersRunningAway, gameManager.audioManager
      ensures Did(Behaviour.FleeingUpdate(tuning, old(Brain()), old(Look(now, rx, rz))))
    {
      if stateManager.stateName != "Fleeing" && gameManager.IsPlayerToCloseToCharacter(position, tuning.distanceThresholdOfPlayer) {
        StartFleeing();
      } else if stateManager.stateName == "Fleeing" && gameManager.IsPlayerToCloseToCharacter(position, tuning.distanceThresholdOfPlayer) {
        if stateManager.stateName == "Fleeing" && Farther(position, currentTargetPosition, tuning.minDistanceToTarget) {
          var targetPosition := Flatten(currentTargetPosition, position.y);
          moves := moves + [Move(targetPosition, tuning.moveSpeed * 1.5)];
        } else {
          SetCurrentTargetPosition(gameManager.ReturnRandomPositionOnField(rx, rz));
        }
      } else if stateManager.stateName == "Fleeing" && !gameManager.IsPlayerToCloseToCharacter(position, tuning.distanceThresholdOfPlayer) {
        StopFleeing(rx, rz);
      }
    }

    /** The Fleeing handler's start: switch to Fleeing, tell the game manager, run. */
    method StartFleeing()
      requires stateManager.states == Registry()
      requires !gameManager.areCharactersRunningAway ==> gameManager.audioManager != null
      modifies stateManager`stateName, stateManager`currentState, stateManager`hooks
      modifies animationHandler, animationHandler.animator, gameManager`areCharactersRunningAway, gameManager.audioManager
      ensures Brain() == Behaviour.ChangeState(old(Brain()), Fleeing)
      ensures animationHandler.View() == Anim.ApplyWrite(old(animationHandler.View()), PoseIfNot(old(animationHandler.currentAnimationState), Anim.Running))
      ensures gameManager.areCharactersRunningAway
      ensures gameManager.audioManager != null ==>
        gameManager.Mood() == Match.AfterRunningAwayFromPlayer(old(gameManager.Mood()), true, gameManager.audioManager.fleeingMusic)
    {
      stateManager.ChangeState("Fleeing");
      gameManager.RunningAwayFromPlayer(true);
      if animationHandler.CurrentState() != Anim.Running {
        animationHandler.SetCurrentState(Anim.Running);
      }
    }

    /** The Fleeing handler's stop: roam toward a fresh field point and tell the game manager. */
    method StopFleeing(rx: real, rz: real)
      requires stateManager.states == Registry() && gameManager.Drawable(rx, rz)
      requires gameManager.areCharactersRunningAway ==> gameManager.audioManager != null
      modifies this`currentTargetPosition, stateManager`stateName, stateManager`currentState, stateManager`hooks
      modifies gameManager`areCharactersRunningAway, gameManager.audioManager
      ensures Brain() == Behaviour.ChangeState(old(Brain()), Roaming).(target := gameManager.ReturnRandomPositionOnField(rx, rz))
      ensures !gameManager.areCharactersRunningAway
      ensures gameManager.audioManager != null ==>
        gameManager.Mood() == Match.AfterRunningAwayFromPlayer(old(gameManager.Mood()), false, gameManager.audioManager.fleeingMusic)
    {
      stateManager.ChangeState("Roaming");
      currentTargetPosition := gameManager.ReturnRandomPositionOnField(rx, rz);
      gameManager.RunningAwayFromPlayer(false);
    }

    /** `Update`, that is `StateManager.Update`: run the current handler, if any. */
    method Update(now: real, rx: real, rz: real)
      requires Ready() && gameManager.Drawable(rx, rz)
      requires Permits(Tick(tuning, Brain(), Look(now, rx, rz)))
      modifies this`currentTargetPosition, this`previousTargetPosition, this`currentIdleWaitTime, this`currentWaveTime
      modifies this`currentTimeBetweenWaves, this`currentTimeTillPassingAnimationPlays, this`moves, this`kicks
      modifies stateManager`stateName, stateManager`currentState, stateManager`hooks
      modifies animationHandler, animationHandler.animator, gameManager`areCharactersRunningAway, gameManager.audioManager
      ensures Did(Tick(tuning, old(Brain()), old(Look(now, rx, rz))))
    {
      match stateManager.currentState
      case None =>
      case Some(s) =>
        match s
        case Idle => StateIdleUpdate(now, rx, rz);
        case Roaming => StateRoamingUpdate(now, rx, rz);
        case Waving => StateWavingUpdate(now, rx, rz);
        case Playing => StatePlayingUpdate(now, rx, rz);
        case Fleeing => StateFleeingUpdate(now, rx, rz);
    }
  }
}
