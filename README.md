# AR soccer characters, modelled in Dafny

This project models the game logic of an augmented-reality soccer toy built
in Unity. Small characters wander over a virtual field that is anchored in
the room. Each character is driven by a state machine with five states:
Idle, Roaming, Waving, Playing and Fleeing. The player taps to place a
soccer ball. Characters that know about the ball chase it and kick it
toward their goal, and each goal raises a score. The code is written so
that a character runs away when the player's camera gets too close, and the
game then switches to fleeing music; as the source stands, no character
ever reaches that state or the Waving one (see Findings).

The model has seven modules:

- `Wrappers` (wrappers.dfy): the `Option` type.
- `Geometry` (geometry.dfy): positions as three reals. Distance tests are
  comparisons of the squared distance against the squared threshold, and
  lemma `DistanceComparisons` shows these agree with comparing the true
  Euclidean distance.
- `Animation` (animation.dfy): `AnimationHandler.cs`. The pose enum drives
  four animator booleans, and after every setter call at most one of them
  is true.
- `Audio` (audio.dfy): `AudioManager.cs`. A current track, a remembered
  previous clip, and an audio source.
- `Match` (match.dfy): the rules of `GameManager.cs` as pure functions.
  These are random field points, the player-proximity test, scores, the
  single ball, and the "characters are running away" flag with its music.
- `Behaviour` (behaviour.dfy): the character state machine of
  `CharacterController.cs` as a pure function of the character's state
  (`Brain`) and what it reads in one frame (`Frame`). It also holds the
  reachability results and the corrected dispatch described under Findings.
- `Scene` (scene.dfy): the objects as the source keeps them. These are the
  classes `GameManager`, `StateManager` and `CharacterController` and the
  soccer `Ball`. Their fields are updated in place by methods. Each method
  is proved against the pure rules of `Match` and `Behaviour` through a
  ghost view of the object (`Brain()`, `Ball()`, `Scores()`, `Mood()`).
  `Update` ensures `Did(Tick(...))`, which ties the character's new state,
  its movement requests, its kicks, its pose writes and the game manager's
  flag and music to the pure outcome of `Behaviour.Tick`.

Time (`Time.time`), the two `Random.Range` draws of a field point, and the
camera position are parameters or fields set by the caller. A `Random.Range`
draw is any value between its bounds, in either order.

## Model

| member | source | states |
|---|---|---|
| Geometry.DistanceComparisons | Assets/Scripts/GameManager.cs:122-134 | For the true Euclidean distance r, the squared-distance tests used for `Vector3.Distance(a, b) > d`, `<= d` and `< d` hold exactly when r > d, r <= d and r < d, for any sign of d |
| Animation.AnimatorFlagsExclusive | Assets/Scripts/AnimationHandler.cs:41-94 | After an update for a pose, each of "Passing", "Running", "Wave" and "Walking" is true exactly when it is that pose's flag (Idle: none), and every other animator parameter is untouched |
| Animation.AnimatorFlagsForgetHistory | Assets/Scripts/AnimationHandler.cs:41-94 | The pose flags after an update do not depend on the animator's earlier values |
| Animation.AnimatorFlagsIdempotent | Assets/Scripts/AnimationHandler.cs:41-94 | Updating twice for the same pose gives the same animator booleans as updating once |
| Animation.PropertySetStoresPose | Assets/Scripts/AnimationHandler.cs:22-34 | The setter always stores the pose; without an animator its only other effect is one logged error, and with one the booleans become those of the pose |
| Animation.PropertySetTwice | Assets/Scripts/AnimationHandler.cs:22-34 | Setting the same pose twice leaves the same pose and booleans as setting it once |
| Animation.AnimationHandler.SetCurrentState | Assets/Scripts/AnimationHandler.cs:22-34 | The handler's new pose, animator and error count are `PropertySet` of the old ones |
| Animation.AnimationHandler.UpdateAnimator | Assets/Scripts/AnimationHandler.cs:41-81 | The animator's booleans become `AnimatorFlags` of the old booleans and the stored pose |
| Animation.AnimationHandler.ResetToIdle | Assets/Scripts/AnimationHandler.cs:87-94 | All four pose flags become false and nothing else changes |
| Audio.ChangeTrackRemembersOnlyADifferentClip | Assets/Scripts/AudioManager.cs:77-87 | After a switch the source holds the clip and loops and plays; the old clip is remembered exactly when it differs, and the remembered clip is never the loaded one |
| Audio.PlaySetsTrack | Assets/Scripts/AudioManager.cs:32-57 | Each Play*Music call leaves its clip as the current track and in the source, playing |
| Audio.PlayPreviousWithoutHistory | Assets/Scripts/AudioManager.cs:62-71 | With no remembered track, going back changes nothing |
| Audio.FleeingThenPreviousRestores | Assets/Scripts/AudioManager.cs:52-71 | Switching to the fleeing clip and back brings back the clip that was playing, when one was and it was not the fleeing clip |
| Audio.OnEnableDefaultsToRoaming | Assets/Scripts/AudioManager.cs:19-27 | Enabling keeps a current track that is set, otherwise picks the roaming music, and plays it |
| Audio.OnEnableStartsMusic | Assets/Scripts/AudioManager.cs:19-27 | A fresh manager that is enabled has its music on: current track loaded, looping and playing |
| Audio.CuesKeepMusicLive | Assets/Scripts/AudioManager.cs:19-87 | Once the music is on, any sequence of enable, play and go-back requests keeps it on |
| Audio.AudioManager.OnEnable | Assets/Scripts/AudioManager.cs:19-27 | The new state is `AfterOnEnable` of the old one |
| Audio.AudioManager.PlayRoamingMusic | Assets/Scripts/AudioManager.cs:32-37 | The new state is `AfterPlay` of the old one with the roaming clip |
| Audio.AudioManager.PlayPlayingMusic | Assets/Scripts/AudioManager.cs:42-47 | The new state is `AfterPlay` of the old one with the playing clip |
| Audio.AudioManager.PlayFleeingMusic | Assets/Scripts/AudioManager.cs:52-57 | The new state is `AfterPlay` of the old one with the fleeing clip |
| Audio.AudioManager.PlayPreviousTrack | Assets/Scripts/AudioManager.cs:62-71 | The new state is `AfterPlayPreviousTrack` of the old one |
| Audio.AudioManager.ChangeTrack | Assets/Scripts/AudioManager.cs:77-87 | The new state is `AfterChangeTrack` of the old one |
| Match.ReturnRandomPositionOnField | Assets/Scripts/GameManager.cs:93-100 | Every drawn point lies in the move area, centred on the field, at the field's height |
| Match.EveryFieldPointCanBeDrawn | Assets/Scripts/GameManager.cs:93-100 | Every such point is produced by some pair of draws (its own x and z) |
| Match.TooCloseMeansWithinThreshold | Assets/Scripts/GameManager.cs:122-134 | The player is too close exactly when the camera-to-character distance is at most the threshold |
| Match.GoalRaisesOnlyItsOwnScore | Assets/Scripts/GameManager.cs:64-76 | Player 1 or 2 gains exactly one point and the other score is unchanged; any other number changes nothing |
| Match.ScoresCountGoals | Assets/Scripts/GameManager.cs:45-76 | After the reset in `Start` and any sequence of goals, each score is the number of goals scored for that player |
| Match.SpawnOrMoveStep | Assets/Scripts/GameManager.cs:140-167 | Without a prefab nothing changes; otherwise the ball rests at the requested spot, and a ball is created and an alert sent exactly when there was none |
| Match.SpawnsOrMovesKeepOneBall | Assets/Scripts/GameManager.cs:140-185 | Over any sequence of requests there is at most one ball and at most one alert, and the ball rests at the last requested spot |
| Match.RunningAwayIsIdempotent | Assets/Scripts/GameManager.cs:191-211 | The flag ends equal to the request; the music switches to the fleeing clip or back only when the flag changes, and repeating a request does nothing |
| Match.FleeingAndCalmingRestoreMusic | Assets/Scripts/GameManager.cs:191-211 | Raising then lowering the flag brings back the music that was playing |
| Match.FlagFollowsLastSignal | Assets/Scripts/GameManager.cs:191-211 | After any sequence of signals the flag holds the last one and the music stays on |
| Behaviour.RegistryIsByName | Assets/Scripts/CharacterController.cs:29-36 | Each handler is registered under its own name, and every registered name maps to the handler of that name |
| Behaviour.ChangeStateNamesAndHooks | Assets/Scripts/CharacterController.cs:46-56 | The name and handler become the requested ones; Exit and Enter run exactly when the handler changes |
| Behaviour.IdleWaitsThenRoams | Assets/Scripts/CharacterController.cs:69-82 | Idle turns to Roaming exactly when the idle wait is over, aiming at the drawn point without touching the previous target; before that nothing changes |
| Behaviour.RoamingStepsTowardTarget | Assets/Scripts/CharacterController.cs:93-132 | Out of reach, a roaming character steps and restarts its idle wait: toward the ball at 1.5 times the speed, running, when it tracks one; else toward its target at walking speed |
| Behaviour.RoamingArrives | Assets/Scripts/CharacterController.cs:135-146 | Within reach it stops: with a ball it starts Playing with the pass delay, without one it goes Idle |
| Behaviour.PlayingPassesAfterDelay | Assets/Scripts/CharacterController.cs:189-206 | A playing character kicks exactly when its pass delay is over, then aims at the ball and roams; before that its state is unchanged |
| Behaviour.WaveStartsAtFoundCharacter | Assets/Scripts/CharacterController.cs:161-170 | When a wave starts, the character becomes Waving, aims at the found character (old target kept as previous), waves until `waveTime` from now, and writes the Waving pose field exactly when it did not hold it; otherwise the block does nothing |
| Behaviour.WaveEndsAndRoams | Assets/Scripts/CharacterController.cs:171-176 | Once the wave time has passed, target and previous target swap, the next wave waits `timeBetweenWaves`, and the character roams; before that nothing changes |
| Behaviour.FleeingKeepsRunning | Assets/Scripts/CharacterController.cs:228-240 | A fleeing character with the player still close stays Fleeing without a signal: it steps toward its target at 1.5 times the speed while out of reach, else aims at a drawn field point through the setter |
| Behaviour.NoWaveWithBallOrWhileFleeing | Assets/Scripts/CharacterController.cs:159-178 | The Waving handler does nothing for a character that tracks a ball or is named Fleeing |
| Behaviour.StartSettles | Assets/Scripts/CharacterController.cs:320-330 | `Start` leaves the character Idle under its own name, aiming at the drawn point, with only the Enter(Idle) hook run |
| Behaviour.TickKeepsSettled | Assets/Scripts/CharacterController.cs:38-44 | A frame of an Idle, Roaming or Playing character never leads to Waving or Fleeing and never signals the game manager |
| Behaviour.BallSpawnedKeepsSettled | Assets/Scripts/CharacterController.cs:385-391 | The first ball alert keeps the handler and keeps the character settled |
| Behaviour.RunStaysSettled | Assets/Scripts/CharacterController.cs:38-44 | A settled character stays settled through any frames and at most one ball alert |
| Behaviour.TickKeepsCalm | Assets/Scripts/CharacterController.cs:38-44 | A frame of a character running the Idle, Roaming or Playing handler leaves it on one of those three and never signals the game manager; a ball alert keeps its handler |
| Behaviour.RunStaysCalm | Assets/Scripts/CharacterController.cs:38-44 | A character on the Idle, Roaming or Playing handler stays on one of them through any frames and any number of ball alerts |
| Behaviour.WavingAndFleeingUnreachable | Assets/Scripts/CharacterController.cs:38-44 | From `Start`, with the dispatch as written and after any frames and ball alerts, a character is only ever Idle, Roaming or Playing and never calls `RunningAwayFromPlayer` |
| Behaviour.AsWrittenIgnoresNearbyPlayer | Assets/Scripts/CharacterController.cs:38-44 | A roaming character with the player one unit away keeps roaming as written, but flees under the intended dispatch |
| Behaviour.IntendedFleesAtOnce | Assets/Scripts/CharacterController.cs:217-227 | Under the intended dispatch, a character flees, signals the game manager and runs in the frame the player comes too close |
| Behaviour.IntendedCalmsDown | Assets/Scripts/CharacterController.cs:241-246 | Under the intended dispatch, a fleeing character the player has left roams toward a new field point, keeps its previous target and lowers the flag |
| Behaviour.IntendedWavesOnlyWhenFree | Assets/Scripts/CharacterController.cs:159-170 | Under the intended dispatch, a wave starts only with someone in range, past the cooldown, without a ball, not fleeing and with the player not too close |
| Behaviour.AsWrittenKicksFromAfar | Assets/Scripts/CharacterController.cs:93-146 | A character tracking a ball that has rolled ten units away starts Playing where it stands and then kicks the distant ball |
| Behaviour.IntendedPlaysOnlyNearBall | Assets/Scripts/CharacterController.cs:93-146 | With the corrected Roaming handler, a ball-tracking character plays exactly when the ball itself is within reach, otherwise chases it, and never kicks while roaming |
| Scene.GameManager.Start | Assets/Scripts/GameManager.cs:45-52 | Both scores are zero; the display is hidden and shows 0 to 0 |
| Scene.GameManager.IncreasePlayerScore | Assets/Scripts/GameManager.cs:64-76 | Scores become `AfterGoal` of the old ones; the ball is back on a drawn field point at rest; the display shows the new scores |
| Scene.GameManager.ResetSoccerBall | Assets/Scripts/GameManager.cs:81-87 | The ball sits on the drawn field point with no linear or angular velocity |
| Scene.GameManager.SpawnOrMoveSoccerBall | Assets/Scripts/GameManager.cs:140-167 | The ball book becomes `AfterSpawnOrMove`; without a prefab an error is logged; the first ball is new and every character spotted it (tracks and aims at it, renamed Roaming, with its position, moves, kicks and scene list unchanged), the display shows and the playing music starts; a move touches no character |
| Scene.GameManager.AlertCharactersToSoccerBallSpawningIn | Assets/Scripts/GameManager.cs:173-185 | Every character in the array has spotted the ball (tracks and aims at it, renamed Roaming, with its position, moves, kicks and scene list unchanged), one alert is counted, the scores are shown and the playing music starts |
| Scene.GameManager.RunningAwayFromPlayer | Assets/Scripts/GameManager.cs:191-211 | The flag equals the request, and flag and music become `AfterRunningAwayFromPlayer` of the old ones |
| Scene.StateManager.Start | Assets/Scripts/CharacterController.cs:29-36 | The dictionary holds exactly the five handlers under their names |
| Scene.StateManager.ChangeState | Assets/Scripts/CharacterController.cs:46-56 | Name and current handler are the requested ones; the hooks grow by `HookCalls` |
| Scene.CharacterController.SetCurrentTargetPosition | Assets/Scripts/CharacterController.cs:297-308 | The old target becomes the previous target and the new value the target |
| Scene.CharacterController.Start | Assets/Scripts/CharacterController.cs:320-330 | The state becomes `Started` with the drawn point, the handlers are registered, the pose is Idle through the property |
| Scene.CharacterController.SoccerBallSpawned | Assets/Scripts/CharacterController.cs:385-391 | The character tracks and aims at the ball and is renamed Roaming without a handler change; the marker is shown |
| Scene.CharacterController.KickSoccerBall | Assets/Scripts/CharacterController.cs:396-400 | One more kick is counted; a ball is required |
| Scene.CharacterController.FirstToWaveAtIsFirst | Assets/Scripts/CharacterController.cs:344-361 | The search finds the first other character strictly within the waving distance, and finds none exactly when there is none |
| Scene.CharacterController.ReturnCharacterTransformToWaveAt | Assets/Scripts/CharacterController.cs:344-361 | The loop returns what `FirstToWaveAt` describes |
| Scene.CharacterController.StateIdleUpdate | Assets/Scripts/CharacterController.cs:69-82 | The character and the objects it touches change as `IdleUpdate` says |
| Scene.CharacterController.StateRoamingUpdate | Assets/Scripts/CharacterController.cs:93-148 | The character and the objects it touches change as `RoamingUpdate` says |
| Scene.CharacterController.ChaseSoccerBall | Assets/Scripts/CharacterController.cs:108-120 | Aims at the ball, requests a run toward it at 1.5 times the speed, restarts the idle wait, runs |
| Scene.CharacterController.WalkToTarget | Assets/Scripts/CharacterController.cs:121-132 | Requests a walk toward the target at walking speed, restarts the idle wait, walks |
| Scene.CharacterController.StateWavingUpdate | Assets/Scripts/CharacterController.cs:159-178 | The character and the objects it touches change as `WavingUpdate` says |
| Scene.CharacterController.StartWaving | Assets/Scripts/CharacterController.cs:161-170 | State and pose field change as `WaveStart` says |
| Scene.CharacterController.StopWaving | Assets/Scripts/CharacterController.cs:171-176 | The state changes as `WaveEnd` says |
| Scene.CharacterController.StatePlayingUpdate | Assets/Scripts/CharacterController.cs:189-206 | The character and the objects it touches change as `PlayingUpdate` says |
| Scene.CharacterController.Pass | Assets/Scripts/CharacterController.cs:196-201 | One kick, aim at the ball, Roaming |
| Scene.CharacterController.StateFleeingUpdate | Assets/Scripts/CharacterController.cs:217-248 | The character and the objects it touches change as `FleeingUpdate` says |
| Scene.CharacterController.StartFleeing | Assets/Scripts/CharacterController.cs:219-227 | Fleeing, the flag raised with the fleeing music, running pose |
| Scene.CharacterController.StopFleeing | Assets/Scripts/CharacterController.cs:241-246 | Roaming toward a drawn point, the flag lowered with the previous music |
| Scene.CharacterController.Update | Assets/Scripts/CharacterController.cs:38-44 | Runs the current handler only: the character and the objects it touches change as `Tick` says |

## Left out

- Movement: `Vector3.MoveTowards` and `Rigidbody.MovePosition` are recorded as a `Move(toward, speed)` request appended to `moves`. The position is not advanced, and the bound "at most speed times `Time.deltaTime`" is not modelled.
- `LookAtTargetPosition` and the rest of `Update`'s rotation are not modelled: they only turn the character.
- Scene.CharacterController.KickSoccerBall: counts the kick. The force toward the goal and its random multiplier in `Random.Range(0.5f, 10f)` are physics.
- Scene.GameManager.IncreasePlayerScore: scores are unbounded integers, so the wrap-around of the C# `int` counters after 2147483647 goals is not modelled; Match.AfterGoal and Match.ScoresCountGoals share this.
- Floating point: positions, times and distances are reals, so float rounding is not modelled.
- `Time.time`, the `Random.Range` draws and the AR camera position are parameters or fields set by the caller. The second draw in the debug message of `GameManager.Start` is not modelled.
- `Debug.Log` and `Debug.LogError` calls are counted as `errorsLogged` where they report a missing object, and otherwise dropped.
- The UI manager's text is not modelled: its calls are logged as `UiCall` values. A missing UI manager, a missing audio source and a missing `selfIdentifier` are not modelled.
- Null dereferences the source would throw on are preconditions: a kick and `ResetSoccerBall` need a ball, and a flag change in `RunningAwayFromPlayer` needs an audio manager. The handler methods state this through `Permits`.
- `FindObjectsOfType<CharacterController>()` is an array passed in by the caller. Its characters are assumed distinct, each with its own state manager (`Cast`).
- The singleton set-up in `Awake`, `OnDisable`, gizmo drawing and the `stateManager.characterController` back-pointer are not modelled. The back-pointer is replaced by the handlers being methods of `CharacterController`.
- The Exit and Enter hooks of the states are empty in the source; their calls are logged as `Hook` values.
- Each handler is split into methods that follow its source blocks (for example `ChaseSoccerBall` and `WalkToTarget`). Their bodies are unchanged and their order is the source's.
- `StartWaving` calls the search once, where the source calls it twice. Nothing the search reads changes between the two calls.
- The `Scene` classes keep the dispatch and the Roaming handler as written. The corrected versions under Findings (`TickIntended`, `RoamingIntended`) are pure functions in `Behaviour` with their own lemmas, not class methods.
- `MouseHandler.cs`, `UIManager.cs`, `Goal.cs`, `FireWork.cs`, `RespawnZone.cs` and `SavePositionData.cs` are not part of this model. They cover input, display, goal triggers, effects and file I/O.

## Findings

| source | as written | input that shows it | evidently intended | confidence | as-written member | corrected member |
|---|---|---|---|---|---|---|
| Assets/Scripts/CharacterController.cs:38-44 | `StateManager.Update` runs only the current state's handler, so the entry tests of Fleeing (line 219) and Waving (line 161) can never pass. No character ever flees or waves, and `RunningAwayFromPlayer` is never called from a frame. | A roaming character at the origin, the camera at (1, 0, 0), default settings: it keeps roaming | The flee and wave checks run every frame, whatever the current state, before the current handler | high, not executed | Behaviour.AsWrittenIgnoresNearbyPlayer | Behaviour.IntendedFleesAtOnce |
| Assets/Scripts/CharacterController.cs:95-146 | A ball-tracking roaming character compares its distance to `CurrentTargetPosition`, which is where the ball was when it last aimed at it. If it stands there, it starts Playing and then kicks, wherever the ball now is. | A character at the origin whose target is the origin, the ball at (10, 0, 0): it goes to Playing without moving, and kicks one second later | The distance test uses the ball's current position | medium, not executed | Behaviour.AsWrittenKicksFromAfar | Behaviour.IntendedPlaysOnlyNearBall |
