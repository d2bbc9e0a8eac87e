/**
 * The rules of GameManager.cs that do not depend on the scene's objects:
 * random points on the field, the player-proximity test, score keeping,
 * the book-keeping of the single soccer ball, and the shared
 * "characters are running away" flag that chooses the music.
 */
module Match {
  import opened Geometry
  import Audio

  /**
   * `ReturnRandomPositionOnField`: `rx` and `rz` are the two values
   * `Random.Range` draws inside half the move area on either side of the
   * field's centre; the height is the field's.
   */
  function ReturnRandomPositionOnField(moveArea: Vec3, fieldY: real, rx: real, rz: real): (p: Vec3)
    requires Between(rx, -moveArea.x / 2.0, moveArea.x / 2.0)
    requires Between(rz, -moveArea.z / 2.0, moveArea.z / 2.0)
    ensures OnField(moveArea, fieldY, p)
  {
    Vec3(rx, fieldY, rz)
  }

  /** `p` lies in the move area, centred on the field, at the field's height. */
  predicate OnField(moveArea: Vec3, fieldY: real, p: Vec3)
  {
    && Abs(p.x) <= Abs(moveArea.x) / 2.0
    && Abs(p.z) <= Abs(moveArea.z) / 2.0
    && p.y == fieldY
  }

  /** Every point on the field is one the random draw can produce. */
  lemma EveryFieldPointCanBeDrawn(moveArea: Vec3, fieldY: real, p: Vec3)
    requires OnField(moveArea, fieldY, p)
    ensures Between(p.x, -moveArea.x / 2.0, moveArea.x / 2.0)
    ensures Between(p.z, -moveArea.z / 2.0, moveArea.z / 2.0)
    ensures ReturnRandomPositionOnField(moveArea, fieldY, p.x, p.z) == p
  {
  }

  /** `IsPlayerToCloseToCharacter`: the AR camera is within `distanceThreshold` of the character. */
  predicate IsPlayerToCloseToCharacter(camera: Vec3, character: Vec3, distanceThreshold: real)
  {
    WithinOrAt(camera, character, distanceThreshold)
  }

  /** The test is true exactly when the Euclidean camera–character distance is at most the threshold. */
  lemma TooCloseMeansWithinThreshold(camera: Vec3, character: Vec3, distanceThreshold: real, distance: real)
    requires 0.0 <= distance && distance * distance == SqDist(camera, character)
    ensures IsPlayerToCloseToCharacter(camera, character, distanceThreshold) <==> distance <= distanceThreshold
  {
    DistanceComparisons(camera, character, distanceThreshold, distance);
  }

  // ---------------------------------------------------------------- scores

  datatype Scores = Scores(playerOne: int, playerTwo: int)

  /** The score change of `IncreasePlayerScore(playerNumber)`. */
  function AfterGoal(s: Scores, playerNumber: int): Scores
  {
    if playerNumber == 1 then s.(playerOne := s.playerOne + 1)
    else if playerNumber == 2 then s.(playerTwo := s.playerTwo + 1)
    else s
  }

  /** Player 1 and player 2 each raise only their own score, by one; any other number changes nothing. */
  lemma GoalRaisesOnlyItsOwnScore(s: Scores, playerNumber: int)
    ensures playerNumber == 1 ==> AfterGoal(s, playerNumber) == Scores(s.playerOne + 1, s.playerTwo)
    ensures playerNumber == 2 ==> AfterGoal(s, playerNumber) == Scores(s.playerOne, s.playerTwo + 1)
    ensures playerNumber != 1 && playerNumber != 2 ==> AfterGoal(s, playerNumber) == s
  {
  }

  /** The scores after `Start` reset them and the goals in `goals` were scored, in order. */
  function AfterGoals(goals: seq<int>): Scores
  {
    if goals == [] then Scores(0, 0)
    else AfterGoal(AfterGoals(goals[..|goals| - 1]), goals[|goals| - 1])
  }

  /** How many goals in `goals` were scored for player `n`. */
  function Occurrences(goals: seq<int>, n: int): nat
  {
    if goals == [] then 0 else (if goals[0] == n then 1 else 0) + Occurrences(goals[1..], n)
  }

  lemma {:induction false} OccurrencesOfAppend(goals: seq<int>, g: int, n: int)
    ensures Occurrences(goals + [g], n) == Occurrences(goals, n) + (if g == n then 1 else 0)
  {
    if goals != [] {
      assert (goals + [g])[1..] == goals[1..] + [g];
      OccurrencesOfAppend(goals[1..], g, n);
    }
  }

  /** Each player's score is the number of goals scored for that player since the reset. */
  lemma {:induction false} ScoresCountGoals(goals: seq<int>)
    ensures AfterGoals(goals) == Scores(Occurrences(goals, 1), Occurrences(goals, 2))
  {
    if goals != [] {
      var last := |goals| - 1;
      assert goals == goals[..last] + [goals[last]];
      ScoresCountGoals(goals[..last]);
      OccurrencesOfAppend(goals[..last], goals[last], 1);
      OccurrencesOfAppend(goals[..last], goals[last], 2);
    }
  }

  // ---------------------------------------------------------------- the ball

  /**
   * What the game manager knows of the soccer ball: whether an instance
   * exists, where it is, its velocities, and how many instances were created
   * and how many "ball spawned" alerts were sent.
   */
  datatype BallBook = BallBook(present: bool, position: Vec3, velocity: Vec3, angularVelocity: Vec3, spawned: nat, alerts: nat)

  const NoBall := BallBook(false, Zero, Zero, Zero, 0, 0)

  /** `SpawnOrMoveSoccerBall(pos)`, with `hasPrefab` telling whether a ball prefab was assigned. */
  function AfterSpawnOrMove(b: BallBook, hasPrefab: bool, pos: Vec3): BallBook
  {
    if !hasPrefab then b
    else if !b.present then BallBook(true, pos, Zero, Zero, b.spawned + 1, b.alerts + 1)
    else b.(position := pos, velocity := Zero, angularVelocity := Zero)
  }

  function AfterSpawnsOrMoves(b: BallBook, hasPrefab: bool, positions: seq<Vec3>): BallBook
    decreases |positions|
  {
    if positions == [] then b else AfterSpawnsOrMoves(AfterSpawnOrMove(b, hasPrefab, positions[0]), hasPrefab, positions[1..])
  }

  /** At most one ball was ever created, and exactly one alert went out per creation. */
  ghost predicate SingleBall(b: BallBook)
  {
    b.spawned == b.alerts && b.spawned == (if b.present then 1 else 0)
  }

  /**
   * One request: without a prefab nothing happens; otherwise the ball ends up
   * at `pos` at rest, and an instance is created and an alert sent exactly
   * when there was no ball yet.
   */
  lemma SpawnOrMoveStep(b: BallBook, hasPrefab: bool, pos: Vec3)
    requires SingleBall(b)
    ensures var r := AfterSpawnOrMove(b, hasPrefab, pos);
      && SingleBall(r)
      && (!hasPrefab ==> r == b)
      && (hasPrefab ==> r.present && r.position == pos && r.velocity == Zero && r.angularVelocity == Zero)
      && (r.alerts == b.alerts + 1 <==> hasPrefab && !b.present)
      && (r.alerts == b.alerts || r.alerts == b.alerts + 1)
  {
  }

  /**
   * Across any sequence of requests there is at most one ball and at most one
   * alert; with a prefab and at least one request, the ball rests at the last
   * requested position.
   */
  lemma {:induction false} SpawnsOrMovesKeepOneBall(b: BallBook, hasPrefab: bool, positions: seq<Vec3>)
    requires SingleBall(b)
    ensures var r := AfterSpawnsOrMoves(b, hasPrefab, positions);
      && SingleBall(r)
      && r.alerts <= 1
      && (r.present <==> b.present || (hasPrefab && positions != []))
      && (hasPrefab && positions != [] ==>
            r.position == positions[|positions| - 1] && r.velocity == Zero && r.angularVelocity == Zero)
      && (!hasPrefab ==> r == b)
    decreases |positions|
  {
    if positions != [] {
      var next := AfterSpawnOrMove(b, hasPrefab, positions[0]);
      SpawnOrMoveStep(b, hasPrefab, positions[0]);
      SpawnsOrMovesKeepOneBall(next, hasPrefab, positions[1..]);
    }
  }

  // ---------------------------------------------------------------- fleeing flag and music

  /** The shared "characters are running away" flag together with the music it drives. */
  datatype Mood = Mood(running: bool, music: Audio.Mixer)

  /** `RunningAwayFromPlayer(isRunningAway)`. */
  function AfterRunningAwayFromPlayer(m: Mood, isRunningAway: bool, fleeingMusic: Audio.AudioClip?): Mood
  {
    if isRunningAway == m.running then m
    else Mood(isRunningAway,
              if isRunningAway then Audio.AfterPlay(m.music, fleeingMusic) else Audio.AfterPlayPreviousTrack(m.music))
  }

  /**
   * The flag ends equal to the request; the music changes only when the flag
   * did, to the fleeing clip when it was raised and back to the previous track
   * when it was lowered; a second identical request has no further effect.
   */
  lemma RunningAwayIsIdempotent(m: Mood, isRunningAway: bool, fleeingMusic: Audio.AudioClip?)
    ensures var r := AfterRunningAwayFromPlayer(m, isRunningAway, fleeingMusic);
      && r.running == isRunningAway
      && (isRunningAway == m.running ==> r == m)
      && (isRunningAway && !m.running ==> r.music == Audio.AfterPlay(m.music, fleeingMusic))
      && (!isRunningAway && m.running ==> r.music == Audio.AfterPlayPreviousTrack(m.music))
      && AfterRunningAwayFromPlayer(r, isRunningAway, fleeingMusic) == r
  {
  }

  /** Raising and then lowering the flag brings back the music that was playing before. */
  lemma FleeingAndCalmingRestoreMusic(m: Mood, fleeingMusic: Audio.AudioClip?)
    requires !m.running
    requires m.music.source.clip != null && m.music.source.clip != fleeingMusic
    ensures var r := AfterRunningAwayFromPlayer(AfterRunningAwayFromPlayer(m, true, fleeingMusic), false, fleeingMusic);
      !r.running && r.music.source.clip == m.music.source.clip && r.music.currentTrack == m.music.source.clip
  {
    Audio.FleeingThenPreviousRestores(m.music, fleeingMusic);
  }

  function AfterSignals(m: Mood, signals: seq<bool>, fleeingMusic: Audio.AudioClip?): Mood
    decreases |signals|
  {
    if signals == [] then m else AfterSignals(AfterRunningAwayFromPlayer(m, signals[0], fleeingMusic), signals[1..], fleeingMusic)
  }

  /** After any sequence of signals the flag holds the last one, and the music stays on. */
  lemma {:induction false} FlagFollowsLastSignal(m: Mood, signals: seq<bool>, fleeingMusic: Audio.AudioClip?)
    requires Audio.Live(m.music)
    ensures AfterSignals(m, signals, fleeingMusic).running == if signals == [] then m.running else signals[|signals| - 1]
    ensures Audio.Live(AfterSignals(m, signals, fleeingMusic).music)
    decreases |signals|
  {
    if signals != [] {
      var next := AfterRunningAwayFromPlayer(m, signals[0], fleeingMusic);
      Audio.CuesKeepMusicLive(m.music, Audio.Tracks(null, null, fleeingMusic), [if signals[0] then Audio.Flee else Audio.Previous]);
      assert Audio.Live(next.music);
      FlagFollowsLastSignal(next, signals[1..], fleeingMusic);
    }
  }

  // ---------------------------------------------------------------- score display

  /** The calls the game manager makes on the score display. */
  datatype UiCall = DisplayScores(show: bool) | UpdateScores(playerOne: int, playerTwo: int)
}
