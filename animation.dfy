/**
 * AnimationHandler.cs: a character's pose enum drives four animator
 * booleans ("Passing", "Running", "Wave", "Walking"); the `CurrentState`
 * setter first clears all four and then raises the one that belongs to the
 * pose, so after every setter call at most one is true. A write of the pose
 * field alone leaves the animator as it was.
 */
module Animation {
  import opened Wrappers

  datatype AnimationState = Idle | Walking | Running | Passing | Waving

  /** The animator boolean that belongs to a pose; Idle has none. */
  function FlagOf(s: AnimationState): Option<string>
  {
    match s
    case Idle => None
    case Walking => Some("Walking")
    case Running => Some("Running")
    case Passing => Some("Passing")
    case Waving => Some("Wave")
  }

  /** The four animator booleans after `ResetToIdle`. */
  function Cleared(bools: map<string, bool>): map<string, bool>
  {
    bools["Passing" := false]["Running" := false]["Wave" := false]["Walking" := false]
  }

  /** The animator booleans after `UpdateAnimator` has run for pose `s`. */
  function AnimatorFlags(bools: map<string, bool>, s: AnimationState): map<string, bool>
  {
    match FlagOf(s)
    case None => Cleared(bools)
    case Some(flag) => Cleared(bools)[flag := true]
  }

  /** The names of the four animator booleans that stand for poses. */
  predicate IsPoseFlag(name: string)
  {
    name == "Passing" || name == "Running" || name == "Wave" || name == "Walking"
  }

  /**
   * After an update for pose `s`, each of the four pose flags is present and
   * true exactly when it is the flag of `s` (so Idle leaves all four false and
   * every other pose leaves exactly its own flag true); every other animator
   * parameter keeps its value.
   */
  lemma AnimatorFlagsExclusive(bools: map<string, bool>, s: AnimationState)
    ensures var r := AnimatorFlags(bools, s);
      && "Passing" in r && "Running" in r && "Wave" in r && "Walking" in r
      && (r["Passing"] <==> s == Passing)
      && (r["Running"] <==> s == Running)
      && (r["Wave"] <==> s == Waving)
      && (r["Walking"] <==> s == Walking)
    ensures var r := AnimatorFlags(bools, s);
      forall name :: !IsPoseFlag(name) ==> (name in r <==> name in bools) && (name in bools ==> r[name] == bools[name])
  {
  }

  /** The pose flags after an update do not depend on what the animator held before. */
  lemma AnimatorFlagsForgetHistory(b1: map<string, bool>, b2: map<string, bool>, s: AnimationState, name: string)
    requires IsPoseFlag(name)
    ensures name in AnimatorFlags(b1, s) && name in AnimatorFlags(b2, s)
    ensures AnimatorFlags(b1, s)[name] == AnimatorFlags(b2, s)[name]
  {
    AnimatorFlagsExclusive(b1, s);
    AnimatorFlagsExclusive(b2, s);
  }

  /** Updating the animator twice for the same pose leaves the same booleans as once. */
  lemma AnimatorFlagsIdempotent(bools: map<string, bool>, s: AnimationState)
    ensures AnimatorFlags(AnimatorFlags(bools, s), s) == AnimatorFlags(bools, s)
  {
    var once := AnimatorFlags(bools, s);
    var twice := AnimatorFlags(once, s);
    AnimatorFlagsExclusive(bools, s);
    AnimatorFlagsExclusive(once, s);
    assert twice.Keys == once.Keys;
    forall name | name in once
      ensures twice[name] == once[name]
    {
      if IsPoseFlag(name) {
        AnimatorFlagsForgetHistory(bools, once, s, name);
      }
    }
  }

  /**
   * What a caller sees of an AnimationHandler: the stored pose, the animator's
   * booleans when an animator is attached, and how many errors were logged.
   */
  datatype HandlerView = HandlerView(state: AnimationState, animator: Option<map<string, bool>>, errors: nat)

  /** The `CurrentState` setter: store the pose, then update the animator or log an error. */
  function PropertySet(v: HandlerView, s: AnimationState): HandlerView
  {
    match v.animator
    case Some(bools) => HandlerView(s, Some(AnimatorFlags(bools, s)), v.errors)
    case None => HandlerView(s, None, v.errors + 1)
  }

  /**
   * The setter always stores the pose; with no animator, the only other effect is
   * one more logged error, and with one, the booleans are those of the pose.
   */
  lemma PropertySetStoresPose(v: HandlerView, s: AnimationState)
    ensures PropertySet(v, s).state == s
    ensures v.animator == None ==> PropertySet(v, s) == v.(state := s, errors := v.errors + 1)
    ensures v.animator.Some? ==>
              && PropertySet(v, s).errors == v.errors
              && PropertySet(v, s).animator == Some(AnimatorFlags(v.animator.value, s))
  {
  }

  /** Setting the same pose twice leaves the same pose and animator booleans as setting it once. */
  lemma PropertySetTwice(v: HandlerView, s: AnimationState)
    ensures PropertySet(PropertySet(v, s), s).state == PropertySet(v, s).state
    ensures PropertySet(PropertySet(v, s), s).animator == PropertySet(v, s).animator
  {
    if v.animator.Some? {
      AnimatorFlagsIdempotent(v.animator.value, s);
    }
  }

  /**
   * How a character touches its animation handler in one frame: not at all,
   * through the `CurrentState` property, or by writing `currentAnimationState`
   * directly, which leaves the animator alone.
   */
  datatype PoseWrite = NoPose | ThroughProperty(pose: AnimationState) | FieldOnly(pose: AnimationState)

  function ApplyWrite(v: HandlerView, w: PoseWrite): HandlerView
  {
    match w
    case NoPose => v
    case ThroughProperty(s) => PropertySet(v, s)
    case FieldOnly(s) => v.(state := s)
  }

  /** A Unity Animator, reduced to its named boolean parameters. */
  class Animator {
    var bools: map<string, bool>

    constructor ()
      ensures bools == map[]
    {
      bools := map[];
    }

    method SetBool(name: string, value: bool)
      modifies this
      ensures bools == old(bools)[name := value]
    {
      bools := bools[name := value];
    }
  }

  class AnimationHandler {
    const animator: Animator?
    var currentAnimationState: AnimationState
    var errorsLogged: nat

    constructor (animator: Animator?)
      ensures this.animator == animator
      ensures currentAnimationState == Idle && errorsLogged == 0
    {
      this.animator := animator;
      currentAnimationState := Idle;
      errorsLogged := 0;
    }

    ghost function View(): HandlerView
      reads this, animator
    {
      HandlerView(currentAnimationState, if animator == null then None else Some(animator.bools), errorsLogged)
    }

    /** The `CurrentState` getter. */
    function CurrentState(): AnimationState
      reads this
    {
      currentAnimationState
    }

    /** The `CurrentState` setter. */
    method SetCurrentState(value: AnimationState)
      modifies this, animator
      ensures View() == PropertySet(old(View()), value)
    {
      currentAnimationState := value;
      if animator != null {
        UpdateAnimator();
      } else {
        errorsLogged := errorsLogged + 1;
      }
    }

    method UpdateAnimator()
      requires animator != null
      modifies animator
      ensures animator.bools == AnimatorFlags(old(animator.bools), currentAnimationState)
    {
      match currentAnimationState
      case Idle =>
        ResetToIdle();
      case Passing =>
        ResetToIdle();
        animator.SetBool("Passing", true);
      case Running =>
        ResetToIdle();
        animator.SetBool("Running", true);
      case Walking =>
        ResetToIdle();
        animator.SetBool("Walking", true);
      case Waving =>
        ResetToIdle();
        animator.SetBool("Wave", true);
    }

    method ResetToIdle()
      requires animator != null
      modifies animator
      ensures animator.bools == Cleared(old(animator.bools))
    {
      animator.SetBool("Passing", false);
      animator.SetBool("Running", false);
      animator.SetBool("Wave", false);
      animator.SetBool("Walking", false);
    }
  }
}
