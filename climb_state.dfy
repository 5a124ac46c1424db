/**
 * The wall-climb state of AWallClimbJumpCharacter as a value, and the
 * transitions its member functions perform on it.
 *
 * Engine collaborators are reduced to what the character observes of them:
 *  - the forward line trace is an input (a Probe);
 *  - the character movement component is the log of calls made to it;
 *  - the prompt widget is the text it currently shows;
 *  - the prompt widget and the anim instance are either present or absent.
 */
module ClimbState {

  datatype Option<+T> = None | Some(value: T)

  /** Identity of an AClimbableWall actor. */
  type WallId = nat

  datatype MovementMode = Walking | Flying

  /** A call made to the character movement component. */
  datatype LocomotionCall =
    | SetMovementMode(mode: MovementMode)
    | StopMovementImmediately

  /** Outcome of the forward line trace on the static-world channel. */
  datatype Probe =
    | NoHit                  // the trace hit nothing
    | HitNonWall             // it hit an actor that is not a climbable wall
    | HitWall(wall: WallId)  // it hit a climbable wall

  const ClimbText: string := "E - Climb"
  const AttachText: string := "E - Attach"
  const DetachText: string := "E - Detach"

  datatype CharacterState = CharacterState(
    selectedWall: Option<WallId>,
    isClimbing: bool,
    locomotion: seq<LocomotionCall>,
    animIsClimbing: bool,
    prompt: Option<string>,
    hasWidget: bool,
    hasAnimController: bool
  )

  /** The state right after BeginPlay: nothing selected, walking, no prompt. */
  function Initial(hasWidget: bool, hasAnimController: bool): CharacterState
  {
    CharacterState(None, false, [], false, None, hasWidget, hasAnimController)
  }

  /** The movement mode in force after the given calls: the last mode set, Walking before any. */
  function ModeAfter(calls: seq<LocomotionCall>): MovementMode
  {
    if calls == [] then Walking
    else match calls[|calls| - 1]
      case SetMovementMode(m) => m
      case StopMovementImmediately => ModeAfter(calls[..|calls| - 1])
  }

  function Mode(s: CharacterState): MovementMode
  {
    ModeAfter(s.locomotion)
  }

  /**
   * The invariant of the climb toggle: climbing needs a selected wall and the
   * flying mode, and the anim flag and the prompt agree with the climbing flag.
   * Out of climbing the movement mode is whatever it was: the toggle does not set it.
   */
  predicate Inv(s: CharacterState)
  {
    && (s.isClimbing ==> s.selectedWall.Some?)
    && (s.isClimbing ==> Mode(s) == Flying)
    && (s.hasAnimController ==> s.animIsClimbing == s.isClimbing)
    && (!s.hasWidget ==> s.prompt == None)
    && (s.selectedWall == None ==> s.prompt == None)
    && (s.isClimbing && s.hasWidget ==> s.prompt == Some(DetachText))
  }

  /** Detach: clear the anim flag if there is an anim controller, walk, stop climbing. */
  function DetachSpec(s: CharacterState): CharacterState
  {
    s.(animIsClimbing := if s.hasAnimController then false else s.animIsClimbing,
       locomotion := s.locomotion + [SetMovementMode(Walking)],
       isClimbing := false)
  }

  /** ShowPrompt(newWall): select the wall; show "E - Climb" only with a widget and when not climbing. */
  function ShowPromptSpec(s: CharacterState, newWall: Option<WallId>): CharacterState
  {
    var s1 := s.(selectedWall := newWall);
    if !s1.hasWidget || s1.isClimbing then s1
    else s1.(prompt := Some(ClimbText))
  }

  /** HidePrompt(): with a wall selected, drop it, detach if climbing, hide the prompt if there is a widget. */
  function HidePromptSpec(s: CharacterState): CharacterState
  {
    if s.selectedWall == None then s
    else
      var s1 := s.(selectedWall := None);
      var s2 := if s1.isClimbing then DetachSpec(s1) else s1;
      if !s2.hasWidget then s2
      else s2.(prompt := None)
  }

  /** WallAttach dereferences the prompt widget without checking it in these states. */
  predicate AttachUsesWidget(s: CharacterState)
  {
    s.isClimbing || s.selectedWall.Some?
  }

  /** WallAttach(): toggle climbing on the selected wall. */
  function WallAttachSpec(s: CharacterState): CharacterState
    requires AttachUsesWidget(s) ==> s.hasWidget
  {
    if s.isClimbing then
      DetachSpec(s.(prompt := Some(AttachText)))
    else if s.selectedWall.Some? then
      s.(animIsClimbing := if s.hasAnimController then true else s.animIsClimbing,
         isClimbing := true,
         locomotion := s.locomotion + [SetMovementMode(Flying), StopMovementImmediately],
         prompt := Some(DetachText))
    else s
  }

  /** Tick(): classify the forward probe and select or release a wall. */
  function TickSpec(s: CharacterState, probe: Probe): CharacterState
  {
    match probe
    case HitWall(w) =>
      if Some(w) == s.selectedWall then s
      else ShowPromptSpec(s, Some(w))
    case HitNonWall =>
      // the failed cast yields null, which equals a null selection
      if s.selectedWall == None then s
      else HidePromptSpec(s)
    case NoHit =>
      HidePromptSpec(s)
  }

  /** The events that change the climb state: a frame's probe and the "Climb" action. */
  datatype Input = Frame(probe: Probe) | ClimbPressed

  /** One event; None when WallAttach would dereference a missing prompt widget. */
  function Step(s: CharacterState, input: Input): Option<CharacterState>
  {
    match input
    case Frame(p) => Some(TickSpec(s, p))
    case ClimbPressed =>
      if AttachUsesWidget(s) && !s.hasWidget then None
      else Some(WallAttachSpec(s))
  }

  /** A sequence of events; None as soon as one of them faults. */
  function Run(s: CharacterState, inputs: seq<Input>): Option<CharacterState>
    decreases |inputs|
  {
    if inputs == [] then Some(s)
    else match Step(s, inputs[0])
      case None => None
      case Some(t) => Run(t, inputs[1..])
  }

  /** What an observer of the character sees: selection, climbing, mode, anim flag, prompt. */
  function Observe(s: CharacterState): (Option<WallId>, bool, MovementMode, bool, Option<string>)
  {
    (s.selectedWall, s.isClimbing, Mode(s), s.animIsClimbing, s.prompt)
  }
}
