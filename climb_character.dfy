/**
 * AWallClimbJumpCharacter's wall-climb toggle as an object whose member
 * functions update its fields in place. Each method is specified by the
 * transition of ClimbState it performs, and keeps Valid(): in particular
 * climbing implies a selected wall, which is what makes the climbing
 * branches of MoveForward and MoveRight safe.
 */
module ClimbCharacter {
  import opened ClimbState
  import ClimbProperties

  /** A direction handed to AddMovementInput. */
  datatype Direction =
    | ActorUp              // the character's up vector (climbing up and down)
    | ActorRight           // the character's right vector (climbing sideways)
    | ControlYawForward    // the controller's yaw-only forward axis
    | ControlYawRight      // the controller's yaw-only right axis

  /** What a move handler asks of the engine for one axis value. */
  datatype MoveCommand =
    | Ignored
      // rotate to the wall, then move along the character's own axis
    | ClimbMove(alignTo: WallId, direction: Direction, scale: real)
    | WalkMove(direction: Direction, scale: real)

  class Character {
    var selectedWall: Option<WallId>
    var isClimbing: bool
    var locomotion: seq<LocomotionCall>  // calls made to the character movement component
    var animIsClimbing: bool             // the anim instance's climbing flag
    var prompt: Option<string>           // the text the prompt widget shows
    const hasWidget: bool
    const hasAnimController: bool

    ghost function State(): CharacterState
      reads this
    {
      CharacterState(selectedWall, isClimbing, locomotion, animIsClimbing, prompt,
                     hasWidget, hasAnimController)
    }

    ghost predicate Valid()
      reads this
    {
      Inv(State())
    }

    /** The character as BeginPlay leaves it, with or without a widget and an anim instance. */
    constructor (hasWidget: bool, hasAnimController: bool)
      ensures State() == Initial(hasWidget, hasAnimController)
      ensures Valid()
    {
      this.hasWidget := hasWidget;
      this.hasAnimController := hasAnimController;
      selectedWall := None;
      isClimbing := false;
      locomotion := [];
      animIsClimbing := false;
      prompt := None;
    }

    /** Stop climbing. Callers may be midway through an update, so Valid() is not required. */
    method Detach()
      modifies this
      ensures State() == DetachSpec(old(State()))
      ensures !isClimbing && Mode(State()) == Walking
    {
      ClimbProperties.DetachWalks(State());
      if hasAnimController {
        animIsClimbing := false;
      }
      locomotion := locomotion + [SetMovementMode(Walking)];
      isClimbing := false;
    }

    /** The "Climb" action. The prompt widget is used without a check whenever there is something to toggle. */
    method WallAttach()
      requires Valid()
      requires AttachUsesWidget(State()) ==> hasWidget
      modifies this
      ensures State() == WallAttachSpec(old(State()))
      ensures Valid()
    {
      if isClimbing {
        ClimbProperties.AttachWhileClimbingDetaches(State());
        prompt := Some(AttachText);
        Detach();
      } else if selectedWall.Some? {
        ClimbProperties.AttachWithWallClimbs(State());
        if hasAnimController {
          animIsClimbing := true;
        }
        isClimbing := true;
        locomotion := locomotion + [SetMovementMode(Flying)];
        locomotion := locomotion + [StopMovementImmediately];
        prompt := Some(DetachText);
      }
    }

    /** Select a wall; offer to climb it unless already climbing. Valid() survives when the wall is non-null. */
    method ShowPrompt(newWall: Option<WallId>)
      requires Valid()
      modifies this
      ensures State() == ShowPromptSpec(old(State()), newWall)
      ensures newWall.Some? ==> Valid()
    {
      if newWall.Some? {
        ClimbProperties.ShowPromptPreservesInv(State(), newWall.value);
      }
      selectedWall := newWall;
      if !hasWidget || isClimbing {
        return;
      }
      prompt := Some(ClimbText);
    }

    /** Let go of the selected wall: detach if climbing, hide the prompt. */
    method HidePrompt()
      requires Valid()
      modifies this
      ensures State() == HidePromptSpec(old(State()))
      ensures Valid() && selectedWall == None && !isClimbing
    {
      ClimbProperties.HidePromptReleases(State());
      if selectedWall == None {
        return;
      }
      selectedWall := None;
      if isClimbing {
        Detach();
      }
      if !hasWidget {
        return;
      }
      prompt := None;
    }

    /** One frame, given the outcome of the forward line trace. */
    method Tick(probe: Probe)
      requires Valid()
      modifies this
      ensures State() == TickSpec(old(State()), probe)
      ensures Valid()
    {
      if probe != NoHit {
        var hitWall := if probe.HitWall? then Some(probe.wall) else None;
        if hitWall == selectedWall {
          return;
        }
        if hitWall.Some? {
          ShowPrompt(hitWall);
          return;
        }
      }
      HidePrompt();
    }

    /** The forward axis: climb along the wall while climbing, walk forward otherwise. */
    method MoveForward(value: real, hasController: bool) returns (command: MoveCommand)
      requires Valid()
      ensures command == Ignored <==> !hasController || value == 0.0
      ensures hasController && value != 0.0 && isClimbing ==>
                selectedWall.Some? && command == ClimbMove(selectedWall.value, ActorUp, value)
      ensures hasController && value != 0.0 && !isClimbing ==>
                command == WalkMove(ControlYawForward, value)
    {
      command := Ignored;
      if hasController && value != 0.0 {
        if isClimbing {
          command := ClimbMove(selectedWall.value, ActorUp, value);
        } else {
          command := WalkMove(ControlYawForward, value);
        }
      }
    }

    /** The right axis: climb sideways along the wall while climbing, strafe otherwise. */
    method MoveRight(value: real, hasController: bool) returns (command: MoveCommand)
      requires Valid()
      ensures command == Ignored <==> !hasController || value == 0.0
      ensures hasController && value != 0.0 && isClimbing ==>
                selectedWall.Some? && command == ClimbMove(selectedWall.value, ActorRight, value)
      ensures hasController && value != 0.0 && !isClimbing ==>
                command == WalkMove(ControlYawRight, value)
    {
      command := Ignored;
      if hasController && value != 0.0 {
        if isClimbing {
          command := ClimbMove(selectedWall.value, ActorRight, value);
        } else {
          command := WalkMove(ControlYawRight, value);
        }
      }
    }
  }
}
