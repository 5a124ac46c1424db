# Wall-climb toggle of the WallClimbJump character

A Dafny model of the wall-climb state machine of `AWallClimbJumpCharacter`
(an Unreal Engine third-person character). Each frame the character traces a
short line forward. A climbable wall it hits becomes the selected wall and
brings up the "E - Climb" prompt. Losing the wall releases it, and detaches if
the character was climbing. The "Climb" action toggles climbing on the
selected wall. Climbing switches the movement component to flying, stops the
character and shows "E - Detach". Toggling off shows "E - Attach" and returns
to walking. While climbing, the forward and right axes move the character up
and sideways along the selected wall instead of along the camera's yaw.

The project has three modules:

- `ClimbState` (`climb_state.dfy`) holds the character's climb state as a value (`CharacterState`).
  - It has one function per member function of the character (`TickSpec`, `ShowPromptSpec`, `HidePromptSpec`, `DetachSpec`, `WallAttachSpec`).
  - It has the invariant `Inv`: climbing implies a selected wall and the flying mode, and the anim flag and the prompt agree with the climbing flag. Out of climbing the toggle leaves the movement mode alone, so `Inv` says nothing about it there.
  - It has `Run`, which runs a sequence of frames and "Climb" presses.
- `ClimbProperties` (`climb_properties.dfy`) proves what each transition does, that every transition keeps `Inv`, and what runs can reach.
- `ClimbCharacter` (`climb_character.dfy`) is the character as a class whose methods update its fields in place.
  - Each method is specified by the `ClimbState` transition it performs, and keeps `Valid()`.
  - The move handlers return the command they hand to the engine.

Engine collaborators become plain data:
- The forward line trace is an input `Probe`: `NoHit`, `HitNonWall` or `HitWall(id)`.
- The character movement component is the log of calls made to it (`SetMovementMode`, `StopMovementImmediately`). The current mode is the last mode set, and `Walking` before any call.
- The prompt widget is the text it currently shows. Hiding it leaves no text.
- Whether the prompt widget, the anim instance and the possessing controller exist are booleans.

The unchecked `promptWidget` dereferences in `WallAttach` become a precondition of `Character.WallAttach`. In `Run` they are an error path: `None` means the null dereference happened.

Toggling climbing off shows "E - Attach" (cpp:146); it does not clear the prompt.

## Model

| member | source | states |
|---|---|---|
| ClimbCharacter.Character.constructor | Source/WallClimbJump/WallClimbJumpCharacter.cpp:59-74 | after BeginPlay nothing is selected, the character walks, shows no prompt, and the invariant holds, with or without widget and anim instance |
| ClimbCharacter.Character.Tick | Source/WallClimbJump/WallClimbJumpCharacter.cpp:76-99 | performs `TickSpec` on the fields in place and keeps the climbing-implies-selected invariant |
| ClimbCharacter.Character.ShowPrompt | Source/WallClimbJump/WallClimbJumpCharacter.cpp:163-173 | performs `ShowPromptSpec` in place; the invariant survives when the wall passed in is non-null |
| ClimbCharacter.Character.HidePrompt | Source/WallClimbJump/WallClimbJumpCharacter.cpp:175-196 | performs `HidePromptSpec` in place; afterwards nothing is selected, the character is not climbing, and the invariant holds |
| ClimbCharacter.Character.Detach | Source/WallClimbJump/WallClimbJumpCharacter.cpp:132-140 | performs `DetachSpec` in place; afterwards the character is not climbing and walks; it needs no invariant, because HidePrompt calls it mid-update |
| ClimbCharacter.Character.WallAttach | Source/WallClimbJump/WallClimbJumpCharacter.cpp:142-161 | performs `WallAttachSpec` in place and keeps the invariant; it needs the prompt widget whenever it climbs or detaches, because the widget is dereferenced unchecked there |
| ClimbCharacter.Character.MoveForward | Source/WallClimbJump/WallClimbJumpCharacter.cpp:225-245 | ignored exactly when there is no controller or the value is 0; while climbing it aligns to the selected wall, which the invariant guarantees exists, and moves along the actor's up axis; otherwise it moves along the controller's yaw-forward axis |
| ClimbCharacter.Character.MoveRight | Source/WallClimbJump/WallClimbJumpCharacter.cpp:247-267 | ignored exactly when there is no controller or the value is 0; while climbing it aligns to the selected wall, which must exist, and moves along the actor's right axis; otherwise it moves along the controller's yaw-right axis |
| ClimbProperties.ModeAfterSetThenStop | Source/WallClimbJump/WallClimbJumpCharacter.cpp:156-157 | stopping the movement after setting flying leaves the mode flying |
| ClimbProperties.DetachWalks | Source/WallClimbJump/WallClimbJumpCharacter.cpp:134-139 | Detach ends not climbing and walking; it clears the anim flag exactly when an anim controller exists; selection and prompt are untouched |
| ClimbProperties.DetachIdempotent | Source/WallClimbJump/WallClimbJumpCharacter.cpp:132-140 | a second Detach changes nothing observable: selection, climbing, mode, anim flag and prompt stay the same |
| ClimbProperties.DetachPreservesInv | Source/WallClimbJump/WallClimbJumpCharacter.cpp:132-140 | Detach keeps the invariant |
| ClimbProperties.ShowPromptSelects | Source/WallClimbJump/WallClimbJumpCharacter.cpp:165-172 | ShowPrompt always records the new wall; "E - Climb" is shown only with a widget and when not climbing, otherwise the prompt is untouched; climbing, movement and anim flag are unchanged |
| ClimbProperties.ShowPromptPreservesInv | Source/WallClimbJump/WallClimbJumpCharacter.cpp:163-173 | ShowPrompt with a non-null wall keeps the invariant |
| ClimbProperties.ShowPromptNullBreaksInv | Source/WallClimbJump/WallClimbJumpCharacter.cpp:165-172 | with a null wall, ShowPrompt can show "E - Climb" with nothing selected, so the non-null argument from Tick is needed |
| ClimbProperties.HidePromptReleases | Source/WallClimbJump/WallClimbJumpCharacter.cpp:181-195 | HidePrompt is a no-op without a selection; otherwise the selection is cleared and climbing ends; the mode becomes walking if the character was climbing and is untouched otherwise; the anim flag is cleared, no prompt is shown, and the invariant holds |
| ClimbProperties.AttachWhileClimbingDetaches | Source/WallClimbJump/WallClimbJumpCharacter.cpp:144-148 | WallAttach while climbing shows "E - Attach" and detaches to walking, keeping the selected wall |
| ClimbProperties.AttachWithWallClimbs | Source/WallClimbJump/WallClimbJumpCharacter.cpp:149-160 | WallAttach with a selected wall and not climbing enters climbing: it sets flying then stops the movement, shows "E - Detach", raises the anim flag when there is an anim controller, and keeps the invariant |
| ClimbProperties.AttachWithoutWallIsNoOp | Source/WallClimbJump/WallClimbJumpCharacter.cpp:142-161 | WallAttach with no selected wall and not climbing changes nothing |
| ClimbProperties.AttachToggleRoundTrip | Source/WallClimbJump/WallClimbJumpCharacter.cpp:142-161 | two WallAttach presses at a selected wall return to walking on the same wall with the original anim flag, and "E - Attach" is shown |
| ClimbProperties.AttachWithoutWidgetFaults | Source/WallClimbJump/WallClimbJumpCharacter.cpp:142-161 | without a prompt widget, a frame that finds a wall followed by a "Climb" press reaches the unchecked widget dereference |
| ClimbProperties.TickSameTargetNoChange | Source/WallClimbJump/WallClimbJumpCharacter.cpp:84-90 | a probe that hits the selected wall changes nothing; so does a non-wall hit while nothing is selected |
| ClimbProperties.TickNewWallSelects | Source/WallClimbJump/WallClimbJumpCharacter.cpp:91-96 | a probe that hits a different climbable wall selects it; climbing and movement mode are unchanged; "E - Climb" is shown only with a widget and when not climbing |
| ClimbProperties.TickLostWallReleases | Source/WallClimbJump/WallClimbJumpCharacter.cpp:84-98 | a miss, or a non-wall hit while a wall is selected, ends with nothing selected, not climbing and no prompt; the mode becomes walking if the character was climbing and is untouched otherwise |
| ClimbProperties.TickPreservesInv | Source/WallClimbJump/WallClimbJumpCharacter.cpp:76-99 | Tick keeps the invariant for every probe outcome |
| ClimbProperties.StepPreservesInv | Source/WallClimbJump/WallClimbJumpCharacter.cpp:76-161 | a frame or a "Climb" press that does not fault keeps the invariant |
| ClimbProperties.RunPreservesInv | Source/WallClimbJump/WallClimbJumpCharacter.cpp:76-161 | every state reached by a run of frames and presses from a valid state is valid |
| ClimbProperties.ReachableClimbingHasWall | Source/WallClimbJump/WallClimbJumpCharacter.cpp:225-257 | in every reachable climbing state a wall is selected and the mode is flying, so the climbing branches of the move handlers dereference a non-null wall |
| ClimbProperties.RunWithWidgetNeverFaults | Source/WallClimbJump/WallClimbJumpCharacter.cpp:142-161 | with a prompt widget no sequence of frames and "Climb" presses faults |
| ClimbProperties.ClimbScenario | Source/WallClimbJump/WallClimbJumpCharacter.cpp:76-161 | seeing a wall shows "E - Climb"; one press climbs, flying, with "E - Detach"; a second press walks again with "E - Attach" |

## Left out

- Constructor tuning and the camera rig (cpp:19-57) hold engine configuration constants and no logic.
- The widget and anim-instance creation in BeginPlay (cpp:59-74) is engine object creation. The model keeps only whether each object exists.
- The line trace and the debug line (cpp:83-84) are a physics query. The model takes the trace's outcome as an input.
- `Tick`'s `DeltaTime` is not used by the modelled logic.
- Vector and rotator math in the move handlers is left out, and so are `TurnAtRate` and `LookUpAtRate` (cpp:213-223). This is floating-point geometry and engine calls. The model keeps the branch choice, the axis used and the "value is not 0" guard. `SetActorRotation` to the selected wall's rotation is the `alignTo` field of `ClimbMove`.
- Input binding, touch and VR reset (cpp:104-130, 198-211) are plumbing.
- Engine-driven movement-mode changes are not modelled. Falling after a jump and landing are examples. The movement mode is changed only by the modelled functions, and no modelled property depends on the mode while not climbing.
- Ledge holding, grapple, rotation to a surface normal, `WallDetected`, `WallUndetected` and prompt deduplication by `CurrentPrompt` are only declared in `WallClimbJumpCharacter.h`. No bodies for them exist in the modelled code, so they are not part of this model.
- `ClimbableWall.cpp` overlap events are not part of this model. They call a no-argument `ShowPrompt` that the modelled character does not have.
- The widget's own presentation is not part of this model: it is a blueprint event. Showing sets the displayed text; hiding clears it.
- The `UE_LOG` call at cpp:94 is logging only and has no effect on the state.
- The axis `Value` is a `float` in the source and a `real` here. A NaN value cannot be represented. For NaN, `Value != 0.0f` is true, so the source would issue a move command.
