/**
 * Properties of the wall-climb transitions: what each one does, the
 * climbing-implies-selected invariant they keep, and what a run of
 * frames and "Climb" presses can reach.
 */
module ClimbProperties {
  import opened ClimbState

  // ---------------------------------------------------------------------
  // The movement mode is the last one set

  lemma ModeAfterSet(calls: seq<LocomotionCall>, m: MovementMode)
    ensures ModeAfter(calls + [SetMovementMode(m)]) == m
  {
  }

  lemma ModeAfterSetThenStop(calls: seq<LocomotionCall>, m: MovementMode)
    ensures ModeAfter(calls + [SetMovementMode(m), StopMovementImmediately]) == m
  {
    var log := calls + [SetMovementMode(m), StopMovementImmediately];
    assert log[..|log| - 1] == calls + [SetMovementMode(m)];
    ModeAfterSet(calls, m);
  }

  // ---------------------------------------------------------------------
  // Detach

  /** Detach always ends walking and not climbing, with the anim flag cleared when there is a controller. */
  lemma DetachWalks(s: CharacterState)
    ensures var r := DetachSpec(s);
      && !r.isClimbing && Mode(r) == Walking
      && (s.hasAnimController ==> !r.animIsClimbing)
      && (!s.hasAnimController ==> r.animIsClimbing == s.animIsClimbing)
      && r.selectedWall == s.selectedWall && r.prompt == s.prompt
  {
    ModeAfterSet(s.locomotion, Walking);
  }

  /** Detaching a second time changes nothing an observer can see. */
  lemma DetachIdempotent(s: CharacterState)
    ensures Observe(DetachSpec(DetachSpec(s))) == Observe(DetachSpec(s))
  {
    ModeAfterSet(s.locomotion, Walking);
    ModeAfterSet(DetachSpec(s).locomotion, Walking);
  }

  lemma DetachPreservesInv(s: CharacterState)
    requires Inv(s)
    ensures Inv(DetachSpec(s))
  {
    ModeAfterSet(s.locomotion, Walking);
  }

  // ---------------------------------------------------------------------
  // ShowPrompt

  /** ShowPrompt always selects the new wall and shows "E - Climb" exactly when there is a widget and no climbing. */
  lemma ShowPromptSelects(s: CharacterState, newWall: Option<WallId>)
    ensures var r := ShowPromptSpec(s, newWall);
      && r.selectedWall == newWall
      && r.isClimbing == s.isClimbing && r.locomotion == s.locomotion
      && r.animIsClimbing == s.animIsClimbing
      && r.prompt == (if s.hasWidget && !s.isClimbing then Some(ClimbText) else s.prompt)
  {
  }

  /** With a non-null wall ShowPrompt keeps the invariant. */
  lemma ShowPromptPreservesInv(s: CharacterState, w: WallId)
    requires Inv(s)
    ensures Inv(ShowPromptSpec(s, Some(w)))
  {
  }

  /** With a null wall it need not: "E - Climb" is then shown with nothing selected. */
  lemma ShowPromptNullBreaksInv()
    ensures Inv(Initial(true, false)) && !Inv(ShowPromptSpec(Initial(true, false), None))
  {
    assert ShowPromptSpec(Initial(true, false), None).prompt == Some(ClimbText);
  }

  // ---------------------------------------------------------------------
  // HidePrompt

  /** HidePrompt does nothing without a selection; otherwise it releases the wall and the prompt. */
  lemma HidePromptReleases(s: CharacterState)
    requires Inv(s)
    ensures var r := HidePromptSpec(s);
      && (s.selectedWall == None ==> r == s)
      && r.selectedWall == None && !r.isClimbing
      && (s.isClimbing ==> Mode(r) == Walking)
      && (!s.isClimbing ==> Mode(r) == Mode(s))
      && r.prompt == None
      && (s.hasAnimController ==> !r.animIsClimbing)
      && Inv(r)
  {
    if s.selectedWall.Some? && s.isClimbing {
      ModeAfterSet(s.locomotion, Walking);
    }
  }

  // ---------------------------------------------------------------------
  // WallAttach

  /** While climbing, WallAttach shows "E - Attach" and detaches, keeping the selection. */
  lemma AttachWhileClimbingDetaches(s: CharacterState)
    requires Inv(s) && s.isClimbing && s.hasWidget
    ensures var r := WallAttachSpec(s);
      && !r.isClimbing && Mode(r) == Walking
      && r.prompt == Some(AttachText)
      && r.selectedWall == s.selectedWall
      && (s.hasAnimController ==> !r.animIsClimbing)
      && Inv(r)
  {
    ModeAfterSet(s.locomotion, Walking);
  }

  /** Not climbing with a selected wall, WallAttach climbs: flying, stopped, "E - Detach". */
  lemma AttachWithWallClimbs(s: CharacterState)
    requires Inv(s) && !s.isClimbing && s.selectedWall.Some? && s.hasWidget
    ensures var r := WallAttachSpec(s);
      && r.isClimbing && Mode(r) == Flying
      && r.locomotion == s.locomotion + [SetMovementMode(Flying), StopMovementImmediately]
      && r.prompt == Some(DetachText)
      && r.selectedWall == s.selectedWall
      && (s.hasAnimController ==> r.animIsClimbing)
      && Inv(r)
  {
    ModeAfterSetThenStop(s.locomotion, Flying);
  }

  /** Not climbing and nothing selected, WallAttach changes nothing (and needs no widget). */
  lemma AttachWithoutWallIsNoOp(s: CharacterState)
    requires !s.isClimbing && s.selectedWall == None
    ensures WallAttachSpec(s) == s
  {
  }

  /** Pressing "Climb" twice at a selected wall returns to walking on the same wall, with "E - Attach" shown. */
  lemma AttachToggleRoundTrip(s: CharacterState)
    requires Inv(s) && !s.isClimbing && s.selectedWall.Some? && s.hasWidget
    ensures var r := WallAttachSpec(WallAttachSpec(s));
      && !r.isClimbing && Mode(r) == Walking
      && r.selectedWall == s.selectedWall
      && r.animIsClimbing == s.animIsClimbing
      && r.prompt == Some(AttachText)
  {
    AttachWithWallClimbs(s);
    AttachWhileClimbingDetaches(WallAttachSpec(s));
  }

  /** The prompt widget is needed: without it, pressing "Climb" at a selected wall faults. */
  lemma AttachWithoutWidgetFaults(w: WallId, anim: bool)
    ensures Run(Initial(false, anim), [Frame(HitWall(w)), ClimbPressed]) == None
  {
    var s1 := TickSpec(Initial(false, anim), HitWall(w));
    assert s1.selectedWall == Some(w);
    assert Step(s1, ClimbPressed) == None;
    assert [Frame(HitWall(w)), ClimbPressed][1..] == [ClimbPressed];
  }

  // ---------------------------------------------------------------------
  // Tick

  /** A probe that finds what is already selected (a null cast against a null selection included) changes nothing. */
  lemma TickSameTargetNoChange(s: CharacterState, probe: Probe)
    requires (probe.HitWall? && s.selectedWall == Some(probe.wall))
          || (probe == HitNonWall && s.selectedWall == None)
    ensures TickSpec(s, probe) == s
  {
  }

  /** A probe that finds a different climbable wall selects it and leaves climbing as it was. */
  lemma TickNewWallSelects(s: CharacterState, w: WallId)
    requires s.selectedWall != Some(w)
    ensures var r := TickSpec(s, HitWall(w));
      && r.selectedWall == Some(w)
      && r.isClimbing == s.isClimbing && Mode(r) == Mode(s)
      && r.prompt == (if s.hasWidget && !s.isClimbing then Some(ClimbText) else s.prompt)
  {
  }

  /** A miss, or a non-wall hit while a wall is selected, releases the wall and ends climbing. */
  lemma TickLostWallReleases(s: CharacterState, probe: Probe)
    requires Inv(s)
    requires probe == NoHit || (probe == HitNonWall && s.selectedWall.Some?)
    ensures var r := TickSpec(s, probe);
      && r.selectedWall == None && !r.isClimbing && r.prompt == None
      && (s.isClimbing ==> Mode(r) == Walking)
      && (!s.isClimbing ==> Mode(r) == Mode(s))
  {
    HidePromptReleases(s);
  }

  lemma TickPreservesInv(s: CharacterState, probe: Probe)
    requires Inv(s)
    ensures Inv(TickSpec(s, probe))
  {
    match probe
    case HitWall(w) =>
      if Some(w) != s.selectedWall {
        ShowPromptPreservesInv(s, w);
      }
    case HitNonWall =>
      HidePromptReleases(s);
    case NoHit =>
      HidePromptReleases(s);
  }

  // ---------------------------------------------------------------------
  // Runs of frames and "Climb" presses

  lemma StepPreservesInv(s: CharacterState, input: Input)
    requires Inv(s)
    ensures Step(s, input).Some? ==> Inv(Step(s, input).value)
  {
    match input
    case Frame(p) =>
      TickPreservesInv(s, p);
    case ClimbPressed =>
      if s.isClimbing && s.hasWidget {
        AttachWhileClimbingDetaches(s);
      } else if !s.isClimbing && s.selectedWall.Some? && s.hasWidget {
        AttachWithWallClimbs(s);
      }
  }

  /** Every state a run reaches from a valid state is valid: climbing always has a selected wall. */
  lemma {:induction false} RunPreservesInv(s: CharacterState, inputs: seq<Input>)
    requires Inv(s)
    ensures Run(s, inputs).Some? ==> Inv(Run(s, inputs).value)
    decreases |inputs|
  {
    if inputs != [] {
      StepPreservesInv(s, inputs[0]);
      if Step(s, inputs[0]).Some? {
        RunPreservesInv(Step(s, inputs[0]).value, inputs[1..]);
      }
    }
  }

  /** From the initial state, every reachable state that climbs has a wall selected and is flying. */
  lemma ReachableClimbingHasWall(hasWidget: bool, hasAnim: bool, inputs: seq<Input>)
    ensures var r := Run(Initial(hasWidget, hasAnim), inputs);
      r.Some? && r.value.isClimbing ==> r.value.selectedWall.Some? && Mode(r.value) == Flying
  {
    RunPreservesInv(Initial(hasWidget, hasAnim), inputs);
  }

  /** With a prompt widget, no run faults. */
  lemma {:induction false} RunWithWidgetNeverFaults(s: CharacterState, inputs: seq<Input>)
    requires s.hasWidget
    ensures Run(s, inputs).Some?
    decreases |inputs|
  {
    if inputs != [] {
      var t := Step(s, inputs[0]);
      assert t.Some? && t.value.hasWidget;
      RunWithWidgetNeverFaults(t.value, inputs[1..]);
    }
  }

  /** Seeing a wall, climbing it and letting go of it. */
  lemma ClimbScenario(w: WallId, anim: bool)
    ensures var s0 := Initial(true, anim);
      var s1 := TickSpec(s0, HitWall(w));
      var s2 := WallAttachSpec(s1);
      var s3 := WallAttachSpec(s2);
      && s1.prompt == Some(ClimbText) && !s1.isClimbing
      && s2.isClimbing && Mode(s2) == Flying && s2.prompt == Some(DetachText)
      && !s3.isClimbing && Mode(s3) == Walking && s3.prompt == Some(AttachText)
  {
    var s1 := TickSpec(Initial(true, anim), HitWall(w));
    assert Inv(s1);
    AttachToggleRoundTrip(s1);
    AttachWithWallClimbs(s1);
  }
}
