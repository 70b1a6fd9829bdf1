/** The onboarding step table (OnboardingStepsHandler): for each step number,
    whether it proceeds on its own and which collaborator calls it makes. The
    calls are returned, in order, as a list of actions. */
module OnboardingSteps {
  import OnboardingDialogue

  /** Which steps proceed automatically once their dialogue has finished. */
  const AutoProceedSteps: map<int, bool> := map[
    0 := true, 1 := true, 2 := true, 3 := false, 4 := true, 5 := true,
    6 := true, 7 := false, 8 := true, 9 := true, 10 := true, 11 := true,
    12 := false, 13 := true, 14 := false, 15 := false, 16 := false, 17 := true
  ]

  /** The steps that wait for the player (or for a scenario transition). */
  const ManualSteps: set<int> := {3, 7, 12, 14, 15, 16}

  /** The steps that save progress. */
  const SavingSteps: set<int> := {0, 2, 6, 9, 12, 16, 17}

  /** A call the handler makes on a collaborator. */
  datatype StepAction =
    | PlayDialogue(lineKey: string, autoProceed: bool)  // on the NPC instructor
    | SaveProgress                                      // the handler's own save
    | WaitForColliderTrigger                            // arms the onboarding trigger
    | ResetOnboarding                                   // on the onboarding controller

  function ShouldAutoProceed(step: int): (auto: bool)
    ensures auto <==> 0 <= step <= 17 && step !in ManualSteps
  {
    step in AutoProceedSteps && AutoProceedSteps[step]
  }

  /** ExecuteStep: the calls one step makes. Steps 0, 2, 6, 9, 12, 16 and 17
      save, step 3 arms the collider trigger, step 17 resets the onboarding
      controller, every step in 0..17 except 16 plays exactly one line with
      the step's auto-proceed flag, and any step number outside 0..17 makes
      no call. */
  function ExecuteStep(step: int): (calls: seq<StepAction>)
    ensures calls != [] <==> 0 <= step <= 17
    ensures 0 <= step <= 17 && step != 16 ==> calls[0].PlayDialogue?
    ensures step == 16 ==> forall a :: a in calls ==> !a.PlayDialogue?
    ensures step == 0 ==> calls[0].lineKey == "onboarding_interpreter_1a"
    ensures step == 17 ==> calls[0].lineKey == "onboarding_interpreter_5b_no"
    ensures forall i :: 0 < i < |calls| ==> !calls[i].PlayDialogue?
    ensures SaveProgress in calls <==> step in SavingSteps
    ensures WaitForColliderTrigger in calls <==> step == 3
    ensures ResetOnboarding in calls <==> step == 17
    ensures forall a :: a in calls && a.PlayDialogue? ==> a.autoProceed == ShouldAutoProceed(step)
  {
    var auto := ShouldAutoProceed(step);
    match step
    case 0 => [PlayDialogue("onboarding_interpreter_1a", auto), SaveProgress]
    case 1 => [PlayDialogue("onboarding_interpreter_1b", auto)]
    case 2 => [PlayDialogue("onboarding_interpreter_2a", auto), SaveProgress]
    case 3 => [PlayDialogue("onboarding_interpreter_2b", auto), WaitForColliderTrigger]
    case 4 => [PlayDialogue("onboarding_interpreter_2c", auto)]
    case 5 => [PlayDialogue("onboarding_interpreter_2d", auto)]
    case 6 => [PlayDialogue("onboarding_interpreter_3a", auto), SaveProgress]
    case 7 => [PlayDialogue("onboarding_interpreter_3b", auto)]
    case 8 => [PlayDialogue("onboarding_interpreter_3c", auto)]
    case 9 => [PlayDialogue("onboarding_interpreter_4a", auto), SaveProgress]
    case 10 => [PlayDialogue("onboarding_interpreter_4b", auto)]
    case 11 => [PlayDialogue("onboarding_interpreter_4c", auto)]
    case 12 => [PlayDialogue("onboarding_interpreter_5a", auto), SaveProgress]
    case 13 => [PlayDialogue("onboarding_interpreter_5b_yes", auto)]
    case 14 => [PlayDialogue("onboarding_interpreter_5c_yes", auto)]
    case 15 => [PlayDialogue("onboarding_interpreter_5d_yes", auto)]
    case 16 => [SaveProgress]
    case 17 => [PlayDialogue("onboarding_interpreter_5b_no", auto), ResetOnboarding, SaveProgress]
    case _ => []
  }

  /** The line a step plays, if any. */
  ghost predicate Plays(step: int, lineKey: string)
  {
    exists a :: a in ExecuteStep(step) && a == PlayDialogue(lineKey, ShouldAutoProceed(step))
  }

  /** Every line the handler plays is in the dialogue table, so the handler's
      lines never fall back to the missing-text placeholder. */
  lemma PlayedLinesHaveText(step: int)
    ensures forall a :: a in ExecuteStep(step) && a.PlayDialogue? ==>
      a.lineKey in OnboardingDialogue.TextLines &&
      OnboardingDialogue.GetText(a.lineKey) != OnboardingDialogue.MissingText
  {
  }

  /** A step whose first call plays the line plays it. */
  lemma PlaysFirst(step: int, lineKey: string)
    requires 0 <= step <= 17 && step != 16
    requires ExecuteStep(step)[0].lineKey == lineKey
    ensures Plays(step, lineKey)
  {
    var calls := ExecuteStep(step);
    assert calls[0] == PlayDialogue(lineKey, ShouldAutoProceed(step));
    assert calls[0] in calls;
  }

  /** The keys of the dialogue table. */
  lemma TableKeys(lineKey: string)
    requires lineKey in OnboardingDialogue.TextLines
    ensures
      lineKey == "onboarding_interpreter_1a" ||
      lineKey == "onboarding_interpreter_1b" ||
      lineKey == "onboarding_interpreter_2a" ||
      lineKey == "onboarding_interpreter_2b" ||
      lineKey == "onboarding_interpreter_2c" ||
      lineKey == "onboarding_interpreter_2d" ||
      lineKey == "onboarding_interpreter_3a" ||
      lineKey == "onboarding_interpreter_3b" ||
      lineKey == "onboarding_interpreter_3c" ||
      lineKey == "onboarding_interpreter_4a" ||
      lineKey == "onboarding_interpreter_4b" ||
      lineKey == "onboarding_interpreter_4c" ||
      lineKey == "onboarding_interpreter_5a" ||
      lineKey == "onboarding_interpreter_5b_yes" ||
      lineKey == "onboarding_interpreter_5c_yes" ||
      lineKey == "onboarding_interpreter_5d_yes" ||
      lineKey == "onboarding_interpreter_5b_no"
  {
  }

  /** The lines of the welcome section are played. */
  lemma WelcomeLinesArePlayed(lineKey: string)
    requires
      lineKey == "onboarding_interpreter_1a" ||
      lineKey == "onboarding_interpreter_1b"
    ensures exists step :: 0 <= step <= 17 && Plays(step, lineKey)
  {
    if lineKey == "onboarding_interpreter_1a" {
      PlaysFirst(0, lineKey);
    } else {
      PlaysFirst(1, lineKey);
    }
  }

  /** The lines of the movement section are played. */
  lemma MovementLinesArePlayed(lineKey: string)
    requires
      lineKey == "onboarding_interpreter_2a" ||
      lineKey == "onboarding_interpreter_2b" ||
      lineKey == "onboarding_interpreter_2c" ||
      lineKey == "onboarding_interpreter_2d"
    ensures exists step :: 0 <= step <= 17 && Plays(step, lineKey)
  {
    if lineKey == "onboarding_interpreter_2a" {
      PlaysFirst(2, lineKey);
    } else if lineKey == "onboarding_interpreter_2b" {
      PlaysFirst(3, lineKey);
    } else if lineKey == "onboarding_interpreter_2c" {
      PlaysFirst(4, lineKey);
    } else {
      PlaysFirst(5, lineKey);
    }
  }

  /** The lines of the grabbing section are played. */
  lemma GrabbingLinesArePlayed(lineKey: string)
    requires
      lineKey == "onboarding_interpreter_3a" ||
      lineKey == "onboarding_interpreter_3b" ||
      lineKey == "onboarding_interpreter_3c"
    ensures exists step :: 0 <= step <= 17 && Plays(step, lineKey)
  {
    if lineKey == "onboarding_interpreter_3a" {
      PlaysFirst(6, lineKey);
    } else if lineKey == "onboarding_interpreter_3b" {
      PlaysFirst(7, lineKey);
    } else {
      PlaysFirst(8, lineKey);
    }
  }

  /** The lines of the overview section are played. */
  lemma OverviewLinesArePlayed(lineKey: string)
    requires
      lineKey == "onboarding_interpreter_4a" ||
      lineKey == "onboarding_interpreter_4b" ||
      lineKey == "onboarding_interpreter_4c"
    ensures exists step :: 0 <= step <= 17 && Plays(step, lineKey)
  {
    if lineKey == "onboarding_interpreter_4a" {
      PlaysFirst(9, lineKey);
    } else if lineKey == "onboarding_interpreter_4b" {
      PlaysFirst(10, lineKey);
    } else {
      PlaysFirst(11, lineKey);
    }
  }

  /** The lines of the closing question and its answers are played. */
  lemma ClosingLinesArePlayed(lineKey: string)
    requires
      lineKey == "onboarding_interpreter_5a" ||
      lineKey == "onboarding_interpreter_5b_yes" ||
      lineKey == "onboarding_interpreter_5c_yes" ||
      lineKey == "onboarding_interpreter_5d_yes" ||
      lineKey == "onboarding_interpreter_5b_no"
    ensures exists step :: 0 <= step <= 17 && Plays(step, lineKey)
  {
    if lineKey == "onboarding_interpreter_5a" {
      PlaysFirst(12, lineKey);
    } else if lineKey == "onboarding_interpreter_5b_yes" {
      PlaysFirst(13, lineKey);
    } else if lineKey == "onboarding_interpreter_5c_yes" {
      PlaysFirst(14, lineKey);
    } else if lineKey == "onboarding_interpreter_5d_yes" {
      PlaysFirst(15, lineKey);
    } else {
      PlaysFirst(17, lineKey);
    }
  }

  /** Every line of the dialogue table is played by some step. */
  lemma EveryLineIsPlayed(lineKey: string)
    requires lineKey in OnboardingDialogue.TextLines
    ensures exists step :: 0 <= step <= 17 && Plays(step, lineKey)
  {
    TableKeys(lineKey);
    if lineKey == "onboarding_interpreter_1a" ||
       lineKey == "onboarding_interpreter_1b" {
      WelcomeLinesArePlayed(lineKey);
    } else if lineKey == "onboarding_interpreter_2a" ||
      lineKey == "onboarding_interpreter_2b" ||
      lineKey == "onboarding_interpreter_2c" ||
      lineKey == "onboarding_interpreter_2d" {
      MovementLinesArePlayed(lineKey);
    } else if lineKey == "onboarding_interpreter_3a" ||
      lineKey == "onboarding_interpreter_3b" ||
      lineKey == "onboarding_interpreter_3c" {
      GrabbingLinesArePlayed(lineKey);
    } else if lineKey == "onboarding_interpreter_4a" ||
      lineKey == "onboarding_interpreter_4b" ||
      lineKey == "onboarding_interpreter_4c" {
      OverviewLinesArePlayed(lineKey);
    } else {
      ClosingLinesArePlayed(lineKey);
    }
  }
}
