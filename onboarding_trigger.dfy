/** The highlighted area of the onboarding (OnboardingTrigger): a one-shot
    trigger that advances the onboarding when the player walks into it. */
module OnboardingTriggers {
  import opened Onboarding

  const PlayerTag := "Player"

  class OnboardingTrigger {
    const onboardingController: OnboardingController
    /** Whether the trigger's game object is active. */
    var active: bool

    constructor (onboardingController: OnboardingController)
      ensures this.onboardingController == onboardingController && active
    {
      this.onboardingController := onboardingController;
      active := true;
    }

    /** The engine delivers trigger entries only to active objects. A player
        entry advances the controller by exactly one ProceedToNextStep and
        deactivates the trigger, so each activation advances it at most once;
        any other entry changes nothing. */
    method OnTriggerEnter(otherTag: string)
      requires active
      modifies this, onboardingController, onboardingController.prefs, onboardingController.instructorNPC
      ensures otherTag == PlayerTag ==>
        !active &&
        onboardingController.State() == Proceed(old(onboardingController.State()))
      ensures otherTag == PlayerTag && 0 <= old(onboardingController.currentStep) < FinalStep ==>
        onboardingController.instructorNPC.played ==
          old(onboardingController.instructorNPC.played) + [InstructorLine(old(onboardingController.currentStep))] &&
        onboardingController.prefs.entries ==
          Saved(old(onboardingController.prefs.entries), old(onboardingController.State()))
      ensures otherTag == PlayerTag && old(onboardingController.currentStep) == FinalStep ==>
        onboardingController.instructorNPC.played == old(onboardingController.instructorNPC.played) &&
        onboardingController.prefs.entries ==
          Saved(old(onboardingController.prefs.entries), onboardingController.State()) &&
        onboardingController.onboardingCompleted
      ensures otherTag == PlayerTag && !(0 <= old(onboardingController.currentStep) <= FinalStep) ==>
        unchanged(onboardingController.prefs, onboardingController.instructorNPC)
      ensures otherTag != PlayerTag ==>
        active &&
        unchanged(onboardingController, onboardingController.prefs, onboardingController.instructorNPC)
    {
      if otherTag == PlayerTag {
        onboardingController.ProceedToNextStep();
        active := false;
      }
    }
  }
}
