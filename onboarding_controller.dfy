/** The four-step onboarding sequence (OnboardingController) and its progress
    in PlayerPrefs. The NPC instructor is modelled by the lines it is asked
    to play. */
module Onboarding {
  import opened PlayerPrefsStore

  const StepKey := "OnboardingStep"
  const CompletedKey := "OnboardingCompleted"

  /** The step at which ProceedToNextStep completes the onboarding. */
  const FinalStep := 3

  /** The controller's two fields. */
  datatype Progress = Progress(step: int, completed: bool)

  const Fresh := Progress(0, false)

  /** The line ProceedToNextStep plays at steps 0, 1 and 2. */
  function InstructorLine(step: int): string
    requires 0 <= step < FinalStep
  {
    ["Instructor_1", "Instructor_2", "Instructor_3"][step]
  }

  /** The fields after one ProceedToNextStep. */
  function Proceed(p: Progress): (r: Progress)
    ensures r.step == (if 0 <= p.step < FinalStep then p.step + 1 else p.step)
    ensures r.completed <==> p.completed || p.step == FinalStep
  {
    if 0 <= p.step < FinalStep then p.(step := p.step + 1)
    else if p.step == FinalStep then p.(completed := true)
    else p
  }

  /** The fields after n calls of ProceedToNextStep. */
  function ProceedTimes(p: Progress, n: nat): Progress
  {
    if n == 0 then p else Proceed(ProceedTimes(p, n - 1))
  }

  /** What LoadOnboardingProgress reads from the store. */
  function Loaded(entries: map<string, int>): (p: Progress)
    ensures StepKey !in entries ==> p.step == 0
    ensures StepKey in entries ==> p.step == entries[StepKey]
    ensures CompletedKey !in entries ==> !p.completed
    ensures p.completed <==> CompletedKey in entries && entries[CompletedKey] == 1
  {
    Progress(GetInt(entries, StepKey, 0), GetInt(entries, CompletedKey, 0) == 1)
  }

  /** The store after SaveOnboardingProgress wrote p: loading gives p back,
      and no other key is touched. */
  function Saved(entries: map<string, int>, p: Progress): (r: map<string, int>)
    ensures Loaded(r) == p
    ensures r.Keys == entries.Keys + {StepKey, CompletedKey}
    ensures forall k :: k in entries && k != StepKey && k != CompletedKey ==> r[k] == entries[k]
  {
    entries[StepKey := p.step][CompletedKey := if p.completed then 1 else 0]
  }

  /** The store after ResetOnboarding deleted both keys: loading gives a
      fresh onboarding, and no other key is touched. */
  function Cleared(entries: map<string, int>): (r: map<string, int>)
    ensures Loaded(r) == Fresh
    ensures r.Keys == entries.Keys - {StepKey, CompletedKey}
    ensures forall k :: k in r ==> r[k] == entries[k]
  {
    entries - {StepKey} - {CompletedKey}
  }

  /** Started from StartOnboarding (step 0, not completed), the step stays
      within 0..3, each of the first three calls advances it by one, and the
      fourth call and every later one leave onboarding completed at step 3. */
  lemma {:induction false} ProceedFromStart(n: nat)
    ensures 0 <= ProceedTimes(Fresh, n).step <= FinalStep
    ensures ProceedTimes(Fresh, n).step == (if n < FinalStep then n else FinalStep)
    ensures ProceedTimes(Fresh, n).completed <==> n > FinalStep
  {
    if n > 0 {
      ProceedFromStart(n - 1);
    }
  }

  /** Once completed, nothing ProceedToNextStep does clears completion. */
  lemma {:induction false} CompletionIsKept(p: Progress, n: nat)
    requires p.completed
    ensures ProceedTimes(p, n).completed
    ensures ProceedTimes(p, n).step == (if 0 <= p.step <= FinalStep && n >= FinalStep - p.step
      then FinalStep else if 0 <= p.step <= FinalStep then p.step + n else p.step)
  {
    if n > 0 {
      CompletionIsKept(p, n - 1);
    }
  }

  /** The NPC instructor, recording the lines it is asked to play. */
  class NpcInstructor {
    var played: seq<string>

    constructor ()
      ensures played == []
    {
      played := [];
    }

    method PlayDialogue(lineKey: string)
      modifies this
      ensures played == old(played) + [lineKey]
    {
      played := played + [lineKey];
    }
  }

  class OnboardingController {
    const instructorNPC: NpcInstructor
    const prefs: PlayerPrefs
    var currentStep: int
    var onboardingCompleted: bool

    function State(): Progress
      reads this
    {
      Progress(currentStep, onboardingCompleted)
    }

    constructor (instructorNPC: NpcInstructor, prefs: PlayerPrefs)
      ensures this.instructorNPC == instructorNPC && this.prefs == prefs
      ensures State() == Fresh
    {
      this.instructorNPC := instructorNPC;
      this.prefs := prefs;
      currentStep := 0;
      onboardingCompleted := false;
    }

    /** Start: restores the saved progress. */
    method Start()
      modifies this
      ensures State() == Loaded(prefs.entries)
    {
      LoadOnboardingProgress();
    }

    /** Runs the first step, unless onboarding is already completed. */
    method StartOnboarding()
      modifies this, prefs, instructorNPC
      ensures old(onboardingCompleted) ==> State() == old(State()) && unchanged(prefs, instructorNPC)
      ensures !old(onboardingCompleted) ==>
        State() == Proceed(Fresh) &&
        prefs.entries == Saved(old(prefs.entries), Fresh) &&
        instructorNPC.played == old(instructorNPC.played) + [InstructorLine(0)]
    {
      if onboardingCompleted {
        return;
      }
      currentStep := 0;
      ProceedToNextStep();
    }

    /** Plays the line of the current step, saves, then advances; at the final
        step completes instead; at any other step value does nothing. */
    method ProceedToNextStep()
      modifies this, prefs, instructorNPC
      ensures State() == Proceed(old(State()))
      ensures 0 <= old(currentStep) < FinalStep ==>
        instructorNPC.played == old(instructorNPC.played) + [InstructorLine(old(currentStep))] &&
        prefs.entries == Saved(old(prefs.entries), old(State())) &&
        GetInt(prefs.entries, StepKey, 0) == currentStep - 1
      ensures old(currentStep) == FinalStep ==>
        instructorNPC.played == old(instructorNPC.played) &&
        prefs.entries == Saved(old(prefs.entries), State()) && onboardingCompleted
      ensures !(0 <= old(currentStep) <= FinalStep) ==> unchanged(prefs, instructorNPC)
    {
      match currentStep {
        case 0 =>
          instructorNPC.PlayDialogue("Instructor_1");
        case 1 =>
          instructorNPC.PlayDialogue("Instructor_2");
        case 2 =>
          instructorNPC.PlayDialogue("Instructor_3");
        case 3 =>
          CompleteOnboarding();
          return;
        case _ =>
          return;
      }
      SaveOnboardingProgress();
      currentStep := currentStep + 1;
    }

    method CompleteOnboarding()
      modifies this, prefs
      ensures State() == old(State()).(completed := true)
      ensures prefs.entries == Saved(old(prefs.entries), State())
    {
      onboardingCompleted := true;
      SaveOnboardingProgress();
    }

    method SaveOnboardingProgress()
      modifies prefs
      ensures prefs.entries == Saved(old(prefs.entries), State())
    {
      prefs.SetInt(StepKey, currentStep);
      prefs.SetInt(CompletedKey, if onboardingCompleted then 1 else 0);
    }

    method LoadOnboardingProgress()
      modifies this
      ensures State() == Loaded(prefs.entries)
    {
      currentStep := GetInt(prefs.entries, StepKey, 0);
      onboardingCompleted := GetInt(prefs.entries, CompletedKey, 0) == 1;
    }

    method ResetOnboarding()
      modifies this, prefs
      ensures prefs.entries == Cleared(old(prefs.entries))
      ensures State() == Fresh && State() == Loaded(prefs.entries)
    {
      prefs.DeleteKey(StepKey);
      prefs.DeleteKey(CompletedKey);
      currentStep := 0;
      onboardingCompleted := false;
    }
  }
}
