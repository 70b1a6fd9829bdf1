# Empathy Machine / basketball playground — a Dafny model of the game logic

This project models the game logic of a Unity VR/AR experience:

- the basketball court: the shooting zones, the hoop's scoring sequence and the shot and streak statistics;
- the onboarding: the controller, the step table, the dialogue table and the walk-in trigger;
- the game state machine with its saved scenario index;
- the desert sandstorm;
- the touch-operated door;
- the AR/VR mode label.

Each source file is one module.

- Components that update their fields are classes. Each method's `ensures` ties the new fields to a pure function of the old ones (`State() == Step(old(State()), e)`).
- Sequences of calls are folded with trace functions, and the lemmas are about those traces.
- `PlayerPrefs` is a class holding a `map<string, int>`. `SetInt` and `DeleteKey` update it. `GetInt` is a lookup with a default.
- TextMeshPro labels are a `TextLabel` class with a `text` field.
- Engine calls the model cannot see are recorded as logs. These are the values broadcast through `OnScoreUpdated`, the lines the NPC instructor is asked to play, and the clips the door's audio source plays.
- Engine inputs are parameters. These are `Time.time`, `Time.deltaTime`, the game logic manager's `IsScoreEnabled` answer, the tag of a collider that enters a trigger, and the active scene's name.
- Floats are modelled as `real`.

The rotation coroutine of the door is modelled frame by frame, as the engine runs it. `StartCoroutine` runs the first pass of its loop before `ToggleDoor` goes on, so that pass still sees the door's state from before the flip. Later frames resume it one pass at a time. The other coroutines are modelled by their start and the state they end in:

- the scene transition;
- the audio fades;
- the sandstorm's random routine.

## Model

| member | source | states |
|---|---|---|
| Scoring.Step | Assets/FEATURES/BASKET/SCRIPTS/BasketballScoring.cs:57-99 | A zone event sets the basket value. A score-collider entry clears the exited flag and an exit sets it. A cheat-collider exit after a score exit awards the last zone's value (when scoring is enabled) and clears the flag. Nothing else changes the fields. |
| Scoring.ExitFlagTracksHoopEvents | Assets/FEATURES/BASKET/SCRIPTS/BasketballScoring.cs:63-81 | After any events, the exited flag is set iff the last flag-deciding event was a score-collider exit (or there was none and the flag was set before). |
| Scoring.AwardOnlyAfterScoreThenCheatExit | Assets/FEATURES/BASKET/SCRIPTS/BasketballScoring.cs:63-99 | Event i awards points iff it is an enabled cheat-collider exit that follows a score-collider exit with no flag-deciding event in between. |
| Scoring.AwardValueIsLastZone | Assets/FEATURES/BASKET/SCRIPTS/BasketballScoring.cs:57-61 | After any events, the value of the next basket is that of the last zone event. |
| Scoring.AwardValueKeptWithoutZones | Assets/FEATURES/BASKET/SCRIPTS/BasketballScoring.cs:63-99 | Events without a zone event keep the value of the next basket, which starts at 3. |
| Scoring.ScoreNeverDecreases | Assets/FEATURES/BASKET/SCRIPTS/BasketballScoring.cs:83-113 | With non-negative zone values, no sequence of events lowers the score. |
| Scoring.SecondCheatExitAwardsNothing | Assets/FEATURES/BASKET/SCRIPTS/BasketballScoring.cs:75-80 | Right after a cheat-collider exit, no event awards points. |
| Scoring.BasketballScoringSystem.constructor | Assets/FEATURES/BASKET/SCRIPTS/BasketballScoring.cs:17-19 | Score 0, basket value 3 (the largest zone), not exited, nothing broadcast. |
| Scoring.BasketballScoringSystem.HandlePlayerEnterZone | Assets/FEATURES/BASKET/SCRIPTS/BasketballScoring.cs:57-61 | The fields become `Step` of a zone event; nothing is broadcast. |
| Scoring.BasketballScoringSystem.HandleBallHoopEvent | Assets/FEATURES/BASKET/SCRIPTS/BasketballScoring.cs:63-81 | The fields become `Step` of the hoop event. An award broadcasts the new score once and counts one shot in the statistics at the current time. Any other event broadcasts nothing and leaves the statistics alone. |
| Scoring.BasketballScoringSystem.AwardPoints | Assets/FEATURES/BASKET/SCRIPTS/BasketballScoring.cs:83-99 | When scoring is enabled: adds the last zone's value, broadcasts the score and counts the shot. Otherwise it changes nothing. |
| Scoring.BasketballScoringSystem.AddScore | Assets/FEATURES/BASKET/SCRIPTS/BasketballScoring.cs:101-113 | Adds the points and broadcasts the new score. |
| Scoring.BasketballScoringSystem.ResetScore | Assets/FEATURES/BASKET/SCRIPTS/BasketballScoring.cs:133-143 | Sets the score to 0 and broadcasts 0. |
| Scoring.BasketballScoringSystem.GetCurrentScore | Assets/FEATURES/BASKET/SCRIPTS/BasketballScoring.cs:145-148 | Returns the current score. |
| Scoring.BasketballScoringSystem.IncrementShots | Assets/FEATURES/BASKET/SCRIPTS/BasketballScoring.cs:150-161 | Forwards one shot to the statistics, if there is a statistics manager. |
| Scoring.BasketballScoringSystem.ResetGame | Assets/FEATURES/BASKET/SCRIPTS/BasketballScoring.cs:163-174 | Clears the statistics, if there is a statistics manager. |
| ZoneDetection.OnTriggerEnter | Assets/FEATURES/BASKET/SCRIPTS/PlayerDetector.cs:10-17 | An entry raises one zone event carrying the zone's value iff the collider is tagged Player and someone listens; otherwise it raises none. |
| ZoneDetection.EachPlayerEntryRaisesZoneScore | Assets/FEATURES/BASKET/SCRIPTS/PlayerDetector.cs:10-17 | Over any series of entries, the detector raises exactly one event per Player entry (none without listeners), each carrying the zone's value. |
| Statistics.WithStreak | Assets/FEATURES/BASKET/SCRIPTS/StatisticsManager.cs:69-77 | The current streak becomes the new one, and the highest streak becomes the larger of the old highest and the new one. The other counters are kept. |
| Statistics.WithShot | Assets/FEATURES/BASKET/SCRIPTS/StatisticsManager.cs:82-97 | One more shot, recorded at the current time. The time since the last shot is added only when an earlier shot time is positive. The streaks are kept. |
| Statistics.AverageShotTime | Assets/FEATURES/BASKET/SCRIPTS/StatisticsManager.cs:128 | 0 for at most one shot; otherwise the total time divided by the number of intervals (shots − 1). |
| Statistics.HighestBoundsCurrent | Assets/FEATURES/BASKET/SCRIPTS/StatisticsManager.cs:52-77 | From a reset, any calls leave the highest streak at least the current one and non-negative. |
| Statistics.HighestNeverDecreases | Assets/FEATURES/BASKET/SCRIPTS/StatisticsManager.cs:69-77 | Between resets, the highest streak never goes down. |
| Statistics.HighestIsMaximum | Assets/FEATURES/BASKET/SCRIPTS/StatisticsManager.cs:69-77 | Without a reset, the highest streak bounds every reported streak and is 0 or one of them. |
| Statistics.ShotsCounted | Assets/FEATURES/BASKET/SCRIPTS/StatisticsManager.cs:82-85 | Without a reset, the shot counter equals the number of IncrementShots calls. |
| Statistics.IntervalsTelescope | Assets/FEATURES/BASKET/SCRIPTS/StatisticsManager.cs:82-97 | For shots at positive times, the accumulated time is last − first. The displayed average is that span over (shots − 1). |
| Statistics.StatisticsManager.constructor | Assets/FEATURES/BASKET/SCRIPTS/StatisticsManager.cs:27-31 | All counters start cleared, and the streak invariant holds. |
| Statistics.StatisticsManager.ResetStatistics | Assets/FEATURES/BASKET/SCRIPTS/StatisticsManager.cs:52-62 | All five counters are cleared. |
| Statistics.StatisticsManager.UpdateStreak | Assets/FEATURES/BASKET/SCRIPTS/StatisticsManager.cs:69-77 | The counters become `WithStreak` of the old ones. The highest streak never drops, and the invariant (highest ≥ current, highest ≥ 0, shots ≥ 0) is kept. |
| Statistics.StatisticsManager.IncrementShots | Assets/FEATURES/BASKET/SCRIPTS/StatisticsManager.cs:82-97 | The counters become `WithShot` of the old ones, and the invariant is kept. |
| OnboardingDialogue.GetText | Assets/FEATURES/ONBOARDING/SCRIPTS/OnboardingDialogueData.cs:14-45 | Known keys give their line of the 17-entry table. The fallback text is returned exactly for unknown keys. |
| OnboardingSteps.ShouldAutoProceed | Assets/FEATURES/ONBOARDING/SCRIPTS/OnboardingStepsHandler.cs:18-38 | A step proceeds on its own iff it is in 0..17 and is not one of 3, 7, 12, 14, 15 or 16. |
| OnboardingSteps.ExecuteStep | Assets/FEATURES/ONBOARDING/SCRIPTS/OnboardingStepsHandler.cs:49-123 | Steps outside 0..17 make no call. Every other step except 16 plays exactly one line, first, with its auto-proceed flag. It saves iff the step is 0, 2, 6, 9, 12, 16 or 17. Step 3 arms the collider trigger and step 17 resets the onboarding. |
| OnboardingSteps.PlayedLinesHaveText | Assets/FEATURES/ONBOARDING/SCRIPTS/OnboardingStepsHandler.cs:49-123 | Every line key a step plays is a key of the dialogue table, so looking it up with `GetText` never gives the fallback text. |
| OnboardingSteps.EveryLineIsPlayed | Assets/FEATURES/ONBOARDING/SCRIPTS/OnboardingDialogueData.cs:14-37 | Every line of the dialogue table is played by some step. |
| Onboarding.Proceed | Assets/FEATURES/ONBOARDING/SCRIPTS/OnboardingController.cs:43-68 | One step of the onboarding: steps 0..2 advance by one, step 3 sets completion and stays, and any other step is kept; completion is never cleared. |
| Onboarding.Loaded | Assets/FEATURES/ONBOARDING/SCRIPTS/OnboardingController.cs:94-100 | A stored step is read back as its value, and a missing one as 0. Completion is read as the stored flag being 1, and a missing flag as not completed. |
| Onboarding.Saved | Assets/FEATURES/ONBOARDING/SCRIPTS/OnboardingController.cs:83-89 | Loading after a save gives back the saved progress; only the two onboarding keys are touched. |
| Onboarding.Cleared | Assets/FEATURES/ONBOARDING/SCRIPTS/OnboardingController.cs:105-115 | After a reset the store loads as a fresh onboarding; only the two onboarding keys are removed. |
| Onboarding.ProceedFromStart | Assets/FEATURES/ONBOARDING/SCRIPTS/OnboardingController.cs:27-68 | From step 0, the step stays within 0..3. Each of the first three calls advances it by one. The fourth call and every later one leave the onboarding completed at step 3. |
| Onboarding.CompletionIsKept | Assets/FEATURES/ONBOARDING/SCRIPTS/OnboardingController.cs:43-78 | Once completed, no call clears completion. A step in 0..3 advances by one per call up to 3 and stays there; any other step is kept. |
| Onboarding.NpcInstructor.PlayDialogue | Assets/FEATURES/ONBOARDING/SCRIPTS/OnboardingController.cs:48-58 | Records the requested line. |
| Onboarding.OnboardingController.constructor | Assets/FEATURES/ONBOARDING/SCRIPTS/OnboardingController.cs:16-17 | Step 0, not completed. |
| Onboarding.OnboardingController.Start | Assets/FEATURES/ONBOARDING/SCRIPTS/OnboardingController.cs:19-22 | Restores the saved progress. |
| Onboarding.OnboardingController.StartOnboarding | Assets/FEATURES/ONBOARDING/SCRIPTS/OnboardingController.cs:27-38 | When completed, it does nothing. Otherwise it plays the first line, saves step 0 and moves to step 1. |
| Onboarding.OnboardingController.ProceedToNextStep | Assets/FEATURES/ONBOARDING/SCRIPTS/OnboardingController.cs:43-68 | At steps 0-2: plays that step's line, saves the step before advancing, then advances. At step 3: completes and saves. At any other step: nothing changes. |
| Onboarding.OnboardingController.CompleteOnboarding | Assets/FEATURES/ONBOARDING/SCRIPTS/OnboardingController.cs:73-78 | Marks the onboarding completed and saves. |
| Onboarding.OnboardingController.SaveOnboardingProgress | Assets/FEATURES/ONBOARDING/SCRIPTS/OnboardingController.cs:83-89 | The store becomes `Saved` of the current progress. |
| Onboarding.OnboardingController.LoadOnboardingProgress | Assets/FEATURES/ONBOARDING/SCRIPTS/OnboardingController.cs:94-100 | The progress becomes `Loaded` of the store. |
| Onboarding.OnboardingController.ResetOnboarding | Assets/FEATURES/ONBOARDING/SCRIPTS/OnboardingController.cs:105-115 | Deletes both keys and returns to a fresh onboarding, which is also what the store now loads as. |
| OnboardingTriggers.OnboardingTrigger.OnTriggerEnter | Assets/FEATURES/ONBOARDING/SCRIPTS/OnboardingTrigger.cs:21-29 | A Player entry makes one `ProceedToNextStep` call and deactivates the trigger: at steps 0-2 the step's line is played and the progress saved, at step 3 the onboarding completes and is saved, and at any other step the store and the NPC are untouched. Any other entry changes nothing. |
| PlayerPrefsStore.GetInt | Assets/FEATURES/GAME_MANAGER/GameManager.cs:125 | The stored value when the key is present, otherwise the given default. |
| PlayerPrefsStore.PlayerPrefs.SetInt | Assets/FEATURES/GAME_MANAGER/GameManager.cs:118 | Overwrites or adds one key. |
| PlayerPrefsStore.PlayerPrefs.DeleteKey | Assets/FEATURES/ONBOARDING/SCRIPTS/OnboardingController.cs:107-108 | Removes one key. |
| GameManagement.WithState | Assets/FEATURES/GAME_MANAGER/GameManager.cs:72-107 | The state becomes the new one. Paused also sets the pause flag, and Transitioning starts one scene transition. The scenario and the scene are kept. |
| GameManagement.NextScenario | Assets/FEATURES/GAME_MANAGER/GameManager.cs:109-114 | The scenario index goes up by one, and the game is Transitioning with one more transition pending. |
| GameManagement.Reset | Assets/FEATURES/GAME_MANAGER/GameManager.cs:129-136 | Scenario 0, scene 0, main menu. |
| GameManagement.TransitionFinished | Assets/FEATURES/GAME_MANAGER/GameManager.cs:198-203 | A finished transition loads the next scene by build index and leaves the game Playing. It can finish only while the game is not paused, since its delay runs on scaled time. |
| GameManagement.LoadedScenario | Assets/FEATURES/GAME_MANAGER/GameManager.cs:123-127 | The saved scenario index, or 0 when none is saved. |
| GameManagement.SavedScenario | Assets/FEATURES/GAME_MANAGER/GameManager.cs:116-121 | Loading after a save gives the saved index back; no other key changes. |
| GameManagement.ScenarioAdvancesByLoads | Assets/FEATURES/GAME_MANAGER/GameManager.cs:72-114 | Without a reset, the scenario index grows by the number of LoadNextScenario calls. Each LoadNextScenario or SetState(Transitioning) starts one transition, and the scene stays. |
| GameManagement.ResumeAfterPauseStaysInPausedState | Assets/FEATURES/GAME_MANAGER/GameManager.cs:146-152 | Pausing through SetState and then resuming clears the pause flag but leaves the state Paused. |
| GameManagement.GameManager.constructor | Assets/FEATURES/GAME_MANAGER/GameManager.cs:13-41 | Main menu, scenario 0, not paused. |
| GameManagement.GameManager.Awake | Assets/FEATURES/GAME_MANAGER/GameManager.cs:45-57 | The first instance becomes the singleton. A later one is destroyed and the singleton stays. |
| GameManagement.SecondInstanceIsDestroyed | Assets/FEATURES/GAME_MANAGER/GameManager.cs:45-57 | Of two instances that wake in turn, the first stays the singleton and the second is destroyed. |
| GameManagement.GameManager.Start | Assets/FEATURES/GAME_MANAGER/GameManager.cs:59-63 | Restores the saved scenario, then shows the main menu. |
| GameManagement.GameManager.SetState | Assets/FEATURES/GAME_MANAGER/GameManager.cs:72-107 | The fields become `WithState` of the old ones. |
| GameManagement.GameManager.LoadNextScenario | Assets/FEATURES/GAME_MANAGER/GameManager.cs:109-114 | The fields become `NextScenario` of the old ones, and the new index is saved. |
| GameManagement.GameManager.SaveProgress | Assets/FEATURES/GAME_MANAGER/GameManager.cs:116-121 | The store becomes `SavedScenario` of the current index. |
| GameManagement.GameManager.LoadProgress | Assets/FEATURES/GAME_MANAGER/GameManager.cs:123-127 | The index becomes `LoadedScenario` of the store; nothing else changes. |
| GameManagement.SaveThenLoad | Assets/FEATURES/GAME_MANAGER/GameManager.cs:116-127 | A save followed by a load leaves every field as it was. |
| GameManagement.GameManager.ResetGame | Assets/FEATURES/GAME_MANAGER/GameManager.cs:129-136 | The fields become `Reset` of the old ones, and scenario 0 is saved. |
| GameManagement.GameManager.PauseGame | Assets/FEATURES/GAME_MANAGER/GameManager.cs:138-144 | Sets the pause flag only. |
| GameManagement.GameManager.ResumeGame | Assets/FEATURES/GAME_MANAGER/GameManager.cs:146-152 | Clears the pause flag only; the state is kept. |
| GameManagement.GameManager.FinishSceneTransition | Assets/FEATURES/GAME_MANAGER/GameManager.cs:198-203 | The fields become `TransitionFinished` of the old ones; it cannot happen while the game is paused. |
| GameModeSwitch.Contains | Assets/FEATURES/BASKET_AR_MODE/GameModeSwitch.cs:24 | True iff the substring occurs at some position. |
| GameModeSwitch.ModeText | Assets/FEATURES/BASKET_AR_MODE/GameModeSwitch.cs:24 | "AR" iff the scene name contains "AR"; otherwise "VR". |
| GameModeSwitch.ARSceneLabelledAR | Assets/FEATURES/BASKET_AR_MODE/GameModeSwitch.cs:16-24 | The AR scene is labelled "AR". |
| GameModeSwitch.VRSceneLabelledAR | Assets/FEATURES/BASKET_AR_MODE/GameModeSwitch.cs:17-24 | The VR scene is labelled "AR" too, because "HANGAR" contains "AR". |
| GameModeSwitch.GameModeSwitcher.UpdateModeText | Assets/FEATURES/BASKET_AR_MODE/GameModeSwitch.cs:20-26 | With a label assigned, it shows `ModeText` of the active scene; without one, nothing changes. |
| Sandstorm.Ordinal | Assets/FEATURES/SANDSTORM/SCRIPTS/SandstormController.cs:31 | Every mode's enum value is 0, 1 or 2. |
| Sandstorm.FromOrdinal | Assets/FEATURES/SANDSTORM/SCRIPTS/SandstormController.cs:54 | Casting back is the inverse of the enum value. |
| Sandstorm.Next | Assets/FEATURES/SANDSTORM/SCRIPTS/SandstormController.cs:53-54 | On goes to Off, Off to Random, and Random to On. |
| Sandstorm.CycleOfThree | Assets/FEATURES/SANDSTORM/SCRIPTS/SandstormController.cs:53-54 | Three toggles return to the starting mode; one or two never do. |
| Sandstorm.Name | Assets/FEATURES/SANDSTORM/SCRIPTS/SandstormController.cs:80 | The label is "On", "Off" or "Random". |
| Sandstorm.NamesAreDistinct | Assets/FEATURES/SANDSTORM/SCRIPTS/SandstormController.cs:80 | Two modes have the same label iff they are the same mode. |
| Sandstorm.Faded | Assets/FEATURES/SANDSTORM/SCRIPTS/SandstormController.cs:177-212 | An unset slot is skipped. A fade-in ends playing at the source's own volume, or at 1 when that is not positive. A fade-out ends stopped at volume 0. |
| Sandstorm.Emitted | Assets/FEATURES/SANDSTORM/SCRIPTS/SandstormController.cs:108-118 | An unset slot is skipped; a particle system ends emitting iff it was switched on. |
| Sandstorm.AudioSwitched | Assets/FEATURES/SANDSTORM/SCRIPTS/SandstormController.cs:90-103 | Every audio slot is faded in place; the length is kept. |
| Sandstorm.ParticlesSwitched | Assets/FEATURES/SANDSTORM/SCRIPTS/SandstormController.cs:106-119 | Every particle slot is switched in place; the length is kept. |
| Sandstorm.SwitchingIsIdempotent | Assets/FEATURES/SANDSTORM/SCRIPTS/SandstormController.cs:87-120 | Switching twice the same way equals switching once. |
| Sandstorm.StormEndsSwitchedOff | Assets/FEATURES/SANDSTORM/SCRIPTS/SandstormController.cs:140-146 | One storm of the random routine (on, then off) ends as a plain switch-off. |
| Sandstorm.SandstormController.constructor | Assets/FEATURES/SANDSTORM/SCRIPTS/SandstormController.cs:32 | The initial mode is On. |
| Sandstorm.SandstormController.Start | Assets/FEATURES/SANDSTORM/SCRIPTS/SandstormController.cs:34-46 | Shows the mode. On switches everything on, and Random starts the routine. |
| Sandstorm.SandstormController.ToggleSandstormState | Assets/FEATURES/SANDSTORM/SCRIPTS/SandstormController.cs:51-71 | The mode becomes `Next` of the old one and the label shows it. Running routines are cancelled. On switches everything on, Off switches everything off, and Random leaves the systems alone and runs only the routine. |
| Sandstorm.SandstormController.UpdateStateDisplay | Assets/FEATURES/SANDSTORM/SCRIPTS/SandstormController.cs:76-82 | With a label assigned, it shows the mode's name. |
| Sandstorm.SandstormController.ToggleSystems | Assets/FEATURES/SANDSTORM/SCRIPTS/SandstormController.cs:87-120 | Both arrays become their switched versions. |
| Sandstorm.SandstormController.ToggleAudio | Assets/FEATURES/SANDSTORM/SCRIPTS/SandstormController.cs:90-103 | The audio array becomes `AudioSwitched` of the old one. |
| Sandstorm.SandstormController.ToggleParticles | Assets/FEATURES/SANDSTORM/SCRIPTS/SandstormController.cs:106-119 | The particle array becomes `ParticlesSwitched` of the old one. |
| Sandstorm.SandstormController.RandomStorm | Assets/FEATURES/SANDSTORM/SCRIPTS/SandstormController.cs:125-148 | In Random mode, one storm leaves everything switched off. |
| Doors.SideOf | Assets/FEATURES/DOORS/SCRIPTS/SimpleDoorTouch.cs:66-71 | Outside iff the touch lies in front of the door (positive dot product). |
| Doors.TargetAngle | Assets/FEATURES/DOORS/SCRIPTS/SimpleDoorTouch.cs:54-59 | Closing targets the closed angle. Opening targets the open angle from inside and its negation from outside. |
| Doors.OpeningSidesAreMirrored | Assets/FEATURES/DOORS/SCRIPTS/SimpleDoorTouch.cs:54-59 | Opening from outside is the mirror of opening from inside; closing does not depend on the side. |
| Doors.DoorClip | Assets/FEATURES/DOORS/SCRIPTS/SimpleDoorTouch.cs:77 | The opening clip iff the argument says opening. |
| Doors.LoopPass | Assets/FEATURES/DOORS/SCRIPTS/SimpleDoorTouch.cs:105-118 | Time advances by the frame time times the speed. The close-sound flag is set iff it was set or the close sound is due. |
| Doors.Begin | Assets/FEATURES/DOORS/SCRIPTS/SimpleDoorTouch.cs:98-118 | Starting a rotation marks the door moving toward the target and runs one pass at once. |
| Doors.Resume | Assets/FEATURES/DOORS/SCRIPTS/SimpleDoorTouch.cs:105-121 | While the time is below 1, a frame is one more pass. After that, the door rests at the target and stops moving. |
| Doors.ToggleSounds | Assets/FEATURES/DOORS/SCRIPTS/SimpleDoorTouch.cs:61-118 | A touch plays one or two clips: the closing clip first iff the door reads as closed and the first pass reaches the offset, then always the clip `PlayDoorSound` picks from the state before the flip. |
| Doors.ResumeSounds | Assets/FEATURES/DOORS/SCRIPTS/SimpleDoorTouch.cs:111-115 | A frame plays the close sound, once, exactly when a pass runs and the sound is due; otherwise it plays nothing. |
| Doors.ToggleSoundIsInverted | Assets/FEATURES/DOORS/SCRIPTS/SimpleDoorTouch.cs:62-79 | For every offset, speed and frame time, the touch that opens never plays the opening clip, and the touch that closes plays only the opening clip. With the default offset of −1, opening calls `Play` with the closing clip twice in the touch frame. |
| Doors.ClosingPlaysCloseSoundNextFrame | Assets/FEATURES/DOORS/SCRIPTS/SimpleDoorTouch.cs:61-118 | With the default offset of −1 and non-negative frame times, the touch that closes plays only the opening clip, and when its first pass does not finish the rotation, the next frame plays the closing clip, because the coroutine then reads the flipped state. |
| Doors.CloseSoundAtMostOnce | Assets/FEATURES/DOORS/SCRIPTS/SimpleDoorTouch.cs:103-115 | Over any frames of one rotation, the close sound plays at most once, and exactly when the flag gets set; nothing else plays. |
| Doors.StoppedAtTarget | Assets/FEATURES/DOORS/SCRIPTS/SimpleDoorTouch.cs:120-121 | A rotation keeps its target, and once stopped the door rests at it. |
| Doors.AudioPlayer.Play | Assets/FEATURES/DOORS/SCRIPTS/SimpleDoorTouch.cs:78 | Records the clip played. |
| Doors.SimpleDoorTouch.constructor | Assets/FEATURES/DOORS/SCRIPTS/SimpleDoorTouch.cs:13-30 | The door is closed, at rest. |
| Doors.SimpleDoorTouch.OnTriggerEnter | Assets/FEATURES/DOORS/SCRIPTS/SimpleDoorTouch.cs:35-46 | Touches while moving, and touches by anything but a hand, change nothing. A hand's touch toggles the door from the side it came from. |
| Doors.SimpleDoorTouch.ToggleDoor | Assets/FEATURES/DOORS/SCRIPTS/SimpleDoorTouch.cs:50-64 | Flips the door and starts the rotation to `TargetAngle` of the state before the flip. Plays the first pass's sounds, then the clip chosen from the state before the flip. |
| Doors.SimpleDoorTouch.PlayDoorSound | Assets/FEATURES/DOORS/SCRIPTS/SimpleDoorTouch.cs:73-79 | With an audio source, it plays `DoorClip(opening)`; without one, nothing happens. |
| Doors.SimpleDoorTouch.StartRotateDoor | Assets/FEATURES/DOORS/SCRIPTS/SimpleDoorTouch.cs:98-118 | The rotation state becomes `Begin`, and the close sound plays if the first pass makes it due. |
| Doors.SimpleDoorTouch.RunLoopPass | Assets/FEATURES/DOORS/SCRIPTS/SimpleDoorTouch.cs:107-115 | The rotation state becomes `LoopPass`, and the close sound plays iff it was due. |
| Doors.SimpleDoorTouch.ResumeRotateDoor | Assets/FEATURES/DOORS/SCRIPTS/SimpleDoorTouch.cs:105-121 | The rotation state becomes `Resume`, and the frame's sounds play. |
| Doors.SimpleDoorTouch.RunFrames | Assets/FEATURES/DOORS/SCRIPTS/SimpleDoorTouch.cs:105-121 | The rotation state becomes `Frames` over the frame times, and their sounds play in order. |

## Left out

- Engine timing is not modelled. This covers `WaitForSeconds`, the scene-transition delay, the random intervals and storm lengths of `SandstormRoutine`, the volume ramps of the audio fades and the door's `LerpAngle` angles during a rotation. The model keeps the order of events and the state each coroutine ends in.
- Sandstorm.Faded: a fade a later toggle cancels (`StopAllCoroutines`) is modelled as if it had ended. The model does not keep half-faded volumes.
- Floats are `real`: single-precision rounding is not modelled.
- Scoring.ScoreNeverDecreases holds of the model's unbounded integers only: C# `int` wraps at 2^31, so in the source `_currentScore += points` can overflow to a negative score. The 32-bit wrap-around of the score and the statistics counters is not modelled.
- `Debug.Log`, canvas `SetActive` and `Application.Quit` are left out. They have no effect on the modelled state.
- `Time.timeScale` is modelled only through the pause flag: `PauseGame` sets it to 0 and `ResumeGame` to 1, together with the flag, so a scene transition's delay elapses only while the game is not paused (`FinishSceneTransition` requires it). Other scaled-time effects are not modelled.
- Scenes are modelled by build index only. `SceneManager.LoadScene` is that index changing, and the active scene's name is an input.
- Score and statistics text displays are not modelled. This covers `_scoreText` in `ResetScore`, the game logic manager's score display and the streak, shot and average labels of `UpdateDisplays`. The one computed value among them, the average shot time, is modelled by `AverageShotTime`.
- `PlayerPrefs.Save` is not modelled: flushing to disk is I/O.
- `SubmitScoreToLeaderboard` is left out: it calls a leaderboard service not in this model.
- Event subscription is left out. The `Awake`/`OnDestroy` wiring of `OnPlayerEnterZone` is taken as given: the zone detector's events reach `HandlePlayerEnterZone` in order.
- The NPC instructor is modelled only as the list of lines it is asked to play. Its voice, text panel and auto-proceed timing are not modelled. `WaitForColliderTrigger` and the two-argument `PlayDialogue` are recorded as actions, not executed.
- `OnboardingStepsHandler.SaveProgress` is recorded as an action; the source itself only logs a warning there.
- `OnboardingStepsHandler.Initialize` and the `FindObjectOfType` lookup of `OnboardingTrigger.Start` are left out. The collaborators are given to the constructors, never null (a missing controller would throw in the source).
- OnboardingTriggers.OnboardingTrigger.OnTriggerEnter requires the trigger to be active: the engine only delivers trigger callbacks to active objects.
- The game logic manager's `IsScoreEnabled` and `Time.time` are inputs to the scoring calls, not modelled components.
- The door's touch side is computed from a dot product of `Vector3`s. The model takes that dot product as input; vector arithmetic is not modelled.
- The door's haptic feedback is left out: it is commented out in the source.
- The other scripts of the repository are not part of this model: letters, ball respawning, player scaling, hoop movement, gravity control and the text panel. They are float vector code or engine glue.
- `QuitGame` is left out: it only logs and calls `Application.Quit`, which ends the process.
- `TriggerQuestionnaire`, `ShowCredits` and `DisplayScenarioResults` only toggle canvases. They change none of the modelled fields.
