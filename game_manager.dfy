/** The game's state machine (GameManager): the current game state, the
    scenario index saved in PlayerPrefs, the pause flag, the active scene and
    the singleton instance. Canvas visibility and the time scale are not
    modelled; the scene-transition coroutine is modelled by its start and its
    end. */
module GameManagement {
  import opened PlayerPrefsStore

  datatype GameState = MainMenu | Playing | Transitioning | Paused | Questionnaire | Credits | GameOver

  const ScenarioKey := "ScenarioIndex"

  /** The manager's fields. */
  datatype Manager = Manager(
    state: GameState,
    scenarioIndex: int,
    paused: bool,
    pendingTransitions: nat,  // SceneTransition coroutines started and not yet finished
    sceneIndex: int)          // build index of the active scene

  /** SetState: records the new state, then runs its side effect. Paused
      pauses the game and Transitioning starts a scene transition; the
      other states only show or hide canvases. */
  function WithState(m: Manager, newState: GameState): (r: Manager)
    ensures r.state == newState
    ensures r.paused <==> m.paused || newState == Paused
    ensures r.pendingTransitions == m.pendingTransitions + (if newState == Transitioning then 1 else 0)
    ensures r.scenarioIndex == m.scenarioIndex && r.sceneIndex == m.sceneIndex
  {
    match newState
    case Transitioning => m.(state := newState, pendingTransitions := m.pendingTransitions + 1)
    case Paused => m.(state := newState, paused := true)
    case _ => m.(state := newState)
  }

  /** LoadNextScenario: the next scenario index, saved, and a transition started. */
  function NextScenario(m: Manager): (r: Manager)
    ensures r.scenarioIndex == m.scenarioIndex + 1
    ensures r.state == Transitioning && r.pendingTransitions == m.pendingTransitions + 1
    ensures r.paused == m.paused && r.sceneIndex == m.sceneIndex
  {
    WithState(m.(scenarioIndex := m.scenarioIndex + 1), Transitioning)
  }

  /** ResetGame: scenario 0, scene 0 and the main menu. */
  function Reset(m: Manager): (r: Manager)
    ensures r.scenarioIndex == 0 && r.sceneIndex == 0 && r.state == MainMenu
    ensures r.paused == m.paused && r.pendingTransitions == m.pendingTransitions
  {
    WithState(m.(scenarioIndex := 0, sceneIndex := 0), MainMenu)
  }

  /** The end of a SceneTransition coroutine: the next scene by build index,
      then Playing. Its delay runs on scaled time, which PauseGame stops
      (time scale 0) and only ResumeGame restarts, so it ends only while
      the game is not paused. */
  function TransitionFinished(m: Manager): (r: Manager)
    requires m.pendingTransitions > 0 && !m.paused
    ensures r.state == Playing && r.sceneIndex == m.sceneIndex + 1
    ensures r.pendingTransitions == m.pendingTransitions - 1
    ensures r.scenarioIndex == m.scenarioIndex && r.paused == m.paused
  {
    WithState(m.(pendingTransitions := m.pendingTransitions - 1, sceneIndex := m.sceneIndex + 1), Playing)
  }

  /** The scenario index LoadProgress reads. */
  function LoadedScenario(entries: map<string, int>): (index: int)
    ensures ScenarioKey !in entries ==> index == 0
    ensures ScenarioKey in entries ==> index == entries[ScenarioKey]
  {
    GetInt(entries, ScenarioKey, 0)
  }

  /** The store after SaveProgress wrote the index: loading gives it back and
      no other key changes. */
  function SavedScenario(entries: map<string, int>, index: int): (r: map<string, int>)
    ensures LoadedScenario(r) == index
    ensures r.Keys == entries.Keys + {ScenarioKey}
    ensures forall k :: k in entries && k != ScenarioKey ==> r[k] == entries[k]
  {
    entries[ScenarioKey := index]
  }

  /** The public calls that drive the manager. */
  datatype Call =
    | SetStateCall(newState: GameState)
    | LoadNextScenarioCall
    | ResetGameCall
    | PauseGameCall
    | ResumeGameCall

  function Apply(m: Manager, c: Call): Manager
  {
    match c
    case SetStateCall(newState) => WithState(m, newState)
    case LoadNextScenarioCall => NextScenario(m)
    case ResetGameCall => Reset(m)
    case PauseGameCall => m.(paused := true)
    case ResumeGameCall => m.(paused := false)
  }

  /** The manager after a sequence of calls, with no transition finishing. */
  function Drive(m: Manager, calls: seq<Call>): Manager
  {
    if calls == [] then m
    else
      var n := |calls| - 1;
      Apply(Drive(m, calls[..n]), calls[n])
  }

  function CountLoads(calls: seq<Call>): nat
  {
    if calls == [] then 0
    else
      var n := |calls| - 1;
      CountLoads(calls[..n]) + (if calls[n].LoadNextScenarioCall? then 1 else 0)
  }

  function CountTransitionStarts(calls: seq<Call>): nat
  {
    if calls == [] then 0
    else
      var n := |calls| - 1;
      CountTransitionStarts(calls[..n]) +
        (if calls[n] == LoadNextScenarioCall || calls[n] == SetStateCall(Transitioning) then 1 else 0)
  }

  /** Without a reset, the scenario index advances by exactly the number of
      LoadNextScenario calls, every LoadNextScenario or SetState(Transitioning)
      call starts one scene transition, and the active scene stays. */
  lemma {:induction false} ScenarioAdvancesByLoads(m: Manager, calls: seq<Call>)
    requires ResetGameCall !in calls
    ensures Drive(m, calls).scenarioIndex == m.scenarioIndex + CountLoads(calls)
    ensures Drive(m, calls).pendingTransitions == m.pendingTransitions + CountTransitionStarts(calls)
    ensures Drive(m, calls).sceneIndex == m.sceneIndex
  {
    if calls != [] {
      var n := |calls| - 1;
      assert calls[..n] + [calls[n]] == calls;
      assert ResetGameCall !in calls[..n];
      ScenarioAdvancesByLoads(m, calls[..n]);
    }
  }

  /** ResumeGame clears the pause flag but leaves the state machine in
      Paused: only a further SetState leaves it. */
  lemma ResumeAfterPauseStaysInPausedState(m: Manager)
    ensures Apply(Apply(m, SetStateCall(Paused)), ResumeGameCall).state == Paused
    ensures !Apply(Apply(m, SetStateCall(Paused)), ResumeGameCall).paused
  {
  }

  /** The static GameManager.Instance. */
  class Registry {
    var instance: GameManager?

    constructor ()
      ensures instance == null
    {
      instance := null;
    }
  }

  class GameManager {
    const prefs: PlayerPrefs
    var currentState: GameState
    var currentScenarioIndex: int
    var isGamePaused: bool
    var pendingTransitions: nat
    var activeSceneIndex: int
    /** Set when Awake destroys this duplicate instance. */
    var destroyed: bool

    function Fields(): Manager
      reads this
    {
      Manager(currentState, currentScenarioIndex, isGamePaused, pendingTransitions, activeSceneIndex)
    }

    constructor (prefs: PlayerPrefs, activeSceneIndex: int)
      ensures this.prefs == prefs && !destroyed
      ensures Fields() == Manager(MainMenu, 0, false, 0, activeSceneIndex)
    {
      this.prefs := prefs;
      currentState := MainMenu;
      currentScenarioIndex := 0;
      isGamePaused := false;
      pendingTransitions := 0;
      this.activeSceneIndex := activeSceneIndex;
      destroyed := false;
    }

    /** The first instance to wake becomes the singleton; any later one is
        destroyed and leaves the singleton as it was. */
    method Awake(registry: Registry)
      modifies registry, this
      ensures old(registry.instance) == null ==>
        registry.instance == this && destroyed == old(destroyed)
      ensures old(registry.instance) != null ==>
        registry.instance == old(registry.instance) && destroyed
      ensures Fields() == old(Fields())
    {
      if registry.instance == null {
        registry.instance := this;
      } else {
        destroyed := true;
        return;
      }
    }

    /** Start: restores the saved scenario and shows the main menu. */
    method Start()
      modifies this
      ensures Fields() == WithState(old(Fields()).(scenarioIndex := LoadedScenario(prefs.entries)), MainMenu)
      ensures destroyed == old(destroyed)
    {
      LoadProgress();
      SetState(MainMenu);
    }

    method SetState(newState: GameState)
      modifies this
      ensures Fields() == WithState(old(Fields()), newState)
      ensures destroyed == old(destroyed)
    {
      currentState := newState;
      match newState {
        case Transitioning =>
          pendingTransitions := pendingTransitions + 1;
        case Paused =>
          PauseGame();
        case _ =>
      }
    }

    method LoadNextScenario()
      modifies this, prefs
      ensures Fields() == NextScenario(old(Fields()))
      ensures prefs.entries == SavedScenario(old(prefs.entries), currentScenarioIndex)
      ensures destroyed == old(destroyed)
    {
      currentScenarioIndex := currentScenarioIndex + 1;
      SaveProgress();
      SetState(Transitioning);
    }

    method SaveProgress()
      modifies prefs
      ensures prefs.entries == SavedScenario(old(prefs.entries), currentScenarioIndex)
    {
      prefs.SetInt(ScenarioKey, currentScenarioIndex);
    }

    method LoadProgress()
      modifies this
      ensures Fields() == old(Fields()).(scenarioIndex := LoadedScenario(prefs.entries))
      ensures destroyed == old(destroyed)
    {
      currentScenarioIndex := GetInt(prefs.entries, ScenarioKey, 0);
    }

    method ResetGame()
      modifies this, prefs
      ensures Fields() == Reset(old(Fields()))
      ensures prefs.entries == SavedScenario(old(prefs.entries), 0)
      ensures destroyed == old(destroyed)
    {
      currentScenarioIndex := 0;
      SaveProgress();
      activeSceneIndex := 0;
      SetState(MainMenu);
    }

    method PauseGame()
      modifies this
      ensures Fields() == old(Fields()).(paused := true)
      ensures destroyed == old(destroyed)
    {
      isGamePaused := true;
    }

    method ResumeGame()
      modifies this
      ensures Fields() == old(Fields()).(paused := false)
      ensures destroyed == old(destroyed)
    {
      isGamePaused := false;
    }

    /** The end of a SceneTransition coroutine, after its delay; the delay
        does not elapse while the game is paused. */
    method FinishSceneTransition()
      requires pendingTransitions > 0 && !isGamePaused
      modifies this
      ensures Fields() == TransitionFinished(old(Fields()))
      ensures destroyed == old(destroyed)
    {
      pendingTransitions := pendingTransitions - 1;
      activeSceneIndex := activeSceneIndex + 1;
      SetState(Playing);
    }
  }

  /** A second instance never replaces the first as the singleton. */
  method SecondInstanceIsDestroyed(registry: Registry, first: GameManager, second: GameManager)
    requires registry.instance == null && first != second && !first.destroyed
    modifies registry, first, second
    ensures registry.instance == first && !first.destroyed && second.destroyed
  {
    first.Awake(registry);
    second.Awake(registry);
  }

  /** Saving then loading restores the scenario index. */
  method SaveThenLoad(manager: GameManager)
    modifies manager, manager.prefs
    ensures manager.Fields() == old(manager.Fields())
  {
    manager.SaveProgress();
    manager.LoadProgress();
  }
}
