/** The AR/VR mode label of the basketball menu (GameModeSwitcher). */
module GameModeSwitch {
  import opened Ui

  const ARScene := "AR_BASKET"
  const VRScene := "VR_BASKET_DESERT_HANGAR"

  /** `sub` occurs in `s` starting at position i. */
  ghost predicate OccursAt(s: string, sub: string, i: int)
  {
    0 <= i && i + |sub| <= |s| && s[i..i + |sub|] == sub
  }

  /** Ordinal substring test, as string.Contains does it. */
  function Contains(s: string, sub: string): (found: bool)
    ensures found <==> exists i :: OccursAt(s, sub, i)
    decreases |s|
  {
    if |sub| > |s| then false
    else if s[..|sub|] == sub then (assert OccursAt(s, sub, 0); true)
    else
      var rest := Contains(s[1..], sub);
      assert forall i :: OccursAt(s[1..], sub, i) <==> OccursAt(s, sub, i + 1) by {
        forall i ensures OccursAt(s[1..], sub, i) <==> OccursAt(s, sub, i + 1) {
          if 0 <= i && i + |sub| <= |s| - 1 {
            assert s[1..][i..i + |sub|] == s[i + 1..i + 1 + |sub|];
          }
        }
      }
      assert !OccursAt(s, sub, 0);
      assert forall i :: OccursAt(s, sub, i) && i != 0 ==> OccursAt(s[1..], sub, i - 1);
      rest
  }

  /** The text UpdateModeText shows for the active scene. */
  function ModeText(sceneName: string): (text: string)
    ensures text == "AR" <==> exists i :: OccursAt(sceneName, "AR", i)
    ensures text == "AR" || text == "VR"
  {
    if Contains(sceneName, "AR") then "AR" else "VR"
  }

  lemma ARSceneLabelledAR()
    ensures ModeText(ARScene) == "AR"
  {
    assert OccursAt(ARScene, "AR", 0);
  }

  /** The VR scene is labelled "AR" too: its name ends in "HANGAR". */
  lemma VRSceneLabelledAR()
    ensures ModeText(VRScene) == "AR"
  {
    assert OccursAt(VRScene, "AR", 21);
  }

  class GameModeSwitcher {
    const modeText: TextLabel?

    constructor (modeText: TextLabel?)
      ensures this.modeText == modeText
    {
      this.modeText := modeText;
    }

    /** Labels the active scene; with no text component assigned nothing changes. */
    method UpdateModeText(activeSceneName: string)
      modifies modeText
      ensures modeText != null ==> modeText.text == ModeText(activeSceneName)
    {
      if modeText != null {
        modeText.text := if Contains(activeSceneName, "AR") then "AR" else "VR";
      }
    }
  }
}
