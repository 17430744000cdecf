/** The lever switch with an interaction prompt: a player-tagged collider entering the
    trigger brings the prompt up, the use key then flips `isOn`, writes it to every live
    behaviour, renderer and object target, refreshes the prompt and fires one event. The
    prompt text is written only when a text component is assigned (which the build has
    only with TextMesh Pro present). The lever rotation and indicator colour are not
    modelled. */
module ScriptsToggleSwitchModel {
  import opened Unity
  import opened SwitchTargets

  /** The prompt: it names the use key and the state a press would switch to. */
  function PromptText(useKey: KeyCode, isOn: bool): (r: string)
    ensures isOn ==> r == "Press " + KeyName(useKey) + " to turn off"
    ensures !isOn ==> r == "Press " + KeyName(useKey) + " to turn on"
  {
    "Press " + KeyName(useKey) + " to turn " + (if isOn then "off" else "on")
  }

  /** The state a prompt offers, read back from its last word. */
  function OfferedState(text: string): Option<bool> {
    if |text| >= 4 && text[|text| - 4..] == " off" then Some(false)
    else if |text| >= 3 && text[|text| - 3..] == " on" then Some(true)
    else None
  }

  /** The prompt offers exactly the state a toggle would switch to. */
  lemma PromptOffersTheOtherState(useKey: KeyCode, isOn: bool)
    ensures OfferedState(PromptText(useKey, isOn)) == Some(!isOn)
  {
    var p := PromptText(useKey, isOn);
    var head := "Press " + KeyName(useKey) + " to turn";
    if isOn {
      assert p == head + " off";
      assert p[|p| - 4..] == " off";
    } else {
      assert p == head + " on";
      assert p[|p| - 3..] == " on";
      assert p[|p| - 4] == head[|head| - 1] == 'n';
    }
  }

  /** The prompt reads differently in the two states, so it always tells them apart. */
  lemma PromptTellsStatesApart(useKey: KeyCode)
    ensures PromptText(useKey, true) != PromptText(useKey, false)
  {
    PromptOffersTheOtherState(useKey, true);
    PromptOffersTheOtherState(useKey, false);
  }

  class ToggleSwitch {
    const behavioursToToggle: array?<Behaviour?>
    const renderersToToggle: array?<Renderer?>
    const objectsToToggle: array?<GameObject?>
    const useKey: KeyCode
    const playerTag: string
    /** The prompt's root object and its text component, each optional. */
    const promptRoot: GameObject?
    const promptText: Label?

    var playerInRange: bool
    var isOn: bool
    /** The events fired so far, in order. */
    var events: seq<SwitchEvent>

    constructor (behavioursToToggle: array?<Behaviour?>, renderersToToggle: array?<Renderer?>,
                 objectsToToggle: array?<GameObject?>, useKey: KeyCode, playerTag: string,
                 promptRoot: GameObject?, promptText: Label?)
      ensures this.behavioursToToggle == behavioursToToggle
      ensures this.renderersToToggle == renderersToToggle
      ensures this.objectsToToggle == objectsToToggle
      ensures this.useKey == useKey && this.playerTag == playerTag
      ensures this.promptRoot == promptRoot && this.promptText == promptText
      ensures !playerInRange && isOn && events == []
    {
      this.behavioursToToggle := behavioursToToggle;
      this.renderersToToggle := renderersToToggle;
      this.objectsToToggle := objectsToToggle;
      this.useKey := useKey;
      this.playerTag := playerTag;
      this.promptRoot := promptRoot;
      this.promptText := promptText;
      playerInRange := false;
      isOn := true;
      events := [];
    }

    /** The live targets. */
    function Targets(): set<object>
      reads this, behavioursToToggle, renderersToToggle, objectsToToggle
    {
      LiveBehaviours(behavioursToToggle) + LiveRenderers(renderersToToggle) + LiveObjects(objectsToToggle)
    }

    /** Every live target shows `isOn`, except the prompt's own root when it is also a
        target object (the prompt update that follows decides that one). */
    predicate Applied()
      reads this, behavioursToToggle, renderersToToggle, objectsToToggle, Targets()
    {
      (behavioursToToggle != null ==>
         forall i :: 0 <= i < behavioursToToggle.Length && behavioursToToggle[i] != null ==>
           behavioursToToggle[i].enabled == isOn) &&
      (renderersToToggle != null ==>
         forall i :: 0 <= i < renderersToToggle.Length && renderersToToggle[i] != null ==>
           renderersToToggle[i].enabled == isOn) &&
      (objectsToToggle != null ==>
         forall i :: 0 <= i < objectsToToggle.Length && objectsToToggle[i] != null &&
                     objectsToToggle[i] != promptRoot ==>
           objectsToToggle[i].activeSelf == isOn)
    }

    method ApplyAllTargets()
      modifies Targets()
      ensures Applied()
      ensures objectsToToggle != null ==>
                forall i :: 0 <= i < objectsToToggle.Length && objectsToToggle[i] != null ==>
                  objectsToToggle[i].activeSelf == isOn
      // the prompt root changes only as one of the target objects
      ensures promptRoot != null ==>
                promptRoot.activeSelf ==
                (if promptRoot in LiveObjects(objectsToToggle) then isOn else old(promptRoot.activeSelf))
    {
      SetBehavioursEnabled(behavioursToToggle, isOn);
      SetRenderersEnabled(renderersToToggle, isOn);
      SetObjectsActive(objectsToToggle, isOn);
    }

    /** Shows or hides the prompt; showing it also rewrites its text for the current state. */
    method ShowPrompt(show: bool)
      modifies promptRoot, promptText
      ensures promptRoot != null ==> promptRoot.activeSelf == show
      ensures promptText != null && show ==> promptText.text == PromptText(useKey, isOn)
      ensures promptText != null && !show ==> unchanged(promptText)
    {
      if promptRoot != null {
        promptRoot.activeSelf := show;
      }
      if show && promptText != null {
        promptText.text := "Press " + KeyName(useKey) + " to turn " + (if isOn then "off" else "on");
      }
    }

    /** The state adopted from the targets: the first live behaviour, overridden by the
        first renderer, overridden by the first object. */
    function InitialState(current: bool): bool
      requires behavioursToToggle != null
      reads this, behavioursToToggle, renderersToToggle, objectsToToggle, Targets()
    {
      AdoptedState(FirstBehaviourState(behavioursToToggle), FirstRendererState(renderersToToggle),
                   FirstObjectState(objectsToToggle), current)
    }

    /** The adoption steps of Start. The behaviour array is walked without a null check,
        so it must exist. */
    method AdoptInitialState()
      requires behavioursToToggle != null
      modifies this`isOn
      ensures isOn == InitialState(old(isOn))
    {
      var fromBehaviours := ScanBehaviours(behavioursToToggle);
      if fromBehaviours.Some? {
        isOn := fromBehaviours.value;
      }
      if renderersToToggle != null && renderersToToggle.Length > 0 && renderersToToggle[0] != null {
        isOn := renderersToToggle[0].enabled;
      }
      if objectsToToggle != null && objectsToToggle.Length > 0 && objectsToToggle[0] != null {
        isOn := objectsToToggle[0].activeSelf;
      }
    }

    /** Adopts the initial state, applies it everywhere and hides the prompt. */
    method Start()
      requires behavioursToToggle != null
      modifies this`isOn, Targets(), promptRoot, promptText
      ensures isOn == old(InitialState(isOn))
      ensures Applied()
      ensures promptRoot != null ==> !promptRoot.activeSelf
      ensures promptText != null ==> unchanged(promptText)
    {
      AdoptInitialState();
      ApplyAllTargets();
      ShowPrompt(false);
    }

    /** Only a collider with the player tag changes whether the player is in range. */
    method OnTriggerEnter(otherTag: string)
      modifies this`playerInRange, promptRoot, promptText
      ensures playerInRange == (otherTag == playerTag || old(playerInRange))
      ensures otherTag == playerTag && promptRoot != null ==> promptRoot.activeSelf
      ensures otherTag == playerTag && promptText != null ==> promptText.text == PromptText(useKey, isOn)
      ensures otherTag != playerTag ==>
                (promptRoot != null ==> unchanged(promptRoot)) && (promptText != null ==> unchanged(promptText))
    {
      if otherTag != playerTag {
        return;
      }
      playerInRange := true;
      ShowPrompt(true);
    }

    method OnTriggerExit(otherTag: string)
      modifies this`playerInRange, promptRoot, promptText
      ensures playerInRange == (otherTag != playerTag && old(playerInRange))
      ensures otherTag == playerTag && promptRoot != null ==> !promptRoot.activeSelf
      ensures otherTag != playerTag ==> promptRoot != null ==> unchanged(promptRoot)
      ensures promptText != null ==> unchanged(promptText)
    {
      if otherTag != playerTag {
        return;
      }
      playerInRange := false;
      ShowPrompt(false);
    }

    /** Flips the state, applies it, refreshes the prompt while the player is in range,
        and fires exactly the event matching the new state. */
    method Toggle()
      modifies this`isOn, this`events, Targets(), promptRoot, promptText
      ensures isOn == !old(isOn)
      ensures events == old(events) + [EventFor(isOn)]
      ensures Applied()
      ensures playerInRange && promptRoot != null ==> promptRoot.activeSelf
      ensures playerInRange && promptText != null ==> promptText.text == PromptText(useKey, isOn)
      // so the refreshed prompt offers to switch back to the state before the toggle
      ensures playerInRange && promptText != null ==> OfferedState(promptText.text) == Some(old(isOn))
      ensures !playerInRange && promptText != null ==> promptText.text == old(promptText.text)
      // out of range the prompt root changes only as one of the target objects
      ensures !playerInRange && promptRoot != null ==>
                promptRoot.activeSelf ==
                (if promptRoot in LiveObjects(objectsToToggle) then isOn else old(promptRoot.activeSelf))
    {
      PromptOffersTheOtherState(useKey, !isOn);
      isOn := !isOn;
      ApplyAllTargets();
      if playerInRange {
        ShowPrompt(true);
      }
      if isOn {
        events := events + [TurnedOn];
      } else {
        events := events + [TurnedOff];
      }
    }

    /** A frame: the use key toggles only while the player is in range. */
    method Update(keysDown: set<KeyCode>)
      modifies this`isOn, this`events, Targets(), promptRoot, promptText
      ensures playerInRange && useKey in keysDown ==>
                isOn == !old(isOn) && events == old(events) + [EventFor(isOn)] && Applied()
      ensures !(playerInRange && useKey in keysDown) ==>
                isOn == old(isOn) && events == old(events)
      ensures playerInRange && useKey in keysDown && promptRoot != null ==> promptRoot.activeSelf
      ensures playerInRange && useKey in keysDown && promptText != null ==>
                promptText.text == PromptText(useKey, isOn)
      ensures !(playerInRange && useKey in keysDown) ==> forall o :: o in Targets() ==> unchanged(o)
      ensures !(playerInRange && useKey in keysDown) ==>
                (promptRoot != null ==> unchanged(promptRoot)) && (promptText != null ==> unchanged(promptText))
    {
      if !playerInRange {
        return;
      }
      if useKey in keysDown {
        Toggle();
      }
    }
  }
}
