/** The earlier lever switch, without a prompt: the player tag puts the player in range,
    the use key flips `isOn`, writes it to every live behaviour, renderer and object
    target and fires one event. The lever rotation and indicator colour are not modelled. */
module AssetsToggleSwitchModel {
  import opened Unity
  import opened SwitchTargets

  class ToggleSwitch {
    const behavioursToToggle: array?<Behaviour?>
    const renderersToToggle: array?<Renderer?>
    const objectsToToggle: array?<GameObject?>
    const useKey: KeyCode
    const playerTag: string

    var playerInRange: bool
    var isOn: bool
    /** The events fired so far, in order. */
    var events: seq<SwitchEvent>

    constructor (behavioursToToggle: array?<Behaviour?>, renderersToToggle: array?<Renderer?>,
                 objectsToToggle: array?<GameObject?>, useKey: KeyCode, playerTag: string)
      ensures this.behavioursToToggle == behavioursToToggle
      ensures this.renderersToToggle == renderersToToggle
      ensures this.objectsToToggle == objectsToToggle
      ensures this.useKey == useKey && this.playerTag == playerTag
      ensures !playerInRange && isOn && events == []
    {
      this.behavioursToToggle := behavioursToToggle;
      this.renderersToToggle := renderersToToggle;
      this.objectsToToggle := objectsToToggle;
      this.useKey := useKey;
      this.playerTag := playerTag;
      playerInRange := false;
      isOn := true;
      events := [];
    }

    /** The live targets. */
    function Targets(): set<object>
      reads this, behavioursToToggle, renderersToToggle, objectsToToggle
    {
      LiveBehaviours(behavioursToToggle) + LiveRenderers(renderersToToggle) + LiveObjects(objectsToToggle)
    }

    /** Every live target shows `isOn`. */
    predicate Applied()
      reads this, behavioursToToggle, renderersToToggle, objectsToToggle, Targets()
    {
      (behavioursToToggle != null ==>
         forall i :: 0 <= i < behavioursToToggle.Length && behavioursToToggle[i] != null ==>
           behavioursToToggle[i].enabled == isOn) &&
      (renderersToToggle != null ==>
         forall i :: 0 <= i < renderersToToggle.Length && renderersToToggle[i] != null ==>
           renderersToToggle[i].enabled == isOn) &&
      (objectsToToggle != null ==>
         forall i :: 0 <= i < objectsToToggle.Length && objectsToToggle[i] != null ==>
           objectsToToggle[i].activeSelf == isOn)
    }

    method ApplyAllTargets()
      modifies Targets()
      ensures Applied()
    {
      SetBehavioursEnabled(behavioursToToggle, isOn);
      SetRenderersEnabled(renderersToToggle, isOn);
      SetObjectsActive(objectsToToggle, isOn);
    }

    /** The state adopted from the targets, in the same priority as the prompting switch. */
    function InitialState(current: bool): bool
      requires behavioursToToggle != null
      reads this, behavioursToToggle, renderersToToggle, objectsToToggle, Targets()
    {
      AdoptedState(FirstBehaviourState(behavioursToToggle), FirstRendererState(renderersToToggle),
                   FirstObjectState(objectsToToggle), current)
    }

    /** The adoption steps of Start; the behaviour array is walked without a null check. */
    method AdoptInitialState()
      requires behavioursToToggle != null
      modifies this`isOn
      ensures isOn == InitialState(old(isOn))
    {
      var fromBehaviours := ScanBehaviours(behavioursToToggle);
      if fromBehaviours.Some? {
        isOn := fromBehaviours.value;
      }
      if renderersToToggle != null && renderersToToggle.Length > 0 && renderersToToggle[0] != null {
        isOn := renderersToToggle[0].enabled;
      }
      if objectsToToggle != null && objectsToToggle.Length > 0 && objectsToToggle[0] != null {
        isOn := objectsToToggle[0].activeSelf;
      }
    }

    /** Adopts the initial state and applies it to every live target. */
    method Start()
      requires behavioursToToggle != null
      modifies this`isOn, Targets()
      ensures isOn == old(InitialState(isOn))
      ensures Applied()
    {
      AdoptInitialState();
      ApplyAllTargets();
    }

    /** Only a collider with the player tag changes whether the player is in range. */
    method OnTriggerEnter(otherTag: string)
      modifies this`playerInRange
      ensures playerInRange == (otherTag == playerTag || old(playerInRange))
    {
      if otherTag == playerTag {
        playerInRange := true;
      }
    }

    method OnTriggerExit(otherTag: string)
      modifies this`playerInRange
      ensures playerInRange == (otherTag != playerTag && old(playerInRange))
    {
      if otherTag == playerTag {
        playerInRange := false;
      }
    }

    /** Flips the state, applies it, and fires exactly the event matching the new state. */
    method Toggle()
      modifies this`isOn, this`events, Targets()
      ensures isOn == !old(isOn)
      ensures events == old(events) + [EventFor(isOn)]
      ensures Applied()
    {
      isOn := !isOn;
      ApplyAllTargets();
      if isOn {
        events := events + [TurnedOn];
      } else {
        events := events + [TurnedOff];
      }
    }

    /** A frame: the use key toggles only while the player is in range. */
    method Update(keysDown: set<KeyCode>)
      modifies this`isOn, this`events, Targets()
      ensures playerInRange && useKey in keysDown ==>
                isOn == !old(isOn) && events == old(events) + [EventFor(isOn)] && Applied()
      ensures !(playerInRange && useKey in keysDown) ==>
                isOn == old(isOn) && events == old(events)
      ensures !(playerInRange && useKey in keysDown) ==> forall o :: o in Targets() ==> unchanged(o)
    {
      if !playerInRange {
        return;
      }
      if useKey in keysDown {
        Toggle();
      }
    }
  }
}
