/** The fan switch: the player tag puts the player in range, the use key flips `isOn`,
    writes it to the `enabled` flag of every live fan and fires one event. Start only
    adopts the first live fan's state; it writes nothing to the fans. The lever rotation
    and indicator colour are not modelled. */
module ToggleFanSwitchModel {
  import opened Unity
  import opened SwitchTargets

  /** The state Start adopts: the first live fan's flag, else the current value. */
  function FanState(fromFans: Option<bool>, current: bool): (r: bool)
    ensures fromFans.Some? ==> r == fromFans.value
    ensures fromFans.None? ==> r == current
  {
    if fromFans.Some? then fromFans.value else current
  }

  class ToggleFanSwitch {
    /** The FanPush components, each seen only through its `enabled` flag. */
    const fansToToggle: array?<Behaviour?>
    const useKey: KeyCode
    const playerTag: string

    var playerInRange: bool
    var isOn: bool
    /** The events fired so far, in order. */
    var events: seq<SwitchEvent>

    constructor (fansToToggle: array?<Behaviour?>, useKey: KeyCode, playerTag: string)
      ensures this.fansToToggle == fansToToggle
      ensures this.useKey == useKey && this.playerTag == playerTag
      ensures !playerInRange && isOn && events == []
    {
      this.fansToToggle := fansToToggle;
      this.useKey := useKey;
      this.playerTag := playerTag;
      playerInRange := false;
      isOn := true;
      events := [];
    }

    /** Adopts the first live fan's state, if any; the fan array is walked without a null
        check, so it must exist. */
    method Start()
      requires fansToToggle != null
      modifies this`isOn
      ensures isOn == FanState(FirstBehaviourState(fansToToggle), old(isOn))
    {
      var fromFans := ScanBehaviours(fansToToggle);
      if fromFans.Some? {
        isOn := fromFans.value;
      }
    }

    /** Only a collider with the player tag changes whether the player is in range. */
    method OnTriggerEnter(otherTag: string)
      modifies this`playerInRange
      ensures playerInRange == (otherTag == playerTag || old(playerInRange))
    {
      if otherTag == playerTag {
        playerInRange := true;
      }
    }

    method OnTriggerExit(otherTag: string)
      modifies this`playerInRange
      ensures playerInRange == (otherTag != playerTag && old(playerInRange))
    {
      if otherTag == playerTag {
        playerInRange := false;
      }
    }

    /** Flips the state, writes it to every live fan (null entries untouched) and fires
        exactly the event matching the new state. The fan array is walked without a null
        check. */
    method Toggle()
      requires fansToToggle != null
      modifies this`isOn, this`events, LiveBehaviours(fansToToggle)
      ensures isOn == !old(isOn)
      ensures forall i :: 0 <= i < fansToToggle.Length && fansToToggle[i] != null ==>
                fansToToggle[i].enabled == isOn
      ensures events == old(events) + [EventFor(isOn)]
    {
      isOn := !isOn;
      SetBehavioursEnabled(fansToToggle, isOn);
      if isOn {
        events := events + [TurnedOn];
      } else {
        events := events + [TurnedOff];
      }
    }

    /** A frame: the use key toggles only while the player is in range (and only then
        is the fan array walked). */
    method Update(keysDown: set<KeyCode>)
      requires playerInRange && useKey in keysDown ==> fansToToggle != null
      modifies this`isOn, this`events, LiveBehaviours(fansToToggle)
      ensures playerInRange && useKey in keysDown ==>
                isOn == !old(isOn) && events == old(events) + [EventFor(isOn)] &&
                forall i :: 0 <= i < fansToToggle.Length && fansToToggle[i] != null ==>
                  fansToToggle[i].enabled == isOn
      ensures !(playerInRange && useKey in keysDown) ==>
                isOn == old(isOn) && events == old(events) &&
                forall o :: o in LiveBehaviours(fansToToggle) ==> unchanged(o)
    {
      if !playerInRange {
        return;
      }
      if useKey in keysDown {
        Toggle();
      }
    }
  }
}
