/** What the switch scripts share: the on/off events, the order in which Start adopts an
    initial state from the targets, and the loops that write the state to every live
    entry of a target array (null entries are skipped). */
module SwitchTargets {
  import opened Unity

  /** onTurnOn or onTurnOff. */
  datatype SwitchEvent = TurnedOn | TurnedOff

  /** The event a toggle fires for the state it has just switched to. */
  function EventFor(on: bool): (e: SwitchEvent)
    ensures e == TurnedOn <==> on
    ensures e == TurnedOff <==> !on
  {
    if on then TurnedOn else TurnedOff
  }

  /** The objects of each target array that the loops write. */
  function LiveBehaviours(a: array?<Behaviour?>): set<object>
    reads a
  {
    if a == null then {} else set i | 0 <= i < a.Length && a[i] != null :: a[i] as object
  }

  function LiveRenderers(a: array?<Renderer?>): set<object>
    reads a
  {
    if a == null then {} else set i | 0 <= i < a.Length && a[i] != null :: a[i] as object
  }

  function LiveObjects(a: array?<GameObject?>): set<object>
    reads a
  {
    if a == null then {} else set i | 0 <= i < a.Length && a[i] != null :: a[i] as object
  }

  /** The `enabled` flag of the first live behaviour, if there is one. */
  function FirstBehaviourState(a: array<Behaviour?>): (r: Option<bool>)
    reads a, LiveBehaviours(a)
    ensures r.None? <==> forall i :: 0 <= i < a.Length ==> a[i] == null
    ensures r.Some? ==> exists k :: 0 <= k < a.Length && a[k] != null && r.value == a[k].enabled &&
                                    forall j :: 0 <= j < k ==> a[j] == null
  {
    var k := FirstNonNull(a[..]);
    if k < a.Length then
      assert a[..][k] == a[k];
      Some(a[k].enabled)
    else
      assert forall i :: 0 <= i < a.Length ==> a[..][i] == a[i];
      None
  }

  /** The state Start adopts: the first renderer's flag or the first object's flag if
      present override the first live behaviour's flag, which overrides the current value. */
  function AdoptedState(fromBehaviours: Option<bool>, fromRenderer: Option<bool>,
                        fromObject: Option<bool>, current: bool): (r: bool)
    ensures fromObject.Some? ==> r == fromObject.value
    ensures fromObject.None? && fromRenderer.Some? ==> r == fromRenderer.value
    ensures fromObject.None? && fromRenderer.None? && fromBehaviours.Some? ==> r == fromBehaviours.value
    ensures fromObject.None? && fromRenderer.None? && fromBehaviours.None? ==> r == current
  {
    if fromObject.Some? then fromObject.value
    else if fromRenderer.Some? then fromRenderer.value
    else if fromBehaviours.Some? then fromBehaviours.value
    else current
  }

  /** The flag of the first entry of a renderer array, if that entry is live. */
  function FirstRendererState(a: array?<Renderer?>): Option<bool>
    reads a, LiveRenderers(a)
  {
    if a != null && a.Length > 0 && a[0] != null then Some(a[0].enabled) else None
  }

  function FirstObjectState(a: array?<GameObject?>): Option<bool>
    reads a, LiveObjects(a)
  {
    if a != null && a.Length > 0 && a[0] != null then Some(a[0].activeSelf) else None
  }

  /** The foreach-with-break over the behaviours: the first live entry's flag. */
  method ScanBehaviours(a: array<Behaviour?>) returns (r: Option<bool>)
    ensures r == FirstBehaviourState(a)
  {
    r := None;
    var i := 0;
    while i < a.Length
      invariant 0 <= i <= a.Length
      invariant r.None?
      invariant forall j :: 0 <= j < i ==> a[j] == null
    {
      if a[i] != null {
        r := Some(a[i].enabled);
        assert a[..][i] == a[i];
        assert FirstNonNull(a[..]) == i by {
          FirstNonNullIsFirst(a[..], i);
        }
        return;
      }
      i := i + 1;
    }
    assert forall j :: 0 <= j < a.Length ==> a[..][j] == a[j];
  }

  /** The first non-null entry is where every earlier entry is null. */
  lemma FirstNonNullIsFirst(s: seq<object?>, i: nat)
    requires i < |s| && s[i] != null
    requires forall j :: 0 <= j < i ==> s[j] == null
    ensures FirstNonNull(s) == i
  {
  }

  method SetBehavioursEnabled(a: array?<Behaviour?>, on: bool)
    modifies LiveBehaviours(a)
    ensures a != null ==> forall i :: 0 <= i < a.Length && a[i] != null ==> a[i].enabled == on
  {
    if a == null {
      return;
    }
    for i := 0 to a.Length
      invariant forall j :: 0 <= j < i && a[j] != null ==> a[j].enabled == on
    {
      if a[i] != null {
        a[i].enabled := on;
      }
    }
  }

  method SetRenderersEnabled(a: array?<Renderer?>, on: bool)
    modifies LiveRenderers(a)
    ensures a != null ==> forall i :: 0 <= i < a.Length && a[i] != null ==> a[i].enabled == on
  {
    if a == null {
      return;
    }
    for i := 0 to a.Length
      invariant forall j :: 0 <= j < i && a[j] != null ==> a[j].enabled == on
    {
      if a[i] != null {
        a[i].enabled := on;
      }
    }
  }

  method SetObjectsActive(a: array?<GameObject?>, on: bool)
    modifies LiveObjects(a)
    ensures a != null ==> forall i :: 0 <= i < a.Length && a[i] != null ==> a[i].activeSelf == on
  {
    if a == null {
      return;
    }
    for i := 0 to a.Length
      invariant forall j :: 0 <= j < i && a[j] != null ==> a[j].activeSelf == on
    {
      if a[i] != null {
        a[i].activeSelf := on;
      }
    }
  }
}
