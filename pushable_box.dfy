/** The pushable box's reset: it remembers where it stood at Start, and a reset stops it
    and puts it back there. The pushing itself is physics and is not modelled. */
module PushableBoxModel {
  import opened Unity

  class PushableBox {
    /** The box's position and its rigidbody's linear and angular velocity. */
    var position: Vec3
    var velocity: Vec3
    var angularVelocity: Vec3
    /** The position recorded at Start. */
    var startPos: Vec3

    /** A box placed at `position`; until Start the recorded start is the default zero. */
    constructor (position: Vec3)
      ensures this.position == position && startPos == Zero3
      ensures velocity == Zero3 && angularVelocity == Zero3
    {
      this.position := position;
      startPos := Zero3;
      velocity := Zero3;
      angularVelocity := Zero3;
    }

    /** At rest where it started. */
    predicate AtStart()
      reads this
    {
      position == startPos && velocity == Zero3 && angularVelocity == Zero3
    }

    /** Records the current position as the start. */
    method Start()
      modifies this`startPos
      ensures startPos == position
    {
      startPos := position;
    }

    /** Stops the box and puts it back at its start. */
    method ResetBox()
      modifies this`position, this`velocity, this`angularVelocity
      ensures AtStart()
    {
      velocity := Zero3;
      angularVelocity := Zero3;
      position := startPos;
    }
  }

  /** Resets every box found, one after another; their starts are kept. */
  method ResetBoxes(boxes: seq<PushableBox>)
    modifies set b | b in boxes
    ensures forall b :: b in boxes ==> b.AtStart() && b.startPos == old(b.startPos)
  {
    for i := 0 to |boxes|
      invariant forall j :: 0 <= j < i ==> boxes[j].AtStart()
      invariant forall b :: b in boxes ==> b.startPos == old(b.startPos)
    {
      boxes[i].ResetBox();
    }
  }
}
