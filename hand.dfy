/** Plain values standing in for the tracking sensor's hand, finger and bone
    objects: only the parts the pose recogniser reads are kept. */
module HandModel {

  /** A point or direction in sensor space (millimetres); At(w) is the w-th
      coordinate, as the sensor's vector index operator gives it. */
  datatype Vec3 = Vec3(x: real, y: real, z: real) {

    function At(w: int): real
      requires 0 <= w < 3
    {
      if w == 0 then x else if w == 1 then y else z
    }

    function Plus(t: Vec3): (r: Vec3)
      ensures forall w :: 0 <= w < 3 ==> r.At(w) == At(w) + t.At(w)
    {
      Vec3(x + t.x, y + t.y, z + t.z)
    }

    function Minus(o: Vec3): (r: Vec3)
      ensures forall w :: 0 <= w < 3 ==> r.At(w) == At(w) - o.At(w)
    {
      Vec3(x - o.x, y - o.y, z - o.z)
    }
  }

  const Origin := Vec3(0.0, 0.0, 0.0)

  /** One bone segment: the joint it starts at, the joint it ends at, and its direction. */
  datatype Bone = Bone(prevJoint: Vec3, nextJoint: Vec3, direction: Vec3)

  /** A finger always has four bones, indexed 0 (metacarpal) to 3 (distal). */
  datatype Finger = Finger(extended: bool, length: real,
                           metacarpal: Bone, proximal: Bone, intermediate: Bone, distal: Bone)
  {
    function BoneAt(b: int): Bone
      requires 0 <= b < 4
    {
      if b == 0 then metacarpal
      else if b == 1 then proximal
      else if b == 2 then intermediate
      else distal
    }
  }

  /** A hand as the sensor reports it; an invalid hand is flagged by `valid == false`. */
  datatype Hand = Hand(valid: bool, fingers: seq<Finger>)

  /** One sensor frame: the hands it saw, the first one being the one that is used. */
  datatype Frame = Frame(hands: seq<Hand>)

  function TranslateBone(bone: Bone, t: Vec3): Bone
  {
    Bone(bone.prevJoint.Plus(t), bone.nextJoint.Plus(t), bone.direction)
  }

  function TranslateFinger(f: Finger, t: Vec3): (r: Finger)
    ensures r.extended == f.extended && r.length == f.length
    ensures forall b :: 0 <= b < 4 ==> r.BoneAt(b) == TranslateBone(f.BoneAt(b), t)
  {
    Finger(f.extended, f.length,
           TranslateBone(f.metacarpal, t), TranslateBone(f.proximal, t),
           TranslateBone(f.intermediate, t), TranslateBone(f.distal, t))
  }

  /** The same hand moved bodily by `t`: every joint shifts, no direction changes. */
  function Translate(h: Hand, t: Vec3): (r: Hand)
    ensures r.valid == h.valid && |r.fingers| == |h.fingers|
    ensures forall i :: 0 <= i < |h.fingers| ==> r.fingers[i] == TranslateFinger(h.fingers[i], t)
  {
    Hand(h.valid, seq(|h.fingers|, i requires 0 <= i < |h.fingers| => TranslateFinger(h.fingers[i], t)))
  }
}
