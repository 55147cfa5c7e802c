/** A recorded hand pose (a "hand signal"): how one is built from a sensor hand,
    with every finger's joints made relative to that finger's own metacarpal
    start joint, and how a live hand is compared against it under the
    signal's tolerances, with a distinct error code for each way it can fail. */
module HandSignals {
  import opened HandModel

  /** The fixed capacity of a signal, in fingers. */
  const MaxFingers := 20

  /** The tolerances a comparison allows. */
  datatype Sensitivity = Sensitivity(fingerLengthDiff: real, positionDiff: real, directionDiff: real)

  /** The recorded pose: one entry per finger, and per finger one entry per bone. */
  datatype SignalData = SignalData(
    fingers: int,
    fingerLengths: seq<real>,
    fingerExtended: seq<bool>,
    boneStarts: seq<seq<Vec3>>,
    boneEnds: seq<seq<Vec3>>,
    boneDirs: seq<seq<Vec3>>,
    settings: Sensitivity)
  {
    /** The shape of the fixed-size arrays: room for `fingers` fingers of four bones each. */
    predicate WellFormed()
    {
      && 0 <= fingers <= MaxFingers
      && |fingerLengths| == fingers && |fingerExtended| == fingers
      && |boneStarts| == fingers && |boneEnds| == fingers && |boneDirs| == fingers
      && forall i :: 0 <= i < fingers ==> |boneStarts[i]| == 4 && |boneEnds[i]| == 4 && |boneDirs[i]| == 4
    }

    predicate IsValid()
    {
      fingers > 0
    }
  }

  type HandSignal = s: SignalData | s.WellFormed()
    witness SignalData(0, [], [], [], [], [], Sensitivity(0.0, 0.0, 0.0))

  /** The signal a rejected hand gives: no fingers at all. */
  function InvalidSignal(config: Sensitivity): HandSignal
  {
    SignalData(0, [], [], [], [], [], config)
  }

  // ---------------------------------------------------------------------------
  // Construction
  // ---------------------------------------------------------------------------

  /** The signal a hand is turned into: a hand that is not valid, or that has
      more than MaxFingers fingers, gives the invalid signal; otherwise every
      finger's bones are stored relative to its own metacarpal start joint. */
  function Built(hand: Hand, config: Sensitivity): (s: HandSignal)
    ensures s.settings == config
    ensures s.fingers == if !hand.valid || |hand.fingers| > MaxFingers then 0 else |hand.fingers|
    ensures forall i :: 0 <= i < s.fingers ==>
              s.fingerLengths[i] == hand.fingers[i].length && s.fingerExtended[i] == hand.fingers[i].extended
    ensures forall i :: 0 <= i < s.fingers ==> s.boneStarts[i][0] == Origin
    ensures forall i, b :: 0 <= i < s.fingers && 0 <= b < 4 ==>
              s.boneStarts[i][b] == hand.fingers[i].BoneAt(b).prevJoint.Minus(hand.fingers[i].BoneAt(0).prevJoint)
    ensures forall i, b :: 0 <= i < s.fingers && 0 <= b < 4 ==>
              s.boneEnds[i][b].Minus(s.boneStarts[i][b])
              == hand.fingers[i].BoneAt(b).nextJoint.Minus(hand.fingers[i].BoneAt(b).prevJoint)
    ensures forall i, b :: 0 <= i < s.fingers && 0 <= b < 4 ==>
              s.boneDirs[i][b] == hand.fingers[i].BoneAt(b).direction
  {
    if !hand.valid || |hand.fingers| > MaxFingers then
      InvalidSignal(config)
    else
      var fs := hand.fingers;
      var n := |fs|;
      SignalData(
        n,
        seq(n, i requires 0 <= i < n => fs[i].length),
        seq(n, i requires 0 <= i < n => fs[i].extended),
        seq(n, i requires 0 <= i < n =>
          seq(4, b requires 0 <= b < 4 => fs[i].BoneAt(b).prevJoint.Minus(fs[i].BoneAt(0).prevJoint))),
        seq(n, i requires 0 <= i < n =>
          seq(4, b requires 0 <= b < 4 => fs[i].BoneAt(b).nextJoint.Minus(fs[i].BoneAt(0).prevJoint))),
        seq(n, i requires 0 <= i < n =>
          seq(4, b requires 0 <= b < 4 => fs[i].BoneAt(b).direction)),
        config)
  }

  /** Sets every start, end and direction coordinate of row i to zero. */
  method ZeroBones(i: int, starts: array3<real>, ends: array3<real>, dirs: array3<real>)
    requires starts != ends && starts != dirs && ends != dirs
    requires 0 <= i < starts.Length0 && starts.Length1 == 4 && starts.Length2 == 3
    requires i < ends.Length0 && ends.Length1 == 4 && ends.Length2 == 3
    requires i < dirs.Length0 && dirs.Length1 == 4 && dirs.Length2 == 3
    modifies starts, ends, dirs
    ensures forall b, w :: 0 <= b < 4 && 0 <= w < 3 ==>
              starts[i, b, w] == 0.0 && ends[i, b, w] == 0.0 && dirs[i, b, w] == 0.0
    ensures forall j, b, w :: 0 <= j < starts.Length0 && j != i && 0 <= b < 4 && 0 <= w < 3 ==>
              starts[j, b, w] == old(starts[j, b, w])
    ensures forall j, b, w :: 0 <= j < ends.Length0 && j != i && 0 <= b < 4 && 0 <= w < 3 ==>
              ends[j, b, w] == old(ends[j, b, w])
    ensures forall j, b, w :: 0 <= j < dirs.Length0 && j != i && 0 <= b < 4 && 0 <= w < 3 ==>
              dirs[j, b, w] == old(dirs[j, b, w])
  {
    for b := 0 to 4
      invariant forall b', w :: 0 <= b' < b && 0 <= w < 3 ==>
                  starts[i, b', w] == 0.0 && ends[i, b', w] == 0.0 && dirs[i, b', w] == 0.0
      invariant forall j, b', w :: 0 <= j < starts.Length0 && j != i && 0 <= b' < 4 && 0 <= w < 3 ==>
                  starts[j, b', w] == old(starts[j, b', w])
      invariant forall j, b', w :: 0 <= j < ends.Length0 && j != i && 0 <= b' < 4 && 0 <= w < 3 ==>
                  ends[j, b', w] == old(ends[j, b', w])
      invariant forall j, b', w :: 0 <= j < dirs.Length0 && j != i && 0 <= b' < 4 && 0 <= w < 3 ==>
                  dirs[j, b', w] == old(dirs[j, b', w])
    {
      for w := 0 to 3
        invariant forall b', w' :: 0 <= b' < b && 0 <= w' < 3 ==>
                    starts[i, b', w'] == 0.0 && ends[i, b', w'] == 0.0 && dirs[i, b', w'] == 0.0
        invariant forall w' :: 0 <= w' < w ==>
                    starts[i, b, w'] == 0.0 && ends[i, b, w'] == 0.0 && dirs[i, b, w'] == 0.0
        invariant forall j, b', w' :: 0 <= j < starts.Length0 && j != i && 0 <= b' < 4 && 0 <= w' < 3 ==>
                    starts[j, b', w'] == old(starts[j, b', w'])
        invariant forall j, b', w' :: 0 <= j < ends.Length0 && j != i && 0 <= b' < 4 && 0 <= w' < 3 ==>
                    ends[j, b', w'] == old(ends[j, b', w'])
        invariant forall j, b', w' :: 0 <= j < dirs.Length0 && j != i && 0 <= b' < 4 && 0 <= w' < 3 ==>
                    dirs[j, b', w'] == old(dirs[j, b', w'])
      {
        starts[i, b, w] := 0.0;
        ends[i, b, w] := 0.0;
        dirs[i, b, w] := 0.0;
      }
    }
  }

  /** Sets the first n fingers' slots of every array to zero (false for the
      flags); the slots from n on keep what they held. */
  method ZeroFill(n: int, lengths: array<real>, extended: array<bool>,
                  starts: array3<real>, ends: array3<real>, dirs: array3<real>)
    requires starts != ends && starts != dirs && ends != dirs
    requires 0 <= n <= lengths.Length && n <= extended.Length
    requires n <= starts.Length0 && starts.Length1 == 4 && starts.Length2 == 3
    requires n <= ends.Length0 && ends.Length1 == 4 && ends.Length2 == 3
    requires n <= dirs.Length0 && dirs.Length1 == 4 && dirs.Length2 == 3
    modifies lengths, extended, starts, ends, dirs
    ensures forall i :: 0 <= i < n ==> lengths[i] == 0.0 && !extended[i]
    ensures forall i, b, w :: 0 <= i < n && 0 <= b < 4 && 0 <= w < 3 ==>
              starts[i, b, w] == 0.0 && ends[i, b, w] == 0.0 && dirs[i, b, w] == 0.0
    ensures forall i :: n <= i < lengths.Length ==> lengths[i] == old(lengths[i])
    ensures forall i :: n <= i < extended.Length ==> extended[i] == old(extended[i])
    ensures forall i, b, w :: n <= i < starts.Length0 && 0 <= b < 4 && 0 <= w < 3 ==>
              starts[i, b, w] == old(starts[i, b, w])
    ensures forall i, b, w :: n <= i < ends.Length0 && 0 <= b < 4 && 0 <= w < 3 ==>
              ends[i, b, w] == old(ends[i, b, w])
    ensures forall i, b, w :: n <= i < dirs.Length0 && 0 <= b < 4 && 0 <= w < 3 ==>
              dirs[i, b, w] == old(dirs[i, b, w])
  {
    for i := 0 to n
      invariant forall j :: 0 <= j < i ==> lengths[j] == 0.0 && !extended[j]
      invariant forall j, b, w :: 0 <= j < i && 0 <= b < 4 && 0 <= w < 3 ==>
                  starts[j, b, w] == 0.0 && ends[j, b, w] == 0.0 && dirs[j, b, w] == 0.0
      invariant forall j :: i <= j < lengths.Length ==> lengths[j] == old(lengths[j])
      invariant forall j :: i <= j < extended.Length ==> extended[j] == old(extended[j])
      invariant forall j, b, w :: i <= j < starts.Length0 && 0 <= b < 4 && 0 <= w < 3 ==>
                  starts[j, b, w] == old(starts[j, b, w])
      invariant forall j, b, w :: i <= j < ends.Length0 && 0 <= b < 4 && 0 <= w < 3 ==>
                  ends[j, b, w] == old(ends[j, b, w])
      invariant forall j, b, w :: i <= j < dirs.Length0 && 0 <= b < 4 && 0 <= w < 3 ==>
                  dirs[j, b, w] == old(dirs[j, b, w])
    {
      lengths[i] := 0.0;
      extended[i] := false;
      ZeroBones(i, starts, ends, dirs);
    }
  }

  /** Copies one finger's bone joints and directions into row i. */
  method CopyBones(f: Finger, i: int, starts: array3<real>, ends: array3<real>, dirs: array3<real>)
    requires starts != ends && starts != dirs && ends != dirs
    requires 0 <= i < starts.Length0 && starts.Length1 == 4 && starts.Length2 == 3
    requires i < ends.Length0 && ends.Length1 == 4 && ends.Length2 == 3
    requires i < dirs.Length0 && dirs.Length1 == 4 && dirs.Length2 == 3
    modifies starts, ends, dirs
    ensures forall b, w :: 0 <= b < 4 && 0 <= w < 3 ==>
              && starts[i, b, w] == f.BoneAt(b).prevJoint.At(w)
              && ends[i, b, w] == f.BoneAt(b).nextJoint.At(w)
              && dirs[i, b, w] == f.BoneAt(b).direction.At(w)
    ensures forall j, b, w :: 0 <= j < starts.Length0 && j != i && 0 <= b < 4 && 0 <= w < 3 ==>
              starts[j, b, w] == old(starts[j, b, w])
    ensures forall j, b, w :: 0 <= j < ends.Length0 && j != i && 0 <= b < 4 && 0 <= w < 3 ==>
              ends[j, b, w] == old(ends[j, b, w])
    ensures forall j, b, w :: 0 <= j < dirs.Length0 && j != i && 0 <= b < 4 && 0 <= w < 3 ==>
              dirs[j, b, w] == old(dirs[j, b, w])
  {
    for b := 0 to 4
      invariant forall b', w :: 0 <= b' < b && 0 <= w < 3 ==>
                  && starts[i, b', w] == f.BoneAt(b').prevJoint.At(w)
                  && ends[i, b', w] == f.BoneAt(b').nextJoint.At(w)
                  && dirs[i, b', w] == f.BoneAt(b').direction.At(w)
      invariant forall j, b', w :: 0 <= j < starts.Length0 && j != i && 0 <= b' < 4 && 0 <= w < 3 ==>
                  starts[j, b', w] == old(starts[j, b', w])
      invariant forall j, b', w :: 0 <= j < ends.Length0 && j != i && 0 <= b' < 4 && 0 <= w < 3 ==>
                  ends[j, b', w] == old(ends[j, b', w])
      invariant forall j, b', w :: 0 <= j < dirs.Length0 && j != i && 0 <= b' < 4 && 0 <= w < 3 ==>
                  dirs[j, b', w] == old(dirs[j, b', w])
    {
      var bone := f.BoneAt(b);
      for w := 0 to 3
        invariant forall b', w' :: 0 <= b' < b && 0 <= w' < 3 ==>
                    && starts[i, b', w'] == f.BoneAt(b').prevJoint.At(w')
                    && ends[i, b', w'] == f.BoneAt(b').nextJoint.At(w')
                    && dirs[i, b', w'] == f.BoneAt(b').direction.At(w')
        invariant forall w' :: 0 <= w' < w ==>
                    && starts[i, b, w'] == bone.prevJoint.At(w')
                    && ends[i, b, w'] == bone.nextJoint.At(w')
                    && dirs[i, b, w'] == bone.direction.At(w')
        invariant forall j, b', w' :: 0 <= j < starts.Length0 && j != i && 0 <= b' < 4 && 0 <= w' < 3 ==>
                    starts[j, b', w'] == old(starts[j, b', w'])
        invariant forall j, b', w' :: 0 <= j < ends.Length0 && j != i && 0 <= b' < 4 && 0 <= w' < 3 ==>
                    ends[j, b', w'] == old(ends[j, b', w'])
        invariant forall j, b', w' :: 0 <= j < dirs.Length0 && j != i && 0 <= b' < 4 && 0 <= w' < 3 ==>
                    dirs[j, b', w'] == old(dirs[j, b', w'])
      {
        starts[i, b, w] := bone.prevJoint.At(w);
        ends[i, b, w] := bone.nextJoint.At(w);
        dirs[i, b, w] := bone.direction.At(w);
      }
    }
  }

  /** Copies every finger's flag, length and bones, in the order the hand lists them. */
  method CopyFingers(hand: Hand, lengths: array<real>, extended: array<bool>,
                     starts: array3<real>, ends: array3<real>, dirs: array3<real>)
    requires starts != ends && starts != dirs && ends != dirs
    requires |hand.fingers| <= lengths.Length && |hand.fingers| <= extended.Length
    requires |hand.fingers| <= starts.Length0 && starts.Length1 == 4 && starts.Length2 == 3
    requires |hand.fingers| <= ends.Length0 && ends.Length1 == 4 && ends.Length2 == 3
    requires |hand.fingers| <= dirs.Length0 && dirs.Length1 == 4 && dirs.Length2 == 3
    requires forall i :: 0 <= i < |hand.fingers| ==> lengths[i] == 0.0
    modifies lengths, extended, starts, ends, dirs
    ensures forall i :: 0 <= i < |hand.fingers| ==>
              lengths[i] == hand.fingers[i].length && extended[i] == hand.fingers[i].extended
    ensures forall i, b, w :: 0 <= i < |hand.fingers| && 0 <= b < 4 && 0 <= w < 3 ==>
              && starts[i, b, w] == hand.fingers[i].BoneAt(b).prevJoint.At(w)
              && ends[i, b, w] == hand.fingers[i].BoneAt(b).nextJoint.At(w)
              && dirs[i, b, w] == hand.fingers[i].BoneAt(b).direction.At(w)
    ensures forall i :: |hand.fingers| <= i < lengths.Length ==> lengths[i] == old(lengths[i])
    ensures forall i :: |hand.fingers| <= i < extended.Length ==> extended[i] == old(extended[i])
    ensures forall i, b, w :: |hand.fingers| <= i < starts.Length0 && 0 <= b < 4 && 0 <= w < 3 ==>
              starts[i, b, w] == old(starts[i, b, w])
    ensures forall i, b, w :: |hand.fingers| <= i < ends.Length0 && 0 <= b < 4 && 0 <= w < 3 ==>
              ends[i, b, w] == old(ends[i, b, w])
    ensures forall i, b, w :: |hand.fingers| <= i < dirs.Length0 && 0 <= b < 4 && 0 <= w < 3 ==>
              dirs[i, b, w] == old(dirs[i, b, w])
  {
    var fs := hand.fingers;
    for i := 0 to |fs|
      invariant forall j :: 0 <= j < i ==> lengths[j] == fs[j].length && extended[j] == fs[j].extended
      invariant forall j :: i <= j < |fs| ==> lengths[j] == 0.0
      invariant forall j, b, w :: 0 <= j < i && 0 <= b < 4 && 0 <= w < 3 ==>
                  && starts[j, b, w] == fs[j].BoneAt(b).prevJoint.At(w)
                  && ends[j, b, w] == fs[j].BoneAt(b).nextJoint.At(w)
                  && dirs[j, b, w] == fs[j].BoneAt(b).direction.At(w)
      invariant forall j :: i <= j < lengths.Length ==> lengths[j] == old(lengths[j])
      invariant forall j :: i <= j < extended.Length ==> extended[j] == old(extended[j])
      invariant forall j, b, w :: i <= j < starts.Length0 && 0 <= b < 4 && 0 <= w < 3 ==>
                  starts[j, b, w] == old(starts[j, b, w])
      invariant forall j, b, w :: i <= j < ends.Length0 && 0 <= b < 4 && 0 <= w < 3 ==>
                  ends[j, b, w] == old(ends[j, b, w])
      invariant forall j, b, w :: i <= j < dirs.Length0 && 0 <= b < 4 && 0 <= w < 3 ==>
                  dirs[j, b, w] == old(dirs[j, b, w])
    {
      var finger := fs[i];
      extended[i] := finger.extended;
      lengths[i] := lengths[i] + finger.length;
      CopyBones(finger, i, starts, ends, dirs);
    }
  }

  /** Subtracts row i's offset from every start and end joint of that row. */
  method SubtractOffset(i: int, offset: array2<real>, starts: array3<real>, ends: array3<real>)
    requires starts != ends
    requires 0 <= i < offset.Length0 && offset.Length1 == 3
    requires i < starts.Length0 && starts.Length1 == 4 && starts.Length2 == 3
    requires i < ends.Length0 && ends.Length1 == 4 && ends.Length2 == 3
    modifies starts, ends
    ensures forall b, w :: 0 <= b < 4 && 0 <= w < 3 ==>
              starts[i, b, w] == old(starts[i, b, w]) - offset[i, w]
              && ends[i, b, w] == old(ends[i, b, w]) - offset[i, w]
    ensures forall j, b, w :: 0 <= j < starts.Length0 && j != i && 0 <= b < 4 && 0 <= w < 3 ==>
              starts[j, b, w] == old(starts[j, b, w])
    ensures forall j, b, w :: 0 <= j < ends.Length0 && j != i && 0 <= b < 4 && 0 <= w < 3 ==>
              ends[j, b, w] == old(ends[j, b, w])
  {
    for b := 0 to 4
      invariant forall b', w :: 0 <= b' < b && 0 <= w < 3 ==>
                  starts[i, b', w] == old(starts[i, b', w]) - offset[i, w]
                  && ends[i, b', w] == old(ends[i, b', w]) - offset[i, w]
      invariant forall b', w :: b <= b' < 4 && 0 <= w < 3 ==>
                  starts[i, b', w] == old(starts[i, b', w]) && ends[i, b', w] == old(ends[i, b', w])
      invariant forall j, b', w :: 0 <= j < starts.Length0 && j != i && 0 <= b' < 4 && 0 <= w < 3 ==>
                  starts[j, b', w] == old(starts[j, b', w])
      invariant forall j, b', w :: 0 <= j < ends.Length0 && j != i && 0 <= b' < 4 && 0 <= w < 3 ==>
                  ends[j, b', w] == old(ends[j, b', w])
    {
      for w := 0 to 3
        invariant forall b', w' :: 0 <= b' < b && 0 <= w' < 3 ==>
                    starts[i, b', w'] == old(starts[i, b', w']) - offset[i, w']
                    && ends[i, b', w'] == old(ends[i, b', w']) - offset[i, w']
        invariant forall w' :: 0 <= w' < w ==>
                    starts[i, b, w'] == old(starts[i, b, w']) - offset[i, w']
                    && ends[i, b, w'] == old(ends[i, b, w']) - offset[i, w']
        invariant forall b', w' :: b <= b' < 4 && 0 <= w' < 3 && (b' != b || w <= w') ==>
                    starts[i, b', w'] == old(starts[i, b', w']) && ends[i, b', w'] == old(ends[i, b', w'])
        invariant forall j, b', w' :: 0 <= j < starts.Length0 && j != i && 0 <= b' < 4 && 0 <= w' < 3 ==>
                    starts[j, b', w'] == old(starts[j, b', w'])
        invariant forall j, b', w' :: 0 <= j < ends.Length0 && j != i && 0 <= b' < 4 && 0 <= w' < 3 ==>
                    ends[j, b', w'] == old(ends[j, b', w'])
      {
        starts[i, b, w] := starts[i, b, w] - offset[i, w];
        ends[i, b, w] := ends[i, b, w] - offset[i, w];
      }
    }
  }

  /** Rows 0..n-1 of a fingers-by-bones-by-axes array, read as vectors. */
  function Rows(a: array3<real>, n: int): (r: seq<seq<Vec3>>)
    reads a
    requires 0 <= n <= a.Length0 && a.Length1 == 4 && a.Length2 == 3
    ensures |r| == n
    ensures forall i :: 0 <= i < n ==> |r[i]| == 4
    ensures forall i, b :: 0 <= i < n && 0 <= b < 4 ==> r[i][b] == Vec3(a[i, b, 0], a[i, b, 1], a[i, b, 2])
  {
    seq(n, i requires 0 <= i < n reads a =>
      seq(4, b requires 0 <= b < 4 reads a => Vec3(a[i, b, 0], a[i, b, 1], a[i, b, 2])))
  }

  /** The arrays hold finger j's flag, length and raw joints and directions, for j < |hand.fingers|. */
  ghost predicate HoldsRaw(hand: Hand, starts: array3<real>, ends: array3<real>, dirs: array3<real>)
    reads starts, ends, dirs
  {
    var n := |hand.fingers|;
    && n <= starts.Length0 && starts.Length1 == 4 && starts.Length2 == 3
    && n <= ends.Length0 && ends.Length1 == 4 && ends.Length2 == 3
    && n <= dirs.Length0 && dirs.Length1 == 4 && dirs.Length2 == 3
    && forall j, b, w :: 0 <= j < n && 0 <= b < 4 && 0 <= w < 3 ==>
         && starts[j, b, w] == hand.fingers[j].BoneAt(b).prevJoint.At(w)
         && ends[j, b, w] == hand.fingers[j].BoneAt(b).nextJoint.At(w)
         && dirs[j, b, w] == hand.fingers[j].BoneAt(b).direction.At(w)
  }

  /** Records every finger's metacarpal start joint before any joint is moved. */
  method FillOffsets(n: int, starts: array3<real>, offset: array2<real>)
    requires 0 <= n <= starts.Length0 && starts.Length1 == 4 && starts.Length2 == 3
    requires n <= offset.Length0 && offset.Length1 == 3
    modifies offset
    ensures forall j, w :: 0 <= j < n && 0 <= w < 3 ==> offset[j, w] == starts[j, 0, w]
  {
    for i := 0 to n
      invariant forall j, w :: 0 <= j < i && 0 <= w < 3 ==> offset[j, w] == starts[j, 0, w]
    {
      for w := 0 to 3
        invariant forall j, w' :: 0 <= j < i && 0 <= w' < 3 ==> offset[j, w'] == starts[j, 0, w']
        invariant forall w' :: 0 <= w' < w ==> offset[i, w'] == starts[i, 0, w']
      {
        offset[i, w] := starts[i, 0, w];
      }
    }
  }

  /** Subtracts each finger's offset from that finger's start and end joints,
      leaving every joint relative to the finger's metacarpal start. */
  method SubtractOffsets(ghost hand: Hand, n: int, offset: array2<real>,
                         starts: array3<real>, ends: array3<real>, ghost dirs: array3<real>)
    requires n == |hand.fingers|
    requires starts != ends && starts != dirs && ends != dirs
    requires HoldsRaw(hand, starts, ends, dirs)
    requires |hand.fingers| <= offset.Length0 && offset.Length1 == 3
    requires forall j, w :: 0 <= j < |hand.fingers| && 0 <= w < 3 ==> offset[j, w] == starts[j, 0, w]
    modifies starts, ends
    ensures HoldsNormalized(hand, starts, ends, dirs)
  {
    ghost var fs := hand.fingers;
    assert forall j, w :: 0 <= j < n && 0 <= w < 3 ==> offset[j, w] == fs[j].BoneAt(0).prevJoint.At(w);
    for i := 0 to n
      invariant forall j, b, w :: 0 <= j < i && 0 <= b < 4 && 0 <= w < 3 ==>
                  starts[j, b, w] == old(starts[j, b, w]) - offset[j, w]
                  && ends[j, b, w] == old(ends[j, b, w]) - offset[j, w]
      invariant forall j, b, w :: i <= j < starts.Length0 && 0 <= b < 4 && 0 <= w < 3 ==>
                  starts[j, b, w] == old(starts[j, b, w])
      invariant forall j, b, w :: i <= j < ends.Length0 && 0 <= b < 4 && 0 <= w < 3 ==>
                  ends[j, b, w] == old(ends[j, b, w])
    {
      SubtractOffset(i, offset, starts, ends);
    }
  }

  /** The three bone arrays hold, for fingers 0..n-1, exactly what Built stores. */
  ghost predicate HoldsNormalized(hand: Hand, starts: array3<real>, ends: array3<real>, dirs: array3<real>)
    reads starts, ends, dirs
  {
    var n := |hand.fingers|;
    && n <= starts.Length0 && starts.Length1 == 4 && starts.Length2 == 3
    && n <= ends.Length0 && ends.Length1 == 4 && ends.Length2 == 3
    && n <= dirs.Length0 && dirs.Length1 == 4 && dirs.Length2 == 3
    && forall j, b, w :: 0 <= j < n && 0 <= b < 4 && 0 <= w < 3 ==>
         && starts[j, b, w] == hand.fingers[j].BoneAt(b).prevJoint.At(w) - hand.fingers[j].BoneAt(0).prevJoint.At(w)
         && ends[j, b, w] == hand.fingers[j].BoneAt(b).nextJoint.At(w) - hand.fingers[j].BoneAt(0).prevJoint.At(w)
         && dirs[j, b, w] == hand.fingers[j].BoneAt(b).direction.At(w)
  }

  lemma RowsAreBuilt(hand: Hand, config: Sensitivity, starts: array3<real>, ends: array3<real>, dirs: array3<real>)
    requires hand.valid && |hand.fingers| <= MaxFingers
    requires HoldsNormalized(hand, starts, ends, dirs)
    ensures Rows(starts, |hand.fingers|) == Built(hand, config).boneStarts
    ensures Rows(ends, |hand.fingers|) == Built(hand, config).boneEnds
    ensures Rows(dirs, |hand.fingers|) == Built(hand, config).boneDirs
  {
    var n, t := |hand.fingers|, Built(hand, config);
    forall i | 0 <= i < n
      ensures Rows(starts, n)[i] == t.boneStarts[i]
      ensures Rows(ends, n)[i] == t.boneEnds[i]
      ensures Rows(dirs, n)[i] == t.boneDirs[i]
    {
      assert forall b :: 0 <= b < 4 ==> Rows(starts, n)[i][b] == t.boneStarts[i][b];
      assert forall b :: 0 <= b < 4 ==> Rows(ends, n)[i][b] == t.boneEnds[i][b];
      assert forall b :: 0 <= b < 4 ==> Rows(dirs, n)[i][b] == t.boneDirs[i][b];
    }
  }

  /** The constructor: zero-fills the fixed-size arrays, copies the hand in,
      then subtracts each finger's metacarpal start joint from all of that
      finger's start and end joints. */
  method BuildSignal(hand: Hand, config: Sensitivity) returns (s: HandSignal)
    ensures s == Built(hand, config)
  {
    if !hand.valid || |hand.fingers| > MaxFingers {
      return InvalidSignal(config);
    }
    var fingers := |hand.fingers|;
    var fingerLengths := new real[MaxFingers];
    var fingerExtended := new bool[MaxFingers];
    var boneStarts := new real[MaxFingers, 4, 3];
    var boneEnds := new real[MaxFingers, 4, 3];
    var boneDirs := new real[MaxFingers, 4, 3];
    ZeroFill(fingers, fingerLengths, fingerExtended, boneStarts, boneEnds, boneDirs);
    CopyFingers(hand, fingerLengths, fingerExtended, boneStarts, boneEnds, boneDirs);
    var offset := new real[MaxFingers, 3];
    FillOffsets(fingers, boneStarts, offset);
    SubtractOffsets(hand, fingers, offset, boneStarts, boneEnds, boneDirs);
    RowsAreBuilt(hand, config, boneStarts, boneEnds, boneDirs);
    s := SignalData(fingers, fingerLengths[..fingers], fingerExtended[..fingers],
                    Rows(boneStarts, fingers), Rows(boneEnds, fingers), Rows(boneDirs, fingers), config);
  }

  // ---------------------------------------------------------------------------
  // Matching
  // ---------------------------------------------------------------------------

  /** The distance between a stored value and a live one. */
  function ValueDiff(base: real, val: real): (r: real)
    ensures r >= 0.0 && (r == val - base || r == base - val)
  {
    if val - base < 0.0 then base - val else val - base
  }

  /** True when none of the recorded fingers is extended. */
  predicate NoneExtended(ext: seq<bool>)
  {
    forall i :: 0 <= i < |ext| ==> !ext[i]
  }

  /** The scan for an extended flag, stopping at the first one it finds. */
  method AllFalse(arr: seq<bool>) returns (r: bool)
    ensures r <==> NoneExtended(arr)
  {
    for i := 0 to |arr|
      invariant forall j :: 0 <= j < i ==> !arr[j]
    {
      if arr[i] {
        return false;
      }
    }
    return true;
  }

  predicate LengthWithin(sig: HandSignal, i: int, f: Finger)
    requires 0 <= i < sig.fingers
  {
    ValueDiff(sig.fingerLengths[i], f.length) <= sig.settings.fingerLengthDiff
  }

  /** The live start joint of bone b, relative to the live metacarpal start, is close enough on axis w. */
  predicate StartWithin(sig: HandSignal, i: int, f: Finger, b: int, w: int)
    requires 0 <= i < sig.fingers && 0 <= b < 4 && 0 <= w < 3
  {
    ValueDiff(sig.boneStarts[i][b].At(w), f.BoneAt(b).prevJoint.At(w) - f.BoneAt(0).prevJoint.At(w))
      <= sig.settings.positionDiff
  }

  predicate EndWithin(sig: HandSignal, i: int, f: Finger, b: int, w: int)
    requires 0 <= i < sig.fingers && 0 <= b < 4 && 0 <= w < 3
  {
    ValueDiff(sig.boneEnds[i][b].At(w), f.BoneAt(b).nextJoint.At(w) - f.BoneAt(0).prevJoint.At(w))
      <= sig.settings.positionDiff
  }

  predicate DirWithin(sig: HandSignal, i: int, f: Finger, b: int, w: int)
    requires 0 <= i < sig.fingers && 0 <= b < 4 && 0 <= w < 3
  {
    ValueDiff(sig.boneDirs[i][b].At(w), f.BoneAt(b).direction.At(w)) <= sig.settings.directionDiff
  }

  predicate AxisWithin(sig: HandSignal, i: int, f: Finger, b: int, w: int)
    requires 0 <= i < sig.fingers && 0 <= b < 4 && 0 <= w < 3
  {
    StartWithin(sig, i, f, b, w) && EndWithin(sig, i, f, b, w) && DirWithin(sig, i, f, b, w)
  }

  /** Every start, end and direction coordinate of the finger is within tolerance. */
  predicate GeometryWithin(sig: HandSignal, i: int, f: Finger)
    requires 0 <= i < sig.fingers
  {
    forall b, w :: 0 <= b < 4 && 0 <= w < 3 ==> AxisWithin(sig, i, f, b, w)
  }

  /** Live finger f agrees with recorded finger i: same extended flag, and, unless
      the finger is retracted in a template that has some extended finger, its
      length and all of its bones within tolerance. */
  predicate FingerAgrees(sig: HandSignal, i: int, f: Finger, allRetracted: bool)
    requires 0 <= i < sig.fingers
  {
    && f.extended == sig.fingerExtended[i]
    && ((f.extended || allRetracted) ==> LengthWithin(sig, i, f) && GeometryWithin(sig, i, f))
  }

  // The error codes, as the comparison produces them: the first check that fails decides.

  function AxisCode(sig: HandSignal, i: int, f: Finger, b: int, w: int): (r: int)
    requires 0 <= i < sig.fingers && 0 <= b < 4 && 0 <= w < 3
    ensures r == 0 <==> AxisWithin(sig, i, f, b, w)
    ensures r == 4 <==> !StartWithin(sig, i, f, b, w)
    ensures r == 5 <==> StartWithin(sig, i, f, b, w) && !EndWithin(sig, i, f, b, w)
    ensures r == 6 <==> StartWithin(sig, i, f, b, w) && EndWithin(sig, i, f, b, w) && !DirWithin(sig, i, f, b, w)
  {
    if !StartWithin(sig, i, f, b, w) then 4
    else if !EndWithin(sig, i, f, b, w) then 5
    else if !DirWithin(sig, i, f, b, w) then 6
    else 0
  }

  function AxesCode(sig: HandSignal, i: int, f: Finger, b: int, w: int): (r: int)
    requires 0 <= i < sig.fingers && 0 <= b < 4 && 0 <= w <= 3
    ensures r == 0 || r == 4 || r == 5 || r == 6
    decreases 3 - w
  {
    if w == 3 then 0
    else
      var c := AxisCode(sig, i, f, b, w);
      if c != 0 then c else AxesCode(sig, i, f, b, w + 1)
  }

  function BonesCode(sig: HandSignal, i: int, f: Finger, b: int): (r: int)
    requires 0 <= i < sig.fingers && 0 <= b <= 4
    ensures r == 0 || r == 4 || r == 5 || r == 6
    decreases 4 - b
  {
    if b == 4 then 0
    else
      var c := AxesCode(sig, i, f, b, 0);
      if c != 0 then c else BonesCode(sig, i, f, b + 1)
  }

  function FingerCode(sig: HandSignal, i: int, f: Finger, allRetracted: bool): (r: int)
    requires 0 <= i < sig.fingers
    ensures r == 0 || 3 <= r <= 7
  {
    if f.extended != sig.fingerExtended[i] then 7
    else if !f.extended && !allRetracted then 0
    else if !LengthWithin(sig, i, f) then 3
    else BonesCode(sig, i, f, 0)
  }

  function FingersCode(sig: HandSignal, fs: seq<Finger>, i: int, allRetracted: bool): (r: int)
    requires |fs| == sig.fingers && 0 <= i <= |fs|
    ensures r == 0 || 3 <= r <= 7
    decreases |fs| - i
  {
    if i == |fs| then 0
    else
      var c := FingerCode(sig, i, fs[i], allRetracted);
      if c != 0 then c else FingersCode(sig, fs, i + 1, allRetracted)
  }

  /** The comparison's error code, given whether the skip rule counts the
      template as "every finger retracted". */
  function MatchCodeWith(sig: HandSignal, hand: Hand, allRetracted: bool): (r: int)
    ensures 0 <= r <= 7
    ensures r == 1 <==> sig.fingers == 0
    ensures r == 2 <==> sig.fingers != 0 && |hand.fingers| != sig.fingers
  {
    if sig.fingers == 0 then 1
    else if |hand.fingers| != sig.fingers then 2
    else FingersCode(sig, hand.fingers, 0, allRetracted)
  }

  /** The error code the comparison of a live hand against a signal leaves: 0 on a match. */
  function MatchCode(sig: HandSignal, hand: Hand): int
  {
    MatchCodeWith(sig, hand, NoneExtended(sig.fingerExtended))
  }

  predicate Matches(sig: HandSignal, hand: Hand)
  {
    MatchCode(sig, hand) == 0
  }

  /** The comparison: the ordered checks with an early return on the first failure. */
  method MatchesSignal(sig: HandSignal, hand: Hand) returns (ok: bool, errorcode: int)
    ensures errorcode == MatchCode(sig, hand)
    ensures ok <==> errorcode == 0
  {
    var currFingers := hand.fingers;
    errorcode := 0;
    if sig.fingers == 0 {
      errorcode := 1;
      return false, errorcode;
    } else if |currFingers| != sig.fingers {
      errorcode := 2;
      return false, errorcode;
    }
    ghost var allRetracted := NoneExtended(sig.fingerExtended);
    for i := 0 to |currFingers|
      invariant FingersCode(sig, currFingers, i, allRetracted) == MatchCode(sig, hand)
    {
      var finger := currFingers[i];
      if finger.extended != sig.fingerExtended[i] {
        errorcode := 7;
        return false, errorcode;
      }
      if !finger.extended {
        var retracted := AllFalse(sig.fingerExtended);
        if !retracted {
          continue;
        }
      }
      if ValueDiff(sig.fingerLengths[i], finger.length) > sig.settings.fingerLengthDiff {
        errorcode := 3;
        return false, errorcode;
      }
      for b := 0 to 4
        invariant BonesCode(sig, i, finger, b) == FingerCode(sig, i, finger, allRetracted)
      {
        var bone := finger.BoneAt(b);
        var base := finger.BoneAt(0).prevJoint;
        for w := 0 to 3
          invariant errorcode == 0
          invariant AxesCode(sig, i, finger, b, w) == AxesCode(sig, i, finger, b, 0)
        {
          if ValueDiff(sig.boneStarts[i][b].At(w), bone.prevJoint.At(w) - base.At(w)) > sig.settings.positionDiff {
            errorcode := 4;
          } else if ValueDiff(sig.boneEnds[i][b].At(w), bone.nextJoint.At(w) - base.At(w)) > sig.settings.positionDiff {
            errorcode := 5;
          } else if ValueDiff(sig.boneDirs[i][b].At(w), bone.direction.At(w)) > sig.settings.directionDiff {
            errorcode := 6;
          }
          if errorcode != 0 {
            return false, errorcode;
          }
        }
      }
    }
    return true, errorcode;
  }
}
