/** What the comparison of a live hand against a recorded signal guarantees:
    the error codes, the skip rule for retracted fingers, translation
    invariance, and that a signal matches the hand it was built from. */
module SignalProperties {
  import opened HandModel
  import opened HandSignals

  // ---------------------------------------------------------------------------
  // A zero code means every check passed
  // ---------------------------------------------------------------------------

  lemma {:induction false} AxesCodeZeroIff(sig: HandSignal, i: int, f: Finger, b: int, w: int)
    requires 0 <= i < sig.fingers && 0 <= b < 4 && 0 <= w <= 3
    ensures AxesCode(sig, i, f, b, w) == 0 <==> forall w' :: w <= w' < 3 ==> AxisWithin(sig, i, f, b, w')
    decreases 3 - w
  {
    if w < 3 {
      assert AxisCode(sig, i, f, b, w) == 0 <==> AxisWithin(sig, i, f, b, w);
      AxesCodeZeroIff(sig, i, f, b, w + 1);
    }
  }

  lemma {:induction false} BonesCodeZeroIff(sig: HandSignal, i: int, f: Finger, b: int)
    requires 0 <= i < sig.fingers && 0 <= b <= 4
    ensures BonesCode(sig, i, f, b) == 0 <==>
              forall b', w :: b <= b' < 4 && 0 <= w < 3 ==> AxisWithin(sig, i, f, b', w)
    decreases 4 - b
  {
    if b < 4 {
      AxesCodeZeroIff(sig, i, f, b, 0);
      BonesCodeZeroIff(sig, i, f, b + 1);
    }
  }

  lemma FingerCodeZeroIff(sig: HandSignal, i: int, f: Finger, allRetracted: bool)
    requires 0 <= i < sig.fingers
    ensures FingerCode(sig, i, f, allRetracted) == 0 <==> FingerAgrees(sig, i, f, allRetracted)
  {
    BonesCodeZeroIff(sig, i, f, 0);
  }

  lemma {:induction false} FingersCodeZeroIff(sig: HandSignal, fs: seq<Finger>, i: int, allRetracted: bool)
    requires |fs| == sig.fingers && 0 <= i <= |fs|
    ensures FingersCode(sig, fs, i, allRetracted) == 0 <==>
              forall j :: i <= j < |fs| ==> FingerAgrees(sig, j, fs[j], allRetracted)
    decreases |fs| - i
  {
    if i < |fs| {
      FingerCodeZeroIff(sig, i, fs[i], allRetracted);
      FingersCodeZeroIff(sig, fs, i + 1, allRetracted);
    }
  }

  /** A hand matches exactly when the signal is valid, the finger counts agree,
      and every finger agrees with its recorded counterpart. */
  lemma MatchesIff(sig: HandSignal, hand: Hand)
    ensures Matches(sig, hand) <==>
              && sig.fingers > 0
              && |hand.fingers| == sig.fingers
              && forall i :: 0 <= i < sig.fingers ==>
                   FingerAgrees(sig, i, hand.fingers[i], NoneExtended(sig.fingerExtended))
  {
    if sig.fingers > 0 && |hand.fingers| == sig.fingers {
      FingersCodeZeroIff(sig, hand.fingers, 0, NoneExtended(sig.fingerExtended));
    }
  }

  /** The validity check decides code 1, and a signal with no fingers matches nothing. */
  lemma InvalidNeverMatches(sig: HandSignal, hand: Hand)
    ensures MatchCode(sig, hand) == 1 <==> !sig.IsValid()
    ensures !sig.IsValid() ==> !Matches(sig, hand)
  {
  }

  /** Finger counts that differ give code 2 on a valid signal. */
  lemma CountMismatchNeverMatches(sig: HandSignal, hand: Hand)
    requires sig.IsValid() && |hand.fingers| != sig.fingers
    ensures MatchCode(sig, hand) == 2
  {
  }

  // ---------------------------------------------------------------------------
  // The first failing check decides the code
  // ---------------------------------------------------------------------------

  lemma {:induction false} FingersFirstFailure(sig: HandSignal, fs: seq<Finger>, i: int, j: int, allRetracted: bool)
    requires |fs| == sig.fingers && 0 <= i <= j < |fs|
    requires forall k :: i <= k < j ==> FingerCode(sig, k, fs[k], allRetracted) == 0
    requires FingerCode(sig, j, fs[j], allRetracted) != 0
    ensures FingersCode(sig, fs, i, allRetracted) == FingerCode(sig, j, fs[j], allRetracted)
    decreases j - i
  {
    if i < j {
      FingersFirstFailure(sig, fs, i + 1, j, allRetracted);
    }
  }

  lemma {:induction false} AxesFirstFailure(sig: HandSignal, i: int, f: Finger, b: int, w0: int, w: int)
    requires 0 <= i < sig.fingers && 0 <= b < 4 && 0 <= w0 <= w < 3
    requires forall w' :: w0 <= w' < w ==> AxisWithin(sig, i, f, b, w')
    requires !AxisWithin(sig, i, f, b, w)
    ensures AxesCode(sig, i, f, b, w0) == AxisCode(sig, i, f, b, w)
    decreases w - w0
  {
    if w0 < w {
      assert AxisWithin(sig, i, f, b, w0);
      assert AxisCode(sig, i, f, b, w0) == 0;
      AxesFirstFailure(sig, i, f, b, w0 + 1, w);
    }
  }

  lemma {:induction false} BonesFirstFailure(sig: HandSignal, i: int, f: Finger, b0: int, b: int, w: int)
    requires 0 <= i < sig.fingers && 0 <= b0 <= b < 4 && 0 <= w < 3
    requires forall b', w' :: b0 <= b' < b && 0 <= w' < 3 ==> AxisWithin(sig, i, f, b', w')
    requires forall w' :: 0 <= w' < w ==> AxisWithin(sig, i, f, b, w')
    requires !AxisWithin(sig, i, f, b, w)
    ensures BonesCode(sig, i, f, b0) == AxisCode(sig, i, f, b, w)
    decreases b - b0
  {
    if b0 < b {
      AxesCodeZeroIff(sig, i, f, b0, 0);
      BonesFirstFailure(sig, i, f, b0 + 1, b, w);
    } else {
      AxesFirstFailure(sig, i, f, b, 0, w);
    }
  }

  /** When fingers 0..j-1 agree and finger j does not, the code is finger j's. */
  lemma FirstFailingFingerDecides(sig: HandSignal, hand: Hand, j: int)
    requires sig.IsValid() && |hand.fingers| == sig.fingers && 0 <= j < sig.fingers
    requires forall k :: 0 <= k < j ==> FingerAgrees(sig, k, hand.fingers[k], NoneExtended(sig.fingerExtended))
    requires !FingerAgrees(sig, j, hand.fingers[j], NoneExtended(sig.fingerExtended))
    ensures MatchCode(sig, hand) == FingerCode(sig, j, hand.fingers[j], NoneExtended(sig.fingerExtended))
    ensures !Matches(sig, hand)
  {
    var r := NoneExtended(sig.fingerExtended);
    forall k | 0 <= k < j
      ensures FingerCode(sig, k, hand.fingers[k], r) == 0
    {
      FingerCodeZeroIff(sig, k, hand.fingers[k], r);
    }
    FingerCodeZeroIff(sig, j, hand.fingers[j], r);
    FingersFirstFailure(sig, hand.fingers, 0, j, r);
  }

  /** A flag mismatch on the first disagreeing finger gives code 7, whatever that finger's geometry. */
  lemma ExtensionMismatchCode(sig: HandSignal, hand: Hand, j: int)
    requires sig.IsValid() && |hand.fingers| == sig.fingers && 0 <= j < sig.fingers
    requires forall k :: 0 <= k < j ==> FingerAgrees(sig, k, hand.fingers[k], NoneExtended(sig.fingerExtended))
    requires hand.fingers[j].extended != sig.fingerExtended[j]
    ensures MatchCode(sig, hand) == 7
  {
    FirstFailingFingerDecides(sig, hand, j);
  }

  /** A checked finger whose length is off, with all earlier fingers agreeing, gives code 3. */
  lemma LengthMismatchCode(sig: HandSignal, hand: Hand, j: int)
    requires sig.IsValid() && |hand.fingers| == sig.fingers && 0 <= j < sig.fingers
    requires forall k :: 0 <= k < j ==> FingerAgrees(sig, k, hand.fingers[k], NoneExtended(sig.fingerExtended))
    requires hand.fingers[j].extended == sig.fingerExtended[j]
    requires hand.fingers[j].extended || NoneExtended(sig.fingerExtended)
    requires !LengthWithin(sig, j, hand.fingers[j])
    ensures MatchCode(sig, hand) == 3
  {
    FirstFailingFingerDecides(sig, hand, j);
  }

  /** At the first out-of-tolerance coordinate (bone-major, then axis) of a checked
      finger, a start gives code 4, else an end code 5, else a direction code 6. */
  lemma GeometryMismatchCode(sig: HandSignal, hand: Hand, j: int, b: int, w: int)
    requires sig.IsValid() && |hand.fingers| == sig.fingers && 0 <= j < sig.fingers
    requires 0 <= b < 4 && 0 <= w < 3
    requires forall k :: 0 <= k < j ==> FingerAgrees(sig, k, hand.fingers[k], NoneExtended(sig.fingerExtended))
    requires hand.fingers[j].extended == sig.fingerExtended[j]
    requires hand.fingers[j].extended || NoneExtended(sig.fingerExtended)
    requires LengthWithin(sig, j, hand.fingers[j])
    requires forall b', w' :: 0 <= b' < b && 0 <= w' < 3 ==> AxisWithin(sig, j, hand.fingers[j], b', w')
    requires forall w' :: 0 <= w' < w ==> AxisWithin(sig, j, hand.fingers[j], b, w')
    requires !AxisWithin(sig, j, hand.fingers[j], b, w)
    ensures !StartWithin(sig, j, hand.fingers[j], b, w) ==> MatchCode(sig, hand) == 4
    ensures (StartWithin(sig, j, hand.fingers[j], b, w) && !EndWithin(sig, j, hand.fingers[j], b, w))
              ==> MatchCode(sig, hand) == 5
    ensures (StartWithin(sig, j, hand.fingers[j], b, w) && EndWithin(sig, j, hand.fingers[j], b, w))
              ==> MatchCode(sig, hand) == 6
  {
    BonesFirstFailure(sig, j, hand.fingers[j], 0, b, w);
    FirstFailingFingerDecides(sig, hand, j);
  }

  // ---------------------------------------------------------------------------
  // Codes that agree coordinate by coordinate agree overall
  // ---------------------------------------------------------------------------

  lemma {:induction false} AxesCongruent(sig: HandSignal, i: int, f: Finger, g: Finger, b: int, w: int)
    requires 0 <= i < sig.fingers && 0 <= b < 4 && 0 <= w <= 3
    requires forall w' :: w <= w' < 3 ==> AxisCode(sig, i, f, b, w') == AxisCode(sig, i, g, b, w')
    ensures AxesCode(sig, i, f, b, w) == AxesCode(sig, i, g, b, w)
    decreases 3 - w
  {
    if w < 3 {
      AxesCongruent(sig, i, f, g, b, w + 1);
    }
  }

  lemma {:induction false} BonesCongruent(sig: HandSignal, i: int, f: Finger, g: Finger, b: int)
    requires 0 <= i < sig.fingers && 0 <= b <= 4
    requires forall b', w :: b <= b' < 4 && 0 <= w < 3 ==> AxisCode(sig, i, f, b', w) == AxisCode(sig, i, g, b', w)
    ensures BonesCode(sig, i, f, b) == BonesCode(sig, i, g, b)
    decreases 4 - b
  {
    if b < 4 {
      AxesCongruent(sig, i, f, g, b, 0);
      BonesCongruent(sig, i, f, g, b + 1);
    }
  }

  lemma {:induction false} FingersCongruent(sig: HandSignal, fs: seq<Finger>, gs: seq<Finger>, i: int, allRetracted: bool)
    requires |fs| == sig.fingers && |gs| == sig.fingers && 0 <= i <= |fs|
    requires forall k :: i <= k < |fs| ==> FingerCode(sig, k, fs[k], allRetracted) == FingerCode(sig, k, gs[k], allRetracted)
    ensures FingersCode(sig, fs, i, allRetracted) == FingersCode(sig, gs, i, allRetracted)
    decreases |fs| - i
  {
    if i < |fs| {
      FingersCongruent(sig, fs, gs, i + 1, allRetracted);
    }
  }

  // ---------------------------------------------------------------------------
  // The skip rule
  // ---------------------------------------------------------------------------

  /** Two hands that differ only in the length and bones of fingers that are
      retracted in both. */
  predicate DifferOnlyInRetracted(h1: Hand, h2: Hand)
  {
    && |h1.fingers| == |h2.fingers|
    && forall i :: 0 <= i < |h1.fingers| ==>
         h1.fingers[i].extended == h2.fingers[i].extended
         && (h1.fingers[i].extended ==> h1.fingers[i] == h2.fingers[i])
  }

  /** Unless every recorded finger is retracted, where a retracted finger is and
      how long it is never affects the outcome. */
  lemma RetractedGeometryIgnored(sig: HandSignal, h1: Hand, h2: Hand)
    requires DifferOnlyInRetracted(h1, h2)
    requires !NoneExtended(sig.fingerExtended)
    ensures MatchCode(sig, h1) == MatchCode(sig, h2)
  {
    if sig.fingers > 0 && |h1.fingers| == sig.fingers {
      FingersCongruent(sig, h1.fingers, h2.fingers, 0, false);
    }
  }

  // ---------------------------------------------------------------------------
  // Translation invariance
  // ---------------------------------------------------------------------------

  lemma TranslatedAxisCode(sig: HandSignal, i: int, f: Finger, t: Vec3, b: int, w: int)
    requires 0 <= i < sig.fingers && 0 <= b < 4 && 0 <= w < 3
    ensures AxisCode(sig, i, TranslateFinger(f, t), b, w) == AxisCode(sig, i, f, b, w)
  {
    var g := TranslateFinger(f, t);
    assert g.BoneAt(b) == TranslateBone(f.BoneAt(b), t) && g.BoneAt(0) == TranslateBone(f.BoneAt(0), t);
    assert g.BoneAt(b).prevJoint.At(w) - g.BoneAt(0).prevJoint.At(w)
        == f.BoneAt(b).prevJoint.At(w) - f.BoneAt(0).prevJoint.At(w);
    assert g.BoneAt(b).nextJoint.At(w) - g.BoneAt(0).prevJoint.At(w)
        == f.BoneAt(b).nextJoint.At(w) - f.BoneAt(0).prevJoint.At(w);
  }

  /** Moving the whole live hand changes no comparison. */
  lemma MatchTranslationInvariant(sig: HandSignal, hand: Hand, t: Vec3)
    ensures MatchCode(sig, Translate(hand, t)) == MatchCode(sig, hand)
  {
    var moved := Translate(hand, t);
    if sig.fingers > 0 && |hand.fingers| == sig.fingers {
      var r := NoneExtended(sig.fingerExtended);
      forall k | 0 <= k < |hand.fingers|
        ensures FingerCode(sig, k, moved.fingers[k], r) == FingerCode(sig, k, hand.fingers[k], r)
      {
        var f := hand.fingers[k];
        forall b, w | 0 <= b < 4 && 0 <= w < 3
          ensures AxisCode(sig, k, TranslateFinger(f, t), b, w) == AxisCode(sig, k, f, b, w)
        {
          TranslatedAxisCode(sig, k, f, t, b, w);
        }
        BonesCongruent(sig, k, TranslateFinger(f, t), f, 0);
      }
      FingersCongruent(sig, moved.fingers, hand.fingers, 0, r);
    }
  }

  /** Moving the whole hand before recording it gives the very same signal. */
  lemma BuildTranslationInvariant(hand: Hand, config: Sensitivity, t: Vec3)
    ensures Built(Translate(hand, t), config) == Built(hand, config)
  {
    var moved := Translate(hand, t);
    if hand.valid && |hand.fingers| <= MaxFingers {
      var s, u := Built(moved, config), Built(hand, config);
      forall i | 0 <= i < |hand.fingers|
        ensures s.boneStarts[i] == u.boneStarts[i] && s.boneEnds[i] == u.boneEnds[i] && s.boneDirs[i] == u.boneDirs[i]
      {
        var f, g := hand.fingers[i], moved.fingers[i];
        forall b | 0 <= b < 4
          ensures s.boneStarts[i][b] == u.boneStarts[i][b] && s.boneEnds[i][b] == u.boneEnds[i][b]
          ensures s.boneDirs[i][b] == u.boneDirs[i][b]
        {
          assert g.BoneAt(b) == TranslateBone(f.BoneAt(b), t) && g.BoneAt(0) == TranslateBone(f.BoneAt(0), t);
        }
      }
      assert s.fingerLengths == u.fingerLengths;
      assert s.fingerExtended == u.fingerExtended;
    }
  }

  // ---------------------------------------------------------------------------
  // A signal matches the hand it was recorded from
  // ---------------------------------------------------------------------------

  /** With non-negative tolerances, a signal built from a valid hand of 1 to
      MaxFingers fingers matches that same hand. */
  lemma SelfMatch(hand: Hand, config: Sensitivity)
    requires hand.valid && 0 < |hand.fingers| <= MaxFingers
    requires config.fingerLengthDiff >= 0.0 && config.positionDiff >= 0.0 && config.directionDiff >= 0.0
    ensures Matches(Built(hand, config), hand)
  {
    var sig := Built(hand, config);
    var r := NoneExtended(sig.fingerExtended);
    forall i | 0 <= i < sig.fingers
      ensures FingerAgrees(sig, i, hand.fingers[i], r)
    {
      var f := hand.fingers[i];
      forall b, w | 0 <= b < 4 && 0 <= w < 3
        ensures AxisWithin(sig, i, f, b, w)
      {
        assert sig.boneStarts[i][b] == f.BoneAt(b).prevJoint.Minus(f.BoneAt(0).prevJoint);
        assert sig.boneEnds[i][b] == f.BoneAt(b).nextJoint.Minus(f.BoneAt(0).prevJoint);
      }
    }
    MatchesIff(sig, hand);
  }

  // ---------------------------------------------------------------------------
  // The 20-slot scan for an all-retracted template
  // ---------------------------------------------------------------------------

  /** The comparison as written: the all-retracted test scans all MaxFingers
      flag slots, and the slots past the recorded fingers hold whatever `unset`
      says, since the constructor never writes them. */
  function MatchCodeAsWritten(sig: HandSignal, hand: Hand, unset: seq<bool>): (r: int)
    requires |unset| == MaxFingers - sig.fingers
    ensures NoneExtended(unset) ==> r == MatchCode(sig, hand)
  {
    var slots := sig.fingerExtended + unset;
    assert NoneExtended(unset) ==> (NoneExtended(slots) <==> NoneExtended(sig.fingerExtended)) by {
      if NoneExtended(unset) && NoneExtended(sig.fingerExtended) {
        forall k | 0 <= k < |slots| ensures !slots[k] {
          if k >= |sig.fingerExtended| {
            assert slots[k] == unset[k - |sig.fingerExtended|];
          }
        }
      }
      if NoneExtended(slots) {
        forall k | 0 <= k < |sig.fingerExtended| ensures !sig.fingerExtended[k] {
          assert slots[k] == sig.fingerExtended[k];
        }
      }
    }
    MatchCodeWith(sig, hand, NoneExtended(slots))
  }

  /** A one-finger fist recorded at 10 mm, compared against a fist whose finger
      is 90 mm long: as written, a stray true in an unwritten slot skips the
      length check and the hand matches; over the recorded fingers it fails with code 3. */
  lemma UnwrittenSlotSkipsFistCheck()
    ensures var m := Bone(Origin, Origin, Origin);
            var sig := Built(Hand(true, [Finger(false, 10.0, m, m, m, m)]), Sensitivity(50.0, 60.0, 0.55));
            var live := Hand(true, [Finger(false, 90.0, m, m, m, m)]);
            && MatchCodeAsWritten(sig, live, [true] + seq(18, _ => false)) == 0
            && MatchCode(sig, live) == 3
  {
    var m := Bone(Origin, Origin, Origin);
    var sig := Built(Hand(true, [Finger(false, 10.0, m, m, m, m)]), Sensitivity(50.0, 60.0, 0.55));
    var live := Hand(true, [Finger(false, 90.0, m, m, m, m)]);
    var unset := [true] + seq(18, _ => false);
    var slots := sig.fingerExtended + unset;
    assert sig.fingers == 1 && sig.fingerExtended == [false] && sig.fingerLengths == [10.0];
    assert slots[1];
    assert !NoneExtended(slots);
    assert FingerCode(sig, 0, live.fingers[0], false) == 0;
    assert FingersCode(sig, live.fingers, 1, false) == 0;
    assert MatchCodeAsWritten(sig, live, unset) == MatchCodeWith(sig, live, false) == 0;
    assert NoneExtended(sig.fingerExtended);
    assert !LengthWithin(sig, 0, live.fingers[0]);
    assert FingerCode(sig, 0, live.fingers[0], true) == 3;
  }

  /** Over the recorded fingers, a template with every finger retracted compares
      the length and every bone of every finger. */
  lemma AllRetractedTemplateComparesEveryFinger(sig: HandSignal, hand: Hand)
    requires NoneExtended(sig.fingerExtended) && Matches(sig, hand)
    ensures |hand.fingers| == sig.fingers
    ensures forall i :: 0 <= i < sig.fingers ==>
              LengthWithin(sig, i, hand.fingers[i]) && GeometryWithin(sig, i, hand.fingers[i])
  {
    MatchesIff(sig, hand);
  }
}
