/** The finger-state vector that HandTracker.fingers_up derives from 21 landmarks. */
module HandTracking {
  import opened Common

  /** Landmark indices of the finger tips: thumb, index, middle, ring, pinky. */
  const TipIds: seq<int> := [4, 8, 12, 16, 20]

  /** The number of landmarks the detector reports for one hand. */
  const LandmarkCount: int := 21

  /** A landmark list as the detector hands it over: empty (no hand) or a full hand. */
  predicate WellFormed(lm: seq<Point>) {
    lm == [] || |lm| >= LandmarkCount
  }

  /** Five entries, each 0 (folded) or 1 (extended). */
  predicate IsFingerVector(f: seq<int>) {
    |f| == 5 && forall i :: 0 <= i < |f| ==> f[i] == 0 || f[i] == 1
  }

  /** The only landmark indices the finger test looks at. */
  const JointsRead: set<int> := {3, 4, 6, 8, 10, 12, 14, 16, 18, 20}

  function Bit(b: bool): int {
    if b then 1 else 0
  }

  /** The finger-state vector of a landmark list. */
  function Fingers(lm: seq<Point>): (f: seq<int>)
    requires WellFormed(lm)
    ensures IsFingerVector(f)
    ensures lm == [] ==> f == [0, 0, 0, 0, 0]
    ensures lm != [] ==> (f[0] == 1 <==> lm[TipIds[0]].x > lm[TipIds[0] - 1].x)
    ensures lm != [] ==> forall i :: 1 <= i < 5 ==> (f[i] == 1 <==> lm[TipIds[i]].y < lm[TipIds[i] - 2].y)
  {
    if lm == [] then [0, 0, 0, 0, 0]
    else
      [Bit(lm[4].x > lm[3].x), Bit(lm[8].y < lm[6].y), Bit(lm[12].y < lm[10].y),
       Bit(lm[16].y < lm[14].y), Bit(lm[20].y < lm[18].y)]
  }

  /** Two hands that agree on the joints the test reads get the same vector. */
  lemma FingersReadOnlyJoints(lm: seq<Point>, lm': seq<Point>)
    requires |lm| >= LandmarkCount && |lm'| >= LandmarkCount
    requires forall k :: k in JointsRead ==> lm[k] == lm'[k]
    ensures Fingers(lm) == Fingers(lm')
  {
    assert 3 in JointsRead && 4 in JointsRead && 6 in JointsRead && 8 in JointsRead;
    assert 10 in JointsRead && 12 in JointsRead && 14 in JointsRead;
    assert 16 in JointsRead && 18 in JointsRead && 20 in JointsRead;
  }

  /**
   * fingers_up: the thumb entry first, then one entry per remaining finger,
   * appended in a loop over the tip table.
   */
  method FingersUp(lm: seq<Point>) returns (fingers: seq<int>)
    requires WellFormed(lm)
    ensures fingers == Fingers(lm)
  {
    fingers := [];
    if lm == [] {
      return [0, 0, 0, 0, 0];
    }
    if lm[TipIds[0]].x > lm[TipIds[0] - 1].x {
      fingers := fingers + [1];
    } else {
      fingers := fingers + [0];
    }
    for i := 1 to 5
      invariant |fingers| == i
      invariant fingers == Fingers(lm)[..i]
    {
      if lm[TipIds[i]].y < lm[TipIds[i] - 2].y {
        fingers := fingers + [1];
      } else {
        fingers := fingers + [0];
      }
    }
  }
}
