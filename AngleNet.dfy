/*
 * The decision logic of the OCR angle classifier: the decoder that turns one
 * network output vector into a class index and score (scoreToAngle), the
 * per-image classification (getAngle), and the batch resolver (getAngles)
 * that classifies every text-line image of a batch and can force one
 * majority label onto all of them.
 *
 * The neural network, the image preprocessing and the wall clock are not
 * modelled: they enter as the parameters `infer` (image to output scores)
 * and `elapsed` (measured time of the i-th classification).
 */
module AngleNet {

  /** The classification of one text-line image: the winning class index
      (-1 when the image was not classified), the raw activation of that
      class, and the milliseconds spent on it. */
  datatype Angle = Angle(index: int, score: real, time: real)

  /** What the decoder yields for an empty output vector. */
  const SentinelIndex: int := 0
  const SentinelScore: real := -1000.0
  const Sentinel: Angle := Angle(SentinelIndex, SentinelScore, 0.0)

  /** The record written for every image when classification is switched off. */
  const Unclassified: Angle := Angle(-1, 0.0, 0.0)

  // ---------------------------------------------------------------------------
  // Score decoder
  // ---------------------------------------------------------------------------

  /** k is the first position at which s takes its maximum. */
  predicate IsFirstMax(s: seq<real>, k: int)
  {
    0 <= k < |s| &&
    (forall j :: 0 <= j < |s| ==> s[j] <= s[k]) &&
    (forall j :: 0 <= j < k ==> s[j] < s[k])
  }

  /** Reference definition of the first maximum, found from the front:
      the head wins unless the first maximum of the tail is strictly larger. */
  function FirstMax(s: seq<real>): (k: nat)
    requires |s| > 0
    ensures IsFirstMax(s, k)
    decreases |s|
  {
    if |s| == 1 then 0
    else
      var k' := 1 + FirstMax(s[1..]);
      if s[k'] > s[0] then k' else 0
  }

  /** The first maximum is determined by its defining property, so every
      decoder that meets it returns the same index. */
  lemma FirstMaxUnique(s: seq<real>, k1: int, k2: int)
    requires IsFirstMax(s, k1) && IsFirstMax(s, k2)
    ensures k1 == k2
  {
    var m1, m2 := s[k1], s[k2];
    assert m1 <= m2 && m2 <= m1;
    assert k1 < k2 ==> m1 < m2;
    assert k2 < k1 ==> m2 < m1;
  }

  /** The decoded classification of an output vector: its first maximum and
      the score there, or the sentinel for an empty vector. */
  function Decode(s: seq<real>): (a: Angle)
    ensures |s| == 0 ==> a == Sentinel
    ensures |s| > 0 ==> IsFirstMax(s, a.index) && a.score == s[a.index]
    ensures a.time == 0.0
  {
    if |s| == 0 then Sentinel
    else
      var k := FirstMax(s);
      Angle(k, s[k], 0.0)
  }

  /** scoreToAngle: scans the first w entries of outputData, seeding the
      running maximum with entry 0 and replacing it only on a strictly
      greater entry, so a tie keeps the earliest index. */
  method ScoreToAngle(outputData: seq<real>, w: int) returns (angle: Angle)
    requires w <= |outputData|
    ensures w <= 0 ==> angle == Sentinel
    ensures w > 0 ==> 0 <= angle.index < w && angle.score == outputData[angle.index]
    ensures w > 0 ==> forall j :: 0 <= j < w ==> outputData[j] <= angle.score
    ensures w > 0 ==> forall j :: 0 <= j < angle.index ==> outputData[j] < angle.score
    ensures w > 0 ==> angle == Decode(outputData[..w])
    ensures angle.time == 0.0
  {
    var maxIndex := 0;
    var maxScore := SentinelScore;
    var i := 0;
    while i < w
      invariant 0 <= i && (w >= 0 ==> i <= w) && (w < 0 ==> i == 0)
      invariant i == 0 ==> maxIndex == SentinelIndex && maxScore == SentinelScore
      invariant i > 0 ==> IsFirstMax(outputData[..i], maxIndex) && maxScore == outputData[maxIndex]
    {
      if i == 0 {
        maxScore := outputData[i];
      } else if outputData[i] > maxScore {
        maxScore := outputData[i];
        maxIndex := i;
      }
      i := i + 1;
    }
    angle := Angle(maxIndex, maxScore, 0.0);
    if w > 0 {
      assert outputData[..i] == outputData[..w];
      FirstMaxUnique(outputData[..w], maxIndex, Decode(outputData[..w]).index);
    }
  }

  /** getAngle: runs the network on one (already resized) image and decodes
      the whole output vector. */
  method GetAngle<Img>(infer: Img -> seq<real>, img: Img) returns (angle: Angle)
    ensures |infer(img)| > 0 ==> IsFirstMax(infer(img), angle.index) && angle.score == infer(img)[angle.index]
    ensures angle == Decode(infer(img))
  {
    var out := infer(img);
    angle := ScoreToAngle(out, |out|);
  }

  // ---------------------------------------------------------------------------
  // Batch resolver
  // ---------------------------------------------------------------------------

  /** The per-image classifications of a batch, in input order, each carrying
      the time measured for it. */
  function ClassifyAll<Img>(infer: Img -> seq<real>, elapsed: nat -> real, partImgs: seq<Img>): (r: seq<Angle>)
  {
    seq(|partImgs|, i requires 0 <= i < |partImgs| => Decode(infer(partImgs[i])).(time := elapsed(i)))
  }

  /** Sum of the class indices of a batch, accumulated from the front. */
  function SumIndexes(angles: seq<Angle>): int
  {
    if angles == [] then 0 else SumIndexes(angles[..|angles| - 1]) + angles[|angles| - 1].index
  }

  /** The batch-wide label: 0 when the index sum is below half the batch
      size, 1 otherwise (so an exact tie goes to 1). */
  function MostAngleIndex(angles: seq<Angle>): (m: int)
    ensures m == 0 || m == 1
    ensures m == 0 <==> 2 * SumIndexes(angles) < |angles|
  {
    if (SumIndexes(angles) as real) < (|angles| as real) / 2.0 then 0 else 1
  }

  /** The batch with every index overwritten by m. */
  function WithIndex(angles: seq<Angle>, m: int): (r: seq<Angle>)
    ensures |r| == |angles|
    ensures forall i :: 0 <= i < |r| ==>
      r[i].index == m && r[i].score == angles[i].score && r[i].time == angles[i].time
  {
    seq(|angles|, i requires 0 <= i < |angles| => angles[i].(index := m))
  }

  /** getAngles: one record per image in input order; every record is
      Unclassified when doAngle is off, the image's own classification when
      only doAngle is on, and that classification with its index replaced by
      the batch majority when both flags are on. */
  method GetAngles<Img>(infer: Img -> seq<real>, elapsed: nat -> real,
                        partImgs: seq<Img>, doAngle: bool, mostAngle: bool)
    returns (angles: seq<Angle>)
    ensures |angles| == |partImgs|
    ensures !doAngle ==> forall i :: 0 <= i < |angles| ==> angles[i] == Unclassified
    ensures doAngle && !mostAngle ==> angles == ClassifyAll(infer, elapsed, partImgs)
    ensures doAngle && mostAngle ==>
      angles == WithIndex(ClassifyAll(infer, elapsed, partImgs), MostAngleIndex(ClassifyAll(infer, elapsed, partImgs)))
  {
    var size := |partImgs|;
    var buf := new Angle[size];
    ghost var classified := ClassifyAll(infer, elapsed, partImgs);

    if doAngle {
      for i := 0 to size
        invariant forall k :: 0 <= k < i ==> buf[k] == classified[k]
      {
        var angle := GetAngle(infer, partImgs[i]);
        angle := angle.(time := elapsed(i));
        buf[i] := angle;
      }
    } else {
      for i := 0 to size
        invariant forall k :: 0 <= k < i ==> buf[k] == Unclassified
      {
        buf[i] := Unclassified;
      }
    }

    if doAngle && mostAngle {
      assert buf[..] == classified;
      var sum := 0;
      for i := 0 to size
        invariant sum == SumIndexes(buf[..i])
      {
        assert buf[..i + 1][..i] == buf[..i];
        sum := sum + buf[i].index;
      }
      assert buf[..size] == buf[..];
      var mostAngleIndex;
      if (sum as real) < (size as real) / 2.0 {
        mostAngleIndex := 0;
      } else {
        mostAngleIndex := 1;
      }
      for i := 0 to size
        invariant forall k :: 0 <= k < i ==> buf[k] == classified[k].(index := mostAngleIndex)
        invariant forall k :: i <= k < size ==> buf[k] == classified[k]
      {
        var angle := buf[i];
        angle := angle.(index := mostAngleIndex);
        buf[i] := angle;
      }
    }
    angles := buf[..];
  }

  // ---------------------------------------------------------------------------
  // What the majority override means
  // ---------------------------------------------------------------------------

  /** Number of records in the batch whose index is c. */
  function CountIndex(angles: seq<Angle>, c: int): nat
  {
    if angles == [] then 0
    else CountIndex(angles[..|angles| - 1], c) + (if angles[|angles| - 1].index == c then 1 else 0)
  }

  /** Every record carries a binary label. */
  predicate AllBinary(angles: seq<Angle>)
  {
    forall i :: 0 <= i < |angles| ==> angles[i].index == 0 || angles[i].index == 1
  }

  /** With binary labels the index sum counts the ones, and ones and zeros
      together make up the batch. */
  lemma {:induction false} SumCountsOnes(angles: seq<Angle>)
    requires AllBinary(angles)
    ensures SumIndexes(angles) == CountIndex(angles, 1)
    ensures CountIndex(angles, 0) + CountIndex(angles, 1) == |angles|
  {
    if angles != [] {
      var init := angles[..|angles| - 1];
      assert AllBinary(init) by {
        forall i | 0 <= i < |init| ensures init[i].index == 0 || init[i].index == 1 {
          assert init[i] == angles[i];
        }
      }
      SumCountsOnes(init);
    }
  }

  /** For a binary classifier the override is a majority vote: the batch is
      set to 0 exactly when strictly more images were labelled 0 than 1, and
      a tied vote goes to 1. */
  lemma ConsensusIsMajority(angles: seq<Angle>)
    requires AllBinary(angles)
    ensures MostAngleIndex(angles) == 0 <==> CountIndex(angles, 1) < CountIndex(angles, 0)
    ensures CountIndex(angles, 1) == CountIndex(angles, 0) ==> MostAngleIndex(angles) == 1
  {
    SumCountsOnes(angles);
  }

  /** Overwriting every index by m makes the index sum m times the batch size. */
  lemma {:induction false} SumWithIndex(angles: seq<Angle>, m: int)
    ensures SumIndexes(WithIndex(angles, m)) == m * |angles|
  {
    if angles != [] {
      var init := angles[..|angles| - 1];
      assert WithIndex(angles, m)[..|angles| - 1] == WithIndex(init, m);
      SumWithIndex(init, m);
    }
  }

  /** The override is stable: voting again on an overridden batch
      picks the same label, and overriding again changes nothing. */
  lemma OverrideIsStable(angles: seq<Angle>)
    ensures MostAngleIndex(WithIndex(angles, MostAngleIndex(angles))) == MostAngleIndex(angles)
    ensures WithIndex(WithIndex(angles, MostAngleIndex(angles)), MostAngleIndex(angles))
         == WithIndex(angles, MostAngleIndex(angles))
  {
    SumWithIndex(angles, MostAngleIndex(angles));
  }

  /** A two-class network: every output vector has at most two scores, so
      every per-image label is 0 or 1 and the override is a majority vote. */
  lemma TwoClassBatchIsBinary<Img>(infer: Img -> seq<real>, elapsed: nat -> real, partImgs: seq<Img>)
    requires forall i :: 0 <= i < |partImgs| ==> |infer(partImgs[i])| <= 2
    ensures AllBinary(ClassifyAll(infer, elapsed, partImgs))
    ensures MostAngleIndex(ClassifyAll(infer, elapsed, partImgs)) == 0 <==>
      CountIndex(ClassifyAll(infer, elapsed, partImgs), 1) < CountIndex(ClassifyAll(infer, elapsed, partImgs), 0)
  {
    var r := ClassifyAll(infer, elapsed, partImgs);
    forall i | 0 <= i < |r| ensures r[i].index == 0 || r[i].index == 1 {
      var d := Decode(infer(partImgs[i]));
      assert r[i].index == d.index;
    }
    ConsensusIsMajority(r);
  }

  // ---------------------------------------------------------------------------
  // Worked cases
  // ---------------------------------------------------------------------------

  /** Equal top scores: the earlier class wins. */
  lemma DecodeTieExample()
    ensures Decode([0.5, 0.9, 0.9]).index == 1
  {
  }

  /** Votes {0, 0} give 0; {1, 1} and the tie {0, 1} give 1. */
  lemma VoteExamples(a: real, b: real, t: real, u: real)
    ensures MostAngleIndex([Angle(0, a, t), Angle(0, b, u)]) == 0
    ensures MostAngleIndex([Angle(1, a, t), Angle(1, b, u)]) == 1
    ensures MostAngleIndex([Angle(0, a, t), Angle(1, b, u)]) == 1
  {
    var zero, one := [Angle(0, a, t)], [Angle(1, a, t)];
    assert zero[..0] == [] && one[..0] == [];
    assert SumIndexes(zero) == 0 && SumIndexes(one) == 1;
    assert [Angle(0, a, t), Angle(0, b, u)][..1] == zero;
    assert [Angle(1, a, t), Angle(1, b, u)][..1] == one;
    assert [Angle(0, a, t), Angle(1, b, u)][..1] == zero;
  }
}
