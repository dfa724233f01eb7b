/**
 * The attention heuristic and the emotion classifier. A frame's face is a
 * sequence of landmarks indexed by the face-mesh numbering; an entry the
 * detector did not supply (JavaScript `undefined`) is `None`. Scores and
 * confidences are exact reals.
 */
module EmotionUtils {
  import opened Wrappers
  import Text

  datatype Keypoint = Keypoint(x: real, y: real, z: real)

  type Landmark = Option<Keypoint>

  /** An entry of `emotionDescriptions`: everything of an emotion record but its confidence. */
  datatype Description = Description(emotion: string, description: string, color: string)

  /** `EmotionData`: what the session state shows and records. */
  datatype EmotionData = EmotionData(emotion: string, confidence: real, description: string, color: string)

  /** What `detectEmotion` returns: a key of `EmotionDescriptions` and a confidence. */
  datatype Detection = Detection(emotion: string, confidence: real)

  const EmotionDescriptions: map<string, Description> := map[
    "attentive" := Description("Attentive", "You appear to be focused and engaged with the content.", "bg-green-500"),
    "distracted" := Description("Distracted", "You seem to be losing focus. Try to concentrate more.", "bg-yellow-500"),
    "tired" := Description("Tired", "You're showing signs of fatigue. Consider taking a short break.", "bg-red-500"),
    "neutral" := Description("Neutral", "Your expression appears calm and balanced.", "bg-gray-500")
  ]

  const LeftEyeIndices: seq<nat> := [33, 160, 158, 133, 153, 144]
  const RightEyeIndices: seq<nat> := [362, 385, 387, 263, 373, 380]
  const NoseIndex: nat := 1

  /** The eye-aspect ratio used when a landmark it needs is missing. */
  const FallbackRatio: real := 0.3
  const ClosedEyeThreshold: real := 0.15
  const ClosedEyePenalty: real := 0.4
  const FacingThreshold: real := 0.1
  const TurnedAwayPenalty: real := 0.3
  /** The score given when there are no landmarks at all. */
  const NoLandmarksAttention: real := 0.5

  /**
   * A JavaScript number produced by the ratio: a finite value, or the
   * Infinity or NaN that a zero horizontal eye distance gives. Neither of the
   * latter compares below any threshold.
   */
  datatype Ratio = Finite(value: real) | NonFinite

  function Abs(x: real): (r: real)
    ensures r >= 0.0 && (r == x || r == -x)
  {
    if x < 0.0 then -x else x
  }

  /** `landmarks[i]`: `undefined` past the end. */
  function At(landmarks: seq<Landmark>, i: nat): Landmark
  {
    if i < |landmarks| then landmarks[i] else None
  }

  /** `indices.map(index => landmarks[index])`. */
  function Gather(landmarks: seq<Landmark>, indices: seq<nat>): (eye: seq<Landmark>)
    ensures |eye| == |indices|
    ensures forall k :: 0 <= k < |indices| ==> eye[k] == At(landmarks, indices[k])
  {
    if indices == [] then [] else [At(landmarks, indices[0])] + Gather(landmarks, indices[1..])
  }

  /**
   * One eye's vertical over horizontal distance, from positions 1 and 5
   * (vertical) and 0 and 3 (horizontal) of its six landmarks; `None` when one
   * of those four is missing, which in the source throws.
   */
  function EyeRatio(eye: seq<Landmark>): (r: Option<Ratio>)
    ensures r.None? <==> At(eye, 0).None? || At(eye, 1).None? || At(eye, 3).None? || At(eye, 5).None?
    ensures r == Some(NonFinite) <==> r.Some? && At(eye, 0).value.x == At(eye, 3).value.x
    ensures r.Some? && r.value.Finite? ==> r.value.value >= 0.0
  {
    var p0 := At(eye, 0);
    var p1 := At(eye, 1);
    var p3 := At(eye, 3);
    var p5 := At(eye, 5);
    if p0.None? || p1.None? || p3.None? || p5.None? then None
    else
      var vertical := Abs(p1.value.y - p5.value.y);
      var horizontal := Abs(p0.value.x - p3.value.x);
      if horizontal == 0.0 then Some(NonFinite) else Some(Finite(vertical / horizontal))
  }

  /** `calculateEyeAspectRatio`: the mean of the two eyes' ratios, or the fallback. */
  function EyeAspectRatio(landmarks: seq<Landmark>, leftIndices: seq<nat>, rightIndices: seq<nat>): (r: Ratio)
    ensures EyeRatio(Gather(landmarks, leftIndices)).None? || EyeRatio(Gather(landmarks, rightIndices)).None?
      ==> r == Finite(FallbackRatio)
    ensures r.Finite? ==> r.value >= 0.0
  {
    var left := EyeRatio(Gather(landmarks, leftIndices));
    var right := EyeRatio(Gather(landmarks, rightIndices));
    if left.None? || right.None? then Finite(FallbackRatio)
    else if left.value.Finite? && right.value.Finite? then Finite((left.value.value + right.value.value) / 2.0)
    else NonFinite
  }

  /** The ratio `calculateAttention` computes, over the face-mesh eye indices. */
  function FaceEyeRatio(landmarks: seq<Landmark>): (r: Ratio)
    ensures r.Finite? ==> r.value >= 0.0
  {
    EyeAspectRatio(landmarks, LeftEyeIndices, RightEyeIndices)
  }

  /**
   * The closed-eyes test `eyeAspectRatio < 0.15`. A fully shut eye passes;
   * the fallback ratio and the Infinity or NaN of a zero eye width never do.
   */
  function EyesClosed(ratio: Ratio): (b: bool)
    ensures ratio == Finite(0.0) ==> b
    ensures ratio == Finite(FallbackRatio) ==> !b
    ensures ratio == NonFinite ==> !b
  {
    ratio.Finite? && ratio.value < ClosedEyeThreshold
  }

  /** The head test: a present nose tip with |z| of at least 0.1 is turned away; a missing one is not. */
  function FacingCamera(landmarks: seq<Landmark>): (b: bool)
    ensures |landmarks| <= NoseIndex ==> b
    ensures At(landmarks, NoseIndex).Some? ==>
      (b <==> -FacingThreshold < At(landmarks, NoseIndex).value.z < FacingThreshold)
  {
    var nose := At(landmarks, NoseIndex);
    nose.None? || Abs(nose.value.z) < FacingThreshold
  }

  /** `Math.max(0, Math.min(1, x))`. */
  function Clamp(x: real): (r: real)
    ensures 0.0 <= r <= 1.0
    ensures 0.0 <= x <= 1.0 ==> r == x
    ensures x < 0.0 ==> r == 0.0
    ensures x > 1.0 ==> r == 1.0
  {
    if x < 0.0 then 0.0 else if x > 1.0 then 1.0 else x
  }

  /** `calculateAttention`: `None` is a null array. */
  function CalculateAttention(landmarks: Option<seq<Landmark>>): (r: real)
    ensures 0.0 <= r <= 1.0
    ensures r == 1.0 || r == 0.7 || r == 0.6 || r == 0.3 || r == 0.5
  {
    if landmarks.None? || |landmarks.value| == 0 then NoLandmarksAttention
    else
      var lms := landmarks.value;
      var attention := 1.0;
      var attention := if EyesClosed(FaceEyeRatio(lms)) then attention - ClosedEyePenalty else attention;
      var attention := if !FacingCamera(lms) then attention - TurnedAwayPenalty else attention;
      Clamp(attention)
  }

  /** `detectEmotion`: the first of four threshold tests that holds decides. */
  function DetectEmotion(attention: real): (r: Detection)
    ensures r.emotion in EmotionDescriptions
  {
    if attention > 0.8 then Detection("attentive", attention)
    else if attention < 0.4 then Detection("distracted", 1.0 - attention)
    else if attention < 0.6 then Detection("tired", 0.7)
    else Detection("neutral", 0.6)
  }

  /**
   * `{ ...emotionDescriptions[key], confidence }`: the record is shown under
   * the key's capitalised name, with the table's text and colour for it.
   */
  function WithConfidence(key: string, confidence: real): (d: EmotionData)
    requires key in EmotionDescriptions
    ensures |key| > 0 && d.emotion == [Text.UpperChar(key[0])] + key[1..]
    ensures d.confidence == confidence
    ensures (d.description, d.color) == (EmotionDescriptions[key].description, EmotionDescriptions[key].color)
  {
    DescriptionsCapitalised();
    var entry := EmotionDescriptions[key];
    EmotionData(entry.emotion, confidence, entry.description, entry.color)
  }

  /** An emotion record a frame can produce: one of the four names, with a confidence in [0.6, 1]. */
  predicate IsSample(e: EmotionData)
  {
    e.emotion in {"Attentive", "Distracted", "Tired", "Neutral"} && 0.6 <= e.confidence <= 1.0
  }

  /**
   * What one frame with a face produces: its attention score, one of the
   * five reachable values, and a sample record; the record says "Tired"
   * exactly when the face came with no keypoints.
   */
  function AnalyseFace(landmarks: seq<Landmark>): (r: (real, EmotionData))
    ensures r.0 == CalculateAttention(Some(landmarks))
    ensures r.0 == 1.0 || r.0 == 0.7 || r.0 == 0.6 || r.0 == 0.3 || r.0 == 0.5
    ensures IsSample(r.1)
    ensures r.1.emotion == "Tired" <==> landmarks == []
  {
    var attention := CalculateAttention(Some(landmarks));
    var d := DetectEmotion(attention);
    AttentionToEmotion(Some(landmarks));
    ConfidenceBounds(attention);
    (attention, WithConfidence(d.emotion, d.confidence))
  }

  // ---------------------------------------------------------------------------
  // Properties of the attention score

  /** The neutral default 0.5 is given exactly when there are no landmarks; a face never scores 0.5. */
  lemma NoLandmarksIff(landmarks: Option<seq<Landmark>>)
    ensures CalculateAttention(landmarks) == 0.5 <==> landmarks.None? || landmarks.value == []
  {
  }

  /**
   * For a non-empty landmark set each penalty is applied exactly when its
   * condition holds: the eye penalty when the ratio is below 0.15, the head
   * penalty when the nose tip exists with |z| at least 0.1.
   */
  lemma PenaltiesIff(landmarks: seq<Landmark>)
    requires landmarks != []
    ensures var r := CalculateAttention(Some(landmarks));
      (EyesClosed(FaceEyeRatio(landmarks)) <==> r == 0.6 || r == 0.3)
      && (!FacingCamera(landmarks) <==> r == 0.7 || r == 0.3)
  {
  }

  /** The nose test in the source's terms. */
  lemma TurnedAwayIff(landmarks: seq<Landmark>)
    ensures !FacingCamera(landmarks) <==>
      NoseIndex < |landmarks| && landmarks[NoseIndex].Some? && Abs(landmarks[NoseIndex].value.z) >= 0.1
  {
  }

  /** The eight landmarks the ratio reads: positions 0, 1, 3 and 5 of each index list. */
  const RatioIndices: set<nat> := {33, 160, 133, 144, 362, 385, 263, 380}

  /** The ratio depends on the eight landmarks in `RatioIndices` and on nothing else. */
  lemma RatioReadsOnly(a: seq<Landmark>, b: seq<Landmark>)
    requires forall i :: i in RatioIndices ==> At(a, i) == At(b, i)
    ensures FaceEyeRatio(a) == FaceEyeRatio(b)
  {
    assert At(a, 33) == At(b, 33) && At(a, 160) == At(b, 160) && At(a, 133) == At(b, 133) && At(a, 144) == At(b, 144);
    assert At(a, 362) == At(b, 362) && At(a, 385) == At(b, 385) && At(a, 263) == At(b, 263) && At(a, 380) == At(b, 380);
    var la, lb := Gather(a, LeftEyeIndices), Gather(b, LeftEyeIndices);
    var ra, rb := Gather(a, RightEyeIndices), Gather(b, RightEyeIndices);
    assert At(la, 0) == At(lb, 0) && At(la, 1) == At(lb, 1) && At(la, 3) == At(lb, 3) && At(la, 5) == At(lb, 5);
    assert At(ra, 0) == At(rb, 0) && At(ra, 1) == At(rb, 1) && At(ra, 3) == At(rb, 3) && At(ra, 5) == At(rb, 5);
  }

  /** A missing landmark among those the ratio reads gives the fallback 0.3, which is never "closed". */
  lemma MissingRatioLandmark(landmarks: seq<Landmark>, i: nat)
    requires i in RatioIndices && At(landmarks, i).None?
    ensures FaceEyeRatio(landmarks) == Finite(FallbackRatio)
    ensures !EyesClosed(FaceEyeRatio(landmarks))
  {
    var l := Gather(landmarks, LeftEyeIndices);
    var r := Gather(landmarks, RightEyeIndices);
    if i == 33 { assert At(l, 0).None?; }
    else if i == 160 { assert At(l, 1).None?; }
    else if i == 133 { assert At(l, 3).None?; }
    else if i == 144 { assert At(l, 5).None?; }
    else if i == 362 { assert At(r, 0).None?; }
    else if i == 385 { assert At(r, 1).None?; }
    else if i == 263 { assert At(r, 3).None?; }
    else { assert At(r, 5).None?; }
  }

  /** A zero horizontal distance gives no number to compare, so no eye penalty. */
  lemma FlatEyeNoPenalty(landmarks: seq<Landmark>)
    requires forall i :: i in RatioIndices ==> At(landmarks, i).Some?
    requires At(landmarks, 33).value.x == At(landmarks, 133).value.x
    ensures FaceEyeRatio(landmarks) == NonFinite
    ensures !EyesClosed(FaceEyeRatio(landmarks))
  {
    assert At(landmarks, 33).Some? && At(landmarks, 160).Some? && At(landmarks, 133).Some? && At(landmarks, 144).Some?;
    assert At(landmarks, 362).Some? && At(landmarks, 385).Some? && At(landmarks, 263).Some? && At(landmarks, 380).Some?;
    var l := Gather(landmarks, LeftEyeIndices);
    assert At(l, 0) == At(landmarks, 33) && At(l, 3) == At(landmarks, 133);
    assert EyeRatio(l) == Some(NonFinite);
  }

  // ---------------------------------------------------------------------------
  // Properties of the classifier

  /** The four outcomes of `detectEmotion`, each with both directions of its condition. */
  lemma DetectEmotionCases(a: real)
    ensures DetectEmotion(a).emotion == "attentive" <==> a > 0.8
    ensures DetectEmotion(a).emotion == "distracted" <==> a < 0.4
    ensures DetectEmotion(a).emotion == "tired" <==> 0.4 <= a < 0.6
    ensures DetectEmotion(a).emotion == "neutral" <==> 0.6 <= a <= 0.8
    ensures DetectEmotion(a).emotion == "attentive" ==> DetectEmotion(a).confidence == a
    ensures DetectEmotion(a).emotion == "distracted" ==> DetectEmotion(a).confidence == 1.0 - a
    ensures DetectEmotion(a).emotion == "tired" ==> DetectEmotion(a).confidence == 0.7
    ensures DetectEmotion(a).emotion == "neutral" ==> DetectEmotion(a).confidence == 0.6
  {
  }

  /** The boundaries fall to the later branch: 0.8 and 0.6 are neutral, 0.4 is tired. */
  lemma DetectEmotionBoundaries()
    ensures DetectEmotion(0.8) == Detection("neutral", 0.6)
    ensures DetectEmotion(0.6) == Detection("neutral", 0.6)
    ensures DetectEmotion(0.4) == Detection("tired", 0.7)
  {
  }

  /** A score in [0,1] gets a confidence in [0.6,1]. */
  lemma ConfidenceBounds(a: real)
    requires 0.0 <= a <= 1.0
    ensures 0.6 <= DetectEmotion(a).confidence <= 1.0
  {
  }

  /** The description table has exactly the four keys, each titled by its capitalised key. */
  lemma DescriptionsCapitalised()
    ensures EmotionDescriptions.Keys == {"attentive", "distracted", "tired", "neutral"}
    ensures forall k :: k in EmotionDescriptions ==>
      EmotionDescriptions[k].emotion == [Text.UpperChar(k[0])] + k[1..]
  {
    forall k | k in EmotionDescriptions
      ensures EmotionDescriptions[k].emotion == [Text.UpperChar(k[0])] + k[1..]
    {
      if k == "attentive" {
        Capitalises(k, 'a', "ttentive", EmotionDescriptions[k].emotion);
      } else if k == "distracted" {
        Capitalises(k, 'd', "istracted", EmotionDescriptions[k].emotion);
      } else if k == "tired" {
        Capitalises(k, 't', "ired", EmotionDescriptions[k].emotion);
      } else {
        Capitalises(k, 'n', "eutral", EmotionDescriptions[k].emotion);
      }
    }
  }

  /** A title that is the key's first letter in upper case followed by the rest of the key. */
  lemma Capitalises(key: string, head: char, tail: string, title: string)
    requires key == [head] + tail
    requires title == [Text.UpperChar(head)] + tail
    ensures title == [Text.UpperChar(key[0])] + key[1..]
  {
  }

  /**
   * The score and the classifier together: a full score is attentive, 0.7
   * and 0.6 are neutral, 0.3 is distracted with confidence 0.7, and only the
   * no-landmark default 0.5 is tired.
   */
  lemma AttentionToEmotion(landmarks: Option<seq<Landmark>>)
    ensures var a := CalculateAttention(landmarks); var d := DetectEmotion(a);
      (a == 1.0 ==> d == Detection("attentive", 1.0))
      && (a == 0.7 || a == 0.6 ==> d == Detection("neutral", 0.6))
      && (a == 0.3 ==> d == Detection("distracted", 0.7))
      && (d.emotion == "tired" <==> landmarks.None? || landmarks.value == [])
  {
  }
}
