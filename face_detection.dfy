/**
 * The face-detection session of `useFaceDetection`: the state record, the
 * start sequence around detector creation, the per-frame step and stop.
 * The detector itself is outside the model: its creation outcome and each
 * frame's result are parameters.
 */
module FaceDetection {
  import opened Wrappers
  import opened EmotionUtils

  /** What `estimateFaces` does with one frame: no face, the first face's keypoints, or an exception. */
  datatype FrameResult = NoFace | Face(landmarks: seq<Landmark>) | Threw

  class FaceDetectionState {
    var isActive: bool
    var isLoading: bool
    var emotion: Option<EmotionData>
    var attentionScore: real
    var emotionHistory: seq<EmotionData>
    /** Whether `modelRef.current` holds a detector. */
    var hasModel: bool

    /**
     * The session invariant: only a session with a detector is active; the
     * emotion shown is the last one recorded; every record is a sample and
     * the score is 0 or one a frame can produce.
     */
    ghost predicate Valid()
      reads this
    {
      (isActive ==> hasModel)
      && (emotion.Some? ==> emotionHistory != [] && emotion.value == emotionHistory[|emotionHistory| - 1])
      && (forall i :: 0 <= i < |emotionHistory| ==> IsSample(emotionHistory[i]))
      && 0.0 <= attentionScore <= 1.0
    }

    /** The initial state: inactive, not loading, no emotion, score 0, empty history, no detector. */
    constructor ()
      ensures Valid()
      ensures !isActive && !isLoading && emotion == None && attentionScore == 0.0 && emotionHistory == []
      ensures !hasModel
    {
      isActive, isLoading := false, false;
      emotion, attentionScore, emotionHistory := None, 0.0, [];
      hasModel := false;
    }

    /** The first update of `startAnalysis`, before detector creation is awaited. */
    method BeginStart()
      requires Valid()
      modifies this`isLoading
      ensures Valid()
      ensures isLoading
      ensures isActive == old(isActive) && hasModel == old(hasModel)
      ensures emotion == old(emotion) && attentionScore == old(attentionScore) && emotionHistory == old(emotionHistory)
    {
      isLoading := true;
    }

    /**
     * The rest of `startAnalysis` once creation has succeeded (`created`) or
     * thrown: success stores the detector and activates the session; either
     * way loading ends; emotion, score and history are untouched.
     */
    method FinishStart(created: bool)
      requires Valid()
      modifies this`isLoading, this`isActive, this`hasModel
      ensures Valid()
      ensures !isLoading
      ensures created ==> isActive && hasModel
      ensures !created ==> isActive == old(isActive) && hasModel == old(hasModel)
      ensures emotion == old(emotion) && attentionScore == old(attentionScore) && emotionHistory == old(emotionHistory)
    {
      if created {
        hasModel := true;
        isActive := true;
      }
      isLoading := false;
    }

    /** `startAnalysis` as a whole. */
    method StartAnalysis(created: bool)
      requires Valid()
      modifies this`isLoading, this`isActive, this`hasModel
      ensures Valid()
      ensures !isLoading
      ensures created ==> isActive && hasModel
      ensures !created ==> isActive == old(isActive) && hasModel == old(hasModel)
      ensures emotion == old(emotion) && attentionScore == old(attentionScore) && emotionHistory == old(emotionHistory)
    {
      BeginStart();
      FinishStart(created);
    }

    /**
     * One run of `detectFace` whose guard and reschedule test read `active`.
     * Without a video, a detector or `active` it does nothing and schedules
     * nothing. A face updates the emotion and score, appends the record to
     * the history and passes it to the callback (`notified`); a frame
     * without a face changes nothing; both schedule the next frame (`again`)
     * exactly when `active` holds. An exception is swallowed and, the
     * rescheduling being inside the `try`, ends the loop.
     */
    method Frame(active: bool, hasVideo: bool, result: FrameResult) returns (notified: Option<EmotionData>, again: bool)
      requires Valid()
      modifies this`emotion, this`attentionScore, this`emotionHistory
      ensures Valid()
      ensures var proceeds := hasVideo && hasModel && active;
        if proceeds && result.Face? then
          var (attention, sample) := AnalyseFace(result.landmarks);
          emotion == Some(sample) && attentionScore == attention
          && emotionHistory == old(emotionHistory) + [sample]
          && notified == Some(sample) && again
        else
          emotion == old(emotion) && attentionScore == old(attentionScore) && emotionHistory == old(emotionHistory)
          && notified == None && again == (proceeds && result.NoFace?)
    {
      notified, again := None, false;
      if !hasVideo || !hasModel || !active {
        return;
      }
      match result {
        case Threw =>
        case NoFace =>
          again := active;
        case Face(landmarks) =>
          var (attention, sample) := AnalyseFace(landmarks);
          emotion := Some(sample);
          attentionScore := attention;
          emotionHistory := emotionHistory + [sample];
          notified := Some(sample);
          again := active;
      }
    }

    /** `detectFace` reading the session's current `isActive`, as the loop is meant to. */
    method DetectFace(hasVideo: bool, result: FrameResult) returns (notified: Option<EmotionData>, again: bool)
      requires Valid()
      modifies this`emotion, this`attentionScore, this`emotionHistory
      ensures Valid()
      ensures var proceeds := hasVideo && hasModel && isActive;
        if proceeds && result.Face? then
          var (attention, sample) := AnalyseFace(result.landmarks);
          emotion == Some(sample) && attentionScore == attention
          && emotionHistory == old(emotionHistory) + [sample]
          && notified == Some(sample) && again
        else
          emotion == old(emotion) && attentionScore == old(attentionScore) && emotionHistory == old(emotionHistory)
          && notified == None && again == (proceeds && result.NoFace?)
    {
      notified, again := Frame(isActive, hasVideo, result);
    }

    /**
     * `startAnalysis` followed by the first `detectFace` as written: the
     * loop's closure holds the `isActive` of the render that started it,
     * taken before the start. Started from an inactive session, that frame
     * analyses nothing and schedules nothing, whatever the detector and the
     * camera give, so the loop never runs. When creating the detector fails,
     * no frame runs at all. Only when it succeeds from an already active
     * session does the captured `true` let the frame run as `Frame` does.
     */
    method StartAnalysisAsWritten(created: bool, hasVideo: bool, result: FrameResult)
      returns (notified: Option<EmotionData>, again: bool)
      requires Valid()
      modifies this`isLoading, this`isActive, this`hasModel, this`emotion, this`attentionScore, this`emotionHistory
      ensures Valid()
      ensures !isLoading
      ensures created ==> isActive && hasModel
      ensures !created ==> isActive == old(isActive) && hasModel == old(hasModel)
      ensures !old(isActive) ==>
        notified == None && !again
        && emotion == old(emotion) && attentionScore == old(attentionScore) && emotionHistory == old(emotionHistory)
      ensures !created ==>
        notified == None && !again
        && emotion == old(emotion) && attentionScore == old(attentionScore) && emotionHistory == old(emotionHistory)
      ensures created && old(isActive) ==>
        var proceeds := hasVideo && hasModel;
        if proceeds && result.Face? then
          var (attention, sample) := AnalyseFace(result.landmarks);
          emotion == Some(sample) && attentionScore == attention
          && emotionHistory == old(emotionHistory) + [sample]
          && notified == Some(sample) && again
        else
          emotion == old(emotion) && attentionScore == old(attentionScore) && emotionHistory == old(emotionHistory)
          && notified == None && again == (proceeds && result.NoFace?)
    {
      var captured := isActive;
      StartAnalysis(created);
      if created {
        notified, again := Frame(captured, hasVideo, result);
      } else {
        notified, again := None, false;
      }
    }

    /** `stopAnalysis`: inactive and no emotion; the score, the history and the detector stay. */
    method StopAnalysis()
      requires Valid()
      modifies this`isActive, this`emotion
      ensures Valid()
      ensures !isActive && emotion == None
      ensures isLoading == old(isLoading) && hasModel == old(hasModel)
      ensures attentionScore == old(attentionScore) && emotionHistory == old(emotionHistory)
    {
      isActive := false;
      emotion := None;
    }
  }

  /**
   * The loop as written, from a fresh session with a working detector and a
   * face in view: the first frame already stops, so no emotion is ever
   * recorded. With the current `isActive` read, the same frame is analysed
   * and the next one scheduled.
   */
  method StaleCaptureScenario()
  {
    var s := new FaceDetectionState();
    var n, again := s.StartAnalysisAsWritten(true, true, Face([]));
    assert s.isActive && n == None && !again && s.emotionHistory == [];
    n, again := s.DetectFace(true, Face([]));
    assert n.Some? && again && |s.emotionHistory| == 1;
  }

  /**
   * A failed restart of an active session runs no frame: the face is not
   * recorded and nothing is scheduled.
   */
  method FailedStartScenario()
  {
    var s := new FaceDetectionState();
    s.StartAnalysis(true);
    var n, again := s.StartAnalysisAsWritten(false, true, Face([]));
    assert s.isActive && n == None && !again && s.emotionHistory == [];
  }

  /**
   * A session run against the contracts alone: a face with no keypoints
   * scores 0.5 (tired), a face turned away with no eye landmarks scores 0.7
   * (neutral), a frame without a face adds nothing, and an exception ends the
   * loop with the history at two records.
   */
  method SessionScenario()
  {
    var s := new FaceDetectionState();
    s.StartAnalysis(true);
    assert s.isActive;
    var n, again := s.DetectFace(true, Face([]));
    assert s.attentionScore == 0.5 && again;
    assert s.emotion.value.emotion == "Tired";
    var turned: seq<Landmark> := [None, Some(Keypoint(0.0, 0.0, 0.5))];
    assert !FacingCamera(turned);
    assert FaceEyeRatio(turned) == Finite(FallbackRatio) by {
      MissingRatioLandmark(turned, 33);
    }
    n, again := s.DetectFace(true, Face(turned));
    assert s.attentionScore == 0.7 && s.emotion.value.emotion == "Neutral";
    n, again := s.DetectFace(true, NoFace);
    assert |s.emotionHistory| == 2 && again;
    n, again := s.DetectFace(true, Threw);
    assert |s.emotionHistory| == 2 && !again;
    s.StopAnalysis();
    assert !s.isActive && s.emotion == None && |s.emotionHistory| == 2;
    n, again := s.DetectFace(true, Face([]));
    assert |s.emotionHistory| == 2 && n == None;
  }
}
