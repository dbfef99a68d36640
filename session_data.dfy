/** The session record: the four metric channels of one synthetic session, sampled at
    30 frames per second, and the parallel anomaly schedule. */
module Session {
  import opened Unity

  class SessionData {
    var modelName: string
    var totalFrames: int
    var sessionDuration: real
    var accuracyData: array<real>
    var velocityData: array<real>
    var fatigueData: array<real>
    var confidenceData: array<real>
    /** DateTime of creation, as a tick count supplied by the caller. */
    var timestamp: int
    /** None stands for a null array. */
    var anomalyFrames: Option<seq<int>>
    var anomalyReasons: Option<seq<string>>

    /** Every channel holds one sample per frame, and the channels are four
        separate arrays. */
    ghost predicate Valid()
      reads this
    {
      0 <= totalFrames
      && accuracyData.Length == totalFrames
      && velocityData.Length == totalFrames
      && fatigueData.Length == totalFrames
      && confidenceData.Length == totalFrames
      && accuracyData != velocityData && accuracyData != fatigueData
      && accuracyData != confidenceData && velocityData != fatigueData
      && velocityData != confidenceData && fatigueData != confidenceData
    }

    /** A field-initialised record: no frames, empty channels, no schedule. */
    constructor ()
      ensures Valid() && totalFrames == 0 && modelName == [] && sessionDuration == 0.0
      ensures anomalyFrames == None && anomalyReasons == None
      ensures fresh(accuracyData) && fresh(velocityData)
      ensures fresh(fatigueData) && fresh(confidenceData)
    {
      modelName := [];
      totalFrames := 0;
      sessionDuration := 0.0;
      accuracyData := new real[0];
      velocityData := new real[0];
      fatigueData := new real[0];
      confidenceData := new real[0];
      timestamp := 0;
      anomalyFrames := None;
      anomalyReasons := None;
    }
  }
}
