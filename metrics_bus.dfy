/** The metrics bus: one snapshot of the current frame's metrics, overwritten on
    every poll and announced to the subscribers. */
module Metrics {

  /** What a subscriber reads from the bus when it is notified. */
  datatype Snapshot = Snapshot(accuracy: real, velocity: real, fatigue: real, confidence: real,
                               frameIndex: int, elapsedSeconds: real,
                               anomalyDetected: bool, anomalyReason: string)

  class MetricsBus {
    var Accuracy: real
    var Velocity: real
    var Fatigue: real
    var Confidence: real
    var FrameIndex: int
    var ElapsedSeconds: real
    var AnomalyDetected: bool
    var AnomalyReason: string
    /** Number of `OnMetricsUpdated` notifications raised so far. */
    var notifications: nat

    /** A reason is only ever published together with a detected anomaly. */
    ghost predicate Valid()
      reads this
    {
      !AnomalyDetected ==> AnomalyReason == []
    }

    function Current(): (m: Snapshot)
      reads this
    {
      Snapshot(Accuracy, Velocity, Fatigue, Confidence, FrameIndex, ElapsedSeconds,
               AnomalyDetected, AnomalyReason)
    }

    constructor ()
      ensures Valid() && Current() == Snapshot(0.0, 0.0, 0.0, 0.0, 0, 0.0, false, [])
      ensures notifications == 0
    {
      Accuracy, Velocity, Fatigue, Confidence := 0.0, 0.0, 0.0, 0.0;
      FrameIndex, ElapsedSeconds := 0, 0.0;
      AnomalyDetected, AnomalyReason := false, [];
      notifications := 0;
    }

    /** Everything back to zero, no anomaly, empty reason; one notification. */
    method ResetAll()
      modifies this
      ensures Valid() && Current() == Snapshot(0.0, 0.0, 0.0, 0.0, 0, 0.0, false, [])
      ensures notifications == old(notifications) + 1
    {
      Accuracy := 0.0;
      Velocity := 0.0;
      Fatigue := 0.0;
      Confidence := 0.0;
      FrameIndex := 0;
      ElapsedSeconds := 0.0;
      AnomalyDetected := false;
      AnomalyReason := [];
      notifications := notifications + 1;
    }

    /** The metrics, frame and time are stored as given; the reason is kept only
        when an anomaly is detected; one notification. */
    method UpdateFromFrame(accuracy: real, velocity: real, fatigue: real, confidence: real,
                           frameIndex: int, elapsedSeconds: real,
                           anomalyDetected: bool, anomalyReason: string)
      modifies this
      ensures Valid()
      ensures Current() == Snapshot(accuracy, velocity, fatigue, confidence, frameIndex,
                                    elapsedSeconds, anomalyDetected,
                                    if anomalyDetected then anomalyReason else [])
      ensures notifications == old(notifications) + 1
    {
      Accuracy := accuracy;
      Velocity := velocity;
      Fatigue := fatigue;
      Confidence := confidence;
      FrameIndex := frameIndex;
      ElapsedSeconds := elapsedSeconds;
      AnomalyDetected := anomalyDetected;
      AnomalyReason := if anomalyDetected then anomalyReason else [];
      notifications := notifications + 1;
    }
  }
}
