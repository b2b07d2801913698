/**
 * The per-frame alert decision of alert_system.py: the scan of the
 * detector's output for a vehicle label, the cooldown rule, and what the
 * buzzer does when an alert fires.
 */
module AlertGate {
  import opened Base

  /** The labels that raise an alert. */
  const TargetLabels: seq<string> := ["car", "bus", "truck", "motorcycle"]

  /** Minimum time between two alerts, in seconds. */
  const AlertInterval: real := 5.0

  /** One row of the detector's output: box corners, confidence and the
      label (`name`) the model's class index names. */
  datatype Box = Box(x1: real, y1: real, x2: real, y2: real)
  datatype Detection = Detection(box: Box, confidence: real, name: string)

  /** What the buzzer did for an alert: played the file, failed to play it
      (the audio library raised its error, which is caught), or nothing
      because no audio file was found (visual alert only). */
  datatype AlertOutcome = Played | PlaybackFailed | VisualOnly

  predicate IsTarget(name: string)
  {
    name in TargetLabels
  }

  /** Some detection carries a target label. */
  predicate HasTarget(dets: seq<Detection>)
  {
    exists i :: 0 <= i < |dets| && IsTarget(dets[i].name)
  }

  /** The detections' labels, in order. */
  function Labels(dets: seq<Detection>): seq<string>
  {
    seq(|dets|, i requires 0 <= i < |dets| => dets[i].name)
  }

  /** More than the alert interval has passed since the last alert. */
  predicate CooldownElapsed(now: real, lastAlertTime: real)
  {
    now - lastAlertTime > AlertInterval
  }

  /** The gate: a target is in view and the cooldown has elapsed. */
  predicate ShouldFire(dets: seq<Detection>, now: real, lastAlertTime: real)
  {
    HasTarget(dets) && CooldownElapsed(now, lastAlertTime)
  }

  /** The scan over the detections, stopping at the first target label. */
  method ScanDetections(dets: seq<Detection>) returns (detected: bool)
    ensures detected <==> HasTarget(dets)
  {
    detected := false;
    var i := 0;
    while i < |dets|
      invariant 0 <= i <= |dets|
      invariant forall j :: 0 <= j < i ==> dets[j].name !in TargetLabels
    {
      if dets[i].name in TargetLabels {
        detected := true;
        break;
      }
      i := i + 1;
    }
  }

  /** The buzzer: `if audio_file:` treats an absent or empty path as no file. */
  function Dispatch(audioFile: Option<string>, playbackOk: bool): AlertOutcome
  {
    if audioFile.Some? && audioFile.value != "" then
      (if playbackOk then Played else PlaybackFailed)
    else VisualOnly
  }

  /** The scan decides exactly HasTarget. */
  lemma HasTargetIffSomeLabel(dets: seq<Detection>)
    ensures HasTarget(dets) <==> exists l :: l in Labels(dets) && l in TargetLabels
  {
    if HasTarget(dets) {
      var i :| 0 <= i < |dets| && IsTarget(dets[i].name);
      assert Labels(dets)[i] == dets[i].name;
    }
  }

  /** Confidence scores and boxes are never consulted: two frames whose
      detections carry the same labels get the same decision. */
  lemma GateReadsOnlyLabels(d1: seq<Detection>, d2: seq<Detection>, now: real, lastAlertTime: real)
    requires Labels(d1) == Labels(d2)
    ensures ShouldFire(d1, now, lastAlertTime) == ShouldFire(d2, now, lastAlertTime)
  {
    HasTargetIffSomeLabel(d1);
    HasTargetIffSomeLabel(d2);
  }

  /** Without a target nothing fires, however long ago the last alert was;
      a target alone does not fire within the interval. */
  lemma GateNeedsBoth(dets: seq<Detection>, now: real, lastAlertTime: real)
    ensures ShouldFire(dets, now, lastAlertTime) ==> now > lastAlertTime + AlertInterval
    ensures !HasTarget(dets) ==> !ShouldFire(dets, now, lastAlertTime)
  {
  }

  /** Worked cases of the gate and the buzzer. */
  lemma GateExamples()
    ensures ShouldFire([Detection(Box(0.0, 0.0, 1.0, 1.0), 0.9, "car")], 10.0, 0.0)
    ensures !ShouldFire([Detection(Box(0.0, 0.0, 1.0, 1.0), 0.9, "car")], 3.0, 0.0)
    ensures !ShouldFire([Detection(Box(0.0, 0.0, 1.0, 1.0), 0.95, "person")], 100.0, 0.0)
    ensures !ShouldFire([Detection(Box(0.0, 0.0, 1.0, 1.0), 0.9, "car")], 5.0, 0.0)
    ensures Dispatch(None, true) == VisualOnly && Dispatch(Some("buzzer.mp3"), false) == PlaybackFailed
  {
    var car := [Detection(Box(0.0, 0.0, 1.0, 1.0), 0.9, "car")];
    assert IsTarget(car[0].name);
  }
}
