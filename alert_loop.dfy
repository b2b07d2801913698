/**
 * The script of alert_system.py as a whole: find the buzzer file, select
 * a camera (or exit), then run the `while True` loop that reads a frame,
 * reconnects on a failed read, gates alerts by the cooldown and stops on
 * 'q', and release the camera on the way out.
 *
 * Each loop iteration is driven by a `Tick`: what the camera read
 * returned and, after a failure, whether the reopened handle opened;
 * after a success, the detector's output, the clock, whether playback
 * raised and the key code.  A finite sequence of ticks runs the loop
 * until it stops or the ticks run out.
 */
module AlertLoop {
  import opened Base
  import opened AudioSearch
  import opened AlertGate
  import opened Capture

  datatype Tick =
    | ReadFailed(reopened: bool)
    | FrameRead(detections: seq<Detection>, now: real, playbackOk: bool, key: int)

  /** Running: the loop goes on; Quit: 'q' was pressed; ReconnectFailed:
      the reopened camera did not open. */
  datatype Status = Running | Quit | ReconnectFailed

  datatype Alert = Alert(time: real, outcome: AlertOutcome)

  /** The state the loop carries between iterations: the camera handle,
      the record of driver calls, the cooldown timestamp and the alerts
      raised so far. */
  datatype Machine = Machine(cap: Handle, nextId: nat, events: seq<Event>, lastAlertTime: real, alerts: seq<Alert>)

  /** `ord('q')`. */
  const QuitKey: int := 113

  /** `cv2.waitKey(1) & 0xFF == ord('q')`; Dafny's `%` by 256 is the low byte. */
  predicate IsQuitKey(key: int)
  {
    key % 256 == QuitKey
  }

  /** Whether the loop stops after this tick, and how. */
  function TickStatus(t: Tick): Status
  {
    match t
    case ReadFailed(reopened) => if reopened then Running else ReconnectFailed
    case FrameRead(_, _, _, key) => if IsQuitKey(key) then Quit else Running
  }

  /** One iteration of the loop. */
  function StepSpec(audioFile: Option<string>, m: Machine, t: Tick): Machine
  {
    match t
    case ReadFailed(reopened) =>
      var h := Handle(m.nextId, ReconnectCandidate, reopened);
      m.(cap := h, nextId := m.nextId + 1,
         events := m.events + [Read(m.cap.id, false), Release(m.cap.id), Open(h.id, h.source, reopened)])
    case FrameRead(dets, now, playbackOk, _) =>
      var m1 := m.(events := m.events + [Read(m.cap.id, true)]);
      if ShouldFire(dets, now, m.lastAlertTime) then
        m1.(lastAlertTime := now, alerts := m.alerts + [Alert(now, Dispatch(audioFile, playbackOk))])
      else m1
  }

  /** The clean-up after the loop: the camera handle is released. */
  function Cleanup(m: Machine): Machine
  {
    m.(events := m.events + [Release(m.cap.id)])
  }

  /** The loop over a sequence of ticks, with the clean-up when it stops. */
  function RunSpec(audioFile: Option<string>, m: Machine, ticks: seq<Tick>): Machine
    decreases |ticks|
  {
    if ticks == [] then m
    else
      var m' := StepSpec(audioFile, m, ticks[0]);
      if TickStatus(ticks[0]) != Running then Cleanup(m')
      else RunSpec(audioFile, m', ticks[1..])
  }

  /** How the loop ends: the status of the first tick that stops it, or
      Running when the ticks run out first. */
  function RunStatus(ticks: seq<Tick>): (r: Status)
    ensures r != Running ==> exists i :: 0 <= i < |ticks| && TickStatus(ticks[i]) == r && RunsUpTo(ticks, i)
    ensures r == Running ==> RunsUpTo(ticks, |ticks|)
  {
    if ticks == [] then Running
    else if TickStatus(ticks[0]) != Running then
      assert RunsUpTo(ticks, 0);
      TickStatus(ticks[0])
    else
      var r := RunStatus(ticks[1..]);
      assert forall i :: 0 <= i <= |ticks[1..]| && RunsUpTo(ticks[1..], i) ==> RunsUpTo(ticks, i + 1);
      r
  }

  /** None of the first `n` ticks stops the loop. */
  ghost predicate RunsUpTo(ticks: seq<Tick>, n: int)
    requires 0 <= n <= |ticks|
  {
    forall j :: 0 <= j < n ==> TickStatus(ticks[j]) == Running
  }

  // ---------------------------------------------------------------------
  // One iteration

  /** An alert fires iff a target is in view and more than the interval
      has passed; the timestamp moves exactly when an alert fires, and
      then to the current time. */
  lemma FrameStep(audioFile: Option<string>, m: Machine, dets: seq<Detection>, now: real, playbackOk: bool, key: int)
    ensures var m' := StepSpec(audioFile, m, FrameRead(dets, now, playbackOk, key));
      && (|m'.alerts| == |m.alerts| + 1 <==> HasTarget(dets) && now - m.lastAlertTime > AlertInterval)
      && (|m'.alerts| != |m.alerts| + 1 ==> m'.alerts == m.alerts)
      && (m'.lastAlertTime != m.lastAlertTime <==> |m'.alerts| == |m.alerts| + 1)
      && (m'.lastAlertTime != m.lastAlertTime ==> m'.lastAlertTime == now && m'.alerts[|m.alerts|].time == now)
      && m'.cap == m.cap && m'.events == m.events + [Read(m.cap.id, true)]
  {
  }

  /** The buzzer's fate (played, raised, no file) does not touch the gate:
      the timestamp, the camera and the alert times are the same. */
  lemma PlaybackDoesNotAffectGate(a1: Option<string>, a2: Option<string>, m: Machine,
                                  dets: seq<Detection>, now: real, p1: bool, p2: bool, key: int)
    ensures var m1, m2 := StepSpec(a1, m, FrameRead(dets, now, p1, key)), StepSpec(a2, m, FrameRead(dets, now, p2, key));
      && m1.lastAlertTime == m2.lastAlertTime && m1.cap == m2.cap && m1.events == m2.events
      && AlertTimes(m1.alerts) == AlertTimes(m2.alerts)
  {
    var m1, m2 := StepSpec(a1, m, FrameRead(dets, now, p1, key)), StepSpec(a2, m, FrameRead(dets, now, p2, key));
    if ShouldFire(dets, now, m.lastAlertTime) {
      AlertTimesAppend(m.alerts, Alert(now, Dispatch(a1, p1)));
      AlertTimesAppend(m.alerts, Alert(now, Dispatch(a2, p2)));
    }
  }

  /** The times of the alerts, in order. */
  function AlertTimes(alerts: seq<Alert>): seq<real>
  {
    seq(|alerts|, i requires 0 <= i < |alerts| => alerts[i].time)
  }

  lemma AlertTimesAppend(alerts: seq<Alert>, a: Alert)
    ensures AlertTimes(alerts + [a]) == AlertTimes(alerts) + [a.time]
  {
  }

  /** A failed read releases the handle and reopens DirectShow index 0
      under a fresh id, raises no alert and leaves the timestamp alone;
      the loop stops iff the new handle did not open. */
  lemma ReadFailedStep(audioFile: Option<string>, m: Machine, reopened: bool)
    ensures var m' := StepSpec(audioFile, m, ReadFailed(reopened));
      && m'.events == m.events + [Read(m.cap.id, false), Release(m.cap.id), Open(m.nextId, Candidate(DShow, 0), reopened)]
      && m'.cap == Handle(m.nextId, Candidate(DShow, 0), reopened) && m'.nextId == m.nextId + 1
      && m'.alerts == m.alerts && m'.lastAlertTime == m.lastAlertTime
      && (TickStatus(ReadFailed(reopened)) == ReconnectFailed <==> !reopened)
  {
  }

  // ---------------------------------------------------------------------
  // Whole runs

  /** The alerts raised so far are more than the interval apart, and none
      is later than the timestamp. */
  ghost predicate Spaced(m: Machine)
  {
    && (forall i, j :: 0 <= i < j < |m.alerts| ==> m.alerts[j].time - m.alerts[i].time > AlertInterval)
    && (forall i :: 0 <= i < |m.alerts| ==> m.alerts[i].time <= m.lastAlertTime)
  }

  lemma StepSpaced(audioFile: Option<string>, m: Machine, t: Tick)
    requires Spaced(m)
    ensures Spaced(StepSpec(audioFile, m, t))
    ensures StepSpec(audioFile, m, t).lastAlertTime >= m.lastAlertTime
  {
  }

  /** Over any run, whatever the clock does, the timestamp never decreases
      and every two alerts are more than the interval apart. */
  lemma {:induction false} RunSpaced(audioFile: Option<string>, m: Machine, ticks: seq<Tick>)
    requires Spaced(m)
    ensures Spaced(RunSpec(audioFile, m, ticks))
    ensures RunSpec(audioFile, m, ticks).lastAlertTime >= m.lastAlertTime
    decreases |ticks|
  {
    if ticks != [] {
      StepSpaced(audioFile, m, ticks[0]);
      if TickStatus(ticks[0]) == Running {
        RunSpaced(audioFile, StepSpec(audioFile, m, ticks[0]), ticks[1..]);
      }
    }
  }

  /** Alerts are only ever appended, and the timestamp is the time of the
      latest alert of the run, or unchanged when the run raised none. */
  lemma {:induction false} TimestampIsLatestAlert(audioFile: Option<string>, m: Machine, ticks: seq<Tick>)
    ensures var r := RunSpec(audioFile, m, ticks);
      && |m.alerts| <= |r.alerts| && r.alerts[..|m.alerts|] == m.alerts
      && r.lastAlertTime == if |r.alerts| == |m.alerts| then m.lastAlertTime else r.alerts[|r.alerts| - 1].time
    decreases |ticks|
  {
    if ticks != [] {
      var m' := StepSpec(audioFile, m, ticks[0]);
      assert m'.alerts[..|m.alerts|] == m.alerts;
      if TickStatus(ticks[0]) == Running {
        TimestampIsLatestAlert(audioFile, m', ticks[1..]);
        var r := RunSpec(audioFile, m', ticks[1..]);
        assert r.alerts[..|m.alerts|] == r.alerts[..|m'.alerts|][..|m.alerts|];
      }
    }
  }

  /** Both ways out of the loop release the camera handle last. */
  lemma {:induction false} CleanupOnEveryExit(audioFile: Option<string>, m: Machine, ticks: seq<Tick>)
    ensures var r := RunSpec(audioFile, m, ticks);
      RunStatus(ticks) != Running ==> r.events != [] && r.events[|r.events| - 1] == Release(r.cap.id)
    decreases |ticks|
  {
    if ticks != [] && TickStatus(ticks[0]) == Running {
      CleanupOnEveryExit(audioFile, StepSpec(audioFile, m, ticks[0]), ticks[1..]);
    }
  }

  /** The ticks the loop consumes: up to and including the one that stops it. */
  function Consumed(ticks: seq<Tick>): (r: seq<Tick>)
    ensures |r| <= |ticks| && r == ticks[..|r|]
  {
    if ticks == [] then []
    else if TickStatus(ticks[0]) != Running then [ticks[0]]
    else [ticks[0]] + Consumed(ticks[1..])
  }

  function FailedReads(ticks: seq<Tick>): nat
  {
    if ticks == [] then 0 else (if ticks[0].ReadFailed? then 1 else 0) + FailedReads(ticks[1..])
  }

  /** Every failed read the loop consumes opens exactly one new handle, and
      nothing else does: there is no limit on the number of reconnects. */
  lemma {:induction false} ReconnectOnEveryFailedRead(audioFile: Option<string>, m: Machine, ticks: seq<Tick>)
    ensures var r := RunSpec(audioFile, m, ticks);
      && r.nextId == m.nextId + FailedReads(Consumed(ticks))
      && |OpenedSources(r.events)| == |OpenedSources(m.events)| + FailedReads(Consumed(ticks))
    decreases |ticks|
  {
    if ticks != [] {
      var m' := StepSpec(audioFile, m, ticks[0]);
      match ticks[0] {
        case ReadFailed(reopened) =>
          var calls := [Read(m.cap.id, false), Release(m.cap.id), Open(m.nextId, ReconnectCandidate, reopened)];
          OpenedSourcesAppend(m.events, calls);
          assert OpenedSources(calls) == OpenedSources(calls[1..]) == OpenedSources(calls[2..]) == [ReconnectCandidate];
        case FrameRead(_, _, _, _) =>
          OpenedSourcesAppend(m.events, [Read(m.cap.id, true)]);
      }
      if TickStatus(ticks[0]) == Running {
        ReconnectOnEveryFailedRead(audioFile, m', ticks[1..]);
        assert Consumed(ticks) == [ticks[0]] + Consumed(ticks[1..]);
      } else {
        OpenedSourcesAppend(m'.events, [Release(m'.cap.id)]);
        assert OpenedSources([Release(m'.cap.id)]) == [];
        assert Consumed(ticks) == [ticks[0]];
        assert [ticks[0]][1..] == [];
      }
    }
  }

  /** The state at the start of the loop after a successful camera search. */
  function StartMachine(dev: Device): Machine
    requires Selection(dev).Some?
  {
    var k := Selection(dev).value;
    Machine(Handle(k, Plan[k], true), Attempts(dev), SelectionTrace(dev), 0.0, [])
  }

  /** How the program ends. */
  datatype Exit = NoCamera | Stopped(status: Status)

  /** The script's state: the buzzer file, the camera, the cooldown
      timestamp and the alerts raised. */
  class AlertSystem {
    const audioFile: Option<string>
    const camera: Camera
    var lastAlertTime: real
    var alerts: seq<Alert>

    /** The start of the script: the buzzer file is looked up first. */
    constructor (env: Env)
      ensures audioFile == FindAudioFile(env) && fresh(camera)
      ensures camera.cap == None && camera.nextId == 0 && camera.events == []
      ensures lastAlertTime == 0.0 && alerts == []
    {
      audioFile := FindAudioFile(env);
      camera := new Camera();
      lastAlertTime, alerts := 0.0, [];
    }

    function State(): Machine
      reads this, camera
      requires camera.cap.Some?
    {
      Machine(camera.cap.value, camera.nextId, camera.events, lastAlertTime, alerts)
    }

    /** One iteration of the `while True` loop. */
    method Step(t: Tick) returns (status: Status)
      requires camera.cap.Some?
      modifies this, camera
      ensures camera.cap.Some?
      ensures State() == StepSpec(audioFile, old(State()), t)
      ensures status == TickStatus(t)
    {
      match t
      case ReadFailed(reopened) =>
        camera.ReadFrame(false);
        camera.ReleaseHandle();
        camera.OpenHandle(ReconnectCandidate, reopened);
        status := if reopened then Running else ReconnectFailed;
      case FrameRead(dets, now, playbackOk, key) =>
        camera.ReadFrame(true);
        var detected := ScanDetections(dets);
        if detected && now - lastAlertTime > AlertInterval {
          var outcome := Dispatch(audioFile, playbackOk);
          alerts := alerts + [Alert(now, outcome)];
          lastAlertTime := now;
        }
        status := if IsQuitKey(key) then Quit else Running;
    }

    /** The loop, then the clean-up if the loop stopped. */
    method Run(ticks: seq<Tick>) returns (status: Status)
      requires camera.cap.Some?
      modifies this, camera
      ensures camera.cap.Some?
      ensures State() == RunSpec(audioFile, old(State()), ticks)
      ensures status == RunStatus(ticks)
    {
      status := Running;
      var i := 0;
      while i < |ticks|
        invariant 0 <= i <= |ticks| && camera.cap.Some?
        invariant RunSpec(audioFile, State(), ticks[i..]) == RunSpec(audioFile, old(State()), ticks)
        invariant RunStatus(ticks[i..]) == RunStatus(ticks)
        invariant status == Running
      {
        assert ticks[i..][1..] == ticks[i + 1..];
        status := Step(ticks[i]);
        if status != Running {
          camera.ReleaseHandle();
          return;
        }
        i := i + 1;
      }
    }
  }

  /** The whole script: audio search, camera search (exit if no camera),
      the loop and its clean-up. */
  method Launch(env: Env, dev: Device, ticks: seq<Tick>) returns (sys: AlertSystem, exit: Exit)
    ensures sys.audioFile == FindAudioFile(env)
    ensures exit == NoCamera <==> Selection(dev).None?
    ensures exit == NoCamera ==> sys.camera.events == SelectionTrace(dev) && sys.alerts == []
    ensures exit.Stopped? ==> Selection(dev).Some? && sys.camera.cap.Some?
    ensures exit.Stopped? ==> exit.status == RunStatus(ticks)
    ensures exit.Stopped? ==> sys.State() == RunSpec(sys.audioFile, StartMachine(dev), ticks)
  {
    sys := new AlertSystem(env);
    var ok := sys.camera.SelectCamera(dev);
    if !ok {
      return sys, NoCamera;
    }
    sys.lastAlertTime := 0.0;
    assert sys.camera.events == SelectionTrace(dev);
    assert sys.State() == StartMachine(dev);
    var status := sys.Run(ticks);
    exit := Stopped(status);
  }

  /** No alert storm: from the start of the loop, every two alerts of a
      run are more than the interval apart, so a window of that length
      holds at most one alert. */
  lemma NoAlertStorm(audioFile: Option<string>, dev: Device, ticks: seq<Tick>, i: int, j: int, w: real)
    requires Selection(dev).Some?
    requires 0 <= i < j < |RunSpec(audioFile, StartMachine(dev), ticks).alerts|
    ensures var alerts := RunSpec(audioFile, StartMachine(dev), ticks).alerts;
      && alerts[j].time - alerts[i].time > AlertInterval
      && !(w <= alerts[i].time && alerts[j].time <= w + AlertInterval)
  {
    RunSpaced(audioFile, StartMachine(dev), ticks);
  }
}
