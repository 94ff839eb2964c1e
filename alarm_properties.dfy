// What the alarm state machine promises, stated over the functions of
// module Alarm: per operation, and over any sequence of events.

module AlarmProperties {
  import opened Platform
  import opened Alarm

  // ---- setHomeLocation ----

  /** Requesting a home enters the capture phase and starts location updates;
      no field of the view model changes, and asking twice is asking once. */
  lemma SetHomeLocationEntersCapture(m: AlarmState)
    ensures SetHomeLocation(m).next.requestingLocation
    ensures SetHomeLocation(m).next.view == m.view
    ensures SetHomeLocation(m).calls == [RequestAlwaysAuthorization, StartUpdatingLocation]
    ensures SetHomeLocation(SetHomeLocation(m).next).next == SetHomeLocation(m).next
  {
  }

  // ---- didUpdateLocations, capture phase ----

  /** An empty batch during capture changes nothing and calls nothing. */
  lemma CaptureIgnoresEmptyBatch(m: AlarmState, env: Env)
    requires m.requestingLocation
    ensures DidUpdateLocations(m, [], env) == Transition(m, [])
  {
  }

  /** A non-empty batch during capture makes its first reading home, centres
      the new region on it with half the target distance as radius, and ends
      the capture phase; the alarm fields and the target distance stay. */
  lemma CaptureInstallsHome(m: AlarmState, locations: seq<Location>, env: Env)
    requires m.requestingLocation && locations != []
    ensures var v := DidUpdateLocations(m, locations, env).next;
      && !v.requestingLocation
      && v.view.homeCoordinates == Some(locations[0])
      && v.view.targetRegion == Some(Region(locations[0].coordinate, m.view.targetDistance / 2.0, ""))
      && v.view.showAlert == m.view.showAlert
      && v.view.flashLightIntensity == m.view.flashLightIntensity
      && v.view.targetDistance == m.view.targetDistance
  {
  }

  /** The calls of a capture, in order: stop monitoring the old region if
      there was one, start monitoring the new one, notify that home was
      reset, stop location updates. The torch is not touched. */
  lemma CaptureCallOrder(m: AlarmState, locations: seq<Location>, env: Env)
    requires m.requestingLocation && locations != []
    ensures var t := DidUpdateLocations(m, locations, env);
      var region := t.next.view.targetRegion.value;
      var stopOld := if m.view.targetRegion.Some? then [StopMonitoring(m.view.targetRegion.value)] else [];
      t.calls == stopOld + [StartMonitoring(region),
                            Notify(CAPTURE_TITLE, CAPTURE_SUBTITLE, TargetDistanceLine(m.view.targetDistance)),
                            StopUpdatingLocation]
    ensures forall e <- DidUpdateLocations(m, locations, env).calls :: !e.IsTorch()
  {
  }

  /** At capture, the monitored region is strictly smaller than the alarm
      threshold: leaving it does not by itself mean being far away. The
      slider may later lower the threshold below the installed radius. */
  lemma RegionInsideThreshold(m: AlarmState, locations: seq<Location>, env: Env)
    requires m.requestingLocation && locations != [] && 0.0 < m.view.targetDistance
    ensures DidUpdateLocations(m, locations, env).next.view.targetRegion.value.radius < m.view.targetDistance
  {
  }

  // ---- didUpdateLocations, monitoring phase ----

  /** Outside capture, a batch that is empty or arrives before any home
      changes nothing and calls nothing. */
  lemma StrayBatchIsSilent(m: AlarmState, locations: seq<Location>, env: Env)
    requires !m.requestingLocation
    requires locations == [] || m.view.homeCoordinates.None?
    ensures DidUpdateLocations(m, locations, env) == Transition(m, [])
  {
  }

  /** Outside capture and with a home, every non-empty batch raises the alert
      and sets the torch to full. The far-away notification is sent, before
      the torch call, exactly when the first reading is at least the target
      distance from home. Nothing else changes. */
  lemma BatchRaisesAlarm(m: AlarmState, locations: seq<Location>, env: Env)
    requires !m.requestingLocation && locations != [] && m.view.homeCoordinates.Some?
    ensures var t := DidUpdateLocations(m, locations, env);
      var far := env.distance(locations[0], m.view.homeCoordinates.value) >= m.view.targetDistance;
      && t.next == m.(view := m.view.(showAlert := true, flashLightIntensity := 1.0))
      && (Notify(FAR_AWAY_TITLE, "", Text(FAR_AWAY_BODY)) in t.calls <==> far)
      && (far ==> t.calls[0] == Notify(FAR_AWAY_TITLE, "", Text(FAR_AWAY_BODY)))
      && |t.calls| == (if far then 1 else 0) + |TorchCalls(env.device, 1.0)|
      && t.calls[|t.calls| - |TorchCalls(env.device, 1.0)|..] == TorchCalls(env.device, 1.0)
  {
  }

  /** The alarm is not edge-triggered on distance: a reading closer to home
      than the target distance still raises the alert and lights the torch,
      only without the far-away notification. */
  lemma NearReadingStillRaisesAlarm(m: AlarmState, locations: seq<Location>, env: Env)
    requires !m.requestingLocation && locations != [] && m.view.homeCoordinates.Some?
    requires env.distance(locations[0], m.view.homeCoordinates.value) < m.view.targetDistance
    ensures DidUpdateLocations(m, locations, env).next.view.showAlert
    ensures DidUpdateLocations(m, locations, env).next.view.flashLightIntensity == 1.0
    ensures forall e <- DidUpdateLocations(m, locations, env).calls :: !e.Notify?
  {
  }

  /** With a target distance of zero every reading counts as far away,
      because distances are never negative. */
  lemma ZeroTargetDistanceIsAlwaysFar(m: AlarmState, locations: seq<Location>, env: Env)
    requires !m.requestingLocation && locations != [] && m.view.homeCoordinates.Some?
    requires m.view.targetDistance == 0.0
    ensures DidUpdateLocations(m, locations, env).calls[0] == Notify(FAR_AWAY_TITLE, "", Text(FAR_AWAY_BODY))
  {
  }

  // ---- region events ----

  /** Leaving the region starts location updates, entering it stops them;
      each then sends one notification. Neither changes any state, so in
      particular neither clears a raised alert nor touches the capture flag. */
  lemma RegionEventsOnlySwitchUpdates(m: AlarmState, region: Region)
    ensures DidExitRegion(m, region).next == m
    ensures DidExitRegion(m, region).calls == [StartUpdatingLocation, Notify(EXIT_TITLE, "", RegionLine(region))]
    ensures DidEnterRegion(m, region).next == m
    ensures DidEnterRegion(m, region).calls == [StopUpdatingLocation, Notify("", ENTER_SUBTITLE, RegionLine(region))]
  {
  }

  // ---- Alarm button and Disengage ----

  /** The Alarm button switches an unlit torch to full and raises the alert;
      a lit one it switches off and leaves the alert as it was. Home, region
      and target distance stay. */
  lemma PressAlarmToggles(v: ViewState, device: TorchDevice)
    ensures var t := PressAlarm(v, device);
      && t.next.homeCoordinates == v.homeCoordinates
      && t.next.targetRegion == v.targetRegion
      && t.next.targetDistance == v.targetDistance
      && (v.flashLightIntensity == 0.0 ==>
            t.next.flashLightIntensity == 1.0 && t.next.showAlert && t.calls == TorchCalls(device, 1.0))
      && (v.flashLightIntensity != 0.0 ==>
            t.next.flashLightIntensity == 0.0 && t.next.showAlert == v.showAlert && t.calls == TorchCalls(device, 0.0))
  {
  }

  /** Pressing the Alarm button twice from an unlit torch ends unlit with the
      alert raised. */
  lemma PressAlarmTwice(v: ViewState, device: TorchDevice)
    requires v.flashLightIntensity == 0.0
    ensures var twice := PressAlarm(PressAlarm(v, device).next, device).next;
      twice == v.(showAlert := true)
  {
  }

  /** Disengage always lowers the alert and switches the torch off, from any
      state; doing it again changes nothing further. */
  lemma DisengageClears(v: ViewState, device: TorchDevice)
    ensures Disengage(v, device).next == v.(showAlert := false, flashLightIntensity := 0.0)
    ensures Disengage(v, device).calls == TorchCalls(device, 0.0)
    ensures Disengage(Disengage(v, device).next, device).next == Disengage(v, device).next
  {
  }

  // ---- invariants over any sequence of events ----

  lemma StepKeepsConsistent(m: AlarmState, e: Event, env: Env)
    requires Consistent(m.view)
    ensures Consistent(Step(m, e, env).next.view)
  {
  }

  /** Every event sequence keeps the state consistent: in particular a home
      and its region are always installed together, the region centred on
      the home. */
  lemma {:induction false} RunKeepsConsistent(m: AlarmState, events: seq<Event>, env: Env)
    requires Consistent(m.view)
    ensures Consistent(Run(m, events, env).next.view)
    decreases |events|
  {
    if events != [] {
      StepKeepsConsistent(m, events[0], env);
      RunKeepsConsistent(Step(m, events[0], env).next, events[1..], env);
    }
  }

  /** Once a home is set it is only ever replaced, never cleared. */
  lemma {:induction false} RunKeepsHome(m: AlarmState, events: seq<Event>, env: Env)
    requires m.view.homeCoordinates.Some?
    ensures Run(m, events, env).next.view.homeCoordinates.Some?
    decreases |events|
  {
    if events != [] {
      RunKeepsHome(Step(m, events[0], env).next, events[1..], env);
    }
  }

  /** Before the first capture, any stream of location batches is ignored:
      no state changes and no platform call is made. */
  lemma {:induction false} StrayBatchesAreSilent(m: AlarmState, events: seq<Event>, env: Env)
    requires !m.requestingLocation && m.view.homeCoordinates.None?
    requires forall e <- events :: e.LocationsUpdated?
    ensures Run(m, events, env) == Transition(m, [])
    decreases |events|
  {
    if events != [] {
      assert events[0] in events;
      StrayBatchIsSilent(m, events[0].locations, env);
      assert forall e <- events[1..] :: e in events;
      StrayBatchesAreSilent(m, events[1..], env);
    }
  }

  /** With a torch that can be configured, the torch mode the calls leave
      behind always matches the view model's intensity: the app's belief
      about the torch, read from its own field, is what the hardware was
      told. */
  lemma StepKeepsTorchInStep(log: seq<Effect>, m: AlarmState, e: Event, env: Env)
    requires env.device.Usable()
    requires TorchState(log) == Requested(m.view.flashLightIntensity)
    ensures TorchState(log + Step(m, e, env).calls) == Requested(Step(m, e, env).next.view.flashLightIntensity)
  {
    var t := Step(m, e, env);
    match e
    case LocationsUpdated(locations) =>
      if !m.requestingLocation && locations != [] && m.view.homeCoordinates.Some? {
        var farAway := t.calls[..|t.calls| - 1];
        assert t.calls == farAway + TorchCalls(env.device, 1.0);
        assert log + t.calls == (log + farAway) + TorchCalls(env.device, 1.0);
        SetTorchLeavesRequested(log + farAway, env.device, 1.0);
      } else {
        QuietCallsKeepTorch(log, t.calls);
      }
    case AlarmPressed =>
      SetTorchLeavesRequested(log, env.device, if m.view.flashLightIntensity == 0.0 then 1.0 else 0.0);
    case Disengaged =>
      SetTorchLeavesRequested(log, env.device, 0.0);
    case _ =>
      QuietCallsKeepTorch(log, t.calls);
  }

  lemma {:induction false} RunKeepsTorchInStep(log: seq<Effect>, m: AlarmState, events: seq<Event>, env: Env)
    requires env.device.Usable()
    requires TorchState(log) == Requested(m.view.flashLightIntensity)
    ensures TorchState(log + Run(m, events, env).calls) == Requested(Run(m, events, env).next.view.flashLightIntensity)
    decreases |events|
  {
    if events == [] {
      assert log + Run(m, events, env).calls == log;
    } else {
      var first := Step(m, events[0], env);
      var rest := Run(first.next, events[1..], env);
      StepKeepsTorchInStep(log, m, events[0], env);
      RunKeepsTorchInStep(log + first.calls, first.next, events[1..], env);
      ChainTorch(log, first.calls, rest.calls, rest.next.view.flashLightIntensity);
    }
  }

  /** Sequence bookkeeping for RunKeepsTorchInStep. */
  lemma ChainTorch(log: seq<Effect>, first: seq<Effect>, rest: seq<Effect>, intensity: real)
    requires TorchState((log + first) + rest) == Requested(intensity)
    ensures TorchState(log + (first + rest)) == Requested(intensity)
  {
    assert log + (first + rest) == (log + first) + rest;
  }

  // ---- scenarios ----

  /** Requesting a home and then receiving a batch makes the batch's first
      reading home and leaves the capture phase again. */
  lemma CaptureThenBatch(m: AlarmState, locations: seq<Location>, env: Env)
    requires locations != []
    ensures var after := Run(m, [HomeRequested, LocationsUpdated(locations)], env).next;
      && !after.requestingLocation
      && after.view.homeCoordinates == Some(locations[0])
      && after.view.targetRegion.Some?
      && after.view.targetRegion.value.center == locations[0].coordinate
  {
    var events := [HomeRequested, LocationsUpdated(locations)];
    var s1 := Step(m, events[0], env);
    var s2 := Step(s1.next, events[1], env);
    assert events[1..][1..] == [];
    assert Run(s1.next, events[1..], env).next == s2.next;
    assert Run(m, events, env).next == s2.next;
  }

  /** Capturing home at a reading and then receiving that same reading
      again, at distance zero, sends no far-away notification but still
      raises the alert. */
  lemma ReturnToHomeStillRaisesAlarm(m: AlarmState, p: Location, env: Env)
    requires env.distance(p, p) == 0.0 && 0.0 < m.view.targetDistance
    ensures var t := Run(m, [HomeRequested, LocationsUpdated([p]), LocationsUpdated([p])], env);
      && t.next.view.showAlert
      && Notify(FAR_AWAY_TITLE, "", Text(FAR_AWAY_BODY)) !in t.calls
  {
    var events := [HomeRequested, LocationsUpdated([p]), LocationsUpdated([p])];
    var s1 := Step(m, events[0], env);
    var s2 := Step(s1.next, events[1], env);
    var s3 := Step(s2.next, events[2], env);
    assert events[1..][1..][1..] == [];
    assert Run(s2.next, events[1..][1..], env) == Transition(s3.next, s3.calls + []);
    assert Run(s1.next, events[1..], env) == Transition(s3.next, s2.calls + (s3.calls + []));
    assert Run(m, events, env) == Transition(s3.next, s1.calls + (s2.calls + (s3.calls + [])));
    assert Notify(FAR_AWAY_TITLE, "", Text(FAR_AWAY_BODY)) !in s1.calls;
    assert Notify(FAR_AWAY_TITLE, "", Text(FAR_AWAY_BODY)) !in s2.calls;
    assert Notify(FAR_AWAY_TITLE, "", Text(FAR_AWAY_BODY)) !in s3.calls;
  }

  /** Two region exits in a row start location updates twice: nothing
      guards against a second start while updates already run. */
  lemma RepeatedExitsStartUpdatesTwice(m: AlarmState, region: Region, env: Env)
    ensures var calls := Run(m, [RegionExited(region), RegionExited(region)], env).calls;
      |calls| == 4 && calls[0] == StartUpdatingLocation && calls[2] == StartUpdatingLocation
  {
    var events := [RegionExited(region), RegionExited(region)];
    var s1 := Step(m, events[0], env);
    var s2 := Step(s1.next, events[1], env);
    assert events[1..][1..] == [];
    assert Run(s1.next, events[1..], env) == Transition(s2.next, s2.calls + []);
    assert Run(m, events, env) == Transition(s2.next, s1.calls + (s2.calls + []));
  }
}
