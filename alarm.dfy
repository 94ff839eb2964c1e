// The alarm state machine of Lucy as pure functions: each operation of the
// view model and each location-manager callback maps the state before the
// call to the state after it and to the platform calls it makes, in order.
// The classes in lucy.dfy are proved to behave exactly like these functions.

module Alarm {
  import opened Platform

  /** The fields of the view model the alarm reads and writes. */
  datatype ViewState = ViewState(
    showAlert: bool,
    flashLightIntensity: real,
    homeCoordinates: Option<Location>,
    targetDistance: real,
    targetRegion: Option<Region>)

  /** The location manager's capture flag together with its parent's fields. */
  datatype AlarmState = AlarmState(requestingLocation: bool, view: ViewState)

  /** The state after an operation and the platform calls it made, oldest first. */
  datatype Transition<S> = Transition(next: S, calls: seq<Effect>)

  /** The environment an operation cannot see into: the distance between
      two readings and the torch hardware. */
  datatype Env = Env(distance: DistanceFn, device: TorchDevice)

  /** A value the target-distance slider can produce. */
  type SliderDistance = d: real | 0.0 <= d <= 500.0 witness 100.0

  const DEFAULT_TARGET_DISTANCE: real := 100.0
  const CAPTURE_TITLE: string := "start monitoring location"
  const CAPTURE_SUBTITLE: string := "home location reset"
  const FAR_AWAY_TITLE: string := "Je bent ver weg, ben je okay?"
  const FAR_AWAY_BODY: string := "Lucy heeft gezien dat je te ver weg bent, is dat de bedoeling?"
  const EXIT_TITLE: string := "exitregion"
  const ENTER_SUBTITLE: string := "enterregion"

  /** A freshly created view model. */
  const INITIAL_VIEW: ViewState := ViewState(false, 0.0, None, DEFAULT_TARGET_DISTANCE, None)

  /** What every reachable state satisfies: the target distance and the
      torch intensity lie in the ranges their sliders allow, and a home and
      its region are installed together, the region centred on the home. */
  predicate Consistent(v: ViewState) {
    && 0.0 <= v.targetDistance <= 500.0
    && 0.0 <= v.flashLightIntensity <= 1.0
    && (v.homeCoordinates.Some? <==> v.targetRegion.Some?)
    && (v.targetRegion.Some? ==>
          v.targetRegion.value.center == v.homeCoordinates.value.coordinate
          && 0.0 <= v.targetRegion.value.radius)
  }

  /** The region monitored around a captured home: half the target distance. */
  function HomeRegion(home: Location, targetDistance: real): Region {
    Region(home.coordinate, targetDistance / 2.0, "")
  }

  /** ViewModel.setHomeLocation: ask for authorization, start location
      updates and enter the capture phase. */
  function SetHomeLocation(m: AlarmState): Transition<AlarmState> {
    Transition(m.(requestingLocation := true), [RequestAlwaysAuthorization, StartUpdatingLocation])
  }

  /** The capture branch of didUpdateLocations for the batch's first reading. */
  function CaptureHome(m: AlarmState, location: Location): Transition<AlarmState> {
    var v := m.view;
    var region := HomeRegion(location, v.targetDistance);
    var stopOld := if v.targetRegion.Some? then [StopMonitoring(v.targetRegion.value)] else [];
    Transition(
      AlarmState(false, v.(homeCoordinates := Some(location), targetRegion := Some(region))),
      stopOld + [StartMonitoring(region),
                 Notify(CAPTURE_TITLE, CAPTURE_SUBTITLE, TargetDistanceLine(v.targetDistance)),
                 StopUpdatingLocation])
  }

  /** The monitoring branch of didUpdateLocations for the batch's first
      reading, once a home exists. */
  function RaiseAlarm(m: AlarmState, location: Location, home: Location, env: Env): Transition<AlarmState> {
    var farAway :=
      if env.distance(location, home) >= m.view.targetDistance
      then [Notify(FAR_AWAY_TITLE, "", Text(FAR_AWAY_BODY))]
      else [];
    Transition(
      m.(view := m.view.(showAlert := true, flashLightIntensity := 1.0)),
      farAway + TorchCalls(env.device, 1.0))
  }

  /** LocationManager.locationManager(_:didUpdateLocations:). */
  function DidUpdateLocations(m: AlarmState, locations: seq<Location>, env: Env): Transition<AlarmState> {
    if m.requestingLocation then
      if locations == [] then Transition(m, []) else CaptureHome(m, locations[0])
    else if locations != [] && m.view.homeCoordinates.Some? then
      RaiseAlarm(m, locations[0], m.view.homeCoordinates.value, env)
    else
      Transition(m, [])
  }

  /** LocationManager.locationManager(_:didExitRegion:). */
  function DidExitRegion(m: AlarmState, region: Region): Transition<AlarmState> {
    Transition(m, [StartUpdatingLocation, Notify(EXIT_TITLE, "", RegionLine(region))])
  }

  /** LocationManager.locationManager(_:didEnterRegion:). */
  function DidEnterRegion(m: AlarmState, region: Region): Transition<AlarmState> {
    Transition(m, [StopUpdatingLocation, Notify("", ENTER_SUBTITLE, RegionLine(region))])
  }

  /** The action of the Alarm button: toggle the torch between off and full. */
  function PressAlarm(v: ViewState, device: TorchDevice): Transition<ViewState> {
    if v.flashLightIntensity == 0.0 then
      Transition(v.(flashLightIntensity := 1.0, showAlert := true), TorchCalls(device, 1.0))
    else
      Transition(v.(flashLightIntensity := 0.0), TorchCalls(device, 0.0))
  }

  /** The Disengage action of the alarm dialog. */
  function Disengage(v: ViewState, device: TorchDevice): Transition<ViewState> {
    Transition(v.(showAlert := false, flashLightIntensity := 0.0), TorchCalls(device, 0.0))
  }

  /** The target-distance slider's binding. */
  function SetTargetDistance(v: ViewState, d: SliderDistance): Transition<ViewState> {
    Transition(v.(targetDistance := d), [])
  }

  /** Everything that can happen to the machine, in arrival order. */
  datatype Event =
    | HomeRequested
    | LocationsUpdated(locations: seq<Location>)
    | RegionExited(region: Region)
    | RegionEntered(region: Region)
    | AlarmPressed
    | Disengaged
    | TargetDistanceSet(distance: SliderDistance)

  function Lift(m: AlarmState, t: Transition<ViewState>): Transition<AlarmState> {
    Transition(m.(view := t.next), t.calls)
  }

  function Step(m: AlarmState, e: Event, env: Env): Transition<AlarmState> {
    match e
    case HomeRequested => SetHomeLocation(m)
    case LocationsUpdated(locations) => DidUpdateLocations(m, locations, env)
    case RegionExited(region) => DidExitRegion(m, region)
    case RegionEntered(region) => DidEnterRegion(m, region)
    case AlarmPressed => Lift(m, PressAlarm(m.view, env.device))
    case Disengaged => Lift(m, Disengage(m.view, env.device))
    case TargetDistanceSet(d) => Lift(m, SetTargetDistance(m.view, d))
  }

  /** The events handled one after another; the calls of each follow those
      of the one before. */
  function Run(m: AlarmState, events: seq<Event>, env: Env): Transition<AlarmState>
    decreases |events|
  {
    if events == [] then Transition(m, [])
    else
      var first := Step(m, events[0], env);
      var rest := Run(first.next, events[1..], env);
      Transition(rest.next, first.calls + rest.calls)
  }
}
