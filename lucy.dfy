// The view model and its location-manager delegate as objects whose fields
// change in place. Every call into the platform is appended to the view
// model's call log, so that the order of calls can be stated. Each method
// is proved to do exactly what the matching function of module Alarm says.

module Lucy {
  import opened Platform
  import Alarm

  class ViewModel {
    var showAlert: bool
    var flashLightIntensity: real
    var homeCoordinates: Option<Location>
    var targetDistance: real
    var targetRegion: Option<Region>
    /** Every platform call made by this view model or by a location manager
        whose parent it is, oldest first. */
    var calls: seq<Effect>

    function View(): Alarm.ViewState
      reads this
    {
      Alarm.ViewState(showAlert, flashLightIntensity, homeCoordinates, targetDistance, targetRegion)
    }

    ghost predicate Valid()
      reads this
    {
      Alarm.Consistent(View())
    }

    constructor ()
      ensures Valid()
      ensures View() == Alarm.INITIAL_VIEW && calls == []
    {
      showAlert := false;
      flashLightIntensity := 0.0;
      homeCoordinates := None;
      targetDistance := Alarm.DEFAULT_TARGET_DISTANCE;
      targetRegion := None;
      calls := [];
    }

    /** Makes one platform call. */
    method Call(e: Effect)
      modifies this`calls
      ensures calls == old(calls) + [e]
    {
      calls := calls + [e];
    }

    /** ViewModel.setTorch: configure the torch if there is one and it can
        be locked; intensity 0 switches it off, any other on at that level. */
    method SetTorch(device: TorchDevice, intensity: real)
      modifies this`calls
      ensures calls == old(calls) + TorchCalls(device, intensity)
    {
      if device.NoCamera? {
        return;
      }
      if device.hasTorch {
        if device.lockSucceeds {
          if intensity == 0.0 {
            Call(TorchOff);
          } else {
            Call(TorchOn(intensity));
          }
        }
      }
    }

    /** ViewModel.sendNotification. */
    method SendNotification(title: string, subtitle: string, body: Body)
      modifies this`calls
      ensures calls == old(calls) + [Notify(title, subtitle, body)]
    {
      Call(Notify(title, subtitle, body));
    }

    /** ViewModel.setHomeLocation, acting on the location manager that
        receives the callbacks. */
    method SetHomeLocation(manager: LocationManager)
      requires manager.parent == this
      modifies this`calls, manager`requestingLocation
      ensures manager.State() == Alarm.SetHomeLocation(old(manager.State())).next
      ensures calls == old(calls) + Alarm.SetHomeLocation(old(manager.State())).calls
    {
      Call(RequestAlwaysAuthorization);
      Call(StartUpdatingLocation);
      manager.requestingLocation := true;
    }

    /** The target-distance slider of the settings sheet. */
    method SetTargetDistance(d: Alarm.SliderDistance)
      requires Valid()
      modifies this`targetDistance
      ensures Valid()
      ensures View() == Alarm.SetTargetDistance(old(View()), d).next
    {
      targetDistance := d;
    }
  }

  /** The action of the Alarm button. */
  method PressAlarm(model: ViewModel, device: TorchDevice)
    requires model.Valid()
    modifies model
    ensures model.Valid()
    ensures model.View() == Alarm.PressAlarm(old(model.View()), device).next
    ensures model.calls == old(model.calls) + Alarm.PressAlarm(old(model.View()), device).calls
  {
    if model.flashLightIntensity == 0.0 {
      model.flashLightIntensity := 1.0;
      model.SetTorch(device, 1.0);
      model.showAlert := true;
    } else {
      model.flashLightIntensity := 0.0;
      model.SetTorch(device, 0.0);
    }
  }

  /** The Disengage action of the alarm dialog. */
  method Disengage(model: ViewModel, device: TorchDevice)
    requires model.Valid()
    modifies model
    ensures model.Valid()
    ensures model.View() == Alarm.Disengage(old(model.View()), device).next
    ensures model.calls == old(model.calls) + Alarm.Disengage(old(model.View()), device).calls
  {
    model.showAlert := false;
    model.flashLightIntensity := 0.0;
    model.SetTorch(device, 0.0);
  }

  /** The location manager's delegate. Its own calls into CoreLocation are
      recorded in its parent's call log. */
  class LocationManager {
    var requestingLocation: bool
    const parent: ViewModel

    function State(): Alarm.AlarmState
      reads this, parent
    {
      Alarm.AlarmState(requestingLocation, parent.View())
    }

    ghost predicate Valid()
      reads this, parent
    {
      parent.Valid()
    }

    constructor (model: ViewModel)
      modifies model`calls
      ensures parent == model && !requestingLocation
      ensures model.calls == old(model.calls) + [RequestAlwaysAuthorization]
    {
      parent := model;
      requestingLocation := false;
      new;
      parent.Call(RequestAlwaysAuthorization);
    }

    /** locationManager(_:didUpdateLocations:). */
    method DidUpdateLocations(locations: seq<Location>, distance: DistanceFn, device: TorchDevice)
      requires Valid()
      modifies this`requestingLocation, parent
      ensures Valid()
      ensures State() == Alarm.DidUpdateLocations(old(State()), locations, Alarm.Env(distance, device)).next
      ensures parent.calls == old(parent.calls) + Alarm.DidUpdateLocations(old(State()), locations, Alarm.Env(distance, device)).calls
    {
      if requestingLocation {
        if locations == [] {
          return;
        }
        var location := locations[0];
        if parent.targetRegion.Some? {
          parent.Call(StopMonitoring(parent.targetRegion.value));
        }
        parent.homeCoordinates := Some(location);
        requestingLocation := false;
        var region := Alarm.HomeRegion(location, parent.targetDistance);
        parent.targetRegion := Some(region);
        parent.Call(StartMonitoring(region));
        parent.SendNotification(Alarm.CAPTURE_TITLE, Alarm.CAPTURE_SUBTITLE, TargetDistanceLine(parent.targetDistance));
        parent.Call(StopUpdatingLocation);
      } else if locations != [] && parent.homeCoordinates.Some? {
        var location, home := locations[0], parent.homeCoordinates.value;
        if distance(location, home) >= parent.targetDistance {
          parent.SendNotification(Alarm.FAR_AWAY_TITLE, "", Text(Alarm.FAR_AWAY_BODY));
        }
        parent.showAlert := true;
        parent.flashLightIntensity := 1.0;
        parent.SetTorch(device, 1.0);
      }
    }

    /** locationManager(_:didExitRegion:). */
    method DidExitRegion(region: Region)
      modifies parent`calls
      ensures State() == Alarm.DidExitRegion(old(State()), region).next
      ensures parent.calls == old(parent.calls) + Alarm.DidExitRegion(old(State()), region).calls
    {
      parent.Call(StartUpdatingLocation);
      parent.SendNotification(Alarm.EXIT_TITLE, "", RegionLine(region));
    }

    /** locationManager(_:didEnterRegion:). */
    method DidEnterRegion(region: Region)
      modifies parent`calls
      ensures State() == Alarm.DidEnterRegion(old(State()), region).next
      ensures parent.calls == old(parent.calls) + Alarm.DidEnterRegion(old(State()), region).calls
    {
      parent.Call(StopUpdatingLocation);
      parent.SendNotification("", Alarm.ENTER_SUBTITLE, RegionLine(region));
    }
  }

  /** A client: the app appears and requests a home, the first batch
      captures it, and a later batch from far away raises the alarm, which
      Disengage clears. Everything asserted follows from the contracts. */
  method Lifecycle(home: Location, away: Location, distance: DistanceFn, device: TorchDevice)
    requires distance(away, home) >= Alarm.DEFAULT_TARGET_DISTANCE
  {
    var model := new ViewModel();
    var manager := new LocationManager(model);
    model.SetHomeLocation(manager);
    assert manager.requestingLocation;
    manager.DidUpdateLocations([home], distance, device);
    assert !manager.requestingLocation && model.homeCoordinates == Some(home);
    assert model.targetRegion == Some(Region(home.coordinate, 50.0, ""));
    assert !model.showAlert;
    var before := |model.calls|;
    manager.DidUpdateLocations([away], distance, device);
    assert model.showAlert && model.flashLightIntensity == 1.0;
    assert model.calls[before] == Notify(Alarm.FAR_AWAY_TITLE, "", Text(Alarm.FAR_AWAY_BODY));
    Disengage(model, device);
    assert !model.showAlert && model.flashLightIntensity == 0.0;
    assert model.homeCoordinates == Some(home);
  }
}
