// The platform the alarm talks to, reduced to values: location readings,
// circular regions, and the calls the app makes into CoreLocation,
// UserNotifications and AVFoundation, recorded as data in the order made.

module Platform {

  datatype Option<T> = None | Some(value: T)

  /** A latitude/longitude pair (a CLLocationCoordinate2D). */
  datatype Coordinate = Coordinate(latitude: real, longitude: real)

  /** One location reading (a CLLocation). The alarm only looks at its
      coordinate and at its distance to another reading. */
  datatype Location = Location(coordinate: Coordinate, horizontalAccuracy: real, timestamp: real)

  /** CLLocation.distance(from:), left uninterpreted: any non-negative
      function of two readings. */
  type DistanceFn = f: (Location, Location) -> real
    | forall a, b :: 0.0 <= f(a, b)
    witness (a: Location, b: Location) => 0.0

  /** A CLCircularRegion. */
  datatype Region = Region(center: Coordinate, radius: real, identifier: string)

  /** The body of a notification. Two bodies are built by string
      interpolation; they are kept as the values interpolated. */
  datatype Body =
    | Text(text: string)
    | TargetDistanceLine(distance: real)  // "target distance: <distance>"
    | RegionLine(region: Region)          // the region's description

  /** One call into the platform. */
  datatype Effect =
    | RequestAlwaysAuthorization
    | StartUpdatingLocation
    | StopUpdatingLocation
    | StartMonitoring(region: Region)
    | StopMonitoring(region: Region)
    | Notify(title: string, subtitle: string, body: Body)
    | TorchOff
    | TorchOn(level: real)
  {
    predicate IsTorch() {
      TorchOff? || TorchOn?
    }
  }

  /** What AVCaptureDevice.default(for: .video) finds: no camera, or a
      camera that may lack a torch and whose configuration lock may fail. */
  datatype TorchDevice = NoCamera | Camera(hasTorch: bool, lockSucceeds: bool)
  {
    predicate Usable() {
      Camera? && hasTorch && lockSucceeds
    }
  }

  datatype TorchMode = Off | On(level: real)

  /** The torch mode an intensity asks for: 0 is off, anything else is on
      at that level. */
  function Requested(intensity: real): TorchMode {
    if intensity == 0.0 then Off else On(intensity)
  }

  /** The calls ViewModel.setTorch makes for `intensity`: nothing when the
      torch cannot be configured, otherwise one call that switches it off
      or on at that level. */
  function TorchCalls(device: TorchDevice, intensity: real): (r: seq<Effect>)
    ensures |r| <= 1
    ensures r != [] <==> device.Usable()
    ensures forall e <- r :: e.IsTorch()
  {
    if !device.Usable() then []
    else if intensity == 0.0 then [TorchOff]
    else [TorchOn(intensity)]
  }

  /** The torch mode the hardware is left in by the calls in `log`, the
      torch being off before the first call. */
  function TorchState(log: seq<Effect>): TorchMode {
    if log == [] then Off
    else match log[|log| - 1]
      case TorchOff => Off
      case TorchOn(level) => On(level)
      case _ => TorchState(log[..|log| - 1])
  }

  /** Calls that do not touch the torch leave it as it was. */
  lemma {:induction false} QuietCallsKeepTorch(log: seq<Effect>, more: seq<Effect>)
    requires forall e <- more :: !e.IsTorch()
    ensures TorchState(log + more) == TorchState(log)
  {
    if more != [] {
      var init, last := more[..|more| - 1], more[|more| - 1];
      assert more == init + [last];
      var whole := (log + init) + [last];
      assert log + more == whole;
      assert whole[..|whole| - 1] == log + init;
      assert !last.IsTorch();
      QuietCallsKeepTorch(log, init);
    } else {
      assert log + more == log;
    }
  }

  /** After setTorch the torch is in the mode the intensity asks for, or
      untouched when it could not be configured. */
  lemma SetTorchLeavesRequested(log: seq<Effect>, device: TorchDevice, intensity: real)
    ensures TorchState(log + TorchCalls(device, intensity))
         == if device.Usable() then Requested(intensity) else TorchState(log)
  {
    if !device.Usable() {
      assert log + TorchCalls(device, intensity) == log;
    }
  }
}
