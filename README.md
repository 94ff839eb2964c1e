# Lucy's distance alarm, modelled in Dafny

Lucy is an iOS app that remembers a "home" location and raises an alarm
when the phone is carried away from it. The torch lights up, an alert
appears and a notification is sent. All of its logic sits in the view
model and in the location manager's delegate callbacks of
`Lucy/ContentView.swift`. This project models that logic and proves what
it does.

The state is the view model's fields plus the delegate's capture flag:

| Swift | Dafny |
|---|---|
| `ViewModel.ShowAlert` | `showAlert` |
| `ViewModel.FlashLightIntensity` (`Float`) | `flashLightIntensity: real` |
| `ViewModel.HomeCoordinates` (`CLLocation?`) | `homeCoordinates: Option<Location>` |
| `ViewModel.TargetDistance` (`CLLocationDistance`) | `targetDistance: real` |
| `ViewModel.TargetRegion` (`CLRegion?`) | `targetRegion: Option<Region>` |
| `LocationManager.requestingLocation` | `requestingLocation` |

Each call into CoreLocation, UserNotifications or AVFoundation is kept
as an `Effect` value. The value is appended to the view model's call
log `calls`, so the order of calls is part of the state.

The project has four files:

- `platform.dfy` (module `Platform`) holds the platform values: readings,
  regions, notification contents and effects. It also holds the torch
  decision of `setTorch` and `TorchState`, the torch mode that a log of
  calls leaves behind.
- `alarm.dfy` (module `Alarm`) gives each operation as a pure function
  from the state before to the state after plus the calls made. It also
  has `Step` and `Run`, which apply one event or a sequence of events.
- `alarm_properties.dfy` (module `AlarmProperties`) proves what the
  operations promise, each operation on its own and over any sequence of
  events.
- `lucy.dfy` (module `Lucy`) has the classes `ViewModel` and
  `LocationManager`. Their fields change in place, and each method is
  proved to do exactly what the matching `Alarm` function says. It also
  has the two button actions and a client, `Lifecycle`.

The environment enters as parameters. The distance between two readings
(`CLLocation.distance(from:)`) is any non-negative function (`DistanceFn`).
The result of `AVCaptureDevice.default(for: .video)` is a `TorchDevice`:
no camera, or a camera that may have no torch and whose configuration
lock may fail.

What the source does, and what is proved about it:

- `setHomeLocation` asks for authorization and starts updates. In the
  model it also puts the location manager into the capture phase. In the
  source the flag is set on a new manager that nothing keeps (see
  "## Left out").
- In the capture phase, the first reading of a non-empty batch becomes
  home. The old region, if any, stops being monitored. A region centred
  on the new home with radius `TargetDistance / 2` starts being
  monitored, a "home location reset" notification is sent, and updates
  stop. An empty batch does nothing.
- Outside the capture phase, once a home exists, every non-empty batch
  raises the alert and sets the torch to full. This holds whatever the
  distance. The far-away notification is added, before the torch call,
  only when the first reading is at least `TargetDistance` from home.
- Leaving the region starts updates and entering it stops them. Each
  also sends a notification, and neither changes any state.
- The Alarm button toggles the torch between off and full. Disengage
  always lowers the alert and switches the torch off.
- Over any sequence of events, these invariants hold:
  - a home and its region are installed together, the region centred on
    the home;
  - once set, the home is never cleared;
  - location batches that come before the first capture are ignored;
  - with a usable torch, the torch mode that the calls leave behind
    always matches `FlashLightIntensity`.

The model follows the code where it departs from the app's intended
design:

- There is no edge-triggered arming; nothing fires "once per excursion"
  (`NearReadingStillRaisesAlarm`, `ReturnToHomeStillRaisesAlarm`).
- There is no acknowledge operation that fails when the alarm is not
  raised; Disengage always clears it (`DisengageClears`).
- Nothing stops updates from being started twice
  (`RepeatedExitsStartUpdatesTwice`).
- Capture starts monitoring the new region before it stops continuous
  updates, so the two modes briefly overlap (`CaptureCallOrder`).
- A target distance of 0 installs a region of radius 0; the radius is
  only known to be non-negative (`Consistent`, `CaptureInstallsHome`).
- A raised alert can coexist with the capture phase: `setHomeLocation`
  leaves `ShowAlert` as it is (`SetHomeLocationEntersCapture`).

## Model

| member | source | states |
|---|---|---|
| `Platform.TorchCalls` | Lucy/ContentView.swift:165-183 | setTorch makes at most one call, and only when a camera with a torch exists and can be locked; every call it makes is a torch call |
| `Platform.SetTorchLeavesRequested` | Lucy/ContentView.swift:173-178 | after setTorch the torch is off for intensity 0 and on at the given level otherwise; when the torch cannot be configured, it stays as it was |
| `Lucy.ViewModel.constructor` | Lucy/ContentView.swift:158-162 | a new view model has no alert, intensity 0, no home, no region, a target distance of 100 and an empty call log |
| `Lucy.ViewModel.SetTorch` | Lucy/ContentView.swift:165-183 | appends exactly the torch decision's calls to the log and changes nothing else |
| `Lucy.ViewModel.SendNotification` | Lucy/ContentView.swift:191-202 | appends one notification call with the given title, subtitle and body |
| `Lucy.ViewModel.SetHomeLocation` | Lucy/ContentView.swift:185-189 | the manager's state becomes that of `Alarm.SetHomeLocation` and the log grows by its calls: authorization request, then start updating |
| `Lucy.ViewModel.SetTargetDistance` | Lucy/ContentView.swift:113-114 | the slider sets the target distance within 0 to 500; the invariant is kept |
| `Lucy.PressAlarm` | Lucy/ContentView.swift:28-36 | the view model and the log change exactly as `Alarm.PressAlarm` says; the invariant is kept |
| `Lucy.Disengage` | Lucy/ContentView.swift:73-77 | the view model and the log change exactly as `Alarm.Disengage` says; the invariant is kept |
| `Lucy.LocationManager.constructor` | Lucy/ContentView.swift:214-222 | a new manager is attached to its parent, is not capturing, and asks for authorization once |
| `Lucy.LocationManager.DidUpdateLocations` | Lucy/ContentView.swift:233-260 | the flag, the parent's fields and the log change exactly as `Alarm.DidUpdateLocations` says; the invariant is kept |
| `Lucy.LocationManager.DidExitRegion` | Lucy/ContentView.swift:262-267 | state unchanged; the log grows by exactly the calls of `Alarm.DidExitRegion` |
| `Lucy.LocationManager.DidEnterRegion` | Lucy/ContentView.swift:269-273 | state unchanged; the log grows by exactly the calls of `Alarm.DidEnterRegion` |
| `AlarmProperties.SetHomeLocationEntersCapture` | Lucy/ContentView.swift:185-189 | sets the capture flag, leaves home, region and alarm fields alone, calls authorization then start updating, and is idempotent |
| `AlarmProperties.CaptureIgnoresEmptyBatch` | Lucy/ContentView.swift:235-238 | during capture, an empty batch changes nothing, makes no call and keeps the flag set |
| `AlarmProperties.CaptureInstallsHome` | Lucy/ContentView.swift:236-245 | during capture, the batch's first reading becomes home, the region is centred on it with radius TargetDistance / 2, the flag clears, and the alarm fields and target distance stay |
| `AlarmProperties.CaptureCallOrder` | Lucy/ContentView.swift:239-249 | capture calls are: stop monitoring the old region (only if there was one), start monitoring the new one, the home-reset notification, stop updating; no torch call |
| `AlarmProperties.RegionInsideThreshold` | Lucy/ContentView.swift:244-252 | at capture, the new region's radius is strictly below the alarm threshold whenever the threshold is positive (a later slider change can undo this) |
| `AlarmProperties.StrayBatchIsSilent` | Lucy/ContentView.swift:250-251 | outside capture, an empty batch or a batch before any home changes nothing and makes no call |
| `AlarmProperties.BatchRaisesAlarm` | Lucy/ContentView.swift:251-258 | outside capture with a home, a non-empty batch sets alert and full intensity and nothing else; the far-away notification is sent iff distance >= TargetDistance, and comes first; the torch call comes last |
| `AlarmProperties.NearReadingStillRaisesAlarm` | Lucy/ContentView.swift:252-257 | a reading nearer than TargetDistance still raises the alert and lights the torch, with no notification at all |
| `AlarmProperties.ZeroTargetDistanceIsAlwaysFar` | Lucy/ContentView.swift:252-253 | with target distance 0, every monitored batch starts with the far-away notification |
| `AlarmProperties.RegionEventsOnlySwitchUpdates` | Lucy/ContentView.swift:262-273 | exit calls start updating and then notifies, enter calls stop updating and then notifies; neither changes the flag, home, region or alert |
| `AlarmProperties.PressAlarmToggles` | Lucy/ContentView.swift:29-36 | intensity 0 becomes 1 with the alert raised and torch(1); any other intensity becomes 0 with torch(0) and the alert untouched; home, region and distance stay |
| `AlarmProperties.PressAlarmTwice` | Lucy/ContentView.swift:29-36 | two presses from an unlit torch end unlit with the alert still raised |
| `AlarmProperties.DisengageClears` | Lucy/ContentView.swift:73-77 | from any state: alert lowered, intensity 0, torch(0), nothing else changed; a second Disengage changes nothing more |
| `AlarmProperties.StepKeepsConsistent` | Lucy/ContentView.swift:239-245 | every single event keeps the invariant (home and region set together, region centred on home, intensity within the torch slider's range 0 to 1, distance within the distance slider's range 0 to 500) |
| `AlarmProperties.RunKeepsConsistent` | Lucy/ContentView.swift:233-260 | every sequence of events keeps that invariant |
| `AlarmProperties.RunKeepsHome` | Lucy/ContentView.swift:242 | once a home is set, no sequence of events clears it |
| `AlarmProperties.StrayBatchesAreSilent` | Lucy/ContentView.swift:251 | before the first capture, any stream of location batches changes nothing and makes no call |
| `AlarmProperties.StepKeepsTorchInStep` | Lucy/ContentView.swift:255-257 | with a usable torch, every event keeps the torch mode left by the log equal to the mode FlashLightIntensity asks for |
| `AlarmProperties.RunKeepsTorchInStep` | Lucy/ContentView.swift:165-183 | with a usable torch, any sequence of events keeps the torch that the calls leave behind in agreement with FlashLightIntensity |
| `AlarmProperties.CaptureThenBatch` | Lucy/ContentView.swift:235-245 | a home request followed by a non-empty batch makes the first reading home, with the region centred on it, and leaves the capture phase |
| `AlarmProperties.ReturnToHomeStillRaisesAlarm` | Lucy/ContentView.swift:251-257 | capturing home at a reading and then receiving it again, at distance 0, sends no far-away notification but still raises the alert |
| `AlarmProperties.RepeatedExitsStartUpdatesTwice` | Lucy/ContentView.swift:262-263 | two region exits in a row call start updating twice |

## Left out

- The SwiftUI views, the map and the settings sheet are interface only. The exceptions are the Alarm button, the Disengage action and the target-distance slider's binding. The torch-intensity slider (lines 107-109), the "Set Current Location as Home" button (lines 115-118) and the `onAppear` block (lines 61-71) are not modelled.
- `Alarm.Consistent` bounds `FlashLightIntensity` by the torch-intensity slider's range 0 to 1, not by the values 0 and 1 that the modelled operations write. The slider itself is not modelled, but the invariant admits every intensity it can produce.
- Lucy/LucyApp.swift is not part of this model. It only creates the window and presents notifications as banners.
- Authorization is not modelled: `getAuthorization`, `locationManagerDidChangeAuthorization` and the async requests to the notification center. The authorization requests that `setHomeLocation` and the manager's initializer make are recorded as calls.
- `didFailWithError` (lines 275-278) is not modelled. It only forwards the error as a notification.
- `ViewModel.LManager` builds a new `LocationManager` on every access. In the source, `setHomeLocation`'s three statements therefore act on three different, short-lived managers. The model has one manager instance whose flag `setHomeLocation` sets. The wiring and `CLLocationManager` lifetimes are not modelled.
- Notification delivery is not modelled: the fixed request identifier, the one-second trigger, and a later request replacing an earlier one with the same identifier. So is the text that string interpolation produces from a number or a region. Notifications are recorded as their title, subtitle and interpolated value.
- CoreLocation keeps regions by identifier, and every region here has the identifier `""`. The replacement this causes inside CoreLocation is not modelled. Only the calls are recorded.
- `CLLocation.distance(from:)` is not computed. It is any non-negative function, passed in.
- `Float` and `Double` are modelled as exact reals. Halving the target distance and comparing with it are exact in the model.
- `setTorchModeOn(level:)` can throw for a level outside what the hardware accepts. That is not modelled, and neither is the `.on` mode set just before that call. A usable torch takes one `TorchOn(level)` call. The source never unlocks the device after configuring it, and that is not modelled either.
- `print` output is left out.
