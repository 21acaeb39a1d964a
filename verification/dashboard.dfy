/** The health dashboard's body scan and camera panel. The body scan runs
    a 500 ms ticker that adds 10 to the progress and, once the progress is
    full, stops the scan and empties the bar. The camera panel turns the
    camera on and off, switches between the back and the front camera, and
    captures an image every 30 minutes while the camera is on.

    Camera handlers run in a React closure: they see the state of the
    render that created them, and their state updates take effect after
    they return. Each handler below therefore receives that render's state
    and returns the state after its updates, together with the toasts it
    showed. Whether `getUserMedia` grants a stream is a parameter. */
module Dashboard {
  import opened Wrappers

  /** The body-scan state. */
  datatype Scan = Scan(scanning: bool, progress: int)

  const InitialScan: Scan := Scan(false, 0)
  const ScanTickMs: nat := 500

  /** `startBodyScan`. */
  function StartBodyScan(s: Scan): (r: Scan)
    ensures r.scanning && r.progress == 0
  {
    Scan(true, 0)
  }

  /** One firing of the scan ticker, which exists only while scanning: below
      100 the progress grows by 10; at 100 the scan stops and the bar empties. */
  function ScanTick(s: Scan): (r: Scan)
    ensures !s.scanning ==> r == s
    ensures s.scanning && s.progress < 100 ==> r == Scan(true, s.progress + 10)
    ensures s.scanning && s.progress >= 100 ==> r == Scan(false, 0)
  {
    if !s.scanning then s
    else if s.progress >= 100 then Scan(false, 0)
    else Scan(true, s.progress + 10)
  }

  /** A multiple of 10 within [0, 100], and an empty bar when not scanning. */
  predicate ScanValid(s: Scan)
  {
    0 <= s.progress <= 100 && s.progress % 10 == 0 && (!s.scanning ==> s.progress == 0)
  }

  /** Starting and ticking keep the scan valid. */
  lemma ScanStepsKeepValid(s: Scan, start: bool)
    requires ScanValid(s)
    ensures ScanValid(if start then StartBodyScan(s) else ScanTick(s))
  {
  }

  function ScanTicks(s: Scan, n: nat): Scan
    decreases n
  {
    if n == 0 then s else ScanTicks(ScanTick(s), n - 1)
  }

  /** A scan started from an empty bar shows 10, 20, ..., 100 on its first
      ten ticks, stops and empties on the eleventh, and stays stopped. */
  lemma {:induction false} ScanRun(n: nat)
    ensures ScanTicks(Scan(true, 0), n) == if n <= 10 then Scan(true, 10 * n) else Scan(false, 0)
  {
    var k := 0;
    while k < n
      invariant 0 <= k <= n
      invariant ScanTicks(Scan(true, 0), n) ==
        ScanTicks(if k <= 10 then Scan(true, 10 * k) else Scan(false, 0), n - k)
    {
      k := k + 1;
    }
  }

  /** The value of `currentCamera`. */
  datatype Facing = Environment | User
  {
    function Name(): string
    {
      match this
      case Environment => "environment"
      case User => "user"
    }
  }

  /** `currentCamera === 'environment' ? 'user' : 'environment'`. */
  function OtherFacing(f: Facing): (r: Facing)
    ensures r != f
    ensures r.Name() == (if f.Name() == "environment" then "user" else "environment")
  {
    if f == Environment then User else Environment
  }

  /** Switching the facing twice comes back to the start. */
  lemma OtherFacingInvolution(f: Facing)
    ensures OtherFacing(OtherFacing(f)) == f
  {
  }

  /** "Back" for the environment camera, "Front" otherwise. */
  function CameraLabel(f: Facing): (text: string)
    ensures text == "Back" <==> f.Name() == "environment"
    ensures text == "Front" <==> f.Name() != "environment"
  {
    if f == Environment then "Back" else "Front"
  }

  /** The camera panel: whether the camera is on, the selected facing, and
      the facing of the stream whose tracks are still live, if any. */
  datatype Camera = Camera(active: bool, facing: Facing, live: Option<Facing>)

  datatype Toast = Toast(title: string, description: string)

  datatype CameraOutcome = CameraOutcome(camera: Camera, toasts: seq<Toast>)

  const InitialCamera: Camera := Camera(false, Environment, None)

  const DeactivatedToast: Toast := Toast("Camera deactivated", "Camera has been turned off.")
  const AccessErrorToast: Toast :=
    Toast("Camera access error", "Unable to access the camera. Please check your permissions.")

  function ActivatedToast(f: Facing): Toast
  {
    Toast("Camera activated", CameraLabel(f) + " camera is now active.")
  }

  /** The camera is on exactly when a stream is live, and that stream has
      the selected facing. */
  predicate Consistent(c: Camera)
  {
    && (c.active <==> c.live.Some?)
    && (c.live.Some? ==> c.live.value == c.facing)
  }

  /** `stopCamera`: stops the live tracks and turns the camera off. */
  function StopCamera(c: Camera): (o: CameraOutcome)
    ensures !o.camera.active && o.camera.live.None? && o.camera.facing == c.facing
    ensures o.toasts == [DeactivatedToast]
  {
    CameraOutcome(Camera(false, c.facing, None), [DeactivatedToast])
  }

  /** The not-active branch of `toggleCamera`: requests a stream with the
      given facing and turns the camera on if one is granted. */
  function StartCamera(c: Camera, facing: Facing, granted: bool): (o: CameraOutcome)
    ensures granted ==> o.camera == Camera(true, facing, Some(facing)) && o.toasts == [ActivatedToast(facing)]
    ensures !granted ==> o.camera == c && o.toasts == [AccessErrorToast]
  {
    if granted then CameraOutcome(Camera(true, facing, Some(facing)), [ActivatedToast(facing)])
    else CameraOutcome(c, [AccessErrorToast])
  }

  /** `toggleCamera` run from the closure of a render with state `c`. */
  function ToggleCamera(c: Camera, granted: bool): (o: CameraOutcome)
    ensures c.active ==> !o.camera.active
    ensures !c.active ==> (o.camera.active <==> granted)
    ensures Consistent(c) ==> Consistent(o.camera)
  {
    if c.active then StopCamera(c) else StartCamera(c, c.facing, granted)
  }

  /** `switchCamera` as written. Its `toggleCamera()` call runs in the same
      closure as the switch, so it still sees the camera on and stops it a
      second time instead of opening the new camera. */
  function SwitchCameraAsWritten(c: Camera, granted: bool): (o: CameraOutcome)
    ensures o.camera.facing == OtherFacing(c.facing)
    ensures !c.active ==> o == CameraOutcome(c.(facing := OtherFacing(c.facing)), [])
    ensures Consistent(c) ==> Consistent(o.camera)
  {
    var newFacing := OtherFacing(c.facing);
    if c.active then
      var stopped := StopCamera(c);
      var toggled := ToggleCamera(c, granted);
      CameraOutcome(toggled.camera.(facing := newFacing), stopped.toasts + toggled.toasts)
    else CameraOutcome(c.(facing := newFacing), [])
  }

  /** Switching an active camera as written always leaves it off, with two
      "Camera deactivated" toasts, even when the new camera is available. */
  lemma SwitchAsWrittenTurnsCameraOff(c: Camera, granted: bool)
    requires c.active
    ensures var o := SwitchCameraAsWritten(c, granted);
      !o.camera.active && o.camera.live.None? && o.toasts == [DeactivatedToast, DeactivatedToast]
  {
  }

  /** The concrete case: the back camera is on and the front camera would
      be granted, yet after the switch no camera is on. */
  lemma SwitchAsWrittenExample()
    ensures var o := SwitchCameraAsWritten(Camera(true, Environment, Some(Environment)), true);
      o.camera == Camera(false, User, None)
  {
    SwitchAsWrittenTurnsCameraOff(Camera(true, Environment, Some(Environment)), true);
  }

  /** `switchCamera` as intended: select the other facing and, if the camera
      is on, stop it and open a stream with the new facing. */
  function SwitchCamera(c: Camera, granted: bool): (o: CameraOutcome)
    ensures o.camera.facing == OtherFacing(c.facing)
    ensures !c.active ==> o == CameraOutcome(c.(facing := OtherFacing(c.facing)), [])
    ensures Consistent(c) ==> Consistent(o.camera)
  {
    var newFacing := OtherFacing(c.facing);
    if c.active then
      var stopped := StopCamera(c);
      var started := StartCamera(stopped.camera.(facing := newFacing), newFacing, granted);
      CameraOutcome(started.camera, stopped.toasts + started.toasts)
    else CameraOutcome(c.(facing := newFacing), [])
  }

  /** Switching an active camera keeps it on with the other facing whenever
      that camera is granted, and turns it off otherwise. */
  lemma SwitchKeepsCameraOn(c: Camera, granted: bool)
    requires c.active
    ensures var o := SwitchCamera(c, granted);
      && (o.camera.active <==> granted)
      && (granted ==> o.camera.live == Some(OtherFacing(c.facing)))
      && o.toasts[0] == DeactivatedToast
  {
  }

  /** Switch Camera is enabled only while the camera is on. */
  predicate SwitchEnabled(c: Camera)
  {
    c.active
  }

  /** The panel's two buttons. `granted` says whether a `getUserMedia` call
      the handler makes would be granted. `stopCamera` has no button of its
      own: it runs inside `toggleCamera` and `switchCamera`. */
  datatype CameraEvent = Toggle(granted: bool) | Switch(granted: bool)

  /** One click on the page as written. A click on the disabled switch does
      nothing, and an enabled switch always leaves the camera off. */
  function CameraStep(c: Camera, e: CameraEvent): (r: Camera)
    ensures e.Toggle? ==> (r.active <==> !c.active && e.granted)
    ensures e.Switch? && !SwitchEnabled(c) ==> r == c
    ensures e.Switch? ==> !r.active
    ensures Consistent(c) ==> Consistent(r)
  {
    match e
    case Toggle(granted) => ToggleCamera(c, granted).camera
    case Switch(granted) => if SwitchEnabled(c) then SwitchCameraAsWritten(c, granted).camera else c
  }

  function CameraRun(c: Camera, events: seq<CameraEvent>): Camera
    decreases |events|
  {
    if |events| == 0 then c else CameraRun(CameraStep(c, events[0]), events[1..])
  }

  /** On the page as written, the camera is on exactly when a stream with
      the selected facing is live, whatever the user clicks. */
  lemma {:induction false} CameraStaysConsistent(c: Camera, events: seq<CameraEvent>)
    requires Consistent(c)
    ensures Consistent(CameraRun(c, events))
    decreases |events|
  {
    if |events| > 0 {
      CameraStaysConsistent(CameraStep(c, events[0]), events[1..]);
    }
  }

  /** One click on the page with the intended switch: an enabled switch
      keeps the camera on, with the other facing, whenever that camera is
      granted. */
  function IntendedCameraStep(c: Camera, e: CameraEvent): (r: Camera)
    ensures e.Toggle? ==> r == CameraStep(c, e)
    ensures e.Switch? && !SwitchEnabled(c) ==> r == c
    ensures e.Switch? && SwitchEnabled(c) ==>
              (r.active <==> e.granted) && r.facing == OtherFacing(c.facing)
    ensures Consistent(c) ==> Consistent(r)
  {
    match e
    case Toggle(granted) => ToggleCamera(c, granted).camera
    case Switch(granted) =>
      if SwitchEnabled(c) then
        SwitchKeepsCameraOn(c, granted);
        SwitchCamera(c, granted).camera
      else c
  }

  function IntendedCameraRun(c: Camera, events: seq<CameraEvent>): Camera
    decreases |events|
  {
    if |events| == 0 then c else IntendedCameraRun(IntendedCameraStep(c, events[0]), events[1..])
  }

  /** The intended page keeps the camera consistent as well. */
  lemma {:induction false} IntendedStaysConsistent(c: Camera, events: seq<CameraEvent>)
    requires Consistent(c)
    ensures Consistent(IntendedCameraRun(c, events))
    decreases |events|
  {
    if |events| > 0 {
      IntendedStaysConsistent(IntendedCameraStep(c, events[0]), events[1..]);
    }
  }

  /** The automatic capture interval: 30 minutes. */
  const AutoCaptureMs: nat := 30 * 60 * 1000

  /** A stretch of time during which the camera stays on or stays off. */
  datatype Period = Period(active: bool, durationMs: nat)

  /** The automatic captures over consecutive periods: each period with the
      camera on starts a fresh interval, and a period with it off captures
      nothing. Every active period is read as one activation, so the periods
      are meant to alternate between on and off. Two adjacent active periods
      stand for a stop and a restart with no time between, and count fewer
      captures than one continuous period of the same length. */
  function Captures(periods: seq<Period>): (n: nat)
    ensures (forall k :: 0 <= k < |periods| ==> !periods[k].active) ==> n == 0
  {
    if |periods| == 0 then 0
    else (if periods[0].active then periods[0].durationMs / AutoCaptureMs else 0) + Captures(periods[1..])
  }

  /** The time the camera is on over the periods. */
  function ActiveMs(periods: seq<Period>): nat
  {
    if |periods| == 0 then 0
    else (if periods[0].active then periods[0].durationMs else 0) + ActiveMs(periods[1..])
  }

  /** Because every activation restarts the interval, the captures never
      exceed one per 30 minutes of camera time. */
  lemma {:induction false} CapturesBoundedByActiveTime(periods: seq<Period>)
    ensures Captures(periods) * AutoCaptureMs <= ActiveMs(periods)
  {
    if |periods| > 0 {
      CapturesBoundedByActiveTime(periods[1..]);
      if periods[0].active {
        var d := periods[0].durationMs;
        assert (d / AutoCaptureMs) * AutoCaptureMs <= d;
      }
    }
  }
}
