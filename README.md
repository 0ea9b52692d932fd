# UserMedia camera page, modelled in Dafny

The script `js/UserMedia.js` drives a webcam demo page. It enumerates the
cameras, opens a 1280×720 stream on one of them, shows it in a preview, grabs
a frame into a canvas on a click, saves that frame as `myPhoto.jpg` on a
second click, rotates through the cameras with a "switch" button, and
re-enumerates when a camera is plugged in or out. Under the browser calls,
the script is a small state machine held in four module-scoped variables
(`mediaStream`, `webcamList`, `currentCam`, `photoReady`) plus the page state
its handlers write: the switch button's `disabled` flag, the hint and tooltip
texts, whether `savePhoto` is a click listener of the canvas, whether
`deviceChanged` is a `devicechange` listener, the canvas size and the error
region.

The model has four modules:

- `Messages`: the error texts, `indexOf` as a function, the line
  `writeError` appends, and the choice `getUserMediaError` makes between
  "Webcam not found." and the generic message.
- `Devices`: an enumerated device (`kind`, `deviceId`), the `videoinput`
  filter of `devicesCallback`, and the circular cursor of `nextWebCam`.
- `Session`: the page as a value (`State`) with one transition function per
  handler, the invariant `Inv` that every reachable state keeps, the events
  the browser delivers (`Event`, `Step`), and lemmas about them.
- `UserMedia`: the controller class. Its fields are the script's variables
  and the page state. Its methods update them in place, as the handlers do,
  and each is proved to make exactly the transition `Session` gives it.

Asynchronous host results are events the environment delivers. They are
`Devices` (an enumeration resolved), `StreamGranted` and `StreamRefused` (a
`getUserMedia` call resolved or rejected). The state counts the enumerations
and stream requests still unanswered, and a result is only delivered while
one of its kind is outstanding. Clicks and device changes reach a handler
only while it is registered and, for the switch, while the button is enabled.

Behaviour kept as the code has it:

- `devicesCallback` appends to `webcamList`; only `init` and `deviceChanged`
  start from an empty list. Because the list is empty whenever an
  enumeration is pending (part of `Inv`), the list after an enumeration is
  exactly its video inputs (`Session.DevicesReplaceList`).
- After a hot-plug `currentCam` is not reset. The re-run `nextWebCam`
  advances the old cursor by one, wrapping to 0 past the end of the new list,
  so with the same two cameras and the first in use the second one is
  requested (`Session.HotPlugAdvancesOldCursor`).
- Only the first video track of the old stream is stopped. Stops and
  requests go into one log of host effects, so their order is kept: within
  one `nextWebCam` the stop comes before the new request
  (`Session.SwitchReleasesThenRequests`).
- That order is not kept across a run. An enumeration that finds two
  cameras enables the switch while its request is still outstanding, and a
  click then issues a second request with no stream to stop
  (`Session.SwitchBeforeStreamArrives`, `Session.SwitchWithoutStream`). A granted stream replaces a live
  one without stopping it (`Session.GrantedStreamSwitch`).
- A refused stream leaves the switch as it was, so a failed switch leaves it
  disabled.
- An enumeration with no camera reports "Webcam not found." and leaves the
  switch as it was.
- A request for an index outside the list asks for `deviceId: { exact:
  undefined }`. `Devices.DeviceAt` returns `None` there.

## Model

| member | source | states |
|---|---|---|
| `Messages.IndexOf` | js/UserMedia.js:41 | `indexOf` is non-negative exactly when the name contains the text, and then gives the first place it occurs |
| `Messages.IndexOfFrom` | js/UserMedia.js:41 | the search from position `k` returns -1 only when there is no occurrence at or after `k`, else the first one |
| `Messages.ErrorLineInjective` | js/UserMedia.js:11-16 | different messages give different error lines: the message can be read back from the line |
| `Messages.ErrorMessage` | js/UserMedia.js:40-47 | the message is either "Webcam not found." or one that shows the error name right after the generic prefix |
| `Messages.ErrorMessageClassifies` | js/UserMedia.js:40-47 | the message is "Webcam not found." if and only if the error name contains `NotFoundError` |
| `Messages.GenericMessageEmbedsName` | js/UserMedia.js:45 | any other name appears verbatim between the generic prefix and suffix |
| `Devices.VideoIdsAppend` | js/UserMedia.js:156-160 | filtering a concatenation is the concatenation of the filtered parts, which the entry-by-entry loop relies on |
| `Devices.VideoIdsMembership` | js/UserMedia.js:156-160 | an id is kept if and only if some entry of kind `videoinput` carries it |
| `Devices.VideoIdsLength` | js/UserMedia.js:156-162 | at most one id per entry; the list is empty if and only if no entry is a video input |
| `Devices.VideoIdsAt` | js/UserMedia.js:157-158 | the id of the video input at entry `i` lands at slot `Rank(ds, i)`, the number of ids kept from the entries before `i` |
| `Devices.VideoIdsOrder` | js/UserMedia.js:156-160 | of two video inputs the earlier one's id comes first: enumeration order is preserved |
| `Devices.NextCursor` | js/UserMedia.js:107-123 | the new cursor is 0 or inside the list |
| `Devices.NextCursorInRange` | js/UserMedia.js:107-123 | with a non-empty list the cursor is in `[0, length)`, and it is 0 after the first call from `null` |
| `Devices.RotateForward` | js/UserMedia.js:108-111 | advances that stay inside the list move the cursor up by one each |
| `Devices.RotateCompose` | js/UserMedia.js:105-123 | `a` advances then `b` advances are `a + b` advances |
| `Devices.FullCircle` | js/UserMedia.js:105-123 | with N cameras, N advances bring the cursor back to where it started (in particular from 0 back to 0) |
| `Session.InitEstablishesInv` | js/UserMedia.js:184-200 | the invariant holds; `init` enumerates once if it can (no request, no error); else, with `getUserMedia`, it makes no enumeration, sets the tooltip to the no-enumeration text and requests a plain video stream; else it makes neither and logs the unsupported-browser error |
| `Session.Step` | js/UserMedia.js:78-175 | these events change nothing: a click on the video with no stream (lines 78-80), a click on the canvas while `savePhoto` is not its listener (84, 97), a click on the disabled switch (106), a device change while `deviceChanged` is not registered (139, 175) |
| `Session.StepPreservesInv` | js/UserMedia.js:4-176 | every event keeps the invariant: save listener armed iff a photo is ready, preview bound iff a stream is live, at most one enumeration pending, the devicechange listener registered only when none is, the list empty while one is |
| `Session.NextWebCamKeepsInv` | js/UserMedia.js:105-132 | `nextWebCam` keeps the invariant |
| `Session.DevicesCallbackKeepsInv` | js/UserMedia.js:154-176 | `devicesCallback` keeps the invariant |
| `Session.RunKeepsInvAndLogs` | js/UserMedia.js:11-16 | along any run the invariant holds, and the error log, downloads and the log of stops and requests only grow at the end |
| `Session.StepOnlyAppends` | js/UserMedia.js:11-16 | no single event removes or rewrites an error line, a download, a stop or a request |
| `Session.NextWebCamFields` | js/UserMedia.js:105-132 | `nextWebCam` changes only the cursor, the switch, the preview, the stream and the effects, where it appends the stop of the old track (if a camera was in use) and then the request |
| `Session.DevicesReplaceList` | js/UserMedia.js:138-160 | after an enumeration the list is exactly the enumerated video-input ids in order, and the devicechange listener is registered |
| `Session.DevicesFoundStartsCamera` | js/UserMedia.js:162-171 | with cameras found, the old stream's first track is stopped if a camera was in use, then exactly one request is made, for the camera under the new cursor; the switch is disabled iff there is at most one camera |
| `Session.DevicesNoneFound` | js/UserMedia.js:172-174 | with no video input, "Webcam not found." is logged, no request is made, the switch is untouched |
| `Session.SwitchReleasesThenRequests` | js/UserMedia.js:105-131 | a switch from a camera in use disables the button and clears the stream; the effects gain exactly the stop of the old stream's first track followed by one request for `webcamList[currentCam]` at 1280×720 |
| `Session.SwitchBeforeStreamArrives` | js/UserMedia.js:162-167 | after an enumeration that finds two cameras from no cursor and no stream, the switch is enabled while its request is outstanding and no stream is live |
| `Session.SwitchWithoutStream` | js/UserMedia.js:105-131 | a switch with no live stream logs exactly one effect, the request for the camera under the new cursor, with no stop before it |
| `Session.DisabledSwitchIgnored` | js/UserMedia.js:106 | a click on the disabled switch changes nothing |
| `Session.GrantedStreamSwitch` | js/UserMedia.js:22-35 | a granted stream is bound to the preview, replaces any live stream without stopping it, and re-enables the switch only when there is more than one camera |
| `Session.RefusedStreamReports` | js/UserMedia.js:40-47 | a refused stream appends exactly the chosen message and leaves the switch and the stream alone |
| `Session.CaptureWithoutStream` | js/UserMedia.js:78-80 | with no stream, capture changes nothing |
| `Session.CaptureWithStream` | js/UserMedia.js:82-97 | the canvas takes the video's size, a photo is ready, the hint is set, the save listener is armed |
| `Session.SaveWithoutPhoto` | js/UserMedia.js:53-54 | with no photo ready, save changes nothing |
| `Session.SaveDownloadsOnce` | js/UserMedia.js:53-71 | a save downloads exactly one `myPhoto.jpg`, disarms the listener, clears the hint and resets the flag |
| `Session.SecondSaveIsNoOp` | js/UserMedia.js:53-71 | of two consecutive saves the second downloads nothing and changes nothing |
| `Session.NonCaptureStep` | js/UserMedia.js:53-71 | any event but a capture leaves the photo flag and the downloads alone, except a save with a photo ready, which downloads `myPhoto.jpg` once and clears the flag |
| `Session.SavesWithoutCapture` | js/UserMedia.js:53-97 | along any run with no capture, at most one photo is downloaded, and none when no photo was ready at the start |
| `Session.DeviceChangeOnce` | js/UserMedia.js:138-145 | a device change unregisters the listener, empties the list and leaves exactly one enumeration pending; a second change before it resolves does nothing |
| `Session.HotPlugAdvancesOldCursor` | js/UserMedia.js:107-111 | after a device change and the enumeration that follows, with cursor `c` in use, the old stream's first track is stopped if one is live, the cursor is `c + 1`, or 0 when that is past the new list, and then exactly one request is made, for the camera there |
| `Session.RequestNamesListedCamera` | js/UserMedia.js:125-131 | the last effect of `nextWebCam` is a request for 1280×720 that names a device exactly when the list is not empty, and then one from the list |
| `UserMedia.CameraController.Init` | js/UserMedia.js:184-200 | the constructed state is `Session.Init(page, host)` and satisfies the invariant |
| `UserMedia.CameraController.WriteError` | js/UserMedia.js:11-16 | the new state is `Session.WriteError(old, msg)`: one more line, `ERROR: ` and the message |
| `UserMedia.CameraController.InitializeVideoStream` | js/UserMedia.js:22-35 | the new state is `Session.InitializeVideoStream(old, stream)` and keeps the invariant |
| `UserMedia.CameraController.GetUserMediaError` | js/UserMedia.js:40-47 | the new state is `Session.GetUserMediaError(old, name)` and keeps the invariant |
| `UserMedia.CameraController.SavePhoto` | js/UserMedia.js:53-71 | the new state is `Session.SavePhoto(old)` and keeps the invariant |
| `UserMedia.CameraController.Capture` | js/UserMedia.js:76-99 | the new state is `Session.Capture(old, w, h)` and keeps the invariant |
| `UserMedia.CameraController.NextWebCam` | js/UserMedia.js:105-132 | the new state is `Session.NextWebCam(old)` |
| `UserMedia.CameraController.ReleaseCamera` | js/UserMedia.js:112-119 | the new state is `Session.ReleaseCamera(old)`: the preview is unbound and the stop of a live stream's first video track is logged |
| `UserMedia.CameraController.IssueRequest` | js/UserMedia.js:125-131 | the new state is `Session.IssueRequest(old, r)`: one more request logged after the earlier effects, counted as outstanding |
| `UserMedia.CameraController.DeviceChanged` | js/UserMedia.js:138-145 | the new state is `Session.DeviceChanged(old)` and keeps the invariant |
| `UserMedia.CameraController.DevicesCallback` | js/UserMedia.js:154-176 | the new state is `Session.DevicesCallback(old, devices)` and keeps the invariant |
| `UserMedia.CameraController.CollectVideoInputs` | js/UserMedia.js:156-160 | the loop appends exactly the video-input ids, in order, and changes nothing else |
| `UserMedia.CameraController.StartOrReport` | js/UserMedia.js:162-174 | the new state is `Session.StartOrReport(old)`: it starts the next camera and sets the switch, or logs "Webcam not found." |

## Left out

- Looking up DOM elements and rendering. The choice between `srcObject` and `createObjectURL` (js/UserMedia.js:26-31) is one boolean, "preview bound".
- Drawing pixels (`drawImage`) and JPEG encoding (`toDataURL`, `msToBlob`). These are host numerics. A save is one download event carrying the file name, and the `msSaveBlob` and anchor-click paths are that same event.
- Promise scheduling, timing, and which of several outstanding requests a result answers. Results are events that need an outstanding call of their kind.
- Resolving the vendor-prefixed `getUserMedia` (js/UserMedia.js:185). `init` branches on two capability booleans.
- Registering the click listeners for capture and switch (js/UserMedia.js:186-187). These listeners are always present, so `Session.Step` dispatches the clicks directly.
- The markup's initial state (switch `disabled`, canvas size, hint and tooltip text). It is a parameter of `init`.
- The video's pixel size. It is a parameter of the capture click.
- Exceptions the script would raise. A granted stream is taken to carry a video track, since `videoTracks[0].stop()` needs one. In the legacy and unsupported branches `navigator.mediaDevices.getUserMedia` may be missing. An enabled switch (possible only through the markup's initial state) then throws at js/UserMedia.js:125, after the button is disabled, the cursor moved and the old stream released, and no request is made. The model issues the request and counts it as outstanding instead.
- `UserMedia.CameraController.NextWebCam`: it requires only that a live stream has a video track and does not promise the invariant. `Session.NextWebCamKeepsInv` states that part.
