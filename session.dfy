/**
 * The camera page of js/UserMedia.js as a state machine over values: the
 * module-scoped variables (`mediaStream`, `webcamList`, `currentCam`,
 * `photoReady`) together with the page state the handlers touch (the switch
 * button's `disabled`, the hint and tooltip texts, the two listeners, the
 * canvas size, the error region) and the effects on the host (tracks
 * stopped and streams requested, in the order made, enumerations pending,
 * files downloaded).
 * One function per handler; `Step` dispatches the events the host delivers.
 */
module Session {
  import opened Optional
  import opened Messages
  import opened Devices

  const Width := 1280
  const Height := 720
  const SaveHint := "Click or tap below to save as .jpg"
  const PhotoFileName := "myPhoto.jpg"
  const NoEnumerateTooltip := "Cannot switch web cams because navigator.mediaDevices.enumerateDevices is unsupported by your browser."

  type TrackId = nat

  /** A live capture stream, seen through the ids of its video tracks. */
  datatype Stream = Stream(videoTracks: seq<TrackId>)

  /**
   * The constraints of a `getUserMedia` call: an exact device at a given
   * resolution (`deviceId` is `None` when `webcamList[currentCam]` is
   * undefined), or the legacy `{ video: true }`.
   */
  datatype Request = Exact(deviceId: Option<string>, width: nat, height: nat) | AnyVideo

  /**
   * A call on the host that cannot be taken back: a video track stopped, or
   * a `getUserMedia` call issued. They share one log so that their order is kept.
   */
  datatype Effect = Stop(track: TrackId) | Ask(request: Request)

  /** What the page's markup sets before the script runs. */
  datatype Page = Page(switchDisabled: bool, canvasWidth: nat, canvasHeight: nat, hintText: string, tooltipText: string)

  /** The two capabilities `init` tests. */
  datatype Host = Host(hasEnumerateDevices: bool, hasGetUserMedia: bool)

  datatype State = State(
    webcamList: seq<string>,
    currentCam: Option<nat>,
    photoReady: bool,
    mediaStream: Option<Stream>,
    previewBound: bool,          // the video element shows `mediaStream`
    switchDisabled: bool,
    hintText: string,            // #photoViewText
    tooltipText: string,         // #tooltip
    saveArmed: bool,             // `savePhoto` is a click listener of the canvas
    deviceChangeArmed: bool,     // `deviceChanged` is a devicechange listener
    enumerationsPending: nat,    // `enumerateDevices()` calls not yet resolved
    requestsPending: nat,        // `getUserMedia` calls not yet resolved
    canvasWidth: nat,
    canvasHeight: nat,
    errorLog: seq<string>,       // lines of the #error region
    downloads: seq<string>,      // names of the files saved
    effects: seq<Effect>         // tracks stopped and streams requested, in order
  )

  /** The invariant every reachable state keeps. */
  ghost predicate Inv(s: State) {
    && s.saveArmed == s.photoReady
    && (s.photoReady ==> s.hintText == SaveHint)
    && s.previewBound == s.mediaStream.Some?
    && (s.mediaStream.Some? ==> |s.mediaStream.value.videoTracks| > 0)
    && s.enumerationsPending <= 1
    && (s.deviceChangeArmed ==> s.enumerationsPending == 0)
    && (s.enumerationsPending > 0 ==> s.webcamList == [])
  }

  /** `init`: the three-way branch on the host's capabilities. */
  function Init(page: Page, host: Host): State {
    var s := State([], None, false, None, false, page.switchDisabled, page.hintText, page.tooltipText,
                   false, false, 0, 0, page.canvasWidth, page.canvasHeight, [], [], []);
    if host.hasEnumerateDevices then s.(enumerationsPending := 1)
    else if host.hasGetUserMedia then s.(tooltipText := NoEnumerateTooltip, effects := [Ask(AnyVideo)], requestsPending := 1)
    else WriteError(s, UnsupportedMessage)
  }

  /** `writeError`: one more line in the error region. */
  function WriteError(s: State, msg: string): State {
    s.(errorLog := s.errorLog + [ErrorLine(msg)])
  }

  /** `initializeVideoStream`: the host granted a stream. */
  function InitializeVideoStream(s: State, stream: Stream): State
    requires s.requestsPending > 0
  {
    s.(mediaStream := Some(stream), previewBound := true, requestsPending := s.requestsPending - 1,
       switchDisabled := if |s.webcamList| > 1 then false else s.switchDisabled)
  }

  /** `getUserMediaError`: the host refused a stream with an error named `name`. */
  function GetUserMediaError(s: State, name: string): State
    requires s.requestsPending > 0
  {
    WriteError(s.(requestsPending := s.requestsPending - 1), ErrorMessage(name))
  }

  /** `savePhoto`: download the captured frame, if there is one. */
  function SavePhoto(s: State): State {
    if !s.photoReady then s
    else s.(downloads := s.downloads + [PhotoFileName], saveArmed := false, hintText := "", photoReady := false)
  }

  /** `capture`: grab a `videoWidth` by `videoHeight` frame into the canvas, if a stream is live. */
  function Capture(s: State, videoWidth: nat, videoHeight: nat): State {
    if s.mediaStream.None? then s
    else
      var s1 := s.(saveArmed := false);
      var s2 := if s1.canvasWidth != videoWidth || s1.canvasHeight != videoHeight
                then s1.(canvasWidth := videoWidth, canvasHeight := videoHeight) else s1;
      s2.(photoReady := true, hintText := SaveHint, saveArmed := true)
  }

  /** Whether `nextWebCam` can stop the live stream's first video track. */
  predicate CanStop(s: State) {
    s.currentCam.Some? && s.mediaStream.Some? ==> |s.mediaStream.value.videoTracks| > 0
  }

  /**
   * The first half of `nextWebCam` when a camera was in use: unbind the
   * preview and, if a stream is live, stop its first video track and forget it.
   */
  function ReleaseCamera(s: State): State
    requires s.mediaStream.Some? ==> |s.mediaStream.value.videoTracks| > 0
  {
    if s.mediaStream.None? then s.(previewBound := false)
    else s.(previewBound := false, mediaStream := None,
            effects := s.effects + [Stop(s.mediaStream.value.videoTracks[0])])
  }

  /** One more `getUserMedia` call issued with constraints `r`. */
  function IssueRequest(s: State, r: Request): State {
    s.(effects := s.effects + [Ask(r)], requestsPending := s.requestsPending + 1)
  }

  /** `nextWebCam`: release the current camera and request the next one. */
  function NextWebCam(s: State): State
    requires CanStop(s)
  {
    var cam := NextCursor(s.currentCam, |s.webcamList|);
    var s1 := s.(switchDisabled := true, currentCam := Some(cam));
    var s2 := if s.currentCam.None? then s1 else ReleaseCamera(s1);
    IssueRequest(s2, Exact(DeviceAt(s.webcamList, cam), Width, Height))
  }

  /** What `nextWebCam` stops before its request: the live stream's first video track, when a camera was in use. */
  function Released(s: State): seq<Effect>
    requires CanStop(s)
  {
    if s.currentCam.Some? && s.mediaStream.Some? then [Stop(s.mediaStream.value.videoTracks[0])] else []
  }

  /**
   * The state `nextWebCam` leaves, field by field: only the cursor, the
   * switch, the preview, the stream and the effects change, and the stop of
   * the old track comes before the new request.
   */
  lemma NextWebCamFields(s: State)
    requires CanStop(s)
    ensures var cam := NextCursor(s.currentCam, |s.webcamList|);
      var release := s.currentCam.Some?;
      var stop := release && s.mediaStream.Some?;
      NextWebCam(s) == State(s.webcamList, Some(cam), s.photoReady,
        if stop then None else s.mediaStream,
        if release then false else s.previewBound,
        true, s.hintText, s.tooltipText, s.saveArmed, s.deviceChangeArmed, s.enumerationsPending,
        s.requestsPending + 1, s.canvasWidth, s.canvasHeight, s.errorLog, s.downloads,
        s.effects + Released(s) + [Ask(Exact(DeviceAt(s.webcamList, cam), Width, Height))])
  {
    if s.currentCam.Some? && s.mediaStream.Some? {
      assert s.effects + Released(s) + [Ask(Exact(DeviceAt(s.webcamList, NextCursor(s.currentCam, |s.webcamList|)), Width, Height))]
          == s.effects + [Stop(s.mediaStream.value.videoTracks[0])] + [Ask(Exact(DeviceAt(s.webcamList, NextCursor(s.currentCam, |s.webcamList|)), Width, Height))];
    } else {
      assert s.effects + Released(s) == s.effects;
    }
  }

  /** `deviceChanged`: drop the listener and the list, and enumerate again. */
  function DeviceChanged(s: State): State {
    s.(deviceChangeArmed := false, webcamList := [], enumerationsPending := s.enumerationsPending + 1)
  }

  /** `devicesCallback`: the host answered an enumeration with `devices`. */
  function DevicesCallback(s: State, devices: seq<MediaDeviceInfo>): State
    requires s.enumerationsPending > 0 && CanStop(s)
  {
    var s1 := s.(webcamList := s.webcamList + VideoIds(devices), enumerationsPending := s.enumerationsPending - 1);
    StartOrReport(s1).(deviceChangeArmed := true)
  }

  /** The second half of `devicesCallback`: start the next camera, or report that there is none. */
  function StartOrReport(s: State): State
    requires CanStop(s)
  {
    if |s.webcamList| > 0 then NextWebCam(s).(switchDisabled := |s.webcamList| <= 1)
    else WriteError(s, NotFoundMessage)
  }

  /** What the host can deliver to the page. */
  datatype Event =
    | Devices(devices: seq<MediaDeviceInfo>)     // an enumeration resolved
    | StreamGranted(stream: Stream)              // a `getUserMedia` call resolved
    | StreamRefused(name: string)                // a `getUserMedia` call rejected
    | ClickVideo(videoWidth: nat, videoHeight: nat)
    | ClickCanvas
    | ClickSwitch
    | DeviceChange

  /**
   * The host only resolves calls that were issued, and a video stream
   * carries a video track.
   */
  predicate Allowed(s: State, e: Event) {
    match e
    case Devices(_) => s.enumerationsPending > 0
    case StreamGranted(stream) => s.requestsPending > 0 && |stream.videoTracks| > 0
    case StreamRefused(_) => s.requestsPending > 0
    case _ => true
  }

  /**
   * One event: results go to their callbacks; a click or a device change
   * reaches a handler only while it is registered and the button enabled.
   */
  function Step(s: State, e: Event): (t: State)
    requires Inv(s) && Allowed(s, e)
    ensures ((e.ClickCanvas? && !s.saveArmed) || (e.ClickSwitch? && s.switchDisabled)
             || (e.DeviceChange? && !s.deviceChangeArmed) || (e.ClickVideo? && s.mediaStream.None?)) ==> t == s
  {
    match e
    case Devices(devices) => DevicesCallback(s, devices)
    case StreamGranted(stream) => InitializeVideoStream(s, stream)
    case StreamRefused(name) => GetUserMediaError(s, name)
    case ClickVideo(w, h) => Capture(s, w, h)
    case ClickCanvas => if s.saveArmed then SavePhoto(s) else s
    case ClickSwitch => if !s.switchDisabled then NextWebCam(s) else s
    case DeviceChange => if s.deviceChangeArmed then DeviceChanged(s) else s
  }

  // ---------------------------------------------------------------------
  // The invariant

  lemma InitEstablishesInv(page: Page, host: Host)
    ensures Inv(Init(page, host))
    ensures host.hasEnumerateDevices ==>
      Init(page, host).enumerationsPending == 1 && Init(page, host).effects == [] && Init(page, host).errorLog == []
    ensures !host.hasEnumerateDevices ==> Init(page, host).enumerationsPending == 0
    ensures !host.hasEnumerateDevices && host.hasGetUserMedia ==>
      Init(page, host).effects == [Ask(AnyVideo)] && Init(page, host).tooltipText == NoEnumerateTooltip
      && Init(page, host).errorLog == []
    ensures !host.hasEnumerateDevices && !host.hasGetUserMedia ==>
      Init(page, host).errorLog == [ErrorLine(UnsupportedMessage)] && Init(page, host).effects == []
  {
  }

  lemma StepPreservesInv(s: State, e: Event)
    requires Inv(s) && Allowed(s, e)
    ensures Inv(Step(s, e))
  {
    if e.Devices? || e.StreamGranted? || e.StreamRefused? {
      HostResultKeepsInv(s, e);
    } else {
      UserEventKeepsInv(s, e);
    }
  }

  lemma HostResultKeepsInv(s: State, e: Event)
    requires Inv(s) && Allowed(s, e) && (e.Devices? || e.StreamGranted? || e.StreamRefused?)
    ensures Inv(Step(s, e))
  {
    match e
    case Devices(devices) => DevicesCallbackKeepsInv(s, devices);
    case StreamGranted(_) =>
    case StreamRefused(_) =>
  }

  lemma UserEventKeepsInv(s: State, e: Event)
    requires Inv(s) && Allowed(s, e) && !(e.Devices? || e.StreamGranted? || e.StreamRefused?)
    ensures Inv(Step(s, e))
  {
    match e
    case ClickSwitch => if !s.switchDisabled { NextWebCamKeepsInv(s); }
    case ClickVideo(_, _) =>
    case ClickCanvas =>
    case DeviceChange =>
  }

  lemma NextWebCamKeepsInv(s: State)
    requires Inv(s)
    ensures Inv(NextWebCam(s))
  {
    NextWebCamFields(s);
  }

  lemma DevicesCallbackKeepsInv(s: State, devices: seq<MediaDeviceInfo>)
    requires Inv(s) && s.enumerationsPending > 0
    ensures Inv(DevicesCallback(s, devices))
  {
    var s1 := s.(webcamList := s.webcamList + VideoIds(devices), enumerationsPending := s.enumerationsPending - 1);
    if |s1.webcamList| > 0 {
      NextWebCamKeepsInv(s1);
    }
  }

  /** The events a run is made of, each allowed where it happens. */
  ghost predicate AllowedRun(s: State, events: seq<Event>)
    requires Inv(s)
    decreases |events|
  {
    events == [] || (Allowed(s, events[0]) && (StepPreservesInv(s, events[0]); AllowedRun(Step(s, events[0]), events[1..])))
  }

  ghost function Run(s: State, events: seq<Event>): (t: State)
    requires Inv(s) && AllowedRun(s, events)
    decreases |events|
  {
    if events == [] then s else (StepPreservesInv(s, events[0]); Run(Step(s, events[0]), events[1..]))
  }

  /**
   * Along any run from a reachable state the invariant holds, and the error
   * region, the downloads and the log of stopped tracks and issued requests
   * only ever grow at the end.
   */
  lemma {:induction false} RunKeepsInvAndLogs(s: State, events: seq<Event>)
    requires Inv(s) && AllowedRun(s, events)
    ensures Inv(Run(s, events)) && Extends(s, Run(s, events))
    decreases |events|
  {
    if events != [] {
      StepPreservesInv(s, events[0]);
      StepOnlyAppends(s, events[0]);
      RunKeepsInvAndLogs(Step(s, events[0]), events[1..]);
    }
  }

  /** `t` keeps every error line, download and effect of `s`, possibly adding more after them. */
  ghost predicate Extends(s: State, t: State) {
    s.errorLog <= t.errorLog && s.downloads <= t.downloads && s.effects <= t.effects
  }

  /** No step removes or rewrites an error line, a download, a stopped track or a request. */
  lemma StepOnlyAppends(s: State, e: Event)
    requires Inv(s) && Allowed(s, e)
    ensures Extends(s, Step(s, e))
  {
    if e.Devices? || e.StreamGranted? || e.StreamRefused? {
      HostResultOnlyAppends(s, e);
    } else {
      UserEventOnlyAppends(s, e);
    }
  }

  lemma HostResultOnlyAppends(s: State, e: Event)
    requires Inv(s) && Allowed(s, e) && (e.Devices? || e.StreamGranted? || e.StreamRefused?)
    ensures Extends(s, Step(s, e))
  {
    match e
    case Devices(devices) => DevicesCallbackOnlyAppends(s, devices);
    case StreamGranted(_) =>
    case StreamRefused(_) =>
  }

  lemma UserEventOnlyAppends(s: State, e: Event)
    requires Inv(s) && Allowed(s, e) && !(e.Devices? || e.StreamGranted? || e.StreamRefused?)
    ensures Extends(s, Step(s, e))
  {
    match e
    case ClickSwitch => if !s.switchDisabled { NextWebCamOnlyAppends(s); }
    case ClickVideo(_, _) =>
    case ClickCanvas =>
    case DeviceChange =>
  }

  lemma DevicesCallbackOnlyAppends(s: State, devices: seq<MediaDeviceInfo>)
    requires s.enumerationsPending > 0 && CanStop(s)
    ensures var t := DevicesCallback(s, devices);
      && s.errorLog <= t.errorLog && t.downloads == s.downloads && s.effects <= t.effects
  {
    var s1 := s.(webcamList := s.webcamList + VideoIds(devices), enumerationsPending := s.enumerationsPending - 1);
    if |s1.webcamList| > 0 {
      NextWebCamOnlyAppends(s1);
    }
  }

  lemma NextWebCamOnlyAppends(s: State)
    requires CanStop(s)
    ensures var t := NextWebCam(s);
      && t.errorLog == s.errorLog && t.downloads == s.downloads
      && s.effects <= t.effects && |t.effects| > |s.effects|
  {
    NextWebCamFields(s);
  }

  // ---------------------------------------------------------------------
  // Enumeration

  /**
   * On a reachable state the list after an enumeration is exactly the video
   * inputs enumerated, in order: the appending loop amounts to a wholesale
   * replacement because the list is empty whenever an enumeration is pending.
   * The devicechange listener is registered afterwards.
   */
  lemma DevicesReplaceList(s: State, devices: seq<MediaDeviceInfo>)
    requires Inv(s) && s.enumerationsPending > 0
    ensures var t := Step(s, Devices(devices));
      && t.webcamList == VideoIds(devices)
      && t.deviceChangeArmed && t.enumerationsPending == 0
  {
  }

  /**
   * After an enumeration that found cameras, exactly one stream is requested,
   * for the camera the cursor moves to, after the stop of the old stream's
   * first track if a camera was in use; the switch is disabled exactly when
   * there is at most one camera.
   */
  lemma DevicesFoundStartsCamera(s: State, devices: seq<MediaDeviceInfo>)
    requires Inv(s) && s.enumerationsPending > 0 && VideoIds(devices) != []
    ensures var t := Step(s, Devices(devices));
      var cam := NextCursor(s.currentCam, |VideoIds(devices)|);
      && t.switchDisabled == (|t.webcamList| <= 1)
      && t.currentCam == Some(cam) && cam < |t.webcamList|
      && t.effects == s.effects + Released(s) + [Ask(Exact(Some(t.webcamList[cam]), Width, Height))]
      && t.errorLog == s.errorLog
  {
    var s1 := s.(webcamList := s.webcamList + VideoIds(devices), enumerationsPending := s.enumerationsPending - 1);
    NextWebCamFields(s1);
  }

  /** An enumeration with no video input reports "Webcam not found." and leaves the switch alone. */
  lemma DevicesNoneFound(s: State, devices: seq<MediaDeviceInfo>)
    requires Inv(s) && s.enumerationsPending > 0
    requires forall i :: 0 <= i < |devices| ==> !IsVideoInput(devices[i])
    ensures var t := Step(s, Devices(devices));
      && t.webcamList == []
      && t.errorLog == s.errorLog + [ErrorLine(NotFoundMessage)]
      && t.switchDisabled == s.switchDisabled
      && t.effects == s.effects && t.currentCam == s.currentCam
  {
    VideoIdsLength(devices);
  }

  // ---------------------------------------------------------------------
  // Switching cameras

  /**
   * A switch disables the button and moves the cursor; from a camera in use
   * it stops only the first video track of the live stream, unbinds the
   * preview and forgets the stream before it issues exactly one new
   * request, for `webcamList[currentCam]` at 1280 by 720.
   */
  lemma SwitchReleasesThenRequests(s: State)
    requires Inv(s) && !s.switchDisabled && s.currentCam.Some? && s.mediaStream.Some?
    ensures var t := Step(s, ClickSwitch);
      var cam := NextCursor(s.currentCam, |s.webcamList|);
      && t.switchDisabled
      && t.currentCam == Some(cam)
      && t.mediaStream.None? && !t.previewBound
      && t.effects == s.effects + [Stop(s.mediaStream.value.videoTracks[0]), Ask(Exact(DeviceAt(s.webcamList, cam), Width, Height))]
      && t.requestsPending == s.requestsPending + 1
  {
  }

  /** A switch with no live stream stops nothing: its one effect is the request. */
  lemma SwitchWithoutStream(s: State)
    requires Inv(s) && !s.switchDisabled && s.mediaStream.None?
    ensures var t := Step(s, ClickSwitch);
      var cam := NextCursor(s.currentCam, |s.webcamList|);
      && t.effects == s.effects + [Ask(Exact(DeviceAt(s.webcamList, cam), Width, Height))]
      && t.requestsPending == s.requestsPending + 1
  {
    NextWebCamFields(s);
  }

  /**
   * The order above holds within one switch, not across a run: an
   * enumeration that finds two or more cameras enables the switch while the
   * stream it asked for is still outstanding and none is live, so a click
   * then issues a second request with no stream to stop (`SwitchWithoutStream`).
   */
  lemma SwitchBeforeStreamArrives(s: State, devices: seq<MediaDeviceInfo>)
    requires Inv(s) && s.enumerationsPending > 0 && s.currentCam.None? && s.mediaStream.None?
    requires |VideoIds(devices)| >= 2
    ensures var t := Step(s, Devices(devices));
      && Inv(t) && !t.switchDisabled && t.mediaStream.None?
      && t.requestsPending == s.requestsPending + 1
  {
    var s1 := s.(webcamList := s.webcamList + VideoIds(devices), enumerationsPending := s.enumerationsPending - 1);
    NextWebCamFields(s1);
    StepPreservesInv(s, Devices(devices));
  }

  /** A click on a disabled switch does nothing. */
  lemma DisabledSwitchIgnored(s: State)
    requires Inv(s) && s.switchDisabled
    ensures Step(s, ClickSwitch) == s
  {
  }

  /**
   * A granted stream re-enables the switch only when there is more than one
   * camera; it replaces any live stream without stopping a track of it.
   */
  lemma GrantedStreamSwitch(s: State, stream: Stream)
    requires Inv(s) && Allowed(s, StreamGranted(stream))
    ensures var t := Step(s, StreamGranted(stream));
      && t.mediaStream == Some(stream) && t.previewBound && t.effects == s.effects
      && (|s.webcamList| > 1 ==> !t.switchDisabled)
      && (|s.webcamList| <= 1 ==> t.switchDisabled == s.switchDisabled)
  {
  }

  /**
   * A refused stream appends exactly the chosen message and leaves the
   * switch as it was (so a failed switch leaves it disabled).
   */
  lemma RefusedStreamReports(s: State, name: string)
    requires Inv(s) && s.requestsPending > 0
    ensures var t := Step(s, StreamRefused(name));
      && t.errorLog == s.errorLog + [ErrorPrefix + ErrorMessage(name)]
      && t.switchDisabled == s.switchDisabled
      && t.mediaStream == s.mediaStream
  {
  }

  // ---------------------------------------------------------------------
  // Capture and save

  /** Without a live stream a click on the preview changes nothing. */
  lemma CaptureWithoutStream(s: State, w: nat, h: nat)
    requires s.mediaStream.None?
    ensures Capture(s, w, h) == s
  {
  }

  /**
   * With a live stream, the canvas takes the video's size, a photo is ready,
   * the hint invites a save, and the save listener is armed once.
   */
  lemma CaptureWithStream(s: State, w: nat, h: nat)
    requires Inv(s) && s.mediaStream.Some?
    ensures var t := Step(s, ClickVideo(w, h));
      && t.canvasWidth == w && t.canvasHeight == h
      && t.photoReady && t.saveArmed && t.hintText == SaveHint
      && t.downloads == s.downloads && t.mediaStream == s.mediaStream
  {
  }

  /** `savePhoto` without a photo ready changes nothing. */
  lemma SaveWithoutPhoto(s: State)
    requires !s.photoReady
    ensures SavePhoto(s) == s
  {
  }

  /** A click on the canvas with a photo ready downloads exactly one `myPhoto.jpg` and disarms. */
  lemma SaveDownloadsOnce(s: State)
    requires Inv(s) && s.photoReady
    ensures var t := Step(s, ClickCanvas);
      && t.downloads == s.downloads + [PhotoFileName]
      && !t.photoReady && !t.saveArmed && t.hintText == ""
  {
  }

  /** Of two consecutive saves the second does nothing: a photo is downloaded at most once. */
  lemma SecondSaveIsNoOp(s: State)
    requires Inv(s)
    ensures Inv(Step(s, ClickCanvas))
    ensures Step(Step(s, ClickCanvas), ClickCanvas) == Step(s, ClickCanvas)
    ensures |Step(s, ClickCanvas).downloads| <= |s.downloads| + 1
  {
  }

  // ---------------------------------------------------------------------
  // Hot-plug

  /**
   * A device change while the listener is registered unregisters it, empties
   * the list and leaves exactly one enumeration pending; a second change
   * before that enumeration resolves reaches no listener.
   */
  lemma DeviceChangeOnce(s: State)
    requires Inv(s) && s.deviceChangeArmed
    ensures var t := Step(s, DeviceChange);
      && Inv(t) && !t.deviceChangeArmed && t.webcamList == [] && t.enumerationsPending == 1
      && Step(t, DeviceChange) == t
  {
  }

  /**
   * After a hot-plug the cursor is not reset: the enumeration that follows
   * stops the old stream's first track, if one is live, then advances the
   * old cursor `c` by one, wrapping to 0 when that runs past the new list,
   * and requests the camera there.
   */
  lemma HotPlugAdvancesOldCursor(s: State, c: nat, devices: seq<MediaDeviceInfo>)
    requires Inv(s) && s.deviceChangeArmed && s.currentCam == Some(c) && VideoIds(devices) != []
    ensures var t := Step(s, DeviceChange);
      var n := |VideoIds(devices)|;
      && Inv(t) && Allowed(t, Devices(devices))
      && Step(t, Devices(devices)).currentCam == Some(if c + 1 < n then c + 1 else 0)
      && Step(t, Devices(devices)).effects
         == s.effects + Released(s) + [Ask(Exact(Some(VideoIds(devices)[if c + 1 < n then c + 1 else 0]), Width, Height))]
  {
    var t := Step(s, DeviceChange);
    DeviceChangeOnce(s);
    assert t == DeviceChanged(s);
    DevicesReplaceList(t, devices);
    DevicesFoundStartsCamera(t, devices);
    var n := |VideoIds(devices)|;
    assert NextCursor(t.currentCam, n) == if c + 1 < n then c + 1 else 0;
  }

  /**
   * The request `nextWebCam` issues is for 1280 by 720, and names a camera
   * of the list exactly when the list is not empty (otherwise it asks for
   * `undefined`).
   */
  lemma RequestNamesListedCamera(s: State)
    requires CanStop(s)
    ensures var t := NextWebCam(s);
      && |t.effects| > 0 && t.effects[|t.effects| - 1].Ask?
      && var r := t.effects[|t.effects| - 1].request;
      && r.Exact? && r.width == Width && r.height == Height
      && (r.deviceId.Some? <==> |s.webcamList| > 0)
      && (r.deviceId.Some? ==> r.deviceId.value in s.webcamList)
  {
    NextWebCamFields(s);
  }

  // ---------------------------------------------------------------------
  // Saves without a capture between them

  /**
   * Every event but a capture leaves the photo flag and the downloads alone,
   * except a click on the canvas, which downloads once if a photo is ready
   * and clears the flag.
   */
  lemma NonCaptureStep(s: State, e: Event)
    requires Inv(s) && Allowed(s, e) && !e.ClickVideo?
    ensures Step(s, e).photoReady == (s.photoReady && !e.ClickCanvas?)
    ensures Step(s, e).downloads == s.downloads + (if s.photoReady && e.ClickCanvas? then [PhotoFileName] else [])
  {
    match e
    case Devices(devices) =>
      var s1 := s.(webcamList := s.webcamList + VideoIds(devices), enumerationsPending := s.enumerationsPending - 1);
      if |s1.webcamList| > 0 {
        NextWebCamFields(s1);
      }
    case ClickSwitch =>
      if !s.switchDisabled {
        NextWebCamFields(s);
      }
    case _ =>
  }

  ghost predicate NoCapture(events: seq<Event>) {
    forall k :: 0 <= k < |events| ==> !events[k].ClickVideo?
  }

  /**
   * Along any run with no capture in it, at most one photo is downloaded,
   * and none at all when no photo was ready at the start.
   */
  lemma {:induction false} SavesWithoutCapture(s: State, events: seq<Event>)
    requires Inv(s) && AllowedRun(s, events) && NoCapture(events)
    ensures |Run(s, events).downloads| <= |s.downloads| + (if s.photoReady then 1 else 0)
    ensures !s.photoReady ==> Run(s, events).downloads == s.downloads && !Run(s, events).photoReady
    decreases |events|
  {
    if events != [] {
      NonCaptureStep(s, events[0]);
      StepPreservesInv(s, events[0]);
      assert NoCapture(events[1..]) by {
        forall k | 0 <= k < |events[1..]| ensures !events[1..][k].ClickVideo? {
          assert events[1..][k] == events[k + 1];
        }
      }
      SavesWithoutCapture(Step(s, events[0]), events[1..]);
    }
  }
}
