/**
 * The handlers of js/UserMedia.js as methods of one controller object whose
 * fields are the script's module-scoped variables and the page state the
 * handlers write. Each method updates the fields in place, as the script
 * does, and is proved to make exactly the transition `Session` gives it.
 */
module UserMedia {
  import opened Optional
  import opened Messages
  import opened Devices
  import Session

  class CameraController {
    var webcamList: seq<string>
    var currentCam: Option<nat>
    var photoReady: bool
    var mediaStream: Option<Session.Stream>
    var previewBound: bool
    var switchDisabled: bool
    var hintText: string
    var tooltipText: string
    var saveArmed: bool
    var deviceChangeArmed: bool
    var enumerationsPending: nat
    var requestsPending: nat
    var canvasWidth: nat
    var canvasHeight: nat
    var errorLog: seq<string>
    var downloads: seq<string>
    var effects: seq<Session.Effect>

    /** The page state held by the fields. */
    function Snapshot(): Session.State
      reads this
    {
      Session.State(webcamList, currentCam, photoReady, mediaStream, previewBound, switchDisabled,
                    hintText, tooltipText, saveArmed, deviceChangeArmed, enumerationsPending,
                    requestsPending, canvasWidth, canvasHeight, errorLog, downloads, effects)
    }

    ghost predicate Valid()
      reads this
    {
      Session.Inv(Snapshot())
    }

    /** `init`, run once the page's markup is in place. */
    constructor Init(page: Session.Page, host: Session.Host)
      ensures Valid() && Snapshot() == Session.Init(page, host)
    {
      webcamList, currentCam, photoReady, mediaStream, previewBound := [], None, false, None, false;
      switchDisabled, hintText, tooltipText := page.switchDisabled, page.hintText, page.tooltipText;
      saveArmed, deviceChangeArmed, enumerationsPending, requestsPending := false, false, 0, 0;
      canvasWidth, canvasHeight := page.canvasWidth, page.canvasHeight;
      errorLog, downloads, effects := [], [], [];
      new;
      if host.hasEnumerateDevices {
        enumerationsPending := 1;
      } else if host.hasGetUserMedia {
        tooltipText := Session.NoEnumerateTooltip;
        effects := [Session.Ask(Session.AnyVideo)];
        requestsPending := 1;
      } else {
        WriteError(UnsupportedMessage);
      }
      Session.InitEstablishesInv(page, host);
    }

    method WriteError(msg: string)
      modifies this
      ensures Snapshot() == Session.WriteError(old(Snapshot()), msg)
    {
      errorLog := errorLog + [ErrorPrefix + msg];
    }

    method InitializeVideoStream(stream: Session.Stream)
      requires Valid() && Session.Allowed(Snapshot(), Session.StreamGranted(stream))
      modifies this
      ensures Valid() && Snapshot() == Session.InitializeVideoStream(old(Snapshot()), stream)
    {
      mediaStream := Some(stream);
      previewBound := true;
      requestsPending := requestsPending - 1;
      if |webcamList| > 1 {
        switchDisabled := false;
      }
    }

    method GetUserMediaError(name: string)
      requires Valid() && requestsPending > 0
      modifies this
      ensures Valid() && Snapshot() == Session.GetUserMediaError(old(Snapshot()), name)
    {
      requestsPending := requestsPending - 1;
      if IndexOf(name, NotFoundName) >= 0 {
        WriteError(NotFoundMessage);
      } else {
        WriteError(GenericPrefix + name + GenericSuffix);
      }
    }

    method SavePhoto()
      requires Valid()
      modifies this
      ensures Valid() && Snapshot() == Session.SavePhoto(old(Snapshot()))
    {
      if photoReady {
        downloads := downloads + [Session.PhotoFileName];
        saveArmed := false;
        hintText := "";
        photoReady := false;
      }
    }

    method Capture(videoWidth: nat, videoHeight: nat)
      requires Valid()
      modifies this
      ensures Valid() && Snapshot() == Session.Capture(old(Snapshot()), videoWidth, videoHeight)
    {
      if mediaStream.None? {
        return;
      }
      saveArmed := false;
      if canvasWidth != videoWidth || canvasHeight != videoHeight {
        canvasWidth := videoWidth;
        canvasHeight := videoHeight;
      }
      photoReady := true;
      hintText := Session.SaveHint;
      saveArmed := true;
    }

    method NextWebCam()
      requires Session.CanStop(Snapshot())
      modifies this
      ensures Snapshot() == Session.NextWebCam(old(Snapshot()))
    {
      switchDisabled := true;
      if currentCam.Some? {
        var cam := currentCam.value + 1;
        if cam >= |webcamList| {
          cam := 0;
        }
        currentCam := Some(cam);
        ReleaseCamera();
      } else {
        currentCam := Some(0);
      }
      IssueRequest(Session.Exact(DeviceAt(webcamList, currentCam.value), Session.Width, Session.Height));
    }

    /** Unbind the preview and stop the live stream's first video track, as `nextWebCam` does from a camera in use. */
    method ReleaseCamera()
      requires mediaStream.Some? ==> |mediaStream.value.videoTracks| > 0
      modifies this
      ensures Snapshot() == Session.ReleaseCamera(old(Snapshot()))
    {
      previewBound := false;
      if mediaStream.Some? {
        effects := effects + [Session.Stop(mediaStream.value.videoTracks[0])];
        mediaStream := None;
      }
    }

    /** Issue one `getUserMedia` call with constraints `r`. */
    method IssueRequest(r: Session.Request)
      modifies this
      ensures Snapshot() == Session.IssueRequest(old(Snapshot()), r)
    {
      effects := effects + [Session.Ask(r)];
      requestsPending := requestsPending + 1;
    }

    /** `deviceChanged`, which runs only as the registered devicechange listener. */
    method DeviceChanged()
      requires Valid() && deviceChangeArmed
      modifies this
      ensures Valid() && Snapshot() == Session.DeviceChanged(old(Snapshot()))
    {
      deviceChangeArmed := false;
      webcamList := [];
      enumerationsPending := enumerationsPending + 1;
    }

    /** `devicesCallback`: keep the video inputs, then start a camera or report that there is none. */
    method DevicesCallback(devices: seq<MediaDeviceInfo>)
      requires Valid() && enumerationsPending > 0
      modifies this
      ensures Valid() && Snapshot() == Session.DevicesCallback(old(Snapshot()), devices)
    {
      ghost var s := Snapshot();
      ghost var s1 := s.(webcamList := s.webcamList + VideoIds(devices), enumerationsPending := s.enumerationsPending - 1);
      enumerationsPending := enumerationsPending - 1;
      CollectVideoInputs(devices);
      assert Snapshot() == s1;
      StartOrReport();
      ghost var s2 := Snapshot();
      deviceChangeArmed := true;
      assert Snapshot() == s2.(deviceChangeArmed := true);
      Session.DevicesCallbackKeepsInv(s, devices);
    }

    /** The branch of `devicesCallback` on whether any camera was found. */
    method StartOrReport()
      requires Session.CanStop(Snapshot())
      modifies this
      ensures Snapshot() == Session.StartOrReport(old(Snapshot()))
    {
      if |webcamList| > 0 {
        NextWebCam();
        switchDisabled := |webcamList| <= 1;
      } else {
        WriteError(NotFoundMessage);
      }
    }

    /** The loop of `devicesCallback`: append, entry by entry, the id of every video input. */
    method CollectVideoInputs(devices: seq<MediaDeviceInfo>)
      modifies this
      ensures Snapshot() == old(Snapshot()).(webcamList := old(webcamList) + VideoIds(devices))
    {
      for i := 0 to |devices|
        invariant webcamList == old(webcamList) + VideoIds(devices[..i])
        modifies this`webcamList
      {
        if devices[i].kind == VideoInputKind {
          webcamList := webcamList + [devices[i].deviceId];
        }
        VideoIdsAppend(devices[..i], [devices[i]]);
        assert devices[..i + 1] == devices[..i] + [devices[i]];
      }
      assert devices[..|devices|] == devices;
    }
  }
}
