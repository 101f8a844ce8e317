/** The "Go Live" dialog: camera permission, a preview with track toggles,
    and a live phase backed by a `live_streams` row. */
module LiveStream {
  import opened Common

  datatype TrackKind = VideoKind | AudioKind

  /** A `MediaStreamTrack` of the browser: its kind and the two things the
      dialog changes, `enabled` and whether `stop()` was called. */
  class MediaTrack {
    const kind: TrackKind
    var enabled: bool
    var stopped: bool

    constructor (kind: TrackKind)
      ensures this.kind == kind && enabled && !stopped
    {
      this.kind := kind;
      enabled := true;
      stopped := false;
    }
  }

  /** A `MediaStream`: its video tracks and its audio tracks. */
  datatype MediaStream = MediaStream(videoTracks: seq<MediaTrack>, audioTracks: seq<MediaTrack>)

  /** Video tracks are video and audio tracks are audio. */
  predicate WellFormed(s: MediaStream)
  {
    && (forall i :: 0 <= i < |s.videoTracks| ==> s.videoTracks[i].kind == VideoKind)
    && (forall i :: 0 <= i < |s.audioTracks| ==> s.audioTracks[i].kind == AudioKind)
  }

  /** `getTracks()`. */
  function Tracks(s: MediaStream): seq<MediaTrack>
  {
    s.videoTracks + s.audioTracks
  }

  /** The three panels of the dialog's body. */
  datatype Panel = PermissionsPanel | PreviewPanel | LivePanel

  /** The panel the nested conditional renders: exactly one, chosen by the
      two flags. */
  function PanelShown(hasPermissions: bool, isLive: bool): (p: Panel)
    ensures p == PermissionsPanel <==> !hasPermissions
    ensures p == PreviewPanel <==> hasPermissions && !isLive
    ensures p == LivePanel <==> hasPermissions && isLive
  {
    if !hasPermissions then PermissionsPanel else if !isLive then PreviewPanel else LivePanel
  }

  /** What `getUserMedia` is asked for. */
  datatype Constraints = Constraints(video: bool, audio: bool)

  /** The row inserted into `live_streams`. */
  datatype StreamRecord = StreamRecord(userId: string, title: string, description: string, isActive: bool, viewerCount: nat)

  /** `update({is_active: false})` on the rows of this user that are active;
      the user id is `user?.id`, absent without a user. */
  datatype StopUpdate = StopUpdate(userId: Option<string>)

  /** The toasts the dialog shows. */
  datatype Notice =
    | PermissionsGranted | PermissionDenied
    | LoginRequired | TitleRequired | StreamStarted | StartFailed
    | StreamEnded

  /** The record of a new stream: trimmed text, active, no viewers. */
  function NewStreamRecord(userId: string, title: string, description: string): (r: StreamRecord)
    ensures r.userId == userId && r.isActive && r.viewerCount == 0
    ensures r.title == Trim(title) && r.description == Trim(description)
    ensures !Blank(title) ==> r.title != ""
  {
    StreamRecord(userId, Trim(title), Trim(description), true, 0)
  }

  function AsSet(o: Option<MediaTrack>): set<MediaTrack>
  {
    if o.Some? then {o.value} else {}
  }

  class LiveStreamDialog {
    var isOpen: bool
    var title: string
    var description: string
    var isLive: bool
    var hasPermissions: bool
    var videoEnabled: bool
    var audioEnabled: bool
    var stream: Option<MediaStream>

    /** Permissions are held exactly while a stream is held, and the held
        stream's tracks are of their kinds. */
    ghost predicate Valid()
      reads this
    {
      hasPermissions == stream.Some? && (stream.Some? ==> WellFormed(stream.value))
    }

    /** The panel on screen. */
    function Panel(): Panel
      reads this
    {
      PanelShown(hasPermissions, isLive)
    }

    /** The tracks of the held stream. */
    ghost function TrackSet(): set<MediaTrack>
      reads this
    {
      if stream.Some? then set t | t in Tracks(stream.value) else {}
    }

    /** `getVideoTracks()[0]` of the held stream. */
    function FirstVideoTrack(): Option<MediaTrack>
      reads this
    {
      if stream.Some? && |stream.value.videoTracks| > 0 then Some(stream.value.videoTracks[0]) else None
    }

    /** `getAudioTracks()[0]` of the held stream. */
    function FirstAudioTrack(): Option<MediaTrack>
      reads this
    {
      if stream.Some? && |stream.value.audioTracks| > 0 then Some(stream.value.audioTracks[0]) else None
    }

    constructor ()
      ensures Valid()
      ensures !isOpen && title == "" && description == "" && !isLive && !hasPermissions
      ensures videoEnabled && audioEnabled && stream == None
    {
      isOpen := false;
      title := "";
      description := "";
      isLive := false;
      hasPermissions := false;
      videoEnabled := true;
      audioEnabled := true;
      stream := None;
    }

    /** `onOpenChange` of the dialog (the trigger opens it). */
    method SetOpen(open: bool)
      modifies this
      ensures isOpen == open
      ensures title == old(title) && description == old(description) && isLive == old(isLive)
      ensures hasPermissions == old(hasPermissions) && stream == old(stream)
      ensures videoEnabled == old(videoEnabled) && audioEnabled == old(audioEnabled)
    {
      isOpen := open;
    }

    /** The title input's `onChange`. */
    method SetTitle(value: string)
      modifies this
      ensures title == value
      ensures isOpen == old(isOpen) && description == old(description) && isLive == old(isLive)
      ensures hasPermissions == old(hasPermissions) && stream == old(stream)
      ensures videoEnabled == old(videoEnabled) && audioEnabled == old(audioEnabled)
    {
      title := value;
    }

    /** The description input's `onChange`. */
    method SetDescription(value: string)
      modifies this
      ensures description == value
      ensures isOpen == old(isOpen) && title == old(title) && isLive == old(isLive)
      ensures hasPermissions == old(hasPermissions) && stream == old(stream)
      ensures videoEnabled == old(videoEnabled) && audioEnabled == old(audioEnabled)
    {
      description := value;
    }

    /** `requestPermissions`: `granted` is the stream the user's choice
        would give, or None when they refuse. `getUserMedia` rejects a
        request that asks for neither video nor audio before asking the
        user, so such a request is refused whatever `granted` is. */
    method RequestPermissions(granted: Option<MediaStream>) returns (request: Constraints, notice: Notice)
      requires Valid()
      requires granted.Some? ==> WellFormed(granted.value)
      modifies this
      ensures Valid()
      ensures request == Constraints(old(videoEnabled), old(audioEnabled))
      ensures var accepted := granted.Some? && (request.video || request.audio);
        && (accepted ==> stream == granted && hasPermissions && notice == PermissionsGranted)
        && (!accepted ==> unchanged(this) && notice == PermissionDenied)
      ensures isOpen == old(isOpen) && title == old(title) && description == old(description) && isLive == old(isLive)
      ensures videoEnabled == old(videoEnabled) && audioEnabled == old(audioEnabled)
    {
      request := Constraints(videoEnabled, audioEnabled);
      if granted.None? || (!request.video && !request.audio) {
        return request, PermissionDenied;
      }
      stream := granted;
      hasPermissions := true;
      notice := PermissionsGranted;
    }

    /** `stopStream`, also the preview's Cancel: every track of the held
        stream is stopped and dropped, and both flags are cleared. */
    method StopStream()
      requires Valid()
      modifies this, TrackSet()
      ensures Valid()
      ensures forall t :: t in old(TrackSet()) ==> t.stopped && t.enabled == old(t.enabled)
      ensures stream == None && !hasPermissions && !isLive
      ensures isOpen == old(isOpen) && title == old(title) && description == old(description)
      ensures videoEnabled == old(videoEnabled) && audioEnabled == old(audioEnabled)
    {
      if stream.Some? {
        var tracks := Tracks(stream.value);
        var i := 0;
        while i < |tracks|
          invariant 0 <= i <= |tracks|
          invariant forall j :: 0 <= j < i ==> tracks[j].stopped
          invariant forall t :: t in old(TrackSet()) ==> t.enabled == old(t.enabled)
          modifies set t | t in tracks
        {
          tracks[i].stopped := true;
          i := i + 1;
        }
        stream := None;
      }
      hasPermissions := false;
      isLive := false;
    }

    /** `startLiveStream`: `insertError` is the insert's error. Returns the
        record inserted, or None when a guard refused first. */
    method StartLiveStream(user: Option<User>, insertError: Option<string>) returns (record: Option<StreamRecord>, notice: Notice)
      requires Valid()
      modifies this
      ensures Valid()
      ensures user.None? ==> record.None? && notice == LoginRequired && unchanged(this)
      ensures user.Some? && Blank(old(title)) ==> record.None? && notice == TitleRequired && unchanged(this)
      ensures user.Some? && !Blank(old(title)) ==> record == Some(NewStreamRecord(user.value.id, old(title), old(description)))
      ensures isLive <==> old(isLive) || (record.Some? && insertError.None?)
      ensures record.Some? ==> notice == (if insertError.None? then StreamStarted else StartFailed)
      ensures isOpen == old(isOpen) && title == old(title) && description == old(description)
      ensures hasPermissions == old(hasPermissions) && stream == old(stream)
      ensures videoEnabled == old(videoEnabled) && audioEnabled == old(audioEnabled)
    {
      if user.None? {
        return None, LoginRequired;
      }
      var refused := Blank(title);
      if refused {
        return None, TitleRequired;
      }
      record := Some(NewStreamRecord(user.value.id, title, description));
      if insertError.None? {
        isLive := true;
        notice := StreamStarted;
      } else {
        notice := StartFailed;
      }
    }

    /** `stopLiveStream`: the update's error is only logged, so the dialog
        is stopped, closed and cleared whatever `updateError` is. */
    method StopLiveStream(user: Option<User>, updateError: Option<string>) returns (update: StopUpdate, notice: Notice)
      requires Valid()
      modifies this, TrackSet()
      ensures Valid()
      ensures update == StopUpdate(if user.Some? then Some(user.value.id) else None)
      ensures forall t :: t in old(TrackSet()) ==> t.stopped && t.enabled == old(t.enabled)
      ensures stream == None && !hasPermissions && !isLive
      ensures !isOpen && title == "" && description == ""
      ensures videoEnabled == old(videoEnabled) && audioEnabled == old(audioEnabled)
      ensures notice == StreamEnded
    {
      update := StopUpdate(if user.Some? then Some(user.value.id) else None);
      StopStream();
      isOpen := false;
      title := "";
      description := "";
      notice := StreamEnded;
    }

    /** `toggleVideo`: flips the first video track and mirrors it into
        `videoEnabled`; without such a track nothing changes. */
    method ToggleVideo()
      requires Valid()
      modifies this, AsSet(FirstVideoTrack())
      ensures Valid()
      ensures old(FirstVideoTrack()).None? ==> unchanged(this)
      ensures old(FirstVideoTrack()).Some? ==>
        var t := old(FirstVideoTrack()).value;
        t.enabled == !old(t.enabled) && videoEnabled == t.enabled && t.stopped == old(t.stopped)
      ensures isOpen == old(isOpen) && title == old(title) && description == old(description) && isLive == old(isLive)
      ensures hasPermissions == old(hasPermissions) && stream == old(stream) && audioEnabled == old(audioEnabled)
    {
      var track := FirstVideoTrack();
      if track.Some? {
        track.value.enabled := !track.value.enabled;
        videoEnabled := track.value.enabled;
      }
    }

    /** `toggleAudio`: the same for the first audio track and
        `audioEnabled`. */
    method ToggleAudio()
      requires Valid()
      modifies this, AsSet(FirstAudioTrack())
      ensures Valid()
      ensures old(FirstAudioTrack()).None? ==> unchanged(this)
      ensures old(FirstAudioTrack()).Some? ==>
        var t := old(FirstAudioTrack()).value;
        t.enabled == !old(t.enabled) && audioEnabled == t.enabled && t.stopped == old(t.stopped)
      ensures isOpen == old(isOpen) && title == old(title) && description == old(description) && isLive == old(isLive)
      ensures hasPermissions == old(hasPermissions) && stream == old(stream) && videoEnabled == old(videoEnabled)
    {
      var track := FirstAudioTrack();
      if track.Some? {
        track.value.enabled := !track.value.enabled;
        audioEnabled := track.value.enabled;
      }
    }
  }

  /** One broadcast from a fresh dialog: the panels go permissions, preview,
      live and back to permissions, and ending it closes and clears the
      dialog and stops the camera and microphone. */
  method BroadcastOnce(user: User, title: string) returns (panels: seq<Panel>, record: Option<StreamRecord>, cleared: bool)
    requires !Blank(title)
    ensures panels == [PermissionsPanel, PreviewPanel, LivePanel, PermissionsPanel]
    ensures record == Some(NewStreamRecord(user.id, title, ""))
    ensures cleared
  {
    var dialog := new LiveStreamDialog();
    dialog.SetOpen(true);
    var before := dialog.Panel();
    var camera := new MediaTrack(VideoKind);
    var microphone := new MediaTrack(AudioKind);
    var stream := MediaStream([camera], [microphone]);
    var request, notice := dialog.RequestPermissions(Some(stream));
    assert dialog.stream == Some(stream) && !dialog.isLive;
    dialog.SetTitle(title);
    var preview := dialog.Panel();
    record, notice := dialog.StartLiveStream(Some(user), None);
    assert dialog.isLive && dialog.stream == Some(stream);
    var live := dialog.Panel();
    assert Tracks(stream) == [camera, microphone];
    assert camera in dialog.TrackSet() && microphone in dialog.TrackSet();
    var update;
    update, notice := dialog.StopLiveStream(Some(user), None);
    var after := dialog.Panel();
    panels := [before, preview, live, after];
    cleared := !dialog.isOpen && dialog.title == "" && camera.stopped && microphone.stopped;
  }

  /** Muting the camera in the preview turns the track off and the icon to
      "off"; doing it again turns both back on. */
  method MuteAndUnmute() returns (afterFirst: bool, afterSecond: bool, flagAfterFirst: bool)
    ensures !afterFirst && afterSecond && !flagAfterFirst
  {
    var dialog := new LiveStreamDialog();
    var camera := new MediaTrack(VideoKind);
    var request, notice := dialog.RequestPermissions(Some(MediaStream([camera], [])));
    dialog.ToggleVideo();
    afterFirst, flagAfterFirst := camera.enabled, dialog.videoEnabled;
    dialog.ToggleVideo();
    afterSecond := camera.enabled;
  }

  /** Muting both tracks in the preview and pressing Cancel leaves both
      flags off, so the next "Grant Permissions" asks for nothing and is
      refused whatever the user would allow: the dialog stays on the
      permissions panel until it is mounted again. */
  method MuteBothThenCancel(retry: MediaStream) returns (request: Constraints, notice: Notice, panel: Panel)
    requires WellFormed(retry)
    ensures request == Constraints(false, false)
    ensures notice == PermissionDenied && panel == PermissionsPanel
  {
    var dialog := new LiveStreamDialog();
    var camera := new MediaTrack(VideoKind);
    var microphone := new MediaTrack(AudioKind);
    request, notice := dialog.RequestPermissions(Some(MediaStream([camera], [microphone])));
    assert dialog.FirstVideoTrack() == Some(camera);
    dialog.ToggleVideo();
    assert dialog.FirstAudioTrack() == Some(microphone);
    dialog.ToggleAudio();
    assert !dialog.videoEnabled && !dialog.audioEnabled;
    dialog.StopStream();
    request, notice := dialog.RequestPermissions(Some(retry));
    panel := dialog.Panel();
  }
}
