/**
  The playback status record and the media events that update it. Each
  event handler merges a fixed partial record into the status; the values it
  copies from the element (time, duration, volume, error message) are
  parameters.
 */
module VideoContext {
  import opened Wrappers

  /** `error` is `None` for JavaScript `null`. */
  datatype VideoState = VideoState(
    currentTime: real,
    duration: real,
    ended: bool,
    paused: bool,
    volume: real,
    buffering: bool,
    error: Option<string>,
    seeking: bool)

  function DefaultState(): VideoState {
    VideoState(
      currentTime := 0.0, duration := 0.0, ended := false, paused := true,
      volume := 1.0, buffering := true, error := Some(""), seeking := false)
  }

  /** A `Partial<VideoState>`: `None` for a field the update does not name. */
  datatype Patch = Patch(
    currentTime: Option<real>,
    duration: Option<real>,
    ended: Option<bool>,
    paused: Option<bool>,
    volume: Option<real>,
    buffering: Option<bool>,
    error: Option<Option<string>>,
    seeking: Option<bool>)

  function NoChange(): Patch {
    Patch(None, None, None, None, None, None, None, None)
  }

  /** `{ ...prev, ...state }`: the named fields replaced, the others kept. */
  function Merge(prev: VideoState, p: Patch): (r: VideoState)
    ensures r.currentTime == p.currentTime.GetOr(prev.currentTime)
    ensures r.duration == p.duration.GetOr(prev.duration)
    ensures r.ended == p.ended.GetOr(prev.ended)
    ensures r.paused == p.paused.GetOr(prev.paused)
    ensures r.volume == p.volume.GetOr(prev.volume)
    ensures r.buffering == p.buffering.GetOr(prev.buffering)
    ensures r.error == p.error.GetOr(prev.error)
    ensures r.seeking == p.seeking.GetOr(prev.seeking)
  {
    VideoState(
      p.currentTime.GetOr(prev.currentTime), p.duration.GetOr(prev.duration), p.ended.GetOr(prev.ended),
      p.paused.GetOr(prev.paused), p.volume.GetOr(prev.volume), p.buffering.GetOr(prev.buffering),
      p.error.GetOr(prev.error), p.seeking.GetOr(prev.seeking))
  }

  /** The later spread wins: `{ ...{ ...s, ...p }, ...q }` is `{ ...s, ...{ ...p, ...q } }`. */
  function Then(p: Patch, q: Patch): Patch {
    Patch(
      if q.currentTime.Some? then q.currentTime else p.currentTime,
      if q.duration.Some? then q.duration else p.duration,
      if q.ended.Some? then q.ended else p.ended,
      if q.paused.Some? then q.paused else p.paused,
      if q.volume.Some? then q.volume else p.volume,
      if q.buffering.Some? then q.buffering else p.buffering,
      if q.error.Some? then q.error else p.error,
      if q.seeking.Some? then q.seeking else p.seeking)
  }

  lemma MergeNothing(s: VideoState)
    ensures Merge(s, NoChange()) == s
  {
  }

  lemma MergeThen(s: VideoState, p: Patch, q: Patch)
    ensures Merge(Merge(s, p), q) == Merge(s, Then(p, q))
  {
  }

  /** Applying the same update twice is the same as applying it once. */
  lemma MergeIdempotent(s: VideoState, p: Patch)
    ensures Merge(Merge(s, p), p) == Merge(s, p)
  {
    MergeThen(s, p, p);
    assert Then(p, p) == p;
  }

  const FallbackError: string := "Something went wrong with video"

  /** `videoEl.error?.message || 'Something went wrong with video'`: never empty. */
  function ErrorText(message: Option<string>): (r: string)
    ensures |r| > 0
    ensures message.Some? && message.value != "" ==> r == message.value
    ensures message.None? || message.value == "" ==> r == FallbackError
  {
    if message.Some? && message.value != "" then message.value else FallbackError
  }

  /** The media events listened to; `play` and `playing` share one handler. */
  datatype MediaEvent =
    | Waiting
    | LoadedData(currentTime: real, duration: real)
    | PlayEvent
    | Playing
    | Pause
    | TimeUpdate(currentTime: real, duration: real)
    | Ended
    | VolumeChange(volume: real)
    | ErrorEvent(message: Option<string>)

  /** The partial record each event's handler passes to `updateState`. */
  function EventPatch(e: MediaEvent): Patch {
    match e
    case Waiting => NoChange().(buffering := Some(true))
    case LoadedData(t, d) =>
      NoChange().(currentTime := Some(t), duration := Some(d), buffering := Some(false), error := Some(None))
    case PlayEvent => NoChange().(paused := Some(false), buffering := Some(false))
    case Playing => NoChange().(paused := Some(false), buffering := Some(false))
    case Pause => NoChange().(paused := Some(true))
    case TimeUpdate(t, d) =>
      NoChange().(currentTime := Some(t), duration := Some(d), buffering := Some(false), error := Some(None),
                  paused := Some(false))
    case Ended => NoChange().(ended := Some(true), paused := Some(true))
    case VolumeChange(v) => NoChange().(volume := Some(v))
    case ErrorEvent(m) => NoChange().(error := Some(Some(ErrorText(m))))
  }

  /** What an event leaves behind, field by field. */
  lemma EventEffects(s: VideoState, e: MediaEvent)
    ensures e.Waiting? ==> Merge(s, EventPatch(e)) == s.(buffering := true)
    ensures e.Pause? ==> Merge(s, EventPatch(e)) == s.(paused := true)
    ensures e.PlayEvent? || e.Playing? ==> Merge(s, EventPatch(e)) == s.(paused := false, buffering := false)
    ensures e.LoadedData? ==>
              Merge(s, EventPatch(e)) == s.(currentTime := e.currentTime, duration := e.duration, buffering := false, error := None)
    ensures e.TimeUpdate? ==>
              Merge(s, EventPatch(e)) ==
              s.(currentTime := e.currentTime, duration := e.duration, buffering := false, error := None, paused := false)
    ensures e.Ended? ==> Merge(s, EventPatch(e)) == s.(ended := true, paused := true)
    ensures e.VolumeChange? ==> Merge(s, EventPatch(e)) == s.(volume := e.volume)
    ensures e.ErrorEvent? ==> Merge(s, EventPatch(e)) == s.(error := Some(ErrorText(e.message)))
  {
  }

  /** No event touches `seeking`, and only `ended` sets `ended`. */
  lemma EventsKeepSeeking(s: VideoState, e: MediaEvent)
    ensures Merge(s, EventPatch(e)).seeking == s.seeking
    ensures !e.Ended? ==> Merge(s, EventPatch(e)).ended == s.ended
  {
  }

  /** A loaded or progressing video is no longer buffering and reports no error. */
  lemma ProgressClearsErrorAndBuffering(s: VideoState, e: MediaEvent)
    requires e.LoadedData? || e.TimeUpdate?
    ensures !Merge(s, EventPatch(e)).buffering && Merge(s, EventPatch(e)).error.None?
  {
  }

  /** The status record of the provider. */
  class VideoStore {
    var videoState: VideoState
    /**
      Whether the HLS engine ref was set when the provider mounted. The
      effects that copy it and attach the error listener run once, so an
      engine created later is never listened to.
     */
    const hlsAtMount: bool

    constructor(hlsAtMount: bool)
      ensures videoState == DefaultState() && this.hlsAtMount == hlsAtMount
    {
      videoState := DefaultState();
      this.hlsAtMount := hlsAtMount;
    }

    /** `updateState(state)`. */
    method UpdateState(p: Patch)
      modifies this
      ensures videoState == Merge(old(videoState), p)
    {
      videoState := Merge(videoState, p);
    }

    method HandleWaiting()
      modifies this
      ensures videoState == old(videoState).(buffering := true)
    {
      UpdateState(NoChange().(buffering := Some(true)));
    }

    method HandleLoadedData(currentTime: real, duration: real)
      modifies this
      ensures videoState == old(videoState).(currentTime := currentTime, duration := duration, buffering := false, error := None)
    {
      UpdateState(NoChange().(currentTime := Some(currentTime), duration := Some(duration), buffering := Some(false),
                              error := Some(None)));
    }

    /** The handler of both `play` and `playing`. */
    method HandlePlay()
      modifies this
      ensures videoState == old(videoState).(paused := false, buffering := false)
    {
      UpdateState(NoChange().(paused := Some(false), buffering := Some(false)));
    }

    method HandlePause()
      modifies this
      ensures videoState == old(videoState).(paused := true)
    {
      UpdateState(NoChange().(paused := Some(true)));
    }

    method HandleTimeupdate(currentTime: real, duration: real)
      modifies this
      ensures videoState ==
              old(videoState).(currentTime := currentTime, duration := duration, buffering := false, error := None,
                               paused := false)
    {
      UpdateState(NoChange().(currentTime := Some(currentTime), duration := Some(duration), buffering := Some(false),
                              error := Some(None), paused := Some(false)));
    }

    method HandleEnded()
      modifies this
      ensures videoState == old(videoState).(ended := true, paused := true)
    {
      UpdateState(NoChange().(ended := Some(true), paused := Some(true)));
    }

    method HandleVolumeChange(volume: real)
      modifies this
      ensures videoState == old(videoState).(volume := volume)
    {
      UpdateState(NoChange().(volume := Some(volume)));
    }

    method HandleError(message: Option<string>)
      modifies this
      ensures videoState == old(videoState).(error := Some(ErrorText(message)))
    {
      var text := if message.Some? && message.value != "" then message.value else FallbackError;
      UpdateState(NoChange().(error := Some(Some(text))));
    }

    /**
      An HLS error: the engine's `details` text becomes the error, provided
      the listener was attached at mount; otherwise nothing hears it.
     */
    method HandleHlsError(details: string)
      modifies this
      ensures hlsAtMount ==> videoState == old(videoState).(error := Some(details))
      ensures !hlsAtMount ==> videoState == old(videoState)
    {
      if hlsAtMount {
        UpdateState(NoChange().(error := Some(Some(details))));
      }
    }

    /** The listener for an event calls that event's handler, which applies that event's patch. */
    method OnEvent(e: MediaEvent)
      modifies this
      ensures videoState == Merge(old(videoState), EventPatch(e))
    {
      match e {
        case Waiting => HandleWaiting();
        case LoadedData(t, d) => HandleLoadedData(t, d);
        case PlayEvent => HandlePlay();
        case Playing => HandlePlay();
        case Pause => HandlePause();
        case TimeUpdate(t, d) => HandleTimeupdate(t, d);
        case Ended => HandleEnded();
        case VolumeChange(v) => HandleVolumeChange(v);
        case ErrorEvent(m) => HandleError(m);
      }
    }
  }
}
