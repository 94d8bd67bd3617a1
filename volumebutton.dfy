/** The volume button: which icon it shows, what a click does, the slider and the tooltip. */
module VolumeButton {
  import opened Wrappers
  import opened Media
  import opened Utils
  import opened UseHotKey

  datatype VolumeIcon = VolumeMuted | VolumeOne | VolumeTwo | VolumeThree

  /** The icon table, in ascending order of threshold as the `sort` before the search leaves it. */
  function Thresholds(): seq<(real, VolumeIcon)> {
    [(0.0, VolumeMuted), (0.25, VolumeOne), (0.5, VolumeTwo), (1.0, VolumeThree)]
  }

  /** The icon for a volume, stated band by band. */
  function IconFor(volume: real): VolumeIcon {
    if volume <= 0.0 then VolumeMuted
    else if volume <= 0.25 then VolumeOne
    else if volume <= 0.5 then VolumeTwo
    else if volume <= 1.0 then VolumeThree
    else VolumeMuted
  }

  lemma ThresholdsAscending()
    ensures forall i, j :: 0 <= i < j < |Thresholds()| ==> Thresholds()[i].0 < Thresholds()[j].0
  {
  }

  /** The first threshold the volume does not exceed picks the icon; above the last one, muted. */
  method VolumeComponent(volume: real) returns (icon: VolumeIcon)
    ensures icon == IconFor(volume)
  {
    var entries := Thresholds();
    for i := 0 to |entries|
      invariant forall j :: 0 <= j < i ==> volume > entries[j].0
    {
      var (key, value) := entries[i];
      if volume <= key {
        assert i == 0 || volume > entries[i - 1].0;
        return value;
      }
    }
    return VolumeMuted;
  }

  /** The muted icon is shown exactly for silence and for volumes beyond 1. */
  lemma MutedIconIff(volume: real)
    ensures IconFor(volume) == VolumeMuted <==> volume <= 0.0 || volume > 1.0
  {
  }

  /** Louder never shows a quieter icon, up to full volume. */
  lemma IconMonotone(a: real, b: real)
    requires 0.0 < a <= b <= 1.0
    ensures IconRank(IconFor(a)) <= IconRank(IconFor(b))
  {
  }

  function IconRank(icon: VolumeIcon): nat {
    match icon
    case VolumeMuted => 0
    case VolumeOne => 1
    case VolumeTwo => 2
    case VolumeThree => 3
  }

  class VolumeButton {
    /** The ref `previousVolume`. */
    var previousVolume: real

    /** The ref starts at the volume in the status record when the button is created. */
    constructor(statusVolume: real)
      ensures previousVolume == statusVolume
    {
      previousVolume := statusVolume;
    }

    /** `handleClick`: nothing without an element, else one mute toggle. */
    method HandleClick(videoEl: MediaElement?)
      modifies this, videoEl
      ensures videoEl == null ==> previousVolume == old(previousVolume)
      ensures videoEl != null ==>
                Volumes(videoEl.volume, previousVolume) == ToggleMute(Volumes(old(videoEl.volume), old(previousVolume)))
      ensures videoEl != null ==>
                videoEl.currentTime == old(videoEl.currentTime) && videoEl.src == old(videoEl.src) &&
                videoEl.calls == old(videoEl.calls)
    {
      if videoEl == null {
        return;
      }
      if videoEl.volume == 0.0 {
        videoEl.volume := previousVolume;
      } else {
        previousVolume := videoEl.volume;
        videoEl.volume := 0.0;
      }
    }
  }

  /** `handleVolumeChange(percent)`: the slider percent becomes the volume, which the slider shows back as that percent. */
  method HandleVolumeChange(videoEl: MediaElement?, percent: real)
    modifies videoEl
    ensures videoEl != null ==> videoEl.volume == percent / 100.0 && videoEl.volume * 100.0 == percent
    ensures videoEl != null ==>
              videoEl.currentTime == old(videoEl.currentTime) && videoEl.src == old(videoEl.src) &&
              videoEl.calls == old(videoEl.calls)
  {
    if videoEl == null {
      return;
    }
    videoEl.volume := percent / 100.0;
  }

  /** The tooltip template: the unmute text for a silent element, else the mute text. */
  function TooltipTemplate(volume: real, unmuteText: string, muteText: string): (t: string)
    ensures t == unmuteText <==> volume == 0.0 || unmuteText == muteText
    ensures volume != 0.0 ==> t == muteText
  {
    if volume == 0.0 then unmuteText else muteText
  }

  /** The tooltip: the template with `{{shortcut}}` replaced by the volume hotkey's keys. */
  function Tooltip(volume: real, unmuteText: string, muteText: string, hotkey: Option<HotKeyEntry>): string {
    var keys := match hotkey case None => None case Some(h) => Some(h.hotKey);
    Interpolated(TooltipTemplate(volume, unmuteText, muteText), [("shortcut", ParseHotKey(keys, DefaultSeparator))])
  }
}
