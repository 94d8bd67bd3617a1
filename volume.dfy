/** The mute hotkey: its name, default key and the volume it remembers between presses. */
module VolumeHotKey {
  import opened Wrappers
  import opened Hotkey
  import opened Media

  const DefaultKey: Shortcut := Single("m")

  class VolumeHotKey {
    /** The closure variable `previousVolume`. */
    var previousVolume: real
    const name: string
    const hotKey: Shortcut

    /** `volumeHotKey(hotKey = 'm')`. */
    constructor(hotKey: Option<Shortcut>)
      ensures previousVolume == 1.0
      ensures name == "volume"
      ensures this.hotKey == hotKey.GetOr(DefaultKey)
    {
      previousVolume := 1.0;
      name := "volume";
      this.hotKey := hotKey.GetOr(DefaultKey);
    }

    /** `fn(videoEl)`: one press of the key. */
    method Press(videoEl: MediaElement)
      modifies this, videoEl
      ensures Volumes(videoEl.volume, previousVolume) == ToggleMute(Volumes(old(videoEl.volume), old(previousVolume)))
      ensures videoEl.currentTime == old(videoEl.currentTime) && videoEl.src == old(videoEl.src)
      ensures videoEl.calls == old(videoEl.calls)
    {
      if videoEl.volume == 0.0 {
        videoEl.volume := previousVolume;
      } else {
        previousVolume := videoEl.volume;
        videoEl.volume := 0.0;
      }
    }
  }

  /** Two presses starting from volume `v` bring `v` back. */
  method PressTwice(key: VolumeHotKey, videoEl: MediaElement)
    requires videoEl.volume != 0.0
    modifies key, videoEl
    ensures videoEl.volume == old(videoEl.volume)
  {
    key.Press(videoEl);
    key.Press(videoEl);
    ToggleTwiceRestoresVolume(Volumes(old(videoEl.volume), old(key.previousVolume)));
  }
}
