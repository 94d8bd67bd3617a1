/**
  The media element the player drives, reduced to the fields the decision
  layer reads and writes, and the mute toggle shared by the volume hotkey and
  the volume button.
 */
module Media {

  /** The calls the player makes on the element; their effect on playback is the browser's. */
  datatype MediaCall = LoadCall | PlayCall | PauseCall

  class MediaElement {
    var volume: real
    var currentTime: real
    var src: string
    /** Every `load()`, `play()` and `pause()` call, in order. */
    var calls: seq<MediaCall>

    constructor(volume: real, currentTime: real, src: string)
      ensures this.volume == volume && this.currentTime == currentTime && this.src == src
      ensures calls == []
    {
      this.volume := volume;
      this.currentTime := currentTime;
      this.src := src;
      calls := [];
    }

    method Load()
      modifies this
      ensures calls == old(calls) + [LoadCall]
      ensures volume == old(volume) && currentTime == old(currentTime) && src == old(src)
    {
      calls := calls + [LoadCall];
    }

    method Play()
      modifies this
      ensures calls == old(calls) + [PlayCall]
      ensures volume == old(volume) && currentTime == old(currentTime) && src == old(src)
    {
      calls := calls + [PlayCall];
    }

    method Pause()
      modifies this
      ensures calls == old(calls) + [PauseCall]
      ensures volume == old(volume) && currentTime == old(currentTime) && src == old(src)
    {
      calls := calls + [PauseCall];
    }
  }

  /** The volume and the remembered volume after one mute toggle. */
  datatype Volumes = Volumes(volume: real, previous: real)

  /**
    One press of mute: a silent element gets the remembered volume back (which
    stays remembered); otherwise the volume is remembered and set to 0.
   */
  function ToggleMute(v: Volumes): (r: Volumes)
    ensures v.volume == 0.0 ==> r.volume == v.previous && r.previous == v.previous
    ensures v.volume != 0.0 ==> r.volume == 0.0 && r.previous == v.volume
  {
    if v.volume == 0.0 then Volumes(v.previous, v.previous) else Volumes(0.0, v.volume)
  }

  /** Two presses from an audible volume bring that volume back. */
  lemma ToggleTwiceRestoresVolume(v: Volumes)
    requires v.volume != 0.0
    ensures ToggleMute(ToggleMute(v)) == Volumes(v.volume, v.volume)
  {
  }

  /** Two presses from silence, with an audible volume remembered, leave everything as it was. */
  lemma ToggleTwiceFromSilence(v: Volumes)
    requires v.volume == 0.0 && v.previous != 0.0
    ensures ToggleMute(ToggleMute(v)) == v
  {
  }

  /** A press never loses the audible volume: either it is playing or it is remembered. */
  lemma ToggleKeepsAudibleVolume(v: Volumes)
    requires v.volume != 0.0 || v.previous != 0.0
    ensures var r := ToggleMute(v); r.volume != 0.0 || r.previous != 0.0
  {
  }
}
