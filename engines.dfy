/**
  The two streaming engines as the player sees them. Their internals (manifest
  parsing, adaptive bitrate, buffering) are not modelled: an engine is the
  fields the player reads and writes plus a log of the calls it receives.
 */
module Engines {

  /** An HLS level; a level without a height is height 0. */
  datatype Level = Level(height: nat)

  /** A DASH video representation. */
  datatype Bitrate = Bitrate(height: nat, qualityIndex: nat)

  /** The `type` of an HLS error. */
  datatype ErrorType = NetworkError | MediaError | OtherError

  datatype HlsCall = AttachMedia | LoadSource(url: string) | StartLoad | RecoverMediaError | Destroy

  class HlsEngine {
    /** `levels`, as the engine publishes them once the manifest is parsed. */
    var levels: seq<Level>
    var currentLevel: int
    var audioTrack: int
    var destroyed: bool
    var calls: seq<HlsCall>

    /** A fresh engine with no levels yet and automatic level and audio selection. */
    constructor()
      ensures levels == [] && currentLevel == -1 && audioTrack == -1
      ensures !destroyed && calls == []
    {
      levels := [];
      currentLevel := -1;
      audioTrack := -1;
      destroyed := false;
      calls := [];
    }

    method Call(c: HlsCall)
      modifies this
      ensures calls == old(calls) + [c]
      ensures levels == old(levels) && currentLevel == old(currentLevel) && audioTrack == old(audioTrack)
      ensures destroyed == (old(destroyed) || c.Destroy?)
    {
      calls := calls + [c];
      if c.Destroy? {
        destroyed := true;
      }
    }

    /** The engine has parsed a manifest offering these levels. */
    method ManifestLoaded(levels: seq<Level>)
      modifies this
      ensures this.levels == levels
      ensures calls == old(calls) && currentLevel == old(currentLevel) && audioTrack == old(audioTrack)
      ensures destroyed == old(destroyed)
    {
      this.levels := levels;
    }
  }

  datatype DashCall = Initialize | AttachView | AttachSource(url: string) | SetQualityFor(qualityIndex: nat) | Reset

  class DashEngine {
    /** `getBitrateInfoListFor('video')`. */
    var bitrates: seq<Bitrate>
    /** The video quality index last set. */
    var videoQuality: int
    var isReset: bool
    var calls: seq<DashCall>

    constructor()
      ensures bitrates == [] && videoQuality == -1 && !isReset && calls == []
    {
      bitrates := [];
      videoQuality := -1;
      isReset := false;
      calls := [];
    }

    method Call(c: DashCall)
      modifies this
      ensures calls == old(calls) + [c]
      ensures bitrates == old(bitrates)
      ensures videoQuality == (if c.SetQualityFor? then c.qualityIndex else old(videoQuality))
      ensures isReset == (old(isReset) || c.Reset?)
    {
      calls := calls + [c];
      if c.SetQualityFor? {
        videoQuality := c.qualityIndex;
      }
      if c.Reset? {
        isReset := true;
      }
    }

    /** The engine has loaded a manifest offering these representations. */
    method StreamLoaded(bitrates: seq<Bitrate>)
      modifies this
      ensures this.bitrates == bitrates
      ensures calls == old(calls) && videoQuality == old(videoQuality) && isReset == old(isReset)
    {
      this.bitrates := bitrates;
    }
  }
}
