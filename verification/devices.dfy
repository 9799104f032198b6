/**
 * Device streams handed out by the browser (`getUserMedia`), reduced to what
 * the capture components do with them: hold them and stop their tracks.
 */
module Devices {

  /** A media stream; `tracks[i]` is true while track `i` is live. */
  class MediaStream {
    const tracks: array<bool>

    constructor (trackCount: nat)
      ensures fresh(tracks) && tracks.Length == trackCount
      ensures forall i :: 0 <= i < trackCount ==> tracks[i]
    {
      tracks := new bool[trackCount](_ => true);
    }

    /** Every track has been stopped: the device is released. */
    predicate Released()
      reads tracks
    {
      forall i :: 0 <= i < tracks.Length ==> !tracks[i]
    }

    /** `stream.getTracks().forEach(track => track.stop())`. */
    method StopTracks()
      modifies tracks
      ensures Released()
    {
      var i := 0;
      while i < tracks.Length
        invariant 0 <= i <= tracks.Length
        invariant forall j :: 0 <= j < i ==> !tracks[j]
      {
        tracks[i] := false;
        i := i + 1;
      }
    }
  }
}
