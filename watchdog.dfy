/** The starvation rule of `Movie::starvation`: each present track reports
    whether it is starving, an absent track counts as starving, and the stop
    condition is raised only when every track is starving. */
module Watchdog {
  import opened MediaTypes

  /** Whether `starvation` sets the stop condition to 1. */
  function StopRequested(t: Tracks, audioStarving: bool, videoStarving: bool): (stop: bool)
    ensures stop <==> (t.hasAudio ==> audioStarving) && (t.hasVideo ==> videoStarving)
  {
    var audio := if t.hasAudio then audioStarving else true;
    var video := if t.hasVideo then videoStarving else true;
    audio && video
  }

  /** With both tracks present, one track running dry is not enough to stop. */
  lemma OneStarvingTrackDoesNotStop(t: Tracks, audioStarving: bool, videoStarving: bool)
    requires t.hasAudio && t.hasVideo
    requires audioStarving != videoStarving
    ensures !StopRequested(t, audioStarving, videoStarving)
  {
  }

  /** Without audio, video starvation alone decides; without video, audio alone. */
  lemma SingleTrackDecides(t: Tracks, audioStarving: bool, videoStarving: bool)
    ensures !t.hasAudio && t.hasVideo ==> (StopRequested(t, audioStarving, videoStarving) <==> videoStarving)
    ensures t.hasAudio && !t.hasVideo ==> (StopRequested(t, audioStarving, videoStarving) <==> audioStarving)
  {
  }

  /** A movie with no track at all is always starving. */
  lemma NoTrackAlwaysStarves(t: Tracks, audioStarving: bool, videoStarving: bool)
    requires !t.hasAudio && !t.hasVideo
    ensures StopRequested(t, audioStarving, videoStarving)
  {
  }
}
