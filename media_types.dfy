/** Values shared by every part of the playback model: the playback status, the
    seeking methods, demuxed packets, the tracks a movie has, and the integer time
    arithmetic of `sfe::Movie` (all times are integer microseconds, as `sf::Time`
    stores them). */
module MediaTypes {

  datatype Option<+T> = None | Some(value: T)

  /** `sfe::Movie::Status`. */
  datatype Status = Stopped | Playing | Paused

  /** `sfe::Movie::SeekingMethod`. */
  datatype SeekingMethod = FastApproximativeSeeking | FastLossySeeking | SlowExactSeeking

  /** One packet read from the container: the stream it belongs to and its
      presentation timestamp. */
  datatype Packet = Packet(streamIndex: int, pts: int)

  /** Which tracks the open movie has and the container stream each one reads
      (`m_hasAudio`, `m_audio->getStreamID()`, `m_hasVideo`, `m_video->getStreamID()`). */
  datatype Tracks = Tracks(hasAudio: bool, audioID: int, hasVideo: bool, videoID: int)

  function Abs(x: int): (r: nat)
    ensures r == x || r == -x
  {
    if x < 0 then -x else x
  }

  /** `us / 1000` on a 64-bit C++ integer: the quotient is truncated toward zero,
      so a negative duration of less than a millisecond becomes 0 (Dafny's own `/`
      would give -1). */
  function Millis(us: int): (ms: int)
    ensures 0 <= us ==> 0 <= ms * 1000 <= us < ms * 1000 + 1000
    ensures us < 0 ==> us <= ms * 1000 <= 0 && ms * 1000 - 1000 < us
  {
    if us >= 0 then us / 1000 else -((-us) / 1000)
  }
}
