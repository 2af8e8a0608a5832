/** The playing-offset rule: a movie's position is the progress recorded at the
    last pause or seek, plus the time the overall timer has run since its last
    restart, but only while the movie is playing. */
module Clock {
  import opened MediaTypes

  /** `Movie::getPlayingOffset` over the three values it reads. */
  function Offset(status: Status, progressAtPause: int, elapsed: nat): (offset: int)
    ensures offset >= progressAtPause
    ensures status != Playing ==> offset == progressAtPause
  {
    if status == Playing then progressAtPause + elapsed else progressAtPause
  }

  /** While playing, the offset moves exactly as fast as the timer. */
  lemma OffsetFollowsTimerWhilePlaying(progressAtPause: int, elapsed: nat, d: nat)
    ensures Offset(Playing, progressAtPause, elapsed + d) == Offset(Playing, progressAtPause, elapsed) + d
  {
  }

  /** While playing, a later reading of the offset is never smaller. */
  lemma OffsetNonDecreasingWhilePlaying(progressAtPause: int, e1: nat, e2: nat)
    requires e1 <= e2
    ensures Offset(Playing, progressAtPause, e1) <= Offset(Playing, progressAtPause, e2)
  {
  }

  /** While paused or stopped, the timer does not affect the offset. */
  lemma OffsetFrozenUnlessPlaying(status: Status, progressAtPause: int, e1: nat, e2: nat)
    requires status != Playing
    ensures Offset(status, progressAtPause, e1) == Offset(status, progressAtPause, e2)
  {
  }

  /** Pausing a movie without audio adds the elapsed time to the progress, and
      resuming restarts the timer: the offset is continuous across both steps. */
  lemma PauseResumeWithoutAudioIsContinuous(progressAtPause: int, elapsed: nat, pausedFor: nat)
    ensures Offset(Paused, progressAtPause + elapsed, pausedFor) == Offset(Playing, progressAtPause, elapsed)
    ensures Offset(Playing, progressAtPause + elapsed, 0) == Offset(Playing, progressAtPause, elapsed)
  {
  }
}
