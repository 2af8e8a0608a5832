/** The three seeking strategies of `Movie::seekToPosition`.

    The demuxer's `av_seek_frame` is an oracle: for a request (stream, target in
    the stream's time base, backward flag, any-frame flag) it either fails or lands
    the demuxer on a new read position, after which the video decoder yields a
    known sequence of image timestamps. `av_rescale_q` from the universal time base
    to a stream's time base is an oracle as well. `loadNextImage` decodes the next
    of those images and makes its timestamp the video track's latest one
    (`getLatestPacketTimestamp`, in milliseconds). Each strategy returns the new
    demuxer and decoder position together with the `av_seek_frame` calls it made;
    after every call that succeeded the source flushes the codec's buffers. */
module Seeking {
  import opened MediaTypes

  /** `AV_TIME_BASE`: one second in the demuxer's universal time base (µs). */
  const AV_TIME_BASE: int := 1000000

  /** `seek_pos` after `j` rewinds of one second from `position`. */
  function RewindPosition(position: int, j: int): (seekPos: int)
    ensures j >= 1 ==> seekPos < position
    ensures seekPos <= 0 <==> position <= j * AV_TIME_BASE
  {
    position - j * AV_TIME_BASE
  }

  /** Each rewind moves the seek position back by one more second. */
  lemma RewindPositionStep(position: int, j: int)
    ensures RewindPosition(position, j + 1) == RewindPosition(position, j) - AV_TIME_BASE
    ensures RewindPosition(position, 1) == position - AV_TIME_BASE
  {
  }

  /** The largest distance, in the unit of the video track's latest timestamp
      (milliseconds), tolerated between a key-frame seek's landing and the target
      before the seek is repeated on any frame. */
  const KEY_FRAME_ERROR_LIMIT: int := 20000

  datatype SeekRequest = SeekRequest(stream: int, target: int, backward: bool, any: bool)
  datatype SeekResult = SeekFailed | Landed(readIndex: nat, images: seq<int>)
  datatype SeekCall = SeekCall(request: SeekRequest, succeeded: bool)
  datatype Demuxer = Demuxer(seek: SeekRequest -> SeekResult, rescale: (int, int) -> int)

  /** The video track's latest image timestamp and the timestamps of the images
      that successive `loadNextImage` calls will decode. */
  datatype VideoDecoder = VideoDecoder(latest: int, upcoming: seq<int>)
  /** The demuxer's read position (an index into the container's packets) and the
      video decoder. */
  datatype Playhead = Playhead(cursor: nat, video: VideoDecoder)
  datatype SeekRun = SeekRun(head: Playhead, calls: seq<SeekCall>)

  /** `loadNextImage`: decode the next image, if any, making its timestamp the
      latest one. */
  function LoadNextImage(v: VideoDecoder): (w: VideoDecoder)
    ensures v.upcoming != [] ==> [w.latest] + w.upcoming == v.upcoming
    ensures v.upcoming == [] ==> w == v
  {
    if v.upcoming == [] then v else VideoDecoder(v.upcoming[0], v.upcoming[1..])
  }

  /** One `av_seek_frame` call; on success the codec is flushed and the demuxer
      and decoder continue from where the seek landed. */
  function SeekFrame(dm: Demuxer, run: SeekRun, req: SeekRequest): (r: SeekRun)
    ensures r.calls == run.calls + [SeekCall(req, dm.seek(req).Landed?)]
    ensures r.head.video.latest == run.head.video.latest
    ensures dm.seek(req).SeekFailed? ==> r.head == run.head
    ensures dm.seek(req).Landed? ==>
      r.head.cursor == dm.seek(req).readIndex && r.head.video.upcoming == dm.seek(req).images
  {
    match dm.seek(req)
    case SeekFailed => SeekRun(run.head, run.calls + [SeekCall(req, false)])
    case Landed(i, images) =>
      SeekRun(Playhead(i, VideoDecoder(run.head.video.latest, images)), run.calls + [SeekCall(req, true)])
  }

  function Load(run: SeekRun): (r: SeekRun)
    ensures r.calls == run.calls
  {
    run.(head := run.head.(video := LoadNextImage(run.head.video)))
  }

  /** The first seek of every strategy: to `position` rescaled into the stream's
      time base, backward exactly when the target precedes the current offset. */
  function FirstRequest(dm: Demuxer, stream: int, position: int, offset: int, any: bool): (req: SeekRequest)
    ensures req.stream == stream && req.target == dm.rescale(stream, position)
    ensures req.backward <==> position < offset
    ensures req.any == any
  {
    SeekRequest(stream, dm.rescale(stream, position), position < offset, any)
  }

  /** The latest video timestamp after the seek `req` followed by one
      `loadNextImage`. */
  function Landing(dm: Demuxer, head: Playhead, req: SeekRequest): int
  {
    Load(SeekFrame(dm, SeekRun(head, []), req)).head.video.latest
  }

  /** The key frame index is not trusted when the landing is more than
      `KEY_FRAME_ERROR_LIMIT` away from `ref_position / 1000`. */
  function TooFar(landed: int, position: int): (far: bool)
    ensures far <==> landed < Millis(position) - KEY_FRAME_ERROR_LIMIT || landed > Millis(position) + KEY_FRAME_ERROR_LIMIT
  {
    Abs(landed - Millis(position)) > KEY_FRAME_ERROR_LIMIT
  }

  /** `(getWantedFrameTime() * 3).asMilliseconds()`. */
  function FrameThreshold(frameTime: int): (limit: int)
    ensures frameTime >= 0 ==> 0 <= limit * 1000 <= frameTime * 3 < limit * 1000 + 1000
    ensures frameTime < 0 ==> frameTime * 3 <= limit * 1000 <= 0
  {
    Millis(frameTime * 3)
  }

  /** Every call seeks in the given direction. */
  predicate Directed(calls: seq<SeekCall>, backward: bool)
  {
    forall i :: 0 <= i < |calls| ==> calls[i].request.backward == backward
  }

  /** Every call seeks the given stream. */
  predicate OnStream(calls: seq<SeekCall>, stream: int)
  {
    forall i :: 0 <= i < |calls| ==> calls[i].request.stream == stream
  }

  /** `calls[from..]` are the rewinds of the overshoot correction: the k-th of
      them (k from 1) is a key-frame seek to `position` moved back by k seconds. */
  predicate Rewinds(dm: Demuxer, stream: int, position: int, backward: bool, calls: seq<SeekCall>, from: nat)
  {
    forall i :: from <= i < |calls| ==>
      calls[i].request == SeekRequest(stream, dm.rescale(stream, RewindPosition(position, i - from + 1)), backward, false)
  }

  /** `Movie::doFastApproximativeSeeking`: a key-frame seek of the video track,
      one image decoded, and a second, any-frame seek to the same target when that
      image is too far from it; without video, one key-frame seek of the audio
      track; without either track, nothing. */
  function DoFastApproximativeSeeking(dm: Demuxer, t: Tracks, position: int, offset: int, head: Playhead): (r: SeekRun)
    ensures Directed(r.calls, position < offset)
    ensures OnStream(r.calls, if t.hasVideo then t.videoID else t.audioID)
    ensures t.hasVideo ==>
      && 1 <= |r.calls| <= 2
      && r.calls[0].request == FirstRequest(dm, t.videoID, position, offset, false)
      && r.head.video.latest == Landing(dm, head, r.calls[0].request)
      && (|r.calls| == 2 <==> TooFar(r.head.video.latest, position))
      && (|r.calls| == 2 ==> r.calls[1].request == r.calls[0].request.(any := true))
    ensures !t.hasVideo && t.hasAudio ==>
      r.calls == [SeekCall(FirstRequest(dm, t.audioID, position, offset, false), dm.seek(FirstRequest(dm, t.audioID, position, offset, false)).Landed?)]
    ensures !t.hasVideo && !t.hasAudio ==> r == SeekRun(head, [])
  {
    if t.hasVideo then
      var req := FirstRequest(dm, t.videoID, position, offset, false);
      var landed := Load(SeekFrame(dm, SeekRun(head, []), req));
      if TooFar(landed.head.video.latest, position) then SeekFrame(dm, landed, req.(any := true)) else landed
    else if t.hasAudio then
      SeekFrame(dm, SeekRun(head, []), FirstRequest(dm, t.audioID, position, offset, false))
    else
      SeekRun(head, [])
  }

  /** `Movie::doFastLossySeeking`: a single any-frame seek, followed for video by
      one decoded image. */
  function DoFastLossySeeking(dm: Demuxer, t: Tracks, position: int, offset: int, head: Playhead): (r: SeekRun)
    ensures Directed(r.calls, position < offset)
    ensures OnStream(r.calls, if t.hasVideo then t.videoID else t.audioID)
    ensures t.hasVideo || t.hasAudio ==>
      var req := FirstRequest(dm, if t.hasVideo then t.videoID else t.audioID, position, offset, true);
      r.calls == [SeekCall(req, dm.seek(req).Landed?)]
    ensures t.hasVideo ==> r.head.video.latest == Landing(dm, head, r.calls[0].request)
    ensures !t.hasVideo && !t.hasAudio ==> r == SeekRun(head, [])
  {
    if t.hasVideo then
      Load(SeekFrame(dm, SeekRun(head, []), FirstRequest(dm, t.videoID, position, offset, true)))
    else if t.hasAudio then
      SeekFrame(dm, SeekRun(head, []), FirstRequest(dm, t.audioID, position, offset, true))
    else
      SeekRun(head, [])
  }

  /** The any-frame retry of the approximative strategy is the lossy strategy's
      seek (the source's warning says it falls back to FastLossySeeking). */
  lemma ApproximativeRetryIsLossySeek(dm: Demuxer, t: Tracks, position: int, offset: int, head: Playhead)
    requires t.hasVideo
    requires |DoFastApproximativeSeeking(dm, t, position, offset, head).calls| == 2
    ensures DoFastApproximativeSeeking(dm, t, position, offset, head).calls[1]
            == DoFastLossySeeking(dm, t, position, offset, head).calls[0]
  {
  }

  /** The run after the first `k` rewinds of the overshoot correction, started
      from `run0`: the k-th seeks `position` moved back by k seconds and decodes
      one image. */
  function Rewound(dm: Demuxer, stream: int, position: int, backward: bool, run0: SeekRun, k: nat): (r: SeekRun)
    ensures |r.calls| == |run0.calls| + k
  {
    if k == 0 then run0
    else
      var prev := Rewound(dm, stream, position, backward, run0, k - 1);
      Load(SeekFrame(dm, prev, SeekRequest(stream, dm.rescale(stream, RewindPosition(position, k)), backward, false)))
  }

  /** The rewinds keep the earlier calls and add one key-frame seek per rewind,
      the k-th to `position` moved back by k seconds. */
  lemma {:induction false} RewoundCalls(dm: Demuxer, stream: int, position: int, backward: bool, run0: SeekRun, k: nat)
    ensures var r := Rewound(dm, stream, position, backward, run0, k);
      r.calls[..|run0.calls|] == run0.calls && Rewinds(dm, stream, position, backward, r.calls, |run0.calls|)
  {
    if k > 0 {
      RewoundCalls(dm, stream, position, backward, run0, k - 1);
      var prev := Rewound(dm, stream, position, backward, run0, k - 1);
      assert Rewound(dm, stream, position, backward, run0, k).calls
             == prev.calls + [SeekCall(SeekRequest(stream, dm.rescale(stream, RewindPosition(position, k)), backward, false),
                                       dm.seek(SeekRequest(stream, dm.rescale(stream, RewindPosition(position, k)), backward, false)).Landed?)];
    }
  }

  /** Rewinds go to the same stream and in the same direction as the run they
      extend, which they keep as a prefix. */
  lemma RewoundOnStream(dm: Demuxer, stream: int, position: int, backward: bool, run0: SeekRun, k: nat)
    requires Directed(run0.calls, backward) && OnStream(run0.calls, stream)
    ensures var r := Rewound(dm, stream, position, backward, run0, k);
      && r.calls[..|run0.calls|] == run0.calls
      && Directed(r.calls, backward) && OnStream(r.calls, stream)
  {
    RewoundCalls(dm, stream, position, backward, run0, k);
    var r := Rewound(dm, stream, position, backward, run0, k);
    forall i | 0 <= i < |run0.calls|
      ensures r.calls[i] == run0.calls[i]
    {
      assert r.calls[i] == r.calls[..|run0.calls|][i];
    }
  }

  /** The `do … while` rewind loop stops after exactly `n` rewinds: the n-th is the
      first whose seek position is no longer positive or whose image is at or
      before the target. */
  predicate RewindStopsAt(dm: Demuxer, stream: int, position: int, backward: bool, run0: SeekRun, n: nat)
  {
    && n >= 1
    && (RewindPosition(position, n) <= 0
        || Rewound(dm, stream, position, backward, run0, n).head.video.latest <= Millis(position))
    && forall j :: 1 <= j < n ==> RewindGoesOn(dm, stream, position, backward, run0, j)
  }

  /** After the j-th rewind the loop goes on: the seek position is still
      positive and the image still after the target. */
  predicate RewindGoesOn(dm: Demuxer, stream: int, position: int, backward: bool, run0: SeekRun, j: nat)
  {
    RewindPosition(position, j) > 0
    && Rewound(dm, stream, position, backward, run0, j).head.video.latest > Millis(position)
  }

  /** The rewind loop has a single stopping point. */
  lemma RewindStopIsUnique(dm: Demuxer, stream: int, position: int, backward: bool, run0: SeekRun, n1: nat, n2: nat)
    requires RewindStopsAt(dm, stream, position, backward, run0, n1)
    requires RewindStopsAt(dm, stream, position, backward, run0, n2)
    ensures n1 == n2
  {
    assert n1 < n2 ==> RewindGoesOn(dm, stream, position, backward, run0, n1);
    assert n2 < n1 ==> RewindGoesOn(dm, stream, position, backward, run0, n2);
  }

  /** The overshoot correction of `doSlowExactSeeking`: starting from
      `seek_pos = position`, move the seek position back one second, seek there
      and decode one image, until the position is no longer positive or the image
      is at or before the target. Returns the run, the last seek position and the
      number of rewinds. */
  method RewindUntilBefore(dm: Demuxer, stream: int, position: int, backward: bool, run0: SeekRun)
    returns (run: SeekRun, seekPos: int, n: nat)
    ensures RewindStopsAt(dm, stream, position, backward, run0, n)
    ensures run == Rewound(dm, stream, position, backward, run0, n)
    ensures seekPos == RewindPosition(position, n)
  {
    n := 1;
    seekPos := position - AV_TIME_BASE;
    RewindPositionStep(position, 0);
    run := Load(SeekFrame(dm, run0, SeekRequest(stream, dm.rescale(stream, seekPos), backward, false)));
    while seekPos > 0 && run.head.video.latest > Millis(position)
      invariant n >= 1 && run == Rewound(dm, stream, position, backward, run0, n)
      invariant seekPos == RewindPosition(position, n)
      invariant forall j :: 1 <= j < n ==> RewindGoesOn(dm, stream, position, backward, run0, j)
      decreases seekPos
    {
      n := n + 1;
      RewindPositionStep(position, n - 1);
      seekPos := seekPos - AV_TIME_BASE;
      run := Load(SeekFrame(dm, run, SeekRequest(stream, dm.rescale(stream, seekPos), backward, false)));
    }
  }

  /** The decoder after `k` calls of `loadNextImage`, when it has that many images. */
  function Decoded(v0: VideoDecoder, k: nat): (v: VideoDecoder)
    requires k <= |v0.upcoming|
    ensures v.upcoming == v0.upcoming[k..]
    ensures k > 0 ==> v.latest == v0.upcoming[k - 1]
  {
    if k == 0 then v0 else VideoDecoder(v0.upcoming[k - 1], v0.upcoming[k..])
  }

  /** The undershoot loop stops after exactly `k` images: every decoder state
      before the k-th was before `target`, and the k-th is at or past it, or the
      decoder has nothing left. */
  predicate DecodeStopsAt(v0: VideoDecoder, target: int, k: nat)
  {
    && k <= |v0.upcoming|
    && (Decoded(v0, k).latest >= target || k == |v0.upcoming|)
    && forall j :: 0 <= j < k ==> Decoded(v0, j).latest < target
  }

  /** The undershoot loop has a single stopping point. */
  lemma DecodeStopIsUnique(v0: VideoDecoder, target: int, k1: nat, k2: nat)
    requires DecodeStopsAt(v0, target, k1)
    requires DecodeStopsAt(v0, target, k2)
    ensures k1 == k2
  {
  }

  /** The undershoot correction of `doSlowExactSeeking`: decode one image after
      another while the latest timestamp is before `target`. It stops at the first
      image at or past the target, or when the decoder has no image left. Returns
      the decoder and the number of images decoded. */
  method DecodeUntil(v0: VideoDecoder, target: int) returns (v: VideoDecoder, k: nat)
    ensures DecodeStopsAt(v0, target, k)
    ensures v == Decoded(v0, k)
  {
    v := v0;
    k := 0;
    while v.latest < target && k < |v0.upcoming|
      invariant k <= |v0.upcoming| && v == Decoded(v0, k)
      invariant forall j :: 0 <= j < k ==> Decoded(v0, j).latest < target
      decreases |v0.upcoming| - k
    {
      v := LoadNextImage(v);
      k := k + 1;
    }
  }

  /** The corrections of `doSlowExactSeeking` after a key-frame landing that is
      not too far, given the number `n` of rewinds and `k` of images decoded by its
      two loops: no rewind when the landing is not after the target, else the
      rewind loop stopping after `n`; then, when the settled image is more than
      three frame times from the target, the undershoot loop stopping after `k`,
      else nothing more. */
  predicate Corrected(dm: Demuxer, stream: int, frameTime: int, position: int, backward: bool, landed: SeekRun,
                      n: nat, k: nat, run: SeekRun)
  {
    && (landed.head.video.latest <= Millis(position) ==> n == 0)
    && (landed.head.video.latest > Millis(position) ==> RewindStopsAt(dm, stream, position, backward, landed, n))
    && var settled := Rewound(dm, stream, position, backward, landed, n);
       if Abs(Millis(position) - settled.head.video.latest) > FrameThreshold(frameTime) then
         && DecodeStopsAt(settled.head.video, Millis(position), k)
         && run == settled.(head := settled.head.(video := Decoded(settled.head.video, k)))
       else
         k == 0 && run == settled
  }

  /** The corrections have a single outcome. */
  lemma CorrectedIsUnique(dm: Demuxer, stream: int, frameTime: int, position: int, backward: bool, landed: SeekRun,
                          n1: nat, k1: nat, run1: SeekRun, n2: nat, k2: nat, run2: SeekRun)
    requires Corrected(dm, stream, frameTime, position, backward, landed, n1, k1, run1)
    requires Corrected(dm, stream, frameTime, position, backward, landed, n2, k2, run2)
    ensures n1 == n2 && k1 == k2 && run1 == run2
  {
    if landed.head.video.latest > Millis(position) {
      RewindStopIsUnique(dm, stream, position, backward, landed, n1, n2);
    }
    var settled := Rewound(dm, stream, position, backward, landed, n1);
    if Abs(Millis(position) - settled.head.video.latest) > FrameThreshold(frameTime) {
      DecodeStopIsUnique(settled.head.video, Millis(position), k1, k2);
    }
  }

  /** The corrections after the key-frame landing `landed`: the rewind loop when
      the landing is after the target, then the undershoot loop when the settled
      image is more than three frame times away. */
  method CorrectLanding(dm: Demuxer, stream: int, frameTime: int, position: int, backward: bool, landed: SeekRun)
    returns (run: SeekRun, n: nat, k: nat)
    ensures Corrected(dm, stream, frameTime, position, backward, landed, n, k, run)
    ensures run.calls == Rewound(dm, stream, position, backward, landed, n).calls
  {
    n, k := 0, 0;
    run := landed;
    if landed.head.video.latest > Millis(position) {
      var seekPos;
      run, seekPos, n := RewindUntilBefore(dm, stream, position, backward, landed);
    }
    if Abs(Millis(position) - run.head.video.latest) > FrameThreshold(frameTime) {
      var v;
      v, k := DecodeUntil(run.head.video, Millis(position));
      run := run.(head := run.head.(video := v));
    }
  }

  /** What `doSlowExactSeeking` does, given the loop counts `n` and `k`: without
      video, or when the key-frame landing is too far, the approximative
      strategy; otherwise that landing followed by its corrections. */
  predicate SlowExactOutcome(dm: Demuxer, t: Tracks, frameTime: int, position: int, offset: int, head: Playhead,
                             n: nat, k: nat, run: SeekRun)
  {
    if !t.hasVideo then n == 0 && k == 0 && run == DoFastApproximativeSeeking(dm, t, position, offset, head)
    else
      var landed := Load(SeekFrame(dm, SeekRun(head, []), FirstRequest(dm, t.videoID, position, offset, false)));
      if TooFar(landed.head.video.latest, position) then
        n == 0 && k == 0 && run == DoFastApproximativeSeeking(dm, t, position, offset, head)
      else
        Corrected(dm, t.videoID, frameTime, position, position < offset, landed, n, k, run)
  }

  /** The outcome determines the run: whatever loop counts satisfy it, they give
      the same seeks and the same final state. */
  lemma SlowExactOutcomeIsUnique(dm: Demuxer, t: Tracks, frameTime: int, position: int, offset: int, head: Playhead,
                                 n1: nat, k1: nat, run1: SeekRun, n2: nat, k2: nat, run2: SeekRun)
    requires SlowExactOutcome(dm, t, frameTime, position, offset, head, n1, k1, run1)
    requires SlowExactOutcome(dm, t, frameTime, position, offset, head, n2, k2, run2)
    ensures n1 == n2 && k1 == k2 && run1 == run2
  {
    if t.hasVideo {
      var landed := Load(SeekFrame(dm, SeekRun(head, []), FirstRequest(dm, t.videoID, position, offset, false)));
      if !TooFar(landed.head.video.latest, position) {
        CorrectedIsUnique(dm, t.videoID, frameTime, position, position < offset, landed, n1, k1, run1, n2, k2, run2);
      }
    }
  }

  /** `Movie::doSlowExactSeeking`. With video: the approximative strategy's first
      seek; if its image is too far, the same any-frame retry; otherwise the
      corrections. Without video it is the approximative strategy's audio seek.
      Returns the number of rewinds and of images decoded by the two correction
      loops. */
  method DoSlowExactSeeking(dm: Demuxer, t: Tracks, frameTime: int, position: int, offset: int, head: Playhead)
    returns (run: SeekRun, n: nat, k: nat)
    ensures Directed(run.calls, position < offset)
    ensures OnStream(run.calls, if t.hasVideo then t.videoID else t.audioID)
    ensures t.hasVideo ==>
      && |run.calls| == n + (if TooFar(Landing(dm, head, FirstRequest(dm, t.videoID, position, offset, false)), position) then 2 else 1)
      && run.calls[0].request == FirstRequest(dm, t.videoID, position, offset, false)
    ensures SlowExactOutcome(dm, t, frameTime, position, offset, head, n, k, run)
  {
    n, k := 0, 0;
    if !t.hasVideo {
      run := DoFastApproximativeSeeking(dm, t, position, offset, head);
      return;
    }
    var req := FirstRequest(dm, t.videoID, position, offset, false);
    var landed := Load(SeekFrame(dm, SeekRun(head, []), req));
    if TooFar(landed.head.video.latest, position) {
      run := SeekFrame(dm, landed, req.(any := true));
      return;
    }
    run, n, k := CorrectLanding(dm, t.videoID, frameTime, position, position < offset, landed);
    RewoundOnStream(dm, t.videoID, position, position < offset, landed, n);
    assert run.calls[0] == run.calls[..1][0];
  }

  /** `Movie::seekToPosition`: run the chosen strategy. Whatever the strategy,
      every seek goes to the video stream when there is one (else the audio
      stream) and is backward exactly when the target precedes `offset`. */
  method SeekToPosition(dm: Demuxer, t: Tracks, frameTime: int, position: int, offset: int,
                        seekMethod: SeekingMethod, head: Playhead)
    returns (run: SeekRun)
    ensures Directed(run.calls, position < offset)
    ensures OnStream(run.calls, if t.hasVideo then t.videoID else t.audioID)
    ensures !t.hasVideo && !t.hasAudio ==> run == SeekRun(head, [])
    ensures seekMethod == FastApproximativeSeeking ==> run == DoFastApproximativeSeeking(dm, t, position, offset, head)
    ensures seekMethod == FastLossySeeking ==> run == DoFastLossySeeking(dm, t, position, offset, head)
    ensures seekMethod == SlowExactSeeking ==>
      exists n: nat, k: nat :: SlowExactOutcome(dm, t, frameTime, position, offset, head, n, k, run)
  {
    match seekMethod
    case FastApproximativeSeeking =>
      run := DoFastApproximativeSeeking(dm, t, position, offset, head);
    case FastLossySeeking =>
      run := DoFastLossySeeking(dm, t, position, offset, head);
    case SlowExactSeeking =>
      var n, k;
      run, n, k := DoSlowExactSeeking(dm, t, frameTime, position, offset, head);
  }
}
