/** Packet dispatch: `Movie::readFrameAndQueue` reads the next packet of the
    container and `Movie::saveFrame` routes it to the audio queue, the video queue
    or nowhere. The container is a finite sequence of packets read by a cursor. */
module Dispatch {
  import opened MediaTypes

  datatype Route = ToAudio | ToVideo | Dropped

  /** Where `saveFrame` sends a packet: the audio track is tried first, then the
      video track; a packet of any other stream is dropped. */
  function RouteOf(t: Tracks, p: Packet): (route: Route)
    ensures route == ToAudio ==> t.hasAudio && p.streamIndex == t.audioID
    ensures route == ToVideo ==> t.hasVideo && p.streamIndex == t.videoID
    ensures route == Dropped <==>
      !(t.hasAudio && p.streamIndex == t.audioID) && !(t.hasVideo && p.streamIndex == t.videoID)
  {
    if t.hasAudio && p.streamIndex == t.audioID then ToAudio
    else if t.hasVideo && p.streamIndex == t.videoID then ToVideo
    else Dropped
  }

  /** The part of a movie that packet reading changes: the end-of-file flag, the
      demuxer's read position and the pending packets of the two tracks. */
  datatype Reader = Reader(eof: bool, cursor: nat, audio: seq<Packet>, video: seq<Packet>)

  /** `[p]` when `p` goes to `route`, else nothing. */
  function Keep(t: Tracks, p: Packet, route: Route): seq<Packet>
  {
    if RouteOf(t, p) == route then [p] else []
  }

  /** `saveFrame` on values: append the packet to the queue it is routed to. */
  function Save(t: Tracks, r: Reader, p: Packet): (r': Reader)
    ensures r'.eof == r.eof && r'.cursor == r.cursor
    ensures r'.audio == r.audio + Keep(t, p, ToAudio) && r'.video == r.video + Keep(t, p, ToVideo)
  {
    match RouteOf(t, p)
    case ToAudio => r.(audio := r.audio + [p])
    case ToVideo => r.(video := r.video + [p])
    case Dropped => r
  }

  /** `readFrameAndQueue` on values: the returned flag and the new reader. */
  function ReadFrame(t: Tracks, packets: seq<Packet>, r: Reader): (res: (bool, Reader))
    ensures res.0 <==> !r.eof && r.cursor < |packets|
    ensures res.1.eof <==> !res.0
    ensures res.1.cursor == if res.0 then r.cursor + 1 else r.cursor
  {
    if r.eof then (false, r)
    else if r.cursor >= |packets| then (false, r.(eof := true))
    else (true, Save(t, r.(cursor := r.cursor + 1), packets[r.cursor]))
  }

  /** The reader after `n` successive calls of `readFrameAndQueue`. */
  function ReadFrames(t: Tracks, packets: seq<Packet>, r: Reader, n: nat): (r': Reader)
    decreases n
    ensures r.cursor <= r'.cursor <= r.cursor + n
    ensures r.eof ==> r'.eof
  {
    if n == 0 then r else ReadFrames(t, packets, ReadFrame(t, packets, r).1, n - 1)
  }

  /** Reference definition: the packets of `ps` that go to `route`, in order. */
  function Routed(t: Tracks, ps: seq<Packet>, route: Route): seq<Packet>
  {
    if ps == [] then [] else Keep(t, ps[0], route) + Routed(t, ps[1..], route)
  }

  /** Once the end of file has been seen, reading consumes and queues nothing. */
  lemma ReadFrameAtEof(t: Tracks, packets: seq<Packet>, r: Reader)
    requires r.eof
    ensures ReadFrame(t, packets, r) == (false, r)
  {
  }

  /** A failed read sets the end-of-file flag and leaves the queues and the read
      position as they were. */
  lemma ReadFrameExhausted(t: Tracks, packets: seq<Packet>, r: Reader)
    requires !r.eof && r.cursor >= |packets|
    ensures ReadFrame(t, packets, r) == (false, r.(eof := true))
  {
  }

  /** The flag is true exactly when a packet was read, whether or not it matched a
      track; that packet goes to the queue of its route (`RouteOf`: audio taking
      precedence) and to no other. */
  lemma ReadFrameRoutesOnePacket(t: Tracks, packets: seq<Packet>, r: Reader)
    ensures ReadFrame(t, packets, r).0 <==> !r.eof && r.cursor < |packets|
    ensures ReadFrame(t, packets, r).0 ==>
      var p, r' := packets[r.cursor], ReadFrame(t, packets, r).1;
      && !r'.eof && r'.cursor == r.cursor + 1
      && r'.audio == r.audio + Keep(t, p, ToAudio) && r'.video == r.video + Keep(t, p, ToVideo)
  {
  }

  /** End of file is sticky: however many reads follow, none changes anything. */
  lemma {:induction false} EofIsSticky(t: Tracks, packets: seq<Packet>, r: Reader, n: nat)
    requires r.eof
    ensures ReadFrames(t, packets, r, n) == r
  {
    if n > 0 {
      EofIsSticky(t, packets, r, n - 1);
    }
  }

  /** `n` reads that all find a packet leave each queue extended by exactly the
      packets of its track, in container order: queues are never reordered and
      never receive another track's packets. */
  lemma {:induction false} ReadFramesQueueInOrder(t: Tracks, packets: seq<Packet>, r: Reader, n: nat)
    requires !r.eof && r.cursor + n <= |packets|
    decreases n
    ensures var r' := ReadFrames(t, packets, r, n);
      && !r'.eof && r'.cursor == r.cursor + n
      && r'.audio == r.audio + Routed(t, packets[r.cursor..r.cursor + n], ToAudio)
      && r'.video == r.video + Routed(t, packets[r.cursor..r.cursor + n], ToVideo)
  {
    if n == 0 {
      assert packets[r.cursor..r.cursor] == [];
    } else {
      var p := packets[r.cursor];
      var next := ReadFrame(t, packets, r).1;
      ReadFramesQueueInOrder(t, packets, next, n - 1);
      var ps := packets[r.cursor..r.cursor + n];
      assert ps[0] == p;
      assert ps[1..] == packets[next.cursor..next.cursor + (n - 1)];
      AppendAssoc(r.audio, Keep(t, p, ToAudio), Routed(t, ps[1..], ToAudio));
      AppendAssoc(r.video, Keep(t, p, ToVideo), Routed(t, ps[1..], ToVideo));
    }
  }

  lemma AppendAssoc(a: seq<Packet>, b: seq<Packet>, c: seq<Packet>)
    ensures a + b + c == a + (b + c)
  {
  }

  /** A single packet goes to exactly one route. */
  lemma KeepPartitions(t: Tracks, p: Packet)
    ensures multiset(Keep(t, p, ToAudio)) + multiset(Keep(t, p, ToVideo)) + multiset(Keep(t, p, Dropped))
            == multiset{p}
  {
  }

  /** One unfolding of `Routed` at the first packet, as multisets. */
  lemma RoutedFirst(t: Tracks, ps: seq<Packet>, route: Route)
    requires ps != []
    ensures multiset(Routed(t, ps, route)) == multiset(Keep(t, ps[0], route)) + multiset(Routed(t, ps[1..], route))
  {
  }

  lemma MultisetFirst(ps: seq<Packet>)
    requires ps != []
    ensures multiset(ps) == multiset{ps[0]} + multiset(ps[1..])
  {
    assert ps == [ps[0]] + ps[1..];
  }

  /** Every packet goes to exactly one of the two queues or is dropped: none is
      lost or duplicated. */
  lemma {:induction false} RoutedPartitions(t: Tracks, ps: seq<Packet>)
    ensures multiset(Routed(t, ps, ToAudio)) + multiset(Routed(t, ps, ToVideo)) + multiset(Routed(t, ps, Dropped))
            == multiset(ps)
  {
    if ps == [] {
      assert Routed(t, ps, ToAudio) == [] && Routed(t, ps, ToVideo) == [] && Routed(t, ps, Dropped) == [];
    } else {
      RoutedPartitions(t, ps[1..]);
      KeepPartitions(t, ps[0]);
      RoutedFirst(t, ps, ToAudio);
      RoutedFirst(t, ps, ToVideo);
      RoutedFirst(t, ps, Dropped);
      MultisetFirst(ps);
    }
  }

  /** The audio queue receives only packets of the audio stream; the video queue
      only packets of the video stream that are not also the audio stream. */
  lemma {:induction false} RoutedMatchesTrack(t: Tracks, ps: seq<Packet>)
    ensures forall p :: p in Routed(t, ps, ToAudio) ==> t.hasAudio && p.streamIndex == t.audioID
    ensures forall p :: p in Routed(t, ps, ToVideo) ==>
      t.hasVideo && p.streamIndex == t.videoID && !(t.hasAudio && p.streamIndex == t.audioID)
  {
    if ps != [] {
      RoutedMatchesTrack(t, ps[1..]);
    }
  }
}
