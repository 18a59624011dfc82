/** The recording operations as they run: step by step on the shared elements, the per-participant maps
    and the pipeline. */
module GstreamerOps {
  import opened Common
  import opened Recording

  /** The parts of a pad's name that the handlers read: the session and the synchronisation source. */
  datatype PadName = PadName(session: Option<nat>, source: Option<nat>)

  predicate NamesLiveSession(maps: Maps, name: PadName) {
    name.session.Some? && name.source.Some? && name.session.value in maps.sessions
  }

  function SessionNamed(maps: Maps, name: PadName): Session
    requires NamesLiveSession(maps, name)
  {
    maps.sessions[name.session.value]
  }

  class Gstreamer {
    var shared: map<Role, Element>
    var videoPad: bool
    var maps: Maps
    var pipeline: Pipeline

    function View(): Recorder
      reads this
    {
      Recorder(shared, videoPad, maps, pipeline)
    }

    constructor ()
      ensures View() == NEW
    {
      shared, videoPad, maps, pipeline := NEW.shared, NEW.videoPad, NEW.maps, NEW.pipeline;
    }

    // ----- Starting -----

    /** The shared element of a role, made when there is none; `made` collects the roles just made. */
    method Obtain(role: Role, n: nat, made: set<Role>, ghost was: map<Role, Element>, ghost seen: set<Role>)
      returns (more: set<Role>)
      requires LookedUp(was, shared, made, seen, n)
      modifies this`shared
      ensures LookedUp(was, shared, more, seen + {role}, n)
    {
      more := made;
      if role !in shared {
        shared := shared[role := Element(role, n)];
        more := made + {role};
      }
    }

    /** The mixer and its encoder are looked up for audio only. */
    method ObtainMixer(media: Media, n: nat, made: set<Role>, ghost was: map<Role, Element>) returns (more: set<Role>)
      requires LookedUp(was, shared, made, {RtpBin}, n)
      modifies this`shared
      ensures LookedUp(was, shared, more, FirstRoles(media), n)
    {
      more := made;
      if media.Audio? {
        more := Obtain(Mixer, n, more, was, {RtpBin});
        more := Obtain(Encoder, n, more, was, {RtpBin} + {Mixer});
      }
    }

    /** All shared elements that the medium needs; the answer is the set of those just made. */
    method ObtainAll(media: Media, n: nat) returns (made: set<Role>)
      modifies this`shared
      ensures shared == Obtained(old(shared), media, n) && made == Missing(old(shared), media)
    {
      ghost var was := shared;
      made := Obtain(RtpBin, n, {}, was, {});
      made := ObtainMixer(media, n, made, was);
      ghost var seen := FirstRoles(media);
      made := Obtain(Compositor, n, made, was, seen);
      seen := seen + {Compositor};
      made := Obtain(PostScale, n, made, was, seen);
      seen := seen + {PostScale};
      made := Obtain(PostCaps, n, made, was, seen);
      seen := seen + {PostCaps};
      made := Obtain(X264, n, made, was, seen);
      seen := seen + {X264};
      made := Obtain(SplitMux, n, made, was, seen);
      seen := seen + {SplitMux};
      AllSeen(was, shared, made, media, n);
    }

    /** Add elements just made to the pipeline. */
    method Add(roles: set<Role>, media: Media, n: nat, ghost was: map<Role, Element>, ghost g: Pipeline,
               ghost done: set<Role>)
      requires shared == Obtained(was, media, n) && roles <= Missing(was, media)
      requires pipeline == AddShared(g, Made(done, n)) && done !! roles
      modifies this`pipeline
      ensures pipeline == AddShared(g, Made(done + roles, n))
    {
      var items := set r | r in roles :: shared[r];
      pipeline := pipeline.(shared := pipeline.shared + items, additions := pipeline.additions + multiset(items));
      assert items == Made(roles, n);
      AddMore(g, done, roles, n);
    }

    /** The bin, and the mixer with its encoder; only one of these two being new is an error. */
    method AddFirst(media: Media, made: set<Role>, n: nat, ghost was: map<Role, Element>) returns (ok: bool)
      requires shared == Obtained(was, media, n) && made == Missing(was, media)
      modifies this`pipeline
      ensures ok == !(media.Audio? && MixerGroupTorn(was))
      ensures pipeline == AddShared(old(pipeline), Made(AddedBeforeTorn(was, media), n))
    {
      ghost var g, done := pipeline, {};
      AddNothing(g, n);
      if RtpBin in made {
        Add({RtpBin}, media, n, was, g, done);
        done := done + {RtpBin};
      }
      ok := true;
      if Mixer in made && Encoder in made {
        Add({Mixer, Encoder}, media, n, was, g, done);
        done := done + {Mixer, Encoder};
      } else if Mixer in made || Encoder in made {
        ok := false;
      }
      assert done == AddedBeforeTorn(was, media);
    }

    /** The video elements; only some of them being new is an error. */
    method AddVideo(media: Media, made: set<Role>, n: nat, ghost was: map<Role, Element>, ghost g: Pipeline)
      returns (ok: bool)
      requires shared == Obtained(was, media, n) && made == Missing(was, media)
      requires pipeline == AddShared(g, Made(AddedBeforeTorn(was, media), n))
      modifies this`pipeline
      ensures ok == !VideoGroupTorn(was)
      ensures pipeline ==
              if ok then AddShared(g, Made(AddedBeforeTorn(was, media) + MissingVideo(was), n)) else old(pipeline)
    {
      hide AddShared, AddedBeforeTorn, Made;
      AddNoMore(g, AddedBeforeTorn(was, media), n);
      NoVideoBefore(was, media);
      ok := true;
      if Compositor in made && X264 in made && PostScale in made && PostCaps in made {
        Add({Compositor, X264, PostScale, PostCaps}, media, n, was, g, AddedBeforeTorn(was, media));
      } else if Compositor in made || X264 in made || PostScale in made || PostCaps in made {
        ok := false;
      }
    }

    method AddMuxer(media: Media, made: set<Role>, n: nat, ghost was: map<Role, Element>, ghost g: Pipeline)
      requires shared == Obtained(was, media, n) && made == Missing(was, media) && !Torn(was, media)
      requires pipeline == AddShared(g, Made(AddedBeforeTorn(was, media) + MissingVideo(was), n))
      modifies this`pipeline
      ensures pipeline == AddShared(g, Made(Missing(was, media), n))
    {
      ghost var done := AddedBeforeTorn(was, media) + MissingVideo(was);
      AddNoMore(g, done, n);
      EverythingAdded(was, media);
      if SplitMux in made {
        Add({SplitMux}, media, n, was, g, done);
      }
    }

    /** A new mixer, or for video a new compositor, has the video chain linked, unless audio finds that
        the muxer has its video pad already. */
    method LinkVideo(media: Media, made: set<Role>, ghost was: map<Role, Element>, ghost n: nat)
      requires made == Missing(was, media) && shared == Obtained(was, media, n)
      modifies this`pipeline, this`videoPad
      ensures videoPad == (old(videoPad) || LinksVideo(was, old(videoPad), media))
      ensures pipeline == old(pipeline).(links := old(pipeline).links
                + VideoLinks(was, old(videoPad), media, n))
    {
      if (media.Audio? && Mixer in made && !videoPad) || (media.Video? && Compositor in made) {
        videoPad := true;
        pipeline := pipeline.(links := pipeline.links + VideoChain(shared));
      }
    }

    method LinkAudio(media: Media, made: set<Role>, ghost was: map<Role, Element>, ghost n: nat)
      requires made == Missing(was, media) && shared == Obtained(was, media, n)
      modifies this`pipeline
      ensures pipeline == old(pipeline).(links := old(pipeline).links
                + AudioLinks(was, media, n))
    {
      if media.Audio? && Mixer in made {
        pipeline := pipeline.(links := pipeline.links + AudioChain(shared));
      }
    }

    /** Link what is new, and connect the handler to a new bin. */
    method LinkAll(media: Media, made: set<Role>, ghost was: map<Role, Element>, ghost n: nat)
      requires made == Missing(was, media) && shared == Obtained(was, media, n)
      modifies this`pipeline, this`videoPad
      ensures videoPad == (old(videoPad) || LinksVideo(was, old(videoPad), media))
      ensures pipeline == old(pipeline).(
                links := old(pipeline).links + VideoLinks(was, old(videoPad), media, n) + AudioLinks(was, media, n),
                handlers := if RtpBin in was then old(pipeline).handlers else old(pipeline).handlers + 1)
    {
      LinkVideo(media, made, was, n);
      LinkAudio(media, made, was, n);
      if RtpBin in made {
        pipeline := pipeline.(handlers := pipeline.handlers + 1);
      }
    }

    method OpenSession(media: Media, p: Id, session: nat, n: nat)
      modifies this`maps, this`pipeline
      ensures maps == SessionOpened(old(maps), media, p, session, n)
      ensures pipeline == old(pipeline).(rtpBin := Request(old(pipeline).rtpBin, {2 * n, 2 * n + 1}))
    {
      var rtp, rtcp := 2 * n, 2 * n + 1;
      pipeline := pipeline.(rtpBin := Request(pipeline.rtpBin, {rtp, rtcp}));
      maps := maps.(sessions := maps.sessions[session := Session(p, media, rtp, rtcp)]);
    }

    /** Two sources of the participant's own. */
    method AddSources(media: Media, p: Id, n: nat)
      modifies this`maps, this`pipeline
      ensures maps == WithSources(old(maps), media, p, n)
      ensures pipeline == SourcesAdded(old(pipeline), media, n)
    {
      if media.Audio? {
        maps := maps.(audioUdp := maps.audioUdp[p := Source(Audio, false, n)]);
        maps := maps.(audioRtcp := maps.audioRtcp[p := Source(Audio, true, n)]);
      } else {
        maps := maps.(videoUdp := maps.videoUdp[p := Source(Video, false, n)]);
        maps := maps.(videoRtcp := maps.videoRtcp[p := Source(Video, true, n)]);
      }
      pipeline := pipeline.(made := n + 1,
                            sources := pipeline.sources + {Source(media, false, n), Source(media, true, n)});
    }

    /** Add the sources and whatever shared elements are missing. */
    method AddAll(media: Media, p: Id, n: nat) returns (ok: bool, made: set<Role>)
      requires n == pipeline.made
      modifies this`shared, this`maps, this`pipeline
      ensures ok == !Torn(old(shared), media) && made == Missing(old(shared), media)
      ensures shared == Obtained(old(shared), media, n) && maps == WithSources(old(maps), media, p, n)
      ensures pipeline == AddShared(SourcesAdded(old(pipeline), media, n),
                                    Made(if ok then Missing(old(shared), media)
                                          else AddedBeforeTorn(old(shared), media), n))
    {
      ghost var was := shared;
      AddSources(media, p, n);
      ghost var g := pipeline;
      made := ObtainAll(media, n);
      ok := AddFirst(media, made, n, was);
      if ok {
        ok := AddVideo(media, made, n, was, g);
      }
      if ok {
        AddMuxer(media, made, n, was, g);
      }
    }

    method StartRecording(media: Media, p: Id, session: nat) returns (ok: bool)
      modifies this
      ensures (View(), ok) == Started(old(View()), media, p, session)
    {
      hide AddedBeforeTorn, Made, Missing, Obtained, VideoLinks, AudioLinks, LinksVideo, Torn, WithSources;
      var n := pipeline.made;
      ghost var was := shared;
      var made;
      ok, made := AddAll(media, p, n);
      if ok {
        OpenSession(media, p, session, n);
        LinkAll(media, made, was, n);
      }
    }

    // ----- The pad-added handler -----

    /** A source pad of a live session: decode it with new elements, in place of the old ones. The pad's
        name tells the session and the synchronisation source; when a part is missing or cannot be read,
        or the session is not live, the handler panics. */
    method SourcePadAdded(name: PadName) returns (ok: bool)
      requires SameKeys(maps)
      modifies this`maps, this`pipeline
      ensures ok == NamesLiveSession(old(maps), name)
      ensures View() ==
              if ok then
                var x := SessionNamed(old(maps), name); PadAdded(old(View()), x.media, x.participant)
              else old(View())
    {
      if name.session.None? || name.source.None? || name.session.value !in maps.sessions {
        return false;
      }
      ok := true;
      var session := name.session.value;
      var media, p := maps.sessions[session].media, maps.sessions[session].participant;
      if media.Video? {
        ReplaceVideo(p);
      } else {
        ReplaceAudio(p);
      }
    }

    /** The six new elements take the participant's places in the maps, one after the other. */
    method InsertVideo(p: Id, n: nat)
      modifies this`maps
      ensures maps == WithDecoders(old(maps), Video, p, n)
    {
      maps := maps.(videoQueue := maps.videoQueue[p := Decoder(VideoQueue, n)]);
      maps := maps.(videoDepay := maps.videoDepay[p := Decoder(VideoDepay, n)]);
      maps := maps.(videoDecoder := maps.videoDecoder[p := Decoder(VideoDecoder, n)]);
      maps := maps.(convert := maps.convert[p := Decoder(Convert, n)]);
      maps := maps.(scale := maps.scale[p := Decoder(Scale, n)]);
      maps := maps.(caps := maps.caps[p := Decoder(Caps, n)]);
    }

    method InsertAudio(p: Id, n: nat)
      modifies this`maps
      ensures maps == WithDecoders(old(maps), Audio, p, n)
    {
      maps := maps.(audioQueue := maps.audioQueue[p := Decoder(AudioQueue, n)]);
      maps := maps.(audioDepay := maps.audioDepay[p := Decoder(AudioDepay, n)]);
      maps := maps.(audioDecoder := maps.audioDecoder[p := Decoder(AudioDecoder, n)]);
    }

    /** In the pipeline the new elements replace the old ones, of which an old queue says that there are. */
    method SwapVideo(was: Maps, p: Id, n: nat)
      requires SameKeys(was)
      modifies this`pipeline
      ensures pipeline ==
              old(pipeline).(decoders := old(pipeline).decoders - OldDecoders(was, Video, p) + NewDecoders(Video, n))
    {
      VideoDisplays(was, p, n);
      var decoders := pipeline.decoders;
      if p in was.videoQueue {
        decoders := decoders - {was.videoQueue[p], was.videoDepay[p], was.videoDecoder[p],
                                was.convert[p], was.scale[p], was.caps[p]};
      }
      pipeline := pipeline.(decoders := decoders + {Decoder(VideoQueue, n), Decoder(VideoDepay, n),
                                                    Decoder(VideoDecoder, n), Decoder(Convert, n),
                                                    Decoder(Scale, n), Decoder(Caps, n)});
    }

    method SwapAudio(was: Maps, p: Id, n: nat)
      requires SameKeys(was)
      modifies this`pipeline
      ensures pipeline ==
              old(pipeline).(decoders := old(pipeline).decoders - OldDecoders(was, Audio, p) + NewDecoders(Audio, n))
    {
      AudioDisplays(was, p, n);
      var decoders := pipeline.decoders;
      if p in was.audioQueue {
        decoders := decoders - {was.audioQueue[p], was.audioDepay[p], was.audioDecoder[p]};
      }
      pipeline := pipeline.(decoders := decoders + {Decoder(AudioQueue, n), Decoder(AudioDepay, n),
                                                    Decoder(AudioDecoder, n)});
    }

    /** Request a pad, remember it, and release the one it replaces. */
    method SwapPad(pads: Pads, remembered: map<Id, Pad>, p: Id, n: nat) returns (now: Pads, kept: map<Id, Pad>)
      ensures now == Release(Request(pads, {n}), Old(remembered, p)) && kept == remembered[p := n]
    {
      now := Request(pads, {n});
      kept := remembered[p := n];
      if p in remembered {
        now := Release(now, {remembered[p]});
      } else {
        ReleaseNothing(now);
      }
    }

    method ReplaceVideo(p: Id)
      requires SameKeys(maps)
      modifies this`maps, this`pipeline
      ensures View() == PadAdded(old(View()), Video, p)
    {
      var n, was := pipeline.made, maps;
      pipeline := pipeline.(made := n + 1);
      InsertVideo(p, n);
      SwapVideo(was, p, n);
      var pads, kept := SwapPad(pipeline.compositor, maps.compositorPads, p, n);
      pipeline := pipeline.(compositor := pads);
      maps := maps.(compositorPads := kept);
    }

    method ReplaceAudio(p: Id)
      requires SameKeys(maps)
      modifies this`maps, this`pipeline
      ensures View() == PadAdded(old(View()), Audio, p)
    {
      var n, was := pipeline.made, maps;
      pipeline := pipeline.(made := n + 1);
      InsertAudio(p, n);
      SwapAudio(was, p, n);
      var pads, kept := SwapPad(pipeline.mixer, maps.mixerPads, p, n);
      pipeline := pipeline.(mixer := pads);
      maps := maps.(mixerPads := kept);
    }

    /** An RTCP pad of a live session: a new UDP sink in place of the old one. It panics as for a source pad. */
    method RtcpPadAdded(name: PadName) returns (ok: bool)
      modifies this`maps, this`pipeline
      ensures ok == NamesLiveSession(old(maps), name)
      ensures View() ==
              if ok then
                var x := SessionNamed(old(maps), name); SinkPadAdded(old(View()), x.media, x.participant)
              else old(View())
    {
      if name.session.None? || name.source.None? || name.session.value !in maps.sessions {
        return false;
      }
      ok := true;
      var session := name.session.value;
      var media, p, n := maps.sessions[session].media, maps.sessions[session].participant, pipeline.made;
      var was := if media.Audio? then maps.audioSink else maps.videoSink;
      pipeline := pipeline.(made := n + 1);
      if media.Audio? {
        maps := maps.(audioSink := was[p := Sink(media, n)]);
      } else {
        maps := maps.(videoSink := was[p := Sink(media, n)]);
      }
      if p in was {
        pipeline := pipeline.(sinks := pipeline.sinks - {was[p]});
      }
      pipeline := pipeline.(sinks := pipeline.sinks + {Sink(media, n)});
    }

    // ----- Cleaning up -----

    /** Without an RTP bin this panics after it forgot the sources. */
    method HandleUdpSourceFailure(p: Id, media: Media) returns (ok: bool)
      modifies this`maps, this`pipeline
      ensures ok == (RtpBin in shared)
      ensures View() == if ok then SourceFailed(old(View()), p, media)
                        else old(View()).(maps := SourcesForgotten(old(maps), p, media))
    {
      var udp := if media.Audio? then maps.audioUdp else maps.videoUdp;
      var rtcp := if media.Audio? then maps.audioRtcp else maps.videoRtcp;
      if media.Audio? {
        maps := maps.(audioUdp := udp - {p}, audioRtcp := rtcp - {p});
      } else {
        maps := maps.(videoUdp := udp - {p}, videoRtcp := rtcp - {p});
      }
      if RtpBin !in shared {
        return false;
      }
      ok := true;
      var sessions := maps.sessions;
      var gone := SessionsOf(maps.sessions, {p}, {media});
      maps := maps.(sessions := sessions - gone);
      pipeline := pipeline.(sources := pipeline.sources - (Old(udp, p) + Old(rtcp, p)));
      pipeline := pipeline.(rtpBin := Release(pipeline.rtpBin, SessionPads(sessions, gone)));
    }

    method TakeSources(ids: seq<Id>) returns (audio: set<Source>, video: set<Source>)
      modifies this`maps
      ensures maps == SourcesTaken(old(maps), Set(ids))
      ensures audio == Taken(old(maps).audioUdp, Set(ids)) + Taken(old(maps).audioRtcp, Set(ids))
      ensures video == Taken(old(maps).videoUdp, Set(ids)) + Taken(old(maps).videoRtcp, Set(ids))
    {
      var audioUdp, s1 := TakeFrom(maps.audioUdp, ids);
      var videoUdp, s2 := TakeFrom(maps.videoUdp, ids);
      var audioRtcp, s3 := TakeFrom(maps.audioRtcp, ids);
      var videoRtcp, s4 := TakeFrom(maps.videoRtcp, ids);
      maps := maps.(audioUdp := audioUdp, audioRtcp := audioRtcp, videoUdp := videoUdp, videoRtcp := videoRtcp);
      audio, video := s1 + s3, s2 + s4;
    }

    method TakeDecoders(ids: seq<Id>) returns (taken: set<Decoder>)
      modifies this`maps
      ensures maps == DecodersTaken(old(maps), Set(ids))
      ensures taken == TakenDecoders(old(maps), Set(ids))
    {
      TakenDisplay(maps, Set(ids));
      var audioQueue, d1 := TakeFrom(maps.audioQueue, ids);
      var audioDepay, d2 := TakeFrom(maps.audioDepay, ids);
      var audioDecoder, d3 := TakeFrom(maps.audioDecoder, ids);
      var videoQueue, d4 := TakeFrom(maps.videoQueue, ids);
      var videoDepay, d5 := TakeFrom(maps.videoDepay, ids);
      var videoDecoder, d6 := TakeFrom(maps.videoDecoder, ids);
      var caps, d7 := TakeFrom(maps.caps, ids);
      var scale, d8 := TakeFrom(maps.scale, ids);
      var convert, d9 := TakeFrom(maps.convert, ids);
      taken := d4 + d5 + d6 + d9 + d8 + d7 + d1 + d2 + d3;
      maps := maps.(audioQueue := audioQueue, audioDepay := audioDepay, audioDecoder := audioDecoder,
                    videoQueue := videoQueue, videoDepay := videoDepay, videoDecoder := videoDecoder,
                    caps := caps, scale := scale, convert := convert);
    }

    /** The sessions are forgotten at once; what is returned are their pads. */
    method TakeSessions(ids: set<Id>, media: set<Media>) returns (pads: set<Pad>)
      modifies this`maps
      ensures maps == old(maps).(sessions := old(maps).sessions - SessionsOf(old(maps).sessions, ids, media))
      ensures pads == SessionPads(old(maps).sessions, SessionsOf(old(maps).sessions, ids, media))
    {
      var gone := SessionsOf(maps.sessions, ids, media);
      pads := SessionPads(maps.sessions, gone);
      maps := maps.(sessions := maps.sessions - gone);
    }

    /** The audio sinks are forgotten, and the mixer pads given back if there is a mixer. */
    method TakeAudioEnds(ids: seq<Id>) returns (sinks: set<Sink>)
      modifies this`maps, this`pipeline
      ensures maps ==
              old(maps).(audioSink := old(maps).audioSink - Set(ids), mixerPads := old(maps).mixerPads - Set(ids))
      ensures sinks == Taken(old(maps).audioSink, Set(ids))
      ensures pipeline == old(pipeline).(mixer := MixerReleased(old(View()), Set(ids)))
    {
      var audioSink, mixerPads, pads;
      audioSink, sinks := TakeFrom(maps.audioSink, ids);
      mixerPads, pads := TakeFrom(maps.mixerPads, ids);
      maps := maps.(audioSink := audioSink, mixerPads := mixerPads);
      if Mixer in shared {
        pipeline := pipeline.(mixer := Release(pipeline.mixer, pads));
      }
    }

    /** Forget the participants, give their mixer pads back, and return what has to leave the pipeline. */
    method ForgetParticipants(ids: seq<Id>)
      returns (decoders: set<Decoder>, audioSources: set<Source>, videoSources: set<Source>,
               sinks: set<Sink>, pads: set<Pad>)
      modifies this`maps, this`pipeline
      ensures maps == MapsClosed(old(maps), Set(ids))
      ensures pipeline == old(pipeline).(mixer := MixerReleased(old(View()), Set(ids)))
      ensures decoders == TakenDecoders(old(maps), Set(ids)) && sinks == Taken(old(maps).audioSink, Set(ids))
      ensures audioSources == Taken(old(maps).audioUdp, Set(ids)) + Taken(old(maps).audioRtcp, Set(ids))
      ensures videoSources == Taken(old(maps).videoUdp, Set(ids)) + Taken(old(maps).videoRtcp, Set(ids))
      ensures pads == SessionPads(old(maps).sessions, SessionsOf(old(maps).sessions, Set(ids), {Audio, Video}))
    {
      hide TakenDecoders, SessionPads, SessionsOf, Taken, Set;
      decoders := TakeDecoders(ids);
      audioSources, videoSources := TakeSources(ids);
      sinks := TakeAudioEnds(ids);
      pads := TakeSessions(Set(ids), {Audio, Video});
    }

    /** What closing the producers of some participants does to the recording of their meeting. It fails
        half-way when there is no RTP bin. */
    method CloseParticipants(ids: seq<Id>) returns (ok: bool)
      modifies this`maps, this`pipeline
      ensures ok == (RtpBin in shared)
      ensures View() == if ok then Closed(old(View()), Set(ids)) else ClosedHalfway(old(View()), Set(ids))
    {
      hide TakenDecoders, SessionPads, SessionsOf, Taken, Set, MixerReleased, MapsClosed;
      var decoders, audioSources, videoSources, sinks, pads := ForgetParticipants(ids);
      pipeline := pipeline.(sources := pipeline.sources - audioSources);
      if RtpBin !in shared {
        return false;
      }
      pipeline := pipeline.(rtpBin := Release(pipeline.rtpBin, pads));
      pipeline := pipeline.(sinks := pipeline.sinks - sinks, decoders := pipeline.decoders - decoders);
      pipeline := pipeline.(sources := pipeline.sources - videoSources);
      ok := true;
    }
  }

  function Set(ids: seq<Id>): set<Id> {
    set id | id in ids
  }

  /** Remove the participants' entries one by one, collecting their values. */
  method TakeFrom<V(==)>(m: map<Id, V>, ids: seq<Id>) returns (left: map<Id, V>, taken: set<V>)
    ensures left == m - Set(ids) && taken == Taken(m, Set(ids))
  {
    left, taken := m, {};
    for i := 0 to |ids|
      invariant left == m - Set(ids[..i]) && taken == Taken(m, Set(ids[..i]))
    {
      assert ids[..i + 1] == ids[..i] + [ids[i]];
      assert Set(ids[..i + 1]) == Set(ids[..i]) + {ids[i]};
      if ids[i] in left {
        taken := taken + {left[ids[i]]};
        left := left - {ids[i]};
      }
    }
    assert ids[..|ids|] == ids;
  }

  lemma ReleaseNothing(pads: Pads)
    ensures Release(pads, {}) == pads
  {
  }

  lemma VideoDisplays(m: Maps, p: Id, n: nat)
    requires SameKeys(m)
    ensures p in m.videoQueue ==>
              && p in m.videoDepay && p in m.videoDecoder && p in m.convert && p in m.scale && p in m.caps
              && OldDecoders(m, Video, p) ==
                 {m.videoQueue[p], m.videoDepay[p], m.videoDecoder[p], m.convert[p], m.scale[p], m.caps[p]}
    ensures NewDecoders(Video, n) ==
            {Decoder(VideoQueue, n), Decoder(VideoDepay, n), Decoder(VideoDecoder, n),
             Decoder(Convert, n), Decoder(Scale, n), Decoder(Caps, n)}
  {
    assert Shadow(m, VideoDepay) == m.videoDepay && Shadow(m, VideoDecoder) == m.videoDecoder;
    assert Shadow(m, Convert) == m.convert && Shadow(m, Scale) == m.scale && Shadow(m, Caps) == m.caps;
    assert Shadow(m, VideoQueue) == m.videoQueue;
    assert forall st :: StageOf(Video, st) <==> st in {VideoQueue, VideoDepay, VideoDecoder, Convert, Scale, Caps};
  }

  lemma AudioDisplays(m: Maps, p: Id, n: nat)
    requires SameKeys(m)
    ensures p in m.audioQueue ==>
              && p in m.audioDepay && p in m.audioDecoder
              && OldDecoders(m, Audio, p) == {m.audioQueue[p], m.audioDepay[p], m.audioDecoder[p]}
    ensures NewDecoders(Audio, n) == {Decoder(AudioQueue, n), Decoder(AudioDepay, n), Decoder(AudioDecoder, n)}
  {
    assert Shadow(m, AudioDepay) == m.audioDepay && Shadow(m, AudioDecoder) == m.audioDecoder;
    assert Shadow(m, AudioQueue) == m.audioQueue;
    assert forall st :: StageOf(Audio, st) <==> st in {AudioQueue, AudioDepay, AudioDecoder};
  }

  lemma TakenStage(m: Maps, ids: set<Id>, st: Stage)
    ensures Taken(Shadow(m, st), ids) <= TakenDecoders(m, ids)
  {
  }

  function AllTaken(m: Maps, ids: set<Id>): set<Decoder> {
    Taken(m.videoQueue, ids) + Taken(m.videoDepay, ids) + Taken(m.videoDecoder, ids) + Taken(m.convert, ids)
    + Taken(m.scale, ids) + Taken(m.caps, ids) + Taken(m.audioQueue, ids) + Taken(m.audioDepay, ids)
    + Taken(m.audioDecoder, ids)
  }

  lemma StageInAll(m: Maps, ids: set<Id>, st: Stage)
    ensures Taken(Shadow(m, st), ids) <= AllTaken(m, ids)
  {
  }

  lemma AllInTaken(m: Maps, ids: set<Id>)
    ensures AllTaken(m, ids) <= TakenDecoders(m, ids)
  {
    TakenStage(m, ids, VideoQueue);
    TakenStage(m, ids, VideoDepay);
    TakenStage(m, ids, VideoDecoder);
    TakenStage(m, ids, Convert);
    TakenStage(m, ids, Scale);
    TakenStage(m, ids, Caps);
    TakenStage(m, ids, AudioQueue);
    TakenStage(m, ids, AudioDepay);
    TakenStage(m, ids, AudioDecoder);
  }

  lemma TakenDisplay(m: Maps, ids: set<Id>)
    ensures TakenDecoders(m, ids) == AllTaken(m, ids)
  {
    AllInTaken(m, ids);
    forall d | d in TakenDecoders(m, ids) ensures d in AllTaken(m, ids) {
      var st, p :| p in ids && p in Shadow(m, st) && Shadow(m, st)[p] == d;
      assert d in Taken(Shadow(m, st), ids);
      StageInAll(m, ids, st);
    }
  }

  function MissingVideo(was: map<Role, Element>): set<Role> {
    if Compositor in was then {} else {Compositor, X264, PostScale, PostCaps}
  }

  lemma NoVideoBefore(was: map<Role, Element>, media: Media)
    ensures AddedBeforeTorn(was, media) !! {Compositor, X264, PostScale, PostCaps}
  {
  }

  lemma AddNothing(g: Pipeline, n: nat)
    ensures AddShared(g, Made({}, n)) == g
  {
  }

  lemma AddMore(g: Pipeline, done: set<Role>, more: set<Role>, n: nat)
    requires done !! more
    ensures AddShared(AddShared(g, Made(done, n)), Made(more, n)) == AddShared(g, Made(done + more, n))
  {
  }

  lemma AddNoMore(g: Pipeline, done: set<Role>, n: nat)
    ensures AddShared(g, Made(done + {}, n)) == AddShared(g, Made(done, n))
  {
  }

  lemma EverythingAdded(was: map<Role, Element>, media: Media)
    requires !Torn(was, media)
    ensures AddedBeforeTorn(was, media) + MissingVideo(was) + (if SplitMux in was then {} else {SplitMux}) ==
            Missing(was, media)
    ensures SplitMux !in AddedBeforeTorn(was, media) + MissingVideo(was)
  {
    var done := AddedBeforeTorn(was, media) + MissingVideo(was) + (if SplitMux in was then {} else {SplitMux});
    forall r: Role ensures r in done <==> r in Missing(was, media) {
      match r
      case RtpBin =>
      case Mixer =>
      case Encoder =>
      case Compositor =>
      case PostScale =>
      case PostCaps =>
      case X264 =>
      case SplitMux =>
    }
  }

  /** The roles in `seen` were looked up: those missing in `was` are made, the others are as they were. */
  ghost predicate LookedUp(was: map<Role, Element>, now: map<Role, Element>, made: set<Role>, seen: set<Role>, n: nat) {
    now == was + (map r | r in seen && r !in was :: Element(r, n)) && made == seen - was.Keys
  }

  function FirstRoles(media: Media): set<Role> {
    if media.Audio? then {RtpBin} + {Mixer} + {Encoder} else {RtpBin}
  }

  lemma RolesNeeded(media: Media)
    ensures FirstRoles(media) + {Compositor} + {PostScale} + {PostCaps} + {X264} + {SplitMux} == set r | Needs(media, r)
  {
    forall r: Role
      ensures r in FirstRoles(media) + {Compositor} + {PostScale} + {PostCaps} + {X264} + {SplitMux} <==>
                Needs(media, r)
    {
      match r
      case RtpBin =>
      case Mixer =>
      case Encoder =>
      case Compositor =>
      case PostScale =>
      case PostCaps =>
      case X264 =>
      case SplitMux =>
    }
  }

  lemma AllSeen(was: map<Role, Element>, now: map<Role, Element>, made: set<Role>, media: Media, n: nat)
    requires LookedUp(was, now, made,
                      FirstRoles(media) + {Compositor} + {PostScale} + {PostCaps} + {X264} + {SplitMux}, n)
    ensures now == Obtained(was, media, n) && made == Missing(was, media)
  {
    RolesNeeded(media);
  }
}
