/** What each recording operation puts where: sources and sessions, the elements and the pad of a decoded
    stream, the links between the shared elements, and what closing leaves to everybody else. */
module RecordingEffects {
  import opened Common
  import opened Recording
  import opened RecordingRuns

  // ----- Starting -----

  /** The participant's source in this map is a new one, and everyone else keeps theirs. */
  predicate TakesSource(was: map<Id, Source>, now: map<Id, Source>, media: Media, rtcp: bool, n: nat, p: Id) {
    p in now && now[p] == Source(media, rtcp, n) && now == was[p := now[p]]
  }

  /** Nothing but sources and sessions changed. */
  predicate SameStreams(m: Maps, now: Maps) {
    && SameDecoders(m, now)
    && now.audioSink == m.audioSink && now.videoSink == m.videoSink
    && now.mixerPads == m.mixerPads && now.compositorPads == m.compositorPads
  }

  /** A start remembers two new sources of its medium for the participant, one for RTP and one for RTCP, and a
      session with two new pads of the bin; everything else in the maps stays, and so do all elements and pads. */
  lemma StartStores(s: Recorder, media: Media, p: Id, session: nat)
    requires Inv(s) && session !in s.maps.sessions
    ensures Started(s, media, p, session).1
    ensures var (m, k, n) := (s.maps, Started(s, media, p, session).0.maps, s.pipeline.made);
            && SameStreams(m, k)
            && (if media.Audio? then
                  && TakesSource(m.audioUdp, k.audioUdp, Audio, false, n, p)
                  && TakesSource(m.audioRtcp, k.audioRtcp, Audio, true, n, p)
                  && k.videoUdp == m.videoUdp && k.videoRtcp == m.videoRtcp
                else
                  && TakesSource(m.videoUdp, k.videoUdp, Video, false, n, p)
                  && TakesSource(m.videoRtcp, k.videoRtcp, Video, true, n, p)
                  && k.audioUdp == m.audioUdp && k.audioRtcp == m.audioRtcp)
    ensures var (k, g, h) := (Started(s, media, p, session).0.maps, s.pipeline,
                              Started(s, media, p, session).0.pipeline);
            && h.sources == g.sources + {Source(media, false, g.made), Source(media, true, g.made)}
            && h.decoders == g.decoders && h.sinks == g.sinks && h.mixer == g.mixer && h.compositor == g.compositor
            && session in k.sessions && k.sessions == s.maps.sessions[session := k.sessions[session]]
            && var x := k.sessions[session];
               && x.participant == p && x.media == media && x.rtp != x.rtcp
               && x.rtp !in g.rtpBin.live && x.rtcp !in g.rtpBin.live
               && h.rtpBin.live == g.rtpBin.live + {x.rtp, x.rtcp} && h.rtpBin.released == g.rtpBin.released
  {
    hide Inv, Started;
    StartGetsThrough(s, media, p, session);
    StartOpensSession(s, media, p, session);
    StartParts(s, media, p, session);
    BinPadsAreOld(s);
  }

  lemma StartGetsThrough(s: Recorder, media: Media, p: Id, session: nat)
    requires Inv(s)
    ensures Started(s, media, p, session).1
  {
    StartKeepsShared(s, media, p, session);
    hide *;
  }

  lemma BinPadsAreOld(s: Recorder)
    requires Inv(s)
    ensures forall pad :: pad in s.pipeline.rtpBin.live ==> pad < 2 * s.pipeline.made
  {
    HasSessions(s);
    hide Inv;
  }

  lemma StartParts(s: Recorder, media: Media, p: Id, session: nat)
    requires Started(s, media, p, session).1
    ensures var (k, g, h, n) := (Started(s, media, p, session).0.maps, s.pipeline,
                                 Started(s, media, p, session).0.pipeline, s.pipeline.made);
            && k == WithSources(s.maps, media, p, n).(sessions := k.sessions)
            && h.sources == g.sources + {Source(media, false, n), Source(media, true, n)}
            && h.decoders == g.decoders && h.sinks == g.sinks
  {
    hide Obtained, Torn, VideoLinks, AudioLinks, Missing, Made, LinksVideo, WithSources;
  }

  // ----- The links between the shared elements -----

  function RolesOf(links: seq<(Element, Element)>): seq<(Role, Role)> {
    seq(|links|, i requires 0 <= i < |links| => (links[i].0.role, links[i].1.role))
  }

  /** After any run the links are those of the two chains, once each and no others: the compositor through the
      scaler, its caps and the encoder into the muxer once some start happened, and the mixer through its encoder
      into the muxer once some start was audio. The linked elements are in the pipeline. */
  lemma ChainsAreLinked(states: seq<Recorder>, events: seq<Event>, n: nat)
    requires IsRun(states, events) && n < |states|
    ensures RolesOf(states[n].pipeline.links) ==
            (if exists i :: 0 <= i < n && events[i].Start? then
               [(Compositor, PostScale), (PostScale, PostCaps), (PostCaps, X264), (X264, SplitMux)]
             else [])
            + (if exists i :: 0 <= i < n && events[i].Start? && events[i].media.Audio? then
                 [(Mixer, Encoder), (Encoder, SplitMux)]
               else [])
    ensures forall l :: l in states[n].pipeline.links ==>
              l.0 in states[n].pipeline.shared && l.1 in states[n].pipeline.shared
  {
    hide IsRun, Grouped, AddedOnce;
    SharedElementsOnce(states, events, n);
    RunKeepsShared(states, events, n);
    ChainRoles(states[n]);
  }

  lemma ChainRoles(s: Recorder)
    requires AddedOnce(s.shared, s.pipeline) && Grouped(s.shared, s.videoPad)
    ensures RtpBin in s.shared ==>
              && RolesOf(VideoChain(s.shared)) ==
                 [(Compositor, PostScale), (PostScale, PostCaps), (PostCaps, X264), (X264, SplitMux)]
              && forall l :: l in VideoChain(s.shared) ==> l.0 in s.pipeline.shared && l.1 in s.pipeline.shared
    ensures Mixer in s.shared ==>
              && RolesOf(AudioChain(s.shared)) == [(Mixer, Encoder), (Encoder, SplitMux)]
              && forall l :: l in AudioChain(s.shared) ==> l.0 in s.pipeline.shared && l.1 in s.pipeline.shared
  {
    assert forall r :: r in s.shared ==> s.shared[r] in s.shared.Values;
  }

  // ----- A new source pad -----

  /** The participant's pad in this map is new on the element, takes the place of the one it had, which is
      released there, and everyone else keeps theirs. */
  predicate TakesPad(was: map<Id, Pad>, now: map<Id, Pad>, before: Pads, after: Pads, p: Id) {
    var replaced := if p in was then {was[p]} else {};
    && p in now && now == was[p := now[p]] && now[p] !in before.live
    && after.live == before.live - replaced + {now[p]}
    && after.released == before.released + multiset(replaced)
  }

  /** An audio stream is fed into the mixer and a video stream into the compositor: the participant gets a pad
      that was live on neither, and the other element with its pads and their map stays as it is. */
  lemma SourcePadFeeds(s: Recorder, media: Media, p: Id)
    requires Inv(s)
    ensures var (m, k, g, h) := (s.maps, PadAdded(s, media, p).maps, s.pipeline, PadAdded(s, media, p).pipeline);
            if media.Audio? then
              && TakesPad(m.mixerPads, k.mixerPads, g.mixer, h.mixer, p) && k.mixerPads[p] !in g.compositor.live
              && k.compositorPads == m.compositorPads && h.compositor == g.compositor
            else
              && TakesPad(m.compositorPads, k.compositorPads, g.compositor, h.compositor, p)
              && k.compositorPads[p] !in g.mixer.live
              && k.mixerPads == m.mixerPads && h.mixer == g.mixer
  {
    hide *;
    HasKeys(s);
    PadsAreOld(s);
    PadParts(s, media, p);
    if media == Audio {
      PadSwapped(s.maps.mixerPads, s.pipeline.mixer, s.pipeline.made, p);
    } else {
      PadSwapped(s.maps.compositorPads, s.pipeline.compositor, s.pipeline.made, p);
    }
  }

  lemma PadParts(s: Recorder, media: Media, p: Id)
    requires SameKeys(s.maps)
    ensures var (m, k, g, h) := (s.maps, PadAdded(s, media, p).maps, s.pipeline, PadAdded(s, media, p).pipeline);
            if media.Audio? then
              && k.mixerPads == m.mixerPads[p := g.made] && k.compositorPads == m.compositorPads
              && h.mixer == Release(Request(g.mixer, {g.made}), Old(m.mixerPads, p)) && h.compositor == g.compositor
            else
              && k.compositorPads == m.compositorPads[p := g.made] && k.mixerPads == m.mixerPads
              && h.compositor == Release(Request(g.compositor, {g.made}), Old(m.compositorPads, p))
              && h.mixer == g.mixer
  {
    hide SameKeys, OldDecoders, NewDecoders, Release, Request, Old, WithDecoders;
    DecodersSparePads(s.maps, media, p, s.pipeline.made);
  }

  lemma PadSwapped(was: map<Id, Pad>, pads: Pads, n: nat, p: Id)
    requires n !in pads.live && forall q :: q in was ==> was[q] < n
    ensures TakesPad(was, was[p := n], pads, Release(Request(pads, {n}), Old(was, p)), p)
  {
  }

  lemma PadsAreOld(s: Recorder)
    requires Inv(s)
    ensures forall pad :: pad in s.pipeline.mixer.live || pad in s.pipeline.compositor.live ==> pad < s.pipeline.made
    ensures forall q :: q in s.maps.mixerPads ==> s.maps.mixerPads[q] < s.pipeline.made
    ensures forall q :: q in s.maps.compositorPads ==> s.maps.compositorPads[q] < s.pipeline.made
  {
    hide SameKeys, DecodersExact, SinksExact, SessionsExact, Generations, SharedOnce, SessionsServed;
    forall q | q in s.maps.mixerPads ensures s.maps.mixerPads[q] < s.pipeline.made {
      assert s.maps.mixerPads[q] in s.maps.mixerPads.Values;
    }
    forall q | q in s.maps.compositorPads ensures s.maps.compositorPads[q] < s.pipeline.made {
      assert s.maps.compositorPads[q] in s.maps.compositorPads.Values;
    }
  }

  /** Apart from the decode elements nothing in the maps changes. */
  predicate SameButDecoders(m: Maps, now: Maps) {
    && now.audioUdp == m.audioUdp && now.audioRtcp == m.audioRtcp
    && now.videoUdp == m.videoUdp && now.videoRtcp == m.videoRtcp
    && now.audioSink == m.audioSink && now.videoSink == m.videoSink && now.sessions == m.sessions
  }

  lemma DecodersSparePads(m: Maps, media: Media, p: Id, n: nat)
    ensures var now := WithDecoders(m, media, p, n);
            now.mixerPads == m.mixerPads && now.compositorPads == m.compositorPads && SameButDecoders(m, now)
  {
  }

  /** The stages that decode a medium. */
  predicate Decodes(media: Media, st: Stage) {
    match media
    case Video => st in {VideoQueue, VideoDepay, VideoDecoder, Convert, Scale, Caps}
    case Audio => st in {AudioQueue, AudioDepay, AudioDecoder}
  }

  predicate SurvivesOrIsNew(m: Maps, before: set<Decoder>, media: Media, p: Id, n: nat, d: Decoder) {
    || (Decodes(media, d.stage) && d.made == n)
    || (d in before && !(Decodes(media, d.stage) && d in Old(Shadow(m, d.stage), p)))
  }

  /** What becomes of participant `q`'s element of one stage when `p` gets new ones. */
  ghost predicate DecoderPlaced(m: Maps, k: Maps, before: set<Decoder>, after: set<Decoder>, media: Media, p: Id,
                                st: Stage, q: Id)
  {
    if q == p && Decodes(media, st) then
      && p in Shadow(k, st) && Shadow(k, st)[p].stage == st
      && Shadow(k, st)[p] in after && Shadow(k, st)[p] !in before
      && (p in Shadow(m, st) ==> Shadow(m, st)[p] !in after)
    else
      && (q in Shadow(k, st) <==> q in Shadow(m, st))
      && (q in Shadow(m, st) ==> Shadow(k, st)[q] == Shadow(m, st)[q] && Shadow(m, st)[q] in after)
  }

  /** For every stage of the medium a new element takes the participant's place, in the map and in the pipeline,
      and the old one leaves the pipeline; all other entries, the sources, the sinks and the sessions stay. */
  lemma SourcePadDecodes(s: Recorder, media: Media, p: Id)
    requires Inv(s)
    ensures var (m, k, g, h) := (s.maps, PadAdded(s, media, p).maps, s.pipeline, PadAdded(s, media, p).pipeline);
            && SameButDecoders(m, k) && h.sources == g.sources && h.sinks == g.sinks && h.rtpBin == g.rtpBin
            && forall st, q :: DecoderPlaced(m, k, g.decoders, h.decoders, media, p, st, q)
  {
    var m, k, g, h := s.maps, PadAdded(s, media, p).maps, s.pipeline, PadAdded(s, media, p).pipeline;
    var n := g.made;
    hide *;
    HasKeys(s);
    HasDecoders(s);
    PadSpares(s, media, p);
    PaddedDecoders(s, media, p);
    forall st
      ensures Shadow(k, st) == if Decodes(media, st) then Shadow(m, st)[p := Decoder(st, n)] else Shadow(m, st)
    {
      SameShadow(WithDecoders(m, media, p, n), k, st);
      ShadowsAfterPad(m, media, p, n, st);
      DecodingStages(media, st);
    }
    forall d ensures d in h.decoders <==> SurvivesOrIsNew(m, g.decoders, media, p, n, d) {
      OldOfStage(m, g.decoders, media, p, d);
      NewOfStage(media, n, d);
      DecodingStages(media, d.stage);
    }
    StoredDecoders(m, g.decoders);
    DistinctDecoders(m, g.decoders);
    forall st, q ensures DecoderPlaced(m, k, g.decoders, h.decoders, media, p, st, q) {
      PlacedDecoder(m, k, g.decoders, h.decoders, media, p, n, st, q);
    }
  }

  lemma PlacedDecoder(m: Maps, k: Maps, before: set<Decoder>, after: set<Decoder>, media: Media, p: Id, n: nat,
                      st: Stage, q: Id)
    requires Shadow(k, st) == if Decodes(media, st) then Shadow(m, st)[p := Decoder(st, n)] else Shadow(m, st)
    requires forall d :: d in after <==> SurvivesOrIsNew(m, before, media, p, n, d)
    requires forall d :: d in before ==> d.made < n
    requires forall o :: o in Shadow(m, st) ==> Shadow(m, st)[o] in before && Shadow(m, st)[o].stage == st
    requires forall o, r :: o in Shadow(m, st) && r in Shadow(m, st) && Shadow(m, st)[o] == Shadow(m, st)[r] ==> o == r
    ensures DecoderPlaced(m, k, before, after, media, p, st, q)
  {
    hide Shadow, Decodes;
  }

  lemma DecodingStages(media: Media, st: Stage)
    ensures StageOf(media, st) <==> Decodes(media, st)
  {
  }

  lemma HasDecoders(s: Recorder)
    requires Inv(s)
    ensures DecodersExact(s.maps, s.pipeline.decoders)
    ensures forall d :: d in s.pipeline.decoders ==> d.made < s.pipeline.made
  {
    hide SameKeys, DecodersExact, SinksExact, PadsExact, SessionsExact, SharedOnce, SessionsServed;
  }

  lemma NewOfStage(media: Media, n: nat, d: Decoder)
    ensures d in NewDecoders(media, n) <==> Decodes(media, d.stage) && d.made == n
  {
  }

  lemma StoredDecoders(m: Maps, decoders: set<Decoder>)
    requires DecodersExact(m, decoders)
    ensures forall st, q :: q in Shadow(m, st) ==> Shadow(m, st)[q] in decoders && Shadow(m, st)[q].stage == st
  {
    forall st, q | q in Shadow(m, st) ensures Shadow(m, st)[q] in decoders {
      assert Shadow(m, st)[q] in Shadow(m, Shadow(m, st)[q].stage).Values;
    }
  }

  lemma DistinctDecoders(m: Maps, decoders: set<Decoder>)
    requires DecodersExact(m, decoders)
    ensures forall st, p, q ::
              p in Shadow(m, st) && q in Shadow(m, st) && Shadow(m, st)[p] == Shadow(m, st)[q] ==> p == q
  {
    forall st ensures Injective(Shadow(m, st)) {
    }
  }

  lemma PadSpares(s: Recorder, media: Media, p: Id)
    requires SameKeys(s.maps)
    ensures var (k, g, h) := (PadAdded(s, media, p).maps, s.pipeline, PadAdded(s, media, p).pipeline);
            SameButDecoders(s.maps, k) && h.sources == g.sources && h.sinks == g.sinks && h.rtpBin == g.rtpBin
  {
    DecodersSparePads(s.maps, media, p, s.pipeline.made);
    hide OldDecoders, NewDecoders, SameKeys, WithDecoders;
  }

  // ----- Sinks and failing sources -----

  /** An RTCP pad changes the sinks of its medium in the maps, and nothing else there or in the pipeline. */
  lemma SinkPadSparesTheRest(s: Recorder, media: Media, p: Id)
    ensures var (m, g, t) := (s.maps, s.pipeline, SinkPadAdded(s, media, p));
            && t.maps == (if media.Audio? then m.(audioSink := t.maps.audioSink) else m.(videoSink := t.maps.videoSink))
            && t.pipeline == g.(made := g.made + 1, sinks := t.pipeline.sinks)
            && t.shared == s.shared && t.videoPad == s.videoPad
  {
  }

  predicate Holds(m: map<Id, Source>, p: Id, x: Source) {
    p in m && m[p] == x
  }

  /** A failing source of a medium takes both of the participant's sources of that medium out of the maps and
      out of the pipeline, with its sessions; every other map and every other element stays. */
  lemma FailureTakesSources(s: Recorder, p: Id, media: Media)
    ensures var (m, k, g, h) := (s.maps, SourceFailed(s, p, media).maps, s.pipeline,
                                 SourceFailed(s, p, media).pipeline);
            && k == (if media.Audio? then m.(audioUdp := m.audioUdp - {p}, audioRtcp := m.audioRtcp - {p},
                                             sessions := k.sessions)
                     else m.(videoUdp := m.videoUdp - {p}, videoRtcp := m.videoRtcp - {p}, sessions := k.sessions))
            && h == g.(sources := h.sources, rtpBin := h.rtpBin)
            && forall x :: x in h.sources <==>
                 x in g.sources && (if media.Audio? then !Holds(m.audioUdp, p, x) && !Holds(m.audioRtcp, p, x)
                                    else !Holds(m.videoUdp, p, x) && !Holds(m.videoRtcp, p, x))
  {
    hide Release, SessionPads, SessionsOf;
  }

  // ----- Closing -----

  /** Closing participants takes their entries, and theirs only, out of every map but the two that keep them
      until they are replaced; everyone else's sessions and sources stay, and so do the shared elements. */
  lemma CloseSparesOthers(s: Recorder, ids: set<Id>)
    ensures var (m, k) := (s.maps, Closed(s, ids).maps);
            && k.audioUdp == m.audioUdp - ids && k.audioRtcp == m.audioRtcp - ids
            && k.videoUdp == m.videoUdp - ids && k.videoRtcp == m.videoRtcp - ids
            && k.audioSink == m.audioSink - ids && k.videoSink == m.videoSink
            && k.mixerPads == m.mixerPads - ids && k.compositorPads == m.compositorPads
            && (forall st :: Shadow(k, st) == Shadow(m, st) - ids)
            && k.sessions == map n | n in m.sessions && m.sessions[n].participant !in ids :: m.sessions[n]
    ensures var (m, t) := (s.maps, Closed(s, ids));
            && SharedUntouched(s, t)
            && t.pipeline.compositor == s.pipeline.compositor
            && forall x :: x in t.pipeline.sources <==>
                 x in s.pipeline.sources
                 && forall p :: p in ids ==>
                      && !Holds(m.audioUdp, p, x) && !Holds(m.audioRtcp, p, x)
                      && !Holds(m.videoUdp, p, x) && !Holds(m.videoRtcp, p, x)
  {
    hide Shadow, Closed, SharedUntouched;
    CloseSparesShared(s, ids);
    ClosedSources(s, ids);
    ClosedMaps(s, ids);
    forall st ensures Shadow(Closed(s, ids).maps, st) == Shadow(s.maps, st) - ids {
      ShadowsAfterClose(s, ids, st);
    }
  }

  lemma ClosedMaps(s: Recorder, ids: set<Id>)
    ensures var (m, k) := (s.maps, Closed(s, ids).maps);
            && k.audioUdp == m.audioUdp - ids && k.audioRtcp == m.audioRtcp - ids
            && k.videoUdp == m.videoUdp - ids && k.videoRtcp == m.videoRtcp - ids
            && k.audioSink == m.audioSink - ids && k.videoSink == m.videoSink
            && k.mixerPads == m.mixerPads - ids && k.compositorPads == m.compositorPads
            && k.sessions == map n | n in m.sessions && m.sessions[n].participant !in ids :: m.sessions[n]
    ensures Closed(s, ids).pipeline.compositor == s.pipeline.compositor
  {
    hide TakenSources, TakenDecoders, MixerReleased, SessionPads, Release, Taken;
    LostSessions(s.maps.sessions, ids);
  }

  lemma LostSessions(sessions: map<nat, Session>, ids: set<Id>)
    ensures sessions - SessionsOf(sessions, ids, {Audio, Video}) ==
            map n | n in sessions && sessions[n].participant !in ids :: sessions[n]
  {
    forall n | n in sessions
      ensures n in SessionsOf(sessions, ids, {Audio, Video}) <==> sessions[n].participant in ids
    {
      assert sessions[n].media.Audio? || sessions[n].media.Video?;
    }
  }

  lemma ClosedSources(s: Recorder, ids: set<Id>)
    ensures var (m, t) := (s.maps, Closed(s, ids));
            forall x :: x in t.pipeline.sources <==>
              x in s.pipeline.sources
              && forall p :: p in ids ==>
                   && !Holds(m.audioUdp, p, x) && !Holds(m.audioRtcp, p, x)
                   && !Holds(m.videoUdp, p, x) && !Holds(m.videoRtcp, p, x)
  {
    hide TakenDecoders, MixerReleased, SessionPads, Release, MapsClosed;
  }

  // ----- Without an RTP bin -----

  /** From the first operation of a run on there is a bin, so that the two paths without one, closing half-way
      and a failing source that panics, only ever meet a new recorder, where they have nothing to lose. */
  lemma {:induction false} BinFromTheFirst(states: seq<Recorder>, events: seq<Event>, n: nat)
    requires IsRun(states, events) && n < |states|
    ensures RtpBin in states[n].shared <==> n > 0
    ensures forall ids :: ClosedHalfway(NEW, ids) == NEW
    ensures forall p, media :: SourcesForgotten(NEW.maps, p, media) == NEW.maps
  {
    forall ids ensures ClosedHalfway(NEW, ids) == NEW {
      NothingToLose(ids);
    }
    forall p, media ensures SourcesForgotten(NEW.maps, p, media) == NEW.maps {
      NoSourceToLose(p, media);
    }
    if n > 0 {
      BinFromTheFirst(states, events, n - 1);
      NextShared(states, events, n - 1);
      assert Enabled(states[n - 1], events[n - 1]);
    }
  }

  lemma NothingToLose(ids: set<Id>)
    ensures ClosedHalfway(NEW, ids) == NEW
  {
    assert MapsClosed(NEW.maps, ids) == NEW.maps;
    assert NEW.pipeline.sources - (Taken(NEW.maps.audioUdp, ids) + Taken(NEW.maps.audioRtcp, ids)) == {};
  }

  lemma NoSourceToLose(p: Id, media: Media)
    ensures SourcesForgotten(NEW.maps, p, media) == NEW.maps
  {
    var none: map<Id, Source> := map[];
    assert none - {p} == none;
  }
}
