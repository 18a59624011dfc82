/** What any sequence of recording operations keeps. */
module RecordingRuns {
  import opened Common
  import opened Recording

  datatype Event =
    | Start(media: Media, participant: Id, session: nat)
    | SourcePad(session: nat)
    | SinkPad(session: nat)
    | Fail(participant: Id, media: Media)
    | Close(ids: set<Id>)

  /** GStreamer gives a new session to every start and announces pads of live sessions only; cleaning
      up follows a start. */
  predicate Enabled(s: Recorder, e: Event) {
    match e
    case Start(_, _, session) => session !in s.maps.sessions
    case SourcePad(session) => session in s.maps.sessions
    case SinkPad(session) => session in s.maps.sessions
    case Fail(_, _) => RtpBin in s.shared
    case Close(_) => RtpBin in s.shared
  }

  function Step(s: Recorder, e: Event): Recorder
    requires Enabled(s, e) && SameKeys(s.maps)
  {
    match e
    case Start(media, p, session) => Started(s, media, p, session).0
    case SourcePad(session) => PadAdded(s, s.maps.sessions[session].media, s.maps.sessions[session].participant)
    case SinkPad(session) => SinkPadAdded(s, s.maps.sessions[session].media, s.maps.sessions[session].participant)
    case Fail(p, media) => SourceFailed(s, p, media)
    case Close(ids) => Closed(s, ids)
  }

  // ----- Every step -----

  /** Nothing happened to the maps of the decode elements. */
  predicate SameDecoders(m: Maps, now: Maps) {
    && now.videoQueue == m.videoQueue && now.videoDepay == m.videoDepay && now.videoDecoder == m.videoDecoder
    && now.convert == m.convert && now.scale == m.scale && now.caps == m.caps
    && now.audioQueue == m.audioQueue && now.audioDepay == m.audioDepay && now.audioDecoder == m.audioDecoder
  }

  lemma SameShadow(m: Maps, now: Maps, st: Stage)
    requires SameDecoders(m, now)
    ensures Shadow(now, st) == Shadow(m, st)
  {
  }

  lemma DecodersStay(m: Maps, now: Maps, decoders: set<Decoder>)
    requires SameDecoders(m, now) && SameKeys(m) && DecodersExact(m, decoders)
    ensures SameKeys(now) && DecodersExact(now, decoders)
  {
    forall st ensures Shadow(now, st) == Shadow(m, st) {
      SameShadow(m, now, st);
    }
    SameQueues(m, now);
    hide Shadow, SameDecoders;
  }

  lemma SameQueues(m: Maps, now: Maps)
    requires SameDecoders(m, now)
    ensures now.videoQueue == m.videoQueue && now.audioQueue == m.audioQueue
  {
  }

  lemma SameTwice(a: Maps, b: Maps, c: Maps)
    requires SameDecoders(a, b) && SameDecoders(b, c)
    ensures SameDecoders(a, c)
  {
  }

  lemma PadsLater(m: map<Id, Pad>, pads: Pads, made: nat)
    requires PadsExact(m, pads, made)
    ensures PadsExact(m, pads, made + 1)
  {
  }

  lemma SessionsLater(sessions: map<nat, Session>, pads: Pads, made: nat)
    requires SessionsExact(sessions, pads, made)
    ensures SessionsExact(sessions, pads, made + 1)
  {
  }

  ghost predicate DecodersInv(s: Recorder) {
    SameKeys(s.maps) && DecodersExact(s.maps, s.pipeline.decoders)
  }

  ghost predicate PadsInv(s: Recorder) {
    && PadsExact(s.maps.mixerPads, s.pipeline.mixer, s.pipeline.made)
    && PadsExact(s.maps.compositorPads, s.pipeline.compositor, s.pipeline.made)
    && SessionsExact(s.maps.sessions, s.pipeline.rtpBin, s.pipeline.made)
  }

  ghost predicate SharedInv(s: Recorder) {
    SharedOnce(s) && SessionsServed(s)
  }

  ghost predicate SinksInv(s: Recorder) {
    SinksExact(s.maps, s.pipeline.sinks) && Generations(s.pipeline)
  }

  lemma InvIs(s: Recorder)
    ensures Inv(s) <==> DecodersInv(s) && PadsInv(s) && SharedInv(s) && SinksInv(s)
  {
    hide SameKeys, DecodersExact, SinksExact, PadsExact, SessionsExact, Generations, SharedOnce, SessionsServed;
  }

  lemma SourcesSpareDecoders(m: Maps, media: Media, p: Id, n: nat)
    ensures SameDecoders(m, WithSources(m, media, p, n))
  {
  }

  lemma SessionsSpareDecoders(m: Maps, media: Media, p: Id, session: nat, n: nat)
    ensures SameDecoders(m, SessionOpened(m, media, p, session, n))
  {
  }

  lemma SharedSparesDecoders(was: map<Role, Element>, videoPad: bool, media: Media, g: Pipeline, n: nat)
    ensures Completed(was, videoPad, media, g, n).decoders == g.decoders
    ensures AddShared(g, Made(AddedBeforeTorn(was, media), n)).decoders == g.decoders
    ensures SourcesAdded(g, media, n).decoders == g.decoders
  {
  }

  lemma StartKeepsDecoders(s: Recorder, media: Media, p: Id, session: nat)
    requires DecodersInv(s)
    ensures DecodersInv(Started(s, media, p, session).0)
  {
    var n, after := s.pipeline.made, Started(s, media, p, session).0;
    var sourced := WithSources(s.maps, media, p, n);
    SourcesSpareDecoders(s.maps, media, p, n);
    SessionsSpareDecoders(sourced, media, p, session, n);
    SameTwice(s.maps, sourced, SessionOpened(sourced, media, p, session, n));
    SharedSparesDecoders(s.shared, s.videoPad, media, s.pipeline, n);
    SharedSparesDecoders(s.shared, s.videoPad, media, SourcesAdded(s.pipeline, media, n), n);
    hide SameKeys, DecodersExact, WithSources, SessionOpened, Completed, SourcesAdded, AddShared, SameDecoders, Torn;
    DecodersStay(s.maps, after.maps, s.pipeline.decoders);
  }

  /** `after` has one more session, for `media`, with two new pads, and no other pads changed. */
  ghost predicate OpensSession(s: Recorder, after: Recorder, media: Media, p: Id, session: nat) {
    var g, n := s.pipeline, s.pipeline.made;
    && after.pipeline.made == n + 1
    && after.pipeline.mixer == g.mixer && after.pipeline.compositor == g.compositor
    && after.pipeline.rtpBin == Request(g.rtpBin, {2 * n, 2 * n + 1})
    && after.maps.sessions == s.maps.sessions[session := Session(p, media, 2 * n, 2 * n + 1)]
    && after.maps.mixerPads == s.maps.mixerPads && after.maps.compositorPads == s.maps.compositorPads
  }

  lemma StartOpensSession(s: Recorder, media: Media, p: Id, session: nat)
    requires Started(s, media, p, session).1
    ensures OpensSession(s, Started(s, media, p, session).0, media, p, session)
  {
    hide Obtained, AddShared, Torn, VideoLinks, AudioLinks, Missing, Made, LinksVideo;
    var n := s.pipeline.made;
    CompletedPads(s.shared, s.videoPad, media, SourcesAdded(s.pipeline, media, n), n);
    hide Completed;
  }

  lemma CompletedPads(was: map<Role, Element>, videoPad: bool, media: Media, g: Pipeline, n: nat)
    ensures var h := Completed(was, videoPad, media, g, n);
            && h.made == g.made && h.mixer == g.mixer && h.compositor == g.compositor
            && h.rtpBin == Request(g.rtpBin, {2 * n, 2 * n + 1})
  {
  }

  lemma OpenedKeepsSessions(s: Recorder, after: Recorder, media: Media, p: Id, session: nat)
    requires SessionsExact(s.maps.sessions, s.pipeline.rtpBin, s.pipeline.made)
    requires session !in s.maps.sessions && OpensSession(s, after, media, p, session)
    ensures SessionsExact(after.maps.sessions, after.pipeline.rtpBin, after.pipeline.made)
  {
    SessionAdded(s.maps.sessions, s.pipeline.rtpBin, s.pipeline.made, session, p, media);
  }

  lemma OpenedKeepsPads(s: Recorder, after: Recorder, media: Media, p: Id, session: nat)
    requires PadsInv(s) && session !in s.maps.sessions && OpensSession(s, after, media, p, session)
    ensures PadsInv(after)
  {
    PadsLater(s.maps.mixerPads, s.pipeline.mixer, s.pipeline.made);
    PadsLater(s.maps.compositorPads, s.pipeline.compositor, s.pipeline.made);
    OpenedKeepsSessions(s, after, media, p, session);
  }

  lemma OpenedKeepsService(s: Recorder, after: Recorder, media: Media, p: Id, session: nat)
    requires SessionsServed(s) && OpensSession(s, after, media, p, session)
    requires RtpBin in after.shared && (Mixer in after.shared <==> Mixer in s.shared || media.Audio?)
    ensures SessionsServed(after)
  {
  }

  lemma StartKeepsSinks(s: Recorder, media: Media, p: Id, session: nat)
    requires SinksInv(s)
    ensures SinksInv(Started(s, media, p, session).0)
  {
  }

  lemma StartKeepsInv(s: Recorder, media: Media, p: Id, session: nat)
    requires Inv(s) && session !in s.maps.sessions
    ensures Inv(Started(s, media, p, session).0)
  {
    hide *;
    var after := Started(s, media, p, session).0;
    InvIs(s);
    StartKeepsSharedInv(s, media, p, session);
    StartKeepsDecoders(s, media, p, session);
    StartKeepsSinks(s, media, p, session);
    OpenedKeepsPads(s, after, media, p, session);
    InvIs(after);
  }

  lemma StartKeepsSharedInv(s: Recorder, media: Media, p: Id, session: nat)
    requires SharedInv(s)
    ensures SharedInv(Started(s, media, p, session).0)
    ensures OpensSession(s, Started(s, media, p, session).0, media, p, session)
  {
    var after := Started(s, media, p, session).0;
    StartKeepsShared(s, media, p, session);
    StartOpensSession(s, media, p, session);
    ObtainedAreGrouped(s.shared, s.videoPad, media, s.pipeline.made);
    StartObtains(s, media, p, session);
    hide Started, Obtained, OpensSession, SessionsServed, AddedOnce, LinkedOnce, Grouped;
    OpenedKeepsService(s, after, media, p, session);
  }

  lemma StartObtains(s: Recorder, media: Media, p: Id, session: nat)
    ensures Started(s, media, p, session).0.shared == Obtained(s.shared, media, s.pipeline.made)
  {
    hide Obtained, AddShared, Torn, VideoLinks, AudioLinks, Missing, Made, LinksVideo;
  }

  /** The shared elements and their links are untouched, and no session or mixer pad is added without them. */
  ghost predicate SharedUntouched(s: Recorder, after: Recorder) {
    && after.shared == s.shared && after.videoPad == s.videoPad && s.pipeline.made <= after.pipeline.made
    && after.pipeline.shared == s.pipeline.shared && after.pipeline.additions == s.pipeline.additions
    && after.pipeline.links == s.pipeline.links && after.pipeline.handlers == s.pipeline.handlers
    && (forall k :: k in after.maps.sessions ==>
          k in s.maps.sessions && after.maps.sessions[k] == s.maps.sessions[k])
    && (after.maps.mixerPads != map[] ==> s.maps.mixerPads != map[] || Mixer in s.shared)
  }

  lemma SharedStays(s: Recorder, after: Recorder)
    requires SharedInv(s) && SharedUntouched(s, after)
    ensures SharedInv(after)
  {
  }

  /** What a new source pad does to the maps and elements of decoding. */
  lemma PaddedDecoders(s: Recorder, media: Media, p: Id)
    requires SameKeys(s.maps)
    ensures SameDecoders(WithDecoders(s.maps, media, p, s.pipeline.made), PadAdded(s, media, p).maps)
    ensures PadAdded(s, media, p).pipeline.decoders
            == s.pipeline.decoders - OldDecoders(s.maps, media, p) + NewDecoders(media, s.pipeline.made)
  {
    hide OldDecoders, NewDecoders, WithDecoders, SameKeys, Shadow;
  }

  lemma PadKeepsDecodersInv(s: Recorder, media: Media, p: Id)
    requires DecodersInv(s) && Generations(s.pipeline)
    ensures DecodersInv(PadAdded(s, media, p))
  {
    var m, g, n, after := s.maps, s.pipeline, s.pipeline.made, PadAdded(s, media, p);
    hide SameKeys, DecodersExact, PadAdded, WithDecoders, OldDecoders, NewDecoders, Shadow, SameDecoders;
    PadKeepsDecoders(m, g.decoders, media, p, n);
    PadKeepsKeys(m, media, p, n);
    PaddedDecoders(s, media, p);
    DecodersStay(WithDecoders(m, media, p, n), after.maps, after.pipeline.decoders);
  }

  lemma VideoPadKeepsPads(s: Recorder, p: Id)
    requires SameKeys(s.maps) && PadsInv(s)
    ensures PadsInv(PadAdded(s, Video, p))
  {
    var after, n := PadAdded(s, Video, p), s.pipeline.made;
    assert after.pipeline.mixer == s.pipeline.mixer && after.pipeline.rtpBin == s.pipeline.rtpBin;
    SessionsLater(s.maps.sessions, s.pipeline.rtpBin, n);
    PadsLater(s.maps.mixerPads, s.pipeline.mixer, n);
    PadReplaced(s.maps.compositorPads, s.pipeline.compositor, n, p);
  }

  lemma AudioPadKeepsPads(s: Recorder, p: Id)
    requires SameKeys(s.maps) && PadsInv(s)
    ensures PadsInv(PadAdded(s, Audio, p))
  {
    var after, n := PadAdded(s, Audio, p), s.pipeline.made;
    assert after.pipeline.compositor == s.pipeline.compositor && after.pipeline.rtpBin == s.pipeline.rtpBin;
    SessionsLater(s.maps.sessions, s.pipeline.rtpBin, n);
    PadsLater(s.maps.compositorPads, s.pipeline.compositor, n);
    PadReplaced(s.maps.mixerPads, s.pipeline.mixer, n, p);
  }

  lemma PadSparesSinks(s: Recorder, media: Media, p: Id)
    requires SameKeys(s.maps)
    ensures var after := PadAdded(s, media, p);
            && after.maps.audioSink == s.maps.audioSink && after.maps.videoSink == s.maps.videoSink
            && after.pipeline.sinks == s.pipeline.sinks && after.pipeline.made == s.pipeline.made + 1
            && after.pipeline.decoders <= s.pipeline.decoders + NewDecoders(media, s.pipeline.made)
  {
    hide OldDecoders, NewDecoders, SameKeys, Shadow;
  }

  lemma PadKeepsSinks(s: Recorder, media: Media, p: Id)
    requires SameKeys(s.maps) && SinksInv(s)
    ensures SinksInv(PadAdded(s, media, p))
  {
    hide PadAdded, SameKeys, Injective;
    PadSparesSinks(s, media, p);
  }

  lemma PadSparesShared(s: Recorder, media: Media, p: Id)
    requires SameKeys(s.maps) && (media.Audio? ==> Mixer in s.shared)
    ensures SharedUntouched(s, PadAdded(s, media, p))
  {
    hide OldDecoders, NewDecoders, SameKeys, Shadow;
  }

  lemma PadKeepsPads(s: Recorder, media: Media, p: Id)
    requires SameKeys(s.maps) && PadsInv(s)
    ensures PadsInv(PadAdded(s, media, p))
  {
    hide *;
    if media == Video {
      VideoPadKeepsPads(s, p);
    } else {
      AudioPadKeepsPads(s, p);
    }
  }

  lemma PadKeepsInv(s: Recorder, media: Media, p: Id)
    requires Inv(s) && (media.Audio? ==> Mixer in s.shared)
    ensures Inv(PadAdded(s, media, p))
  {
    InvIs(s);
    HasKeys(s);
    HasGenerations(s);
    hide *;
    PadKeepsDecodersInv(s, media, p);
    PadKeepsPads(s, media, p);
    PadKeepsSinks(s, media, p);
    PadSparesShared(s, media, p);
    SharedStays(s, PadAdded(s, media, p));
    InvIs(PadAdded(s, media, p));
  }

  lemma HasGenerations(s: Recorder)
    requires SinksInv(s)
    ensures Generations(s.pipeline)
  {
  }

  lemma SinkPadKeepsPads(s: Recorder, media: Media, p: Id)
    requires PadsInv(s)
    ensures PadsInv(SinkPadAdded(s, media, p))
  {
    PadsLater(s.maps.mixerPads, s.pipeline.mixer, s.pipeline.made);
    PadsLater(s.maps.compositorPads, s.pipeline.compositor, s.pipeline.made);
    SessionsLater(s.maps.sessions, s.pipeline.rtpBin, s.pipeline.made);
    hide PadsExact, SessionsExact;
  }

  lemma SinkPadKeepsSinksInv(s: Recorder, media: Media, p: Id)
    requires SinksInv(s)
    ensures SinksInv(SinkPadAdded(s, media, p))
  {
    SinkPadKeepsSinks(s, media, p);
    hide SinksExact;
  }

  lemma SinkPadSpares(s: Recorder, media: Media, p: Id)
    ensures SameDecoders(s.maps, SinkPadAdded(s, media, p).maps)
    ensures SinkPadAdded(s, media, p).pipeline.decoders == s.pipeline.decoders
    ensures SharedUntouched(s, SinkPadAdded(s, media, p))
  {
  }

  lemma SinkPadKeepsDecoders(s: Recorder, media: Media, p: Id)
    requires DecodersInv(s)
    ensures DecodersInv(SinkPadAdded(s, media, p))
  {
    hide SinkPadAdded, SameKeys, DecodersExact, SameDecoders, SharedUntouched;
    SinkPadSpares(s, media, p);
    DecodersStay(s.maps, SinkPadAdded(s, media, p).maps, s.pipeline.decoders);
  }

  /** Replacing an RTCP sink keeps the bookkeeping exact. */
  lemma SinkPadKeepsInv(s: Recorder, media: Media, p: Id)
    requires Inv(s)
    ensures Inv(SinkPadAdded(s, media, p))
  {
    hide *;
    var after := SinkPadAdded(s, media, p);
    InvIs(s);
    SinkPadKeepsSinksInv(s, media, p);
    SinkPadKeepsPads(s, media, p);
    SinkPadKeepsDecoders(s, media, p);
    SinkPadSpares(s, media, p);
    SharedStays(s, after);
    InvIs(after);
  }

  lemma FailSpares(s: Recorder, p: Id, media: Media)
    ensures var after := SourceFailed(s, p, media);
            && SameDecoders(s.maps, after.maps) && after.pipeline.decoders == s.pipeline.decoders
            && SharedUntouched(s, after)
            && after.maps.audioSink == s.maps.audioSink && after.maps.videoSink == s.maps.videoSink
            && after.pipeline.sinks == s.pipeline.sinks && after.pipeline.made == s.pipeline.made
            && after.maps.mixerPads == s.maps.mixerPads && after.maps.compositorPads == s.maps.compositorPads
            && after.pipeline.mixer == s.pipeline.mixer && after.pipeline.compositor == s.pipeline.compositor
  {
  }

  lemma FailKeepsDecodersAndSinks(s: Recorder, p: Id, media: Media)
    requires DecodersInv(s) && SinksInv(s)
    ensures DecodersInv(SourceFailed(s, p, media)) && SinksInv(SourceFailed(s, p, media))
  {
    hide SourceFailed, SameKeys, DecodersExact, SameDecoders, SharedUntouched;
    FailSpares(s, p, media);
    DecodersStay(s.maps, SourceFailed(s, p, media).maps, s.pipeline.decoders);
  }

  lemma FailKeepsPads(s: Recorder, p: Id, media: Media)
    requires PadsInv(s)
    ensures PadsInv(SourceFailed(s, p, media))
  {
    SessionsTaken(s.maps.sessions, s.pipeline.rtpBin, s.pipeline.made, SessionsOf(s.maps.sessions, {p}, {media}));
    FailSpares(s, p, media);
    hide PadsExact, SessionsExact, SessionPads, SessionsOf, SameDecoders, SharedUntouched;
  }

  /** Taking out a failed source keeps the bookkeeping exact. */
  lemma FailKeepsInv(s: Recorder, p: Id, media: Media)
    requires Inv(s)
    ensures Inv(SourceFailed(s, p, media))
  {
    hide *;
    var after := SourceFailed(s, p, media);
    InvIs(s);
    FailKeepsDecodersAndSinks(s, p, media);
    FailKeepsPads(s, p, media);
    FailSpares(s, p, media);
    SharedStays(s, after);
    InvIs(after);
  }

  lemma MixerPadsGoBack(s: Recorder, ids: set<Id>)
    requires SessionsServed(s)
    ensures MixerReleased(s, ids) == Release(s.pipeline.mixer, Taken(s.maps.mixerPads, ids))
  {
    if Mixer !in s.shared {
      assert Taken(s.maps.mixerPads, ids) == {};
    }
  }

  lemma CloseSparesShared(s: Recorder, ids: set<Id>)
    ensures SharedUntouched(s, Closed(s, ids))
  {
    hide TakenSources, TakenDecoders, MixerReleased, SessionPads;
  }

  lemma CloseKeepsDecodersInv(s: Recorder, ids: set<Id>)
    requires DecodersInv(s)
    ensures DecodersInv(Closed(s, ids))
  {
    hide SameKeys, DecodersExact, TakenSources, TakenDecoders, MixerReleased, SessionPads, MapsClosed;
    CloseKeepsDecoders(s, ids);
  }

  lemma ClosedParts(s: Recorder, ids: set<Id>)
    ensures var m, now, gone := s.maps, Closed(s, ids), SessionsOf(s.maps.sessions, ids, {Audio, Video});
            && now.maps.audioSink == m.audioSink - ids && now.maps.videoSink == m.videoSink
            && now.maps.mixerPads == m.mixerPads - ids && now.maps.compositorPads == m.compositorPads
            && now.maps.sessions == m.sessions - gone
            && now.pipeline.sinks == s.pipeline.sinks - Taken(m.audioSink, ids)
            && now.pipeline.mixer == MixerReleased(s, ids) && now.pipeline.compositor == s.pipeline.compositor
            && now.pipeline.rtpBin == Release(s.pipeline.rtpBin, SessionPads(m.sessions, gone))
            && now.pipeline.made == s.pipeline.made && now.pipeline.decoders <= s.pipeline.decoders
  {
    hide TakenSources, TakenDecoders, MixerReleased, SessionPads, Taken;
  }

  lemma CloseKeepsSinksInv(s: Recorder, ids: set<Id>)
    requires SinksInv(s)
    ensures SinksInv(Closed(s, ids))
  {
    hide Closed, Taken, MixerReleased, SessionPads, SessionsOf;
    ClosedParts(s, ids);
    CloseKeepsSinks(s.maps, s.pipeline.sinks, ids);
  }

  lemma CloseKeepsPads(s: Recorder, ids: set<Id>)
    requires PadsInv(s) && SessionsServed(s)
    ensures PadsInv(Closed(s, ids))
  {
    hide Closed, Taken, MixerReleased, SessionPads, SessionsOf, PadsExact, SessionsExact, SessionsServed;
    ClosedParts(s, ids);
    MixerPadsGoBack(s, ids);
    PadsTaken(s.maps.mixerPads, s.pipeline.mixer, s.pipeline.made, ids);
    SessionsTaken(s.maps.sessions, s.pipeline.rtpBin, s.pipeline.made,
                  SessionsOf(s.maps.sessions, ids, {Audio, Video}));
  }

  lemma AreServed(s: Recorder)
    requires SharedInv(s)
    ensures SessionsServed(s)
  {
  }

  lemma CloseKeepsInv(s: Recorder, ids: set<Id>)
    requires Inv(s)
    ensures Inv(Closed(s, ids))
  {
    hide *;
    InvIs(s);
    AreServed(s);
    CloseKeepsDecodersInv(s, ids);
    CloseKeepsSinksInv(s, ids);
    CloseKeepsPads(s, ids);
    CloseSparesShared(s, ids);
    SharedStays(s, Closed(s, ids));
    InvIs(Closed(s, ids));
  }

  lemma StepKeepsInv(s: Recorder, e: Event)
    requires Inv(s) && Enabled(s, e)
    ensures Inv(Step(s, e))
  {
    match e
    case Start(media, p, session) => StartKeepsInv(s, media, p, session);
    case SourcePad(session) => PadKeepsInv(s, s.maps.sessions[session].media, s.maps.sessions[session].participant);
    case SinkPad(session) => SinkPadKeepsInv(s, s.maps.sessions[session].media, s.maps.sessions[session].participant);
    case Fail(p, media) => FailKeepsInv(s, p, media);
    case Close(ids) => CloseKeepsInv(s, ids);
  }

  /** Where the handler's unwraps would panic, anything may follow. */
  ghost predicate Follows(s: Recorder, e: Event, t: Recorder)
    requires Enabled(s, e)
  {
    SameKeys(s.maps) ==> t == Step(s, e)
  }

  ghost predicate IsRun(states: seq<Recorder>, events: seq<Event>) {
    && |states| == |events| + 1
    && states[0] == NEW
    && forall i :: 0 <= i < |events| ==> Enabled(states[i], events[i]) && Follows(states[i], events[i], states[i + 1])
  }

  lemma NewHasInv()
    ensures Inv(NEW)
  {
    NewDecoding();
    NewPads();
    NewSharing();
    hide SameKeys, DecodersExact, SinksExact, PadsExact, SessionsExact, Generations, SharedOnce, SessionsServed;
  }

  lemma NewDecoding()
    ensures SameKeys(NEW.maps) && DecodersExact(NEW.maps, {}) && SinksExact(NEW.maps, {}) && Generations(NEW.pipeline)
  {
    assert forall st :: Shadow(NEW.maps, st) == map[];
  }

  lemma NewPads()
    ensures PadsExact(map[], NO_PADS, 0) && SessionsExact(map[], NO_PADS, 0)
  {
    assert SessionPads(map[], {}) == {};
  }

  lemma NewSharing()
    ensures SharedOnce(NEW) && SessionsServed(NEW)
  {
  }

  lemma {:induction false} RunKeepsInv(states: seq<Recorder>, events: seq<Event>, n: nat)
    requires IsRun(states, events) && n < |states|
    ensures Inv(states[n])
  {
    if n == 0 {
      NewHasInv();
    } else {
      RunKeepsInv(states, events, n - 1);
      StepKeepsInv(states[n - 1], events[n - 1]);
    }
  }

  /** Conservation: after any run the six video maps have the same keys and so have the three audio
      ones, so the handler finds all old elements when it finds one; the decode elements in the
      pipeline are exactly the values of the maps; the live mixer and compositor pads are exactly
      those in their maps, and no pad was released twice. */
  lemma RecordingIsConserved(states: seq<Recorder>, events: seq<Event>, n: nat)
    requires IsRun(states, events) && n < |states|
    ensures var m, g := states[n].maps, states[n].pipeline;
            && SameKeys(m)
            && (forall d :: d in g.decoders <==> d in Shadow(m, d.stage).Values)
            && (forall st, p, q ::
                  p in Shadow(m, st) && q in Shadow(m, st) && Shadow(m, st)[p] == Shadow(m, st)[q] ==> p == q)
            && g.mixer.live == m.mixerPads.Values && g.compositor.live == m.compositorPads.Values
            && (forall pad :: g.mixer.released[pad] <= 1 && g.compositor.released[pad] <= 1)
  {
    RunKeepsInv(states, events, n);
    assert forall st :: Injective(Shadow(states[n].maps, st));
    assert PadsInv(states[n]);
    forall pad ensures states[n].pipeline.mixer.released[pad] <= 1 && states[n].pipeline.compositor.released[pad] <= 1 {
      ReleasedAtMostOnce(states[n].pipeline.mixer, states[n].pipeline.made, pad);
      ReleasedAtMostOnce(states[n].pipeline.compositor, states[n].pipeline.made, pad);
    }
  }

  lemma ReleasedAtMostOnce(pads: Pads, made: nat, pad: Pad)
    requires ReleasedOnce(pads, made)
    ensures pads.released[pad] <= 1
  {
  }

  predicate Kept(pads: Pads, pad: Pad) {
    pad in pads.live || pads.released[pad] == 1
  }

  lemma PadKeepsKept(s: Recorder, media: Media, p: Id, pad: Pad)
    requires SameKeys(s.maps) && PadsInv(s)
    ensures Kept(s.pipeline.mixer, pad) ==> Kept(PadAdded(s, media, p).pipeline.mixer, pad)
    ensures Kept(s.pipeline.compositor, pad) ==> Kept(PadAdded(s, media, p).pipeline.compositor, pad)
  {
  }

  lemma CloseKeepsKept(s: Recorder, ids: set<Id>, pad: Pad)
    requires PadsInv(s)
    ensures Kept(s.pipeline.mixer, pad) ==> Kept(Closed(s, ids).pipeline.mixer, pad)
    ensures Kept(s.pipeline.compositor, pad) ==> Kept(Closed(s, ids).pipeline.compositor, pad)
  {
  }

  lemma StartSparesPads(s: Recorder, media: Media, p: Id, session: nat)
    ensures var g := Started(s, media, p, session).0.pipeline;
            g.mixer == s.pipeline.mixer && g.compositor == s.pipeline.compositor
  {
  }

  lemma StepKeepsPad(s: Recorder, e: Event, pad: Pad)
    requires SameKeys(s.maps) && PadsInv(s) && Enabled(s, e)
    ensures Kept(s.pipeline.mixer, pad) ==> Kept(Step(s, e).pipeline.mixer, pad)
    ensures Kept(s.pipeline.compositor, pad) ==> Kept(Step(s, e).pipeline.compositor, pad)
  {
    match e
    case Start(media, p, session) => StartSparesPads(s, media, p, session);
    case SourcePad(session) =>
      PadKeepsKept(s, s.maps.sessions[session].media, s.maps.sessions[session].participant, pad);
    case Close(ids) => CloseKeepsKept(s, ids, pad);
    case _ =>
      assert Step(s, e).pipeline.mixer == s.pipeline.mixer && Step(s, e).pipeline.compositor == s.pipeline.compositor;
  }

  lemma NextKeepsPad(states: seq<Recorder>, events: seq<Event>, n: nat, pad: Pad)
    requires IsRun(states, events) && n + 1 < |states|
    ensures Kept(states[n].pipeline.mixer, pad) ==> Kept(states[n + 1].pipeline.mixer, pad)
    ensures Kept(states[n].pipeline.compositor, pad) ==> Kept(states[n + 1].pipeline.compositor, pad)
  {
    RunKeepsInv(states, events, n);
    InvIs(states[n]);
    HasKeys(states[n]);
    hide Inv, PadsInv, SharedInv, DecodersInv, SinksInv, SameKeys, Step, Kept, Enabled;
    StepKeepsPad(states[n], events[n], pad);
  }

  /** A mixer or compositor pad that was ever requested is still in use, or was released exactly once. */
  lemma {:induction false} PadIsNeverLost(states: seq<Recorder>, events: seq<Event>, i: nat, n: nat, pad: Pad)
    requires IsRun(states, events) && i <= n < |states|
    ensures pad in states[i].pipeline.mixer.live ==> Kept(states[n].pipeline.mixer, pad)
    ensures pad in states[i].pipeline.compositor.live ==> Kept(states[n].pipeline.compositor, pad)
    decreases n - i
  {
    hide IsRun;
    if i < n {
      PadIsNeverLost(states, events, i, n - 1, pad);
      NextKeepsPad(states, events, n - 1, pad);
    }
  }

  // ----- The shared elements over a run -----

  predicate AnyStarted(events: seq<Event>, n: nat)
    requires n <= |events|
  {
    exists i :: 0 <= i < n && events[i].Start?
  }

  predicate AudioStarted(events: seq<Event>, n: nat)
    requires n <= |events|
  {
    exists i :: 0 <= i < n && events[i].Start? && events[i].media.Audio?
  }

  lemma RunKeepsShared(states: seq<Recorder>, events: seq<Event>, n: nat)
    requires IsRun(states, events) && n < |states|
    ensures SameKeys(states[n].maps) && SharedOnce(states[n])
  {
    RunKeepsInv(states, events, n);
  }

  lemma StepShared(s: Recorder, e: Event)
    requires SameKeys(s.maps) && Enabled(s, e)
    ensures Step(s, e).shared == if e.Start? then Obtained(s.shared, e.media, s.pipeline.made) else s.shared
  {
  }

  lemma NextShared(states: seq<Recorder>, events: seq<Event>, n: nat)
    requires IsRun(states, events) && n < |events|
    ensures RtpBin in states[n + 1].shared <==> RtpBin in states[n].shared || events[n].Start?
    ensures Mixer in states[n + 1].shared <==> Mixer in states[n].shared || (events[n].Start? && events[n].media.Audio?)
  {
    RunKeepsShared(states, events, n);
    StepShared(states[n], events[n]);
  }

  lemma {:induction false} RolesFollowStarts(states: seq<Recorder>, events: seq<Event>, n: nat)
    requires IsRun(states, events) && n < |states|
    ensures RtpBin in states[n].shared <==> AnyStarted(events, n)
    ensures Mixer in states[n].shared <==> AudioStarted(events, n)
  {
    if n > 0 {
      RolesFollowStarts(states, events, n - 1);
      NextShared(states, events, n - 1);
      var e := events[n - 1];
      assert AnyStarted(events, n) <==> AnyStarted(events, n - 1) || e.Start?;
      assert AudioStarted(events, n) <==> AudioStarted(events, n - 1) || (e.Start? && e.media.Audio?);
    }
  }

  lemma AdditionsAreSingle(shared: map<Role, Element>, g: Pipeline)
    requires AddedOnce(shared, g)
    ensures forall e :: g.additions[e] <= 1
    ensures forall d, e :: d in g.additions && e in g.additions && d.role == e.role ==> d == e
  {
  }

  /** Over any run of starts in any order, with anything else in between: every start gets past the
      errors for a torn group; each shared element is added at most once, one for each role; once a
      start happened, the video chain is linked exactly once and the handler is connected exactly
      once; and the audio chain is linked exactly once if some start was audio, and not otherwise. */
  lemma SharedElementsOnce(states: seq<Recorder>, events: seq<Event>, n: nat)
    requires IsRun(states, events) && n < |states|
    ensures n < |events| && events[n].Start? ==>
              Started(states[n], events[n].media, events[n].participant, events[n].session).1
    ensures forall e :: states[n].pipeline.additions[e] <= 1
    ensures forall d, e ::
            d in states[n].pipeline.additions && e in states[n].pipeline.additions && d.role == e.role ==> d == e
    ensures states[n].pipeline.handlers == if AnyStarted(events, n) then 1 else 0
    ensures Grouped(states[n].shared, states[n].videoPad)
    ensures (RtpBin in states[n].shared <==> AnyStarted(events, n))
            && (Mixer in states[n].shared <==> AudioStarted(events, n))
    ensures states[n].pipeline.links == (if AnyStarted(events, n) then VideoChain(states[n].shared) else [])
                                        + (if AudioStarted(events, n) then AudioChain(states[n].shared) else [])
  {
    RunKeepsShared(states, events, n);
    RolesFollowStarts(states, events, n);
    AdditionsAreSingle(states[n].shared, states[n].pipeline);
    if n < |events| && events[n].Start? {
      StartKeepsShared(states[n], events[n].media, events[n].participant, events[n].session);
    }
  }

  // ----- What closing leaves behind -----

  /** Some map of the recorder has an entry for the participant, or some session is its own. */
  predicate Mentions(m: Maps, p: Id) {
    || MentionsSource(m, p) || (exists st :: p in Shadow(m, st))
    || p in m.audioSink || p in m.mixerPads || p in m.videoSink || p in m.compositorPads
    || exists k :: k in m.sessions && m.sessions[k].participant == p
  }

  predicate MentionsSource(m: Maps, p: Id) {
    p in m.audioUdp || p in m.audioRtcp || p in m.videoUdp || p in m.videoRtcp
  }

  lemma CloseLeavesOnly(s: Recorder, ids: set<Id>, p: Id)
    requires p in ids
    ensures Mentions(Closed(s, ids).maps, p) <==> p in s.maps.videoSink || p in s.maps.compositorPads
  {
    forall st ensures p !in Shadow(Closed(s, ids).maps, st) {
      ShadowsAfterClose(s, ids, st);
    }
    forall k | k in Closed(s, ids).maps.sessions ensures s.maps.sessions[k].participant !in ids {
      match s.maps.sessions[k].media
      case Audio =>
      case Video =>
    }
  }

  /** Closing participants leaves nothing of them in any map exactly when none of them has an RTCP sink
      of video or a compositor pad. */
  lemma CloseLeavesNothingIff(s: Recorder, ids: set<Id>)
    ensures (forall p :: p in ids ==> !Mentions(Closed(s, ids).maps, p))
            <==> ids !! s.maps.videoSink.Keys && ids !! s.maps.compositorPads.Keys
  {
    forall p | p in ids
      ensures Mentions(Closed(s, ids).maps, p) <==> p in s.maps.videoSink || p in s.maps.compositorPads
    {
      CloseLeavesOnly(s, ids, p);
    }
  }

  /** A run after which a closed participant is still there: its video started, its pads appeared, and
      it was closed. */
  lemma CloseCanLeaveSomething(p: Id) returns (states: seq<Recorder>)
    ensures IsRun(states, [Start(Video, p, 0), SourcePad(0), SinkPad(0), Close({p})])
    ensures p in states[4].maps.videoSink && p in states[4].maps.compositorPads
    ensures states[4].maps.compositorPads[p] in states[4].pipeline.compositor.live
  {
    hide Inv, Started, PadAdded, SinkPadAdded, Closed, OpensSession;
    NewHasInv();
    var one := Started(NEW, Video, p, 0).0;
    StartKeepsInv(NEW, Video, p, 0);
    FirstVideoStart(p);
    HasKeys(one);
    var two, three := PadAdded(one, Video, p), SinkPadAdded(PadAdded(one, Video, p), Video, p);
    PadKeepsInv(one, Video, p);
    HasKeys(two);
    SinkPadKeepsInv(two, Video, p);
    HasKeys(three);
    PadsOfAVideo(one, p);
    CloseKeepsInv(three, {p});
    HasKeys(Closed(three, {p}));
    states := [NEW, one, two, three, Closed(three, {p})];
  }

  lemma HasKeys(s: Recorder)
    requires Inv(s)
    ensures SameKeys(s.maps)
    ensures forall p :: p in s.maps.compositorPads ==> s.maps.compositorPads[p] in s.pipeline.compositor.live
  {
    assert PadsExact(s.maps.compositorPads, s.pipeline.compositor, s.pipeline.made);
  }

  lemma FirstVideoStart(p: Id)
    ensures var one := Started(NEW, Video, p, 0).0;
            0 in one.maps.sessions && one.maps.sessions[0].participant == p && one.maps.sessions[0].media == Video
    ensures RtpBin in Started(NEW, Video, p, 0).0.shared && SameKeys(NEW.maps) && NEW.maps.sessions == map[]
  {
    NewHasInv();
    HasKeys(NEW);
    StartKeepsShared(NEW, Video, p, 0);
    StartOpensSession(NEW, Video, p, 0);
    StartObtains(NEW, Video, p, 0);
    ObtainedAreGrouped(NEW.shared, NEW.videoPad, Video, 0);
    hide Inv, Started, SharedOnce;
  }

  /** Neither the RTCP pad after a source pad nor the close undoes what the source pad brought. */
  lemma PadsOfAVideo(s: Recorder, p: Id)
    requires SameKeys(s.maps)
    ensures var two, three := PadAdded(s, Video, p), SinkPadAdded(PadAdded(s, Video, p), Video, p);
            && two.maps.sessions == s.maps.sessions && three.maps.sessions == s.maps.sessions
            && two.shared == s.shared && three.shared == s.shared
            && p in Closed(three, {p}).maps.videoSink && p in Closed(three, {p}).maps.compositorPads
  {
  }

  // ----- What a failing source takes with it -----

  /** A failing source takes the participant's sources and sessions of one medium, with the pads of those
      sessions, and nothing else: every other session keeps its pads. */
  lemma FailureErasesOneMedium(s: Recorder, p: Id, media: Media)
    requires Inv(s)
    ensures var m, now := s.maps, SourceFailed(s, p, media);
            && (forall k :: k in m.sessions ==>
                  (k in now.maps.sessions <==> !(m.sessions[k].participant == p && m.sessions[k].media == media)))
            && (forall k :: k in now.maps.sessions ==> now.maps.sessions[k] == m.sessions[k])
            && now.pipeline.rtpBin.live == SessionPads(now.maps.sessions, now.maps.sessions.Keys)
            && (forall pad :: pad in s.pipeline.rtpBin.live && pad !in now.pipeline.rtpBin.live ==>
                  now.pipeline.rtpBin.released[pad] == 1)
            && now.pipeline.sources == s.pipeline.sources - SourcesOf(m, p, media)
            && SourcesOf(now.maps, p, media) == {}
            && (forall q, other :: q != p || other != media ==> SourcesOf(now.maps, q, other) == SourcesOf(m, q, other))
  {
    hide Inv, SourceFailed, SourcesOf, SourcesForgotten, SessionPads;
    HasSessions(s);
    FailureEndsSessions(s, p, media);
    FailureParts(s, p, media);
    SourcesOfTheOthers(s.maps, p, media);
  }

  lemma FailureEndsSessions(s: Recorder, p: Id, media: Media)
    requires SessionsExact(s.maps.sessions, s.pipeline.rtpBin, s.pipeline.made)
    ensures var m, now := s.maps, SourceFailed(s, p, media);
            && (forall k :: k in m.sessions ==>
                  (k in now.maps.sessions <==> !(m.sessions[k].participant == p && m.sessions[k].media == media)))
            && (forall k :: k in now.maps.sessions ==> now.maps.sessions[k] == m.sessions[k])
            && now.pipeline.rtpBin.live == SessionPads(now.maps.sessions, now.maps.sessions.Keys)
            && (forall pad :: pad in s.pipeline.rtpBin.live && pad !in now.pipeline.rtpBin.live ==>
                  now.pipeline.rtpBin.released[pad] == 1)
  {
    hide SourceFailed, SourcesOf, SourcesForgotten, SessionsExact, SessionPads, Release;
    FailureParts(s, p, media);
    FailedSessions(s, p, media, SessionsOf(s.maps.sessions, {p}, {media}));
  }

  lemma FailureParts(s: Recorder, p: Id, media: Media)
    ensures var m, now, gone := s.maps, SourceFailed(s, p, media), SessionsOf(s.maps.sessions, {p}, {media});
            && now.maps.sessions == m.sessions - gone
            && now.pipeline.rtpBin == Release(s.pipeline.rtpBin, SessionPads(m.sessions, gone))
            && now.pipeline.sources == s.pipeline.sources - SourcesOf(m, p, media)
            && forall q, other :: SourcesOf(now.maps, q, other) == SourcesOf(SourcesForgotten(m, p, media), q, other)
  {
    SourcesDoNotMatter(s, p, media);
    hide SourcesOf;
  }

  lemma HasSessions(s: Recorder)
    requires Inv(s)
    ensures SessionsExact(s.maps.sessions, s.pipeline.rtpBin, s.pipeline.made)
  {
    hide SessionsExact, SameKeys, DecodersExact, SinksExact, PadsExact, SharedOnce, SessionsServed, Generations;
  }

  lemma SourcesDoNotMatter(s: Recorder, p: Id, media: Media)
    ensures var now, left := SourceFailed(s, p, media).maps, SourcesForgotten(s.maps, p, media);
            forall q, other :: SourcesOf(now, q, other) == SourcesOf(left, q, other)
  {
  }

  lemma FailedSessions(s: Recorder, p: Id, media: Media, gone: set<nat>)
    requires SessionsExact(s.maps.sessions, s.pipeline.rtpBin, s.pipeline.made)
    requires gone == SessionsOf(s.maps.sessions, {p}, {media})
    ensures var left, bin := s.maps.sessions - gone, Release(s.pipeline.rtpBin, SessionPads(s.maps.sessions, gone));
            && bin.live == SessionPads(left, left.Keys)
            && forall pad :: pad in s.pipeline.rtpBin.live && pad !in bin.live ==> bin.released[pad] == 1
  {
    SessionsTaken(s.maps.sessions, s.pipeline.rtpBin, s.pipeline.made, gone);
    ReleasedNow(s.pipeline.rtpBin, SessionPads(s.maps.sessions, gone), 2 * s.pipeline.made);
  }

  lemma ReleasedNow(pads: Pads, gone: set<Pad>, made: nat)
    requires ReleasedOnce(pads, made)
    ensures forall pad :: pad in pads.live && pad !in Release(pads, gone).live ==>
              Release(pads, gone).released[pad] == 1
  {
  }

  lemma SourcesOfTheOthers(m: Maps, p: Id, media: Media)
    ensures SourcesOf(SourcesForgotten(m, p, media), p, media) == {}
    ensures forall q, other :: q != p || other != media ==>
              SourcesOf(SourcesForgotten(m, p, media), q, other) == SourcesOf(m, q, other)
  {
  }

  /** After an RTCP pad of a session the participant has exactly one sink of that medium in the pipeline,
      the new one, and everyone else's sinks are the ones they had. */
  lemma SinkIsReplaced(s: Recorder, media: Media, p: Id)
    requires Inv(s)
    ensures var now, sink := SinkPadAdded(s, media, p), Sink(media, s.pipeline.made);
            && SinkOf(now.maps, media, p) == {sink} && sink in now.pipeline.sinks && sink !in s.pipeline.sinks
            && SinkOf(s.maps, media, p) !! now.pipeline.sinks
            && (forall q, other :: q != p || other != media ==>
                  SinkOf(now.maps, other, q) == SinkOf(s.maps, other, q) <= now.pipeline.sinks)
  {
    SinkPadKeepsSinks(s, media, p);
    SinksApart(s.maps, s.pipeline.sinks);
    NewSinkOf(s, media, p);
    forall q, other | q != p || other != media
      ensures SinkOf(SinkPadAdded(s, media, p).maps, other, q) == SinkOf(s.maps, other, q)
      ensures SinkOf(s.maps, other, q) <= SinkPadAdded(s, media, p).pipeline.sinks
    {
      SinkOfAnother(s, media, p, q, other);
      SinkStays(SinkPadAdded(s, media, p), other, q);
    }
  }

  lemma NewSinkOf(s: Recorder, media: Media, p: Id)
    requires SinksExact(s.maps, s.pipeline.sinks) && Generations(s.pipeline)
    ensures var now, sink := SinkPadAdded(s, media, p), Sink(media, s.pipeline.made);
            && SinkOf(now.maps, media, p) == {sink} && sink in now.pipeline.sinks && sink !in s.pipeline.sinks
            && SinkOf(s.maps, media, p) !! now.pipeline.sinks
  {
  }

  lemma SinkOfAnother(s: Recorder, media: Media, p: Id, q: Id, other: Media)
    requires q != p || other != media
    ensures SinkOf(SinkPadAdded(s, media, p).maps, other, q) == SinkOf(s.maps, other, q)
  {
  }

  lemma SinkStays(s: Recorder, media: Media, p: Id)
    requires SinksExact(s.maps, s.pipeline.sinks)
    ensures SinkOf(s.maps, media, p) <= s.pipeline.sinks
  {
  }

  function SinkOf(m: Maps, media: Media, p: Id): set<Sink> {
    Old(if media.Audio? then m.audioSink else m.videoSink, p)
  }
}
