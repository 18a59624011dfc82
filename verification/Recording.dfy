/** The bookkeeping of one recording pipeline: which elements and pads exist in GStreamer, and the
    per-participant maps that shadow them. GStreamer is a set of elements of each sort, the requested
    pads of each element that has any, and counts of what was added and linked; its calls are taken
    to succeed, and what it makes is new. */
module Recording {
  import opened Common

  datatype Media = Audio | Video

  /** The stages of decoding one participant's stream. */
  datatype Stage =
    | VideoQueue | VideoDepay | VideoDecoder | Convert | Scale | Caps
    | AudioQueue | AudioDepay | AudioDecoder

  datatype Decoder = Decoder(stage: Stage, made: nat)

  datatype Source = Source(media: Media, rtcp: bool, made: nat)

  datatype Sink = Sink(media: Media, made: nat)

  /** The elements that all participants share. */
  datatype Role = RtpBin | Mixer | Encoder | Compositor | PostScale | PostCaps | X264 | SplitMux

  datatype Element = Element(role: Role, made: nat)

  type Pad = nat

  datatype Session = Session(participant: Id, media: Media, rtp: Pad, rtcp: Pad)

  datatype Maps = Maps(
    audioUdp: map<Id, Source>, audioRtcp: map<Id, Source>, videoUdp: map<Id, Source>, videoRtcp: map<Id, Source>,
    audioSink: map<Id, Sink>, videoSink: map<Id, Sink>,
    videoQueue: map<Id, Decoder>, videoDepay: map<Id, Decoder>, videoDecoder: map<Id, Decoder>,
    convert: map<Id, Decoder>, scale: map<Id, Decoder>, caps: map<Id, Decoder>,
    audioQueue: map<Id, Decoder>, audioDepay: map<Id, Decoder>, audioDecoder: map<Id, Decoder>,
    mixerPads: map<Id, Pad>, compositorPads: map<Id, Pad>,
    sessions: map<nat, Session>)

  /** The requested pads of an element: those it has, and how often each was released. */
  datatype Pads = Pads(live: set<Pad>, released: multiset<Pad>)

  datatype Pipeline = Pipeline(
    made: nat,
    decoders: set<Decoder>, sources: set<Source>, sinks: set<Sink>,
    shared: set<Element>, additions: multiset<Element>, links: seq<(Element, Element)>, handlers: nat,
    mixer: Pads, compositor: Pads, rtpBin: Pads)

  /** The optional shared elements that are there, and whether the muxer's video pad was requested. */
  datatype Recorder = Recorder(shared: map<Role, Element>, videoPad: bool, maps: Maps, pipeline: Pipeline)

  const NO_PADS := Pads({}, multiset{})

  const NEW := Recorder(
    map[], false,
    Maps(map[], map[], map[], map[], map[], map[], map[], map[], map[], map[], map[], map[], map[], map[], map[],
         map[], map[], map[]),
    Pipeline(0, {}, {}, {}, {}, multiset{}, [], 0, NO_PADS, NO_PADS, NO_PADS))

  function Request(pads: Pads, asked: set<Pad>): Pads {
    pads.(live := pads.live + asked)
  }

  function Release(pads: Pads, gone: set<Pad>): Pads {
    Pads(pads.live - gone, pads.released + multiset(gone))
  }

  function Old<K, V>(m: map<K, V>, k: K): set<V> {
    if k in m then {m[k]} else {}
  }

  function Taken<K, V>(m: map<K, V>, keys: set<K>): set<V> {
    set k | k in m && k in keys :: m[k]
  }

  // ----- Starting a recording -----

  predicate MixerRole(r: Role) {
    r.Mixer? || r.Encoder?
  }

  /** Audio needs everything, video everything but the mixer and its encoder. */
  predicate Needs(media: Media, r: Role) {
    media.Audio? || !MixerRole(r)
  }

  function Missing(shared: map<Role, Element>, media: Media): set<Role> {
    set r | Needs(media, r) && r !in shared
  }

  function Obtained(shared: map<Role, Element>, media: Media, n: nat): map<Role, Element> {
    shared + (map r | r in Missing(shared, media) :: Element(r, n))
  }

  function Made(roles: set<Role>, n: nat): set<Element> {
    set r | r in roles :: Element(r, n)
  }

  /** One of a group of elements is missing, but not all of them. */
  predicate MixerGroupTorn(shared: map<Role, Element>) {
    (Mixer in shared) != (Encoder in shared)
  }

  predicate VideoGroupThere(shared: map<Role, Element>) {
    Compositor in shared && PostScale in shared && PostCaps in shared && X264 in shared
  }

  predicate VideoGroupMissing(shared: map<Role, Element>) {
    Compositor !in shared && PostScale !in shared && PostCaps !in shared && X264 !in shared
  }

  predicate VideoGroupTorn(shared: map<Role, Element>) {
    !(VideoGroupThere(shared) || VideoGroupMissing(shared))
  }

  predicate Torn(shared: map<Role, Element>, media: Media) {
    (media.Audio? && MixerGroupTorn(shared)) || VideoGroupTorn(shared)
  }

  /** The missing elements that a start adds to the pipeline before it fails on a torn group. */
  function AddedBeforeTorn(shared: map<Role, Element>, media: Media): set<Role> {
    (if RtpBin in shared then {} else {RtpBin})
    + (if media.Audio? && Mixer !in shared && Encoder !in shared then {Mixer, Encoder} else {})
  }

  function AddShared(g: Pipeline, items: set<Element>): Pipeline {
    g.(shared := g.shared + items, additions := g.additions + multiset(items))
  }

  predicate VideoLinkable(shared: map<Role, Element>) {
    Compositor in shared && PostScale in shared && PostCaps in shared && X264 in shared && SplitMux in shared
  }

  function VideoChain(shared: map<Role, Element>): seq<(Element, Element)>
    requires VideoLinkable(shared)
  {
    [(shared[Compositor], shared[PostScale]), (shared[PostScale], shared[PostCaps]),
     (shared[PostCaps], shared[X264]), (shared[X264], shared[SplitMux])]
  }

  function AudioChain(shared: map<Role, Element>): seq<(Element, Element)>
    requires Mixer in shared && Encoder in shared && SplitMux in shared
  {
    [(shared[Mixer], shared[Encoder]), (shared[Encoder], shared[SplitMux])]
  }

  /** A start with a new mixer links the video chain unless the muxer already has its video pad; a
      video start links it with a new compositor. */
  predicate LinksVideo(shared: map<Role, Element>, videoPad: bool, media: Media) {
    if media.Audio? then Mixer !in shared && !videoPad else Compositor !in shared
  }

  predicate LinksAudio(shared: map<Role, Element>, media: Media) {
    media.Audio? && Mixer !in shared
  }

  function WithSources(m: Maps, media: Media, p: Id, n: nat): Maps {
    if media.Audio? then
      m.(audioUdp := m.audioUdp[p := Source(Audio, false, n)], audioRtcp := m.audioRtcp[p := Source(Audio, true, n)])
    else
      m.(videoUdp := m.videoUdp[p := Source(Video, false, n)], videoRtcp := m.videoRtcp[p := Source(Video, true, n)])
  }

  function SourcesAdded(g: Pipeline, media: Media, n: nat): Pipeline {
    g.(made := n + 1, sources := g.sources + {Source(media, false, n), Source(media, true, n)})
  }

  function SessionOpened(m: Maps, media: Media, p: Id, session: nat, n: nat): Maps {
    m.(sessions := m.sessions[session := Session(p, media, 2 * n, 2 * n + 1)])
  }

  function VideoLinks(was: map<Role, Element>, videoPad: bool, media: Media, n: nat): seq<(Element, Element)> {
    if LinksVideo(was, videoPad, media) then VideoChain(Obtained(was, media, n)) else []
  }

  function AudioLinks(was: map<Role, Element>, media: Media, n: nat): seq<(Element, Element)> {
    if LinksAudio(was, media) then AudioChain(Obtained(was, media, n)) else []
  }

  /** The pipeline after a start that adds, links and connects what is missing in `was`. */
  function Completed(was: map<Role, Element>, videoPad: bool, media: Media, g: Pipeline, n: nat): Pipeline {
    AddShared(g, Made(Missing(was, media), n)).(
      rtpBin := Request(g.rtpBin, {2 * n, 2 * n + 1}),
      links := g.links + VideoLinks(was, videoPad, media, n) + AudioLinks(was, media, n),
      handlers := if RtpBin in was then g.handlers else g.handlers + 1)
  }

  /** The recorder after a start, and whether it succeeded: it fails when a group of shared elements is
      torn, after adding what comes before that group. */
  function Started(s: Recorder, media: Media, p: Id, session: nat): (Recorder, bool) {
    var n := s.pipeline.made;
    var maps, g := WithSources(s.maps, media, p, n), SourcesAdded(s.pipeline, media, n);
    if Torn(s.shared, media) then
      (Recorder(Obtained(s.shared, media, n), s.videoPad, maps,
                AddShared(g, Made(AddedBeforeTorn(s.shared, media), n))), false)
    else
      (Recorder(Obtained(s.shared, media, n), s.videoPad || LinksVideo(s.shared, s.videoPad, media),
                SessionOpened(maps, media, p, session, n), Completed(s.shared, s.videoPad, media, g, n)), true)
  }

  // ----- Pads of the RTP bin -----

  predicate VideoStage(st: Stage) {
    !st.AudioQueue? && !st.AudioDepay? && !st.AudioDecoder?
  }

  predicate StageOf(media: Media, st: Stage) {
    if media.Video? then VideoStage(st) else !VideoStage(st)
  }

  /** The map that holds the participants' elements of a stage. */
  function Shadow(m: Maps, st: Stage): map<Id, Decoder> {
    match st
    case VideoQueue => m.videoQueue
    case VideoDepay => m.videoDepay
    case VideoDecoder => m.videoDecoder
    case Convert => m.convert
    case Scale => m.scale
    case Caps => m.caps
    case AudioQueue => m.audioQueue
    case AudioDepay => m.audioDepay
    case AudioDecoder => m.audioDecoder
  }

  function QueueOf(media: Media): Stage {
    if media.Video? then VideoQueue else AudioQueue
  }

  /** The six maps of video stages have the same keys, and so have the three of audio stages. */
  predicate SameKeys(m: Maps) {
    && (forall st :: VideoStage(st) ==> Shadow(m, st).Keys == m.videoQueue.Keys)
    && (forall st :: !VideoStage(st) ==> Shadow(m, st).Keys == m.audioQueue.Keys)
  }

  /** The participant's present elements; the queue map alone tells whether it has any. */
  function OldDecoders(m: Maps, media: Media, p: Id): set<Decoder>
    requires SameKeys(m)
  {
    if p in Shadow(m, QueueOf(media)) then set st | StageOf(media, st) :: Shadow(m, st)[p] else {}
  }

  function NewDecoders(media: Media, n: nat): set<Decoder> {
    set st | StageOf(media, st) :: Decoder(st, n)
  }

  function WithDecoders(m: Maps, media: Media, p: Id, n: nat): Maps {
    if media.Video? then
      m.(videoQueue := m.videoQueue[p := Decoder(VideoQueue, n)],
         videoDepay := m.videoDepay[p := Decoder(VideoDepay, n)],
         videoDecoder := m.videoDecoder[p := Decoder(VideoDecoder, n)], convert := m.convert[p := Decoder(Convert, n)],
         scale := m.scale[p := Decoder(Scale, n)], caps := m.caps[p := Decoder(Caps, n)])
    else
      m.(audioQueue := m.audioQueue[p := Decoder(AudioQueue, n)],
         audioDepay := m.audioDepay[p := Decoder(AudioDepay, n)],
         audioDecoder := m.audioDecoder[p := Decoder(AudioDecoder, n)])
  }

  /** A source pad of the bin appeared: new elements decode the participant's stream instead of the
      old ones, and a new pad of the mixer or the compositor takes it instead of the old one. */
  function PadAdded(s: Recorder, media: Media, p: Id): Recorder
    requires SameKeys(s.maps)
  {
    var n, m, g := s.pipeline.made, s.maps, s.pipeline;
    var decoded := WithDecoders(m, media, p, n);
    var h := g.(made := n + 1, decoders := g.decoders - OldDecoders(m, media, p) + NewDecoders(media, n));
    if media.Video? then
      s.(maps := decoded.(compositorPads := m.compositorPads[p := n]),
         pipeline := h.(compositor := Release(Request(g.compositor, {n}), Old(m.compositorPads, p))))
    else
      s.(maps := decoded.(mixerPads := m.mixerPads[p := n]),
         pipeline := h.(mixer := Release(Request(g.mixer, {n}), Old(m.mixerPads, p))))
  }

  /** An RTCP pad of the bin appeared: a UDP sink replaces the participant's old one. */
  function SinkPadAdded(s: Recorder, media: Media, p: Id): Recorder {
    var n, m, g := s.pipeline.made, s.maps, s.pipeline;
    var sink := Sink(media, n);
    if media.Audio? then
      s.(maps := m.(audioSink := m.audioSink[p := sink]),
         pipeline := g.(made := n + 1, sinks := g.sinks - Old(m.audioSink, p) + {sink}))
    else
      s.(maps := m.(videoSink := m.videoSink[p := sink]),
         pipeline := g.(made := n + 1, sinks := g.sinks - Old(m.videoSink, p) + {sink}))
  }

  // ----- Cleaning up -----

  function SessionsOf(sessions: map<nat, Session>, ids: set<Id>, media: set<Media>): set<nat> {
    set k | k in sessions && sessions[k].participant in ids && sessions[k].media in media
  }

  function SessionPads(sessions: map<nat, Session>, keys: set<nat>): set<Pad> {
    (set k | k in sessions && k in keys :: sessions[k].rtp) + (set k | k in sessions && k in keys :: sessions[k].rtcp)
  }

  function SourcesForgotten(m: Maps, p: Id, media: Media): Maps {
    if media.Audio? then m.(audioUdp := m.audioUdp - {p}, audioRtcp := m.audioRtcp - {p})
    else m.(videoUdp := m.videoUdp - {p}, videoRtcp := m.videoRtcp - {p})
  }

  function SourcesOf(m: Maps, p: Id, media: Media): set<Source> {
    if media.Audio? then Old(m.audioUdp, p) + Old(m.audioRtcp, p) else Old(m.videoUdp, p) + Old(m.videoRtcp, p)
  }

  /** A UDP source failed to start: its elements, its sessions and their pads go. */
  function SourceFailed(s: Recorder, p: Id, media: Media): Recorder {
    var m, g := s.maps, s.pipeline;
    var gone := SessionsOf(m.sessions, {p}, {media});
    s.(maps := SourcesForgotten(m, p, media).(sessions := m.sessions - gone),
       pipeline := g.(rtpBin := Release(g.rtpBin, SessionPads(m.sessions, gone)),
                      sources := g.sources - SourcesOf(m, p, media)))
  }

  function TakenSources(m: Maps, ids: set<Id>): set<Source> {
    Taken(m.audioUdp, ids) + Taken(m.audioRtcp, ids) + Taken(m.videoUdp, ids) + Taken(m.videoRtcp, ids)
  }

  function TakenDecoders(m: Maps, ids: set<Id>): set<Decoder> {
    set st, p | p in ids && p in Shadow(m, st) :: Shadow(m, st)[p]
  }

  function SourcesTaken(m: Maps, ids: set<Id>): Maps {
    m.(audioUdp := m.audioUdp - ids, audioRtcp := m.audioRtcp - ids,
       videoUdp := m.videoUdp - ids, videoRtcp := m.videoRtcp - ids)
  }

  function DecodersTaken(m: Maps, ids: set<Id>): Maps {
    m.(videoQueue := m.videoQueue - ids, videoDepay := m.videoDepay - ids, videoDecoder := m.videoDecoder - ids,
       convert := m.convert - ids, scale := m.scale - ids, caps := m.caps - ids,
       audioQueue := m.audioQueue - ids, audioDepay := m.audioDepay - ids, audioDecoder := m.audioDecoder - ids)
  }

  /** Closing the producers of some participants takes their elements out of the pipeline, except the
      RTCP sink of video and the compositor pad, which stay until they are replaced. */
  function Closed(s: Recorder, ids: set<Id>): Recorder {
    var m, g := s.maps, s.pipeline;
    var gone := SessionsOf(m.sessions, ids, {Audio, Video});
    s.(maps := MapsClosed(m, ids),
       pipeline := g.(sources := g.sources - TakenSources(m, ids), sinks := g.sinks - Taken(m.audioSink, ids),
                      decoders := g.decoders - TakenDecoders(m, ids),
                      mixer := MixerReleased(s, ids),
                      rtpBin := Release(g.rtpBin, SessionPads(m.sessions, gone))))
  }

  function MapsClosed(m: Maps, ids: set<Id>): Maps {
    SourcesTaken(DecodersTaken(m, ids), ids).(
      audioSink := m.audioSink - ids, mixerPads := m.mixerPads - ids,
      sessions := m.sessions - SessionsOf(m.sessions, ids, {Audio, Video}))
  }

  function MixerReleased(s: Recorder, ids: set<Id>): Pads {
    if Mixer in s.shared then Release(s.pipeline.mixer, Taken(s.maps.mixerPads, ids)) else s.pipeline.mixer
  }

  /** Without an RTP bin closing fails half-way: the maps are done, but only the UDP sources of audio and
      the mixer pads have left GStreamer. */
  function ClosedHalfway(s: Recorder, ids: set<Id>): Recorder {
    var m, g := s.maps, s.pipeline;
    s.(maps := MapsClosed(m, ids),
       pipeline := g.(sources := g.sources - (Taken(m.audioUdp, ids) + Taken(m.audioRtcp, ids)),
                      mixer := MixerReleased(s, ids)))
  }

  // ----- What every operation keeps -----

  ghost predicate Injective<K(!new), V(!new)>(m: map<K, V>) {
    forall k, l :: k in m && l in m && m[k] == m[l] ==> k == l
  }

  /** The decode elements in the pipeline are exactly the values of the nine maps. */
  ghost predicate DecodersExact(m: Maps, decoders: set<Decoder>) {
    && (forall d :: d in decoders <==> d in Shadow(m, d.stage).Values)
    && (forall st, p :: p in Shadow(m, st) ==> Shadow(m, st)[p].stage == st)
    && (forall st :: Injective(Shadow(m, st)))
  }

  ghost predicate SinksExact(m: Maps, sinks: set<Sink>) {
    && sinks == m.audioSink.Values + m.videoSink.Values
    && (forall p :: p in m.audioSink ==> m.audioSink[p].media.Audio?)
    && (forall p :: p in m.videoSink ==> m.videoSink[p].media.Video?)
    && Injective(m.audioSink) && Injective(m.videoSink)
  }

  /** The live pads of an element are exactly those in its map, and every other one was released once. */
  ghost predicate PadsExact(m: map<Id, Pad>, pads: Pads, made: nat) {
    && pads.live == m.Values && Injective(m)
    && ReleasedOnce(pads, made)
  }

  ghost predicate ReleasedOnce(pads: Pads, made: nat) {
    && (forall pad :: pad in pads.live ==> pad < made && pads.released[pad] == 0)
    && (forall pad :: pad in pads.released ==> pad < made && pads.released[pad] == 1)
  }

  ghost predicate SessionsExact(sessions: map<nat, Session>, pads: Pads, made: nat) {
    && pads.live == SessionPads(sessions, sessions.Keys)
    && Paired(sessions)
    && ReleasedOnce(pads, 2 * made)
  }

  ghost predicate Generations(g: Pipeline) {
    && (forall d :: d in g.decoders ==> d.made < g.made)
    && (forall d :: d in g.sinks ==> d.made < g.made)
  }

  /** The shared elements in the pipeline are the remembered ones, and each was added once. */
  ghost predicate AddedOnce(shared: map<Role, Element>, g: Pipeline) {
    && (forall r :: r in shared ==> shared[r].role == r && shared[r].made < g.made)
    && g.shared == shared.Values && g.additions == multiset(g.shared)
  }

  /** They come in two groups, each there as a whole; a mixer only with all the others. */
  predicate Grouped(shared: map<Role, Element>, videoPad: bool) {
    && (if RtpBin in shared then VideoLinkable(shared) else forall r :: r !in shared)
    && (Encoder in shared <==> Mixer in shared)
    && (videoPad <==> RtpBin in shared)
  }

  /** Each group's chain is linked once, and the handler is connected once. */
  ghost predicate LinkedOnce(shared: map<Role, Element>, videoPad: bool, g: Pipeline)
    requires Grouped(shared, videoPad)
  {
    && g.links == (if RtpBin in shared then VideoChain(shared) else [])
                   + (if Mixer in shared then AudioChain(shared) else [])
    && g.handlers == (if RtpBin in shared then 1 else 0)
  }

  ghost predicate SharedOnce(s: Recorder) {
    AddedOnce(s.shared, s.pipeline) && Grouped(s.shared, s.videoPad) && LinkedOnce(s.shared, s.videoPad, s.pipeline)
  }

  /** The handler finds the element that takes the decoded stream, and closing the one to give the
      pads back to. */
  ghost predicate SessionsServed(s: Recorder) {
    && (forall k :: k in s.maps.sessions ==>
          RtpBin in s.shared && (s.maps.sessions[k].media.Audio? ==> Mixer in s.shared))
    && (s.maps.mixerPads != map[] ==> Mixer in s.shared)
  }

  ghost predicate Inv(s: Recorder) {
    var m, g := s.maps, s.pipeline;
    && SameKeys(m)
    && DecodersExact(m, g.decoders) && SinksExact(m, g.sinks)
    && PadsExact(m.mixerPads, g.mixer, g.made) && PadsExact(m.compositorPads, g.compositor, g.made)
    && SessionsExact(m.sessions, g.rtpBin, g.made)
    && Generations(g) && SharedOnce(s) && SessionsServed(s)
  }

  // ----- Proofs: a new source pad -----

  lemma OldOfStage(m: Maps, decoders: set<Decoder>, media: Media, p: Id, d: Decoder)
    requires SameKeys(m) && DecodersExact(m, decoders)
    ensures d in OldDecoders(m, media, p) <==> StageOf(media, d.stage) && d in Old(Shadow(m, d.stage), p)
  {
  }

  lemma ShadowsAfterPad(m: Maps, media: Media, p: Id, n: nat, st: Stage)
    ensures Shadow(WithDecoders(m, media, p, n), st) ==
            if StageOf(media, st) then Shadow(m, st)[p := Decoder(st, n)] else Shadow(m, st)
  {
  }

  lemma ReplacedValues<V>(m: map<Id, V>, p: Id, v: V, w: V)
    requires forall k, l :: k in m && l in m && m[k] == m[l] ==> k == l
    requires v !in m.Values
    ensures w in m[p := v].Values <==> w == v || (w in m.Values && w !in Old(m, p))
  {
    var now := m[p := v];
    assert now[p] == v;
    if w in m.Values && w !in Old(m, p) {
      var k :| k in m && m[k] == w;
      assert now[k] == w;
    }
  }

  lemma DecoderAfterPad(m: Maps, decoders: set<Decoder>, media: Media, p: Id, n: nat, d: Decoder)
    requires SameKeys(m) && DecodersExact(m, decoders) && forall e :: e in decoders ==> e.made < n
    ensures d in decoders - OldDecoders(m, media, p) + NewDecoders(media, n) <==>
            d in Shadow(WithDecoders(m, media, p, n), d.stage).Values
  {
    var shadow := Shadow(m, d.stage);
    ShadowsAfterPad(m, media, p, n, d.stage);
    OldOfStage(m, decoders, media, p, d);
    if StageOf(media, d.stage) {
      assert Injective(shadow);
      assert Decoder(d.stage, n) !in decoders;
      ReplacedValues(shadow, p, Decoder(d.stage, n), d);
    }
  }

  lemma StageAfterPad(was: map<Id, Decoder>, decoders: set<Decoder>, p: Id, n: nat, st: Stage)
    requires Injective(was) && forall q :: q in was ==> was[q].stage == st && was[q] in decoders
    requires forall e :: e in decoders ==> e.made < n
    ensures var now := was[p := Decoder(st, n)];
            Injective(now) && forall q :: q in now ==> now[q].stage == st
  {
  }

  lemma PadKeepsStage(m: Maps, decoders: set<Decoder>, media: Media, p: Id, n: nat, st: Stage)
    requires DecodersExact(m, decoders) && forall e :: e in decoders ==> e.made < n
    ensures var now := Shadow(WithDecoders(m, media, p, n), st);
            Injective(now) && forall q :: q in now ==> now[q].stage == st
  {
    ShadowsAfterPad(m, media, p, n, st);
    var was := Shadow(m, st);
    assert Injective(was);
    forall q | q in was ensures was[q].stage == st && was[q] in decoders {
      assert was[q] in Shadow(m, was[q].stage).Values;
    }
    StageAfterPad(was, decoders, p, n, st);
  }

  lemma PadKeepsKeys(m: Maps, media: Media, p: Id, n: nat)
    requires SameKeys(m)
    ensures SameKeys(WithDecoders(m, media, p, n))
  {
    var now := WithDecoders(m, media, p, n);
    forall st ensures Shadow(now, st).Keys == Shadow(m, st).Keys + (if StageOf(media, st) then {p} else {}) {
      ShadowsAfterPad(m, media, p, n, st);
    }
    assert Shadow(now, VideoQueue) == now.videoQueue && Shadow(now, AudioQueue) == now.audioQueue;
  }

  lemma PadKeepsDecoders(m: Maps, decoders: set<Decoder>, media: Media, p: Id, n: nat)
    requires SameKeys(m) && DecodersExact(m, decoders) && forall d :: d in decoders ==> d.made < n
    ensures DecodersExact(WithDecoders(m, media, p, n), decoders - OldDecoders(m, media, p) + NewDecoders(media, n))
  {
    var now := WithDecoders(m, media, p, n);
    forall d: Decoder
      ensures d in decoders - OldDecoders(m, media, p) + NewDecoders(media, n) <==> d in Shadow(now, d.stage).Values
    {
      DecoderAfterPad(m, decoders, media, p, n, d);
    }
    forall st: Stage
      ensures Injective(Shadow(now, st)) && forall q :: q in Shadow(now, st) ==> Shadow(now, st)[q].stage == st
    {
      PadKeepsStage(m, decoders, media, p, n, st);
    }
  }

  // ----- Proofs: closing -----

  lemma TakenOfStage(m: Maps, decoders: set<Decoder>, ids: set<Id>, d: Decoder)
    requires DecodersExact(m, decoders)
    ensures d in TakenDecoders(m, ids) <==> d in Taken(Shadow(m, d.stage), ids)
  {
  }

  lemma ShadowsAfterClose(s: Recorder, ids: set<Id>, st: Stage)
    ensures Shadow(Closed(s, ids).maps, st) == Shadow(s.maps, st) - ids
  {
    hide TakenSources, TakenDecoders, MixerReleased, SessionPads, Taken, Release;
  }

  lemma RemainingValues<V>(m: map<Id, V>, ids: set<Id>, w: V)
    requires forall k, l :: k in m && l in m && m[k] == m[l] ==> k == l
    ensures w in (m - ids).Values <==> w in m.Values && w !in Taken(m, ids)
  {
    if w in m.Values && w !in Taken(m, ids) {
      var k :| k in m && m[k] == w;
      assert (m - ids)[k] == w;
    }
  }

  lemma CloseKeepsDecoders(s: Recorder, ids: set<Id>)
    requires SameKeys(s.maps) && DecodersExact(s.maps, s.pipeline.decoders)
    ensures SameKeys(Closed(s, ids).maps)
            && DecodersExact(Closed(s, ids).maps, s.pipeline.decoders - TakenDecoders(s.maps, ids))
  {
    var m, now, decoders := s.maps, Closed(s, ids).maps, s.pipeline.decoders;
    forall st ensures Shadow(now, st) == Shadow(m, st) - ids {
      ShadowsAfterClose(s, ids, st);
    }
    forall d: Decoder ensures d in decoders - TakenDecoders(m, ids) <==> d in Shadow(now, d.stage).Values {
      TakenOfStage(m, decoders, ids, d);
      assert Injective(Shadow(m, d.stage));
      RemainingValues(Shadow(m, d.stage), ids, d);
    }
    forall st ensures Injective(Shadow(now, st)) {
      assert Injective(Shadow(m, st));
    }
  }

  // ----- Proofs: sinks -----

  lemma SinkReplaced(mine: map<Id, Sink>, other: map<Id, Sink>, sinks: set<Sink>, p: Id, v: Sink)
    requires sinks == mine.Values + other.Values && Injective(mine) && v !in sinks
    requires mine.Values !! other.Values
    ensures sinks - Old(mine, p) + {v} == mine[p := v].Values + other.Values
    ensures Injective(mine[p := v])
  {
    forall w ensures w in mine[p := v].Values <==> w == v || (w in mine.Values && w !in Old(mine, p)) {
      ReplacedValues(mine, p, v, w);
    }
    forall k | k in mine ensures mine[k] != v {
      assert mine[k] in mine.Values;
    }
  }

  lemma SinksApart(m: Maps, sinks: set<Sink>)
    requires SinksExact(m, sinks)
    ensures m.audioSink.Values !! m.videoSink.Values
  {
  }

  lemma SinkPadKeepsSinks(s: Recorder, media: Media, p: Id)
    requires SinksExact(s.maps, s.pipeline.sinks) && Generations(s.pipeline)
    ensures SinksExact(SinkPadAdded(s, media, p).maps, SinkPadAdded(s, media, p).pipeline.sinks)
  {
    var m, n := s.maps, s.pipeline.made;
    SinksApart(m, s.pipeline.sinks);
    if media.Audio? {
      SinkReplaced(m.audioSink, m.videoSink, s.pipeline.sinks, p, Sink(Audio, n));
    } else {
      SinkReplaced(m.videoSink, m.audioSink, s.pipeline.sinks, p, Sink(Video, n));
    }
  }

  lemma CloseKeepsSinks(m: Maps, sinks: set<Sink>, ids: set<Id>)
    requires SinksExact(m, sinks)
    ensures SinksExact(m.(audioSink := m.audioSink - ids), sinks - Taken(m.audioSink, ids))
  {
    SinksApart(m, sinks);
    forall w ensures w in (m.audioSink - ids).Values <==> w in m.audioSink.Values && w !in Taken(m.audioSink, ids) {
      RemainingValues(m.audioSink, ids, w);
    }
    assert Taken(m.audioSink, ids) <= m.audioSink.Values;
  }

  // ----- Proofs: pads -----

  lemma ReleaseKeepsOnce(pads: Pads, gone: set<Pad>, made: nat)
    requires ReleasedOnce(pads, made) && gone <= pads.live
    ensures ReleasedOnce(Release(pads, gone), made)
  {
  }

  lemma RequestKeepsOnce(pads: Pads, asked: set<Pad>, made: nat, later: nat)
    requires ReleasedOnce(pads, made) && made <= later && forall pad :: pad in asked ==> made <= pad < later
    ensures ReleasedOnce(Request(pads, asked), later)
  {
  }

  lemma PadReplaced(m: map<Id, Pad>, pads: Pads, n: nat, p: Id)
    requires PadsExact(m, pads, n)
    ensures PadsExact(m[p := n], Release(Request(pads, {n}), Old(m, p)), n + 1)
  {
    var asked := Request(pads, {n});
    RequestKeepsOnce(pads, {n}, n, n + 1);
    forall w ensures w in m[p := n].Values <==> w == n || (w in m.Values && w !in Old(m, p)) {
      ReplacedValues(m, p, n, w);
    }
    forall k | k in m ensures m[k] != n {
      assert m[k] in m.Values;
    }
    assert Old(m, p) <= m.Values;
    ReleaseKeepsOnce(asked, Old(m, p), n + 1);
  }

  lemma PadsTaken(m: map<Id, Pad>, pads: Pads, n: nat, ids: set<Id>)
    requires PadsExact(m, pads, n)
    ensures PadsExact(m - ids, Release(pads, Taken(m, ids)), n)
  {
    forall w ensures w in (m - ids).Values <==> w in m.Values && w !in Taken(m, ids) {
      RemainingValues(m, ids, w);
    }
    assert Taken(m, ids) <= m.Values;
    ReleaseKeepsOnce(pads, Taken(m, ids), n);
  }

  lemma SessionsTaken(sessions: map<nat, Session>, pads: Pads, n: nat, keys: set<nat>)
    requires SessionsExact(sessions, pads, n)
    ensures SessionsExact(sessions - keys, Release(pads, SessionPads(sessions, keys)), n)
  {
    var left := sessions - keys;
    assert SessionPads(sessions, keys) <= SessionPads(sessions, sessions.Keys);
    ReleaseKeepsOnce(pads, SessionPads(sessions, keys), 2 * n);
    forall pad
      ensures pad in SessionPads(left, left.Keys) <==> pad in pads.live && pad !in SessionPads(sessions, keys)
    {
      SessionPadStays(sessions, keys, pad);
    }
  }

  lemma SessionPadStays(sessions: map<nat, Session>, keys: set<nat>, pad: Pad)
    requires Paired(sessions)
    ensures var left := sessions - keys;
            pad in SessionPads(left, left.Keys) <==>
            pad in SessionPads(sessions, sessions.Keys) && pad !in SessionPads(sessions, keys)
  {
    var left := sessions - keys;
    if pad in SessionPads(sessions, sessions.Keys) && pad !in SessionPads(sessions, keys) {
      var k :| k in sessions && (sessions[k].rtp == pad || sessions[k].rtcp == pad);
      assert k in left && left[k] == sessions[k];
    }
  }

  lemma SessionPadsAdded(sessions: map<nat, Session>, k: nat, x: Session)
    requires k !in sessions
    ensures var now := sessions[k := x];
            SessionPads(now, now.Keys) == SessionPads(sessions, sessions.Keys) + {x.rtp, x.rtcp}
  {
    var now := sessions[k := x];
    assert now[k] == x;
    forall l | l in sessions ensures l in now && now[l] == sessions[l] {
    }
  }

  lemma SessionAdded(sessions: map<nat, Session>, pads: Pads, n: nat, k: nat, p: Id, media: Media)
    requires SessionsExact(sessions, pads, n) && k !in sessions
    ensures SessionsExact(sessions[k := Session(p, media, 2 * n, 2 * n + 1)], Request(pads, {2 * n, 2 * n + 1}), n + 1)
  {
    var x := Session(p, media, 2 * n, 2 * n + 1);
    RequestKeepsOnce(pads, {2 * n, 2 * n + 1}, 2 * n, 2 * (n + 1));
    SessionPadsAdded(sessions, k, x);
    OldSessionPads(sessions, pads, n);
    PairAdded(sessions, n, k, x);
  }

  /** The pads of a session are an even number and the next one, different for each session. */
  predicate Paired(sessions: map<nat, Session>) {
    && (forall k :: k in sessions ==> sessions[k].rtp % 2 == 0 && sessions[k].rtcp == sessions[k].rtp + 1)
    && (forall k, l :: k in sessions && l in sessions && sessions[k].rtp == sessions[l].rtp ==> k == l)
  }

  lemma PairAdded(sessions: map<nat, Session>, n: nat, k: nat, x: Session)
    requires Paired(sessions) && (forall l :: l in sessions ==> sessions[l].rtp < 2 * n)
    requires x.rtp == 2 * n && x.rtcp == 2 * n + 1
    ensures Paired(sessions[k := x])
  {
  }

  lemma OldSessionPads(sessions: map<nat, Session>, pads: Pads, n: nat)
    requires SessionsExact(sessions, pads, n)
    ensures forall l :: l in sessions ==> sessions[l].rtp < 2 * n
  {
    forall l | l in sessions ensures sessions[l].rtp < 2 * n {
      assert sessions[l].rtp in SessionPads(sessions, sessions.Keys);
    }
  }

  // ----- Proofs: the shared elements -----

  /** The errors for a group of which only some elements are new cannot occur. */
  lemma NeverTorn(shared: map<Role, Element>, videoPad: bool, media: Media)
    requires Grouped(shared, videoPad)
    ensures !Torn(shared, media)
  {
  }

  lemma ObtainedValue(shared: map<Role, Element>, media: Media, n: nat, e: Element)
    ensures e in Obtained(shared, media, n).Values <==> e in shared.Values || e in Made(Missing(shared, media), n)
  {
  }

  lemma DisjointMultisets<T>(a: set<T>, b: set<T>)
    requires a !! b
    ensures multiset(a + b) == multiset(a) + multiset(b)
  {
  }

  lemma ObtainedAreAdded(shared: map<Role, Element>, g: Pipeline, media: Media, n: nat)
    requires AddedOnce(shared, g) && g.made == n
    ensures AddedOnce(Obtained(shared, media, n), AddShared(g, Made(Missing(shared, media), n)).(made := n + 1))
  {
    var now, made := Obtained(shared, media, n), Made(Missing(shared, media), n);
    forall e ensures e in now.Values <==> e in shared.Values || e in made {
      ObtainedValue(shared, media, n, e);
    }
    assert now.Values == g.shared + made;
    forall e | e in made ensures e !in g.shared {
      assert e.made == n;
    }
    DisjointMultisets(g.shared, made);
  }

  lemma ObtainedAreGrouped(shared: map<Role, Element>, videoPad: bool, media: Media, n: nat)
    requires Grouped(shared, videoPad)
    ensures Grouped(Obtained(shared, media, n), videoPad || LinksVideo(shared, videoPad, media))
    ensures RtpBin in Obtained(shared, media, n)
    ensures Mixer in Obtained(shared, media, n) <==> Mixer in shared || media.Audio?
  {
  }

  lemma ChainsStay(shared: map<Role, Element>, videoPad: bool, media: Media, n: nat)
    requires Grouped(shared, videoPad)
    ensures RtpBin in shared ==>
              VideoLinkable(Obtained(shared, media, n)) && VideoChain(Obtained(shared, media, n)) == VideoChain(shared)
    ensures Mixer in shared ==>
              Encoder in Obtained(shared, media, n) && AudioChain(Obtained(shared, media, n)) == AudioChain(shared)
    ensures LinksVideo(shared, videoPad, media) <==> RtpBin !in shared
  {
  }

  lemma StartLinksOnce(shared: map<Role, Element>, videoPad: bool, media: Media, g: Pipeline, n: nat)
    requires Grouped(shared, videoPad) && LinkedOnce(shared, videoPad, g)
    ensures var now, pad := Obtained(shared, media, n), videoPad || LinksVideo(shared, videoPad, media);
            Grouped(now, pad) && LinkedOnce(now, pad, Completed(shared, videoPad, media, g, n))
  {
    ObtainedAreGrouped(shared, videoPad, media, n);
    ChainsStay(shared, videoPad, media, n);
  }

  lemma StartKeepsShared(s: Recorder, media: Media, p: Id, session: nat)
    requires SharedOnce(s)
    ensures SharedOnce(Started(s, media, p, session).0) && Started(s, media, p, session).1
  {
    NeverTorn(s.shared, s.videoPad, media);
    StartLinksOnce(s.shared, s.videoPad, media, SourcesAdded(s.pipeline, media, s.pipeline.made), s.pipeline.made);
    ObtainedAreAdded(s.shared, s.pipeline, media, s.pipeline.made);
  }
}
