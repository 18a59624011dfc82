/** The kinds of a participant's producers: strings that are parsed without regard to case, but stored and
    compared as they come. */
module Kinds {
  import opened Common
  import opened Schema
  import opened Executor
  import opened Session
  import opened Invariants
  import opened Producing
  import opened Consuming
  import opened Joining
  import opened Leaving
  import opened Provisioning
  import opened Runs
  import Locks = KeyedLocks

  /** Two producers of one participant in one meeting whose kinds mean the same. */
  predicate SameParsedKind(a: ProducerEntry, b: ProducerEntry) {
    a.meeting == b.meeting && a.participant == b.participant && ParseKind(a.kind) == ParseKind(b.kind)
  }

  predicate SameKind(a: ProducerEntry, b: ProducerEntry) {
    a.meeting == b.meeting && a.participant == b.participant && a.kind == b.kind
  }

  ghost predicate OnePerParsedKind(producers: map<Id, ProducerEntry>) {
    forall x, y :: x in producers && y in producers && SameParsedKind(producers[x], producers[y]) ==> x == y
  }

  ghost predicate OnePerKind(producers: map<Id, ProducerEntry>) {
    forall x, y :: x in producers && y in producers && SameKind(producers[x], producers[y]) ==> x == y
  }

  function RequestedEntry(q: ProducerRequest): ProducerEntry {
    ProducerEntry(q.meeting, q.participant, q.kind, q.instance)
  }

  /** The participant already has a producer whose kind is spelled differently and means the same. */
  predicate SpelledDifferently(producers: map<Id, ProducerEntry>, q: ProducerRequest) {
    exists y :: y in producers && SameParsedKind(producers[y], RequestedEntry(q)) && producers[y].kind != q.kind
  }

  lemma StoredEntry(w: World, q: ProducerRequest, a: ProducerAnswers)
    requires ProducerStored(w, q, a)
    ensures ProducerCreated(w, q, a).mem.producers == w.mem.producers[a.produced.value := RequestedEntry(q)]
    ensures ParseKind(q.kind).Some?
  {
  }

  /** A create that commits gives the participant a second producer of one meaning exactly when one was
      there under another spelling. */
  lemma CreateDoublesIff(w: World, q: ProducerRequest, a: ProducerAnswers)
    requires ProducerStored(w, q, a) && a.produced.value !in w.mem.producers
    ensures var after, x := ProducerCreated(w, q, a).mem.producers, a.produced.value;
            && x in after && after[x] == RequestedEntry(q)
            && ((exists y :: y in after && y != x && SameParsedKind(after[y], after[x]))
                <==> SpelledDifferently(w.mem.producers, q))
            && (OnePerParsedKind(after) <==>
                OnePerParsedKind(w.mem.producers) && !SpelledDifferently(w.mem.producers, q))
  {
    var before, after, x := w.mem.producers, ProducerCreated(w, q, a).mem.producers, a.produced.value;
    StoredEntry(w, q, a);
    hide ProducerCreated;
    forall y | y in before && SameParsedKind(before[y], RequestedEntry(q)) ensures before[y].kind != q.kind {
      assert y !in ProducersOfKind(before, q.meeting, q.participant, q.kind);
    }
    AddedKind(before, x, RequestedEntry(q));
  }

  lemma AddedKind(before: map<Id, ProducerEntry>, x: Id, e: ProducerEntry)
    requires x !in before
    ensures var after := before[x := e];
            && ((exists y :: y in after && y != x && SameParsedKind(after[y], e)) <==>
                (exists y :: y in before && SameParsedKind(before[y], e)))
            && (OnePerParsedKind(after) <==>
                OnePerParsedKind(before) && !exists y :: y in before && SameParsedKind(before[y], e))
  {
    var after := before[x := e];
    forall y | y in before ensures y in after && y != x && after[y] == before[y] {
    }
    if OnePerParsedKind(after) {
      forall y, z | y in before && z in before && SameParsedKind(before[y], before[z]) ensures y == z {
        assert after[y] == before[y] && after[z] == before[z];
      }
      forall y | y in before ensures !SameParsedKind(before[y], e) {
        assert after[y] == before[y] && after[x] == e;
      }
    }
  }

  // ----- Runs -----

  lemma OthersAddNoProducer(s: System, e: Event)
    requires Inv(s) && Admissible(s, e) && !e.Produce?
    ensures forall x :: x in Step(s, e).world.mem.producers ==>
              x in s.world.mem.producers && Step(s, e).world.mem.producers[x] == s.world.mem.producers[x]
  {
    hide Inv, MeetingCreated, MeetingsReplaced, Joined, ConsumersCreated, ProducersClosed, ConsumersClosed, Left, Ended,
         DistinctMeetings, NobodyIn, HonestConsume, OwnProducers;
    match e
    case Create(q, a) => CreationOnlyRouters(s.world, q, a);
    case Replace(plans, a) => ReplacementOnlyRouters(s.world, plans, a);
    case Join(side, q, a) => JoinAddsNoProducer(s.world, side, q, a);
    case Consume(q, a) =>
      HonestCounts(s, q, a);
      ConsumeAddsNoProducer(s.world, q, a);
    case CloseProducers(p, ids, link) => ClosesAddNoProducer(s.world, p, "", ids, link);
    case CloseConsumers(m, ids, link) => ClosesAddNoProducer(s.world, "", m, ids, link);
    case Leave(q, link, removed) => LeaveAddsNoProducer(s.world, q, link, removed);
    case End(q, link) => EndAddsNoProducer(s.world, q, link);
  }

  lemma ConsumeAddsNoProducer(w: World, q: ConsumerRequest, a: ConsumerAnswers)
    requires |q.targets| == |a.consumed|
    ensures ConsumersCreated(w, q, a).0.mem.producers == w.mem.producers
  {
    hide Subscribed, Transact;
  }

  lemma ClosesAddNoProducer(w: World, p: Id, m: Id, ids: seq<Id>, link: Link)
    ensures ConsumersClosed(w, m, ids, link).mem.producers == w.mem.producers
    ensures var after := ProducersClosed(w, p, ids, link).mem.producers;
            forall x :: x in after ==> x in w.mem.producers && after[x] == w.mem.producers[x]
  {
    hide Transact, DeleteFrom;
  }

  lemma JoinAddsNoProducer(w: World, side: Side, q: JoinRequest, a: JoinAnswers)
    ensures var after := Joined(w, side, q, a).mem.producers;
            forall x :: x in after ==> x in w.mem.producers && after[x] == w.mem.producers[x]
  {
    hide *;
    JoinedMemory(w, side, q, a);
    OthersClosedKeeps(w.mem, q.participant, q.meeting, q.instance, a.removed);
  }

  lemma LeaveAddsNoProducer(w: World, q: LeaveRequest, link: Link, removed: bool)
    ensures var after := Left(w, q, link, removed).0.mem.producers;
            forall x :: x in after ==> x in w.mem.producers && after[x] == w.mem.producers[x]
  {
  }

  lemma EndAddsNoProducer(w: World, q: EndRequest, link: Link)
    ensures var after := Ended(w, q, link).mem.producers;
            forall x :: x in after ==> x in w.mem.producers && after[x] == w.mem.producers[x]
  {
  }

  lemma FewerKeepKinds(before: map<Id, ProducerEntry>, after: map<Id, ProducerEntry>)
    requires forall x :: x in after ==> x in before && after[x] == before[x]
    ensures OnePerKind(before) ==> OnePerKind(after)
    ensures OnePerParsedKind(before) ==> OnePerParsedKind(after)
    ensures Canonical(before) ==> Canonical(after)
  {
  }

  lemma ProduceKeepsOnePerKind(s: System, q: ProducerRequest, a: ProducerAnswers)
    requires OnePerKind(s.world.mem.producers)
    ensures OnePerKind(AfterProduce(s, q, a).world.mem.producers)
  {
    if ProducerStored(s.world, q, a) {
      StoredEntry(s.world, q, a);
      var before, x := s.world.mem.producers, a.produced.value;
      forall y | y in before ensures !SameKind(before[y], RequestedEntry(q)) {
        assert y !in ProducersOfKind(before, q.meeting, q.participant, q.kind);
      }
    }
  }

  /** In every state of every run a participant has at most one producer of each spelling in a meeting. */
  lemma {:induction false} OnePerKindOnRuns(states: seq<System>, events: seq<Event>, n: nat)
    requires IsRun(states, events) && n < |states|
    ensures OnePerKind(states[n].world.mem.producers)
  {
    hide Inv, OnePerKind, AfterProduce;
    if n == 0 {
      StartHasNoProducers(states[0]);
    } else {
      var s, e := states[n - 1], events[n - 1];
      OnePerKindOnRuns(states, events, n - 1);
      RunKeepsInv(states, events, n - 1);
      if e.Produce? {
        ProduceKeepsOnePerKind(s, e.produce, e.produced);
      } else {
        OthersAddNoProducer(s, e);
        FewerKeepKinds(s.world.mem.producers, states[n].world.mem.producers);
      }
    }
  }

  predicate LowercaseKind(kind: string) {
    Lowercase(kind) == kind
  }

  /** A kind that parses is spelled in lower case; one that does not parse is refused before the commit. */
  predicate SpelledInLowercase(kind: string) {
    ParseKind(kind).Some? ==> LowercaseKind(kind)
  }

  ghost predicate Canonical(producers: map<Id, ProducerEntry>) {
    forall x :: x in producers ==> LowercaseKind(producers[x].kind) && ParseKind(producers[x].kind).Some?
  }

  /** A lower-case spelling is determined by its meaning. */
  lemma OneSpelling(a: string, b: string)
    requires LowercaseKind(a) && LowercaseKind(b) && ParseKind(a).Some? && ParseKind(a) == ParseKind(b)
    ensures a == b
  {
  }

  lemma {:induction false} CanonicalOnRuns(states: seq<System>, events: seq<Event>, n: nat)
    requires IsRun(states, events) && n < |states|
    requires forall i :: 0 <= i < n && events[i].Produce? ==> SpelledInLowercase(events[i].produce.kind)
    ensures Canonical(states[n].world.mem.producers)
  {
    if n == 0 {
      StartHasNoProducers(states[0]);
    } else {
      var s, e := states[n - 1], events[n - 1];
      CanonicalOnRuns(states, events, n - 1);
      RunKeepsInv(states, events, n - 1);
      if e.Produce? {
        ProduceKeepsCanonical(s, e.produce, e.produced);
      } else {
        OthersAddNoProducer(s, e);
        FewerKeepKinds(s.world.mem.producers, states[n].world.mem.producers);
      }
      hide Inv, Admissible, Start, Canonical, AfterProduce, LowercaseKind;
    }
  }

  lemma StartHasNoProducers(s: System)
    requires Start(s)
    ensures Canonical(s.world.mem.producers) && OnePerKind(s.world.mem.producers)
  {
  }

  lemma ProduceKeepsCanonical(s: System, q: ProducerRequest, a: ProducerAnswers)
    requires Canonical(s.world.mem.producers) && SpelledInLowercase(q.kind)
    ensures Canonical(AfterProduce(s, q, a).world.mem.producers)
  {
    if ProducerStored(s.world, q, a) {
      StoredEntry(s.world, q, a);
    }
  }

  /** When all requested kinds that parse are in lower case, a participant has at most one producer of each meaning
      in a meeting, in every state of the run. */
  lemma OnePerParsedKindOnRuns(states: seq<System>, events: seq<Event>, n: nat)
    requires IsRun(states, events) && n < |states|
    requires forall i :: 0 <= i < n && events[i].Produce? ==> SpelledInLowercase(events[i].produce.kind)
    ensures OnePerParsedKind(states[n].world.mem.producers)
  {
    OnePerKindOnRuns(states, events, n);
    CanonicalOnRuns(states, events, n);
    var producers := states[n].world.mem.producers;
    forall x, y | x in producers && y in producers && SameParsedKind(producers[x], producers[y]) ensures x == y {
      OneSpelling(producers[x].kind, producers[y].kind);
      assert SameKind(producers[x], producers[y]);
    }
  }

  // ----- Interleaved creates -----

  ghost predicate CanonicalJobs(s: Locks.State) {
    && (forall t :: t in s.jobs ==> t in s.phases)
    && (forall t :: t in s.jobs && s.jobs[t].Produces? ==> SpelledInLowercase(s.jobs[t].kind))
    && (forall t :: t in s.phases && s.phases[t].Committed? ==>
          t in s.jobs && s.jobs[t].Produces? && ParseKind(s.jobs[t].kind).Some?)
    && (forall x :: x in s.producers ==>
          LowercaseKind(s.producers[x].kind) && ParseKind(s.producers[x].kind).Some?)
  }

  lemma StepKeepsCanonical(s: Locks.State, e: Locks.Event)
    requires Locks.Enabled(s, e) && CanonicalJobs(s)
    requires e.Spawn? && e.job.Produces? ==> SpelledInLowercase(e.job.kind)
    ensures CanonicalJobs(Locks.Step(s, e))
  {
    hide ParseKind, LowercaseKind;
  }

  lemma {:induction false} JobsAreCanonical(states: seq<Locks.State>, events: seq<Locks.Event>, n: nat)
    requires Locks.IsRun(states, events) && n < |states|
    requires forall i :: 0 <= i < n && events[i].Spawn? && events[i].job.Produces? ==>
               SpelledInLowercase(events[i].job.kind)
    ensures CanonicalJobs(states[n])
  {
    hide Locks.Enabled, Locks.Step, SpelledInLowercase;
    if n == 0 {
      NobodySpawned();
    } else {
      hide CanonicalJobs;
      JobsAreCanonical(states, events, n - 1);
      StepKeepsCanonical(states[n - 1], events[n - 1]);
    }
  }

  lemma NobodySpawned()
    ensures CanonicalJobs(Locks.START)
  {
  }

  /** The same holds under every interleaving of creates in fine steps: when all requested kinds that parse
      are in lower case, two producers of one participant in one meeting never mean the same kind. */
  lemma NeverTwoOfAMeaning(states: seq<Locks.State>, events: seq<Locks.Event>, n: nat, x: Id, y: Id)
    requires Locks.IsRun(states, events) && n < |states|
    requires forall i :: 0 <= i < n && events[i].Spawn? && events[i].job.Produces? ==>
               SpelledInLowercase(events[i].job.kind)
    requires x in states[n].producers && y in states[n].producers && x != y
    ensures var a, b := states[n].producers[x], states[n].producers[y];
            !(a.meeting == b.meeting && a.participant == b.participant && ParseKind(a.kind) == ParseKind(b.kind))
  {
    var a, b := states[n].producers[x], states[n].producers[y];
    JobsAreCanonical(states, events, n);
    Locks.NeverTwoOfAKind(states, events, n, x, y);
    if ParseKind(a.kind) == ParseKind(b.kind) {
      OneSpelling(a.kind, b.kind);
    }
  }
}
