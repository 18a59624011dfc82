/** The keyed async locks: any number of `create_producer` and rejoin tasks interleaved in fine steps,
    with producers being closed without any lock in between. */
module KeyedLocks {
  import opened Common
  import Session

  /** `create_producer` locks by meeting, the two rejoin helpers by participant, in one lock map. */
  datatype Job = Produces(meeting: Id, participant: Id, kind: string) | Rejoins(participant: Id)

  function LockKey(job: Job): Id {
    if job.Produces? then job.meeting else job.participant
  }

  type Mutex = nat

  type Task = nat

  datatype Phase =
    | Begun
    | Waiting(mutex: Mutex)
    | Holding(mutex: Mutex)
    | Absent(mutex: Mutex)
    | Committed(mutex: Mutex, producer: Id)
    | Finished(mutex: Mutex)
    | Done

  datatype Known = Known(meeting: Id, participant: Id, kind: string)

  datatype State = State(locks: map<Id, Mutex>, made: nat, holders: map<Mutex, Task>,
                         jobs: map<Task, Job>, phases: map<Task, Phase>, producers: map<Id, Known>)

  predicate Locks(phase: Phase) {
    phase.Holding? || phase.Absent? || phase.Committed? || phase.Finished?
  }

  predicate Exists(producers: map<Id, Known>, job: Job)
    requires job.Produces?
  {
    exists x :: x in producers && producers[x] == Known(job.meeting, job.participant, job.kind)
  }

  datatype Event =
    | Spawn(task: Task, job: Job)
    | LookUp(task: Task)              // clone the mutex of the key, making it when there is none
    | Acquire(task: Task)
    | Check(task: Task)               // look for the producer in `producer_map`
    | Commit(task: Task, producer: Id)  // only of a kind that parses; a task of any other kind abandons
    | Insert(task: Task)              // into `producer_map`
    | Abandon(task: Task)             // a foreign call fails, or a rejoin is through
    | Release(task: Task)             // the guard is dropped; also when the task is cancelled
    | Close(ids: set<Id>)             // closing, leaving, ending and rejoining remove without this lock

  predicate Enabled(s: State, e: Event) {
    match e
    case Spawn(t, _) => t !in s.phases
    case LookUp(t) => t in s.phases && t in s.jobs && s.phases[t].Begun?
    case Acquire(t) => t in s.phases && s.phases[t].Waiting? && s.phases[t].mutex !in s.holders
    case Check(t) => t in s.phases && t in s.jobs && s.phases[t].Holding? && s.jobs[t].Produces?
    case Commit(t, _) =>
      && t in s.phases && t in s.jobs && s.phases[t].Absent? && s.jobs[t].Produces?
      && Session.ParseKind(s.jobs[t].kind).Some?
    case Insert(t) => t in s.phases && t in s.jobs && s.phases[t].Committed? && s.jobs[t].Produces?
    case Abandon(t) => t in s.phases && Locks(s.phases[t])
    case Release(t) => t in s.phases && Locks(s.phases[t])
    case Close(_) => true
  }

  function Move(s: State, t: Task, phase: Phase): State {
    s.(phases := s.phases[t := phase])
  }

  function Step(s: State, e: Event): State
    requires Enabled(s, e)
  {
    match e
    case Spawn(t, job) => s.(jobs := s.jobs[t := job], phases := s.phases[t := Begun])
    case LookUp(t) =>
      var key := LockKey(s.jobs[t]);
      if key in s.locks then Move(s, t, Waiting(s.locks[key]))
      else Move(s.(locks := s.locks[key := s.made], made := s.made + 1), t, Waiting(s.made))
    case Acquire(t) =>
      var mutex := s.phases[t].mutex;
      Move(s.(holders := s.holders[mutex := t]), t, Holding(mutex))
    case Check(t) =>
      Move(s, t, if Exists(s.producers, s.jobs[t]) then Finished(s.phases[t].mutex) else Absent(s.phases[t].mutex))
    case Commit(t, x) => Move(s, t, Committed(s.phases[t].mutex, x))
    case Insert(t) =>
      var job := s.jobs[t];
      Move(s.(producers := s.producers[s.phases[t].producer := Known(job.meeting, job.participant, job.kind)]),
           t, Finished(s.phases[t].mutex))
    case Abandon(t) => Move(s, t, Finished(s.phases[t].mutex))
    case Release(t) => Move(s.(holders := s.holders - {s.phases[t].mutex}), t, Done)
    case Close(ids) => s.(producers := s.producers - ids)
  }

  const START := State(map[], 0, map[], map[], map[], map[])

  ghost predicate IsRun(states: seq<State>, events: seq<Event>) {
    && |states| == |events| + 1
    && states[0] == START
    && forall i :: 0 <= i < |events| ==> Enabled(states[i], events[i]) && states[i + 1] == Step(states[i], events[i])
  }

  // ----- What every step keeps -----

  /** Different keys have different mutexes, all of them made already. */
  ghost predicate KeysOwnMutexes(s: State) {
    && (forall k :: k in s.locks ==> s.locks[k] < s.made)
    && (forall k, l :: k in s.locks && l in s.locks && s.locks[k] == s.locks[l] ==> k == l)
  }

  /** A task waits for, or holds, the mutex of its own key. */
  ghost predicate TasksUseTheirKey(s: State) {
    forall t :: t in s.phases ==>
      && t in s.jobs
      && (s.phases[t].Waiting? || Locks(s.phases[t]) ==>
            LockKey(s.jobs[t]) in s.locks && s.locks[LockKey(s.jobs[t])] == s.phases[t].mutex)
  }

  /** Exactly the recorded holder of a mutex is in a phase that holds it. */
  ghost predicate HoldersHold(s: State) {
    && (forall m :: m in s.holders ==>
          s.holders[m] in s.phases && Locks(s.phases[s.holders[m]]) && s.phases[s.holders[m]].mutex == m)
    && (forall t :: t in s.phases && Locks(s.phases[t]) ==>
          s.phases[t].mutex in s.holders && s.holders[s.phases[t].mutex] == t)
  }

  /** While a task is between its check and its insertion, nobody inserts what it is about to insert. */
  ghost predicate StillAbsent(s: State) {
    forall t :: t in s.phases && (s.phases[t].Absent? || s.phases[t].Committed?) ==>
      t in s.jobs && s.jobs[t].Produces? && !Exists(s.producers, s.jobs[t])
  }

  /** No two producers of one kind for a participant of a meeting. */
  ghost predicate OneOfEachKind(s: State) {
    forall x, y :: x in s.producers && y in s.producers && s.producers[x] == s.producers[y] ==> x == y
  }

  ghost predicate Inv(s: State) {
    KeysOwnMutexes(s) && TasksUseTheirKey(s) && HoldersHold(s) && StillAbsent(s) && OneOfEachKind(s)
  }

  lemma LookUpKeepsKeys(s: State, t: Task)
    requires KeysOwnMutexes(s) && TasksUseTheirKey(s) && Enabled(s, LookUp(t))
    ensures KeysOwnMutexes(Step(s, LookUp(t))) && TasksUseTheirKey(Step(s, LookUp(t)))
  {
    var key := LockKey(s.jobs[t]);
    if key in s.locks {
      assert Step(s, LookUp(t)) == Move(s, t, Waiting(s.locks[key]));
    } else {
      assert Step(s, LookUp(t)).locks == s.locks[key := s.made];
    }
  }

  lemma StepKeepsKeys(s: State, e: Event)
    requires KeysOwnMutexes(s) && TasksUseTheirKey(s) && Enabled(s, e)
    ensures KeysOwnMutexes(Step(s, e)) && TasksUseTheirKey(Step(s, e))
  {
    match e
    case LookUp(t) => LookUpKeepsKeys(s, t);
    case _ => assert Step(s, e).locks == s.locks && Step(s, e).made == s.made;
  }

  lemma StepKeepsHolders(s: State, e: Event)
    requires HoldersHold(s) && Enabled(s, e)
    ensures HoldersHold(Step(s, e))
  {
  }

  /** Two tasks that both hold the mutex of one key are the same task. */
  lemma MutualExclusion(s: State, t: Task, u: Task)
    requires TasksUseTheirKey(s) && HoldersHold(s)
    requires t in s.phases && u in s.phases && Locks(s.phases[t]) && Locks(s.phases[u])
    requires LockKey(s.jobs[t]) == LockKey(s.jobs[u])
    ensures t == u
  {
  }

  lemma InsertKeepsAbsence(s: State, t: Task)
    requires Inv(s) && Enabled(s, Insert(t))
    ensures StillAbsent(Step(s, Insert(t))) && OneOfEachKind(Step(s, Insert(t)))
  {
    forall u | u in s.phases && (s.phases[u].Absent? || s.phases[u].Committed?) && u != t
      ensures s.jobs[u].meeting != s.jobs[t].meeting
    {
      if LockKey(s.jobs[u]) == LockKey(s.jobs[t]) {
        MutualExclusion(s, t, u);
      }
    }
  }

  lemma StepKeepsInv(s: State, e: Event)
    requires Inv(s) && Enabled(s, e)
    ensures Inv(Step(s, e))
  {
    StepKeepsKeys(s, e);
    StepKeepsHolders(s, e);
    if e.Insert? {
      InsertKeepsAbsence(s, e.task);
    } else {
      OthersKeepAbsence(s, e);
    }
  }

  lemma OthersKeepAbsence(s: State, e: Event)
    requires StillAbsent(s) && OneOfEachKind(s) && TasksUseTheirKey(s) && Enabled(s, e) && !e.Insert?
    ensures StillAbsent(Step(s, e)) && OneOfEachKind(Step(s, e))
  {
    assert Step(s, e).producers.Keys <= s.producers.Keys;
  }

  lemma {:induction false} RunKeepsInv(states: seq<State>, events: seq<Event>, n: nat)
    requires IsRun(states, events) && n < |states|
    ensures Inv(states[n])
  {
    if n > 0 {
      RunKeepsInv(states, events, n - 1);
      StepKeepsInv(states[n - 1], events[n - 1]);
    }
  }

  /** Under every interleaving `producer_map` never holds two producers with the same meeting,
      participant and kind. */
  lemma NeverTwoOfAKind(states: seq<State>, events: seq<Event>, n: nat, x: Id, y: Id)
    requires IsRun(states, events) && n < |states|
    requires x in states[n].producers && y in states[n].producers
    ensures states[n].producers[x] == states[n].producers[y] <==> x == y
  {
    RunKeepsInv(states, events, n);
  }

  /** Of the tasks that create producers in one meeting at most one holds a lock, and so for the tasks with which
      one participant rejoins. */
  lemma OneAtATime(states: seq<State>, events: seq<Event>, n: nat, t: Task, u: Task)
    requires IsRun(states, events) && n < |states|
    requires t in states[n].phases && u in states[n].phases
    requires Locks(states[n].phases[t]) && Locks(states[n].phases[u])
    ensures t in states[n].jobs && u in states[n].jobs
    ensures match (states[n].jobs[t], states[n].jobs[u])
            case (Produces(m, _, _), Produces(l, _, _)) => m == l ==> t == u
            case (Rejoins(p), Rejoins(o)) => p == o ==> t == u
            case _ => true
  {
    RunKeepsInv(states, events, n);
    if LockKey(states[n].jobs[t]) == LockKey(states[n].jobs[u]) {
      MutualExclusion(states[n], t, u);
    }
  }

  /** A key yields the same mutex for ever, and no other key yields it. */
  lemma {:induction false} KeyYieldsOneMutex(states: seq<State>, events: seq<Event>, i: nat, n: nat, k: Id, l: Id)
    requires IsRun(states, events) && i <= n < |states| && k in states[i].locks
    ensures k in states[n].locks && states[n].locks[k] == states[i].locks[k]
    ensures l in states[n].locks ==> (states[n].locks[l] == states[i].locks[k] <==> k == l)
    decreases n - i
  {
    RunKeepsInv(states, events, n);
    if i < n {
      KeyYieldsOneMutex(states, events, i, n - 1, k, l);
    }
  }

  // ----- Waiting -----

  /** Task `t` waits for a mutex that task `u` holds. */
  predicate WaitsFor(s: State, t: Task, u: Task) {
    t in s.phases && s.phases[t].Waiting? && s.phases[t].mutex in s.holders && s.holders[s.phases[t].mutex] == u
  }

  predicate WaitChain(s: State, chain: seq<Task>) {
    forall i :: 0 < i < |chain| ==> WaitsFor(s, chain[i - 1], chain[i])
  }

  /** A task's program takes one keyed mutex only, as its phase shows. So it holds at most one, waits for
      none while it holds one, and chains of waiting tasks have length one and close no cycle. */
  lemma NoWaitCycle(states: seq<State>, events: seq<Event>, n: nat, chain: seq<Task>)
    requires IsRun(states, events) && n < |states| && WaitChain(states[n], chain)
    ensures forall m, l ::
              m in states[n].holders && l in states[n].holders && states[n].holders[m] == states[n].holders[l] ==>
                m == l
    ensures |chain| <= 2
    ensures |chain| == 2 ==> chain[0] != chain[1]
  {
    RunKeepsInv(states, events, n);
    if |chain| >= 2 {
      assert WaitsFor(states[n], chain[0], chain[1]);
      if |chain| > 2 {
        HolderDoesNotWait(states[n], chain[0], chain[1], chain[2]);
      }
    }
  }

  lemma HolderDoesNotWait(s: State, t: Task, u: Task, v: Task)
    requires HoldersHold(s) && WaitsFor(s, t, u)
    ensures !WaitsFor(s, u, v)
  {
  }

  /** Nor can the keyed locks block each other for good: when a task waits for a taken mutex, its
      holder can move. */
  lemma HolderCanMove(states: seq<State>, events: seq<Event>, n: nat, t: Task, u: Task)
    requires IsRun(states, events) && n < |states| && WaitsFor(states[n], t, u)
    ensures Enabled(states[n], Release(u))
    ensures Enabled(Step(states[n], Release(u)), Acquire(t))
  {
    RunKeepsInv(states, events, n);
  }

  // ----- What a create inserts -----

  /** Some earlier event of the run started the task with this job. */
  ghost predicate Spawned(events: seq<Event>, n: nat, t: Task, job: Job) {
    exists i :: 0 <= i < n <= |events| && events[i] == Spawn(t, job)
  }

  /** Some earlier event of the run committed this producer for the task. */
  ghost predicate CommittedBy(events: seq<Event>, n: nat, t: Task, x: Id) {
    exists i :: 0 <= i < n <= |events| && events[i] == Commit(t, x)
  }

  lemma SpawnedLater(events: seq<Event>, n: nat, t: Task, job: Job, x: Id)
    requires n < |events|
    ensures Spawned(events, n, t, job) || events[n] == Spawn(t, job) ==> Spawned(events, n + 1, t, job)
    ensures CommittedBy(events, n, t, x) || events[n] == Commit(t, x) ==> CommittedBy(events, n + 1, t, x)
  {
  }

  lemma StepKeepsOrigin(s: State, e: Event, t: Task)
    requires Enabled(s, e)
    ensures t in Step(s, e).jobs && e != Spawn(t, Step(s, e).jobs[t]) ==>
              t in s.jobs && s.jobs[t] == Step(s, e).jobs[t]
    ensures t in Step(s, e).phases && Step(s, e).phases[t].Committed?
            && e != Commit(t, Step(s, e).phases[t].producer) ==>
              t in s.phases && s.phases[t] == Step(s, e).phases[t]
  {
    hide Exists;
  }

  lemma {:induction false} JobsWereSpawned(states: seq<State>, events: seq<Event>, n: nat, t: Task)
    requires IsRun(states, events) && n < |states|
    ensures t in states[n].jobs ==> Spawned(events, n, t, states[n].jobs[t])
    ensures t in states[n].phases && states[n].phases[t].Committed? ==>
              CommittedBy(events, n, t, states[n].phases[t].producer)
  {
    if n > 0 {
      JobsWereSpawned(states, events, n - 1, t);
      var s, e, next := states[n - 1], events[n - 1], states[n];
      assert Enabled(s, e) && next == Step(s, e);
      hide Step, Enabled, IsRun, Spawned, CommittedBy;
      StepKeepsOrigin(s, e, t);
      if t in next.jobs {
        SpawnedLater(events, n - 1, t, next.jobs[t], "");
      }
      if t in next.phases && next.phases[t].Committed? {
        SpawnedLater(events, n - 1, t, Rejoins(""), next.phases[t].producer);
      }
    }
  }

  /** What a task inserts is the producer that it committed, under the meeting, participant and kind that it was
      started with; no other entry changes. */
  lemma InsertedAsRequested(states: seq<State>, events: seq<Event>, n: nat, t: Task)
    requires IsRun(states, events) && n < |events| && events[n] == Insert(t)
    ensures exists m, p, kind, x ::
              && Spawned(events, n, t, Produces(m, p, kind)) && CommittedBy(events, n, t, x)
              && states[n + 1].producers == states[n].producers[x := Known(m, p, kind)]
  {
    JobsWereSpawned(states, events, n, t);
    var s := states[n];
    assert Enabled(s, events[n]) && states[n + 1] == Step(s, events[n]);
    var job, x := s.jobs[t], s.phases[t].producer;
    assert Spawned(events, n, t, Produces(job.meeting, job.participant, job.kind)) && CommittedBy(events, n, t, x);
  }
}
