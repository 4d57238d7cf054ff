/** The worker's queue: any number of client threads hand jobs to one engine thread, through a queue
    behind a lock, an auto-reset event and a quit flag that any thread may set without the lock. */
module WorkerQueue {

  /** A job lives on the stack of the client thread that submits it. */
  datatype Job = Job(client: nat, serial: nat)

  /** Where a client thread is. The lock is held in Inside, Seen and Queued. */
  datatype At =
    | Idle
    | Created(job: Job)
    | Inside(job: Job)
    | Seen(job: Job, leaving: bool)
    | Queued(job: Job)
    | Refusing(job: Job)
    | Signalling(job: Job)
    | Blocked(job: Job)

  datatype Lock = Free | ByEngine | ByClient(client: nat)

  datatype Taken = Nothing | Some(job: Job)

  /** Where the engine thread is; `last` in the drain after g_quit. The lock is held in Locked and Holding. */
  datatype Engine =
    | Loading
    | Waiting
    | Outside(last: bool)
    | Locked(last: bool)
    | Holding(last: bool, taken: Taken)
    | Working(last: bool, job: Job)
    | Finishing(last: bool, job: Job)
    | Done

  /** `signalled` are the finished events that are set; `created`, `pushed`, `finished` and `refused` are
      the history. */
  datatype State = State(clients: map<nat, At>, lock: Lock, queue: seq<Job>, jobReady: bool, quit: bool,
                         engine: Engine, signalled: set<Job>, nextSerial: nat,
                         created: set<Job>, pushed: seq<Job>, finished: seq<Job>, refused: seq<Job>)

  const START: State := State(map[], Free, [], false, false, Loading, {}, 0, {}, [], [], [])

  datatype Step =
    | Connect(c: nat) | Disconnect(c: nat)
    | Create(c: nat) | NoEvent(c: nat) | Enter(c: nat) | Look(c: nat) | Push(c: nat) | Leave(c: nat)
    | Refuse(c: nat) | Signal(c: nat) | Return(c: nat)
    | Quit | Poke
    | Loaded | Wake | Stop | EngineEnter | Pop | EngineLeave | Work | Finish

  predicate Enabled(s: State, step: Step) {
    match step
    case Connect(c) => c !in s.clients
    case Disconnect(c) => c in s.clients && s.clients[c].Idle?
    case Create(c) => c in s.clients && s.clients[c].Idle?
    case NoEvent(c) => c in s.clients && s.clients[c].Idle?
    case Enter(c) => c in s.clients && s.clients[c].Created? && s.lock == Free
    case Look(c) => c in s.clients && s.clients[c].Inside?
    case Push(c) => c in s.clients && s.clients[c].Seen? && !s.clients[c].leaving
    case Leave(c) => c in s.clients && (s.clients[c].Queued? || (s.clients[c].Seen? && s.clients[c].leaving))
    case Refuse(c) => c in s.clients && s.clients[c].Refusing?
    case Signal(c) => c in s.clients && s.clients[c].Signalling?
    case Return(c) => c in s.clients && s.clients[c].Blocked? && s.clients[c].job in s.signalled
    case Quit => true
    case Poke => true
    case Loaded => s.engine.Loading?
    case Wake => s.engine.Waiting? && s.jobReady
    case Stop => s.engine.Waiting? && s.quit && !s.jobReady
    case EngineEnter => s.engine.Outside? && s.lock == Free
    case Pop => s.engine.Locked?
    case EngineLeave => s.engine.Holding?
    case Work => s.engine.Working?
    case Finish => s.engine.Finishing?
  }

  function Now(s: State, c: nat, at: At): State { s.(clients := s.clients[c := at]) }

  function Apply(s: State, step: Step): State
    requires Enabled(s, step)
  {
    match step
    case Connect(c) => Now(s, c, Idle)
    case Disconnect(c) => s.(clients := s.clients - {c})
    case Create(c) =>
      var j := Job(c, s.nextSerial);
      Now(s, c, Created(j)).(nextSerial := s.nextSerial + 1, created := s.created + {j})
    case NoEvent(c) =>
      var j := Job(c, s.nextSerial);
      s.(nextSerial := s.nextSerial + 1, created := s.created + {j}, refused := s.refused + [j])
    case Enter(c) => Now(s, c, Inside(s.clients[c].job)).(lock := ByClient(c))
    case Look(c) => Now(s, c, Seen(s.clients[c].job, s.quit))
    case Push(c) =>
      var j := s.clients[c].job;
      Now(s, c, Queued(j)).(queue := s.queue + [j], pushed := s.pushed + [j])
    case Leave(c) =>
      var at := if s.clients[c].Queued? then Signalling(s.clients[c].job) else Refusing(s.clients[c].job);
      Now(s, c, at).(lock := Free)
    case Refuse(c) => Now(s, c, Idle).(refused := s.refused + [s.clients[c].job])
    case Signal(c) => Now(s, c, Blocked(s.clients[c].job)).(jobReady := true)
    case Return(c) => Now(s, c, Idle).(signalled := s.signalled - {s.clients[c].job})
    case Quit => s.(quit := true)
    case Poke => s.(jobReady := true)
    case Loaded => s.(engine := Waiting)
    case Wake => s.(engine := Outside(false), jobReady := false)
    case Stop => s.(engine := Outside(true))
    case EngineEnter => s.(engine := Locked(s.engine.last), lock := ByEngine)
    case Pop =>
      if s.queue == [] then s.(engine := Holding(s.engine.last, Nothing))
      else s.(engine := Holding(s.engine.last, Some(s.queue[0])), queue := s.queue[1..])
    case EngineLeave =>
      var next := if s.engine.taken.Some? then Working(s.engine.last, s.engine.taken.job)
                  else if s.engine.last then Done else Waiting;
      s.(engine := next, lock := Free)
    case Work => s.(engine := Finishing(s.engine.last, s.engine.job))
    case Finish =>
      var j := s.engine.job;
      s.(engine := Outside(s.engine.last), signalled := s.signalled + {j}, finished := s.finished + [j])
  }

  // ------------------------------------------------------------------------------------------
  // The invariant
  // ------------------------------------------------------------------------------------------

  predicate HasLock(at: At) { at.Inside? || at.Seen? || at.Queued? }

  /** The job has been pushed and its client is still inside submit(). */
  predicate Waits(at: At) { at.Queued? || at.Signalling? || at.Blocked? }

  function Hand(e: Engine): seq<Job> {
    if e.Working? || e.Finishing? then [e.job]
    else if e.Holding? && e.taken.Some? then [e.taken.job]
    else []
  }

  predicate NoDuplicates(xs: seq<Job>) {
    forall i, j | 0 <= i < j < |xs| :: xs[i] != xs[j]
  }

  predicate LockOk(s: State) {
    && (s.lock == ByEngine <==> s.engine.Locked? || s.engine.Holding?)
    && (forall c <- s.clients :: HasLock(s.clients[c]) <==> s.lock == ByClient(c))
    && (s.lock.ByClient? ==> s.lock.client in s.clients)
  }

  /** A client that has a job: it is its own, and where it stands in the history goes by where the
      client stands. */
  predicate ClientOk(s: State, c: nat)
    requires c in s.clients
  {
    var at := s.clients[c];
    at.Idle? || (
      && at.job.client == c && at.job in s.created && at.job !in s.refused
      && (Waits(at) <==> at.job in s.pushed)
      && (at.job in s.finished <==> at.job in s.signalled)
      && (at.Refusing? || (at.Seen? && at.leaving) ==> s.quit))
  }

  /** First in, first out, nothing lost, nothing twice: what was pushed is what is finished, then what
      the engine thread has in hand, then the queue. */
  predicate HistoryOk(s: State) {
    && s.pushed == s.finished + Hand(s.engine) + s.queue
    && NoDuplicates(s.pushed) && NoDuplicates(s.refused)
    && (forall j <- s.pushed :: j in s.created && j !in s.refused)
    && (forall j <- s.refused :: j in s.created)
    && (forall j <- s.signalled :: j in s.created)
    && (forall j <- s.created :: j.serial < s.nextSerial)
  }

  predicate IsAt(s: State, j: Job) {
    j.client in s.clients && !s.clients[j.client].Idle? && s.clients[j.client].job == j
  }

  predicate WaitsFor(s: State, j: Job) { IsAt(s, j) && Waits(s.clients[j.client]) }

  /** No job outlives the stack it is on: as long as the queue or the engine thread has it, its client is
      inside submit(). And a job is only ever done with by being finished or refused. */
  predicate OwnersOk(s: State) {
    && (forall j <- Hand(s.engine) + s.queue :: WaitsFor(s, j))
    && (forall j <- s.created :: IsAt(s, j) || j in s.finished || j in s.refused)
  }

  /** The last drain begins after g_quit, and once it is over nothing can follow. */
  predicate DrainOk(s: State) {
    && (s.engine.Outside? || s.engine.Locked? || s.engine.Holding? || s.engine.Working? || s.engine.Finishing? ==>
          s.engine.last ==> s.quit)
    && (s.engine.Holding? && s.engine.taken.Nothing? ==> s.queue == [])
    && (s.engine.Done? ==> s.quit && s.queue == [] && NobodyPushes(s))
  }

  predicate NobodyPushes(s: State) {
    forall c <- s.clients :: !CanPush(s.clients[c]) && !s.clients[c].Queued?
  }

  predicate CanPush(at: At) { at.Seen? && !at.leaving }

  /** No wake-up is lost: while the engine thread sleeps with no signal, every queued job's client has
      its signal still to give. */
  predicate WakeOk(s: State) {
    (s.engine.Loading? || s.engine.Waiting?) && !s.jobReady ==>
      forall j <- s.queue :: IsAt(s, j) && (s.clients[j.client].Queued? || s.clients[j.client].Signalling?)
  }

  ghost predicate Inv(s: State) {
    && LockOk(s) && HistoryOk(s) && OwnersOk(s) && DrainOk(s) && WakeOk(s)
    && forall c <- s.clients :: ClientOk(s, c)
  }

  lemma LockStep(s: State, step: Step)
    requires Inv(s) && Enabled(s, step)
    ensures LockOk(Apply(s, step))
  {
    hide HistoryOk, OwnersOk, DrainOk, WakeOk, ClientOk;
  }

  lemma AddOne(xs: seq<Job>, j: Job)
    requires NoDuplicates(xs) && j !in xs
    ensures NoDuplicates(xs + [j])
  {
  }

  lemma HistoryPush(s: State, c: nat)
    requires Inv(s) && Enabled(s, Push(c))
    ensures HistoryOk(Apply(s, Push(c)))
  {
    var j := s.clients[c].job;
    assert ClientOk(s, c);
    AddOne(s.pushed, j);
    assert s.pushed + [j] == s.finished + Hand(s.engine) + (s.queue + [j]);
  }

  lemma HistoryEngine(s: State, step: Step)
    requires Inv(s) && Enabled(s, step) && (step.Pop? || step.Finish? || step.EngineLeave? || step.Work?)
    ensures HistoryOk(Apply(s, step))
  {
    hide NoDuplicates, LockOk, OwnersOk, DrainOk, WakeOk, ClientOk;
    SameHistory(s, step);
    if step.Finish? {
      assert s.engine.job in s.pushed;
    }
  }

  lemma SameHistory(s: State, step: Step)
    requires Enabled(s, step) && (step.Pop? || step.Finish? || step.EngineLeave? || step.Work?)
    ensures var t := Apply(s, step); t.finished + Hand(t.engine) + t.queue == s.finished + Hand(s.engine) + s.queue
  {
    if step.Pop? && s.queue != [] {
      assert s.queue == [s.queue[0]] + s.queue[1..];
    }
  }

  lemma HistoryRefuse(s: State, c: nat)
    requires Inv(s) && Enabled(s, Refuse(c))
    ensures HistoryOk(Apply(s, Refuse(c)))
  {
  }

  lemma HistoryNew(s: State, step: Step)
    requires Inv(s) && Enabled(s, step) && (step.Create? || step.NoEvent?)
    ensures HistoryOk(Apply(s, step))
  {
    hide LockOk, OwnersOk, DrainOk, WakeOk, ClientOk;
    var j := Job(step.c, s.nextSerial);
    assert j !in s.created;
    assert j !in s.refused;
    AddOne(s.refused, j);
  }

  lemma HistoryStep(s: State, step: Step)
    requires Inv(s) && Enabled(s, step)
    ensures HistoryOk(Apply(s, step))
  {
    hide NoDuplicates, LockOk, OwnersOk, DrainOk, WakeOk, ClientOk;
    match step
    case Push(c) => HistoryPush(s, c);
    case Refuse(c) => HistoryRefuse(s, c);
    case Create(_) => HistoryNew(s, step);
    case NoEvent(_) => HistoryNew(s, step);
    case Pop => HistoryEngine(s, step);
    case Finish => HistoryEngine(s, step);
    case EngineLeave => HistoryEngine(s, step);
    case Work => HistoryEngine(s, step);
    case _ =>
  }

  /** What a step leaves of where a job is. */
  lemma IsAtStep(s: State, step: Step, j: Job)
    requires Inv(s) && Enabled(s, step) && IsAt(s, j)
    ensures IsAt(Apply(s, step), j) || ((step.Refuse? || step.Return?) && step.c == j.client)
    ensures IsAt(Apply(s, step), j) && Waits(s.clients[j.client]) ==> Waits(Apply(s, step).clients[j.client])
  {
    hide LockOk, HistoryOk, OwnersOk, DrainOk, WakeOk;
    assert ClientOk(s, j.client);
  }

  lemma WaitingStays(s: State, step: Step, j: Job)
    requires Inv(s) && Enabled(s, step) && j in Hand(s.engine) + s.queue
    ensures WaitsFor(Apply(s, step), j)
  {
    hide LockOk, DrainOk, WakeOk, Apply;
    IsAtStep(s, step, j);
    assert ClientOk(s, j.client);
    NotYetFinished(s, j);
  }

  /** What the engine thread has or will have is not finished. */
  lemma NotYetFinished(s: State, j: Job)
    requires HistoryOk(s) && j in Hand(s.engine) + s.queue
    ensures j !in s.finished
  {
    var rest := Hand(s.engine) + s.queue;
    assert s.pushed == s.finished + rest;
    var k :| 0 <= k < |rest| && rest[k] == j;
    assert s.pushed[|s.finished| + k] == j;
    forall i | 0 <= i < |s.finished| ensures s.finished[i] != j {
      assert s.pushed[i] == s.finished[i];
    }
  }

  lemma OwnersStep(s: State, step: Step)
    requires Inv(s) && Enabled(s, step)
    ensures OwnersOk(Apply(s, step))
  {
    hide LockOk, DrainOk, WakeOk, HistoryOk, Apply, IsAt, ClientOk, WaitsFor;
    var t := Apply(s, step);
    forall j <- Hand(t.engine) + t.queue ensures WaitsFor(t, j) {
      PlacedBefore(s, step, j);
      if j in Hand(s.engine) + s.queue {
        WaitingStays(s, step, j);
      }
    }
    forall j <- t.created ensures IsAt(t, j) || j in t.finished || j in t.refused {
      SettledStays(s, step, j);
    }
  }

  lemma PlacedBefore(s: State, step: Step, j: Job)
    requires Inv(s) && Enabled(s, step)
    requires var t := Apply(s, step); j in Hand(t.engine) + t.queue
    ensures j in Hand(s.engine) + s.queue || WaitsFor(Apply(s, step), j)
  {
    hide LockOk, DrainOk, WakeOk, HistoryOk, OwnersOk;
    if step.Push? {
      assert ClientOk(s, step.c);
    }
  }

  lemma SettledStays(s: State, step: Step, j: Job)
    requires Inv(s) && Enabled(s, step) && j in Apply(s, step).created
    ensures var t := Apply(s, step); IsAt(t, j) || j in t.finished || j in t.refused
  {
    hide LockOk, DrainOk, WakeOk, HistoryOk, ClientOk;
    if j in s.created && IsAt(s, j) {
      IsAtStep(s, step, j);
      if step.Refuse? || step.Return? {
        LeavesSettled(s, step, j);
      }
    }
  }

  /** A client leaves submit() with its job refused or finished. */
  lemma LeavesSettled(s: State, step: Step, j: Job)
    requires Inv(s) && Enabled(s, step) && IsAt(s, j) && (step.Refuse? || step.Return?)
    ensures var t := Apply(s, step); IsAt(t, j) || j in t.finished || j in t.refused
  {
  }

  lemma DrainStep(s: State, step: Step)
    requires Inv(s) && Enabled(s, step)
    ensures DrainOk(Apply(s, step))
  {
    hide HistoryOk, OwnersOk, WakeOk;
  }

  lemma WakeStep(s: State, step: Step)
    requires Inv(s) && Enabled(s, step)
    ensures WakeOk(Apply(s, step))
  {
    hide HistoryOk;
  }

  /** What a step leaves of a client that does not take it. */
  lemma OtherClient(s: State, step: Step, c: nat)
    requires Inv(s) && Enabled(s, step) && c in s.clients && c in Apply(s, step).clients && !s.clients[c].Idle?
    requires Apply(s, step).clients[c] == s.clients[c]
    ensures ClientOk(Apply(s, step), c)
  {
    hide LockOk, OwnersOk, DrainOk, WakeOk, NoDuplicates, Hand;
    assert ClientOk(s, c);
    if step.Push? || step.Refuse? || step.Return? {
      assert ClientOk(s, step.c);
    }
  }

  lemma OwnStep(s: State, step: Step, c: nat)
    requires Inv(s) && Enabled(s, step) && c in Apply(s, step).clients
    requires c !in s.clients || Apply(s, step).clients[c] != s.clients[c]
    ensures ClientOk(Apply(s, step), c)
  {
    hide LockOk, OwnersOk, DrainOk, WakeOk, NoDuplicates;
    if c in s.clients {
      assert ClientOk(s, c);
      if step.Create? {
        NewIsNew(s, Job(c, s.nextSerial));
      }
    }
  }

  lemma NewIsNew(s: State, j: Job)
    requires HistoryOk(s) && j.serial == s.nextSerial
    ensures j !in s.pushed && j !in s.refused && j !in s.signalled && j !in s.finished && j !in s.created
  {
  }

  lemma FinishedArePushed(s: State)
    requires HistoryOk(s)
    ensures forall j <- s.finished :: j in s.pushed
  {
  }

  lemma ClientStep(s: State, step: Step, c: nat)
    requires Inv(s) && Enabled(s, step) && c in Apply(s, step).clients
    ensures ClientOk(Apply(s, step), c)
  {
    hide LockOk, OwnersOk, DrainOk, WakeOk, HistoryOk, Inv, Apply;
    if c in s.clients && Apply(s, step).clients[c] == s.clients[c] {
      if !s.clients[c].Idle? {
        OtherClient(s, step, c);
      }
    } else {
      OwnStep(s, step, c);
    }
  }

  lemma InvStep(s: State, step: Step)
    requires Inv(s) && Enabled(s, step)
    ensures Inv(Apply(s, step))
  {
    hide *;
    LockStep(s, step);
    HistoryStep(s, step);
    OwnersStep(s, step);
    DrainStep(s, step);
    WakeStep(s, step);
    forall c <- Apply(s, step).clients ensures ClientOk(Apply(s, step), c) {
      ClientStep(s, step, c);
    }
    InvIs(Apply(s, step));
  }

  lemma InvIs(s: State)
    requires LockOk(s) && HistoryOk(s) && OwnersOk(s) && DrainOk(s) && WakeOk(s)
    requires forall c <- s.clients :: ClientOk(s, c)
    ensures Inv(s)
  {
  }

  // ------------------------------------------------------------------------------------------
  // Every run
  // ------------------------------------------------------------------------------------------

  /** The steps of a run, oldest first, each one possible when it is taken. */
  predicate IsRun(s: State, steps: seq<Step>)
    decreases |steps|
  {
    steps == [] || (Enabled(s, steps[0]) && IsRun(Apply(s, steps[0]), steps[1..]))
  }

  function After(s: State, steps: seq<Step>): State
    requires IsRun(s, steps)
    decreases |steps|
  {
    if steps == [] then s else After(Apply(s, steps[0]), steps[1..])
  }

  lemma {:induction false} EveryRunKeeps(s: State, steps: seq<Step>)
    requires Inv(s) && IsRun(s, steps)
    ensures Inv(After(s, steps))
    decreases |steps|
  {
    if steps != [] {
      InvStep(s, steps[0]);
      EveryRunKeeps(Apply(s, steps[0]), steps[1..]);
    }
  }

  lemma StartsOk()
    ensures Inv(START)
  {
  }

  /** How often a job has been done with, either way. */
  function TimesSettled(s: State, j: Job): nat { multiset(s.finished)[j] + multiset(s.refused)[j] }

  lemma {:induction false} OnceIn(xs: seq<Job>, j: Job)
    requires NoDuplicates(xs)
    ensures multiset(xs)[j] == if j in xs then 1 else 0
  {
    if xs != [] {
      OnceIn(xs[1..], j);
      assert xs == [xs[0]] + xs[1..];
      assert multiset(xs) == multiset{xs[0]} + multiset(xs[1..]);
    }
  }

  /** In every interleaving every job is done with at most once, and exactly once by the time its client
      is out of submit(); until then its client has not returned, so the engine thread never touches a
      job that is gone. */
  lemma EveryJobSettledOnce(steps: seq<Step>, j: Job)
    requires IsRun(START, steps) && j in After(START, steps).created
    ensures var s := After(START, steps);
            && TimesSettled(s, j) <= 1
            && (!IsAt(s, j) ==> TimesSettled(s, j) == 1)
            && (j in Hand(s.engine) + s.queue ==> WaitsFor(s, j) && TimesSettled(s, j) == 0)
  {
    hide IsAt, WaitsFor, LockOk, DrainOk, WakeOk, ClientOk, Hand;
    StartsOk();
    EveryRunKeeps(START, steps);
    var s := After(START, steps);
    OnceIn(s.refused, j);
    FinishedOnce(s);
    OnceIn(s.finished, j);
    FinishedArePushed(s);
    if j in Hand(s.engine) + s.queue {
      NotYetFinished(s, j);
      assert j in s.pushed by {
        assert s.pushed == s.finished + (Hand(s.engine) + s.queue);
      }
    }
  }

  lemma FinishedOnce(s: State)
    requires HistoryOk(s)
    ensures NoDuplicates(s.finished)
  {
    forall i, k | 0 <= i < k < |s.finished| ensures s.finished[i] != s.finished[k] {
      assert s.pushed[i] == s.finished[i] && s.pushed[k] == s.finished[k];
    }
  }

  /** Jobs are finished in the order they were pushed. */
  lemma FirstInFirstOut(steps: seq<Step>)
    requires IsRun(START, steps)
    ensures After(START, steps).finished <= After(START, steps).pushed
  {
    StartsOk();
    EveryRunKeeps(START, steps);
  }

  /** Once the engine thread is past its last drain the queue is empty, and it stays so: no step that
      pushes is possible then or ever after. */
  lemma {:induction false} NothingAfterTheDrain(steps: seq<Step>, more: seq<Step>, c: nat)
    requires IsRun(START, steps) && After(START, steps).engine.Done?
    requires IsRun(After(START, steps), more)
    ensures var t := After(After(START, steps), more);
            t.engine.Done? && t.queue == [] && !Enabled(t, Push(c)) && t.pushed == After(START, steps).pushed
  {
    StartsOk();
    EveryRunKeeps(START, steps);
    DoneStays(After(START, steps), more);
    EveryRunKeeps(After(START, steps), more);
  }

  lemma {:induction false} DoneStays(s: State, more: seq<Step>)
    requires Inv(s) && s.engine.Done? && IsRun(s, more)
    ensures After(s, more).engine.Done? && After(s, more).pushed == s.pushed
    decreases |more|
  {
    hide LockOk, HistoryOk, OwnersOk, WakeOk, ClientOk;
    if more != [] {
      InvStep(s, more[0]);
      DoneStays(Apply(s, more[0]), more[1..]);
    }
  }

  // ------------------------------------------------------------------------------------------
  // No job is stranded
  // ------------------------------------------------------------------------------------------

  function IndexOf(xs: seq<Job>, j: Job): (i: nat)
    requires j in xs
    ensures i < |xs| && xs[i] == j && j !in xs[..i]
  {
    if xs[0] == j then 0
    else
      var i := IndexOf(xs[1..], j) + 1;
      assert xs[..i] == [xs[0]] + xs[1..][..i - 1];
      i
  }

  /** How many steps of the engine thread are left until a job of its own is finished. */
  function StepsLeft(s: State, j: Job): nat
    requires j in Hand(s.engine) + s.queue
  {
    if s.engine.Finishing? && s.engine.job == j then 1
    else if s.engine.Working? && s.engine.job == j then 2
    else if s.engine.Holding? && s.engine.taken == Some(j) then 3
    else
      5 * IndexOf(s.queue, j) +
      match s.engine
      case Locked(_) => 4
      case Outside(_) => 5
      case Finishing(_, _) => 6
      case Waiting => 6
      case Working(_, _) => 7
      case Loading => 7
      case Holding(_, _) => 8
      case Done => 0
  }

  predicate EngineStep(step: Step) {
    || step.Loaded? || step.Wake? || step.Stop? || step.EngineEnter? || step.Pop? || step.EngineLeave?
    || step.Work? || step.Finish?
  }

  lemma {:induction false} IndexIs(xs: seq<Job>, j: Job, i: nat)
    requires i < |xs| && xs[i] == j && j !in xs[..i]
    ensures IndexOf(xs, j) == i
  {
  }

  lemma IndexAfter(xs: seq<Job>, ys: seq<Job>, j: Job)
    requires j in xs
    ensures j in xs + ys && IndexOf(xs + ys, j) == IndexOf(xs, j)
  {
    var i := IndexOf(xs, j);
    assert (xs + ys)[..i] == xs[..i];
    IndexIs(xs + ys, j, i);
  }

  /** Nobody else's step puts a job off ... */
  lemma OthersDoNotDelay(s: State, step: Step, j: Job)
    requires Inv(s) && Enabled(s, step) && !EngineStep(step) && j in Hand(s.engine) + s.queue
    ensures var t := Apply(s, step); j in Hand(t.engine) + t.queue && StepsLeft(t, j) == StepsLeft(s, j)
  {
    hide LockOk, HistoryOk, OwnersOk, WakeOk, ClientOk, DrainOk, IndexOf, StepsLeft;
    if step.Push? && j in s.queue {
      IndexAfter(s.queue, [s.clients[step.c].job], j);
    }
    SameStepsLeft(s, Apply(s, step), j);
  }

  lemma SameStepsLeft(s: State, t: State, j: Job)
    requires s.engine == t.engine && j in Hand(s.engine) + s.queue && j in Hand(t.engine) + t.queue
    requires j in s.queue ==> j in t.queue && IndexOf(s.queue, j) == IndexOf(t.queue, j)
    requires j !in s.queue ==> s.queue == t.queue || j in Hand(s.engine)
    ensures StepsLeft(t, j) == StepsLeft(s, j)
  {
  }

  /** ... and every step of the engine thread brings it nearer, until it is finished. */
  lemma EngineStepsComeNearer(s: State, step: Step, j: Job)
    requires Inv(s) && Enabled(s, step) && EngineStep(step) && j in Hand(s.engine) + s.queue
    ensures var t := Apply(s, step);
            if j in Hand(t.engine) + t.queue then StepsLeft(t, j) < StepsLeft(s, j) else step.Finish? && j in t.finished
  {
    hide LockOk, OwnersOk, WakeOk, ClientOk, HistoryOk, IndexOf, StepsLeft, DrainOk, Apply;
    if step.Pop? {
      PopComesNearer(s, j);
    } else if step.Finish? {
      FinishComesNearer(s, j);
    } else {
      OtherStepComesNearer(s, step, j);
    }
  }

  lemma OtherStepComesNearer(s: State, step: Step, j: Job)
    requires DrainOk(s) && Enabled(s, step) && j in Hand(s.engine) + s.queue
    requires EngineStep(step) && !step.Pop? && !step.Finish?
    ensures var t := Apply(s, step); j in Hand(t.engine) + t.queue && StepsLeft(t, j) < StepsLeft(s, j)
  {
    hide IndexOf, DrainOk;
    if step.EngineLeave? {
      DrainNotOver(s, j);
    }
  }

  lemma FinishComesNearer(s: State, j: Job)
    requires Inv(s) && s.engine.Finishing? && j in Hand(s.engine) + s.queue
    ensures var t := Apply(s, Finish);
            if j in Hand(t.engine) + t.queue then StepsLeft(t, j) < StepsLeft(s, j) else j in t.finished
  {
    hide LockOk, OwnersOk, WakeOk, ClientOk, HistoryOk, IndexOf, DrainOk;
    HistoryStep(s, Finish);
    var t := Apply(s, Finish);
    if j in Hand(t.engine) + t.queue {
      NotYetFinished(t, j);
    }
  }

  lemma DrainNotOver(s: State, j: Job)
    requires DrainOk(s) && s.engine.Holding? && j in Hand(s.engine) + s.queue
    ensures s.engine.taken.Some?
  {
  }

  lemma PopComesNearer(s: State, j: Job)
    requires s.engine.Locked? && j in Hand(s.engine) + s.queue
    ensures var t := Apply(s, Pop); j in Hand(t.engine) + t.queue && StepsLeft(t, j) < StepsLeft(s, j)
  {
    assert j in s.queue;
  }

  /** How many steps whoever holds the lock has to take until it is free. */
  function LockDelay(s: State): (n: nat)
    ensures n < 4
  {
    match s.lock
    case Free => 0
    case ByEngine => if s.engine.Locked? then 2 else 1
    case ByClient(c) =>
      if c !in s.clients then 0
      else if s.clients[c].Inside? then 3
      else if CanPush(s.clients[c]) then 2
      else 1
  }

  predicate Asleep(s: State) { s.engine.Waiting? && !s.jobReady && !s.quit }

  /** How many steps of clients the engine thread has to wait for: for the signal, or for the lock. */
  function Delay(s: State): (n: nat)
    ensures n < 4
  {
    if s.engine.Outside? then LockDelay(s)
    else if !Asleep(s) || s.queue == [] || s.queue[0].client !in s.clients then 0
    else if s.clients[s.queue[0].client].Queued? then 2
    else 1
  }

  /** A step that brings the lock nearer to being free. */
  lemma FreesLock(s: State) returns (step: Step)
    requires Inv(s) && !s.lock.Free?
    ensures Enabled(s, step) && LockDelay(Apply(s, step)) < LockDelay(s)
    ensures step.Look? || step.Push? || step.Leave? || step.Pop? || step.EngineLeave?
    ensures s.lock.ByClient? ==> !EngineStep(step) && step.c == s.lock.client
    ensures s.lock.ByEngine? ==> EngineStep(step)
    ensures Apply(s, step).engine == s.engine || s.lock.ByEngine?
  {
    hide HistoryOk, OwnersOk, WakeOk, ClientOk, DrainOk;
    match s.lock
    case ByEngine => step := if s.engine.Locked? then Pop else EngineLeave;
    case ByClient(c) =>
      step := if s.clients[c].Inside? then Look(c) else if CanPush(s.clients[c]) then Push(c) else Leave(c);
  }

  /** A step of the client whose signal the sleeping engine thread waits for. */
  lemma Wakes(s: State) returns (step: Step)
    requires Inv(s) && Asleep(s) && s.queue != []
    ensures Enabled(s, step) && (step.Leave? || step.Signal?) && Delay(Apply(s, step)) < Delay(s)
  {
    hide HistoryOk, OwnersOk, ClientOk, DrainOk, LockOk;
    assert s.queue[0] in s.queue;
    var c := s.queue[0].client;
    step := if s.clients[c].Queued? then Leave(c) else Signal(c);
  }

  predicate Leads(step: Step) {
    EngineStep(step) || step.Enter? || step.Look? || step.Push? || step.Leave? || step.Signal? || step.Refuse?
  }

  lemma EngineGoesOn(s: State, j: Job) returns (step: Step)
    requires Inv(s) && j in Hand(s.engine) + s.queue && !(s.engine.Waiting? && Asleep(s))
    requires s.engine.Outside? ==> s.lock.Free?
    ensures Enabled(s, step) && EngineStep(step)
  {
    hide HistoryOk, OwnersOk, ClientOk, WakeOk, LockOk;
    step := match s.engine
      case Loading => Loaded
      case Waiting => if s.jobReady then Wake else Stop
      case Outside(_) => EngineEnter
      case Locked(_) => Pop
      case Holding(_, _) => EngineLeave
      case Working(_, _) => Work
      case Finishing(_, _) => Finish
      case Done => Loaded;
  }

  function Distance(s: State, j: Job): nat
    requires j in Hand(s.engine) + s.queue
  {
    4 * StepsLeft(s, j) + Delay(s)
  }

  /** While a job is in the queue or in hand there is always a step that leads on: the engine thread's
      own, or that of a client which holds the lock or has its signal still to give; and it brings the
      job nearer, until it is finished. */
  lemma AlwaysAStep(s: State, j: Job) returns (step: Step)
    requires Inv(s) && j in Hand(s.engine) + s.queue
    ensures Enabled(s, step) && Leads(step) && !step.Refuse?
    ensures var t := Apply(s, step);
            if j in Hand(t.engine) + t.queue then Distance(t, j) < Distance(s, j) else j in t.finished
  {
    hide Inv, Apply, Enabled, StepsLeft, IndexOf, LockDelay, Delay, Hand;
    if s.engine.Outside? && !s.lock.Free? {
      step := WaitsForLock(s, j);
    } else if Asleep(s) {
      QueueHas(s, j);
      step := Wakes(s);
      OthersDoNotDelay(s, step, j);
    } else {
      step := EngineGoesOn(s, j);
      EngineStepsComeNearer(s, step, j);
    }
  }

  lemma WaitsForLock(s: State, j: Job) returns (step: Step)
    requires Inv(s) && j in Hand(s.engine) + s.queue && s.engine.Outside? && !s.lock.Free?
    ensures Enabled(s, step) && Leads(step) && !step.Refuse?
    ensures var t := Apply(s, step); j in Hand(t.engine) + t.queue && Distance(t, j) < Distance(s, j)
  {
    hide HistoryOk, OwnersOk, ClientOk, WakeOk, DrainOk, Apply, Enabled, StepsLeft, IndexOf, LockDelay, Hand;
    step := FreesLock(s);
    OthersDoNotDelay(s, step, j);
  }

  lemma QueueHas(s: State, j: Job)
    requires s.engine.Waiting? && j in Hand(s.engine) + s.queue
    ensures s.queue != []
  {
  }

  /** How far a job that has not been pushed is from being pushed or refused. */
  function ToPush(s: State, j: Job): nat
    requires IsAt(s, j)
  {
    var at := s.clients[j.client];
    if at.Created? then 5 + LockDelay(s) else if at.Inside? then 4 else if at.Seen? then 3 else 2
  }

  predicate Settled(s: State, j: Job) { j in s.finished || j in s.refused }

  /** A job that is neither settled nor pushed is at its client, on the way to one or the other. */
  lemma OnTheWay(s: State, j: Job)
    requires Inv(s) && j in s.created && !Settled(s, j) && j !in Hand(s.engine) + s.queue
    ensures IsAt(s, j) && !Waits(s.clients[j.client])
  {
    hide LockOk, DrainOk, WakeOk;
    assert IsAt(s, j);
    assert ClientOk(s, j.client);
  }

  lemma AlsoAStep(s: State, j: Job) returns (step: Step)
    requires Inv(s) && j in s.created && !Settled(s, j) && j !in Hand(s.engine) + s.queue
    ensures Enabled(s, step) && Leads(step) && IsAt(s, j)
    ensures var t := Apply(s, step);
            Settled(t, j) || j in Hand(t.engine) + t.queue || (IsAt(t, j) && ToPush(t, j) < ToPush(s, j))
  {
    OnTheWay(s, j);
    var c := j.client;
    var at := s.clients[c];
    if at.Created? && !s.lock.Free? {
      NoLock(s, c);
      step := FreesLock(s);
      StaysCreated(s, step, j);
    } else {
      hide Inv, LockDelay;
      step := if at.Created? then Enter(c) else if at.Inside? then Look(c) else if at.Refusing? then Refuse(c)
              else if CanPush(at) then Push(c) else Leave(c);
    }
  }

  lemma NoLock(s: State, c: nat)
    requires Inv(s) && c in s.clients && s.clients[c].Created?
    ensures s.lock != ByClient(c)
  {
  }

  lemma StaysCreated(s: State, step: Step, j: Job)
    requires Enabled(s, step) && IsAt(s, j) && s.clients[j.client].Created?
    requires step.Pop? || step.EngineLeave? || ((step.Look? || step.Push? || step.Leave?) && step.c != j.client)
    ensures IsAt(Apply(s, step), j) && Apply(s, step).clients[j.client] == s.clients[j.client]
  {
  }

  lemma StaysCreatedJob(s: State, step: Step, j: Job)
    requires Enabled(s, step) && j in s.created
    ensures j in Apply(s, step).created
  {
  }

  /** From every state and for every job not yet done with there is a run of steps that finishes it, or
      refuses it if it was not pushed: steps of the engine thread and of clients already inside submit(). */
  lemma {:induction false} RunsOn(s: State, j: Job) returns (run: seq<Step>)
    requires Inv(s) && j in s.created && !Settled(s, j)
    ensures IsRun(s, run) && (forall step <- run :: Leads(step)) && Settled(After(s, run), j)
    ensures j in Hand(s.engine) + s.queue ==> j in After(s, run).finished
    decreases j !in Hand(s.engine) + s.queue,
              if j in Hand(s.engine) + s.queue then Distance(s, j) else if IsAt(s, j) then ToPush(s, j) else 0
  {
    hide Inv, Apply, Enabled, Distance, ToPush, Leads, Hand, IsAt, Settled;
    var step: Step;
    if j in Hand(s.engine) + s.queue {
      step := AlwaysAStep(s, j);
    } else {
      step := AlsoAStep(s, j);
    }
    var t := Apply(s, step);
    InvStep(s, step);
    StaysCreatedJob(s, step, j);
    RunOf(s, step, []);
    NotSettled(t, j);
    if Settled(t, j) {
      run := [step];
    } else {
      var rest := RunsOn(t, j);
      run := [step] + rest;
      RunOf(s, step, rest);
    }
  }

  lemma NotSettled(s: State, j: Job)
    requires Inv(s)
    ensures j in Hand(s.engine) + s.queue ==> !Settled(s, j)
    ensures j in s.finished ==> Settled(s, j)
  {
    hide LockOk, OwnersOk, DrainOk, WakeOk, ClientOk, Hand;
    if j in Hand(s.engine) + s.queue {
      NotYetFinished(s, j);
      var rest := Hand(s.engine) + s.queue;
      assert s.pushed == s.finished + rest;
      assert j in s.pushed;
    }
  }

  lemma RunOf(s: State, step: Step, rest: seq<Step>)
    requires Enabled(s, step) && IsRun(Apply(s, step), rest)
    ensures IsRun(s, [step] + rest) && After(s, [step] + rest) == After(Apply(s, step), rest)
  {
    assert ([step] + rest)[1..] == rest;
  }

  /** Whatever has happened, every job there is can be done with: no deadlock, no lost wake-up. A job
      that was pushed is finished, whatever else is refused. */
  lemma NoJobIsStranded(steps: seq<Step>, j: Job) returns (more: seq<Step>)
    requires IsRun(START, steps) && j in After(START, steps).created && !Settled(After(START, steps), j)
    ensures var s := After(START, steps);
            && IsRun(s, more) && (forall step <- more :: Leads(step))
            && Settled(After(s, more), j)
            && (j in s.pushed ==> j in After(s, more).finished)
  {
    StartsOk();
    EveryRunKeeps(START, steps);
    var s := After(START, steps);
    more := RunsOn(s, j);
    if j in s.pushed {
      PushedIsSomewhere(s, j);
    }
  }

  lemma PushedIsSomewhere(s: State, j: Job)
    requires HistoryOk(s) && j in s.pushed && j !in s.finished
    ensures j in Hand(s.engine) + s.queue
  {
  }
}
