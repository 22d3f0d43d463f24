/** The worker pool of a database module, as the steps that its threads can interleave:
  each critical section is one step, and each notification comes after the lock is freed. */
module Pool {

  /** A job is for any worker, or pinned to one. */
  datatype Target = Shared | Pinned(worker: nat)

  datatype Job = Job(id: nat, target: Target)

  /** Awake: about to take the lock. Asleep: waiting for a notification. */
  datatype Phase = Awake | Asleep | Running | Gone

  datatype Taken = Taken(worker: nat, job: Job)

  /** The fields of the pool, the phase of each worker, the notifications still to be sent,
    and the history: the jobs accepted and the jobs taken. */
  datatype State = State(jobs: seq<Job>, pinned: seq<seq<Job>>, stopping: bool, phases: seq<Phase>,
                         ones: nat, alls: nat, accepted: seq<Job>, taken: seq<Taken>)

  datatype Event =
    | Submit
    | SubmitTo(worker: nat)
    | Stop
    | NotifyOne(woken: nat)  // a sleeping worker, or the number of workers when none sleeps
    | NotifyAll
    | Turn(worker: nat)
    | Finish(worker: nat)
    | Spurious(worker: nat)

  function Started(workers: nat): State {
    State([], seq(workers, _ => []), false, seq(workers, _ => Awake), 0, 0, [], [])
  }

  predicate Enabled(s: State, e: Event) {
    match e
    case Submit => true
    case SubmitTo(_) => true
    case Stop => true
    case NotifyOne(w) =>
      && s.ones > 0
      && (if w < |s.phases| then s.phases[w] == Asleep else forall v :: 0 <= v < |s.phases| ==> s.phases[v] != Asleep)
    case NotifyAll => s.alls > 0
    case Turn(w) => w < |s.phases| && s.phases[w] == Awake
    case Finish(w) => w < |s.phases| && s.phases[w] == Running
    case Spurious(w) => w < |s.phases| && s.phases[w] == Asleep
  }

  function Next(s: State, e: Event): State
    requires |s.pinned| == |s.phases| && Enabled(s, e)
  {
    match e
    case Submit => AfterSubmit(s)
    case SubmitTo(w) => AfterSubmitTo(s, w)
    case Stop => if s.stopping then s else s.(stopping := true, alls := s.alls + 1)
    case NotifyOne(w) =>
      if w < |s.phases| then s.(ones := s.ones - 1, phases := s.phases[w := Awake]) else s.(ones := s.ones - 1)
    case NotifyAll => s.(alls := s.alls - 1, phases := AllWoken(s.phases))
    case Turn(w) => AfterTurn(s, w)
    case Finish(w) => s.(phases := s.phases[w := Awake])
    case Spurious(w) => s.(phases := s.phases[w := Awake])
  }

  function AfterSubmit(s: State): State {
    if s.stopping then s
    else
      var job := Job(|s.accepted|, Shared);
      s.(jobs := s.jobs + [job], accepted := s.accepted + [job], ones := s.ones + 1)
  }

  function AfterSubmitTo(s: State, w: nat): State {
    if s.stopping || w >= |s.pinned| then s
    else
      var job := Job(|s.accepted|, Pinned(w));
      s.(pinned := s.pinned[w := s.pinned[w] + [job]], accepted := s.accepted + [job], alls := s.alls + 1)
  }

  /** What a worker does with the lock: sleeps, leaves, or takes a job, its own ones first. */
  function AfterTurn(s: State, w: nat): State
    requires w < |s.phases| == |s.pinned|
  {
    if !s.stopping && s.jobs == [] && s.pinned[w] == [] then s.(phases := s.phases[w := Asleep])
    else if s.jobs == [] && s.pinned[w] == [] then s.(phases := s.phases[w := Gone])
    else if s.pinned[w] != [] then
      s.(pinned := s.pinned[w := s.pinned[w][1..]], phases := s.phases[w := Running],
         taken := s.taken + [Taken(w, s.pinned[w][0])])
    else s.(jobs := s.jobs[1..], phases := s.phases[w := Running], taken := s.taken + [Taken(w, s.jobs[0])])
  }

  function AllWoken(phases: seq<Phase>): (r: seq<Phase>)
    ensures |r| == |phases|
    ensures forall v :: 0 <= v < |phases| ==> r[v] == if phases[v] == Asleep then Awake else phases[v]
  {
    seq(|phases|, v requires 0 <= v < |phases| => if phases[v] == Asleep then Awake else phases[v])
  }

  // ─── Runs ──────────────────────────────────────────────────────────────────

  /** A run from the start, in any interleaving. */
  ghost predicate IsRun(workers: nat, states: seq<State>, events: seq<Event>) {
    && |states| == |events| + 1 && states[0] == Started(workers)
    && forall i :: 0 <= i < |events| ==> IsStep(states[i], events[i], states[i + 1])
  }

  ghost predicate IsStep(s: State, e: Event, s1: State) {
    |s.pinned| == |s.phases| && Enabled(s, e) && s1 == Next(s, e)
  }

  ghost predicate Reachable(workers: nat, s: State) {
    exists states, events :: IsRun(workers, states, events) && s == states[|events|]
  }

  // ─── Conservation ──────────────────────────────────────────────────────────

  function For(jobs: seq<Job>, target: Target): seq<Job> {
    if jobs == [] then []
    else
      var rest := For(jobs[..|jobs| - 1], target);
      if jobs[|jobs| - 1].target == target then rest + [jobs[|jobs| - 1]] else rest
  }

  function TakenFor(taken: seq<Taken>, target: Target): seq<Job> {
    if taken == [] then []
    else
      var rest := TakenFor(taken[..|taken| - 1], target);
      var job := taken[|taken| - 1].job;
      if job.target == target then rest + [job] else rest
  }

  /** Of the jobs for a target, those taken and those waiting are all that were accepted, in
    the order in which they were accepted. */
  ghost predicate Conserved(s: State, target: Target, queue: seq<Job>) {
    && TakenFor(s.taken, target) + queue == For(s.accepted, target)
    && forall i :: 0 <= i < |queue| ==> queue[i].target == target
  }

  // ─── The invariant ─────────────────────────────────────────────────────────

  predicate IsUp(p: Phase) { p == Awake || p == Running }

  ghost predicate Numbered(accepted: seq<Job>) { forall i :: 0 <= i < |accepted| ==> accepted[i].id == i }

  ghost predicate RightWorker(t: Taken) { t.job.target.Pinned? ==> t.worker == t.job.target.worker }

  ghost predicate Inv(workers: nat, s: State) {
    && |s.phases| == |s.pinned| == workers
    && Numbered(s.accepted)
    && Conserved(s, Shared, s.jobs)
    && (forall w :: 0 <= w < workers ==> Conserved(s, Pinned(w), s.pinned[w]))
    && (forall i :: 0 <= i < |s.accepted| && s.accepted[i].target.Pinned? ==> s.accepted[i].target.worker < workers)
    && (forall i :: 0 <= i < |s.taken| ==> RightWorker(s.taken[i]) && s.taken[i].worker < workers)
    && (forall w :: 0 <= w < workers ==> WorkerIsRight(s, w))
    && NoneForgotten(s)
  }

  /** Who is gone left nothing; who sleeps with work of its own, or during the shutdown, is
    going to be woken. */
  ghost predicate WorkerIsRight(s: State, w: nat)
    requires w < |s.phases| == |s.pinned|
  {
    && (s.phases[w] == Gone ==> s.stopping && s.jobs == [] && s.pinned[w] == [])
    && (s.phases[w] == Asleep && (s.stopping || s.pinned[w] != []) ==> s.alls > 0)
  }

  /** A shared job in the queue has a worker that is up, or a notification on its way. */
  ghost predicate NoneForgotten(s: State) {
    s.jobs != [] ==>
      |s.phases| == 0 || s.ones > 0 || s.alls > 0 || exists v :: 0 <= v < |s.phases| && IsUp(s.phases[v])
  }

  lemma {:induction false} StartKeeps(workers: nat)
    ensures Inv(workers, Started(workers))
  {
  }

  lemma ForOneMore(jobs: seq<Job>, job: Job, target: Target)
    ensures For(jobs + [job], target) == if job.target == target then For(jobs, target) + [job] else For(jobs, target)
  {
    assert (jobs + [job])[..|jobs|] == jobs;
  }

  lemma TakenOneMore(taken: seq<Taken>, t: Taken, target: Target)
    ensures TakenFor(taken + [t], target)
            == if t.job.target == target then TakenFor(taken, target) + [t.job] else TakenFor(taken, target)
  {
    assert (taken + [t])[..|taken|] == taken;
  }

  /** A job goes to the end of the queue of its target, and of no other. */
  lemma QueuedIsConserved(s: State, s1: State, job: Job, target: Target, queue: seq<Job>)
    requires Conserved(s, target, queue) && s1.taken == s.taken && s1.accepted == s.accepted + [job]
    ensures Conserved(s1, target, if job.target == target then queue + [job] else queue)
  {
    hide For, TakenFor;
    ForOneMore(s.accepted, job, target);
    assert TakenFor(s.taken, target) + (queue + [job]) == TakenFor(s.taken, target) + queue + [job];
  }

  /** A job is taken from the front of the queue of its target, and of no other. */
  lemma TakenIsConserved(s: State, s1: State, t: Taken, target: Target, queue: seq<Job>)
    requires Conserved(s, target, queue) && s1.accepted == s.accepted && s1.taken == s.taken + [t]
    requires t.job.target == target ==> queue != [] && queue[0] == t.job
    ensures Conserved(s1, target, if t.job.target == target then queue[1..] else queue)
  {
    hide For, TakenFor;
    TakenOneMore(s.taken, t, target);
    if t.job.target == target {
      assert TakenFor(s.taken, target) + [queue[0]] + queue[1..] == TakenFor(s.taken, target) + queue;
    }
  }

  lemma SubmitKeeps(workers: nat, s: State)
    requires Inv(workers, s)
    ensures Inv(workers, AfterSubmit(s))
  {
    hide Conserved;
    var s1 := AfterSubmit(s);
    if !s.stopping {
      var job := Job(|s.accepted|, Shared);
      QueuedIsConserved(s, s1, job, Shared, s.jobs);
      forall w | 0 <= w < workers
        ensures Conserved(s1, Pinned(w), s1.pinned[w]) && WorkerIsRight(s1, w)
      {
        QueuedIsConserved(s, s1, job, Pinned(w), s.pinned[w]);
        assert WorkerIsRight(s, w);
      }
    }
  }

  lemma SubmitToKeeps(workers: nat, s: State, target: nat)
    requires Inv(workers, s)
    ensures Inv(workers, AfterSubmitTo(s, target))
  {
    hide Conserved;
    var s1 := AfterSubmitTo(s, target);
    if !s.stopping && target < |s.pinned| {
      var job := Job(|s.accepted|, Pinned(target));
      QueuedIsConserved(s, s1, job, Shared, s.jobs);
      forall w | 0 <= w < workers
        ensures Conserved(s1, Pinned(w), s1.pinned[w]) && WorkerIsRight(s1, w)
      {
        QueuedIsConserved(s, s1, job, Pinned(w), s.pinned[w]);
        assert WorkerIsRight(s, w);
      }
    }
  }

  /** Steps that change only phases, notifications and the flag. */
  lemma SameHistory(s: State, s1: State, target: Target, queue: seq<Job>)
    requires Conserved(s, target, queue) && s1.accepted == s.accepted && s1.taken == s.taken
    ensures Conserved(s1, target, queue)
  {
  }

  lemma QuietStepKeeps(workers: nat, s: State, e: Event)
    requires Inv(workers, s) && Enabled(s, e)
    requires e.Stop? || e.NotifyOne? || e.NotifyAll? || e.Finish? || e.Spurious?
    ensures Inv(workers, Next(s, e))
  {
    hide Conserved;
    var s1 := Next(s, e);
    SameHistory(s, s1, Shared, s.jobs);
    forall w | 0 <= w < workers
      ensures Conserved(s1, Pinned(w), s1.pinned[w]) && WorkerIsRight(s1, w)
    {
      SameHistory(s, s1, Pinned(w), s.pinned[w]);
      assert WorkerIsRight(s, w);
    }
    QuietStepForgetsNone(workers, s, e);
  }

  lemma QuietStepForgetsNone(workers: nat, s: State, e: Event)
    requires Inv(workers, s) && Enabled(s, e)
    requires e.Stop? || e.NotifyOne? || e.NotifyAll? || e.Finish? || e.Spurious?
    ensures NoneForgotten(Next(s, e))
  {
    hide Conserved;
    var s1 := Next(s, e);
    if s.jobs != [] && |s.phases| > 0 {
      match e
      case Stop =>
        assert s1.phases == s.phases;
        if v :| 0 <= v < |s.phases| && IsUp(s.phases[v]) {
          assert IsUp(s1.phases[v]);
        }
      case NotifyOne(w) =>
        if w < |s.phases| {
          assert IsUp(s1.phases[w]);
        } else {
          assert WorkerIsRight(s, 0);
          assert IsUp(s1.phases[0]);
        }
      case NotifyAll =>
        assert WorkerIsRight(s, 0);
        assert IsUp(s1.phases[0]);
      case Finish(w) => assert IsUp(s1.phases[w]);
      case Spurious(w) => assert IsUp(s1.phases[w]);
    }
  }

  lemma TurnKeeps(workers: nat, s: State, v: nat)
    requires Inv(workers, s) && Enabled(s, Turn(v))
    ensures Inv(workers, AfterTurn(s, v))
  {
    hide Conserved;
    var s1 := AfterTurn(s, v);
    if s.jobs == [] && s.pinned[v] == [] {
      SameHistory(s, s1, Shared, s.jobs);
      forall w | 0 <= w < workers
        ensures Conserved(s1, Pinned(w), s1.pinned[w]) && WorkerIsRight(s1, w)
      {
        SameHistory(s, s1, Pinned(w), s.pinned[w]);
        assert WorkerIsRight(s, w);
      }
    } else {
      var t := s1.taken[|s.taken|];
      QueueTargets(workers, s, v);
      TakenIsConserved(s, s1, t, Shared, s.jobs);
      assert IsUp(s1.phases[v]);
      forall w | 0 <= w < workers
        ensures Conserved(s1, Pinned(w), s1.pinned[w]) && WorkerIsRight(s1, w)
      {
        TakenIsConserved(s, s1, t, Pinned(w), s.pinned[w]);
        assert WorkerIsRight(s, w);
      }
    }
  }

  lemma QueueTargets(workers: nat, s: State, v: nat)
    requires Inv(workers, s) && v < workers
    ensures s.jobs != [] ==> s.jobs[0].target == Shared
    ensures s.pinned[v] != [] ==> s.pinned[v][0].target == Pinned(v)
  {
    assert Conserved(s, Pinned(v), s.pinned[v]);
  }

  lemma StepKeeps(workers: nat, s: State, e: Event)
    requires Inv(workers, s) && Enabled(s, e)
    ensures Inv(workers, Next(s, e))
  {
    hide Inv, AfterSubmit, AfterSubmitTo, AfterTurn;
    match e
    case Submit => SubmitKeeps(workers, s);
    case SubmitTo(w) => SubmitToKeeps(workers, s, w);
    case Turn(w) => TurnKeeps(workers, s, w);
    case _ => QuietStepKeeps(workers, s, e);
  }

  /** The invariant holds in every state of every interleaving. */
  lemma ReachableKeeps(workers: nat, s: State)
    requires Reachable(workers, s)
    ensures Inv(workers, s)
  {
    var states, events :| IsRun(workers, states, events) && s == states[|events|];
    RunKeeps(workers, states, events, |events|);
  }

  lemma {:induction false} RunKeeps(workers: nat, states: seq<State>, events: seq<Event>, i: nat)
    requires IsRun(workers, states, events) && i <= |events|
    ensures Inv(workers, states[i])
  {
    hide Inv, Next, Enabled;
    if i == 0 {
      StartKeeps(workers);
    } else {
      RunKeeps(workers, states, events, i - 1);
      assert IsStep(states[i - 1], events[i - 1], states[i]);
      StepKeeps(workers, states[i - 1], events[i - 1]);
    }
  }

  // ─── Every job once ────────────────────────────────────────────────────────

  /** How often a job was taken. */
  function Times(taken: seq<Taken>, job: Job): nat {
    if taken == [] then 0
    else Times(taken[..|taken| - 1], job) + if taken[|taken| - 1].job == job then 1 else 0
  }

  function QueueOf(s: State, target: Target): seq<Job> {
    match target
    case Shared => s.jobs
    case Pinned(w) => if w < |s.pinned| then s.pinned[w] else []
  }

  lemma {:induction false} TimesInOrder(taken: seq<Taken>, job: Job)
    ensures multiset(TakenFor(taken, job.target))[job] == Times(taken, job)
  {
    if taken != [] {
      TimesInOrder(taken[..|taken| - 1], job);
    }
  }

  lemma {:induction false} TimesAccepted(jobs: seq<Job>, job: Job)
    ensures multiset(For(jobs, job.target))[job] == multiset(jobs)[job]
  {
    if jobs != [] {
      var last := |jobs| - 1;
      TimesAccepted(jobs[..last], job);
      assert jobs == jobs[..last] + [jobs[last]];
    }
  }

  lemma {:induction false} NumberedOnce(jobs: seq<Job>, job: Job)
    requires Numbered(jobs)
    ensures multiset(jobs)[job] == if job in jobs then 1 else 0
  {
    if jobs != [] {
      var last := |jobs| - 1;
      NumberedOnce(jobs[..last], job);
      assert jobs == jobs[..last] + [jobs[last]];
      assert job in jobs <==> job in jobs[..last] || job == jobs[last];
      assert job == jobs[last] ==> job !in jobs[..last];
    }
  }

  lemma {:induction false} NeverTaken(taken: seq<Taken>, job: Job)
    requires forall i :: 0 <= i < |taken| ==> taken[i].job != job
    ensures Times(taken, job) == 0
  {
    if taken != [] {
      NeverTaken(taken[..|taken| - 1], job);
    }
  }

  /** Whatever the interleaving, an accepted job has been taken once or waits in its queue
    once, never both; and no other job was ever taken. */
  lemma EveryJobOnce(workers: nat, s: State, job: Job)
    requires Inv(workers, s)
    ensures Times(s.taken, job) + multiset(QueueOf(s, job.target))[job] == if job in s.accepted then 1 else 0
  {
    hide For, TakenFor, Times;
    var queue := QueueOf(s, job.target);
    if job.target.Pinned? && job.target.worker >= workers {
      forall i | 0 <= i < |s.taken|
        ensures s.taken[i].job != job
      {
        assert RightWorker(s.taken[i]) && s.taken[i].worker < workers;
      }
      NeverTaken(s.taken, job);
      return;
    }
    assert Conserved(s, job.target, queue);
    TimesInOrder(s.taken, job);
    TimesAccepted(s.accepted, job);
    NumberedOnce(s.accepted, job);
    assert multiset(TakenFor(s.taken, job.target) + queue) == multiset(TakenFor(s.taken, job.target)) + multiset(queue);
  }

  /** Pinned jobs are only taken by their worker; jobs for a target are taken in the order in
    which they were accepted. */
  lemma TakenInOrder(workers: nat, s: State, target: Target)
    requires Inv(workers, s) && (target.Pinned? ==> target.worker < workers)
    ensures TakenFor(s.taken, target) <= For(s.accepted, target)
    ensures forall i :: 0 <= i < |s.taken| && s.taken[i].job.target.Pinned? ==>
              s.taken[i].worker == s.taken[i].job.target.worker
  {
    hide For, TakenFor;
    assert Conserved(s, target, QueueOf(s, target));
    forall i | 0 <= i < |s.taken| && s.taken[i].job.target.Pinned?
      ensures s.taken[i].worker == s.taken[i].job.target.worker
    {
      assert RightWorker(s.taken[i]);
    }
  }

  // ─── Own jobs first ────────────────────────────────────────────────────────

  /** The jobs that one worker took, in order. */
  function TakenBy(taken: seq<Taken>, w: nat): seq<Job> {
    if taken == [] then []
    else
      var rest := TakenBy(taken[..|taken| - 1], w);
      if taken[|taken| - 1].worker == w then rest + [taken[|taken| - 1].job] else rest
  }

  /** Of the jobs in `own`, those that the worker has not taken are still the first of its queue. */
  ghost predicate StillFirst(own: seq<Job>, got: seq<Job>, queue: seq<Job>) {
    if |got| <= |own| then got <= own && own[|got|..] <= queue else own <= got
  }

  lemma StepTakesOwnFirst(s: State, e: Event, n: nat, own: seq<Job>, w: nat)
    requires |s.pinned| == |s.phases| && w < |s.pinned| && Enabled(s, e) && n <= |s.taken|
    requires StillFirst(own, TakenBy(s.taken[n..], w), s.pinned[w])
    ensures var s1 := Next(s, e);
            && |s1.pinned| == |s1.phases| == |s.pinned| && n <= |s1.taken|
            && StillFirst(own, TakenBy(s1.taken[n..], w), s1.pinned[w])
  {
    var s1 := Next(s, e);
    var got := TakenBy(s.taken[n..], w);
    if s1.taken != s.taken {
      var t := s1.taken[|s.taken|];
      assert s1.taken[n..] == s.taken[n..] + [t] && s1.taken[n..][..|s.taken| - n] == s.taken[n..];
      assert TakenBy(s1.taken[n..], w) == if t.worker == w then got + [t.job] else got;
    }
  }

  /** What a worker takes from now on begins with the jobs that are pinned to it now, in their order:
    however many shared jobs wait, none of them comes before. */
  lemma {:induction false} OwnJobsFirst(workers: nat, states: seq<State>, events: seq<Event>, i: nat, j: nat, w: nat)
    requires IsRun(workers, states, events) && i <= j <= |events| && w < |states[i].pinned|
    ensures |states[i].taken| <= |states[j].taken| && w < |states[j].pinned|
    ensures var got := TakenBy(states[j].taken[|states[i].taken|..], w);
            got <= states[i].pinned[w] || states[i].pinned[w] <= got
    ensures StillFirst(states[i].pinned[w], TakenBy(states[j].taken[|states[i].taken|..], w), states[j].pinned[w])
    decreases j - i
  {
    hide Next, Enabled;
    if i == j {
      assert states[i].taken[|states[i].taken|..] == [];
    } else {
      OwnJobsFirst(workers, states, events, i, j - 1, w);
      assert IsStep(states[j - 1], events[j - 1], states[j]);
      StepTakesOwnFirst(states[j - 1], events[j - 1], |states[i].taken|, states[i].pinned[w], w);
    }
  }

  /** Every job is accepted until the pool is told to stop, and none afterwards. */
  lemma AcceptedUnlessStopping(s: State, w: nat)
    requires |s.pinned| == |s.phases|
    ensures var a, b := Next(s, Submit), Next(s, SubmitTo(w));
            && (s.stopping ==> a == s && b == s)
            && (!s.stopping ==> a.jobs == s.jobs + [Job(|s.accepted|, Shared)]
                                && a.accepted == s.accepted + [Job(|s.accepted|, Shared)])
            && (!s.stopping && w < |s.pinned| ==> b.pinned[w] == s.pinned[w] + [Job(|s.accepted|, Pinned(w))]
                                                  && b.accepted == s.accepted + [Job(|s.accepted|, Pinned(w))])
  {
  }

  // ─── Shutdown ──────────────────────────────────────────────────────────────

  ghost predicate AllGone(s: State) { forall w :: 0 <= w < |s.phases| ==> s.phases[w] == Gone }

  /** Once the workers of a pool are gone, every job that was ever accepted has been taken. */
  lemma NothingSurvives(workers: nat, s: State, job: Job)
    requires Inv(workers, s) && workers > 0 && AllGone(s) && job in s.accepted
    ensures Times(s.taken, job) == 1
  {
    hide Conserved, Times;
    var i :| 0 <= i < |s.accepted| && s.accepted[i] == job;
    var w := if job.target.Pinned? then job.target.worker else 0;
    assert WorkerIsRight(s, w);
    EveryJobOnce(workers, s, job);
  }

  predicate Internal(e: Event) { e.NotifyOne? || e.NotifyAll? || e.Turn? || e.Finish? }

  /** The workers and the notifications have nothing left to do. */
  ghost predicate Settled(s: State) { forall e: Event :: Internal(e) ==> !Enabled(s, e) }

  lemma SettledParts(s: State)
    requires Settled(s)
    ensures s.alls == 0 && forall w :: 0 <= w < |s.phases| ==> s.phases[w] == Asleep || s.phases[w] == Gone
    ensures |s.phases| > 0 ==> s.ones == 0
  {
    assert Internal(NotifyAll) && !Enabled(s, NotifyAll);
    forall w | 0 <= w < |s.phases|
      ensures s.phases[w] == Asleep || s.phases[w] == Gone
    {
      assert Internal(Turn(w)) && !Enabled(s, Turn(w));
      assert Internal(Finish(w)) && !Enabled(s, Finish(w));
    }
    if s.ones > 0 && |s.phases| > 0 {
      var v := if exists w :: 0 <= w < |s.phases| && s.phases[w] == Asleep
               then var w :| 0 <= w < |s.phases| && s.phases[w] == Asleep; w
               else |s.phases|;
      assert Enabled(s, NotifyOne(v));
      assert Internal(NotifyOne(v));
    }
  }

  /** No lost wakeup: a pool cannot come to rest with a job in a queue, nor, once it is
    stopping, with a worker that is not gone. */
  lemma SettledIsDone(workers: nat, s: State)
    requires Inv(workers, s) && workers > 0 && Settled(s)
    ensures s.jobs == [] && forall w :: 0 <= w < workers ==> s.pinned[w] == []
    ensures s.stopping ==> AllGone(s)
  {
    hide Conserved, Settled;
    SettledParts(s);
    forall w | 0 <= w < workers
      ensures s.pinned[w] == [] && (s.stopping ==> s.phases[w] == Gone)
    {
      assert WorkerIsRight(s, w);
    }
    assert NoneForgotten(s);
  }

  // ─── It does come to rest ──────────────────────────────────────────────────

  function Weight(p: Phase): nat {
    match p
    case Running => 3
    case Awake => 2
    case Asleep => 1
    case Gone => 0
  }

  function Weights(phases: seq<Phase>): nat {
    if phases == [] then 0 else Weight(phases[0]) + Weights(phases[1..])
  }

  function Lengths(queues: seq<seq<Job>>): nat {
    if queues == [] then 0 else |queues[0]| + Lengths(queues[1..])
  }

  /** Bounds the steps that workers and notifications can still make by themselves. */
  function Work(s: State): nat {
    (s.ones + s.alls) * (|s.phases| + 1) + 2 * (|s.jobs| + Lengths(s.pinned)) + Weights(s.phases)
  }

  lemma {:induction false} WeightsUpdate(phases: seq<Phase>, w: nat, p: Phase)
    requires w < |phases|
    ensures Weights(phases[w := p]) + Weight(phases[w]) == Weights(phases) + Weight(p)
  {
    if w > 0 {
      assert phases[w := p][1..] == phases[1..][w - 1 := p];
      WeightsUpdate(phases[1..], w - 1, p);
    } else {
      assert phases[w := p][1..] == phases[1..];
    }
  }

  lemma {:induction false} LengthsUpdate(queues: seq<seq<Job>>, w: nat, q: seq<Job>)
    requires w < |queues|
    ensures Lengths(queues[w := q]) + |queues[w]| == Lengths(queues) + |q|
  {
    if w > 0 {
      assert queues[w := q][1..] == queues[1..][w - 1 := q];
      LengthsUpdate(queues[1..], w - 1, q);
    } else {
      assert queues[w := q][1..] == queues[1..];
    }
  }

  lemma {:induction false} WeightsWoken(phases: seq<Phase>)
    ensures Weights(AllWoken(phases)) <= Weights(phases) + |phases|
  {
    if phases != [] {
      assert AllWoken(phases)[1..] == AllWoken(phases[1..]);
      WeightsWoken(phases[1..]);
    }
  }

  /** Every such step leaves less to do. */
  lemma InternalStepWorks(s: State, e: Event)
    requires |s.phases| == |s.pinned| && Internal(e) && Enabled(s, e)
    ensures Work(Next(s, e)) < Work(s)
  {
    hide Weights, Lengths;
    var n := |s.phases| + 1;
    match e
    case NotifyOne(w) =>
      assert (s.ones + s.alls) * n == (s.ones - 1 + s.alls) * n + n;
      if w < |s.phases| {
        WeightsUpdate(s.phases, w, Awake);
      }
    case NotifyAll =>
      assert (s.ones + s.alls) * n == (s.ones + s.alls - 1) * n + n;
      WeightsWoken(s.phases);
    case Turn(w) =>
      WeightsUpdate(s.phases, w, Asleep);
      WeightsUpdate(s.phases, w, Gone);
      WeightsUpdate(s.phases, w, Running);
      if s.pinned[w] != [] {
        LengthsUpdate(s.pinned, w, s.pinned[w][1..]);
      }
    case Finish(w) => WeightsUpdate(s.phases, w, Awake);
  }

  ghost predicate IsQuietRun(states: seq<State>, events: seq<Event>) {
    && |states| == |events| + 1
    && forall i :: 0 <= i < |events| ==> Internal(events[i]) && IsStep(states[i], events[i], states[i + 1])
  }

  /** Left alone, a pool makes at most `Work` steps. */
  lemma {:induction false} QuietRunsEnd(workers: nat, states: seq<State>, events: seq<Event>)
    requires IsQuietRun(states, events) && Inv(workers, states[0])
    ensures |events| <= Work(states[0]) && Inv(workers, states[|events|])
  {
    hide Inv, Work, Next, Enabled;
    if events != [] {
      assert IsStep(states[0], events[0], states[1]);
      StepKeeps(workers, states[0], events[0]);
      InternalStepWorks(states[0], events[0]);
      var rest := states[1..];
      forall i | 0 <= i < |events[1..]|
        ensures Internal(events[1..][i]) && IsStep(rest[i], events[1..][i], rest[i + 1])
      {
        assert IsStep(states[i + 1], events[i + 1], states[i + 2]);
      }
      QuietRunsEnd(workers, rest, events[1..]);
    }
  }

  /** A pool whose workers get their turns finishes every job that it accepted: when it has
    been told to stop and comes to rest, all of them have been taken, each once. */
  lemma ShutdownIsComplete(workers: nat, s: State, job: Job)
    requires Reachable(workers, s) && workers > 0 && s.stopping && Settled(s) && job in s.accepted
    ensures AllGone(s) && Times(s.taken, job) == 1
  {
    hide Inv, Times, AllGone;
    ReachableKeeps(workers, s);
    SettledIsDone(workers, s);
    NothingSurvives(workers, s, job);
  }

  ghost predicate LosesNothing(workers: nat) {
    forall s: State, job: Job :: Reachable(workers, s) && s.stopping && AllGone(s) && job in s.accepted ==>
      Times(s.taken, job) == 1
  }

  /** A pool without workers accepts jobs all the same, and loses them; and only that pool. */
  lemma LosesNothingIff(workers: nat)
    ensures LosesNothing(workers) <==> workers > 0
  {
    hide Inv;
    if workers > 0 {
      forall s: State, job: Job | Reachable(workers, s) && s.stopping && AllGone(s) && job in s.accepted
        ensures Times(s.taken, job) == 1
      {
        ReachableKeeps(workers, s);
        NothingSurvives(workers, s, job);
      }
    } else {
      var s0 := Started(0);
      var s1 := Next(s0, Submit);
      var s2 := Next(s1, Stop);
      var states, events := [s0, s1, s2], [Submit, Stop];
      assert IsStep(s0, Submit, s1) && IsStep(s1, Stop, s2);
      assert IsRun(0, states, events) && s2 == states[|events|];
      assert Reachable(0, s2);
      assert s2.accepted[0] == Job(0, Shared);
      assert Times(s2.taken, Job(0, Shared)) == 0;
      assert AllGone(s2) && s2.stopping && Job(0, Shared) in s2.accepted;
    }
  }

  // ─── The pool itself ───────────────────────────────────────────────────────

  datatype Outcome = Sleep | Leave | Run(job: Job)

  /** The fields under the lock; what the threads and the condition variable are doing is
    only followed for the proof. */
  class DbPool {
    var jobs: seq<Job>
    var pinned: seq<seq<Job>>
    var stopping: bool
    ghost var phases: seq<Phase>
    ghost var ones: nat
    ghost var alls: nat
    ghost var accepted: seq<Job>
    ghost var taken: seq<Taken>

    ghost function Now(): State
      reads this
    {
      State(jobs, pinned, stopping, phases, ones, alls, accepted, taken)
    }

    constructor (workers: nat)
      ensures Now() == Started(workers) && Inv(workers, Now())
    {
      StartKeeps(workers);
      jobs, pinned, stopping := [], seq(workers, _ => []), false;
      phases, ones, alls, accepted, taken := seq(workers, _ => Awake), 0, 0, [], [];
    }

    /** A job for any worker; dropped when the pool is stopping. */
    method SubmitJob(ghost workers: nat, job: Job) returns (notify: bool)
      requires Inv(workers, Now()) && job == Job(|accepted|, Shared)
      modifies this
      ensures IsStep(old(Now()), Submit, Now()) && Inv(workers, Now())
      ensures notify <==> ones == old(ones) + 1
    {
      SubmitKeeps(workers, Now());
      hide Conserved;
      assert |Now().pinned| == |Now().phases|;
      if stopping {
        return false;
      }
      jobs := jobs + [job];
      accepted, ones := accepted + [job], ones + 1;
      return true;
    }

    method SubmitJobTo(ghost workers: nat, worker: nat, job: Job) returns (notify: bool)
      requires Inv(workers, Now()) && job == Job(|accepted|, Pinned(worker))
      modifies this
      ensures IsStep(old(Now()), SubmitTo(worker), Now()) && Inv(workers, Now())
      ensures notify <==> alls == old(alls) + 1
    {
      SubmitToKeeps(workers, Now(), worker);
      hide Conserved;
      assert |Now().pinned| == |Now().phases|;
      if stopping || worker >= |pinned| {
        return false;
      }
      pinned := pinned[worker := pinned[worker] + [job]];
      accepted, alls := accepted + [job], alls + 1;
      return true;
    }

    method StopPool(ghost workers: nat) returns (notify: bool)
      requires Inv(workers, Now())
      modifies this
      ensures IsStep(old(Now()), Stop, Now()) && Inv(workers, Now())
      ensures notify <==> alls == old(alls) + 1
    {
      QuietStepKeeps(workers, Now(), Stop);
      hide Conserved;
      assert |Now().pinned| == |Now().phases|;
      if stopping {
        return false;
      }
      stopping := true;
      alls := alls + 1;
      return true;
    }

    /** The critical section of worker `w`. */
    method TakeTurn(ghost workers: nat, w: nat) returns (outcome: Outcome)
      requires Inv(workers, Now()) && Enabled(Now(), Turn(w)) && w < |pinned|
      modifies this
      ensures IsStep(old(Now()), Turn(w), Now()) && Inv(workers, Now())
      ensures outcome.Sleep? <==> phases[w] == Asleep
      ensures outcome.Leave? <==> phases[w] == Gone
      ensures outcome.Run? ==> phases[w] == Running && taken == old(taken) + [Taken(w, outcome.job)]
    {
      TurnKeeps(workers, Now(), w);
      hide Conserved;
      assert |Now().pinned| == |Now().phases|;
      if !(stopping || jobs != [] || pinned[w] != []) {
        phases := phases[w := Asleep];
        return Sleep;
      }
      if stopping && jobs == [] && pinned[w] == [] {
        phases := phases[w := Gone];
        return Leave;
      }
      var job;
      if pinned[w] != [] {
        job := pinned[w][0];
        pinned := pinned[w := pinned[w][1..]];
      } else {
        job := jobs[0];
        jobs := jobs[1..];
      }
      phases, taken := phases[w := Running], taken + [Taken(w, job)];
      return Run(job);
    }
  }
}
