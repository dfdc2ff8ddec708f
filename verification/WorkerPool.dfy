/**
 * The worker pool (pkg/concurrency/concurrency.go) as interleaved steps: Submit's
 * `wg.Add` and channel send, a worker's receive, handler return and `wg.Done`, and
 * Shutdown's `wg.Wait` and `close`.
 */
module WorkerPool {

  /** A submitted message; `id` tells one submission from another. */
  datatype Task = Task(id: nat, text: string)

  /** A worker waits on the channel, runs the handler, or has returned from it. */
  datatype Worker = Idle | Running(task: Task) | Returned(task: Task)

  /** Shutdown has not passed `Wait`, has passed it, or has closed the channel. */
  datatype Phase = Open | Waited | Closed

  datatype Pool = Pool(
    workers: seq<Worker>,
    adding: multiset<Task>,
    queue: seq<Task>,
    wg: int,
    phase: Phase,
    panicked: bool,
    // history
    submitted: multiset<Task>,
    queued: seq<Task>,
    taken: seq<Task>,
    handled: multiset<Task>)

  /** `make(chan task, workerCount*2)`. */
  function Capacity(p: Pool): nat {
    2 * |p.workers|
  }

  function New(workerCount: nat): Pool {
    Pool(seq(workerCount, _ => Idle), multiset{}, [], 0, Open, false, multiset{}, [], [], multiset{})
  }

  datatype Action =
    | Add(t: Task)        // Submit: wg.Add(1)
    | Send(t: Task)       // Submit: p.tasks <- t
    | Take(i: nat)        // worker i receives
    | Handle(i: nat)      // worker i's handler returns
    | Done(i: nat)        // worker i: wg.Done()
    | WaitReturns         // Shutdown: wg.Wait() returns
    | Close               // Shutdown: close(p.tasks)

  /** A send blocks while the buffer is full, unless the channel is closed: then it panics. */
  predicate Enabled(p: Pool, a: Action) {
    !p.panicked &&
    match a
    case Add(_) => true
    case Send(t) => t in p.adding && (p.phase.Closed? || |p.queue| < Capacity(p))
    case Take(i) => i < |p.workers| && p.workers[i].Idle? && p.queue != []
    case Handle(i) => i < |p.workers| && p.workers[i].Running?
    case Done(i) => i < |p.workers| && p.workers[i].Returned?
    case WaitReturns => p.phase.Open? && p.wg == 0
    case Close => p.phase.Waited?
  }

  function Do(p: Pool, a: Action): Pool
    requires Enabled(p, a)
  {
    match a
    case Add(t) => p.(wg := p.wg + 1, adding := p.adding + multiset{t}, submitted := p.submitted + multiset{t})
    case Send(t) =>
      if p.phase.Closed? then p.(panicked := true)
      else p.(adding := p.adding - multiset{t}, queue := p.queue + [t], queued := p.queued + [t])
    case Take(i) =>
      p.(queue := p.queue[1..], workers := p.workers[i := Running(p.queue[0])], taken := p.taken + [p.queue[0]])
    case Handle(i) =>
      p.(workers := p.workers[i := Returned(p.workers[i].task)], handled := p.handled + multiset{p.workers[i].task})
    case Done(i) => p.(workers := p.workers[i := Idle], wg := p.wg - 1, panicked := p.wg <= 0)
    case WaitReturns => p.(phase := Waited)
    case Close => p.(phase := Closed)
  }

  /** One step of the pool. */
  predicate StepsTo(p: Pool, a: Action, q: Pool) {
    Enabled(p, a) && q == Do(p, a)
  }

  ghost predicate Schedule(p: Pool, actions: seq<Action>)
    decreases |actions|
  {
    actions == [] || (Enabled(p, actions[0]) && Schedule(Do(p, actions[0]), actions[1..]))
  }

  function Play(p: Pool, actions: seq<Action>): Pool
    requires Schedule(p, actions)
    decreases |actions|
  {
    if actions == [] then p else Play(Do(p, actions[0]), actions[1..])
  }

  // ---------- counting workers ----------

  function Busy(ws: seq<Worker>): nat {
    if ws == [] then 0 else Busy(ws[..|ws| - 1]) + BusyOne(ws[|ws| - 1])
  }

  function InHand(ws: seq<Worker>): multiset<Task> {
    if ws == [] then multiset{} else InHand(ws[..|ws| - 1]) + InHandOne(ws[|ws| - 1])
  }

  function BusyOne(w: Worker): nat {
    if w.Idle? then 0 else 1
  }

  function InHandOne(w: Worker): multiset<Task> {
    if w.Running? then multiset{w.task} else multiset{}
  }

  lemma AddToBoth(a: multiset<Task>, x: multiset<Task>, b: multiset<Task>, y: multiset<Task>, c: multiset<Task>)
    requires a + x == b + y
    ensures (a + c) + x == (b + c) + y
  {
    assert (a + c) + x == (a + x) + c;
    assert (b + c) + y == (b + y) + c;
  }

  lemma LastWorker(front: seq<Worker>, w: Worker)
    ensures Busy(front + [w]) == Busy(front) + BusyOne(w)
    ensures InHand(front + [w]) == InHand(front) + InHandOne(w)
  {
    assert (front + [w])[..|front|] == front;
  }

  lemma SwapHands(a: multiset<Task>, x: multiset<Task>, y: multiset<Task>)
    ensures (a + y) + x == (a + x) + y
  {
  }

  lemma {:induction false} Reassign(ws: seq<Worker>, i: nat, w: Worker)
    requires i < |ws|
    ensures Busy(ws[i := w]) == Busy(ws) - BusyOne(ws[i]) + BusyOne(w)
    ensures InHand(ws[i := w]) + InHandOne(ws[i]) == InHand(ws) + InHandOne(w)
    decreases |ws|
  {
    hide Busy, InHand;
    var n := |ws| - 1;
    var front := ws[..n];
    assert ws == front + [ws[n]];
    LastWorker(front, ws[n]);
    if i == n {
      assert ws[i := w] == front + [w];
      LastWorker(front, w);
      SwapHands(InHand(front), InHandOne(ws[n]), InHandOne(w));
    } else {
      Reassign(front, i, w);
      assert ws[i := w] == front[i := w] + [ws[n]];
      LastWorker(front[i := w], ws[n]);
      AddToBoth(InHand(front[i := w]), InHandOne(ws[i]), InHand(front), InHandOne(w), InHandOne(ws[n]));
    }
  }

  lemma EmptyHands(a: multiset<Task>)
    ensures a + multiset{} == a
  {
  }

  /** A worker's three moves: take a task, return from the handler, go idle. */
  lemma HandsAfter(ws: seq<Worker>, i: nat, w: Worker)
    requires i < |ws|
    ensures ws[i].Idle? && w.Running? ==>
              InHand(ws[i := w]) == InHand(ws) + multiset{w.task} && Busy(ws[i := w]) == Busy(ws) + 1
    ensures ws[i].Running? && w.Returned? ==>
              InHand(ws) == InHand(ws[i := w]) + multiset{ws[i].task} && Busy(ws[i := w]) == Busy(ws)
    ensures ws[i].Returned? && w.Idle? ==>
              InHand(ws[i := w]) == InHand(ws) && Busy(ws) == Busy(ws[i := w]) + 1
  {
    Reassign(ws, i, w);
    EmptyHands(InHand(ws[i := w]));
    EmptyHands(InHand(ws));
  }

  lemma {:induction false} NobodyBusy(ws: seq<Worker>)
    ensures Busy(ws) <= |ws|
    ensures Busy(ws) == 0 <==> forall i :: 0 <= i < |ws| ==> ws[i].Idle?
    ensures Busy(ws) == 0 ==> InHand(ws) == multiset{}
  {
    if ws != [] {
      NobodyBusy(ws[..|ws| - 1]);
      assert forall i :: 0 <= i < |ws| - 1 ==> ws[..|ws| - 1][i] == ws[i];
    }
  }

  // ---------- conservation ----------

  /**
   * The WaitGroup counts exactly the submitters between Add and send, the queued
   * tasks and the tasks with a worker; no task is lost or duplicated; workers take
   * tasks in queueing order; the buffer keeps its bound.
   */
  ghost predicate Conserved(p: Pool) {
    && p.wg == |p.adding| + |p.queue| + Busy(p.workers)
    && p.submitted == p.adding + multiset(p.queue) + InHand(p.workers) + p.handled
    && p.queued == p.taken + p.queue
    && p.submitted == p.adding + multiset(p.queued)
    && |p.queue| <= Capacity(p)
  }

  lemma AddConserves(p: Pool, t: Task)
    requires Conserved(p) && Enabled(p, Add(t))
    ensures Conserved(Do(p, Add(t)))
  {
    hide InHand, Busy;
    SwapHands(p.adding, multiset(p.queued), multiset{t});
    SwapHands(p.adding, multiset(p.queue) + InHand(p.workers) + p.handled, multiset{t});
    Regroup(p.adding, multiset(p.queue), InHand(p.workers), p.handled);
    Regroup(p.adding + multiset{t}, multiset(p.queue), InHand(p.workers), p.handled);
  }

  lemma Regroup(a: multiset<Task>, q: multiset<Task>, w: multiset<Task>, d: multiset<Task>)
    ensures a + q + w + d == a + (q + w + d)
  {
  }

  lemma PhaseConserves(p: Pool, phase: Phase, panicked: bool)
    requires Conserved(p)
    ensures Conserved(p.(phase := phase, panicked := panicked))
  {
  }

  lemma SendConserves(p: Pool, t: Task)
    requires Conserved(p) && Enabled(p, Send(t)) && !p.phase.Closed?
    ensures Conserved(Do(p, Send(t)))
  {
    hide InHand, Busy;
    var p' := Do(p, Send(t));
    assert multiset(p.queue + [t]) == multiset(p.queue) + multiset{t};
    assert multiset(p.queued + [t]) == multiset(p.queued) + multiset{t};
    assert p.adding == p'.adding + multiset{t};
    Hand(p'.adding, multiset(p.queue), multiset{t}, InHand(p.workers), p.handled);
    SwapHands(p'.adding, multiset{t}, multiset(p.queued));
    assert p.taken + (p.queue + [t]) == (p.taken + p.queue) + [t];
  }

  lemma Hand(a: multiset<Task>, q: multiset<Task>, x: multiset<Task>, w: multiset<Task>, d: multiset<Task>)
    ensures (a + x) + q + w + d == a + (q + x) + w + d
  {
  }

  /** A task that moves from one place to another changes no total. */
  lemma Move(a: multiset<Task>, from: multiset<Task>, to: multiset<Task>, d: multiset<Task>, x: multiset<Task>)
    ensures a + (from + x) + to + d == a + from + (to + x) + d
  {
  }

  lemma TakeConserves(p: Pool, i: nat)
    requires Conserved(p) && Enabled(p, Take(i))
    ensures Conserved(Do(p, Take(i)))
  {
    hide InHand, Busy;
    var t, rest := p.queue[0], p.queue[1..];
    HandsAfter(p.workers, i, Running(t));
    assert p.queue == [t] + rest;
    assert multiset(p.queue) == multiset(rest) + multiset{t};
    Move(p.adding, multiset(rest), InHand(p.workers), p.handled, multiset{t});
    assert (p.taken + [t]) + rest == p.taken + p.queue;
  }

  lemma HandleConserves(p: Pool, i: nat)
    requires Conserved(p) && Enabled(p, Handle(i))
    ensures Conserved(Do(p, Handle(i)))
  {
    hide InHand, Busy;
    var x, ws := multiset{p.workers[i].task}, p.workers[i := Returned(p.workers[i].task)];
    HandsAfter(p.workers, i, Returned(p.workers[i].task));
    var a := p.adding + multiset(p.queue);
    Move(a, InHand(ws), p.handled, multiset{}, x);
    EmptyHands(a + (InHand(ws) + x) + p.handled);
    EmptyHands(a + InHand(ws) + (p.handled + x));
  }

  lemma DoneConserves(p: Pool, i: nat)
    requires Conserved(p) && Enabled(p, Done(i))
    ensures Conserved(Do(p, Done(i))) && !Do(p, Done(i)).panicked
  {
    hide InHand, Busy;
    HandsAfter(p.workers, i, Idle);
  }

  lemma StepConserves(p: Pool, a: Action)
    requires Conserved(p) && Enabled(p, a)
    ensures Conserved(Do(p, a))
    ensures Do(p, a).panicked <==> a.Send? && p.phase.Closed?
    ensures |Do(p, a).workers| == |p.workers|
  {
    hide Conserved, InHand, Busy;
    match a
    case Add(t) => AddConserves(p, t);
    case Send(t) => if p.phase.Closed? { PhaseConserves(p, Closed, true); } else { SendConserves(p, t); }
    case Take(i) => TakeConserves(p, i);
    case Handle(i) => HandleConserves(p, i);
    case Done(i) => DoneConserves(p, i);
    case WaitReturns => PhaseConserves(p, Waited, p.panicked);
    case Close => PhaseConserves(p, Closed, p.panicked);
  }

  lemma {:induction false} PlayConserves(p: Pool, actions: seq<Action>)
    requires Conserved(p) && Schedule(p, actions)
    ensures Conserved(Play(p, actions)) && |Play(p, actions).workers| == |p.workers|
    decreases |actions|
  {
    if actions != [] {
      StepConserves(p, actions[0]);
      PlayConserves(Do(p, actions[0]), actions[1..]);
    }
  }

  lemma {:induction false} AllIdle(n: nat)
    ensures Busy(seq(n, _ => Idle)) == 0 && InHand(seq(n, _ => Idle)) == multiset{}
  {
    NobodyBusy(seq(n, _ => Idle));
  }

  lemma NewConserved(workerCount: nat)
    ensures Conserved(New(workerCount))
  {
    AllIdle(workerCount);
  }

  lemma {:induction false} FewInHand(ws: seq<Worker>)
    ensures |InHand(ws)| <= Busy(ws)
  {
    if ws != [] {
      FewInHand(ws[..|ws| - 1]);
    }
  }

  lemma TakenAreInHandOrHandled(p: Pool)
    requires Conserved(p)
    ensures multiset(p.taken) == InHand(p.workers) + p.handled
  {
    assert multiset(p.queued) == multiset(p.taken) + multiset(p.queue);
    var a := p.adding + multiset(p.queue);
    assert a + (InHand(p.workers) + p.handled) == p.submitted;
    assert a + multiset(p.taken) == p.adding + multiset(p.queued);
    Cancel(a, multiset(p.taken), InHand(p.workers) + p.handled);
  }

  lemma Cancel(a: multiset<Task>, x: multiset<Task>, y: multiset<Task>)
    requires a + x == a + y
    ensures x == y
  {
    assert (a + x) - a == x && (a + y) - a == y;
  }

  /** Conservation in every reachable state, under every interleaving of any number of submitters. */
  lemma PoolConservation(workerCount: nat, actions: seq<Action>)
    requires Schedule(New(workerCount), actions)
    ensures var p := Play(New(workerCount), actions);
            && p.wg == |p.adding| + |p.queue| + Busy(p.workers)
            && p.submitted == p.adding + multiset(p.queue) + InHand(p.workers) + p.handled
            && |p.queue| <= 2 * workerCount && Busy(p.workers) <= workerCount
            && p.taken <= p.queued
            && multiset(p.taken) == InHand(p.workers) + p.handled
            && |p.taken| <= |p.handled| + workerCount
  {
    NewConserved(workerCount);
    PlayConserves(New(workerCount), actions);
    var p := Play(New(workerCount), actions);
    NobodyBusy(p.workers);
    FewInHand(p.workers);
    TakenAreInHandOrHandled(p);
  }

  /** When Wait returns, every submitted task has been handled exactly once and nothing is under way. */
  lemma WaitMeansAllHandled(workerCount: nat, actions: seq<Action>)
    requires Schedule(New(workerCount), actions)
    requires Enabled(Play(New(workerCount), actions), WaitReturns)
    ensures var p := Play(New(workerCount), actions);
            && p.handled == p.submitted
            && p.adding == multiset{} && p.queue == [] && p.taken == p.queued
            && forall i :: 0 <= i < |p.workers| ==> p.workers[i].Idle?
  {
    PoolConservation(workerCount, actions);
    NewConserved(workerCount);
    PlayConserves(New(workerCount), actions);
    var p := Play(New(workerCount), actions);
    NobodyBusy(p.workers);
    assert p.taken + p.queue == p.taken;
  }

  /** Before the close, a counted submitter is held up exactly while twice as many tasks as workers are queued. */
  lemma SubmitBlocksExactly(workerCount: nat, actions: seq<Action>, t: Task)
    requires Schedule(New(workerCount), actions)
    requires var p := Play(New(workerCount), actions); !p.panicked && !p.phase.Closed? && t in p.adding
    ensures var p := Play(New(workerCount), actions); !Enabled(p, Send(t)) <==> |p.queue| == 2 * workerCount
  {
    NewConserved(workerCount);
    PlayConserves(New(workerCount), actions);
  }

  // ---------- close meets no sender, exactly when no Submit comes late ----------

  /** Every Submit's Add precedes the return of Wait. */
  ghost predicate NoLateSubmit(p: Pool, actions: seq<Action>)
    requires Schedule(p, actions)
    decreases |actions|
  {
    actions == [] || ((actions[0].Add? ==> p.phase.Open?) && NoLateSubmit(Do(p, actions[0]), actions[1..]))
  }

  ghost predicate NoSenderLeft(p: Pool) {
    !p.panicked && Conserved(p) && (!p.phase.Open? ==> p.wg == 0)
  }

  lemma {:induction false} PlayWithoutPanic(p: Pool, actions: seq<Action>)
    requires NoSenderLeft(p) && Schedule(p, actions) && NoLateSubmit(p, actions)
    ensures NoSenderLeft(Play(p, actions))
    decreases |actions|
  {
    if actions != [] {
      StepConserves(p, actions[0]);
      if !p.phase.Open? {
        assert p.adding == multiset{} && p.queue == [];
        NobodyBusy(p.workers);
      }
      PlayWithoutPanic(Do(p, actions[0]), actions[1..]);
    }
  }

  /** If every Submit's Add precedes the return of Wait, no send ever meets the closed channel. */
  lemma CloseMeetsNoSender(workerCount: nat, actions: seq<Action>)
    requires Schedule(New(workerCount), actions) && NoLateSubmit(New(workerCount), actions)
    ensures !Play(New(workerCount), actions).panicked
  {
    NewConserved(workerCount);
    PlayWithoutPanic(New(workerCount), actions);
  }

  /** The schedule in which a late Submit meets the close. */
  function LateSubmit(p: Pool, t: Task): seq<Action> {
    if p.phase.Waited? then [Add(t), Close, Send(t)] else [Add(t), Send(t)]
  }

  /** Conversely, from any state past Wait one more Submit can meet the close and panic. */
  lemma LateSubmitCanPanic(p: Pool, t: Task)
    requires !p.panicked && !p.phase.Open?
    ensures Schedule(p, LateSubmit(p, t)) && Play(p, LateSubmit(p, t)).panicked
  {
    var actions := LateSubmit(p, t);
    var p1 := Do(p, Add(t));
    var p2 := if p.phase.Waited? then Do(p1, Close) else p1;
    var p3 := Do(p2, Send(t));
    assert [Send(t)][1..] == [] && Schedule(p3, []) && Play(p3, []) == p3;
    assert Schedule(p2, [Send(t)]) && Play(p2, [Send(t)]) == p3;
    if p.phase.Waited? {
      assert actions[1..] == [Close, Send(t)] && actions[1..][1..] == [Send(t)];
      assert Schedule(p1, [Close, Send(t)]) && Play(p1, [Close, Send(t)]) == p3;
    } else {
      assert actions[1..] == [Send(t)];
    }
  }

  // ---------- progress ----------

  /** Steps of tasks already submitted. */
  predicate Internal(a: Action) {
    a.Send? || a.Take? || a.Handle? || a.Done?
  }

  function WorkLeft(ws: seq<Worker>): nat {
    if ws == [] then 0
    else WorkLeft(ws[..|ws| - 1]) + WorkLeftOne(ws[|ws| - 1])
  }

  function WorkLeftOne(w: Worker): nat {
    match w case Idle => 0 case Running(_) => 2 case Returned(_) => 1
  }

  /** Steps that the tasks under way still have to make. */
  function Remaining(p: Pool): nat {
    4 * |p.adding| + 3 * |p.queue| + WorkLeft(p.workers)
  }

  lemma {:induction false} ReassignWork(ws: seq<Worker>, i: nat, w: Worker)
    requires i < |ws|
    ensures WorkLeft(ws[i := w]) == WorkLeft(ws) - WorkLeftOne(ws[i]) + WorkLeftOne(w)
    decreases |ws|
  {
    var n := |ws| - 1;
    if i == n {
      assert ws[i := w][..n] == ws[..n];
    } else {
      ReassignWork(ws[..n], i, w);
      assert ws[i := w][..n] == ws[..n][i := w];
    }
  }

  lemma InternalStepCounts(p: Pool, a: Action)
    requires Enabled(p, a) && Internal(a) && !p.phase.Closed?
    ensures Remaining(Do(p, a)) == Remaining(p) - 1
    ensures Do(p, a).phase == p.phase
  {
    match a
    case Send(t) => assert |p.adding| == |p.adding - multiset{t}| + 1;
    case Take(i) => ReassignWork(p.workers, i, Running(p.queue[0]));
    case Handle(i) => ReassignWork(p.workers, i, Returned(p.workers[i].task));
    case Done(i) => ReassignWork(p.workers, i, Idle);
  }

  /** With a worker, some step is always possible while the counter is positive. */
  ghost function NextStep(p: Pool): (a: Action)
    requires Conserved(p) && !p.panicked && !p.phase.Closed?
    requires 0 < p.wg && 1 <= |p.workers|
    ensures Enabled(p, a) && Internal(a)
  {
    NobodyBusy(p.workers);
    if exists i :: 0 <= i < |p.workers| && !p.workers[i].Idle? then
      var i := FirstBusy(p.workers);
      if p.workers[i].Running? then Handle(i) else Done(i)
    else if p.queue != [] then Take(0)
    else
      Send(SomeTask(p.adding))
  }

  function FirstBusy(ws: seq<Worker>): (i: nat)
    requires exists i :: 0 <= i < |ws| && !ws[i].Idle?
    ensures i < |ws| && !ws[i].Idle? && forall j :: 0 <= j < i ==> ws[j].Idle?
  {
    if !ws[0].Idle? then 0 else 1 + FirstBusy(ws[1..])
  }

  ghost function SomeTask(m: multiset<Task>): (t: Task)
    requires m != multiset{}
    ensures t in m
  {
    var t :| t in m; t
  }

  ghost predicate AllInternal(actions: seq<Action>) {
    forall k :: 0 <= k < |actions| ==> Internal(actions[k])
  }

  lemma {:induction false} InternalRunIsShort(p: Pool, actions: seq<Action>)
    requires Schedule(p, actions) && AllInternal(actions) && !p.phase.Closed? && Conserved(p)
    ensures |actions| <= Remaining(p)
    ensures Remaining(Play(p, actions)) == Remaining(p) - |actions|
    ensures Play(p, actions).phase == p.phase
    decreases |actions|
  {
    if actions != [] {
      InternalStepCounts(p, actions[0]);
      StepConserves(p, actions[0]);
      assert AllInternal(actions[1..]);
      InternalRunIsShort(Do(p, actions[0]), actions[1..]);
    }
  }

  /**
   * Progress: with at least one worker and no new Submit, every schedule of the
   * pool's own steps is finite, and one that can go no further has emptied the
   * counter, so Wait returns.
   */
  lemma ShutdownReturns(workerCount: nat, before: seq<Action>, actions: seq<Action>)
    requires 1 <= workerCount
    requires Schedule(New(workerCount), before) && Play(New(workerCount), before).phase.Open?
    requires Schedule(Play(New(workerCount), before), actions) && AllInternal(actions)
    ensures var p := Play(New(workerCount), before);
            var q := Play(p, actions);
            && |actions| <= Remaining(p)
            && ((forall a :: Internal(a) ==> !Enabled(q, a)) ==> Enabled(q, WaitReturns))
  {
    NewConserved(workerCount);
    PlayConserves(New(workerCount), before);
    var p := Play(New(workerCount), before);
    InternalRunIsShort(p, actions);
    PlayConserves(p, actions);
    var q := Play(p, actions);
    OpenMeansNoPanic(New(workerCount), before);
    OpenMeansNoPanic(p, actions);
    if 0 < q.wg {
      var a := NextStep(q);
    }
  }

  lemma {:induction false} OpenMeansNoPanic(p: Pool, actions: seq<Action>)
    requires !p.panicked && Conserved(p) && Schedule(p, actions) && Play(p, actions).phase.Open?
    ensures !Play(p, actions).panicked
    decreases |actions|
  {
    if actions != [] {
      StepConserves(p, actions[0]);
      if p.phase.Closed? {
        StaysClosed(p, actions);
      } else {
        OpenMeansNoPanic(Do(p, actions[0]), actions[1..]);
      }
    }
  }

  lemma {:induction false} StaysClosed(p: Pool, actions: seq<Action>)
    requires p.phase.Closed? && Schedule(p, actions)
    ensures Play(p, actions).phase.Closed?
    decreases |actions|
  {
    if actions != [] {
      StaysClosed(Do(p, actions[0]), actions[1..]);
    }
  }

  /** With no worker the counter can never come down: one Submit blocks Shutdown for ever. */
  lemma {:induction false} NoWorkersNoProgress(p: Pool, actions: seq<Action>)
    requires p.workers == [] && p.phase.Open? && Conserved(p) && 0 < p.wg && Schedule(p, actions)
    ensures Play(p, actions).wg >= p.wg && !Enabled(Play(p, actions), WaitReturns)
    decreases |actions|
  {
    if actions != [] {
      StepConserves(p, actions[0]);
      NoWorkersNoProgress(Do(p, actions[0]), actions[1..]);
    }
  }
}
