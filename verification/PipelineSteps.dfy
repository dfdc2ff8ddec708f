/**
 * The audit pipeline of the gateway as one system of interleaved steps
 * (pkg/kafka/consumer.go, internal/gateway/service/server.go): the Kafka consumer loop
 * submits to the worker pool and commits, and each worker broadcasts its message
 * through the SSE hub.
 *
 * Here: the system, what each of its steps keeps, and so every run. Pipeline draws the
 * conclusions about delivery and shutdown.
 */
module PipelineSteps {
  import W = WorkerPool
  import H = HubProtocol

  /** Where the consumer loop stands. */
  datatype Stage = Fetching | Adding(m: W.Task) | Sending(m: W.Task) | Committing(m: W.Task) | Stopped

  datatype Sys = Sys(stage: Stage, fetched: seq<W.Task>, commits: seq<W.Task>, pool: W.Pool, hub: H.State)

  function New(workerCount: nat): Sys {
    Sys(Fetching, [], [], W.New(workerCount), H.INIT)
  }

  datatype Action =
    | Fetch(text: string)          // FetchMessage returns a message
    | FetchFails                   // FetchMessage returns an error: the loop ends
    | SubmitAdd                    // pool.Submit: wg.Add(1)
    | SubmitSend                   // pool.Submit: the channel send
    | Commit                       // CommitMessages, its error ignored
    | Take(i: nat)                 // worker i receives a task
    | Broadcast(i: nat)            // worker i's handler enters hub.Publish
    | HandlerReturns(i: nat)       // hub.Publish unlocks and the handler returns
    | Done(i: nat)
    | WaitReturns                  // Close: pool.Shutdown
    | Close
    | HubStep(a: H.Action)         // subscribers, receivers, and the sends of a publish

  /** The event a worker broadcasts: the message itself. */
  function EventOf(t: W.Task): H.Event {
    H.Event(t.id, t.text)
  }

  predicate Enabled(s: Sys, a: Action) {
    match a
    case Fetch(_) => s.stage.Fetching?
    case FetchFails => s.stage.Fetching?
    case SubmitAdd => s.stage.Adding? && W.Enabled(s.pool, W.Add(s.stage.m))
    case SubmitSend => s.stage.Sending? && W.Enabled(s.pool, W.Send(s.stage.m))
    case Commit => s.stage.Committing?
    case Take(i) => W.Enabled(s.pool, W.Take(i))
    case Broadcast(i) =>
      && W.Enabled(s.pool, W.Handle(i))
      && H.Enabled(s.hub, H.RLock(i, EventOf(s.pool.workers[i].task)))
    case HandlerReturns(i) => W.Enabled(s.pool, W.Handle(i)) && H.Enabled(s.hub, H.RUnlock(i))
    case Done(i) => W.Enabled(s.pool, W.Done(i))
    case WaitReturns => W.Enabled(s.pool, W.WaitReturns)
    case Close => W.Enabled(s.pool, W.Close)
    case HubStep(h) => !h.RLock? && !h.RUnlock? && H.Enabled(s.hub, h)
  }

  function Do(s: Sys, a: Action): Sys
    requires Enabled(s, a)
  {
    match a
    case Fetch(text) =>
      var m := W.Task(|s.fetched|, text);
      s.(stage := Adding(m), fetched := s.fetched + [m])
    case FetchFails => s.(stage := Stopped)
    case SubmitAdd => s.(stage := Sending(s.stage.m), pool := W.Do(s.pool, W.Add(s.stage.m)))
    case SubmitSend =>
      var pool := W.Do(s.pool, W.Send(s.stage.m));
      s.(stage := if pool.panicked then Stopped else Committing(s.stage.m), pool := pool)
    case Commit => s.(stage := Fetching, commits := s.commits + [s.stage.m])
    case Take(i) => s.(pool := W.Do(s.pool, W.Take(i)))
    case Broadcast(i) => s.(hub := H.Do(s.hub, H.RLock(i, EventOf(s.pool.workers[i].task))))
    case HandlerReturns(i) => s.(pool := W.Do(s.pool, W.Handle(i)), hub := H.Do(s.hub, H.RUnlock(i)))
    case Done(i) => s.(pool := W.Do(s.pool, W.Done(i)))
    case WaitReturns => s.(pool := W.Do(s.pool, W.WaitReturns))
    case Close => s.(pool := W.Do(s.pool, W.Close))
    case HubStep(h) => s.(hub := H.Do(s.hub, h))
  }

  ghost predicate Schedule(s: Sys, actions: seq<Action>)
    decreases |actions|
  {
    actions == [] || (Enabled(s, actions[0]) && Schedule(Do(s, actions[0]), actions[1..]))
  }

  function Play(s: Sys, actions: seq<Action>): Sys
    requires Schedule(s, actions)
    decreases |actions|
  {
    if actions == [] then s else Play(Do(s, actions[0]), actions[1..])
  }

  // ---------- the consumer: commit order and counts ----------

  /** Messages carry their fetch position. */
  ghost predicate Numbered(fetched: seq<W.Task>) {
    forall k :: 0 <= k < |fetched| ==> fetched[k].id == k
  }

  ghost predicate ConsumerOk(s: Sys) {
    && Numbered(s.fetched)
    && s.pool.queued <= s.fetched && s.commits <= s.fetched
    && match s.stage {
         case Fetching => |s.commits| == |s.pool.queued| == |s.fetched|
         case Adding(m) => |s.commits| == |s.pool.queued| == |s.fetched| - 1 && m == s.fetched[|s.fetched| - 1]
         case Sending(m) => |s.commits| == |s.pool.queued| == |s.fetched| - 1 && m == s.fetched[|s.fetched| - 1]
         case Committing(m) => |s.commits| == |s.pool.queued| - 1 == |s.fetched| - 1 && m == s.fetched[|s.fetched| - 1]
         case Stopped => |s.commits| == |s.pool.queued| <= |s.fetched|
       }
  }

  /** The pool's own history: taken, queued and the queue, in order. */
  ghost predicate QueueOk(p: W.Pool) {
    p.queued == p.taken + p.queue
  }

  lemma ConsumerStep(s: Sys, a: Action)
    requires ConsumerOk(s) && QueueOk(s.pool) && Enabled(s, a)
    ensures ConsumerOk(Do(s, a)) && QueueOk(Do(s, a).pool)
    ensures |Do(s, a).pool.workers| == |s.pool.workers|
  {
    match a
    case SubmitSend =>
      assert s.pool.queued + [s.stage.m] == s.fetched;
      assert s.pool.taken + (s.pool.queue + [s.stage.m]) == (s.pool.taken + s.pool.queue) + [s.stage.m];
    case Commit => assert s.commits + [s.stage.m] == s.fetched;
    case Take(i) => assert (s.pool.taken + [s.pool.queue[0]]) + s.pool.queue[1..] == s.pool.taken + s.pool.queue;
    case Fetch(_) =>
    case FetchFails =>
    case SubmitAdd =>
    case Broadcast(_) =>
    case HandlerReturns(_) =>
    case Done(_) =>
    case WaitReturns =>
    case Close =>
    case HubStep(_) =>
  }

  /** Every step of the system is a legal step of the pool, or leaves the pool alone. */
  lemma PoolStep(s: Sys, a: Action)
    requires W.Conserved(s.pool) && Enabled(s, a)
    ensures W.Conserved(Do(s, a).pool)
  {
    match a
    case SubmitAdd => W.StepConserves(s.pool, W.Add(s.stage.m));
    case SubmitSend => W.StepConserves(s.pool, W.Send(s.stage.m));
    case Take(i) => W.StepConserves(s.pool, W.Take(i));
    case HandlerReturns(i) => W.StepConserves(s.pool, W.Handle(i));
    case Done(i) => W.StepConserves(s.pool, W.Done(i));
    case WaitReturns => W.StepConserves(s.pool, W.WaitReturns);
    case Close => W.StepConserves(s.pool, W.Close);
    case Fetch(_) =>
    case FetchFails =>
    case Commit =>
    case Broadcast(_) =>
    case HubStep(_) =>
  }

  /** The step the hub makes, if it moves at all. */
  lemma HubMoves(s: Sys, a: Action) returns (h: H.Action)
    requires Enabled(s, a)
    ensures Do(s, a).hub != s.hub ==> H.Enabled(s.hub, h) && Do(s, a).hub == H.Do(s.hub, h)
  {
    match a
    case Broadcast(i) => h := H.RLock(i, EventOf(s.pool.workers[i].task));
    case HandlerReturns(i) => h := H.RUnlock(i);
    case HubStep(step) => h := step;
    case _ => h := H.Unlock;
  }

  // ---------- each message is broadcast once ----------

  /** A task with a worker was taken, and no other worker has it. */
  ghost predicate WorkerOk(s: Sys, i: nat) {
    i < |s.pool.workers| && !s.pool.workers[i].Idle? ==>
      && s.pool.workers[i].task.id < |s.pool.taken|
      && s.pool.workers[i].task == s.pool.taken[s.pool.workers[i].task.id]
  }

  ghost predicate WorkersDiffer(s: Sys, i: nat, j: nat) {
    i < |s.pool.workers| && j < |s.pool.workers| && i != j
    && !s.pool.workers[i].Idle? && !s.pool.workers[j].Idle? ==>
      s.pool.workers[i].task.id != s.pool.workers[j].task.id
  }

  /** A publish under way belongs to the worker that runs it, and carries its message. */
  ghost predicate PublisherOk(s: Sys, p: nat) {
    p in s.hub.readers ==>
      p < |s.pool.workers| && s.pool.workers[p].Running? && s.hub.readers[p].event == EventOf(s.pool.workers[p].task)
  }

  /** The message is with a worker that has not begun to broadcast it. */
  ghost predicate Unstarted(s: Sys, i: nat, id: nat) {
    i < |s.pool.workers| && s.pool.workers[i].Running? && s.pool.workers[i].task.id == id && i !in s.hub.readers
  }

  /** An attempt at a channel is of a message that was taken, whose broadcast has begun and has passed the channel. */
  ghost predicate AttemptOk(s: Sys, ch: nat, k: nat) {
    ch in s.hub.chans && k < |s.hub.chans[ch].log| ==>
      var e := s.hub.chans[ch].log[k].event;
      && e.id < |s.pool.taken| && e == EventOf(s.pool.taken[e.id])
      && (forall i :: !Unstarted(s, i, e.id))
      && (forall p :: p in s.hub.readers && ch in s.hub.readers[p].todo ==> s.hub.readers[p].event.id != e.id)
  }

  ghost predicate AttemptsDiffer(c: H.Chan) {
    forall k, m :: 0 <= k < m < |c.log| ==> c.log[k].event.id != c.log[m].event.id
  }

  ghost predicate OnceOk(s: Sys) {
    && Numbered(s.pool.queued)
    && (forall i :: WorkerOk(s, i))
    && (forall i, j :: WorkersDiffer(s, i, j))
    && (forall p :: PublisherOk(s, p))
    && (forall ch, k :: AttemptOk(s, ch, k))
    && (forall ch :: ch in s.hub.chans ==> AttemptsDiffer(s.hub.chans[ch]))
  }

  lemma TakeOnce(s: Sys, i: nat)
    requires ConsumerOk(s) && QueueOk(s.pool) && OnceOk(s) && Enabled(s, Take(i))
    ensures OnceOk(Do(s, Take(i)))
  {
    var s' := Do(s, Take(i));
    var t, n := s.pool.queue[0], |s.pool.taken|;
    assert s.pool.queued[n] == t && t.id == n;
    forall j ensures WorkerOk(s', j) {
      assert WorkerOk(s, j);
    }
    forall j: nat, k: nat ensures WorkersDiffer(s', j, k) {
      assert WorkersDiffer(s, j, k) && WorkerOk(s, j) && WorkerOk(s, k);
    }
    forall p ensures PublisherOk(s', p) {
      assert PublisherOk(s, p);
    }
    forall ch: nat, k: nat ensures AttemptOk(s', ch, k) {
      assert AttemptOk(s, ch, k);
      if ch in s'.hub.chans && k < |s'.hub.chans[ch].log| {
        var id := s'.hub.chans[ch].log[k].event.id;
        forall j ensures !Unstarted(s', j, id) {
          assert !Unstarted(s, j, id);
        }
      }
    }
  }

  lemma BroadcastOnce(s: Sys, i: nat)
    requires H.Safe(s.hub) && OnceOk(s) && Enabled(s, Broadcast(i))
    ensures OnceOk(Do(s, Broadcast(i)))
  {
    var s' := Do(s, Broadcast(i));
    var t := s.pool.workers[i].task;
    forall j ensures WorkerOk(s', j) && PublisherOk(s', j) {
      assert WorkerOk(s, j) && PublisherOk(s, j);
    }
    forall j: nat, k: nat ensures WorkersDiffer(s', j, k) {
      assert WorkersDiffer(s, j, k);
    }
    forall ch: nat, k: nat ensures AttemptOk(s', ch, k) {
      assert AttemptOk(s, ch, k);
      if ch in s'.hub.chans && k < |s'.hub.chans[ch].log| {
        var id := s'.hub.chans[ch].log[k].event.id;
        assert Unstarted(s, i, t.id);
        forall j ensures !Unstarted(s', j, id) {
          assert !Unstarted(s, j, id);
        }
      }
    }
  }

  lemma HandlerReturnsOnce(s: Sys, i: nat)
    requires OnceOk(s) && Enabled(s, HandlerReturns(i))
    ensures OnceOk(Do(s, HandlerReturns(i)))
  {
    var s' := Do(s, HandlerReturns(i));
    forall j ensures WorkerOk(s', j) && PublisherOk(s', j) {
      assert WorkerOk(s, j) && PublisherOk(s, j);
    }
    forall j: nat, k: nat ensures WorkersDiffer(s', j, k) {
      assert WorkersDiffer(s, j, k);
    }
    forall ch: nat, k: nat ensures AttemptOk(s', ch, k) {
      assert AttemptOk(s, ch, k);
      if ch in s'.hub.chans && k < |s'.hub.chans[ch].log| {
        forall j ensures !Unstarted(s', j, s'.hub.chans[ch].log[k].event.id) {
          assert !Unstarted(s, j, s'.hub.chans[ch].log[k].event.id);
        }
      }
    }
  }

  /** Steps that leave the hub's logs, its publishes, and the running workers alone. */
  lemma QuietOnce(s: Sys, s': Sys)
    requires OnceOk(s) && Numbered(s'.pool.queued)
    requires s'.pool.taken == s.pool.taken && |s'.pool.workers| == |s.pool.workers|
    requires forall i :: 0 <= i < |s.pool.workers| ==>
               s'.pool.workers[i] == s.pool.workers[i] || (s.pool.workers[i].Returned? && s'.pool.workers[i].Idle?)
    requires s'.hub.readers == s.hub.readers
    requires forall ch :: ch in s'.hub.chans ==>
               if ch in s.hub.chans then s'.hub.chans[ch].log == s.hub.chans[ch].log else s'.hub.chans[ch].log == []
    ensures OnceOk(s')
  {
    forall j ensures WorkerOk(s', j) && PublisherOk(s', j) {
      assert WorkerOk(s, j) && PublisherOk(s, j);
    }
    forall j: nat, k: nat ensures WorkersDiffer(s', j, k) {
      assert WorkersDiffer(s, j, k);
    }
    forall ch: nat, k: nat ensures AttemptOk(s', ch, k) {
      assert AttemptOk(s, ch, k);
      if ch in s'.hub.chans && k < |s'.hub.chans[ch].log| {
        forall j ensures !Unstarted(s', j, s'.hub.chans[ch].log[k].event.id) {
          assert !Unstarted(s, j, s'.hub.chans[ch].log[k].event.id);
        }
      }
    }
    forall ch | ch in s'.hub.chans ensures AttemptsDiffer(s'.hub.chans[ch]) {
      if ch in s.hub.chans {
        assert AttemptsDiffer(s.hub.chans[ch]);
      }
    }
  }

  /** A send of a publish under way: the client had not got the message before. */
  lemma SendOnce(s: Sys, p: nat, to: nat)
    requires H.Safe(s.hub) && OnceOk(s) && Enabled(s, HubStep(H.Send(p, to)))
    ensures OnceOk(Do(s, HubStep(H.Send(p, to))))
  {
    var s' := Do(s, HubStep(H.Send(p, to)));
    assert H.ReaderOk(s.hub, p) && H.ClientOk(s.hub, to);
    assert PublisherOk(s, p) && WorkerOk(s, p);
    var e := s.hub.readers[p].event;
    forall j ensures WorkerOk(s', j) && PublisherOk(s', j) {
      assert WorkerOk(s, j) && PublisherOk(s, j);
    }
    forall j: nat, k: nat ensures WorkersDiffer(s', j, k) {
      assert WorkersDiffer(s, j, k);
    }
    forall ch: nat, k: nat ensures AttemptOk(s', ch, k) {
      assert AttemptOk(s, ch, k);
      if ch in s'.hub.chans && k < |s'.hub.chans[ch].log| {
        var id := s'.hub.chans[ch].log[k].event.id;
        forall j ensures !Unstarted(s', j, id) {
          assert WorkersDiffer(s, j, p);
          assert k < |s.hub.chans[ch].log| ==> !Unstarted(s, j, id);
        }
        forall q | q in s'.hub.readers && ch in s'.hub.readers[q].todo ensures s'.hub.readers[q].event.id != id {
          assert PublisherOk(s, q) && WorkersDiffer(s, q, p);
        }
      }
    }
    forall ch | ch in s'.hub.chans ensures AttemptsDiffer(s'.hub.chans[ch]) {
      assert AttemptsDiffer(s.hub.chans[ch]);
      if ch == to {
        forall k | 0 <= k < |s.hub.chans[ch].log| ensures s.hub.chans[ch].log[k].event.id != e.id {
          assert AttemptOk(s, ch, k);
        }
      }
    }
  }

  lemma QuietHubOnce(s: Sys, h: H.Action)
    requires H.Safe(s.hub) && OnceOk(s) && Enabled(s, HubStep(h)) && !h.Send?
    ensures OnceOk(Do(s, HubStep(h)))
  {
    if h.Remove? {
      assert H.ClientOk(s.hub, s.hub.writer.value.ch);
    }
    QuietOnce(s, Do(s, HubStep(h)));
  }

  lemma OnceStep(s: Sys, a: Action)
    requires ConsumerOk(s) && QueueOk(s.pool) && H.Safe(s.hub) && OnceOk(s) && Enabled(s, a)
    ensures OnceOk(Do(s, a))
  {
    ConsumerStep(s, a);
    match a
    case Take(i) => TakeOnce(s, i);
    case Broadcast(i) => BroadcastOnce(s, i);
    case HandlerReturns(i) => HandlerReturnsOnce(s, i);
    case HubStep(h) =>
      if h.Send? {
        SendOnce(s, h.p, h.ch);
      } else {
        QuietHubOnce(s, h);
      }
    case Fetch(_) => QuietOnce(s, Do(s, a));
    case FetchFails => QuietOnce(s, Do(s, a));
    case SubmitAdd => QuietOnce(s, Do(s, a));
    case SubmitSend => QuietOnce(s, Do(s, a));
    case Commit => QuietOnce(s, Do(s, a));
    case Done(_) => QuietOnce(s, Do(s, a));
    case WaitReturns => QuietOnce(s, Do(s, a));
    case Close => QuietOnce(s, Do(s, a));
  }

  ghost predicate SysOk(s: Sys) {
    ConsumerOk(s) && W.Conserved(s.pool) && H.Safe(s.hub) && OnceOk(s)
  }

  lemma {:induction false} PlayOk(s: Sys, actions: seq<Action>)
    requires SysOk(s) && Schedule(s, actions)
    ensures SysOk(Play(s, actions)) && |Play(s, actions).pool.workers| == |s.pool.workers|
    decreases |actions|
  {
    if actions != [] {
      ConsumerStep(s, actions[0]);
      PoolStep(s, actions[0]);
      var h := HubMoves(s, actions[0]);
      if Do(s, actions[0]).hub != s.hub {
        H.StepSafe(s.hub, h);
      }
      OnceStep(s, actions[0]);
      PlayOk(Do(s, actions[0]), actions[1..]);
    }
  }

  lemma NewOk(workerCount: nat)
    ensures SysOk(New(workerCount))
  {
    W.NewConserved(workerCount);
  }
}
