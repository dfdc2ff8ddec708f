/**
 * The worker pool and the Kafka consumer as objects (pkg/concurrency/concurrency.go,
 * pkg/kafka/consumer.go): every atomic block is one step of the WorkerPool model.
 */
module AuditConsumer {
  import opened WorkerPool

  class WorkerPoolObject {
    var workers: seq<Worker>
    var tasks: seq<Task>
    var wg: int
    var adding: multiset<Task>
    var phase: Phase
    ghost var submitted: multiset<Task>
    ghost var queued: seq<Task>
    ghost var taken: seq<Task>
    ghost var handled: multiset<Task>

    ghost function View(): Pool
      reads this
    {
      Pool(workers, adding, tasks, wg, phase, false, submitted, queued, taken, handled)
    }

    ghost predicate Valid()
      reads this
    {
      Conserved(View())
    }

    /** `NewWorkerPool`: the workers wait on a channel of twice their number. */
    constructor (workerCount: nat)
      ensures Valid() && View() == New(workerCount)
    {
      workers := seq(workerCount, _ => Idle);
      tasks, wg, adding, phase := [], 0, multiset{}, Open;
      submitted, queued, taken, handled := multiset{}, [], [], multiset{};
      new;
      NewConserved(workerCount);
    }

    method AddOne(t: Task)
      requires Valid()
      modifies this
      ensures Valid() && StepsTo(old(View()), Add(t), View())
    {
      hide Conserved, Busy, InHand;
      StepConserves(View(), Add(t));
      wg := wg + 1;
      adding := adding + multiset{t};
      submitted := submitted + multiset{t};
    }

    method Enqueue(t: Task)
      requires Valid() && Enabled(View(), Send(t)) && !phase.Closed?
      modifies this
      ensures Valid() && StepsTo(old(View()), Send(t), View())
    {
      hide Conserved, Busy, InHand;
      StepConserves(View(), Send(t));
      adding := adding - multiset{t};
      tasks := tasks + [t];
      queued := queued + [t];
    }

    method Receive(i: nat)
      requires Valid() && Enabled(View(), Take(i))
      modifies this
      ensures Valid() && StepsTo(old(View()), Take(i), View())
    {
      hide Conserved, Busy, InHand;
      StepConserves(View(), Take(i));
      taken := taken + [tasks[0]];
      workers := workers[i := Running(tasks[0])];
      tasks := tasks[1..];
    }

    method HandlerReturns(i: nat)
      requires Valid() && Enabled(View(), Handle(i))
      modifies this
      ensures Valid() && StepsTo(old(View()), Handle(i), View())
    {
      hide Conserved, Busy, InHand;
      StepConserves(View(), Handle(i));
      handled := handled + multiset{workers[i].task};
      workers := workers[i := Returned(workers[i].task)];
    }

    method FinishOne(i: nat)
      requires Valid() && Enabled(View(), Done(i))
      modifies this
      ensures Valid() && StepsTo(old(View()), Done(i), View())
    {
      hide Conserved, Busy, InHand;
      StepConserves(View(), Done(i));
      workers := workers[i := Idle];
      wg := wg - 1;
    }

    /** Some worker that can go on with its task or take one, whichever the scheduler picks. */
    method Pick() returns (i: nat)
      requires Valid() && 1 <= |workers| && (tasks != [] || Busy(workers) != 0)
      ensures i < |workers| && (!workers[i].Idle? || tasks != [])
    {
      hide Conserved;
      NobodyBusy(workers);
      assert tasks != [] ==> 0 < |workers|;
      i :| i < |workers| && (!workers[i].Idle? || tasks != []);
    }

    /** One step of a worker. */
    method WorkerStep()
      requires Valid() && phase.Open?
      requires tasks != [] || Busy(workers) != 0
      requires 1 <= |workers|
      modifies this
      ensures Valid() && phase.Open? && |workers| == old(|workers|)
      ensures queued == old(queued) && submitted == old(submitted) && adding == old(adding)
      ensures Remaining(View()) == Remaining(old(View())) - 1
    {
      hide Conserved, Busy, InHand, Remaining;
      var i := Pick();
      if workers[i].Idle? {
        InternalStepCounts(View(), Take(i));
        Receive(i);
      } else if workers[i].Running? {
        InternalStepCounts(View(), Handle(i));
        HandlerReturns(i);
      } else {
        InternalStepCounts(View(), Done(i));
        FinishOne(i);
      }
    }

    /** `Submit`: count the task, then wait for room in the channel and send. */
    method Submit(t: Task)
      requires Valid() && phase.Open? && 1 <= |workers|
      modifies this
      ensures Valid() && phase.Open? && |workers| == old(|workers|)
      ensures queued == old(queued) + [t]
      ensures submitted == old(submitted) + multiset{t} && adding == old(adding)
    {
      hide Conserved, Busy, InHand, Remaining;
      AddOne(t);
      while |tasks| >= 2 * |workers|
        invariant Valid() && phase.Open? && |workers| == old(|workers|)
        invariant queued == old(queued) && submitted == old(submitted) + multiset{t}
        invariant adding == old(adding) + multiset{t}
        decreases Remaining(View())
      {
        WorkerStep();
      }
      Enqueue(t);
      assert (old(adding) + multiset{t}) - multiset{t} == old(adding);
    }

    /** `Shutdown`: wait for the counter, then close; every submitted task is handled exactly once. */
    method Shutdown()
      requires Valid() && phase.Open? && (1 <= |workers| || wg == 0)
      requires adding == multiset{}
      modifies this
      ensures Valid() && phase.Closed?
      ensures handled == old(submitted) == submitted && queued == old(queued) && taken == queued
    {
      while wg != 0
        invariant Valid() && phase.Open? && |workers| == old(|workers|) && adding == multiset{}
        invariant queued == old(queued) && submitted == old(submitted)
        decreases Remaining(View())
      {
        WorkerStep();
      }
      NobodyBusy(workers);
      AllAccounted(View());
      phase := Waited;
      phase := Closed;
    }
  }

  /** A counter at zero leaves nothing under way. */
  lemma AllAccounted(p: Pool)
    requires Conserved(p) && p.wg == 0
    ensures p.handled == p.submitted && p.taken == p.queued
  {
    NobodyBusy(p.workers);
    assert p.adding == multiset{} && p.queue == [];
    assert p.taken + p.queue == p.taken;
  }

  class Consumer {
    const pool: WorkerPoolObject
    var fetched: seq<Task>
    var committed: seq<Task>

    ghost predicate Valid()
      reads this, pool
    {
      && pool.Valid() && 1 <= |pool.workers| && pool.adding == multiset{}
      && pool.queued == fetched == committed
      && pool.submitted == multiset(fetched)
    }

    constructor (workerCount: nat)
      requires 1 <= workerCount
      ensures Valid() && pool.phase.Open? && fetched == [] && fresh(pool)
    {
      pool := new WorkerPoolObject(workerCount);
      fetched, committed := [], [];
    }

    /** The messages of a fetch sequence, numbered by position. */
    static function Numbered(first: nat, texts: seq<string>): seq<Task> {
      seq(|texts|, k requires 0 <= k < |texts| => Task(first + k, texts[k]))
    }

    /** One round of the loop: the fetched message is submitted, then committed. */
    method Process(m: Task)
      requires Valid() && pool.phase.Open?
      modifies this, pool
      ensures Valid() && pool.phase.Open?
      ensures fetched == old(fetched) + [m] && committed == old(committed) + [m]
      ensures pool.queued == old(pool.queued) + [m]
    {
      hide Conserved, Remaining;
      fetched := fetched + [m];
      pool.Submit(m);
      committed := committed + [m];
      assert pool.submitted == old(pool.submitted) + multiset{m};
      assert multiset(fetched) == multiset(old(fetched)) + multiset{m};
    }

    /**
     * `Start`: fetch, submit, commit, until FetchMessage fails, here after `texts`.
     * Everything fetched was queued and committed in fetch order.
     */
    method Start(texts: seq<string>)
      requires Valid() && pool.phase.Open?
      modifies this, pool
      ensures Valid() && pool.phase.Open?
      ensures fetched == old(fetched) + Numbered(|old(fetched)|, texts)
      ensures committed == fetched == pool.queued
    {
      hide Conserved, Remaining;
      ghost var before := fetched;
      var k := 0;
      while k < |texts|
        invariant 0 <= k <= |texts| && Valid() && pool.phase.Open?
        invariant fetched == before + Numbered(|before|, texts[..k])
      {
        ghost var done := Numbered(|before|, texts[..k]);
        var m := Task(|fetched|, texts[k]);
        Process(m);
        assert Numbered(|before|, texts[..k + 1]) == done + [m];
        assert before + (done + [m]) == (before + done) + [m];
        k := k + 1;
      }
      assert texts[..k] == texts;
    }

    /** `Close` after the loop: every fetched message has been handled exactly once. */
    method Close()
      requires Valid() && pool.phase.Open?
      modifies pool
      ensures pool.phase.Closed? && pool.handled == multiset(fetched) && pool.taken == fetched
    {
      pool.Shutdown();
    }
  }
}
