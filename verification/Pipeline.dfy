/**
 * What the audit pipeline guarantees (pkg/kafka/consumer.go,
 * internal/gateway/service/server.go): commit order, delivery, and when shutdown panics.
 */
module Pipeline {
  import W = WorkerPool
  import H = HubProtocol
  import D = Delivery
  import opened PipelineSteps

  /**
   * A message is committed only after it was queued, both in fetch order, and the
   * commits trail the queue by at most one; workers take messages in fetch order
   * with at most one per worker taken and not yet handled.
   */
  lemma CommitAfterQueueInOrder(workerCount: nat, actions: seq<Action>)
    requires Schedule(New(workerCount), actions)
    ensures var s := Play(New(workerCount), actions);
            && s.commits <= s.pool.queued <= s.fetched
            && |s.pool.queued| <= |s.commits| + 1
            && s.pool.taken <= s.fetched
            && |s.pool.taken| <= |s.pool.handled| + workerCount
  {
    NewOk(workerCount);
    PlayOk(New(workerCount), actions);
    var s := Play(New(workerCount), actions);
    W.TakenAreInHandOrHandled(s.pool);
    W.FewInHand(s.pool.workers);
    W.NobodyBusy(s.pool.workers);
    assert |multiset(s.pool.taken)| == |s.pool.taken|;
  }

  ghost predicate Attempted(log: seq<H.Attempt>, e: H.Event) {
    exists m :: 0 <= m < |log| && log[m].event == e
  }

  lemma {:induction false} KeptWereAttempted(log: seq<H.Attempt>)
    ensures forall k :: 0 <= k < |H.Kept(log)| ==> Attempted(log, H.Kept(log)[k])
  {
    if log != [] {
      var n := |log| - 1;
      KeptWereAttempted(log[..n]);
      forall k | 0 <= k < |H.Kept(log)|
        ensures Attempted(log, H.Kept(log)[k])
      {
        if k < |H.Kept(log[..n])| {
          assert Attempted(log[..n], H.Kept(log)[k]);
          var m :| 0 <= m < n && log[..n][m].event == H.Kept(log)[k];
          assert log[m].event == H.Kept(log)[k];
        } else {
          assert log[n].event == H.Kept(log)[k];
        }
      }
    }
  }

  lemma {:induction false} KeptDiffer(log: seq<H.Attempt>)
    requires forall k, m :: 0 <= k < m < |log| ==> log[k].event.id != log[m].event.id
    ensures forall k, m :: 0 <= k < m < |H.Kept(log)| ==> H.Kept(log)[k].id != H.Kept(log)[m].id
  {
    if log != [] {
      var n := |log| - 1;
      KeptDiffer(log[..n]);
      KeptWereAttempted(log[..n]);
      forall k, m | 0 <= k < m < |H.Kept(log)|
        ensures H.Kept(log)[k].id != H.Kept(log)[m].id
      {
        assert Attempted(log[..n], H.Kept(log[..n])[k]);
        var j :| 0 <= j < n && log[..n][j].event == H.Kept(log[..n])[k];
        assert log[j].event.id != log[n].event.id;
      }
    }
  }

  /** The hub's ledger is kept by every step of the system. */
  lemma {:induction false} PlayLedger(s: Sys, actions: seq<Action>)
    requires Schedule(s, actions) && forall ch :: ch in s.hub.chans ==> H.Ledger(s.hub.chans[ch])
    ensures forall ch :: ch in Play(s, actions).hub.chans ==> H.Ledger(Play(s, actions).hub.chans[ch])
    decreases |actions|
  {
    if actions != [] {
      var h := HubMoves(s, actions[0]);
      if Do(s, actions[0]).hub != s.hub {
        H.StepLedger(s.hub, h);
      }
      PlayLedger(Do(s, actions[0]), actions[1..]);
    }
  }

  /**
   * Each fetched message reaches each client at most once: what a client received
   * and has buffered are distinct fetched messages, unaltered.
   */
  lemma AtMostOncePerClient(workerCount: nat, actions: seq<Action>, ch: nat)
    requires Schedule(New(workerCount), actions) && ch in Play(New(workerCount), actions).hub.chans
    ensures var s := Play(New(workerCount), actions);
            var got := s.hub.chans[ch].received + s.hub.chans[ch].buf;
            && (forall k, m :: 0 <= k < m < |got| ==> got[k].id != got[m].id)
            && (forall k :: 0 <= k < |got| ==> got[k].id < |s.fetched| && got[k] == EventOf(s.fetched[got[k].id]))
  {
    NewOk(workerCount);
    PlayOk(New(workerCount), actions);
    PlayLedger(New(workerCount), actions);
    var s := Play(New(workerCount), actions);
    var c := s.hub.chans[ch];
    assert H.Ledger(c);
    assert c.received + c.buf == H.Kept(c.log);
    KeptAreFetched(s, ch);
  }

  /** What went into a client's channel are distinct fetched messages. */
  lemma KeptAreFetched(s: Sys, ch: nat)
    requires SysOk(s) && ch in s.hub.chans
    ensures var kept := H.Kept(s.hub.chans[ch].log);
            && (forall k, m :: 0 <= k < m < |kept| ==> kept[k].id != kept[m].id)
            && (forall k :: 0 <= k < |kept| ==> kept[k].id < |s.fetched| && kept[k] == EventOf(s.fetched[kept[k].id]))
  {
    hide H.Kept, H.Safe;
    var c := s.hub.chans[ch];
    assert AttemptsDiffer(c);
    KeptDiffer(c.log);
    KeptWereAttempted(c.log);
    forall k | 0 <= k < |H.Kept(c.log)|
      ensures H.Kept(c.log)[k].id < |s.fetched| && H.Kept(c.log)[k] == EventOf(s.fetched[H.Kept(c.log)[k].id])
    {
      assert Attempted(c.log, H.Kept(c.log)[k]);
      var m :| 0 <= m < |c.log| && c.log[m].event == H.Kept(c.log)[k];
      assert AttemptOk(s, ch, m);
      assert s.pool.taken <= s.fetched;
    }
  }

  // ---------- and is offered exactly once ----------

  lemma {:induction false} EventsOf(log: seq<H.Attempt>)
    ensures |H.Events(log)| == |log| && forall k :: 0 <= k < |log| ==> H.Events(log)[k] == log[k].event
  {
    if log != [] {
      var n := |log| - 1;
      EventsOf(log[..n]);
      assert forall k :: 0 <= k < n ==> log[..n][k] == log[k];
    }
  }

  lemma {:induction false} DistinctOnce(s: seq<H.Event>, e: H.Event)
    requires forall k, m :: 0 <= k < m < |s| ==> s[k] != s[m]
    ensures multiset(s)[e] <= 1
  {
    if s != [] {
      var n := |s| - 1;
      var front := s[..n];
      DistinctOnce(front, e);
      assert s == front + [s[n]];
      assert forall k :: 0 <= k < n ==> front[k] == s[k] && s[k] != s[n];
      assert s[n] !in front;
    }
  }

  /** The hub's account of what was offered and what is owed is kept by every step of the system. */
  lemma {:induction false} PlayBalanced(s: Sys, actions: seq<Action>, ch: nat)
    requires Schedule(s, actions) && H.Safe(s.hub) && D.Balanced(s.hub, ch)
    ensures D.Balanced(Play(s, actions).hub, ch)
    decreases |actions|
  {
    if actions != [] {
      var h := HubMoves(s, actions[0]);
      if Do(s, actions[0]).hub != s.hub {
        H.StepSafe(s.hub, h);
        D.StepBalanced(s.hub, h, ch);
      }
      PlayBalanced(Do(s, actions[0]), actions[1..], ch);
    }
  }

  /**
   * With the workers publishing side by side: whenever no broadcast is under way, each
   * message broadcast since a registered client joined was offered to it exactly once.
   */
  lemma OfferedExactlyOnce(workerCount: nat, actions: seq<Action>, ch: nat, e: H.Event)
    requires Schedule(New(workerCount), actions)
    requires var hub := Play(New(workerCount), actions).hub;
             && ch in hub.clients && hub.readers == map[]
             && ch in hub.joined && hub.joined[ch] <= |hub.published| && e in hub.published[hub.joined[ch]..]
    ensures var hub := Play(New(workerCount), actions).hub;
            ch in hub.chans && multiset(H.Events(hub.chans[ch].log))[e] == 1
  {
    NewOk(workerCount);
    PlayOk(New(workerCount), actions);
    PlayBalanced(New(workerCount), actions, ch);
    OnceIfBalanced(Play(New(workerCount), actions), ch, e);
  }

  lemma OnceIfBalanced(s: Sys, ch: nat, e: H.Event)
    requires OnceOk(s) && D.Balanced(s.hub, ch)
    requires ch in s.hub.clients && s.hub.readers == map[] && ch in s.hub.joined
    requires s.hub.joined[ch] <= |s.hub.published| && e in s.hub.published[s.hub.joined[ch]..]
    ensures ch in s.hub.chans && multiset(H.Events(s.hub.chans[ch].log))[e] == 1
  {
    var log := s.hub.chans[ch].log;
    assert AttemptsDiffer(s.hub.chans[ch]);
    EventsOf(log);
    DistinctOnce(H.Events(log), e);
    assert e in multiset(s.hub.published[s.hub.joined[ch]..]);
  }

  /** Neither half ever panics before Close has let the workers' channel go. */
  lemma PanicOnlyAfterClose(workerCount: nat, actions: seq<Action>)
    requires Schedule(New(workerCount), actions)
    ensures var s := Play(New(workerCount), actions);
            !s.hub.panicked && (s.pool.panicked ==> s.pool.phase.Closed?)
  {
    NewOk(workerCount);
    PlayOk(New(workerCount), actions);
    W.NewConserved(workerCount);
    PanicPhase(New(workerCount), actions);
  }

  lemma {:induction false} PanicPhase(s: Sys, actions: seq<Action>)
    requires W.Conserved(s.pool) && Schedule(s, actions) && (s.pool.panicked ==> s.pool.phase.Closed?)
    ensures var q := Play(s, actions).pool; q.panicked ==> q.phase.Closed?
    decreases |actions|
  {
    if actions != [] {
      PoolStep(s, actions[0]);
      DonePanics(s, actions[0]);
      PanicPhase(Do(s, actions[0]), actions[1..]);
    }
  }

  lemma DonePanics(s: Sys, a: Action)
    requires W.Conserved(s.pool) && Enabled(s, a) && (s.pool.panicked ==> s.pool.phase.Closed?)
    ensures var q := Do(s, a).pool; q.panicked ==> q.phase.Closed?
  {
    if a.Done? {
      W.StepConserves(s.pool, W.Done(a.i));
    }
  }

  // ---------- when shutting down can panic ----------

  /** A submitter between Add and send is counted. */
  predicate SenderCounted(s: Sys) {
    s.stage.Sending? ==> s.stage.m in s.pool.adding
  }

  lemma SenderCountedStep(s: Sys, a: Action)
    requires SenderCounted(s) && Enabled(s, a)
    ensures SenderCounted(Do(s, a))
  {
  }

  lemma {:induction false} SenderCountedRun(s: Sys, actions: seq<Action>)
    requires SenderCounted(s) && Schedule(s, actions)
    ensures SenderCounted(Play(s, actions))
    decreases |actions|
  {
    if actions != [] {
      SenderCountedStep(s, actions[0]);
      SenderCountedRun(Do(s, actions[0]), actions[1..]);
    }
  }

  /** Some continuation ends in a send on the closed channel. */
  ghost predicate PanicReachable(s: Sys) {
    exists actions :: Schedule(s, actions) && Play(s, actions).pool.panicked
  }

  /** The consumer's context has ended: FetchMessage returns no message any more. */
  ghost predicate NoFetch(actions: seq<Action>) {
    forall k :: 0 <= k < |actions| ==> !actions[k].Fetch?
  }

  ghost predicate PanicReachableWithoutFetch(s: Sys) {
    exists actions :: Schedule(s, actions) && NoFetch(actions) && Play(s, actions).pool.panicked
  }

  /** How the loop, past Wait, goes on to the send on the closed channel. */
  function ToPanic(stage: Stage): seq<Action>
    requires !stage.Sending? && !stage.Stopped?
  {
    match stage
    case Adding(_) => [SubmitAdd, Close, SubmitSend]
    case Fetching => [Fetch("m"), SubmitAdd, Close, SubmitSend]
    case Committing(_) => [Commit, Fetch("m"), SubmitAdd, Close, SubmitSend]
  }

  lemma Prepend(s: Sys, a: Action, rest: seq<Action>)
    requires Enabled(s, a) && Schedule(Do(s, a), rest)
    ensures Schedule(s, [a] + rest) && Play(s, [a] + rest) == Play(Do(s, a), rest)
  {
    assert ([a] + rest)[1..] == rest;
  }

  lemma AddingPanics(s: Sys)
    requires s.stage.Adding? && s.pool.phase.Waited? && !s.pool.panicked
    ensures Schedule(s, ToPanic(s.stage)) && Play(s, ToPanic(s.stage)).pool.panicked
  {
    var s1 := Do(s, SubmitAdd);
    assert s1.stage.m in s1.pool.adding;
    var s2 := Do(s1, Close);
    var s3 := Do(s2, SubmitSend);
    assert Schedule(s3, []) && Play(s3, []) == s3;
    Prepend(s2, SubmitSend, []);
    Prepend(s1, Close, [SubmitSend] + []);
    Prepend(s, SubmitAdd, [Close] + ([SubmitSend] + []));
    assert ToPanic(s.stage) == [SubmitAdd] + ([Close] + ([SubmitSend] + []));
  }

  lemma RunningPanics(s: Sys)
    requires !s.stage.Sending? && !s.stage.Stopped? && s.pool.phase.Waited? && !s.pool.panicked
    ensures Schedule(s, ToPanic(s.stage)) && Play(s, ToPanic(s.stage)).pool.panicked
    decreases s.stage.Committing?
  {
    if s.stage.Adding? {
      AddingPanics(s);
    } else if s.stage.Fetching? {
      AddingPanics(Do(s, Fetch("m")));
      Prepend(s, Fetch("m"), [SubmitAdd, Close, SubmitSend]);
      assert ToPanic(s.stage) == [Fetch("m")] + [SubmitAdd, Close, SubmitSend];
    } else {
      RunningPanics(Do(s, Commit));
      Prepend(s, Commit, [Fetch("m"), SubmitAdd, Close, SubmitSend]);
      assert ToPanic(s.stage) == [Commit] + [Fetch("m"), SubmitAdd, Close, SubmitSend];
    }
  }

  /** The loop is over, or will fetch no more: past Wait nothing is under way and nothing will be submitted. */
  predicate Winding(s: Sys, fetches: bool) {
    && !s.pool.panicked && !s.pool.phase.Open? && s.pool.wg == 0
    && (s.stage.Stopped? || (!fetches && (s.stage.Fetching? || s.stage.Committing?)))
  }

  lemma WindingStep(s: Sys, a: Action, fetches: bool)
    requires W.Conserved(s.pool) && Winding(s, fetches) && Enabled(s, a) && (fetches || !a.Fetch?)
    ensures Winding(Do(s, a), fetches)
  {
    W.NobodyBusy(s.pool.workers);
  }

  lemma {:induction false} WindingRun(s: Sys, actions: seq<Action>, fetches: bool)
    requires W.Conserved(s.pool) && Winding(s, fetches) && Schedule(s, actions) && (fetches || NoFetch(actions))
    ensures !Play(s, actions).pool.panicked
    decreases |actions|
  {
    if actions != [] {
      WindingStep(s, actions[0], fetches);
      PoolStep(s, actions[0]);
      assert !fetches ==> NoFetch(actions[1..]);
      WindingRun(Do(s, actions[0]), actions[1..], fetches);
    }
  }

  /** What holds when Wait can return, whatever led there. */
  lemma AtWait(workerCount: nat, before: seq<Action>)
    requires Schedule(New(workerCount), before) && Enabled(Play(New(workerCount), before), WaitReturns)
    ensures var s := Play(New(workerCount), before);
            W.Conserved(Do(s, WaitReturns).pool) && s.pool.wg == 0 && !s.pool.panicked && !s.stage.Sending?
  {
    hide OnceOk, ConsumerOk, W.Conserved, H.Safe;
    NewOk(workerCount);
    PlayOk(New(workerCount), before);
    SenderCountedRun(New(workerCount), before);
    NothingCounted(Play(New(workerCount), before).pool);
    PoolStep(Play(New(workerCount), before), WaitReturns);
  }

  lemma NothingCounted(p: W.Pool)
    requires W.Conserved(p) && p.wg == 0
    ensures p.adding == multiset{}
  {
  }

  /** From a state past Wait, before Close. */
  lemma PastWait(s: Sys)
    requires W.Conserved(s.pool) && s.pool.wg == 0 && s.pool.phase.Waited? && !s.pool.panicked && !s.stage.Sending?
    ensures PanicReachable(s) <==> !s.stage.Stopped?
    ensures PanicReachableWithoutFetch(s) <==> s.stage.Adding?
  {
    hide W.Conserved, Schedule, Play;
    if s.stage.Stopped? {
      forall actions | Schedule(s, actions) ensures !Play(s, actions).pool.panicked {
        WindingRun(s, actions, true);
      }
    } else {
      RunningPanics(s);
    }
    if s.stage.Adding? {
      assert NoFetch(ToPanic(s.stage));
    } else {
      forall actions | Schedule(s, actions) && NoFetch(actions) ensures !Play(s, actions).pool.panicked {
        WindingRun(s, actions, false);
      }
    }
  }

  /**
   * Shutdown exactly: at whatever point Wait returns, a send on the closed channel can
   * still follow if and only if the consumer loop has not stopped by then.
   */
  lemma ShutdownPanicsExactly(workerCount: nat, before: seq<Action>)
    requires Schedule(New(workerCount), before) && Enabled(Play(New(workerCount), before), WaitReturns)
    ensures var s := Play(New(workerCount), before);
            PanicReachable(Do(s, WaitReturns)) <==> !s.stage.Stopped?
  {
    hide W.Conserved, PanicReachable;
    AtWait(workerCount, before);
    PastWait(Do(Play(New(workerCount), before), WaitReturns));
  }

  /**
   * The same when FetchMessage returns nothing once the loop's context has ended, as
   * it has when the gateway calls Close: the one dangerous point is a message fetched
   * and not yet counted.
   */
  lemma ShutdownPanicsWithoutFetchExactly(workerCount: nat, before: seq<Action>)
    requires Schedule(New(workerCount), before) && Enabled(Play(New(workerCount), before), WaitReturns)
    ensures var s := Play(New(workerCount), before);
            PanicReachableWithoutFetch(Do(s, WaitReturns)) <==> s.stage.Adding?
  {
    hide W.Conserved, PanicReachableWithoutFetch;
    AtWait(workerCount, before);
    PastWait(Do(Play(New(workerCount), before), WaitReturns));
  }

  /** A run of the gateway that ends so: the message was fetched before Close began. */
  function CloseDuringFetch(): seq<Action> {
    [Fetch("m"), WaitReturns, SubmitAdd, Close, SubmitSend]
  }

  lemma CloseCanMeetTheLoop(workerCount: nat)
    ensures Schedule(New(workerCount), CloseDuringFetch())
    ensures Play(New(workerCount), CloseDuringFetch()).pool.panicked
  {
    var s0 := New(workerCount);
    W.NewConserved(workerCount);
    W.AllIdle(workerCount);
    var s1 := Do(s0, Fetch("m"));
    var s2 := Do(s1, WaitReturns);
    AddingPanics(s2);
    Prepend(s1, WaitReturns, ToPanic(s2.stage));
    Prepend(s0, Fetch("m"), [WaitReturns] + ToPanic(s2.stage));
    assert CloseDuringFetch() == [Fetch("m")] + ([WaitReturns] + ToPanic(s2.stage));
  }

  /** If Wait returns only after the loop has stopped, the pool never panics. */
  ghost predicate LoopStopsFirst(s: Sys, actions: seq<Action>)
    requires Schedule(s, actions)
    decreases |actions|
  {
    actions == [] || ((actions[0].WaitReturns? ==> s.stage.Stopped?) && LoopStopsFirst(Do(s, actions[0]), actions[1..]))
  }

  /** Past Wait the loop is over and nothing is under way. */
  predicate Orderly(s: Sys) {
    !s.pool.panicked && (!s.pool.phase.Open? ==> s.stage.Stopped? && s.pool.wg == 0)
  }

  lemma OrderlyStep(s: Sys, a: Action)
    requires W.Conserved(s.pool) && Enabled(s, a) && (a.WaitReturns? ==> s.stage.Stopped?) && Orderly(s)
    ensures Orderly(Do(s, a))
  {
    W.NobodyBusy(s.pool.workers);
    if a.Done? {
      W.StepConserves(s.pool, W.Done(a.i));
    }
  }

  lemma {:induction false} OrderlyRun(s: Sys, actions: seq<Action>)
    requires W.Conserved(s.pool) && Schedule(s, actions) && LoopStopsFirst(s, actions) && Orderly(s)
    ensures Orderly(Play(s, actions))
    decreases |actions|
  {
    hide W.Conserved, Orderly;
    if actions != [] {
      PoolStep(s, actions[0]);
      OrderlyStep(s, actions[0]);
      OrderlyRun(Do(s, actions[0]), actions[1..]);
    }
  }

  lemma OrderlyShutdown(workerCount: nat, actions: seq<Action>)
    requires Schedule(New(workerCount), actions) && LoopStopsFirst(New(workerCount), actions)
    ensures !Play(New(workerCount), actions).pool.panicked
  {
    W.NewConserved(workerCount);
    OrderlyRun(New(workerCount), actions);
  }
}
