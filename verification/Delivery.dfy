/**
 * Delivery with any number of publishers (pkg/sse/hub.go), as the gateway has with its two
 * workers: which events a client's channel was offered, counted with multiplicity.
 */
module Delivery {
  import Hub
  import opened HubProtocol

  type Readers = map<Pid, Publishing>

  /** What one publish under way still owes a client. */
  function OwedBy(job: Publishing, ch: ChanId): multiset<Event> {
    if ch in job.todo then multiset{job.event} else multiset{}
  }

  /** What all publishes under way still owe a client. */
  ghost function Owed(readers: Readers, ch: ChanId): multiset<Event>
    decreases |readers|
  {
    if readers == map[] then multiset{}
    else
      var p :| p in readers;
      assert (readers - {p}).Keys == readers.Keys - {p};
      OwedBy(readers[p], ch) + Owed(readers - {p}, ch)
  }

  lemma Without(readers: Readers, p: Pid, q: Pid)
    requires p in readers && q in readers && p != q
    ensures readers - {p} - {q} == readers - {q} - {p}
    ensures q in readers - {p} && (readers - {p})[q] == readers[q]
    ensures |readers - {p}| == |readers| - 1
  {
    assert (readers - {p}).Keys == readers.Keys - {p};
  }

  lemma Rotate(a: multiset<Event>, b: multiset<Event>, c: multiset<Event>)
    ensures a + (b + c) == b + (a + c)
  {
  }

  /** Any publish may be counted first. */
  lemma {:induction false} OwedSplits(readers: Readers, ch: ChanId, p: Pid)
    requires p in readers
    ensures Owed(readers, ch) == OwedBy(readers[p], ch) + Owed(readers - {p}, ch)
    decreases |readers|
  {
    var q :| q in readers && Owed(readers, ch) == OwedBy(readers[q], ch) + Owed(readers - {q}, ch);
    if p != q {
      Without(readers, q, p);
      Without(readers, p, q);
      OwedSplits(readers - {q}, ch, p);
      OwedSplits(readers - {p}, ch, q);
      Rotate(OwedBy(readers[q], ch), OwedBy(readers[p], ch), Owed(readers - {q} - {p}, ch));
    }
  }

  /** A publish that begins, goes on or ends changes only its own share. */
  lemma OwedAfter(readers: Readers, ch: ChanId, p: Pid, job: Publishing)
    ensures Owed(readers[p := job], ch) == OwedBy(job, ch) + Owed(readers - {p}, ch)
  {
    OwedSplits(readers[p := job], ch, p);
    assert readers[p := job] - {p} == readers - {p};
  }

  /** A client was offered, or is owed, exactly what was published since it joined; one that left, part of it. */
  ghost predicate Balanced(s: State, ch: ChanId) {
    ch in s.joined ==>
      && ch in s.chans && s.joined[ch] <= |s.published|
      && var offered, since := multiset(Events(s.chans[ch].log)), multiset(s.published[s.joined[ch]..]);
         if ch in s.clients then offered + Owed(s.readers, ch) == since else offered <= since
  }

  lemma PublishedMore(s: State, event: Event, j: nat)
    requires j <= |s.published|
    ensures multiset((s.published + [event])[j..]) == multiset(s.published[j..]) + multiset{event}
  {
    assert (s.published + [event])[j..] == s.published[j..] + [event];
  }

  lemma LogMore(log: seq<Attempt>, a: Attempt)
    ensures multiset(Events(log + [a])) == multiset(Events(log)) + multiset{a.event}
  {
    assert (log + [a])[..|log|] == log;
  }

  lemma Shift(a: multiset<Event>, b: multiset<Event>, x: multiset<Event>)
    ensures (a + x) + b == a + (x + b) == (a + b) + x
  {
  }

  lemma RLockBalanced(s: State, p: Pid, event: Event, ch: ChanId)
    requires Safe(s) && Balanced(s, ch) && Enabled(s, RLock(p, event))
    ensures Balanced(Do(s, RLock(p, event)), ch)
  {
    hide Events;
    if ch in s.joined {
      PublishedMore(s, event, s.joined[ch]);
      assert s.readers - {p} == s.readers;
      OwedAfter(s.readers, ch, p, Publishing(event, s.clients));
      Shift(multiset(Events(s.chans[ch].log)), Owed(s.readers, ch), multiset{event});
    }
  }

  lemma SendBalanced(s: State, p: Pid, to: ChanId, ch: ChanId)
    requires Safe(s) && Balanced(s, ch) && Enabled(s, Send(p, to))
    ensures Balanced(Do(s, Send(p, to)), ch)
  {
    hide Events, Owed;
    assert ReaderOk(s, p) && ClientOk(s, to);
    SendOwes(s.readers, p, to, ch);
    if ch == to {
      var event := s.readers[p].event;
      LogMore(s.chans[ch].log, Attempt(event, |s.chans[ch].buf| < Hub.CAPACITY, |s.chans[ch].received|));
      Shift(multiset(Events(s.chans[ch].log)), Owed(Do(s, Send(p, to)).readers, ch), multiset{event});
    }
  }

  /** A send pays what its publish owes that client, and nothing else. */
  lemma SendOwes(readers: Readers, p: Pid, to: ChanId, ch: ChanId)
    requires p in readers && to in readers[p].todo
    ensures var after := readers[p := readers[p].(todo := readers[p].todo - {to})];
            Owed(readers, ch) == (if ch == to then multiset{readers[p].event} else multiset{}) + Owed(after, ch)
  {
    var job' := readers[p].(todo := readers[p].todo - {to});
    OwedSplits(readers, ch, p);
    OwedAfter(readers, ch, p, job');
    hide Owed;
  }

  lemma RUnlockBalanced(s: State, p: Pid, ch: ChanId)
    requires Balanced(s, ch) && Enabled(s, RUnlock(p))
    ensures Balanced(Do(s, RUnlock(p)), ch)
  {
    hide Events;
    OwedSplits(s.readers, ch, p);
  }

  /** The writers' steps happen with no publish under way. */
  lemma WriterBalanced(s: State, a: Action, ch: ChanId)
    requires Safe(s) && Balanced(s, ch) && Enabled(s, a) && !a.RLock? && !a.Send? && !a.RUnlock?
    ensures Balanced(Do(s, a), ch)
  {
    hide Events;
    assert ClientOk(s, ch);
    if a.Insert? || a.Remove? {
      ChangeBalanced(s, a, ch);
    } else {
      hide Owed;
    }
  }

  lemma ChangeBalanced(s: State, a: Action, ch: ChanId)
    requires Safe(s) && Balanced(s, ch) && Enabled(s, a) && (a.Insert? || a.Remove?)
    ensures Balanced(Do(s, a), ch)
  {
    var s' := Do(s, a);
    assert ClientOk(s, ch);
    forall p ensures p !in s.readers {
      assert ReaderOk(s, p);
    }
    assert s.readers == map[];
    if a.Insert? && ch == s.writer.value.ch {
      assert s'.published[s'.joined[ch]..] == [];
    }
  }

  lemma StepBalanced(s: State, a: Action, ch: ChanId)
    requires Safe(s) && Balanced(s, ch) && Enabled(s, a)
    ensures Balanced(Do(s, a), ch)
  {
    hide Balanced, Safe;
    match a
    case RLock(p, event) => RLockBalanced(s, p, event, ch);
    case Send(p, to) => SendBalanced(s, p, to, ch);
    case RUnlock(p) => RUnlockBalanced(s, p, ch);
    case LockToSubscribe(_) => WriterBalanced(s, a, ch);
    case Insert => WriterBalanced(s, a, ch);
    case LockToUnsubscribe(_) => WriterBalanced(s, a, ch);
    case Remove => WriterBalanced(s, a, ch);
    case Unlock => WriterBalanced(s, a, ch);
    case Receive(_) => WriterBalanced(s, a, ch);
  }

  lemma {:induction false} PlayBalanced(s: State, actions: seq<Action>, ch: ChanId)
    requires Schedule(s, actions) && Safe(s) && Balanced(s, ch)
    ensures Balanced(Play(s, actions), ch)
    decreases |actions|
  {
    if actions != [] {
      StepSafe(s, actions[0]);
      StepBalanced(s, actions[0], ch);
      PlayBalanced(Do(s, actions[0]), actions[1..], ch);
    }
  }

  /**
   * Under every interleaving of any number of publishers: with no publish under way a
   * registered client was offered every event published since it joined exactly as
   * often as it was published, and a client that left was offered nothing else.
   */
  lemma OfferedExactlyWhatWasPublished(actions: seq<Action>, ch: ChanId)
    requires Schedule(INIT, actions) && ch in Play(INIT, actions).joined
    ensures var s := Play(INIT, actions);
            && ch in s.chans && s.joined[ch] <= |s.published|
            && var offered, since := multiset(Events(s.chans[ch].log)), multiset(s.published[s.joined[ch]..]);
               && offered <= since
               && (ch in s.clients && s.readers == map[] ==> offered == since)
  {
    PlayBalanced(INIT, actions, ch);
    assert Balanced(Play(INIT, actions), ch);
  }
}
