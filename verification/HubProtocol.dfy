/**
 * The SSE hub under every interleaving (pkg/sse/hub.go): publishers hold the
 * RWMutex for reading and send to one client per step, subscribers and
 * unsubscribers hold it for writing, receivers hold nothing.
 */
module HubProtocol {
  import opened Wrappers
  import Hub

  type ChanId = nat
  type Pid = nat

  /** `id` tells one published event from another; the hub looks at neither field. */
  datatype Event = Event(id: nat, text: string)

  /** One send attempt at a channel, whether it went in, and how many events the client had received by then. */
  datatype Attempt = Attempt(event: Event, kept: bool, received: nat)

  datatype Chan = Chan(buf: seq<Event>, closed: bool, received: seq<Event>, log: seq<Attempt>)

  const OPEN := Chan([], false, [], [])

  datatype Writer = Inserting(ch: ChanId) | Removing(ch: ChanId) | Leaving

  datatype Publishing = Publishing(event: Event, todo: set<ChanId>)

  datatype State = State(
    clients: set<ChanId>,
    chans: map<ChanId, Chan>,
    writer: Option<Writer>,
    readers: map<Pid, Publishing>,
    published: seq<Event>,
    joined: map<ChanId, nat>,
    panicked: bool)

  const INIT := State({}, map[], None, map[], [], map[], false)

  datatype Action =
    | LockToSubscribe(ch: ChanId)
    | Insert
    | LockToUnsubscribe(ch: ChanId)
    | Remove
    | Unlock
    | RLock(p: Pid, event: Event)
    | Send(p: Pid, ch: ChanId)
    | RUnlock(p: Pid)
    | Receive(ch: ChanId)

  predicate LockFree(s: State) {
    s.writer.None? && s.readers == map[]
  }

  predicate Enabled(s: State, a: Action) {
    match a
    case LockToSubscribe(ch) => LockFree(s) && ch !in s.chans
    case Insert => s.writer.Some? && s.writer.value.Inserting?
    case LockToUnsubscribe(ch) => LockFree(s) && ch in s.chans
    case Remove => s.writer.Some? && s.writer.value.Removing?
    case Unlock => s.writer == Some(Leaving)
    case RLock(p, _) => s.writer.None? && p !in s.readers
    case Send(p, ch) => p in s.readers && ch in s.readers[p].todo
    case RUnlock(p) => p in s.readers && s.readers[p].todo == {}
    case Receive(ch) => ch in s.chans && s.chans[ch].buf != []
  }

  /** The channel after a non-blocking send. */
  function Offered(c: Chan, e: Event): Chan {
    c.(buf := Hub.Offer(c.buf, e), log := c.log + [Attempt(e, |c.buf| < Hub.CAPACITY, |c.received|)])
  }

  /** A send to a channel that is missing or closed, or a second close, panics. */
  function Do(s: State, a: Action): State
    requires Enabled(s, a)
  {
    match a
    case LockToSubscribe(ch) => s.(chans := s.chans[ch := OPEN], writer := Some(Inserting(ch)))
    case Insert =>
      var ch := s.writer.value.ch;
      s.(clients := s.clients + {ch}, joined := s.joined[ch := |s.published|], writer := Some(Leaving))
    case LockToUnsubscribe(ch) => s.(writer := Some(Removing(ch)))
    case Remove =>
      var ch := s.writer.value.ch;
      if ch !in s.clients then s.(writer := Some(Leaving))
      else if ch !in s.chans || s.chans[ch].closed then s.(panicked := true)
      else s.(clients := s.clients - {ch}, chans := s.chans[ch := s.chans[ch].(closed := true)],
          writer := Some(Leaving))
    case Unlock => s.(writer := None)
    case RLock(p, event) =>
      s.(readers := s.readers[p := Publishing(event, s.clients)], published := s.published + [event])
    case Send(p, ch) =>
      var job := s.readers[p];
      if ch !in s.chans || s.chans[ch].closed then s.(panicked := true)
      else s.(readers := s.readers[p := job.(todo := job.todo - {ch})],
          chans := s.chans[ch := Offered(s.chans[ch], job.event)])
    case RUnlock(p) => s.(readers := s.readers - {p})
    case Receive(ch) =>
      var c := s.chans[ch];
      s.(chans := s.chans[ch := c.(buf := c.buf[1..], received := c.received + [c.buf[0]])])
  }

  ghost predicate Schedule(s: State, actions: seq<Action>)
    decreases |actions|
  {
    actions == [] || (Enabled(s, actions[0]) && Schedule(Do(s, actions[0]), actions[1..]))
  }

  function Play(s: State, actions: seq<Action>): State
    requires Schedule(s, actions)
    decreases |actions|
  {
    if actions == [] then s else Play(Do(s, actions[0]), actions[1..])
  }

  // ---------- safety ----------

  ghost predicate ClientOk(s: State, ch: ChanId) {
    ch in s.clients ==> ch in s.chans && !s.chans[ch].closed && ch in s.joined
  }

  ghost predicate ReaderOk(s: State, p: Pid) {
    p in s.readers ==> s.readers[p].todo <= s.clients && s.writer.None?
  }

  ghost predicate ChanOk(s: State, ch: ChanId) {
    ch in s.chans ==> |s.chans[ch].buf| <= Hub.CAPACITY
  }

  ghost predicate WriterOk(s: State) {
    match s.writer
    case None => true
    case Some(Inserting(ch)) => ch in s.chans && s.chans[ch] == OPEN && ch !in s.clients && ch !in s.joined
    case Some(Removing(ch)) => ch in s.chans
    case Some(Leaving) => true
  }

  ghost predicate Safe(s: State) {
    && !s.panicked
    && WriterOk(s)
    && (forall ch :: ClientOk(s, ch))
    && (forall ch :: ChanOk(s, ch))
    && (forall p :: ReaderOk(s, p))
    && s.joined.Keys <= s.chans.Keys
  }

  lemma StepSafe(s: State, a: Action)
    requires Safe(s) && Enabled(s, a)
    ensures Safe(Do(s, a))
  {
    var s' := Do(s, a);
    if a.Send? {
      assert ReaderOk(s, a.p) && ClientOk(s, a.ch);
    } else if a.Remove? {
      assert ClientOk(s, s.writer.value.ch);
    } else if a.LockToSubscribe? {
      assert ClientOk(s, a.ch);
    }
    forall ch ensures ClientOk(s', ch) && ChanOk(s', ch) {
      assert ClientOk(s, ch) && ChanOk(s, ch);
    }
    forall p ensures ReaderOk(s', p) {
      assert ReaderOk(s, p);
    }
  }

  lemma {:induction false} PlaySafe(s: State, actions: seq<Action>)
    requires Safe(s) && Schedule(s, actions)
    ensures Safe(Play(s, actions))
    decreases |actions|
  {
    if actions != [] {
      StepSafe(s, actions[0]);
      PlaySafe(Do(s, actions[0]), actions[1..]);
    }
  }

  /**
   * Under every interleaving no send reaches a closed channel, no channel is closed
   * twice, and no buffer exceeds ten events.
   */
  lemma NeverPanics(actions: seq<Action>, ch: ChanId)
    requires Schedule(INIT, actions)
    ensures var s := Play(INIT, actions);
            !s.panicked && (ch in s.chans ==> |s.chans[ch].buf| <= 10)
  {
    PlaySafe(INIT, actions);
    assert ChanOk(Play(INIT, actions), ch);
  }

  /** A client that has left has its channel closed. */
  ghost predicate LeftClosed(s: State, ch: ChanId) {
    ch in s.joined && ch !in s.clients ==> ch in s.chans && s.chans[ch].closed
  }

  lemma {:induction false} PlayLeftClosed(s: State, actions: seq<Action>, ch: ChanId)
    requires Safe(s) && Schedule(s, actions) && LeftClosed(s, ch)
    ensures LeftClosed(Play(s, actions), ch)
    decreases |actions|
  {
    if actions != [] {
      StepSafe(s, actions[0]);
      assert ClientOk(s, ch);
      PlayLeftClosed(Do(s, actions[0]), actions[1..], ch);
    }
  }

  /** In every reachable state, the channel of a client that joined is closed if and only if the client has left. */
  lemma ClosedExactlyWhenLeft(actions: seq<Action>, ch: ChanId)
    requires Schedule(INIT, actions) && ch in Play(INIT, actions).joined
    ensures var s := Play(INIT, actions); ch in s.chans && (s.chans[ch].closed <==> ch !in s.clients)
  {
    PlaySafe(INIT, actions);
    PlayLeftClosed(INIT, actions, ch);
    assert ClientOk(Play(INIT, actions), ch);
  }

  // ---------- delivery ----------

  function Kept(log: seq<Attempt>): seq<Event> {
    if log == [] then []
    else Kept(log[..|log| - 1]) + if log[|log| - 1].kept then [log[|log| - 1].event] else []
  }

  function Events(log: seq<Attempt>): seq<Event> {
    if log == [] then [] else Events(log[..|log| - 1]) + [log[|log| - 1].event]
  }

  function Dropped(log: seq<Attempt>): nat {
    if log == [] then 0 else Dropped(log[..|log| - 1]) + if log[|log| - 1].kept then 0 else 1
  }

  /** `a` is `b` with some events left out, in order. */
  predicate Subsequence(a: seq<Event>, b: seq<Event>) {
    a == [] ||
    (b != [] &&
     (|| Subsequence(a, b[..|b| - 1])
      || (a[|a| - 1] == b[|b| - 1] && Subsequence(a[..|a| - 1], b[..|b| - 1]))))
  }

  ghost predicate Ledger(c: Chan) {
    c.received + c.buf == Kept(c.log)
  }

  lemma OfferedLedger(c: Chan, e: Event)
    requires Ledger(c)
    ensures Ledger(Offered(c, e))
  {
    var c' := Offered(c, e);
    assert c'.log[..|c'.log| - 1] == c.log;
    assert |c.buf| < Hub.CAPACITY ==> c.received + (c.buf + [e]) == (c.received + c.buf) + [e];
  }

  lemma StepLedger(s: State, a: Action)
    requires Enabled(s, a) && forall ch :: ch in s.chans ==> Ledger(s.chans[ch])
    ensures forall ch :: ch in Do(s, a).chans ==> Ledger(Do(s, a).chans[ch])
  {
    if a.Send? && a.ch in s.chans {
      OfferedLedger(s.chans[a.ch], s.readers[a.p].event);
    } else if a.Receive? {
      var c := s.chans[a.ch];
      assert (c.received + [c.buf[0]]) + c.buf[1..] == c.received + c.buf;
    }
  }

  lemma {:induction false} PlayLedger(s: State, actions: seq<Action>)
    requires Schedule(s, actions) && forall ch :: ch in s.chans ==> Ledger(s.chans[ch])
    ensures forall ch :: ch in Play(s, actions).chans ==> Ledger(Play(s, actions).chans[ch])
    decreases |actions|
  {
    if actions != [] {
      StepLedger(s, actions[0]);
      PlayLedger(Do(s, actions[0]), actions[1..]);
    }
  }

  lemma {:induction false} LogCounts(log: seq<Attempt>)
    ensures |log| == |Kept(log)| + Dropped(log)
    ensures |Events(log)| == |log|
    ensures Dropped(log) == 0 ==> Kept(log) == Events(log)
  {
    if log != [] {
      LogCounts(log[..|log| - 1]);
    }
  }

  lemma {:induction false} KeptIsSubsequence(log: seq<Attempt>)
    ensures Subsequence(Kept(log), Events(log))
  {
    if log != [] {
      var front, last := log[..|log| - 1], log[|log| - 1];
      KeptIsSubsequence(front);
      assert Events(log)[..|Events(log)| - 1] == Events(front);
      if last.kept {
        assert Kept(log)[..|Kept(log)| - 1] == Kept(front);
      } else {
        assert Kept(log) == Kept(front);
      }
    }
  }

  /** Schedules with one publisher: a publish starts only when none is under way. */
  ghost predicate OnePublisher(s: State, actions: seq<Action>)
    requires Schedule(s, actions)
    decreases |actions|
  {
    actions == [] ||
    ((actions[0].RLock? ==> s.readers == map[]) && OnePublisher(Do(s, actions[0]), actions[1..]))
  }

  /** The publish under way has yet to reach this client. */
  ghost predicate Pending(s: State, ch: ChanId) {
    exists p :: p in s.readers && ch in s.readers[p].todo
  }

  /** What the client's channel was offered: everything published since it joined, up to a pending event. */
  ghost predicate Offers(s: State, ch: ChanId) {
    ch in s.joined ==>
      && ch in s.chans && s.joined[ch] <= |s.published|
      && var since := s.published[s.joined[ch]..];
         && Events(s.chans[ch].log) <= since
         && (ch in s.clients && !Pending(s, ch) ==> Events(s.chans[ch].log) == since)
         && (ch in s.clients && Pending(s, ch) ==> since != [] && Events(s.chans[ch].log) == since[..|since| - 1])
  }

  /** At most one publish is under way, and it publishes the last event. */
  ghost predicate Single(s: State) {
    && (forall p, q :: p in s.readers && q in s.readers ==> p == q)
    && (forall p :: p in s.readers ==> s.published != [] && s.readers[p].event == s.published[|s.published| - 1])
  }

  lemma RLockOffers(s: State, p: Pid, event: Event, ch: ChanId)
    requires Safe(s) && Single(s) && Offers(s, ch) && Enabled(s, RLock(p, event)) && s.readers == map[]
    ensures Offers(Do(s, RLock(p, event)), ch)
  {
    var s' := Do(s, RLock(p, event));
    assert ClientOk(s, ch) && !Pending(s, ch);
    if ch in s.joined {
      var j := s.joined[ch];
      assert s'.published[j..] == s.published[j..] + [event];
      assert s'.published[j..][..|s'.published[j..]| - 1] == s.published[j..];
      assert ch in s.clients ==> p in s'.readers && ch in s'.readers[p].todo;
    }
  }

  /** The client the send goes to has now been offered everything. */
  lemma SentOffers(s: State, p: Pid, ch: ChanId)
    requires Safe(s) && Single(s) && Offers(s, ch) && Enabled(s, Send(p, ch))
    ensures Offers(Do(s, Send(p, ch)), ch)
  {
    var s' := Do(s, Send(p, ch));
    assert ReaderOk(s, p) && ClientOk(s, ch);
    assert Pending(s, ch) && !Pending(s', ch);
    var log, log' := s.chans[ch].log, s'.chans[ch].log;
    var since := s.published[s.joined[ch]..];
    assert Events(log') == Events(log) + [s.readers[p].event] by {
      assert log'[..|log'| - 1] == log;
    }
    assert since == since[..|since| - 1] + [since[|since| - 1]];
  }

  lemma SendOffers(s: State, p: Pid, to: ChanId, ch: ChanId)
    requires Safe(s) && Single(s) && Offers(s, ch) && Enabled(s, Send(p, to))
    ensures Offers(Do(s, Send(p, to)), ch)
  {
    if ch == to {
      SentOffers(s, p, ch);
    } else {
      var s' := Do(s, Send(p, to));
      assert ReaderOk(s, p) && ClientOk(s, ch);
      assert Pending(s, ch) ==> ch in s.readers[p].todo && ch in s'.readers[p].todo;
      assert Pending(s', ch) ==> ch in s'.readers[p].todo && ch in s.readers[p].todo;
    }
  }

  lemma OtherOffers(s: State, a: Action, ch: ChanId)
    requires Safe(s) && Single(s) && Offers(s, ch) && Enabled(s, a) && !a.RLock? && !a.Send?
    ensures Offers(Do(s, a), ch)
  {
    var s' := Do(s, a);
    assert ClientOk(s, ch);
    if a.RUnlock? {
      assert !Pending(s', ch);
      assert !Pending(s, ch);
    } else {
      assert s'.readers == s.readers;
      assert Pending(s', ch) <==> Pending(s, ch);
      if a.Insert? && ch == s.writer.value.ch {
        assert Pending(s, ch) ==> exists p :: p in s.readers && ReaderOk(s, p);
        assert s'.published[s'.joined[ch]..] == [];
      }
      if a.Remove? {
        assert ClientOk(s, s.writer.value.ch);
      }
    }
  }

  lemma StepOffers(s: State, a: Action)
    requires Safe(s) && Single(s) && Enabled(s, a) && (a.RLock? ==> s.readers == map[])
    requires forall ch :: Offers(s, ch)
    ensures Single(Do(s, a)) && forall ch :: Offers(Do(s, a), ch)
  {
    forall ch ensures Offers(Do(s, a), ch) {
      assert Offers(s, ch);
      match a {
        case RLock(p, event) => RLockOffers(s, p, event, ch);
        case Send(p, to) => SendOffers(s, p, to, ch);
        case LockToSubscribe(_) => OtherOffers(s, a, ch);
        case Insert => OtherOffers(s, a, ch);
        case LockToUnsubscribe(_) => OtherOffers(s, a, ch);
        case Remove => OtherOffers(s, a, ch);
        case Unlock => OtherOffers(s, a, ch);
        case RUnlock(_) => OtherOffers(s, a, ch);
        case Receive(_) => OtherOffers(s, a, ch);
      }
    }
    SingleKept(s, a);
  }

  lemma SingleKept(s: State, a: Action)
    requires Safe(s) && Single(s) && Enabled(s, a) && (a.RLock? ==> s.readers == map[])
    ensures Single(Do(s, a))
  {
  }

  lemma {:induction false} PlayOffers(s: State, actions: seq<Action>)
    requires Schedule(s, actions) && OnePublisher(s, actions)
    requires Safe(s) && Single(s) && forall ch :: Offers(s, ch)
    ensures Single(Play(s, actions)) && forall ch :: Offers(Play(s, actions), ch)
    decreases |actions|
  {
    if actions != [] {
      StepSafe(s, actions[0]);
      StepOffers(s, actions[0]);
      PlayOffers(Do(s, actions[0]), actions[1..]);
    }
  }

  /**
   * Delivery, whoever publishes: what a client received and still has buffered is,
   * in order, exactly the kept attempts at its channel; attempts are received,
   * buffered or dropped.
   */
  lemma AttemptsAreAccounted(actions: seq<Action>, ch: ChanId)
    requires Schedule(INIT, actions) && ch in Play(INIT, actions).chans
    ensures var c := Play(INIT, actions).chans[ch];
            && c.received + c.buf == Kept(c.log)
            && |c.log| == |c.received| + |c.buf| + Dropped(c.log)
            && Subsequence(c.received + c.buf, Events(c.log))
  {
    PlayLedger(INIT, actions);
    var c := Play(INIT, actions).chans[ch];
    assert Ledger(c);
    LogCounts(c.log);
    KeptIsSubsequence(c.log);
  }

  /**
   * Delivery with one publisher: between publishes a registered client has received
   * or buffered an in-order subsequence of the events published since it subscribed,
   * and exactly those events if no attempt met a full buffer.
   */
  lemma DeliveryWithOnePublisher(actions: seq<Action>, ch: ChanId)
    requires Schedule(INIT, actions) && OnePublisher(INIT, actions)
    requires ch in Play(INIT, actions).clients && Play(INIT, actions).readers == map[]
    ensures var s := Play(INIT, actions);
            && ch in s.chans && ch in s.joined && s.joined[ch] <= |s.published|
            && var got, since := s.chans[ch].received + s.chans[ch].buf, s.published[s.joined[ch]..];
               && Subsequence(got, since)
               && |since| == |got| + Dropped(s.chans[ch].log)
               && (Dropped(s.chans[ch].log) == 0 ==> got == since)
  {
    var s := Play(INIT, actions);
    PlaySafe(INIT, actions);
    PlayOffers(INIT, actions);
    assert ClientOk(s, ch) && Offers(s, ch) && !Pending(s, ch);
    AttemptsAreAccounted(actions, ch);
    LogCounts(s.chans[ch].log);
  }

  /** A client that has left keeps a prefix: it was offered nothing out of turn. */
  lemma LeaversGotAPrefix(actions: seq<Action>, ch: ChanId)
    requires Schedule(INIT, actions) && OnePublisher(INIT, actions)
    requires ch in Play(INIT, actions).joined
    ensures var s := Play(INIT, actions);
            && ch in s.chans && s.joined[ch] <= |s.published|
            && Events(s.chans[ch].log) <= s.published[s.joined[ch]..]
            && Subsequence(s.chans[ch].received + s.chans[ch].buf, Events(s.chans[ch].log))
  {
    PlayOffers(INIT, actions);
    assert Offers(Play(INIT, actions), ch);
    AttemptsAreAccounted(actions, ch);
  }

  // ---------- what is dropped ----------

  /** Events kept for the client and not yet received when attempt `k` was made. */
  function Unread(log: seq<Attempt>, k: nat): int
    requires k < |log|
  {
    |Kept(log[..k])| - log[k].received
  }

  /** A channel drops exactly when ten events are unread. */
  ghost predicate DropsAtTen(c: Chan) {
    forall k :: 0 <= k < |c.log| ==> 0 <= Unread(c.log, k) && (c.log[k].kept <==> Unread(c.log, k) < 10)
  }

  lemma SendAtTen(c: Chan, e: Event)
    requires Ledger(c) && DropsAtTen(c)
    ensures DropsAtTen(Offered(c, e))
    ensures Offered(c, e).log == c.log + [Attempt(e, |Kept(c.log)| - |c.received| < 10, |c.received|)]
  {
    var log' := Offered(c, e).log;
    assert |c.buf| == |Kept(c.log)| - |c.received| by {
      assert |c.received + c.buf| == |Kept(c.log)|;
    }
    forall k | 0 <= k < |log'| ensures 0 <= Unread(log', k) && (log'[k].kept <==> Unread(log', k) < 10) {
      assert log'[..k] == c.log[..k];
      assert k < |c.log| ==> 0 <= Unread(c.log, k) && (c.log[k].kept <==> Unread(c.log, k) < 10);
      assert c.log[..|c.log|] == c.log;
    }
  }

  lemma {:induction false} PlayDropsAtTen(s: State, actions: seq<Action>, ch: ChanId)
    requires Schedule(s, actions)
    requires forall c :: c in s.chans ==> Ledger(s.chans[c])
    requires ch in s.chans ==> DropsAtTen(s.chans[ch])
    ensures ch in Play(s, actions).chans ==> DropsAtTen(Play(s, actions).chans[ch])
    decreases |actions|
  {
    hide Ledger;
    if actions != [] {
      var a := actions[0];
      StepLedger(s, a);
      if a.Send? && a.ch == ch && ch in s.chans {
        SendAtTen(s.chans[ch], s.readers[a.p].event);
      }
      PlayDropsAtTen(Do(s, a), actions[1..], ch);
    }
  }

  /** In every reachable state, an attempt was kept if and only if fewer than ten kept events were unread just then. */
  lemma KeptExactly(actions: seq<Action>, ch: ChanId, k: nat)
    requires Schedule(INIT, actions) && ch in Play(INIT, actions).chans
    requires k < |Play(INIT, actions).chans[ch].log|
    ensures var log := Play(INIT, actions).chans[ch].log; log[k].kept <==> |Kept(log[..k])| - log[k].received < 10
  {
    PlayDropsAtTen(INIT, actions, ch);
    var log := Play(INIT, actions).chans[ch].log;
    assert log[k].kept <==> Unread(log, k) < 10;
  }

  /** And the next send is recorded as such, with what the client has received by now. */
  lemma NextSendKeepsExactly(actions: seq<Action>, p: Pid, ch: ChanId)
    requires Schedule(INIT, actions) && Enabled(Play(INIT, actions), Send(p, ch))
    ensures var s := Play(INIT, actions);
            && ch in s.chans
            && var c := s.chans[ch];
               Do(s, Send(p, ch)).chans == s.chans[ch := Offered(c, s.readers[p].event)]
               && Offered(c, s.readers[p].event).log
                  == c.log + [Attempt(s.readers[p].event, |Kept(c.log)| - |c.received| < 10, |c.received|)]
  {
    var s := Play(INIT, actions);
    PlaySafe(INIT, actions);
    PlayLedger(INIT, actions);
    PlayDropsAtTen(INIT, actions, ch);
    assert ReaderOk(s, p) && ClientOk(s, ch);
    SendAtTen(s.chans[ch], s.readers[p].event);
  }

  /**
   * With one publisher, between publishes: a registered client has, received or
   * buffered, all events since it subscribed if and only if it never had ten unread
   * when one was sent.
   */
  lemma AllDeliveredExactly(actions: seq<Action>, ch: ChanId)
    requires Schedule(INIT, actions) && OnePublisher(INIT, actions)
    requires ch in Play(INIT, actions).clients && Play(INIT, actions).readers == map[]
    ensures var s := Play(INIT, actions);
            && ch in s.chans && ch in s.joined && s.joined[ch] <= |s.published|
            && var c := s.chans[ch];
               c.received + c.buf == s.published[s.joined[ch]..]
               <==> forall k :: 0 <= k < |c.log| ==> Unread(c.log, k) < 10
  {
    var s := Play(INIT, actions);
    DeliveryWithOnePublisher(actions, ch);
    PlayDropsAtTen(INIT, actions, ch);
    DroppedExactly(s.chans[ch].log);
  }

  lemma {:induction false} DroppedExactly(log: seq<Attempt>)
    ensures Dropped(log) == 0 <==> forall k :: 0 <= k < |log| ==> log[k].kept
  {
    if log != [] {
      var front := log[..|log| - 1];
      DroppedExactly(front);
      assert forall k :: 0 <= k < |front| ==> front[k] == log[k];
    }
  }

  // ---------- publishers do not wait for each other ----------

  /** While nobody holds the lock for writing, any further publisher may start, and none changes another's work. */
  lemma PublishersShare(s: State, p: Pid, event: Event, q: Pid)
    requires Safe(s) && s.writer.None? && p !in s.readers
    ensures Enabled(s, RLock(p, event))
    ensures var s' := Do(s, RLock(p, event));
            && p in s'.readers && s'.readers[p] == Publishing(event, s.clients)
            && (q in s.readers ==> q in s'.readers && s'.readers[q] == s.readers[q])
            && forall ch :: ch in s.clients ==> Enabled(s', Send(p, ch))
  {
  }

  // ---------- the order of the clients does not matter ----------

  /** One publish, run to its end: lock, a send per client in the given order, unlock. */
  function Sends(p: Pid, order: seq<ChanId>): seq<Action> {
    if order == [] then [RUnlock(p)] else [Send(p, order[0])] + Sends(p, order[1..])
  }

  /** An order in which a map iteration can visit the clients: each once. */
  ghost predicate Visits(order: seq<ChanId>, clients: set<ChanId>)
    decreases |order|
  {
    if order == [] then clients == {}
    else order[0] in clients && Visits(order[1..], clients - {order[0]})
  }

  /** The channels after every client in `to` was offered the event. */
  function OfferedTo(chans: map<ChanId, Chan>, to: set<ChanId>, e: Event): map<ChanId, Chan> {
    map ch | ch in chans :: if ch in to then Offered(chans[ch], e) else chans[ch]
  }

  lemma {:induction false} SendsOffer(s: State, p: Pid, order: seq<ChanId>)
    requires Safe(s) && p in s.readers && Visits(order, s.readers[p].todo)
    ensures Schedule(s, Sends(p, order))
    ensures Play(s, Sends(p, order))
            == s.(chans := OfferedTo(s.chans, s.readers[p].todo, s.readers[p].event), readers := s.readers - {p})
    decreases |order|
  {
    var actions := Sends(p, order);
    var job := s.readers[p];
    if order == [] {
      var s' := Do(s, RUnlock(p));
      assert actions[1..] == [] && Schedule(s', []);
      assert OfferedTo(s.chans, {}, job.event) == s.chans;
    } else {
      var ch := order[0];
      assert ReaderOk(s, p) && ClientOk(s, ch);
      StepSafe(s, Send(p, ch));
      var s' := Do(s, Send(p, ch));
      assert actions[0] == Send(p, ch) && actions[1..] == Sends(p, order[1..]);
      SendsOffer(s', p, order[1..]);
      assert OfferedTo(s'.chans, job.todo - {ch}, job.event) == OfferedTo(s.chans, job.todo, job.event);
      assert s'.readers - {p} == s.readers - {p};
    }
  }

  /** Whatever order the map iteration takes, a publish ends in one and the same state. */
  lemma IterationOrderIrrelevant(s: State, p: Pid, event: Event, order: seq<ChanId>, order': seq<ChanId>)
    requires Safe(s) && Enabled(s, RLock(p, event))
    requires Visits(order, s.clients) && Visits(order', s.clients)
    ensures Schedule(s, [RLock(p, event)] + Sends(p, order)) && Schedule(s, [RLock(p, event)] + Sends(p, order'))
    ensures Play(s, [RLock(p, event)] + Sends(p, order)) == Play(s, [RLock(p, event)] + Sends(p, order'))
    ensures Play(s, [RLock(p, event)] + Sends(p, order)).chans == OfferedTo(s.chans, s.clients, event)
  {
    StepSafe(s, RLock(p, event));
    var s' := Do(s, RLock(p, event));
    SendsOffer(s', p, order);
    SendsOffer(s', p, order');
    assert ([RLock(p, event)] + Sends(p, order))[1..] == Sends(p, order);
    assert ([RLock(p, event)] + Sends(p, order'))[1..] == Sends(p, order');
  }
}
