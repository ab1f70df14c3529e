/** The worker pool: a listener and any number of workers around a queue, a mutex and a condition. */
module Workers {
  // A machine over the threads' steps: each is what one thread does between two points where others can
  // get in.  A wait lets go of the mutex and falls asleep in one step, and sleepers may wake for no reason.

  import opened Values
  import Queue

  type Conn = nat

  datatype Listener =
    | Accepting
    | Locking(conn: Conn)
    | Pushing(conn: Conn)
    | Unlocking
    | Signalling
    | Full(conn: Conn)
    | Closed

  datatype Worker =
    | Idle
    | Checking
    | Taken(conn: Conn)
    | Handling(conn: Conn)
    | Asleep
    | Waking
    | Awake

  datatype Owner = Nobody | TheListener | TheWorker(i: nat)

  /** `limit` is one less than the ring's capacity.  The last three fields are history: what has been
    * pushed, popped and handled, in order. */
  datatype Pool = Pool(
    limit: nat,
    queue: seq<Conn>,
    mutex: Owner,
    listener: Listener,
    workers: seq<Worker>,
    pushed: seq<Conn>,
    popped: seq<Conn>,
    handled: seq<Conn>)

  datatype Event =
    | Accept(conn: Conn)
    | AcceptFails
    | LockListener
    | Push
    | UnlockListener
    | Signal(i: nat)
    | SignalNobody
    | Lock(i: nat)
    | Pop(i: nat)
    | Unlock(i: nat)
    | Finish(i: nat)
    | Sleep(i: nat)
    | Spurious(i: nat)
    | Relock(i: nat)

  function Set(p: Pool, i: nat, w: Worker): Pool
    requires i < |p.workers|
  {
    p.(workers := p.workers[i := w])
  }

  predicate Is(p: Pool, i: nat, w: Worker) {
    i < |p.workers| && p.workers[i] == w
  }

  ghost predicate AllAsleep(p: Pool) {
    forall i :: 0 <= i < |p.workers| ==> p.workers[i] == Asleep
  }

  ghost predicate NoneAsleep(p: Pool) {
    forall i :: 0 <= i < |p.workers| ==> p.workers[i] != Asleep
  }

  /** The state after a step; None if the thread cannot take it now. */
  ghost function Step(p: Pool, e: Event): Option<Pool> {
    match e
    case Accept(c) => if p.listener == Accepting then Some(p.(listener := Locking(c))) else None
    case AcceptFails => if p.listener == Accepting then Some(p.(listener := Closed)) else None
    case LockListener =>
      if p.listener.Locking? && p.mutex == Nobody
      then Some(p.(listener := Pushing(p.listener.conn), mutex := TheListener)) else None
    case Push =>
      if !p.listener.Pushing? then None
      else if |p.queue| >= p.limit then Some(p.(listener := Full(p.listener.conn)))
      else Some(p.(queue := p.queue + [p.listener.conn], pushed := p.pushed + [p.listener.conn], listener := Unlocking))
    case UnlockListener => if p.listener == Unlocking then Some(p.(listener := Signalling, mutex := Nobody)) else None
    case Signal(i) =>
      if p.listener == Signalling && Is(p, i, Asleep) then Some(Set(p, i, Waking).(listener := Accepting)) else None
    case SignalNobody =>
      if p.listener == Signalling && NoneAsleep(p) then Some(p.(listener := Accepting)) else None
    case Lock(i) =>
      if Is(p, i, Idle) && p.mutex == Nobody then Some(Set(p, i, Checking).(mutex := TheWorker(i))) else None
    case Pop(i) =>
      if Is(p, i, Checking) && p.queue != []
      then Some(Set(p, i, Taken(p.queue[0])).(queue := p.queue[1..], popped := p.popped + [p.queue[0]])) else None
    case Unlock(i) =>
      if i < |p.workers| && p.workers[i].Taken? then Some(Set(p, i, Handling(p.workers[i].conn)).(mutex := Nobody))
      else if Is(p, i, Awake) then Some(Set(p, i, Idle).(mutex := Nobody))
      else None
    case Finish(i) =>
      if i < |p.workers| && p.workers[i].Handling?
      then Some(Set(p, i, Idle).(handled := p.handled + [p.workers[i].conn])) else None
    case Sleep(i) =>
      if Is(p, i, Checking) && p.queue == [] then Some(Set(p, i, Asleep).(mutex := Nobody)) else None
    case Spurious(i) => if Is(p, i, Asleep) then Some(Set(p, i, Waking)) else None
    case Relock(i) =>
      if Is(p, i, Waking) && p.mutex == Nobody then Some(Set(p, i, Awake).(mutex := TheWorker(i))) else None
  }

  /** All steps of a run, in some interleaving of the threads. */
  ghost function Run(p: Pool, es: seq<Event>): Option<Pool>
    decreases |es|
  {
    if es == [] then Some(p) else
    match Step(p, es[0])
    case None => None
    case Some(q) => Run(q, es[1..])
  }

  predicate Start(p: Pool) {
    && p.queue == [] && p.mutex == Nobody && p.listener == Accepting
    && p.workers != [] && (forall i :: 0 <= i < |p.workers| ==> p.workers[i] == Idle)
    && p.pushed == [] && p.popped == [] && p.handled == []
  }

  // ---------- What every step keeps ----------

  predicate HoldsMutex(w: Worker) {
    w.Checking? || w.Taken? || w.Awake?
  }

  /** The mutex has one owner, and its owner is where the code holds it. */
  ghost predicate Exclusive(p: Pool) {
    && (p.mutex == TheListener <==> p.listener.Pushing? || p.listener == Unlocking || p.listener.Full?)
    && (forall i :: 0 <= i < |p.workers| ==> (p.mutex == TheWorker(i) <==> HoldsMutex(p.workers[i])))
    && (p.mutex.TheWorker? ==> p.mutex.i < |p.workers|)
  }

  /** What was pushed is what was popped and then what is queued. */
  ghost predicate InOrder(p: Pool) {
    p.pushed == p.popped + p.queue && |p.queue| <= p.limit
  }

  /** The connection a worker has in hand. */
  function InHand(w: Worker): multiset<Conn> {
    if w.Taken? || w.Handling? then multiset{w.conn} else multiset{}
  }

  function AllInHand(ws: seq<Worker>): multiset<Conn> {
    if ws == [] then multiset{} else InHand(ws[0]) + AllInHand(ws[1..])
  }

  /** What was popped has been handled, or one worker has it in hand, once. */
  ghost predicate Once(p: Pool) {
    multiset(p.popped) == multiset(p.handled) + AllInHand(p.workers)
  }

  /** If something is queued and every worker sleeps, a signal is on its way. */
  ghost predicate NoLostWakeup(p: Pool) {
    p.queue != [] && AllAsleep(p) ==> p.listener == Unlocking || p.listener == Signalling
  }

  ghost predicate Invariant(p: Pool) {
    p.workers != [] && Exclusive(p) && InOrder(p) && Once(p) && NoLostWakeup(p)
  }

  lemma Reassociate(a: multiset<Conn>, b: multiset<Conn>, c: multiset<Conn>)
    ensures (a + b) + c == a + (b + c)
  {}

  lemma Cancel(a: multiset<Conn>, b: multiset<Conn>, c: multiset<Conn>)
    requires a + c == b + c
    ensures a == b
  {
    forall x ensures a[x] == b[x] {
      assert (a + c)[x] == (b + c)[x];
    }
  }

  lemma {:induction false} InHandSet(ws: seq<Worker>, i: nat, w: Worker)
    requires i < |ws|
    ensures AllInHand(ws[i := w]) + InHand(ws[i]) == AllInHand(ws) + InHand(w)
    decreases |ws|
  {
    hide InHand;
    var rest, all := ws[1..], ws[i := w];
    if i == 0 {
      assert all[1..] == rest;
      SwapFirst(InHand(w), InHand(ws[0]), AllInHand(rest));
    } else {
      assert all[1..] == rest[i - 1 := w] && all[0] == ws[0];
      InHandSet(rest, i - 1, w);
      Reassociate(InHand(ws[0]), AllInHand(rest[i - 1 := w]), InHand(ws[i]));
      Reassociate(InHand(ws[0]), AllInHand(rest), InHand(w));
    }
  }

  lemma SwapFirst(a: multiset<Conn>, b: multiset<Conn>, c: multiset<Conn>)
    ensures (a + c) + b == (b + c) + a
  {}

  lemma {:induction false} ListenerExclusive(p: Pool, e: Event)
    requires Exclusive(p) && Step(p, e).Some?
    requires e.Accept? || e.AcceptFails? || e.LockListener? || e.Push? || e.UnlockListener? || e.SignalNobody?
    ensures Exclusive(Step(p, e).value)
  {}

  lemma {:induction false} HandExclusive(p: Pool, e: Event)
    requires Exclusive(p) && Step(p, e).Some? && (e.Signal? || e.Pop? || e.Finish? || e.Spurious?)
    ensures Exclusive(Step(p, e).value)
  {}

  lemma {:induction false} MutexExclusive(p: Pool, e: Event)
    requires Exclusive(p) && Step(p, e).Some? && (e.Lock? || e.Unlock? || e.Sleep? || e.Relock?)
    ensures Exclusive(Step(p, e).value)
  {}

  lemma {:induction false} ExclusiveKept(p: Pool, e: Event)
    requires Exclusive(p) && Step(p, e).Some?
    ensures Exclusive(Step(p, e).value)
  {
    hide Exclusive, Step;
    if e.Signal? || e.Pop? || e.Finish? || e.Spurious? {
      HandExclusive(p, e);
    } else if e.Lock? || e.Unlock? || e.Sleep? || e.Relock? {
      MutexExclusive(p, e);
    } else {
      ListenerExclusive(p, e);
    }
  }

  lemma {:induction false} InOrderKept(p: Pool, e: Event)
    requires InOrder(p) && Step(p, e).Some?
    ensures InOrder(Step(p, e).value)
  {
    if e.Pop? {
      assert p.popped + p.queue == p.popped + [p.queue[0]] + p.queue[1..];
    }
  }

  /** A step that moves one worker and leaves what it has in hand. */
  lemma {:induction false} SameHand(p: Pool, q: Pool, i: nat, w: Worker)
    requires Once(p) && i < |p.workers| && InHand(w) == InHand(p.workers[i])
    requires q.workers == p.workers[i := w] && q.popped == p.popped && q.handled == p.handled
    ensures Once(q)
  {
    InHandSet(p.workers, i, w);
    Cancel(AllInHand(q.workers), AllInHand(p.workers), InHand(w));
  }

  lemma {:induction false} PopOnce(p: Pool, i: nat)
    requires Once(p) && Is(p, i, Checking) && p.queue != []
    ensures Once(Step(p, Event.Pop(i)).value)
  {
    hide AllInHand;
    var c := p.queue[0];
    InHandSet(p.workers, i, Taken(c));
    var all := AllInHand(p.workers[i := Taken(c)]);
    assert all + multiset{} == all;
    Reassociate(multiset(p.handled), AllInHand(p.workers), multiset{c});
    assert multiset(p.popped + [c]) == multiset(p.popped) + multiset{c};
  }

  lemma {:induction false} FinishOnce(p: Pool, i: nat)
    requires Once(p) && i < |p.workers| && p.workers[i].Handling?
    ensures Once(Step(p, Finish(i)).value)
  {
    hide AllInHand;
    var c := p.workers[i].conn;
    InHandSet(p.workers, i, Idle);
    var all := AllInHand(p.workers[i := Idle]);
    assert AllInHand(p.workers) + multiset{} == AllInHand(p.workers);
    assert multiset(p.handled + [c]) == multiset(p.handled) + multiset{c};
    SwapFirst(multiset(p.handled), multiset{c}, all);
    Reassociate(multiset(p.handled), all, multiset{c});
    SwapLast(multiset(p.handled), multiset{c}, all);
  }

  lemma SwapLast(a: multiset<Conn>, b: multiset<Conn>, c: multiset<Conn>)
    ensures (a + b) + c == (a + c) + b
  {}

  /** A step that leaves what workers have in hand, moving the i-th at most. */
  ghost predicate HandsKept(p: Pool, q: Pool, i: nat) {
    && q.popped == p.popped && q.handled == p.handled
    && (q.workers == p.workers
        || (i < |p.workers| && |q.workers| == |p.workers| && q.workers == p.workers[i := q.workers[i]]
            && InHand(q.workers[i]) == InHand(p.workers[i])))
  }

  lemma {:induction false} ListenerKeepsHands(p: Pool, e: Event)
    requires Step(p, e).Some?
    requires e.Accept? || e.AcceptFails? || e.LockListener? || e.Push? || e.UnlockListener? || e.SignalNobody?
    ensures HandsKept(p, Step(p, e).value, 0)
  {}

  /** What a worker's step leaves, the worker itself apart. */
  lemma {:induction false} WorkerMoves(p: Pool, e: Event)
    requires Step(p, e).Some?
    requires e.Signal? || e.Lock? || e.Unlock? || e.Sleep? || e.Spurious? || e.Relock?
    ensures var q := Step(p, e).value;
      && e.i < |p.workers| == |q.workers| && q.popped == p.popped && q.handled == p.handled
      && q.workers == p.workers[e.i := q.workers[e.i]]
  {}

  lemma {:induction false} HandStays(p: Pool, e: Event)
    requires Step(p, e).Some? && (e.Signal? || e.Lock? || e.Unlock? || e.Sleep? || e.Spurious? || e.Relock?)
    ensures e.i < |p.workers| == |Step(p, e).value.workers|
    ensures InHand(Step(p, e).value.workers[e.i]) == InHand(p.workers[e.i])
  {
    var w, v := p.workers[e.i], Step(p, e).value.workers[e.i];
    if w.Taken? {
      assert v == Handling(w.conn);
    } else {
      assert !w.Handling? && !v.Taken? && !v.Handling?;
    }
  }

  lemma {:induction false} WorkerKeepsHands(p: Pool, e: Event)
    requires Step(p, e).Some?
    requires e.Signal? || e.Lock? || e.Unlock? || e.Sleep? || e.Spurious? || e.Relock?
    ensures HandsKept(p, Step(p, e).value, e.i)
  {
    hide Step, InHand;
    WorkerMoves(p, e);
    HandStays(p, e);
  }

  lemma {:induction false} HandsStillOnce(p: Pool, q: Pool, i: nat)
    requires Once(p) && HandsKept(p, q, i)
    ensures Once(q)
  {
    if q.workers != p.workers {
      SameHand(p, q, i, q.workers[i]);
    }
  }

  lemma {:induction false} OnceKept(p: Pool, e: Event)
    requires Once(p) && Step(p, e).Some?
    ensures Once(Step(p, e).value)
  {
    hide Once, AllInHand, HandsKept;
    if e.Pop? {
      PopOnce(p, e.i);
    } else if e.Finish? {
      FinishOnce(p, e.i);
    } else if e.Signal? || e.Lock? || e.Unlock? || e.Sleep? || e.Spurious? || e.Relock? {
      WorkerKeepsHands(p, e);
      HandsStillOnce(p, Step(p, e).value, e.i);
    } else {
      ListenerKeepsHands(p, e);
      HandsStillOnce(p, Step(p, e).value, 0);
    }
  }

  lemma {:induction false} NoLostWakeupKept(p: Pool, e: Event)
    requires p.workers != [] && Exclusive(p) && NoLostWakeup(p) && Step(p, e).Some?
    ensures NoLostWakeup(Step(p, e).value)
  {
    var q := Step(p, e).value;
    if q.workers == p.workers {
      assert AllAsleep(q) ==> AllAsleep(p) && p.workers[0] == Asleep;
    } else {
      assert q.workers[e.i] == Asleep ==> e.Sleep?;
    }
  }

  lemma {:induction false} StepKeeps(p: Pool, e: Event)
    requires Invariant(p) && Step(p, e).Some?
    ensures Invariant(Step(p, e).value)
  {
    hide Step, Exclusive, InOrder, Once, NoLostWakeup;
    ExclusiveKept(p, e);
    InOrderKept(p, e);
    OnceKept(p, e);
    NoLostWakeupKept(p, e);
    SomeWorkers(p, e);
  }

  lemma SomeWorkers(p: Pool, e: Event)
    requires Step(p, e).Some?
    ensures |Step(p, e).value.workers| == |p.workers|
  {}

  lemma {:induction false} RunKeeps(p: Pool, es: seq<Event>)
    requires Invariant(p) && Run(p, es).Some?
    ensures Invariant(Run(p, es).value)
    decreases |es|
  {
    if es != [] {
      StepKeeps(p, es[0]);
      RunKeeps(Step(p, es[0]).value, es[1..]);
    }
  }

  lemma {:induction false} NothingInHand(ws: seq<Worker>)
    requires forall i :: 0 <= i < |ws| ==> ws[i] == Idle
    ensures AllInHand(ws) == multiset{}
    decreases |ws|
  {
    if ws != [] {
      NothingInHand(ws[1..]);
    }
  }

  lemma {:induction false} StartInvariant(p: Pool)
    requires Start(p)
    ensures Invariant(p)
  {
    NothingInHand(p.workers);
  }

  // ---------- From the network to the queue ----------

  /** The connections a run accepts, in order. */
  function Accepted(es: seq<Event>): seq<Conn> {
    if es == [] then [] else (if es[0].Accept? then [es[0].conn] else []) + Accepted(es[1..])
  }

  /** The connection the listener has accepted and not pushed: not yet, or never, if the queue was full. */
  function Carried(p: Pool): seq<Conn> {
    if p.listener.Locking? || p.listener.Pushing? || p.listener.Full? then [p.listener.conn] else []
  }

  lemma {:induction false} CarriedKept(p: Pool, e: Event)
    requires Step(p, e).Some?
    ensures var q := Step(p, e).value;
      q.pushed + Carried(q) == p.pushed + Carried(p) + (if e.Accept? then [e.conn] else [])
  {}

  /** What is accepted is pushed in order, and the listener carries the rest. */
  lemma {:induction false} AcceptedPushed(p: Pool, es: seq<Event>)
    requires Run(p, es).Some?
    ensures var q := Run(p, es).value; q.pushed + Carried(q) == p.pushed + Carried(p) + Accepted(es)
    decreases |es|
  {
    hide Step, Carried;
    if es != [] {
      CarriedKept(p, es[0]);
      AcceptedPushed(Step(p, es[0]).value, es[1..]);
    }
  }

  /** In every interleaving: connections are popped in the order they were accepted, none lost on the way,
    * each is handled by one worker once, and no wakeup is lost. */
  lemma {:induction false} EveryRun(p: Pool, es: seq<Event>)
    requires Start(p) && Run(p, es).Some?
    ensures var q := Run(p, es).value;
      && Accepted(es) == q.popped + q.queue + Carried(q) && |q.queue| <= q.limit
      && multiset(q.popped) == multiset(q.handled) + AllInHand(q.workers)
      && q.pushed == q.popped + q.queue && NoLostWakeup(q) && Exclusive(q)
  {
    StartInvariant(p);
    RunKeeps(p, es);
    AcceptedPushed(p, es);
    assert p.pushed + Carried(p) + Accepted(es) == Accepted(es);
  }

  // ---------- Who can go on ----------

  predicate OfWorker(e: Event, i: nat) {
    (e.Lock? || e.Pop? || e.Unlock? || e.Finish? || e.Sleep? || e.Spurious? || e.Relock?) && e.i == i
  }

  predicate OfListener(e: Event) {
    e.Accept? || e.AcceptFails? || e.LockListener? || e.Push? || e.UnlockListener? || e.Signal? || e.SignalNobody?
  }

  /** A worker waits for the mutex and for nothing else: one that sleeps may wake at any time. */
  lemma {:induction false} WorkerWaits(p: Pool, i: nat)
    requires i < |p.workers|
    ensures (exists e :: OfWorker(e, i) && Step(p, e).Some?) <==>
            (p.workers[i] == Idle || p.workers[i] == Waking ==> p.mutex == Nobody)
  {
    var e := match p.workers[i]
      case Idle => Event.Lock(i)
      case Checking => if p.queue == [] then Sleep(i) else Event.Pop(i)
      case Taken(_) => Event.Unlock(i)
      case Handling(_) => Finish(i)
      case Asleep => Spurious(i)
      case Waking => Relock(i)
      case Awake => Event.Unlock(i);
    if p.workers[i] == Idle || p.workers[i] == Waking ==> p.mutex == Nobody {
      assert OfWorker(e, i) && Step(p, e).Some?;
    }
  }

  /** The listener waits for the mutex too, and stops for good only when `accept` failed or the queue was
    * full. */
  lemma {:induction false} ListenerWaits(p: Pool)
    ensures (exists e :: OfListener(e) && Step(p, e).Some?) <==>
            !p.listener.Full? && p.listener != Closed && (p.listener.Locking? ==> p.mutex == Nobody)
  {
    if !p.listener.Full? && p.listener != Closed && (p.listener.Locking? ==> p.mutex == Nobody) {
      if p.listener == Signalling {
        SomeSignal(p);
      } else {
        var e := if p.listener == Accepting then Accept(0) else if p.listener.Locking? then LockListener
                 else if p.listener.Pushing? then Event.Push else UnlockListener;
        assert OfListener(e) && Step(p, e).Some?;
      }
    }
  }

  lemma SomeSignal(p: Pool)
    requires p.listener == Signalling
    ensures exists e :: OfListener(e) && Step(p, e).Some?
  {
    if i :| 0 <= i < |p.workers| && p.workers[i] == Asleep {
      assert OfListener(Signal(i)) && Step(p, Signal(i)).Some?;
    } else {
      assert OfListener(SignalNobody) && Step(p, SignalNobody).Some?;
    }
  }

  // ---------- The full queue ----------

  /** The listener has the mutex and is about to find the queue full, or has found it full. */
  predicate Doomed(p: Pool) {
    p.listener.Full? || (p.listener.Pushing? && |p.queue| >= p.limit)
  }

  lemma {:induction false} DoomedStep(p: Pool, e: Event)
    requires Exclusive(p) && Doomed(p) && Step(p, e).Some?
    ensures var q := Step(p, e).value;
      Doomed(q) && q.queue == p.queue && q.popped == p.popped && q.pushed == p.pushed
  {}

  /** When the queue is full the listener returns with the mutex held: from then on nothing is popped
    * or pushed again, whatever the workers do. */
  lemma {:induction false} DoomedForever(p: Pool, es: seq<Event>)
    requires Exclusive(p) && Doomed(p) && Run(p, es).Some?
    ensures var q := Run(p, es).value;
      Doomed(q) && q.queue == p.queue && q.popped == p.popped && q.pushed == p.pushed
    decreases |es|
  {
    if es != [] {
      ExclusiveKept(p, es[0]);
      DoomedStep(p, es[0]);
      DoomedForever(Step(p, es[0]).value, es[1..]);
    }
  }

  // ---------- Otherwise the pool can always go on ----------

  lemma {:induction false} RunConcat(p: Pool, a: seq<Event>, b: seq<Event>)
    requires Run(p, a).Some?
    ensures Run(p, a + b) == Run(Run(p, a).value, b)
    decreases |a|
  {
    if a == [] {
      assert a + b == b;
    } else {
      assert (a + b)[0] == a[0] && (a + b)[1..] == a[1..] + b;
      RunConcat(Step(p, a[0]).value, a[1..], b);
    }
  }

  lemma RunOne(p: Pool, e: Event)
    ensures Run(p, [e]) == Step(p, e)
  {
    assert [e][1..] == [];
  }

  lemma RunCons(p: Pool, e: Event, es: seq<Event>)
    requires Step(p, e).Some?
    ensures Run(p, [e] + es) == Run(Step(p, e).value, es)
  {
    assert ([e] + es)[1..] == es;
  }

  // ---------- The full queue is reached ----------

  /** One connection from the network into the queue, with nobody asleep to signal to. */
  const ONE_IN: seq<Event> := [Accept(0), LockListener, Event.Push, UnlockListener, SignalNobody]

  /** As many connections as given, before any worker gets the mutex. */
  function ManyIn(n: nat): seq<Event> {
    if n == 0 then [] else ONE_IN + ManyIn(n - 1)
  }

  /** Nobody has started yet, but for the listener. */
  ghost predicate Quiet(p: Pool) {
    p.mutex == Nobody && p.listener == Accepting && NoneAsleep(p)
  }

  lemma {:induction false} OneIn(p: Pool)
    requires Quiet(p) && |p.queue| < p.limit
    ensures Run(p, ONE_IN).Some?
    ensures var q := Run(p, ONE_IN).value; Quiet(q) && q.limit == p.limit && |q.queue| == |p.queue| + 1
  {
    var p1 := Step(p, Accept(0)).value;
    var p2 := Step(p1, LockListener).value;
    var p3 := Step(p2, Event.Push).value;
    var p4 := Step(p3, UnlockListener).value;
    RunOne(p4, SignalNobody);
    RunCons(p3, UnlockListener, [SignalNobody]);
    RunCons(p2, Event.Push, [UnlockListener] + [SignalNobody]);
    RunCons(p1, LockListener, [Event.Push] + ([UnlockListener] + [SignalNobody]));
    RunCons(p, Accept(0), [LockListener] + ([Event.Push] + ([UnlockListener] + [SignalNobody])));
    assert ONE_IN == [Accept(0)] + ([LockListener] + ([Event.Push] + ([UnlockListener] + [SignalNobody])));
  }

  lemma {:induction false} ManyCome(p: Pool, n: nat)
    requires Quiet(p) && |p.queue| + n <= p.limit
    ensures Run(p, ManyIn(n)).Some?
    ensures var q := Run(p, ManyIn(n)).value; Quiet(q) && q.limit == p.limit && |q.queue| == |p.queue| + n
    decreases n
  {
    hide Quiet, Step;
    if n > 0 {
      OneIn(p);
      ManyCome(Run(p, ONE_IN).value, n - 1);
      RunConcat(p, ONE_IN, ManyIn(n - 1));
    }
  }

  /** One connection more than fits. */
  function Overflow(limit: nat): seq<Event> {
    ManyIn(limit) + [Accept(0), LockListener, Event.Push]
  }

  lemma {:induction false} OneTooMany(p: Pool)
    requires Quiet(p) && |p.queue| >= p.limit
    ensures Run(p, [Accept(0), LockListener, Event.Push]).Some?
    ensures var q := Run(p, [Accept(0), LockListener, Event.Push]).value;
      q.listener.Full? && q.mutex == TheListener && q.queue == p.queue
  {
    var p1 := Step(p, Accept(0)).value;
    var p2 := Step(p1, LockListener).value;
    RunOne(p2, Event.Push);
    RunCons(p1, LockListener, [Event.Push]);
    RunCons(p, Accept(0), [LockListener] + [Event.Push]);
    assert [Accept(0), LockListener, Event.Push] == [Accept(0)] + ([LockListener] + [Event.Push]);
  }

  /** For every capacity and every number of workers that happens: a burst of connections before the
    * first worker runs, and the listener has returned with the mutex held and a full queue. */
  lemma {:induction false} DoomReached(p: Pool)
    requires Start(p)
    ensures Run(p, Overflow(p.limit)).Some?
    ensures var q := Run(p, Overflow(p.limit)).value;
      && Doomed(q) && q.listener.Full? && q.mutex == TheListener && |q.queue| == p.limit
      && (p.limit > 0 ==> q.queue != [])
  {
    ManyCome(p, p.limit);
    hide Step, Start;
    RunConcat(p, ManyIn(p.limit), [Accept(0), LockListener, Event.Push]);
    OneTooMany(Run(p, ManyIn(p.limit)).value);
  }

  /** No new connection comes in. */
  ghost predicate NoAccept(es: seq<Event>) {
    forall k :: 0 <= k < |es| ==> !es[k].Accept?
  }

  /** The oldest queued connection has been popped next. */
  ghost predicate Popped(p: Pool, q: Pool) {
    p.queue != [] && q.popped == p.popped + [p.queue[0]]
  }

  /** The oldest queued connection is still there, and the mutex is free. */
  ghost predicate Freed(p: Pool, q: Pool) {
    p.queue != [] && q.queue != [] && q.queue[0] == p.queue[0] && q.popped == p.popped && q.mutex == Nobody
  }

  lemma {:induction false} FreeMutex(p: Pool) returns (es: seq<Event>)
    requires Invariant(p) && p.queue != [] && !Doomed(p)
    ensures Run(p, es).Some? && (Popped(p, Run(p, es).value) || Freed(p, Run(p, es).value))
    ensures NoAccept(es)
  {
    match p.mutex
    case Nobody => es := [];
    case TheListener =>
      RunOne(if p.listener.Pushing? then Step(p, Push).value else p, UnlockListener);
      if p.listener.Pushing? {
        RunCons(p, Push, [UnlockListener]);
        es := [Push] + [UnlockListener];
      } else {
        es := [UnlockListener];
      }
    case TheWorker(i) =>
      assert HoldsMutex(p.workers[i]);
      if p.workers[i].Checking? {
        RunOne(p, Event.Pop(i));
        es := [Event.Pop(i)];
      } else {
        RunOne(p, Event.Unlock(i));
        es := [Event.Unlock(i)];
      }
  }

  lemma {:induction false} LockAndPop(p: Pool, i: nat) returns (es: seq<Event>)
    requires p.queue != [] && p.mutex == Nobody && Is(p, i, Idle)
    ensures Run(p, es).Some? && Popped(p, Run(p, es).value) && NoAccept(es)
  {
    var q := Step(p, Event.Lock(i)).value;
    RunOne(q, Event.Pop(i));
    RunCons(p, Event.Lock(i), [Event.Pop(i)]);
    es := [Event.Lock(i)] + [Event.Pop(i)];
  }

  lemma {:induction false} WakeAndPop(p: Pool, i: nat) returns (es: seq<Event>)
    requires p.queue != [] && p.mutex == Nobody && Is(p, i, Waking)
    ensures Run(p, es).Some? && Popped(p, Run(p, es).value) && NoAccept(es)
  {
    var q := Step(p, Event.Relock(i)).value;
    var r := Step(q, Event.Unlock(i)).value;
    var rest := LockAndPop(r, i);
    RunCons(q, Event.Unlock(i), rest);
    RunCons(p, Event.Relock(i), [Event.Unlock(i)] + rest);
    es := [Event.Relock(i)] + ([Event.Unlock(i)] + rest);
  }

  /** A worker that is not asleep gets to the queue. */
  lemma {:induction false} SomeoneUp(p: Pool, i: nat) returns (es: seq<Event>)
    requires Exclusive(p) && p.queue != [] && p.mutex == Nobody && i < |p.workers| && p.workers[i] != Asleep
    ensures Run(p, es).Some? && Popped(p, Run(p, es).value) && NoAccept(es)
  {
    assert !HoldsMutex(p.workers[i]);
    if p.workers[i].Handling? {
      var q := Step(p, Event.Finish(i)).value;
      var rest := LockAndPop(q, i);
      RunCons(p, Event.Finish(i), rest);
      es := [Event.Finish(i)] + rest;
    } else if p.workers[i] == Waking {
      es := WakeAndPop(p, i);
    } else {
      es := LockAndPop(p, i);
    }
  }

  lemma {:induction false} FreePool(p: Pool) returns (es: seq<Event>)
    requires Invariant(p) && p.queue != [] && p.mutex == Nobody
    ensures Run(p, es).Some? && Popped(p, Run(p, es).value) && NoAccept(es)
  {
    if AllAsleep(p) {
      var q := Step(p, Event.Signal(0)).value;
      StepKeeps(p, Event.Signal(0));
      var rest := WakeAndPop(q, 0);
      RunCons(p, Event.Signal(0), rest);
      es := [Event.Signal(0)] + rest;
    } else {
      var i :| 0 <= i < |p.workers| && p.workers[i] != Asleep;
      es := SomeoneUp(p, i);
    }
  }

  /** What is queued can be popped, without any new connection coming in, exactly when the listener is
    * not on the way to giving up with the mutex held. */
  lemma {:induction false} QueuedCanBePopped(p: Pool)
    requires Invariant(p) && p.queue != []
    ensures !Doomed(p) <==> exists es: seq<Event> :: Run(p, es).Some? && Popped(p, Run(p, es).value) && NoAccept(es)
  {
    if Doomed(p) {
      forall es: seq<Event> | Run(p, es).Some? ensures !Popped(p, Run(p, es).value) {
        DoomedForever(p, es);
        assert |p.popped + [p.queue[0]]| != |p.popped|;
      }
    } else {
      var first := FreeMutex(p);
      var q := Run(p, first).value;
      if !Popped(p, q) {
        RunKeeps(p, first);
        var rest := FreePool(q);
        RunConcat(p, first, rest);
        var es := first + rest;
        assert Run(p, es).Some? && Popped(p, Run(p, es).value) && NoAccept(es);
      }
    }
  }

  // ---------- And it is popped, under every schedule ----------

  /** How many steps a worker takes to its next look at the queue, at most. */
  function WorkerLeft(w: Worker): nat {
    match w
    case Checking => 1
    case Idle => 2
    case Handling(_) => 3
    case Awake => 3
    case Taken(_) => 4
    case Waking => 4
    case Asleep => 5
  }

  function WorkersLeft(ws: seq<Worker>): (n: nat)
    ensures n <= 5 * |ws|
  {
    if ws == [] then 0 else WorkerLeft(ws[0]) + WorkersLeft(ws[1..])
  }

  function ListenerLeft(l: Listener): nat {
    match l
    case Unlocking => 4
    case Signalling => 3
    case Accepting => 2
    case Locking(_) => 1
    case _ => 0
  }

  /** How many steps all threads together can take without a pop, at most: every time the listener
    * comes round it has taken up room in the queue. */
  function Left(p: Pool): (n: nat)
    requires |p.queue| <= p.limit
    ensures n <= Most(p)
  {
    5 * (p.limit - |p.queue|) + ListenerLeft(p.listener) + WorkersLeft(p.workers)
  }

  function Most(p: Pool): nat {
    5 * p.limit + 4 + 5 * |p.workers|
  }

  lemma {:induction false} LeftSet(ws: seq<Worker>, i: nat, w: Worker)
    requires i < |ws|
    ensures WorkersLeft(ws[i := w]) == WorkersLeft(ws) - WorkerLeft(ws[i]) + WorkerLeft(w)
    decreases |ws|
  {
    hide WorkerLeft;
    if i == 0 {
      assert ws[i := w][1..] == ws[1..];
    } else {
      assert ws[i := w][1..] == ws[1..][i - 1 := w] && ws[i := w][0] == ws[0];
      LeftSet(ws[1..], i - 1, w);
    }
  }

  lemma {:induction false} ListenerUses(p: Pool, e: Event)
    requires Step(p, e).Some? && |p.queue| <= p.limit && !Doomed(Step(p, e).value)
    requires e.Accept? || e.AcceptFails? || e.LockListener? || e.Push? || e.UnlockListener? || e.SignalNobody?
    ensures Step(p, e).value.workers == p.workers && |Step(p, e).value.queue| <= p.limit
    ensures Left(Step(p, e).value) < Left(p)
  {
    hide WorkersLeft;
  }

  lemma {:induction false} WorkerUses(p: Pool, e: Event)
    requires Step(p, e).Some? && |p.queue| <= p.limit && p.queue != []
    requires e.Signal? || e.Lock? || e.Unlock? || e.Finish? || e.Sleep? || e.Spurious? || e.Relock?
    ensures Step(p, e).value.queue == p.queue && Left(Step(p, e).value) < Left(p)
  {
    hide WorkersLeft;
    var q := Step(p, e).value;
    LeftSet(p.workers, e.i, q.workers[e.i]);
    assert q.workers == p.workers[e.i := q.workers[e.i]];
  }

  /** Where nothing is popped, every step uses up one that was left. */
  lemma {:induction false} StepUses(p: Pool, e: Event)
    requires Step(p, e).Some? && |p.queue| <= p.limit && p.queue != [] && !e.Pop? && !Doomed(Step(p, e).value)
    ensures var q := Step(p, e).value;
      && q.queue != [] && q.queue[0] == p.queue[0] && q.popped == p.popped
      && |q.queue| <= q.limit == p.limit && Left(q) < Left(p)
  {
    hide Left, Doomed;
    if e.Signal? || e.Lock? || e.Unlock? || e.Finish? || e.Sleep? || e.Spurious? || e.Relock? {
      WorkerUses(p, e);
    } else {
      ListenerUses(p, e);
    }
  }

  /** What has been pushed and popped stays so. */
  lemma {:induction false} HistoryGrows(p: Pool, es: seq<Event>)
    requires Run(p, es).Some?
    ensures var q := Run(p, es).value;
      && p.popped <= q.popped && p.pushed <= q.pushed && q.limit == p.limit && |q.workers| == |p.workers|
    decreases |es|
  {
    if es != [] {
      var p1 := Step(p, es[0]).value;
      assert p.popped <= p1.popped && p.pushed <= p1.pushed;
      HistoryGrows(p1, es[1..]);
    }
  }

  /** No run is longer than that without popping the oldest connection, whoever takes the steps. */
  lemma {:induction false} NextIsPopped(p: Pool, es: seq<Event>)
    requires Invariant(p) && p.queue != [] && Run(p, es).Some? && Left(p) < |es| && !Doomed(Run(p, es).value)
    ensures p.popped + [p.queue[0]] <= Run(p, es).value.popped
    decreases |es|
  {
    hide Exclusive, Once, NoLostWakeup, Left, Doomed;
    var e, rest := es[0], es[1..];
    var p1 := Step(p, e).value;
    StepKeeps(p, e);
    if e.Pop? {
      HistoryGrows(p1, rest);
    } else {
      if Doomed(p1) {
        DoomedForever(p1, rest);
      }
      StepUses(p, e);
      NextIsPopped(p1, rest);
    }
  }

  lemma {:induction false} RunSplit(p: Pool, es: seq<Event>, n: nat)
    requires Run(p, es).Some? && n <= |es|
    ensures Run(p, es[..n]).Some? && Run(p, es) == Run(Run(p, es[..n]).value, es[n..])
    decreases n
  {
    if n == 0 {
      assert es[n..] == es;
    } else {
      assert es[..n][0] == es[0] && es[..n][1..] == es[1..][..n - 1] && es[n..] == es[1..][n - 1..];
      RunSplit(Step(p, es[0]).value, es[1..], n - 1);
    }
  }

  lemma Shares(n: nat, j: nat, k: nat)
    requires 1 <= j <= n
    ensures k <= n * k && (n - j) * k <= n * k - k
  {
    assert n * k == k + (n - 1) * k && (n - 1) * k == (j - 1) * k + (n - j) * k;
  }

  lemma {:induction false} ManyPopped(p: Pool, es: seq<Event>, n: nat)
    requires Invariant(p) && n <= |p.queue| && Run(p, es).Some? && n * (Most(p) + 1) <= |es|
    requires !Doomed(Run(p, es).value)
    ensures |p.popped| + n <= |Run(p, es).value.popped|
    decreases n
  {
    hide Exclusive, Once, NoLostWakeup, Run, Step, Doomed;
    HistoryGrows(p, es);
    if n > 0 {
      var k := Most(p) + 1;
      Shares(n, 1, k);
      RunSplit(p, es, k);
      var q, rest := Run(p, es[..k]).value, es[k..];
      RunKeeps(p, es[..k]);
      HistoryGrows(p, es[..k]);
      HistoryGrows(q, rest);
      if Doomed(q) {
        DoomedForever(q, rest);
      }
      NextIsPopped(p, es[..k]);
      var j := |q.popped| - |p.popped|;
      if j < n {
        Shares(n, j, k);
        ManyPopped(q, rest, n - j);
      }
    }
  }

  /** Off the full path no schedule starves anybody: after so many steps, of whichever threads, all that
    * was queued has been popped, in order. */
  lemma {:induction false} AllServed(p: Pool, es: seq<Event>)
    requires Invariant(p) && Run(p, es).Some? && |p.queue| * (Most(p) + 1) <= |es| && !Doomed(Run(p, es).value)
    ensures p.popped + p.queue <= Run(p, es).value.popped
  {
    ManyPopped(p, es, |p.queue|);
    HistoryGrows(p, es);
    RunKeeps(p, es);
    var q := Run(p, es).value;
    assert p.pushed <= q.popped + q.queue;
  }

  // ---------- Endless schedules ----------

  /** What no thread has to do: the network's steps, and wakeups for no reason. */
  predicate Outside(e: Event) {
    e.Accept? || e.AcceptFails? || e.Spurious?
  }

  /** An endless run; at each point one thread takes a step, or none does. */
  ghost predicate Schedule(run: nat -> Pool, what: nat -> Option<Event>) {
    forall n: nat ::
      if what(n).None? then run(n + 1) == run(n) else Step(run(n), what(n).value) == Some(run(n + 1))
  }

  ghost predicate AlwaysCan(run: nat -> Pool, n: nat, e: Event) {
    forall m: nat :: n <= m ==> Step(run(m), e).Some?
  }

  ghost predicate Takes(what: nat -> Option<Event>, n: nat, e: Event) {
    exists m: nat :: n <= m && what(m) == Some(e)
  }

  /** A step that a thread can take from some point on for ever is taken. */
  ghost predicate WeaklyFair(run: nat -> Pool, what: nat -> Option<Event>) {
    forall n: nat, e: Event :: !Outside(e) && AlwaysCan(run, n, e) ==> Takes(what, n, e)
  }

  /** While something is queued, some thread can go on by itself. */
  lemma {:induction false} SomeoneCan(p: Pool) returns (e: Event)
    requires Invariant(p) && p.queue != [] && !Doomed(p)
    ensures Step(p, e).Some? && !Outside(e)
  {
    match p.mutex
    case TheListener => e := if p.listener.Pushing? then Event.Push else UnlockListener;
    case TheWorker(i) =>
      assert HoldsMutex(p.workers[i]);
      e := if p.workers[i].Checking? then Event.Pop(i) else Event.Unlock(i);
    case Nobody =>
      if AllAsleep(p) {
        e := Signal(0);
      } else {
        var i :| 0 <= i < |p.workers| && p.workers[i] != Asleep;
        assert !HoldsMutex(p.workers[i]);
        e := if p.workers[i].Handling? then Finish(i) else if p.workers[i] == Waking then Relock(i) else Event.Lock(i);
      }
  }

  lemma {:induction false} Stutters(run: nat -> Pool, what: nat -> Option<Event>, n: nat, m: nat)
    requires Schedule(run, what) && n <= m && forall k :: n <= k < m ==> what(k).None?
    ensures run(m) == run(n)
    decreases m
  {
    if n < m {
      Stutters(run, what, n, m - 1);
      assert what(m - 1).None? && run((m - 1) + 1) == run(m - 1);
    }
  }

  lemma {:induction false} FirstStep(run: nat -> Pool, what: nat -> Option<Event>, n: nat, m: nat) returns (k: nat)
    requires Schedule(run, what) && n <= m && what(m).Some?
    ensures n <= k && what(k).Some? && run(k) == run(n)
    decreases m
  {
    if j :| n <= j < m && what(j).Some? {
      k := FirstStep(run, what, n, j);
    } else {
      k := m;
      Stutters(run, what, n, m);
    }
  }

  lemma {:induction false} StaysAble(run: nat -> Pool, what: nat -> Option<Event>, n: nat, e: Event)
    requires Schedule(run, what) && Step(run(n), e).Some? && forall m: nat :: n <= m ==> what(m).None?
    ensures AlwaysCan(run, n, e)
  {
    hide Step;
    forall m: nat | n <= m ensures Step(run(m), e).Some? {
      Stutters(run, what, n, m);
    }
  }

  /** A fair schedule does not stop while something is queued. */
  lemma {:induction false} GoesOn(run: nat -> Pool, what: nat -> Option<Event>, n: nat) returns (k: nat)
    requires Schedule(run, what) && WeaklyFair(run, what) && Invariant(run(n)) && run(n).queue != [] && !Doomed(run(n))
    ensures n <= k && what(k).Some? && run(k) == run(n)
  {
    var e := SomeoneCan(run(n));
    hide Invariant, Doomed, Step, Outside;
    if m: nat :| n <= m && what(m).Some? {
      k := FirstStep(run, what, n, m);
    } else {
      StaysAble(run, what, n, e);
      assert false;
    }
  }

  /** A fair schedule pops the oldest connection, or ends up on the full path. */
  lemma {:induction false} NextServed(run: nat -> Pool, what: nat -> Option<Event>, n: nat) returns (m: nat)
    requires Schedule(run, what) && WeaklyFair(run, what) && Invariant(run(n)) && run(n).queue != []
    ensures n <= m && Invariant(run(m)) && (Doomed(run(m)) || |run(n).popped| < |run(m).popped|)
    decreases Left(run(n))
  {
    hide Exclusive, Once, NoLostWakeup, Left, Doomed, Schedule, WeaklyFair;
    m := n;
    if !Doomed(run(n)) {
      var k := GoesOn(run, what, n);
      OneStep(run, what, k);
      var e := what(k).value;
      StepKeeps(run(k), e);
      m := k + 1;
      if !e.Pop? && !Doomed(run(m)) {
        StepUses(run(k), e);
        m := NextServed(run, what, m);
      }
    }
  }

  lemma OneStep(run: nat -> Pool, what: nat -> Option<Event>, k: nat)
    requires Schedule(run, what) && what(k).Some?
    ensures Step(run(k), what(k).value) == Some(run(k + 1))
  {}

  /** What was there stays there along a schedule. */
  lemma {:induction false} Onwards(run: nat -> Pool, what: nat -> Option<Event>, n: nat, m: nat)
    requires Schedule(run, what) && n <= m && Invariant(run(n))
    ensures Invariant(run(m)) && run(n).popped <= run(m).popped && run(n).pushed <= run(m).pushed
    decreases m
  {
    if n < m {
      var k: nat := m - 1;
      Onwards(run, what, n, k);
      if what(k).Some? {
        OneStep(run, what, k);
        StepKeeps(run(k), what(k).value);
        RunOne(run(k), what(k).value);
        HistoryGrows(run(k), [what(k).value]);
      }
      hide Invariant, Step, Run;
      assert k + 1 == m;
    }
  }

  lemma {:induction false} ServedInTime(run: nat -> Pool, what: nat -> Option<Event>, n: nat, count: nat)
    returns (m: nat)
    requires Schedule(run, what) && WeaklyFair(run, what) && Invariant(run(n)) && count <= |run(n).queue|
    ensures n <= m && Invariant(run(m)) && (Doomed(run(m)) || |run(n).popped| + count <= |run(m).popped|)
    decreases count
  {
    hide Exclusive, Once, NoLostWakeup, Doomed, Schedule, WeaklyFair;
    m := n;
    if count > 0 {
      m := NextServed(run, what, n);
      Onwards(run, what, n, m);
      var j := |run(m).popped| - |run(n).popped|;
      if !Doomed(run(m)) && j < count {
        var k := m;
        m := ServedInTime(run, what, k, count - j);
        Onwards(run, what, k, m);
      }
    }
  }

  /** Under every weakly fair schedule, with the network and the spurious wakeups as they please:
    * everything queued is popped sooner or later, in order, unless the listener gives up. */
  lemma {:induction false} FairServes(run: nat -> Pool, what: nat -> Option<Event>, n: nat)
    requires Start(run(0)) && Schedule(run, what) && WeaklyFair(run, what)
    ensures exists m: nat :: n <= m && (Doomed(run(m)) || run(n).popped + run(n).queue <= run(m).popped)
  {
    hide Start, Exclusive, Once, NoLostWakeup, Doomed, Schedule, WeaklyFair;
    StartInvariant(run(0));
    Onwards(run, what, 0, n);
    var m := ServedInTime(run, what, n, |run(n).queue|);
    Onwards(run, what, n, m);
    assert run(n).popped + run(n).queue <= run(m).popped + run(m).queue;
    assert Doomed(run(m)) || run(n).popped + run(n).queue <= run(m).popped;
  }

  // ---------- The pool over the ring ----------

  /** The pool as it is in memory: the queue is a ring, and `pool.queue` is not used. */
  datatype RingPool = RingPool(data: seq<Conn>, back: nat, front: nat, pool: Pool)

  predicate RingOk(r: RingPool) {
    |r.data| == r.pool.limit + 1 && r.back < |r.data| && r.front < |r.data|
  }

  /** The pool that it stands for. */
  function Held(r: RingPool): Pool
    requires RingOk(r)
  {
    r.pool.(queue := Queue.Ring(r.data, r.back, r.front))
  }

  /** The same steps, where pushing, popping and going to sleep look at the ring's indices alone. */
  ghost function RingStep(r: RingPool, e: Event): Option<RingPool>
    requires RingOk(r)
  {
    var p, n := r.pool, |r.data|;
    match e
    case Push =>
      if !p.listener.Pushing? then None
      else if Queue.After(r.front, n) == r.back then Some(r.(pool := p.(listener := Full(p.listener.conn))))
      else Some(RingPool(r.data[r.front := p.listener.conn], r.back, Queue.After(r.front, n),
                         p.(pushed := p.pushed + [p.listener.conn], listener := Unlocking)))
    case Pop(i) =>
      if !Is(p, i, Checking) || r.back == r.front then None
      else Some(RingPool(r.data, Queue.After(r.back, n), r.front,
                         Set(p, i, Taken(r.data[r.back])).(popped := p.popped + [r.data[r.back]])))
    case Sleep(i) =>
      if Is(p, i, Checking) && r.back == r.front then Some(r.(pool := Set(p, i, Asleep).(mutex := Nobody))) else None
    case _ =>
      match Step(p, e)
      case None => None
      case Some(q) => Some(r.(pool := q))
  }

  ghost function RingRun(r: RingPool, es: seq<Event>): Option<RingPool>
    requires RingOk(r)
    decreases |es|
  {
    if es == [] then Some(r) else
    match RingStep(r, es[0])
    case None => None
    case Some(q) => if RingOk(q) then RingRun(q, es[1..]) else None
  }

  lemma {:induction false} RingEmpty(data: seq<Conn>, back: nat, front: nat)
    requires back < |data| && front < |data|
    ensures Queue.Ring(data, back, front) == [] <==> back == front
  {}

  /** Every step of the ring is that step of the queue it stands for. */
  lemma {:induction false} RingStepRefines(r: RingPool, e: Event)
    requires RingOk(r) && |Held(r).queue| <= r.pool.limit
    ensures RingStep(r, e).Some? <==> Step(Held(r), e).Some?
    ensures RingStep(r, e).Some? ==>
      RingOk(RingStep(r, e).value) && Held(RingStep(r, e).value) == Step(Held(r), e).value
  {
    RingEmpty(r.data, r.back, r.front);
    if e.Push? && r.pool.listener.Pushing? {
      Queue.RingPush(r.data, r.back, r.front, r.pool.listener.conn);
    } else if e.Pop? && r.back != r.front {
      Queue.RingPop(r.data, r.back, r.front);
    }
    hide Queue.Ring;
  }

  /** And so every run. */
  lemma {:induction false} RingRefines(r: RingPool, es: seq<Event>)
    requires RingOk(r) && InOrder(Held(r))
    ensures RingRun(r, es).Some? <==> Run(Held(r), es).Some?
    ensures RingRun(r, es).Some? ==>
      RingOk(RingRun(r, es).value) && Held(RingRun(r, es).value) == Run(Held(r), es).value
    decreases |es|
  {
    hide RingStep, Step, Held, RingOk;
    if es != [] {
      HeldQueue(r);
      RingStepRefines(r, es[0]);
      if RingStep(r, es[0]).Some? {
        InOrderKept(Held(r), es[0]);
        RingRefines(RingStep(r, es[0]).value, es[1..]);
      }
    }
  }

  lemma HeldQueue(r: RingPool)
    requires RingOk(r) && InOrder(Held(r))
    ensures |Held(r).queue| <= r.pool.limit
  {}

  /** In every interleaving over the ring, what was accepted is what was popped, then what the ring holds,
    * across every wrap, and then what the listener carries. */
  lemma {:induction false} RingInOrder(r: RingPool, es: seq<Event>)
    requires RingOk(r) && Start(Held(r)) && RingRun(r, es).Some?
    ensures var q := RingRun(r, es).value;
      && RingOk(q) && Accepted(es) == q.pool.popped + Queue.Ring(q.data, q.back, q.front) + Carried(q.pool)
      && multiset(q.pool.popped) == multiset(q.pool.handled) + AllInHand(q.pool.workers)
      && NoLostWakeup(Held(q))
  {
    RingRefines(r, es);
    EveryRun(Held(r), es);
  }
}
