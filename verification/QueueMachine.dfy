/** One message queue shared by any number of enqueuing and any number of dequeuing threads,
    in the steps between which they can be interrupted. */
module QueueMachine {
  import opened Text
  import opened Protocol

  type Id = nat

  datatype Pc =
    | Idle
    | EnqWant(msg: Message) | EnqHeld(msg: Message) | EnqPushed | EnqDone   // lock, push, post, unlock
    | DeqWant(got: bool) | DeqHeld(got: bool) | DeqDone(hand: Option<Message>) // after the wait: lock, pop, unlock

  /** `pushed` and `popped` are history, in the order of the queue's lock. */
  datatype Queue = Queue(
    messages: seq<Message>, avail: nat, owner: Option<Id>, threads: map<Id, Pc>,
    pushed: seq<Message>, popped: seq<Message>)

  const EMPTY := Queue([], 0, None, map[], [], [])

  datatype Action =
    | Enter | Enqueue(msg: Message) | Wait | TimeOut | Acquire | Release | PushBack | SemPost | PopFront

  predicate Holding(pc: Pc) {
    pc.EnqHeld? || pc.EnqPushed? || pc.EnqDone? || pc.DeqHeld? || pc.DeqDone?
  }

  /** Past a successful wait, before the pop. */
  predicate Token(pc: Pc) {
    (pc.DeqWant? || pc.DeqHeld?) && pc.got
  }

  /** front() and pop_front() have no guard of their own: that they find a message is proved. */
  predicate Enabled(q: Queue, t: Id, a: Action) {
    if a.Enter? then t !in q.threads
    else
      t in q.threads &&
      var pc := q.threads[t];
      match a
      case Enter => false
      case Enqueue(_) => pc.Idle?
      case Wait => pc.Idle? && q.avail > 0
      case TimeOut => pc.Idle?
      case Acquire => (pc.EnqWant? || pc.DeqWant?) && q.owner.None?
      case Release => pc.EnqDone? || pc.DeqDone?
      case PushBack => pc.EnqHeld?
      case SemPost => pc.EnqPushed?
      case PopFront => pc.DeqHeld? && (pc.got ==> q.messages != [])
  }

  function Move(q: Queue, t: Id, pc: Pc): Queue {
    q.(threads := q.threads[t := pc])
  }

  function Apply(q: Queue, t: Id, a: Action): Queue
    requires Enabled(q, t, a)
  {
    match a
    case Enter => Move(q, t, Idle)
    case Enqueue(msg) => Move(q, t, EnqWant(msg))
    case Wait => Move(q, t, DeqWant(true)).(avail := q.avail - 1)
    case TimeOut => Move(q, t, DeqWant(false))
    case Acquire =>
      var pc := q.threads[t];
      Move(q, t, if pc.EnqWant? then EnqHeld(pc.msg) else DeqHeld(pc.got)).(owner := Some(t))
    case Release => Move(q, t, Idle).(owner := None)
    case PushBack =>
      var msg := q.threads[t].msg;
      Move(q, t, EnqPushed).(messages := q.messages + [msg], pushed := q.pushed + [msg])
    case SemPost => Move(q, t, EnqDone).(avail := q.avail + 1)
    case PopFront =>
      if q.threads[t].got then
        Move(q, t, DeqDone(Some(q.messages[0])))
          .(messages := q.messages[1..], popped := q.popped + [q.messages[0]])
      else Move(q, t, DeqDone(None))
  }

  function Exec(run: seq<(Id, Action)>): Option<Queue> {
    if run == [] then Some(EMPTY)
    else
      match Exec(run[..|run| - 1])
      case None => None
      case Some(q) =>
        var (t, a) := run[|run| - 1];
        if Enabled(q, t, a) then Some(Apply(q, t, a)) else None
  }

  // ---- accounting ----

  function Tokens(q: Queue): set<Id> {
    set t | t in q.threads && Token(q.threads[t])
  }

  function Unposted(q: Queue): set<Id> {
    set t | t in q.threads && q.threads[t].EnqPushed?
  }

  predicate Counted(q: Queue) {
    |q.messages| == q.avail + |Tokens(q)| + |Unposted(q)|
  }

  /** First in, first out, nothing lost or repeated. */
  predicate Fifo(q: Queue) {
    q.pushed == q.popped + q.messages
  }

  ghost predicate Exclusive(q: Queue) {
    && (forall t :: t in q.threads && Holding(q.threads[t]) ==> q.owner == Some(t))
    && (q.owner.Some? ==> q.owner.value in q.threads && Holding(q.threads[q.owner.value]))
  }

  predicate Is(q: Queue, t: Id, pushed: bool) {
    t in q.threads && if pushed then q.threads[t].EnqPushed? else Token(q.threads[t])
  }

  lemma Resize(before: set<Id>, after: set<Id>, t: Id)
    requires before - {t} == after - {t}
    ensures |after| + One(t in before) == |before| + One(t in after)
  {
    assert before == (if t in before then (before - {t}) + {t} else before - {t});
    assert after == (if t in after then (after - {t}) + {t} else after - {t});
  }

  /** A step changes the two counts by what it does to the stepping thread. */
  lemma CountsAfter(q: Queue, t: Id, a: Action)
    requires Enabled(q, t, a)
    ensures var q' := Apply(q, t, a);
            && |Tokens(q')| + One(Is(q, t, false)) == |Tokens(q)| + One(Is(q', t, false))
            && |Unposted(q')| + One(Is(q, t, true)) == |Unposted(q)| + One(Is(q', t, true))
  {
    var q' := Apply(q, t, a);
    OthersStay(q, t, a);
    assert Tokens(q) - {t} == Tokens(q') - {t};
    assert Unposted(q) - {t} == Unposted(q') - {t};
    Resize(Tokens(q), Tokens(q'), t);
    Resize(Unposted(q), Unposted(q'), t);
  }

  lemma OthersStay(q: Queue, t: Id, a: Action)
    requires Enabled(q, t, a)
    ensures var q' := Apply(q, t, a);
            forall u :: u != t ==>
              (u in q'.threads <==> u in q.threads) && (u in q.threads ==> q'.threads[u] == q.threads[u])
  {
  }

  lemma CountedStep(q: Queue, t: Id, a: Action)
    requires Counted(q) && Enabled(q, t, a)
    ensures Counted(Apply(q, t, a))
  {
    CountsAfter(q, t, a);
    CountedEffect(q, t, a);
  }

  lemma CountedEffect(q: Queue, t: Id, a: Action)
    requires Enabled(q, t, a)
    ensures var q' := Apply(q, t, a);
            |q'.messages| + q.avail + One(Is(q, t, false)) + One(Is(q, t, true))
            == |q.messages| + q'.avail + One(Is(q', t, false)) + One(Is(q', t, true))
  {
  }

  lemma FifoStep(q: Queue, t: Id, a: Action)
    requires Fifo(q) && Enabled(q, t, a)
    ensures Fifo(Apply(q, t, a))
  {
    if a.PushBack? {
      Associate(q.popped, q.messages, [q.threads[t].msg]);
    } else if a.PopFront? && q.threads[t].got {
      assert q.messages == [q.messages[0]] + q.messages[1..];
      Associate(q.popped, [q.messages[0]], q.messages[1..]);
    }
  }

  lemma ExclusiveStep(q: Queue, t: Id, a: Action)
    requires Exclusive(q) && Enabled(q, t, a)
    ensures Exclusive(Apply(q, t, a))
  {
  }

  /** In every run, with any number of threads on either side: the semaphore, the dequeuers
      that have passed it and the enqueuers that have not yet posted account for the queue;
      what was popped followed by what is queued is what was pushed; and a thread about to
      pop after a successful wait finds a message, so it is never stuck there. */
  lemma {:induction false} QueueAccounting(run: seq<(Id, Action)>)
    requires Exec(run).Some?
    ensures Counted(Exec(run).value) && Fifo(Exec(run).value) && Exclusive(Exec(run).value)
    ensures forall t :: t in Exec(run).value.threads && Exec(run).value.threads[t].DeqHeld? ==>
              Enabled(Exec(run).value, t, PopFront)
  {
    if run == [] {
      assert Tokens(EMPTY) == {} && Unposted(EMPTY) == {};
    } else {
      var front := run[..|run| - 1];
      var (t, a) := run[|run| - 1];
      QueueAccounting(front);
      CountedStep(Exec(front).value, t, a);
      FifoStep(Exec(front).value, t, a);
      ExclusiveStep(Exec(front).value, t, a);
      var q := Exec(run).value;
      forall u | u in q.threads && q.threads[u].DeqHeld?
        ensures Enabled(q, u, PopFront)
      {
        if q.threads[u].got {
          assert u in Tokens(q);
        }
      }
    }
  }

  // ---- progress ----

  predicate WantsLock(pc: Pc) {
    pc.EnqWant? || pc.DeqWant?
  }

  /** In every run a thread is stuck only on the taken lock, and the wait succeeds for an idle
      thread exactly when the semaphore is positive. */
  lemma NeverStuck(run: seq<(Id, Action)>, t: Id)
    requires Exec(run).Some? && t in Exec(run).value.threads
    ensures var q := Exec(run).value;
            && ((exists a :: Enabled(q, t, a)) <==> !(WantsLock(q.threads[t]) && q.owner.Some?))
            && (q.threads[t].Idle? ==> (Enabled(q, t, Wait) <==> q.avail > 0))
  {
    QueueAccounting(run);
    var q := Exec(run).value;
    var a := match q.threads[t]
             case Idle => TimeOut
             case EnqHeld(_) => PushBack
             case EnqPushed => SemPost
             case EnqDone => Release
             case DeqHeld(_) => PopFront
             case DeqDone(_) => Release
             case _ => Acquire;
    assert !(WantsLock(q.threads[t]) && q.owner.Some?) ==> Enabled(q, t, a);
  }

  lemma ExecMore(run: seq<(Id, Action)>, t: Id, a: Action)
    requires Exec(run).Some? && Enabled(Exec(run).value, t, a)
    ensures Exec(run + [(t, a)]) == Some(Apply(Exec(run).value, t, a))
  {
    assert (run + [(t, a)])[..|run|] == run;
  }

  ghost predicate AllIdle(q: Queue) {
    forall t :: t in q.threads ==> q.threads[t].Idle?
  }

  lemma IdleCounts(q: Queue)
    requires Counted(q) && Exclusive(q) && AllIdle(q)
    ensures q.owner.None? && |q.messages| == q.avail
  {
    assert Tokens(q) == {} && Unposted(q) == {};
  }

  /** One dequeue, undisturbed. */
  lemma OneDequeue(run: seq<(Id, Action)>, t: Id) returns (longer: seq<(Id, Action)>)
    requires Exec(run).Some? && t in Exec(run).value.threads && AllIdle(Exec(run).value)
    requires Exec(run).value.messages != []
    ensures Exec(longer).Some? && AllIdle(Exec(longer).value) && t in Exec(longer).value.threads
    ensures Exec(longer).value.messages == Exec(run).value.messages[1..]
    ensures Exec(longer).value.pushed == Exec(run).value.pushed
  {
    QueueAccounting(run);
    IdleCounts(Exec(run).value);
    longer := run;
    ExecMore(longer, t, Wait);
    longer := longer + [(t, Wait)];
    ExecMore(longer, t, Acquire);
    longer := longer + [(t, Acquire)];
    ExecMore(longer, t, PopFront);
    longer := longer + [(t, PopFront)];
    ExecMore(longer, t, Release);
    longer := longer + [(t, Release)];
  }

  /** From any state in which all threads are idle, any one of them can dequeue everything
      that was ever pushed. */
  lemma {:induction false} Drains(run: seq<(Id, Action)>, t: Id) returns (longer: seq<(Id, Action)>)
    requires Exec(run).Some? && t in Exec(run).value.threads && AllIdle(Exec(run).value)
    ensures Exec(longer).Some? && Exec(longer).value.messages == []
    ensures Exec(longer).value.popped == Exec(run).value.pushed
    decreases |Exec(run).value.messages|
  {
    if Exec(run).value.messages == [] {
      longer := run;
      QueueAccounting(run);
    } else {
      var once := OneDequeue(run, t);
      longer := Drains(once, t);
    }
  }
}
