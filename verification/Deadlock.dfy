/** The lock order, and why no set of threads can block each other for good. */
module Deadlock {
  import opened Text
  import opened Machine
  import opened Invariant
  import opened Semaphores

  /** The lock a thread is about to take. */
  function Wants(t: Id, th: Thread): Option<Lock> {
    if th.pc.Section? && th.pc.stage == Want then SectionLock(t, th) else None
  }

  predicate Blocked(s: State, t: Id) {
    t in s.threads && Wants(t, s.threads[t]).Some? && Wants(t, s.threads[t]).value in s.owner
  }

  ghost predicate CanStep(s: State, t: Id) {
    exists a :: Enabled(s, t, a)
  }

  /** A thread that waits for a lock while holding one holds a room lock and wants a queue
      lock; the server lock is held alone; and no lock is held across a wait on a semaphore,
      a receive or a send. */
  lemma LockOrder(s: State, t: Id, held: Lock)
    requires t in s.threads && Holds(t, s.threads[t], held)
    ensures Wants(t, s.threads[t]).Some? ==> held.RoomLock? && Wants(t, s.threads[t]).value.QueueLock?
    ensures held.ServerLock? ==> forall l :: Holds(t, s.threads[t], l) ==> l == held
    ensures var pc := s.threads[t].pc; !pc.Wait? && !pc.Recv? && !pc.Reply? && !pc.Deliver? && !pc.Stopped?
  {
  }

  lemma StepOf(s: State, t: Id, a: Action)
    requires Enabled(s, t, a)
    ensures CanStep(s, t)
  {
  }

  lemma SectionSteps(s: State, t: Id)
    requires Basic(s) && Sems(s) && t in s.threads && InSection(s.threads[t])
    ensures CanStep(s, t)
  {
    assert ThreadShape(s, t);
    match s.threads[t].pc.work
    case Drop(_) => StepOf(s, t, Erase);
    case Remove => StepOf(s, t, Erase);
    case Find(_) => StepOf(s, t, Lookup);
    case Add => StepOf(s, t, Insert);
    case Cast(_) => StepOf(s, t, Begin);
    case Push(_, _, _, _) => StepOf(s, t, PushBack);
    case Pop(got, _) =>
      // After a successful wait the queue is not empty, so front() and pop_front() are safe.
      assert SemAt(s, t);
      StepOf(s, t, PopFront);
  }

  lemma LoopSteps(s: State, t: Id)
    requires Basic(s) && t in s.threads && s.threads[t].pc.Visit?
    ensures CanStep(s, t)
  {
    assert ThreadShape(s, t);
    var th := s.threads[t];
    var members := s.rooms[th.room.value].members;
    if members <= th.pc.visited {
      StepOf(s, t, Finish);
    } else {
      var user :| user in members && user !in th.pc.visited;
      StepOf(s, t, VisitNext(user));
    }
  }

  /** Every thread that is not stopped, waiting for its client, or blocked on a lock can
      step; in particular the null, bounds and emptiness guards of the steps never bite. */
  lemma Progress(s: State, t: Id)
    requires Basic(s) && Sems(s) && t in s.threads
    requires !s.threads[t].pc.Stopped? && !s.threads[t].pc.Recv?
    ensures CanStep(s, t) <==> !Blocked(s, t)
  {
    assert ThreadShape(s, t);
    var th := s.threads[t];
    match th.pc
    case Section(stage, _) =>
      if stage == Want {
        if Blocked(s, t) {
          BlockedStays(s, t);
        } else {
          StepOf(s, t, Acquire);
        }
      } else if stage == Held {
        SectionSteps(s, t);
      } else {
        StepOf(s, t, Release);
      }
    case Visit(_, _) => LoopSteps(s, t);
    case Post(_, _, _, _) => StepOf(s, t, SemPost);
    case Reply(_, _) => StepOf(s, t, Respond);
    case Wait => StepOf(s, t, TimeOut);
    case Deliver(_) => StepOf(s, t, HandOver);
  }

  lemma BlockedStays(s: State, t: Id)
    requires Blocked(s, t)
    ensures !CanStep(s, t)
  {
  }

  /** Whenever a thread is blocked on a lock, the holder of that lock can step, or it waits
      for a queue lock whose holder can: no cycle, and no chain longer than two. */
  lemma NoDeadlock(s: State, t: Id)
    requires Basic(s) && Sems(s) && Blocked(s, t)
    ensures var holder := s.owner[Wants(t, s.threads[t]).value];
            CanStep(s, holder) ||
            (Blocked(s, holder) && CanStep(s, s.owner[Wants(holder, s.threads[holder]).value]))
  {
    var l := Wants(t, s.threads[t]).value;
    var holder := s.owner[l];
    LockOrder(s, holder, l);
    Progress(s, holder);
    if Blocked(s, holder) {
      var l2 := Wants(holder, s.threads[holder]).value;
      var next := s.owner[l2];
      LockOrder(s, next, l2);
      Progress(s, next);
    }
  }
}
