/** The counting semaphore of each queue: together with the threads that are half-way
    through enqueue or dequeue it always accounts for the messages in the queue. */
module Semaphores {
  import opened Text
  import opened Machine
  import opened Invariant

  /** Past a successful wait and before the pop. */
  predicate HasToken(th: Thread) {
    th.pc.Section? && th.pc.stage != Done && th.pc.work.Pop? && th.pc.work.got
  }

  predicate Token(s: State, u: Id) {
    u in s.threads && HasToken(s.threads[u])
  }

  /** Some thread has pushed onto the queue of `u` and not yet posted. */
  predicate Unposted(s: State, u: Id) {
    QueueLock(u) in s.owner && s.owner[QueueLock(u)] in s.threads && s.threads[s.owner[QueueLock(u)]].pc.Post?
  }

  predicate SemAt(s: State, u: Id)
    requires u in s.users
  {
    |s.users[u].messages| == s.users[u].avail + One(Token(s, u)) + One(Unposted(s, u))
  }

  ghost predicate Sems(s: State) {
    forall u :: u in s.users ==> SemAt(s, u)
  }

  ghost predicate Basic(s: State) {
    Shape(s) && Registered(s) && Locked(s)
  }

  /** A step that touches no queue and is neither about a token nor about a pending post. */
  ghost predicate Quiet(s: State, t: Id, e: Effect) {
    && t in s.threads && e.user.None?
    && (HasToken(e.thread) <==> HasToken(s.threads[t]))
    && !e.thread.pc.Post? && !s.threads[t].pc.Post?
  }

  lemma QuietSems(s: State, s': State, t: Id, e: Effect)
    requires Locked(s) && Sems(s) && Took(s, s', t, e) && Quiet(s, t, e)
    requires EffectOnLocks(s, t, e) && s'.users == s.users
    ensures Sems(s')
  {
    forall u | u in s'.users
      ensures SemAt(s', u)
    {
      assert SemAt(s, u);
      var l := QueueLock(u);
      assert Unposted(s', u) <==> Unposted(s, u) by {
        if l in s'.owner && s'.owner[l] != t {
          assert !Holds(t, e.thread, l) && !HeldBy(s, t, l);
        }
        if l in s.owner && s.owner[l] != t {
          assert !HeldBy(s, t, l) && !Holds(t, e.thread, l);
        }
      }
    }
  }

  predicate QuietAction(a: Action) {
    !a.Login? && !a.PushBack? && !a.SemPost? && !a.SemWait? && !a.PopFront?
  }

  lemma QuietEffect(s: State, t: Id, a: Action)
    requires Enabled(s, t, a) && QuietAction(a)
    ensures Quiet(s, t, EffectOf(s, t, a))
  {
  }

  /** Only its holder can be between push and post on a queue. */
  lemma HolderOf(s: State, t: Id, u: Id)
    requires Locked(s) && t in s.threads && Holds(t, s.threads[t], QueueLock(u))
    ensures QueueLock(u) in s.owner && s.owner[QueueLock(u)] == t
  {
    assert HeldBy(s, t, QueueLock(u));
  }

  /** The other queues are as they were after a step by `t` that concerns another queue. */
  lemma OtherQueue(s: State, s': State, t: Id, u: Id)
    requires Locked(s) && Sems(s) && ThreadsFramed(s, s', t) && t in s.threads && s'.owner == s.owner
    requires u in s.users && u in s'.users && s'.users[u] == s.users[u]
    requires Token(s', u) <==> Token(s, u)
    requires !Holds(t, s.threads[t], QueueLock(u))
    ensures SemAt(s', u)
  {
    assert SemAt(s, u);
  }

  lemma PushSems(s: State, t: Id)
    requires Basic(s) && Sems(s) && Enabled(s, t, PushBack)
    ensures Sems(Apply(s, t, PushBack))
  {
    var s', v := Apply(s, t, PushBack), s.threads[t].pc.work.user;
    assert ThreadShape(s, t) && SemAt(s, v);
    HolderOf(s, t, v);
    forall u | u in s'.users
      ensures SemAt(s', u)
    {
      if u != v {
        OtherQueue(s, s', t, u);
      }
    }
  }

  lemma PostSems(s: State, t: Id)
    requires Basic(s) && Sems(s) && Enabled(s, t, SemPost)
    ensures Sems(Apply(s, t, SemPost))
  {
    var s', v := Apply(s, t, SemPost), s.threads[t].pc.user;
    assert ThreadShape(s, t) && SemAt(s, v);
    HolderOf(s, t, v);
    forall u | u in s'.users
      ensures SemAt(s', u)
    {
      if u != v {
        OtherQueue(s, s', t, u);
      }
    }
  }

  lemma WaitSems(s: State, t: Id)
    requires Basic(s) && Sems(s) && Enabled(s, t, SemWait)
    ensures Sems(Apply(s, t, SemWait))
  {
    var s', v := Apply(s, t, SemWait), t;
    assert ThreadShape(s, t) && SemAt(s, v);
    forall u | u in s'.users
      ensures SemAt(s', u)
    {
      if u != v {
        OtherQueue(s, s', t, u);
      }
    }
  }

  lemma PopSems(s: State, t: Id)
    requires Basic(s) && Sems(s) && Enabled(s, t, PopFront)
    ensures Sems(Apply(s, t, PopFront))
  {
    var s', v := Apply(s, t, PopFront), t;
    assert ThreadShape(s, t) && SemAt(s, v);
    HolderOf(s, t, v);
    forall u | u in s'.users
      ensures SemAt(s', u)
    {
      if u != v {
        OtherQueue(s, s', t, u);
      }
    }
  }

  /** Only the queues of existing users are ever locked. */
  lemma LockedQueueHasUser(s: State, u: Id)
    requires Shape(s) && Locked(s) && QueueLock(u) in s.owner
    ensures u in s.users
  {
    var holder := s.owner[QueueLock(u)];
    assert HeldBy(s, holder, QueueLock(u)) && ThreadShape(s, holder);
  }

  lemma LoginSems(s: State, t: Id, a: Action)
    requires Basic(s) && Sems(s) && Enabled(s, t, a) && a.Login?
    ensures Sems(Apply(s, t, a))
  {
    var s' := Apply(s, t, a);
    assert t !in s.users;
    forall u | u in s'.users
      ensures SemAt(s', u)
    {
      if QueueLock(u) in s.owner {
        LockedQueueHasUser(s, u);
        assert HeldBy(s, s.owner[QueueLock(u)], QueueLock(u));
      }
      if u != t {
        assert SemAt(s, u);
      }
    }
  }

  lemma SemsStep(s: State, t: Id, a: Action)
    requires Basic(s) && Sems(s) && Enabled(s, t, a)
    ensures Sems(Apply(s, t, a))
  {
    if a.Login? {
      LoginSems(s, t, a);
    } else if QuietAction(a) {
      StepTook(s, t, a);
      QuietEffect(s, t, a);
      EffectKeepsLocks(s, t, a);
      QuietSems(s, Apply(s, t, a), t, EffectOf(s, t, a));
    } else if a.PushBack? {
      PushSems(s, t);
    } else if a.SemPost? {
      PostSems(s, t);
    } else if a.SemWait? {
      WaitSems(s, t);
    } else {
      PopSems(s, t);
    }
  }
}
