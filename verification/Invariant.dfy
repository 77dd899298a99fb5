/** What every step of the machine keeps: the shape of threads and shared data, and the
    ownership of locks. */
module Invariant {
  import opened Text
  import opened Machine

  // ---- shape ----

  predicate NeedsRoom(pc: Pc) {
    || Casting(pc)
    || (pc.Section? && match pc.work
                       case Find(_) => pc.stage == Done
                       case _ => true)
    || pc.Wait? || pc.Deliver? || (pc.Reply? && pc.next.ThenWait?)
  }

  /** The program counters each kind of thread passes through. */
  predicate KindOk(kind: Kind, pc: Pc) {
    match kind
    case Refused => pc.Stopped? || (pc.Reply? && pc.next.ThenStop?)
    case Sender => !pc.Wait? && !pc.Deliver? && !(pc.Section? && pc.work.Pop?) && !(pc.Reply? && pc.next.ThenWait?)
    case Receiver => !Casting(pc) && !(pc.Section? && (pc.work.Drop? || pc.work.Remove? || pc.work.Cast?))
  }

  predicate HandOk(pc: Pc) {
    pc.Section? && pc.work.Pop? ==> (pc.work.hand.Some? <==> pc.work.got && pc.stage == Done)
  }

  predicate TargetOk(s: State, pc: Pc) {
    && (pc.Post? ==> pc.user in s.users && pc.user !in pc.visited)
    && (pc.Section? && pc.work.Push? ==> pc.work.user in s.users && pc.work.user !in pc.work.visited)
  }

  predicate ThreadShape(s: State, t: Id)
    requires t in s.threads
  {
    var th := s.threads[t];
    && (t in s.users <==> th.kind != Refused)
    && (th.room.Some? ==> th.room.value < |s.rooms|)
    && (NeedsRoom(th.pc) ==> th.room.Some?)
    && KindOk(th.kind, th.pc)
    && HandOk(th.pc)
    && TargetOk(s, th.pc)
  }

  ghost predicate Shape(s: State) {
    && (forall t :: t in s.threads ==> ThreadShape(s, t))
    && (forall u :: u in s.users ==> u in s.threads)
    && (forall r, u :: 0 <= r < |s.rooms| && u in s.rooms[r].members ==> u in s.users)
  }

  /** What a step by `t` leaves alone: the other threads, the identity of users and rooms,
      and, of memberships and logs, everything that is not t's own. */
  ghost predicate Framed(s: State, s': State, t: Id) {
    ThreadsFramed(s, s', t) && UsersFramed(s, s', t) && RoomsFramed(s, s', t) && RegistryFramed(s, s')
  }

  ghost predicate ThreadsFramed(s: State, s': State, t: Id) {
    && (forall u :: u in s'.threads <==> u in s.threads || u == t)
    && (forall u :: u in s.threads && u != t ==> s'.threads[u] == s.threads[u])
  }

  ghost predicate UsersFramed(s: State, s': State, t: Id) {
    && (forall u :: u in s.users ==> u in s'.users && s'.users[u].username == s.users[u].username)
    && (forall u :: u in s'.users ==> u in s.users || u == t)
  }

  ghost predicate RoomsFramed(s: State, s': State, t: Id) {
    && |s.rooms| <= |s'.rooms|
    && (forall r :: 0 <= r < |s.rooms| ==> RoomFramed(s.rooms[r], s'.rooms[r], t))
    && (forall r :: |s.rooms| <= r < |s'.rooms| ==> s'.rooms[r].members == {} && s'.rooms[r].log == [])
  }

  ghost predicate RoomFramed(room: Room, room': Room, t: Id) {
    && room'.key == room.key
    && room'.members - {t} == room.members - {t}
    && room.log <= room'.log
    && (forall i :: |room.log| <= i < |room'.log| ==> room'.log[i].sender == t)
  }

  ghost predicate RegistryFramed(s: State, s': State) {
    forall k :: k in s.registry ==> k in s'.registry && s'.registry[k] == s.registry[k]
  }

  /** The same, read off the effect of the step. */
  ghost predicate EffectFramed(s: State, t: Id, e: Effect) {
    && (e.user.Some? ==>
          var (u, user) := e.user.value;
          if u in s.users then user.username == s.users[u].username else u == t)
    && (e.room.Some? ==>
          var (r, room) := e.room.value;
          && r <= |s.rooms|
          && (if r < |s.rooms| then RoomFramed(s.rooms[r], room, t)
              else room.members == {} && room.log == [] && room.key !in s.registry))
  }

  lemma EffectIsFramed(s: State, t: Id, a: Action)
    requires Enabled(s, t, a) && (t in s.users ==> t in s.threads)
    ensures EffectFramed(s, t, EffectOf(s, t, a))
  {
  }

  lemma RoomsCommit(s: State, t: Id, e: Effect, clean: bool)
    requires EffectFramed(s, t, e)
    ensures RoomsFramed(s, Commit(s, t, e, clean), t)
  {
  }

  lemma StepFramed(s: State, t: Id, a: Action)
    requires Enabled(s, t, a) && (t in s.users ==> t in s.threads)
    ensures Framed(s, Apply(s, t, a), t)
  {
    var e := EffectOf(s, t, a);
    EffectIsFramed(s, t, a);
    RoomsCommit(s, t, e, s.clean && !BringsDelivery(a));
    FramedCommit(s, t, e, s.clean && !BringsDelivery(a));
  }

  lemma FramedCommit(s: State, t: Id, e: Effect, clean: bool)
    requires EffectFramed(s, t, e)
    ensures var s' := Commit(s, t, e, clean);
            ThreadsFramed(s, s', t) && UsersFramed(s, s', t) && RegistryFramed(s, s')
  {
  }

  ghost predicate EffectShape(s: State, t: Id, e: Effect) {
    var th := e.thread;
    && (th.kind != Refused <==> t in s.users || (e.user.Some? && e.user.value.0 == t))
    && (th.room.Some? ==> th.room.value < |s.rooms| || (e.room.Some? && th.room.value == e.room.value.0))
    && (NeedsRoom(th.pc) ==> th.room.Some?)
    && KindOk(th.kind, th.pc)
    && HandOk(th.pc)
    && TargetOk(s, th.pc)
  }

  ghost predicate EffectMembers(s: State, t: Id, e: Effect) {
    e.room.Some? && t in e.room.value.1.members ==> t in s.users
  }

  /** A step other than locking and unlocking: the thread stays in shape and holds the
      locks it held. */
  ghost predicate EffectOk(s: State, t: Id, e: Effect) {
    && EffectShape(s, t, e)
    && e.owner == s.owner
    && (forall l :: Holds(t, e.thread, l) <==> HeldBy(s, t, l))
  }

  lemma LoginOk(s: State, t: Id, a: Action)
    requires Shape(s) && Registered(s) && Enabled(s, t, a) && a.Login?
    ensures EffectOk(s, t, EffectOf(s, t, a))
  {
    assert t !in s.users;
  }

  lemma ReceiveOk(s: State, t: Id, a: Action)
    requires t in s.threads && ThreadShape(s, t) && Enabled(s, t, a) && a.Receive?
    ensures EffectOk(s, t, EffectOf(s, t, a))
  {
  }

  lemma SendOk(s: State, t: Id, a: Action)
    requires t in s.threads && ThreadShape(s, t) && Enabled(s, t, a) && (a.Respond? || a.HandOver?)
    ensures EffectOk(s, t, EffectOf(s, t, a))
  {
  }

  lemma MemberOk(s: State, t: Id, a: Action)
    requires t in s.threads && ThreadShape(s, t) && Enabled(s, t, a) && (a.Erase? || a.Insert?)
    ensures EffectOk(s, t, EffectOf(s, t, a))
  {
  }

  lemma LookupOk(s: State, t: Id, a: Action)
    requires Shape(s) && Registered(s) && Enabled(s, t, a) && a.Lookup?
    ensures EffectOk(s, t, EffectOf(s, t, a))
  {
    assert ThreadShape(s, t);
  }

  lemma LoopOk(s: State, t: Id, a: Action)
    requires t in s.threads && ThreadShape(s, t) && Enabled(s, t, a) && (a.Begin? || a.Finish?)
    ensures EffectOk(s, t, EffectOf(s, t, a))
  {
  }

  lemma VisitOk(s: State, t: Id, a: Action)
    requires t in s.threads && ThreadShape(s, t) && Enabled(s, t, a) && a.VisitNext?
    ensures EffectOk(s, t, EffectOf(s, t, a))
  {
  }

  lemma PushOk(s: State, t: Id, a: Action)
    requires t in s.threads && ThreadShape(s, t) && Enabled(s, t, a) && (a.PushBack? || a.SemPost?)
    ensures EffectOk(s, t, EffectOf(s, t, a))
  {
  }

  lemma AwaitOk(s: State, t: Id, a: Action)
    requires t in s.threads && ThreadShape(s, t) && Enabled(s, t, a) && (a.SemWait? || a.TimeOut?)
    ensures EffectOk(s, t, EffectOf(s, t, a))
  {
  }

  lemma PopOk(s: State, t: Id, a: Action)
    requires t in s.threads && ThreadShape(s, t) && Enabled(s, t, a) && a.PopFront?
    ensures EffectOk(s, t, EffectOf(s, t, a))
  {
  }

  lemma OtherOk(s: State, t: Id, a: Action)
    requires Shape(s) && Registered(s) && Enabled(s, t, a) && !OnLock(a)
    ensures EffectOk(s, t, EffectOf(s, t, a))
  {
    if t in s.threads {
      assert ThreadShape(s, t);
    }
    match a
    case Login(_) => LoginOk(s, t, a);
    case Receive(_) => ReceiveOk(s, t, a);
    case Respond => SendOk(s, t, a);
    case HandOver => SendOk(s, t, a);
    case Erase => MemberOk(s, t, a);
    case Insert => MemberOk(s, t, a);
    case Lookup => LookupOk(s, t, a);
    case Begin => LoopOk(s, t, a);
    case Finish => LoopOk(s, t, a);
    case VisitNext(_) => VisitOk(s, t, a);
    case PushBack => PushOk(s, t, a);
    case SemPost => PushOk(s, t, a);
    case SemWait => AwaitOk(s, t, a);
    case TimeOut => AwaitOk(s, t, a);
    case PopFront => PopOk(s, t, a);
  }

  lemma LockOk(s: State, t: Id, a: Action)
    requires Shape(s) && Enabled(s, t, a) && OnLock(a)
    ensures EffectShape(s, t, EffectOf(s, t, a))
  {
    assert ThreadShape(s, t);
  }

  lemma EffectMembersAreUsers(s: State, t: Id, a: Action)
    requires Shape(s) && Enabled(s, t, a)
    ensures EffectMembers(s, t, EffectOf(s, t, a))
  {
    if t in s.threads {
      assert ThreadShape(s, t);
    }
  }

  /** What the commit of an effect amounts to for the invariants below. */
  ghost predicate Took(s: State, s': State, t: Id, e: Effect) {
    && Framed(s, s', t)
    && t in s'.threads && s'.threads[t] == e.thread && s'.owner == e.owner
    && (e.room.Some? ==> e.room.value.0 <= |s.rooms|)
    && (t in s'.users <==> t in s.users || (e.user.Some? && e.user.value.0 == t))
    && |s'.rooms| == |s.rooms| + (if e.room.Some? && e.room.value.0 >= |s.rooms| then 1 else 0)
    && (forall r :: 0 <= r < |s.rooms| && s'.rooms[r] != s.rooms[r] ==> e.room == Some((r, s'.rooms[r])))
  }

  lemma StepTook(s: State, t: Id, a: Action)
    requires Enabled(s, t, a) && (t in s.users ==> t in s.threads)
    ensures Took(s, Apply(s, t, a), t, EffectOf(s, t, a))
  {
    StepFramed(s, t, a);
    CommitTook(s, t, EffectOf(s, t, a), s.clean && !BringsDelivery(a));
  }

  lemma CommitTook(s: State, t: Id, e: Effect, clean: bool)
    requires EffectFramed(s, t, e) && Framed(s, Commit(s, t, e, clean), t)
    ensures Took(s, Commit(s, t, e, clean), t, e)
  {
  }

  lemma ShapeCommit(s: State, s': State, t: Id, e: Effect)
    requires Shape(s) && Took(s, s', t, e) && EffectShape(s, t, e) && EffectMembers(s, t, e)
    ensures Shape(s')
  {
    forall u | u in s'.threads
      ensures ThreadShape(s', u)
    {
      if u != t {
        assert ThreadShape(s, u);
      }
    }
    forall r, u | 0 <= r < |s'.rooms| && u in s'.rooms[r].members
      ensures u in s'.users
    {
      if u != t {
        assert u in s.rooms[r].members - {t};
      }
    }
  }

  lemma ShapeStep(s: State, t: Id, a: Action)
    requires Shape(s) && Registered(s) && Enabled(s, t, a)
    ensures Shape(Apply(s, t, a))
  {
    StepTook(s, t, a);
    if OnLock(a) { LockOk(s, t, a); } else { OtherOk(s, t, a); }
    EffectMembersAreUsers(s, t, a);
    ShapeCommit(s, Apply(s, t, a), t, EffectOf(s, t, a));
  }

  // ---- the registry ----

  /** Names and rooms are paired one to one, and overwriting a room's name never changes
      the name it is delivered under. */
  ghost predicate Registered(s: State) {
    && (forall k :: k in s.registry ==> s.registry[k] < |s.rooms| && s.rooms[s.registry[k]].key == k)
    && (forall r :: 0 <= r < |s.rooms| ==> s.rooms[r].key in s.registry && s.registry[s.rooms[r].key] == r)
    && (forall r :: 0 <= r < |s.rooms| ==> RemoveNewline(s.rooms[r].name) == RemoveNewline(s.rooms[r].key))
  }

  lemma EffectNames(s: State, t: Id, a: Action)
    requires Enabled(s, t, a)
    ensures var e := EffectOf(s, t, a);
            e.room.Some? ==>
              var (r, room) := e.room.value;
              if r < |s.rooms| then RemoveNewline(room.name) == RemoveNewline(s.rooms[r].name)
              else room.name == room.key
  {
    if a.VisitNext? {
      RemoveNewlineTwice(s.rooms[s.threads[t].room.value].name);
    }
  }

  lemma RegisteredStep(s: State, t: Id, a: Action)
    requires Registered(s) && Shape(s) && Enabled(s, t, a)
    ensures Registered(Apply(s, t, a))
  {
    EffectNames(s, t, a);
    EffectIsFramed(s, t, a);
    RegisteredCommit(s, t, EffectOf(s, t, a), s.clean && !BringsDelivery(a));
  }

  lemma RegisteredCommit(s: State, t: Id, e: Effect, clean: bool)
    requires Registered(s) && EffectFramed(s, t, e)
    requires e.room.Some? ==>
               var (r, room) := e.room.value;
               if r < |s.rooms| then RemoveNewline(room.name) == RemoveNewline(s.rooms[r].name)
               else room.name == room.key
    ensures Registered(Commit(s, t, e, clean))
  {
  }

  // ---- locks ----

  predicate HeldBy(s: State, t: Id, l: Lock) {
    t in s.threads && Holds(t, s.threads[t], l)
  }

  /** A lock is held by exactly the thread whose program counter says so. */
  ghost predicate Locked(s: State) {
    && (forall l :: l in s.owner ==> HeldBy(s, s.owner[l], l))
    && (forall t, l :: HeldBy(s, t, l) ==> l in s.owner && s.owner[l] == t)
  }

  /** The owner map changes exactly as the thread's program counter does, and a lock is
      only taken when nobody holds it. */
  ghost predicate EffectOnLocks(s: State, t: Id, e: Effect) {
    && (forall l :: Holds(t, e.thread, l) ==> l in e.owner && e.owner[l] == t)
    && (forall l :: HeldBy(s, t, l) && !Holds(t, e.thread, l) ==> l !in e.owner)
    && (forall l :: Holds(t, e.thread, l) && !HeldBy(s, t, l) ==> l !in s.owner)
    && (forall l :: !HeldBy(s, t, l) && !Holds(t, e.thread, l) ==>
          (l in e.owner <==> l in s.owner) && (l in s.owner ==> e.owner[l] == s.owner[l]))
  }

  lemma EffectKeepsLocks(s: State, t: Id, a: Action)
    requires Shape(s) && Registered(s) && Locked(s) && Enabled(s, t, a)
    ensures EffectOnLocks(s, t, EffectOf(s, t, a))
  {
    if a.Acquire? {
      AcquireOnLocks(s, t);
    } else if a.Release? {
      ReleaseOnLocks(s, t);
    } else {
      OtherOk(s, t, a);
    }
  }

  lemma AcquireOnLocks(s: State, t: Id)
    requires Locked(s) && Enabled(s, t, Acquire)
    ensures EffectOnLocks(s, t, EffectOf(s, t, Acquire))
  {
    var th, e := s.threads[t], EffectOf(s, t, Acquire);
    assert forall l :: Holds(t, e.thread, l) <==> HeldBy(s, t, l) || SectionLock(t, th) == Some(l);
  }

  lemma ReleaseOnLocks(s: State, t: Id)
    requires Locked(s) && Enabled(s, t, Release)
    ensures EffectOnLocks(s, t, EffectOf(s, t, Release))
  {
    var th, e := s.threads[t], EffectOf(s, t, Release);
    assert forall l :: Holds(t, e.thread, l) <==> HeldBy(s, t, l) && SectionLock(t, th) != Some(l);
  }

  lemma LockedCommit(s: State, s': State, t: Id, e: Effect)
    requires Locked(s) && Took(s, s', t, e) && EffectOnLocks(s, t, e)
    ensures Locked(s')
  {
    forall l | l in s'.owner
      ensures HeldBy(s', s'.owner[l], l)
    {
      if !Holds(t, e.thread, l) {
        assert !HeldBy(s, t, l);
      }
    }
    forall u, l | u in s'.threads && Holds(u, s'.threads[u], l)
      ensures l in s'.owner && s'.owner[l] == u
    {
      if u != t {
        assert HeldBy(s, u, l) && s.owner[l] == u;
        assert !HeldBy(s, t, l) && !Holds(t, e.thread, l);
      }
    }
  }

  lemma LockedStep(s: State, t: Id, a: Action)
    requires Shape(s) && Registered(s) && Locked(s) && Enabled(s, t, a)
    ensures Locked(Apply(s, t, a))
  {
    StepTook(s, t, a);
    EffectKeepsLocks(s, t, a);
    LockedCommit(s, Apply(s, t, a), t, EffectOf(s, t, a));
  }
}
