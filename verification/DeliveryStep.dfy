/** Exact delivery is kept by every step of every thread. */
module DeliveryStep {
  import opened Text
  import opened Protocol
  import opened Machine
  import opened Invariant
  import opened QueueContents
  import opened Semaphores
  import opened History
  import opened ExactDelivery

  /** Everything exact delivery rests on. */
  ghost predicate Grounded(s: State) {
    Basic(s) && Wholesome(s) && Historical(s) && CastsRight(s)
  }

  lemma GroundedStep(s: State, t: Id, a: Action)
    requires Grounded(s) && Enabled(s, t, a) && GotOk(a)
    ensures Grounded(Apply(s, t, a))
  {
    ShapeStep(s, t, a);
    RegisteredStep(s, t, a);
    LockedStep(s, t, a);
    WholesomeStep(s, t, a);
    HistoryStep(s, t, a);
    CastsRightStep(s, t, a);
  }

  predicate Joined(s: State, v: Id)
    requires v in s.threads
  {
    HasRoom(s, s.threads[v]) && v in s.rooms[s.threads[v].room.value].members
  }

  predicate IsReceiver(s: State, v: Id) {
    v in s.threads && v in s.users && s.threads[v].kind == Receiver
  }

  lemma LogSame(s: State, t: Id, a: Action, r: nat)
    requires Enabled(s, t, a) && !a.Begin? && r < |s.rooms|
    ensures Apply(s, t, a).rooms[r].log == s.rooms[r].log
  {
  }

  /** Steps of other threads neither admit nor remove a receiver. */
  lemma OtherJoined(s: State, s': State, t: Id, v: Id)
    requires Framed(s, s', t) && v in s.threads && v != t && ThreadShape(s, v)
    ensures v in s'.threads && s'.threads[v] == s.threads[v] && (Joined(s', v) <==> Joined(s, v))
  {
    if HasRoom(s, s.threads[v]) {
      var r := s.threads[v].room.value;
      assert RoomFramed(s.rooms[r], s'.rooms[r], t);
      assert v in s'.rooms[r].members <==> v in s'.rooms[r].members - {t};
    }
  }

  /** Of its own steps, only the insertion admits it. */
  lemma OwnJoined(s: State, v: Id, a: Action)
    requires Enabled(s, v, a) && IsReceiver(s, v) && !a.Insert? && ThreadShape(s, v) && HistoryOf(s, v)
    ensures var s' := Apply(s, v, a);
            && (Joined(s', v) <==> Joined(s, v))
            && (Joined(s, v) ==> s'.threads[v].room == s.threads[v].room && s'.threads[v].joinAt == s.threads[v].joinAt)
  {
    if a.Lookup? {
      assert MemberOnlyOf(s, v, None);
    } else if KeepsPlaces(a) {
      SameMembers(s, v, a);
    }
  }

  lemma JoinedSame(s: State, t: Id, a: Action, v: Id)
    requires Grounded(s) && Enabled(s, t, a) && IsReceiver(s, v) && !(t == v && a.Insert?)
    ensures var s' := Apply(s, t, a);
            && v in s'.threads && (Joined(s', v) <==> Joined(s, v))
            && (Joined(s, v) ==> s'.threads[v].room == s.threads[v].room && s'.threads[v].joinAt == s.threads[v].joinAt)
  {
    StepFramed(s, t, a);
    assert ThreadShape(s, v) && HistoryOf(s, v);
    if t == v {
      OwnJoined(s, v, a);
    } else {
      OtherJoined(s, Apply(s, t, a), t, v);
    }
  }

  lemma QuietOwed(s: State, t: Id, a: Action, v: Id)
    requires Grounded(s) && Enabled(s, t, a) && Basic(Apply(s, t, a)) && IsReceiver(s, v)
    requires !Concerns(s, t, a, v) && Joined(s, v)
    ensures var r := s.threads[v].room.value; Owed(Apply(s, t, a), r, v) == Owed(s, r, v)
  {
    var s', r := Apply(s, t, a), s.threads[v].room.value;
    StepTook(s, t, a);
    if a.VisitNext? && a.user == v && s.users[v].username == s.users[t].username {
      SkipOwesNothing(s, s', t, r, v);
    } else {
      DebtSame(s, t, a, r, v);
      OwedSame(s, s', t, r, v);
    }
  }

  lemma ObtainedQuiet(s: State, t: Id, a: Action, v: Id)
    requires Grounded(s) && Enabled(s, t, a) && IsReceiver(s, v) && !Concerns(s, t, a, v)
    ensures var s' := Apply(s, t, a);
            && v in s'.threads && v in s'.users
            && Obtained(s'.threads[v], s'.users[v]) == Obtained(s.threads[v], s.users[v])
  {
    assert ThreadShape(s, v) && PcOk(s.threads[v].pc, s.clean);
    if t == v {
      OwnObtained(s, v, a);
    } else {
      OtherObtained(s, t, a, v);
    }
  }

  lemma QuietExact(s: State, t: Id, a: Action, v: Id)
    requires Grounded(s) && Enabled(s, t, a) && Basic(Apply(s, t, a)) && IsReceiver(s, v) && Exact(s, v)
    requires !Concerns(s, t, a, v)
    ensures IsReceiver(Apply(s, t, a), v) ==> Exact(Apply(s, t, a), v)
  {
    var s' := Apply(s, t, a);
    StepFramed(s, t, a);
    ObtainedQuiet(s, t, a, v);
    JoinedSame(s, t, a, v);
    if Joined(s, v) {
      var r := s.threads[v].room.value;
      QuietOwed(s, t, a, v);
      LogSame(s, t, a, r);
      assert RoomFramed(s.rooms[r], s'.rooms[r], t);
    }
  }

  lemma DueAppend(log: seq<Entry>, e: Entry, from: nat, username: string, key: string)
    requires from <= |log|
    ensures Due(log + [e], from, username, key) ==
            Due(log, from, username, key) + Share(key, e.username, username, e.text)
  {
    FrontOfAppend(log, e);
  }

  /** A member is in the room of its own pointer. */
  lemma MemberMeansJoined(s: State, v: Id, r: nat)
    requires v in s.threads && HistoryOf(s, v) && r < |s.rooms| && v in s.rooms[r].members
    ensures s.threads[v].room == Some(r) && Joined(s, v)
  {
    assert !MemberOnlyOf(s, v, None);
  }

  lemma CasterIsSender(s: State, t: Id)
    requires t in s.threads && ThreadShape(s, t)
    requires Casting(s.threads[t].pc) || (s.threads[t].pc.Section? && s.threads[t].pc.work.Cast?)
    ensures s.threads[t].kind == Sender
  {
  }

  /** A broadcast starts: it is due to every member of another name, and owed to each. */
  lemma BeginExact(s: State, t: Id, v: Id)
    requires Grounded(s) && Enabled(s, t, Begin) && Basic(Apply(s, t, Begin)) && IsReceiver(s, v) && Exact(s, v)
    ensures IsReceiver(Apply(s, t, Begin), v) && Exact(Apply(s, t, Begin), v)
  {
    assert ThreadShape(s, t);
    CasterIsSender(s, t);
    if Joined(s, v) && s.threads[t].room == s.threads[v].room {
      BeginHere(s, t, v);
    } else {
      if Joined(s, v) {
        OwedElsewhere(s, t, v);
      }
      BeginElsewhere(s, t, v);
    }
  }

  lemma OwedElsewhere(s: State, t: Id, v: Id)
    requires Locked(s) && Shape(s) && Enabled(s, t, Begin) && Locked(Apply(s, t, Begin)) && Shape(Apply(s, t, Begin))
    requires IsReceiver(s, v) && Joined(s, v) && s.threads[t].room != s.threads[v].room
    ensures var r := s.threads[v].room.value; Owed(Apply(s, t, Begin), r, v) == Owed(s, r, v)
  {
    StepFramed(s, t, Begin);
    OwedSame(s, Apply(s, t, Begin), t, s.threads[v].room.value, v);
  }

  lemma BeginElsewhere(s: State, t: Id, v: Id)
    requires Enabled(s, t, Begin) && t != v && IsReceiver(s, v) && Exact(s, v)
    requires Joined(s, v) ==>
               var r := s.threads[v].room.value;
               s.threads[t].room != Some(r) && Owed(Apply(s, t, Begin), r, v) == Owed(s, r, v)
    ensures Exact(Apply(s, t, Begin), v)
  {
  }

  lemma BeginHere(s: State, t: Id, v: Id)
    requires Locked(s) && Enabled(s, t, Begin) && Locked(Apply(s, t, Begin)) && Shape(Apply(s, t, Begin))
    requires t != v && IsReceiver(s, v) && Joined(s, v) && s.threads[t].room == s.threads[v].room && Exact(s, v)
    ensures Exact(Apply(s, t, Begin), v)
  {
    var r := s.threads[v].room.value;
    NothingOwedBefore(s, t, r, v);
    BeginOwed(s, t, r, v);
    BeginBalance(s, t, r, v);
  }

  /** While the holder of a room's lock does not broadcast, nobody does. */
  lemma NothingOwedBefore(s: State, t: Id, r: nat, v: Id)
    requires Locked(s) && HeldBy(s, t, RoomLock(r)) && !Casting(s.threads[t].pc) && r < |s.rooms| && v in s.users
    ensures Owed(s, r, v) == []
  {
  }

  lemma BeginBalance(s: State, t: Id, r: nat, v: Id)
    requires Enabled(s, t, Begin) && s.threads[t].room == Some(r) && t != v && IsReceiver(s, v)
    requires Joined(s, v) && s.threads[v].room == Some(r) && Exact(s, v)
    requires Owed(s, r, v) == []
    requires Owed(Apply(s, t, Begin), r, v) ==
             Share(s.rooms[r].key, s.users[t].username, s.users[v].username, s.threads[t].pc.work.text)
    ensures Exact(Apply(s, t, Begin), v)
  {
    DueAppend(s.rooms[r].log, Entry(t, s.users[t].username, s.threads[t].pc.work.text),
              s.threads[v].joinAt, s.users[v].username, s.rooms[r].key);
  }

  lemma BeginOwed(s: State, t: Id, r: nat, v: Id)
    requires Enabled(s, t, Begin) && Locked(Apply(s, t, Begin)) && Shape(Apply(s, t, Begin))
    requires s.threads[t].room == Some(r) && v in s.users
    ensures Owed(Apply(s, t, Begin), r, v) ==
            Share(s.rooms[r].key, s.users[t].username, s.users[v].username, s.threads[t].pc.work.text)
  {
    OwedByDebtor(Apply(s, t, Begin), t, r, v);
  }

  /** The owed message arrives in the queue. */
  lemma PushExact(s: State, t: Id, v: Id)
    requires Grounded(s) && Enabled(s, t, PushBack) && Basic(Apply(s, t, PushBack)) && IsReceiver(s, v) && Exact(s, v)
    requires s.threads[t].pc.work.user == v
    ensures IsReceiver(Apply(s, t, PushBack), v) && Exact(Apply(s, t, PushBack), v)
  {
    var r := s.threads[t].room.value;
    assert ThreadShape(s, t) && CastRight(s, t, s.threads[t]) && HistoryOf(s, v);
    CasterIsSender(s, t);
    MemberMeansJoined(s, v, r);
    PushOwed(s, t, r, v);
    PushBalance(s, t, r, v);
  }

  lemma PushBalance(s: State, t: Id, r: nat, v: Id)
    requires Enabled(s, t, PushBack) && s.threads[t].pc.work.user == v && t != v && IsReceiver(s, v)
    requires Joined(s, v) && s.threads[v].room == Some(r) && Exact(s, v)
    requires Owed(s, r, v) == [s.threads[t].pc.work.msg] && Owed(Apply(s, t, PushBack), r, v) == []
    ensures Exact(Apply(s, t, PushBack), v)
  {
    var th, user, msg := s.threads[v], s.users[v], s.threads[t].pc.work.msg;
    Associate(th.delivered + Hand(th.pc), user.messages, [msg]);
    var s' := Apply(s, t, PushBack);
    assert Obtained(s'.threads[v], s'.users[v]) == Obtained(th, user) + [msg];
    assert Obtained(s'.threads[v], s'.users[v]) + [] == Obtained(s'.threads[v], s'.users[v]);
  }

  lemma PushOwed(s: State, t: Id, r: nat, v: Id)
    requires Locked(s) && Shape(s) && Enabled(s, t, PushBack) && Locked(Apply(s, t, PushBack))
    requires CastRight(s, t, s.threads[t])
    requires s.threads[t].room == Some(r) && r < |s.rooms| && v == s.threads[t].pc.work.user
    ensures Owed(s, r, v) == [s.threads[t].pc.work.msg]
    ensures Owed(Apply(s, t, PushBack), r, v) == []
  {
    PushOwedBefore(s, t, r, v);
    ReachedOwesNothing(Apply(s, t, PushBack), t, r, v);
  }

  lemma PushOwedBefore(s: State, t: Id, r: nat, v: Id)
    requires Locked(s) && Shape(s) && Enabled(s, t, PushBack) && CastRight(s, t, s.threads[t])
    requires s.threads[t].room == Some(r) && r < |s.rooms| && v == s.threads[t].pc.work.user
    ensures Owed(s, r, v) == [s.threads[t].pc.work.msg]
  {
    assert ThreadShape(s, t);
    OwedByDebtor(s, t, r, v);
  }

  /** The loop that holds the room's lock has dealt with `v`. */
  lemma ReachedOwesNothing(s: State, t: Id, r: nat, v: Id)
    requires Locked(s) && HeldBy(s, t, RoomLock(r)) && Casting(s.threads[t].pc) && Reached(s.threads[t].pc, v)
    requires r < |s.rooms| && v in s.users
    ensures Owed(s, r, v) == []
  {
  }

  /** Joining: nothing before counts, and nobody is broadcasting. */
  lemma InsertExact(s: State, v: Id)
    requires IsReceiver(s, v) && HistoryOf(s, v) && Exact(s, v) && Enabled(s, v, Insert) && Locked(Apply(s, v, Insert))
    ensures IsReceiver(Apply(s, v, Insert), v) && Exact(Apply(s, v, Insert), v)
  {
    assert MemberOnlyOf(s, v, None);
    NothingOwedBefore(Apply(s, v, Insert), v, s.threads[v].room.value, v);
    InsertBalance(s, v);
  }

  lemma InsertBalance(s: State, v: Id)
    requires Enabled(s, v, Insert) && IsReceiver(s, v) && Exact(s, v) && !Joined(s, v)
    requires Owed(Apply(s, v, Insert), s.threads[v].room.value, v) == []
    ensures Exact(Apply(s, v, Insert), v)
  {
  }

  lemma ExactStepOf(s: State, t: Id, a: Action, v: Id)
    requires Grounded(s) && Enabled(s, t, a) && Basic(Apply(s, t, a))
    requires IsReceiver(s, v) && Exact(s, v) && !(a.Login? && t == v)
    ensures IsReceiver(Apply(s, t, a), v) ==> Exact(Apply(s, t, a), v)
  {
    if !Concerns(s, t, a, v) {
      QuietExact(s, t, a, v);
    } else if a.Begin? {
      BeginExact(s, t, v);
    } else if a.PushBack? {
      PushExact(s, t, v);
    } else {
      assert HistoryOf(s, v);
      InsertExact(s, v);
    }
  }

  lemma LoginExact(s: State, t: Id, a: Action)
    requires Enabled(s, t, a) && a.Login? && IsReceiver(Apply(s, t, a), t)
    ensures Exact(Apply(s, t, a), t)
  {
  }

  lemma ExactStep(s: State, t: Id, a: Action)
    requires Grounded(s) && AllExact(s) && Enabled(s, t, a) && GotOk(a)
    ensures AllExact(Apply(s, t, a))
  {
    GroundedStep(s, t, a);
    forall v | IsReceiver(Apply(s, t, a), v)
      ensures Exact(Apply(s, t, a), v)
    {
      if a.Login? && t == v {
        LoginExact(s, t, a);
      } else {
        KindSame(s, t, a, v);
        ExactStepOf(s, t, a, v);
      }
    }
  }

  lemma KindSame(s: State, t: Id, a: Action, v: Id)
    requires Shape(s) && Enabled(s, t, a) && IsReceiver(Apply(s, t, a), v) && !(a.Login? && t == v)
    ensures IsReceiver(s, v)
  {
    StepFramed(s, t, a);
    if t == v {
      KindKept(s, t, a);
    }
  }

  lemma KindKept(s: State, t: Id, a: Action)
    requires Enabled(s, t, a) && !a.Login?
    ensures t in s.threads && Apply(s, t, a).threads[t].kind == s.threads[t].kind
    ensures t in Apply(s, t, a).users ==> t in s.users
  {
  }
}
