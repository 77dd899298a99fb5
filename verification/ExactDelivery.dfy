/** Exact delivery. A receiver's sent messages, the one it has in hand and its queue are at
    every moment the broadcasts of its room since it joined, by senders of another name, in
    broadcast order; a broadcast under way that has not reached it yet is the only one
    still owed. */
module ExactDelivery {
  import opened Text
  import opened Protocol
  import opened Machine
  import opened Invariant
  import opened QueueContents
  import opened Semaphores

  // ---- broadcasts under way ----

  function CastText(pc: Pc): string
    requires Casting(pc)
  {
    match pc
    case Visit(text, _) => text
    case Post(text, _, _, _) => text
    case Section(_, work) => work.text
  }

  /** The loop has dealt with user `v`. */
  predicate Reached(pc: Pc, v: Id)
    requires Casting(pc)
  {
    match pc
    case Visit(_, visited) => v in visited
    case Post(_, visited, user, _) => v in visited || v == user
    case Section(stage, work) => v in work.visited || (v == work.user && stage == Done)
  }

  /** The text that thread `th` is broadcasting in room `r` and has not yet queued for `v`. */
  function Debt(th: Thread, r: nat, v: Id): Option<string> {
    if Casting(th.pc) && th.room == Some(r) && !Reached(th.pc, v) then Some(CastText(th.pc)) else None
  }

  /** The message about to be queued is the right one, for a member of the room. */
  predicate MessageRight(s: State, t: Id, th: Thread, text: string, user: Id, msg: Message)
    requires HasRoom(s, th) && t in s.users && user in s.users
  {
    var room := s.rooms[th.room.value];
    && user in room.members
    && s.users[user].username != s.users[t].username
    && msg == Delivery(room.key, s.users[t].username, text)
  }

  predicate CastRight(s: State, t: Id, th: Thread) {
    && (th.pc.Section? && th.pc.work.Push? ==>
          HasRoom(s, th) && t in s.users && th.pc.work.user in s.users &&
          MessageRight(s, t, th, th.pc.work.text, th.pc.work.user, th.pc.work.msg))
    && (th.pc.Post? ==>
          HasRoom(s, th) && t in s.users && th.pc.user in s.users &&
          MessageRight(s, t, th, th.pc.text, th.pc.user, th.pc.msg))
  }

  ghost predicate CastsRight(s: State) {
    forall t :: t in s.threads ==> CastRight(s, t, s.threads[t])
  }

  lemma CastRightStays(s: State, s': State, t: Id, u: Id, th: Thread)
    requires Framed(s, s', t) && CastRight(s, u, th)
    requires Casting(th.pc) && HasRoom(s, th) ==> s'.rooms[th.room.value].members == s.rooms[th.room.value].members
    ensures CastRight(s', u, th)
  {
    if Casting(th.pc) && HasRoom(s, th) {
      assert RoomFramed(s.rooms[th.room.value], s'.rooms[th.room.value], t);
    }
  }

  /** Only the holder of a room's lock changes its members. */
  lemma MembersNeedLock(s: State, t: Id, a: Action, r: nat)
    requires Enabled(s, t, a) && r < |s.rooms| && Apply(s, t, a).rooms[r].members != s.rooms[r].members
    ensures HeldBy(s, t, RoomLock(r)) && (a.Erase? || a.Insert?)
  {
  }

  /** The steps that leave a message being queued. */
  predicate CarriesMessage(a: Action) {
    a.Acquire? || a.PushBack? || a.SemPost?
  }

  lemma CarriedMessage(s: State, t: Id, a: Action)
    requires Enabled(s, t, a) && CarriesMessage(a) && CastRight(s, t, s.threads[t])
    ensures CastRight(s, t, EffectOf(s, t, a).thread)
  {
  }

  lemma NoMessage(s: State, t: Id, a: Action)
    requires Enabled(s, t, a) && !CarriesMessage(a) && !a.VisitNext?
    ensures CastRight(s, t, EffectOf(s, t, a).thread)
    ensures var pc := EffectOf(s, t, a).thread.pc; Casting(pc) ==> a.Begin? || a.Release?
  {
  }

  lemma NewMessage(s: State, t: Id, user: Id)
    requires Basic(s) && Enabled(s, t, VisitNext(user))
    ensures CastRight(s, t, EffectOf(s, t, VisitNext(user)).thread)
  {
    var room := s.rooms[s.threads[t].room.value];
    RemoveNewlineTwice(room.name);
  }

  lemma OwnCastRight(s: State, t: Id, a: Action)
    requires Basic(s) && CastsRight(s) && Enabled(s, t, a)
    ensures CastRight(s, t, EffectOf(s, t, a).thread)
  {
    if a.VisitNext? {
      NewMessage(s, t, a.user);
    } else if CarriesMessage(a) {
      assert CastRight(s, t, s.threads[t]);
      CarriedMessage(s, t, a);
    } else {
      NoMessage(s, t, a);
    }
  }

  lemma OneHolder(s: State, t: Id, u: Id, l: Lock)
    requires Locked(s) && HeldBy(s, t, l) && HeldBy(s, u, l)
    ensures t == u
  {
  }

  lemma StillMembers(s: State, t: Id, a: Action, u: Id, th: Thread)
    requires Basic(s) && Enabled(s, t, a) && u in s.threads && u != t && th == s.threads[u]
    requires Casting(th.pc) && HasRoom(s, th)
    ensures Apply(s, t, a).rooms[th.room.value].members == s.rooms[th.room.value].members
  {
    var r := th.room.value;
    assert HeldBy(s, u, RoomLock(r));
    if Apply(s, t, a).rooms[r].members != s.rooms[r].members {
      MembersNeedLock(s, t, a, r);
      OneHolder(s, t, u, RoomLock(r));
    }
  }

  lemma CastsRightStep(s: State, t: Id, a: Action)
    requires Basic(s) && CastsRight(s) && Enabled(s, t, a)
    ensures CastsRight(Apply(s, t, a))
  {
    var s', e := Apply(s, t, a), EffectOf(s, t, a);
    StepFramed(s, t, a);
    OwnCastRight(s, t, a);
    OwnMembers(s, t, a);
    CastRightStays(s, s', t, t, e.thread);
    forall u | u in s'.threads
      ensures CastRight(s', u, s'.threads[u])
    {
      if u != t {
        var th := s.threads[u];
        assert CastRight(s, u, th);
        if Casting(th.pc) && HasRoom(s, th) {
          StillMembers(s, t, a, u, th);
        }
        CastRightStays(s, s', t, u, th);
      }
    }
  }

  lemma OwnMembers(s: State, t: Id, a: Action)
    requires Enabled(s, t, a)
    ensures var th := EffectOf(s, t, a).thread;
            Casting(th.pc) && HasRoom(s, th) ==>
              Apply(s, t, a).rooms[th.room.value].members == s.rooms[th.room.value].members
  {
    var th := EffectOf(s, t, a).thread;
    if Casting(th.pc) && HasRoom(s, th) {
      if Apply(s, t, a).rooms[th.room.value].members != s.rooms[th.room.value].members {
        MembersNeedLock(s, t, a, th.room.value);
      }
    }
  }

  // ---- what a receiver is due ----

  /** The deliveries that a log holds for a user who joined at `from`. */
  function Due(log: seq<Entry>, from: nat, username: string, key: string): seq<Message> {
    if |log| <= from then []
    else
      var last := log[|log| - 1];
      Due(log[..|log| - 1], from, username, key) + Share(key, last.username, username, last.text)
  }

  function Hand(pc: Pc): seq<Message> {
    match pc
    case Deliver(msg) => [msg]
    case Section(_, work) => if work.Pop? && work.hand.Some? then [work.hand.value] else []
    case _ => []
  }

  /** Sent, in hand, queued. */
  function Obtained(th: Thread, user: User): seq<Message> {
    th.delivered + Hand(th.pc) + user.messages
  }

  /** At most one message: that of the broadcast under way in room `r`. */
  function Owed(s: State, r: nat, v: Id): seq<Message>
    requires r < |s.rooms| && v in s.users
  {
    var l := RoomLock(r);
    if l in s.owner && s.owner[l] in s.threads && s.owner[l] in s.users then
      var c := s.owner[l];
      var debt := Debt(s.threads[c], r, v);
      if debt.Some? then Share(s.rooms[r].key, s.users[c].username, s.users[v].username, debt.value) else []
    else []
  }

  ghost predicate Exact(s: State, v: Id)
    requires v in s.threads && v in s.users
  {
    var th := s.threads[v];
    if HasRoom(s, th) && v in s.rooms[th.room.value].members then
      var room := s.rooms[th.room.value];
      && th.joinAt <= |room.log|
      && Obtained(th, s.users[v]) + Owed(s, th.room.value, v)
         == Due(room.log, th.joinAt, s.users[v].username, room.key)
    else
      Obtained(th, s.users[v]) == []
  }

  ghost predicate AllExact(s: State) {
    forall v :: v in s.threads && v in s.users && s.threads[v].kind == Receiver ==> Exact(s, v)
  }

  /** Whoever broadcasts in a room holds its lock. */
  lemma DebtorHolds(s: State, c: Id, r: nat, v: Id)
    requires Locked(s) && Shape(s) && c in s.threads && Debt(s.threads[c], r, v).Some?
    ensures RoomLock(r) in s.owner && s.owner[RoomLock(r)] == c && c in s.users
  {
    assert ThreadShape(s, c) && HeldBy(s, c, RoomLock(r));
  }

  /** What `v` is owed in terms of any thread that owes it. */
  lemma OwedByDebtor(s: State, c: Id, r: nat, v: Id)
    requires Locked(s) && Shape(s) && c in s.threads && Debt(s.threads[c], r, v).Some?
    requires r < |s.rooms| && v in s.users
    ensures c in s.users
    ensures Owed(s, r, v) ==
            Share(s.rooms[r].key, s.users[c].username, s.users[v].username, Debt(s.threads[c], r, v).value)
  {
    DebtorHolds(s, c, r, v);
  }

  ghost predicate NoDebtor(s: State, r: nat, v: Id) {
    forall c :: c in s.threads ==> Debt(s.threads[c], r, v).None?
  }

  lemma NothingOwed(s: State, r: nat, v: Id)
    requires NoDebtor(s, r, v) && r < |s.rooms| && v in s.users
    ensures Owed(s, r, v) == []
  {
  }

  function DebtOf(s: State, t: Id, r: nat, v: Id): Option<string> {
    if t in s.threads then Debt(s.threads[t], r, v) else None
  }

  /** A step that leaves the stepping thread's own debt alone leaves what `v` is owed alone. */
  lemma OwedSame(s: State, s': State, t: Id, r: nat, v: Id)
    requires Locked(s) && Locked(s') && Shape(s) && Shape(s') && Framed(s, s', t)
    requires r < |s.rooms| && v in s.users
    requires t in s'.threads && DebtOf(s', t, r, v) == DebtOf(s, t, r, v)
    ensures Owed(s', r, v) == Owed(s, r, v)
  {
    assert RoomFramed(s.rooms[r], s'.rooms[r], t);
    if c :| c in s.threads && Debt(s.threads[c], r, v).Some? {
      OwedByDebtor(s, c, r, v);
      OwedByDebtor(s', c, r, v);
    } else {
      NothingOwed(s, r, v);
      NothingOwed(s', r, v);
    }
  }

  // ---- one step, seen by a receiver ----

  /** The steps that change what a receiver has obtained or is due; all others are quiet. */
  predicate Concerns(s: State, t: Id, a: Action, v: Id)
    requires Enabled(s, t, a)
  {
    || a.Begin?
    || (a.PushBack? && s.threads[t].pc.work.user == v)
    || (t == v && (a.Insert? || a.Login?))
  }

  lemma DebtOnWire(s: State, t: Id, a: Action, r: nat, v: Id)
    requires Enabled(s, t, a) && (a.Receive? || a.Respond? || a.HandOver?) && !Concerns(s, t, a, v)
    requires r < |s.rooms| && v in s.rooms[r].members && ThreadShape(s, t)
    ensures Debt(EffectOf(s, t, a).thread, r, v) == Debt(s.threads[t], r, v)
  {
  }

  lemma DebtOnLock(s: State, t: Id, a: Action, r: nat, v: Id)
    requires Enabled(s, t, a) && OnLock(a) && !Concerns(s, t, a, v)
    requires r < |s.rooms| && v in s.rooms[r].members && ThreadShape(s, t)
    ensures Debt(EffectOf(s, t, a).thread, r, v) == Debt(s.threads[t], r, v)
  {
  }

  lemma DebtOnMember(s: State, t: Id, a: Action, r: nat, v: Id)
    requires Enabled(s, t, a) && (a.Erase? || a.Insert? || a.Lookup?) && !Concerns(s, t, a, v)
    requires r < |s.rooms| && v in s.rooms[r].members && ThreadShape(s, t)
    ensures Debt(EffectOf(s, t, a).thread, r, v) == Debt(s.threads[t], r, v)
  {
  }

  /** A turn of the loop that skips `v` and the end of the loop cancel no debt: `v` has the
      sender's name in the one case and was visited in the other. */
  lemma DebtOnLoop(s: State, t: Id, a: Action, r: nat, v: Id)
    requires Enabled(s, t, a) && (a.VisitNext? || a.Finish?) && !Concerns(s, t, a, v)
    requires r < |s.rooms| && v in s.rooms[r].members && ThreadShape(s, t)
    requires a.VisitNext? && a.user == v ==> s.users[v].username != s.users[t].username
    ensures Debt(EffectOf(s, t, a).thread, r, v) == Debt(s.threads[t], r, v)
  {
  }

  lemma DebtOnQueue(s: State, t: Id, a: Action, r: nat, v: Id)
    requires Enabled(s, t, a) && OnQueue(a) && !Concerns(s, t, a, v)
    requires r < |s.rooms| && v in s.rooms[r].members && ThreadShape(s, t)
    ensures Debt(EffectOf(s, t, a).thread, r, v) == Debt(s.threads[t], r, v)
  {
  }

  lemma DebtSame(s: State, t: Id, a: Action, r: nat, v: Id)
    requires Shape(s) && Enabled(s, t, a) && !Concerns(s, t, a, v)
    requires r < |s.rooms| && v in s.rooms[r].members
    requires a.VisitNext? && a.user == v ==> s.users[v].username != s.users[t].username
    ensures Debt(EffectOf(s, t, a).thread, r, v) == DebtOf(s, t, r, v)
  {
    if a.Login? {
      assert Debt(EffectOf(s, t, a).thread, r, v).None?;
    } else {
      assert ThreadShape(s, t);
      if OnWire(a) { DebtOnWire(s, t, a, r, v); }
      else if OnLock(a) { DebtOnLock(s, t, a, r, v); }
      else if OnQueue(a) { DebtOnQueue(s, t, a, r, v); }
      else if a.VisitNext? || a.Finish? { DebtOnLoop(s, t, a, r, v); }
      else { DebtOnMember(s, t, a, r, v); }
    }
  }

  /** What the receiver itself has obtained only moves from the queue to the hand and from
      the hand to the log of what was sent. */
  lemma OwnObtained(s: State, v: Id, a: Action)
    requires Enabled(s, v, a) && !Concerns(s, v, a, v) && v in s.threads && v in s.users
    requires ThreadShape(s, v) && PcOk(s.threads[v].pc, s.clean) && s.threads[v].kind == Receiver
    ensures var s' := Apply(s, v, a);
            && v in s'.threads && v in s'.users
            && Obtained(s'.threads[v], s'.users[v]) == Obtained(s.threads[v], s.users[v])
  {
    if a.PopFront? {
      PopObtained(s, v);
    } else {
      MovedObtained(s, v, a);
    }
  }

  lemma PopObtained(s: State, v: Id)
    requires Enabled(s, v, PopFront) && ThreadShape(s, v)
    ensures var s' := Apply(s, v, PopFront);
            && v in s'.threads && v in s'.users
            && Obtained(s'.threads[v], s'.users[v]) == Obtained(s.threads[v], s.users[v])
  {
    var th, user := s.threads[v], s.users[v];
    if th.pc.work.got {
      assert user.messages == [user.messages[0]] + user.messages[1..];
    }
  }

  lemma MovedObtained(s: State, v: Id, a: Action)
    requires Enabled(s, v, a) && !Concerns(s, v, a, v) && !a.PopFront? && v in s.threads && v in s.users
    requires ThreadShape(s, v) && PcOk(s.threads[v].pc, s.clean) && s.threads[v].kind == Receiver
    ensures var s' := Apply(s, v, a);
            && v in s'.threads && v in s'.users
            && Obtained(s'.threads[v], s'.users[v]) == Obtained(s.threads[v], s.users[v])
  {
  }

  lemma OtherObtained(s: State, t: Id, a: Action, v: Id)
    requires Enabled(s, t, a) && !Concerns(s, t, a, v) && v in s.threads && v in s.users && t != v
    ensures var s' := Apply(s, t, a);
            && v in s'.threads && v in s'.users
            && Obtained(s'.threads[v], s'.users[v]) == Obtained(s.threads[v], s.users[v])
  {
  }

  /** A turn of the loop that skips a user of the sender's own name: nothing was owed. */
  lemma SkipOwesNothing(s: State, s': State, t: Id, r: nat, v: Id)
    requires Basic(s) && Basic(s') && Enabled(s, t, VisitNext(v)) && s' == Apply(s, t, VisitNext(v))
    requires s.users[v].username == s.users[t].username && r < |s.rooms|
    ensures Owed(s', r, v) == Owed(s, r, v)
  {
    StepFramed(s, t, VisitNext(v));
    if s.threads[t].room == Some(r) {
      SameNameOwesNothing(s, t, r, v);
      SameNameOwesNothing(s', t, r, v);
    } else {
      OwedSame(s, s', t, r, v);
    }
  }

  /** While `t` broadcasts in a room, nobody of t's name is owed anything there. */
  lemma SameNameOwesNothing(s: State, t: Id, r: nat, v: Id)
    requires Basic(s) && t in s.threads && t in s.users && Casting(s.threads[t].pc) && s.threads[t].room == Some(r)
    requires r < |s.rooms| && v in s.users && s.users[v].username == s.users[t].username
    ensures Owed(s, r, v) == []
  {
    assert HeldBy(s, t, RoomLock(r));
  }
}
