/** What is in the queues: deliveries only, and well-formed ones as long as no client has
    sent a line with the tag "delivery" itself. */
module QueueContents {
  import opened Text
  import opened Protocol
  import opened Machine

  predicate MsgOk(m: Message, clean: bool) {
    m.tag == TAG_DELIVERY && (clean ==> WellFormed(m))
  }

  predicate TextOk(text: string, clean: bool) {
    clean ==> ':' !in text
  }

  predicate WorkOk(work: Work, clean: bool) {
    match work
    case Drop(name) => TextOk(name, clean)
    case Find(name) => TextOk(name, clean)
    case Cast(text) => TextOk(text, clean)
    case Push(text, _, _, msg) => TextOk(text, clean) && MsgOk(msg, clean)
    case Pop(_, hand) => hand.Some? ==> MsgOk(hand.value, clean)
    case _ => true
  }

  predicate PcOk(pc: Pc, clean: bool) {
    match pc
    case Section(_, work) => WorkOk(work, clean)
    case Visit(text, _) => TextOk(text, clean)
    case Post(text, _, _, msg) => TextOk(text, clean) && MsgOk(msg, clean)
    case Deliver(msg) => MsgOk(msg, clean)
    case _ => true
  }

  ghost predicate UserOk(user: User, clean: bool) {
    TextOk(user.username, clean) && forall i :: 0 <= i < |user.messages| ==> MsgOk(user.messages[i], clean)
  }

  ghost predicate Wholesome(s: State) {
    && (forall t :: t in s.threads ==> PcOk(s.threads[t].pc, s.clean))
    && (forall u :: u in s.users ==> UserOk(s.users[u], s.clean))
    && (forall r :: 0 <= r < |s.rooms| ==> TextOk(s.rooms[r].name, s.clean))
  }

  /** What `receive` guarantees about the data it stores. */
  predicate GotOk(a: Action) {
    (a.Login? || a.Receive?) && a.got.Received? && !BringsDelivery(a) ==> ':' !in a.got.msg.data
  }

  ghost predicate EffectWholesome(e: Effect, clean: bool) {
    && PcOk(e.thread.pc, clean)
    && (e.user.Some? ==> UserOk(e.user.value.1, clean))
    && (e.room.Some? ==> TextOk(e.room.value.1.name, clean))
  }

  lemma WirePcOk(s: State, t: Id, a: Action, clean: bool)
    requires Enabled(s, t, a) && OnWire(a) && GotOk(a)
    requires clean == (s.clean && !BringsDelivery(a))
    ensures EffectWholesome(EffectOf(s, t, a), clean)
  {
  }

  lemma LockPcOk(s: State, t: Id, a: Action)
    requires Wholesome(s) && Enabled(s, t, a) && OnLock(a)
    ensures EffectWholesome(EffectOf(s, t, a), s.clean)
  {
    assert PcOk(s.threads[t].pc, s.clean);
  }

  lemma PushPcOk(s: State, t: Id, a: Action)
    requires Wholesome(s) && Enabled(s, t, a) && (a.PushBack? || a.SemPost?)
    ensures EffectWholesome(EffectOf(s, t, a), s.clean)
  {
    assert PcOk(s.threads[t].pc, s.clean);
    if a.PushBack? {
      assert UserOk(s.users[s.threads[t].pc.work.user], s.clean);
    } else {
      assert UserOk(s.users[s.threads[t].pc.user], s.clean);
    }
  }

  lemma PopPcOk(s: State, t: Id, a: Action)
    requires Wholesome(s) && Enabled(s, t, a) && (a.SemWait? || a.TimeOut? || a.PopFront?)
    ensures EffectWholesome(EffectOf(s, t, a), s.clean)
  {
    assert PcOk(s.threads[t].pc, s.clean);
    if !a.TimeOut? {
      assert UserOk(s.users[t], s.clean);
    }
  }

  lemma RoomPcOk(s: State, t: Id, a: Action)
    requires Wholesome(s) && Enabled(s, t, a) && OnRoom(a)
    ensures EffectWholesome(EffectOf(s, t, a), s.clean)
  {
    assert PcOk(s.threads[t].pc, s.clean);
    if a.VisitNext? {
      VisitPcOk(s, t, a.user);
    }
  }

  lemma VisitPcOk(s: State, t: Id, user: Id)
    requires Wholesome(s) && Enabled(s, t, VisitNext(user))
    ensures EffectWholesome(EffectOf(s, t, VisitNext(user)), s.clean)
  {
    var th := s.threads[t];
    assert PcOk(th.pc, s.clean) && UserOk(s.users[t], s.clean);
    var room := s.rooms[th.room.value];
    var name := RemoveNewline(room.name);
    if s.clean {
      StillColonFree(room.name);
      StillColonFree(name);
      StillColonFree(s.users[t].username);
      StillColonFree(th.pc.text);
      DeliveryWellFormed(name, s.users[t].username, th.pc.text);
    }
  }

  lemma WholesomeCommit(s: State, t: Id, e: Effect, clean: bool)
    requires Wholesome(s) && (clean ==> s.clean) && EffectWholesome(e, clean)
    requires e.room.Some? ==> e.room.value.0 <= |s.rooms|
    ensures Wholesome(Commit(s, t, e, clean))
  {
    var s' := Commit(s, t, e, clean);
    forall u | u in s'.threads
      ensures PcOk(s'.threads[u].pc, clean)
    {
      if u != t {
        assert PcOk(s.threads[u].pc, s.clean);
      }
    }
  }

  lemma WholesomeStep(s: State, t: Id, a: Action)
    requires Wholesome(s) && Enabled(s, t, a) && GotOk(a)
    ensures Wholesome(Apply(s, t, a))
  {
    var clean := s.clean && !BringsDelivery(a);
    if OnWire(a) {
      WirePcOk(s, t, a, clean);
    } else if OnRoom(a) {
      RoomPcOk(s, t, a);
    } else if OnLock(a) {
      LockPcOk(s, t, a);
    } else if a.PushBack? || a.SemPost? {
      PushPcOk(s, t, a);
    } else {
      PopPcOk(s, t, a);
    }
    WholesomeCommit(s, t, EffectOf(s, t, a), clean);
  }
}
