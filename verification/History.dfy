/** Each thread against the requests it has received: its membership, its room pointer and
    its replies are at every program counter what the automaton of Session prescribes. */
module History {
  import opened Text
  import opened Protocol
  import opened Session
  import opened Machine
  import opened Invariant
  import opened QueueContents

  /** A thread's user is in no room, in the room of its local pointer only, or neither. */
  datatype Place = Out | Inside | Elsewhere

  ghost predicate MemberOnlyOf(s: State, t: Id, room: Option<nat>) {
    forall r :: 0 <= r < |s.rooms| ==> (t in s.rooms[r].members <==> room == Some(r))
  }

  ghost function PlaceOf(s: State, t: Id, th: Thread): Place {
    if MemberOnlyOf(s, t, None) then Out
    else if th.room.Some? && MemberOnlyOf(s, t, th.room) then Inside
    else Elsewhere
  }

  /** The name of the room of the local pointer. */
  function KeyOf(s: State, th: Thread): Option<string> {
    if HasRoom(s, th) then Some(s.rooms[th.room.value].key) else None
  }

  predicate SpotIs(spot: Option<string>, key: Option<string>, place: Place) {
    if spot.None? then place == Out else place == Inside && key == spot
  }

  function Last(th: Thread): Request
    requires th.requests != []
  {
    th.requests[|th.requests| - 1]
  }

  function Front(th: Thread): seq<Request>
    requires th.requests != []
  {
    th.requests[..|th.requests| - 1]
  }

  /** Between two requests. */
  predicate Settled(th: Thread, key: Option<string>, place: Place) {
    SpotIs(Spot(th.requests), key, place) && Asked(th.requests) == key
  }

  /** In the middle of a join, leave or sendall. */
  predicate WorkHistory(th: Thread, stage: Stage, work: Work, key: Option<string>, place: Place)
    requires th.requests != []
  {
    match work
    case Drop(name) =>
      && Last(th) == Join(name) && key.Some? && Asked(Front(th)) == key
      && (if stage == Done then place == Out else SpotIs(Spot(Front(th)), key, place))
    case Find(name) =>
      Last(th) == Join(name) && place == Out && key == (if stage == Done then Some(name) else Asked(Front(th)))
    case Add =>
      key.Some? && Last(th) == Join(key.value) && place == (if stage == Done then Inside else Out)
    case Remove =>
      && Last(th) == Leave && key.Some? && Spot(Front(th)) == key && Asked(Front(th)) == key
      && place == (if stage == Done then Out else Inside)
    case Cast(text) => CastHistory(th, text, key, place)
    case Push(text, _, _, _) => CastHistory(th, text, key, place)
    case Pop(_, _) => false
  }

  predicate CastHistory(th: Thread, text: string, key: Option<string>, place: Place)
    requires th.requests != []
  {
    Last(th) == Sendall(text) && key.Some? && Spot(Front(th)) == key && Asked(Front(th)) == key && place == Inside
  }

  predicate SenderHistory(th: Thread, key: Option<string>, place: Place) {
    match th.pc
    case Recv =>
      && (th.requests != [] ==> !Ends(Last(th)))
      && Settled(th, key, place) && th.replies == [SENDER_LOGGED_IN] + Replies(th.requests)
    case Stopped =>
      && th.requests != [] && Ends(Last(th))
      && Settled(th, key, place) && th.replies == [SENDER_LOGGED_IN] + Replies(th.requests)
    case Reply(msg, next) =>
      && Settled(th, key, place)
      && (if th.requests == [] then msg == SENDER_LOGGED_IN && next == ThenRecv && th.replies == []
          else
            && th.replies == [SENDER_LOGGED_IN] + Replies(Front(th))
            && msg == ReplyTo(Spot(Front(th)), Last(th))
            && next == (if Ends(Last(th)) then ThenStop else ThenRecv))
    case Section(stage, work) => Working(th) && WorkHistory(th, stage, work, key, place)
    case Visit(text, _) => Working(th) && CastHistory(th, text, key, place)
    case Post(text, _, _, _) => Working(th) && CastHistory(th, text, key, place)
    case _ => false
  }

  predicate Working(th: Thread) {
    th.requests != [] && th.replies == [SENDER_LOGGED_IN] + Replies(Front(th))
  }

  const WELCOME := [RECEIVER_LOGGED_IN, JOIN_DONE]

  predicate ReceiverHistory(th: Thread, key: Option<string>, place: Place) {
    var joined := key.Some? && th.requests == [Join(key.value)];
    match th.pc
    case Recv =>
      key.None? && place == Out && th.requests == [] && th.replies == [RECEIVER_LOGGED_IN]
    case Reply(msg, next) =>
      match next {
        case ThenRecv => key.None? && place == Out && th.requests == [] && th.replies == [] && msg == RECEIVER_LOGGED_IN
        case ThenWait => joined && place == Inside && th.replies == [RECEIVER_LOGGED_IN] && msg == JOIN_DONE
        case ThenStop =>
          && key.None? && place == Out && RefusedJoin(th)
          && th.replies == [RECEIVER_LOGGED_IN] && msg == Refusal(th.requests[0])
      }
    case Stopped =>
      && key.None? && place == Out && RefusedJoin(th)
      && th.replies == [RECEIVER_LOGGED_IN, Refusal(th.requests[0])]
    case Wait => joined && place == Inside && th.replies == WELCOME
    case Deliver(_) => joined && place == Inside && th.replies == WELCOME
    case Section(stage, work) =>
      match work {
        case Find(name) =>
          && place == Out && th.requests == [Join(name)] && th.replies == [RECEIVER_LOGGED_IN]
          && key == (if stage == Done then Some(name) else None)
        case Add => joined && place == (if stage == Done then Inside else Out) && th.replies == [RECEIVER_LOGGED_IN]
        case Pop(_, _) => joined && place == Inside && th.replies == WELCOME
        case _ => false
      }
    case _ => false
  }

  /** The answer to a first line other than a join. */
  function Refusal(request: Request): Message {
    if request.Garbled? then RECEIVE_ERROR else JOIN_EXPECTED
  }

  predicate RefusedHistory(th: Thread) {
    match th.pc
    case Reply(msg, _) => msg == LOGIN_REFUSED && th.replies == []
    case Stopped => th.replies == [LOGIN_REFUSED]
    case _ => false
  }

  predicate RefusedJoin(th: Thread) {
    |th.requests| == 1 && !th.requests[0].Join?
  }

  predicate ThreadHistory(th: Thread, key: Option<string>, place: Place) {
    && (place == Out || th.kind != Receiver ==> th.delivered == [])
    && match th.kind
       case Refused => place == Out && key.None? && th.requests == [] && RefusedHistory(th)
       case Sender => SenderHistory(th, key, place)
       case Receiver => ReceiverHistory(th, key, place)
  }

  ghost predicate HistoryOf(s: State, t: Id)
    requires t in s.threads
  {
    ThreadHistory(s.threads[t], KeyOf(s, s.threads[t]), PlaceOf(s, t, s.threads[t]))
  }

  ghost predicate Historical(s: State) {
    forall t :: t in s.threads ==> HistoryOf(s, t)
  }

  // ---- the thread's own step ----

  function KeyAfter(s: State, t: Id, a: Action): Option<string>
    requires Enabled(s, t, a)
  {
    if a.Login? then None
    else if a.Lookup? then Some(s.threads[t].pc.work.name)
    else KeyOf(s, s.threads[t])
  }

  ghost function PlaceAfter(s: State, t: Id, a: Action): Place
    requires Enabled(s, t, a)
  {
    if a.Login? || a.Erase? then Out
    else if a.Insert? then Inside
    else PlaceOf(s, t, s.threads[t])
  }

  lemma LoginHistory(s: State, t: Id, a: Action)
    requires Enabled(s, t, a) && a.Login?
    ensures ThreadHistory(EffectOf(s, t, a).thread, KeyAfter(s, t, a), PlaceAfter(s, t, a))
  {
  }

  lemma FrontOfAppend<T>(xs: seq<T>, x: T)
    ensures (xs + [x])[..|xs + [x]| - 1] == xs && (xs + [x])[|xs|] == x
  {
  }

  lemma ReceiveHistory(s: State, t: Id, a: Action)
    requires Enabled(s, t, a) && a.Receive? && HistoryOf(s, t) && ThreadShape(s, t)
    ensures ThreadHistory(EffectOf(s, t, a).thread, KeyAfter(s, t, a), PlaceAfter(s, t, a))
  {
    if s.threads[t].kind == Sender {
      SenderReceives(s, t, a);
    } else {
      ReceiverReceives(s, t, a);
    }
  }

  lemma SenderReceives(s: State, t: Id, a: Action)
    requires Enabled(s, t, a) && a.Receive? && HistoryOf(s, t) && ThreadShape(s, t) && s.threads[t].kind == Sender
    ensures ThreadHistory(EffectOf(s, t, a).thread, KeyAfter(s, t, a), PlaceAfter(s, t, a))
  {
    FrontOfAppend(s.threads[t].requests, ToRequest(a.got));
  }

  lemma ReceiverReceives(s: State, t: Id, a: Action)
    requires Enabled(s, t, a) && a.Receive? && HistoryOf(s, t) && ThreadShape(s, t) && s.threads[t].kind != Sender
    ensures ThreadHistory(EffectOf(s, t, a).thread, KeyAfter(s, t, a), PlaceAfter(s, t, a))
  {
    FrontOfAppend(s.threads[t].requests, ToRequest(a.got));
  }

  lemma ReplyHistory(s: State, t: Id, a: Action)
    requires Enabled(s, t, a) && (a.Respond? || a.HandOver?) && HistoryOf(s, t) && ThreadShape(s, t)
    ensures ThreadHistory(EffectOf(s, t, a).thread, KeyAfter(s, t, a), PlaceAfter(s, t, a))
  {
  }

  lemma LockHistory(s: State, t: Id, a: Action)
    requires Enabled(s, t, a) && OnLock(a) && HistoryOf(s, t) && ThreadShape(s, t)
    requires PcOk(s.threads[t].pc, s.clean)
    ensures ThreadHistory(EffectOf(s, t, a).thread, KeyAfter(s, t, a), PlaceAfter(s, t, a))
  {
  }

  lemma MemberHistory(s: State, t: Id, a: Action)
    requires Enabled(s, t, a) && (a.Erase? || a.Insert? || a.Lookup?) && HistoryOf(s, t) && ThreadShape(s, t)
    ensures ThreadHistory(EffectOf(s, t, a).thread, KeyAfter(s, t, a), PlaceAfter(s, t, a))
  {
  }

  lemma BeginHistory(s: State, t: Id)
    requires Enabled(s, t, Begin) && HistoryOf(s, t) && ThreadShape(s, t)
    ensures ThreadHistory(EffectOf(s, t, Begin).thread, KeyAfter(s, t, Begin), PlaceAfter(s, t, Begin))
  {
  }

  lemma VisitHistory(s: State, t: Id, user: Id)
    requires Enabled(s, t, VisitNext(user)) && HistoryOf(s, t) && ThreadShape(s, t)
    ensures var a := VisitNext(user);
            ThreadHistory(EffectOf(s, t, a).thread, KeyAfter(s, t, a), PlaceAfter(s, t, a))
  {
  }

  lemma FinishHistory(s: State, t: Id)
    requires Enabled(s, t, Finish) && HistoryOf(s, t) && ThreadShape(s, t)
    ensures ThreadHistory(EffectOf(s, t, Finish).thread, KeyAfter(s, t, Finish), PlaceAfter(s, t, Finish))
  {
  }

  lemma PushHistory(s: State, t: Id, a: Action)
    requires Enabled(s, t, a) && (a.PushBack? || a.SemPost?) && HistoryOf(s, t) && ThreadShape(s, t)
    ensures ThreadHistory(EffectOf(s, t, a).thread, KeyAfter(s, t, a), PlaceAfter(s, t, a))
  {
  }

  lemma PopHistory(s: State, t: Id, a: Action)
    requires Enabled(s, t, a) && (a.SemWait? || a.TimeOut? || a.PopFront?) && HistoryOf(s, t) && ThreadShape(s, t)
    ensures ThreadHistory(EffectOf(s, t, a).thread, KeyAfter(s, t, a), PlaceAfter(s, t, a))
  {
  }

  lemma QueueHistory(s: State, t: Id, a: Action)
    requires Enabled(s, t, a) && OnQueue(a) && HistoryOf(s, t) && ThreadShape(s, t)
    ensures ThreadHistory(EffectOf(s, t, a).thread, KeyAfter(s, t, a), PlaceAfter(s, t, a))
  {
    if a.PushBack? || a.SemPost? { PushHistory(s, t, a); } else { PopHistory(s, t, a); }
  }

  lemma RoomHistory(s: State, t: Id, a: Action)
    requires Enabled(s, t, a) && OnRoom(a) && HistoryOf(s, t) && ThreadShape(s, t)
    ensures ThreadHistory(EffectOf(s, t, a).thread, KeyAfter(s, t, a), PlaceAfter(s, t, a))
  {
    if a.Begin? { BeginHistory(s, t); }
    else if a.VisitNext? { VisitHistory(s, t, a.user); }
    else if a.Finish? { FinishHistory(s, t); }
    else { MemberHistory(s, t, a); }
  }

  lemma EffectHistory(s: State, t: Id, a: Action)
    requires Shape(s) && Wholesome(s) && Historical(s) && Enabled(s, t, a)
    ensures ThreadHistory(EffectOf(s, t, a).thread, KeyAfter(s, t, a), PlaceAfter(s, t, a))
  {
    if a.Login? {
      LoginHistory(s, t, a);
    } else {
      assert ThreadShape(s, t) && HistoryOf(s, t) && PcOk(s.threads[t].pc, s.clean);
      if a.Receive? { ReceiveHistory(s, t, a); }
      else if OnWire(a) { ReplyHistory(s, t, a); }
      else if OnLock(a) { LockHistory(s, t, a); }
      else if OnQueue(a) { QueueHistory(s, t, a); }
      else { RoomHistory(s, t, a); }
    }
  }

  // ---- key and place after a step ----

  lemma MemberPlace(s: State, t: Id, a: Action)
    requires Enabled(s, t, a) && (a.Erase? || a.Insert?) && HistoryOf(s, t) && ThreadShape(s, t)
    ensures var s' := Apply(s, t, a);
            KeyOf(s', s'.threads[t]) == KeyAfter(s, t, a) && PlaceOf(s', t, s'.threads[t]) == PlaceAfter(s, t, a)
  {
    var th, s' := s.threads[t], Apply(s, t, a);
    assert MemberOnlyOf(s, t, None) || MemberOnlyOf(s, t, th.room);
    assert forall r :: 0 <= r < |s.rooms| && r != th.room.value ==> s'.rooms[r] == s.rooms[r];
    if a.Erase? {
      assert MemberOnlyOf(s', t, None);
    } else {
      assert MemberOnlyOf(s, t, None);
      assert t in s'.rooms[th.room.value].members && MemberOnlyOf(s', t, th.room);
    }
  }

  lemma LookupPlace(s: State, t: Id)
    requires Enabled(s, t, Lookup) && HistoryOf(s, t) && Registered(s)
    ensures var s' := Apply(s, t, Lookup);
            && KeyOf(s', s'.threads[t]) == KeyAfter(s, t, Lookup)
            && PlaceOf(s', t, s'.threads[t]) == PlaceAfter(s, t, Lookup)
  {
    assert MemberOnlyOf(s, t, None);
    LookedUp(s, t);
    assert MemberOnlyOf(Apply(s, t, Lookup), t, None);
  }

  /** The room looked up bears the name asked for; a new one has no members. */
  lemma LookedUp(s: State, t: Id)
    requires Enabled(s, t, Lookup) && Registered(s)
    ensures var s' := Apply(s, t, Lookup);
            && KeyOf(s', s'.threads[t]) == Some(s.threads[t].pc.work.name)
            && |s.rooms| <= |s'.rooms|
            && (forall r :: 0 <= r < |s.rooms| ==> s'.rooms[r] == s.rooms[r])
            && (forall r :: |s.rooms| <= r < |s'.rooms| ==> s'.rooms[r].members == {})
  {
  }

  lemma LoginPlace(s: State, t: Id, a: Action)
    requires Enabled(s, t, a) && a.Login? && Shape(s)
    ensures var s' := Apply(s, t, a);
            KeyOf(s', s'.threads[t]) == KeyAfter(s, t, a) && PlaceOf(s', t, s'.threads[t]) == PlaceAfter(s, t, a)
  {
    var s' := Apply(s, t, a);
    assert MemberOnlyOf(s', t, None);
  }

  /** No other step changes a membership, a key or the thread's room pointer. */
  predicate KeepsPlaces(a: Action) {
    !a.Login? && !a.Erase? && !a.Insert? && !a.Lookup?
  }

  lemma OtherPlace(s: State, t: Id, a: Action)
    requires Enabled(s, t, a) && KeepsPlaces(a)
    ensures var s' := Apply(s, t, a);
            KeyOf(s', s'.threads[t]) == KeyAfter(s, t, a) && PlaceOf(s', t, s'.threads[t]) == PlaceAfter(s, t, a)
  {
    var th, s' := s.threads[t], Apply(s, t, a);
    SameMembers(s, t, a);
    assert MemberOnlyOf(s', t, None) <==> MemberOnlyOf(s, t, None);
    assert MemberOnlyOf(s', t, th.room) <==> MemberOnlyOf(s, t, th.room);
  }

  lemma SameMembers(s: State, t: Id, a: Action)
    requires Enabled(s, t, a) && KeepsPlaces(a)
    ensures var s' := Apply(s, t, a);
            && |s'.rooms| == |s.rooms| && s'.threads[t].room == s.threads[t].room
            && forall r :: 0 <= r < |s.rooms| ==>
                 s'.rooms[r].members == s.rooms[r].members && s'.rooms[r].key == s.rooms[r].key
  {
  }

  lemma OwnHistory(s: State, t: Id, a: Action)
    requires Shape(s) && Registered(s) && Wholesome(s) && Historical(s) && Enabled(s, t, a)
    ensures HistoryOf(Apply(s, t, a), t)
  {
    EffectHistory(s, t, a);
    if a.Login? {
      LoginPlace(s, t, a);
    } else {
      assert ThreadShape(s, t) && HistoryOf(s, t);
      if a.Erase? || a.Insert? { MemberPlace(s, t, a); }
      else if a.Lookup? { LookupPlace(s, t); }
      else { OtherPlace(s, t, a); }
    }
  }

  /** The other threads notice nothing. */
  lemma OthersPlace(s: State, s': State, t: Id, u: Id)
    requires Framed(s, s', t) && u in s.threads && u != t && ThreadShape(s, u)
    ensures var th := s.threads[u];
            s'.threads[u] == th && KeyOf(s', th) == KeyOf(s, th) && PlaceOf(s', u, th) == PlaceOf(s, u, th)
  {
    var th := s.threads[u];
    assert forall r :: 0 <= r < |s.rooms| ==>
        (u in s'.rooms[r].members <==> u in s.rooms[r].members) by {
      forall r | 0 <= r < |s.rooms|
        ensures u in s'.rooms[r].members <==> u in s.rooms[r].members
      {
        assert RoomFramed(s.rooms[r], s'.rooms[r], t);
        assert u in s'.rooms[r].members <==> u in s'.rooms[r].members - {t};
      }
    }
    assert MemberOnlyOf(s', u, None) <==> MemberOnlyOf(s, u, None);
    assert th.room.Some? ==> (MemberOnlyOf(s', u, th.room) <==> MemberOnlyOf(s, u, th.room));
  }

  lemma HistoryStep(s: State, t: Id, a: Action)
    requires Shape(s) && Registered(s) && Wholesome(s) && Historical(s) && Enabled(s, t, a)
    ensures Historical(Apply(s, t, a))
  {
    var s' := Apply(s, t, a);
    StepFramed(s, t, a);
    forall u | u in s'.threads
      ensures HistoryOf(s', u)
    {
      if u == t {
        OwnHistory(s, t, a);
      } else {
        assert ThreadShape(s, u) && HistoryOf(s, u);
        OthersPlace(s, s', t, u);
      }
    }
  }
}
