/** The room logs against the senders: what a sender has broadcast in a room, in log order,
    is exactly what the automaton of Session accepts from its requests there. */
module Ordered {
  import opened Text
  import opened Protocol
  import opened Session
  import opened Machine
  import opened Invariant
  import opened History

  /** The texts of one sender, in log order. */
  function TextsOf(log: seq<Entry>, t: Id): seq<string> {
    if log == [] then []
    else
      var last := log[|log| - 1];
      TextsOf(log[..|log| - 1], t) + if last.sender == t then [last.text] else []
  }

  lemma TextsAppend(log: seq<Entry>, e: Entry, t: Id)
    ensures TextsOf(log + [e], t) == TextsOf(log, t) + if e.sender == t then [e.text] else []
  {
    FrontOfAppend(log, e);
  }

  /** The requests whose broadcast, if any, has been entered in the log. */
  function Entered(th: Thread): seq<Request> {
    if th.pc.Section? && th.pc.work.Cast? && th.pc.stage != Done && th.requests != []
    then th.requests[..|th.requests| - 1] else th.requests
  }

  function AcceptedBy(s: State, t: Id, key: string): seq<string> {
    if t in s.threads && s.threads[t].kind == Sender then Accepted(Entered(s.threads[t]), key) else []
  }

  function LoggedFor(s: State, t: Id, key: string): seq<string>
    requires key in s.registry ==> s.registry[key] < |s.rooms|
  {
    if key in s.registry then TextsOf(s.rooms[s.registry[key]].log, t) else []
  }

  ghost predicate InOrder(s: State)
    requires Registered(s)
  {
    forall t: Id, key :: LoggedFor(s, t, key) == AcceptedBy(s, t, key)
  }

  /** Entries bear the name of their sender. */
  ghost predicate Signed(s: State) {
    forall r, i :: 0 <= r < |s.rooms| && 0 <= i < |s.rooms[r].log| ==>
      var e := s.rooms[r].log[i]; e.sender in s.users && s.users[e.sender].username == e.username
  }

  lemma SignedStep(s: State, t: Id, a: Action)
    requires Shape(s) && Signed(s) && Enabled(s, t, a)
    ensures Signed(Apply(s, t, a))
  {
    StepFramed(s, t, a);
    if a.Begin? {
      BeginSigned(s, t);
    } else {
      LogsSame(s, t, a);
    }
  }

  lemma BeginSigned(s: State, t: Id)
    requires Signed(s) && Enabled(s, t, Begin)
    ensures Signed(Apply(s, t, Begin))
  {
  }

  lemma LogsSame(s: State, t: Id, a: Action)
    requires Enabled(s, t, a) && !a.Begin?
    ensures var s' := Apply(s, t, a);
            && (forall r :: 0 <= r < |s.rooms| ==> s'.rooms[r].log == s.rooms[r].log)
            && (forall r :: |s.rooms| <= r < |s'.rooms| ==> s'.rooms[r].log == [])
  {
  }

  // ---- the thread's own requests ----

  lemma AcceptedAppend(requests: seq<Request>, request: Request, key: string)
    ensures Accepted(requests + [request], key) ==
            Accepted(requests, key) +
            if request.Sendall? && Spot(requests) == Some(key) then [request.text] else []
  {
    FrontOfAppend(requests, request);
  }

  /** Receiving a request enters nothing: an accepted sendall waits for its room lock, and
      a refused one is refused because the automaton is nowhere. */
  lemma ReceiveAccepts(s: State, t: Id, a: Action, key: string)
    requires Enabled(s, t, a) && a.Receive? && HistoryOf(s, t) && s.threads[t].kind == Sender
    ensures Accepted(Entered(EffectOf(s, t, a).thread), key) == Accepted(Entered(s.threads[t]), key)
  {
    var th, request := s.threads[t], ToRequest(a.got);
    FrontOfAppend(th.requests, request);
    AcceptedAppend(th.requests, request, key);
  }

  lemma BeginAccepts(s: State, t: Id, key: string)
    requires Enabled(s, t, Begin) && HistoryOf(s, t) && s.threads[t].kind == Sender
    ensures Accepted(Entered(EffectOf(s, t, Begin).thread), key) ==
            Accepted(Entered(s.threads[t]), key) +
            if s.rooms[s.threads[t].room.value].key == key then [s.threads[t].pc.work.text] else []
  {
  }

  lemma OtherAccepts(s: State, t: Id, a: Action)
    requires Enabled(s, t, a) && !a.Receive? && !a.Begin? && !a.Login? && ThreadShape(s, t) && HistoryOf(s, t)
    ensures var e := EffectOf(s, t, a);
            e.thread.kind == s.threads[t].kind &&
            (e.thread.kind == Sender ==> Entered(e.thread) == Entered(s.threads[t]))
  {
  }

  // ---- one step ----

  lemma LoggedSame(s: State, t: Id, a: Action, u: Id, key: string)
    requires Registered(s) && Shape(s) && Enabled(s, t, a) && Registered(Apply(s, t, a)) && !a.Begin?
    ensures LoggedFor(Apply(s, t, a), u, key) == LoggedFor(s, u, key)
  {
    StepFramed(s, t, a);
    LogsSame(s, t, a);
  }

  lemma BeginRooms(s: State, t: Id)
    requires Enabled(s, t, Begin)
    ensures var s', r := Apply(s, t, Begin), s.threads[t].room.value;
            && s'.registry == s.registry
            && s'.rooms == s.rooms[r := s.rooms[r].(log := s.rooms[r].log +
                                    [Entry(t, s.users[t].username, s.threads[t].pc.work.text)])]
  {
  }

  lemma LoggedBegin(s: State, t: Id, u: Id, key: string)
    requires Registered(s) && Enabled(s, t, Begin) && Registered(Apply(s, t, Begin))
    ensures LoggedFor(Apply(s, t, Begin), u, key) ==
            LoggedFor(s, u, key) +
            if u == t && s.rooms[s.threads[t].room.value].key == key then [s.threads[t].pc.work.text] else []
  {
    var r := s.threads[t].room.value;
    BeginRooms(s, t);
    assert key in s.registry && s.registry[key] == r <==> s.rooms[r].key == key;
    TextsAppend(s.rooms[r].log, Entry(t, s.users[t].username, s.threads[t].pc.work.text), u);
  }

  lemma AcceptedOther(s: State, t: Id, a: Action, u: Id, key: string)
    requires Shape(s) && Enabled(s, t, a) && u != t
    ensures AcceptedBy(Apply(s, t, a), u, key) == AcceptedBy(s, u, key)
  {
    StepFramed(s, t, a);
  }

  lemma AcceptedOwn(s: State, t: Id, a: Action, key: string)
    requires Shape(s) && Historical(s) && Enabled(s, t, a) && !a.Begin?
    ensures AcceptedBy(Apply(s, t, a), t, key) == AcceptedBy(s, t, key)
  {
    var e := EffectOf(s, t, a);
    assert Apply(s, t, a).threads[t] == e.thread;
    if !a.Login? {
      assert ThreadShape(s, t) && HistoryOf(s, t);
      if a.Receive? {
        if s.threads[t].kind == Sender {
          ReceiveAccepts(s, t, a, key);
        }
      } else {
        OtherAccepts(s, t, a);
      }
    }
  }

  lemma AcceptedBegin(s: State, t: Id, key: string)
    requires Shape(s) && Historical(s) && Enabled(s, t, Begin)
    ensures AcceptedBy(Apply(s, t, Begin), t, key) ==
            AcceptedBy(s, t, key) +
            if s.rooms[s.threads[t].room.value].key == key then [s.threads[t].pc.work.text] else []
  {
    assert ThreadShape(s, t) && HistoryOf(s, t);
    BeginAccepts(s, t, key);
  }

  lemma InOrderStep(s: State, t: Id, a: Action)
    requires Shape(s) && Registered(s) && Historical(s) && InOrder(s) && Enabled(s, t, a)
    requires Registered(Apply(s, t, a))
    ensures InOrder(Apply(s, t, a))
  {
    forall u: Id, key
      ensures LoggedFor(Apply(s, t, a), u, key) == AcceptedBy(Apply(s, t, a), u, key)
    {
      assert LoggedFor(s, u, key) == AcceptedBy(s, u, key);
      if a.Begin? {
        LoggedBegin(s, t, u, key);
        if u == t { AcceptedBegin(s, t, key); } else { AcceptedOther(s, t, a, u, key); }
      } else {
        LoggedSame(s, t, a, u, key);
        if u == t { AcceptedOwn(s, t, a, key); } else { AcceptedOther(s, t, a, u, key); }
      }
    }
  }
}
