/** What one line of a client does, from the moment it is received to the moment its thread
    is ready for the next: the answer, letter by letter, the membership and the logs. All of
    it is read off the states in which the line is received and answered. */
module Requests {
  import opened Text
  import opened Protocol
  import opened Session
  import opened Machine
  import opened Invariant
  import opened History
  import opened Ordered
  import opened Theorems

  // ---- a sender's request ----

  /** A member of some room. */
  ghost predicate InSomeRoom(s: State, t: Id) {
    exists r :: 0 <= r < |s.rooms| && t in s.rooms[r].members
  }

  function Answer(request: Request, inRoom: bool): Message {
    match request
    case Garbled => Message("err", "Receive error")
    case Quit => Message("ok", "Quit successful")
    case Join(_) => Message("ok", "Join successful")
    case Leave =>
      if inRoom then Message("ok", "Leave successful")
      else Message("err", "Leave unsuccessful, user isn't in the room")
    case Sendall(_) =>
      if inRoom then Message("ok", "Sendall successful")
      else Message("err", "Sendall unsuccessful, user isn't in a room")
  }

  /** Thread `t` is a sender about to receive, or has stopped. */
  ghost predicate Ready(s: State, t: Id) {
    t in s.threads && s.threads[t].kind == Sender && Resting(s.threads[t].pc)
  }

  /** From `s`, where `t` was ready, to `s'`, where it is ready again, it received `request`
      and nothing else. */
  ghost predicate OneRequest(s: State, s': State, t: Id, request: Request) {
    && Ready(s, t) && Ready(s', t)
    && s'.threads[t].requests == s.threads[t].requests + [request]
  }

  /** The answer is that to the request, and to whether the user was in a room; and the
      thread stops after a quit or an unreadable line only. */
  ghost predicate Answered(s: State, s': State, t: Id, request: Request)
    requires t in s.threads && t in s'.threads
  {
    && s'.threads[t].replies == s.threads[t].replies + [Answer(request, InSomeRoom(s, t))]
    && (s'.threads[t].pc.Stopped? <==> request.Quit? || request.Garbled?)
  }

  /** A join puts the user into the room of that name only, a leave into none; nothing else
      moves it. */
  ghost predicate Moved(s: State, s': State, t: Id, request: Request) {
    forall r :: 0 <= r < |s'.rooms| ==>
      (t in s'.rooms[r].members <==>
       match request
       case Join(name) => s'.rooms[r].key == name
       case Leave => false
       case _ => r < |s.rooms| && t in s.rooms[r].members)
  }

  /** A sendall adds its text to the log of the room the user is in, if any; nothing else
      adds anything of this user's to any log. */
  ghost predicate Said(s: State, s': State, t: Id, request: Request) {
    forall r :: 0 <= r < |s'.rooms| ==>
      (TextsOf(s'.rooms[r].log, t) ==
       (if r < |s.rooms| then TextsOf(s.rooms[r].log, t) else []) +
       (if request.Sendall? && r < |s.rooms| && t in s.rooms[r].members then [request.text] else []))
  }

  /** Every request of every sender in every run. */
  lemma AnsweredExactly(run: Run, k: nat, n: nat, t: Id, request: Request)
    requires IsRun(run) && k <= n <= |run.steps| && OneRequest(run.states[k], run.states[n], t, request)
    ensures Answered(run.states[k], run.states[n], t, request)
    ensures Moved(run.states[k], run.states[n], t, request)
    ensures Said(run.states[k], run.states[n], t, request)
  {
    var s, s' := run.states[k], run.states[n];
    AlwaysInv(run, k);
    AlwaysInv(run, n);
    KeysStay(run, k, n);
    ReadySettled(s, t);
    ReadySettled(s', t);
    AnswerOf(s, s', t, request);
    MoveOf(s, s', t, request);
    SaidOf(s, s', t, request);
  }

  ghost predicate SameKeys(s: State, s': State) {
    |s.rooms| <= |s'.rooms| && forall r :: 0 <= r < |s.rooms| ==> s'.rooms[r].key == s.rooms[r].key
  }

  lemma KeysStay(run: Run, k: nat, n: nat)
    requires IsRun(run) && k <= n <= |run.steps|
    ensures SameKeys(run.states[k], run.states[n])
  {
    RegistryGrows(run, k, n, "");
  }

  /** What the automaton says of a ready thread. */
  ghost predicate AsAutomaton(s: State, t: Id)
    requires t in s.threads
  {
    var th := s.threads[t];
    && th.replies == [SENDER_LOGGED_IN] + Replies(th.requests)
    && (forall r :: 0 <= r < |s.rooms| ==>
          (t in s.rooms[r].members <==> Spot(th.requests) == Some(s.rooms[r].key)))
    && (Spot(th.requests).Some? ==>
          exists r :: 0 <= r < |s.rooms| && s.rooms[r].key == Spot(th.requests).value)
    && (th.pc.Stopped? <==> th.requests != [] && Ends(Last(th)))
  }

  lemma ReadySettled(s: State, t: Id)
    requires Inv(s) && Ready(s, t)
    ensures AsAutomaton(s, t)
  {
    assert ThreadShape(s, t) && HistoryOf(s, t);
    SettledAsAutomaton(s, t);
  }

  lemma SettledAsAutomaton(s: State, t: Id)
    requires Registered(s) && Ready(s, t) && ThreadShape(s, t) && HistoryOf(s, t)
    ensures AsAutomaton(s, t)
  {
    SettledMembership(s, t);
    SpotHasRoom(s, t);
    if s.threads[t].pc.Recv? {
      RecvGoesOn(s, t);
    }
  }

  lemma SpotHasRoom(s: State, t: Id)
    requires Registered(s) && t in s.threads
    ensures var spot := Spot(s.threads[t].requests);
            spot.Some? && spot.value in s.registry ==> exists r :: 0 <= r < |s.rooms| && s.rooms[r].key == spot.value
  {
  }

  lemma RecvGoesOn(s: State, t: Id)
    requires t in s.threads && s.threads[t].kind == Sender && HistoryOf(s, t) && s.threads[t].pc.Recv?
    ensures s.threads[t].requests != [] ==> !Ends(Last(s.threads[t]))
  {
  }

  lemma AnswerOf(s: State, s': State, t: Id, request: Request)
    requires OneRequest(s, s', t, request) && AsAutomaton(s, t) && AsAutomaton(s', t)
    ensures Answered(s, s', t, request)
  {
    var front := s.threads[t].requests;
    FrontOfAppend(front, request);
    ReplyExactly(Spot(front), request);
    InRoomIffSpot(s, t);
    Associate([SENDER_LOGGED_IN], Replies(front), [ReplyTo(Spot(front), request)]);
  }

  lemma InRoomIffSpot(s: State, t: Id)
    requires t in s.threads && AsAutomaton(s, t)
    ensures InSomeRoom(s, t) <==> Spot(s.threads[t].requests).Some?
  {
  }

  lemma MoveOf(s: State, s': State, t: Id, request: Request)
    requires OneRequest(s, s', t, request) && AsAutomaton(s, t) && AsAutomaton(s', t)
    requires SameKeys(s, s') && Registered(s')
    ensures Moved(s, s', t, request)
  {
    var front := s.threads[t].requests;
    FrontOfAppend(front, request);
    SpotOfAppend(front, request);
    forall r | 0 <= r < |s'.rooms|
      ensures Spot(front) == Some(s'.rooms[r].key) <==> r < |s.rooms| && t in s.rooms[r].members
    {
      OldRoom(s, s', t, r);
    }
  }

  lemma SpotOfAppend(front: seq<Request>, request: Request)
    ensures Spot(front + [request]) == match request
                                       case Join(name) => Some(name)
                                       case Leave => None
                                       case _ => Spot(front)
  {
    FrontOfAppend(front, request);
  }

  /** The room a user is in is one that there was. */
  lemma OldRoom(s: State, s': State, t: Id, r: nat)
    requires t in s.threads && AsAutomaton(s, t) && SameKeys(s, s') && Registered(s') && r < |s'.rooms|
    ensures Spot(s.threads[t].requests) == Some(s'.rooms[r].key) <==> r < |s.rooms| && t in s.rooms[r].members
  {
    if Spot(s.threads[t].requests) == Some(s'.rooms[r].key) {
      var q :| 0 <= q < |s.rooms| && s.rooms[q].key == s'.rooms[r].key;
      assert s'.registry[s'.rooms[q].key] == q && s'.registry[s'.rooms[r].key] == r;
    }
  }

  lemma SaidOf(s: State, s': State, t: Id, request: Request)
    requires OneRequest(s, s', t, request) && AsAutomaton(s, t) && SameKeys(s, s')
    requires Registered(s) && InOrder(s) && Registered(s') && InOrder(s')
    ensures Said(s, s', t, request)
  {
    var front := s.threads[t].requests;
    forall r | 0 <= r < |s'.rooms|
      ensures TextsOf(s'.rooms[r].log, t) ==
              (if r < |s.rooms| then TextsOf(s.rooms[r].log, t) else []) +
              (if request.Sendall? && r < |s.rooms| && t in s.rooms[r].members then [request.text] else [])
    {
      var key := s'.rooms[r].key;
      OldRoom(s, s', t, r);
      LogIsAccepted(s', r, t);
      AcceptedAppend(front, request, key);
      SaidBefore(s, s', t, r);
    }
  }

  lemma SaidBefore(s: State, s': State, t: Id, r: nat)
    requires Ready(s, t) && SameKeys(s, s') && Registered(s) && InOrder(s) && Registered(s') && r < |s'.rooms|
    ensures Accepted(s.threads[t].requests, s'.rooms[r].key) ==
            if r < |s.rooms| then TextsOf(s.rooms[r].log, t) else []
  {
    var key := s'.rooms[r].key;
    if r < |s.rooms| {
      LogIsAccepted(s, r, t);
    } else {
      NewKey(s, s', r);
      assert LoggedFor(s, t, key) == AcceptedBy(s, t, key);
    }
  }

  lemma NewKey(s: State, s': State, r: nat)
    requires SameKeys(s, s') && Registered(s) && Registered(s') && |s.rooms| <= r < |s'.rooms|
    ensures s'.rooms[r].key !in s.registry
  {
  }

  // ---- the first line ----

  /** The three kinds of thread, told from the first line. */
  function KindOfLine(line: string): Kind {
    var got := Parse(line);
    if got.Received? && got.msg.tag == "slogin" then Sender
    else if got.Received? && got.msg.tag == "rlogin" then Receiver
    else Refused
  }

  function LoginAnswer(kind: Kind): Message {
    match kind
    case Sender => Message("ok", "Sender logged in")
    case Receiver => Message("ok", "Receiver logged in")
    case Refused => Message("err", "Login unsuccessful")
  }

  /** Thread `t` began with this line: the line made it what it is, named its user, and got
      its first answer. */
  ghost predicate BeganWith(s: State, t: Id, line: string)
    requires t in s.threads
  {
    var th, got := s.threads[t], Parse(line);
    && th.kind == KindOfLine(line)
    && (t in s.users <==> th.kind != Refused)
    && (th.kind != Refused ==> got.Received? && s.users[t].username == got.msg.data)
    && (if th.replies == [] then th.pc.Reply? && th.pc.msg == LoginAnswer(th.kind)
        else th.replies[0] == LoginAnswer(th.kind))
  }

  /** Every thread of every run began with a line. */
  lemma {:induction false} LoginExactly(run: Run, n: nat, t: Id)
    requires IsRun(run) && n <= |run.steps| && t in run.states[n].threads
    ensures exists k :: 0 <= k < n && run.steps[k].thread == t && run.steps[k].action.Login? &&
                        BeganWith(run.states[n], t, run.steps[k].line)
  {
    AlwaysInv(run, n - 1);
    var s, step, s' := run.states[n - 1], run.steps[n - 1], run.states[n];
    if t in s.threads {
      LoginExactly(run, n - 1, t);
      var k :| 0 <= k < n - 1 && run.steps[k].thread == t && run.steps[k].action.Login? &&
               BeganWith(s, t, run.steps[k].line);
      StillBegan(s, step.thread, step.action, t, run.steps[k].line);
    } else {
      BeginsWith(s, step, s', t);
    }
  }

  lemma BeginsWith(s: State, step: Step, s': State, t: Id)
    requires Shape(s) && Follows(s, step, s') && t !in s.threads && t in s'.threads
    ensures step.thread == t && step.action.Login? && BeganWith(s', t, step.line)
  {
    StepFramed(s, step.thread, step.action);
  }

  lemma StillBegan(s: State, u: Id, a: Action, t: Id, line: string)
    requires Shape(s) && Enabled(s, u, a) && t in s.threads && BeganWith(s, t, line)
    ensures t in Apply(s, u, a).threads && BeganWith(Apply(s, u, a), t, line)
  {
    StepFramed(s, u, a);
    if u == t {
      OwnBegan(s, t, a);
    }
  }

  lemma OwnBegan(s: State, t: Id, a: Action)
    requires Enabled(s, t, a) && t in s.threads
    ensures var th, th' := s.threads[t], Apply(s, t, a).threads[t];
            && th'.kind == th.kind && (t in Apply(s, t, a).users <==> t in s.users)
            && (if a.Respond? then th.pc.Reply? && th'.replies == th.replies + [th.pc.msg]
                else th'.replies == th.replies && (th.pc.Reply? ==> th' == th))
  {
  }

  // ---- a receiver's only request ----

  ghost predicate InRoomCalled(s: State, v: Id, name: string) {
    forall r :: 0 <= r < |s.rooms| ==> (v in s.rooms[r].members <==> s.rooms[r].key == name)
  }

  /** Where a receiver's thread can rest, what it has answered and where its user is: before
      its first line, after a join, or refused. */
  ghost predicate ReceiverRests(s: State, v: Id)
    requires v in s.threads
  {
    var th, hello := s.threads[v], Message("ok", "Receiver logged in");
    && (th.pc.Recv? ==> th.requests == [] && th.replies == [hello] && !InSomeRoom(s, v))
    && (th.pc.Wait? ==>
          |th.requests| == 1 && th.requests[0].Join? && InRoomCalled(s, v, th.requests[0].name) &&
          th.replies == [hello, Message("ok", "Join successful")])
    && (th.pc.Stopped? ==>
          |th.requests| == 1 && !th.requests[0].Join? && !InSomeRoom(s, v) &&
          th.replies == [hello, Message("err", if th.requests[0].Garbled? then "Receive error"
                                               else "First message must be a join")])
  }

  lemma ReceiverAnswered(run: Run, v: Id, got: Parsed)
    requires IsRun(run) && v in Final(run).threads && Final(run).threads[v].kind == Receiver
    ensures ReceiverRests(Final(run), v)
    ensures Enabled(Final(run), v, Receive(got)) <==> Final(run).threads[v].pc.Recv? && !got.Undefined?
  {
    Reachable(run);
    assert ThreadShape(Final(run), v) && HistoryOf(Final(run), v);
    RestingReceiver(Final(run), v);
  }

  lemma RestingReceiver(s: State, v: Id)
    requires Registered(s) && v in s.threads && s.threads[v].kind == Receiver && ThreadShape(s, v) && HistoryOf(s, v)
    ensures ReceiverRests(s, v)
  {
    var th := s.threads[v];
    if th.pc.Wait? {
      assert MemberOnlyOf(s, v, th.room);
      KeyNamesRoom(s, th.room.value);
    } else if th.pc.Recv? || th.pc.Stopped? {
      assert MemberOnlyOf(s, v, None);
    }
  }

  lemma KeyNamesRoom(s: State, r: nat)
    requires Registered(s) && r < |s.rooms|
    ensures forall q :: 0 <= q < |s.rooms| && s.rooms[q].key == s.rooms[r].key ==> q == r
  {
  }

  // ---- shared data and its locks ----

  /** The registry changes only under the server's lock, a room only under its own, and a
      queue only under its own, each held by the thread that takes the step. */
  ghost predicate UnderLock(s: State, s': State, t: Id) {
    && (s'.registry != s.registry || |s'.rooms| != |s.rooms| ==> ServerLock in s.owner && s.owner[ServerLock] == t)
    && (forall r :: 0 <= r < |s.rooms| && r < |s'.rooms| && s'.rooms[r] != s.rooms[r] ==>
          RoomLock(r) in s.owner && s.owner[RoomLock(r)] == t)
    && (forall u :: u in s.users && u in s'.users && s'.users[u].messages != s.users[u].messages ==>
          QueueLock(u) in s.owner && s.owner[QueueLock(u)] == t)
  }

  lemma Guarded(run: Run, i: nat)
    requires IsRun(run) && i < |run.steps|
    ensures UnderLock(run.states[i], run.states[i + 1], run.steps[i].thread)
  {
    AlwaysInv(run, i);
    StepGuarded(run.states[i], run.steps[i].thread, run.steps[i].action);
  }

  lemma StepGuarded(s: State, t: Id, a: Action)
    requires Shape(s) && Locked(s) && Enabled(s, t, a)
    ensures UnderLock(s, Apply(s, t, a), t)
  {
    if a.Login? {
      assert t !in s.users;
    } else {
      HeldAreOwned(s, t);
      if OnQueue(a) { QueueGuarded(s, t, a); } else { OthersGuarded(s, t, a); }
    }
  }

  ghost predicate OwnsHeld(s: State, t: Id)
    requires t in s.threads
  {
    forall l :: Holds(t, s.threads[t], l) ==> l in s.owner && s.owner[l] == t
  }

  lemma HeldAreOwned(s: State, t: Id)
    requires Locked(s) && t in s.threads
    ensures OwnsHeld(s, t)
  {
    assert forall l :: Holds(t, s.threads[t], l) ==> HeldBy(s, t, l);
  }

  lemma QueueGuarded(s: State, t: Id, a: Action)
    requires t in s.threads && OwnsHeld(s, t) && Enabled(s, t, a) && OnQueue(a)
    ensures UnderLock(s, Apply(s, t, a), t)
  {
    var s' := Apply(s, t, a);
    OneQueue(s, t, a);
    forall u | u in s.users && u in s'.users && s'.users[u].messages != s.users[u].messages
      ensures QueueLock(u) in s.owner && s.owner[QueueLock(u)] == t
    {
      assert Holds(t, s.threads[t], QueueLock(u));
    }
  }

  /** Only a push and a pop change a queue: that whose lock protects the section. */
  lemma OneQueue(s: State, t: Id, a: Action)
    requires t in s.threads && Enabled(s, t, a) && OnQueue(a)
    ensures var s' := Apply(s, t, a);
            && s'.registry == s.registry && s'.rooms == s.rooms
            && forall u :: u in s.users && u in s'.users && s'.users[u].messages != s.users[u].messages ==>
                 InSection(s.threads[t]) && SectionLock(t, s.threads[t]) == Some(QueueLock(u))
  {
  }

  lemma OthersGuarded(s: State, t: Id, a: Action)
    requires t in s.threads && OwnsHeld(s, t) && Enabled(s, t, a) && !OnQueue(a) && !a.Login?
    ensures UnderLock(s, Apply(s, t, a), t)
  {
  }
}
