/** What a receiver's thread gets done when the others pause: its client is sent everything it
    is due. */
module Progress {
  import opened Text
  import opened Protocol
  import opened Machine
  import opened QueueContents
  import opened Semaphores
  import opened ExactDelivery
  import opened DeliveryStep
  import opened Theorems

  // ---- a receiver that is left alone ----

  /** About to wait, with nobody at its queue. */
  ghost predicate AtItsQueue(s: State, v: Id) {
    && v in s.threads && v in s.users && s.threads[v].pc.Wait? && QueueLock(v) !in s.owner
    && |s.users[v].messages| == s.users[v].avail
    && forall i :: 0 <= i < |s.users[v].messages| ==> s.users[v].messages[i].tag == TAG_DELIVERY
  }

  /** The wait succeeds exactly when the semaphore is positive. */
  lemma WaitSucceeds(s: State, v: Id)
    requires v in s.threads && v in s.users && s.threads[v].pc.Wait?
    ensures Enabled(s, v, SemWait) <==> s.users[v].avail > 0
  {
  }

  lemma TakeToken(s: State, v: Id) returns (s': State)
    requires AtItsQueue(s, v) && s.users[v].messages != []
    ensures Perform(s, v, [SemWait] + [Acquire]) == Some(s')
    ensures v in s'.threads && s'.threads[v] == s.threads[v].(pc := Section(Held, Pop(true, None)))
    ensures s'.users == s.users[v := s.users[v].(avail := s.users[v].avail - 1)]
    ensures s'.owner == s.owner[QueueLock(v) := v] && s'.rooms == s.rooms
  {
    var s1 := OneStep(s, v, SemWait);
    s' := OneStep(s1, v, Acquire);
    PerformConcat(s, v, [SemWait], [Acquire]);
  }

  lemma TakeMessage(s: State, v: Id) returns (s': State)
    requires v in s.threads && v in s.users && s.threads[v].pc == Section(Held, Pop(true, None))
    requires s.users[v].messages != [] && s.users[v].messages[0].tag == TAG_DELIVERY
    ensures Perform(s, v, [PopFront] + [Release]) == Some(s')
    ensures v in s'.threads && s'.threads[v] == s.threads[v].(pc := Deliver(s.users[v].messages[0]))
    ensures s'.users == s.users[v := s.users[v].(messages := s.users[v].messages[1..])]
    ensures s'.owner == s.owner - {QueueLock(v)} && s'.rooms == s.rooms
  {
    var s1 := OneStep(s, v, PopFront);
    s' := OneStep(s1, v, Release);
    PerformConcat(s, v, [PopFront], [Release]);
  }

  lemma SendOn(s: State, v: Id, m: Message) returns (s': State)
    requires v in s.threads && s.threads[v].pc == Deliver(m)
    ensures Perform(s, v, [HandOver]) == Some(s')
    ensures v in s'.threads
    ensures s'.threads[v] == s.threads[v].(pc := Wait, delivered := s.threads[v].delivered + [m])
    ensures s'.users == s.users && s'.owner == s.owner && s'.rooms == s.rooms
  {
    s' := OneStep(s, v, HandOver);
  }

  /** One message from the queue to the client. */
  lemma OneRound(s: State, v: Id) returns (actions: seq<Action>, s': State)
    requires AtItsQueue(s, v) && s.users[v].messages != []
    ensures Perform(s, v, actions) == Some(s') && AtItsQueue(s', v) && s'.rooms == s.rooms && s'.owner == s.owner
    ensures Silent(actions)
    ensures s'.threads[v] == s.threads[v].(delivered := s.threads[v].delivered + [s.users[v].messages[0]])
    ensures s'.users[v].messages == s.users[v].messages[1..]
  {
    var m := s.users[v].messages[0];
    var s1 := TakeToken(s, v);
    var s2 := TakeMessage(s1, v);
    var s3 := SendOn(s2, v, m);
    PerformConcat(s, v, [SemWait] + [Acquire], [PopFront] + [Release]);
    var first := [SemWait] + [Acquire] + ([PopFront] + [Release]);
    PerformConcat(s, v, first, [HandOver]);
    actions, s' := first + [HandOver], s3;
    BackAgain(s.owner, QueueLock(v), v);
  }

  lemma BackAgain(owner: map<Lock, Id>, l: Lock, t: Id)
    requires l !in owner
    ensures owner[l := t] - {l} == owner
  {
  }

  lemma {:induction false} Drain(s: State, v: Id) returns (actions: seq<Action>, s': State)
    requires AtItsQueue(s, v)
    ensures Perform(s, v, actions) == Some(s') && AtItsQueue(s', v) && s'.rooms == s.rooms && s'.owner == s.owner
    ensures Silent(actions)
    ensures s'.threads[v] == s.threads[v].(delivered := s.threads[v].delivered + s.users[v].messages)
    ensures s'.users[v].messages == []
    decreases |s.users[v].messages|
  {
    var messages := s.users[v].messages;
    if messages == [] {
      actions, s' := [], s;
      assert s.threads[v].delivered + [] == s.threads[v].delivered;
    } else {
      var round, s1 := OneRound(s, v);
      var rest;
      rest, s' := Drain(s1, v);
      PerformConcat(s, v, round, rest);
      SilentConcat(round, rest);
      actions := round + rest;
      Associate(s.threads[v].delivered, [messages[0]], messages[1..]);
      assert messages == [messages[0]] + messages[1..];
    }
  }

  lemma QueueIsFree(s: State, v: Id)
    requires Sems(s) && Wholesome(s) && v in s.threads && v in s.users && s.threads[v].pc.Wait?
    requires QueueLock(v) !in s.owner
    ensures AtItsQueue(s, v)
  {
    assert SemAt(s, v) && UserOk(s.users[v], s.clean);
  }

  /** Nothing has changed for the receiver but that it has been sent all it is due. */
  ghost predicate SentAll(s: State, v: Id, s': State)
    requires IsReceiver(s, v) && Joined(s, v)
  {
    var th, room := s.threads[v], s.rooms[s.threads[v].room.value];
    && v in s'.threads && s'.owner == s.owner && s'.rooms == s.rooms
    && s'.threads[v] == th.(delivered := Due(room.log, th.joinAt, s.users[v].username, room.key))
  }

  /** From any reachable state in which a joined receiver is about to wait and nobody is busy
      with its room or its queue, its own steps can send it everything it is due. */
  lemma ReceiverDrains(run: Run, v: Id)
    requires IsRun(run) && IsReceiver(Final(run), v) && Joined(Final(run), v) && Final(run).threads[v].pc.Wait?
    requires RoomLock(Final(run).threads[v].room.value) !in Final(run).owner && QueueLock(v) !in Final(run).owner
    ensures exists actions :: Silent(actions) && Perform(Final(run), v, actions).Some? &&
                              SentAll(Final(run), v, Perform(Final(run), v, actions).value)
  {
    var actions, s' := SendQueued(run, v);
  }

  lemma SendQueued(run: Run, v: Id) returns (actions: seq<Action>, s': State)
    requires IsRun(run) && IsReceiver(Final(run), v) && Joined(Final(run), v) && Final(run).threads[v].pc.Wait?
    requires RoomLock(Final(run).threads[v].room.value) !in Final(run).owner && QueueLock(v) !in Final(run).owner
    ensures Perform(Final(run), v, actions) == Some(s') && Silent(actions)
    ensures SentAll(Final(run), v, s')
  {
    Reachable(run);
    QueueIsFree(Final(run), v);
    QueuedIsDue(run, v);
    actions, s' := DrainDue(Final(run), v);
  }

  lemma QueuedIsDue(run: Run, v: Id)
    requires IsRun(run) && IsReceiver(Final(run), v) && Joined(Final(run), v) && Final(run).threads[v].pc.Wait?
    requires RoomLock(Final(run).threads[v].room.value) !in Final(run).owner
    ensures AllQueued(Final(run), v)
  {
    DeliveredExactly(run, v);
  }

  /** What is due and not yet sent is in the queue. */
  ghost predicate AllQueued(s: State, v: Id)
    requires IsReceiver(s, v) && Joined(s, v)
  {
    var th, room := s.threads[v], s.rooms[s.threads[v].room.value];
    th.delivered + s.users[v].messages == Due(room.log, th.joinAt, s.users[v].username, room.key)
  }

  lemma DrainDue(s: State, v: Id) returns (actions: seq<Action>, s': State)
    requires AtItsQueue(s, v) && IsReceiver(s, v) && Joined(s, v) && AllQueued(s, v)
    ensures Perform(s, v, actions) == Some(s') && Silent(actions)
    ensures SentAll(s, v, s')
  {
    actions, s' := Drain(s, v);
  }
}
