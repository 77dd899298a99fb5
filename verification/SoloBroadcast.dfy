/** The machine against the method: a broadcast that no other thread disturbs runs to its end
    and leaves the queues as Room.BroadcastMessage says it does. */
module SoloBroadcast {
  import opened Text
  import opened Protocol
  import opened Machine
  import opened Semaphores
  import opened Theorems

  /** The one step a thread can take, where there is only one. */
  function OnlyAction(pc: Pc): Option<Action> {
    match pc
    case Section(Want, _) => Some(Acquire)
    case Section(Held, Push(_, _, _, _)) => Some(PushBack)
    case Section(Done, _) => Some(Release)
    case Post(_, _, _, _) => Some(SemPost)
    case _ => None
  }

  lemma Forced(s: State, t: Id, a: Action)
    requires t in s.threads && Enabled(s, t, a)
    ensures OnlyAction(s.threads[t].pc).Some? ==> a == OnlyAction(s.threads[t].pc).value
    ensures s.threads[t].pc.Visit? ==> a.VisitNext? || a.Finish?
  {
  }

  predicate OneFinish(actions: seq<Action>) {
    actions != [] && forall i :: 0 <= i < |actions| ==> (actions[i] == Finish <==> i == |actions| - 1)
  }

  /** In the middle of an enqueue. */
  predicate Enqueuing(pc: Pc) {
    pc.Post? || (pc.Section? && pc.work.Push?)
  }

  function NextPc(pc: Pc): Pc
    requires Enqueuing(pc)
  {
    match pc
    case Post(text, visited, user, msg) => Section(Done, Push(text, visited, user, msg))
    case Section(Want, work) => Section(Held, work)
    case Section(Held, work) => Post(work.text, work.visited, work.user, work.msg)
    case Section(Done, work) => Visit(work.text, work.visited + {work.user})
  }

  /** In the middle of an enqueue a thread has no choice. */
  lemma ForcedNext(s: State, t: Id, actions: seq<Action>) returns (s': State)
    requires t in s.threads && Enqueuing(s.threads[t].pc)
    requires Perform(s, t, actions).Some? && OneFinish(actions)
    ensures Some(actions[0]) == OnlyAction(s.threads[t].pc) && actions[0] != Finish
    ensures |actions| > 1 && OneFinish(actions[1..]) && Perform(s', t, actions[1..]).Some?
    ensures t in s'.threads && s'.threads[t].pc == NextPc(s.threads[t].pc)
  {
    Forced(s, t, actions[0]);
    FinishLater(actions);
    s' := Apply(s, t, actions[0]);
  }

  predicate IsEnqueue(actions: seq<Action>) {
    |actions| == 4 && actions[0] == Acquire && actions[1] == PushBack && actions[2] == SemPost && actions[3] == Release
  }

  lemma EnqueueForced(s: State, t: Id, actions: seq<Action>)
    requires t in s.threads && s.threads[t].pc.Section? && s.threads[t].pc.stage == Want && s.threads[t].pc.work.Push?
    requires Perform(s, t, actions).Some? && OneFinish(actions)
    ensures |actions| > 4 && IsEnqueue(actions[..4])
  {
    var s1 := ForcedNext(s, t, actions);
    var s2 := ForcedNext(s1, t, actions[1..]);
    assert actions[1..][1..] == actions[2..];
    var s3 := ForcedNext(s2, t, actions[2..]);
    assert actions[2..][1..] == actions[3..];
    var s4 := ForcedNext(s3, t, actions[3..]);
    assert actions[3..][0] == actions[3];
  }

  lemma FinishLater(actions: seq<Action>)
    requires OneFinish(actions) && actions[0] != Finish
    ensures OneFinish(actions[1..])
  {
    assert |actions| > 1;
    assert forall i :: 0 <= i < |actions| - 1 ==> actions[1..][i] == actions[i + 1];
  }

  predicate Casts(s: State, t: Id) {
    t in s.threads && t in s.users && HasRoom(s, s.threads[t])
  }

  function RoomOf(s: State, t: Id): Room
    requires Casts(s, t)
  {
    s.rooms[s.threads[t].room.value]
  }

  /** Thread `t` can go on with its broadcast: the queues of its room's members are free. */
  ghost predicate Undisturbed(s: State, t: Id) {
    && Casts(s, t)
    && RemoveNewline(RoomOf(s, t).name) == RemoveNewline(RoomOf(s, t).key)
    && (forall u :: u in RoomOf(s, t).members ==> u in s.users && QueueLock(u) !in s.owner)
  }

  /** What the broadcast of thread `t` adds to the queue of `u`. */
  function Addition(s: State, t: Id, text: string, u: Id): seq<Message>
    requires Casts(s, t) && u in s.users
  {
    Share(RoomOf(s, t).key, s.users[t].username, s.users[u].username, text)
  }

  /** From `s` to `s'` the users in `served` were given their message; nothing else changed
      but the program counter and what the room calls itself. */
  ghost predicate Served(s: State, s': State, t: Id, text: string, served: set<Id>) {
    && Undisturbed(s, t) && Undisturbed(s', t)
    && s'.owner == s.owner && s'.users.Keys == s.users.Keys
    && s'.threads[t].room == s.threads[t].room
    && RoomOf(s', t).members == RoomOf(s, t).members && RoomOf(s', t).key == RoomOf(s, t).key
    && (forall u :: u in s.users ==>
          var more := if u in served then Addition(s, t, text, u) else [];
          && s'.users[u].username == s.users[u].username
          && s'.users[u].messages == s.users[u].messages + more
          && s'.users[u].avail == s.users[u].avail + |more|)
  }

  predicate Visiting(s: State, t: Id, text: string, visited: set<Id>) {
    Casts(s, t) && s.threads[t].pc == Visit(text, visited)
  }

  lemma SkipTurn(s: State, t: Id, text: string, visited: set<Id>, user: Id)
    requires Undisturbed(s, t) && Visiting(s, t, text, visited)
    requires user in RoomOf(s, t).members - visited && s.users[user].username == s.users[t].username
    ensures Enabled(s, t, VisitNext(user))
    ensures var s' := Apply(s, t, VisitNext(user));
            Visiting(s', t, text, visited + {user}) && Served(s, s', t, text, {user})
  {
  }

  /** The first step of a turn that sends. */
  lemma TurnTo(s: State, t: Id, text: string, visited: set<Id>, user: Id)
    requires Undisturbed(s, t) && Visiting(s, t, text, visited)
    requires user in RoomOf(s, t).members - visited && s.users[user].username != s.users[t].username
    ensures Enabled(s, t, VisitNext(user))
    ensures var s' := Apply(s, t, VisitNext(user));
            && Served(s, s', t, text, {})
            && s'.threads[t].pc ==
               Section(Want, Push(text, visited, user, Delivery(RoomOf(s, t).key, s.users[t].username, text)))
  {
    RemoveNewlineTwice(RoomOf(s, t).name);
  }

  /** enqueue, up to its push. */
  lemma LockAndPush(s: State, t: Id, text: string, visited: set<Id>, user: Id, msg: Message)
    returns (actions: seq<Action>, s': State)
    requires Undisturbed(s, t) && user in RoomOf(s, t).members
    requires s.threads[t].pc == Section(Want, Push(text, visited, user, msg))
    ensures |actions| == 2 && actions[0] == Acquire && actions[1] == PushBack
    ensures Perform(s, t, actions) == Some(s')
    ensures Casts(s', t) && s'.threads[t] == s.threads[t].(pc := Post(text, visited, user, msg))
    ensures s'.owner == s.owner[QueueLock(user) := t] && s'.rooms == s.rooms
    ensures s'.users == s.users[user := Pushed(s.users[user], msg)]
  {
    var s1 := Apply(s, t, Acquire);
    s' := Apply(s1, t, PushBack);
    actions := [Acquire, PushBack];
    assert Perform(s1, t, [PushBack]) == Some(s');
  }

  /** enqueue, from there on. */
  lemma PostAndUnlock(s: State, t: Id, text: string, visited: set<Id>, user: Id, msg: Message)
    returns (actions: seq<Action>, s': State)
    requires Casts(s, t) && user in s.users && s.threads[t].pc == Post(text, visited, user, msg)
    ensures |actions| == 2 && actions[0] == SemPost && actions[1] == Release
    ensures Perform(s, t, actions) == Some(s')
    ensures Casts(s', t) && s'.threads[t] == s.threads[t].(pc := Visit(text, visited + {user}))
    ensures s'.owner == s.owner - {QueueLock(user)} && s'.rooms == s.rooms
    ensures s'.users == s.users[user := Posted(s.users[user])]
  {
    var s1 := Apply(s, t, SemPost);
    s' := Apply(s1, t, Release);
    actions := [SemPost, Release];
    assert Perform(s1, t, [Release]) == Some(s');
  }

  function Pushed(user: User, msg: Message): User {
    user.(messages := user.messages + [msg])
  }

  function Posted(user: User): User {
    user.(avail := user.avail + 1)
  }

  lemma EnqueueAll(s: State, t: Id, text: string, visited: set<Id>, user: Id, msg: Message)
    returns (actions: seq<Action>, s': State)
    requires Undisturbed(s, t) && user in RoomOf(s, t).members
    requires s.threads[t].pc == Section(Want, Push(text, visited, user, msg))
    ensures IsEnqueue(actions)
    ensures Perform(s, t, actions) == Some(s')
    ensures Casts(s', t) && s'.threads[t] == s.threads[t].(pc := Visit(text, visited + {user}))
    ensures s'.owner == s.owner[QueueLock(user) := t] - {QueueLock(user)} && s'.rooms == s.rooms
    ensures var pushed := Pushed(s.users[user], msg);
            s'.users == s.users[user := pushed][user := Posted(pushed)]
  {
    var first, s1 := LockAndPush(s, t, text, visited, user, msg);
    var second, s2 := PostAndUnlock(s1, t, text, visited, user, msg);
    PerformConcat(s, t, first, second);
    actions, s' := first + second, s2;
  }

  lemma Enqueued(s: State, s': State, t: Id, text: string, user: Id)
    requires Undisturbed(s, t) && user in RoomOf(s, t).members && s.users[user].username != s.users[t].username
    requires Casts(s', t) && s'.threads[t].room == s.threads[t].room && s'.rooms == s.rooms
    requires s'.owner == s.owner[QueueLock(user) := t] - {QueueLock(user)}
    requires var pushed := Pushed(s.users[user], Delivery(RoomOf(s, t).key, s.users[t].username, text));
             s'.users == s.users[user := pushed][user := Posted(pushed)]
    ensures Served(s, s', t, text, {user})
  {
    assert s'.owner == s.owner;
    assert s'.users.Keys == s.users.Keys;
  }

  lemma ServedTwice(s: State, s1: State, s2: State, t: Id, text: string, a: set<Id>, b: set<Id>)
    requires Served(s, s1, t, text, a) && Served(s1, s2, t, text, b) && a !! b
    ensures Served(s, s2, t, text, a + b)
  {
  }

  /** The steps of one turn; `skip`: for a user of the sender's own name. */
  predicate IsTurn(user: Id, skip: bool, actions: seq<Action>) {
    && actions != [] && actions[0] == VisitNext(user)
    && if skip then |actions| == 1 else IsEnqueue(actions[1..])
  }

  lemma VisitThenEnqueue(user: Id, enqueue: seq<Action>)
    requires IsEnqueue(enqueue)
    ensures IsTurn(user, false, [VisitNext(user)] + enqueue)
  {
    assert ([VisitNext(user)] + enqueue)[1..] == enqueue;
  }

  /** Steps that begin with a turn. */
  lemma TurnInFront(user: Id, skip: bool, turn: seq<Action>, actions: seq<Action>)
    requires IsTurn(user, skip, turn) && OneFinish(actions) && actions[0] == VisitNext(user)
    requires skip || (|actions| > 5 && IsEnqueue(actions[1..][..4]))
    ensures |turn| < |actions| && turn + actions[|turn|..] == actions && OneFinish(actions[|turn|..])
  {
    forall i | 0 <= i < |turn|
      ensures turn[i] == actions[i]
    {
      if i > 0 {
        assert turn[i] == turn[1..][i - 1] && actions[i] == actions[1..][..4][i - 1];
      }
    }
    assert forall i :: 0 <= i < |actions| - |turn| ==> actions[|turn|..][i] == actions[|turn| + i];
  }

  lemma TurnThenFinish(user: Id, skip: bool, turn: seq<Action>, rest: seq<Action>)
    requires IsTurn(user, skip, turn) && OneFinish(rest)
    ensures OneFinish(turn + rest)
  {
    assert forall i :: 1 <= i < |turn| ==> turn[i] == turn[1..][i - 1];
  }

  predicate SameName(s: State, t: Id, user: Id)
    requires t in s.users && user in s.users
  {
    s.users[user].username == s.users[t].username
  }

  lemma SendingTurn(s: State, t: Id, text: string, visited: set<Id>, user: Id) returns (actions: seq<Action>, s': State)
    requires Undisturbed(s, t) && Visiting(s, t, text, visited) && user in RoomOf(s, t).members - visited
    requires !SameName(s, t, user)
    ensures Perform(s, t, actions) == Some(s') && IsTurn(user, false, actions)
    ensures Visiting(s', t, text, visited + {user}) && Served(s, s', t, text, {user})
  {
    TurnTo(s, t, text, visited, user);
    var s1 := OneStep(s, t, VisitNext(user));
    var enqueue, s2 := EnqueueAll(s1, t, text, visited, user, Delivery(RoomOf(s, t).key, s.users[t].username, text));
    PerformConcat(s, t, [VisitNext(user)], enqueue);
    VisitThenEnqueue(user, enqueue);
    SentInTwo(s, s1, s2, t, text, visited, user);
    actions, s' := [VisitNext(user)] + enqueue, s2;
  }

  lemma SentInTwo(s: State, s1: State, s2: State, t: Id, text: string, visited: set<Id>, user: Id)
    requires Undisturbed(s, t) && user in RoomOf(s, t).members && !SameName(s, t, user) && Served(s, s1, t, text, {})
    requires Casts(s2, t) && s2.threads[t] == s1.threads[t].(pc := Visit(text, visited + {user}))
    requires s2.rooms == s1.rooms
    requires s2.owner == s1.owner[QueueLock(user) := t] - {QueueLock(user)}
    requires var pushed := Pushed(s1.users[user], Delivery(RoomOf(s, t).key, s.users[t].username, text));
             s2.users == s1.users[user := pushed][user := Posted(pushed)]
    ensures Visiting(s2, t, text, visited + {user}) && Served(s, s2, t, text, {user})
  {
    Enqueued(s1, s2, t, text, user);
    ServedTwice(s, s1, s2, t, text, {}, {user});
    assert {} + {user} == {user};
  }

  /** One turn of the loop. */
  lemma Turn(s: State, t: Id, text: string, visited: set<Id>, user: Id) returns (actions: seq<Action>, s': State)
    requires Undisturbed(s, t) && Visiting(s, t, text, visited) && user in RoomOf(s, t).members - visited
    ensures Perform(s, t, actions) == Some(s') && IsTurn(user, SameName(s, t, user), actions)
    ensures Visiting(s', t, text, visited + {user}) && Served(s, s', t, text, {user})
  {
    if SameName(s, t, user) {
      SkipTurn(s, t, text, visited, user);
      s' := OneStep(s, t, VisitNext(user));
      actions := [VisitNext(user)];
    } else {
      actions, s' := SendingTurn(s, t, text, visited, user);
    }
  }

  /** These steps take the loop to its end, and every member not yet visited is served. */
  ghost predicate Finishes(s: State, t: Id, text: string, visited: set<Id>, actions: seq<Action>)
    requires Casts(s, t)
  {
    && Perform(s, t, actions).Some?
    && var s' := Perform(s, t, actions).value;
       && t in s'.threads && s'.threads[t].pc == Section(Done, Cast(text))
       && Served(s, s', t, text, RoomOf(s, t).members - visited)
  }

  lemma TurnThenRest(s: State, s1: State, t: Id, text: string, visited: set<Id>, user: Id,
                     turn: seq<Action>, rest: seq<Action>)
    requires Casts(s, t) && Casts(s1, t) && user in RoomOf(s, t).members - visited
    requires Perform(s, t, turn) == Some(s1) && Served(s, s1, t, text, {user})
    requires Finishes(s1, t, text, visited + {user}, rest)
    ensures Finishes(s, t, text, visited, turn + rest)
  {
    var todo := RoomOf(s, t).members - visited;
    assert RoomOf(s1, t).members - (visited + {user}) == todo - {user};
    PerformConcat(s, t, turn, rest);
    ServedTwice(s, s1, Perform(s1, t, rest).value, t, text, {user}, todo - {user});
    assert {user} + (todo - {user}) == todo;
  }

  /** The loop can be finished from any point on. */
  lemma {:induction false} Loop(s: State, t: Id, text: string, visited: set<Id>) returns (actions: seq<Action>)
    requires Undisturbed(s, t) && Visiting(s, t, text, visited)
    ensures Perform(s, t, actions).Some? && OneFinish(actions)
    decreases RoomOf(s, t).members - visited
  {
    if user :| user in RoomOf(s, t).members - visited {
      var turn, s1 := Turn(s, t, text, visited, user);
      OneLess(RoomOf(s, t).members, visited, user);
      var rest := Loop(s1, t, text, visited + {user});
      PerformConcat(s, t, turn, rest);
      TurnThenFinish(user, SameName(s, t, user), turn, rest);
      actions := turn + rest;
    } else {
      actions := JustFinish(s, t, text, visited);
    }
  }

  lemma OneLess(members: set<Id>, visited: set<Id>, user: Id)
    requires user in members - visited
    ensures members - (visited + {user}) < members - visited
  {
  }

  lemma JustFinish(s: State, t: Id, text: string, visited: set<Id>) returns (actions: seq<Action>)
    requires Undisturbed(s, t) && Visiting(s, t, text, visited) && RoomOf(s, t).members - visited == {}
    ensures Perform(s, t, actions).Some? && OneFinish(actions)
  {
    actions := [Finish];
    assert forall u :: u in RoomOf(s, t).members ==> u in visited || u in RoomOf(s, t).members - visited;
    FinishTurn(s, t, text, visited);
  }

  lemma NothingLeft(s: State, t: Id, visited: set<Id>)
    requires Casts(s, t) && RoomOf(s, t).members <= visited
    ensures RoomOf(s, t).members - visited == {}
  {
  }

  /** Steps that begin like a turn begin with the whole turn. */
  lemma TurnComesFirst(s: State, t: Id, text: string, visited: set<Id>, user: Id, actions: seq<Action>)
    requires Undisturbed(s, t) && Visiting(s, t, text, visited) && user in RoomOf(s, t).members - visited
    requires Perform(s, t, actions).Some? && OneFinish(actions) && actions[0] == VisitNext(user)
    ensures SameName(s, t, user) || (|actions| > 5 && IsEnqueue(actions[1..][..4]))
  {
    if !SameName(s, t, user) {
      FinishLater(actions);
      TurnTo(s, t, text, visited, user);
      EnqueueForced(Apply(s, t, actions[0]), t, actions[1..]);
    }
  }

  lemma OnlyFinish(s: State, t: Id, text: string, visited: set<Id>, actions: seq<Action>)
    requires Undisturbed(s, t) && Visiting(s, t, text, visited)
    requires Perform(s, t, actions).Some? && OneFinish(actions) && actions[0] == Finish
    ensures Finishes(s, t, text, visited, actions)
  {
    assert |actions| == 1 && actions == [Finish];
    FinishTurn(s, t, text, visited);
    NothingLeft(s, t, visited);
  }

  lemma FirstTurn(s: State, t: Id, text: string, visited: set<Id>, actions: seq<Action>)
    returns (user: Id, turn: seq<Action>, s1: State, rest: seq<Action>)
    requires Undisturbed(s, t) && Visiting(s, t, text, visited)
    requires Perform(s, t, actions).Some? && OneFinish(actions) && actions[0] != Finish
    ensures user in RoomOf(s, t).members - visited
    ensures turn != [] && turn + rest == actions && OneFinish(rest)
    ensures Perform(s, t, turn) == Some(s1) && Perform(s1, t, rest).Some?
    ensures Visiting(s1, t, text, visited + {user}) && Served(s, s1, t, text, {user})
  {
    NextVisit(s, t, text, visited, actions);
    user := actions[0].user;
    turn, s1 := Turn(s, t, text, visited, user);
    TurnComesFirst(s, t, text, visited, user, actions);
    TurnInFront(user, SameName(s, t, user), turn, actions);
    rest := actions[|turn|..];
    PerformConcat(s, t, turn, rest);
  }

  lemma NextVisit(s: State, t: Id, text: string, visited: set<Id>, actions: seq<Action>)
    requires Casts(s, t) && Visiting(s, t, text, visited)
    requires Perform(s, t, actions).Some? && OneFinish(actions) && actions[0] != Finish
    ensures actions[0].VisitNext? && actions[0].user in RoomOf(s, t).members - visited
  {
    Forced(s, t, actions[0]);
  }

  /** Every way of its own in which the thread reaches the end of the loop. */
  lemma {:induction false} EverySchedule(s: State, t: Id, text: string, visited: set<Id>, actions: seq<Action>)
    requires Undisturbed(s, t) && Visiting(s, t, text, visited)
    requires Perform(s, t, actions).Some? && OneFinish(actions)
    ensures Finishes(s, t, text, visited, actions)
    decreases |actions|
  {
    if actions[0] == Finish {
      OnlyFinish(s, t, text, visited, actions);
    } else {
      var user, turn, s1, rest := FirstTurn(s, t, text, visited, actions);
      assert |rest| < |actions|;
      EverySchedule(s1, t, text, visited + {user}, rest);
      TurnThenRest(s, s1, t, text, visited, user, turn, rest);
    }
  }

  lemma FinishTurn(s: State, t: Id, text: string, visited: set<Id>)
    requires Undisturbed(s, t) && Visiting(s, t, text, visited) && RoomOf(s, t).members <= visited
    ensures Perform(s, t, [Finish]).Some?
    ensures var s' := Perform(s, t, [Finish]).value;
            t in s'.threads && s'.threads[t].pc == Section(Done, Cast(text)) && Served(s, s', t, text, {})
  {
    var s1 := Apply(s, t, Finish);
    assert Perform(s1, t, []) == Some(s1);
  }

  /** Thread `t` has just entered its broadcast, and the queues it needs are free. */
  ghost predicate AtLoopHead(s: State, t: Id) {
    && Casts(s, t) && s.threads[t].pc.Visit? && s.threads[t].pc.visited == {}
    && forall u :: u in RoomOf(s, t).members ==> QueueLock(u) !in s.owner
  }

  /** What Room.BroadcastMessage promises of the queues, and no lock more or less. */
  ghost predicate Promised(s: State, s': State, t: Id)
    requires Casts(s, t) && s.threads[t].pc.Visit?
  {
    var text, room := s.threads[t].pc.text, RoomOf(s, t);
    && s'.users.Keys == s.users.Keys && s'.owner == s.owner
    && t in s'.threads && s'.threads[t].pc == Section(Done, Cast(text))
    && forall u :: u in s.users ==>
         (s'.users[u].messages == s.users[u].messages +
          if u in room.members then Share(room.name, s.users[t].username, s.users[u].username, text) else [])
  }

  /** From any reachable state in which a thread has just entered its broadcast, its own
      steps alone can finish the loop, and in whatever order they do, every queue is the one
      that Room.BroadcastMessage promises. */
  lemma MachineMeetsMethod(run: Run, t: Id, actions: seq<Action>)
    requires IsRun(run) && AtLoopHead(Final(run), t)
    ensures exists own :: Perform(Final(run), t, own).Some? && OneFinish(own)
    ensures Perform(Final(run), t, actions).Some? && OneFinish(actions) ==>
              Promised(Final(run), Perform(Final(run), t, actions).value, t)
  {
    Reachable(run);
    FreeToLoop(Final(run), t);
    var own := Loop(Final(run), t, Final(run).threads[t].pc.text, {});
    if Perform(Final(run), t, actions).Some? && OneFinish(actions) {
      WholeLoop(Final(run), t, actions);
    }
  }

  lemma FreeToLoop(s: State, t: Id)
    requires Basic(s) && Casts(s, t)
    requires forall u :: u in RoomOf(s, t).members ==> QueueLock(u) !in s.owner
    ensures Undisturbed(s, t)
  {
  }

  lemma WholeLoop(s: State, t: Id, actions: seq<Action>)
    requires Undisturbed(s, t) && s.threads[t].pc.Visit? && s.threads[t].pc.visited == {}
    requires Perform(s, t, actions).Some? && OneFinish(actions)
    ensures Promised(s, Perform(s, t, actions).value, t)
  {
    EverySchedule(s, t, s.threads[t].pc.text, {}, actions);
    assert RoomOf(s, t).members - {} == RoomOf(s, t).members;
  }
}
