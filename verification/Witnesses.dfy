/** Runs that show what the program does where one might expect otherwise: a leave before any
    join, which no thread can take, and a sender that quits and stays in its room. */
module Witnesses {
  import opened Text
  import opened Protocol
  import opened Framing
  import opened Machine

  const BOB := "bob\n"
  const DEN := "den\n"
  const BYE := "bye\n"

  lemma LoginLine()
    ensures Parse("slogin:bob\n") == Received(Message(TAG_SLOGIN, BOB))
  {
    assert TAG_SLOGIN + ":" + BOB == "slogin:bob\n";
    ParseTwoFields(TAG_SLOGIN, BOB);
  }

  lemma JoinLine()
    ensures Parse("join:den\n") == Received(Message(TAG_JOIN, DEN))
  {
    assert TAG_JOIN + ":" + DEN == "join:den\n";
    ParseTwoFields(TAG_JOIN, DEN);
  }

  lemma LeaveLine()
    ensures Parse("leave:bye\n") == Received(Message(TAG_LEAVE, BYE))
  {
    assert TAG_LEAVE + ":" + BYE == "leave:bye\n";
    ParseTwoFields(TAG_LEAVE, BYE);
  }

  lemma QuitLine()
    ensures Parse("quit:bye\n") == Received(Message(TAG_QUIT, BYE))
  {
    assert TAG_QUIT + ":" + BYE == "quit:bye\n";
    ParseTwoFields(TAG_QUIT, BYE);
  }

  /** One more step of thread 0. */
  lemma Next(s: State, a: Action, line: string, s': State)
    requires HasRun(s) && Enabled(s, 0, a) && Apply(s, 0, a) == s' && HeardRight(Step(0, a, line))
    ensures HasRun(s')
  {
    OneMoreStep(s, Step(0, a, line), s');
  }

  /** A state with one sender, Bob, and nothing else but the given rooms. */
  function WithBob(pc: Pc, room: Option<nat>, requests: seq<Request>, replies: seq<Message>, joinAt: nat,
                 rooms: seq<Room>, registry: map<string, nat>, owner: map<Lock, Id>): State {
    State(map[0 := Thread(Sender, pc, room, requests, replies, [], joinAt)], map[0 := User(BOB, [], 0)],
          rooms, registry, owner, true)
  }

  function Outside(pc: Pc, requests: seq<Request>, replies: seq<Message>, owner: map<Lock, Id>): State {
    WithBob(pc, None, requests, replies, 0, [], map[], owner)
  }

  /** With the room it has asked for. */
  function AtDen(pc: Pc, requests: seq<Request>, replies: seq<Message>, members: set<Id>, owner: map<Lock, Id>): State {
    WithBob(pc, Some(0), requests, replies, 0, [Machine.Room(DEN, DEN, members, [])], map[DEN := 0], owner)
  }

  const HELLO := [SENDER_LOGGED_IN]
  const LOGGED_IN := Outside(Recv, [], HELLO, map[])

  lemma LoggedIn()
    ensures HasRun(LOGGED_IN)
  {
    var s := Outside(Reply(SENDER_LOGGED_IN, ThenRecv), [], [], map[]);
    LoginReached(s);
    assert [] + [SENDER_LOGGED_IN] == HELLO;
    Next(s, Respond, "", LOGGED_IN);
  }

  lemma LoginReached(s: State)
    requires s == Outside(Reply(SENDER_LOGGED_IN, ThenRecv), [], [], map[])
    ensures HasRun(s)
  {
    LoginLine();
    StartHasRun();
    Next(INIT, Login(Received(Message(TAG_SLOGIN, BOB))), "slogin:bob\n", s);
  }

  /** A leave as the first request is no step: the program would dereference a null room. */
  lemma LeaveBeforeJoin()
    ensures exists run :: IsRun(run) && 0 in Final(run).threads && Final(run).threads[0].pc.Recv? &&
                          !Enabled(Final(run), 0, Receive(Parse("leave:bye\n")))
  {
    LeaveLine();
    LoggedIn();
    var run: Run :| IsRun(run) && Final(run) == LOGGED_IN;
    assert !Enabled(LOGGED_IN, 0, Receive(Parse("leave:bye\n")));
  }

  const JOIN_DEN := [Request.Join(DEN)]

  lemma Asking()
    ensures HasRun(Outside(Section(Want, Find(DEN)), JOIN_DEN, HELLO, map[]))
  {
    JoinLine();
    LoggedIn();
    assert [] + JOIN_DEN == JOIN_DEN;
    Next(LOGGED_IN, Receive(Received(Message(TAG_JOIN, DEN))), "join:den\n",
         Outside(Section(Want, Find(DEN)), JOIN_DEN, HELLO, map[]));
  }

  lemma LookingUp()
    ensures HasRun(AtDen(Section(Done, Find(DEN)), JOIN_DEN, HELLO, {}, map[ServerLock := 0]))
  {
    Asking();
    var s := Outside(Section(Held, Find(DEN)), JOIN_DEN, HELLO, map[ServerLock := 0]);
    Next(Outside(Section(Want, Find(DEN)), JOIN_DEN, HELLO, map[]), Acquire, "", s);
    FoundDen(s);
  }

  lemma FoundDen(s: State)
    requires s == Outside(Section(Held, Find(DEN)), JOIN_DEN, HELLO, map[ServerLock := 0]) && HasRun(s)
    ensures HasRun(AtDen(Section(Done, Find(DEN)), JOIN_DEN, HELLO, {}, map[ServerLock := 0]))
  {
    Next(s, Lookup, "", AtDen(Section(Done, Find(DEN)), JOIN_DEN, HELLO, {}, map[ServerLock := 0]));
  }

  lemma Entering()
    ensures HasRun(AtDen(Section(Held, Add), JOIN_DEN, HELLO, {}, map[RoomLock(0) := 0]))
  {
    LookingUp();
    var s := AtDen(Section(Want, Add), JOIN_DEN, HELLO, {}, map[]);
    Released(AtDen(Section(Done, Find(DEN)), JOIN_DEN, HELLO, {}, map[ServerLock := 0]), s);
    Next(s, Acquire, "", AtDen(Section(Held, Add), JOIN_DEN, HELLO, {}, map[RoomLock(0) := 0]));
  }

  lemma Released(s: State, s': State)
    requires HasRun(s) && s == AtDen(Section(Done, Find(DEN)), JOIN_DEN, HELLO, {}, map[ServerLock := 0])
    requires s' == AtDen(Section(Want, Add), JOIN_DEN, HELLO, {}, map[])
    ensures HasRun(s')
  {
    assert map[ServerLock := 0] - {ServerLock} == map[];
    Next(s, Release, "", s');
  }

  lemma EnteredDen()
    ensures HasRun(AtDen(Reply(JOIN_DONE, ThenRecv), JOIN_DEN, HELLO, {0}, map[]))
  {
    Entering();
    var s := AtDen(Section(Done, Add), JOIN_DEN, HELLO, {0}, map[RoomLock(0) := 0]);
    Added(s);
    assert map[RoomLock(0) := 0] - {RoomLock(0)} == map[];
    Next(s, Release, "", AtDen(Reply(JOIN_DONE, ThenRecv), JOIN_DEN, HELLO, {0}, map[]));
  }

  lemma Added(s: State)
    requires HasRun(AtDen(Section(Held, Add), JOIN_DEN, HELLO, {}, map[RoomLock(0) := 0]))
    requires s == AtDen(Section(Done, Add), JOIN_DEN, HELLO, {0}, map[RoomLock(0) := 0])
    ensures HasRun(s)
  {
    assert {} + {0} == {0};
    Next(AtDen(Section(Held, Add), JOIN_DEN, HELLO, {}, map[RoomLock(0) := 0]), Insert, "", s);
  }

  const GREETED := HELLO + [JOIN_DONE]
  const JOIN_THEN_QUIT := JOIN_DEN + [Quit]

  const BACK := AtDen(Recv, JOIN_DEN, GREETED, {0}, map[])

  lemma BackInDen()
    ensures HasRun(BACK)
  {
    EnteredDen();
    Next(AtDen(Reply(JOIN_DONE, ThenRecv), JOIN_DEN, HELLO, {0}, map[]), Respond, "", BACK);
  }

  lemma Quitting()
    ensures HasRun(AtDen(Reply(QUIT_DONE, ThenStop), JOIN_THEN_QUIT, GREETED, {0}, map[]))
  {
    BackInDen();
    QuitTaken(BACK);
  }

  lemma QuitTaken(s: State)
    requires s == AtDen(Recv, JOIN_DEN, GREETED, {0}, map[]) && HasRun(s)
    ensures HasRun(AtDen(Reply(QUIT_DONE, ThenStop), JOIN_THEN_QUIT, GREETED, {0}, map[]))
  {
    QuitLine();
    Next(s, Receive(Received(Message(TAG_QUIT, BYE))), "quit:bye\n",
         AtDen(Reply(QUIT_DONE, ThenStop), JOIN_THEN_QUIT, GREETED, {0}, map[]));
  }

  /** A sender that has quit and is still a member of its room. */
  lemma QuitsAndStays()
    ensures exists run :: IsRun(run) && 0 in Final(run).threads && Final(run).threads[0].pc.Stopped? &&
                          |Final(run).rooms| == 1 && 0 in Final(run).rooms[0].members
  {
    Quitting();
    var s := AtDen(Stopped, JOIN_THEN_QUIT, GREETED + [QUIT_DONE], {0}, map[]);
    Next(AtDen(Reply(QUIT_DONE, ThenStop), JOIN_THEN_QUIT, GREETED, {0}, map[]), Respond, "", s);
    var run: Run :| IsRun(run) && Final(run) == s;
  }

  const COLONS := "a:b:c\n"
  const JOIN_THEN_COLONS := JOIN_DEN + [Sendall(COLONS)]

  lemma DeliveryLine()
    ensures Parse("delivery:a:b:c\n") == Received(Message(TAG_DELIVERY, COLONS))
  {
    assert TAG_DELIVERY + ":" + COLONS == "delivery:a:b:c\n";
    ColonsCounted();
    ParseDelivery(TAG_DELIVERY, COLONS);
  }

  lemma ColonsCounted()
    ensures Count(COLONS, ':') == 2
  {
    assert COLONS == "a" + ":" + "b" + ":" + "c\n";
    ColonsOfThree("a", "b", "c\n");
    CountNone("a", ':');
    CountNone("b", ':');
    CountNone("c\n", ':');
  }

  /** A line of Bob's with the tag "delivery" has been received. */
  function AfterColons(pc: Pc, log: seq<Entry>, owner: map<Lock, Id>): State {
    WithBob(pc, Some(0), JOIN_THEN_COLONS, GREETED, 0, [Machine.Room(DEN, DEN, {0}, log)], map[DEN := 0], owner)
      .(clean := false)
  }

  lemma ColonsTaken(s: State, line: string, got: Parsed)
    requires s == BACK && HasRun(s) && got == Parse(line) && !got.Undefined?
    requires ToRequest(got) == Sendall(COLONS) && BringsDelivery(Receive(got))
    ensures HasRun(AfterColons(Section(Want, Cast(COLONS)), [], map[]))
  {
    Next(s, Receive(got), line, AfterColons(Section(Want, Cast(COLONS)), [], map[]));
  }

  lemma DeliveryIsSendall(text: string)
    ensures ToRequest(Received(Message(TAG_DELIVERY, text))) == Sendall(text)
  {
  }

  lemma ColonsHeard()
    ensures HasRun(AfterColons(Section(Want, Cast(COLONS)), [], map[]))
  {
    BackInDen();
    DeliveryLine();
    DeliveryIsSendall(COLONS);
    ColonsTaken(BACK, "delivery:a:b:c\n", Received(Message(TAG_DELIVERY, COLONS)));
  }

  lemma ColonsLocked()
    ensures HasRun(AfterColons(Section(Held, Cast(COLONS)), [], map[RoomLock(0) := 0]))
  {
    ColonsHeard();
    Next(AfterColons(Section(Want, Cast(COLONS)), [], map[]), Acquire, "",
         AfterColons(Section(Held, Cast(COLONS)), [], map[RoomLock(0) := 0]));
  }

  lemma ColonsLogged()
    ensures HasRun(AfterColons(Visit(COLONS, {}), [Entry(0, BOB, COLONS)], map[RoomLock(0) := 0]))
  {
    ColonsLocked();
    assert [] + [Entry(0, BOB, COLONS)] == [Entry(0, BOB, COLONS)];
    Next(AfterColons(Section(Held, Cast(COLONS)), [], map[RoomLock(0) := 0]), Begin, "",
         AfterColons(Visit(COLONS, {}), [Entry(0, BOB, COLONS)], map[RoomLock(0) := 0]));
  }

  /** A broadcast under way whose deliveries no client can take apart. */
  lemma IllFormedDelivery()
    ensures exists run :: IsRun(run) && |Final(run).rooms| == 1 && |Final(run).rooms[0].log| == 1 &&
                          var room, e := Final(run).rooms[0], Final(run).rooms[0].log[0];
                          !WellFormed(Delivery(room.key, e.username, e.text))
  {
    ColonsLogged();
    var run: Run :| IsRun(run) &&
                    Final(run) == AfterColons(Visit(COLONS, {}), [Entry(0, BOB, COLONS)], map[RoomLock(0) := 0]);
    ColonInFront();
    DeliveryWellFormed(DEN, BOB, COLONS);
  }

  lemma ColonInFront()
    ensures ':' in RemoveNewline(COLONS)
  {
    ColonBehind("a", COLONS);
  }
}
