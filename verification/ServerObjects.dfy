/** The server's objects as the source declares them, run by one thread at a time: what each
    critical section does to the fields it protects. */
module ServerObjects {
  import opened Text
  import opened Protocol
  import opened Session

  /** message_queue.cpp. The semaphore is its count. */
  class MessageQueue {
    var messages: seq<Message>
    var avail: nat

    ghost predicate Valid()
      reads this
    {
      |messages| == avail
    }

    constructor ()
      ensures Valid() && messages == []
    {
      messages, avail := [], 0;
    }

    method Enqueue(msg: Message)
      requires Valid()
      modifies this
      ensures Valid() && messages == old(messages) + [msg]
    {
      messages := messages + [msg];
      avail := avail + 1;
    }

    /** `cutShort`: the wait ends without success although a message may be there, as after
        an interruption. */
    method Dequeue(cutShort: bool) returns (msg: Option<Message>)
      requires Valid()
      modifies this
      ensures Valid()
      ensures msg.None? <==> cutShort || old(messages) == []
      ensures msg.None? ==> messages == old(messages)
      ensures msg.Some? ==> old(messages) == [msg.value] + messages
    {
      var waited := avail > 0 && !cutShort;
      if waited {
        avail := avail - 1;
      }
      if waited {
        msg := Some(messages[0]);
        messages := messages[1..];
        return;
      }
      msg := None;
    }
  }

  class User {
    const username: string
    const mqueue: MessageQueue

    constructor (username: string)
      ensures this.username == username && fresh(mqueue) && mqueue.Valid() && mqueue.messages == []
    {
      this.username := username;
      this.mqueue := new MessageQueue();
    }
  }

  /** Who is in the room of which name. */
  type Places = map<string, set<User>>

  /** A queue belongs to one user: in the source it is a part of the user object. */
  ghost predicate OwnQueues(users: set<User>) {
    forall u, v :: u in users && v in users && u.mqueue == v.mqueue ==> u == v
  }

  ghost predicate QueuesReady(users: set<User>)
    reads Queues(users)
  {
    OwnQueues(users) && forall u :: u in users ==> u.mqueue.Valid()
  }

  ghost function Queues(users: set<User>): set<MessageQueue> {
    set u | u in users :: u.mqueue
  }

  /** room.cpp */
  class Room {
    /** The name the room was created under. */
    ghost const key: string
    var roomName: string
    var members: set<User>

    constructor (name: string)
      ensures key == roomName == name && members == {}
    {
      key, roomName, members := name, name, {};
    }

    /** A room called `name` whose members other than `user` are those of the census `was`. */
    ghost predicate Kept(name: string, user: User, all: set<User>, was: Places, spot: Option<string>)
      reads this
    {
      && key == name && RemoveNewline(roomName) == RemoveNewline(name)
      && members <= all && (user in members <==> spot == Some(name))
      && (forall u :: u in all && u != user ==> (u in members <==> name in was && u in was[name]))
    }

    method AddMember(user: User)
      modifies `members
      ensures members == old(members) + {user}
    {
      members := members + {user};
    }

    method RemoveMember(user: User)
      modifies `members
      ensures members == old(members) - {user}
    {
      members := members - {user};
    }

    method MemberExists(user: User) returns (b: bool)
      ensures b <==> user in members
    {
      b := user in members;
    }

    /** Whatever the order of the set: one delivery to each member of another name, nothing
        to the others, and a room name that reads the same as before. */
    method BroadcastMessage(sender: string, text: string)
      requires OwnQueues(members) && forall u :: u in members ==> u.mqueue.Valid()
      modifies `roomName, Queues(members)
      ensures forall u :: u in members ==> u.mqueue.Valid()
      ensures forall u :: u in members ==>
                u.mqueue.messages == old(u.mqueue.messages) + Share(old(roomName), sender, u.username, text)
      ensures RemoveNewline(roomName) == RemoveNewline(old(roomName))
    {
      var todo := members;
      ghost var key := roomName;
      while todo != {}
        invariant todo <= members
        invariant RemoveNewline(roomName) == RemoveNewline(key)
        invariant forall u :: u in members ==> u.mqueue.Valid()
        invariant forall u :: u in todo ==> u.mqueue.messages == old(u.mqueue.messages)
        invariant forall u :: u in members - todo ==>
                    u.mqueue.messages == old(u.mqueue.messages) + Share(key, sender, u.username, text)
        decreases todo
      {
        var user :| user in todo;
        todo := todo - {user};
        if user.username != sender {
          RemoveNewlineTwice(roomName);
          roomName := RemoveNewline(roomName);
          RemoveNewlineTwice(sender);
          RemoveNewlineTwice(text);
          var msg := Message(TAG_DELIVERY, roomName + ":" + RemoveNewline(sender) + ":" + RemoveNewline(text));
          user.mqueue.Enqueue(msg);
        }
      }
    }
  }

  /** server.cpp */
  class Server {
    var rooms: map<string, Room>

    /** Every room is found under the name it was created under, so that distinct names have
        distinct rooms, and still goes by that name. */
    ghost predicate Valid()
      reads this, rooms.Values
    {
      && (forall k :: k in rooms ==> rooms[k].key == k)
      && (forall k :: k in rooms ==> RemoveNewline(rooms[k].roomName) == RemoveNewline(k))
    }

    constructor ()
      ensures Valid() && rooms == map[]
    {
      rooms := map[];
    }

    method FindOrCreateRoom(name: string) returns (room: Room)
      requires Valid()
      modifies this
      ensures Valid() && name in rooms && rooms[name] == room
      ensures name in old(rooms) ==> rooms == old(rooms)
      ensures name !in old(rooms) ==>
                fresh(room) && room.roomName == name && room.members == {} && rooms == old(rooms)[name := room]
    {
      if name !in rooms {
        room := new Room(name);
        rooms := rooms[name := room];
      } else {
        room := rooms[name];
      }
    }

    /** The users that may be members, with their queues. */
    ghost predicate Peopled(all: set<User>)
      reads this, rooms.Values, Queues(all)
    {
      QueuesReady(all) && forall k :: k in rooms ==> rooms[k].members <= all
    }

    /** The user is a member of the room of that name, and of no other. */
    ghost predicate Placed(user: User, spot: Option<string>)
      reads this, rooms.Values
    {
      && (spot.Some? ==> spot.value in rooms)
      && (forall k :: k in rooms ==> (user in rooms[k].members <==> spot == Some(k)))
    }

    /** The local room pointer is that of the name asked for last. */
    ghost predicate PointsAt(room: Room?, asked: Option<string>)
      reads this
    {
      if asked.None? then room == null else asked.value in rooms && room == rooms[asked.value]
    }

    /** Who is where. */
    ghost function Census(): Places
      reads this, rooms.Values
    {
      map k | k in rooms :: rooms[k].members
    }

    /** Since the census `was` no room has gone, and no user but `user` has joined or left one. */
    ghost predicate OthersStay(was: Places, user: User, all: set<User>)
      reads this, rooms.Values
    {
      && was.Keys <= rooms.Keys
      && forall k, u :: k in rooms && u in all && u != user ==>
           (u in rooms[k].members <==> k in was && u in was[k])
    }

    /** All of this, room by room. */
    ghost predicate Kept(user: User, all: set<User>, was: Places, spot: Option<string>)
      reads this, rooms.Values
    {
      && was.Keys <= rooms.Keys && (spot.Some? ==> spot.value in rooms)
      && forall k :: k in rooms ==> rooms[k].Kept(k, user, all, was, spot)
    }

    lemma KeptMeans(user: User, all: set<User>, was: Places, spot: Option<string>)
      requires QueuesReady(all)
      ensures Kept(user, all, was, spot) <==>
              Valid() && Peopled(all) && Placed(user, spot) && OthersStay(was, user, all)
    {
      if Kept(user, all, was, spot) {
        forall k, u | k in rooms && u in all && u != user
          ensures u in rooms[k].members <==> k in was && u in was[k]
        {
          assert rooms[k].Kept(k, user, all, was, spot);
        }
      }
    }

    lemma KeptIsValid(user: User, all: set<User>, was: Places, spot: Option<string>)
      requires Kept(user, all, was, spot)
      ensures Valid()
    {
    }

    lemma ToldExactly(was: Places, user: User, all: set<User>, key: string, u: User, name: string, text: string)
      requires u in all && key in rooms && rooms[key].Kept(key, user, all, was, Some(key))
      requires RemoveNewline(name) == RemoveNewline(key)
      ensures Told(Some(key), was, user, u, text) ==
              if u in rooms[key].members then Share(name, user.username, u.username, text) else []
    {
      ShareSame(name, key, user.username, u.username, text);
    }

    lemma NobodyMoved(user: User, all: set<User>)
      ensures OthersStay(Census(), user, all)
    {
    }

    /** The state of the sender loop between two requests, in a server whose other users
        are where they were at the census `was`. */
    ghost predicate InSession(user: User, room: Room?, all: set<User>, was: Places,
                              spot: Option<string>, asked: Option<string>)
      reads this, rooms.Values, Queues(all)
    {
      && user in all && QueuesReady(all) && Kept(user, all, was, spot)
      && PointsAt(room, asked) && (spot.Some? ==> spot == asked)
    }

    /** Both chat functions look a room up and then add their user to it. */
    method Find(user: User, name: string, ghost all: set<User>, ghost was: Places) returns (room: Room)
      requires Kept(user, all, was, None)
      modifies this
      ensures Kept(user, all, was, None) && PointsAt(room, Some(name))
      ensures forall r :: r in rooms.Values ==> r in old(rooms.Values) || fresh(r)
    {
      KeptIsValid(user, all, was, None);
      room := FindOrCreateRoom(name);
    }

    method Enter(user: User, room: Room, ghost name: string, ghost all: set<User>, ghost was: Places)
      requires user in all && Kept(user, all, was, None) && PointsAt(room, Some(name))
      modifies room`members
      ensures Kept(user, all, was, Some(name))
    {
      assert room.Kept(name, user, all, was, None);
      room.AddMember(user);
      assert room.Kept(name, user, all, was, Some(name));
      assert forall k :: k in rooms && k != name ==> rooms[k] != room;
    }

    method LookUpAndEnter(user: User, name: string, ghost all: set<User>, ghost was: Places) returns (room: Room)
      requires user in all && Kept(user, all, was, None)
      modifies this, rooms.Values`members
      ensures Kept(user, all, was, Some(name)) && PointsAt(room, Some(name))
      ensures forall r :: r in rooms.Values ==> r in old(rooms.Values) || fresh(r)
    {
      room := Find(user, name, all, was);
      Enter(user, room, name, all, was);
    }

    /** A join leaves the room of the local pointer first, a member there or not. */
    method Drop(user: User, room: Room, ghost all: set<User>, ghost was: Places,
                ghost spot: Option<string>, ghost asked: Option<string>)
      requires InSession(user, room, all, was, spot, asked)
      modifies room`members
      ensures InSession(user, room, all, was, None, asked)
    {
      assert room.Kept(asked.value, user, all, was, spot);
      room.RemoveMember(user);
      assert room.Kept(asked.value, user, all, was, None);
    }

    method LeaveOld(user: User, room: Room?, ghost all: set<User>, ghost was: Places,
                    ghost spot: Option<string>, ghost asked: Option<string>)
      requires InSession(user, room, all, was, spot, asked)
      modifies rooms.Values`members
      ensures Kept(user, all, was, None)
    {
      if room != null {
        Drop(user, room, all, was, spot, asked);
      }
    }

    method HandleJoin(user: User, room: Room?, name: string, ghost all: set<User>, ghost was: Places,
                      ghost spot: Option<string>, ghost asked: Option<string>)
      returns (joined: Room, reply: Message)
      requires InSession(user, room, all, was, spot, asked)
      modifies this, rooms.Values`members
      ensures InSession(user, joined, all, was, Some(name), Some(name))
      ensures forall r :: r in rooms.Values ==> r in old(rooms.Values) || fresh(r)
      ensures reply == ReplyTo(spot, Join(name)) == Message("ok", "Join successful")
    {
      LeaveOld(user, room, all, was, spot, asked);
      joined := LookUpAndEnter(user, name, all, was);
      reply := JOIN_DONE;
    }

    method HandleLeave(user: User, room: Room, ghost all: set<User>, ghost was: Places,
                       ghost spot: Option<string>, ghost asked: Option<string>)
      returns (reply: Message)
      requires InSession(user, room, all, was, spot, asked)
      modifies room`members
      ensures InSession(user, room, all, was, None, asked)
      ensures reply == ReplyTo(spot, Leave)
      ensures reply == if old(user in room.members) then Message("ok", "Leave successful")
                       else Message("err", "Leave unsuccessful, user isn't in the room")
    {
      var isMember := room.MemberExists(user);
      if isMember {
        Drop(user, room, all, was, spot, asked);
        reply := LEAVE_DONE;
      } else {
        reply := LEAVE_REFUSED;
      }
    }

    method HandleSendall(user: User, room: Room?, text: string, ghost all: set<User>, ghost was: Places,
                         ghost spot: Option<string>, ghost asked: Option<string>)
      returns (reply: Message)
      requires InSession(user, room, all, was, spot, asked)
      modifies rooms.Values`roomName, Queues(all)
      ensures InSession(user, room, all, was, spot, asked)
      ensures reply == ReplyTo(spot, Sendall(text))
      ensures reply == if room != null && old(user in room.members) then Message("ok", "Sendall successful")
                       else Message("err", "Sendall unsuccessful, user isn't in a room")
      ensures forall u :: u in all ==>
                u.mqueue.messages == old(u.mqueue.messages) + Told(spot, was, user, u, text)
    {
      var isMember := false;
      if room != null {
        isMember := room.MemberExists(user);
      }
      if room == null || !isMember {
        reply := SENDALL_REFUSED;
      } else {
        Tell(user, room, text, all, was, spot.value);
        reply := SENDALL_DONE;
      }
    }

    method Tell(user: User, room: Room, text: string, ghost all: set<User>, ghost was: Places, ghost key: string)
      requires InSession(user, room, all, was, Some(key), Some(key))
      modifies room`roomName, Queues(room.members)
      ensures InSession(user, room, all, was, Some(key), Some(key))
      ensures forall u :: u in all ==>
                u.mqueue.messages == old(u.mqueue.messages) + Told(Some(key), was, user, u, text)
    {
      ghost var name := room.roomName;
      room.BroadcastMessage(user.username, text);
      forall u | u in all
        ensures u.mqueue.messages == old(u.mqueue.messages) + Told(Some(key), was, user, u, text)
      {
        ToldExactly(was, user, all, key, u, name, text);
      }
    }

    /** chat_with_sender, undisturbed, on the requests its client sends, up to the first
        quit or unreadable line. The replies and the user's membership are those of the
        automaton, although the local room pointer goes on pointing at a room that the user
        has left; every user is sent what was broadcast in its rooms. */
    method ChatWithSender(requests: seq<Request>, user: User, ghost all: set<User>) returns (replies: seq<Message>)
      requires Valid() && user in all && Peopled(all) && Placed(user, None)
      requires LeavesSafe(requests, 0)
      modifies this, rooms.Values, Queues(all)
      ensures Valid() && Peopled(all) && OthersStay(old(Census()), user, all)
      ensures replies == Replies(Session.Read(requests))
      ensures Placed(user, Spot(Session.Read(requests)))
      ensures forall u :: u in all ==>
                u.mqueue.messages == QueueAfter(old(u.mqueue.messages), Session.Read(requests), old(Census()), user, u)
    {
      ghost var was, start := Census(), Inboxes(all);
      NobodyMoved(user, all);
      KeptMeans(user, all, was, None);
      ghost var room;
      replies, room := Converse(requests, user, all, was, start);
      KeptMeans(user, all, was, Spot(Session.Read(requests)));
    }

    /** Its loop, from a state where nothing has been requested yet. */
    method Converse(requests: seq<Request>, user: User, ghost all: set<User>, ghost was: Places,
                    ghost start: map<User, seq<Message>>)
      returns (replies: seq<Message>, ghost last: Room?)
      requires SessionAt([], user, null, all, was, start)
      requires LeavesSafe(requests, 0)
      modifies this, rooms.Values, Queues(all)
      ensures SessionAt(Session.Read(requests), user, last, all, was, start)
      ensures replies == Replies(Session.Read(requests))
    {
      replies := [];
      var room: Room? := null;
      var i, open := 0, true;
      ghost var done: seq<Request> := [];
      while open && i < |requests|
        invariant 0 <= i <= |requests| && LeavesSafe(requests, i)
        invariant ReadFrom(requests, 0) == if open then ReadFrom(requests, i) else i
        invariant forall r :: r in rooms.Values ==> r in old(rooms.Values) || fresh(r)
        invariant done == requests[..i] && replies == Replies(done)
        invariant SessionAt(done, user, room, all, was, start)
      {
        var reply;
        room, reply, done := Turn(requests[i], user, room, all, was, start, done);
        TakeMore(requests, i);
        replies := replies + [reply];
        open := !Ends(requests[i]);
        i := i + 1;
      }
      last := room;
    }

    ghost function Inboxes(all: set<User>): (inboxes: map<User, seq<Message>>)
      reads Queues(all)
    {
      map u | u in all :: u.mqueue.messages
    }

    /** The state after the given requests. */
    ghost predicate SessionAt(requests: seq<Request>, user: User, room: Room?, all: set<User>,
                           was: Places, start: map<User, seq<Message>>)
      reads this, rooms.Values, Queues(all)
    {
      && InSession(user, room, all, was, Spot(requests), Asked(requests))
      && all <= start.Keys
      && forall u :: u in all ==> u.mqueue.messages == QueueAfter(start[u], requests, was, user, u)
    }

    method Turn(request: Request, user: User, room: Room?, ghost all: set<User>, ghost was: Places,
                ghost start: map<User, seq<Message>>, ghost front: seq<Request>)
      returns (room': Room?, reply: Message, ghost done: seq<Request>)
      requires SessionAt(front, user, room, all, was, start) && (request.Leave? ==> Asked(front).Some?)
      modifies this, rooms.Values, Queues(all)
      ensures done == front + [request] && Replies(done) == Replies(front) + [reply]
      ensures SessionAt(done, user, room', all, was, start)
      ensures forall r :: r in rooms.Values ==> r in old(rooms.Values) || fresh(r)
    {
      done := front + [request];
      room', reply := HandleRequest(request, user, room, all, was, Spot(front), Asked(front));
      AppendRequest(front, request);
      forall u | u in all
        ensures u.mqueue.messages == QueueAfter(start[u], front + [request], was, user, u)
      {
        QueueAfterMore(start[u], front, request, was, user, u);
      }
    }

    /** One turn of the loop of chat_with_sender. */
    method HandleRequest(request: Request, user: User, room: Room?, ghost all: set<User>, ghost was: Places,
                         ghost spot: Option<string>, ghost asked: Option<string>)
      returns (room': Room?, reply: Message)
      requires InSession(user, room, all, was, spot, asked) && (request.Leave? ==> room != null)
      modifies this, rooms.Values, Queues(all)
      ensures InSession(user, room', all, was, SpotAfter(spot, request), AskedAfter(asked, request))
      ensures forall r :: r in rooms.Values ==> r in old(rooms.Values) || fresh(r)
      ensures reply == ReplyTo(spot, request)
      ensures forall u :: u in all ==>
                u.mqueue.messages == old(u.mqueue.messages) + ToldBy(request, spot, was, user, u)
    {
      room' := room;
      match request {
        case Garbled => reply := RECEIVE_ERROR;
        case Quit => reply := QUIT_DONE;
        case Join(name) => room', reply := HandleJoin(user, room, name, all, was, spot, asked);
        case Leave => reply := HandleLeave(user, room, all, was, spot, asked);
        case Sendall(text) => reply := HandleSendall(user, room, text, all, was, spot, asked);
      }
    }

    /** The delivery loop of chat_with_receiver, for as many turns as there are waits: the
        messages queued are sent in order, one for each wait that is not cut short. */
    method DeliverQueued(user: User, waits: seq<bool>) returns (sent: seq<Message>, failed: Option<Message>)
      requires user.mqueue.Valid()
      modifies user.mqueue
      ensures user.mqueue.Valid()
      ensures failed.None? ==> old(user.mqueue.messages) == sent + user.mqueue.messages
      ensures failed.None? ==> |sent| == Min(Full(waits), |old(user.mqueue.messages)|)
      ensures failed.Some? ==> old(user.mqueue.messages) == sent + [failed.value] + user.mqueue.messages
      ensures failed.Some? ==> failed.value.tag == TAG_ERR
      ensures forall i :: 0 <= i < |sent| ==> sent[i].tag != TAG_ERR
    {
      sent, failed := [], None;
      ghost var queued := user.mqueue.messages;
      for i := 0 to |waits|
        invariant user.mqueue.Valid()
        invariant queued == sent + user.mqueue.messages
        invariant |sent| == Min(Full(waits[..i]), |queued|)
        invariant forall k :: 0 <= k < |sent| ==> sent[k].tag != TAG_ERR
      {
        assert waits[..i + 1][..i] == waits[..i];
        var msg := user.mqueue.Dequeue(waits[i]);
        if msg.Some? {
          Associate(sent, [msg.value], user.mqueue.messages);
          if msg.value.tag == TAG_ERR {
            failed := msg;
            return;
          }
          sent := sent + [msg.value];
        }
      }
      assert waits[..|waits|] == waits;
    }

    /** chat_with_receiver, undisturbed. A first line other than a join is refused. */
    method ChatWithReceiver(first: Request, user: User, waits: seq<bool>, ghost all: set<User>)
      returns (replies: seq<Message>, sent: seq<Message>)
      requires Valid() && user in all && Peopled(all) && Placed(user, None)
      modifies this, rooms.Values`members, user.mqueue
      ensures Valid() && Peopled(all) && OthersStay(old(Census()), user, all)
      ensures Placed(user, if first.Join? then Some(first.name) else None)
      ensures ReceiverOutcome(first, old(user.mqueue.messages), waits, replies, sent, user.mqueue.messages)
    {
      ghost var was := Census();
      NobodyMoved(user, all);
      KeptMeans(user, all, was, None);
      if first.Join? {
        replies, sent := JoinAndDeliver(first.name, user, waits, all, was);
        KeptMeans(user, all, was, Some(first.name));
      } else {
        replies, sent := [if first.Garbled? then RECEIVE_ERROR else JOIN_EXPECTED], [];
      }
    }

    method JoinAndDeliver(name: string, user: User, waits: seq<bool>, ghost all: set<User>, ghost was: Places)
      returns (replies: seq<Message>, sent: seq<Message>)
      requires user in all && QueuesReady(all) && Kept(user, all, was, None)
      modifies this, rooms.Values`members, user.mqueue
      ensures QueuesReady(all) && Kept(user, all, was, Some(name))
      ensures ReceiverOutcome(Join(name), old(user.mqueue.messages), waits, replies, sent, user.mqueue.messages)
    {
      var room := LookUpAndEnter(user, name, all, was);
      replies, sent := ServeQueue(name, user, waits);
    }

    method ServeQueue(ghost name: string, user: User, waits: seq<bool>)
      returns (replies: seq<Message>, sent: seq<Message>)
      requires user.mqueue.Valid()
      modifies user.mqueue
      ensures user.mqueue.Valid()
      ensures ReceiverOutcome(Join(name), old(user.mqueue.messages), waits, replies, sent, user.mqueue.messages)
    {
      replies := [JOIN_DONE];
      var failed;
      sent, failed := DeliverQueued(user, waits);
      if failed.Some? {
        replies := replies + [RECEIVE_ERROR];
      }
    }
  }

  /** What a receiver's thread replies and sends, given its queue: nothing is sent unless it
      joined; after that the queue is what was sent, in order, followed by what is left, with
      an error message, if one comes up, taken out and not sent. */
  ghost predicate ReceiverOutcome(first: Request, queue: seq<Message>, waits: seq<bool>,
                                  replies: seq<Message>, sent: seq<Message>, left: seq<Message>) {
    if !first.Join? then
      && replies == [Message("err", if first.Garbled? then "Receive error" else "First message must be a join")]
      && sent == [] && left == queue
    else
      && (forall i :: 0 <= i < |sent| ==> sent[i].tag != "err")
      && ((replies == [Message("ok", "Join successful")] &&
           queue == sent + left && |sent| == Min(Full(waits), |queue|)) ||
          (replies == [Message("ok", "Join successful"), Message("err", "Receive error")] &&
           exists m: Message :: m.tag == "err" && queue == sent + [m] + left))
  }

  /** The waits that are not cut short. */
  function Full(waits: seq<bool>): nat {
    if waits == [] then 0
    else Full(waits[..|waits| - 1]) + if waits[|waits| - 1] then 0 else 1
  }

  /** What user `u` is told of a text that `user` broadcasts from `spot`. */
  function Told(spot: Option<string>, census: Places, user: User, u: User, text: string): seq<Message> {
    if spot.Some? && spot.value in census && u in census[spot.value]
    then Share(spot.value, user.username, u.username, text) else []
  }

  function ToldBy(request: Request, spot: Option<string>, census: Places, user: User, u: User): seq<Message> {
    if request.Sendall? then Told(spot, census, user, u, request.text) else []
  }

  /** The queue of `u` after the requests of `user`, if it was `queue` before. */
  function QueueAfter(queue: seq<Message>, requests: seq<Request>, census: Places, user: User, u: User)
    : seq<Message>
  {
    if requests == [] then queue
    else
      var front, last := requests[..|requests| - 1], requests[|requests| - 1];
      QueueAfter(queue, front, census, user, u) + ToldBy(last, Spot(front), census, user, u)
  }

  lemma QueueAfterMore(queue: seq<Message>, front: seq<Request>, request: Request,
                       census: Places, user: User, u: User)
    ensures QueueAfter(queue, front + [request], census, user, u) ==
            QueueAfter(queue, front, census, user, u) + ToldBy(request, Spot(front), census, user, u)
  {
    assert (front + [request])[..|front|] == front;
  }

  /** `u` is in the room from which request `i` of `user` broadcasts, under another name. */
  ghost predicate Hears(requests: seq<Request>, i: nat, census: Places, user: User, u: User)
    requires i <= |requests|
  {
    u.username != user.username && exists key :: InRoomAt(requests, i, key) && key in census && u in census[key]
  }

  predicate ToldAt(requests: seq<Request>, i: nat, census: Places, user: User, u: User) {
    && i < |requests| && requests[i].Sendall? && u.username != user.username
    && Spot(requests[..i]).Some? && Spot(requests[..i]).value in census && u in census[Spot(requests[..i]).value]
  }

  lemma ToldIffHears(requests: seq<Request>, i: nat, census: Places, user: User, u: User)
    requires i < |requests| && requests[i].Sendall?
    ensures ToldAt(requests, i, census, user, u) <==> Hears(requests, i, census, user, u)
    ensures forall key :: InRoomAt(requests, i, key) <==> Spot(requests[..i]) == Some(key)
  {
    forall key
      ensures InRoomAt(requests, i, key) <==> Spot(requests[..i]) == Some(key)
    {
      SpotMeans(requests, i, key);
    }
    if ToldAt(requests, i, census, user, u) {
      assert InRoomAt(requests, i, Spot(requests[..i]).value);
    }
  }

  /** What QueueAfter adds: in order, exactly one delivery for each sendall that `u` hears,
      of its text, from the room it was sent from. */
  lemma QueueAfterExactly(queue: seq<Message>, requests: seq<Request>, census: Places, user: User, u: User)
    returns (at: seq<nat>)
    ensures Increasing(at)
    ensures forall i :: 0 <= i < |requests| && requests[i].Sendall? && Hears(requests, i, census, user, u) ==> i in at
    ensures var after := QueueAfter(queue, requests, census, user, u);
            && |after| == |queue| + |at| && after[..|queue|] == queue
            && forall n :: 0 <= n < |at| ==>
                 && at[n] < |requests| && requests[at[n]].Sendall? && Hears(requests, at[n], census, user, u)
                 && forall key :: InRoomAt(requests, at[n], key) ==>
                      after[|queue| + n] == Delivery(key, user.username, requests[at[n]].text)
  {
    var p := (i: nat) => ToldAt(requests, i, census, user, u);
    at := Where(p, |requests|);
    WhereExactly(p, |requests|);
    assert requests[..|requests|] == requests;
    QueueAfterIsWhere(queue, requests, census, user, u, p, |requests|);
    forall i | 0 <= i < |requests| && requests[i].Sendall?
      ensures p(i) <==> Hears(requests, i, census, user, u)
      ensures forall key :: InRoomAt(requests, i, key) <==> Spot(requests[..i]) == Some(key)
    {
      ToldIffHears(requests, i, census, user, u);
    }
  }

  lemma {:induction false} QueueAfterIsWhere(queue: seq<Message>, requests: seq<Request>, census: Places,
                                             user: User, u: User, p: nat -> bool, n: nat)
    requires n <= |requests| && forall i: nat :: p(i) <==> ToldAt(requests, i, census, user, u)
    ensures var at, after := Where(p, n), QueueAfter(queue, requests[..n], census, user, u);
            && |after| == |queue| + |at| && after[..|queue|] == queue
            && forall k :: 0 <= k < |at| ==>
                 ToldAt(requests, at[k], census, user, u) &&
                 after[|queue| + k] == Delivery(Spot(requests[..at[k]]).value, user.username, requests[at[k]].text)
  {
    if n > 0 {
      QueueAfterIsWhere(queue, requests, census, user, u, p, n - 1);
      LastOfPrefix(requests, n);
      ToldOnce(requests, n - 1, census, user, u);
      assert p(n - 1) <==> ToldAt(requests, n - 1, census, user, u);
    } else {
      assert requests[..0] == [];
    }
  }

  lemma ToldOnce(requests: seq<Request>, i: nat, census: Places, user: User, u: User)
    requires i < |requests|
    ensures ToldBy(requests[i], Spot(requests[..i]), census, user, u) ==
            if ToldAt(requests, i, census, user, u)
            then [Delivery(Spot(requests[..i]).value, user.username, requests[i].text)] else []
  {
  }

  lemma ShareSame(name: string, key: string, sender: string, member: string, text: string)
    requires RemoveNewline(name) == RemoveNewline(key)
    ensures Share(name, sender, member, text) == Share(key, sender, member, text)
  {
  }

  function SpotAfter(spot: Option<string>, request: Request): Option<string> {
    match request
    case Join(name) => Some(name)
    case Leave => None
    case _ => spot
  }

  function AskedAfter(asked: Option<string>, request: Request): Option<string> {
    if request.Join? then Some(request.name) else asked
  }

  lemma AppendRequest(front: seq<Request>, request: Request)
    ensures var all := front + [request];
            && Replies(all) == Replies(front) + [ReplyTo(Spot(front), request)]
            && Spot(all) == SpotAfter(Spot(front), request)
            && Asked(all) == AskedAfter(Asked(front), request)
  {
    assert (front + [request])[..|front|] == front;
  }
}
