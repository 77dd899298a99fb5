/** The server as a machine of many threads. A thread is a program counter plus the local
    variables of chat_with_sender or chat_with_receiver; shared are the room registry, the
    rooms with their member sets, one message queue per user, and the locks. Every step
    below is one that the C++ program takes without another thread seeing its middle: it
    touches shared data only under the lock that protects it, or is a single atomic access.
    Each worker thread creates one User, so thread and user share one number. */
module Machine {
  import opened Text
  import opened Protocol

  type Id = nat

  datatype Lock = ServerLock | RoomLock(room: nat) | QueueLock(user: Id)

  /** A broadcast, as recorded in the log of its room. */
  datatype Entry = Entry(sender: Id, username: string, text: string)

  /** `key` (the name the room was created under) and `log` are history. */
  datatype Room = Room(key: string, name: string, members: set<Id>, log: seq<Entry>)

  datatype User = User(username: string, messages: seq<Message>, avail: nat)

  /** Where a thread stands with respect to a critical section: about to lock, holding the
      lock with the work still to do, or with the work done and about to unlock. */
  datatype Stage = Want | Held | Done

  datatype Work =
    | Drop(name: string)                     // join: remove_member on the old room
    | Find(name: string)                     // find_or_create_room
    | Add                                    // add_member
    | Remove                                 // leave: remove_member
    | Cast(text: string)                     // broadcast_message, outside its loop
    | Push(text: string, visited: set<Id>, user: Id, msg: Message) // enqueue
    | Pop(got: bool, hand: Option<Message>)  // dequeue, after the wait

  datatype AfterSend = ThenRecv | ThenWait | ThenStop

  datatype Pc =
    | Recv                                   // about to receive the next line
    | Section(stage: Stage, work: Work)
    | Visit(text: string, visited: set<Id>)  // at the head of the loop of broadcast_message
    | Post(text: string, visited: set<Id>, user: Id, msg: Message) // between push_back and sem_post
    | Reply(msg: Message, next: AfterSend)   // about to send a reply
    | Wait                                   // dequeue: about to wait on the semaphore
    | Deliver(msg: Message)                  // about to send a dequeued message
    | Stopped

  datatype Kind = Refused | Sender | Receiver

  /** `room` is the local room pointer. `requests`, `replies`, `delivered` and `joinAt` (the
      length of the room's log when the thread became a member) are history. */
  datatype Thread = Thread(
    kind: Kind, pc: Pc, room: Option<nat>,
    requests: seq<Request>, replies: seq<Message>, delivered: seq<Message>, joinAt: nat)

  /** `clean` is history: no line with the tag "delivery" has been received so far. */
  datatype State = State(
    threads: map<Id, Thread>, users: map<Id, User>,
    rooms: seq<Room>, registry: map<string, nat>,
    owner: map<Lock, Id>, clean: bool)

  const INIT := State(map[], map[], [], map[], map[], true)

  datatype Action =
    | Login(got: Parsed) | Receive(got: Parsed)   // what `receive` makes of a line
    | Acquire | Release
    | Erase | Lookup | Insert
    | Begin | VisitNext(user: Id) | Finish | PushBack | SemPost
    | SemWait | TimeOut | PopFront
    | Respond | HandOver

  predicate OnWire(a: Action) { a.Login? || a.Receive? || a.Respond? || a.HandOver? }
  predicate OnLock(a: Action) { a.Acquire? || a.Release? }
  predicate OnRoom(a: Action) { a.Erase? || a.Lookup? || a.Insert? || a.Begin? || a.VisitNext? || a.Finish? }
  predicate OnQueue(a: Action) { a.PushBack? || a.SemPost? || a.SemWait? || a.TimeOut? || a.PopFront? }

  /** `line` is the line that a Login or Receive step takes off the thread's connection. */
  datatype Step = Step(thread: Id, action: Action, line: string)

  // ---- locks ----

  function RoomLockOf(th: Thread): Option<Lock> {
    if th.room.Some? then Some(RoomLock(th.room.value)) else None
  }

  /** The lock that protects a critical section of thread `t`. */
  function WorkLock(t: Id, th: Thread, work: Work): Option<Lock> {
    match work
    case Find(_) => Some(ServerLock)
    case Push(_, _, user, _) => Some(QueueLock(user))
    case Pop(_, _) => Some(QueueLock(t))
    case _ => RoomLockOf(th)
  }

  function SectionLock(t: Id, th: Thread): Option<Lock> {
    if th.pc.Section? then WorkLock(t, th, th.pc.work) else None
  }

  /** In the loop of broadcast_message. */
  predicate Casting(pc: Pc) {
    pc.Visit? || pc.Post? || (pc.Section? && pc.work.Push?)
  }

  /** Whether thread `t` holds lock `l`, read off its program counter. */
  predicate Holds(t: Id, th: Thread, l: Lock) {
    || (Casting(th.pc) && RoomLockOf(th) == Some(l))
    || (th.pc.Post? && l == QueueLock(th.pc.user))
    || (th.pc.Section? && th.pc.stage != Want && SectionLock(t, th) == Some(l))
  }

  // ---- one step ----

  function AfterSection(kind: Kind, work: Work): Pc {
    match work
    case Drop(name) => Section(Want, Find(name))
    case Find(_) => Section(Want, Add)
    case Add => Reply(JOIN_DONE, if kind == Sender then ThenRecv else ThenWait)
    case Remove => Reply(LEAVE_DONE, ThenRecv)
    case Cast(_) => Reply(SENDALL_DONE, ThenRecv)
    case Push(text, visited, user, _) => Visit(text, visited + {user})
    case Pop(_, hand) =>
      if hand.None? then Wait
      else if hand.value.tag == TAG_ERR then Reply(RECEIVE_ERROR, ThenStop)
      else Deliver(hand.value)
  }

  function AfterReply(next: AfterSend): Pc {
    match next
    case ThenRecv => Recv
    case ThenWait => Wait
    case ThenStop => Stopped
  }

  predicate IsMember(s: State, t: Id, room: Option<nat>) {
    room.Some? && room.value < |s.rooms| && t in s.rooms[room.value].members
  }

  /** What the sender loop does with a request, given its room pointer and what
      member_exists, a single unlocked read, answers. */
  function SenderPc(room: Option<nat>, isMember: bool, request: Request): Pc {
    match request
    case Garbled => Reply(RECEIVE_ERROR, ThenStop)
    case Quit => Reply(QUIT_DONE, ThenStop)
    case Join(name) => Section(Want, if room.Some? then Drop(name) else Find(name))
    case Leave => if isMember then Section(Want, Remove) else Reply(LEAVE_REFUSED, ThenRecv)
    case Sendall(text) =>
      if room.None? || !isMember then Reply(SENDALL_REFUSED, ThenRecv) else Section(Want, Cast(text))
  }

  /** What the receiver does with its first and only request. */
  function ReceiverPc(request: Request): Pc {
    match request
    case Garbled => Reply(RECEIVE_ERROR, ThenStop)
    case Join(name) => Section(Want, Find(name))
    case _ => Reply(JOIN_EXPECTED, ThenStop)
  }

  function LoginThread(p: Parsed): Thread {
    if p.Received? && p.msg.tag == TAG_SLOGIN then
      Thread(Sender, Reply(SENDER_LOGGED_IN, ThenRecv), None, [], [], [], 0)
    else if p.Received? && p.msg.tag == TAG_RLOGIN then
      Thread(Receiver, Reply(RECEIVER_LOGGED_IN, ThenRecv), None, [], [], [], 0)
    else
      Thread(Refused, Reply(LOGIN_REFUSED, ThenStop), None, [], [], [], 0)
  }

  /** When thread `t` can take a step. Lines on which the program has no defined behaviour,
      and the leave that dereferences a null room pointer, are no steps. */
  predicate Enabled(s: State, t: Id, a: Action) {
    if a.Login? then
      t !in s.threads && !a.got.Undefined?
    else
      t in s.threads &&
      var th := s.threads[t];
      match a
      case Login(_) => false
      case Receive(got) =>
        th.pc.Recv? && !got.Undefined? &&
        (th.kind == Sender && ToRequest(got).Leave? ==> th.room.Some?)
      case Acquire =>
        th.pc.Section? && th.pc.stage == Want && SectionLock(t, th).Some? && SectionLock(t, th).value !in s.owner
      case Release => th.pc.Section? && th.pc.stage == Done && SectionLock(t, th).Some?
      case Erase => InSection(th) && (th.pc.work.Drop? || th.pc.work.Remove?) && HasRoom(s, th)
      case Lookup => InSection(th) && th.pc.work.Find?
      case Insert => InSection(th) && th.pc.work.Add? && HasRoom(s, th)
      case Begin => InSection(th) && th.pc.work.Cast? && HasRoom(s, th) && t in s.users
      case VisitNext(user) =>
        th.pc.Visit? && HasRoom(s, th) && t in s.users && user in s.users &&
        user in s.rooms[th.room.value].members && user !in th.pc.visited
      case Finish => th.pc.Visit? && HasRoom(s, th) && s.rooms[th.room.value].members <= th.pc.visited
      case PushBack => InSection(th) && th.pc.work.Push? && th.pc.work.user in s.users
      case SemPost => th.pc.Post? && th.pc.user in s.users
      case SemWait => th.pc.Wait? && t in s.users && s.users[t].avail > 0
      case TimeOut => th.pc.Wait?
      case PopFront =>
        InSection(th) && th.pc.work.Pop? && t in s.users && (th.pc.work.got ==> s.users[t].messages != [])
      case Respond => th.pc.Reply?
      case HandOver => th.pc.Deliver?
  }

  /** Holding the lock of a critical section with its work still to do. */
  predicate InSection(th: Thread) {
    th.pc.Section? && th.pc.stage == Held
  }

  predicate HasRoom(s: State, th: Thread) {
    th.room.Some? && th.room.value < |s.rooms|
  }

  // ---- the effect of a step ----

  /** What a step of a thread writes: its own record, at most one user record, at most one
      room (possibly a new one), and the lock owners. */
  datatype Effect = Effect(thread: Thread, user: Option<(Id, User)>, room: Option<(nat, Room)>, owner: map<Lock, Id>)

  function UsersAfter(users: map<Id, User>, change: Option<(Id, User)>): map<Id, User> {
    if change.None? then users else users[change.value.0 := change.value.1]
  }

  function RoomsAfter(rooms: seq<Room>, change: Option<(nat, Room)>): seq<Room>
    requires change.Some? ==> change.value.0 <= |rooms|
  {
    if change.None? then rooms
    else if change.value.0 < |rooms| then rooms[change.value.0 := change.value.1]
    else rooms + [change.value.1]
  }

  function RegistryAfter(s: State, change: Option<(nat, Room)>): map<string, nat> {
    if change.Some? && change.value.0 >= |s.rooms| then s.registry[change.value.1.key := change.value.0]
    else s.registry
  }

  function Commit(s: State, t: Id, e: Effect, clean: bool): State
    requires e.room.Some? ==> e.room.value.0 <= |s.rooms|
  {
    State(s.threads[t := e.thread], UsersAfter(s.users, e.user), RoomsAfter(s.rooms, e.room),
          RegistryAfter(s, e.room), e.owner, clean)
  }

  /** A step that concerns only the thread itself. */
  function Alone(s: State, th: Thread): Effect {
    Effect(th, None, None, s.owner)
  }

  function WithUser(s: State, th: Thread, u: Id, user: User): Effect {
    Effect(th, Some((u, user)), None, s.owner)
  }

  function WithRoom(s: State, th: Thread, r: nat, room: Room): Effect {
    Effect(th, None, Some((r, room)), s.owner)
  }

  /** find_or_create_room, with the server lock held. */
  function LookupEffect(s: State, th: Thread, name: string): Effect {
    var pc := Section(Done, Find(name));
    if name in s.registry then
      Alone(s, th.(room := Some(s.registry[name]), pc := pc))
    else
      WithRoom(s, th.(room := Some(|s.rooms|), pc := pc), |s.rooms|, Room(name, name, {}, []))
  }

  /** One turn of the loop of broadcast_message. */
  function VisitEffect(s: State, t: Id, user: Id): Effect
    requires Enabled(s, t, VisitNext(user))
  {
    var th := s.threads[t];
    var text, visited, room := th.pc.text, th.pc.visited, s.rooms[th.room.value];
    if s.users[user].username == s.users[t].username then
      Alone(s, th.(pc := Visit(text, visited + {user})))
    else
      var name := RemoveNewline(room.name);
      var msg := Delivery(name, s.users[t].username, text);
      WithRoom(s, th.(pc := Section(Want, Push(text, visited, user, msg))),
               th.room.value, room.(name := name))
  }

  /** Under the queue's lock, and only after a successful wait: front and pop_front. */
  function PopEffect(s: State, t: Id): Effect
    requires Enabled(s, t, PopFront)
  {
    var th, user := s.threads[t], s.users[t];
    if th.pc.work.got then
      WithUser(s, th.(pc := Section(Done, Pop(true, Some(user.messages[0])))), t,
               user.(messages := user.messages[1..]))
    else
      Alone(s, th.(pc := Section(Done, Pop(false, None))))
  }

  function EffectOf(s: State, t: Id, a: Action): (e: Effect)
    requires Enabled(s, t, a)
    ensures e.room.Some? ==> e.room.value.0 <= |s.rooms|
  {
    if a.Login? then
      var th := LoginThread(a.got);
      if th.kind == Refused then Alone(s, th) else WithUser(s, th, t, User(a.got.msg.data, [], 0))
    else
      var th := s.threads[t];
      match a
      case Receive(got) =>
        var request := ToRequest(got);
        var pc := if th.kind == Sender then SenderPc(th.room, IsMember(s, t, th.room), request)
                  else ReceiverPc(request);
        Alone(s, th.(pc := pc, requests := th.requests + [request]))
      case Acquire =>
        Alone(s, th.(pc := Section(Held, th.pc.work))).(owner := s.owner[SectionLock(t, th).value := t])
      case Release =>
        Alone(s, th.(pc := AfterSection(th.kind, th.pc.work))).(owner := s.owner - {SectionLock(t, th).value})
      case Erase =>
        var room := s.rooms[th.room.value];
        WithRoom(s, th.(pc := Section(Done, th.pc.work)), th.room.value, room.(members := room.members - {t}))
      case Lookup => LookupEffect(s, th, th.pc.work.name)
      case Insert =>
        var room := s.rooms[th.room.value];
        WithRoom(s, th.(pc := Section(Done, Add), joinAt := |room.log|),
                 th.room.value, room.(members := room.members + {t}))
      case Begin =>
        var text, room := th.pc.work.text, s.rooms[th.room.value];
        WithRoom(s, th.(pc := Visit(text, {})), th.room.value,
                 room.(log := room.log + [Entry(t, s.users[t].username, text)]))
      case VisitNext(user) => VisitEffect(s, t, user)
      case Finish => Alone(s, th.(pc := Section(Done, Cast(th.pc.text))))
      case PushBack =>
        var Push(text, visited, u, msg) := th.pc.work;
        WithUser(s, th.(pc := Post(text, visited, u, msg)), u,
                 s.users[u].(messages := s.users[u].messages + [msg]))
      case SemPost =>
        var Post(text, visited, u, msg) := th.pc;
        WithUser(s, th.(pc := Section(Done, Push(text, visited, u, msg))), u,
                 s.users[u].(avail := s.users[u].avail + 1))
      case SemWait =>
        WithUser(s, th.(pc := Section(Want, Pop(true, None))), t, s.users[t].(avail := s.users[t].avail - 1))
      case TimeOut => Alone(s, th.(pc := Section(Want, Pop(false, None))))
      case PopFront => PopEffect(s, t)
      case Respond => Alone(s, th.(pc := AfterReply(th.pc.next), replies := th.replies + [th.pc.msg]))
      case HandOver => Alone(s, th.(pc := Wait, delivered := th.delivered + [th.pc.msg]))
  }

  predicate BringsDelivery(a: Action) {
    (a.Login? || a.Receive?) && a.got.Received? && a.got.msg.tag == TAG_DELIVERY
  }

  function Apply(s: State, t: Id, a: Action): State
    requires Enabled(s, t, a)
  {
    Commit(s, t, EffectOf(s, t, a), s.clean && !BringsDelivery(a))
  }

  predicate HeardRight(step: Step) {
    step.action.Login? || step.action.Receive? ==> step.action.got == Parse(step.line)
  }

  predicate Follows(s: State, step: Step, s': State) {
    HeardRight(step) && Enabled(s, step.thread, step.action) && s' == Apply(s, step.thread, step.action)
  }

  /** Any sequence of steps of any threads, with the states it passes through. */
  datatype Run = Run(states: seq<State>, steps: seq<Step>)

  ghost predicate IsRun(run: Run) {
    && |run.states| == |run.steps| + 1 && run.states[0] == INIT
    && forall i {:trigger run.steps[i]} :: 0 <= i < |run.steps| ==>
         Follows(run.states[i], run.steps[i], run.states[i + 1])
  }

  /** Every prefix of a run is a run, so this is any reachable state. */
  function Final(run: Run): State
    requires run.states != []
  {
    run.states[|run.states| - 1]
  }

  /** Reachable: the last state of some run. */
  ghost predicate HasRun(s: State) {
    exists run :: IsRun(run) && Final(run) == s
  }

  lemma OneMoreStep(s: State, step: Step, s': State)
    requires HasRun(s) && Follows(s, step, s')
    ensures HasRun(s')
  {
    var run: Run :| IsRun(run) && Final(run) == s;
    var longer := Run(run.states + [s'], run.steps + [step]);
    forall i | 0 <= i < |longer.steps|
      ensures Follows(longer.states[i], longer.steps[i], longer.states[i + 1])
    {
      if i < |run.steps| {
        assert Follows(run.states[i], run.steps[i], run.states[i + 1]);
      }
    }
    assert IsRun(longer) && Final(longer) == s';
  }

  lemma StartHasRun()
    ensures HasRun(INIT)
  {
    var run := Run([INIT], []);
    assert IsRun(run) && Final(run) == INIT;
  }

  // ---- one thread by itself ----

  /** Thread `t` takes the given steps, and no other thread moves. */
  function Perform(s: State, t: Id, actions: seq<Action>): Option<State>
    decreases |actions|
  {
    if actions == [] then Some(s)
    else if Enabled(s, t, actions[0]) then Perform(Apply(s, t, actions[0]), t, actions[1..])
    else None
  }

  /** The steps of a thread that takes no line. */
  predicate Silent(actions: seq<Action>) {
    forall i :: 0 <= i < |actions| ==> !actions[i].Login? && !actions[i].Receive?
  }

  lemma SilentConcat(a: seq<Action>, b: seq<Action>)
    requires Silent(a) && Silent(b)
    ensures Silent(a + b)
  {
  }

  lemma {:induction false} PerformConcat(s: State, t: Id, a: seq<Action>, b: seq<Action>)
    requires Perform(s, t, a).Some?
    ensures Perform(s, t, a + b) == Perform(Perform(s, t, a).value, t, b)
    decreases |a|
  {
    if a == [] {
      assert a + b == b;
    } else {
      assert (a + b)[1..] == a[1..] + b;
      PerformConcat(Apply(s, t, a[0]), t, a[1..], b);
    }
  }

  lemma OneStep(s: State, t: Id, a: Action) returns (s': State)
    requires Enabled(s, t, a)
    ensures s' == Apply(s, t, a) && Perform(s, t, [a]) == Some(s')
  {
    s' := Apply(s, t, a);
    assert Perform(s', t, []) == Some(s');
  }
}
