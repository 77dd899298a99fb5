/** One conversation from end to end. In any state a run can reach with no lock taken, a new
    sender and a new receiver of any two names can log in and join a room of any name, the
    sender can say something, and the receiver is sent it and nothing else. */
module Hello {
  import opened Text
  import opened Protocol
  import opened Framing
  import opened Machine
  import opened Invariant
  import opened History
  import opened ExactDelivery
  import opened DeliveryStep
  import opened Ordered
  import opened Theorems
  import opened Progress
  import opened Completion
  import opened Requests
  import opened Serving

  /** Data that arrives as it is: the rest of a line, newline included. */
  predicate Word(data: string) {
    data != "" && ':' !in data && '\0' !in data
  }

  // ---- the lines ----

  lemma SenderLine(name: string)
    requires Word(name)
    ensures Parse("slogin" + ":" + name) == Received(Message("slogin", name))
  {
    ParseTwoFields("slogin", name);
  }

  lemma ReceiverLine(name: string)
    requires Word(name)
    ensures Parse("rlogin" + ":" + name) == Received(Message("rlogin", name))
  {
    ParseTwoFields("rlogin", name);
  }

  lemma JoinLine(room: string)
    requires Word(room)
    ensures Parse("join" + ":" + room) == Received(Message("join", room))
    ensures ToRequest(Received(Message("join", room))) == Request.Join(room)
  {
    ParseTwoFields("join", room);
  }

  lemma SendallLine(text: string)
    requires Word(text)
    ensures Parse("sendall" + ":" + text) == Received(Message("sendall", text))
    ensures ToRequest(Received(Message("sendall", text))) == Sendall(text)
  {
    ParseTwoFields("sendall", text);
  }

  // ---- the sender ----

  /** About to receive, with this history. */
  ghost predicate Speaks(s: State, t: Id, line: string, requests: seq<Request>) {
    && t in s.threads && BeganWith(s, t, line) && s.threads[t].requests == requests
    && s.threads[t].kind == Sender && s.threads[t].pc.Recv?
  }

  lemma SenderGoesOn(run: Run, t: Id)
    requires IsRun(run) && t in Final(run).threads && AtRest(Final(run).threads[t].pc)
    requires Final(run).threads[t].kind == Sender && Final(run).threads[t].requests == []
    ensures Final(run).threads[t].pc.Recv?
  {
    Reachable(run);
    assert ThreadShape(Final(run), t) && HistoryOf(Final(run), t);
  }

  lemma SenderLogsIn(run: Run, t: Id, name: string) returns (longer: Run)
    requires IsRun(run) && Final(run).owner == map[] && t !in Final(run).threads && Word(name)
    ensures Extends(run, longer) && Final(longer).owner == map[]
    ensures Speaks(Final(longer), t, "slogin" + ":" + name, [])
    ensures OthersAsTheyWere(Final(run), Final(longer), t)
  {
    SenderLine(name);
    longer := ServeLogin(run, t, "slogin" + ":" + name);
    SenderGoesOn(longer, t);
  }

  lemma SenderAsks(run: Run, t: Id, began: string, requests: seq<Request>, line: string) returns (longer: Run)
    requires IsRun(run) && Final(run).owner == map[] && Speaks(Final(run), t, began, requests)
    requires Parse(line).Received? && var request := ToRequest(Parse(line)); request.Join? || request.Sendall?
    ensures Extends(run, longer) && Final(longer).owner == map[]
    ensures Speaks(Final(longer), t, began, requests + [ToRequest(Parse(line))])
    ensures OthersAsTheyWere(Final(run), Final(longer), t) && LogsGrown(Final(run), Final(longer), t)
    ensures StillTheSame(Final(run), Final(longer))
    ensures Answered(Final(run), Final(longer), t, ToRequest(Parse(line)))
    ensures Said(Final(run), Final(longer), t, ToRequest(Parse(line)))
  {
    longer := ServeRequest(run, t, line);
    assert BeganWith(Final(longer), t, began);
  }

  // ---- the receiver ----

  ghost predicate Listens(s: State, v: Id, line: string) {
    && v in s.threads && BeganWith(s, v, line) && s.threads[v].requests == []
    && s.threads[v].kind == Receiver && s.threads[v].pc.Recv?
  }

  lemma ReceiverLogsIn(run: Run, v: Id, name: string) returns (longer: Run)
    requires IsRun(run) && Final(run).owner == map[] && v !in Final(run).threads && Word(name)
    ensures Extends(run, longer) && Final(longer).owner == map[]
    ensures Listens(Final(longer), v, "rlogin" + ":" + name)
    ensures OthersAsTheyWere(Final(run), Final(longer), v) && StillTheSame(Final(run), Final(longer))
  {
    ReceiverLine(name);
    longer := ServeLogin(run, v, "rlogin" + ":" + name);
    ReceiverAnswered(longer, v, Undefined);
  }

  /** Waiting in the room, with nothing said since it came in. */
  ghost predicate Hears(s: State, v: Id, line: string, room: string) {
    && IsReceiver(s, v) && BeganWith(s, v, line) && s.threads[v].pc.Wait?
    && s.threads[v].replies == [Message("ok", "Receiver logged in"), Message("ok", "Join successful")]
    && Joined(s, v) && s.rooms[s.threads[v].room.value].key == room
    && s.threads[v].joinAt == |s.rooms[s.threads[v].room.value].log|
  }

  lemma ReceiverJoins(run: Run, v: Id, began: string, room: string) returns (longer: Run)
    requires IsRun(run) && Final(run).owner == map[] && Listens(Final(run), v, began) && Word(room)
    ensures Extends(run, longer) && Final(longer).owner == map[] && Hears(Final(longer), v, began, room)
    ensures OthersAsTheyWere(Final(run), Final(longer), v) && StillTheSame(Final(run), Final(longer))
  {
    JoinLine(room);
    longer := ServeLine(run, v, "join" + ":" + room);
    ReceiverAnswered(longer, v, Undefined);
    assert BeganWith(Final(longer), v, began);
    WaitsJoined(longer, v);
  }

  lemma WaitsJoined(run: Run, v: Id)
    requires IsRun(run) && v in Final(run).threads && Final(run).threads[v].kind == Receiver
    requires Final(run).threads[v].pc.Wait?
    ensures IsReceiver(Final(run), v) && Joined(Final(run), v)
  {
    Reachable(run);
    assert ThreadShape(Final(run), v) && HistoryOf(Final(run), v);
    InsideIsMember(Final(run), v);
  }

  lemma InsideIsMember(s: State, v: Id)
    requires v in s.threads && s.threads[v].kind == Receiver && s.threads[v].pc.Wait?
    requires ThreadShape(s, v) && HistoryOf(s, v)
    ensures Joined(s, v)
  {
    assert MemberOnlyOf(s, v, s.threads[v].room);
  }

  // ---- what is said ----

  lemma {:induction false} GrownTexts(log: seq<Entry>, log': seq<Entry>, t: Id)
    requires LogGrown(log, log', t)
    ensures |TextsOf(log', t)| == |TextsOf(log, t)| + |log'| - |log|
    decreases |log'|
  {
    if |log| < |log'| {
      GrownTexts(log, log'[..|log'| - 1], t);
    } else {
      assert log' == log;
    }
  }

  lemma LastOnly(log: seq<Entry>, log': seq<Entry>)
    requires log <= log' && |log'| == |log| + 1
    ensures log' == log + [log'[|log|]]
  {
  }

  lemma SameLast(texts: seq<string>, a: string, more: seq<string>)
    requires texts + more == texts + [a] && |more| <= 1
    ensures more == [a]
  {
    assert (texts + more)[|texts|] == (texts + [a])[|texts|];
  }

  lemma OneEntry(log: seq<Entry>, log': seq<Entry>, t: Id, text: string)
    requires LogGrown(log, log', t) && TextsOf(log', t) == TextsOf(log, t) + [text]
    ensures |log'| == |log| + 1 && log' == log + [log'[|log|]] && log'[|log|].sender == t && log'[|log|].text == text
  {
    GrownTexts(log, log', t);
    LastOnly(log, log');
    TextsAppend(log, log'[|log|], t);
    SameLast(TextsOf(log, t), text, [log'[|log|].text]);
  }

  lemma DueOfOne(log: seq<Entry>, e: Entry, username: string, key: string)
    requires e.username != username
    ensures Due(log + [e], |log|, username, key) == [Delivery(key, e.username, e.text)]
  {
    assert (log + [e])[..|log|] == log;
  }

  /** The sender is in the room it asked for last. */
  lemma SpeakerIsIn(run: Run, t: Id, began: string, room: string, r: nat)
    requires IsRun(run) && Speaks(Final(run), t, began, [Request.Join(room)])
    requires r < |Final(run).rooms| && Final(run).rooms[r].key == room
    ensures t in Final(run).rooms[r].members
  {
    Reachable(run);
    ReadySettled(Final(run), t);
  }

  /** What the log of the receiver's room holds after the sendall. */
  lemma LogOfRoom(s: State, s': State, t: Id, name: string, text: string, r: nat)
    requires r < |s.rooms| && t in s.rooms[r].members && Signed(s') && LogsGrown(s, s', t)
    requires t in s'.users && s'.users[t].username == name
    requires Said(s, s', t, Sendall(text))
    ensures s'.rooms[r].log == s.rooms[r].log + [Entry(t, name, text)]
  {
    var log, log' := s.rooms[r].log, s'.rooms[r].log;
    SaidHere(s, s', t, text, r);
    OneEntry(log, log', t, text);
    SignedAs(s', r, |log|);
    assert log'[|log|] == Entry(t, name, text);
  }

  lemma SaidHere(s: State, s': State, t: Id, text: string, r: nat)
    requires r < |s.rooms| <= |s'.rooms| && t in s.rooms[r].members && Said(s, s', t, Sendall(text))
    ensures TextsOf(s'.rooms[r].log, t) == TextsOf(s.rooms[r].log, t) + [text]
  {
  }

  lemma SignedAs(s: State, r: nat, i: nat)
    requires Signed(s) && r < |s.rooms| && i < |s.rooms[r].log|
    ensures s.rooms[r].log[i].sender in s.users
    ensures s.users[s.rooms[r].log[i].sender].username == s.rooms[r].log[i].username
  {
  }

  lemma NameOf(s: State, t: Id, began: string, tag: string, name: string)
    requires t in s.threads && BeganWith(s, t, began) && s.threads[t].kind != Refused
    requires Parse(began) == Received(Message(tag, name))
    ensures t in s.users && s.users[t].username == name
  {
  }

  // ---- the conversation ----

  /** The sender is logged in and in the room. */
  lemma SenderInRoom(run: Run, t: Id, bob: string, den: string) returns (longer: Run)
    requires IsRun(run) && Final(run).owner == map[] && t !in Final(run).threads && Word(bob) && Word(den)
    ensures Extends(run, longer) && Final(longer).owner == map[]
    ensures Speaks(Final(longer), t, "slogin" + ":" + bob, [Request.Join(den)])
    ensures OthersAsTheyWere(Final(run), Final(longer), t)
    ensures Final(longer).threads[t].replies == [Message("ok", "Sender logged in"), Message("ok", "Join successful")]
  {
    var began := "slogin" + ":" + bob;
    var in1 := SenderLogsIn(run, t, bob);
    FirstReply(in1, t, began);
    JoinLine(den);
    longer := SenderAsks(in1, t, began, [], "join" + ":" + den);
    assert [] + [Request.Join(den)] == [Request.Join(den)];
    Further(run, in1, longer);
  }

  /** And so is the receiver. */
  lemma ReceiverInRoom(run: Run, v: Id, eve: string, den: string) returns (longer: Run)
    requires IsRun(run) && Final(run).owner == map[] && v !in Final(run).threads && Word(eve) && Word(den)
    ensures Extends(run, longer) && Final(longer).owner == map[]
    ensures Hears(Final(longer), v, "rlogin" + ":" + eve, den)
    ensures OthersAsTheyWere(Final(run), Final(longer), v) && StillTheSame(Final(run), Final(longer))
  {
    var in1 := ReceiverLogsIn(run, v, eve);
    longer := ReceiverJoins(in1, v, "rlogin" + ":" + eve, den);
    Further(run, in1, longer);
  }

  lemma Further(run: Run, run1: Run, run2: Run)
    requires Extends(run, run1) && Extends(run1, run2)
    ensures Extends(run, run2)
  {
    assert forall i :: 0 <= i < |run.states| ==> run2.states[i] == run1.states[i] == run.states[i];
  }

  lemma FirstReply(run: Run, t: Id, began: string)
    requires IsRun(run) && Speaks(Final(run), t, began, [])
    ensures Final(run).threads[t].replies == [Message("ok", "Sender logged in")]
  {
    Reachable(run);
    ReadySettled(Final(run), t);
  }

  /** What the receiver is then due. */
  lemma DueThen(s: State, v: Id, log: seq<Entry>, e: Entry, line: string, room: string)
    requires Heard(s, v, line, room, log, e) && s.users[v].username != e.username
    ensures var th, r := s.threads[v], s.threads[v].room.value;
            Due(s.rooms[r].log, th.joinAt, s.users[v].username, s.rooms[r].key) == [Delivery(room, e.username, e.text)]
  {
    DueOfOne(log, e, s.users[v].username, room);
  }

  /** Thread `t` says `text`, and thread `v` is ready to be sent it. */
  lemma SaysIt(run: Run, t: Id, v: Id, began: string, began': string, bob: string, den: string, text: string)
    returns (longer: Run)
    requires IsRun(run) && Final(run).owner == map[] && t != v && Word(text)
    requires Speaks(Final(run), t, began, [Request.Join(den)]) && Hears(Final(run), v, began', den)
    requires Parse(began) == Received(Message("slogin", bob))
    ensures Extends(run, longer) && Final(longer).owner == map[]
    ensures Speaks(Final(longer), t, began, [Request.Join(den), Sendall(text)])
    ensures Final(longer).threads[t].replies == Final(run).threads[t].replies + [Message("ok", "Sendall successful")]
    ensures var r := Final(run).threads[v].room.value;
            Heard(Final(longer), v, began', den, Final(run).rooms[r].log, Entry(t, bob, text))
  {
    SendallLine(text);
    longer := SenderAsks(run, t, began, [Request.Join(den)], "sendall" + ":" + text);
    assert [Request.Join(den)] + [Sendall(text)] == [Request.Join(den), Sendall(text)];
    SpeakerIsIn(run, t, began, den, Final(run).threads[v].room.value);
    SaidOk(Final(run), Final(longer), t, text, Final(run).threads[v].room.value);
    SaidThen(run, longer, t, v, began, began', bob, den, text);
  }

  lemma SaidOk(s: State, s': State, t: Id, text: string, r: nat)
    requires t in s.threads && t in s'.threads && r < |s.rooms| && t in s.rooms[r].members
    requires Answered(s, s', t, Sendall(text))
    ensures s'.threads[t].replies == s.threads[t].replies + [Message("ok", "Sendall successful")]
  {
  }

  lemma SaidThen(run: Run, longer: Run, t: Id, v: Id, began: string, began': string,
                 bob: string, den: string, text: string)
    requires Extends(run, longer) && t != v && Hears(Final(run), v, began', den)
    requires t in Final(run).rooms[Final(run).threads[v].room.value].members
    requires t in Final(longer).threads && BeganWith(Final(longer), t, began)
    requires Parse(began) == Received(Message("slogin", bob))
    requires OthersAsTheyWere(Final(run), Final(longer), t) && LogsGrown(Final(run), Final(longer), t)
    requires StillTheSame(Final(run), Final(longer)) && Said(Final(run), Final(longer), t, Sendall(text))
    ensures var r := Final(run).threads[v].room.value;
            Heard(Final(longer), v, began', den, Final(run).rooms[r].log, Entry(t, bob, text))
  {
    Reachable(longer);
    NameOf(Final(longer), t, began, "slogin", bob);
    LogOfRoom(Final(run), Final(longer), t, bob, text, Final(run).threads[v].room.value);
    KeysStay(longer, |run.steps|, |longer.steps|);
    StillHears(Final(run), Final(longer), t, v, began', den, Entry(t, bob, text));
  }

  /** Waiting in the room, with this entry since it came in, at `log`. */
  ghost predicate Heard(s: State, v: Id, line: string, room: string, log: seq<Entry>, e: Entry) {
    && IsReceiver(s, v) && BeganWith(s, v, line) && s.threads[v].pc.Wait?
    && s.threads[v].replies == [Message("ok", "Receiver logged in"), Message("ok", "Join successful")]
    && Joined(s, v) && s.rooms[s.threads[v].room.value].key == room
    && s.rooms[s.threads[v].room.value].log == log + [e] && s.threads[v].joinAt == |log|
  }

  lemma StillHears(s: State, s': State, t: Id, v: Id, began: string, room: string, e: Entry)
    requires Hears(s, v, began, room) && OthersAsTheyWere(s, s', t) && StillTheSame(s, s') && v != t && SameKeys(s, s')
    requires s'.rooms[s.threads[v].room.value].log == s.rooms[s.threads[v].room.value].log + [e]
    ensures Heard(s', v, began, room, s.rooms[s.threads[v].room.value].log, e)
  {
    assert BeganWith(s', v, began);
  }

  /** What the two threads have behind them. */
  ghost predicate HaveTalked(s: State, t: Id, v: Id, bob: string, eve: string, den: string, text: string) {
    && t in s.threads && v in s.threads
    && BeganWith(s, t, "slogin" + ":" + bob) && BeganWith(s, v, "rlogin" + ":" + eve)
    && s.threads[t].requests == [Request.Join(den), Sendall(text)]
    && s.threads[t].replies ==
       [Message("ok", "Sender logged in"), Message("ok", "Join successful"), Message("ok", "Sendall successful")]
    && s.threads[v].replies == [Message("ok", "Receiver logged in"), Message("ok", "Join successful")]
    && s.threads[v].delivered ==
       [Message("delivery", RemoveNewline(den) + ":" + RemoveNewline(bob) + ":" + RemoveNewline(text))]
  }

  /** From any reachable state without a taken lock: "slogin", "join" and "sendall" by a new
      sender, "rlogin" and "join" by a new receiver of another name, all answered "ok"; and
      the receiver is sent what was said, and nothing else. */
  lemma Conversation(run: Run, t: Id, v: Id, bob: string, eve: string, den: string, text: string)
    requires IsRun(run) && Final(run).owner == map[] && t != v && t !in Final(run).threads && v !in Final(run).threads
    requires Word(bob) && Word(eve) && Word(den) && Word(text) && bob != eve
    ensures exists longer :: Extends(run, longer) && HaveTalked(Final(longer), t, v, bob, eve, den, text)
  {
    var longer := Converse(run, t, v, bob, eve, den, text);
  }

  lemma Converse(run: Run, t: Id, v: Id, bob: string, eve: string, den: string, text: string) returns (longer: Run)
    requires IsRun(run) && Final(run).owner == map[] && t != v && t !in Final(run).threads && v !in Final(run).threads
    requires Word(bob) && Word(eve) && Word(den) && Word(text) && bob != eve
    ensures Extends(run, longer) && HaveTalked(Final(longer), t, v, bob, eve, den, text)
  {
    var in1 := SenderInRoom(run, t, bob, den);
    var in2 := ReceiverInRoom(in1, v, eve, den);
    SenderLine(bob);
    ReceiverLine(eve);
    var in3 := SaysIt(in2, t, v, "slogin" + ":" + bob, "rlogin" + ":" + eve, bob, den, text);
    longer := IsSent(in3, v, Final(in2).rooms[Final(in2).threads[v].room.value].log, Entry(t, bob, text),
                     "rlogin" + ":" + eve, eve, den);
    Further(run, in1, in2);
    Further(run, in2, in3);
    Further(run, in3, longer);
  }

  /** The receiver is sent it. */
  lemma IsSent(run: Run, v: Id, log: seq<Entry>, e: Entry, began: string, eve: string, den: string)
    returns (longer: Run)
    requires IsRun(run) && Final(run).owner == map[] && e.username != eve
    requires Heard(Final(run), v, began, den, log, e) && Parse(began) == Received(Message("rlogin", eve))
    ensures Extends(run, longer) && Untouched(Final(run), Final(longer), v)
    ensures Final(longer).threads[v].delivered == [Delivery(den, e.username, e.text)]
    ensures Final(longer).threads[v].replies == Final(run).threads[v].replies
    ensures StillTheSame(Final(run), Final(longer))
  {
    NameOf(Final(run), v, began, "rlogin", eve);
    DueThen(Final(run), v, log, e, began, den);
    var actions, s' := SendQueued(run, v);
    longer := ManyLonger(run, v, actions);
    Reachable(run);
    SilentSteps(Final(run), v, actions);
    SilentNames(Final(run), v, actions, Final(longer));
  }

  lemma PlainWord(data: string)
    requires Plain(data)
    ensures Word(data + "\n") && RemoveNewline(data + "\n") == data
  {
    RemoveFinalNewline(data);
  }

  lemma OtherWord(a: string, b: string)
    requires a != b
    ensures a + "\n" != b + "\n"
  {
    assert (a + "\n")[..|a|] == a && (b + "\n")[..|b|] == b;
  }

  const FIRST := Run([INIT], [])

  /** The same from the start of the program, with names and a text as the clients' users type
      them: the receiver is sent room, sender and text. */
  lemma Hello(bob: string, eve: string, den: string, text: string)
    requires Plain(bob) && Plain(eve) && Plain(den) && Plain(text) && bob != eve
    ensures exists run :: IsRun(run) && 1 in Final(run).threads &&
                          HaveTalked(Final(run), 0, 1, bob + "\n", eve + "\n", den + "\n", text + "\n") &&
                          Final(run).threads[1].delivered == [Message("delivery", den + ":" + bob + ":" + text)]
  {
    PlainWord(bob);
    PlainWord(eve);
    PlainWord(den);
    PlainWord(text);
    OtherWord(bob, eve);
    assert IsRun(FIRST) && Final(FIRST) == INIT;
    var run := Converse(FIRST, 0, 1, bob + "\n", eve + "\n", den + "\n", text + "\n");
  }

  lemma EveHearsHi()
    ensures exists run :: IsRun(run) && 1 in Final(run).threads &&
                          Final(run).threads[1].delivered == [Message("delivery", "den" + ":" + "bob" + ":" + "hi")]
  {
    Hello("bob", "eve", "den", "hi");
  }
}
