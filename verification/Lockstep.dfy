/** The sending clients composed with the server over byte streams: sender.cpp's command
    loop against handleClientLogin and chat_with_sender, while any other threads run. */
module Lockstep {
  import opened Text
  import opened Protocol
  import opened Session
  import opened Connection
  import opened Framing
  import opened Machine
  import opened Invariant
  import opened History
  import opened Theorems

  // ---- the client ----

  predicate OccursAt(s: string, pattern: string, k: nat) {
    k + |pattern| <= |s| && s[k..][..|pattern|] == pattern
  }

  /** Whether `pattern` occurs in `s`, and where first (string::find). */
  function FindFirst(s: string, pattern: string, from: nat): (k: Option<nat>)
    requires from <= |s|
    ensures k.Some? ==> from <= k.value && OccursAt(s, pattern, k.value)
    ensures forall i :: from <= i && (k.Some? ==> i < k.value) ==> !OccursAt(s, pattern, i)
    decreases |s| - from
  {
    if OccursAt(s, pattern, from) then Some(from)
    else if from == |s| then None
    else FindFirst(s, pattern, from + 1)
  }

  /** What the client sends for a line typed by its user. The commands are looked for
      anywhere in the line, in this order. */
  function CommandMessage(command: string): Message {
    var join := FindFirst(command, "/join ", 0);
    if join.Some? then Message(TAG_JOIN, command[join.value + 6..])
    else if FindFirst(command, "/leave", 0).Some? then Message(TAG_LEAVE, "")
    else if FindFirst(command, "/quit", 0).Some? then Message(TAG_QUIT, "")
    else Message(TAG_SENDALL, command)
  }

  ghost predicate Mentions(command: string, pattern: string) {
    exists k: nat :: OccursAt(command, pattern, k)
  }

  /** A line is broadcast as typed exactly when no command occurs anywhere in it; of several
      commands join wins over leave and leave over quit, wherever they stand. */
  lemma CommandChoice(command: string)
    ensures var m := CommandMessage(command);
            && (m.tag == "join" <==> Mentions(command, "/join "))
            && (m.tag == "leave" <==> Mentions(command, "/leave") && !Mentions(command, "/join "))
            && (m.tag == "quit" <==>
                Mentions(command, "/quit") && !Mentions(command, "/leave") && !Mentions(command, "/join "))
            && m.tag in {"join", "leave", "quit", "sendall"}
            && (m.tag == "sendall" ==> m.data == command)
            && (m.tag == "join" ==> exists k: nat :: OccursAt(command, "/join ", k) && m.data == command[k + 6..] &&
                                      forall i: nat :: i < k ==> !OccursAt(command, "/join ", i))
  {
  }

  /** What a client writes, letter by letter: its login and, for each line typed, a command. */
  lemma RequestBytes(username: string, command: string)
    requires OneLine(Message("slogin", username)) && OneLine(CommandMessage(command))
    ensures Wire(Message(TAG_SLOGIN, username)) == "slogin:" + username + "\n"
    ensures var m := CommandMessage(command);
            Wire(m) == if m.tag == "leave" then "leave:bye\n"
                       else if m.tag == "quit" then "quit:bye\n"
                       else if m.tag == "join" then "join:" + m.data + "\n"
                       else "sendall:" + command + "\n"
  {
    CommandChoice(command);
    LineWire(CommandMessage(command));
    LineWire(Message("slogin", username));
    Prefixes(username, CommandMessage(command).data);
  }

  lemma Prefixes(username: string, data: string)
    ensures "slogin" + ":" + username == "slogin:" + username
    ensures "join" + ":" + data == "join:" + data && "sendall" + ":" + data == "sendall:" + data
    ensures "leave" + ":" + "bye" + "\n" == "leave:bye\n" && "quit" + ":" + "bye" + "\n" == "quit:bye\n"
  {
  }

  /** A request without newline or NUL whose encoding fits one line. */
  predicate Sendable(m: Message) {
    '\n' !in m.data && '\0' !in m.data && Fits(m)
  }

  datatype Phase = LoggingIn | Ready | Awaiting(quit: bool) | Finished | Failed

  /** `toServer` and `toClient` are the bytes under way; the messages sent and the lines
      heard in answer are history. */
  datatype Client = Client(phase: Phase, toServer: string, toClient: string, typed: seq<Message>, heard: seq<string>)

  datatype Net = Net(server: State, clients: map<Id, Client>)

  datatype Event =
    | Connect(client: Id, username: string)
    | Type(client: Id, command: string)
    | Hear(client: Id)
    | ServerMove(step: Step)

  function SendFrom(c: Client, m: Message, phase: Phase): Client {
    c.(phase := phase, toServer := c.toServer + Wire(m), typed := c.typed + [m])
  }

  function HearAt(c: Client): Client {
    var p := Parse(Line(c.toClient));
    var phase :=
      if !p.Received? then Failed
      else if c.phase.LoggingIn? then (if p.msg.tag == TAG_ERR then Failed else Ready)
      else if c.phase == Awaiting(true) then Finished
      else Ready;
    c.(phase := phase, toClient := AfterLine(c.toClient), heard := c.heard + [Line(c.toClient)])
  }

  predicate Happens(net: Net, e: Event) {
    match e
    case Connect(c, username) =>
      c !in net.clients && c !in net.server.threads && Sendable(Message(TAG_SLOGIN, username))
    case Type(c, command) =>
      c in net.clients && net.clients[c].phase.Ready? && Sendable(CommandMessage(command))
    case Hear(c) =>
      c in net.clients && net.clients[c].toClient != "" &&
      (net.clients[c].phase.LoggingIn? || net.clients[c].phase.Awaiting?)
    case ServerMove(Step(t, a, line)) =>
      HeardRight(Step(t, a, line)) && Enabled(net.server, t, a) &&
      (t in net.clients && (a.Login? || a.Receive?) ==>
        net.clients[t].toServer != "" && line == Line(net.clients[t].toServer))
  }

  /** What a server step of thread `t` does to the streams of its client. */
  function Streams(s: State, t: Id, a: Action, c: Client): Client
    requires Enabled(s, t, a)
  {
    if a.Login? || a.Receive? then c.(toServer := AfterLine(c.toServer))
    else if a.Respond? then c.(toClient := c.toClient + Wire(s.threads[t].pc.msg))
    else c
  }

  function After(net: Net, e: Event): Net
    requires Happens(net, e)
  {
    match e
    case Connect(c, username) =>
      var client := SendFrom(Client(LoggingIn, "", "", [], []), Message(TAG_SLOGIN, username), LoggingIn);
      net.(clients := net.clients[c := client])
    case Type(c, command) =>
      var m := CommandMessage(command);
      net.(clients := net.clients[c := SendFrom(net.clients[c], m, Awaiting(m.tag == TAG_QUIT))])
    case Hear(c) => net.(clients := net.clients[c := HearAt(net.clients[c])])
    case ServerMove(Step(t, a, _)) =>
      Net(Apply(net.server, t, a),
          if t in net.clients then net.clients[t := Streams(net.server, t, a, net.clients[t])] else net.clients)
  }

  /** Any sequence of events, with the situations it passes through. */
  datatype Play = Play(nets: seq<Net>, events: seq<Event>)

  predicate LeadsTo(net: Net, e: Event, net': Net) {
    Happens(net, e) && net' == After(net, e)
  }

  ghost predicate IsPlay(play: Play) {
    && |play.nets| == |play.events| + 1 && play.nets[0] == Net(INIT, map[])
    && forall i {:trigger play.events[i]} :: 0 <= i < |play.events| ==>
         LeadsTo(play.nets[i], play.events[i], play.nets[i + 1])
  }

  function End(play: Play): Net
    requires play.nets != []
  {
    play.nets[|play.nets| - 1]
  }

  // ---- what is under way between a client and its thread ----

  predicate Busy(pc: Pc) {
    !pc.Recv? && !pc.Stopped?
  }

  /** The bytes are one request with the given tag. */
  ghost predicate IsRequest(bytes: string, tag: string) {
    exists m: Message {:trigger Wire(m)} :: m.tag == tag && Sendable(m) && bytes == Wire(m)
  }

  /** The bytes are one of the server's replies. */
  ghost predicate IsReply(bytes: string) {
    exists m: Message {:trigger Wire(m)} :: ServerReply(m) && bytes == Wire(m)
  }

  predicate ServerReply(m: Message) {
    m in {SENDER_LOGGED_IN, QUIT_DONE, JOIN_DONE, LEAVE_DONE, LEAVE_REFUSED, SENDALL_DONE, SENDALL_REFUSED}
  }

  /** Where a client and its thread stand with respect to each other: the number of requests
      sent and not yet answered is 0 or 1, and it is exactly one of a request under way, a
      thread at work, and a reply under way. */
  ghost predicate InStep(s: State, c: Id, cl: Client) {
    match cl.phase
    case LoggingIn =>
      && |cl.typed| == 1 && |cl.heard| == 0
      && (if c !in s.threads then cl.toClient == "" && IsRequest(cl.toServer, TAG_SLOGIN)
          else
            var th := s.threads[c];
            && th.kind == Sender && th.requests == [] && cl.toServer == ""
            && (if th.pc.Recv? then cl.toClient == Wire(SENDER_LOGGED_IN)
                else cl.toClient == "" && Busy(th.pc)))
    case Ready =>
      c in s.threads && s.threads[c].kind == Sender && s.threads[c].pc.Recv? &&
      cl.toServer == "" && cl.toClient == "" && |cl.typed| == |cl.heard| == |s.threads[c].requests| + 1
    case Awaiting(quit) =>
      && c in s.threads && s.threads[c].kind == Sender && |cl.typed| == |cl.heard| + 1
      && (RequestUnderWay(s.threads[c], cl) || AtWork(s.threads[c], cl) || ReplyUnderWay(s.threads[c], cl))
    case Finished =>
      c in s.threads && s.threads[c].kind == Sender && s.threads[c].pc.Stopped? &&
      s.threads[c].requests != [] && Last(s.threads[c]).Quit? &&
      cl.toServer == "" && cl.toClient == "" && |cl.typed| == |cl.heard| == |s.threads[c].requests| + 1
    case Failed => false
  }

  ghost predicate RequestUnderWay(th: Thread, cl: Client)
    requires cl.phase.Awaiting?
  {
    && th.pc.Recv? && cl.toClient == "" && |cl.typed| == |th.requests| + 2
    && exists tag :: tag in {TAG_JOIN, TAG_LEAVE, TAG_QUIT, TAG_SENDALL} && (tag == TAG_QUIT <==> cl.phase.quit) &&
                     IsRequest(cl.toServer, tag)
  }

  predicate Answering(th: Thread, cl: Client)
    requires cl.phase.Awaiting?
  {
    && cl.toServer == "" && |cl.typed| == |th.requests| + 1
    && th.requests != [] && !Last(th).Garbled? && (Last(th).Quit? <==> cl.phase.quit)
  }

  predicate AtWork(th: Thread, cl: Client)
    requires cl.phase.Awaiting?
  {
    Answering(th, cl) && Busy(th.pc) && cl.toClient == ""
  }

  ghost predicate ReplyUnderWay(th: Thread, cl: Client)
    requires cl.phase.Awaiting?
  {
    Answering(th, cl) && IsReply(cl.toClient) && (if cl.phase.quit then th.pc.Stopped? else th.pc.Recv?)
  }

  ghost predicate AllInStep(net: Net) {
    Inv(net.server) && forall c :: c in net.clients ==> InStep(net.server, c, net.clients[c])
  }

  // ---- each kind of event ----

  lemma RequestTags()
    ensures forall tag :: tag in {TAG_SLOGIN, TAG_JOIN, TAG_LEAVE, TAG_QUIT, TAG_SENDALL} ==>
              Plain(tag) && tag != TAG_DELIVERY
  {
  }

  /** A request under way is the next line, and its tag survives the parse. */
  lemma RequestArrives(bytes: string, tag: string)
    requires IsRequest(bytes, tag) && tag in {TAG_SLOGIN, TAG_JOIN, TAG_LEAVE, TAG_QUIT, TAG_SENDALL}
    ensures bytes != "" && Line(bytes) == bytes && AfterLine(bytes) == ""
    ensures Parse(bytes).Received? && Parse(bytes).msg.tag == tag
  {
    var m: Message :| m.tag == tag && Sendable(m) && bytes == Wire(m);
    RequestTags();
    TagArrives(m, "");
    assert Wire(m) + "" == Wire(m);
  }

  lemma ReplyArrives(bytes: string)
    requires IsReply(bytes)
    ensures bytes != "" && Line(bytes) == bytes && AfterLine(bytes) == "" && Parse(bytes).Received?
    ensures bytes == Wire(SENDER_LOGGED_IN) ==> Parse(bytes).msg.tag == TAG_OK
  {
    var m: Message :| ServerReply(m) && bytes == Wire(m);
    ReplyClean(m);
    TagArrives(m, "");
    assert Wire(m) + "" == Wire(m);
    ReplyClean(SENDER_LOGGED_IN);
    TagArrives(SENDER_LOGGED_IN, "");
  }

  /** A text without newline or NUL that leaves room for a tag. */
  ghost predicate ShortLine(text: string) {
    |text| <= 50 && forall i :: 0 <= i < |text| ==> text[i] != '\n' && text[i] != '\0'
  }

  lemma OkTexts()
    ensures ShortLine(SENDER_LOGGED_IN.data) && ShortLine(QUIT_DONE.data) && ShortLine(JOIN_DONE.data)
  {
  }

  lemma DoneTexts()
    ensures ShortLine(LEAVE_DONE.data) && ShortLine(SENDALL_DONE.data)
  {
  }

  lemma LeaveRefusedText()
    ensures ShortLine(LEAVE_REFUSED.data)
  {
  }

  lemma SendallRefusedText()
    ensures ShortLine(SENDALL_REFUSED.data)
  {
  }

  lemma ReplyTags()
    ensures forall tag :: tag in {TAG_OK, TAG_ERR} ==>
              Plain(tag) && |tag| <= 3 && tag != TAG_DELIVERY && tag != TAG_QUIT && tag != TAG_LEAVE
  {
  }

  lemma ReplyClean(m: Message)
    requires ServerReply(m)
    ensures OneLine(m) && Fits(m) && ':' !in m.tag && m.tag != TAG_DELIVERY
  {
    assert m.tag in {TAG_OK, TAG_ERR} && ShortLine(m.data) by {
      OkTexts();
      DoneTexts();
      LeaveRefusedText();
      SendallRefusedText();
    }
    ReplyTags();
  }

  /** A working sender thread goes on working until it replies. */
  lemma BusyMoves(s: State, c: Id, a: Action)
    requires Enabled(s, c, a) && c in s.threads && s.threads[c].kind == Sender && Busy(s.threads[c].pc)
    requires ThreadShape(s, c) && HistoryOf(s, c)
    ensures !a.Login? && !a.Receive?
    ensures var th, th' := s.threads[c], EffectOf(s, c, a).thread;
            && th'.kind == Sender && th'.requests == th.requests
            && (if a.Respond? then
                  && ServerReplyOrError(th) && th.pc.Reply?
                  && (if th.requests != [] && Ends(Last(th)) then th'.pc.Stopped? else th'.pc.Recv?)
                else Busy(th'.pc))
  {
  }

  predicate ServerReplyOrError(th: Thread) {
    th.pc.Reply? &&
    if th.requests == [] then th.pc.msg == SENDER_LOGGED_IN
    else Last(th).Garbled? || ServerReply(th.pc.msg)
  }

  lemma ReceiveMoves(s: State, c: Id, a: Action, tag: string)
    requires Enabled(s, c, a) && a.Receive? && c in s.threads && s.threads[c].kind == Sender
    requires a.got.Received? && a.got.msg.tag == tag && tag in {TAG_JOIN, TAG_LEAVE, TAG_QUIT, TAG_SENDALL}
    ensures var th, th' := s.threads[c], EffectOf(s, c, a).thread;
            && th'.kind == Sender && Busy(th'.pc) && |th'.requests| == |th.requests| + 1
            && !Last(th').Garbled? && (Last(th').Quit? <==> tag == TAG_QUIT)
  {
  }

  lemma LoginMoves(s: State, c: Id, a: Action)
    requires Enabled(s, c, a) && a.Login? && a.got.Received? && a.got.msg.tag == TAG_SLOGIN
    ensures var th' := EffectOf(s, c, a).thread;
            th'.kind == Sender && th'.requests == [] && Busy(th'.pc)
  {
  }

  lemma ApplyThread(s: State, c: Id, a: Action)
    requires Enabled(s, c, a)
    ensures c in Apply(s, c, a).threads && Apply(s, c, a).threads[c] == EffectOf(s, c, a).thread
  {
  }

  /** What is known when the thread of a client moves. */
  ghost predicate Moves(s: State, c: Id, a: Action, line: string, cl: Client) {
    && Enabled(s, c, a) && HeardRight(Step(c, a, line)) && InStep(s, c, cl)
    && (a.Login? || a.Receive? ==> cl.toServer != "" && line == Line(cl.toServer))
    && (c in s.threads ==> ThreadShape(s, c) && HistoryOf(s, c))
  }

  lemma LoginPhase(s: State, c: Id, a: Action, line: string, cl: Client)
    requires Moves(s, c, a, line, cl) && cl.phase.LoggingIn?
    ensures InStep(Apply(s, c, a), c, Streams(s, c, a, cl))
  {
    ApplyThread(s, c, a);
    if c !in s.threads {
      RequestArrives(cl.toServer, TAG_SLOGIN);
      LoginMoves(s, c, a);
    } else if Busy(s.threads[c].pc) {
      BusyMoves(s, c, a);
      if a.Respond? {
        assert "" + Wire(SENDER_LOGGED_IN) == Wire(SENDER_LOGGED_IN);
      }
    }
  }

  lemma RequestPhase(s: State, c: Id, a: Action, line: string, cl: Client)
    requires Moves(s, c, a, line, cl) && cl.phase.Awaiting? && RequestUnderWay(s.threads[c], cl)
    ensures AtWork(EffectOf(s, c, a).thread, Streams(s, c, a, cl))
  {
    var tag :| tag in {TAG_JOIN, TAG_LEAVE, TAG_QUIT, TAG_SENDALL} && (tag == TAG_QUIT <==> cl.phase.quit) &&
               IsRequest(cl.toServer, tag);
    RequestArrives(cl.toServer, tag);
    ReceiveMoves(s, c, a, tag);
  }

  lemma WorkPhase(s: State, c: Id, a: Action, line: string, cl: Client)
    requires Moves(s, c, a, line, cl) && cl.phase.Awaiting? && AtWork(s.threads[c], cl)
    ensures var th', cl' := EffectOf(s, c, a).thread, Streams(s, c, a, cl);
            AtWork(th', cl') || ReplyUnderWay(th', cl')
  {
    BusyMoves(s, c, a);
    if a.Respond? {
      ReplyWritten(s.threads[c], EffectOf(s, c, a).thread, cl, s.threads[c].pc.msg);
    } else {
      StillAtWork(s.threads[c], EffectOf(s, c, a).thread, cl);
    }
  }

  lemma ReplyWritten(th: Thread, th': Thread, cl: Client, msg: Message)
    requires cl.phase.Awaiting? && AtWork(th, cl) && th'.requests == th.requests && ServerReply(msg)
    requires if Ends(Last(th)) then th'.pc.Stopped? else th'.pc.Recv?
    ensures ReplyUnderWay(th', cl.(toClient := cl.toClient + Wire(msg)))
  {
    assert "" + Wire(msg) == Wire(msg);
  }

  lemma StillAtWork(th: Thread, th': Thread, cl: Client)
    requires cl.phase.Awaiting? && AtWork(th, cl) && th'.requests == th.requests && Busy(th'.pc)
    ensures AtWork(th', cl)
  {
  }

  lemma AwaitPhase(s: State, c: Id, a: Action, line: string, cl: Client)
    requires Moves(s, c, a, line, cl) && cl.phase.Awaiting?
    ensures InStep(Apply(s, c, a), c, Streams(s, c, a, cl))
  {
    RestReceives(s, c, a);
    NotRepliedYet(s, c, cl);
    if RequestUnderWay(s.threads[c], cl) {
      RequestPhase(s, c, a, line, cl);
    } else {
      WorkPhase(s, c, a, line, cl);
    }
    StillAwaiting(s, c, a, cl);
  }

  /** A thread whose reply is under way has no step. */
  lemma RestReceives(s: State, c: Id, a: Action)
    requires Enabled(s, c, a) && c in s.threads
    ensures !Busy(s.threads[c].pc) ==> a.Receive?
  {
  }

  lemma NotRepliedYet(s: State, c: Id, cl: Client)
    requires InStep(s, c, cl) && cl.phase.Awaiting? && (Busy(s.threads[c].pc) || cl.toServer != "")
    ensures s.threads[c].kind == Sender && |cl.typed| == |cl.heard| + 1
    ensures RequestUnderWay(s.threads[c], cl) || AtWork(s.threads[c], cl)
  {
  }

  lemma StillAwaiting(s: State, c: Id, a: Action, cl: Client)
    requires Enabled(s, c, a) && c in s.threads && s.threads[c].kind == Sender
    requires cl.phase.Awaiting? && |cl.typed| == |cl.heard| + 1
    requires var th', cl' := EffectOf(s, c, a).thread, Streams(s, c, a, cl);
             AtWork(th', cl') || ReplyUnderWay(th', cl')
    ensures InStep(Apply(s, c, a), c, Streams(s, c, a, cl))
  {
    ApplyThread(s, c, a);
    KindStays(s, c, a);
  }

  lemma KindStays(s: State, c: Id, a: Action)
    requires Enabled(s, c, a) && c in s.threads
    ensures EffectOf(s, c, a).thread.kind == s.threads[c].kind
  {
  }

  lemma OtherThread(s: State, t: Id, a: Action, c: Id, cl: Client)
    requires Shape(s) && Enabled(s, t, a) && c != t && InStep(s, c, cl)
    ensures InStep(Apply(s, t, a), c, cl)
  {
    StepFramed(s, t, a);
  }

  /** The thread of a client moves. */
  lemma OwnThread(s: State, c: Id, a: Action, line: string, cl: Client)
    requires Moves(s, c, a, line, cl)
    ensures InStep(Apply(s, c, a), c, Streams(s, c, a, cl))
  {
    if cl.phase.LoggingIn? {
      LoginPhase(s, c, a, line, cl);
    } else if cl.phase.Awaiting? {
      AwaitPhase(s, c, a, line, cl);
    }
  }

  lemma ServerMoveInStep(net: Net, e: Event)
    requires AllInStep(net) && Happens(net, e) && e.ServerMove?
    ensures AllInStep(After(net, e))
  {
    HeardGotOk(e.step);
    StepInv(net.server, e.step.thread, e.step.action);
    forall c | c in net.clients
      ensures InStep(After(net, e).server, c, After(net, e).clients[c])
    {
      assert InStep(net.server, c, net.clients[c]);
      ServerMoveOf(net, e, c);
    }
  }

  lemma ServerMoveOf(net: Net, e: Event, c: Id)
    requires Shape(net.server) && Historical(net.server) && Happens(net, e) && e.ServerMove?
    requires c in net.clients && InStep(net.server, c, net.clients[c])
    ensures c in After(net, e).clients && InStep(After(net, e).server, c, After(net, e).clients[c])
  {
    var s, t, a := net.server, e.step.thread, e.step.action;
    if c != t {
      OtherThread(s, t, a, c, net.clients[c]);
    } else {
      assert c in s.threads ==> ThreadShape(s, c) && HistoryOf(s, c);
      OwnThread(s, t, a, e.step.line, net.clients[c]);
    }
  }

  lemma ConnectInStep(net: Net, e: Event)
    requires Happens(net, e) && e.Connect?
    ensures InStep(net.server, e.client, After(net, e).clients[e.client])
  {
    var m := Message(TAG_SLOGIN, e.username);
    assert "" + Wire(m) == Wire(m);
    assert IsRequest(Wire(m), TAG_SLOGIN);
  }

  lemma TypeInStep(net: Net, e: Event)
    requires Happens(net, e) && e.Type? && InStep(net.server, e.client, net.clients[e.client])
    ensures InStep(net.server, e.client, After(net, e).clients[e.client])
  {
    var m := CommandMessage(e.command);
    assert "" + Wire(m) == Wire(m);
    assert IsRequest(Wire(m), m.tag);
    assert RequestUnderWay(net.server.threads[e.client], After(net, e).clients[e.client]);
  }

  lemma ClientInStep(net: Net, e: Event)
    requires AllInStep(net) && Happens(net, e) && !e.ServerMove?
    ensures AllInStep(After(net, e))
  {
    if e.Connect? {
      ConnectInStep(net, e);
    } else if e.Type? {
      TypeInStep(net, e);
    } else {
      HearInStep(net.server, e.client, net.clients[e.client]);
    }
  }

  lemma HearInStep(s: State, c: Id, cl: Client)
    requires InStep(s, c, cl) && cl.toClient != "" && (cl.phase.LoggingIn? || cl.phase.Awaiting?)
    ensures InStep(s, c, HearAt(cl))
  {
    if cl.phase.LoggingIn? {
      assert IsReply(Wire(SENDER_LOGGED_IN));
    }
    ReplyArrives(cl.toClient);
  }

  lemma {:induction false} PlayInStep(play: Play, n: nat)
    requires IsPlay(play) && n <= |play.events|
    ensures AllInStep(play.nets[n])
  {
    if n == 0 {
      StartInStep(play.nets[0]);
    } else {
      PlayInStep(play, n - 1);
      NextInStep(play, n - 1);
    }
  }

  lemma NextInStep(play: Play, i: nat)
    requires IsPlay(play) && i < |play.events| && AllInStep(play.nets[i])
    ensures AllInStep(play.nets[i + 1])
  {
    EventInStep(play.nets[i], play.events[i], play.nets[i + 1]);
  }

  lemma StartInStep(net: Net)
    requires net == Net(INIT, map[])
    ensures AllInStep(net)
  {
    InitInv();
  }

  lemma EventInStep(net: Net, e: Event, net': Net)
    requires AllInStep(net) && LeadsTo(net, e, net')
    ensures AllInStep(net')
  {
    if e.ServerMove? {
      ServerMoveInStep(net, e);
    } else {
      ClientInStep(net, e);
    }
  }

  /** Lockstep, for every client at every moment of every run: at most one request is
      unanswered, each answer came from one reply of the server, no client fails, and client
      and thread stop together after quit. */
  lemma LockstepHolds(play: Play, c: Id)
    requires IsPlay(play) && c in End(play).clients
    ensures var cl, s := End(play).clients[c], End(play).server;
            && !cl.phase.Failed?
            && |cl.heard| <= |cl.typed| <= |cl.heard| + 1
            && (|cl.typed| == |cl.heard| <==> cl.phase.Ready? || cl.phase.Finished?)
            && (cl.phase.Ready? || cl.phase.Finished? ==> c in s.threads && |s.threads[c].replies| == |cl.heard|)
            && (cl.phase.Finished? ==> s.threads[c].pc.Stopped?)
            && (c in s.threads && s.threads[c].pc.Stopped? ==>
                  (cl.phase.Finished? || (cl.phase == Awaiting(true) && cl.toClient != "")) &&
                  s.threads[c].requests != [] && Last(s.threads[c]).Quit?)
  {
    PlayInStep(play, |play.events|);
    var net := End(play);
    assert InStep(net.server, c, net.clients[c]);
    if c in net.server.threads {
      assert HistoryOf(net.server, c);
    }
    LockstepOf(net.server, c, net.clients[c]);
  }

  lemma LockstepOf(s: State, c: Id, cl: Client)
    requires InStep(s, c, cl) && (c in s.threads ==> HistoryOf(s, c))
    ensures !cl.phase.Failed?
    ensures |cl.heard| <= |cl.typed| <= |cl.heard| + 1
    ensures |cl.typed| == |cl.heard| <==> cl.phase.Ready? || cl.phase.Finished?
    ensures cl.phase.Ready? || cl.phase.Finished? ==> c in s.threads && |s.threads[c].replies| == |cl.heard|
    ensures cl.phase.Finished? ==> s.threads[c].pc.Stopped?
    ensures c in s.threads && s.threads[c].pc.Stopped? ==>
              (cl.phase.Finished? || (cl.phase == Awaiting(true) && cl.toClient != "")) &&
              s.threads[c].requests != [] && Last(s.threads[c]).Quit?
  {
    if cl.phase.Awaiting? && ReplyUnderWay(s.threads[c], cl) {
      ReplyArrives(cl.toClient);
    }
  }
}
