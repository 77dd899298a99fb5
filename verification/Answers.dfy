/** What a sending client hears. Whatever the other clients and the scheduler do, the lines
    that a client hears are a function of the lines that its user typed. */
module Answers {
  import opened Text
  import opened Protocol
  import opened Session
  import opened Connection
  import opened Framing
  import opened Machine
  import opened Invariant
  import opened Deadlock
  import opened DeliveryStep
  import opened History
  import opened Theorems
  import opened Receiver
  import opened Lockstep

  /** The request that the server takes a message for. */
  function RequestOf(m: Message): Request {
    var p := Parse(Line(Wire(m)));
    if p.Undefined? then Garbled else ToRequest(p)
  }

  /** The requests behind the login. */
  function Asks(typed: seq<Message>): seq<Request> {
    if |typed| <= 1 then []
    else Asks(typed[..|typed| - 1]) + [RequestOf(typed[|typed| - 1])]
  }

  function Wires(replies: seq<Message>): seq<string> {
    if replies == [] then []
    else Wires(replies[..|replies| - 1]) + [Wire(replies[|replies| - 1])]
  }

  /** The thread has received what was typed and the client has heard what was replied, but
      for at most one line under way. */
  ghost predicate Heeded(typed: seq<Message>, toServer: string, requests: seq<Request>) {
    && typed != []
    && (if toServer == "" then requests == Asks(typed)
        else |typed| > 1 && toServer == Wire(typed[|typed| - 1]) && requests == Asks(typed[..|typed| - 1]))
  }

  ghost predicate Heard(heard: seq<string>, toClient: string, replies: seq<Message>) {
    if toClient == "" then heard == Wires(replies)
    else
      replies != [] && heard == Wires(replies[..|replies| - 1]) && toClient == Wire(replies[|replies| - 1])
  }

  ghost predicate Faithful(s: State, c: Id, cl: Client) {
    if c in s.threads then
      Heeded(cl.typed, cl.toServer, s.threads[c].requests) && Heard(cl.heard, cl.toClient, s.threads[c].replies)
    else
      |cl.typed| == 1 && cl.toServer == Wire(cl.typed[0]) && cl.heard == [] && cl.toClient == ""
  }

  // ---- the thread moves ----

  /** What a step writes into the history of its own thread. */
  lemma HistoryWritten(s: State, t: Id, a: Action)
    requires Enabled(s, t, a)
    ensures var th' := EffectOf(s, t, a).thread;
            if a.Login? then th'.requests == [] && th'.replies == []
            else
              && th'.requests == s.threads[t].requests + (if a.Receive? then [ToRequest(a.got)] else [])
              && th'.replies == s.threads[t].replies + (if a.Respond? then [s.threads[t].pc.msg] else [])
  {
  }

  lemma LoginFaithful(s: State, c: Id, a: Action, line: string, cl: Client)
    requires Moves(s, c, a, line, cl) && Faithful(s, c, cl) && a.Login?
    ensures Faithful(Apply(s, c, a), c, Streams(s, c, a, cl))
  {
    RequestArrives(cl.toServer, TAG_SLOGIN);
    ApplyThread(s, c, a);
    HistoryWritten(s, c, a);
  }

  lemma ReceiveFaithful(s: State, c: Id, a: Action, line: string, cl: Client)
    requires Moves(s, c, a, line, cl) && Faithful(s, c, cl) && a.Receive?
    ensures Faithful(Apply(s, c, a), c, Streams(s, c, a, cl))
  {
    assert cl.phase.Awaiting? && RequestUnderWay(s.threads[c], cl);
    var tag :| tag in {TAG_JOIN, TAG_LEAVE, TAG_QUIT, TAG_SENDALL} && IsRequest(cl.toServer, tag);
    RequestArrives(cl.toServer, tag);
    ApplyThread(s, c, a);
    HistoryWritten(s, c, a);
  }

  /** A reply goes onto an empty stream. */
  lemma RespondClear(s: State, c: Id, a: Action, line: string, cl: Client)
    requires Moves(s, c, a, line, cl) && a.Respond?
    requires InStep(Apply(s, c, a), c, Streams(s, c, a, cl))
    ensures cl.toClient == "" && Streams(s, c, a, cl).toClient == Wire(s.threads[c].pc.msg) != ""
  {
    var msg := s.threads[c].pc.msg;
    ApplyThread(s, c, a);
    assert cl.toClient == "" && "" + Wire(msg) == Wire(msg);
    ReplyOnWire(Apply(s, c, a), c, Streams(s, c, a, cl));
  }

  lemma RespondFaithful(s: State, c: Id, a: Action, cl: Client)
    requires Enabled(s, c, a) && a.Respond? && Faithful(s, c, cl)
    requires cl.toClient == "" && Streams(s, c, a, cl).toClient == Wire(s.threads[c].pc.msg) != ""
    ensures Faithful(Apply(s, c, a), c, Streams(s, c, a, cl))
  {
    ApplyThread(s, c, a);
    HistoryWritten(s, c, a);
    FrontOfAppend(s.threads[c].replies, s.threads[c].pc.msg);
  }

  /** A thread that is back at its receive, or done, has replied. */
  lemma ReplyOnWire(s: State, c: Id, cl: Client)
    requires InStep(s, c, cl) && c in s.threads && (s.threads[c].pc.Recv? || s.threads[c].pc.Stopped?)
    requires cl.phase.LoggingIn? || (cl.phase.Awaiting? && cl.toServer == "")
    ensures cl.toClient != ""
  {
    if cl.phase.LoggingIn? {
      assert IsReply(Wire(SENDER_LOGGED_IN));
      ReplyArrives(cl.toClient);
    } else {
      if RequestUnderWay(s.threads[c], cl) {
        var tag :| tag in {TAG_JOIN, TAG_LEAVE, TAG_QUIT, TAG_SENDALL} && IsRequest(cl.toServer, tag);
        RequestArrives(cl.toServer, tag);
      }
      ReplyArrives(cl.toClient);
    }
  }

  lemma SilentFaithful(s: State, c: Id, a: Action, cl: Client)
    requires Enabled(s, c, a) && Faithful(s, c, cl) && !a.Login? && !a.Receive? && !a.Respond?
    ensures Faithful(Apply(s, c, a), c, cl)
  {
    ApplyThread(s, c, a);
    NothingWritten(s, c, a);
  }

  lemma NothingWritten(s: State, t: Id, a: Action)
    requires Enabled(s, t, a) && !a.Login? && !a.Receive? && !a.Respond?
    ensures EffectOf(s, t, a).thread.requests == s.threads[t].requests
    ensures EffectOf(s, t, a).thread.replies == s.threads[t].replies
  {
  }

  lemma OtherFaithful(s: State, t: Id, a: Action, c: Id, cl: Client)
    requires Shape(s) && Enabled(s, t, a) && c != t && Faithful(s, c, cl)
    ensures Faithful(Apply(s, t, a), c, cl)
  {
    StepFramed(s, t, a);
  }

  lemma MoveFaithful(s: State, c: Id, a: Action, line: string, cl: Client)
    requires Moves(s, c, a, line, cl) && Faithful(s, c, cl)
    ensures Faithful(Apply(s, c, a), c, Streams(s, c, a, cl))
  {
    if a.Login? {
      LoginFaithful(s, c, a, line, cl);
    } else if a.Receive? {
      ReceiveFaithful(s, c, a, line, cl);
    } else if a.Respond? {
      OwnThread(s, c, a, line, cl);
      RespondClear(s, c, a, line, cl);
      RespondFaithful(s, c, a, cl);
    } else {
      SilentFaithful(s, c, a, cl);
    }
  }

  // ---- the client moves ----

  lemma TypeFaithful(s: State, c: Id, cl: Client, m: Message)
    requires InStep(s, c, cl) && cl.phase.Ready? && Faithful(s, c, cl) && Sendable(m)
    requires m.tag in {TAG_JOIN, TAG_LEAVE, TAG_QUIT, TAG_SENDALL}
    ensures Faithful(s, c, SendFrom(cl, m, Awaiting(m.tag == TAG_QUIT)))
  {
    assert "" + Wire(m) == Wire(m);
    assert IsRequest(Wire(m), m.tag);
    RequestArrives(Wire(m), m.tag);
    FrontOfAppend(cl.typed, m);
  }

  lemma HearFaithful(s: State, c: Id, cl: Client)
    requires InStep(s, c, cl) && Faithful(s, c, cl) && cl.toClient != ""
    requires cl.phase.LoggingIn? || cl.phase.Awaiting?
    ensures Faithful(s, c, HearAt(cl))
  {
    if cl.phase.LoggingIn? {
      assert IsReply(Wire(SENDER_LOGGED_IN));
    }
    ReplyArrives(cl.toClient);
  }

  // ---- every run ----

  ghost predicate AllFaithful(net: Net) {
    forall c :: c in net.clients ==> Faithful(net.server, c, net.clients[c])
  }

  lemma ServerMoveFaithful(net: Net, e: Event, c: Id)
    requires Shape(net.server) && Historical(net.server) && Happens(net, e) && e.ServerMove?
    requires c in net.clients && InStep(net.server, c, net.clients[c]) && Faithful(net.server, c, net.clients[c])
    ensures c in After(net, e).clients && Faithful(After(net, e).server, c, After(net, e).clients[c])
  {
    var s, t, a := net.server, e.step.thread, e.step.action;
    if c != t {
      OtherFaithful(s, t, a, c, net.clients[c]);
    } else {
      assert c in s.threads ==> ThreadShape(s, c) && HistoryOf(s, c);
      MoveFaithful(s, c, a, e.step.line, net.clients[c]);
    }
  }

  lemma ConnectFaithful(s: State, c: Id, username: string)
    requires c !in s.threads
    ensures Faithful(s, c, SendFrom(Client(LoggingIn, "", "", [], []), Message(TAG_SLOGIN, username), LoggingIn))
  {
    var m := Message(TAG_SLOGIN, username);
    assert "" + Wire(m) == Wire(m);
  }

  lemma ClientFaithful(net: Net, e: Event)
    requires Happens(net, e) && !e.ServerMove?
    requires e.Connect? ||
             (InStep(net.server, e.client, net.clients[e.client]) &&
              Faithful(net.server, e.client, net.clients[e.client]))
    ensures var net' := After(net, e);
            e.client in net'.clients && Faithful(net.server, e.client, net'.clients[e.client])
  {
    if e.Connect? {
      ConnectFaithful(net.server, e.client, e.username);
    } else if e.Type? {
      CommandTag(e.command);
      TypeFaithful(net.server, e.client, net.clients[e.client], CommandMessage(e.command));
    } else {
      HearFaithful(net.server, e.client, net.clients[e.client]);
    }
  }

  lemma CommandTag(command: string)
    ensures CommandMessage(command).tag in {TAG_JOIN, TAG_LEAVE, TAG_QUIT, TAG_SENDALL}
  {
  }

  /** An event concerns the client it names, or all clients if it is a step of the server. */
  lemma OneClient(net: Net, e: Event, c: Id)
    requires Happens(net, e) && c in After(net, e).clients
    ensures e.ServerMove? ==> c in net.clients
    ensures !e.ServerMove? ==> After(net, e).server == net.server
    ensures !e.ServerMove? && c != e.client ==> c in net.clients && After(net, e).clients[c] == net.clients[c]
  {
  }

  lemma EventFaithful(net: Net, e: Event, net': Net)
    requires AllInStep(net) && AllFaithful(net) && LeadsTo(net, e, net')
    ensures AllFaithful(net')
  {
    forall c | c in net'.clients
      ensures Faithful(net'.server, c, net'.clients[c])
    {
      OneClient(net, e, c);
      if e.ServerMove? {
        assert InStep(net.server, c, net.clients[c]);
        ServerMoveFaithful(net, e, c);
      } else if c == e.client {
        assert !e.Connect? ==> InStep(net.server, c, net.clients[c]);
        ClientFaithful(net, e);
      }
    }
  }

  lemma {:induction false} PlayFaithful(play: Play, n: nat)
    requires IsPlay(play) && n <= |play.events|
    ensures AllFaithful(play.nets[n])
  {
    if n > 0 {
      PlayInStep(play, n - 1);
      PlayFaithful(play, n - 1);
      EventFaithful(play.nets[n - 1], play.events[n - 1], play.nets[n]);
    }
  }

  /** Between two commands a client has heard the login answer and, for each command in
      turn, the answer that the automaton gives; nothing else. */
  lemma AnswersExact(play: Play, c: Id)
    requires IsPlay(play) && c in End(play).clients
    requires var phase := End(play).clients[c].phase; phase.Ready? || phase.Finished?
    ensures var cl := End(play).clients[c];
            cl.heard == Wires([SENDER_LOGGED_IN] + Replies(Asks(cl.typed)))
  {
    PlayInStep(play, |play.events|);
    PlayFaithful(play, |play.events|);
    var net := End(play);
    assert InStep(net.server, c, net.clients[c]) && Faithful(net.server, c, net.clients[c]);
    assert HistoryOf(net.server, c);
  }

  /** A leave as the last message, and no join before it. */
  ghost predicate LeavesTooEarly(typed: seq<Message>) {
    && |typed| > 1 && RequestOf(typed[|typed| - 1]).Leave?
    && var before := Asks(typed[..|typed| - 1]);
       forall i :: 0 <= i < |before| ==> !before[i].Join?
  }

  /** While a client waits, it can read an answer, or its thread is at work and can step
      unless a lock is taken, or there is a line under way; and on that line the thread has a
      step exactly when it is not a leave before any join. */
  lemma NeverBothWait(play: Play, c: Id)
    requires IsPlay(play) && c in End(play).clients
    requires var phase := End(play).clients[c].phase; phase.LoggingIn? || phase.Awaiting?
    ensures var cl, s := End(play).clients[c], End(play).server;
            || Happens(End(play), Hear(c))
            || (c in s.threads && Busy(s.threads[c].pc) && (CanStep(s, c) <==> !Blocked(s, c)))
            || (cl.toServer != "" && (c in s.threads ==> s.threads[c].pc.Recv?) &&
                (TakesLine(s, c, Line(cl.toServer)) <==> !LeavesTooEarly(cl.typed)))
  {
    PlayInStep(play, |play.events|);
    PlayFaithful(play, |play.events|);
    var net := End(play);
    var cl, s := net.clients[c], net.server;
    assert InStep(s, c, cl) && Faithful(s, c, cl);
    if cl.toClient != "" {
      CanHear(net, c);
    } else {
      if c !in s.threads {
        LoginTaken(s, c, cl);
      } else if Busy(s.threads[c].pc) {
        Progress(s, c);
      } else {
        LineTaken(s, c, cl);
      }
    }
  }

  lemma CanHear(net: Net, c: Id)
    requires c in net.clients && net.clients[c].toClient != ""
    requires net.clients[c].phase.LoggingIn? || net.clients[c].phase.Awaiting?
    ensures Happens(net, Hear(c))
  {
  }

  /** The server's thread for `c`, new or waiting, can take this line. */
  predicate TakesLine(s: State, c: Id, line: string) {
    Enabled(s, c, if c in s.threads then Receive(Parse(line)) else Login(Parse(line)))
  }

  lemma LoginTaken(s: State, c: Id, cl: Client)
    requires InStep(s, c, cl) && Faithful(s, c, cl) && c !in s.threads && cl.phase.LoggingIn?
    ensures cl.toServer != "" && TakesLine(s, c, Line(cl.toServer)) && !LeavesTooEarly(cl.typed)
  {
    RequestArrives(cl.toServer, TAG_SLOGIN);
  }

  lemma LineTaken(s: State, c: Id, cl: Client)
    requires Grounded(s) && InStep(s, c, cl) && Faithful(s, c, cl) && cl.toClient == ""
    requires c in s.threads && !Busy(s.threads[c].pc) && (cl.phase.LoggingIn? || cl.phase.Awaiting?)
    ensures cl.toServer != "" && s.threads[c].pc.Recv?
    ensures TakesLine(s, c, Line(cl.toServer)) <==> !LeavesTooEarly(cl.typed)
  {
    RequestWaits(s, c, cl);
    TakesIffJoined(s, c, Parse(Line(cl.toServer)));
  }

  lemma RequestWaits(s: State, c: Id, cl: Client)
    requires InStep(s, c, cl) && Faithful(s, c, cl) && cl.toClient == ""
    requires c in s.threads && !Busy(s.threads[c].pc) && (cl.phase.LoggingIn? || cl.phase.Awaiting?)
    ensures cl.toServer != "" && s.threads[c].kind == Sender && s.threads[c].pc.Recv?
    ensures var typed := cl.typed;
            && |typed| > 1 && cl.toServer == Wire(typed[|typed| - 1]) && !Parse(Line(cl.toServer)).Undefined?
            && s.threads[c].requests == Asks(typed[..|typed| - 1])
  {
    if cl.toServer == "" {
      ReplyOnWire(s, c, cl);
    } else {
      assert RequestUnderWay(s.threads[c], cl);
      var tag :| tag in {TAG_JOIN, TAG_LEAVE, TAG_QUIT, TAG_SENDALL} && IsRequest(cl.toServer, tag);
      RequestArrives(cl.toServer, tag);
    }
  }

  /** What a message asks for: the data, with its newline, is cut at its first colon. */
  lemma RequestExactly(m: Message)
    requires Sendable(m) && m.tag in {"join", "leave", "quit", "sendall"}
    ensures RequestOf(m) ==
            if m.tag == "join" then Request.Join(Before(m.data + "\n", ':'))
            else if m.tag == "leave" then Leave
            else if m.tag == "quit" then Quit
            else Sendall(Before(m.data + "\n", ':'))
  {
    RequestTags();
    LineIsMessage(m, "");
    LineWire(m);
    assert Wire(m) + "" == Wire(m);
    BeforeUnique(Wire(m), '\0', Wire(m));
    ParseTagged(Wire(m), m.tag, Seen(m).data);
    RequestByTag(m.tag, Before(Seen(m).data, ':'));
  }

  /** A text typed with a colon is broadcast as the part in front of it. */
  lemma TextIsCut(front: string, behind: string)
    requires ':' !in front && Sendable(Message("sendall", front + ":" + behind))
    ensures RequestOf(Message("sendall", front + ":" + behind)) == Sendall(front)
  {
    RequestExactly(Message("sendall", front + ":" + behind));
    BeforeUnique(front + ":" + behind + "\n", ':', front);
  }

  /** What plain words on the command line ask for. */
  lemma PlainRequests(room: string, text: string)
    requires Plain(room) && Plain(text)
    ensures Fits(Message(TAG_JOIN, room)) ==> RequestOf(Message(TAG_JOIN, room)) == Request.Join(room + "\n")
    ensures Fits(Message(TAG_SENDALL, text)) ==> RequestOf(Message(TAG_SENDALL, text)) == Sendall(text + "\n")
  {
    RequestTagsPlain();
    if Fits(Message(TAG_JOIN, room)) {
      DataArrives(TAG_JOIN, room);
    }
    if Fits(Message(TAG_SENDALL, text)) {
      DataArrives(TAG_SENDALL, text);
    }
  }
}
