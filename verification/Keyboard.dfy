/** From keyboard to screen: sending clients, the server and its threads in any interleaving,
    and what a receiving client prints of the bytes its thread sends. */
module Keyboard {
  import opened Text
  import opened Protocol
  import opened Session
  import opened Connection
  import opened Framing
  import opened Receiver
  import opened Machine
  import opened Invariant
  import opened History
  import opened DeliveryStep
  import opened Ordered
  import opened Theorems
  import opened Lockstep
  import opened Answers
  import opened Screen

  // ---- every play holds a run of the server ----

  lemma {:induction false} PlayHasRun(play: Play, n: nat)
    requires IsPlay(play) && n <= |play.events|
    ensures HasRun(play.nets[n].server)
  {
    if n == 0 {
      StartHasRun();
    } else {
      PlayHasRun(play, n - 1);
      EventHasRun(play.nets[n - 1], play.events[n - 1], play.nets[n]);
    }
  }

  lemma EventHasRun(net: Net, e: Event, net': Net)
    requires HasRun(net.server) && LeadsTo(net, e, net')
    ensures HasRun(net'.server)
  {
    if e.ServerMove? {
      MoveFollows(net, e, net');
      OneMoreStep(net.server, e.step, net'.server);
    } else {
      assert net'.server == net.server;
    }
  }

  lemma MoveFollows(net: Net, e: Event, net': Net)
    requires LeadsTo(net, e, net') && e.ServerMove?
    ensures Follows(net.server, e.step, net'.server)
  {
  }

  // ---- the name a client logs in with ----

  function LoginName(typed: seq<Message>): string {
    if typed == [] then ""
    else
      var p := Parse(Line(Wire(typed[0])));
      if p.Received? then p.msg.data else ""
  }

  ghost predicate Known(s: State, c: Id, cl: Client) {
    cl.typed != [] && (c in s.threads ==> c in s.users && s.users[c].username == LoginName(cl.typed))
  }

  lemma LoginKnown(s: State, c: Id, a: Action, line: string, cl: Client)
    requires Moves(s, c, a, line, cl) && Faithful(s, c, cl) && a.Login?
    ensures Known(Apply(s, c, a), c, Streams(s, c, a, cl))
  {
    RequestArrives(cl.toServer, TAG_SLOGIN);
    LoginAs(s, c, a, LoginName(cl.typed));
  }

  lemma LoginAs(s: State, c: Id, a: Action, name: string)
    requires Enabled(s, c, a) && a.Login? && a.got.Received? && a.got.msg == Message(TAG_SLOGIN, name)
    ensures var s' := Apply(s, c, a); c in s'.users && s'.users[c].username == name
  {
  }

  /** Users keep their names. */
  lemma StepKnown(s: State, t: Id, a: Action, c: Id, cl: Client)
    requires Shape(s) && Enabled(s, t, a) && Known(s, c, cl) && (c in s.threads || c != t)
    ensures Known(Apply(s, t, a), c, cl)
  {
    StepFramed(s, t, a);
  }

  lemma MoveKnown(net: Net, e: Event, c: Id)
    requires Shape(net.server) && Happens(net, e) && e.ServerMove? && c in net.clients
    requires InStep(net.server, c, net.clients[c]) && Faithful(net.server, c, net.clients[c])
    requires Known(net.server, c, net.clients[c])
    requires c in net.server.threads ==> HistoryOf(net.server, c)
    ensures c in After(net, e).clients && Known(After(net, e).server, c, After(net, e).clients[c])
  {
    var s, t, a := net.server, e.step.thread, e.step.action;
    if c == t && a.Login? {
      LoginKnown(s, c, a, e.step.line, net.clients[c]);
    } else {
      StepKnown(s, t, a, c, net.clients[c]);
    }
  }

  lemma ClientKnown(net: Net, e: Event, c: Id)
    requires Happens(net, e) && !e.ServerMove? && c in After(net, e).clients
    requires c in net.clients ==> Known(net.server, c, net.clients[c])
    ensures Known(After(net, e).server, c, After(net, e).clients[c])
  {
  }

  ghost predicate AllKnown(net: Net) {
    forall c :: c in net.clients ==> Known(net.server, c, net.clients[c])
  }

  lemma {:induction false} PlayKnown(play: Play, n: nat)
    requires IsPlay(play) && n <= |play.events|
    ensures AllKnown(play.nets[n])
  {
    if n > 0 {
      PlayKnown(play, n - 1);
      NextKnown(play, n - 1);
    }
  }

  lemma NextKnown(play: Play, i: nat)
    requires IsPlay(play) && i < |play.events| && AllKnown(play.nets[i])
    ensures AllKnown(play.nets[i + 1])
  {
    PlayInStep(play, i);
    PlayFaithful(play, i);
    EventKnown(play.nets[i], play.events[i], play.nets[i + 1]);
  }

  lemma EventKnown(net: Net, e: Event, net': Net)
    requires AllInStep(net) && AllFaithful(net) && AllKnown(net) && LeadsTo(net, e, net')
    ensures AllKnown(net')
  {
    forall c | c in net'.clients
      ensures Known(net'.server, c, net'.clients[c])
    {
      OneClient(net, e, c);
      if e.ServerMove? {
        assert InStep(net.server, c, net.clients[c]) && (c in net.server.threads ==> HistoryOf(net.server, c));
        MoveKnown(net, e, c);
      } else {
        ClientKnown(net, e, c);
      }
    }
  }

  // ---- the texts a client types ----

  lemma {:induction false} AcceptedPrefix(front: seq<Request>, requests: seq<Request>, key: string)
    requires front <= requests
    ensures Accepted(front, key) <= Accepted(requests, key)
    decreases |requests| - |front|
  {
    if |front| == |requests| {
      assert front == requests;
    } else {
      AcceptedPrefix(front, requests[..|requests| - 1], key);
    }
  }

  /** What the thread has entered in the logs is a first part of what was typed. */
  lemma EnteredTyped(s: State, c: Id, cl: Client)
    requires c in s.threads && Faithful(s, c, cl)
    ensures Entered(s.threads[c]) <= s.threads[c].requests <= Asks(cl.typed)
  {
  }

  lemma SameSlice<T>(p: seq<T>, q: seq<T>, a: nat, b: nat)
    requires p <= q && a <= b <= |p|
    ensures p[a..b] == q[a..b]
  {
  }

  /** What the client of receiver `v` prints of the bytes its thread sends is, in order, one
      line for each broadcast of its room since its join by users of another name, exactly
      when each of them arrives; and those of sender `c` are a contiguous stretch, beginning
      with the first one after the join, of the texts that its user has typed and the
      automaton accepts for that room, under the name it logged in with. */
  ghost predicate OnScreen(s: State, v: Id, c: Id, typed: seq<Message>)
    requires IsReceiver(s, v) && Joined(s, v)
  {
    var th, room := s.threads[v], s.rooms[s.threads[v].room.value];
    && |th.delivered| <= |DueAt(room.log, th.joinAt, s.users[v].username)| && th.joinAt <= |room.log|
    && (forall i :: 0 <= i < |SentAt(s, v)| ==> SentAt(s, v)[i] < |room.log|)
    && (Prints(ReceiveAll(Sent(th.delivered))) == ShownAt(room.log, SentAt(s, v)) <==>
        forall i :: 0 <= i < |th.delivered| ==> WellFormed(th.delivered[i]) && Fits(th.delivered[i]))
    && (forall i :: 0 <= i < |room.log| && room.log[i].sender == c ==> room.log[i].username == LoginName(typed))
    && var a, accepted := |TextsOf(room.log[..th.joinAt], c)|, Accepted(Asks(typed), room.key);
       exists b :: a <= b <= |accepted| && TextsAt(room.log, SentAt(s, v), c) == accepted[a..b]
  }

  /** From keyboard to screen, at every moment of every play: for every receiver that has
      joined and every sending client that has logged in under another name. */
  lemma KeyboardToScreen(play: Play, v: Id, c: Id)
    requires IsPlay(play) && IsReceiver(End(play).server, v) && Joined(End(play).server, v)
    requires c in End(play).clients && c in End(play).server.threads
    requires End(play).server.users[v].username != LoginName(End(play).clients[c].typed)
    ensures OnScreen(End(play).server, v, c, End(play).clients[c].typed)
  {
    PlayHasRun(play, |play.events|);
    ClientTyped(play, c);
    RunToScreen(End(play).server, v, c, End(play).clients[c].typed);
  }

  lemma ClientTyped(play: Play, c: Id)
    requires IsPlay(play) && c in End(play).clients && c in End(play).server.threads
    ensures var s, typed := End(play).server, End(play).clients[c].typed;
            && s.threads[c].kind == Sender && c in s.users && s.users[c].username == LoginName(typed)
            && Entered(s.threads[c]) <= Asks(typed)
  {
    PlayInStep(play, |play.events|);
    PlayFaithful(play, |play.events|);
    PlayKnown(play, |play.events|);
    SenderTyped(End(play).server, c, End(play).clients[c]);
  }

  lemma SenderTyped(s: State, c: Id, cl: Client)
    requires InStep(s, c, cl) && Faithful(s, c, cl) && Known(s, c, cl) && c in s.threads
    ensures s.threads[c].kind == Sender && c in s.users && s.users[c].username == LoginName(cl.typed)
    ensures Entered(s.threads[c]) <= Asks(cl.typed)
  {
    EnteredTyped(s, c, cl);
  }

  /** The same for a reachable state and a client that has typed at least what its thread has
      entered in the logs. */
  lemma RunToScreen(s: State, v: Id, c: Id, typed: seq<Message>)
    requires HasRun(s) && IsReceiver(s, v) && Joined(s, v)
    requires c in s.threads && s.threads[c].kind == Sender && c in s.users && s.users[c].username == LoginName(typed)
    requires s.users[v].username != LoginName(typed) && Entered(s.threads[c]) <= Asks(typed)
    ensures OnScreen(s, v, c, typed)
  {
    var run: Run :| IsRun(run) && Final(run) == s;
    var th, room := s.threads[v], s.rooms[s.threads[v].room.value];
    SenderOrder(run, v, c);
    PrintedOverRun(run, v);
    Reachable(run);
    SignedAs(s, th.room.value, c);
    AcceptedPrefix(Entered(s.threads[c]), Asks(typed), room.key);
    var a := |TextsOf(room.log[..th.joinAt], c)|;
    var accepted := Accepted(Entered(s.threads[c]), room.key);
    var b :| a <= b <= |accepted| && TextsAt(room.log, SentAt(s, v), c) == accepted[a..b];
    SameSlice(accepted, Accepted(Asks(typed), room.key), a, b);
  }

  lemma SignedAs(s: State, r: nat, c: Id)
    requires Signed(s) && r < |s.rooms| && c in s.users
    ensures forall i :: 0 <= i < |s.rooms[r].log| && s.rooms[r].log[i].sender == c ==>
              s.rooms[r].log[i].username == s.users[c].username
  {
  }

  /** For plain words, what the user reads is what was typed. */
  lemma PlainShown(c: Id, user: string, text: string)
    requires Plain(user) && Plain(text) && Fits(Message(TAG_SLOGIN, user)) && Fits(Message(TAG_SENDALL, text))
    ensures RequestOf(Message(TAG_SENDALL, text)) == Sendall(text + "\n")
    ensures Shown(Entry(c, LoginName([Message(TAG_SLOGIN, user)]), text + "\n")) == user + ": " + text + "\n"
  {
    RequestTagsPlain();
    PlainRequests("", text);
    DataArrives(TAG_SLOGIN, user);
    RemoveFinalNewline(text);
  }
}
