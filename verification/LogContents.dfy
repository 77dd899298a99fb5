/** What is broadcast, traced back to the lines it came from: names never have a colon, and a
    delivery is well-formed exactly when the line that brought its text was not itself
    tagged "delivery". */
module LogContents {
  import opened Protocol
  import opened Session
  import opened Machine
  import opened Invariant
  import opened ExactDelivery
  import opened DeliveryStep
  import opened Ordered
  import opened Theorems

  // ---- names ----

  predicate NamePlain(name: string) {
    ':' !in name && '\0' !in name
  }

  predicate PcNamed(pc: Pc) {
    pc.Section? ==> match pc.work
                    case Drop(name) => NamePlain(name)
                    case Find(name) => NamePlain(name)
                    case _ => true
  }

  ghost predicate Named(s: State) {
    && (forall t :: t in s.threads ==> PcNamed(s.threads[t].pc))
    && (forall u :: u in s.users ==> NamePlain(s.users[u].username))
    && (forall r :: 0 <= r < |s.rooms| ==> NamePlain(s.rooms[r].key))
  }

  /** Data whose tag is not "delivery" can be a name. */
  predicate GotPlain(a: Action) {
    (a.Login? || a.Receive?) && a.got.Received? && !BringsDelivery(a) ==> NamePlain(a.got.msg.data)
  }

  lemma HeardPlain(step: Step)
    requires HeardRight(step)
    ensures GotPlain(step.action)
  {
    var a := step.action;
    if (a.Login? || a.Receive?) && a.got.Received? && !BringsDelivery(a) {
      ParsedDataColonFree(step.line);
      ParsedDataNulFree(step.line);
    }
  }

  ghost predicate EffectNamed(e: Effect) {
    && PcNamed(e.thread.pc)
    && (e.user.Some? ==> NamePlain(e.user.value.1.username))
    && (e.room.Some? ==> NamePlain(e.room.value.1.key))
  }

  lemma WireNamed(s: State, t: Id, a: Action)
    requires Enabled(s, t, a) && OnWire(a) && GotPlain(a)
    ensures EffectNamed(EffectOf(s, t, a))
  {
  }

  lemma InsideNamed(s: State, t: Id, a: Action)
    requires Named(s) && Enabled(s, t, a) && !OnWire(a)
    ensures EffectNamed(EffectOf(s, t, a))
  {
    assert PcNamed(s.threads[t].pc);
  }

  lemma CommitNamed(s: State, t: Id, e: Effect, clean: bool)
    requires Named(s) && EffectNamed(e) && (e.room.Some? ==> e.room.value.0 <= |s.rooms|)
    ensures Named(Commit(s, t, e, clean))
  {
  }

  lemma NamedStep(s: State, step: Step, s': State)
    requires Named(s) && Follows(s, step, s')
    ensures Named(s')
  {
    var t, a := step.thread, step.action;
    HeardPlain(step);
    if OnWire(a) { WireNamed(s, t, a); } else { InsideNamed(s, t, a); }
    CommitNamed(s, t, EffectOf(s, t, a), s.clean && !BringsDelivery(a));
  }

  /** The names of users and rooms are free of colons and NULs, on every run. */
  lemma {:induction false} NamesPlain(run: Run, n: nat)
    requires IsRun(run) && n <= |run.steps|
    ensures Named(run.states[n])
  {
    if n > 0 {
      NamesPlain(run, n - 1);
      NamedNext(run, n - 1);
    }
  }

  lemma NamedNext(run: Run, i: nat)
    requires IsRun(run) && i < |run.steps| && Named(run.states[i])
    ensures Named(run.states[i + 1])
  {
    NamedStep(run.states[i], run.steps[i], run.states[i + 1]);
  }

  // ---- texts ----

  /** The step by which the server's thread for `t` received the request. */
  predicate Brought(step: Step, t: Id, request: Request) {
    step.thread == t && step.action.Receive? && !step.action.got.Undefined? && ToRequest(step.action.got) == request
  }

  ghost predicate BroughtBefore(run: Run, n: nat, t: Id, request: Request)
    requires n <= |run.steps|
  {
    exists k :: 0 <= k < n && Brought(run.steps[k], t, request)
  }

  ghost predicate AllBrought(run: Run, n: nat, t: Id)
    requires IsRun(run) && n <= |run.steps|
  {
    t in run.states[n].threads ==>
      forall i :: 0 <= i < |run.states[n].threads[t].requests| ==>
        BroughtBefore(run, n, t, run.states[n].threads[t].requests[i])
  }

  lemma RequestsGrow(s: State, t: Id, a: Action, u: Id)
    requires Enabled(s, t, a) && u in Apply(s, t, a).threads
    ensures var requests := Apply(s, t, a).threads[u].requests;
            if u in s.threads then
              requests == s.threads[u].requests + if u == t && a.Receive? then [ToRequest(a.got)] else []
            else requests == []
  {
  }

  /** Every request of a thread was brought by one of its receives. */
  lemma {:induction false} RequestsBrought(run: Run, n: nat, t: Id)
    requires IsRun(run) && n <= |run.steps|
    ensures AllBrought(run, n, t)
  {
    if n > 0 {
      RequestsBrought(run, n - 1, t);
      BroughtNext(run, n - 1, t);
    }
  }

  lemma BroughtNext(run: Run, n: nat, t: Id)
    requires IsRun(run) && n < |run.steps| && AllBrought(run, n, t)
    ensures AllBrought(run, n + 1, t)
  {
    var s, step, s' := run.states[n], run.steps[n], run.states[n + 1];
    if t in s'.threads {
      RequestsGrow(s, step.thread, step.action, t);
      var requests := s'.threads[t].requests;
      forall i | 0 <= i < |requests|
        ensures BroughtBefore(run, n + 1, t, requests[i])
      {
        if t in s.threads && i < |s.threads[t].requests| {
          assert BroughtBefore(run, n, t, s.threads[t].requests[i]);
          var k :| 0 <= k < n && Brought(run.steps[k], t, requests[i]);
        } else {
          assert Brought(run.steps[n], t, requests[i]);
        }
      }
    }
  }

  lemma {:induction false} InTexts(log: seq<Entry>, i: nat)
    requires i < |log|
    ensures log[i].text in TextsOf(log, log[i].sender)
  {
    if i < |log| - 1 {
      InTexts(log[..|log| - 1], i);
    }
  }

  lemma {:induction false} AcceptedRequested(requests: seq<Request>, key: string, text: string)
    requires text in Accepted(requests, key)
    ensures Sendall(text) in requests
  {
    var front, last := requests[..|requests| - 1], requests[|requests| - 1];
    if text in Accepted(front, key) {
      AcceptedRequested(front, key, text);
    } else {
      assert last == Sendall(text);
    }
  }

  /** The text of a log entry is that of a sendall its sender has requested. */
  lemma EntryRequested(s: State, r: nat, i: nat)
    requires Registered(s) && InOrder(s) && r < |s.rooms| && i < |s.rooms[r].log|
    ensures var e := s.rooms[r].log[i]; e.sender in s.threads && Sendall(e.text) in s.threads[e.sender].requests
  {
    var e, key := s.rooms[r].log[i], s.rooms[r].key;
    InTexts(s.rooms[r].log, i);
    assert LoggedFor(s, e.sender, key) == AcceptedBy(s, e.sender, key);
    AcceptedRequested(Entered(s.threads[e.sender]), key, e.text);
  }

  /** Every entry goes back to a line its sender sent. */
  lemma EntryBrought(run: Run, r: nat, i: nat) returns (k: nat)
    requires IsRun(run) && r < |Final(run).rooms| && i < |Final(run).rooms[r].log|
    ensures k < |run.steps|
    ensures Brought(run.steps[k], Final(run).rooms[r].log[i].sender, Sendall(Final(run).rooms[r].log[i].text))
  {
    Reachable(run);
    EntryRequested(Final(run), r, i);
    var e := Final(run).rooms[r].log[i];
    RequestsBrought(run, |run.steps|, e.sender);
    var j :| 0 <= j < |Final(run).threads[e.sender].requests| &&
             Final(run).threads[e.sender].requests[j] == Sendall(e.text);
    assert BroughtBefore(run, |run.steps|, e.sender, Final(run).threads[e.sender].requests[j]);
    k :| 0 <= k < |run.steps| && Brought(run.steps[k], e.sender, Sendall(e.text));
  }

  // ---- deliveries ----

  /** The threads receive lines as rio_readlineb makes them. */
  ghost predicate ReadsLines(run: Run) {
    forall k {:trigger run.steps[k]} :: 0 <= k < |run.steps| ==> IsLine(run.steps[k].line)
  }

  lemma SignedPlain(s: State, r: nat, i: nat)
    requires Signed(s) && Named(s) && r < |s.rooms| && i < |s.rooms[r].log|
    ensures NamePlain(s.rooms[r].log[i].username) && NamePlain(s.rooms[r].key)
  {
  }

  /** The deliveries of a broadcast are well-formed exactly when the line that brought its
      text was not tagged "delivery"; and there is such a line. */
  lemma EntryWellFormed(run: Run, r: nat, i: nat)
    requires IsRun(run) && ReadsLines(run) && r < |Final(run).rooms| && i < |Final(run).rooms[r].log|
    ensures var room, e := Final(run).rooms[r], Final(run).rooms[r].log[i];
            && (exists k :: 0 <= k < |run.steps| && Brought(run.steps[k], e.sender, Sendall(e.text)))
            && (forall k :: 0 <= k < |run.steps| && Brought(run.steps[k], e.sender, Sendall(e.text)) ==>
                  (WellFormed(Delivery(room.key, e.username, e.text)) <==> !BringsDelivery(run.steps[k].action)))
  {
    var room, e := Final(run).rooms[r], Final(run).rooms[r].log[i];
    var _ := EntryBrought(run, r, i);
    Reachable(run);
    NamesPlain(run, |run.steps|);
    SignedPlain(Final(run), r, i);
    forall k | 0 <= k < |run.steps| && Brought(run.steps[k], e.sender, Sendall(e.text))
      ensures WellFormed(Delivery(room.key, e.username, e.text)) <==> !BringsDelivery(run.steps[k].action)
    {
      assert Follows(run.states[k], run.steps[k], run.states[k + 1]);
      BroughtWellFormed(run.steps[k], room.key, e);
    }
  }

  lemma BroughtWellFormed(step: Step, key: string, e: Entry)
    requires HeardRight(step) && IsLine(step.line) && Brought(step, e.sender, Sendall(e.text))
    requires NamePlain(key) && NamePlain(e.username)
    ensures WellFormed(Delivery(key, e.username, e.text)) <==> !BringsDelivery(step.action)
  {
    ColonIffDelivery(step.line);
    StillColonFree(key);
    StillColonFree(e.username);
    DeliveryWellFormed(key, e.username, e.text);
  }

  /** For everything a receiver is due, and so for everything it is ever sent. */
  lemma DueWellFormed(run: Run, v: Id, j: nat)
    requires IsRun(run) && ReadsLines(run) && IsReceiver(Final(run), v) && Joined(Final(run), v)
    requires var s := Final(run);
             var th, room := s.threads[v], s.rooms[s.threads[v].room.value];
             j < |Due(room.log, th.joinAt, s.users[v].username, room.key)|
    ensures var s := Final(run);
            var th, room := s.threads[v], s.rooms[s.threads[v].room.value];
            var at := DueAt(room.log, th.joinAt, s.users[v].username);
            && j < |at| && at[j] < |room.log|
            && (WellFormed(Due(room.log, th.joinAt, s.users[v].username, room.key)[j]) <==>
                forall k :: 0 <= k < |run.steps| &&
                            Brought(run.steps[k], room.log[at[j]].sender, Sendall(room.log[at[j]].text)) ==>
                  !BringsDelivery(run.steps[k].action))
  {
    var s := Final(run);
    var th, room := s.threads[v], s.rooms[s.threads[v].room.value];
    DueAtDue(room.log, th.joinAt, s.users[v].username, room.key);
    EntryWellFormed(run, th.room.value, DueAt(room.log, th.joinAt, s.users[v].username)[j]);
  }
}
