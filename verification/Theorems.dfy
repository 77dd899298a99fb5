/** The results about whole runs: any number of threads, any interleaving of their steps. */
module Theorems {
  import opened Text
  import opened Protocol
  import opened Session
  import opened Machine
  import opened Invariant
  import opened QueueContents
  import opened Semaphores
  import opened Deadlock
  import opened History
  import opened ExactDelivery
  import opened DeliveryStep
  import opened Ordered

  ghost predicate Inv(s: State) {
    && Grounded(s)
    && Sems(s)
    && AllExact(s)
    && Signed(s)
    && InOrder(s)
  }

  lemma InitInv()
    ensures Inv(INIT)
  {
  }

  lemma StepInv(s: State, t: Id, a: Action)
    requires Inv(s) && Enabled(s, t, a) && GotOk(a)
    ensures Inv(Apply(s, t, a))
  {
    GroundedStep(s, t, a);
    SemsStep(s, t, a);
    ExactStep(s, t, a);
    SignedStep(s, t, a);
    InOrderStep(s, t, a);
  }

  lemma HeardGotOk(step: Step)
    requires HeardRight(step)
    ensures GotOk(step.action)
  {
    if (step.action.Login? || step.action.Receive?) && step.action.got.Received? && !BringsDelivery(step.action) {
      ParsedDataColonFree(step.line);
    }
  }

  /** Every state of every run satisfies the invariant. */
  lemma {:induction false} AlwaysInv(run: Run, n: nat)
    requires IsRun(run) && n <= |run.steps|
    ensures Inv(run.states[n])
  {
    if n == 0 {
      InitInv();
    } else {
      AlwaysInv(run, n - 1);
      var step := run.steps[n - 1];
      HeardGotOk(step);
      StepInv(run.states[n - 1], step.thread, step.action);
    }
  }

  lemma Reachable(run: Run)
    requires IsRun(run)
    ensures Inv(Final(run))
  {
    AlwaysInv(run, |run.steps|);
  }

  // ---- delivery ----

  /** Every receiver that has joined, at every moment of every run: what it was sent, has in
      hand and has queued, and at most one message of the broadcast under way, are exactly
      the broadcasts of its room since it joined, by senders of another name, in order. */
  lemma DeliveredExactly(run: Run, v: Id)
    requires IsRun(run) && IsReceiver(Final(run), v) && Joined(Final(run), v)
    ensures var s := Final(run);
            var th := s.threads[v];
            var room := s.rooms[th.room.value];
            && th.joinAt <= |room.log|
            && th.delivered + Hand(th.pc) + s.users[v].messages + Owed(s, th.room.value, v)
               == Due(room.log, th.joinAt, s.users[v].username, room.key)
            && |Owed(s, th.room.value, v)| <= 1
            && (RoomLock(th.room.value) !in s.owner ==> Owed(s, th.room.value, v) == [])
  {
    Reachable(run);
    assert Exact(Final(run), v);
  }

  /** The positions in a room's log of what a receiver is due. */
  function DueAt(log: seq<Entry>, from: nat, username: string): seq<nat> {
    if |log| <= from then []
    else
      DueAt(log[..|log| - 1], from, username) +
      if log[|log| - 1].username != username then [|log| - 1] else []
  }

  /** All of them, each once, in log order. */
  lemma DueAtExact(log: seq<Entry>, from: nat, username: string)
    ensures var at := DueAt(log, from, username);
            && (forall i :: 0 <= i < |at| ==> from <= at[i] < |log| && log[at[i]].username != username)
            && (forall i, j :: 0 <= i < j < |at| ==> at[i] < at[j])
            && (forall k :: from <= k < |log| && log[k].username != username ==> k in at)
  {
    DueAtIs(log, from, username);
  }

  lemma {:induction false} DueAtIs(log: seq<Entry>, from: nat, username: string)
    ensures IsDueAt(DueAt(log, from, username), log, from, username)
  {
    if |log| > from {
      var front, last := log[..|log| - 1], log[|log| - 1];
      DueAtIs(front, from, username);
      OneMoreDue(DueAt(front, from, username), front, last, from, username);
      DueAtAppend(front, last, from, username);
      FrontAndLast(log);
    }
  }

  predicate IsDueAt(at: seq<nat>, log: seq<Entry>, from: nat, username: string) {
    && (forall i :: 0 <= i < |at| ==> from <= at[i] < |log| && log[at[i]].username != username)
    && Increasing(at)
    && (forall k :: from <= k < |log| && log[k].username != username ==> k in at)
  }

  lemma OneMoreDue(at: seq<nat>, front: seq<Entry>, last: Entry, from: nat, username: string)
    requires from <= |front| && IsDueAt(at, front, from, username)
    ensures IsDueAt(if last.username != username then at + [|front|] else at, front + [last], from, username)
  {
    OneLarger(at, |front|);
    forall k | from <= k < |front + [last]| && (front + [last])[k].username != username
      ensures k in at || k == |front|
    {
      if k < |front| {
        assert front[k].username != username;
      }
    }
  }

  lemma {:induction false} DueAtDue(log: seq<Entry>, from: nat, username: string, key: string)
    ensures |DueAt(log, from, username)| == |Due(log, from, username, key)|
    ensures var at := DueAt(log, from, username);
            forall i :: 0 <= i < |at| ==>
              (at[i] < |log| &&
               Due(log, from, username, key)[i] == Delivery(key, log[at[i]].username, log[at[i]].text))
  {
    if |log| > from {
      var front, last := log[..|log| - 1], log[|log| - 1];
      DueAtDue(front, from, username, key);
      var at, at' := DueAt(front, from, username), DueAt(log, from, username);
      forall i | 0 <= i < |at'|
        ensures at'[i] < |log|
        ensures Due(log, from, username, key)[i] == Delivery(key, log[at'[i]].username, log[at'[i]].text)
      {
        if i < |at| {
          assert at'[i] == at[i] && front[at[i]] == log[at[i]];
        }
      }
    }
  }

  /** Where in the log of its room the messages sent to receiver `v` come from. */
  ghost function SentAt(s: State, v: Id): seq<nat>
    requires IsReceiver(s, v) && Joined(s, v)
    requires |s.threads[v].delivered| <=
             |DueAt(s.rooms[s.threads[v].room.value].log, s.threads[v].joinAt, s.users[v].username)|
  {
    DueAt(s.rooms[s.threads[v].room.value].log, s.threads[v].joinAt, s.users[v].username)[..|s.threads[v].delivered|]
  }

  /** Each message sent is the delivery of one log entry; entries follow in log order, none
      is sent twice and none in between is left out. */
  lemma SentFollowsLog(run: Run, v: Id)
    requires IsRun(run) && IsReceiver(Final(run), v) && Joined(Final(run), v)
    ensures var s := Final(run);
            var th, room := s.threads[v], s.rooms[s.threads[v].room.value];
            && |th.delivered| <= |DueAt(room.log, th.joinAt, s.users[v].username)|
            && var at := SentAt(s, v);
            && (forall i :: 0 <= i < |at| ==>
                  (at[i] < |room.log| &&
                   th.delivered[i] == Delivery(room.key, room.log[at[i]].username, room.log[at[i]].text)))
            && (forall i, j :: 0 <= i < j < |at| ==> at[i] < at[j])
            && (forall i, k :: 0 <= i < |at| && th.joinAt <= k <= at[i] && room.log[k].username != s.users[v].username
                  ==> k in at)
  {
    var s := Final(run);
    var th, room := s.threads[v], s.rooms[s.threads[v].room.value];
    DeliveredExactly(run, v);
    DeliveredIsPrefix(s, v);
    FrontOfDue(room.log, th.joinAt, s.users[v].username, room.key, th.delivered);
  }

  /** What can be said of any first part of what is due. */
  lemma FrontOfDue(log: seq<Entry>, from: nat, username: string, key: string, sent: seq<Message>)
    requires sent <= Due(log, from, username, key)
    ensures |sent| <= |DueAt(log, from, username)|
    ensures var at := DueAt(log, from, username)[..|sent|];
            && (forall i :: 0 <= i < |at| ==>
                  (at[i] < |log| && sent[i] == Delivery(key, log[at[i]].username, log[at[i]].text)))
            && (forall i, j :: 0 <= i < j < |at| ==> at[i] < at[j])
            && (forall i, k :: 0 <= i < |at| && from <= k <= at[i] && log[k].username != username ==> k in at)
  {
    DueAtExact(log, from, username);
    DueAtDue(log, from, username, key);
    var all := DueAt(log, from, username);
    var at := all[..|sent|];
    forall i, k | 0 <= i < |at| && from <= k <= at[i] && log[k].username != username
      ensures k in at
    {
      var j :| 0 <= j < |all| && all[j] == k;
      assert j <= i;
      assert at[j] == k;
    }
  }

  lemma DeliveredIsPrefix(s: State, v: Id)
    requires IsReceiver(s, v) && Joined(s, v) && Exact(s, v)
    ensures var th, room := s.threads[v], s.rooms[s.threads[v].room.value];
            th.delivered <= Due(room.log, th.joinAt, s.users[v].username, room.key)
  {
  }

  /** Any two receivers of one room see the broadcasts they both get in the same order. */
  lemma TotalOrder(run: Run, v: Id, w: Id, i: nat, j: nat, i': nat, j': nat)
    requires IsRun(run)
    requires IsReceiver(Final(run), v) && Joined(Final(run), v)
    requires IsReceiver(Final(run), w) && Joined(Final(run), w)
    requires Final(run).threads[v].room == Final(run).threads[w].room
    ensures var s := Final(run);
            var log := s.rooms[s.threads[v].room.value].log;
            && |s.threads[v].delivered| <= |DueAt(log, s.threads[v].joinAt, s.users[v].username)|
            && |s.threads[w].delivered| <= |DueAt(log, s.threads[w].joinAt, s.users[w].username)|
            && var a, b := SentAt(s, v), SentAt(s, w);
            i < |a| && j < |a| && i' < |b| && j' < |b| && a[i] == b[i'] && a[j] == b[j'] ==>
              (i < j <==> i' < j') && s.threads[v].delivered[i] == s.threads[w].delivered[i']
  {
    SentFollowsLog(run, v);
    SentFollowsLog(run, w);
    SameOrder(SentAt(Final(run), v), SentAt(Final(run), w), i, j, i', j');
  }

  lemma SameOrder(a: seq<nat>, b: seq<nat>, i: nat, j: nat, i': nat, j': nat)
    requires forall m, n :: 0 <= m < n < |a| ==> a[m] < a[n]
    requires forall m, n :: 0 <= m < n < |b| ==> b[m] < b[n]
    ensures i < |a| && j < |a| && i' < |b| && j' < |b| && a[i] == b[i'] && a[j] == b[j'] ==> (i < j <==> i' < j')
  {
  }

  /** A receiver about to wait, with nothing to wait for and nobody busy with its room or
      its queue, has been sent everything it is due. */
  lemma AllSent(run: Run, v: Id)
    requires IsRun(run) && IsReceiver(Final(run), v) && Joined(Final(run), v)
    requires Final(run).threads[v].pc.Wait? && Final(run).users[v].avail == 0
    requires RoomLock(Final(run).threads[v].room.value) !in Final(run).owner && QueueLock(v) !in Final(run).owner
    ensures var s := Final(run);
            var th, room := s.threads[v], s.rooms[s.threads[v].room.value];
            th.delivered == Due(room.log, th.joinAt, s.users[v].username, room.key)
  {
    DeliveredExactly(run, v);
    SemaphoreAccounting(run, v);
    assert Final(run).users[v].messages == [];
  }

  // ---- a sender's messages at a receiver ----

  /** The texts at the given positions of a log that come from sender `t`. */
  function TextsAt(log: seq<Entry>, at: seq<nat>, t: Id): seq<string>
    requires forall i :: 0 <= i < |at| ==> at[i] < |log|
  {
    if at == [] then []
    else
      var last := at[|at| - 1];
      TextsAt(log, at[..|at| - 1], t) + if log[last].sender == t then [log[last].text] else []
  }

  lemma {:induction false} TextsAtPrefix(log: seq<Entry>, more: seq<Entry>, at: seq<nat>, t: Id)
    requires forall i :: 0 <= i < |at| ==> at[i] < |log|
    ensures TextsAt(log + more, at, t) == TextsAt(log, at, t)
  {
    if at != [] {
      TextsAtPrefix(log, more, at[..|at| - 1], t);
    }
  }

  /** Selecting what is due to a user of another name loses nothing of sender `t`. */
  lemma {:induction false} DueKeepsSender(log: seq<Entry>, from: nat, username: string, t: Id)
    requires from <= |log|
    requires forall i :: 0 <= i < |log| && log[i].sender == t ==> log[i].username != username
    requires forall i :: 0 <= i < |DueAt(log, from, username)| ==> DueAt(log, from, username)[i] < |log|
    ensures TextsOf(log, t) == TextsOf(log[..from], t) + TextsAt(log, DueAt(log, from, username), t)
  {
    if |log| == from {
      assert log[..from] == log;
    } else {
      var front, last := log[..|log| - 1], log[|log| - 1];
      DueAtExact(front, from, username);
      DueKeepsSender(front, from, username, t);
      assert log == front + [last] && front[..from] == log[..from];
      DueAtAppend(front, last, from, username);
      if last.username != username {
        KeepsSelected(front, last, DueAt(front, from, username), TextsOf(log[..from], t), t);
      } else {
        assert last == log[|log| - 1];
        KeepsOthers(front, last, DueAt(front, from, username), TextsOf(log[..from], t), t);
      }
    }
  }

  lemma DueAtAppend(front: seq<Entry>, last: Entry, from: nat, username: string)
    requires from <= |front|
    ensures var at := DueAt(front, from, username);
            DueAt(front + [last], from, username) == if last.username != username then at + [|front|] else at
  {
    FrontOfAppend(front, last);
  }

  lemma TextsAtAppend(log: seq<Entry>, at: seq<nat>, k: nat, t: Id)
    requires k < |log| && forall i :: 0 <= i < |at| ==> at[i] < |log|
    ensures TextsAt(log, at + [k], t) == TextsAt(log, at, t) + if log[k].sender == t then [log[k].text] else []
  {
    FrontOfAppend(at, k);
  }

  lemma Extend(texts: seq<string>, start: seq<string>, rest: seq<string>, more: seq<string>)
    requires texts == start + rest
    ensures texts + more == start + (rest + more)
  {
    Associate(start, rest, more);
  }

  /** One more entry that is selected. */
  lemma KeepsSelected(front: seq<Entry>, last: Entry, at: seq<nat>, start: seq<string>, t: Id)
    requires forall i :: 0 <= i < |at| ==> at[i] < |front|
    requires TextsOf(front, t) == start + TextsAt(front, at, t)
    ensures forall i :: 0 <= i < |at| + 1 ==> (at + [|front|])[i] < |front + [last]|
    ensures TextsOf(front + [last], t) == start + TextsAt(front + [last], at + [|front|], t)
  {
    var more := if last.sender == t then [last.text] else [];
    TextsAppend(front, last, t);
    TextsAtPrefix(front, [last], at, t);
    TextsAtAppend(front + [last], at, |front|, t);
    Extend(TextsOf(front, t), start, TextsAt(front, at, t), more);
  }

  /** One more entry that is not, from another sender. */
  lemma KeepsOthers(front: seq<Entry>, last: Entry, at: seq<nat>, start: seq<string>, t: Id)
    requires last.sender != t
    requires forall i :: 0 <= i < |at| ==> at[i] < |front|
    requires TextsOf(front, t) == start + TextsAt(front, at, t)
    ensures TextsOf(front + [last], t) == start + TextsAt(front + [last], at, t)
  {
    TextsAppend(front, last, t);
    TextsAtPrefix(front, [last], at, t);
  }

  /** The first `n` positions due are those due from some prefix of the log. */
  lemma {:induction false} DuePrefix(log: seq<Entry>, from: nat, username: string, n: nat) returns (e: nat)
    requires n <= |DueAt(log, from, username)| && from <= |log|
    ensures from <= e <= |log| && DueAt(log[..e], from, username) == DueAt(log, from, username)[..n]
  {
    var at := DueAt(log, from, username);
    if n == |at| {
      e := |log|;
      assert log[..e] == log && at[..n] == at;
    } else {
      var front := log[..|log| - 1];
      assert DueAt(front, from, username)[..n] == at[..n];
      e := DuePrefix(front, from, username, n);
      assert front[..e] == log[..e];
    }
  }

  lemma {:induction false} TextsOfPrefix(log: seq<Entry>, e: nat, t: Id)
    requires e <= |log|
    ensures TextsOf(log[..e], t) <= TextsOf(log, t)
  {
    if e < |log| {
      TextsOfPrefix(log[..|log| - 1], e, t);
      assert log[..|log| - 1][..e] == log[..e];
    } else {
      assert log[..e] == log;
    }
  }

  lemma StretchUpTo(seen: seq<Entry>, rest: seq<Entry>, from: nat, name: string, t: Id)
    requires from <= |seen|
    requires forall i :: 0 <= i < |seen| && seen[i].sender == t ==> seen[i].username != name
    ensures forall i :: 0 <= i < |DueAt(seen, from, name)| ==> DueAt(seen, from, name)[i] < |seen|
    ensures TextsOf(seen, t) == TextsOf(seen[..from], t) + TextsAt(seen + rest, DueAt(seen, from, name), t)
  {
    DueAtExact(seen, from, name);
    DueKeepsSender(seen, from, name, t);
    TextsAtPrefix(seen, rest, DueAt(seen, from, name), t);
  }

  /** The first `n` messages due, restricted to one sender of another name, are a contiguous
      stretch of what that sender has in the log, beginning at `from`. */
  lemma Stretch(log: seq<Entry>, from: nat, name: string, n: nat, t: Id)
    requires from <= |log| && n <= |DueAt(log, from, name)|
    requires forall i :: 0 <= i < |log| && log[i].sender == t ==> log[i].username != name
    ensures forall i :: 0 <= i < n ==> DueAt(log, from, name)[i] < |log|
    ensures var a := |TextsOf(log[..from], t)|;
            exists b :: a <= b <= |TextsOf(log, t)| &&
                        TextsAt(log, DueAt(log, from, name)[..n], t) == TextsOf(log, t)[a..b]
  {
    DueAtExact(log, from, name);
    var e := DuePrefix(log, from, name, n);
    Cut(log, e, from);
    StretchUpTo(log[..e], log[e..], from, name, t);
    TextsOfPrefix(log, e, t);
    Middle(TextsOf(log, t), TextsOf(log[..from], t), TextsAt(log, DueAt(log, from, name)[..n], t));
  }

  /** What receiver `v` was sent from sender `t` of another name is a contiguous stretch of
      what the sender's own requests broadcast in that room, beginning with the first one
      after the join: in sending order, with no gap and no duplicate. */
  lemma SenderOrder(run: Run, v: Id, t: Id)
    requires IsRun(run) && IsReceiver(Final(run), v) && Joined(Final(run), v)
    requires t in Final(run).threads && Final(run).threads[t].kind == Sender
    requires t in Final(run).users && Final(run).users[t].username != Final(run).users[v].username
    ensures var s := Final(run);
            var th, room := s.threads[v], s.rooms[s.threads[v].room.value];
            && |th.delivered| <= |DueAt(room.log, th.joinAt, s.users[v].username)|
            && th.joinAt <= |room.log|
            && (forall i :: 0 <= i < |SentAt(s, v)| ==> SentAt(s, v)[i] < |room.log|)
            && var accepted := Accepted(Entered(s.threads[t]), room.key);
               var a := |TextsOf(room.log[..th.joinAt], t)|;
               exists b :: a <= b <= |accepted| && TextsAt(room.log, SentAt(s, v), t) == accepted[a..b]
  {
    Reachable(run);
    SentFollowsLog(run, v);
    DeliveredExactly(run, v);
    StretchSent(Final(run), v, t);
  }

  lemma StretchSent(s: State, v: Id, t: Id)
    requires Registered(s) && InOrder(s) && Signed(s) && IsReceiver(s, v) && Joined(s, v)
    requires t in s.threads && s.threads[t].kind == Sender
    requires t in s.users && s.users[t].username != s.users[v].username
    requires var th, room := s.threads[v], s.rooms[s.threads[v].room.value];
             th.joinAt <= |room.log| && |th.delivered| <= |DueAt(room.log, th.joinAt, s.users[v].username)|
    ensures var th, room := s.threads[v], s.rooms[s.threads[v].room.value];
            && (forall i :: 0 <= i < |SentAt(s, v)| ==> SentAt(s, v)[i] < |room.log|)
            && var accepted := Accepted(Entered(s.threads[t]), room.key);
               var a := |TextsOf(room.log[..th.joinAt], t)|;
               exists b :: a <= b <= |accepted| && TextsAt(room.log, SentAt(s, v), t) == accepted[a..b]
  {
    var th, name := s.threads[v], s.users[v].username;
    LogIsAccepted(s, th.room.value, t);
    SignedFor(s, th.room.value, t, name);
    Stretch(s.rooms[th.room.value].log, th.joinAt, name, |th.delivered|, t);
  }

  lemma LogIsAccepted(s: State, r: nat, t: Id)
    requires Registered(s) && InOrder(s) && r < |s.rooms| && t in s.threads && s.threads[t].kind == Sender
    ensures TextsOf(s.rooms[r].log, t) == Accepted(Entered(s.threads[t]), s.rooms[r].key)
  {
    assert LoggedFor(s, t, s.rooms[r].key) == AcceptedBy(s, t, s.rooms[r].key);
  }

  lemma SignedFor(s: State, r: nat, t: Id, name: string)
    requires Signed(s) && r < |s.rooms| && t in s.users && s.users[t].username != name
    ensures var log := s.rooms[r].log; forall i :: 0 <= i < |log| && log[i].sender == t ==> log[i].username != name
  {
  }

  // ---- locks and semaphores ----

  /** No deadlock: whoever blocks a thread can step, at once or behind one other thread. */
  lemma DeadlockFree(run: Run, t: Id)
    requires IsRun(run) && Blocked(Final(run), t)
    ensures var s := Final(run);
            var holder := s.owner[Wants(t, s.threads[t]).value];
            CanStep(s, holder) ||
            (Blocked(s, holder) && CanStep(s, s.owner[Wants(holder, s.threads[holder]).value]))
  {
    Reachable(run);
    NoDeadlock(Final(run), t);
  }

  /** A thread that is neither stopped nor waiting for its client is stuck only on a lock. */
  lemma NoThreadStuck(run: Run, t: Id)
    requires IsRun(run) && t in Final(run).threads
    requires var pc := Final(run).threads[t].pc; !pc.Stopped? && !pc.Recv?
    ensures CanStep(Final(run), t) <==> !Blocked(Final(run), t)
  {
    Reachable(run);
    Progress(Final(run), t);
  }

  /** The semaphore accounts for the queue, so a pop after a successful wait finds a message. */
  lemma SemaphoreAccounting(run: Run, u: Id)
    requires IsRun(run) && u in Final(run).users
    ensures var s := Final(run);
            && |s.users[u].messages| == s.users[u].avail + One(Token(s, u)) + One(Unposted(s, u))
            && (Token(s, u) ==> s.users[u].messages != [])
  {
    Reachable(run);
    assert SemAt(Final(run), u);
  }

  // ---- membership ----

  predicate Resting(pc: Pc) {
    pc.Recv? || pc.Stopped?
  }

  /** Between requests and after the last one a sender has replied, and is a member, exactly
      as the automaton says. */
  lemma MembershipRefined(run: Run, t: Id)
    requires IsRun(run) && t in Final(run).threads
    requires Final(run).threads[t].kind == Sender && Resting(Final(run).threads[t].pc)
    ensures var s := Final(run);
            var th := s.threads[t];
            && th.replies == [SENDER_LOGGED_IN] + Replies(th.requests)
            && (forall r :: 0 <= r < |s.rooms| ==>
                  (t in s.rooms[r].members <==> Spot(th.requests) == Some(s.rooms[r].key)))
            && (Spot(th.requests).Some? ==> Spot(th.requests).value in s.registry)
            && (th.pc.Stopped? ==> th.requests != [] && Ends(Last(th)))
  {
    Reachable(run);
    assert ThreadShape(Final(run), t) && HistoryOf(Final(run), t);
    SettledMembership(Final(run), t);
  }

  lemma SettledMembership(s: State, t: Id)
    requires Registered(s) && t in s.threads && ThreadShape(s, t) && HistoryOf(s, t)
    requires s.threads[t].kind == Sender && Resting(s.threads[t].pc)
    ensures var th := s.threads[t];
            && th.replies == [SENDER_LOGGED_IN] + Replies(th.requests)
            && (forall r :: 0 <= r < |s.rooms| ==>
                  (t in s.rooms[r].members <==> Spot(th.requests) == Some(s.rooms[r].key)))
            && (Spot(th.requests).Some? ==> Spot(th.requests).value in s.registry)
            && (th.pc.Stopped? ==> th.requests != [] && Ends(Last(th)))
  {
    forall r | 0 <= r < |s.rooms|
      ensures t in s.rooms[r].members <==> Spot(s.threads[t].requests) == Some(s.rooms[r].key)
    {
      assert s.registry[s.rooms[r].key] == r;
    }
  }

  /** A sender that has stopped is still a member of some room exactly when it had not left
      the room it joined last. */
  lemma StaysAfterQuit(run: Run, t: Id)
    requires IsRun(run) && t in Final(run).threads
    requires Final(run).threads[t].kind == Sender && Final(run).threads[t].pc.Stopped?
    ensures (exists r :: 0 <= r < |Final(run).rooms| && t in Final(run).rooms[r].members) <==>
            Spot(Final(run).threads[t].requests).Some?
  {
    MembershipRefined(run, t);
    Reachable(run);
    var s, spot := Final(run), Spot(Final(run).threads[t].requests);
    if spot.Some? {
      assert t in s.rooms[s.registry[spot.value]].members;
    }
  }

  /** What makes a line a step of a waiting sender: it must parse to something defined, and
      a leave dereferences a null room pointer exactly when no join came before it. */
  lemma LeaveSafeIffJoined(run: Run, t: Id, got: Parsed)
    requires IsRun(run) && t in Final(run).threads
    requires Final(run).threads[t].kind == Sender && Final(run).threads[t].pc.Recv?
    ensures var requests := Final(run).threads[t].requests;
            Enabled(Final(run), t, Receive(got)) <==>
            !got.Undefined? &&
            (ToRequest(got).Leave? ==> exists i :: 0 <= i < |requests| && requests[i].Join?)
  {
    Reachable(run);
    TakesIffJoined(Final(run), t, got);
  }

  lemma TakesIffJoined(s: State, t: Id, got: Parsed)
    requires Grounded(s) && t in s.threads && s.threads[t].kind == Sender && s.threads[t].pc.Recv?
    ensures var requests := s.threads[t].requests;
            Enabled(s, t, Receive(got)) <==>
            !got.Undefined? &&
            (ToRequest(got).Leave? ==> exists i :: 0 <= i < |requests| && requests[i].Join?)
  {
    AskedIsKey(s, t);
    AskedIffJoined(s.threads[t].requests);
  }

  /** No user is ever a member of two rooms. */
  lemma SingleRoom(run: Run, u: Id, r: nat, q: nat)
    requires IsRun(run) && r < |Final(run).rooms| && q < |Final(run).rooms|
    requires u in Final(run).rooms[r].members && u in Final(run).rooms[q].members
    ensures r == q && u in Final(run).threads && Final(run).threads[u].room == Some(r)
  {
    Reachable(run);
    var s := Final(run);
    assert u in s.users;
    assert HistoryOf(s, u);
    MemberMeansJoined(s, u, r);
    MemberMeansJoined(s, u, q);
  }

  /** The unlocked member_exists answer still holds when the room lock is taken, and all
      through the broadcast or up to the removal it led to. */
  lemma CheckIsStable(run: Run, t: Id)
    requires IsRun(run) && t in Final(run).threads
    requires var pc := Final(run).threads[t].pc;
             Casting(pc) || (pc.Section? && (pc.work.Cast? || (pc.work.Remove? && pc.stage != Done)))
    ensures HasRoom(Final(run), Final(run).threads[t]) && Joined(Final(run), t)
  {
    Reachable(run);
    var s := Final(run);
    assert ThreadShape(s, t) && HistoryOf(s, t);
    assert s.threads[t].room.Some? && MemberOnlyOf(s, t, s.threads[t].room);
  }

  /** Only a user's own thread changes its memberships. */
  lemma OwnMembershipOnly(run: Run, i: nat, u: Id, r: nat)
    requires IsRun(run) && i < |run.steps| && u != run.steps[i].thread && r < |run.states[i].rooms|
    ensures r < |run.states[i + 1].rooms|
    ensures u in run.states[i + 1].rooms[r].members <==> u in run.states[i].rooms[r].members
  {
    var step, s, s' := run.steps[i], run.states[i], run.states[i + 1];
    AlwaysInv(run, i);
    StepFramed(s, step.thread, step.action);
    assert RoomFramed(s.rooms[r], s'.rooms[r], step.thread);
    assert u in s'.rooms[r].members <==> u in s'.rooms[r].members - {step.thread};
  }

  // ---- queue contents ----

  /** `clean` means what its comment says. */
  lemma {:induction false} CleanExactly(run: Run, n: nat)
    requires IsRun(run) && n <= |run.steps|
    ensures run.states[n].clean <==> forall i :: 0 <= i < n ==> !BringsDelivery(run.steps[i].action)
  {
    if n > 0 {
      CleanExactly(run, n - 1);
      assert Follows(run.states[n - 1], run.steps[n - 1], run.states[n]);
    }
  }

  /** On a run in which no client sends the tag "delivery", every queued message has exactly
      three fields and no newline. */
  lemma QueuesWellFormed(run: Run, u: Id, i: nat)
    requires IsRun(run) && u in Final(run).users && i < |Final(run).users[u].messages|
    ensures Final(run).users[u].messages[i].tag == TAG_DELIVERY
    ensures (forall k :: 0 <= k < |run.steps| ==> !BringsDelivery(run.steps[k].action)) ==>
            WellFormed(Final(run).users[u].messages[i])
  {
    Reachable(run);
    CleanExactly(run, |run.steps|);
    assert UserOk(Final(run).users[u], Final(run).clean);
  }

  /** The error branch of the receiver's loop is never taken: a receiver that has joined
      never stops, and never sends an error. */
  lemma ErrorBranchUnreachable(run: Run, v: Id)
    requires IsRun(run) && IsReceiver(Final(run), v) && Joined(Final(run), v)
    ensures var th := Final(run).threads[v];
            && !th.pc.Stopped? && !(th.pc.Reply? && th.pc.next.ThenStop?)
            && (forall i :: 0 <= i < |th.replies| ==> th.replies[i].tag == TAG_OK)
            && (th.pc.Section? && th.pc.work.Pop? && th.pc.work.hand.Some? ==>
                  th.pc.work.hand.value.tag == TAG_DELIVERY)
  {
    Reachable(run);
    var s := Final(run);
    assert HistoryOf(s, v) && PcOk(s.threads[v].pc, s.clean);
    JoinedReceiver(s, v);
  }

  lemma JoinedReceiver(s: State, v: Id)
    requires IsReceiver(s, v) && Joined(s, v) && HistoryOf(s, v) && PcOk(s.threads[v].pc, s.clean)
    ensures var th := s.threads[v];
            && !th.pc.Stopped? && !(th.pc.Reply? && th.pc.next.ThenStop?)
            && (forall i :: 0 <= i < |th.replies| ==> th.replies[i].tag == TAG_OK)
            && (th.pc.Section? && th.pc.work.Pop? && th.pc.work.hand.Some? ==>
                  th.pc.work.hand.value.tag == TAG_DELIVERY)
  {
    assert !MemberOnlyOf(s, v, None);
  }

  // ---- the registry ----

  ghost predicate Grown(s: State, s': State, name: string) {
    && |s.rooms| <= |s'.rooms|
    && (name in s.registry ==> name in s'.registry && s'.registry[name] == s.registry[name])
    && (forall r :: 0 <= r < |s.rooms| ==> s'.rooms[r].key == s.rooms[r].key && s.rooms[r].log <= s'.rooms[r].log)
  }

  lemma StepGrows(s: State, t: Id, a: Action, name: string)
    requires Shape(s) && Enabled(s, t, a)
    ensures Grown(s, Apply(s, t, a), name)
  {
    StepFramed(s, t, a);
    assert forall r :: 0 <= r < |s.rooms| ==> RoomFramed(s.rooms[r], Apply(s, t, a).rooms[r], t);
  }

  lemma GrownTwice(s: State, s1: State, s2: State, name: string)
    requires Grown(s, s1, name) && Grown(s1, s2, name)
    ensures Grown(s, s2, name)
  {
  }

  /** The registry only grows and never rebinds a name; rooms keep their keys, logs only grow. */
  lemma {:induction false} RegistryGrows(run: Run, m: nat, n: nat, name: string)
    requires IsRun(run) && m <= n <= |run.steps|
    ensures Grown(run.states[m], run.states[n], name)
  {
    if m < n {
      RegistryGrows(run, m, n - 1, name);
      AlwaysInv(run, n - 1);
      StepGrows(run.states[n - 1], run.steps[n - 1].thread, run.steps[n - 1].action, name);
      GrownTwice(run.states[m], run.states[n - 1], run.states[n], name);
    }
  }

  /** Not between receiving a join and completing its lookup. */
  predicate NotLookingUp(th: Thread) {
    !(th.pc.Section? && (th.pc.work.Drop? || (th.pc.work.Find? && th.pc.stage != Done)))
  }

  /** Two threads hold the same Room exactly when they last asked for the same name. */
  lemma SameRoomIffSameName(run: Run, t: Id, u: Id)
    requires IsRun(run) && t in Final(run).threads && u in Final(run).threads
    requires NotLookingUp(Final(run).threads[t]) && NotLookingUp(Final(run).threads[u])
    ensures Final(run).threads[t].room == Final(run).threads[u].room <==>
            Asked(Final(run).threads[t].requests) == Asked(Final(run).threads[u].requests)
  {
    Reachable(run);
    var s := Final(run);
    AskedIsKey(s, t);
    AskedIsKey(s, u);
  }

  lemma AskedIsKey(s: State, t: Id)
    requires Grounded(s) && t in s.threads && NotLookingUp(s.threads[t])
    ensures KeyOf(s, s.threads[t]) == Asked(s.threads[t].requests)
    ensures s.threads[t].room.Some? <==> KeyOf(s, s.threads[t]).Some?
    ensures s.threads[t].room.Some? ==> s.registry[KeyOf(s, s.threads[t]).value] == s.threads[t].room.value
  {
    assert ThreadShape(s, t) && HistoryOf(s, t);
  }

  /** Although a broadcast overwrites the room's name, the text it delivers is the same
      function of key, sender and message whatever broadcasts came before. */
  lemma TextIndependentOfHistory(run: Run, r: nat, username: string, text: string)
    requires IsRun(run) && r < |Final(run).rooms|
    ensures Delivery(Final(run).rooms[r].name, username, text) ==
            Delivery(Final(run).rooms[r].key, username, text)
  {
    Reachable(run);
  }
}
