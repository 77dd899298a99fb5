/** A server that is left to one client at a time: from any reachable state in which no lock is
    taken, the thread that takes a line comes to rest again with no lock taken, and nothing
    of the others has changed but what it broadcast. */
module Serving {
  import opened Text
  import opened Protocol
  import opened Machine
  import opened Invariant
  import opened Theorems
  import opened Completion
  import opened Requests

  /** The run goes on with the given steps of one thread. */
  ghost predicate Extends(run: Run, longer: Run) {
    && IsRun(run) && IsRun(longer) && |run.steps| <= |longer.steps|
    && forall i :: 0 <= i < |run.states| ==> longer.states[i] == run.states[i]
  }

  lemma OneLonger(run: Run, step: Step, s': State) returns (longer: Run)
    requires IsRun(run) && Follows(Final(run), step, s')
    ensures Extends(run, longer) && Final(longer) == s' && |longer.steps| == |run.steps| + 1
  {
    longer := Run(run.states + [s'], run.steps + [step]);
    forall i | 0 <= i < |longer.steps|
      ensures Follows(longer.states[i], longer.steps[i], longer.states[i + 1])
    {
      if i < |run.steps| {
        assert Follows(run.states[i], run.steps[i], run.states[i + 1]);
      }
    }
  }

  lemma {:induction false} ManyLonger(run: Run, t: Id, actions: seq<Action>) returns (longer: Run)
    requires IsRun(run) && Perform(Final(run), t, actions).Some? && Silent(actions)
    ensures Extends(run, longer) && Some(Final(longer)) == Perform(Final(run), t, actions)
    decreases |actions|
  {
    if actions == [] {
      longer := run;
    } else {
      var once := OneLonger(run, Step(t, actions[0], ""), Apply(Final(run), t, actions[0]));
      SilentRest(actions);
      longer := ManyLonger(once, t, actions[1..]);
      assert forall i :: 0 <= i < |run.states| ==> longer.states[i] == once.states[i] == run.states[i];
    }
  }

  lemma SilentRest(actions: seq<Action>)
    requires actions != [] && Silent(actions)
    ensures Silent(actions[1..]) && !actions[0].Login? && !actions[0].Receive?
  {
    assert forall i :: 1 <= i < |actions| ==> actions[i] == actions[1..][i - 1];
  }

  // ---- what silent steps leave alone ----

  /** Another thread is as it was, in the same rooms, and the stepping thread has taken no line. */
  ghost predicate Untouched(s: State, s': State, t: Id) {
    && t in s.threads && t in s'.threads
    && s'.threads[t].requests == s.threads[t].requests
    && (forall u :: u in s'.threads <==> u in s.threads)
    && (forall u :: u in s.threads && u != t ==> s'.threads[u] == s.threads[u])
    && |s.rooms| <= |s'.rooms|
    && (forall u, r :: u != t && 0 <= r < |s.rooms| ==> (u in s'.rooms[r].members <==> u in s.rooms[r].members))
  }

  lemma UntouchedTwice(s: State, s1: State, s2: State, t: Id)
    requires Untouched(s, s1, t) && Untouched(s1, s2, t)
    ensures Untouched(s, s2, t)
  {
  }

  lemma SilentStep(s: State, t: Id, a: Action)
    requires Shape(s) && t in s.threads && Enabled(s, t, a) && !a.Login? && !a.Receive?
    ensures Untouched(s, Apply(s, t, a), t)
  {
    var s' := Apply(s, t, a);
    StepFramed(s, t, a);
    RequestsStay(s, t, a);
    forall u, r | u != t && 0 <= r < |s.rooms|
      ensures u in s'.rooms[r].members <==> u in s.rooms[r].members
    {
      assert RoomFramed(s.rooms[r], s'.rooms[r], t);
      assert u in s'.rooms[r].members <==> u in s'.rooms[r].members - {t};
    }
  }

  lemma RequestsStay(s: State, t: Id, a: Action)
    requires t in s.threads && Enabled(s, t, a) && !a.Login? && !a.Receive?
    ensures Apply(s, t, a).threads[t].requests == s.threads[t].requests
  {
  }

  lemma {:induction false} SilentSteps(s: State, t: Id, actions: seq<Action>)
    requires Inv(s) && t in s.threads && Perform(s, t, actions).Some? && Silent(actions)
    ensures Untouched(s, Perform(s, t, actions).value, t)
    decreases |actions|
  {
    if actions != [] {
      SilentRest(actions);
      var s1 := Apply(s, t, actions[0]);
      SilentStep(s, t, actions[0]);
      StepInv(s, t, actions[0]);
      SilentSteps(s1, t, actions[1..]);
      UntouchedTwice(s, s1, Perform(s1, t, actions[1..]).value, t);
    }
  }

  ghost predicate StillTheSame(s: State, s': State) {
    forall u: Id, line: string :: u in s.threads && BeganWith(s, u, line) ==> u in s'.threads && BeganWith(s', u, line)
  }

  lemma {:induction false} SilentBegan(s: State, t: Id, actions: seq<Action>, u: Id, line: string)
    requires Inv(s) && t in s.threads && Perform(s, t, actions).Some? && Silent(actions)
    requires u in s.threads && BeganWith(s, u, line)
    ensures u in Perform(s, t, actions).value.threads && BeganWith(Perform(s, t, actions).value, u, line)
    decreases |actions|
  {
    if actions != [] {
      SilentRest(actions);
      StillBegan(s, t, actions[0], u, line);
      StepInv(s, t, actions[0]);
      SilentStep(s, t, actions[0]);
      SilentBegan(Apply(s, t, actions[0]), t, actions[1..], u, line);
    }
  }

  lemma SilentNames(s: State, t: Id, actions: seq<Action>, s': State)
    requires Inv(s) && t in s.threads && Perform(s, t, actions) == Some(s') && Silent(actions)
    ensures StillTheSame(s, s')
  {
    forall u: Id, line: string | u in s.threads && BeganWith(s, u, line)
      ensures u in s'.threads && BeganWith(s', u, line)
    {
      SilentBegan(s, t, actions, u, line);
    }
  }

  // ---- the logs ----

  ghost predicate LogGrown(log: seq<Entry>, log': seq<Entry>, t: Id) {
    log <= log' && forall i :: |log| <= i < |log'| ==> log'[i].sender == t
  }

  /** Nothing is added to a log but what the thread itself broadcasts. */
  ghost predicate LogsGrown(s: State, s': State, t: Id) {
    && |s.rooms| <= |s'.rooms|
    && forall r :: 0 <= r < |s.rooms| ==> LogGrown(s.rooms[r].log, s'.rooms[r].log, t)
  }

  lemma LogsGrownTwice(s: State, s1: State, s2: State, t: Id)
    requires LogsGrown(s, s1, t) && LogsGrown(s1, s2, t)
    ensures LogsGrown(s, s2, t)
  {
    forall r | 0 <= r < |s.rooms|
      ensures LogGrown(s.rooms[r].log, s2.rooms[r].log, t)
    {
      LogGrownTwice(s.rooms[r].log, s1.rooms[r].log, s2.rooms[r].log, t);
    }
  }

  lemma LogGrownTwice(log: seq<Entry>, log1: seq<Entry>, log2: seq<Entry>, t: Id)
    requires LogGrown(log, log1, t) && LogGrown(log1, log2, t)
    ensures LogGrown(log, log2, t)
  {
  }

  lemma LogsGrow(s: State, t: Id, a: Action)
    requires Shape(s) && Enabled(s, t, a)
    ensures LogsGrown(s, Apply(s, t, a), t)
  {
    StepFramed(s, t, a);
    assert forall r :: 0 <= r < |s.rooms| ==> RoomFramed(s.rooms[r], Apply(s, t, a).rooms[r], t);
  }

  lemma {:induction false} SilentLogs(s: State, t: Id, actions: seq<Action>)
    requires Inv(s) && t in s.threads && Perform(s, t, actions).Some? && Silent(actions)
    ensures LogsGrown(s, Perform(s, t, actions).value, t)
    decreases |actions|
  {
    if actions != [] {
      SilentRest(actions);
      var s1 := Apply(s, t, actions[0]);
      LogsGrow(s, t, actions[0]);
      StepInv(s, t, actions[0]);
      SilentLogs(s1, t, actions[1..]);
      LogsGrownTwice(s, s1, Perform(s1, t, actions[1..]).value, t);
    }
  }

  /** A receiver that has not yet entered its room, or has entered it with its log as it is. */
  predicate NewIn(s: State, v: Id) {
    v in s.threads &&
    var th := s.threads[v];
    th.kind == Receiver &&
    (|| (th.pc.Section? && (th.pc.work.Find? || (th.pc.work.Add? && th.pc.stage != Done)))
     || (th.pc.Reply? && th.pc.next.ThenStop?) || th.pc.Stopped?
     || (!th.pc.Recv? && !(th.pc.Reply? && th.pc.next.ThenRecv?) &&
         HasRoom(s, th) && th.joinAt == |s.rooms[th.room.value].log|))
  }

  lemma StillNewIn(s: State, v: Id, a: Action)
    requires NewIn(s, v) && ThreadShape(s, v) && Enabled(s, v, a) && !a.Login? && !a.Receive?
    ensures NewIn(Apply(s, v, a), v)
  {
  }

  lemma {:induction false} SilentNewIn(s: State, v: Id, actions: seq<Action>)
    requires Inv(s) && NewIn(s, v) && Perform(s, v, actions).Some? && Silent(actions)
    ensures NewIn(Perform(s, v, actions).value, v)
    decreases |actions|
  {
    if actions != [] {
      SilentRest(actions);
      assert ThreadShape(s, v);
      StillNewIn(s, v, actions[0]);
      StepInv(s, v, actions[0]);
      SilentNewIn(Apply(s, v, actions[0]), v, actions[1..]);
    }
  }

  lemma LineMakesNew(s: State, v: Id, a: Action)
    requires Enabled(s, v, a) && a.Receive? && s.threads[v].kind == Receiver
    ensures NewIn(Apply(s, v, a), v)
  {
  }

  // ---- one line ----

  lemma WithinOwn(s: State, t: Id, a: Action)
    requires s.owner == map[] && Enabled(s, t, a) && (a.Login? || a.Receive?)
    ensures OnlyHolder(Apply(s, t, a), t) && t in Apply(s, t, a).threads
  {
  }

  /** The thread takes the line and comes to rest. */
  lemma TakeLine(run: Run, t: Id, a: Action, line: string) returns (first: State, actions: seq<Action>, longer: Run)
    requires IsRun(run) && Final(run).owner == map[] && (a.Login? || a.Receive?)
    requires HeardRight(Step(t, a, line)) && Enabled(Final(run), t, a)
    ensures first == Apply(Final(run), t, a) && Inv(first) && t in first.threads
    ensures Extends(run, longer) && Final(longer).owner == map[]
    ensures Silent(actions) && Perform(first, t, actions) == Some(Final(longer))
    ensures t in Final(longer).threads && AtRest(Final(longer).threads[t].pc)
  {
    Reachable(run);
    first := Apply(Final(run), t, a);
    HeardGotOk(Step(t, a, line));
    StepInv(Final(run), t, a);
    WithinOwn(Final(run), t, a);
    var once := OneLonger(run, Step(t, a, line), first);
    var last;
    actions, last := RunToRest(first, t);
    longer := ManyLonger(once, t, actions);
    RestHoldsNothing(last, t);
    assert forall i :: 0 <= i < |run.states| ==> longer.states[i] == once.states[i] == run.states[i];
  }

  /** What is known of the others after a line of thread `t`. */
  ghost predicate OthersAsTheyWere(s: State, s': State, t: Id) {
    && (forall u :: u in s'.threads <==> u in s.threads || u == t)
    && (forall u :: u in s.threads && u != t ==> s'.threads[u] == s.threads[u])
    && |s.rooms| <= |s'.rooms|
    && (forall u, r :: u != t && 0 <= r < |s.rooms| ==> (u in s'.rooms[r].members <==> u in s.rooms[r].members))
  }

  lemma LineOnlyOwn(s: State, t: Id, a: Action)
    requires Enabled(s, t, a) && (a.Login? || a.Receive?)
    ensures OthersAsTheyWere(s, Apply(s, t, a), t) && Apply(s, t, a).rooms == s.rooms
  {
  }

  lemma ThenUntouched(s: State, s1: State, s2: State, t: Id)
    requires OthersAsTheyWere(s, s1, t) && t in s1.threads && Untouched(s1, s2, t)
    ensures OthersAsTheyWere(s, s2, t)
  {
  }

  /** A first line. */
  lemma ServeLogin(run: Run, t: Id, line: string) returns (longer: Run)
    requires IsRun(run) && Final(run).owner == map[] && t !in Final(run).threads && !Parse(line).Undefined?
    ensures Extends(run, longer) && Final(longer).owner == map[]
    ensures t in Final(longer).threads && AtRest(Final(longer).threads[t].pc)
    ensures BeganWith(Final(longer), t, line) && Final(longer).threads[t].requests == []
    ensures OthersAsTheyWere(Final(run), Final(longer), t)
    ensures LogsGrown(Final(run), Final(longer), t) && StillTheSame(Final(run), Final(longer))
  {
    var a := Login(Parse(line));
    var first, actions;
    first, actions, longer := TakeLine(run, t, a, line);
    Reachable(run);
    LineOnlyOwn(Final(run), t, a);
    LoginBegins(Final(run), t, line);
    SilentSteps(first, t, actions);
    SilentBegan(first, t, actions, t, line);
    ThenUntouched(Final(run), first, Final(longer), t);
    LineAndLogs(Final(run), t, a, first, actions, Final(longer));
    LineAndNames(Final(run), t, a, first, actions, Final(longer));
  }

  lemma LineAndLogs(s: State, t: Id, a: Action, first: State, actions: seq<Action>, s': State)
    requires Inv(s) && Enabled(s, t, a) && first == Apply(s, t, a) && Inv(first) && t in first.threads
    requires Silent(actions) && Perform(first, t, actions) == Some(s')
    ensures LogsGrown(s, s', t)
  {
    LogsGrow(s, t, a);
    SilentLogs(first, t, actions);
    LogsGrownTwice(s, first, s', t);
  }

  lemma LineAndNames(s: State, t: Id, a: Action, first: State, actions: seq<Action>, s': State)
    requires Inv(s) && Enabled(s, t, a) && first == Apply(s, t, a) && Inv(first) && t in first.threads
    requires Silent(actions) && Perform(first, t, actions) == Some(s')
    ensures StillTheSame(s, s')
  {
    SilentNames(first, t, actions, s');
    forall u: Id, line: string | u in s.threads && BeganWith(s, u, line)
      ensures u in s'.threads && BeganWith(s', u, line)
    {
      StillBegan(s, t, a, u, line);
      assert BeganWith(first, u, line);
    }
  }

  lemma LoginBegins(s: State, t: Id, line: string)
    requires Shape(s) && Enabled(s, t, Login(Parse(line)))
    ensures var s' := Apply(s, t, Login(Parse(line)));
            t in s'.threads && BeganWith(s', t, line) && s'.threads[t].requests == []
  {
    BeginsWith(s, Step(t, Login(Parse(line)), line), Apply(s, t, Login(Parse(line))), t);
  }

  /** A further line. */
  lemma ServeLine(run: Run, t: Id, line: string) returns (longer: Run)
    requires IsRun(run) && Final(run).owner == map[] && t in Final(run).threads
    requires Enabled(Final(run), t, Receive(Parse(line)))
    ensures Extends(run, longer) && Final(longer).owner == map[]
    ensures t in Final(longer).threads && AtRest(Final(longer).threads[t].pc)
    ensures Final(longer).threads[t].requests == Final(run).threads[t].requests + [ToRequest(Parse(line))]
    ensures OthersAsTheyWere(Final(run), Final(longer), t)
    ensures LogsGrown(Final(run), Final(longer), t) && StillTheSame(Final(run), Final(longer))
    ensures Final(run).threads[t].kind == Receiver ==> NewIn(Final(longer), t)
  {
    var a := Receive(Parse(line));
    var first, actions;
    first, actions, longer := TakeLine(run, t, a, line);
    Reachable(run);
    LineOnlyOwn(Final(run), t, a);
    LineRequested(Final(run), t, a);
    SilentSteps(first, t, actions);
    ThenUntouched(Final(run), first, Final(longer), t);
    LineAndLogs(Final(run), t, a, first, actions, Final(longer));
    LineAndNames(Final(run), t, a, first, actions, Final(longer));
    if Final(run).threads[t].kind == Receiver {
      LineMakesNew(Final(run), t, a);
      SilentNewIn(first, t, actions);
    }
  }

  /** Any line a sender's thread can take, in any reachable state without a taken lock: it is
      answered, and has the effect it should have. */
  lemma EveryLineServed(run: Run, t: Id, line: string)
    requires IsRun(run) && Final(run).owner == map[] && Ready(Final(run), t)
    requires Enabled(Final(run), t, Receive(Parse(line)))
    ensures exists longer :: Extends(run, longer) && Final(longer).owner == map[] &&
                             Served(Final(run), Final(longer), t, ToRequest(Parse(line)))
  {
    var longer := ServeRequest(run, t, line);
    assert Served(Final(run), Final(longer), t, ToRequest(Parse(line)));
  }

  ghost predicate Served(s: State, s': State, t: Id, request: Request) {
    && OneRequest(s, s', t, request) && Answered(s, s', t, request)
    && Moved(s, s', t, request) && Said(s, s', t, request) && OthersAsTheyWere(s, s', t)
  }

  lemma ServeRequest(run: Run, t: Id, line: string) returns (longer: Run)
    requires IsRun(run) && Final(run).owner == map[] && Ready(Final(run), t)
    requires Enabled(Final(run), t, Receive(Parse(line)))
    ensures Extends(run, longer) && Final(longer).owner == map[]
    ensures OneRequest(Final(run), Final(longer), t, ToRequest(Parse(line)))
    ensures Answered(Final(run), Final(longer), t, ToRequest(Parse(line)))
    ensures Moved(Final(run), Final(longer), t, ToRequest(Parse(line)))
    ensures Said(Final(run), Final(longer), t, ToRequest(Parse(line)))
    ensures OthersAsTheyWere(Final(run), Final(longer), t)
    ensures LogsGrown(Final(run), Final(longer), t) && StillTheSame(Final(run), Final(longer))
  {
    longer := ServeLine(run, t, line);
    Reachable(run);
    StillSender(run, longer, t);
    AnsweredExactly(longer, |run.steps|, |longer.steps|, t, ToRequest(Parse(line)));
  }

  lemma StillSender(run: Run, longer: Run, t: Id)
    requires Extends(run, longer) && Ready(Final(run), t) && StillTheSame(Final(run), Final(longer))
    requires t in Final(longer).threads && AtRest(Final(longer).threads[t].pc)
    ensures Ready(Final(longer), t)
  {
    LoginExactly(run, |run.steps|, t);
    var k :| 0 <= k < |run.steps| && BeganWith(Final(run), t, run.steps[k].line);
    assert BeganWith(Final(longer), t, run.steps[k].line);
    Reachable(longer);
    assert ThreadShape(Final(longer), t);
  }

  lemma LineRequested(s: State, t: Id, a: Action)
    requires Enabled(s, t, a) && a.Receive? && t in s.threads
    ensures Apply(s, t, a).threads[t].requests == s.threads[t].requests + [ToRequest(a.got)]
  {
  }
}
