/** A thread that is at work gets done with it when the others pause: whatever it holds, in at
    most finitely many steps of its own it is back at its receive or its wait, or stopped,
    with no lock held. */
module Completion {
  import opened Text
  import opened Machine
  import opened Invariant
  import opened Semaphores
  import opened Deadlock
  import opened ExactDelivery
  import opened Theorems

  /** Nothing to do before a line, a message or never. */
  predicate AtRest(pc: Pc) {
    pc.Recv? || pc.Wait? || pc.Stopped?
  }

  ghost predicate OnlyHolder(s: State, t: Id) {
    forall l :: l in s.owner ==> s.owner[l] == t
  }

  // ---- how far a thread is from rest ----

  function Inner(stage: Stage): nat {
    match stage
    case Want => 3
    case Held => 2
    case Done => 1
  }

  function Outer(pc: Pc): nat {
    match pc
    case Section(stage, work) =>
      (match work
       case Drop(_) => 9
       case Find(_) => 8
       case Add => 7
       case Cast(_) => if stage == Done then 4 else 6
       case Push(_, _, _, _) => 5
       case Remove => 4
       case Pop(_, _) => 4)
    case Visit(_, _) => 5
    case Post(_, _, _, _) => 5
    case Reply(_, _) => 3
    case Deliver(_) => 3
    case _ => 0
  }

  function StepsLeft(pc: Pc): nat {
    match pc
    case Section(stage, work) =>
      if work.Push? then (if stage == Want then 4 else if stage == Held then 3 else 1) else Inner(stage)
    case Visit(_, _) => 5
    case Post(_, _, _, _) => 2
    case _ => 0
  }

  function VisitedBy(pc: Pc): set<Id> {
    match pc
    case Visit(_, visited) => visited
    case Post(_, visited, _, _) => visited
    case Section(_, work) => if work.Push? then work.visited else {}
    case _ => {}
  }

  /** The members that the loop of broadcast_message has still to get past. */
  function ToVisit(s: State, th: Thread): set<Id> {
    if Casting(th.pc) && HasRoom(s, th) then s.rooms[th.room.value].members - VisitedBy(th.pc) else {}
  }

  ghost predicate Nearer(s: State, s': State, t: Id)
    requires t in s.threads && t in s'.threads
  {
    var th, th' := s.threads[t], s'.threads[t];
    || Outer(th'.pc) < Outer(th.pc)
    || (Outer(th'.pc) == Outer(th.pc) && ToVisit(s', th') < ToVisit(s, th))
    || (Outer(th'.pc) == Outer(th.pc) && ToVisit(s', th') == ToVisit(s, th) && StepsLeft(th'.pc) < StepsLeft(th.pc))
  }

  // ---- each step brings it nearer ----

  lemma ReplyNearer(s: State, t: Id, a: Action)
    requires t in s.threads && Enabled(s, t, a) && (a.Respond? || a.HandOver?)
    ensures Nearer(s, Apply(s, t, a), t)
  {
  }

  lemma AcquireNearer(s: State, t: Id)
    requires t in s.threads && Enabled(s, t, Acquire)
    ensures Nearer(s, Apply(s, t, Acquire), t)
  {
  }

  lemma ReleaseNearer(s: State, t: Id)
    requires t in s.threads && Enabled(s, t, Release) && TargetOk(s, s.threads[t].pc)
    requires s.threads[t].pc.work.Push? ==>
               HasRoom(s, s.threads[t]) && s.threads[t].pc.work.user in s.rooms[s.threads[t].room.value].members
    ensures Nearer(s, Apply(s, t, Release), t)
  {
    var th := s.threads[t];
    if th.pc.work.Push? {
      OneFewer(s.rooms[th.room.value].members, th.pc.work.visited, th.pc.work.user);
    }
  }

  lemma OneFewer(members: set<Id>, visited: set<Id>, user: Id)
    requires user in members - visited
    ensures members - (visited + {user}) < members - visited
  {
  }

  lemma SectionNearer(s: State, t: Id, a: Action)
    requires t in s.threads && Enabled(s, t, a)
    requires a.Erase? || a.Lookup? || a.Insert? || a.PopFront? || a.Begin? || a.Finish?
    requires InSection(s.threads[t]) || a.Finish?
    ensures Nearer(s, Apply(s, t, a), t)
  {
  }

  lemma PushNearer(s: State, t: Id, a: Action)
    requires t in s.threads && Enabled(s, t, a) && (a.PushBack? || a.SemPost?)
    ensures Nearer(s, Apply(s, t, a), t)
  {
  }

  lemma VisitNearer(s: State, t: Id, user: Id)
    requires t in s.threads && Enabled(s, t, VisitNext(user))
    ensures Nearer(s, Apply(s, t, VisitNext(user)), t)
  {
    var th := s.threads[t];
    OneFewer(s.rooms[th.room.value].members, th.pc.visited, user);
  }

  /** Any step of a thread at work. */
  lemma StepNearer(s: State, t: Id, a: Action)
    requires t in s.threads && ThreadShape(s, t) && CastRight(s, t, s.threads[t])
    requires !AtRest(s.threads[t].pc) && Enabled(s, t, a)
    ensures t in Apply(s, t, a).threads && Nearer(s, Apply(s, t, a), t)
    ensures !a.Login? && !a.Receive?
  {
    if a.Respond? || a.HandOver? { ReplyNearer(s, t, a); }
    else if a.Acquire? { AcquireNearer(s, t); }
    else if a.Release? { PushReleased(s, t); ReleaseNearer(s, t); }
    else { WorkNearer(s, t, a); }
  }

  lemma WorkNearer(s: State, t: Id, a: Action)
    requires t in s.threads && Enabled(s, t, a) && !OnWire(a) && !OnLock(a) && !AtRest(s.threads[t].pc)
    ensures t in Apply(s, t, a).threads && Nearer(s, Apply(s, t, a), t)
  {
    if a.PushBack? || a.SemPost? { PushNearer(s, t, a); }
    else if a.VisitNext? { VisitNearer(s, t, a.user); }
    else { SectionNearer(s, t, a); }
  }

  lemma PushReleased(s: State, t: Id)
    requires t in s.threads && CastRight(s, t, s.threads[t]) && Enabled(s, t, Release)
    ensures s.threads[t].pc.work.Push? ==>
              HasRoom(s, s.threads[t]) && s.threads[t].pc.work.user in s.rooms[s.threads[t].room.value].members
  {
  }

  // ---- there is always a step ----

  /** A lock taken by nobody but the thread itself is no obstacle. */
  lemma NotBlocked(s: State, t: Id)
    requires Basic(s) && OnlyHolder(s, t) && t in s.threads
    ensures !Blocked(s, t)
  {
    if Blocked(s, t) {
      var l := Wants(t, s.threads[t]).value;
      assert HeldBy(s, t, l);
      LockOrder(s, t, l);
    }
  }

  lemma NextAction(s: State, t: Id) returns (a: Action)
    requires Inv(s) && OnlyHolder(s, t) && t in s.threads && !AtRest(s.threads[t].pc)
    ensures Enabled(s, t, a)
  {
    NotBlocked(s, t);
    Progress(s, t);
    a :| Enabled(s, t, a);
  }

  lemma StillOnly(s: State, t: Id, a: Action)
    requires OnlyHolder(s, t) && Enabled(s, t, a)
    ensures OnlyHolder(Apply(s, t, a), t)
  {
  }

  lemma OwnStep(s: State, t: Id) returns (a: Action, s': State)
    requires Inv(s) && OnlyHolder(s, t) && t in s.threads && !AtRest(s.threads[t].pc)
    ensures Enabled(s, t, a) && s' == Apply(s, t, a) && !a.Login? && !a.Receive?
    ensures Inv(s') && OnlyHolder(s', t) && t in s'.threads && Nearer(s, s', t)
  {
    a := NextAction(s, t);
    s' := Apply(s, t, a);
    assert ThreadShape(s, t) && CastRight(s, t, s.threads[t]);
    StepNearer(s, t, a);
    StillOnly(s, t, a);
    StepInv(s, t, a);
  }

  /** In any reachable state in which nobody else holds a lock, a thread's own steps bring it
      to rest, and then no lock is taken. */
  lemma ComesToRest(run: Run, t: Id)
    requires IsRun(run) && t in Final(run).threads && OnlyHolder(Final(run), t)
    ensures exists actions :: Silent(actions) && Perform(Final(run), t, actions).Some? &&
                              AllAtRest(Perform(Final(run), t, actions).value, t)
  {
    Reachable(run);
    var actions, s' := RunToRest(Final(run), t);
    RestHoldsNothing(s', t);
    assert AllAtRest(s', t);
  }

  ghost predicate AllAtRest(s: State, t: Id) {
    t in s.threads && AtRest(s.threads[t].pc) && s.owner == map[]
  }

  lemma {:induction false} RunToRest(s: State, t: Id) returns (actions: seq<Action>, s': State)
    requires Inv(s) && OnlyHolder(s, t) && t in s.threads
    ensures Perform(s, t, actions) == Some(s') && Silent(actions)
    ensures Inv(s') && OnlyHolder(s', t) && t in s'.threads && AtRest(s'.threads[t].pc)
    decreases Outer(s.threads[t].pc), ToVisit(s, s.threads[t]), StepsLeft(s.threads[t].pc)
  {
    if AtRest(s.threads[t].pc) {
      actions, s' := [], s;
    } else {
      var a, s1 := OwnStep(s, t);
      var rest;
      rest, s' := RunToRest(s1, t);
      actions := FirstThen(s, t, a, s1, rest);
    }
  }

  lemma FirstThen(s: State, t: Id, a: Action, s1: State, rest: seq<Action>) returns (actions: seq<Action>)
    requires Enabled(s, t, a) && s1 == Apply(s, t, a) && !a.Login? && !a.Receive? && Silent(rest)
    ensures Perform(s, t, actions) == Perform(s1, t, rest) && Silent(actions)
  {
    actions := [a] + rest;
    assert actions[1..] == rest;
  }

  /** At rest a thread holds nothing, so then no lock is taken. */
  lemma RestHoldsNothing(s: State, t: Id)
    requires Locked(s) && OnlyHolder(s, t) && t in s.threads && AtRest(s.threads[t].pc)
    ensures s.owner == map[]
  {
    assert forall l :: l in s.owner ==> HeldBy(s, t, l);
  }
}
