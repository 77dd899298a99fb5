/** The sender protocol as the client sees it: an automaton whose state is the room the
    sender is in, if any. It knows nothing of threads, locks or room objects. */
module Session {
  import opened Text
  import opened Protocol

  /** Where the requests so far have put the sender: the name of its room, or nowhere. */
  function Spot(requests: seq<Request>): Option<string> {
    if requests == [] then None
    else
      match requests[|requests| - 1]
      case Join(name) => Some(name)
      case Leave => None
      case _ => Spot(requests[..|requests| - 1])
  }

  /** The name asked for last. */
  function Asked(requests: seq<Request>): Option<string> {
    if requests == [] then None
    else if requests[|requests| - 1].Join? then Some(requests[|requests| - 1].name)
    else Asked(requests[..|requests| - 1])
  }

  /** In front of request `i` the last join or leave is a join of `key`. */
  ghost predicate InRoomAt(requests: seq<Request>, i: nat, key: string)
    requires i <= |requests|
  {
    exists j :: 0 <= j < i && requests[j] == Join(key) &&
                forall m :: j < m < i ==> !requests[m].Join? && !requests[m].Leave?
  }

  lemma {:induction false} SpotMeans(requests: seq<Request>, i: nat, key: string)
    requires i <= |requests|
    ensures Spot(requests[..i]) == Some(key) <==> InRoomAt(requests, i, key)
  {
    if i > 0 {
      SpotMeans(requests, i - 1, key);
      LastOfPrefix(requests, i);
      InRoomMore(requests, i - 1, key);
    }
  }

  lemma InRoomMore(requests: seq<Request>, i: nat, key: string)
    requires i < |requests|
    ensures InRoomAt(requests, i + 1, key) <==>
            requests[i] == Join(key) ||
            (InRoomAt(requests, i, key) && !requests[i].Join? && !requests[i].Leave?)
  {
    if InRoomAt(requests, i, key) && !requests[i].Join? && !requests[i].Leave? {
      var j :| 0 <= j < i && requests[j] == Join(key) &&
               forall m :: j < m < i ==> !requests[m].Join? && !requests[m].Leave?;
    }
  }

  /** In front of request `i` the last join is one of `name`. */
  ghost predicate AskedAt(requests: seq<Request>, i: nat, name: string)
    requires i <= |requests|
  {
    exists j :: 0 <= j < i && requests[j] == Join(name) && forall m :: j < m < i ==> !requests[m].Join?
  }

  lemma {:induction false} AskedMeans(requests: seq<Request>, i: nat, name: string)
    requires i <= |requests|
    ensures Asked(requests[..i]) == Some(name) <==> AskedAt(requests, i, name)
  {
    if i > 0 {
      AskedMeans(requests, i - 1, name);
      LastOfPrefix(requests, i);
      AskedMore(requests, i - 1, name);
    }
  }

  lemma AskedMore(requests: seq<Request>, i: nat, name: string)
    requires i < |requests|
    ensures AskedAt(requests, i + 1, name) <==>
            requests[i] == Join(name) || (AskedAt(requests, i, name) && !requests[i].Join?)
  {
    if AskedAt(requests, i, name) && !requests[i].Join? {
      var j :| 0 <= j < i && requests[j] == Join(name) && forall m :: j < m < i ==> !requests[m].Join?;
    }
  }

  lemma LastOfPrefix(requests: seq<Request>, i: nat)
    requires 0 < i <= |requests|
    ensures requests[..i][..i - 1] == requests[..i - 1] && requests[..i][i - 1] == requests[i - 1]
    ensures |requests[..i]| == i
  {
  }

  predicate Ends(request: Request) {
    request.Quit? || request.Garbled?
  }

  /** How many requests of a session are read: up to and including the first that ends it. */
  function ReadFrom(requests: seq<Request>, i: nat): (n: nat)
    requires i <= |requests|
    ensures i <= n <= |requests|
    decreases |requests| - i
  {
    if i == |requests| then i
    else if Ends(requests[i]) then i + 1
    else ReadFrom(requests, i + 1)
  }

  /** From request `i` on no leave comes before the first join. */
  predicate LeavesSafe(requests: seq<Request>, i: nat)
    requires i <= |requests|
    decreases |requests| - i
  {
    i == |requests| ||
    ((requests[i].Leave? ==> Asked(requests[..i]).Some?) && LeavesSafe(requests, i + 1))
  }

  lemma {:induction false} LeavesSafeExactly(requests: seq<Request>, i: nat)
    requires i <= |requests|
    ensures LeavesSafe(requests, i) <==>
            forall k :: i <= k < |requests| && requests[k].Leave? ==> exists j :: 0 <= j < k && requests[j].Join?
    decreases |requests| - i
  {
    if i < |requests| {
      LeavesSafeExactly(requests, i + 1);
      AskedIffJoined(requests[..i]);
      assert (exists j :: 0 <= j < i && requests[..i][j].Join?) <==> (exists j :: 0 <= j < i && requests[j].Join?);
    }
  }

  function Read(requests: seq<Request>): seq<Request> {
    requests[..ReadFrom(requests, 0)]
  }

  lemma {:induction false} ReadExactly(requests: seq<Request>, i: nat)
    requires i <= |requests|
    ensures forall k :: i <= k < ReadFrom(requests, i) - 1 ==> !requests[k].Quit? && !requests[k].Garbled?
    ensures ReadFrom(requests, i) < |requests| ==>
              i < ReadFrom(requests, i) &&
              (requests[ReadFrom(requests, i) - 1].Quit? || requests[ReadFrom(requests, i) - 1].Garbled?)
    decreases |requests| - i
  {
    if i < |requests| && !Ends(requests[i]) {
      ReadExactly(requests, i + 1);
    }
  }

  /** "ok" exactly when the request takes effect. */
  function ReplyTo(spot: Option<string>, request: Request): Message {
    match request
    case Garbled => RECEIVE_ERROR
    case Quit => QUIT_DONE
    case Join(_) => JOIN_DONE
    case Leave => if spot.Some? then LEAVE_DONE else LEAVE_REFUSED
    case Sendall(_) => if spot.Some? then SENDALL_DONE else SENDALL_REFUSED
  }

  function Replies(requests: seq<Request>): (replies: seq<Message>)
    ensures |replies| == |requests|
  {
    if requests == [] then []
    else
      var front := requests[..|requests| - 1];
      Replies(front) + [ReplyTo(Spot(front), requests[|requests| - 1])]
  }

  /** The texts the requests broadcast in the room called `key`. */
  function Accepted(requests: seq<Request>, key: string): seq<string> {
    if requests == [] then []
    else
      var front, last := requests[..|requests| - 1], requests[|requests| - 1];
      Accepted(front, key) + if last.Sendall? && Spot(front) == Some(key) then [last.text] else []
  }

  /** A name is asked for exactly when some join was among the requests. */
  lemma {:induction false} AskedIffJoined(requests: seq<Request>)
    ensures Asked(requests).Some? <==> exists i :: 0 <= i < |requests| && requests[i].Join?
  {
    if requests != [] {
      var front := requests[..|requests| - 1];
      AskedIffJoined(front);
      if exists i :: 0 <= i < |requests| && requests[i].Join? {
        var i :| 0 <= i < |requests| && requests[i].Join?;
        if i < |front| {
          assert front[i].Join?;
        }
      }
    }
  }

  predicate AcceptedAt(requests: seq<Request>, key: string, i: nat) {
    i < |requests| && requests[i].Sendall? && Spot(requests[..i]) == Some(key)
  }

  /** The accepted texts are those of the sendalls sent while in the room, each once, in order. */
  lemma AcceptedExactly(requests: seq<Request>, key: string) returns (at: seq<nat>)
    ensures Increasing(at) && |Accepted(requests, key)| == |at|
    ensures forall n :: 0 <= n < |at| ==>
              at[n] < |requests| && requests[at[n]] == Sendall(Accepted(requests, key)[n]) &&
              InRoomAt(requests, at[n], key)
    ensures forall i :: 0 <= i < |requests| && requests[i].Sendall? && InRoomAt(requests, i, key) ==> i in at
  {
    var p := (i: nat) => AcceptedAt(requests, key, i);
    at := Where(p, |requests|);
    WhereExactly(p, |requests|);
    AcceptedIsWhere(requests, key, p, |requests|);
    assert requests[..|requests|] == requests;
    forall i | 0 <= i < |requests|
      ensures Spot(requests[..i]) == Some(key) <==> InRoomAt(requests, i, key)
    {
      SpotMeans(requests, i, key);
    }
  }

  lemma {:induction false} AcceptedIsWhere(requests: seq<Request>, key: string, p: nat -> bool, n: nat)
    requires n <= |requests| && forall i: nat :: p(i) <==> AcceptedAt(requests, key, i)
    ensures |Accepted(requests[..n], key)| == |Where(p, n)|
    ensures forall k :: 0 <= k < |Where(p, n)| ==>
              Where(p, n)[k] < |requests| && requests[Where(p, n)[k]] == Sendall(Accepted(requests[..n], key)[k])
  {
    if n > 0 {
      AcceptedIsWhere(requests, key, p, n - 1);
      assert requests[..n][..n - 1] == requests[..n - 1];
      assert p(n - 1) <==> AcceptedAt(requests, key, n - 1);
    }
  }

  /** The answers, letter by letter. */
  lemma ReplyExactly(spot: Option<string>, request: Request)
    ensures ReplyTo(spot, request) ==
            match request
            case Garbled => Message("err", "Receive error")
            case Quit => Message("ok", "Quit successful")
            case Join(_) => Message("ok", "Join successful")
            case Leave =>
              if spot.Some? then Message("ok", "Leave successful")
              else Message("err", "Leave unsuccessful, user isn't in the room")
            case Sendall(_) =>
              if spot.Some? then Message("ok", "Sendall successful")
              else Message("err", "Sendall unsuccessful, user isn't in a room")
  {
  }
}
