/** What a sequence of sends puts on the wire is what a sequence of receives takes off it:
    exactly the messages sent, as long as every encoding fits the line limit. */
module Framing {
  import opened Text
  import opened Protocol
  import opened Rio
  import opened RioReader
  import opened Connection

  /** The fields of a message contain none of the characters the format gives a meaning to;
      a delivery carries three such fields, joined with colons. */
  predicate Clean(m: Message) {
    && Plain(m.tag)
    && (if m.tag == TAG_DELIVERY then WellFormed(m) && '\0' !in m.data
        else m.tag == TAG_QUIT || m.tag == TAG_LEAVE || Plain(m.data))
  }

  /** No newline or NUL in what is sent, though perhaps colons: the message is one line. */
  predicate OneLine(m: Message) {
    && '\n' !in m.tag && '\0' !in m.tag
    && (m.tag == TAG_QUIT || m.tag == TAG_LEAVE || ('\n' !in m.data && '\0' !in m.data))
  }

  /** The message as the other side sees it: the newline stays in the data, and quit and
      leave say "bye". */
  function Seen(m: Message): Message {
    Message(m.tag, (if m.tag == TAG_QUIT || m.tag == TAG_LEAVE then "bye" else m.data) + "\n")
  }

  predicate Fits(m: Message) {
    |Encode(m)| <= LINE_LIMIT
  }

  lemma LineWire(m: Message)
    requires OneLine(m)
    ensures Wire(m) == Encode(m) && '\0' !in Encode(m)
    ensures Encode(m) == m.tag + ":" + Seen(m).data
    ensures forall i :: 0 <= i < |Encode(m)| - 1 ==> Encode(m)[i] != '\n'
  {
    assert '\0' !in Encode(m);
    BeforeUnique(Encode(m), '\0', Encode(m));
  }

  /** What is written for any other message, letter by letter. */
  lemma WireExactly(m: Message)
    requires OneLine(m) && m.tag != "quit" && m.tag != "leave"
    ensures Wire(m) == m.tag + ":" + m.data + "\n"
  {
    LineWire(m);
  }

  lemma {:induction false} FieldCount(s: string)
    requires s != "" && s[|s| - 1] != ':'
    ensures |Split(s)| == Count(s, ':') + 1
    decreases |s|
  {
    var k := IndexFrom(s, ':', 0);
    if k == |s| {
      CountNone(s, ':');
      SplitOne(s);
    } else {
      var first, rest := s[..k], s[k + 1..];
      assert s == first + ":" + rest;
      FieldCount(rest);
      SplitCons(first, rest);
      CountConcat(first + ":", rest, ':');
      CountConcat(first, ":", ':');
      CountNone(first, ':');
      CountOne(':');
    }
  }

  lemma ParseTwoFields(tag: string, data: string)
    requires ':' !in tag && ':' !in data && data != "" && tag != TAG_DELIVERY
    requires '\0' !in tag && '\0' !in data
    ensures Parse(tag + ":" + data) == Received(Message(tag, data))
  {
    var line := tag + ":" + data;
    BeforeUnique(line, '\0', line);
    SplitCons(tag, data);
    SplitOne(data);
  }

  lemma ThreeFields(data: string)
    requires Count(data, ':') == 2 && data[|data| - 1] != ':'
    ensures |Split(data)| == 3
    ensures data == Split(data)[0] + ":" + Split(data)[1] + ":" + Split(data)[2]
  {
    FieldCount(data);
    SplitThenJoin(data);
    JoinThree(Split(data));
  }

  lemma ParseDelivery(tag: string, data: string)
    requires tag == TAG_DELIVERY && ':' !in tag && '\0' !in tag
    requires Count(data, ':') == 2 && data[|data| - 1] != ':' && '\0' !in data
    ensures Parse(tag + ":" + data) == Received(Message(tag, data))
  {
    var line, f := tag + ":" + data, Split(data);
    BeforeUnique(line, '\0', line);
    SplitCons(tag, data);
    ThreeFields(data);
    ParseFourFields(tag, f);
  }

  lemma ParseFourFields(tag: string, f: seq<string>)
    requires tag == TAG_DELIVERY && |f| == 3
    ensures ParseFields([tag] + f) == Received(Message(tag, f[0] + ":" + f[1] + ":" + f[2]))
  {
  }

  lemma ParseClean(m: Message)
    requires Clean(m)
    ensures Parse(Wire(m)) == Received(Seen(m))
  {
    LineWire(m);
    var data := Seen(m).data;
    if m.tag == TAG_DELIVERY {
      CountConcat(m.data, "\n", ':');
      CountNone("\n", ':');
      ParseDelivery(m.tag, data);
    } else {
      ParseTwoFields(m.tag, data);
    }
  }

  lemma JoinThree(f: seq<string>)
    requires |f| == 3
    ensures JoinFields(f) == f[0] + ":" + f[1] + ":" + f[2]
  {
    JoinCons(f[1], [f[2]]);
    assert f[1..] == [f[1]] + [f[2]];
    JoinCons(f[0], f[1..]);
    assert f == [f[0]] + f[1..];
    assert f[0] + ":" + (f[1] + ":" + f[2]) == f[0] + ":" + f[1] + ":" + f[2];
  }

  /** The line read is the message exactly when it fits. */
  lemma LineIsMessage(m: Message, rest: string)
    requires OneLine(m)
    ensures Fits(m) <==> Line(Wire(m) + rest) == Wire(m)
    ensures Fits(m) ==> AfterLine(Wire(m) + rest) == rest
    ensures !Fits(m) ==> Line(Wire(m) + rest) == Wire(m)[..LINE_LIMIT]
  {
    LineWire(m);
    var wire, stream := Wire(m), Wire(m) + rest;
    var n := if Fits(m) then |wire| else LINE_LIMIT;
    assert stream[..n] == wire[..n];
    LineLengthExact(stream, MAX_LEN, n);
  }

  /** A one-line message that fits arrives with its tag, whatever colons its data has. */
  lemma TagArrives(m: Message, rest: string)
    requires OneLine(m) && Fits(m) && ':' !in m.tag && m.tag != TAG_DELIVERY
    ensures Line(Wire(m) + rest) == Wire(m) && AfterLine(Wire(m) + rest) == rest
    ensures Parse(Wire(m)).Received? && Parse(Wire(m)).msg.tag == m.tag
  {
    LineIsMessage(m, rest);
    LineWire(m);
    BeforeUnique(Wire(m), '\0', Wire(m));
    SplitCons(m.tag, Seen(m).data);
    assert |Split(Seen(m).data)| > 0;
  }

  /** A line without a newline yields data without one. */
  lemma NoNewlineInData(line: string)
    requires '\n' !in line && Parse(line).Received?
    ensures '\n' !in Parse(line).msg.data
  {
    var text := CString(line);
    assert forall i :: 0 <= i < |text| ==> text[i] == line[i];
    assert '\n' !in text;
    SplitFields(text);
    assert forall i :: 0 <= i < |Split(text)| ==> '\n' !in Split(text)[i];
  }

  /** One receive against one send. The documented limit of 255 bytes is one too many. */
  lemma SendThenReceive(m: Message, rest: string)
    requires Clean(m)
    ensures Fits(m) <==> Parse(Line(Wire(m) + rest)) == Received(Seen(m))
  {
    LineIsMessage(m, rest);
    ParseClean(m);
    if !Fits(m) {
      LineWire(m);
      var line := Line(Wire(m) + rest);
      assert '\n' !in line;
      if Parse(line).Received? {
        NoNewlineInData(line);
        assert Seen(m).data[|Seen(m).data| - 1] == '\n';
      }
    }
  }

  function WireAll(ms: seq<Message>): string {
    if ms == [] then "" else Wire(ms[0]) + WireAll(ms[1..])
  }

  /** What receiving until end of file yields. */
  function ReceiveAll(stream: string): seq<Parsed>
    decreases |stream|
  {
    if stream == "" then []
    else assert LineLength(stream, MAX_LEN) > 0; [Parse(Line(stream))] + ReceiveAll(AfterLine(stream))
  }

  function SeenAll(ms: seq<Message>): seq<Parsed> {
    seq(|ms|, i requires 0 <= i < |ms| => Received(Seen(ms[i])))
  }

  lemma ReceiveAllCons(m: Message, rest: string)
    requires Clean(m)
    ensures ReceiveAll(Wire(m) + rest) ==
            [Parse(Line(Wire(m) + rest))] + ReceiveAll(AfterLine(Wire(m) + rest))
  {
    LineWire(m);
  }

  lemma SameHeadAndTail<T>(a: T, x: seq<T>, b: T, y: seq<T>)
    ensures [a] + x == [b] + y <==> a == b && x == y
  {
    assert ([a] + x)[0] == a && ([b] + y)[0] == b;
    assert ([a] + x)[1..] == x && ([b] + y)[1..] == y;
  }

  predicate AllFit(ms: seq<Message>) {
    forall i :: 0 <= i < |ms| ==> Fits(ms[i])
  }

  lemma AllFitCons(ms: seq<Message>)
    requires ms != []
    ensures AllFit(ms) <==> Fits(ms[0]) && AllFit(ms[1..])
  {
    assert forall i :: 1 <= i < |ms| ==> ms[i] == ms[1..][i - 1];
  }

  lemma SeenAllCons(ms: seq<Message>)
    requires ms != []
    ensures SeenAll(ms) == [Received(Seen(ms[0]))] + SeenAll(ms[1..])
  {
  }

  /** One message in front of a stream. */
  lemma OneMore(m: Message, rest: string, seen: seq<Parsed>)
    requires Clean(m)
    ensures ReceiveAll(Wire(m) + rest) == [Received(Seen(m))] + seen <==> Fits(m) && ReceiveAll(rest) == seen
  {
    var stream := Wire(m) + rest;
    SendThenReceive(m, rest);
    LineIsMessage(m, rest);
    ReceiveAllCons(m, rest);
    SameHeadAndTail(Parse(Line(stream)), ReceiveAll(AfterLine(stream)), Received(Seen(m)), seen);
  }

  /** End to end: the receives return the messages sent, one for one and in order, exactly
      when every one of them fits. */
  lemma {:induction false} FramingExact(ms: seq<Message>)
    requires forall i :: 0 <= i < |ms| ==> Clean(ms[i])
    ensures ReceiveAll(WireAll(ms)) == SeenAll(ms) <==> AllFit(ms)
  {
    if ms != [] {
      FramingExact(ms[1..]);
      OneMore(ms[0], WireAll(ms[1..]), SeenAll(ms[1..]));
      SeenAllCons(ms);
      AllFitCons(ms);
    }
  }

  // ---- through the connection objects ----

  /** The guard of `send`. It also measures the data of quit and leave, although it sends
      "bye" in its place. */
  predicate Taken(m: Message) {
    |CString(m.data)| <= MAX_LEN
  }

  function Put(m: Message): string {
    if Taken(m) then Wire(m) else ""
  }

  /** What sending a list of messages puts on the wire. */
  function Sent(ms: seq<Message>): string {
    if ms == [] then "" else Sent(ms[..|ms| - 1]) + Put(ms[|ms| - 1])
  }

  predicate Exchangeable(ms: seq<Message>) {
    forall i :: 0 <= i < |ms| ==> Clean(ms[i]) && Fits(ms[i]) && Taken(ms[i])
  }

  /** For every schedule of short and interrupted writes and reads: what one side sends the
      other receives, message for message. */
  method Exchange(ms: seq<Message>, writePlan: seq<Outcome>, readPlan: seq<Outcome>) returns (received: seq<Parsed>)
    requires Failed !in writePlan && Failed !in readPlan && Exchangeable(ms)
    ensures received == SeenAll(ms)
  {
    var wire := SendEach(ms, writePlan);
    SentExact(ms);
    received := ReceiveEach(wire, readPlan, |ms|);
  }

  method SendEach(ms: seq<Message>, writePlan: seq<Outcome>) returns (wire: string)
    requires Failed !in writePlan
    ensures wire == Sent(ms)
  {
    var near := new Descriptor("", [], writePlan);
    var conn := new Connection(near);
    for i := 0 to |ms|
      invariant conn.Valid() && conn.fd == near
      invariant near.outgoing == Sent(ms[..i]) && Failed !in near.writePlan
    {
      assert ms[..i + 1][..i] == ms[..i];
      SendOne(conn, ms[i]);
    }
    assert ms[..|ms|] == ms;
    wire := near.outgoing;
  }

  method SendOne(conn: Connection, m: Message)
    requires conn.Valid() && Failed !in conn.fd.writePlan
    modifies conn`lastResult, conn.fd`outgoing, conn.fd`writePlan
    ensures conn.Valid() && Failed !in conn.fd.writePlan
    ensures conn.fd.outgoing == old(conn.fd.outgoing) + Put(m)
  {
    var _ := conn.Send(m);
    FailurePlanned(old(conn.fd.writePlan), conn.fd.writePlan, conn.lastResult == EofOrError);
  }

  /** Receiving to the end of a stream that holds `n` lines, none of them undefined. */
  method ReceiveEach(wire: string, readPlan: seq<Outcome>, n: nat) returns (results: seq<Parsed>)
    requires Failed !in readPlan && |ReceiveAll(wire)| == n
    requires forall i :: 0 <= i < n ==> !ReceiveAll(wire)[i].Undefined?
    ensures results == ReceiveAll(wire)
  {
    var far := new Descriptor(wire, readPlan, []);
    var conn := new Connection(far);
    ghost var all := ReceiveAll(wire);
    results := [];
    for i := 0 to n
      invariant conn.Valid() && conn.fd == far && Failed !in far.readPlan
      invariant fresh(conn) && fresh(conn.rio) && fresh(conn.rio.buf) && fresh(far)
      invariant |results| == i && all == results + ReceiveAll(conn.rio.stream)
    {
      ghost var stream := conn.rio.stream;
      FirstResult(stream);
      assert all[i] == Parse(Line(stream));
      var result := ReceiveOne(conn);
      Associate(results, [result], ReceiveAll(conn.rio.stream));
      results := results + [result];
    }
    assert all == results;
  }

  lemma FirstResult(stream: string)
    ensures ReceiveAll(stream) != [] ==>
              stream != "" && ReceiveAll(stream) == [Parse(Line(stream))] + ReceiveAll(AfterLine(stream))
  {
  }

  method ReceiveOne(conn: Connection) returns (result: Parsed)
    requires conn.Valid() && Failed !in conn.fd.readPlan
    requires conn.rio.stream != "" && !Parse(Line(conn.rio.stream)).Undefined?
    modifies conn, conn.rio`pos, conn.rio`cnt, conn.rio`stream, conn.rio.buf, conn.fd`incoming, conn.fd`readPlan
    ensures conn.Valid() && Failed !in conn.fd.readPlan
    ensures result == Parse(Line(old(conn.rio.stream))) && conn.rio.stream == AfterLine(old(conn.rio.stream))
  {
    var ok, m := conn.Receive();
    FailurePlanned(old(conn.fd.readPlan), conn.fd.readPlan, conn.lastResult == EofOrError);
    result := if ok then Received(m) else Rejected(m.tag);
  }

  lemma {:induction false} WireAllAppend(ms: seq<Message>, m: Message)
    ensures WireAll(ms + [m]) == WireAll(ms) + Wire(m)
  {
    if ms == [] {
      assert [m][1..] == [];
    } else {
      WireAllAppend(ms[1..], m);
      assert (ms + [m])[1..] == ms[1..] + [m];
      Associate(Wire(ms[0]), WireAll(ms[1..]), Wire(m));
    }
  }

  lemma WireAllLast(ms: seq<Message>)
    requires ms != []
    ensures WireAll(ms) == WireAll(ms[..|ms| - 1]) + Wire(ms[|ms| - 1])
  {
    FrontAndLast(ms);
    WireAllAppend(ms[..|ms| - 1], ms[|ms| - 1]);
  }

  lemma SentLast(ms: seq<Message>)
    requires ms != [] && Taken(ms[|ms| - 1])
    ensures Sent(ms) == Sent(ms[..|ms| - 1]) + Wire(ms[|ms| - 1])
  {
  }

  lemma {:induction false} SentIsWireAll(ms: seq<Message>)
    requires forall i :: 0 <= i < |ms| ==> Taken(ms[i])
    ensures Sent(ms) == WireAll(ms)
  {
    if ms != [] {
      SentIsWireAll(ms[..|ms| - 1]);
      SentLast(ms);
      WireAllLast(ms);
    }
  }

  // ---- messages that `send` turns down ----

  /** How many of the results are whole lines. */
  function Ended(results: seq<Parsed>): nat {
    if results == [] then 0
    else Ended(results[1..]) + if results[0].Received? && '\n' in results[0].msg.data then 1 else 0
  }

  lemma WholeLineHasNewline(line: string)
    ensures Parse(line).Received? && '\n' in Parse(line).msg.data ==> Count(line, '\n') >= 1
  {
    CountNone(line, '\n');
    if Parse(line).Received? && '\n' !in line {
      NoNewlineInData(line);
    }
  }

  /** No more whole lines are received than there are newlines. */
  lemma {:induction false} EndedBound(stream: string)
    ensures Ended(ReceiveAll(stream)) <= Count(stream, '\n')
    decreases |stream|
  {
    if stream != "" {
      var line, rest := Line(stream), AfterLine(stream);
      assert LineLength(stream, MAX_LEN) > 0;
      EndedBound(rest);
      WholeLineHasNewline(line);
      CountTwoParts(stream, LineLength(stream, MAX_LEN), '\n');
      EndedCons(Parse(line), ReceiveAll(rest));
    }
  }

  lemma CountTwoParts(s: string, n: nat, c: char)
    requires n <= |s|
    ensures Count(s, c) == Count(s[..n], c) + Count(s[n..], c)
  {
    CountConcat(s[..n], s[n..], c);
    assert s[..n] + s[n..] == s;
  }

  lemma EndedCons(p: Parsed, results: seq<Parsed>)
    ensures Ended([p] + results) == Ended(results) + if p.Received? && '\n' in p.msg.data then 1 else 0
  {
    assert ([p] + results)[1..] == results;
  }

  lemma {:induction false} EndedSeen(ms: seq<Message>)
    ensures Ended(SeenAll(ms)) == |ms|
  {
    if ms != [] {
      SeenAllCons(ms);
      EndedSeen(ms[1..]);
      EndedCons(Received(Seen(ms[0])), SeenAll(ms[1..]));
      assert Seen(ms[0]).data[|Seen(ms[0]).data| - 1] == '\n';
    }
  }

  /** Each accepted message puts one newline on the wire. */
  lemma {:induction false} SentNewlines(ms: seq<Message>)
    requires forall i :: 0 <= i < |ms| ==> Clean(ms[i])
    ensures Count(Sent(ms), '\n') == TakenOf(ms)
  {
    if ms != [] {
      SentNewlines(ms[..|ms| - 1]);
      LastNewline(ms);
    }
  }

  function TakenOf(ms: seq<Message>): nat {
    if ms == [] then 0 else TakenOf(ms[..|ms| - 1]) + if Taken(ms[|ms| - 1]) then 1 else 0
  }

  lemma {:induction false} AllTaken(ms: seq<Message>)
    ensures TakenOf(ms) <= |ms|
    ensures TakenOf(ms) == |ms| <==> forall i :: 0 <= i < |ms| ==> Taken(ms[i])
  {
    if ms != [] {
      AllTaken(ms[..|ms| - 1]);
      assert forall i :: 0 <= i < |ms| - 1 ==> ms[..|ms| - 1][i] == ms[i];
    }
  }

  lemma LastNewline(ms: seq<Message>)
    requires ms != [] && Clean(ms[|ms| - 1])
    ensures Count(Sent(ms), '\n') ==
            Count(Sent(ms[..|ms| - 1]), '\n') + if Taken(ms[|ms| - 1]) then 1 else 0
  {
    CountConcat(Sent(ms[..|ms| - 1]), Put(ms[|ms| - 1]), '\n');
    OneNewline(ms[|ms| - 1]);
  }

  lemma OneNewline(m: Message)
    requires Clean(m)
    ensures Count(Wire(m), '\n') == 1
    ensures Count(Put(m), '\n') == if Taken(m) then 1 else 0
  {
    LineWire(m);
    var text := Encode(m)[..|Encode(m)| - 1];
    assert Encode(m) == text + "\n";
    CountConcat(text, "\n", '\n');
    CountNone(text, '\n');
    CountOne('\n');
  }

  lemma RejectedDiffer(ms: seq<Message>)
    requires (forall i :: 0 <= i < |ms| ==> Clean(ms[i])) && TakenOf(ms) < |ms|
    ensures ReceiveAll(Sent(ms)) != SeenAll(ms)
  {
    SentNewlines(ms);
    EndedBound(Sent(ms));
    EndedSeen(ms);
  }

  /** Over the guard of `send`: what is received is what was passed to `send` exactly when
      every message is accepted and fits. */
  lemma SentExact(ms: seq<Message>)
    requires forall i :: 0 <= i < |ms| ==> Clean(ms[i])
    ensures ReceiveAll(Sent(ms)) == SeenAll(ms) <==> Exchangeable(ms)
  {
    AllTaken(ms);
    if TakenOf(ms) < |ms| {
      RejectedDiffer(ms);
    } else {
      SentIsWireAll(ms);
      FramingExact(ms);
    }
  }

  /** A request is one line to the other side exactly when it fits. */
  lemma OneLineIffFits(m: Message)
    requires OneLine(m)
    ensures |ReceiveAll(Wire(m))| == 1 <==> Fits(m)
  {
    LineIsMessage(m, "");
    LineWire(m);
    assert Wire(m) + "" == Wire(m);
    if !Fits(m) {
      assert AfterLine(Wire(m)) != "";
      assert LineLength(AfterLine(Wire(m)), MAX_LEN) > 0;
    }
  }

  lemma LineIsLine(stream: string)
    ensures IsLine(Line(stream))
  {
    LineLengthExact(stream, MAX_LEN, LineLength(stream, MAX_LEN));
  }

  /** What becomes of any line that is read off a stream when its data is broadcast: a
      well-formed delivery exactly when the line's tag is not "delivery". */
  lemma DeliveryOfLine(stream: string, room: string, username: string)
    requires Parse(Line(stream)).Received? && ':' !in RemoveNewline(room) && ':' !in RemoveNewline(username)
    ensures WellFormed(Delivery(room, username, Parse(Line(stream)).msg.data)) <==>
            Parse(Line(stream)).msg.tag != TAG_DELIVERY
  {
    LineIsLine(stream);
    ColonIffDelivery(Line(stream));
    DeliveryWellFormed(room, username, Parse(Line(stream)).msg.data);
  }

  /** A message of exactly the documented length is not received as sent. */
  lemma DocumentedLimitTooLong()
    ensures exists m: Message :: Clean(m) && |Encode(m)| == MAX_LEN && ReceiveAll(WireAll([m])) != SeenAll([m])
  {
    var m := Message(TAG_SENDALL, seq(246, i => 'x'));
    FramingExact([m]);
    assert |Encode(m)| == MAX_LEN;
  }
}
