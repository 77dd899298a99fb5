/** From the server's threads to the receiving client's screen: what a client prints of the
    deliveries its thread was handed, over any run. */
module Screen {
  import opened Text
  import opened Protocol
  import opened Connection
  import opened RioReader
  import opened Machine
  import opened DeliveryStep
  import opened Theorems
  import opened LogContents
  import opened Framing
  import opened Receiver

  /** What the client prints for the lines it receives, one after the other. Where the
      program has no defined behaviour, nothing. */
  function Prints(results: seq<Parsed>): string {
    if results == [] then "" else Printout(results[0]) + Prints(results[1..])
  }

  lemma PrintsCons(p: Parsed, results: seq<Parsed>)
    ensures Prints([p] + results) == Printout(p) + Prints(results)
  {
    assert ([p] + results)[1..] == results;
  }

  function Shown(e: Entry): string {
    RemoveNewline(e.username) + ": " + RemoveNewline(e.text) + "\n"
  }

  /** One line for each of the given broadcasts. */
  function ShownAt(log: seq<Entry>, at: seq<nat>): string
    requires forall i :: 0 <= i < |at| ==> at[i] < |log|
  {
    if at == [] then "" else Shown(log[at[0]]) + ShownAt(log, at[1..])
  }

  /** The messages are deliveries of the given entries. */
  ghost predicate Delivers(ms: seq<Message>, key: string, log: seq<Entry>, at: seq<nat>) {
    && |ms| == |at|
    && forall i :: 0 <= i < |at| ==>
         at[i] < |log| && ms[i] == Delivery(key, log[at[i]].username, log[at[i]].text)
  }

  // ---- deliveries that arrive ----

  /** The three fields of a well-formed delivery without NULs. */
  lemma DeliveryParts(room: string, username: string, text: string)
    requires WellFormed(Delivery(room, username, text)) && '\0' !in Delivery(room, username, text).data
    ensures Plain(RemoveNewline(room)) && Plain(RemoveNewline(username)) && Plain(RemoveNewline(text))
  {
    DeliveryWellFormed(room, username, text);
    WithinThree(RemoveNewline(room), RemoveNewline(username), RemoveNewline(text), '\0');
  }

  lemma WithinThree(r: string, u: string, t: string, c: char)
    ensures c in r || c in u || c in t ==> c in r + ":" + u + ":" + t
  {
  }

  lemma ShownWhenSeen(key: string, e: Entry)
    requires WellFormed(Delivery(key, e.username, e.text)) && '\0' !in Delivery(key, e.username, e.text).data
    ensures Printout(Received(Seen(Delivery(key, e.username, e.text)))) == Shown(e)
  {
    DeliveryParts(key, e.username, e.text);
    PrintedWhenSeen(RemoveNewline(key), RemoveNewline(e.username), RemoveNewline(e.text));
  }

  lemma {:induction false} PrintsSeen(ms: seq<Message>, key: string, log: seq<Entry>, at: seq<nat>)
    requires Delivers(ms, key, log, at)
    requires forall i :: 0 <= i < |ms| ==> WellFormed(ms[i]) && '\0' !in ms[i].data
    ensures Prints(SeenAll(ms)) == ShownAt(log, at)
  {
    if ms != [] {
      PrintsSeen(ms[1..], key, log, at[1..]);
      SeenAllCons(ms);
      PrintsCons(Received(Seen(ms[0])), SeenAll(ms[1..]));
      ShownWhenSeen(key, log[at[0]]);
    }
  }

  // ---- counting the lines on the screen ----

  /** A delivery of whatever text: one line, no NUL, at least two colons. */
  predicate Handed(m: Message) {
    m.tag == TAG_DELIVERY && '\n' !in m.data && '\0' !in m.data && Count(m.data, ':') >= 2
  }

  /** A delivery that arrives as it should. */
  predicate Arrives(m: Message) {
    WellFormed(m) && Fits(m)
  }

  function ArrivingOf(ms: seq<Message>): nat {
    if ms == [] then 0 else One(Arrives(ms[0])) + ArrivingOf(ms[1..])
  }

  lemma {:induction false} AllArrive(ms: seq<Message>)
    ensures ArrivingOf(ms) <= |ms|
    ensures ArrivingOf(ms) == |ms| <==> forall i :: 0 <= i < |ms| ==> Arrives(ms[i])
  {
    if ms != [] {
      AllArrive(ms[1..]);
      assert forall i :: 1 <= i < |ms| ==> ms[i] == ms[1..][i - 1];
    }
  }

  function Newlines(s: string): nat {
    Count(s, '\n')
  }

  lemma NoNewlines(s: string)
    requires '\n' !in s
    ensures Newlines(s) == 0
  {
    CountNone(s, '\n');
  }

  lemma HandedOneLine(m: Message)
    requires Handed(m)
    ensures OneLine(m)
  {
    DeliveryTagPlain();
  }

  lemma DeliveryTagPlain()
    ensures Plain(TAG_DELIVERY) && TAG_DELIVERY != TAG_QUIT && TAG_DELIVERY != TAG_LEAVE
  {
  }

  /** A line without a newline prints none. */
  lemma CutLinePrints(line: string)
    requires '\n' !in line
    ensures Newlines(Printout(Parse(line))) == 0
  {
    if Parse(line).Received? {
      NoNewlineInData(line);
      NoNewlinePrinted(Parse(line));
    }
    NoNewlines(Printout(Parse(line)));
  }

  /** Eleven bytes are too few for a delivery that is printed. */
  lemma ShortLinePrintsNothing(line: string)
    requires |line| < 12
    ensures Printout(Parse(line)) == ""
  {
    var text := CString(line);
    if Parse(line).Received? && Parse(line).msg.tag == TAG_DELIVERY {
      var f := Split(text);
      SplitThenJoin(text);
      JoinLength(f);
      assert f[1] == f[2] == f[3] == "";
      SplitTwoColons();
    }
  }

  lemma JoinLength(f: seq<string>)
    requires |f| >= 4
    ensures |JoinFields(f)| >= |f[0]| + |f[1]| + |f[2]| + |f[3]| + 3
  {
    JoinFrom(f, 0);
    JoinFrom(f, 1);
    JoinFrom(f, 2);
    assert |JoinFields(f[3..])| >= |f[3]|;
    assert f[0..] == f;
  }

  lemma JoinFrom(f: seq<string>, i: nat)
    requires i + 1 < |f|
    ensures |JoinFields(f[i..])| == |f[i]| + 1 + |JoinFields(f[i + 1..])|
  {
    assert f[i..][1..] == f[i + 1..];
  }

  lemma SplitTwoColons()
    ensures |Split("" + ":" + "" + ":" + "")| <= 2
  {
    SplitCons("", "" + ":" + "");
    SplitCons("", "");
    assert "" + ":" + ("" + ":" + "") == "" + ":" + "" + ":" + "";
  }

  /** A delivery with a colon too many is cut short by the client, and so is its line. */
  lemma IllFormedPrints(m: Message)
    requires Handed(m) && !WellFormed(m)
    ensures Newlines(Printout(Parse(Wire(m)))) == 0
  {
    HandedOneLine(m);
    LineWire(m);
    var wire := Wire(m);
    BeforeUnique(wire, '\0', wire);
    FieldsOfHanded(m);
    InnerFields(wire, 0, '\n');
    FourInner(Split(wire));
    if Parse(wire).Received? {
      NoNewlinePrinted(Parse(wire));
    }
    NoNewlines(Printout(Parse(wire)));
  }

  lemma FieldsOfHanded(m: Message)
    requires Handed(m) && !WellFormed(m)
    ensures |Split(Encode(m))| > 4
  {
    HandedOneLine(m);
    LineWire(m);
    var front := m.tag + ":" + m.data;
    assert Encode(m) == front + "\n";
    CountConcat(front, "\n", ':');
    CountConcat(m.tag + ":", m.data, ':');
    CountConcat(m.tag, ":", ':');
    CountOne(':');
    FieldCount(Encode(m));
  }

  lemma FourInner(fields: seq<string>)
    requires |fields| > 4 && forall i :: 0 <= i < |fields| - 1 ==> '\n' !in fields[i]
    ensures ParseFields(fields).Received? ==> '\n' !in ParseFields(fields).msg.data
  {
  }

  /** A delivery that fits is one line; it puts a newline on the screen if it is well-formed. */
  lemma FittingPrints(key: string, e: Entry, rest: string)
    requires Handed(Delivery(key, e.username, e.text)) && Fits(Delivery(key, e.username, e.text))
    ensures var m := Delivery(key, e.username, e.text);
            Newlines(Prints(ReceiveAll(Wire(m) + rest))) == One(WellFormed(m)) + Newlines(Prints(ReceiveAll(rest)))
  {
    var m := Delivery(key, e.username, e.text);
    HandedOneLine(m);
    LineIsMessage(m, rest);
    OneReceived(Wire(m) + rest);
    PrintsCons(Parse(Wire(m)), ReceiveAll(rest));
    CountConcat(Printout(Parse(Wire(m))), Prints(ReceiveAll(rest)), '\n');
    if WellFormed(m) {
      WellFormedPrints(key, e);
    } else {
      IllFormedPrints(m);
    }
  }

  lemma WellFormedPrints(key: string, e: Entry)
    requires Handed(Delivery(key, e.username, e.text)) && WellFormed(Delivery(key, e.username, e.text))
    ensures Newlines(Printout(Parse(Wire(Delivery(key, e.username, e.text))))) == 1
  {
    DeliveryTagPlain();
    ParseClean(Delivery(key, e.username, e.text));
    ShownWhenSeen(key, e);
    ShownOnce(e);
  }

  lemma ShownOnce(e: Entry)
    ensures Newlines(Shown(e)) == 1
  {
    var line := RemoveNewline(e.username) + ": " + RemoveNewline(e.text);
    CountConcat(line, "\n", '\n');
    NoNewlines(line);
    CountOne('\n');
  }

  lemma OneReceived(stream: string)
    requires stream != ""
    ensures ReceiveAll(stream) == [Parse(Line(stream))] + ReceiveAll(AfterLine(stream))
  {
  }

  /** A delivery that does not fit is two lines to the client, and neither puts a newline
      on the screen. */
  lemma OverlongPrints(m: Message, rest: string)
    requires Handed(m) && Taken(m) && !Fits(m)
    ensures Newlines(Prints(ReceiveAll(Wire(m) + rest))) == Newlines(Prints(ReceiveAll(rest)))
  {
    var head, tail := Wire(m)[..LINE_LIMIT], Wire(m)[LINE_LIMIT..];
    OverlongLine(m);
    TwoReceived(Wire(m), rest);
    CutLinePrints(head);
    ShortLinePrintsNothing(tail);
    TwoPrinted(Parse(head), Parse(tail), ReceiveAll(rest));
  }

  lemma OverlongLine(m: Message)
    requires Handed(m) && Taken(m) && !Fits(m)
    ensures LINE_LIMIT < |Wire(m)| <= LINE_LIMIT + 11 && Wire(m)[|Wire(m)| - 1] == '\n' && IsLine(Wire(m))
    ensures '\n' !in Wire(m)[..LINE_LIMIT]
  {
    HandedOneLine(m);
    LineWire(m);
    TailLength(m);
  }

  lemma TwoReceived(wire: string, rest: string)
    requires LINE_LIMIT < |wire| <= LINE_LIMIT + 11 && wire[|wire| - 1] == '\n' && IsLine(wire)
    ensures ReceiveAll(wire + rest) ==
            [Parse(wire[..LINE_LIMIT])] + ([Parse(wire[LINE_LIMIT..])] + ReceiveAll(rest))
  {
    TailIsLine(wire, rest);
    OneReceived(wire + rest);
    OneReceived(wire[LINE_LIMIT..] + rest);
  }

  lemma TailLength(m: Message)
    requires Handed(m) && Taken(m)
    ensures |Wire(m)| <= LINE_LIMIT + 11
  {
    HandedOneLine(m);
    LineWire(m);
    PlainIsCString(m.data);
  }

  /** The rest of a message that has been cut is the next line. */
  lemma TailIsLine(wire: string, rest: string)
    requires LINE_LIMIT < |wire| <= LINE_LIMIT + 11 && wire[|wire| - 1] == '\n' && IsLine(wire)
    ensures Line(wire + rest) == wire[..LINE_LIMIT]
    ensures AfterLine(wire + rest) == wire[LINE_LIMIT..] + rest
    ensures Line(wire[LINE_LIMIT..] + rest) == wire[LINE_LIMIT..] && AfterLine(wire[LINE_LIMIT..] + rest) == rest
  {
    var stream, tail := wire + rest, wire[LINE_LIMIT..];
    assert stream[..LINE_LIMIT] == wire[..LINE_LIMIT] && stream[LINE_LIMIT..] == tail + rest;
    LineLengthExact(stream, MAX_LEN, LINE_LIMIT);
    assert forall i :: 0 <= i < |tail| ==> tail[i] == wire[LINE_LIMIT + i];
    EndedLine(tail, rest);
  }

  lemma EndedLine(line: string, rest: string)
    requires 0 < |line| <= LINE_LIMIT && line[|line| - 1] == '\n' && IsLine(line)
    ensures Line(line + rest) == line && AfterLine(line + rest) == rest
  {
    assert (line + rest)[..|line|] == line && (line + rest)[|line|..] == rest;
    LineLengthExact(line + rest, MAX_LEN, |line|);
  }

  lemma TwoPrinted(p: Parsed, q: Parsed, results: seq<Parsed>)
    requires Newlines(Printout(p)) == 0 && Printout(q) == ""
    ensures Newlines(Prints([p] + ([q] + results))) == Newlines(Prints(results))
  {
    PrintsCons(p, [q] + results);
    PrintsCons(q, results);
    assert "" + Prints(results) == Prints(results);
    CountConcat(Printout(p), Prints(results), '\n');
  }

  lemma {:induction false} SentCons(ms: seq<Message>)
    requires ms != []
    ensures Sent(ms) == Put(ms[0]) + Sent(ms[1..])
  {
    if |ms| == 1 {
      SentOne(ms);
    } else {
      SentCons(ms[..|ms| - 1]);
      FrontOfRest(ms);
      SentMore(ms);
      SentMore(ms[1..]);
      Associate(Put(ms[0]), Sent(ms[1..][..|ms| - 2]), Put(ms[|ms| - 1]));
    }
  }

  lemma SentOne(ms: seq<Message>)
    requires |ms| == 1
    ensures Sent(ms) == Put(ms[0]) + Sent(ms[1..])
  {
    SentMore(ms);
    assert ms[..0] == [] && ms[1..] == [];
    assert Sent(ms) == "" + Put(ms[0]) == Put(ms[0]) + "";
  }

  lemma SentMore(ms: seq<Message>)
    requires ms != []
    ensures Sent(ms) == Sent(ms[..|ms| - 1]) + Put(ms[|ms| - 1])
  {
  }

  lemma FrontOfRest<T>(s: seq<T>)
    requires |s| > 1
    ensures s[..|s| - 1][1..] == s[1..][..|s| - 2] && s[1..][|s| - 2] == s[|s| - 1] && s[..|s| - 1][0] == s[0]
  {
  }

  lemma OnePrinted(key: string, e: Entry, rest: string)
    requires Handed(Delivery(key, e.username, e.text))
    ensures var m := Delivery(key, e.username, e.text);
            Newlines(Prints(ReceiveAll(Put(m) + rest))) == One(Arrives(m)) + Newlines(Prints(ReceiveAll(rest)))
  {
    var m := Delivery(key, e.username, e.text);
    if Fits(m) {
      FitsIsTaken(m);
    }
    if !Taken(m) {
      assert Put(m) + rest == rest;
    } else if Fits(m) {
      FittingPrints(key, e, rest);
    } else {
      OverlongPrints(m, rest);
    }
  }

  lemma FitsIsTaken(m: Message)
    requires Handed(m) && Fits(m)
    ensures Taken(m)
  {
    HandedOneLine(m);
    PlainIsCString(m.data);
  }

  /** One line on the screen for each delivery that arrives. */
  lemma {:induction false} PrintedLines(ms: seq<Message>, key: string, log: seq<Entry>, at: seq<nat>)
    requires Delivers(ms, key, log, at) && forall i :: 0 <= i < |ms| ==> Handed(ms[i])
    ensures Newlines(Prints(ReceiveAll(Sent(ms)))) == ArrivingOf(ms)
  {
    if ms != [] {
      PrintedLines(ms[1..], key, log, at[1..]);
      SentCons(ms);
      OnePrinted(key, log[at[0]], Sent(ms[1..]));
    }
  }

  lemma {:induction false} ShownLines(log: seq<Entry>, at: seq<nat>)
    requires forall i :: 0 <= i < |at| ==> at[i] < |log|
    ensures Newlines(ShownAt(log, at)) == |at|
  {
    if at != [] {
      ShownLines(log, at[1..]);
      ShownOnce(log[at[0]]);
      CountConcat(Shown(log[at[0]]), ShownAt(log, at[1..]), '\n');
    }
  }

  /** The screen shows the broadcasts exactly when every one of their deliveries arrives. */
  lemma ScreenExact(ms: seq<Message>, key: string, log: seq<Entry>, at: seq<nat>)
    requires Delivers(ms, key, log, at) && forall i :: 0 <= i < |ms| ==> Handed(ms[i])
    ensures Prints(ReceiveAll(Sent(ms))) == ShownAt(log, at) <==> forall i :: 0 <= i < |ms| ==> Arrives(ms[i])
  {
    AllArrive(ms);
    if ArrivingOf(ms) < |ms| {
      PrintedLines(ms, key, log, at);
      ShownLines(log, at);
    } else {
      AllSeenWhenArriving(ms);
      PrintsSeen(ms, key, log, at);
    }
  }

  lemma AllSeenWhenArriving(ms: seq<Message>)
    requires forall i :: 0 <= i < |ms| ==> Handed(ms[i]) && Arrives(ms[i])
    ensures ReceiveAll(Sent(ms)) == SeenAll(ms)
  {
    forall i | 0 <= i < |ms|
      ensures Clean(ms[i]) && Fits(ms[i]) && Taken(ms[i])
    {
      DeliveryTagPlain();
      FitsIsTaken(ms[i]);
    }
    SentExact(ms);
  }

  // ---- over a run ----

  /** What a receiver's thread is handed is a delivery of a logged text, whatever it is. */
  lemma AllHanded(run: Run, v: Id)
    requires IsRun(run) && IsReceiver(Final(run), v) && Joined(Final(run), v)
    ensures var delivered := Final(run).threads[v].delivered;
            forall i :: 0 <= i < |delivered| ==> Handed(delivered[i])
  {
    var s := Final(run);
    var th, room := s.threads[v], s.rooms[s.threads[v].room.value];
    SentFollowsLog(run, v);
    forall i | 0 <= i < |th.delivered|
      ensures Handed(th.delivered[i])
    {
      EntryHanded(run, th.room.value, SentAt(s, v)[i]);
    }
  }

  lemma EntryHanded(run: Run, r: nat, i: nat)
    requires IsRun(run) && r < |Final(run).rooms| && i < |Final(run).rooms[r].log|
    ensures var room, e := Final(run).rooms[r], Final(run).rooms[r].log[i];
            Handed(Delivery(room.key, e.username, e.text))
  {
    Reachable(run);
    NamesPlain(run, |run.steps|);
    EntryNulFree(run, r, i);
    SignedPlain(Final(run), r, i);
    DeliveryHanded(Final(run).rooms[r].key, Final(run).rooms[r].log[i]);
  }

  lemma EntryNulFree(run: Run, r: nat, i: nat)
    requires IsRun(run) && r < |Final(run).rooms| && i < |Final(run).rooms[r].log|
    ensures '\0' !in Final(run).rooms[r].log[i].text
  {
    var k := EntryBrought(run, r, i);
    assert Follows(run.states[k], run.steps[k], run.states[k + 1]);
    ParsedDataNulFree(run.steps[k].line);
  }

  lemma DeliveryHanded(key: string, e: Entry)
    requires '\0' !in key && '\0' !in e.username && '\0' !in e.text
    ensures Handed(Delivery(key, e.username, e.text))
  {
    var r, u, t := RemoveNewline(key), RemoveNewline(e.username), RemoveNewline(e.text);
    FrontNulFree(key);
    FrontNulFree(e.username);
    FrontNulFree(e.text);
    ColonsOfThree(r, u, t);
    OneLineOfThree(r, u, t);
    NulFreeOfThree(r, u, t);
  }

  lemma FrontNulFree(s: string)
    requires '\0' !in s
    ensures '\0' !in RemoveNewline(s)
  {
    assert forall i :: 0 <= i < |RemoveNewline(s)| ==> RemoveNewline(s)[i] == s[i];
  }

  lemma NulFreeOfThree(r: string, u: string, t: string)
    requires '\0' !in r && '\0' !in u && '\0' !in t
    ensures '\0' !in r + ":" + u + ":" + t
  {
  }

  /** On every run: what the receiving client prints of the deliveries its thread was handed
      is, in order, one line "user: text" for each of the broadcasts behind them, exactly
      when every delivery fits one line and has no colon too many. */
  lemma PrintedOverRun(run: Run, v: Id)
    requires IsRun(run) && IsReceiver(Final(run), v) && Joined(Final(run), v)
    ensures var s := Final(run);
            var th, room := s.threads[v], s.rooms[s.threads[v].room.value];
            && |th.delivered| <= |DueAt(room.log, th.joinAt, s.users[v].username)|
            && (forall i :: 0 <= i < |SentAt(s, v)| ==> SentAt(s, v)[i] < |room.log|)
            && (Prints(ReceiveAll(Sent(th.delivered))) == ShownAt(room.log, SentAt(s, v)) <==>
                forall i :: 0 <= i < |th.delivered| ==> WellFormed(th.delivered[i]) && Fits(th.delivered[i]))
  {
    var s := Final(run);
    var th, room := s.threads[v], s.rooms[s.threads[v].room.value];
    SentFollowsLog(run, v);
    AllHanded(run, v);
    ScreenExact(th.delivered, room.key, room.log, SentAt(s, v));
  }
}
