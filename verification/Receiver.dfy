/** receiver.cpp: how the receiving client takes a delivery apart and what it prints. */
module Receiver {
  import opened Text
  import opened Protocol
  import opened Rio
  import opened Connection
  import opened Framing

  /** The client's own splitter, an index loop, agrees with the one in connection.cpp. */
  method SplitDelivery(receivedData: string) returns (storage: seq<string>)
    requires |receivedData| <= INT_MAX
    ensures storage == Split(receivedData)
  {
    var previous := 0;
    storage := [];
    for i := 0 to |receivedData|
      invariant 0 <= previous <= i
      invariant forall k :: previous <= k < i ==> receivedData[k] != ':'
      invariant SplitUpTo(receivedData, previous, storage)
    {
      if receivedData[i] == ':' {
        SplitAt(receivedData, previous, i, storage);
        storage := storage + [receivedData[previous..i]];
        previous := i + 1;
      }
    }
    if previous < |receivedData| {
      SplitAt(receivedData, previous, |receivedData|, storage);
      storage := storage + [receivedData[previous..|receivedData|]];
    }
    SplitDone(receivedData, storage);
  }

  /** What the client prints for one parsed line: nothing unless it is a delivery with at
      least three fields. */
  function Printout(p: Parsed): string {
    if p.Received? && p.msg.tag == TAG_DELIVERY then PrintFields(Split(p.msg.data)) else ""
  }

  function PrintFields(fields: seq<string>): string {
    if |fields| > 2 then CString(fields[1]) + ": " + CString(fields[2]) else ""
  }

  method PrintMessage(m: Message) returns (out: string)
    requires |m.data| <= INT_MAX
    ensures out == Printout(Received(m))
  {
    out := "";
    if m.tag == TAG_DELIVERY {
      var storage := SplitDelivery(m.data);
      if |storage| > 2 {
        out := CString(storage[1]) + ": " + CString(storage[2]);
      }
    }
  }

  lemma PlainIsCString(s: string)
    requires '\0' !in s
    ensures CString(s) == s
  {
    BeforeUnique(s, '\0', s);
  }

  lemma SplitThree(a: string, b: string, c: string)
    requires ':' !in a && ':' !in b && ':' !in c && c != ""
    ensures Split(a + ":" + b + ":" + c) == [a, b, c]
  {
    var s := b + ":" + c;
    assert a + ":" + b + ":" + c == a + ":" + s;
    SplitCons(a, s);
    SplitCons(b, c);
    SplitOne(c);
  }

  lemma NoNewlinePrinted(p: Parsed)
    requires p.Received? && '\n' !in p.msg.data
    ensures '\n' !in Printout(p)
  {
    SplitFields(p.msg.data);
  }

  const PRINT_LIMIT := 242

  /** A delivery of three plain fields is printed as "user: text" and a newline exactly when
      the fields take no more than the 242 bytes the line limit leaves them. With 243 to 253
      it is still sent, but not printed as it should be; with more it is not even sent. */
  lemma PrintedExactly(room: string, user: string, text: string, rest: string)
    requires Plain(room) && Plain(user) && Plain(text)
    ensures var m := Message(TAG_DELIVERY, room + ":" + user + ":" + text);
            Printout(Parse(Line(Wire(m) + rest))) == user + ": " + text + "\n"
            <==> |room| + |user| + |text| <= PRINT_LIMIT
    ensures Taken(Message(TAG_DELIVERY, room + ":" + user + ":" + text)) <==> |room| + |user| + |text| + 2 <= MAX_LEN
  {
    var m := Message(TAG_DELIVERY, room + ":" + user + ":" + text);
    PlainIsCString(m.data);
    PlainDeliveryIsClean(room, user, text);
    SendThenReceive(m, rest);
    var p := Parse(Line(Wire(m) + rest));
    if Fits(m) {
      PrintedWhenSeen(room, user, text);
    } else {
      LineIsMessage(m, rest);
      LineWire(m);
      if p.Received? {
        NoNewlineInData(Line(Wire(m) + rest));
        NoNewlinePrinted(p);
      }
      assert (user + ": " + text + "\n")[|user + ": " + text|] == '\n';
    }
  }

  lemma PlainDeliveryIsClean(room: string, user: string, text: string)
    requires Plain(room) && Plain(user) && Plain(text)
    ensures Clean(Message(TAG_DELIVERY, room + ":" + user + ":" + text))
  {
    BeforeUnique(room, '\n', room);
    BeforeUnique(user, '\n', user);
    BeforeUnique(text, '\n', text);
    DeliveryWellFormed(room, user, text);
  }

  lemma PrintedWhenSeen(room: string, user: string, text: string)
    requires Plain(room) && Plain(user) && Plain(text)
    ensures var m := Message(TAG_DELIVERY, room + ":" + user + ":" + text);
            Printout(Received(Seen(m))) == user + ": " + text + "\n"
  {
    var last := text + "\n";
    SplitThree(room, user, last);
    assert room + ":" + user + ":" + text + "\n" == room + ":" + user + ":" + last;
    PlainIsCString(user);
    PlainIsCString(last);
    assert user + ": " + last == user + ": " + text + "\n";
  }

  /** The data the server obtains from a request of a client. */
  function AtServer(tag: string, data: string): Parsed {
    Parse(Line(Wire(Message(tag, data))))
  }

  /** From the keyboard to the screen: what a user called `user` types in room `room` is
      printed by the other members' clients as typed, if requests and delivery fit. */
  lemma TypedIsPrinted(room: string, user: string, text: string, rest: string)
    requires Plain(room) && Plain(user) && Plain(text)
    requires Fits(Message(TAG_JOIN, room)) && Fits(Message(TAG_SLOGIN, user)) && Fits(Message(TAG_SENDALL, text))
    ensures AtServer(TAG_JOIN, room).Received? && AtServer(TAG_SLOGIN, user).Received?
    ensures AtServer(TAG_SENDALL, text).Received?
    ensures var d := Delivery(AtServer(TAG_JOIN, room).msg.data, AtServer(TAG_SLOGIN, user).msg.data,
                              AtServer(TAG_SENDALL, text).msg.data);
            Printout(Parse(Line(Wire(d) + rest))) == user + ": " + text + "\n"
            <==> |room| + |user| + |text| <= PRINT_LIMIT
  {
    DeliveryOfArrived(room, user, text);
    PrintedExactly(room, user, text, rest);
  }

  lemma DeliveryOfArrived(room: string, user: string, text: string)
    requires Plain(room) && Plain(user) && Plain(text)
    requires Fits(Message(TAG_JOIN, room)) && Fits(Message(TAG_SLOGIN, user)) && Fits(Message(TAG_SENDALL, text))
    ensures AtServer(TAG_JOIN, room).Received? && AtServer(TAG_SLOGIN, user).Received?
    ensures AtServer(TAG_SENDALL, text).Received?
    ensures Delivery(AtServer(TAG_JOIN, room).msg.data, AtServer(TAG_SLOGIN, user).msg.data,
                     AtServer(TAG_SENDALL, text).msg.data)
            == Message(TAG_DELIVERY, room + ":" + user + ":" + text)
  {
    RequestTagsPlain();
    DataArrives(TAG_JOIN, room);
    DataArrives(TAG_SLOGIN, user);
    DataArrives(TAG_SENDALL, text);
  }

  lemma RequestTagsPlain()
    ensures Plain(TAG_JOIN) && Plain(TAG_SLOGIN) && Plain(TAG_SENDALL)
  {
  }

  lemma DataArrives(tag: string, data: string)
    requires Plain(tag) && tag != TAG_QUIT && tag != TAG_LEAVE && tag != TAG_DELIVERY
    requires Plain(data) && Fits(Message(tag, data))
    ensures AtServer(tag, data) == Received(Message(tag, data + "\n"))
    ensures RemoveNewline(AtServer(tag, data).msg.data) == data
  {
    var m := Message(tag, data);
    SendThenReceive(m, "");
    assert Wire(m) + "" == Wire(m);
    RemoveFinalNewline(data);
  }
}
