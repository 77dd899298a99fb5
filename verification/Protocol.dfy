/** The message format shared by the server and its clients (message.h) and the pure part
    of what both sides compute from a line: its encoding, its parse and the reply texts. */
module Protocol {
  import opened Text

  const MAX_LEN := 255
  /** A line read with a limit of MAX_LEN holds at most this many bytes. */
  const LINE_LIMIT := MAX_LEN - 1

  const TAG_ERR := "err"
  const TAG_OK := "ok"
  const TAG_SLOGIN := "slogin"
  const TAG_RLOGIN := "rlogin"
  const TAG_JOIN := "join"
  const TAG_LEAVE := "leave"
  const TAG_SENDALL := "sendall"
  const TAG_QUIT := "quit"
  const TAG_DELIVERY := "delivery"

  datatype Message = Message(tag: string, data: string)

  /** The text that `send` builds: quit and leave always carry "bye". */
  function Encode(m: Message): string {
    m.tag + ":" + (if m.tag == TAG_QUIT || m.tag == TAG_LEAVE then "bye" else m.data) + "\n"
  }

  /** The bytes that `send` writes: the encoding up to its first NUL. */
  function Wire(m: Message): string {
    CString(Encode(m))
  }

  /** What `receive` makes of one line. `Undefined` marks the lines on which the program
      indexes past the end of its list of fields: no field at all, or a delivery with
      fewer than three fields after the tag. */
  datatype Parsed = Received(msg: Message) | Rejected(tag: string) | Undefined

  function Parse(line: string): Parsed {
    ParseFields(Split(CString(line)))
  }

  function ParseFields(fields: seq<string>): Parsed {
    if |fields| == 0 then Undefined
    else if |fields| < 2 then Rejected(fields[0])
    else if fields[0] != TAG_DELIVERY then Received(Message(fields[0], fields[1]))
    else if |fields| < 4 then Undefined
    else Received(Message(fields[0], fields[1] + ":" + fields[2] + ":" + fields[3]))
  }

  /** The undefined lines, told from their text alone. */
  lemma UndefinedExactly(line: string)
    ensures Parse(line).Undefined? <==>
            var text := CString(line);
            text == "" || (Before(text, ':') == TAG_DELIVERY && 2 <= |Split(text)| <= 3)
  {
    var text := CString(line);
    if text != "" {
      SplitHead(text);
    }
  }

  lemma SplitHead(s: string)
    requires s != ""
    ensures |Split(s)| > 0 && Split(s)[0] == Before(s, ':')
  {
  }

  // ---- what a defined line is parsed to ----

  /** The data is cut at its first colon. */
  lemma ParseTagged(line: string, tag: string, data: string)
    requires CString(line) == tag + ":" + data && ':' !in tag && tag != "delivery" && data != ""
    ensures Parse(line) == Received(Message(tag, Before(data, ':')))
  {
    SplitCons(tag, data);
    SplitHead(data);
  }

  /** With nothing behind the tag, the line is rejected. */
  lemma ParseBare(line: string, tag: string)
    requires ':' !in tag && (CString(line) == tag + ":" || (CString(line) == tag && tag != ""))
    ensures Parse(line) == Rejected(tag)
  {
    if CString(line) == tag + ":" {
      SplitCons(tag, "");
      assert tag + ":" == tag + ":" + "";
    } else {
      SplitOne(tag);
    }
  }

  /** Of a delivery the first three fields are kept and rejoined. */
  lemma ParseThree(line: string, a: string, b: string, c: string, more: string)
    requires CString(line) == "delivery" + ":" + (a + ":" + (b + ":" + (c + more)))
    requires ':' !in a && ':' !in b && ':' !in c
    requires if more == "" then c != "" else more[0] == ':'
    ensures Parse(line) == Received(Message("delivery", a + ":" + b + ":" + c))
  {
    var data := a + ":" + (b + ":" + (c + more));
    DeliveryColonFree();
    SplitCons("delivery", data);
    SplitCons(a, b + ":" + (c + more));
    SplitCons(b, c + more);
    SplitHead(c + more);
    BeforeUnique(c + more, ':', c);
    FourFields(a, b, Split(c + more));
  }

  lemma DeliveryColonFree()
    ensures ':' !in "delivery" && TAG_DELIVERY == "delivery"
  {
  }

  lemma FourFields(a: string, b: string, rest: seq<string>)
    requires rest != []
    ensures ParseFields(["delivery"] + ([a] + ([b] + rest))) ==
            Received(Message("delivery", a + ":" + b + ":" + rest[0]))
  {
  }

  /** A delivery with two fields, and a line that begins with a NUL. */
  lemma UndefinedLines()
    ensures Parse("delivery:x\n").Undefined? && Parse("\0join:a\n").Undefined?
  {
    var line := "delivery:x\n";
    BeforeUnique(line, '\0', line);
    assert line == TAG_DELIVERY + ":" + "x\n";
    SplitCons(TAG_DELIVERY, "x\n");
    SplitOne("x\n");
    BeforeUnique("\0join:a\n", '\0', "");
  }

  /** Unless a client sends the tag "delivery", the data of a received message has no colon. */
  lemma ParsedDataColonFree(line: string)
    requires Parse(line).Received? && Parse(line).msg.tag != TAG_DELIVERY
    ensures ':' !in Parse(line).msg.data
  {
    SplitFields(CString(line));
  }

  /** And none has a NUL. */
  lemma ParsedDataNulFree(line: string)
    requires Parse(line).Received?
    ensures '\0' !in Parse(line).msg.data
  {
    var fields := Split(CString(line));
    SplitFields(CString(line));
    assert forall i :: 0 <= i < |fields| ==> '\0' !in fields[i];
  }

  /** At most one newline, at the end: what rio_readlineb makes of any stream. */
  predicate IsLine(line: string) {
    forall i :: 0 <= i < |line| - 1 ==> line[i] != '\n'
  }

  /** A line's tag tells whether its data has a colon in front of the newline. */
  lemma ColonIffDelivery(line: string)
    requires IsLine(line) && Parse(line).Received?
    ensures Parse(line).msg.tag == TAG_DELIVERY <==> ':' in RemoveNewline(Parse(line).msg.data)
  {
    var text, data := CString(line), Parse(line).msg.data;
    if Parse(line).msg.tag == TAG_DELIVERY {
      InnerFields(text, 0, '\n');
      ColonBehind(Split(text)[1], data);
    } else {
      ParsedDataColonFree(line);
      StillColonFree(data);
    }
  }

  lemma ColonBehind(first: string, data: string)
    requires '\n' !in first && |first| < |data| && data[..|first|] == first && data[|first|] == ':'
    ensures ':' in RemoveNewline(data)
  {
    assert forall i :: 0 <= i < |first| ==> data[i] == first[i];
    assert RemoveNewline(data)[|first|] == ':';
  }

  /** The requests the sender loop distinguishes: every other tag counts as sendall. */
  datatype Request = Garbled | Quit | Join(name: string) | Leave | Sendall(text: string)

  function ToRequest(p: Parsed): Request
    requires !p.Undefined?
  {
    match p
    case Rejected(_) => Garbled
    case Received(m) =>
      if m.tag == TAG_QUIT then Quit
      else if m.tag == TAG_JOIN then Join(m.data)
      else if m.tag == TAG_LEAVE then Leave
      else Sendall(m.data)
  }

  /** The tags, letter by letter: every tag that is none of the first three is a sendall. */
  lemma RequestByTag(tag: string, data: string)
    ensures ToRequest(Received(Message(tag, data))) ==
            if tag == "join" then Join(data)
            else if tag == "leave" then Leave
            else if tag == "quit" then Quit
            else Sendall(data)
    ensures ToRequest(Rejected(tag)) == Garbled
  {
  }

  const SENDER_LOGGED_IN := Message(TAG_OK, "Sender logged in")
  const RECEIVER_LOGGED_IN := Message(TAG_OK, "Receiver logged in")
  const LOGIN_REFUSED := Message(TAG_ERR, "Login unsuccessful")
  const RECEIVE_ERROR := Message(TAG_ERR, "Receive error")
  const QUIT_DONE := Message(TAG_OK, "Quit successful")
  const JOIN_DONE := Message(TAG_OK, "Join successful")
  const LEAVE_DONE := Message(TAG_OK, "Leave successful")
  const LEAVE_REFUSED := Message(TAG_ERR, "Leave unsuccessful, user isn't in the room")
  const SENDALL_DONE := Message(TAG_OK, "Sendall successful")
  const SENDALL_REFUSED := Message(TAG_ERR, "Sendall unsuccessful, user isn't in a room")
  const JOIN_EXPECTED := Message(TAG_ERR, "First message must be a join")

  /** What one broadcast hands to each receiver. */
  function Delivery(room: string, username: string, text: string): Message {
    Message(TAG_DELIVERY, RemoveNewline(room) + ":" + RemoveNewline(username) + ":" + RemoveNewline(text))
  }

  /** What one broadcast adds to the queue of one member. */
  function Share(room: string, sender: string, member: string, text: string): seq<Message> {
    if member != sender then [Delivery(room, sender, text)] else []
  }

  /** A delivery the receiving client can take apart: three fields on one line. */
  predicate WellFormed(m: Message) {
    m.tag == TAG_DELIVERY && Count(m.data, ':') == 2 && '\n' !in m.data
  }

  lemma ColonsOfThree(r: string, u: string, t: string)
    ensures Count(r + ":" + u + ":" + t, ':') == Count(r, ':') + Count(u, ':') + Count(t, ':') + 2
  {
    CountConcat(r + ":" + u + ":", t, ':');
    CountConcat(r + ":" + u, ":", ':');
    CountConcat(r + ":", u, ':');
    CountConcat(r, ":", ':');
    CountOne(':');
  }

  /** A delivery is well-formed exactly when room, user and text hold no colon in front of
      their first newline. */
  lemma DeliveryWellFormed(room: string, username: string, text: string)
    ensures WellFormed(Delivery(room, username, text)) <==>
            ':' !in RemoveNewline(room) && ':' !in RemoveNewline(username) && ':' !in RemoveNewline(text)
  {
    var r, u, t := RemoveNewline(room), RemoveNewline(username), RemoveNewline(text);
    CountNone(r, ':'); CountNone(u, ':'); CountNone(t, ':');
    ColonsOfThree(r, u, t);
    OneLineOfThree(r, u, t);
  }

  lemma OneLineOfThree(r: string, u: string, t: string)
    requires '\n' !in r && '\n' !in u && '\n' !in t
    ensures '\n' !in r + ":" + u + ":" + t
  {
  }

  lemma StillColonFree(s: string)
    requires ':' !in s
    ensures ':' !in RemoveNewline(s)
  {
    assert forall i :: 0 <= i < |RemoveNewline(s)| ==> RemoveNewline(s)[i] == s[i];
  }
}
