/** connection.cpp: a message connection on top of the robust I/O functions. */
module Connection {
  import opened Text
  import opened Protocol
  import opened Rio
  import opened RioReader

  datatype Result = Success | EofOrError | InvalidMsg

  /** The line `receive` takes off a stream, and what it leaves. */
  function Line(stream: string): string {
    stream[..LineLength(stream, MAX_LEN)]
  }

  function AfterLine(stream: string): string {
    stream[LineLength(stream, MAX_LEN)..]
  }

  class Connection {
    const fd: Descriptor
    const rio: Reader
    var lastResult: Result

    ghost predicate Valid()
      reads this, rio, rio.buf, rio.fd`incoming
    {
      rio.fd == fd && rio.Valid()
    }

    constructor (fd: Descriptor)
      ensures Valid() && this.fd == fd && fresh(rio) && fresh(rio.buf)
      ensures rio.stream == fd.incoming && lastResult == Success
    {
      this.fd := fd;
      this.lastResult := Success;
      rio := new Reader(fd);
    }

    method Send(m: Message) returns (ok: bool)
      requires Valid()
      modifies `lastResult, fd`outgoing, fd`writePlan
      ensures Valid() && Spent(old(fd.writePlan), fd.writePlan, lastResult == EofOrError)
      ensures ok <==> lastResult == Success
      ensures ok ==> |CString(m.data)| <= MAX_LEN && fd.outgoing == old(fd.outgoing) + Wire(m)
      ensures lastResult == InvalidMsg <==> |CString(m.data)| > MAX_LEN
      ensures lastResult == InvalidMsg ==> fd.outgoing == old(fd.outgoing)
      ensures lastResult == EofOrError ==>
                exists k :: 0 <= k < |Wire(m)| && fd.outgoing == old(fd.outgoing) + Wire(m)[..k]
    {
      if |CString(m.data)| > MAX_LEN {
        lastResult := InvalidMsg;
        return false;
      }
      var text := Wire(m);
      var size := WriteN(fd, text);
      if size < 0 {
        lastResult := EofOrError;
        return false;
      }
      lastResult := if size != |text| then InvalidMsg else Success;
      return lastResult == Success;
    }

    /** The program has no defined behaviour at end of file, where its line buffer is unset,
        nor on a line whose parse is undefined. */
    method Receive() returns (ok: bool, m: Message)
      requires Valid() && rio.stream != "" && !Parse(Line(rio.stream)).Undefined?
      modifies this, rio`pos, rio`cnt, rio`stream, rio.buf, fd`incoming, fd`readPlan
      ensures Valid() && Spent(old(fd.readPlan), fd.readPlan, lastResult == EofOrError)
      ensures ok <==> lastResult == Success
      ensures lastResult == EofOrError ==>
                exists k :: 0 <= k && k < LINE_LIMIT && k <= |old(rio.stream)| &&
                  rio.stream == old(rio.stream)[k..] && '\n' !in old(rio.stream)[..k]
      ensures lastResult != EofOrError ==> rio.stream == AfterLine(old(rio.stream))
      ensures lastResult != EofOrError ==> ok == Parse(Line(old(rio.stream))).Received?
      ensures ok ==> Parse(Line(old(rio.stream))) == Received(m)
      ensures lastResult == InvalidMsg ==> Parse(Line(old(rio.stream))) == Rejected(m.tag)
      ensures lastResult == InvalidMsg ==> m.data == CString(Line(old(rio.stream)))
    {
      var buffer := new char[MAX_LEN + 1];
      ghost var line, unset := Line(rio.stream), buffer[..];
      m := Message("", "");
      var size := rio.ReadLine(buffer, MAX_LEN);
      if size < 0 {
        lastResult := EofOrError;
        return false, m;
      }
      CopiedCString(buffer[..], unset, line);
      m := m.(data := CString(buffer[..]));
      var fields, tag := DivideData(m.data);
      m := m.(tag := tag);
      if |fields| < 2 {
        lastResult := InvalidMsg;
        return false, m;
      }
      if m.tag == TAG_DELIVERY {
        m := m.(data := fields[1] + ":" + fields[2] + ":" + fields[3]);
      } else {
        m := m.(data := fields[1]);
      }
      lastResult := Success;
      ok := true;
    }
  }

  /** When `receive` is defined, told from the bytes to come: not at end of file, not on a
      line that begins with a NUL, and not on a delivery of two or three fields. */
  lemma ReceiveDefined(stream: string)
    ensures var text := CString(Line(stream));
            (stream == "" || Parse(Line(stream)).Undefined?) <==>
            (stream == "" || stream[0] == '\0' || (Before(text, ':') == TAG_DELIVERY && 2 <= |Split(text)| <= 3))
  {
    if stream != "" {
      UndefinedExactly(Line(stream));
      FirstNul(Line(stream));
    }
  }

  lemma FirstNul(line: string)
    requires line != ""
    ensures CString(line) == "" <==> line[0] == '\0'
  {
  }

  lemma CopiedCString(buffer: string, was: string, line: string)
    requires Copied(buffer, was, 0, line + ['\0'], |line| + 1)
    ensures CString(buffer) == CString(line)
  {
    var r := CString(line);
    forall i | 0 <= i <= |line|
      ensures buffer[i] == (line + ['\0'])[i]
    {
      assert buffer[0 + i] == (line + ['\0'])[i];
    }
    assert buffer[..|r|] == r;
    BeforeUnique(buffer, '\0', r);
  }

  /** divide_data: repeated getline with ':' as the delimiter. */
  method DivideData(data: string) returns (result: seq<string>, tag: string)
    requires data != ""
    ensures result == Split(data) && tag == result[0]
  {
    var pos := 0;
    result := [];
    while pos < |data|
      invariant 0 <= pos <= |data|
      invariant SplitUpTo(data, pos, result)
    {
      var end := IndexFrom(data, ':', pos);
      SplitAt(data, pos, end, result);
      result := result + [data[pos..end]];
      pos := if end < |data| then end + 1 else end;
    }
    SplitDone(data, result);
    tag := result[0];
  }
}
