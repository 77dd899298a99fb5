/** The buffered reader of csapp.c (rio_t). Its abstract value is one stream of bytes: the
    unread bytes of the buffer followed by those the descriptor has yet to deliver. */
module RioReader {
  import opened Text
  import opened Rio

  class Reader {
    const fd: Descriptor
    const buf: array<char>
    /** rio_bufptr as an offset into the buffer, and rio_cnt, which a failed read leaves at -1. */
    var pos: nat
    var cnt: int

    /** The abstract value: every byte not yet returned, up to end of file. */
    ghost var stream: string

    ghost predicate Valid()
      reads this, buf, fd`incoming
    {
      && buf.Length == RIO_BUFSIZE
      && pos <= RIO_BUFSIZE
      && (cnt > 0 ==> pos + cnt <= RIO_BUFSIZE)
      && stream == (if cnt > 0 then buf[pos..pos + cnt] else "") + fd.incoming
    }

    /** rio_readinitb */
    constructor (fd: Descriptor)
      ensures Valid() && this.fd == fd && fresh(buf)
      ensures stream == fd.incoming
    {
      this.fd := fd;
      this.buf := new char[RIO_BUFSIZE];
      this.pos, this.cnt := 0, 0;
      this.stream := fd.incoming;
    }

    /** The refill loop of rio_read: afterwards the buffer holds something, or the stream
        has ended (0), or a read failed (-1). The stream itself is untouched. */
    method Refill() returns (rc: int)
      requires Valid()
      modifies `pos, `cnt, buf, fd`incoming, fd`readPlan
      ensures Valid()
      ensures Spent(old(fd.readPlan), fd.readPlan, rc == -1)
      ensures rc == 1 ==> cnt > 0
      ensures rc == 0 ==> cnt <= 0 && stream == ""
      ensures rc in {-1, 0, 1}
    {
      while cnt <= 0
        invariant Valid()
        invariant Spent(old(fd.readPlan), fd.readPlan, false)
        decreases cnt <= 0, |fd.readPlan|
      {
        ghost var plan := fd.readPlan;
        var n, data, interrupted := fd.Read(RIO_BUFSIZE);
        SpentMore(old(fd.readPlan), plan, fd.readPlan, n < 0 && !interrupted);
        cnt := n;
        if n < 0 {
          if !interrupted {
              return -1;
          }
        } else if n == 0 {
          return 0;
        } else {
          CopyInto(buf, 0, data);
          pos := 0;
          assert buf[..][..n] == data;
        }
      }
      return 1;
    }

    /** rio_read: the next bytes of the stream, at most `n` of them. The caller stores them. */
    method Read(n: nat) returns (rc: int, data: string)
      requires Valid() && n <= INT_MAX
      modifies `pos, `cnt, `stream, buf, fd`incoming, fd`readPlan
      ensures Valid() && Spent(old(fd.readPlan), fd.readPlan, rc == -1)
      ensures rc == -1 || rc == |data| <= n
      ensures rc >= 0 ==> old(stream) == data + stream
      ensures rc == 0 ==> n == 0 || old(stream) == ""
      ensures rc == -1 ==> stream == old(stream)
    {
      var filled := Refill();
      if filled <= 0 {
        return filled, "";
      }
      rc := n;
      if cnt < n {
        rc := cnt;
      }
      ghost var unread := buf[pos..pos + cnt];
      data := buf[pos..pos + rc];
      pos := pos + rc;
      cnt := cnt - rc;
      TakeFront(unread, fd.incoming, rc);
      assert data == unread[..rc] && (cnt > 0 ==> buf[pos..pos + cnt] == unread[rc..]);
      stream := unread[rc..] + fd.incoming;
    }

    /** rio_readnb: min(n, what remains) bytes of the stream; on a failure some prefix of
        them has been taken. */
    method ReadN(dst: array<char>, n: nat) returns (rc: int)
      requires Valid() && dst != buf
      requires n <= dst.Length && n <= INT_MAX
      modifies `pos, `cnt, `stream, buf, fd`incoming, fd`readPlan, dst
      ensures Valid() && Spent(old(fd.readPlan), fd.readPlan, rc == -1)
      ensures rc == -1 || rc == Min(n, |old(stream)|)
      ensures rc >= 0 ==> stream == old(stream)[rc..]
      ensures rc >= 0 ==> Copied(dst[..], old(dst[..]), 0, old(stream), rc)
      ensures rc == -1 ==> exists k :: 0 <= k < n && k <= |old(stream)| &&
                              stream == old(stream)[k..] && Copied(dst[..], old(dst[..]), 0, old(stream), k)
    {
      var bufp: nat := 0;
      ghost var input, was := stream, dst[..];
      while bufp < n
        invariant bufp <= n && Valid()
        invariant bufp <= |input| && stream == input[bufp..]
        invariant Copied(dst[..], was, 0, input, bufp)
        invariant Spent(old(fd.readPlan), fd.readPlan, false)
        decreases n - bufp
      {
        ghost var plan := fd.readPlan;
        var nread, data := Read(n - bufp);
        SpentMore(old(fd.readPlan), plan, fd.readPlan, nread == -1);
        if nread < 0 {
          return -1;
        } else if nread == 0 {
          break;
        }
        ghost var now := dst[..];
        CopyInto(dst, bufp, data);
        CopiedNext(dst[..], now, was, input, bufp, data);
        bufp := bufp + nread;
      }
      return bufp;
    }

    /** The loop of rio_readlineb and its return value: `n` is one more than the number of
        bytes stored while the loop runs, and again on each of its three exits. */
    method NextLine(maxlen: nat) returns (rc: int, line: string)
      requires Valid() && maxlen <= INT_MAX
      modifies `pos, `cnt, `stream, buf, fd`incoming, fd`readPlan
      ensures Valid() && Spent(old(fd.readPlan), fd.readPlan, rc == -1)
      ensures rc == -1 || rc == |line|
      ensures old(stream) == line + stream
      ensures rc >= 0 ==> WholeLine(line, stream, maxlen)
      ensures rc == -1 ==> |line| + 1 < maxlen && '\n' !in line
    {
      line := "";
      var n := 1;
      while n < maxlen
        invariant n == |line| + 1 && (n <= maxlen || line == "")
        invariant Valid() && old(stream) == line + stream
        invariant '\n' !in line
        invariant Spent(old(fd.readPlan), fd.readPlan, false)
      {
        ghost var plan := fd.readPlan;
        var r, c := Read(1);
        SpentMore(old(fd.readPlan), plan, fd.readPlan, r == -1);
        if r == 1 {
          Associate(line, c, stream);
          line := line + c;
          if c[0] == '\n' {
            n := n + 1;
            break;
          }
        } else if r == 0 {
          if n == 1 {
            return 0, line;
          }
          break;
        } else {
          return -1, line;
        }
        n := n + 1;
      }
      return n - 1, line;
    }

    /** rio_readlineb: the next line of the stream, NUL-terminated. At end of file nothing
        is stored, not even the terminator. */
    method ReadLine(dst: array<char>, maxlen: nat) returns (rc: int)
      requires Valid() && dst != buf
      requires dst.Length >= 1 && maxlen <= dst.Length && maxlen <= INT_MAX
      modifies `pos, `cnt, `stream, buf, fd`incoming, fd`readPlan, dst
      ensures Valid() && Spent(old(fd.readPlan), fd.readPlan, rc == -1)
      ensures rc == -1 || rc == LineLength(old(stream), maxlen)
      ensures rc >= 0 ==> stream == old(stream)[rc..]
      ensures rc >= 0 && (rc > 0 || maxlen < 2) ==>
                Copied(dst[..], old(dst[..]), 0, old(stream)[..rc] + ['\0'], rc + 1)
      ensures rc == 0 && maxlen >= 2 ==> old(stream) == "" && dst[..] == old(dst[..])
      ensures rc == -1 ==> exists k :: 0 <= k && k + 1 < maxlen && k <= |old(stream)| &&
                             stream == old(stream)[k..] && '\n' !in old(stream)[..k]
    {
      var line;
      rc, line := NextLine(maxlen);
      assert old(stream)[..|line|] == line && old(stream)[|line|..] == stream;
      if rc >= 0 {
        LineLengthExact(old(stream), maxlen, rc);
      }
      if rc > 0 || (rc == 0 && maxlen < 2) {
        CopyInto(dst, 0, line + ['\0']);
      }
    }
  }

  lemma TakeFront(unread: string, rest: string, n: nat)
    requires n <= |unread|
    ensures unread + rest == unread[..n] + (unread[n..] + rest)
  {
  }

  /** How many bytes a line read with the given limit takes: up to and including the first
      newline, but no more than maxlen - 1 and no more than there are. */
  function LineLength(stream: string, maxlen: nat): (n: nat)
    ensures n <= |stream| && (n < maxlen || n == 0)
  {
    var k := IndexFrom(stream, '\n', 0);
    Min(if k < |stream| then k + 1 else k, if maxlen == 0 then 0 else maxlen - 1)
  }

  /** No newline inside the line, and a reason to stop behind it. */
  ghost predicate WholeLine(line: string, rest: string, maxlen: nat) {
    && (|line| < maxlen || line == "")
    && (forall i :: 0 <= i < |line| - 1 ==> line[i] != '\n')
    && (rest == "" || |line| + 1 >= maxlen || (line != "" && line[|line| - 1] == '\n'))
  }

  /** LineLength cuts a stream at the one place that makes a whole line. */
  lemma LineLengthExact(stream: string, maxlen: nat, n: nat)
    requires n <= |stream|
    ensures LineLength(stream, maxlen) == n <==> WholeLine(stream[..n], stream[n..], maxlen)
  {
    if n > 0 && stream[n - 1] == '\n' && WholeLine(stream[..n], stream[n..], maxlen) {
      IndexFromUnique(stream, '\n', 0, n - 1) by {
        assert forall i :: 0 <= i < n - 1 ==> stream[..n][i] == stream[i];
      }
    }
    if IndexFrom(stream, '\n', 0) < n - 1 {
      assert stream[..n][IndexFrom(stream, '\n', 0)] == '\n';
    }
  }
}
