/** The robust I/O functions of csapp.c over a descriptor whose read() and write() calls
    may be short, interrupted or failing, in any order. */
module Rio {
  import opened Text

  const RIO_BUFSIZE := 8192
  const INT_MAX := 0x7fff_ffff

  /** What one read() or write() call does. For write(), Interrupted and Failed also stand
      for a return value of 0, which rio_writen treats like -1. A Transfer moves at least
      one byte when there is one to move and room for it, and never more than `most`
      beyond that. */
  datatype Outcome = Interrupted | Failed | Transfer(most: nat)

  function Moved(most: nat, wanted: nat, present: nat): nat {
    Min(if most == 0 then 1 else most, Min(wanted, present))
  }

  /** The plan that is left after one call; an exhausted plan allows full transfers. */
  function AfterCall(plan: seq<Outcome>): seq<Outcome> {
    if plan == [] then [] else plan[1..]
  }

  /** A connected socket: the bytes still to come from the peer, up to end of file, and
      the bytes handed to it. */
  class Descriptor {
    var incoming: string
    var readPlan: seq<Outcome>
    var outgoing: string
    var writePlan: seq<Outcome>

    constructor (incoming: string, readPlan: seq<Outcome>, writePlan: seq<Outcome>)
      ensures this.incoming == incoming && this.readPlan == readPlan
      ensures outgoing == "" && this.writePlan == writePlan
    {
      this.incoming, this.readPlan := incoming, readPlan;
      this.outgoing, this.writePlan := "", writePlan;
    }

    /** read(): -1 with or without EINTR, 0 at end of file, or some bytes. */
    method Read(n: nat) returns (rc: int, data: string, interrupted: bool)
      modifies `incoming, `readPlan
      ensures readPlan == AfterCall(old(readPlan))
      ensures Spent(old(readPlan), readPlan, rc < 0 && !interrupted)
      ensures rc < 0 ==> rc == -1 && incoming == old(incoming) && old(readPlan) != []
      ensures rc >= 0 ==> rc == |data| <= n && old(incoming) == data + incoming
      ensures rc == 0 ==> n == 0 || old(incoming) == ""
    {
      var outcome := if readPlan == [] then Transfer(n) else readPlan[0];
      readPlan := AfterCall(readPlan);
      data := "";
      interrupted := outcome.Interrupted?;
      if !outcome.Transfer? {
        return -1, data, interrupted;
      }
      var k := Moved(outcome.most, n, |incoming|);
      data, incoming := incoming[..k], incoming[k..];
      rc := k;
    }

    /** write() of a non-empty buffer. */
    method Write(data: string) returns (rc: int, interrupted: bool)
      requires data != ""
      modifies `outgoing, `writePlan
      ensures writePlan == AfterCall(old(writePlan))
      ensures Spent(old(writePlan), writePlan, rc <= 0 && !interrupted)
      ensures rc <= 0 ==> outgoing == old(outgoing) && old(writePlan) != []
      ensures rc > 0 ==> rc <= |data| && outgoing == old(outgoing) + data[..rc]
    {
      var outcome := if writePlan == [] then Transfer(|data|) else writePlan[0];
      writePlan := AfterCall(writePlan);
      interrupted := outcome.Interrupted?;
      if !outcome.Transfer? {
        return -1, interrupted;
      }
      var k := Moved(outcome.most, |data|, |data|);
      outgoing := outgoing + data[..k];
      rc := k;
    }
  }

  /** The calls made are the first ones of the plan. None of them failed, except for the last
      one if `failed`. */
  predicate Spent(earlier: seq<Outcome>, later: seq<Outcome>, failed: bool) {
    && |later| <= |earlier| && later == earlier[|earlier| - |later|..]
    && (failed ==> |later| < |earlier|)
    && forall i :: 0 <= i < |earlier| - |later| ==>
         (earlier[i] == Failed <==> failed && i == |earlier| - |later| - 1)
  }

  lemma SpentMore(first: seq<Outcome>, mid: seq<Outcome>, last: seq<Outcome>, failed: bool)
    requires Spent(first, mid, false) && Spent(mid, last, failed)
    ensures Spent(first, last, failed)
  {
    var k := |first| - |mid|;
    assert forall i :: k <= i < |first| ==> first[i] == mid[i - k];
  }

  /** A call fails only where the plan says so, and the rest of the plan is part of it. */
  lemma FailurePlanned(earlier: seq<Outcome>, later: seq<Outcome>, failed: bool)
    requires Spent(earlier, later, failed)
    ensures failed ==> Failed in earlier
    ensures Failed in later ==> Failed in earlier
  {
    if failed {
      assert earlier[|earlier| - |later| - 1] == Failed;
    }
  }

  /** rio_writen: everything is written, in order, however short or interrupted the writes,
      unless a write really fails; then it stops at once. */
  method WriteN(fd: Descriptor, data: string) returns (rc: int)
    modifies fd`outgoing, fd`writePlan
    ensures rc == |data| || rc == -1
    ensures Spent(old(fd.writePlan), fd.writePlan, rc == -1)
    ensures rc == |data| ==> fd.outgoing == old(fd.outgoing) + data
    ensures rc == -1 ==> exists k :: 0 <= k < |data| && fd.outgoing == old(fd.outgoing) + data[..k]
  {
    var bufp: nat := 0;
    while bufp < |data|
      invariant bufp <= |data|
      invariant fd.outgoing == old(fd.outgoing) + data[..bufp]
      invariant Spent(old(fd.writePlan), fd.writePlan, false)
      decreases |data| - bufp, |fd.writePlan|
    {
      ghost var plan := fd.writePlan;
      var nwritten, interrupted := fd.Write(data[bufp..]);
      SpentMore(old(fd.writePlan), plan, fd.writePlan, nwritten <= 0 && !interrupted);
      if nwritten <= 0 {
        if !interrupted {
          return -1;
        }
        nwritten := 0;
      }
      assert data[bufp..][..nwritten] == data[bufp..bufp + nwritten];
      assert data[..bufp] + data[bufp..bufp + nwritten] == data[..bufp + nwritten];
      bufp := bufp + nwritten;
    }
    return |data|;
  }

  /** rio_readn: unbuffered; the bytes are the next ones of the descriptor, and a short
      count means end of file. After a real failure some prefix of them has been taken
      and stored. */
  method ReadN(fd: Descriptor, dst: array<char>, n: nat) returns (rc: int)
    requires n <= dst.Length
    modifies fd`incoming, fd`readPlan, dst
    ensures rc == -1 || rc == Min(n, |old(fd.incoming)|)
    ensures Spent(old(fd.readPlan), fd.readPlan, rc == -1)
    ensures rc >= 0 ==> fd.incoming == old(fd.incoming)[rc..]
    ensures rc >= 0 ==> Copied(dst[..], old(dst[..]), 0, old(fd.incoming), rc)
    ensures rc == -1 ==> exists k :: 0 <= k < n && k <= |old(fd.incoming)| &&
                           fd.incoming == old(fd.incoming)[k..] && Copied(dst[..], old(dst[..]), 0, old(fd.incoming), k)
  {
    var bufp: nat := 0;
    ghost var input, was := fd.incoming, dst[..];
    while bufp < n
      invariant bufp <= n
      invariant bufp <= |input| && fd.incoming == input[bufp..]
      invariant Copied(dst[..], was, 0, input, bufp)
      invariant Spent(old(fd.readPlan), fd.readPlan, false)
      decreases n - bufp, |fd.readPlan|
    {
      ghost var plan := fd.readPlan;
      var nread, data, interrupted := fd.Read(n - bufp);
      SpentMore(old(fd.readPlan), plan, fd.readPlan, nread < 0 && !interrupted);
      if nread < 0 {
        if !interrupted {
          return -1;
        }
        nread := 0;
      } else if nread == 0 {
        break;
      } else {
        ghost var now := dst[..];
        CopyInto(dst, bufp, data);
        CopiedNext(dst[..], now, was, input, bufp, data);
      }
      bufp := bufp + nread;
    }
    return bufp;
  }

  /** `now` is `was` with the first `n` bytes of `data` written over it from `off` on. */
  ghost predicate Copied(now: string, was: string, off: nat, data: string, n: nat) {
    && |now| == |was| && off + n <= |was| && n <= |data|
    && (forall i :: 0 <= i < n ==> now[off + i] == data[i])
    && (forall i :: 0 <= i < |was| && !(off <= i < off + n) ==> now[i] == was[i])
  }

  /** Writing `more`, the next bytes of `data`, behind the first `done` of them. */
  lemma CopiedNext(later: string, now: string, was: string, data: string, done: nat, more: string)
    requires Copied(now, was, 0, data, done)
    requires Copied(later, now, done, more, |more|)
    requires done + |more| <= |data| && more == data[done..][..|more|]
    ensures Copied(later, was, 0, data, done + |more|)
  {
    forall i | 0 <= i < done + |more|
      ensures later[i] == data[i]
    {
      if i >= done {
        assert later[done + (i - done)] == more[i - done];
      }
    }
  }

  /** memcpy into a caller's buffer. */
  method CopyInto(dst: array<char>, off: nat, data: string)
    requires off + |data| <= dst.Length
    modifies dst
    ensures Copied(dst[..], old(dst[..]), off, data, |data|)
  {
    forall i | 0 <= i < |data| {
      dst[off + i] := data[i];
    }
  }
}
