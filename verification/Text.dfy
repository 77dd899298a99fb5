/** Strings as the repository uses them: first occurrence of a character, C strings,
    newline removal, and the colon-separated fields of the wire format.
    A byte is written as a Dafny char. */
module Text {

  function Min(a: nat, b: nat): nat {
    if a < b then a else b
  }

  function One(b: bool): nat {
    if b then 1 else 0
  }

  datatype Option<+T> = None | Some(value: T)

  /** No colon, newline or NUL: a field that survives the wire format. */
  predicate Plain(s: string) {
    ':' !in s && '\n' !in s && '\0' !in s
  }

  /** The first position at or after `from` that holds `c`, or |s| when there is none. */
  function IndexFrom(s: string, c: char, from: nat): (k: nat)
    requires from <= |s|
    ensures from <= k <= |s|
    ensures k < |s| ==> s[k] == c
    ensures forall i :: from <= i < k ==> s[i] != c
    decreases |s| - from
  {
    if from == |s| || s[from] == c then from else IndexFrom(s, c, from + 1)
  }

  lemma IndexFromUnique(s: string, c: char, from: nat, k: nat)
    requires from <= k <= |s|
    requires k < |s| ==> s[k] == c
    requires forall i :: from <= i < k ==> s[i] != c
    ensures IndexFrom(s, c, from) == k
  {
  }

  /** The characters in front of the first `c`. */
  function Before(s: string, c: char): (r: string)
    ensures r <= s && c !in r
    ensures |r| < |s| ==> s[|r|] == c
  {
    s[..IndexFrom(s, c, 0)]
  }

  lemma BeforeUnique(s: string, c: char, r: string)
    requires r <= s && c !in r
    requires |r| < |s| ==> s[|r|] == c
    ensures Before(s, c) == r
  {
    IndexFromUnique(s, c, 0, |r|);
  }

  /** What a C function sees of a buffer: everything in front of the first NUL. */
  function CString(s: string): string {
    Before(s, '\0')
  }

  /** remove_newline: erases the first newline and all that follows it. */
  function RemoveNewline(s: string): string {
    Before(s, '\n')
  }

  lemma RemoveNewlineTwice(s: string)
    ensures RemoveNewline(RemoveNewline(s)) == RemoveNewline(s)
  {
    BeforeUnique(RemoveNewline(s), '\n', RemoveNewline(s));
  }

  lemma RemoveFinalNewline(s: string)
    requires '\n' !in s
    ensures RemoveNewline(s + "\n") == s
  {
    BeforeUnique(s + "\n", '\n', s);
  }

  /** The fields of a colon-separated string, from position `from` on. A final colon opens
      no further field. */
  function SplitFrom(s: string, from: nat): seq<string>
    requires from <= |s|
    decreases |s| - from
  {
    if from == |s| then []
    else
      var k := IndexFrom(s, ':', from);
      [s[from..k]] + SplitFrom(s, Past(s, k))
  }

  /** Behind the colon at `k`, or the end of the string. */
  function Past(s: string, k: nat): nat {
    if k < |s| then k + 1 else k
  }

  function Split(s: string): seq<string> {
    SplitFrom(s, 0)
  }

  function JoinFields(fields: seq<string>): string {
    if fields == [] then ""
    else if |fields| == 1 then fields[0]
    else fields[0] + ":" + JoinFields(fields[1..])
  }

  /** How often `c` occurs. */
  function Count(s: string, c: char): nat {
    if s == "" then 0 else (if s[0] == c then 1 else 0) + Count(s[1..], c)
  }

  lemma {:induction false} CountConcat(a: string, b: string, c: char)
    ensures Count(a + b, c) == Count(a, c) + Count(b, c)
  {
    if a == "" {
      assert a + b == b;
    } else {
      CountConcat(a[1..], b, c);
      assert (a + b)[1..] == a[1..] + b;
    }
  }

  lemma {:induction false} CountNone(s: string, c: char)
    ensures Count(s, c) == 0 <==> c !in s
  {
    if s != "" {
      CountNone(s[1..], c);
      assert s == [s[0]] + s[1..];
    }
  }

  lemma CountOne(c: char)
    ensures Count([c], c) == 1
  {
    assert [c][1..] == "";
  }

  /** Every field is free of colons, and of whatever the string is free of. */
  lemma SplitFields(s: string)
    ensures forall i :: 0 <= i < |Split(s)| ==> ':' !in Split(s)[i]
    ensures forall i, c :: 0 <= i < |Split(s)| && c in Split(s)[i] ==> c in s
  {
    SplitFieldsFrom(s, 0);
  }

  lemma {:induction false} SplitFieldsFrom(s: string, from: nat)
    requires from <= |s|
    ensures forall i :: 0 <= i < |SplitFrom(s, from)| ==> ':' !in SplitFrom(s, from)[i]
    ensures forall i, c :: 0 <= i < |SplitFrom(s, from)| && c in SplitFrom(s, from)[i] ==> c in s
    decreases |s| - from
  {
    if from < |s| {
      SplitFieldsFrom(s, Past(s, IndexFrom(s, ':', from)));
    }
  }

  /** Where `c` can only be the last character, it can only be in the last field. */
  lemma {:induction false} InnerFields(s: string, from: nat, c: char)
    requires from <= |s| && c != ':' && forall i :: 0 <= i < |s| - 1 ==> s[i] != c
    ensures forall i :: 0 <= i < |SplitFrom(s, from)| - 1 ==> c !in SplitFrom(s, from)[i]
    decreases |s| - from
  {
    if from < |s| {
      var k := IndexFrom(s, ':', from);
      InnerFields(s, Past(s, k), c);
      assert c in s[from..k] ==> k == |s|;
    }
  }

  /** What splitting does not keep. */
  function DroppedColon(s: string): string {
    if s != "" && s[|s| - 1] == ':' then ":" else ""
  }

  /** Rejoining the fields gives the string back, except that one final colon is lost. */
  lemma {:induction false} SplitThenJoin(s: string)
    ensures s == JoinFields(Split(s)) + DroppedColon(s)
    decreases |s|
  {
    var k := IndexFrom(s, ':', 0);
    if k == |s| {
      if s != "" {
        SplitOne(s);
      }
    } else {
      var first, rest := s[..k], s[k + 1..];
      assert s == first + ":" + rest;
      SplitCons(first, rest);
      SplitThenJoin(rest);
      Rejoin(s, first, rest);
    }
  }

  lemma Rejoin(s: string, first: string, rest: string)
    requires s == first + ":" + rest && Split(s) == [first] + Split(rest)
    requires rest == JoinFields(Split(rest)) + DroppedColon(rest)
    ensures s == JoinFields(Split(s)) + DroppedColon(s)
  {
    if rest == "" {
      assert JoinFields([first]) == first;
    } else {
      JoinCons(first, Split(rest));
      Associate(first + ":", JoinFields(Split(rest)), DroppedColon(rest));
    }
  }

  lemma Associate<T>(a: seq<T>, b: seq<T>, c: seq<T>)
    ensures a + (b + c) == (a + b) + c
  {
  }

  lemma FrontAndLast<T>(s: seq<T>)
    requires s != []
    ensures s[..|s| - 1] + [s[|s| - 1]] == s
  {
  }

  lemma Cut<T>(s: seq<T>, n: nat, m: nat)
    requires m <= n <= |s|
    ensures s[..n] + s[n..] == s && s[..n][..m] == s[..m]
  {
  }

  lemma Middle<T>(all: seq<T>, start: seq<T>, mid: seq<T>)
    requires start + mid <= all
    ensures |start + mid| <= |all| && all[|start|..|start + mid|] == mid
  {
    assert all[|start|..|start + mid|] == (start + mid)[|start|..];
  }

  lemma TakeMore<T>(s: seq<T>, i: nat)
    requires i < |s|
    ensures s[..i + 1] == s[..i] + [s[i]]
  {
  }

  lemma SplitOne(s: string)
    requires s != "" && ':' !in s
    ensures Split(s) == [s]
  {
    IndexFromUnique(s, ':', 0, |s|);
    assert s[0..|s|] == s && SplitFrom(s, |s|) == [];
  }

  /** `s` is what `all` holds from position `n` on. */
  ghost predicate Tail(all: string, n: nat, s: string) {
    |all| == n + |s| && forall i {:trigger s[i]} :: 0 <= i < |s| ==> s[i] == all[n + i]
  }

  lemma IndexShift(all: string, n: nat, s: string, c: char, from: nat)
    requires Tail(all, n, s) && from <= |s|
    ensures IndexFrom(all, c, n + from) == n + IndexFrom(s, c, from)
  {
    var k := IndexFrom(s, c, from);
    forall i | n + from <= i < n + k
      ensures all[i] != c
    {
      assert s[i - n] == all[i];
    }
    assert k < |s| ==> s[k] == all[n + k];
    IndexFromUnique(all, c, n + from, n + k);
  }

  lemma SliceShift(all: string, n: nat, s: string, from: nat, k: nat)
    requires Tail(all, n, s) && from <= k <= |s|
    ensures all[n + from..n + k] == s[from..k]
  {
    forall i | 0 <= i < k - from
      ensures all[n + from..n + k][i] == s[from..k][i]
    {
      assert s[from + i] == all[n + (from + i)];
    }
  }

  lemma FieldShift(all: string, n: nat, s: string, from: nat)
    requires Tail(all, n, s) && from < |s|
    ensures var k, k' := IndexFrom(s, ':', from), IndexFrom(all, ':', n + from);
            all[n + from..k'] == s[from..k] && Past(all, k') == n + Past(s, k)
  {
    IndexShift(all, n, s, ':', from);
    SliceShift(all, n, s, from, IndexFrom(s, ':', from));
  }

  /** If the remaining fields agree, so do the fields from `from` on. */
  lemma {:induction false} SplitShiftStep(all: string, i: nat, s: string, from: nat)
    requires i < |all| && from < |s|
    requires all[i..IndexFrom(all, ':', i)] == s[from..IndexFrom(s, ':', from)]
    requires SplitFrom(all, Past(all, IndexFrom(all, ':', i))) == SplitFrom(s, Past(s, IndexFrom(s, ':', from)))
    ensures SplitFrom(all, i) == SplitFrom(s, from)
  {
    FirstField(all, i);
    FirstField(s, from);
  }

  lemma FirstField(s: string, from: nat)
    requires from < |s|
    ensures SplitFrom(s, from) == [s[from..IndexFrom(s, ':', from)]] + SplitFrom(s, Past(s, IndexFrom(s, ':', from)))
  {
  }

  /** Text in front changes nothing but positions. */
  lemma {:induction false} SplitShift(all: string, n: nat, s: string, from: nat)
    requires Tail(all, n, s) && from <= |s|
    ensures SplitFrom(all, n + from) == SplitFrom(s, from)
    decreases |s| - from
  {
    if from < |s| {
      SplitShift(all, n, s, Past(s, IndexFrom(s, ':', from)));
      FieldShift(all, n, s, from);
      SplitShiftStep(all, n + from, s, from);
    }
  }

  lemma SplitCons(first: string, rest: string)
    requires ':' !in first
    ensures Split(first + ":" + rest) == [first] + Split(rest)
  {
    var s := first + ":" + rest;
    IndexFromUnique(s, ':', 0, |first|);
    assert s[0..|first|] == first;
    SplitShift(s, |first| + 1, rest, 0);
  }

  lemma JoinCons(first: string, rest: seq<string>)
    requires rest != []
    ensures JoinFields([first] + rest) == first + ":" + JoinFields(rest)
  {
    assert ([first] + rest)[1..] == rest;
  }

  /** The other direction: a non-empty list of colon-free fields whose last one is
      not empty is recovered from its joined form. */
  lemma {:induction false} JoinThenSplit(fields: seq<string>)
    requires fields != [] && fields[|fields| - 1] != ""
    requires forall i :: 0 <= i < |fields| ==> ':' !in fields[i]
    ensures Split(JoinFields(fields)) == fields
  {
    if |fields| == 1 {
      SplitOne(fields[0]);
    } else {
      JoinThenSplit(fields[1..]);
      SplitCons(fields[0], JoinFields(fields[1..]));
    }
  }

  /** A splitter that has reached `pos` has produced `done`. */
  ghost predicate SplitUpTo(data: string, pos: nat, done: seq<string>) {
    pos <= |data| && Split(data) == done + SplitFrom(data, pos)
  }

  /** One step of a splitter: the field that starts at `pos` ends at `end`. */
  lemma SplitAt(data: string, pos: nat, end: nat, done: seq<string>)
    requires SplitUpTo(data, pos, done) && pos < |data| && pos <= end <= |data|
    requires end < |data| ==> data[end] == ':'
    requires forall i :: pos <= i < end ==> data[i] != ':'
    ensures SplitUpTo(data, Past(data, end), done + [data[pos..end]])
  {
    IndexFromUnique(data, ':', pos, end);
    Associate(done, [data[pos..end]], SplitFrom(data, Past(data, end)));
  }

  /** A splitter at the end of the string is done. */
  lemma SplitDone(data: string, done: seq<string>)
    requires SplitUpTo(data, |data|, done)
    ensures Split(data) == done
  {
  }

  /** The numbers below `n` with the property `p`, ascending. */
  function Where(p: nat -> bool, n: nat): seq<nat> {
    if n == 0 then [] else Where(p, n - 1) + if p(n - 1) then [n - 1] else []
  }

  lemma {:induction false} WhereExactly(p: nat -> bool, n: nat)
    ensures Increasing(Where(p, n))
    ensures forall i :: 0 <= i < |Where(p, n)| ==> Where(p, n)[i] < n && p(Where(p, n)[i])
    ensures forall k: nat :: k < n && p(k) ==> k in Where(p, n)
  {
    if n > 0 {
      WhereExactly(p, n - 1);
      if p(n - 1) {
        OneLarger(Where(p, n - 1), n - 1);
      }
    }
  }

  lemma OneLarger(at: seq<nat>, k: nat)
    requires Increasing(at) && forall i :: 0 <= i < |at| ==> at[i] < k
    ensures Increasing(at + [k]) && k in at + [k] && forall i: nat :: i in at ==> i in at + [k]
  {
    assert (at + [k])[|at|] == k;
  }

  predicate Increasing(at: seq<nat>) {
    forall i, j :: 0 <= i < j < |at| ==> at[i] < at[j]
  }
}
