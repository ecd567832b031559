/** Sequence vocabulary shared by the models: prefixes, suffixes, and splitting or joining at a separator. */
module Sequences {

  datatype Option<+T> = None | Some(value: T)

  function Min(a: nat, b: nat): nat {
    if a <= b then a else b
  }

  function Max(a: nat, b: nat): nat {
    if a <= b then b else a
  }

  /** The first n elements, or all of them when there are fewer. */
  function Take<T>(s: seq<T>, n: nat): (r: seq<T>)
    ensures |r| == if |s| <= n then |s| else n
  {
    if |s| <= n then s else s[..n]
  }

  /** The last n elements, or all of them when there are fewer. */
  function LastN<T>(s: seq<T>, n: nat): (r: seq<T>)
    ensures |r| == if |s| <= n then |s| else n
  {
    if |s| <= n then s else s[|s| - n..]
  }

  lemma LastNOfLastN<T>(s: seq<T>, n: nat, k: nat)
    ensures LastN(LastN(s, n), k) == LastN(s, if k <= n then k else n)
  {
  }

  lemma LastNAppend<T>(s: seq<T>, x: T, n: nat)
    requires 0 < n
    ensures LastN(s + [x], n) == if |s| < n then s + [x] else LastN(s, n)[1..] + [x]
  {
  }

  /** Array.prototype.findIndex. */
  function FindFirst<T>(s: seq<T>, wanted: T -> bool): (r: Option<nat>)
    ensures r.Some? ==> r.value < |s| && wanted(s[r.value]) && forall i :: 0 <= i < r.value ==> !wanted(s[i])
    ensures r.None? ==> forall i :: 0 <= i < |s| ==> !wanted(s[i])
  {
    if |s| == 0 then None
    else if wanted(s[0]) then Some(0)
    else
      var rest := FindFirst(s[1..], wanted);
      if rest.Some? then Some(rest.value + 1) else None
  }

  /** String.prototype.split with a one-character separator. */
  function Split(s: string, sep: char): (parts: seq<string>)
    ensures |parts| >= 1
  {
    if |s| == 0 then [""]
    else
      var rest := Split(s[1..], sep);
      if s[0] == sep then [""] + rest
      else [[s[0]] + rest[0]] + rest[1..]
  }

  /** Array.prototype.join with a one-character separator. */
  function Join(parts: seq<string>, sep: char): string
  {
    if |parts| == 0 then ""
    else if |parts| == 1 then parts[0]
    else parts[0] + [sep] + Join(parts[1..], sep)
  }

  lemma {:induction false} JoinConcat(front: seq<string>, back: seq<string>, sep: char)
    requires |front| > 0 && |back| > 0
    ensures Join(front + back, sep) == Join(front, sep) + [sep] + Join(back, sep)
  {
    if |front| == 1 {
      assert (front + back)[1..] == back;
    } else {
      assert (front + back)[1..] == front[1..] + back;
      JoinConcat(front[1..], back, sep);
    }
  }

  lemma ConcatIsAssociative<T>(a: seq<T>, b: seq<T>, c: seq<T>)
    ensures (a + b) + c == a + (b + c)
  {
  }

  /** Between a fixed start and a fixed end the middle is determined. */
  lemma StripEnds<T>(start: seq<T>, a: seq<T>, b: seq<T>, end: seq<T>)
    requires start + a + end == start + b + end
    ensures a == b
  {
    assert |a| == |b|;
    assert a == (start + a + end)[|start|..|start| + |a|];
    assert b == (start + b + end)[|start|..|start| + |b|];
  }

  /** Splitting stops at the first separator: the head has none and the tail is split on its own. */
  lemma {:induction false} SplitAtSeparator(head: string, tail: string, sep: char)
    requires sep !in head
    ensures Split(head + [sep] + tail, sep) == [head] + Split(tail, sep)
  {
    var s := head + [sep] + tail;
    if |head| == 0 {
      assert s[1..] == tail;
    } else {
      assert s[1..] == head[1..] + [sep] + tail;
      SplitAtSeparator(head[1..], tail, sep);
      assert [head[0]] + head[1..] == head;
    }
  }

  lemma {:induction false} SplitWithoutSeparator(s: string, sep: char)
    requires sep !in s
    ensures Split(s, sep) == [s]
  {
    if |s| > 0 {
      SplitWithoutSeparator(s[1..], sep);
      assert [s[0]] + s[1..] == s;
    }
  }

  /** Non-empty parts free of the separator, joined, and more text after one further separator: split gives the parts back, then the text's own. */
  lemma {:induction false} SplitJoinThen(parts: seq<string>, rest: string, sep: char)
    requires |parts| > 0
    requires forall k :: 0 <= k < |parts| ==> sep !in parts[k]
    ensures Split(Join(parts, sep) + [sep] + rest, sep) == parts + Split(rest, sep)
  {
    hide Split;
    if |parts| == 1 {
      SplitAtSeparator(parts[0], rest, sep);
    } else {
      SplitJoinThen(parts[1..], rest, sep);
      var tail := Join(parts[1..], sep) + [sep] + rest;
      assert Join(parts, sep) + [sep] + rest == parts[0] + [sep] + tail;
      SplitAtSeparator(parts[0], tail, sep);
      assert parts + Split(rest, sep) == [parts[0]] + (parts[1..] + Split(rest, sep));
    }
  }

  lemma {:induction false} JoinSplit(s: string, sep: char)
    ensures Join(Split(s, sep), sep) == s
  {
    if |s| > 0 {
      JoinSplit(s[1..], sep);
      var rest := Split(s[1..], sep);
      if s[0] == sep {
        assert ([""] + rest)[1..] == rest;
      } else {
        var parts := [[s[0]] + rest[0]] + rest[1..];
        assert parts[1..] == rest[1..];
        assert s == [s[0]] + s[1..];
      }
    }
  }

  lemma {:induction false} SplitPartsHaveNoSeparator(s: string, sep: char)
    ensures forall k :: 0 <= k < |Split(s, sep)| ==> sep !in Split(s, sep)[k]
  {
    if |s| > 0 {
      SplitPartsHaveNoSeparator(s[1..], sep);
    }
  }

  /** String.prototype.includes. */
  predicate Contains(s: string, part: string)
  {
    part <= s || (|s| > 0 && Contains(s[1..], part))
  }

  function Lower(c: char): char {
    if 'A' <= c <= 'Z' then (c as int + 32) as char else c
  }

  function ToLower(s: string): (r: string)
    ensures |r| == |s|
  {
    seq(|s|, i requires 0 <= i < |s| => Lower(s[i]))
  }
}
