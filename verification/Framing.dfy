/**
 The newline framing that both halves of the protocol use to turn a tuple of
 fields into the one string that is signed, and the text form of an instant.
 */
module Framing {

  const NEWLINE: char := '\n'

  /** A field that cannot be mistaken for several fields. */
  predicate Clean(s: string) {
    NEWLINE !in s
  }

  predicate AllClean(fields: seq<string>) {
    forall i :: 0 <= i < |fields| ==> Clean(fields[i])
  }

  /** `fields.join('\n')` on the hub, `string.Join("\n", lines)` on the agent. */
  function Join(fields: seq<string>): string {
    if |fields| == 0 then ""
    else if |fields| == 1 then fields[0]
    else fields[0] + [NEWLINE] + Join(fields[1..])
  }

  /** The text up to the first newline: where a reader of the string would cut. */
  function FirstLine(s: string): (n: nat)
    ensures n <= |s| && Clean(s[..n])
    ensures n < |s| ==> s[n] == NEWLINE
  {
    if |s| == 0 || s[0] == NEWLINE then 0
    else
      var n := FirstLine(s[1..]);
      assert s[..n + 1] == [s[0]] + s[1..][..n];
      n + 1
  }

  function Split(s: string): seq<string>
    decreases |s|
  {
    var n := FirstLine(s);
    if n == |s| then [s] else [s[..n]] + Split(s[n + 1..])
  }

  lemma FirstLineOfClean(head: string, rest: string)
    requires Clean(head)
    requires |rest| == 0 || rest[0] == NEWLINE
    ensures FirstLine(head + rest) == |head|
  {
    var s := head + rest;
    assert forall i :: 0 <= i < |head| ==> s[i] == head[i];
    assert |rest| > 0 ==> s[|head|] == rest[0];
    assert forall i :: 0 <= i < FirstLine(s) ==> s[i] == s[..FirstLine(s)][i];
  }

  /** Splitting a join of newline-free fields gives the fields back. */
  lemma {:induction false} SplitJoin(fields: seq<string>)
    requires |fields| > 0 && AllClean(fields)
    ensures Split(Join(fields)) == fields
  {
    if |fields| == 1 {
      FirstLineOfClean(fields[0], "");
      assert fields[0] + "" == fields[0];
    } else {
      var rest := [NEWLINE] + Join(fields[1..]);
      assert Join(fields) == fields[0] + rest;
      FirstLineOfClean(fields[0], rest);
      assert Join(fields)[|fields[0]| + 1..] == Join(fields[1..]);
      SplitJoin(fields[1..]);
    }
  }

  lemma JoinCons(head: string, rest: seq<string>)
    requires |rest| > 0
    ensures Join([head] + rest) == head + [NEWLINE] + Join(rest)
  {
    assert ([head] + rest)[1..] == rest;
  }

  lemma SplitStep(s: string)
    requires FirstLine(s) < |s|
    ensures Split(s) == [s[..FirstLine(s)]] + Split(s[FirstLine(s) + 1..])
  {
  }

  lemma CutText(s: string, n: nat)
    requires n < |s| && s[n] == NEWLINE
    ensures s == s[..n] + [NEWLINE] + s[n + 1..]
  {
  }

  lemma AllCleanCons(head: string, rest: seq<string>)
    ensures AllClean([head] + rest) <==> Clean(head) && AllClean(rest)
  {
    var s := [head] + rest;
    assert forall i :: 0 <= i < |rest| ==> s[i + 1] == rest[i];
    assert s[0] == head;
  }

  /** Joining a split gives the string back, and a split has only newline-free parts. */
  lemma {:induction false} JoinSplit(s: string)
    ensures |Split(s)| > 0 && AllClean(Split(s)) && Join(Split(s)) == s
    decreases |s|
  {
    if FirstLine(s) < |s| {
      var first, rest := s[..FirstLine(s)], s[FirstLine(s) + 1..];
      SplitStep(s);
      CutText(s, FirstLine(s));
      JoinSplit(rest);
      JoinCons(first, Split(rest));
      AllCleanCons(first, Split(rest));
    }
  }

  lemma FirstLineOfLines(a: string, b: string)
    ensures FirstLine(a + [NEWLINE] + b) == FirstLine(a)
  {
    var n := FirstLine(a);
    FirstLineOfClean(a[..n], a[n..] + [NEWLINE] + b);
    assert a[..n] + (a[n..] + [NEWLINE] + b) == a + [NEWLINE] + b;
  }

  lemma CutAt(a: string, b: string, n: nat)
    requires n < |a| && a[n] == NEWLINE
    ensures var s := a + [NEWLINE] + b;
      n < |s| && s[..n] == a[..n] && s[n + 1..] == a[n + 1..] + [NEWLINE] + b
  {
  }

  /** The lines of a text put after another's are the lines of the one and then of the other. */
  lemma {:induction false} SplitCat(a: string, b: string)
    ensures Split(a + [NEWLINE] + b) == Split(a) + Split(b)
    decreases |a|
  {
    FirstLineOfLines(a, b);
    if FirstLine(a) == |a| {
      FirstOfTwo(a, b);
    } else {
      var first, rest := a[..FirstLine(a)], a[FirstLine(a) + 1..];
      CutAt(a, b, FirstLine(a));
      SplitStep(a + [NEWLINE] + b);
      SplitStep(a);
      SplitCat(rest, b);
      Regroup(first, Split(rest), Split(b));
    }
  }

  lemma Regroup(first: string, a: seq<string>, b: seq<string>)
    ensures [first] + (a + b) == [first] + a + b
  {
  }

  lemma FirstOfTwo(a: string, b: string)
    requires FirstLine(a + [NEWLINE] + b) == FirstLine(a) == |a|
    ensures Split(a + [NEWLINE] + b) == Split(a) + Split(b)
  {
    var s := a + [NEWLINE] + b;
    assert s[..|a|] == a && s[|a| + 1..] == b;
  }

  /** All lines of all fields, whatever they contain. */
  function LinesOf(fields: seq<string>): seq<string> {
    if |fields| == 0 then [] else Split(fields[0]) + LinesOf(fields[1..])
  }

  lemma LinesCons(head: string, rest: seq<string>)
    ensures LinesOf([head] + rest) == Split(head) + LinesOf(rest)
  {
    assert ([head] + rest)[1..] == rest;
  }

  /** Splitting a join of any fields gives the lines of the fields one after the other. */
  lemma {:induction false} SplitJoinAny(fields: seq<string>)
    requires |fields| > 0
    ensures Split(Join(fields)) == LinesOf(fields)
  {
    if |fields| > 1 {
      SplitCat(fields[0], Join(fields[1..]));
      SplitJoinAny(fields[1..]);
    }
  }

  lemma OneLineIff(s: string)
    ensures |Split(s)| >= 1 && (|Split(s)| == 1 <==> Clean(s))
  {
    var n := FirstLine(s);
    if n == |s| {
      assert s[..n] == s;
    } else {
      JoinSplit(s[n + 1..]);
    }
  }

  /** There are at least as many lines as fields, and no more exactly when no field holds a newline. */
  lemma {:induction false} LineCount(fields: seq<string>)
    ensures |LinesOf(fields)| >= |fields| && (|LinesOf(fields)| == |fields| <==> AllClean(fields))
  {
    if |fields| > 0 {
      OneLineIff(fields[0]);
      LineCount(fields[1..]);
      assert AllClean(fields) <==> Clean(fields[0]) && AllClean(fields[1..]);
    }
  }

  /**
   A tuple, clean or not, has the signing string of a clean one of no more fields
   only if it is that one.
   */
  lemma CleanWins(a: seq<string>, b: seq<string>)
    requires |a| >= |b| > 0 && AllClean(b) && Join(a) == Join(b)
    ensures a == b
  {
    SplitJoinAny(a);
    SplitJoin(b);
    LineCount(a);
    JoinInjective(a, b);
  }

  lemma LinesOfTwo(d: string, e: string)
    ensures LinesOf([d, e]) == Split(d) + Split(e)
  {
    assert [d, e] == [d] + [e] && [e] == [e] + [];
    LinesCons(d, [e]);
    LinesCons(e, []);
  }

  lemma LinesOfThree(c: string, d: string, e: string)
    ensures LinesOf([c, d, e]) == Split(c) + Split(d) + Split(e)
  {
    assert [c, d, e] == [c] + [d, e];
    LinesCons(c, [d, e]);
    LinesOfTwo(d, e);
  }

  lemma LinesOfFour(b: string, c: string, d: string, e: string)
    ensures LinesOf([b, c, d, e]) == Split(b) + Split(c) + Split(d) + Split(e)
  {
    assert [b, c, d, e] == [b] + [c, d, e];
    LinesCons(b, [c, d, e]);
    LinesOfThree(c, d, e);
  }

  /** The lines of five fields. */
  lemma FiveFields(a: string, b: string, c: string, d: string, e: string)
    ensures Split(Join([a, b, c, d, e])) == Split(a) + Split(b) + Split(c) + Split(d) + Split(e)
  {
    SplitJoinAny([a, b, c, d, e]);
    assert [a, b, c, d, e] == [a] + [b, c, d, e];
    LinesCons(a, [b, c, d, e]);
    LinesOfFour(b, c, d, e);
  }

  /** Two texts with the same lines are one. */
  lemma SameText(s: string, t: string)
    requires Split(s) == Split(t)
    ensures s == t
  {
    JoinSplit(s);
    JoinSplit(t);
  }

  /** Two tuples with the same signing string are the same tuple, of the same length. */
  lemma JoinInjective(a: seq<string>, b: seq<string>)
    requires |a| > 0 && |b| > 0 && AllClean(a) && AllClean(b)
    requires Join(a) == Join(b)
    ensures a == b
  {
    SplitJoin(a);
    SplitJoin(b);
  }

  // ---- Instants as text ----

  const DIGITS: string := "0123456789"

  /** The text of an instant; the signing strings only need it newline-free and injective. */
  function TimeText(t: nat): (s: string)
    ensures |s| > 0 && Clean(s)
  {
    if t < 10 then [DIGITS[t]] else TimeText(t / 10) + [DIGITS[t % 10]]
  }

  function DigitValue(c: char): int {
    c as int - '0' as int
  }

  function ParseTime(s: string): int {
    if |s| == 0 then 0 else 10 * ParseTime(s[..|s| - 1]) + DigitValue(s[|s| - 1])
  }

  lemma {:induction false} ParseTimeText(t: nat)
    ensures ParseTime(TimeText(t)) == t
  {
    if t < 10 {
      assert TimeText(t)[..0] == "";
    } else {
      ParseTimeText(t / 10);
      assert TimeText(t)[..|TimeText(t)| - 1] == TimeText(t / 10);
    }
  }

  lemma TimeTextInjective(t: nat, u: nat)
    requires TimeText(t) == TimeText(u)
    ensures t == u
  {
    ParseTimeText(t);
    ParseTimeText(u);
  }
}
