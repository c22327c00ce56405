/** Character searches over strings, shared by the URL and host/port readers. */
module Text {
  import opened Wrappers

  /** No character of `s` is one of `cs`. */
  predicate Avoids(s: string, cs: set<char>) {
    forall i :: 0 <= i < |s| ==> s[i] !in cs
  }

  /** A concatenation avoids what both parts avoid. */
  lemma AvoidsConcat(a: string, b: string, cs: set<char>)
    requires Avoids(a, cs) && Avoids(b, cs)
    ensures Avoids(a + b, cs)
  {
    assert forall i :: |a| <= i < |a + b| ==> (a + b)[i] == b[i - |a|];
  }

  /** Index of the first `c` in `s`, or `|s|` when `s` has none. */
  function IndexOf(s: string, c: char): (k: nat)
    ensures k <= |s|
    ensures k < |s| ==> s[k] == c
    ensures forall i :: 0 <= i < k ==> s[i] != c
  {
    if s == [] then 0
    else if s[0] == c then 0
    else 1 + IndexOf(s[1..], c)
  }

  /** Index of the last `c` in `s`, or -1 when `s` has none. */
  function LastIndexOf(s: string, c: char): (k: int)
    ensures -1 <= k < |s|
    ensures 0 <= k ==> s[k] == c
    ensures forall i :: k < i < |s| ==> s[i] != c
  {
    if s == [] then -1
    else if s[|s| - 1] == c then |s| - 1
    else LastIndexOf(s[..|s| - 1], c)
  }

  /** Splits `s` around its first `c`. */
  function CutFirst(s: string, c: char): Option<(string, string)> {
    var k := IndexOf(s, c);
    if k == |s| then None else Some((s[..k], s[k + 1..]))
  }

  /** Splits `s` around its last `c`. */
  function CutLast(s: string, c: char): Option<(string, string)> {
    var k := LastIndexOf(s, c);
    if k < 0 then None else Some((s[..k], s[k + 1..]))
  }

  /** Cutting a joined string at a separator the left part lacks gives the parts back. */
  lemma CutFirstJoin(a: string, c: char, b: string)
    requires Avoids(a, {c})
    ensures CutFirst(a + [c] + b, c) == Some((a, b))
  {
    var s := a + [c] + b;
    assert s[|a|] == c;
    var k := IndexOf(s, c);
    assert forall i :: 0 <= i < |a| ==> s[i] == a[i];
    assert s[..k] == a;
    assert s[k + 1..] == b;
  }

  /** Cutting a joined string at a separator the right part lacks gives the parts back. */
  lemma CutLastJoin(a: string, c: char, b: string)
    requires Avoids(b, {c})
    ensures CutLast(a + [c] + b, c) == Some((a, b))
  {
    var s := a + [c] + b;
    assert s[|a|] == c;
    var k := LastIndexOf(s, c);
    assert forall i :: |a| < i < |s| ==> s[i] == b[i - |a| - 1];
    assert s[..k] == a;
    assert s[k + 1..] == b;
  }

  /** A string free of `c` has nothing to cut at its last `c`. */
  lemma CutLastAbsent(s: string, c: char)
    requires Avoids(s, {c})
    ensures CutLast(s, c) == None
  {
  }
}
