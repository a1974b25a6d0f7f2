/** The JavaScript string operations the app relies on, over `string`
    (a sequence of Unicode scalar values). */
module Text {

  /** The ECMAScript WhiteSpace and LineTerminator code points: exactly the
      characters `String.prototype.trimStart` removes. */
  predicate IsSpace(c: char) {
    || c == '\t' || c == '\n' || c == '\U{000B}' || c == '\U{000C}' || c == '\r'
    || c == ' ' || c == '\U{00A0}' || c == '\U{1680}'
    || ('\U{2000}' <= c <= '\U{200A}')
    || c == '\U{2028}' || c == '\U{2029}' || c == '\U{202F}' || c == '\U{205F}'
    || c == '\U{3000}' || c == '\U{FEFF}'
  }

  /** `String.prototype.trimStart`: `s` without its leading white space. */
  function TrimStart(s: string): string {
    if |s| > 0 && IsSpace(s[0]) then TrimStart(s[1..]) else s
  }

  /** Trimming removes a run of white space from the front and nothing
      else, and what remains does not start with white space. */
  lemma {:induction false} TrimStartDrops(s: string)
    ensures |TrimStart(s)| <= |s| && TrimStart(s) == s[|s| - |TrimStart(s)|..]
    ensures forall i :: 0 <= i < |s| - |TrimStart(s)| ==> IsSpace(s[i])
    ensures |TrimStart(s)| == 0 || !IsSpace(TrimStart(s)[0])
  {
    if |s| > 0 && IsSpace(s[0]) {
      TrimStartDrops(s[1..]);
      assert s[1..][|s| - 1 - |TrimStart(s)|..] == s[|s| - |TrimStart(s)|..];
    }
  }

  /** `String.prototype.toLowerCase`, restricted to ASCII letters. */
  function LowerChar(c: char): char {
    if 'A' <= c <= 'Z' then (c as int + 32) as char else c
  }

  /** Every ASCII capital becomes its small letter, and every other
      character is kept. */
  function Lower(s: string): (r: string)
    ensures |r| == |s|
    ensures forall i :: 0 <= i < |r| ==> !('A' <= r[i] <= 'Z')
    ensures forall i :: 0 <= i < |r| ==>
      r[i] == s[i] || ('A' <= s[i] <= 'Z' && r[i] as int == s[i] as int + 32)
  {
    seq(|s|, i requires 0 <= i < |s| => LowerChar(s[i]))
  }

  /** `t` occurs in `s` starting at index `i`. */
  predicate OccursAt(s: string, t: string, i: int) {
    0 <= i && i + |t| <= |s| && s[i..i + |t|] == t
  }

  /** An occurrence in `s[1..]` is an occurrence in `s` one place later. */
  lemma OccursShift(s: string, t: string)
    requires |s| > 0
    ensures forall j :: 0 <= j ==> (OccursAt(s[1..], t, j) <==> OccursAt(s, t, j + 1))
  {
    forall j | 0 <= j ensures OccursAt(s[1..], t, j) <==> OccursAt(s, t, j + 1) {
      if j + |t| <= |s| - 1 {
        assert s[1..][j..j + |t|] == s[j + 1..j + 1 + |t|];
      }
    }
  }

  /** `String.prototype.includes`: `t` is a contiguous part of `s`. */
  function Contains(s: string, t: string): (r: bool)
    ensures r <==> exists i :: OccursAt(s, t, i)
    decreases |s|
  {
    if |t| > |s| then false
    else if s[..|t|] == t then assert OccursAt(s, t, 0); true
    else
      OccursShift(s, t);
      assert !OccursAt(s, t, 0);
      assert forall i :: OccursAt(s, t, i) ==> OccursAt(s[1..], t, i - 1);
      Contains(s[1..], t)
  }

  /** `Array.prototype.join(sep)` over strings. */
  function Join(xs: seq<string>, sep: string): string
    decreases |xs|
  {
    if |xs| == 0 then ""
    else if |xs| == 1 then xs[0]
    else xs[0] + sep + Join(xs[1..], sep)
  }

  /** A joined list is empty exactly when it had no element or one empty
      element, whenever the separator is not empty. */
  lemma JoinEmpty(xs: seq<string>, sep: string)
    requires |sep| > 0
    ensures Join(xs, sep) == "" <==> |xs| == 0 || xs == [""]
  {
    if |xs| == 1 {
      assert xs == [xs[0]];
    }
  }

  /** The separator the views use between list items. */
  const ListSep: string := ", "

  predicate HasSepAt(s: string, i: int) {
    0 <= i && i + 1 < |s| && s[i] == ',' && s[i + 1] == ' '
  }

  ghost predicate ContainsSep(s: string) {
    exists i :: HasSepAt(s, i)
  }

  /** The index of the first `ListSep` in `s`, or `|s|` when there is none. */
  function FindSep(s: string): (i: nat)
    ensures i <= |s|
    ensures i < |s| ==> HasSepAt(s, i)
    ensures forall j :: 0 <= j < i ==> !HasSepAt(s, j)
    decreases |s|
  {
    if |s| < 2 then |s|
    else if s[0] == ',' && s[1] == ' ' then assert HasSepAt(s, 0); 0
    else
      assert !HasSepAt(s, 0);
      var k := FindSep(s[1..]);
      assert forall j :: 1 <= j ==> (HasSepAt(s, j) <==> HasSepAt(s[1..], j - 1));
      1 + k
  }

  /** Cuts `s` at every `ListSep`: the inverse of `Join(_, ListSep)`. */
  function Split(s: string): (parts: seq<string>)
    ensures |parts| >= 1
    decreases |s|
  {
    var i := FindSep(s);
    if i == |s| then [s] else [s[..i]] + Split(s[i + 2..])
  }

  /** The first separator after an item free of separators is the one
      `Join` put there. */
  lemma FindSepAfterItem(x: string, rest: string)
    requires !ContainsSep(x)
    ensures FindSep(x + ListSep + rest) == |x|
  {
    var s := x + ListSep + rest;
    var i := FindSep(s);
    assert HasSepAt(s, |x|);
    assert !HasSepAt(x, i);
  }

  /** Joining a non-empty list of separator-free items and splitting the
      result again gives back the items. */
  lemma {:induction false} SplitJoin(xs: seq<string>)
    requires |xs| >= 1
    requires forall k :: 0 <= k < |xs| ==> !ContainsSep(xs[k])
    ensures Split(Join(xs, ListSep)) == xs
    decreases |xs|
  {
    if |xs| == 1 {
      assert !HasSepAt(xs[0], FindSep(xs[0]));
    } else {
      var rest := Join(xs[1..], ListSep);
      var s := xs[0] + ListSep + rest;
      FindSepAfterItem(xs[0], rest);
      assert s[..|xs[0]|] == xs[0];
      assert s[|xs[0]| + 2..] == rest;
      assert Join(xs, ListSep) == s;
      assert Split(s) == [xs[0]] + Split(rest);
      SplitJoin(xs[1..]);
      assert xs == [xs[0]] + xs[1..];
    }
  }
}
