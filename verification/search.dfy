/** The search field's input handler: what the field shows after each
    keystroke, the text the debounced query is given, and whether the
    cancel button is shown. */
module Search {
  import opened Text
  import opened Seqs

  const LowerKeys: string := "qwertyuiopasdfghjklzxcvbnm"
  const UpperKeys: string := "QWERTYUIOPASDFGHJKLZXCVBNM"
  const Marks: string := "-' "

  /** The handler's `allowedChars`, the three keyboard rows of lower-case
      letters, then of upper-case letters, then hyphen, apostrophe, space. */
  const AllowedChars: string := LowerKeys + UpperKeys + Marks

  /** A character the handler lets through: an ASCII letter, the hyphen,
      the apostrophe or the space. */
  predicate IsAllowed(c: char) {
    'a' <= c <= 'z' || 'A' <= c <= 'Z' || c == '-' || c == '\'' || c == ' '
  }

  lemma LowerKeysAre(c: char)
    ensures c in LowerKeys <==> 'a' <= c <= 'z'
  {
  }

  lemma UpperKeysAre(c: char)
    ensures c in UpperKeys <==> 'A' <= c <= 'Z'
  {
  }

  /** The allowed characters are exactly the characters of `AllowedChars`:
      `IsAllowed` is the handler's `allowedChars.includes(char)`. */
  lemma AllowedCharsAre(c: char)
    ensures IsAllowed(c) <==> c in AllowedChars
  {
    LowerKeysAre(c);
    UpperKeysAre(c);
    assert c in AllowedChars <==> c in LowerKeys || c in UpperKeys || c in Marks;
  }

  predicate AllAllowed(s: string) {
    forall i :: 0 <= i < |s| ==> IsAllowed(s[i])
  }

  /** The string the handler builds (`newValue`): the field's text,
      left-trimmed, with every character outside `AllowedChars` dropped. */
  function Sanitise(raw: string): (r: string)
    ensures AllAllowed(r)
  {
    Filter(IsAllowed, TrimStart(raw))
  }

  /** The sanitised text keeps the left-trimmed text's allowed characters
      in their order, so it is never longer than what was typed. */
  lemma SanitiseKeepsOrder(raw: string)
    ensures IsSubseq(Sanitise(raw), TrimStart(raw))
    ensures |Sanitise(raw)| <= |TrimStart(raw)| <= |raw|
  {
    FilterIsSubseq(IsAllowed, TrimStart(raw));
    TrimStartDrops(raw);
  }

  /** The sanitised text keeps every allowed character of the left-trimmed
      text, as often as it occurs there, and no other character. */
  lemma SanitiseCounts(raw: string, c: char)
    ensures multiset(Sanitise(raw))[c] == if IsAllowed(c) then multiset(TrimStart(raw))[c] else 0
  {
    FilterCount(IsAllowed, TrimStart(raw), c);
  }

  /** The handler's character loop computes `Sanitise`. */
  method SanitiseInput(raw: string) returns (newValue: string)
    ensures newValue == Sanitise(raw)
  {
    var value := TrimStart(raw);
    newValue := "";
    var i := 0;
    while i < |value|
      invariant 0 <= i <= |value|
      invariant newValue == Filter(IsAllowed, value[..i])
    {
      assert value[..i + 1] == value[..i] + [value[i]];
      FilterSnoc(IsAllowed, value[..i], value[i]);
      if IsAllowed(value[i]) {
        newValue := newValue + [value[i]];
      }
      i := i + 1;
    }
    assert value[..|value|] == value;
  }

  /** The effect of one input event: the text written back into the field,
      the text the debounce timer will store as the search query, and
      whether the cancel button is active. */
  datatype InputUpdate = InputUpdate(shown: string, pending: string, cancelActive: bool)

  /** The only white space an allowed-only text can hold is the space, so
      trimming it drops a run of spaces and nothing else. */
  lemma TrimAllowed(p: string)
    requires AllAllowed(p)
    ensures |TrimStart(p)| <= |p|
    ensures p[|p| - |TrimStart(p)|..] == TrimStart(p)
    ensures forall i :: 0 <= i < |p| - |TrimStart(p)| ==> p[i] == ' '
    ensures |TrimStart(p)| == 0 || TrimStart(p)[0] != ' '
  {
    TrimStartDrops(p);
    forall i | 0 <= i < |p| - |TrimStart(p)| ensures p[i] == ' ' {
      assert IsAllowed(p[i]) && IsSpace(p[i]);
    }
  }

  /** One input event on a field holding `raw`. The query gets the
      sanitised text; the field shows it without its leading spaces and
      nothing else removed, so the query is some spaces followed by the
      shown text. The cancel button is active when the field shows
      something or the query has a leading space. */
  function OnInput(raw: string): (u: InputUpdate)
    ensures u.pending == Sanitise(raw)
    ensures |u.shown| <= |u.pending|
    ensures u.pending[|u.pending| - |u.shown|..] == u.shown
    ensures forall i :: 0 <= i < |u.pending| - |u.shown| ==> u.pending[i] == ' '
    ensures |u.shown| == 0 || u.shown[0] != ' '
    ensures u.cancelActive <==> u.shown != "" || u.pending != u.shown
  {
    var newValue := Sanitise(raw);
    TrimAllowed(newValue);
    InputUpdate(TrimStart(newValue), newValue, |newValue| > 0)
  }

  /** The text shown in the field is a fixed point of the handler: the next
      input event, which reads the field, finds nothing more to remove. */
  lemma ShownIsStable(raw: string)
    ensures Sanitise(OnInput(raw).shown) == OnInput(raw).shown
  {
    var u := OnInput(raw);
    var p, sh := u.pending, u.shown;
    TrimStartDrops(p);
    assert AllAllowed(sh) by {
      forall i | 0 <= i < |sh| ensures IsAllowed(sh[i]) {
        assert sh[i] == p[|p| - |sh| + i];
      }
    }
    assert TrimStart(sh) == sh;
    FilterKeepsAll(IsAllowed, sh);
  }

  /** Sanitising a dropped character, a space and an allowed word keeps
      the space and the word. */
  lemma SanitiseKeepsInnerSpace(d: char, w: string)
    requires !IsAllowed(d) && !IsSpace(d)
    requires AllAllowed(w)
    ensures Sanitise([d, ' '] + w) == [' '] + w
  {
    var raw := [d, ' '] + w;
    assert TrimStart(raw) == raw;
    FilterConcat(IsAllowed, [d, ' '], w);
    FilterSnoc(IsAllowed, [], d);
    FilterSnoc(IsAllowed, [d], ' ');
    assert [] + [d] == [d] && [d] + [' '] == [d, ' '];
    FilterKeepsAll(IsAllowed, w);
  }

  /** A character the handler drops, followed by a space and a word, leaves
      the space at the head of the query while the field shows only the
      word. */
  lemma LeadingSpaceSurvivesInQuery(d: char, w: string)
    requires !IsAllowed(d) && !IsSpace(d)
    requires AllAllowed(w) && (|w| == 0 || w[0] != ' ')
    ensures OnInput([d, ' '] + w) == InputUpdate(w, [' '] + w, true)
  {
    var p := [' '] + w;
    SanitiseKeepsInnerSpace(d, w);
    assert TrimStart(p) == w by {
      assert p[1..] == w;
      assert |w| == 0 || !IsSpace(w[0]);
    }
  }

  /** "1 abc" shows "abc" but queries " abc"; "1 " shows nothing, yet the
      query is a space and the cancel button is active. */
  lemma LeadingSpaceExamples()
    ensures OnInput("1 abc") == InputUpdate("abc", " abc", true)
    ensures OnInput("1 ") == InputUpdate("", " ", true)
  {
    LeadingSpaceSurvivesInQuery('1', "abc");
    assert "1 abc" == ['1', ' '] + "abc";
    assert " abc" == [' '] + "abc";
    LeadingSpaceSurvivesInQuery('1', "");
    assert "1 " == ['1', ' '] + "";
    assert " " == [' '] + "";
  }
}
