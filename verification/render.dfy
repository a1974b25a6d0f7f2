/** The field texts of a country's card in the list and of its detail
    view. Markup is out of the model except the tag around each border
    code, which is part of that field's text. */
module Render {
  import opened Text
  import opened Country

  const NoneText: string := "None"

  /** The capitals, comma-joined; an empty list gives an empty text. */
  function CapitalText(capital: seq<string>): string {
    Join(capital, ListSep)
  }

  /** A domain list is comma-joined; a lone domain is shown as it is. */
  function TldText(t: Tld): string {
    match t
    case Single(d) => d
    case Many(ds) => Join(ds, ListSep)
  }

  /** Currencies and languages: comma-joined, or "None" for an empty list. */
  function ListOrNone(xs: seq<string>): string {
    if |xs| == 0 then NoneText else Join(xs, ListSep)
  }

  const OpenTag: string := "<span>"
  const CloseTag: string := "</span>"

  function BorderTag(code: string): string {
    OpenTag + code + CloseTag
  }

  /** Border codes: each wrapped in a tag, concatenated, or "None" for an
      empty list. */
  function BordersText(codes: seq<string>): string {
    if |codes| == 0 then NoneText
    else Join(seq(|codes|, i requires 0 <= i < |codes| => BorderTag(codes[i])), "")
  }

  /** The texts of a card in the list. The population is carried as a
      number: its locale formatting is out of the model. */
  datatype Card = Card(flag: string, alt: string, name: string, population: int, region: string, capital: string)

  /** The texts of the detail view. */
  datatype Detail = Detail(
    flag: string, alt: string, name: string, nativeName: string, population: int,
    region: string, subregion: string, capital: string, tld: string,
    currencies: string, languages: string, borders: string)

  function CardOf(v: View): Card {
    Card(v.flag, v.alt, v.name, v.population, v.region, CapitalText(v.capital))
  }

  function DetailOf(v: View): Detail {
    Detail(v.flag, v.alt, v.name, v.name, v.population, v.region, v.subregion,
           CapitalText(v.capital), TldText(v.tld), ListOrNone(v.currencies),
           ListOrNone(v.languages), BordersText(v.borders))
  }

  /** The card and the detail view of one record show the same flag, name,
      population, region and capital. */
  lemma CardAndDetailAgree(v: View)
    ensures var c := CardOf(v); var d := DetailOf(v);
      c.flag == d.flag && c.alt == d.alt && c.name == d.name && c.name == d.nativeName
      && c.population == d.population && c.region == d.region && c.capital == d.capital
  {
  }

  /** A currency or language text reads "None" exactly when the list is
      empty or is the one item "None": several items always show a comma. */
  lemma {:induction false} ListOrNoneIsNone(xs: seq<string>)
    ensures ListOrNone(xs) == NoneText <==> |xs| == 0 || xs == [NoneText]
  {
    if |xs| == 1 {
      assert xs == [xs[0]];
    } else if |xs| > 1 {
      var t := Join(xs, ListSep);
      assert t[|xs[0]|] == ',';
      assert forall k :: 0 <= k < |NoneText| ==> NoneText[k] != ',';
    }
  }

  /** A non-empty currency or language list whose items hold no ", " can be
      read back from its text. */
  lemma ListOrNoneReadsBack(xs: seq<string>)
    requires |xs| >= 1
    requires forall k :: 0 <= k < |xs| ==> !ContainsSep(xs[k])
    ensures Split(ListOrNone(xs)) == xs
  {
    SplitJoin(xs);
  }

  /** The border text reads "None" exactly when there are no border codes:
      every tagged text starts with '<'. */
  lemma BordersNoneExactly(codes: seq<string>)
    ensures BordersText(codes) == NoneText <==> |codes| == 0
  {
    if |codes| > 0 {
      var tags := seq(|codes|, i requires 0 <= i < |codes| => BorderTag(codes[i]));
      assert tags[0][0] == '<';
      assert Join(tags, "")[0] == '<' by {
        if |tags| > 1 {
          assert Join(tags, "") == tags[0] + "" + Join(tags[1..], "");
        }
      }
    }
  }

  /** A border code that holds no '<', so no tag can start inside it. */
  predicate Untagged(code: string) {
    forall i :: 0 <= i < |code| ==> code[i] != '<'
  }

  /** The index of the first '<' in `s`, or `|s|` when there is none. */
  function FindTag(s: string): (i: nat)
    ensures i <= |s|
    ensures i < |s| ==> s[i] == '<'
    ensures forall j :: 0 <= j < i ==> s[j] != '<'
    decreases |s|
  {
    if |s| == 0 then 0
    else if s[0] == '<' then 0
    else 1 + FindTag(s[1..])
  }

  /** Reads border codes back from a text of tagged codes: each
      `<span>code</span>` in turn, up to the first text that is not one. */
  function ParseBorders(s: string): seq<string>
    decreases |s|
  {
    if |s| < |OpenTag| || s[..|OpenTag|] != OpenTag then []
    else
      var body := s[|OpenTag|..];
      var k := FindTag(body);
      if k + |CloseTag| <= |body| && body[k..k + |CloseTag|] == CloseTag
      then [body[..k]] + ParseBorders(body[k + |CloseTag|..])
      else []
  }

  /** A tagged code followed by any text reads as that code, then whatever
      the rest reads as. */
  lemma ParseBorderTag(code: string, rest: string)
    requires Untagged(code)
    ensures ParseBorders(BorderTag(code) + rest) == [code] + ParseBorders(rest)
  {
    var s := BorderTag(code) + rest;
    var body := code + CloseTag + rest;
    assert s[..|OpenTag|] == OpenTag;
    assert s[|OpenTag|..] == body;
    assert body[|code|] == '<';
    assert forall j :: 0 <= j < |code| ==> body[j] == code[j];
    assert FindTag(body) == |code|;
    assert body[|code|..|code| + |CloseTag|] == CloseTag;
    assert body[..|code|] == code;
    assert body[|code| + |CloseTag|..] == rest;
  }

  /** The border text of two or more codes is the first tagged code
      followed by the border text of the others. */
  lemma BordersTextCons(codes: seq<string>)
    requires |codes| >= 2
    ensures BordersText(codes) == BorderTag(codes[0]) + BordersText(codes[1..])
  {
    var tags := seq(|codes|, i requires 0 <= i < |codes| => BorderTag(codes[i]));
    var rest := codes[1..];
    assert tags[1..] == seq(|rest|, i requires 0 <= i < |rest| => BorderTag(rest[i]));
    assert Join(tags, "") == tags[0] + "" + Join(tags[1..], "");
  }

  /** A non-empty list of untagged border codes can be read back from its
      text: each code appears in its own tag, in order. */
  lemma {:induction false} BordersReadBack(codes: seq<string>)
    requires |codes| >= 1
    requires forall k :: 0 <= k < |codes| ==> Untagged(codes[k])
    ensures ParseBorders(BordersText(codes)) == codes
    decreases |codes|
  {
    if |codes| == 1 {
      ParseBorderTag(codes[0], "");
      assert BorderTag(codes[0]) + "" == BorderTag(codes[0]);
      assert codes == [codes[0]];
    } else {
      BordersTextCons(codes);
      ParseBorderTag(codes[0], BordersText(codes[1..]));
      BordersReadBack(codes[1..]);
      assert codes == [codes[0]] + codes[1..];
    }
  }

  /** An empty capital list shows an empty text, never "None"; a text is
      empty only for no capital or one empty capital. */
  lemma CapitalBlank(capital: seq<string>)
    ensures CapitalText(capital) == "" <==> |capital| == 0 || capital == [""]
    ensures |capital| == 0 ==> CapitalText(capital) != NoneText
  {
    JoinEmpty(capital, ListSep);
  }

  /** Unwrapping a lone domain does not change what the detail view shows:
      the domain text is the comma-joined domain list of the raw country. */
  lemma TldUnwrapInvisible(c: RawCountry)
    ensures TldText(Normalise(c).tld) == Join(c.tld.ValueOr([]), ListSep)
  {
  }

  /** A country object without currencies, languages or borders shows
      "None" for each of them in the detail view. */
  lemma MissingListsShowNone(c: RawCountry)
    ensures c.currencies.None? ==> DetailOf(Normalise(c)).currencies == NoneText
    ensures c.languages.None? ==> DetailOf(Normalise(c)).languages == NoneText
    ensures c.borders.None? ==> DetailOf(Normalise(c)).borders == NoneText
  {
  }
}
