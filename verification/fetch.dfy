/** What the country list shows once a request's answer arrives: the
    client-side name filter and the classification of the answer into
    "No results were found" or one card per country. */
module Fetch {
  import opened Options
  import opened Seqs
  import opened Text
  import opened Country

  /** The answer to a request: a failure (transport error, non-2xx status,
      a body that is not an array) or the array of country objects. */
  datatype Response = Failed | Ok(items: seq<RawCountry>)

  /** The list area: the error heading, or the cards in order. */
  datatype Screen = NoResults | Cards(cards: seq<View>)

  /** The outcome of the name test on one country. `Throw` is a name object
      without a `common` name, on which the test raises a TypeError. */
  datatype Verdict = Keep | Drop | Throw

  /** The name test for a non-empty search term: the lower-cased common
      name contains the lower-cased term. A country with no name object is
      dropped. */
  function NameVerdict(c: RawCountry, term: string): (v: Verdict)
    ensures v == Throw <==> c.name.Some? && c.name.value.common.None?
    ensures v == Keep <==>
      && c.name.Some? && c.name.value.common.Some?
      && exists i :: OccursAt(Lower(c.name.value.common.value), Lower(term), i)
  {
    match c.name
    case None => Drop
    case Some(n) =>
      match n.common
      case None => Throw
      case Some(common) => if Contains(Lower(common), Lower(term)) then Keep else Drop
  }

  function Matches(term: string): RawCountry -> bool {
    c => NameVerdict(c, term) == Keep
  }

  predicate Throws(items: seq<RawCountry>, term: string) {
    exists i :: 0 <= i < |items| && NameVerdict(items[i], term) == Throw
  }

  /** `data.filter(...)`: the countries that pass the name test, or `None`
      when the test throws on one of them. */
  function NameFilter(items: seq<RawCountry>, term: string): (r: Option<seq<RawCountry>>)
    ensures r.None? <==> Throws(items, term)
  {
    if Throws(items, term) then None else Some(Filter(Matches(term), items))
  }

  /** The filter loop, in the order `Array.prototype.filter` visits the
      countries; the first throwing test abandons the whole filter. */
  method FilterByName(items: seq<RawCountry>, term: string) returns (r: Option<seq<RawCountry>>)
    ensures r == NameFilter(items, term)
  {
    var kept: seq<RawCountry> := [];
    var i := 0;
    while i < |items|
      invariant 0 <= i <= |items|
      invariant kept == Filter(Matches(term), items[..i])
      invariant forall j :: 0 <= j < i ==> NameVerdict(items[j], term) != Throw
    {
      assert items[..i + 1][..i] == items[..i];
      var verdict := NameVerdict(items[i], term);
      if verdict == Throw {
        return None;
      }
      if verdict == Keep {
        kept := kept + [items[i]];
      }
      i := i + 1;
    }
    assert items[..|items|] == items;
    return Some(kept);
  }

  /** The filter keeps exactly the countries that pass the name test, each
      as often as it occurs, in their original order. */
  lemma NameFilterKeeps(items: seq<RawCountry>, term: string, c: RawCountry)
    requires NameFilter(items, term).Some?
    ensures IsSubseq(NameFilter(items, term).value, items)
    ensures multiset(NameFilter(items, term).value)[c]
         == if NameVerdict(c, term) == Keep then multiset(items)[c] else 0
  {
    FilterIsSubseq(Matches(term), items);
    FilterCount(Matches(term), items, c);
  }

  /** A country is kept exactly when it is among the answer and its common
      name contains the term, ignoring ASCII case; a country without a name
      object is never kept. */
  lemma NameFilterMembers(items: seq<RawCountry>, term: string, c: RawCountry)
    requires NameFilter(items, term).Some?
    ensures var kept := NameFilter(items, term).value;
      && (c.name.None? ==> c !in kept)
      && (c in kept <==> c in items && c.name.Some? && c.name.value.common.Some?
                         && Contains(Lower(c.name.value.common.value), Lower(term)))
  {
    var kept := NameFilter(items, term).value;
    NameFilterKeeps(items, term, c);
    assert (c in kept) == (multiset(kept)[c] > 0);
    assert (c in items) == (multiset(items)[c] > 0);
  }

  /** The list area after the answer to a request with client filter
      `term` arrives. */
  function Classify(resp: Response, term: string): (s: Screen)
    ensures s.Cards? ==> resp.Ok? && 0 < |s.cards| <= |resp.items|
  {
    match resp
    case Failed => NoResults
    case Ok(items) =>
      if |items| == 0 then NoResults
      else
        var kept := if term == "" then Some(items) else NameFilter(items, term);
        if kept.None? || |kept.value| == 0 then NoResults
        else Cards(seq(|kept.value|, i requires 0 <= i < |kept.value| => Normalise(kept.value[i])))
  }

  /** The "No results were found" heading appears exactly when the request
      failed, the array is empty, the name test throws, or no country passes
      the name test. */
  lemma NoResultsWhen(resp: Response, term: string)
    ensures Classify(resp, term) == NoResults <==>
      || resp.Failed?
      || |resp.items| == 0
      || (term != "" && Throws(resp.items, term))
      || (term != "" && forall i :: 0 <= i < |resp.items| ==> NameVerdict(resp.items[i], term) != Keep)
  {
    if resp.Ok? && term != "" && !Throws(resp.items, term) {
      FilterEmpty(Matches(term), resp.items);
    }
  }

  /** Otherwise there is one card per kept country, in order, each the
      country's view record. With no client filter every country gets a
      card. */
  lemma CardsAre(resp: Response, term: string)
    requires Classify(resp, term).Cards?
    ensures var kept := if term == "" then resp.items else NameFilter(resp.items, term).value;
      var cards := Classify(resp, term).cards;
      && |cards| == |kept|
      && forall i :: 0 <= i < |cards| ==> cards[i] == Normalise(kept[i])
  {
  }
}
