/** Worked cases of the whole pipeline: from the query state to the
    request, and from the answer to the list shown. */
module Scenarios {
  import opened Options
  import opened Text
  import opened Seqs
  import opened Query
  import opened Country
  import opened Fetch

  function Named(common: string): RawCountry {
    Empty.(name := Some(RawName(Some(common))))
  }

  /** Search text "france" with all regions asks the API for the name
      "france" with no client filter, so every country of the answer gets
      a card: the name test is the API's, not the page's. */
  lemma FranceScenario()
    ensures Derive(AllPath, "france") == Request("/name/france", "")
    ensures Classify(Ok([Named("France")]), Derive(AllPath, "france").nameFilter)
         == Cards([Normalise(Named("France"))])
    ensures Classify(Ok([Named("Germany")]), Derive(AllPath, "france").nameFilter)
         == Cards([Normalise(Named("Germany"))])
  {
    assert NamePrefix + "france" == "/name/france";
  }

  /** "United Kingdom" contains "united" ignoring case; "France" does not. */
  lemma UnitedVerdicts()
    ensures NameVerdict(Named("United Kingdom"), "united") == Keep
    ensures NameVerdict(Named("France"), "united") == Drop
  {
    assert Lower("United Kingdom") == "united kingdom";
    assert Lower("united") == "united";
    assert Lower("France") == "france";
    assert OccursAt("united kingdom", "united", 0);
    assert !Contains("france", "united") by {
      assert "france"[0] != "united"[0];
      assert |"france"[1..]| < |"united"|;
    }
  }

  /** Of two countries, one passing and one failing the name test, only
      the first gets a card. */
  lemma KeepThenDrop(a: RawCountry, b: RawCountry, term: string)
    requires term != ""
    requires NameVerdict(a, term) == Keep && NameVerdict(b, term) == Drop
    ensures Classify(Ok([a, b]), term) == Cards([Normalise(a)])
  {
    var items := [a, b];
    assert !Throws(items, term);
    FilterSnoc(Matches(term), [], a);
    FilterSnoc(Matches(term), [a], b);
    assert [] + [a] == [a] && [a] + [b] == items;
    assert NameFilter(items, term) == Some([a]);
    assert seq(1, i requires 0 <= i < 1 => Normalise([a][i])) == [Normalise(a)];
  }

  /** With region Europe and search text "united", the whole region is
      fetched and filtered on the client: "United Kingdom" is shown and
      "France" is not. */
  lemma EuropeUnitedScenario()
    ensures Derive("/region/Europe", "united") == Request("/region/Europe", "united")
    ensures Classify(Ok([Named("United Kingdom"), Named("France")]), "united")
         == Cards([Normalise(Named("United Kingdom"))])
  {
    UnitedVerdicts();
    KeepThenDrop(Named("United Kingdom"), Named("France"), "united");
  }

  /** An empty array shows the "No results were found" heading and no card. */
  lemma EmptyArrayScenario(term: string)
    ensures Classify(Ok([]), term) == NoResults
  {
  }
}
