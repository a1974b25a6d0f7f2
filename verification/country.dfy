/** The country record: the API's raw object, with every field optional,
    and the view record the list and the detail view are drawn from. */
module Country {
  import opened Options

  datatype RawFlags = RawFlags(png: Option<string>, alt: Option<string>)
  datatype RawName = RawName(common: Option<string>)
  datatype RawCurrency = RawCurrency(name: Option<string>)

  /** A country object as the API returns it. The `currencies` and
      `languages` objects are kept as their (key, value) entries in
      property order, which is the order `Object.values` lists them in. */
  datatype RawCountry = RawCountry(
    flags: Option<RawFlags>,
    name: Option<RawName>,
    population: Option<int>,
    region: Option<string>,
    subregion: Option<string>,
    capital: Option<seq<string>>,
    tld: Option<seq<string>>,
    currencies: Option<seq<(string, RawCurrency)>>,
    languages: Option<seq<(string, string)>>,
    borders: Option<seq<string>>)

  /** Top-level domains: a lone domain is unwrapped, any other number is
      kept as a list. */
  datatype Tld = Single(domain: string) | Many(domains: seq<string>)

  datatype View = View(
    flag: string,
    alt: string,
    name: string,
    population: int,
    region: string,
    subregion: string,
    capital: seq<string>,
    tld: Tld,
    currencies: seq<string>,
    languages: seq<string>,
    borders: seq<string>)

  /** The views `Normalise` can produce: a domain list is never of length one. */
  predicate WellFormed(v: View) {
    v.tld.Many? ==> |v.tld.domains| != 1
  }

  function CurrencyName(e: (string, RawCurrency)): string {
    e.1.name.ValueOr("")
  }

  function LanguageName(e: (string, string)): string {
    e.1
  }

  /** `renderObject`: the view record of a raw country. Every field present
      is copied, and every field missing gets its default: "" for texts, 0
      for the population, the empty list for lists. */
  function Normalise(c: RawCountry): (v: View)
    ensures v.flag == if c.flags.Some? && c.flags.value.png.Some? then c.flags.value.png.value else ""
    ensures v.alt == if c.flags.Some? && c.flags.value.alt.Some? then c.flags.value.alt.value else ""
    ensures v.name == if c.name.Some? && c.name.value.common.Some? then c.name.value.common.value else ""
    ensures v.population == if c.population.Some? then c.population.value else 0
    ensures v.region == if c.region.Some? then c.region.value else ""
    ensures v.subregion == if c.subregion.Some? then c.subregion.value else ""
    ensures v.capital == if c.capital.Some? then c.capital.value else []
    ensures v.borders == if c.borders.Some? then c.borders.value else []
    ensures WellFormed(v)
    ensures v.tld.Single? <==> c.tld.Some? && |c.tld.value| == 1
    ensures v.tld.Single? ==> v.tld.domain == c.tld.value[0]
    ensures v.tld.Many? ==> v.tld.domains == c.tld.ValueOr([])
    ensures |v.currencies| == |c.currencies.ValueOr([])|
    ensures forall i :: 0 <= i < |v.currencies| ==> v.currencies[i] == c.currencies.value[i].1.name.ValueOr("")
    ensures |v.languages| == |c.languages.ValueOr([])|
    ensures forall i :: 0 <= i < |v.languages| ==> v.languages[i] == c.languages.value[i].1
  {
    var flags := c.flags.ValueOr(RawFlags(None, None));
    var currencies := c.currencies.ValueOr([]);
    var languages := c.languages.ValueOr([]);
    View(
      flag := flags.png.ValueOr(""),
      alt := flags.alt.ValueOr(""),
      name := c.name.ValueOr(RawName(None)).common.ValueOr(""),
      population := c.population.ValueOr(0),
      region := c.region.ValueOr(""),
      subregion := c.subregion.ValueOr(""),
      capital := c.capital.ValueOr([]),
      tld := if c.tld.Some? && |c.tld.value| == 1 then Single(c.tld.value[0]) else Many(c.tld.ValueOr([])),
      currencies := seq(|currencies|, i requires 0 <= i < |currencies| => CurrencyName(currencies[i])),
      languages := seq(|languages|, i requires 0 <= i < |languages| => LanguageName(languages[i])),
      borders := c.borders.ValueOr([]))
  }

  /** A country object with no field at all. */
  const Empty: RawCountry := RawCountry(None, None, None, None, None, None, None, None, None, None)

  /** The view of a country that lacks every field: all defaults. */
  lemma NormaliseEmpty()
    ensures Normalise(Empty) == View("", "", "", 0, "", "", [], Many([]), [], [], [])
  {
  }

  /** The property name of the `i`th currency or language entry of a
      rebuilt country: distinct for distinct entries, and not integer-like,
      so `Object.values` lists the entries in the order they were added. */
  function EntryKey(i: nat): string {
    seq(i + 1, _ => 'k')
  }

  /** A raw country carrying exactly the fields of a view, each currency and
      language entry under a property name of its own. */
  function Denormalise(v: View): (c: RawCountry)
    ensures c.currencies.Some? && c.languages.Some?
    ensures forall i, j :: 0 <= i < j < |c.currencies.value| ==> c.currencies.value[i].0 != c.currencies.value[j].0
    ensures forall i, j :: 0 <= i < j < |c.languages.value| ==> c.languages.value[i].0 != c.languages.value[j].0
  {
    RawCountry(
      flags := Some(RawFlags(Some(v.flag), Some(v.alt))),
      name := Some(RawName(Some(v.name))),
      population := Some(v.population),
      region := Some(v.region),
      subregion := Some(v.subregion),
      capital := Some(v.capital),
      tld := Some(match v.tld case Single(d) => [d] case Many(ds) => ds),
      currencies := Some(seq(|v.currencies|, i requires 0 <= i < |v.currencies| => (EntryKey(i), RawCurrency(Some(v.currencies[i]))))),
      languages := Some(seq(|v.languages|, i requires 0 <= i < |v.languages| => (EntryKey(i), v.languages[i]))),
      borders := Some(v.borders))
  }

  /** Every well-formed view is the view of some raw country, and
      normalising loses nothing of a view: the well-formed views are
      exactly the views `Normalise` produces. */
  lemma NormaliseDenormalise(v: View)
    requires WellFormed(v)
    ensures Normalise(Denormalise(v)) == v
  {
    var w := Normalise(Denormalise(v));
    assert w.currencies == v.currencies;
    assert w.languages == v.languages;
  }
}
