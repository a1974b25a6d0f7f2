# Countries explorer: the query and rendering pipeline in Dafny

The countries explorer is a browser page that lists countries from a public
countries API. Users can search them by name, narrow them to one region,
and open a detail view for one country. Its logic is a small pipeline of
pure steps inside the DOM event handlers of `src/js/script.js`, and this
project models those steps:

- **Search field** (`Search`). Each input event left-trims the field's text
  and keeps only ASCII letters, hyphen, apostrophe and space. The result is
  written back to the field after a second left-trim. The debounced query
  gets the result before that second trim. The cancel button follows the
  untrimmed length.
- **Query state** (`Query`). The region filter is `/all` or
  `/region/<name>`. The search query is the last settled search text. Each
  user action changes these two values, and the request follows from them
  through `updateFilteredData`. The request is an API path plus an optional
  client-side name filter.
- **Answer classification** (`Fetch`). The answer is either a failure or
  an array of country objects. An optional name filter then applies: the
  lower-cased common name must contain the lower-cased term. A failure, an
  empty array, a throwing name test or an empty filtered list all show
  "No results were found". Any other answer shows one card per country, in
  order.
- **Record normalisation** (`Country`). `renderObject` is a total map from a
  raw API object, in which every field may be missing, to a view record with
  defaults. A lone top-level domain is unwrapped.
- **Field texts** (`Render`). These are the capital, domain, currency,
  language and border texts of the card and the detail view, including the
  literal "None" fallbacks.

`Text` holds the JavaScript string operations the pipeline uses: `trimStart`,
ASCII `toLowerCase`, `includes` and `join`. It also holds a `Split` that
inverts `join` with ", ". `Seqs` holds `Array.prototype.filter` and the
subsequence relation. `Options` holds the optional value. `Scenarios` works
through example interactions of the app.

The query is not trimmed a second time: the handler stores `newValue`
before its second `trimStart`. So input `"1 abc"` shows `abc` in the field
but queries ` abc`. Input `"1 "` shows an empty field, yet the cancel
button is active and the query is a single space
(`Search.LeadingSpaceExamples`).

## Model

| member | source | states |
|---|---|---|
| Text.TrimStart | src/js/script.js:31 | `trimStart`; its contract is stated by `Text.TrimStartDrops` |
| Text.TrimStartDrops | src/js/script.js:31 | left-trimming removes a leading run of white space and nothing else; the rest does not start with white space |
| Text.Contains | src/js/script.js:124 | `includes` is true exactly when the term occurs at some index of the text |
| Text.Lower | src/js/script.js:124 | `toLowerCase` on ASCII: the result has the input's length and no capital letter, and each character is the input's or its small letter |
| Text.Join | src/js/script.js:179-211 | `join`; its contract is stated by `Text.JoinEmpty` and `Text.SplitJoin` |
| Text.JoinEmpty | src/js/script.js:179 | a joined list is empty exactly when it has no item or one empty item |
| Text.SplitJoin | src/js/script.js:200-205 | a non-empty list joined with ", " splits back into the same items when no item contains ", " |
| Search.AllowedCharsAre | src/js/script.js:30-33 | a character passes the handler exactly when it occurs in the handler's allowed-character string: an ASCII letter, hyphen, apostrophe or space |
| Search.Sanitise | src/js/script.js:30-33 | the sanitised text holds only allowed characters; that it keeps every allowed one is `Search.SanitiseCounts` |
| Search.SanitiseKeepsOrder | src/js/script.js:30-33 | the sanitised text is an order-preserving subsequence of the left-trimmed input and is never longer than the input |
| Search.SanitiseCounts | src/js/script.js:30-33 | every allowed character of the left-trimmed input is kept as often as it occurs there, and every other character is dropped |
| Search.SanitiseInput | src/js/script.js:31-33 | the handler's character loop builds exactly the sanitised text |
| Search.TrimAllowed | src/js/script.js:34 | the second trim of an allowed-only text drops a run of spaces and nothing else, and leaves no leading space |
| Search.OnInput | src/js/script.js:29-39 | the query is the sanitised text. The field shows it with its leading spaces removed and nothing else removed: the query is a run of spaces followed by the shown text, which does not start with a space. The cancel button is active exactly when the field shows something or the query has a leading space |
| Search.ShownIsStable | src/js/script.js:29-34 | sanitising the text shown in the field gives that same text back |
| Search.LeadingSpaceSurvivesInQuery | src/js/script.js:31-39 | a dropped non-space character, then a space, then a word: the field shows the word and the query is the space plus the word |
| Search.LeadingSpaceExamples | src/js/script.js:31-39 | "1 abc" shows "abc" and queries " abc"; "1 " shows "" and queries " " with the cancel button active |
| Query.ParsePathOf | src/js/script.js:71-101 | every API path the app builds (all, region, name) reads back as the query it encodes |
| Query.PathOfParse | src/js/script.js:71-101 | every path that reads as a query is exactly that query's path |
| Query.ValidRegionReads | src/js/script.js:64-82 | a valid region filter reads as "all countries" exactly when it is `/all`, and otherwise as one non-empty region |
| Query.Derive | src/js/script.js:95-103 | a chosen region is fetched as it is, with the search text as client filter; a client filter is used only with a region path; non-empty search text is never lost; `/all` is fetched only with no region and no search text |
| Query.DeriveAsks | src/js/script.js:95-103 | for a valid region filter: the chosen region itself is fetched, whatever the search text, with the search text as client filter; otherwise non-empty search text becomes a name query and empty text fetches all, with no client filter |
| Query.Url | src/js/script.js:106-113 | the path can be read back out of the fetched URL, from between the API base and the fixed field list |
| Query.UrlOfPath | src/js/script.js:106-113 | every URL whose path can be read back is the URL built for that path, so the URL and the path determine each other |
| Query.UrlAsks | src/js/script.js:95-113 | the URL fetched for a valid query state asks the API for the chosen region exactly when one is chosen, otherwise for the search text as a name when there is some, otherwise for all countries |
| Query.Step | src/js/script.js:38-82 | each action keeps the region filter valid and the search query allowed. A settled search stores the sanitised text and cancelling the search stores the empty text. Picking a region `r` stores a filter that reads as region `r`. Cancelling the filter always resets the region to `/all`. Region actions keep the search text and search actions keep the region. An option without a region changes nothing and fetches nothing. Every other action fetches the request derived from the new state |
| Query.Run | src/js/script.js:19-82 | the state after a sequence of actions from page load; its contract is stated by `Query.RunInvariant` |
| Query.RunInvariant | src/js/script.js:19-82 | after any sequence of actions from page load, the region filter is `/all` or `/region/<non-empty>` and the search query holds only allowed characters |
| Query.InitialRequest | src/js/script.js:235 | page load fetches all countries with no client filter |
| Country.Normalise | src/js/script.js:143-157 | the view record is total and well formed. Flag, alt text, name, population, region, subregion, capitals and borders are copied when present and otherwise default to "", 0 or the empty list. `tld` becomes a single domain exactly when the raw list has length one; otherwise it is the list, or empty when missing. Currencies become their names in order, with "" for a nameless one, and languages become their values in order |
| Country.NormaliseEmpty | src/js/script.js:143-157 | a country with every field missing gets every default: empty strings, population 0, empty lists |
| Country.Denormalise | src/js/script.js:153-154 | a raw country carrying a view's fields, whose currency and language entries have pairwise distinct property names, as a JavaScript object's must |
| Country.NormaliseDenormalise | src/js/script.js:143-157 | every well-formed view record is the record of some raw country, so normalisation produces exactly the well-formed records |
| Fetch.NameVerdict | src/js/script.js:124 | the name test throws exactly for a name object without a common name; it keeps a country exactly when its lower-cased common name has the lower-cased term at some index |
| Fetch.NameFilter | src/js/script.js:123-125 | the filter fails exactly when some country has a name object without a common name |
| Fetch.FilterByName | src/js/script.js:123-125 | the filter loop yields the same result as the filter's definition, stopping at the first throwing test |
| Fetch.NameFilterKeeps | src/js/script.js:123-125 | the kept countries are an order-preserving subsequence of the answer, with each passing country kept as often as it occurs and every other country dropped |
| Fetch.NameFilterMembers | src/js/script.js:124 | a country is kept exactly when it is in the answer and its common name contains the term, ignoring ASCII case; a country without a name object is never kept |
| Fetch.Classify | src/js/script.js:113-139 | cards are shown only for a successful answer, never as an empty list, and never more than the answer's countries |
| Fetch.NoResultsWhen | src/js/script.js:115-139 | "No results were found" is shown exactly when the request failed, the array is empty, the name test throws, or no country passes the name test |
| Fetch.CardsAre | src/js/script.js:123-133 | otherwise there is one card per kept country, in order, each that country's view record; with no client filter every country gets a card |
| Render.CapitalText | src/js/script.js:179 | the capital text; its contract is stated by `Render.CapitalBlank` |
| Render.TldText | src/js/script.js:203 | the domain text; its contract is stated by `Render.TldUnwrapInvisible` |
| Render.ListOrNone | src/js/script.js:204-205 | the currency and language texts; their contract is stated by `Render.ListOrNoneIsNone` and `Render.ListOrNoneReadsBack` |
| Render.BordersText | src/js/script.js:211 | the border text; its contract is stated by `Render.BordersNoneExactly` and `Render.BordersReadBack` |
| Render.CardOf | src/js/script.js:163-182 | the card texts; their contract is stated by `Render.CardAndDetailAgree` |
| Render.DetailOf | src/js/script.js:187-214 | the detail texts; their contract is stated by `Render.CardAndDetailAgree` and `Render.MissingListsShowNone` |
| Render.CardAndDetailAgree | src/js/script.js:165-200 | a record's card and detail view show the same flag, name, population, region and capital |
| Render.ListOrNoneIsNone | src/js/script.js:204-205 | a currency or language text is "None" exactly when the list is empty or is the single item "None" |
| Render.ListOrNoneReadsBack | src/js/script.js:204-205 | a non-empty currency or language list whose items contain no ", " can be read back from its text |
| Render.BordersNoneExactly | src/js/script.js:211 | the border text is "None" exactly when there are no border codes |
| Render.BordersReadBack | src/js/script.js:211 | a non-empty list of border codes without '<' reads back from its text: each code in its own `<span>` tag, in order |
| Render.CapitalBlank | src/js/script.js:179 | the capital text is empty exactly for no capital or one empty capital, and an empty capital list never shows "None" |
| Render.TldUnwrapInvisible | src/js/script.js:152-203 | unwrapping a lone domain does not change the shown domain text: it is always the raw domain list joined with ", " |
| Render.MissingListsShowNone | src/js/script.js:153-211 | a country without currencies, languages or borders shows "None" for each in the detail view |
| Scenarios.FranceScenario | src/js/script.js:98-133 | search text "france" with all regions queries `/name/france` with no client filter, so every country of the answer gets a card, whether named "France" or "Germany" |
| Scenarios.UnitedVerdicts | src/js/script.js:124 | the name test keeps "United Kingdom" for the term "united", ignoring case, and drops "France" |
| Scenarios.KeepThenDrop | src/js/script.js:123-133 | of a passing and a failing country, only the passing one gets a card |
| Scenarios.EuropeUnitedScenario | src/js/script.js:96-133 | region Europe with search "united" fetches the region and filters on the client, so "United Kingdom" is shown and "France" is not |
| Scenarios.EmptyArrayScenario | src/js/script.js:120 | an empty array shows "No results were found" and no card |

## Left out

- Network I/O. `fetch`, the HTTP status and JSON parsing (src/js/script.js:113-117) are foreign asynchronous I/O. The answer is a value: `Failed` stands for a transport error, a non-2xx status or a body that is not an array.
- Loading indicator. The loader class set and cleared around each request (src/js/script.js:111, 119, 136) is DOM state only.
- Debounce timer and stale-response race (src/js/script.js:37-41). `SearchSettled` stands for the timer firing with the last input's text. Timing and the interleaving of late answers are not modelled.
- Card-to-detail carry. The record travels from card to detail view through `JSON.stringify`/`JSON.parse` (src/js/script.js:162, 221). It is taken to be the identity, so the detail view is drawn from the card's own view record.
- Population formatting. `toLocaleString` depends on the locale, so the population is carried as a number.
- Pure UI toggles. These are the home scroll, the night mode, the dropdown and modal classes, the body overflow, the filter label, and the cancel-search button's focus and class changes.
- HTML templates and their missing escaping. Only the field texts are modelled, plus the `<span>` wrapped around each border code, which is part of that field's text.
- Fetch.NameFilterMembers: case is ignored for ASCII letters only, because `toLowerCase` folds all of Unicode and Unicode case mapping is not modelled.
- Render.BordersReadBack: a border code holding '<' is not read back, because the page does not escape it and it cannot be told apart from markup.
- Query.Url: the percent-encoding `fetch` applies to spaces and other characters of a name query is not modelled.
- Other JavaScript value shapes. `Object.values` lists integer-like keys first; the model keeps the currency and language entries in the order given. Falsy values other than `''` and `0` (such as a `NaN` population), non-array `capital`/`tld`/`borders` values, and array elements that are not objects are not modelled.
- Recomputation idempotence. Recomputing the request with an unchanged state gives the same request because `Query.Derive` is a function, so no lemma states it separately.
